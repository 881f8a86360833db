/** GUIDs as text: formatGUID (internal/zfsstream/parse.go) and canonicalGUID (internal/validation/validation.go). */
module GuidText {
  import opened Base
  import opened Numerals

  const LIMIT := 0x1_0000_0000_0000_0000

  function FormatGuid(guid: nat): string {
    if guid == 0 then "0" else "0x" + Numeral(guid, 16)
  }

  /** The text of a GUID, apart from how it is made: "0" for zero; otherwise 0x and lower-case hexadecimal digits,
      the first of them not 0, whose value is the GUID. */
  predicate IsGuidText(s: string, guid: nat) {
    if guid == 0 then s == "0"
    else
      && |s| > 2 && s[0] == '0' && s[1] == 'x' && s[2] != '0'
      && (forall i :: 2 <= i < |s| ==> '0' <= s[i] <= '9' || 'a' <= s[i] <= 'f')
      && Value(s[2..], 16) == guid
  }

  /** formatGUID writes that text and no other. */
  lemma FormatText(s: string, guid: nat)
    ensures s == FormatGuid(guid) <==> IsGuidText(s, guid)
  {
    if guid != 0 {
      NumeralRoundTrip(guid, 16);
      NoLeadingZero(guid, 16);
      var digits := Numeral(guid, 16);
      if s == "0x" + digits {
        assert s[2..] == digits;
        assert forall i :: 2 <= i < |s| ==> s[i] == digits[i - 2] && DigitValue(digits[i - 2]) < 16;
      }
      if IsGuidText(s, guid) {
        assert IsNumeral(s[2..], 16);
        NumeralUnique(s[2..], 16);
        assert s == "0x" + s[2..];
      }
    }
  }

  lemma FormatInjective(a: nat, b: nat)
    requires FormatGuid(a) == FormatGuid(b)
    ensures a == b
  {
    if a != 0 && b != 0 {
      assert FormatGuid(a)[2..] == Numeral(a, 16) && FormatGuid(b)[2..] == Numeral(b, 16);
      NumeralInjective(a, b, 16);
    } else {
      assert a != 0 ==> |FormatGuid(a)| > 2;
      assert b != 0 ==> |FormatGuid(b)| > 2;
    }
  }

  // ---- strings.TrimSpace, strings.ToLower, strings.TrimPrefix, strconv.ParseUint ----

  predicate IsSpace(c: char) {
    c in {' ', '\t', '\n', '\r', 11 as char, 12 as char, 0x85 as char, 0xA0 as char}
  }

  function TrimLeft(s: string): string {
    if s != "" && IsSpace(s[0]) then TrimLeft(s[1..]) else s
  }

  function TrimRight(s: string): string {
    if s != "" && IsSpace(s[|s| - 1]) then TrimRight(s[..|s| - 1]) else s
  }

  function TrimSpace(s: string): string {
    TrimRight(TrimLeft(s))
  }

  function LowerChar(c: char): char {
    if 'A' <= c <= 'Z' then c - 'A' + 'a' else c
  }

  function Lower(s: string): string {
    seq(|s|, i requires 0 <= i < |s| => LowerChar(s[i]))
  }

  function WithoutPrefix(s: string): string {
    if |s| >= 2 && s[0] == '0' && s[1] == 'x' then s[2..] else s
  }

  /** ParseUint(s, 16, 64) of a lower-case string. */
  function ParseHex(s: string): Option<nat> {
    if IsNumeral(s, 16) && Value(s, 16) < LIMIT then Some(Value(s, 16)) else None
  }

  function Canonical(s: string): string {
    var value := Lower(TrimSpace(s));
    match ParseHex(WithoutPrefix(value))
    case None => value
    case Some(guid) => FormatGuid(guid)
  }

  // ---- spellings ----

  predicate IsHexDigit(c: char) {
    '0' <= c <= '9' || 'a' <= c <= 'f' || 'A' <= c <= 'F'
  }

  predicate Prefixed(s: string) {
    |s| >= 2 && s[0] == '0' && s[1] in {'x', 'X'}
  }

  function Body(s: string): string {
    if Prefixed(s) then s[2..] else s
  }

  predicate AllHex(s: string) {
    forall i :: 0 <= i < |s| ==> IsHexDigit(s[i])
  }

  /** A hexadecimal spelling of a number: digits in either case, any number of leading zeros, and an optional 0x. */
  predicate Spells(s: string, guid: nat) {
    Body(s) != "" && AllHex(Body(s)) && Value(Lower(Body(s)), 16) == guid
  }

  lemma {:induction false} TrimNothing(s: string)
    requires s != "" ==> !IsSpace(s[0]) && !IsSpace(s[|s| - 1])
    ensures TrimSpace(s) == s
  {
  }

  lemma LowerDigits(s: string)
    requires s != "" && AllHex(s)
    ensures IsNumeral(Lower(s), 16)
  {
    forall i | 0 <= i < |s| ensures DigitValue(Lower(s)[i]) < 16 {
      assert IsHexDigit(s[i]);
    }
  }

  lemma SpellingParts(s: string)
    requires Body(s) != "" && AllHex(Body(s))
    ensures WithoutPrefix(Lower(s)) == Lower(Body(s))
  {
    var body := Body(s);
    assert IsHexDigit(body[0]);
    if Prefixed(s) {
      assert Lower(s)[2..] == Lower(body);
    } else if |s| >= 2 {
      assert IsHexDigit(body[1]);
    }
  }

  /** Latin-1 white space. */
  predicate Blank(s: string) {
    forall i :: 0 <= i < |s| ==> s[i] as int in {9, 10, 11, 12, 13, 32, 0x85, 0xA0}
  }

  lemma {:induction false} BlankLeft(before: string, s: string)
    requires Blank(before) && (s != "" ==> !IsSpace(s[0]))
    ensures TrimLeft(before + s) == s
  {
    if before == "" {
      assert before + s == s;
    } else {
      assert before[0] as int in {9, 10, 11, 12, 13, 32, 0x85, 0xA0};
      assert (before + s)[1..] == before[1..] + s;
      BlankLeft(before[1..], s);
    }
  }

  lemma {:induction false} BlankRight(s: string, after: string)
    requires Blank(after) && (s != "" ==> !IsSpace(s[|s| - 1]))
    ensures TrimRight(s + after) == s
    decreases |after|
  {
    if after == "" {
      assert s + after == s;
    } else {
      var k := |after| - 1;
      assert after[k] as int in {9, 10, 11, 12, 13, 32, 0x85, 0xA0};
      assert (s + after)[..|s + after| - 1] == s + after[..k];
      BlankRight(s, after[..k]);
    }
  }

  lemma SpellingEnds(s: string)
    requires Body(s) != "" && AllHex(Body(s))
    ensures s != "" && !IsSpace(s[0]) && !IsSpace(s[|s| - 1])
  {
    var body := Body(s);
    assert IsHexDigit(body[0]) && IsHexDigit(body[|body| - 1]);
    assert s[|s| - 1] == body[|body| - 1];
  }

  /** Every spelling of a 64-bit GUID, with any white space around it, has the GUID's text as its canonical form. */
  lemma SpellingCanonical(before: string, s: string, after: string, guid: nat)
    requires Blank(before) && Spells(s, guid) && Blank(after) && guid < 0x1_0000_0000_0000_0000
    ensures IsGuidText(Canonical(before + s + after), guid)
  {
    hide FormatGuid, Value, IsNumeral, Lower, TrimLeft, TrimRight, WithoutPrefix, Body, AllHex, Blank, IsSpace;
    SpellingEnds(s);
    assert before + s + after == before + (s + after);
    BlankLeft(before, s + after);
    BlankRight(s, after);
    SpellingParts(s);
    LowerDigits(Body(s));
    FormatText(FormatGuid(guid), guid);
  }

  /** What does not spell a 64-bit GUID is only trimmed and put into lower case. */
  lemma OthersLowered(s: string)
    requires forall guid: nat :: Spells(Lower(TrimSpace(s)), guid) ==> guid >= 0x1_0000_0000_0000_0000
    ensures Canonical(s) == Lower(TrimSpace(s))
  {
    hide FormatGuid, TrimSpace;
    var value := Lower(TrimSpace(s));
    if ParseHex(WithoutPrefix(value)).Some? {
      ParsedSpells(value);
    }
  }

  lemma ParsedSpells(value: string)
    requires ParseHex(WithoutPrefix(value)).Some? && Lower(value) == value
    ensures Spells(value, ParseHex(WithoutPrefix(value)).value)
  {
    var digits := WithoutPrefix(value);
    assert Body(value) == digits;
    forall i | 0 <= i < |digits| ensures IsHexDigit(digits[i]) && Lower(digits)[i] == digits[i] {
      assert DigitValue(digits[i]) < 16;
    }
    assert Lower(digits) == digits;
  }

  lemma FormatSpells(guid: nat)
    ensures Spells(FormatGuid(guid), guid)
  {
    if guid == 0 {
      assert Body("0") == "0" && Lower("0") == "0" && "0"[..0] == "" && IsHexDigit("0"[0]);
      assert Value("0", 16) == 0;
    } else {
      var digits := Numeral(guid, 16);
      NumeralRoundTrip(guid, 16);
      assert Body(FormatGuid(guid)) == digits;
      forall i | 0 <= i < |digits| ensures IsHexDigit(digits[i]) && Lower(digits)[i] == digits[i] {
        assert DigitValue(digits[i]) < 16;
      }
      assert Lower(digits) == digits;
    }
  }

  lemma {:induction false} TrimmedEnds(s: string)
    ensures TrimSpace(s) != "" ==> !IsSpace(TrimSpace(s)[0]) && !IsSpace(TrimSpace(s)[|TrimSpace(s)| - 1])
  {
    LeftTrimmed(s);
    RightTrimmed(TrimLeft(s));
  }

  lemma {:induction false} LeftTrimmed(s: string)
    ensures TrimLeft(s) != "" ==> !IsSpace(TrimLeft(s)[0])
  {
    if s != "" && IsSpace(s[0]) {
      LeftTrimmed(s[1..]);
    }
  }

  lemma {:induction false} RightTrimmed(s: string)
    ensures TrimRight(s) <= s && (TrimRight(s) != "" ==> !IsSpace(TrimRight(s)[|TrimRight(s)| - 1]))
  {
    if s != "" && IsSpace(s[|s| - 1]) {
      RightTrimmed(s[..|s| - 1]);
    }
  }

  /** On every string, and so on every spelling, canonical form is canonical. */
  lemma CanonicalIdempotent(s: string)
    ensures Canonical(Canonical(s)) == Canonical(s)
  {
    var trimmed := TrimSpace(s);
    var value := Lower(trimmed);
    var parsed := ParseHex(WithoutPrefix(value));
    if parsed.Some? {
      var text := FormatGuid(parsed.value);
      FormatSpells(parsed.value);
      SpellingCanonical("", text, "", parsed.value);
      assert "" + text + "" == text;
      FormatText(Canonical(text), parsed.value);
    } else {
      TrimmedEnds(s);
      assert value != "" ==> !IsSpace(value[0]) && !IsSpace(value[|value| - 1]);
      TrimNothing(value);
      assert Lower(value) == value;
    }
  }
}
