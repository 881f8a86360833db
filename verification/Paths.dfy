/** Slash-separated paths: strings.Split, path.Join, path.Clean and path.Base. */
module Paths {

  function SplitSlash(s: string): seq<string>
    ensures |SplitSlash(s)| >= 1
  {
    if s == "" then [""]
    else
      var before := SplitSlash(s[..|s| - 1]);
      var c := s[|s| - 1];
      if c == '/' then before + [""] else Extend(before, [c])
  }

  /** The same parts with more text at the end of the last. */
  function Extend(parts: seq<string>, text: string): (r: seq<string>)
    requires parts != []
    ensures |r| == |parts|
  {
    parts[..|parts| - 1] + [parts[|parts| - 1] + text]
  }

  lemma ExtendTwice(parts: seq<string>, a: string, b: string)
    requires parts != []
    ensures Extend(parts, "") == parts && Extend(Extend(parts, a), b) == Extend(parts, a + b)
  {
    var k := |parts| - 1;
    assert Extend(parts, a)[..k] == parts[..k];
    assert (parts[k] + a) + b == parts[k] + (a + b);
    assert parts == parts[..k] + [parts[k]];
    assert parts[k] + "" == parts[k];
  }

  function JoinSlash(parts: seq<string>): string {
    if parts == [] then ""
    else if |parts| == 1 then parts[0]
    else JoinSlash(parts[..|parts| - 1]) + "/" + parts[|parts| - 1]
  }

  predicate SlashFree(s: string) {
    '/' !in s
  }

  predicate AllSlashFree(parts: seq<string>) {
    forall i :: 0 <= i < |parts| ==> SlashFree(parts[i])
  }

  lemma {:induction false} SplitAppend(s: string, part: string)
    requires SlashFree(part)
    ensures SplitSlash(s + part) == Extend(SplitSlash(s), part)
    decreases |part|
  {
    hide Extend;
    if part == "" {
      assert s + part == s;
      ExtendTwice(SplitSlash(s), "", "");
    } else {
      var k := |part| - 1;
      SplitAppend(s, part[..k]);
      assert (s + part)[..|s + part| - 1] == s + part[..k];
      assert (s + part)[|s + part| - 1] == part[k];
      assert part == part[..k] + [part[k]];
      ExtendTwice(SplitSlash(s), part[..k], [part[k]]);
    }
  }

  lemma SplitSeparated(s: string, part: string)
    requires SlashFree(part)
    ensures SplitSlash(s + "/" + part) == SplitSlash(s) + [part]
  {
    assert (s + "/")[..|s|] == s;
    assert SplitSlash(s + "/") == SplitSlash(s) + [""];
    SplitAppend(s + "/", part);
    assert (SplitSlash(s) + [""])[..|SplitSlash(s)|] == SplitSlash(s);
    assert "" + part == part;
  }

  lemma {:induction false} JoinSplitFirst(first: string, parts: seq<string>)
    requires AllSlashFree(parts)
    ensures SplitSlash(JoinSlash([first] + parts)) == SplitSlash(first) + parts
  {
    hide SplitSlash;
    if parts == [] {
      assert [first] + parts == [first];
      assert SplitSlash(first) + parts == SplitSlash(first);
    } else {
      var k := |parts| - 1;
      var all := [first] + parts;
      assert all[..|all| - 1] == [first] + parts[..k];
      JoinSplitFirst(first, parts[..k]);
      SplitSeparated(JoinSlash([first] + parts[..k]), parts[k]);
      assert parts == parts[..k] + [parts[k]];
    }
  }

  lemma SplitOne(part: string)
    requires SlashFree(part)
    ensures SplitSlash(part) == [part]
  {
    SplitAppend("", part);
    assert "" + part == part;
    assert SplitSlash("") == [""];
  }

  lemma {:induction false} JoinAppend(a: seq<string>, b: seq<string>)
    requires a != [] && b != []
    ensures JoinSlash(a + b) == JoinSlash(a) + "/" + JoinSlash(b)
    decreases |b|
  {
    var k := |b| - 1;
    assert (a + b)[..|a + b| - 1] == a + b[..k];
    if k == 0 {
      assert a + b[..0] == a;
    } else {
      JoinAppend(a, b[..k]);
    }
  }

  lemma JoinExtend(parts: seq<string>, text: string)
    requires parts != []
    ensures JoinSlash(Extend(parts, text)) == JoinSlash(parts) + text
  {
    var k := |parts| - 1;
    if k > 0 {
      assert Extend(parts, text)[..k] == parts[..k];
    }
  }

  /** Joining undoes splitting, on every string. */
  lemma {:induction false} JoinSplit(s: string)
    ensures JoinSlash(SplitSlash(s)) == s
  {
    if s != "" {
      var k := |s| - 1;
      JoinSplit(s[..k]);
      assert s == s[..k] + [s[k]];
      var before := SplitSlash(s[..k]);
      if s[k] == '/' {
        assert (before + [""])[..|before|] == before;
      } else {
        JoinExtend(before, [s[k]]);
      }
    }
  }

  /** Splitting undoes joining parts that hold no slash. */
  lemma SplitJoin(parts: seq<string>)
    requires parts != [] && AllSlashFree(parts)
    ensures SplitSlash(JoinSlash(parts)) == parts
  {
    hide SplitSlash, JoinSlash;
    assert parts == [parts[0]] + parts[1..];
    SplitOne(parts[0]);
    JoinSplitFirst(parts[0], parts[1..]);
  }

  lemma JoinInjective(a: seq<string>, b: seq<string>)
    requires a != [] && b != [] && AllSlashFree(a) && AllSlashFree(b) && JoinSlash(a) == JoinSlash(b)
    ensures a == b
  {
    SplitJoin(a);
    SplitJoin(b);
  }

  lemma {:induction false} SplitSlashFree(s: string)
    ensures AllSlashFree(SplitSlash(s)) && JoinSlash(SplitSlash(s)) == s
  {
    if s != "" {
      var t, c := s[..|s| - 1], s[|s| - 1];
      SplitSlashFree(t);
      var before := SplitSlash(t);
      var k := |before| - 1;
      assert s == t + [c];
      if c == '/' {
        assert (before + [""])[..|before|] == before;
      } else {
        var after := before[..k] + [before[k] + [c]];
        assert after[..k] == before[..k];
      }
    }
  }

  // ---- path.Clean, on parts ----

  /** One part against the stack of those kept so far; the path is not rooted. */
  function Push(stack: seq<string>, part: string): seq<string> {
    if part == "" || part == "." then stack
    else if part == ".." then
      (if stack != [] && stack[|stack| - 1] != ".." then stack[..|stack| - 1] else stack + [".."])
    else stack + [part]
  }

  function Cleaned(stack: seq<string>, parts: seq<string>): seq<string> {
    if parts == [] then stack else Push(Cleaned(stack, parts[..|parts| - 1]), parts[|parts| - 1])
  }

  /** A part that Clean keeps as it is. */
  predicate Plain(part: string) {
    part != "" && part != "." && part != ".." && SlashFree(part)
  }

  predicate AllPlain(parts: seq<string>) {
    forall i :: 0 <= i < |parts| ==> Plain(parts[i])
  }

  /** What Clean leaves: ".." only in front, then plain parts. */
  predicate IsClean(parts: seq<string>) {
    forall i :: 0 <= i < |parts| ==>
      && parts[i] != "" && parts[i] != "." && SlashFree(parts[i])
      && (parts[i] == ".." ==> forall j :: 0 <= j < i ==> parts[j] == "..")
  }

  lemma PushClean(stack: seq<string>, part: string)
    requires IsClean(stack) && SlashFree(part)
    ensures IsClean(Push(stack, part))
  {
  }

  lemma {:induction false} CleanedIsClean(stack: seq<string>, parts: seq<string>)
    requires IsClean(stack) && AllSlashFree(parts)
    ensures IsClean(Cleaned(stack, parts))
  {
    if parts != [] {
      CleanedIsClean(stack, parts[..|parts| - 1]);
      PushClean(Cleaned(stack, parts[..|parts| - 1]), parts[|parts| - 1]);
    }
  }

  /** Clean parts pass through unchanged. */
  lemma {:induction false} CleanStays(parts: seq<string>)
    requires IsClean(parts)
    ensures Cleaned([], parts) == parts
  {
    if parts != [] {
      var k := |parts| - 1;
      CleanStays(parts[..k]);
      assert parts == parts[..k] + [parts[k]];
      if parts[k] == ".." && k > 0 {
        assert parts[k - 1] == "..";
      }
    }
  }

  lemma {:induction false} CleanedAppend(stack: seq<string>, a: seq<string>, b: seq<string>)
    ensures Cleaned(stack, a + b) == Cleaned(Cleaned(stack, a), b)
  {
    if b == [] {
      assert a + b == a;
    } else {
      var k := |b| - 1;
      assert (a + b)[..|a + b| - 1] == a + b[..k];
      CleanedAppend(stack, a, b[..k]);
    }
  }

  lemma {:induction false} PlainPushes(stack: seq<string>, parts: seq<string>)
    requires AllPlain(parts)
    ensures Cleaned(stack, parts) == stack + parts
  {
    if parts != [] {
      var k := |parts| - 1;
      PlainPushes(stack, parts[..k]);
      assert parts == parts[..k] + [parts[k]];
    }
  }

  function Clean(s: string): string {
    if s == "" then "."
    else
      var parts := Cleaned([], SplitSlash(s));
      if parts == [] then "." else JoinSlash(parts)
  }

  function NonEmpty(parts: seq<string>): seq<string> {
    if parts == [] then []
    else
      var before := NonEmpty(parts[..|parts| - 1]);
      if parts[|parts| - 1] == "" then before else before + [parts[|parts| - 1]]
  }

  /** path.Join of elements that do not start with a slash. */
  function PathJoin(elems: seq<string>): string {
    var kept := NonEmpty(elems);
    if kept == [] then "" else Clean(JoinSlash(kept))
  }

  lemma {:induction false} NonEmptyAll(parts: seq<string>)
    requires forall i :: 0 <= i < |parts| ==> parts[i] != ""
    ensures NonEmpty(parts) == parts
  {
    if parts != [] {
      NonEmptyAll(parts[..|parts| - 1]);
      assert parts == parts[..|parts| - 1] + [parts[|parts| - 1]];
    }
  }

  lemma {:induction false} NonEmptyFirst(first: string, parts: seq<string>)
    requires forall i :: 0 <= i < |parts| ==> parts[i] != ""
    ensures NonEmpty([first] + parts) == if first == "" then parts else [first] + parts
  {
    if parts == [] {
      assert [first] + parts == [first] && [first][..0] == [];
    } else {
      var k := |parts| - 1;
      assert ([first] + parts)[..|[first] + parts| - 1] == [first] + parts[..k];
      NonEmptyFirst(first, parts[..k]);
      assert parts == parts[..k] + [parts[k]];
    }
  }

  /** The parts a prefix contributes to the paths under it. */
  function PrefixParts(prefix: string): seq<string> {
    Cleaned([], SplitSlash(prefix))
  }

  /** What Clean makes of the parts it kept. */
  function CleanText(parts: seq<string>): string {
    if parts == [] then "." else JoinSlash(parts)
  }

  predicate AllNonEmpty(parts: seq<string>) {
    forall i :: 0 <= i < |parts| ==> parts[i] != ""
  }

  /** Joining parts under any prefix cleans them one after the other against what the prefix cleans to. */
  lemma JoinUnder(prefix: string, parts: seq<string>)
    requires AllNonEmpty(parts) && AllSlashFree(parts) && parts != []
    ensures PathJoin([prefix] + parts) == CleanText(Cleaned(PrefixParts(prefix), parts))
    ensures IsClean(PrefixParts(prefix)) && IsClean(Cleaned(PrefixParts(prefix), parts))
  {
    hide Cleaned, SplitSlash, JoinSlash;
    SplitSlashFree(prefix);
    EmptyClean();
    CleanedIsClean([], SplitSlash(prefix));
    CleanedIsClean(PrefixParts(prefix), parts);
    NonEmptyFirst(prefix, parts);
    if prefix == "" {
      SplitJoin(parts);
      assert PrefixParts("") == [] by { EmptyPrefix(); }
      JoinedNonEmpty(parts);
    } else {
      JoinSplitFirst(prefix, parts);
      CleanedAppend([], SplitSlash(prefix), parts);
      JoinedNonEmpty([prefix] + parts);
    }
  }

  lemma EmptyClean()
    ensures IsClean([])
  {
  }

  lemma EmptyPrefix()
    ensures PrefixParts("") == []
  {
    assert SplitSlash("") == [""];
    assert [""][..0] == [];
  }

  lemma {:induction false} JoinedNonEmpty(parts: seq<string>)
    requires parts != [] && parts[0] != ""
    ensures JoinSlash(parts) != ""
  {
    if |parts| > 1 {
      JoinedNonEmpty(parts[..|parts| - 1]);
    }
  }

  /** A cleaned path's own parts are its prefix parts. */
  lemma CleanedPrefix(parts: seq<string>)
    requires IsClean(parts)
    ensures PrefixParts(CleanText(parts)) == parts
  {
    hide SplitSlash, JoinSlash, Cleaned;
    if parts == [] {
      DotPrefix();
    } else {
      SplitJoin(parts);
      CleanStays(parts);
    }
  }

  lemma DotPrefix()
    ensures PrefixParts(".") == []
  {
    SplitOne(".");
    assert ["."][..0] == [];
  }

  /** A string is the text without the slashes at its ends, and those. */
  lemma {:induction false} TrimTrailingIs(s: string)
    ensures TrimTrailing(s) <= s && (TrimTrailing(s) != "" ==> TrimTrailing(s)[|TrimTrailing(s)| - 1] != '/')
    ensures forall i :: |TrimTrailing(s)| <= i < |s| ==> s[i] == '/'
  {
    if s != "" && s[|s| - 1] == '/' {
      TrimTrailingIs(s[..|s| - 1]);
    }
  }

  /** path.Base: the last part once trailing slashes are gone. */
  function TrimTrailing(s: string): string {
    if s != "" && s[|s| - 1] == '/' then TrimTrailing(s[..|s| - 1]) else s
  }

  function PathBase(s: string): string {
    if s == "" then "."
    else
      var t := TrimTrailing(s);
      if t == "" then "/" else var parts := SplitSlash(t); parts[|parts| - 1]
  }

  lemma BaseOfJoined(parts: seq<string>)
    requires parts != [] && AllSlashFree(parts) && parts[0] != "" && parts[|parts| - 1] != ""
    ensures PathBase(JoinSlash(parts)) == parts[|parts| - 1]
  {
    var k := |parts| - 1;
    SplitJoin(parts);
    JoinedNonEmpty(parts);
    var s := JoinSlash(parts);
    assert s[|s| - 1] == parts[k][|parts[k]| - 1];
    assert SlashFree(parts[k]);
  }
}
