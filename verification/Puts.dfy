/** The puts of one upload, one after the other (internal/ingest/service.go): which of them land although attempts
    fail on the way, and how many there are. */
module Puts {
  import opened Base
  import opened Storage
  import opened Retry

  /** What decides whether puts land: the fate of every call, the retry budget and the first sleep. */
  datatype Remote = Remote(plan: nat -> Fate, budget: nat, initial: nat)

  ghost predicate Lands(o: Remote, calls: nat, w: Weather, n: nat) {
    Retry.Reaches(o.plan, calls, w, n, o.budget, o.initial)
  }

  /** No attempt at this put is ever done before the loop gives up. */
  ghost predicate NeverLands(o: Remote, calls: nat, w: Weather) {
    forall n :: !Lands(o, calls, w, n)
  }

  /** So many puts, each with its own weather, land one after the other, and take the calls from one to another. */
  ghost predicate Landed(o: Remote, first: nat, weather: nat -> Weather, puts: nat, next: nat)
    decreases puts
  {
    if puts == 0 then next == first
    else
      var k := puts - 1;
      exists c: nat, n: nat :: Landed(o, first, weather, k, c) && Lands(o, c, weather(k), n) && next == c + n
  }

  ghost predicate AllLand(o: Remote, first: nat, weather: nat -> Weather, puts: nat) {
    exists next :: Landed(o, first, weather, puts, next)
  }

  lemma LandsAtOnce(o: Remote, calls: nat, w: Weather, n: nat, m: nat)
    requires Lands(o, calls, w, n) && Lands(o, calls, w, m)
    ensures n == m
  {
    hide GivesUp;
    ReachesOnce(o.plan, calls, w, n, m, o.budget, o.initial);
  }

  lemma GaveUp(o: Remote, calls: nat, w: Weather, n: nat)
    requires n > 0 && Tries(o.plan, calls, w, n, o.budget, o.initial)
    requires o.plan(calls + n - 1) != Done && GivesUp(w, n, o.budget, o.initial)
    ensures NeverLands(o, calls, w)
  {
    hide GivesUp, Tries;
    forall m ensures !Lands(o, calls, w, m) {
      if Lands(o, calls, w, m) {
        ReachesOnce(o.plan, calls, w, n, m, o.budget, o.initial);
      }
    }
  }

  lemma {:induction false} LandedOnce(o: Remote, first: nat, weather: nat -> Weather, puts: nat, a: nat, b: nat)
    requires Landed(o, first, weather, puts, a) && Landed(o, first, weather, puts, b)
    ensures a == b
    decreases puts
  {
    hide Lands;
    if puts > 0 {
      var c: nat, n: nat :| Landed(o, first, weather, puts - 1, c) && Lands(o, c, weather(puts - 1), n) && a == c + n;
      var d: nat, m: nat :| Landed(o, first, weather, puts - 1, d) && Lands(o, d, weather(puts - 1), m) && b == d + m;
      LandedOnce(o, first, weather, puts - 1, c, d);
      LandsAtOnce(o, c, weather(puts - 1), n, m);
    }
  }

  lemma NonePut(o: Remote, first: nat, weather: nat -> Weather)
    ensures Landed(o, first, weather, 0, first)
  {
  }

  lemma LandsNext(o: Remote, first: nat, weather: nat -> Weather, puts: nat, c: nat, n: nat)
    requires Landed(o, first, weather, puts, c) && Lands(o, c, weather(puts), n)
    ensures Landed(o, first, weather, puts + 1, c + n)
  {
    hide Lands;
  }

  /** Once a put never lands, neither do any number of puts that include it. */
  lemma {:induction false} StopsAt(o: Remote, first: nat, weather: nat -> Weather, puts: nat, c: nat, all: nat)
    requires Landed(o, first, weather, puts, c) && NeverLands(o, c, weather(puts)) && puts < all
    ensures !AllLand(o, first, weather, all)
    decreases all
  {
    hide Lands;
    if next :| Landed(o, first, weather, all, next) {
      var d: nat, n: nat :| Landed(o, first, weather, all - 1, d) && Lands(o, d, weather(all - 1), n) && next == d + n;
      if puts == all - 1 {
        LandedOnce(o, first, weather, puts, c, d);
      } else {
        StopsAt(o, first, weather, puts, c, all - 1);
      }
    }
  }

  lemma FewerLand(o: Remote, first: nat, weather: nat -> Weather, puts: nat)
    requires AllLand(o, first, weather, puts + 1)
    ensures AllLand(o, first, weather, puts)
  {
    hide Lands;
    var next :| Landed(o, first, weather, puts + 1, next);
    var c: nat, n: nat :| Landed(o, first, weather, puts, c) && Lands(o, c, weather(puts), n) && next == c + n;
  }

  /** With one more put that never lands, or one that does. */
  lemma OneMore(o: Remote, first: nat, weather: nat -> Weather, puts: nat, c: nat)
    requires Landed(o, first, weather, puts, c)
    ensures AllLand(o, first, weather, puts + 1) <==> !NeverLands(o, c, weather(puts))
  {
    hide Lands;
    if NeverLands(o, c, weather(puts)) {
      StopsAt(o, first, weather, puts, c, puts + 1);
    } else {
      var n :| Lands(o, c, weather(puts), n);
      LandsNext(o, first, weather, puts, c, n);
    }
  }

  /** When no call fails everything lands, at the first attempt. */
  lemma {:induction false} NothingFails(o: Remote, first: nat, weather: nat -> Weather, puts: nat)
    requires forall n :: o.plan(n) == Done
    ensures Landed(o, first, weather, puts, first + puts) && AllLand(o, first, weather, puts)
    decreases puts
  {
    if puts > 0 {
      var k: nat := puts - 1;
      NothingFails(o, first, weather, k);
      assert Lands(o, first + k, weather(k), 1);
      LandsNext(o, first, weather, k, first + k, 1);
    }
    assert Landed(o, first, weather, puts, first + puts);
  }

  // ---- how many puts ----

  /** How many chunks of a size it takes to cover so many bytes. */
  function Pieces(bytes: nat, size: nat): nat
    requires size > 0
  {
    (bytes + size - 1) / size
  }

  /** The number of the read that finds the end of so many bytes, a chunk a read, counted from 0. */
  function LastRead(bytes: nat, size: nat): nat
    requires size > 0
  {
    bytes / size
  }

  lemma PiecesOf(full: nat, last: nat, size: nat)
    requires 0 < last <= size
    ensures Pieces(full * size + last, size) == full + 1
  {
    Quotients(full * size + last + size - 1, size, full + 1, last - 1);
  }

  lemma PiecesFull(full: nat, size: nat)
    requires size > 0
    ensures Pieces(full * size, size) == full
  {
    Quotients(full * size + size - 1, size, full, size - 1);
  }

  lemma PiecesAtLeast(full: nat, more: nat, size: nat)
    requires size > 0 && more > 0
    ensures Pieces(full * size + more, size) > full
  {
    var n := full * size + more + size - 1;
    var q, r := n / size, n % size;
    assert n == q * size + r;
    if q <= full {
      Times(q, full, size);
    }
  }

  /** The length of parts that all have one size. */
  lemma {:induction false} EqualParts(parts: seq<Bytes>, size: nat)
    requires forall i :: 0 <= i < |parts| ==> |parts[i]| == size
    ensures |Concat(parts)| == |parts| * size
  {
    if parts != [] {
      var k := |parts| - 1;
      EqualParts(parts[..k], size);
      assert (k + 1) * size == k * size + size;
    }
  }

  /** Full parts read so far, and what is still to come, or nothing, or a last part. */
  lemma PartsRead(parts: seq<Bytes>, size: nat, more: nat)
    requires size > 0 && forall i :: 0 <= i < |parts| ==> |parts[i]| == size
    ensures more > 0 ==> Pieces(|Concat(parts)| + more, size) > |parts|
    ensures more == 0 ==> Pieces(|Concat(parts)|, size) == |parts|
    ensures 0 < more <= size ==> Pieces(|Concat(parts)| + more, size) == |parts| + 1
    ensures more < size ==> LastRead(|Concat(parts)| + more, size) == |parts|
  {
    hide Pieces, Concat;
    EqualParts(parts, size);
    if more < size {
      Quotients(|Concat(parts)| + more, size, |parts|, more);
    }
    if more == 0 {
      PiecesFull(|parts|, size);
    } else {
      PiecesAtLeast(|parts|, more, size);
      if more <= size {
        PiecesOf(|parts|, more, size);
      }
    }
  }
}
