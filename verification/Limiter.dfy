/** The upload rate limiter (internal/sshserver/rate_limit.go): a token bucket. Tokens are reals, times are in
    nanoseconds. */
module Limiter {

  const SECOND: real := 1_000_000_000.0
  const MILLISECOND := 1_000_000
  const MIN_BURST := 32 * 1024
  const MAX_BURST := 1024 * 1024

  /** A client may ask for less than the configured rate, never for more; zero or less means no limit. */
  function EffectiveRate(configured: int, hasRequest: bool, requested: int): (rate: int)
    ensures configured > 0 ==> 0 < rate <= configured
    ensures configured > 0 && hasRequest && 0 < requested ==> rate <= requested
    ensures configured > 0 ==> rate == configured || (hasRequest && rate == requested)
    ensures configured <= 0 ==> rate == requested
  {
    if configured <= 0 then requested
    else if !hasRequest || requested <= 0 || requested >= configured then configured
    else requested
  }

  function Burst(rate: int): (burst: int)
    requires rate > 0
    ensures 32 * 1024 <= burst <= 1024 * 1024
    ensures burst > 32 * 1024 ==> 4 * burst <= rate
    ensures burst < 1024 * 1024 ==> rate < 4 * (burst + 1)
  {
    var quarter := rate / 4;
    if quarter < MIN_BURST then MIN_BURST else if quarter > MAX_BURST then MAX_BURST else quarter
  }

  function Min(a: real, b: real): real {
    if a < b then a else b
  }

  datatype Bucket = Bucket(tokens: real, last: int)

  predicate Filled(b: Bucket, rate: int)
    requires rate > 0
  {
    0.0 <= b.tokens <= Burst(rate) as real
  }

  function Seconds(nanos: int): real {
    nanos as real / SECOND
  }

  /** The tokens a stretch of time is worth. */
  function Gain(rate: int, nanos: int): real {
    Seconds(nanos) * rate as real
  }

  lemma GainGrows(rate: int, a: int, b: int)
    requires rate > 0 && a <= b
    ensures Gain(rate, a) <= Gain(rate, b) && Gain(rate, 0) == 0.0
  {
    Scale(Seconds(a), Seconds(b), rate);
  }

  lemma GainAdds(rate: int, a: int, b: int)
    ensures Gain(rate, a) + Gain(rate, b) == Gain(rate, a + b)
  {
    assert Seconds(a) + Seconds(b) == Seconds(a + b);
  }

  lemma Scale(a: real, b: real, rate: int)
    requires a <= b && rate > 0
    ensures a * rate as real <= b * rate as real
  {
  }

  function Refill(b: Bucket, rate: int, now: int): Bucket
    requires rate > 0
  {
    if now < b.last then b.(last := now)
    else Bucket(Min(Burst(rate) as real, b.tokens + Gain(rate, now - b.last)), now)
  }

  /** Take what was allowed, give back what the reader did not use. */
  function HandOut(b: Bucket, rate: int, allowed: nat, n: nat): Bucket
    requires rate > 0 && n <= allowed
  {
    var left := b.tokens - allowed as real;
    b.(tokens := if n < allowed then Min(Burst(rate) as real, left + (allowed - n) as real) else left)
  }

  // ---- runs ----

  datatype Event = Tick(now: int) | Hand(allowed: nat, n: nat)

  function After(b: Bucket, rate: int, e: Event): Bucket
    requires rate > 0
  {
    match e
    case Tick(now) => Refill(b, rate, now)
    case Hand(allowed, n) => if n <= allowed then HandOut(b, rate, allowed, n) else b
  }

  /** A clock that does not run backwards, and no more handed out than there are whole tokens. */
  predicate Legal(b: Bucket, e: Event) {
    match e
    case Tick(now) => b.last <= now
    case Hand(allowed, n) => n <= allowed && allowed as real <= b.tokens
  }

  predicate IsRun(b: Bucket, rate: int, events: seq<Event>)
    requires rate > 0
  {
    events == [] || (IsRun(b, rate, events[..|events| - 1])
                     && Legal(Final(b, rate, events[..|events| - 1]), events[|events| - 1]))
  }

  function Final(b: Bucket, rate: int, events: seq<Event>): Bucket
    requires rate > 0
  {
    if events == [] then b else After(Final(b, rate, events[..|events| - 1]), rate, events[|events| - 1])
  }

  /** The bytes handed to the caller. */
  function Bytes(events: seq<Event>): nat {
    if events == [] then 0
    else Bytes(events[..|events| - 1]) + (match events[|events| - 1] case Tick(_) => 0 case Hand(_, n) => n)
  }

  lemma EventKeeps(b: Bucket, rate: int, e: Event)
    requires rate > 0 && Filled(b, rate) && Legal(b, e)
    ensures var a := After(b, rate, e);
      && Filled(a, rate) && b.last <= a.last
      && (match e case Tick(_) => 0 case Hand(_, n) => n) as real + a.tokens <= b.tokens + Gain(rate, a.last - b.last)
  {
    hide Gain, Burst;
    GainGrows(rate, 0, After(b, rate, e).last - b.last);
  }

  /** Every run keeps the tokens between zero and the burst, refunds included, and hands out no more than it had and
      gained. */
  lemma {:induction false} RunFilled(b: Bucket, rate: int, events: seq<Event>)
    requires rate > 0 && Filled(b, rate) && IsRun(b, rate, events)
    ensures var end := Final(b, rate, events);
      && Filled(end, rate) && b.last <= end.last
      && Bytes(events) as real + end.tokens <= b.tokens + Gain(rate, end.last - b.last)
  {
    hide Gain, Burst, After, Legal, Filled;
    if events == [] {
      GainGrows(rate, 0, 0);
    } else {
      var k := |events| - 1;
      RunFilled(b, rate, events[..k]);
      var mid := Final(b, rate, events[..k]);
      EventKeeps(mid, rate, events[k]);
      var end := Final(b, rate, events);
      GainAdds(rate, mid.last - b.last, end.last - mid.last);
    }
  }

  lemma {:induction false} RunAppend(b: Bucket, rate: int, before: seq<Event>, window: seq<Event>)
    requires rate > 0 && IsRun(b, rate, before + window)
    ensures IsRun(b, rate, before) && IsRun(Final(b, rate, before), rate, window)
    ensures Final(b, rate, before + window) == Final(Final(b, rate, before), rate, window)
    decreases |window|
  {
    if window == [] {
      assert before + window == before;
    } else {
      var k := |window| - 1;
      assert (before + window)[..|before + window| - 1] == before + window[..k];
      RunAppend(b, rate, before, window[..k]);
    }
  }

  /** Over every window of every run the limiter hands out at most the burst plus the rate times the window. */
  lemma WindowBound(b: Bucket, rate: int, before: seq<Event>, window: seq<Event>)
    requires rate > 0 && Filled(b, rate) && IsRun(b, rate, before + window)
    ensures IsRun(b, rate, before)
    ensures var start, end := Final(b, rate, before), Final(b, rate, before + window);
      Bytes(window) as real <= Burst(rate) as real + Seconds(end.last - start.last) * rate as real
  {
    hide Burst, Bytes, Final, IsRun, Seconds;
    RunAppend(b, rate, before, window);
    RunFilled(b, rate, before);
    RunFilled(Final(b, rate, before), rate, window);
  }

  // ---- the reader ----

  function Ceil(x: real): (r: int)
    ensures x <= r as real < x + 1.0
  {
    -((-x).Floor)
  }

  /** How long Read sleeps when there is less than one token: until one is there, rounded up to a nanosecond, and at
      least a millisecond. */
  function Wait(tokens: real, rate: int): (nanos: int)
    requires rate > 0
    ensures nanos >= 1_000_000 && nanos as real >= (1.0 - tokens) / rate as real * 1_000_000_000.0
    ensures nanos == 1_000_000 || (nanos as real) < (1.0 - tokens) / rate as real * 1_000_000_000.0 + 1.0
  {
    var exact := Ceil((1.0 - tokens) / rate as real * SECOND);
    if exact < MILLISECOND then MILLISECOND else exact
  }

  /** After the computed wait there is a whole token, however late the timer fires. */
  lemma WaitSuffices(b: Bucket, rate: int, now: int)
    requires rate > 0 && 0.0 <= b.tokens < 1.0 && now >= b.last + Wait(b.tokens, rate)
    ensures Refill(b, rate, now).tokens >= 1.0
  {
    var need := (1.0 - b.tokens) / rate as real;
    Quotient(1.0 - b.tokens, rate);
    assert need * SECOND <= (now - b.last) as real;
    NanosCover(need, now - b.last);
    Scale(need, Seconds(now - b.last), rate);
    assert Gain(rate, now - b.last) >= 1.0 - b.tokens;
    hide Gain;
  }

  lemma Quotient(x: real, rate: int)
    requires rate > 0
    ensures x / rate as real * rate as real == x
  {
  }

  lemma NanosCover(need: real, nanos: int)
    requires need * SECOND <= nanos as real
    ensures need <= Seconds(nanos)
  {
  }

  class RateLimitedReader {
    const rate: int
    var tokens: real
    var last: int

    constructor (rate: int, now: int)
      requires rate > 0
      ensures this.rate == rate && last == now && tokens == Burst(rate) as real && Valid()
    {
      this.rate, this.tokens, this.last := rate, Burst(rate) as real, now;
    }

    ghost predicate Valid()
      reads this
    {
      rate > 0 && Filled(Bucket(tokens, last), rate)
    }

    method RefillAt(now: int)
      requires Valid()
      modifies this
      ensures Bucket(tokens, last) == Refill(old(Bucket(tokens, last)), rate, now)
      ensures last == now && (now <= old(last) ==> tokens == old(tokens))
      ensures now > old(last) ==>
        var gained := old(tokens) + (now - old(last)) as real / 1_000_000_000.0 * rate as real;
        tokens <= gained && (tokens == gained || tokens == Burst(rate) as real)
    {
      if now < last {
        last := now;
        return;
      }
      tokens := Min(Burst(rate) as real, tokens + Gain(rate, now - last));
      last := now;
    }

    /** Spend whole tokens on a read and take back what it did not use. */
    method Take(want: nat, supply: nat -> nat) returns (n: nat, allowed: nat)
      requires Valid() && tokens >= 1.0 && want > 0 && forall a :: supply(a) <= a
      modifies this
      ensures Valid() && 1 <= allowed <= want && n == supply(allowed)
      ensures allowed == if want < old(tokens).Floor then want else old(tokens).Floor
      ensures tokens == old(tokens) - n as real && last == old(last)
      ensures Legal(old(Bucket(tokens, last)), Hand(allowed, n))
      ensures Bucket(tokens, last) == HandOut(old(Bucket(tokens, last)), rate, allowed, n)
    {
      hide Burst;
      var whole := tokens.Floor;
      allowed := if want < whole then want else whole;
      ghost var full := Bucket(tokens, last);
      tokens := tokens - allowed as real;
      n := supply(allowed);
      if n < allowed {
        tokens := Min(Burst(rate) as real, tokens + (allowed - n) as real);
      }
      EventKeeps(full, rate, Hand(allowed, n));
    }

    /** Read of at most want bytes from a reader that supplies some part of what it is asked for. It sleeps at most
        once, and only when there is less than a token; unless it is cancelled it then asks the reader for every whole
        token there is or for all it wants, and pays for what it got. full is the bucket just before. Its effect on
        the bucket is a run of events with exactly the bytes it returned. */
    method Read(want: nat, supply: nat -> nat, now: int, late: nat -> nat, cancelled: nat -> bool)
      returns (n: nat, waits: nat, stopped: bool, ghost full: Bucket, ghost events: seq<Event>)
      requires Valid() && forall a :: supply(a) <= a
      modifies this
      ensures Valid() && waits <= 1 && (stopped ==> n == 0 && cancelled(waits))
      ensures want == 0 ==> n == 0 && unchanged(this)
      ensures want > 0 ==>
        var first := Refill(old(Bucket(tokens, last)), rate, now);
        && (waits == 0 <==> first.tokens >= 1.0)
        && full == (if waits == 0 || stopped then first
                    else Refill(first, rate, now + Wait(first.tokens, rate) + late(waits)))
      ensures stopped ==> waits == 1 && Bucket(tokens, last) == full
      ensures want > 0 && !stopped ==>
        && full.tokens >= 1.0 && n == supply(if want < full.tokens.Floor then want else full.tokens.Floor)
        && tokens == full.tokens - n as real && last == full.last
      ensures now >= old(last) ==>
        && IsRun(old(Bucket(tokens, last)), rate, events)
        && Bucket(tokens, last) == Final(old(Bucket(tokens, last)), rate, events) && n == Bytes(events)
    {
      hide Burst, Wait, Gain, Final, IsRun, Bytes, Refill, HandOut;
      events, waits, stopped := [], 0, false;
      ghost var start := Bucket(tokens, last);
      full := start;
      NoEvents(start, rate);
      if want == 0 {
        n := supply(0);
        return;
      }
      var time := now;
      while true
        invariant Valid() && waits <= 1 && Bytes(events) == 0
        invariant waits == 0 ==> time == now && Bucket(tokens, last) == start && events == []
        invariant waits == 1 ==>
          && tokens < 1.0 && Bucket(tokens, last) == Refill(start, rate, now)
          && time == now + Wait(tokens, rate) + late(waits) && last == now
        invariant now >= start.last ==>
          IsRun(start, rate, events) && Bucket(tokens, last) == Final(start, rate, events) && time >= last
        decreases 1 - waits
      {
        ghost var b := Bucket(tokens, last);
        RefilledFilled(b, rate, time);
        if waits == 1 { WaitSuffices(b, rate, time); }
        RefillAt(time);
        full := Bucket(tokens, last);
        if now >= start.last { OneEvent(start, rate, events, Tick(time)); }
        NoBytes(events, time);
        events := events + [Tick(time)];
        if tokens >= 1.0 {
          var allowed;
          n, allowed := Take(want, supply);
          if now >= start.last { OneEvent(start, rate, events, Hand(allowed, n)); }
          events := events + [Hand(allowed, n)];
          return;
        }
        waits := waits + 1;
        if cancelled(waits) {
          n, stopped := 0, true;
          return;
        }
        time := time + Wait(tokens, rate) + late(waits);
      }
    }
  }

  lemma NoBytes(events: seq<Event>, now: int)
    ensures Bytes(events + [Tick(now)]) == Bytes(events)
  {
    assert (events + [Tick(now)])[..|events|] == events;
  }

  lemma RefilledFilled(b: Bucket, rate: int, now: int)
    requires rate > 0 && Filled(b, rate)
    ensures Filled(Refill(b, rate, now), rate) && Refill(b, rate, now).last == now
  {
    if now >= b.last {
      EventKeeps(b, rate, Tick(now));
    }
  }

  lemma NoEvents(b: Bucket, rate: int)
    requires rate > 0
    ensures IsRun(b, rate, []) && Final(b, rate, []) == b && Bytes([]) == 0
  {
  }

  lemma OneEvent(b: Bucket, rate: int, events: seq<Event>, e: Event)
    requires rate > 0 && IsRun(b, rate, events) && Legal(Final(b, rate, events), e)
    ensures IsRun(b, rate, events + [e])
    ensures Final(b, rate, events + [e]) == After(Final(b, rate, events), rate, e)
    ensures Bytes(events + [e]) == Bytes(events) + (match e case Tick(_) => 0 case Hand(_, n) => n)
  {
    assert (events + [e])[..|events|] == events;
  }
}
