/** Retrying a put with capped exponential backoff (internal/ingest/service.go). Times are in nanoseconds. */
module Retry {
  import opened Base
  import opened Manifests
  import opened Streams
  import opened Storage
  import opened Envelopes

  const SECOND := 1_000_000_000
  const MAX_BACKOFF := 30 * SECOND
  const DEFAULT_ELAPSED := 300 * SECOND
  const DEFAULT_BACKOFF := SECOND / 10

  /** The world's part in a retry loop: how long the n-th attempt takes, whether the caller has given up by its end or
      gives up during the sleep after it, how late that sleep's timer fires, and the nonce drawn for the attempt. */
  datatype Weather = Weather(takes: nat -> nat, cancelled: nat -> bool, interrupted: nat -> bool, late: nat -> nat,
                             nonce: nat -> Bytes)

  ghost predicate Fair(w: Weather) {
    forall n :: |w.nonce(n)| == NONCE_SIZE
  }

  function Min(a: int, b: int): int {
    if a < b then a else b
  }

  function NextBackoff(backoff: nat): nat {
    if backoff < MAX_BACKOFF then Min(2 * backoff, MAX_BACKOFF) else backoff
  }

  /** The backoff before the k-th retry, as a closed form over the loop's doubling. */
  function Backoff(initial: nat, k: nat): nat {
    if k == 0 then initial else NextBackoff(Backoff(initial, k - 1))
  }

  lemma BackoffNext(initial: nat, k: nat)
    ensures Backoff(initial, 0) == initial && Backoff(initial, k + 1) == NextBackoff(Backoff(initial, k))
  {
  }

  function Doubled(initial: nat, k: nat): nat {
    if k == 0 then initial else 2 * Doubled(initial, k - 1)
  }

  /** Doubling up to the cap: min(initial * 2^k, 30 s). An initial value above the cap stays as it is, and the
      sleep taken for it is the cap. */
  lemma {:induction false} BackoffDoubles(initial: nat, k: nat)
    requires initial > 0
    ensures Doubled(initial, k) > 0 && Backoff(initial, k) > 0
    ensures Min(Backoff(initial, k), MAX_BACKOFF) == Min(Doubled(initial, k), MAX_BACKOFF)
    ensures initial <= MAX_BACKOFF ==> Backoff(initial, k) <= MAX_BACKOFF
    ensures initial > MAX_BACKOFF ==> Backoff(initial, k) == initial
  {
    if k > 0 {
      BackoffDoubles(initial, k - 1);
    }
  }

  /** How many attempts a budget allows when every attempt fails at once: the most there can be. */
  function Attempts(budget: int, backoff: nat): nat
    requires backoff > 0
    decreases if budget > 0 then budget else 0
  {
    if budget <= 0 then 1 else 1 + Attempts(budget - Min(backoff, MAX_BACKOFF), NextBackoff(backoff))
  }

  lemma {:induction false} AttemptsMonotone(a: int, b: int, backoff: nat)
    requires a <= b && backoff > 0
    ensures Attempts(a, backoff) <= Attempts(b, backoff)
    decreases if b > 0 then b else 0
  {
    if a > 0 {
      var d := Min(backoff, MAX_BACKOFF);
      AttemptsMonotone(a - d, b - d, NextBackoff(backoff));
    }
  }

  lemma AttemptsPositive(budget: int, backoff: nat)
    requires backoff > 0
    ensures Attempts(budget, backoff) >= 1
  {
  }

  /** The same count with a fixed step. */
  function Steps(budget: int, step: nat): nat
    requires step > 0
    decreases if budget > 0 then budget else 0
  {
    if budget <= 0 then 1 else 1 + Steps(budget - step, step)
  }

  lemma {:induction false} AttemptsSteps(budget: int, backoff: nat, step: nat)
    requires 0 < step <= Min(backoff, MAX_BACKOFF)
    ensures Attempts(budget, backoff) <= Steps(budget, step)
    decreases if budget > 0 then budget else 0
  {
    if budget > 0 {
      var d := Min(backoff, MAX_BACKOFF);
      AttemptsSteps(budget - d, NextBackoff(backoff), step);
      StepsMonotone(budget - d, budget - step, step);
    }
  }

  lemma {:induction false} StepsMonotone(a: int, b: int, step: nat)
    requires a <= b && step > 0
    ensures Steps(a, step) <= Steps(b, step)
    decreases if b > 0 then b else 0
  {
    if a > 0 {
      StepsMonotone(a - step, b - step, step);
    }
  }

  lemma {:induction false} StepsBound(budget: nat, step: nat)
    requires step > 0
    ensures (Steps(budget, step) - 2) * step <= budget
    decreases budget
  {
    if budget > step {
      StepsBound(budget - step, step);
      var n := Steps(budget - step, step) - 2;
      assert (n + 1) * step == n * step + step;
    }
  }

  /** An explicit bound: all attempts but two, each costing the first sleep, fit into the budget. */
  lemma AttemptsBound(budget: nat, backoff: nat)
    requires backoff > 0
    ensures (Attempts(budget, backoff) - 2) * Min(backoff, MAX_BACKOFF) <= budget
  {
    hide Attempts, Steps;
    var step := Min(backoff, MAX_BACKOFF);
    AttemptsSteps(budget, backoff, step);
    StepsBound(budget, step);
    Scaled(Attempts(budget, backoff) - 2, Steps(budget, step) - 2, step);
  }

  lemma Scaled(a: int, b: int, step: nat)
    requires a <= b
    ensures a * step <= b * step
  {
  }

  /** What is left of five minutes after the nine doublings from 100 ms to 25.6 s. */
  const AFTER_DOUBLING := DEFAULT_ELAPSED - 511 * DEFAULT_BACKOFF

  lemma CappedAttempts()
    ensures Attempts(AFTER_DOUBLING, MAX_BACKOFF) == 10
  {
    var b, left := MAX_BACKOFF, AFTER_DOUBLING;
    assert Attempts(left - 9 * b, b) == 1;
    assert Attempts(left - 7 * b, b) == 3;
    assert Attempts(left - 5 * b, b) == 5;
    assert Attempts(left - 3 * b, b) == 7;
    assert Attempts(left - b, b) == 9;
  }

  /** With the defaults, five minutes and 100 ms, a put is tried at most 19 times. */
  lemma DefaultAttempts()
    ensures Attempts(DEFAULT_ELAPSED, DEFAULT_BACKOFF) == 19
  {
    CappedAttempts();
    var d := DEFAULT_BACKOFF;
    assert Attempts(DEFAULT_ELAPSED - 255 * d, 256 * d) == 11;
    assert Attempts(DEFAULT_ELAPSED - 63 * d, 64 * d) == 13;
    assert Attempts(DEFAULT_ELAPSED - 15 * d, 16 * d) == 15;
    assert Attempts(DEFAULT_ELAPSED - 3 * d, 4 * d) == 17;
  }

  /** A sleep and a late timer use up the budget one attempt is allowed. */
  lemma SleepSpends(remaining: nat, late: nat, backoff: nat)
    requires remaining > 0 && backoff > 0
    ensures var delay := Min(Min(backoff, MAX_BACKOFF), remaining);
      1 + Attempts(remaining - delay - late, NextBackoff(backoff)) <= Attempts(remaining, backoff)
  {
    var step := Min(backoff, MAX_BACKOFF);
    if remaining > step {
      AttemptsMonotone(remaining - step - late, remaining - step, NextBackoff(backoff));
    }
  }

  /** One sleep of the loop: when it was set, after how many nanoseconds it was due. */
  datatype Sleep = Sleep(at: nat, delay: nat)

  /** The k-th sleep is positive, at most 30 s, due within the budget, and either the k-th backoff or what is left
      of the budget. */
  ghost predicate SleepOk(s: Sleep, k: nat, budget: int, initial: nat) {
    && 0 < s.delay <= 30_000_000_000 && s.at + s.delay <= budget
    && s.delay == Min(Min(Backoff(initial, k), MAX_BACKOFF), budget - s.at)
  }

  ghost predicate SleepsOk(sleeps: seq<Sleep>, budget: int, initial: nat) {
    forall k :: 0 <= k < |sleeps| ==> SleepOk(sleeps[k], k, budget, initial)
  }

  lemma OneSleep(sleeps: seq<Sleep>, s: Sleep, budget: int, initial: nat)
    requires SleepsOk(sleeps, budget, initial) && SleepOk(s, |sleeps|, budget, initial)
    ensures SleepsOk(sleeps + [s], budget, initial)
  {
    hide SleepOk;
  }

  function Effective(value: int, default: nat): nat {
    if value <= 0 then default else value
  }

  // ---- when the loop gives up ----

  /** The sleep after the n-th attempt, which ended at a given time: the backoff doubled n - 1 times, at most 30 s and
      at most what is left of the budget. */
  function Delay(n: nat, at: nat, budget: nat, initial: nat): nat
    requires n > 0
  {
    if at >= budget then 0 else Min(Min(Backoff(initial, n - 1), 30_000_000_000), budget - at)
  }

  /** How much time has passed when the n-th attempt ends: the attempts so far, and the sleeps between them with what
      their timers were late. */
  function Elapsed(w: Weather, n: nat, budget: nat, initial: nat): nat
    requires n > 0
  {
    if n == 1 then w.takes(1)
    else
      var before := Elapsed(w, n - 1, budget, initial);
      before + Delay(n - 1, before, budget, initial) + w.late(n - 1) + w.takes(n)
  }

  /** The three reasons for giving up after a failed attempt: the caller has, the budget is used up, or the caller
      does during the sleep. */
  predicate GivesUp(w: Weather, n: nat, budget: nat, initial: nat)
    requires n > 0
  {
    w.cancelled(n) || Elapsed(w, n, budget, initial) >= budget || w.interrupted(n)
  }

  /** The k-th attempt, when the first is a given call of the store, is done. */
  predicate IsDone(plan: nat -> Fate, calls: nat, k: nat)
    requires k > 0
  {
    plan(calls + k - 1) == Done
  }

  /** Attempts that take the calls from one on: those before the n-th fail, and none of them is a reason to give up. */
  ghost predicate Tries(plan: nat -> Fate, calls: nat, w: Weather, n: nat, budget: nat, initial: nat) {
    forall k :: 0 < k < n ==> !IsDone(plan, calls, k) && !GivesUp(w, k, budget, initial)
  }

  /** The n-th attempt is made and done. */
  ghost predicate Reaches(plan: nat -> Fate, calls: nat, w: Weather, n: nat, budget: nat, initial: nat) {
    n > 0 && Tries(plan, calls, w, n, budget, initial) && IsDone(plan, calls, n)
  }

  /** At most one attempt lands, and none after one that gave up. */
  lemma ReachesOnce(plan: nat -> Fate, calls: nat, w: Weather, n: nat, m: nat, budget: nat, initial: nat)
    requires n > 0 && Tries(plan, calls, w, n, budget, initial) && Reaches(plan, calls, w, m, budget, initial)
    requires IsDone(plan, calls, n) || GivesUp(w, n, budget, initial)
    ensures m == n
  {
    hide GivesUp, IsDone;
  }

  lemma {:induction false} ElapsedGrows(w: Weather, k: nat, n: nat, budget: nat, initial: nat)
    requires 0 < k <= n
    ensures Elapsed(w, k, budget, initial) <= Elapsed(w, n, budget, initial)
    decreases n
  {
    if k < n {
      ElapsedGrows(w, k, n - 1, budget, initial);
    }
  }

  /** A put that would be done is made as long as the caller stays and the attempt before it ends within the budget. */
  lemma WithinBudget(plan: nat -> Fate, calls: nat, w: Weather, n: nat, budget: nat, initial: nat)
    requires n > 0 && IsDone(plan, calls, n) && forall k :: 0 < k < n ==> !IsDone(plan, calls, k)
    requires forall k :: 0 < k < n ==> !w.cancelled(k) && !w.interrupted(k)
    requires n > 1 ==> Elapsed(w, n - 1, budget, initial) < budget
    ensures Reaches(plan, calls, w, n, budget, initial)
  {
    hide Elapsed;
    forall k | 0 < k < n ensures !GivesUp(w, k, budget, initial) {
      ElapsedGrows(w, k, n - 1, budget, initial);
    }
  }

  /** After as many failed attempts as sleeps, each followed by one, the loop is about to try again. */
  ghost predicate Retrying(plan: nat -> Fate, calls: nat, w: Weather, sleeps: seq<Sleep>, now: nat, backoff: nat,
                           budget: nat, initial: nat) {
    var n := |sleeps|;
    && initial > 0 && backoff > 0 && backoff == Backoff(initial, n)
    && Tries(plan, calls, w, n + 1, budget, initial) && SleepsOk(sleeps, budget, initial)
    && now + w.takes(n + 1) == Elapsed(w, n + 1, budget, initial)
    && n + Attempts(budget - now, backoff) <= Attempts(budget, initial)
  }

  lemma StartsTrying(plan: nat -> Fate, calls: nat, w: Weather, budget: nat, initial: nat)
    requires initial > 0
    ensures Retrying(plan, calls, w, [], 0, initial, budget, initial)
  {
    hide Attempts, Elapsed;
    BackoffNext(initial, 0);
    ElapsedNext(w, 1, budget, initial);
  }

  /** One more attempt: what is known whether or not the loop ends with it, before or after its sleep. */
  lemma Attempted(plan: nat -> Fate, calls: nat, w: Weather, sleeps: seq<Sleep>, now: nat, backoff: nat,
                  budget: nat, initial: nat)
    requires Retrying(plan, calls, w, sleeps, now, backoff, budget, initial)
    ensures var n, at := |sleeps| + 1, now + w.takes(|sleeps| + 1);
      && Tries(plan, calls, w, n, budget, initial) && n <= Attempts(budget, initial) && SleepsOk(sleeps, budget, initial)
      && (GivesUp(w, n, budget, initial) <==> w.cancelled(n) || at >= budget || w.interrupted(n))
      && (at < budget ==> SleepsOk(sleeps + [Sleep(at, Min(Min(backoff, MAX_BACKOFF), budget - at))], budget, initial))
  {
    hide Attempts, Elapsed, Backoff, Tries, SleepOk, SleepsOk;
    var n, at := |sleeps| + 1, now + w.takes(|sleeps| + 1);
    AttemptsPositive(budget - now, backoff);
    if at < budget {
      Sleeping(w, n, now, budget, initial, backoff);
      OneSleep(sleeps, Sleep(at, Min(Min(backoff, MAX_BACKOFF), budget - at)), budget, initial);
    }
  }

  lemma TriesAgain(plan: nat -> Fate, calls: nat, w: Weather, sleeps: seq<Sleep>, now: nat, backoff: nat,
                   budget: nat, initial: nat)
    requires Retrying(plan, calls, w, sleeps, now, backoff, budget, initial)
    requires plan(calls + |sleeps|) != Done && !GivesUp(w, |sleeps| + 1, budget, initial)
    requires now + w.takes(|sleeps| + 1) < budget
    ensures var at := now + w.takes(|sleeps| + 1);
      var delay := Min(Min(backoff, MAX_BACKOFF), budget - at);
      var next := at + delay + w.late(|sleeps| + 1);
      && NextBackoff(backoff) > 0
      && Retrying(plan, calls, w, sleeps + [Sleep(at, delay)], next, NextBackoff(backoff), budget, initial)
      && Attempts(budget - next, NextBackoff(backoff)) < Attempts(budget - now, backoff)
  {
    hide Attempts, Elapsed, Backoff, Tries, SleepOk, SleepsOk, GivesUp;
    var n, at := |sleeps| + 1, now + w.takes(|sleeps| + 1);
    Sleeping(w, n, now, budget, initial, backoff);
    OneSleep(sleeps, Sleep(at, Min(Min(backoff, MAX_BACKOFF), budget - at)), budget, initial);
    MoreTries(plan, calls, w, n, budget, initial);
  }

  /** putBytesWithRetry. It tries until an attempt is done or one of the three reasons for giving up has come, and
      succeeds exactly in the first case, with the object in place. */
  method PutBytesWithRetry(l: Lib, store: EncryptedStore, key: Key, data: Bytes,
                           maxElapsed: int, initialBackoff: int, w: Weather)
    returns (info: Option<ObjectInfo>, attempts: nat, ghost sleeps: seq<Sleep>)
    requires store.Valid() && Fair(w)
    modifies store`keyCache, store.base
    ensures store.Valid()
    ensures info.Some? ==> info.value == ObjectInfo(|data|, l.sha(data)) && store.View() == old(store.View())[key := data]
    ensures info.None? ==> store.View() == old(store.View()) || store.View() == old(store.View())[key := data]
    ensures attempts == |sleeps| + 1 || (info.None? && attempts == |sleeps|)
    ensures attempts <= Attempts(Effective(maxElapsed, DEFAULT_ELAPSED), Effective(initialBackoff, DEFAULT_BACKOFF))
    ensures SleepsOk(sleeps, Effective(maxElapsed, DEFAULT_ELAPSED), Effective(initialBackoff, DEFAULT_BACKOFF))
    ensures attempts >= 1 && store.base.calls == old(store.base.calls) + attempts
    ensures Tries(store.base.plan, old(store.base.calls), w, attempts,
                  Effective(maxElapsed, DEFAULT_ELAPSED), Effective(initialBackoff, DEFAULT_BACKOFF))
    ensures info.Some? <==> store.base.plan(store.base.calls - 1) == Done
    ensures info.None? ==>
      GivesUp(w, attempts, Effective(maxElapsed, DEFAULT_ELAPSED), Effective(initialBackoff, DEFAULT_BACKOFF))
  {
    hide Shows, Sound, CacheTrue, Attempts, Tries, GivesUp, SleepsOk, Retrying, AtRest;
    var budget := if maxElapsed <= 0 then DEFAULT_ELAPSED else maxElapsed;
    var initial := if initialBackoff <= 0 then DEFAULT_BACKOFF else initialBackoff;
    var backoff := initial;
    var now := 0;
    attempts, sleeps := 0, [];
    StartsTrying(store.base.plan, store.base.calls, w, budget, initial);
    ghost var view, plan, calls := store.View(), store.base.plan, store.base.calls;
    while true
      invariant store.Valid() && backoff > 0 && now >= 0
      invariant store.View() == view || store.View() == view[key := data]
      invariant attempts == |sleeps| && store.base.calls == calls + attempts
      invariant Retrying(plan, calls, w, sleeps, now, backoff, budget, initial)
      decreases Attempts(budget - now, backoff)
    {
      Attempted(plan, calls, w, sleeps, now, backoff, budget, initial);
      var nonce := w.nonce(attempts);
      info := store.PutBytes(l, key, data, nonce);
      attempts := attempts + 1;
      if info.Some? {
        return;
      }
      if w.cancelled(attempts) {
        return;
      }
      ghost var before := now;
      now := now + w.takes(attempts);
      var remaining := budget - now;
      if remaining <= 0 {
        return;
      }
      var delay := backoff;
      if delay > MAX_BACKOFF {
        delay := MAX_BACKOFF;
      }
      if delay > remaining {
        delay := remaining;
      }
      ghost var slept := sleeps;
      sleeps := sleeps + [Sleep(now, delay)];
      if w.interrupted(attempts) {
        return;
      }
      TriesAgain(plan, calls, w, slept, before, backoff, budget, initial);
      now := now + delay + w.late(attempts);
      if backoff < MAX_BACKOFF {
        backoff := backoff * 2;
        if backoff > MAX_BACKOFF {
          backoff := MAX_BACKOFF;
        }
      }
    }
  }

  /** What the sleep after the n-th attempt leaves: the time, the next backoff, and fewer attempts to come. */
  lemma Sleeping(w: Weather, n: nat, now: nat, budget: nat, initial: nat, backoff: nat)
    requires n > 0 && backoff == Backoff(initial, n - 1) && backoff > 0
    requires now + w.takes(n) == Elapsed(w, n, budget, initial) < budget
    ensures var at := now + w.takes(n);
      var delay := Min(Min(backoff, MAX_BACKOFF), budget - at);
      var next := at + delay + w.late(n);
      && SleepOk(Sleep(at, delay), n - 1, budget, initial)
      && next + w.takes(n + 1) == Elapsed(w, n + 1, budget, initial)
      && NextBackoff(backoff) == Backoff(initial, n) && NextBackoff(backoff) > 0
      && 1 + Attempts(budget - next, NextBackoff(backoff)) <= Attempts(budget - now, backoff)
  {
    hide Attempts, Backoff, Elapsed;
    var at := now + w.takes(n);
    DelayIs(n, at, budget, initial, backoff);
    ElapsedNext(w, n, budget, initial);
    AttemptsMonotone(budget - at, budget - now, backoff);
    SleepSpends(budget - at, w.late(n), backoff);
    BackoffNext(initial, n - 1);
  }

  lemma DelayIs(n: nat, at: nat, budget: nat, initial: nat, backoff: nat)
    requires n > 0 && at < budget && backoff == Backoff(initial, n - 1) && backoff > 0
    ensures Delay(n, at, budget, initial) == Min(Min(backoff, MAX_BACKOFF), budget - at)
    ensures SleepOk(Sleep(at, Delay(n, at, budget, initial)), n - 1, budget, initial)
  {
    hide Backoff;
  }

  lemma MoreTries(plan: nat -> Fate, calls: nat, w: Weather, n: nat, budget: nat, initial: nat)
    requires n > 0 && Tries(plan, calls, w, n, budget, initial)
    requires plan(calls + n - 1) != Done && !GivesUp(w, n, budget, initial)
    ensures Tries(plan, calls, w, n + 1, budget, initial)
  {
    hide GivesUp;
  }

  lemma ElapsedNext(w: Weather, n: nat, budget: nat, initial: nat)
    requires n > 0
    ensures Elapsed(w, 1, budget, initial) == w.takes(1)
    ensures var at := Elapsed(w, n, budget, initial);
      Elapsed(w, n + 1, budget, initial) == at + Delay(n, at, budget, initial) + w.late(n) + w.takes(n + 1)
  {
  }
}
