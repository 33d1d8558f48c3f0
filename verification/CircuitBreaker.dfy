/**
 * Retry with exponential backoff, and the circuit breaker.
 *
 * `execute` is split at its await: `Enter` is what happens before the wrapped call starts, `Leave`
 * what happens when it settles. Between the two, other calls enter and settle freely.
 */
module CircuitBreaker {
  import opened Prelude

  datatype Config = Config(threshold: int, resetTimeout: int)

  datatype Circuit = Closed | Open | HalfOpen

  datatype Breaker = Breaker(state: Circuit, failureCount: nat, lastFailureTime: int, probing: bool)

  datatype Admission = Rejected | Admitted(isProbe: bool)

  /** `Answered` is an error the service replied with: `isFailure` is false for it. */
  datatype Outcome = Succeeded | Answered | Failed

  const INITIAL := Breaker(Closed, 0, 0, false)

  function Enter(cfg: Config, b: Breaker, now: int): (Breaker, Admission) {
    if b.state == Closed then (b, Admitted(false))
    else if b.state == Open && now - b.lastFailureTime < cfg.resetTimeout then (b, Rejected)
    else
      var half := b.(state := HalfOpen);
      if b.probing then (half, Rejected) else (half.(probing := true), Admitted(true))
  }

  function Leave(cfg: Config, b: Breaker, isProbe: bool, outcome: Outcome, now: int): Breaker {
    var settled :=
      if outcome == Failed then
        b.(failureCount := b.failureCount + 1, lastFailureTime := now,
           state := if b.state == HalfOpen || b.failureCount + 1 >= cfg.threshold then Open else b.state)
      else
        b.(failureCount := 0, state := if b.state == HalfOpen then Closed else b.state);
    if isProbe then settled.(probing := false) else settled
  }

  class CircuitBreaker {
    const threshold: int
    const resetTimeout: int
    var failureCount: nat
    var state: Circuit
    var lastFailureTime: int
    var probing: bool

    function Options(): Config {
      Config(threshold, resetTimeout)
    }

    function View(): Breaker
      reads this
    {
      Breaker(state, failureCount, lastFailureTime, probing)
    }

    constructor (threshold: int, resetTimeout: int)
      ensures View() == INITIAL && Options() == Config(threshold, resetTimeout)
    {
      this.threshold, this.resetTimeout := threshold, resetTimeout;
      failureCount, state, lastFailureTime, probing := 0, Closed, 0, false;
    }

    method Begin(now: int) returns (admission: Admission)
      modifies this
      ensures (View(), admission) == Enter(Options(), old(View()), now)
    {
      if state == Open {
        if now - lastFailureTime >= resetTimeout {
          state := HalfOpen;
        } else {
          return Rejected;
        }
      }
      var isProbe := state == HalfOpen;
      if isProbe {
        if probing { return Rejected; }
        probing := true;
      }
      return Admitted(isProbe);
    }

    method Settle(isProbe: bool, outcome: Outcome, now: int)
      modifies this
      ensures View() == Leave(Options(), old(View()), isProbe, outcome, now)
    {
      match outcome {
        case Succeeded => OnSuccess();
        case Answered => OnSuccess();
        case Failed => OnFailure(now);
      }
      if isProbe { probing := false; }
    }

    method OnSuccess()
      modifies this
      ensures failureCount == 0 && lastFailureTime == old(lastFailureTime) && probing == old(probing)
      ensures state == if old(state) == HalfOpen then Closed else old(state)
    {
      failureCount := 0;
      if state == HalfOpen { state := Closed; }
    }

    method OnFailure(now: int)
      modifies this
      ensures failureCount == old(failureCount) + 1 && lastFailureTime == now && probing == old(probing)
      ensures state == if old(state) == HalfOpen || failureCount >= threshold then Open else old(state)
    {
      failureCount := failureCount + 1;
      lastFailureTime := now;
      if state == HalfOpen || failureCount >= threshold { state := Open; }
    }
  }

  // ----- Runs: calls overlap and settle in any order

  datatype Event =
    | Call(time: int)
    | Settled(id: nat, outcome: Outcome, time: int)

  /** The breaker and the calls in flight; a call is numbered by its place in the run. */
  datatype System = System(breaker: Breaker, flights: map<nat, bool>)

  function Apply(cfg: Config, s: System, position: nat, e: Event): System
    requires e.Settled? ==> e.id in s.flights
  {
    match e
    case Call(time) =>
      var (b, admission) := Enter(cfg, s.breaker, time);
      System(b, if admission.Admitted? then s.flights[position := admission.isProbe] else s.flights)
    case Settled(id, outcome, time) =>
      System(Leave(cfg, s.breaker, s.flights[id], outcome, time), s.flights - {id})
  }

  /** The state after a run, or nothing when it settles a call that is not in flight. */
  function After(cfg: Config, run: seq<Event>): Option<System> {
    if run == [] then Some(System(INITIAL, map[]))
    else
      var n := |run| - 1;
      var before := After(cfg, run[..n]);
      if before.None? || (run[n].Settled? && run[n].id !in before.value.flights) then None
      else Some(Apply(cfg, before.value, n, run[n]))
  }

  ghost predicate Valid(cfg: Config, run: seq<Event>) {
    && After(cfg, run).Some?
    && forall i, j :: 0 <= i < j < |run| ==> run[i].time <= run[j].time
  }

  function Reached(cfg: Config, run: seq<Event>): System
    requires Valid(cfg, run)
  {
    After(cfg, run).value
  }

  predicate Admits(cfg: Config, run: seq<Event>, now: int)
    requires Valid(cfg, run)
  {
    Enter(cfg, Reached(cfg, run).breaker, now).1.Admitted?
  }

  /** Failures that settled after the last call that settled well. */
  function FailuresSinceSuccess(run: seq<Event>): nat {
    if run == [] then 0
    else
      var last, rest := run[|run| - 1], run[..|run| - 1];
      if last.Call? then FailuresSinceSuccess(rest)
      else if last.outcome == Failed then FailuresSinceSuccess(rest) + 1
      else 0
  }

  ghost predicate ProbesInFlight(s: System) {
    && (s.breaker.probing <==> exists id :: id in s.flights && s.flights[id])
    && forall i, j :: i in s.flights && j in s.flights && s.flights[i] && s.flights[j] ==> i == j
  }

  lemma PrefixValid(cfg: Config, run: seq<Event>, n: nat)
    requires Valid(cfg, run) && n <= |run|
    ensures Valid(cfg, run[..n])
    decreases |run|
  {
    if n == |run| {
      assert run[..n] == run;
    } else {
      var shorter := run[..|run| - 1];
      assert Valid(cfg, shorter);
      PrefixValid(cfg, shorter, n);
      assert shorter[..n] == run[..n];
    }
  }

  /** What every run keeps, however the calls overlap and however late they settle. */
  lemma {:induction false} BreakerInvariant(cfg: Config, run: seq<Event>)
    requires Valid(cfg, run)
    ensures var s := Reached(cfg, run);
            && (forall id :: id in s.flights ==> id < |run|)
            && ProbesInFlight(s)
            && (s.breaker.state == HalfOpen ==> s.breaker.probing)
            && (s.breaker.state == Closed ==> s.breaker.failureCount < Max(cfg.threshold, 1))
            && s.breaker.failureCount == FailuresSinceSuccess(run)
  {
    if run != [] {
      var n := |run| - 1;
      PrefixValid(cfg, run, n);
      BreakerInvariant(cfg, run[..n]);
      var before, s := Reached(cfg, run[..n]), Reached(cfg, run);
      match run[n]
      case Call(time) =>
        var admission := Enter(cfg, before.breaker, time).1;
        if admission.Admitted? {
          assert n in s.flights && s.flights[n] == admission.isProbe;
          assert forall id :: id in before.flights ==> id in s.flights && s.flights[id] == before.flights[id];
        }
      case Settled(id, outcome, time) =>
        assert forall i :: i in s.flights ==> i in before.flights && s.flights[i] == before.flights[i];
        assert forall i :: i in before.flights && i != id ==> i in s.flights;
    }
  }

  /**
   * When a call is let in: always when CLOSED, never when HALF_OPEN, and when OPEN only after the
   * reset timeout and with no probe still in flight.
   */
  lemma AdmittedExactly(cfg: Config, run: seq<Event>, now: int)
    requires Valid(cfg, run)
    ensures var s := Reached(cfg, run);
            Admits(cfg, run, now) <==>
              || s.breaker.state == Closed
              || (&& s.breaker.state == Open
                  && now >= s.breaker.lastFailureTime + cfg.resetTimeout
                  && forall id :: id in s.flights ==> !s.flights[id])
  {
    BreakerInvariant(cfg, run);
  }

  /** `lastFailureTime` is no earlier than any counted failure. */
  lemma {:induction false} LastFailureIsLatest(cfg: Config, run: seq<Event>, i: nat)
    requires Valid(cfg, run) && i < |run| && run[i].Settled? && run[i].outcome == Failed
    ensures run[i].time <= Reached(cfg, run).breaker.lastFailureTime
  {
    var n := |run| - 1;
    PrefixValid(cfg, run, n);
    if i < n {
      LastFailureIsLatest(cfg, run[..n], i);
    }
  }

  /** A call let in while OPEN comes a full reset timeout after every counted failure. */
  lemma OpenWaitsForReset(cfg: Config, run: seq<Event>, now: int)
    requires Valid(cfg, run) && Reached(cfg, run).breaker.state == Open && Admits(cfg, run, now)
    ensures forall i :: 0 <= i < |run| && run[i].Settled? && run[i].outcome == Failed ==>
      run[i].time + cfg.resetTimeout <= now
  {
    forall i | 0 <= i < |run| && run[i].Settled? && run[i].outcome == Failed
      ensures run[i].time + cfg.resetTimeout <= now
    {
      LastFailureIsLatest(cfg, run, i);
    }
  }

  /**
   * Once a failure leaves the circuit OPEN, it stays OPEN and lets no call in for the whole reset
   * timeout, whatever the calls still in flight do meanwhile.
   */
  lemma {:induction false} OpenForTheWholeTimeout(cfg: Config, run: seq<Event>, i: nat)
    requires Valid(cfg, run) && 0 < i <= |run|
    requires run[i - 1].Settled? && run[i - 1].outcome == Failed
    requires Valid(cfg, run[..i]) && Reached(cfg, run[..i]).breaker.state == Open
    requires run[|run| - 1].time < run[i - 1].time + cfg.resetTimeout
    ensures Reached(cfg, run).breaker.state == Open
    ensures Reached(cfg, run).breaker.lastFailureTime >= run[i - 1].time
    ensures forall now :: run[|run| - 1].time <= now < run[i - 1].time + cfg.resetTimeout ==> !Admits(cfg, run, now)
    decreases |run|
  {
    if i == |run| {
      assert run[..i] == run;
    } else {
      var n := |run| - 1;
      PrefixValid(cfg, run, n);
      assert run[..n][..i] == run[..i];
      OpenForTheWholeTimeout(cfg, run[..n], i);
    }
  }

  lemma OneMore(cfg: Config, run: seq<Event>, e: Event)
    requires Valid(cfg, run) && (run != [] ==> run[|run| - 1].time <= e.time)
    requires e.Settled? ==> e.id in Reached(cfg, run).flights
    ensures Valid(cfg, run + [e]) && Reached(cfg, run + [e]) == Apply(cfg, Reached(cfg, run), |run|, e)
  {
    assert (run + [e])[..|run|] == run;
  }

  // ----- Whether a probe keeps the other calls out

  /** The last event of the run let in a probe. */
  ghost predicate StartsProbe(cfg: Config, run: seq<Event>) {
    && run != [] && Valid(cfg, run) && run[|run| - 1].Call?
    && var s := Reached(cfg, run);
       s.breaker.state == HalfOpen && |run| - 1 in s.flights && s.flights[|run| - 1]
  }

  /** No other call is in flight when the probe starts. */
  ghost predicate Alone(cfg: Config, run: seq<Event>)
    requires Valid(cfg, run)
  {
    Reached(cfg, run).flights.Keys == {|run| - 1}
  }

  /** Whatever follows, no call is let in while the probe is in flight. */
  ghost predicate RejectsWhileProbing(cfg: Config, run: seq<Event>) {
    forall more, now :: Valid(cfg, run + more) && |run| - 1 in Reached(cfg, run + more).flights ==>
      !Admits(cfg, run + more, now)
  }

  lemma {:induction false} AloneStays(cfg: Config, run: seq<Event>, more: seq<Event>)
    requires StartsProbe(cfg, run) && Alone(cfg, run)
    requires Valid(cfg, run + more) && |run| - 1 in Reached(cfg, run + more).flights
    ensures var s := Reached(cfg, run + more);
            s.breaker.state == HalfOpen && s.breaker.probing && s.flights.Keys == {|run| - 1}
    decreases |more|
  {
    if more == [] {
      assert run + more == run;
      BreakerInvariant(cfg, run);
    } else {
      var n := |more| - 1;
      PrefixValid(cfg, run + more, |run| + n);
      assert (run + more)[..|run| + n] == run + more[..n] && (run + more)[|run| + n] == more[n];
      AloneStays(cfg, run, more[..n]);
    }
  }

  /** One late call that settles well closes the circuit under the probe. */
  lemma LateSuccessLetsIn(cfg: Config, run: seq<Event>, late: nat)
    requires StartsProbe(cfg, run) && late in Reached(cfg, run).flights && late != |run| - 1
    ensures !RejectsWhileProbing(cfg, run)
  {
    var time := run[|run| - 1].time;
    var more := [Settled(late, Succeeded, time)];
    OneMore(cfg, run, more[0]);
    assert Admits(cfg, run + more, time) && |run| - 1 in Reached(cfg, run + more).flights;
  }

  /** A probe keeps all other calls out exactly when no other call is in flight as it starts. */
  lemma ProbeShieldsExactly(cfg: Config, run: seq<Event>)
    requires StartsProbe(cfg, run)
    ensures RejectsWhileProbing(cfg, run) <==> Alone(cfg, run)
  {
    if Alone(cfg, run) {
      forall more, now | Valid(cfg, run + more) && |run| - 1 in Reached(cfg, run + more).flights
        ensures !Admits(cfg, run + more, now)
      {
        AloneStays(cfg, run, more);
      }
    } else {
      var late :| late in Reached(cfg, run).flights.Keys && late != |run| - 1;
      LateSuccessLetsIn(cfg, run, late);
    }
  }

  // ----- What a probe decides

  lemma PrefixOf(cfg: Config, run: seq<Event>, rest: seq<Event>, k: nat)
    requires Valid(cfg, run + rest) && k <= |rest|
    ensures Valid(cfg, run + rest[..k])
  {
    PrefixValid(cfg, run + rest, |run| + k);
    assert (run + rest)[..|run| + k] == run + rest[..k];
  }

  lemma Joined(cfg: Config, run: seq<Event>, rest: seq<Event>, k: nat)
    requires Valid(cfg, run + rest) && k < |rest|
    ensures Valid(cfg, run + rest[..k]) && Valid(cfg, run + rest[..k + 1])
    ensures run + rest[..k + 1] == run + rest[..k] + [rest[k]]
    ensures rest[k].Settled? ==> rest[k].id in Reached(cfg, run + rest[..k]).flights
    ensures Reached(cfg, run + rest[..k + 1])
         == Apply(cfg, Reached(cfg, run + rest[..k]), |run + rest[..k]|, rest[k])
  {
    PrefixOf(cfg, run, rest, k);
    PrefixOf(cfg, run, rest, k + 1);
    var one, two := run + rest[..k], run + rest[..k + 1];
    assert rest[..k + 1] == rest[..k] + [rest[k]];
    assert two == one + [rest[k]] && two[..|two| - 1] == one;
  }

  /** Fewer failures in a row than the threshold, at every moment of `rest`. */
  ghost predicate BelowThreshold(cfg: Config, run: seq<Event>, rest: seq<Event>) {
    forall k :: 0 <= k <= |rest| ==> FailuresSinceSuccess(run + rest[..k]) < Max(cfg.threshold, 1)
  }

  ghost predicate StaysClosed(cfg: Config, run: seq<Event>, rest: seq<Event>)
    requires Valid(cfg, run + rest)
  {
    forall k :: 0 <= k <= |rest| && Valid(cfg, run + rest[..k]) ==>
      Reached(cfg, run + rest[..k]).breaker.state == Closed
  }

  /** A closed circuit stays closed exactly while fewer failures than the threshold settle in a row. */
  lemma {:induction false} ClosedExactly(cfg: Config, run: seq<Event>, rest: seq<Event>)
    requires Valid(cfg, run + rest) && Valid(cfg, run) && Reached(cfg, run).breaker.state == Closed
    ensures StaysClosed(cfg, run, rest) <==> BelowThreshold(cfg, run, rest)
  {
    if StaysClosed(cfg, run, rest) {
      forall k | 0 <= k <= |rest| ensures FailuresSinceSuccess(run + rest[..k]) < Max(cfg.threshold, 1) {
        PrefixOf(cfg, run, rest, k);
        BreakerInvariant(cfg, run + rest[..k]);
      }
    }
    if BelowThreshold(cfg, run, rest) {
      forall k | 0 <= k <= |rest| && Valid(cfg, run + rest[..k])
        ensures Reached(cfg, run + rest[..k]).breaker.state == Closed
      {
        ClosedBelow(cfg, run, rest, k);
      }
    }
  }

  lemma {:induction false} ClosedBelow(cfg: Config, run: seq<Event>, rest: seq<Event>, k: nat)
    requires Valid(cfg, run + rest) && Valid(cfg, run) && Reached(cfg, run).breaker.state == Closed && k <= |rest|
    requires BelowThreshold(cfg, run, rest)
    ensures Valid(cfg, run + rest[..k]) && Reached(cfg, run + rest[..k]).breaker.state == Closed
  {
    if k == 0 {
      assert run + rest[..0] == run;
    } else {
      ClosedBelow(cfg, run, rest, k - 1);
      Joined(cfg, run, rest, k - 1);
      BreakerInvariant(cfg, run + rest[..k - 1]);
      BreakerInvariant(cfg, run + rest[..k]);
      assert FailuresSinceSuccess(run + rest[..k]) < Max(cfg.threshold, 1);
    }
  }

  /**
   * A lone probe that does not fail closes the circuit: nothing is in flight, no failure is counted,
   * and calls are let in at any time for as long as fewer failures than the threshold settle in a row.
   */
  lemma ProbeSuccessCloses(cfg: Config, run: seq<Event>, more: seq<Event>, outcome: Outcome, time: int,
                           rest: seq<Event>, now: int)
    requires StartsProbe(cfg, run) && Alone(cfg, run) && outcome != Failed
    requires Valid(cfg, run + more) && |run| - 1 in Reached(cfg, run + more).flights
    requires Valid(cfg, run + more + [Settled(|run| - 1, outcome, time)] + rest)
    ensures var closed := run + more + [Settled(|run| - 1, outcome, time)];
            && Valid(cfg, closed) && Reached(cfg, closed).breaker.state == Closed
            && Reached(cfg, closed).breaker.failureCount == 0 && Reached(cfg, closed).flights == map[]
            && (BelowThreshold(cfg, closed, rest) ==> Admits(cfg, closed + rest, now))
  {
    var settled := Settled(|run| - 1, outcome, time);
    var closed := run + more + [settled];
    AloneStays(cfg, run, more);
    LastOf(cfg, run + more, settled, rest);
    if BelowThreshold(cfg, closed, rest) {
      ClosedBelow(cfg, closed, rest, |rest|);
      assert rest[..|rest|] == rest;
      AdmittedExactly(cfg, closed + rest, now);
    }
  }

  lemma LastOf(cfg: Config, run: seq<Event>, e: Event, rest: seq<Event>)
    requires Valid(cfg, run) && Valid(cfg, run + [e] + rest)
    ensures Valid(cfg, run + [e]) && (e.Settled? ==> e.id in Reached(cfg, run).flights)
    ensures Reached(cfg, run + [e]) == Apply(cfg, Reached(cfg, run), |run|, e)
  {
    PrefixValid(cfg, run + [e] + rest, |run| + 1);
    assert (run + [e] + rest)[..|run| + 1] == run + [e] && (run + [e])[..|run|] == run;
  }

  /** A lone probe that fails opens the circuit again: no call is let in for a whole reset timeout. */
  lemma ProbeFailureReopens(cfg: Config, run: seq<Event>, more: seq<Event>, time: int, rest: seq<Event>, now: int)
    requires StartsProbe(cfg, run) && Alone(cfg, run)
    requires Valid(cfg, run + more) && |run| - 1 in Reached(cfg, run + more).flights
    requires Valid(cfg, run + more + [Settled(|run| - 1, Failed, time)] + rest)
    requires (rest != [] ==> rest[|rest| - 1].time <= now) && time <= now < time + cfg.resetTimeout
    ensures var open := run + more + [Settled(|run| - 1, Failed, time)];
            && Valid(cfg, open) && Reached(cfg, open).breaker.state == Open
            && Reached(cfg, open).breaker.lastFailureTime == time && Reached(cfg, open).flights == map[]
            && Reached(cfg, open + rest).breaker.state == Open && !Admits(cfg, open + rest, now)
  {
    var settled := Settled(|run| - 1, Failed, time);
    var open := run + more + [settled];
    AloneStays(cfg, run, more);
    LastOf(cfg, run + more, settled, rest);
    assert (open + rest)[..|open|] == open;
    assert (open + rest)[|open| - 1] == settled;
    OpenForTheWholeTimeout(cfg, open + rest, |open|);
  }

  /** Ordinary calls numbered from `n` below `k` are in flight. */
  ghost predicate OrdinaryCalls(flights: map<nat, bool>, n: nat, k: nat) {
    && (forall i: nat :: i in flights <==> n <= i < k)
    && (forall i: nat :: i in flights ==> !flights[i])
  }

  lemma {:induction false} CallsAtOnce(cfg: Config, k: nat) returns (run: seq<Event>)
    ensures Valid(cfg, run) && |run| == k && (run != [] ==> run[k - 1].time == 0)
    ensures Reached(cfg, run).breaker == INITIAL && OrdinaryCalls(Reached(cfg, run).flights, 0, k)
  {
    run := [];
    if k > 0 {
      run := CallsAtOnce(cfg, k - 1);
      OneMore(cfg, run, Call(0));
      run := run + [Call(0)];
    }
  }

  /** Of `k` calls made at once, the first `n` failed. */
  lemma {:induction false} FailuresAtOnce(cfg: Config, k: nat, n: nat) returns (run: seq<Event>)
    requires n <= k && n <= Max(cfg.threshold, 1)
    ensures Valid(cfg, run) && |run| == k + n && (run != [] ==> run[|run| - 1].time == 0)
    ensures Reached(cfg, run).breaker == Breaker(if n < Max(cfg.threshold, 1) then Closed else Open, n, 0, false)
    ensures OrdinaryCalls(Reached(cfg, run).flights, n, k)
  {
    if n == 0 {
      run := CallsAtOnce(cfg, k);
    } else {
      run := FailuresAtOnce(cfg, k, n - 1);
      OneMore(cfg, run, Settled(n - 1, Failed, 0));
      run := run + [Settled(n - 1, Failed, 0)];
    }
  }

  /** With every threshold and timeout, some run starts a probe while an earlier call is in flight. */
  lemma ProbeMayNotBeAlone(cfg: Config) returns (run: seq<Event>)
    ensures StartsProbe(cfg, run) && !Alone(cfg, run) && !RejectsWhileProbing(cfg, run)
  {
    var n := Max(cfg.threshold, 1);
    run := FailuresAtOnce(cfg, n + 1, n);
    var call := Call(Max(cfg.resetTimeout, 0));
    OneMore(cfg, run, call);
    run := run + [call];
    assert n in Reached(cfg, run).flights.Keys;
    LateSuccessLetsIn(cfg, run, n);
  }

  // ----- Retry

  datatype Attempt<T, E> = Returned(value: T) | Threw(error: E)

  function Pow(base: real, exponent: nat): real {
    if exponent == 0 then 1.0 else base * Pow(base, exponent - 1)
  }

  /** The attempt that ends the loop: a success, an error not worth retrying, or the last one allowed. */
  predicate Final<T, E>(attempt: Attempt<T, E>, k: nat, retries: nat, shouldRetry: E -> bool) {
    attempt.Returned? || k >= retries || !shouldRetry(attempt.error)
  }

  /** Within a quarter of the exponential delay after attempt `k`. */
  predicate AroundDelay(wait: real, delay: real, backoff: real, k: nat) {
    var waitMs := delay * Pow(backoff, k);
    0.75 * waitMs <= wait <= 1.25 * waitMs
  }

  /** The exponential delay and its random share, never negative. */
  function WaitFor(delay: real, backoff: real, k: nat, draw: real): (wait: real)
    requires delay >= 0.0 && backoff >= 0.0 && -1.0 <= draw < 1.0
    ensures wait >= 0.0 && AroundDelay(wait, delay, backoff, k)
  {
    PowNonNegative(backoff, k);
    ProductNonNegative(delay, Pow(backoff, k));
    var waitMs := delay * Pow(backoff, k);
    var jittered := waitMs + Jitter(waitMs, draw);
    if jittered < 0.0 then 0.0 else jittered
  }

  /** The first wait is about the delay itself, the second about `backoff` times as long, and so on. */
  lemma WaitsGrow(delay: real, backoff: real, k: nat, draw: real)
    requires delay >= 0.0 && backoff >= 0.0 && -1.0 <= draw < 1.0
    ensures 0.75 * delay <= WaitFor(delay, backoff, 0, draw) <= 1.25 * delay
    ensures WaitFor(delay, backoff, k, 0.0) == delay * Pow(backoff, k)
    ensures WaitFor(delay, backoff, k + 1, 0.0) == backoff * WaitFor(delay, backoff, k, 0.0)
  {
    assert Pow(backoff, 0) == 1.0 && delay * 1.0 == delay;
    NoJitter(delay, backoff, k);
    NoJitter(delay, backoff, k + 1);
    assert delay * (backoff * Pow(backoff, k)) == backoff * (delay * Pow(backoff, k));
  }

  lemma NoJitter(delay: real, backoff: real, k: nat)
    requires delay >= 0.0 && backoff >= 0.0
    ensures WaitFor(delay, backoff, k, 0.0) == delay * Pow(backoff, k)
  {
    PowNonNegative(backoff, k);
    ProductNonNegative(delay, Pow(backoff, k));
    var quarter := delay * Pow(backoff, k) * 0.25;
    assert quarter * 0.0 == 0.0;
  }

  /**
   * `fn(k)` is what the k-th call of the wrapped function does, `jitter(k)` the random factor drawn
   * after it. The caller gets the first final attempt; each earlier one waited within a quarter of
   * its exponential delay.
   */
  method WithRetry<T, E>(fn: nat -> Attempt<T, E>, retries: nat, delay: real, backoff: real,
                         shouldRetry: E -> bool, jitter: nat -> real)
    returns (result: Attempt<T, E>, calls: nat, waits: seq<real>)
    requires forall k :: -1.0 <= jitter(k) < 1.0
    requires delay >= 0.0 && backoff >= 0.0
    ensures 1 <= calls <= retries + 1 && result == fn(calls - 1)
    ensures Final(fn(calls - 1), calls - 1, retries, shouldRetry)
    ensures forall k :: 0 <= k < calls - 1 ==> !Final(fn(k), k, retries, shouldRetry)
    ensures |waits| == calls - 1
    ensures forall k :: 0 <= k < |waits| ==> AroundDelay(waits[k], delay, backoff, k)
  {
    calls, waits := 0, [];
    while calls <= retries
      invariant 0 <= calls <= retries && |waits| == calls
      invariant forall k :: 0 <= k < calls ==> !Final(fn(k), k, retries, shouldRetry)
      invariant forall k :: 0 <= k < |waits| ==> AroundDelay(waits[k], delay, backoff, k)
      decreases retries - calls
    {
      var attempt := calls;
      result := fn(attempt);
      calls := calls + 1;
      if result.Returned? {
        return;
      } else if attempt < retries && shouldRetry(result.error) {
        waits := waits + [WaitFor(delay, backoff, attempt, jitter(attempt))];
      } else {
        return;
      }
    }
  }

  lemma {:induction false} PowNonNegative(base: real, exponent: nat)
    requires base >= 0.0
    ensures Pow(base, exponent) >= 0.0
  {
    if exponent > 0 { PowNonNegative(base, exponent - 1); }
  }

  lemma ProductNonNegative(a: real, b: real)
    requires a >= 0.0 && b >= 0.0
    ensures a * b >= 0.0
  {
  }

  /** A random share of a quarter of the wait, in either direction. */
  function Jitter(waitMs: real, draw: real): (j: real)
    requires waitMs >= 0.0 && -1.0 <= draw < 1.0
    ensures -0.25 * waitMs <= j <= 0.25 * waitMs
  {
    var quarter := waitMs * 0.25;
    ProductNonNegative(quarter, draw + 1.0);
    ProductNonNegative(quarter, 1.0 - draw);
    assert quarter * (draw + 1.0) == quarter * draw + quarter;
    assert quarter * (1.0 - draw) == quarter - quarter * draw;
    quarter * draw
  }
}
