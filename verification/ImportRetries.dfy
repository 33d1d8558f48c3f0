/** Failed jobs are retried, then parked, on every run of the pipeline; and a measure of the retries left. */
module ImportRetries {
  import opened ImportPipeline
  import opened ImportSafety
  import opened ImportAttempts
  import opened ImportGuarantees

  /** Rejections a copy may still go through, not counting future unconfirmed parks and thrown handlers. */
  function Patience(copy: Copy): int {
    MAX_RETRIES + copy.unconfirmed + copy.thrown - RetryCount(copy.deaths)
  }

  /** The step sends the copy round the retry queue because a retry is left. */
  predicate Retries(s: State, a: Action, c: nat) {
    && a.Working? && a.w == Nack && WorkerEnabled(s, a.handler, Nack)
    && s.handlers[a.handler].copy == c && s.copies[c].place == InFlight(a.handler)
    && s.handlers[a.handler].pc.cause == RetryLeft
  }

  function Cost(s: State, a: Action, c: nat): nat {
    if Retries(s, a, c) then 1 else 0
  }

  lemma WorkerPatience(s: State, h: nat, a: WorkerStep, c: nat)
    requires WorkerEnabled(s, h, a) && c in s.copies
    ensures c in ApplyWorker(s, h, a).copies
    ensures Patience(ApplyWorker(s, h, a).copies[c]) == Patience(s.copies[c]) - Cost(s, Working(h, a), c)
  {
    CopiesAfter(s, h, a);
    HandledPatience(s, h, a);
  }

  lemma HandledPatience(s: State, h: nat, a: WorkerStep)
    requires WorkerEnabled(s, h, a)
    ensures var c := s.handlers[h].copy;
            Patience(CopyAfter(s, h, a)) == Patience(s.copies[c]) - Cost(s, Working(h, a), c)
  {
    RejectionsCounted(s.copies[s.handlers[h].copy].deaths);
  }

  lemma BrokerPatience(s: State, a: BrokerStep, c: nat)
    requires BrokerEnabled(s, a) && c in s.copies
    ensures c in ApplyBroker(s, a).copies && Patience(ApplyBroker(s, a).copies[c]) == Patience(s.copies[c])
  {
    RejectionsCounted(s.copies[c].deaths);
  }

  /**
   * The measure is never negative and no step raises it; each retry lowers it by one. So a copy goes
   * round the retry queue a bounded number of times, however often it is redelivered.
   */
  lemma RetriesRunOut(s: State, a: Action, c: nat)
    requires Reachable(s) && Enabled(s, a) && c in s.copies
    ensures c in Apply(s, a).copies
    ensures 0 <= Patience(Apply(s, a).copies[c]) == Patience(s.copies[c]) - Cost(s, a, c)
  {
    ReachableKeeps(s);
    assert CopyBounded(s, c);
    match a
    case Publishing(_) =>
    case Brokering(b) => BrokerPatience(s, b, c);
    case Working(h, w) =>
      WorkerPatience(s, h, w, c);
      if Retries(s, a, c) { assert HandlerBounded(s, h) && CopyOk(s, c); }
  }

  /** A copy that was just published is a first delivery of its job, never rejected, with one retry left. */
  lemma NewCopyIsFresh(s: State, a: PublishStep)
    requires PublishEnabled(s, a) && a.Publish?
    ensures a.copy in ApplyPublish(s, a).copies
    ensures var copy := ApplyPublish(s, a).copies[a.copy];
            && copy.content == Payload(a.jobId, s.accepted[a.jobId]) && !copy.redelivered && copy.deaths == []
            && copy.starts == [] && Patience(copy) == 1
  {
  }

  /** The transaction of one delivery is rerun after at most two deadlocks. */
  ghost predicate RerunsBounded(s: State, h: nat) {
    h in s.handlers && s.handlers[h].pc.Saving? ==> s.handlers[h].pc.reruns <= 2
  }

  lemma StepRerunsBounded(s: State, a: Action, h: nat)
    requires Enabled(s, a) && RerunsBounded(s, h)
    ensures RerunsBounded(Apply(s, a), h)
  {
    match a
    case Publishing(_) =>
    case Brokering(_) =>
    case Working(k, w) => SavedAfter(s, k, w);
  }

  lemma {:induction false} RunRerunsBounded(s: State, actions: seq<Action>, end: State, h: nat)
    requires Runs(s, actions, end) && RerunsBounded(s, h)
    ensures RerunsBounded(end, h)
    decreases |actions|
  {
    if actions != [] {
      StepRerunsBounded(s, actions[0], h);
      RunRerunsBounded(Apply(s, actions[0]), actions[1..], end, h);
    }
  }

  /** In every reachable state, a delivery is in the third run of its transaction at most; a third deadlock fails it. */
  lemma AtMostThreeTransactions(s: State, h: nat)
    requires Reachable(s) && h in s.handlers && s.handlers[h].pc.Saving?
    ensures s.handlers[h].pc.reruns <= 2
    ensures WorkerEnabled(s, h, Deadlock) ==>
              ApplyWorker(s, h, Deadlock).handlers[h].pc
              == if s.handlers[h].pc.reruns == 2 then Failing else Saving(s.handlers[h].pc.reruns + 1)
  {
    var actions :| Runs(INITIAL, actions, s);
    RunRerunsBounded(INITIAL, actions, s, h);
  }

  // ----- A failed job is retried before it is parked

  /** A copy on its way to the failed queue, or in it, was rejected before. */
  ghost predicate ParkedLate(s: State, h: nat) {
    (h in s.handlers && s.handlers[h].pc == Parking) || h in s.parkWire || h in s.failed ==>
      h in s.handlers && RetryCount(s.handlers[h].deaths) >= 1
  }

  lemma StepParksLate(s: State, a: Action, h: nat)
    requires Enabled(s, a) && ParkedLate(s, h)
    ensures ParkedLate(Apply(s, a), h)
  {
    match a
    case Publishing(_) =>
    case Brokering(b) => BrokerParksLate(s, b, h);
    case Working(k, w) => WorkerParksLate(s, k, w, h);
  }

  lemma BrokerParksLate(s: State, a: BrokerStep, h: nat)
    requires BrokerEnabled(s, a) && ParkedLate(s, h)
    ensures ParkedLate(ApplyBroker(s, a), h)
  {
  }

  lemma WorkerParksLate(s: State, k: nat, a: WorkerStep, h: nat)
    requires WorkerEnabled(s, k, a) && ParkedLate(s, h)
    ensures ParkedLate(ApplyWorker(s, k, a), h)
  {
    SavedAfter(s, k, a);
  }

  lemma {:induction false} RunParksLate(s: State, actions: seq<Action>, end: State, h: nat)
    requires Runs(s, actions, end) && ParkedLate(s, h)
    ensures ParkedLate(end, h)
    decreases |actions|
  {
    if actions != [] {
      StepParksLate(s, actions[0], h);
      RunParksLate(Apply(s, actions[0]), actions[1..], end, h);
    }
  }

  /** No job reaches the failed queue, or is being parked, without having been rejected and redelivered before. */
  lemma NeverParkedAtOnce(s: State, h: nat)
    requires Reachable(s)
    requires (h in s.handlers && s.handlers[h].pc == Parking) || h in s.parkWire || h in s.failed
    ensures h in s.handlers && RetryCount(s.handlers[h].deaths) >= 1
  {
    var actions :| Runs(INITIAL, actions, s);
    RunParksLate(INITIAL, actions, s, h);
  }

  /** A failed first attempt goes back to the work queue through the retry queue, counted once. */
  lemma FailureIsRetried(s: State, h: nat) returns (t: State)
    requires Reachable(s) && h in s.handlers && s.handlers[h].pc == Failing
    requires s.handlers[h].copy in s.copies && s.copies[s.handlers[h].copy].place == InFlight(h)
    requires RetryCount(s.handlers[h].deaths) == 0
    ensures var c := s.handlers[h].copy;
            && Runs(s, [Working(h, Reject), Working(h, Nack), Brokering(Expire(c))], t)
            && c in t.copies && t.copies[c].content == s.copies[c].content
            && t.copies[c].place == Work && !t.copies[c].redelivered && RetryCount(t.copies[c].deaths) == 1
            && t.failed == s.failed && t.parkWire == s.parkWire
  {
    var c := s.handlers[h].copy;
    InFlightDeaths(s, h);
    var nacking := RejectsFor(s, h, Nacking(RetryLeft));
    var waiting := Nacks(nacking, h);
    t := Expires(waiting, c);
    ThreeSteps(s, Working(h, Reject), nacking, Working(h, Nack), waiting, Brokering(Expire(c)), t);
  }

  /** A handler knows the deaths of the message in flight to it. */
  lemma InFlightDeaths(s: State, h: nat)
    requires Reachable(s) && h in s.handlers && s.handlers[h].copy in s.copies
    requires s.copies[s.handlers[h].copy].place == InFlight(h)
    ensures s.copies[s.handlers[h].copy].deaths == s.handlers[h].deaths
  {
    ReachableKeeps(s);
    assert CopyOk(s, s.handlers[h].copy);
  }

  /** The handler once it rejected: about to nack while the copy was never rejected, else parking. */
  lemma RejectsFor(s: State, h: nat, pc: Pc) returns (t: State)
    requires WorkerEnabled(s, h, Reject)
    requires pc == if RetryCount(s.handlers[h].deaths) >= 1 then Parking else Nacking(RetryLeft)
    ensures t == ApplyWorker(s, h, Reject) && t.copies == s.copies && t.failed == s.failed
    ensures t.handlers == s.handlers[h := s.handlers[h].(pc := pc)]
    ensures t.parkWire == s.parkWire + if pc == Parking then {h} else {}
  {
    t := ApplyWorker(s, h, Reject);
    CopiesAfter(s, h, Reject);
    SavedAfter(s, h, Reject);
    assert s.copies[s.handlers[h].copy := s.copies[s.handlers[h].copy]] == s.copies;
  }

  lemma Nacks(s: State, h: nat) returns (t: State)
    requires WorkerEnabled(s, h, Nack) && s.copies[s.handlers[h].copy].place == InFlight(h)
    ensures t == ApplyWorker(s, h, Nack) && t.failed == s.failed && t.parkWire == s.parkWire
    ensures var c := s.handlers[h].copy;
            && c in t.copies && t.copies[c].place == Waiting && t.copies[c].content == s.copies[c].content
            && RetryCount(t.copies[c].deaths) == RetryCount(s.copies[c].deaths) + 1
  {
    t := ApplyWorker(s, h, Nack);
    CopiesAfter(s, h, Nack);
    SavedAfter(s, h, Nack);
    RejectionsCounted(s.copies[s.handlers[h].copy].deaths);
  }

  lemma Expires(s: State, c: nat) returns (t: State)
    requires c in s.copies && s.copies[c].place == Waiting
    ensures t == ApplyBroker(s, Expire(c)) && t.failed == s.failed && t.parkWire == s.parkWire
    ensures c in t.copies && t.copies[c].place == Work && !t.copies[c].redelivered
    ensures t.copies[c].content == s.copies[c].content
    ensures RetryCount(t.copies[c].deaths) == RetryCount(s.copies[c].deaths)
  {
    t := ApplyBroker(s, Expire(c));
    RejectionsCounted(s.copies[c].deaths);
  }

  /** A failure after a rejection is parked, and the message settled, once the broker confirms the copy. */
  lemma SecondFailureIsParked(s: State, h: nat) returns (t: State)
    requires Reachable(s) && h in s.handlers && s.handlers[h].pc == Failing
    requires s.handlers[h].copy in s.copies && s.copies[s.handlers[h].copy].place == InFlight(h)
    requires RetryCount(s.handlers[h].deaths) >= 1
    ensures Leads(s, t)
    ensures var c := s.handlers[h].copy;
            && h in t.failed && t.failed[h] == s.handlers[h].content
            && c in t.copies && t.copies[c].place == Settled
  {
    var stored := ParksCopy(s, h);
    t := ConfirmsAndAcks(stored, h);
    Concat(s, stored, t);
  }

  ghost predicate Leads(s: State, t: State) {
    exists actions :: Runs(s, actions, t)
  }

  lemma Concat(s: State, t: State, u: State)
    requires Leads(s, t) && Leads(t, u)
    ensures Leads(s, u)
  {
    var actions :| Runs(s, actions, t);
    var more :| Runs(t, more, u);
    RunsOn(s, actions, t, more, u);
  }

  lemma {:induction false} RunsOn(s: State, actions: seq<Action>, t: State, more: seq<Action>, u: State)
    requires Runs(s, actions, t) && Runs(t, more, u)
    ensures Runs(s, actions + more, u)
    decreases |actions|
  {
    if actions == [] {
      assert actions + more == more;
    } else {
      RunsOn(Apply(s, actions[0]), actions[1..], t, more, u);
      assert (actions + more)[0] == actions[0] && (actions + more)[1..] == actions[1..] + more;
    }
  }

  lemma TwoSteps(s: State, a: Action, t: State, b: Action, u: State)
    requires Enabled(s, a) && t == Apply(s, a) && Enabled(t, b) && u == Apply(t, b)
    ensures Leads(s, u)
  {
    assert Runs(u, [], u) && [b][1..] == [] && [a, b][1..] == [b];
    assert Runs(t, [b], u);
    assert Runs(s, [a, b], u);
  }

  lemma ParksCopy(s: State, h: nat) returns (t: State)
    requires WorkerEnabled(s, h, Reject) && RetryCount(s.handlers[h].deaths) >= 1
    ensures Leads(s, t) && t.copies == s.copies && t.handlers == s.handlers[h := s.handlers[h].(pc := Parking)]
    ensures t.failed == s.failed[h := s.handlers[h].content]
  {
    var parking := RejectsFor(s, h, Parking);
    t := StoresParked(parking, h);
    TwoSteps(s, Working(h, Reject), parking, Brokering(ParkArrives(h)), t);
  }

  lemma ConfirmsAndAcks(s: State, h: nat) returns (t: State)
    requires WorkerEnabled(s, h, ParkConfirmed) && s.copies[s.handlers[h].copy].place == InFlight(h)
    ensures Leads(s, t) && t.failed == s.failed
    ensures s.handlers[h].copy in t.copies && t.copies[s.handlers[h].copy].place == Settled
  {
    var acking := Confirms(s, h);
    t := Acks(acking, h);
    TwoSteps(s, Working(h, ParkConfirmed), acking, Working(h, Ack), t);
  }

  lemma StoresParked(s: State, h: nat) returns (t: State)
    requires h in s.parkWire && h in s.handlers
    ensures t == ApplyBroker(s, ParkArrives(h)) && t.copies == s.copies && t.handlers == s.handlers
    ensures t.failed == s.failed[h := s.handlers[h].content]
  {
    t := ApplyBroker(s, ParkArrives(h));
  }

  lemma Confirms(s: State, h: nat) returns (t: State)
    requires WorkerEnabled(s, h, ParkConfirmed)
    ensures t == ApplyWorker(s, h, ParkConfirmed) && t.copies == s.copies && t.failed == s.failed
    ensures t.handlers == s.handlers[h := s.handlers[h].(pc := Acking)]
  {
    t := ApplyWorker(s, h, ParkConfirmed);
    CopiesAfter(s, h, ParkConfirmed);
    SavedAfter(s, h, ParkConfirmed);
    assert s.copies[s.handlers[h].copy := s.copies[s.handlers[h].copy]] == s.copies;
  }

  lemma Acks(s: State, h: nat) returns (t: State)
    requires WorkerEnabled(s, h, Ack) && s.copies[s.handlers[h].copy].place == InFlight(h)
    ensures t == ApplyWorker(s, h, Ack) && t.failed == s.failed
    ensures s.handlers[h].copy in t.copies && t.copies[s.handlers[h].copy].place == Settled
  {
    t := ApplyWorker(s, h, Ack);
    CopiesAfter(s, h, Ack);
    SavedAfter(s, h, Ack);
  }

  lemma ThreeSteps(s: State, a: Action, t: State, b: Action, u: State, c: Action, v: State)
    requires Enabled(s, a) && t == Apply(s, a) && Enabled(t, b) && u == Apply(t, b) && Enabled(u, c) && v == Apply(u, c)
    ensures Runs(s, [a, b, c], v)
  {
    assert Runs(v, [], v) && [c][1..] == [] && [b, c][1..] == [c] && [a, b, c][1..] == [b, c];
    assert Runs(u, [c], v);
    assert Runs(t, [b, c], v);
  }
}
