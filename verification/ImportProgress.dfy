/** From every reachable state of the pipeline, every accepted job can still be applied or parked. */
module ImportProgress {
  import opened Prelude
  import opened ImportPipeline
  import opened ImportSafety
  import opened ImportGuarantees
  import opened ImportRetries

  lemma Then(s: State, t: State, a: Action) returns (u: State)
    requires Leads(s, t) && Enabled(t, a)
    ensures u == Apply(t, a) && Leads(s, u)
  {
    var actions :| Runs(s, actions, t);
    RunThen(s, actions, t, a);
    u := Apply(t, a);
  }

  lemma Stays(s: State)
    ensures Leads(s, s)
  {
    assert Runs(s, [], s);
  }

  lemma ReachableOn(s: State, t: State)
    requires Reachable(s) && Leads(s, t)
    ensures Reachable(t)
  {
    var actions :| Runs(INITIAL, actions, s);
    var more :| Runs(s, more, t);
    RunsOn(INITIAL, actions, s, more, t);
  }

  /** The copy carries the job and waits in the work queue. */
  predicate Queued(s: State, c: nat, j: JobId) {
    c in s.copies && s.copies[c].place == Work && s.copies[c].content.Payload? && s.copies[c].content.jobId == j
  }

  /** A delivery by a new handler, up to what `handle` does first. */
  lemma Delivers(s: State, c: nat, j: JobId) returns (t: State, h: nat)
    requires Queued(s, c, j)
    ensures Leads(s, t) && h in t.handlers && c in t.copies && t.applied == s.applied
    ensures t.copies[c].place == InFlight(h) && t.copies[c].content == s.copies[c].content
    ensures t.handlers[h] == Handler(c, s.copies[c].content, s.copies[c].redelivered, s.copies[c].deaths,
                                     FirstPc(s.copies[c].content, s.copies[c].redelivered))
  {
    h := IdsBounded(s.handlers.Keys);
    assert h !in s.handlers.Keys;
    Stays(s);
    var delivered := Then(s, s, Brokering(Deliver(c, h)));
    CopiesAfter(delivered, h, Parse);
    SavedAfter(delivered, h, Parse);
    t := Then(s, delivered, Working(h, Parse));
  }

  /** A first delivery saves the words. */
  lemma FirstDeliverySaves(s: State, c: nat, j: JobId) returns (t: State)
    requires Queued(s, c, j) && !s.copies[c].redelivered && j !in s.applied
    ensures Leads(s, t) && j in t.applied
  {
    var parsed, h := Delivers(s, c, j);
    SavedAfter(parsed, h, EarlyCheck);
    var saving := Then(s, parsed, Working(h, EarlyCheck));
    CopiesAfter(parsed, h, EarlyCheck);
    SavedAfter(saving, h, Commit);
    t := Then(s, saving, Working(h, Commit));
  }

  /** A redelivery is counted as a failure: it is retried as a first delivery, or parked. */
  lemma RedeliverySettles(s: State, c: nat, j: JobId) returns (t: State)
    requires Reachable(s) && Queued(s, c, j) && s.copies[c].redelivered && j !in s.applied
    ensures Leads(s, t) && Safe(t, j)
  {
    var failing, h := Fails(s, c, j);
    ReachableOn(s, failing);
    if RetryCount(failing.handlers[h].deaths) == 0 {
      var queued := FailureIsRetried(failing, h);
      Concat(s, failing, queued);
      if j in queued.applied {
        t := queued;
      } else {
        t := FirstDeliverySaves(queued, c, j);
        Concat(s, queued, t);
      }
    } else {
      t := SecondFailureIsParked(failing, h);
      Concat(s, failing, t);
      assert t.failed[h].Payload? && t.failed[h].jobId == j;
    }
  }

  lemma Fails(s: State, c: nat, j: JobId) returns (t: State, h: nat)
    requires Queued(s, c, j) && s.copies[c].redelivered && j !in s.applied
    ensures Leads(s, t) && h in t.handlers && t.handlers[h].copy == c && t.handlers[h].pc == Failing
    ensures t.handlers[h].content == s.copies[c].content
    ensures c in t.copies && t.copies[c].place == InFlight(h) && t.copies[c].content == s.copies[c].content
  {
    var parsed;
    parsed, h := Delivers(s, c, j);
    CopiesAfter(parsed, h, CheckApplied);
    SavedAfter(parsed, h, CheckApplied);
    t := Then(s, parsed, Working(h, CheckApplied));
  }

  lemma QueuedSettles(s: State, c: nat, j: JobId) returns (t: State)
    requires Reachable(s) && Queued(s, c, j)
    ensures Leads(s, t) && Safe(t, j)
  {
    Stays(s);
    if j in s.applied {
      t := s;
    } else if s.copies[c].redelivered {
      t := RedeliverySettles(s, c, j);
    } else {
      t := FirstDeliverySaves(s, c, j);
    }
  }

  /** A copy the broker holds anywhere can come back to the work queue, unless it is settled. */
  lemma ComesBack(s: State, c: nat, j: JobId) returns (t: State)
    requires Carries(s, c, j) && s.copies[c].place != Settled
    ensures Leads(s, t) && Queued(t, c, j)
  {
    Stays(s);
    match s.copies[c].place
    case Work => t := s;
    case InFlight(_) => t := Then(s, s, Brokering(LoseConsumer(c)));
    case Waiting => t := Then(s, s, Brokering(Expire(c)));
  }

  /** A job in the outbox can be published. */
  lemma GetsQueued(s: State, j: JobId) returns (t: State, c: nat)
    requires j in s.accepted
    ensures Leads(s, t) && Queued(t, c, j)
  {
    var p := IdsBounded(s.publishers.Keys);
    c := IdsBounded(s.copies.Keys);
    assert p !in s.publishers.Keys && c !in s.copies.Keys;
    Stays(s);
    t := Then(s, s, Publishing(Publish(p, c, j)));
    t := Then(s, t, Brokering(Arrive(c)));
  }

  /**
   * However publishers, broker and workers got here, every accepted job can still reach its end: some
   * run applies it or parks it. A job in the outbox is published for that; any other needs no new copy.
   */
  lemma EveryJobCanSettle(s: State, j: JobId) returns (t: State)
    requires Reachable(s) && j in s.accepted
    ensures Leads(s, t) && Safe(t, j)
  {
    ReachableKeeps(s);
    assert JobOk(s, j);
    var c, queued;
    if j in s.outbox {
      queued, c := GetsQueued(s, j);
    } else {
      c :| Carries(s, c, j);
      if s.copies[c].place == Settled {
        assert CopyOk(s, c);
        Stays(s);
        t := s;
        return;
      }
      queued := ComesBack(s, c, j);
    }
    ReachableOn(s, queued);
    t := QueuedSettles(queued, c, j);
    Concat(s, queued, t);
  }
}
