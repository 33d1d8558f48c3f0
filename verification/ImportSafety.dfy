/** No step of the pipeline loses an accepted job. */
module ImportSafety {
  import opened Prelude
  import opened ImportPipeline

  ghost predicate Known(s: State, content: Content) {
    content.Payload? ==> content.jobId in s.accepted && s.accepted[content.jobId] == content.job
  }

  /** Applied, or parked in the failed queue. */
  ghost predicate Safe(s: State, j: JobId) {
    j in s.applied || exists h :: h in s.failed && s.failed[h].Payload? && s.failed[h].jobId == j
  }

  ghost predicate PcOk(s: State, m: Handler) {
    match m.pc
    case Completing(count) => m.content.Payload? && m.content.jobId in s.applied && count == |m.content.job.words|
    case Acking => m.content.Malformed? || Safe(s, m.content.jobId)
    case _ => true
  }

  ghost predicate HandlerOk(s: State, h: nat) {
    h in s.handlers ==>
      var m := s.handlers[h];
      && m.copy in s.copies && s.copies[m.copy].content == m.content && Known(s, m.content) && PcOk(s, m)
      && (h in s.failed ==> s.failed[h] == m.content)
  }

  ghost predicate CopyOk(s: State, c: nat) {
    c in s.copies ==>
      var copy := s.copies[c];
      && Known(s, copy.content)
      && (copy.place.InFlight? ==>
            var h := copy.place.handler;
            h in s.handlers && s.handlers[h].copy == c
            && s.handlers[h].redelivered == copy.redelivered && s.handlers[h].deaths == copy.deaths)
      && (copy.place == Settled && copy.content.Payload? ==> Safe(s, copy.content.jobId))
  }

  ghost predicate PublisherOk(s: State, p: nat) {
    p in s.publishers ==>
      var m := s.publishers[p];
      && m.copy in s.copies && s.copies[m.copy].content.Payload? && s.copies[m.copy].content.jobId == m.jobId
      && (m.confirmed ==> Arrived(s.copies[m.copy]))
  }

  ghost predicate JobOk(s: State, j: JobId) {
    j in s.accepted ==> j in s.outbox || exists c :: Carries(s, c, j)
  }

  ghost predicate Kept(s: State) {
    && (forall h :: HandlerOk(s, h))
    && (forall c :: CopyOk(s, c))
    && (forall p :: PublisherOk(s, p))
    && (forall j :: JobOk(s, j))
    && s.failed.Keys <= s.handlers.Keys
  }

  /** What no step takes back. */
  ghost predicate Grows(s: State, t: State) {
    && (forall j :: j in s.accepted ==> j in t.accepted && t.accepted[j] == s.accepted[j])
    && (forall h :: h in s.failed ==> h in t.failed && t.failed[h] == s.failed[h])
    && s.applied <= t.applied
    && (forall c :: c in s.copies ==> c in t.copies && t.copies[c].content == s.copies[c].content
                                      && (Arrived(s.copies[c]) ==> Arrived(t.copies[c])))
  }

  lemma PublishGrows(s: State, a: PublishStep)
    requires PublishEnabled(s, a)
    ensures Grows(s, ApplyPublish(s, a))
  {
  }

  lemma BrokerGrows(s: State, a: BrokerStep)
    requires Kept(s) && BrokerEnabled(s, a)
    ensures Grows(s, ApplyBroker(s, a))
  {
    if a.ParkArrives? { assert HandlerOk(s, a.handler); }
  }

  lemma WorkerGrows(s: State, h: nat, a: WorkerStep)
    requires WorkerEnabled(s, h, a)
    ensures Grows(s, ApplyWorker(s, h, a))
  {
    CopiesAfter(s, h, a);
    SavedAfter(s, h, a);
    CopyAfterMoves(s, h, a);
  }

  lemma SafeGrows(s: State, t: State, j: JobId)
    requires Grows(s, t) && Safe(s, j)
    ensures Safe(t, j)
  {
    if j !in s.applied {
      var h :| h in s.failed && s.failed[h].Payload? && s.failed[h].jobId == j;
      assert h in t.failed && t.failed[h] == s.failed[h];
    }
  }

  lemma JobGrows(s: State, t: State, j: JobId)
    requires Grows(s, t) && JobOk(s, j) && j in s.accepted && (j in s.outbox ==> j in t.outbox)
    ensures JobOk(t, j)
  {
    if j !in s.outbox {
      var c :| Carries(s, c, j);
      assert Carries(t, c, j);
    }
  }

  /** A handler the step leaves alone. */
  lemma HandlerGrows(s: State, t: State, h: nat)
    requires Grows(s, t) && HandlerOk(s, h)
    requires h in t.handlers ==> h in s.handlers && t.handlers[h] == s.handlers[h]
    requires h in t.failed && h !in s.failed && h in t.handlers ==> t.failed[h] == t.handlers[h].content
    ensures HandlerOk(t, h)
  {
    if h in t.handlers && t.handlers[h].pc == Acking && t.handlers[h].content.Payload? {
      SafeGrows(s, t, t.handlers[h].content.jobId);
    }
  }

  /** A copy the step leaves alone, or only moves without settling it. */
  lemma CopyGrows(s: State, t: State, c: nat)
    requires Grows(s, t) && CopyOk(s, c) && c in s.copies && c in t.copies
    requires t.copies[c].place == s.copies[c].place || (t.copies[c].place != Settled && !t.copies[c].place.InFlight?)
    requires t.copies[c].place.InFlight? ==>
      && t.copies[c].deaths == s.copies[c].deaths && t.copies[c].redelivered == s.copies[c].redelivered
      && forall h :: h in s.handlers ==>
           h in t.handlers && t.handlers[h].(pc := Done) == s.handlers[h].(pc := Done)
    ensures CopyOk(t, c)
  {
    if t.copies[c].place == Settled && t.copies[c].content.Payload? {
      SafeGrows(s, t, t.copies[c].content.jobId);
    }
  }

  lemma PublishKept(s: State, a: PublishStep)
    requires Kept(s) && PublishEnabled(s, a)
    ensures Kept(ApplyPublish(s, a))
  {
    var t := ApplyPublish(s, a);
    PublishGrows(s, a);
    forall h ensures HandlerOk(t, h) { HandlerGrows(s, t, h); }
    forall c ensures CopyOk(t, c) {
      if c in s.copies { CopyGrows(s, t, c); }
    }
    forall p ensures PublisherOk(t, p) { assert PublisherOk(s, p); }
    forall j ensures JobOk(t, j) {
      assert JobOk(s, j);
      if a.RemoveRow? && j == s.publishers[a.publisher].jobId {
        assert PublisherOk(s, a.publisher);
        assert Carries(t, s.publishers[a.publisher].copy, j);
      } else if j in s.accepted {
        JobGrows(s, t, j);
      }
    }
  }

  lemma BrokerHandlerOk(s: State, a: BrokerStep, h: nat)
    requires Kept(s) && BrokerEnabled(s, a)
    ensures HandlerOk(ApplyBroker(s, a), h)
  {
    BrokerGrows(s, a);
    if a.Deliver? && h == a.handler {
      assert CopyOk(s, a.copy);
    } else {
      HandlerGrows(s, ApplyBroker(s, a), h);
    }
  }

  lemma BrokerCopyOk(s: State, a: BrokerStep, c: nat)
    requires Kept(s) && BrokerEnabled(s, a)
    ensures CopyOk(ApplyBroker(s, a), c)
  {
    BrokerGrows(s, a);
    assert CopyOk(s, c);
    if c in s.copies && !(a.Deliver? && c == a.copy) { CopyGrows(s, ApplyBroker(s, a), c); }
  }

  lemma BrokerKept(s: State, a: BrokerStep)
    requires Kept(s) && BrokerEnabled(s, a)
    ensures Kept(ApplyBroker(s, a))
  {
    var t := ApplyBroker(s, a);
    BrokerGrows(s, a);
    forall h ensures HandlerOk(t, h) { BrokerHandlerOk(s, a, h); }
    forall c ensures CopyOk(t, c) { BrokerCopyOk(s, a, c); }
    forall p ensures PublisherOk(t, p) { assert PublisherOk(s, p); }
    forall j ensures JobOk(t, j) {
      if j in s.accepted { JobGrows(s, t, j); }
    }
  }

  lemma HandlerStepOk(s: State, h: nat, a: WorkerStep)
    requires Kept(s) && WorkerEnabled(s, h, a)
    ensures HandlerOk(ApplyWorker(s, h, a), h)
  {
    var t := ApplyWorker(s, h, a);
    WorkerGrows(s, h, a);
    assert HandlerOk(s, h);
    if a.ParkConfirmed? { assert t.failed[h] == t.handlers[h].content; }
  }

  lemma CopyStepOk(s: State, h: nat, a: WorkerStep, c: nat)
    requires Kept(s) && WorkerEnabled(s, h, a) && c in s.copies
    ensures CopyOk(ApplyWorker(s, h, a), c)
  {
    var t := ApplyWorker(s, h, a);
    CopiesAfter(s, h, a);
    SavedAfter(s, h, a);
    if c == s.handlers[h].copy && t.copies[c].place == Settled && s.copies[c].place != Settled {
      SettledCopyOk(s, h, a);
    } else {
      WorkerGrows(s, h, a);
      if c == s.handlers[h].copy { CopyAfterMoves(s, h, a); }
      CopyGrows(s, t, c);
    }
  }

  lemma SettledCopyOk(s: State, h: nat, a: WorkerStep)
    requires Kept(s) && WorkerEnabled(s, h, a)
    requires CopyAfter(s, h, a).place == Settled && s.copies[s.handlers[h].copy].place != Settled
    ensures CopyOk(ApplyWorker(s, h, a), s.handlers[h].copy)
  {
    WorkerGrows(s, h, a);
    CopiesAfter(s, h, a);
    CopyAfterMoves(s, h, a);
    AckOk(s, h);
  }

  lemma AckOk(s: State, h: nat)
    requires Kept(s) && WorkerEnabled(s, h, Ack)
    ensures CopyOk(ApplyWorker(s, h, Ack), s.handlers[h].copy)
  {
    var t, m := ApplyWorker(s, h, Ack), s.handlers[h];
    WorkerGrows(s, h, Ack);
    assert HandlerOk(s, h) && CopyOk(s, m.copy);
    if m.content.Payload? { SafeGrows(s, t, m.content.jobId); }
  }

  lemma WorkerKept(s: State, h: nat, a: WorkerStep)
    requires Kept(s) && WorkerEnabled(s, h, a)
    ensures Kept(ApplyWorker(s, h, a))
  {
    var t := ApplyWorker(s, h, a);
    WorkerGrows(s, h, a);
    CopiesAfter(s, h, a);
    SavedAfter(s, h, a);
    HandlerStepOk(s, h, a);
    forall k ensures HandlerOk(t, k) {
      if k != h { HandlerGrows(s, t, k); }
    }
    forall c ensures CopyOk(t, c) {
      if c in s.copies { CopyStepOk(s, h, a, c); }
    }
    forall p ensures PublisherOk(t, p) { assert PublisherOk(s, p); }
    forall j ensures JobOk(t, j) {
      if j in s.accepted { JobGrows(s, t, j); }
    }
  }

  lemma KeptStep(s: State, a: Action)
    requires Kept(s) && Enabled(s, a)
    ensures Kept(Apply(s, a)) && Grows(s, Apply(s, a))
  {
    match a
    case Publishing(p) => PublishGrows(s, p); PublishKept(s, p);
    case Brokering(b) => BrokerGrows(s, b); BrokerKept(s, b);
    case Working(h, w) => WorkerGrows(s, h, w); WorkerKept(s, h, w);
  }
}
