/** The number of attempts a message copy can get is bounded. */
module ImportAttempts {
  import opened Prelude
  import opened ImportPipeline
  import opened ImportSafety

  /** A first delivery that has not started `addWords` yet. */
  predicate Unstarted(m: Handler) {
    m.pc == Begin && !m.redelivered && m.content.Payload?
  }

  ghost predicate CopyBounded(s: State, c: nat) {
    c in s.copies ==> StartsSound(s.copies[c])
  }

  /** At most one start between two rejections, and no more rejections than retries and mishaps. */
  predicate StartsSound(copy: Copy) {
    var rejections := RetryCount(copy.deaths);
    && rejections <= MAX_RETRIES + copy.unconfirmed + copy.thrown
    && (copy.place == Waiting ==> !copy.redelivered)
    && (forall i, j :: 0 <= i < j < |copy.starts| ==> copy.starts[i] != copy.starts[j])
    && (forall i :: 0 <= i < |copy.starts| ==> copy.starts[i] <= rejections)
    && (rejections in copy.starts ==> copy.place.InFlight? || copy.place == Settled || copy.redelivered)
  }

  ghost predicate HandlerBounded(s: State, h: nat) {
    h in s.handlers && s.handlers[h].copy in s.copies ==>
      var m, copy := s.handlers[h], s.copies[s.handlers[h].copy];
      var rejections := RetryCount(m.deaths);
      && (m.pc == Nacking(RetryLeft) ==> rejections < MAX_RETRIES)
      && (Unstarted(m) ==>
            && rejections !in copy.starts
            && rejections <= RetryCount(copy.deaths)
            && (rejections == RetryCount(copy.deaths) ==> copy.place == InFlight(h) || copy.redelivered))
  }

  /** Two unstarted first deliveries of a copy lie on either side of a rejection. */
  ghost predicate Apart(s: State, h: nat, k: nat) {
    h in s.handlers && k in s.handlers && h != k && s.handlers[h].copy == s.handlers[k].copy
    && Unstarted(s.handlers[h]) && Unstarted(s.handlers[k]) ==>
      RetryCount(s.handlers[h].deaths) != RetryCount(s.handlers[k].deaths)
  }

  ghost predicate Bounded(s: State) {
    && (forall c :: CopyBounded(s, c))
    && (forall h :: HandlerBounded(s, h))
    && (forall h, k :: Apart(s, h, k))
  }

  lemma PublishBounded(s: State, a: PublishStep)
    requires Kept(s) && Bounded(s) && PublishEnabled(s, a)
    ensures Bounded(ApplyPublish(s, a))
  {
    var t := ApplyPublish(s, a);
    forall c ensures CopyBounded(t, c) { assert CopyBounded(s, c); }
    forall h ensures HandlerBounded(t, h) { assert HandlerBounded(s, h) && HandlerOk(s, h); }
    forall h, k ensures Apart(t, h, k) { assert Apart(s, h, k); }
  }

  lemma BrokerBounded(s: State, a: BrokerStep)
    requires Kept(s) && Bounded(s) && BrokerEnabled(s, a)
    ensures Bounded(ApplyBroker(s, a))
  {
    var t := ApplyBroker(s, a);
    if a.Expire? { RejectionsCounted(s.copies[a.copy].deaths); }
    forall c ensures CopyBounded(t, c) { assert CopyBounded(s, c); }
    forall h ensures HandlerBounded(t, h) { BrokerHandlerBounded(s, a, h); }
    forall h, k ensures Apart(t, h, k) { BrokerApart(s, a, h, k); }
  }

  lemma BrokerHandlerBounded(s: State, a: BrokerStep, h: nat)
    requires Kept(s) && Bounded(s) && BrokerEnabled(s, a)
    ensures HandlerBounded(ApplyBroker(s, a), h)
  {
    assert HandlerBounded(s, h) && HandlerOk(s, h);
    if a.Expire? { RejectionsCounted(s.copies[a.copy].deaths); }
    if a.Deliver? || a.Expire? { assert CopyBounded(s, a.copy); }
  }

  lemma BrokerApart(s: State, a: BrokerStep, h: nat, k: nat)
    requires Kept(s) && Bounded(s) && BrokerEnabled(s, a)
    ensures Apart(ApplyBroker(s, a), h, k)
  {
    assert Apart(s, h, k) && HandlerBounded(s, h) && HandlerBounded(s, k);
  }

  lemma ParseBounded(s: State, h: nat)
    requires Kept(s) && Bounded(s) && WorkerEnabled(s, h, Parse)
    ensures CopyBounded(ApplyWorker(s, h, Parse), s.handlers[h].copy)
  {
    var m := s.handlers[h];
    assert CopyBounded(s, m.copy) && HandlerBounded(s, h);
    var starts := s.copies[m.copy].starts;
    assert forall i :: 0 <= i < |starts| ==> starts[i] in starts;
  }

  lemma DeadLetterSound(copy: Copy, cause: Cause)
    requires StartsSound(copy) && (cause == RetryLeft ==> RetryCount(copy.deaths) < MAX_RETRIES)
    ensures StartsSound(DeadLetter(copy, cause))
  {
    RejectionsCounted(copy.deaths);
    assert forall i :: 0 <= i < |copy.starts| ==> copy.starts[i] <= RetryCount(copy.deaths);
  }

  lemma WorkerCopyBounded(s: State, h: nat, a: WorkerStep, c: nat)
    requires Kept(s) && Bounded(s) && WorkerEnabled(s, h, a)
    ensures CopyBounded(ApplyWorker(s, h, a), c)
  {
    CopiesAfter(s, h, a);
    assert CopyBounded(s, c) && CopyOk(s, c);
    if c == s.handlers[h].copy {
      if a == Parse {
        ParseBounded(s, h);
      } else if a == Nack && s.copies[c].place == InFlight(h) {
        assert HandlerBounded(s, h);
        DeadLetterSound(s.copies[c], s.handlers[h].pc.cause);
      }
    }
  }

  lemma NextPcBounded(s: State, h: nat, a: WorkerStep)
    requires WorkerEnabled(s, h, a)
    ensures NextPc(s, h, a) != Begin
    ensures NextPc(s, h, a) == Nacking(RetryLeft) ==> RetryCount(s.handlers[h].deaths) < MAX_RETRIES
  {
  }

  /** What the other unstarted deliveries of the copy rely on. */
  lemma CopyAfterBounded(s: State, h: nat, a: WorkerStep)
    requires WorkerEnabled(s, h, a)
    ensures var m, copy, after := s.handlers[h], s.copies[s.handlers[h].copy], CopyAfter(s, h, a);
            && (after.starts == copy.starts || (Unstarted(m) && after.starts == copy.starts + [RetryCount(m.deaths)]))
            && RetryCount(copy.deaths) <= RetryCount(after.deaths)
            && (RetryCount(copy.deaths) == RetryCount(after.deaths) ==>
                  after.redelivered == copy.redelivered && (after.place == copy.place || copy.place == InFlight(h)))
  {
    RejectionsCounted(s.copies[s.handlers[h].copy].deaths);
  }

  lemma WorkerHandlerBounded(s: State, h: nat, a: WorkerStep, k: nat)
    requires Kept(s) && Bounded(s) && WorkerEnabled(s, h, a)
    ensures HandlerBounded(ApplyWorker(s, h, a), k)
  {
    assert HandlerBounded(s, k);
    if k == h {
      CopiesAfter(s, h, a);
      SavedAfter(s, h, a);
      NextPcBounded(s, h, a);
    } else {
      OtherHandlerBounded(s, h, a, k);
    }
  }

  lemma OtherHandlerBounded(s: State, h: nat, a: WorkerStep, k: nat)
    requires Kept(s) && Bounded(s) && WorkerEnabled(s, h, a) && k != h && HandlerBounded(s, k)
    ensures HandlerBounded(ApplyWorker(s, h, a), k)
  {
    CopiesAfter(s, h, a);
    SavedAfter(s, h, a);
    if k in s.handlers && s.handlers[k].copy == s.handlers[h].copy {
      CopyAfterBounded(s, h, a);
      assert Apart(s, h, k);
    }
  }

  lemma WorkerBounded(s: State, h: nat, a: WorkerStep)
    requires Kept(s) && Bounded(s) && WorkerEnabled(s, h, a)
    ensures Bounded(ApplyWorker(s, h, a))
  {
    var t := ApplyWorker(s, h, a);
    forall c ensures CopyBounded(t, c) { WorkerCopyBounded(s, h, a, c); }
    forall k ensures HandlerBounded(t, k) { WorkerHandlerBounded(s, h, a, k); }
    forall i, k ensures Apart(t, i, k) { assert Apart(s, i, k); }
  }

  /** Distinct numbers from 0 to `top` are at most `top + 1`. */
  lemma {:induction false} DistinctUpTo(s: seq<nat>, top: int)
    requires top >= -1
    requires forall i, j :: 0 <= i < j < |s| ==> s[i] != s[j]
    requires forall i :: 0 <= i < |s| ==> s[i] <= top
    ensures |s| <= top + 1
    decreases top
  {
    if top in s {
      var k :| 0 <= k < |s| && s[k] == top;
      DistinctUpTo(s[..k] + s[k + 1..], top - 1);
    } else if s != [] {
      assert s[0] <= top - 1;
      DistinctUpTo(s, top - 1);
    }
  }
}
