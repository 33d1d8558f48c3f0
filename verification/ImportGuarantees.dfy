/** What every run of the import pipeline guarantees. */
module ImportGuarantees {
  import opened Prelude
  import opened ImportPipeline
  import opened ImportSafety
  import opened ImportAttempts

  // ----- Each job is applied once

  function RowsOf(rows: seq<Row>, j: JobId): seq<Row> {
    if rows == [] then []
    else (if rows[0].jobId == j then [rows[0]] else []) + RowsOf(rows[1..], j)
  }

  lemma {:induction false} RowsOfAppend(a: seq<Row>, b: seq<Row>, j: JobId)
    ensures RowsOf(a + b, j) == RowsOf(a, j) + RowsOf(b, j)
  {
    if a == [] {
      assert a + b == b;
    } else {
      RowsOfAppend(a[1..], b, j);
      var first := if a[0].jobId == j then [a[0]] else [];
      assert (a + b)[1..] == a[1..] + b && (a + b)[0] == a[0];
      assert RowsOf(a + b, j) == first + (RowsOf(a[1..], j) + RowsOf(b, j));
    }
  }

  lemma {:induction false} RowsOfUniform(rows: seq<Row>, j: JobId, k: JobId)
    requires forall i :: 0 <= i < |rows| ==> rows[i].jobId == k
    ensures RowsOf(rows, j) == if j == k then rows else []
  {
    if rows != [] {
      RowsOfUniform(rows[1..], j, k);
      assert rows == [rows[0]] + rows[1..];
    }
  }

  ghost predicate AppliedOnce(s: State, j: JobId) {
    && (j in s.applied ==> j in s.accepted)
    && RowsOf(s.rows, j) == if j in s.applied && j in s.accepted then JobRows(j, s.accepted[j]) else []
  }

  ghost predicate ReportsFull(s: State) {
    forall i :: 0 <= i < |s.reports| ==>
      var r := s.reports[i];
      r.jobId in s.applied && r.jobId in s.accepted && r.imported == |s.accepted[r.jobId].words|
  }

  ghost predicate Once(s: State) {
    (forall j :: AppliedOnce(s, j)) && ReportsFull(s)
  }

  lemma SaveOnce(s: State, content: Content, j: JobId)
    requires AppliedOnce(s, j) && content.Payload? && Known(s, content)
    ensures AppliedOnce(Save(s, content), j)
  {
    if content.jobId !in s.applied {
      var rows := JobRows(content.jobId, content.job);
      RowsOfAppend(s.rows, rows, j);
      RowsOfUniform(rows, j, content.jobId);
      if j == content.jobId {
        assert RowsOf(s.rows, j) == [];
        assert [] + rows == rows;
      } else {
        assert RowsOf(s.rows, j) + [] == RowsOf(s.rows, j);
      }
    }
  }

  lemma WorkerOnce(s: State, h: nat, a: WorkerStep)
    requires Kept(s) && Once(s) && WorkerEnabled(s, h, a)
    ensures Once(ApplyWorker(s, h, a))
  {
    var t := ApplyWorker(s, h, a);
    SavedAfter(s, h, a);
    assert HandlerOk(s, h);
    forall j ensures AppliedOnce(t, j) {
      assert AppliedOnce(s, j);
      if a == Commit || a == CommitUnseen {
        SaveOnce(s, s.handlers[h].content, j);
      }
    }
    assert s.applied <= t.applied;
  }

  lemma QuietOnce(s: State, t: State)
    requires Once(s) && t.rows == s.rows && t.applied == s.applied && t.reports == s.reports
    requires forall j :: j in s.accepted ==> j in t.accepted && t.accepted[j] == s.accepted[j]
    ensures Once(t)
  {
    forall j ensures AppliedOnce(t, j) { assert AppliedOnce(s, j); }
  }

  lemma OnceStep(s: State, a: Action)
    requires Kept(s) && Once(s) && Enabled(s, a)
    ensures Once(Apply(s, a))
  {
    match a
    case Publishing(p) => PublishOnce(s, p);
    case Brokering(b) => BrokerOnce(s, b);
    case Working(h, w) => WorkerOnce(s, h, w);
  }

  lemma PublishOnce(s: State, a: PublishStep)
    requires Once(s) && PublishEnabled(s, a)
    ensures Once(ApplyPublish(s, a))
  {
    PublishGrows(s, a);
    QuietOnce(s, ApplyPublish(s, a));
  }

  lemma BrokerOnce(s: State, a: BrokerStep)
    requires Kept(s) && Once(s) && BrokerEnabled(s, a)
    ensures Once(ApplyBroker(s, a))
  {
    BrokerGrows(s, a);
    QuietOnce(s, ApplyBroker(s, a));
  }

  // ----- What every run guarantees

  lemma {:induction false} RunKeeps(s: State, actions: seq<Action>, end: State)
    requires Kept(s) && Once(s) && Bounded(s) && Runs(s, actions, end)
    ensures Kept(end) && Once(end) && Bounded(end)
    decreases |actions|
  {
    if actions != [] {
      var t := Apply(s, actions[0]);
      KeptStep(s, actions[0]);
      OnceStep(s, actions[0]);
      match actions[0] {
        case Publishing(p) => PublishBounded(s, p);
        case Brokering(b) => BrokerBounded(s, b);
        case Working(h, w) => WorkerBounded(s, h, w);
      }
      RunKeeps(t, actions[1..], end);
    }
  }

  lemma ReachableKeeps(s: State)
    requires Reachable(s)
    ensures Kept(s) && Once(s) && Bounded(s)
  {
    var actions :| Runs(INITIAL, actions, s);
    RunKeeps(INITIAL, actions, s);
  }

  /**
   * Exactly-once effect: a job has either no rows, or one row per submitted word in order, and the
   * record of applied jobs says which.
   */
  lemma ExactlyOnce(s: State, j: JobId)
    requires Reachable(s)
    ensures j in s.applied ==> j in s.accepted
    ensures RowsOf(s.rows, j) == if j in s.applied then JobRows(j, s.accepted[j]) else []
  {
    ReachableKeeps(s);
    assert AppliedOnce(s, j);
  }

  /** Every completed status reports all the submitted words, of a job that is saved. */
  lemma ReportsAreFull(s: State, i: nat)
    requires Reachable(s) && i < |s.reports|
    ensures var r := s.reports[i];
            r.jobId in s.applied && r.jobId in s.accepted && r.imported == |s.accepted[r.jobId].words|
  {
    ReachableKeeps(s);
  }

  /** An accepted job is in the outbox, held by the broker or a worker, parked, or applied. */
  lemma NothingLost(s: State, j: JobId)
    requires Reachable(s) && j in s.accepted
    ensures || j in s.outbox
            || Safe(s, j)
            || exists c :: && c in s.copies && s.copies[c].content == Payload(j, s.accepted[j])
                           && (s.copies[c].place == Work || s.copies[c].place.InFlight? || s.copies[c].place == Waiting)
  {
    ReachableKeeps(s);
    assert JobOk(s, j);
    if j !in s.outbox {
      var c :| Carries(s, c, j);
      assert CopyOk(s, c);
    }
  }

  /** A well-formed message is acknowledged only once its job is applied or its parked copy confirmed. */
  lemma AckMeansSafe(s: State, h: nat)
    requires Reachable(s) && WorkerEnabled(s, h, Ack) && s.handlers[h].content.Payload?
    ensures Safe(s, s.handlers[h].content.jobId)
  {
    ReachableKeeps(s);
    assert HandlerOk(s, h);
  }

  /**
   * Bounded attempts: however often workers crash, a copy starts `addWords` at most once more than
   * the retries, plus one per unconfirmed park or thrown handler.
   */
  lemma StartsBounded(s: State, c: nat)
    requires Reachable(s) && c in s.copies
    ensures |s.copies[c].starts| <= MAX_RETRIES + 1 + s.copies[c].unconfirmed + s.copies[c].thrown
  {
    ReachableKeeps(s);
    assert CopyBounded(s, c);
    DistinctUpTo(s.copies[c].starts, RetryCount(s.copies[c].deaths));
  }
}
