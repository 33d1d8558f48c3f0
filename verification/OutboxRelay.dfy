/**
 * The outbox relay: rows the broker has not confirmed are claimed for 30 seconds, published, then
 * removed or released. Times are whole seconds of the database clock.
 */
module OutboxRelay {
  import opened Prelude

  type JobId = nat

  const RELAY_BATCH: nat := 20
  const GRACE := 15
  const CLAIM := 30

  datatype Row = Row(createdAt: int, claimedAt: Option<int>)

  predicate Pending(row: Row, now: int) {
    row.createdAt < now - GRACE
  }

  /** The WHERE of the claiming update. */
  predicate Claimable(row: Row, now: int) {
    row.claimedAt.None? || row.claimedAt.value < now - CLAIM
  }

  function Claimed(row: Row, now: int): Row {
    row.(claimedAt := Some(now))
  }

  /** Drops the claim only when it is still the one stored at `token`. */
  function Released(row: Row, token: int): Row {
    if row.claimedAt == Some(token) then row.(claimedAt := None) else row
  }

  // ----- One flush of one worker

  /** The row a job has after a flush that met it, given whether the broker confirmed the job. */
  function Flushed(row: Row, now: int, confirmed: bool): Option<Row> {
    if !Claimable(row, now) then Some(row)
    else if confirmed then None
    else Some(row.(claimedAt := None))
  }

  ghost predicate Distinct(batch: seq<JobId>) {
    forall i, j :: 0 <= i < j < |batch| ==> batch[i] != batch[j]
  }

  function FlushOne(rows: map<JobId, Row>, j: JobId, now: int, publish: JobId -> bool): map<JobId, Row> {
    if j !in rows then rows
    else match Flushed(rows[j], now, publish(j))
      case None => rows - {j}
      case Some(row) => rows[j := row]
  }

  function FlushAll(rows: map<JobId, Row>, batch: seq<JobId>, now: int, publish: JobId -> bool): map<JobId, Row>
    decreases |batch|
  {
    if batch == [] then rows
    else
      var n := |batch| - 1;
      FlushOne(FlushAll(rows, batch[..n], now, publish), batch[n], now, publish)
  }

  /**
   * Each row of the batch fares by itself: gone when confirmed, claim dropped when refused,
   * untouched when another worker holds it. Rows outside the batch are untouched.
   */
  lemma {:induction false} FlushedRows(rows: map<JobId, Row>, batch: seq<JobId>, now: int, publish: JobId -> bool,
                                       j: JobId)
    requires Distinct(batch)
    ensures var after := FlushAll(rows, batch, now, publish);
            && (j in after ==> j in rows)
            && (j in rows ==>
                  (if j in after then Some(after[j]) else None)
                  == (if j in batch then Flushed(rows[j], now, publish(j)) else Some(rows[j])))
    decreases |batch|
  {
    if batch != [] {
      var n := |batch| - 1;
      FlushedRows(rows, batch[..n], now, publish, j);
      assert batch == batch[..n] + [batch[n]];
    }
  }

  // ----- A flush among other workers and requests

  /** The table and the clock as one statement sees them. */
  datatype Moment = Moment(rows: map<JobId, Row>, now: int)

  /** Which query of a turn throws, ending the flush. */
  datatype Break = Nowhere | AtClaim | AtSettle

  /**
   * What a flush did with one row: the moments of its claim and of its remove or release, whether the
   * broker confirmed in between, and the table it left.
   */
  datatype Turn = Turn(jobId: JobId, claim: Moment, confirmed: bool, settle: Moment, broke: Break,
                       after: map<JobId, Row>)

  predicate Won(t: Turn) {
    t.broke != AtClaim && t.jobId in t.claim.rows && Claimable(t.claim.rows[t.jobId], t.claim.now)
  }

  function AfterClaim(t: Turn): map<JobId, Row> {
    if Won(t) then t.claim.rows[t.jobId := Claimed(t.claim.rows[t.jobId], t.claim.now)] else t.claim.rows
  }

  /** The table after `release`, given the claim time stored by this worker. */
  function ReleasedIn(rows: map<JobId, Row>, jobId: JobId, token: int): map<JobId, Row> {
    if jobId in rows then rows[jobId := Released(rows[jobId], token)] else rows
  }

  /**
   * A row that was not won is left alone. One that was is removed when the broker confirmed, and
   * otherwise loses the claim of this very turn, whatever others did to the table meanwhile.
   */
  predicate TurnOk(t: Turn) {
    && t.claim.now <= t.settle.now
    && (!Won(t) ==> t.broke != AtSettle)
    && t.after == if !Won(t) then t.claim.rows
                  else if t.broke == AtSettle then t.settle.rows
                  else if t.confirmed then t.settle.rows - {t.jobId}
                  else ReleasedIn(t.settle.rows, t.jobId, t.claim.now)
  }

  /** The jobs handed to the broker. */
  function SentIn(turns: seq<Turn>): seq<JobId>
    decreases |turns|
  {
    if turns == [] then []
    else
      var n := |turns| - 1;
      SentIn(turns[..n]) + if Won(turns[n]) then [turns[n].jobId] else []
  }

  /** Turn `i` deals with row `i` of the batch, after the turn before it. */
  predicate InPlace(turns: seq<Turn>, batch: seq<JobId>, start: int, i: nat)
    requires i < |turns| <= |batch|
  {
    && TurnOk(turns[i]) && turns[i].jobId == batch[i]
    && (if i == 0 then start else turns[i - 1].settle.now) <= turns[i].claim.now
  }

  /** One turn after the other, until the batch is through or a query throws. */
  ghost predicate FlushOk(turns: seq<Turn>, batch: seq<JobId>, start: int) {
    && |turns| <= |batch|
    && (forall i :: 0 <= i < |turns| ==> InPlace(turns, batch, start, i))
    && (forall i :: 0 <= i < |turns| - 1 ==> turns[i].broke == Nowhere)
    && (|turns| < |batch| ==> turns != [] && turns[|turns| - 1].broke != Nowhere)
  }

  /** A flush under way: every turn so far went through. */
  ghost predicate UnderWay(turns: seq<Turn>, batch: seq<JobId>, start: int) {
    && |turns| <= |batch|
    && (forall i :: 0 <= i < |turns| ==> InPlace(turns, batch, start, i))
    && (forall i :: 0 <= i < |turns| ==> turns[i].broke == Nowhere)
  }

  lemma OneMoreTurn(turns: seq<Turn>, batch: seq<JobId>, start: int, turn: Turn)
    requires UnderWay(turns, batch, start) && |turns| < |batch|
    requires TurnOk(turn) && turn.jobId == batch[|turns|]
    requires (if turns == [] then start else turns[|turns| - 1].settle.now) <= turn.claim.now
    ensures if turn.broke == Nowhere then UnderWay(turns + [turn], batch, start)
            else FlushOk(turns + [turn], batch, start)
  {
    forall i | 0 <= i < |turns| ensures InPlace(turns + [turn], batch, start, i) {
      assert InPlace(turns, batch, start, i);
    }
  }

  lemma OneMoreSent(before: seq<JobId>, turns: seq<Turn>, turn: Turn)
    ensures before + SentIn(turns + [turn]) == before + SentIn(turns) + if Won(turn) then [turn.jobId] else []
  {
    assert (turns + [turn])[..|turns|] == turns;
  }

  /** The table turn `i` finds when nobody else touches it. */
  function Before(turns: seq<Turn>, rows: map<JobId, Row>, i: nat): map<JobId, Row>
    requires i <= |turns|
  {
    if i == 0 then rows else turns[i - 1].after
  }

  predicate QuietTurn(t: Turn, publish: JobId -> bool) {
    t.settle == Moment(AfterClaim(t), t.claim.now) && t.broke == Nowhere && t.confirmed == publish(t.jobId)
  }

  /** Nobody else touches the table or delays this worker, and no query throws. */
  ghost predicate Quiet(turns: seq<Turn>, rows: map<JobId, Row>, now: int, publish: JobId -> bool) {
    forall i :: 0 <= i < |turns| ==>
      TurnOk(turns[i]) && QuietTurn(turns[i], publish) && turns[i].claim == Moment(Before(turns, rows, i), now)
  }

  /** An undisturbed flush deals with each row of its batch by itself. */
  lemma {:induction false} QuietFlush(turns: seq<Turn>, batch: seq<JobId>, rows: map<JobId, Row>, now: int,
                                      publish: JobId -> bool)
    requires Quiet(turns, rows, now, publish)
    requires |batch| == |turns| && forall i :: 0 <= i < |turns| ==> turns[i].jobId == batch[i]
    ensures Before(turns, rows, |turns|) == FlushAll(rows, batch, now, publish)
    decreases |turns|
  {
    if turns != [] {
      var n := |turns| - 1;
      forall i | 0 <= i < n ensures Before(turns[..n], rows, i) == Before(turns, rows, i) {}
      QuietFlush(turns[..n], batch[..n], rows, now, publish);
      assert Before(turns[..n], rows, n) == Before(turns, rows, n);
      QuietTurnFlushes(turns[n], publish);
    }
  }

  lemma QuietTurnFlushes(t: Turn, publish: JobId -> bool)
    requires TurnOk(t) && QuietTurn(t, publish)
    ensures t.after == FlushOne(t.claim.rows, t.jobId, t.claim.now, publish)
  {
    var rows, j := t.claim.rows, t.jobId;
    if Won(t) {
      assert AfterClaim(t) - {j} == rows - {j};
    } else if j in rows {
      assert rows[j := rows[j]] == rows;
    }
  }

  class ImportOutboxService {
    var rows: map<JobId, Row>
    var now: int
    var sent: seq<JobId>  // the jobs handed to the broker, in order

    constructor ()
      ensures rows == map[] && sent == []
    {
      rows, now, sent := map[], 0, [];
    }

    method Claim(jobId: JobId) returns (claimedAt: Option<int>)
      modifies this`rows
      ensures claimedAt == if jobId in old(rows) && Claimable(old(rows)[jobId], now) then Some(now) else None
      ensures rows == if claimedAt.Some? then old(rows)[jobId := Claimed(old(rows)[jobId], now)] else old(rows)
    {
      if jobId !in rows || !Claimable(rows[jobId], now) { return None; }
      rows := rows[jobId := Claimed(rows[jobId], now)];
      return rows[jobId].claimedAt;
    }

    method Release(jobId: JobId, claimedAt: int)
      modifies this`rows
      ensures rows == if jobId in old(rows) then old(rows)[jobId := Released(old(rows)[jobId], claimedAt)]
                      else old(rows)
    {
      if jobId in rows && rows[jobId].claimedAt == Some(claimedAt) {
        rows := rows[jobId := rows[jobId].(claimedAt := None)];
      }
    }

    method Remove(jobId: JobId)
      modifies this`rows
      ensures rows == old(rows) - {jobId}
    {
      rows := rows - {jobId};
    }

    /** The oldest rows past the grace period, oldest first. */
    method Oldest() returns (batch: seq<JobId>)
      ensures |batch| <= RELAY_BATCH
      ensures forall i :: 0 <= i < |batch| ==> batch[i] in rows && Pending(rows[batch[i]], now)
      ensures forall i, j :: 0 <= i < j < |batch| ==>
        batch[i] != batch[j] && rows[batch[i]].createdAt <= rows[batch[j]].createdAt
      ensures forall j :: j in rows && Pending(rows[j], now) && j !in batch ==>
        |batch| == RELAY_BATCH && forall i :: 0 <= i < |batch| ==> rows[batch[i]].createdAt <= rows[j].createdAt
    {
      batch := [];
      var left := set j | j in rows && Pending(rows[j], now);
      while |batch| < RELAY_BATCH && left != {}
        invariant |batch| <= RELAY_BATCH
        invariant left <= rows.Keys
        invariant forall j :: j in rows && Pending(rows[j], now) <==> j in left || j in batch
        invariant forall i :: 0 <= i < |batch| ==> batch[i] in rows && batch[i] !in left
        invariant forall i, j :: 0 <= i < j < |batch| ==>
          batch[i] != batch[j] && rows[batch[i]].createdAt <= rows[batch[j]].createdAt
        invariant forall i, j :: 0 <= i < |batch| && j in left ==> rows[batch[i]].createdAt <= rows[j].createdAt
      {
        var oldest := Earliest(left);
        assert oldest !in batch;
        batch := batch + [oldest];
        left := left - {oldest};
      }
    }

    method Earliest(left: set<JobId>) returns (oldest: JobId)
      requires left != {} && left <= rows.Keys
      ensures oldest in left && forall j :: j in left ==> rows[oldest].createdAt <= rows[j].createdAt
    {
      oldest :| oldest in left;
      var rest := left - {oldest};
      while rest != {}
        invariant oldest in left && rest <= left
        invariant forall j :: j in left && j !in rest ==> rows[oldest].createdAt <= rows[j].createdAt
      {
        var j :| j in rest;
        if rows[j].createdAt < rows[oldest].createdAt { oldest := j; }
        rest := rest - {j};
      }
    }

    /** Other workers and requests, while this worker waits: the table changes, time passes. */
    method Others()
      modifies this`rows, this`now
      ensures now >= old(now)
    {
      rows := *;
      var time :| now <= time;
      now := time;
    }

    /** One row: claim, publish, then remove or release. */
    method FlushRow(jobId: JobId, confirmed: bool, broke: Break) returns (ghost turn: Turn, threw: bool)
      modifies this
      ensures TurnOk(turn) && turn.jobId == jobId && turn.claim.now >= old(now) && turn.settle.now == now
      ensures rows == turn.after && sent == old(sent) + if Won(turn) then [jobId] else []
      ensures threw <==> turn.broke != Nowhere
    {
      Others();
      ghost var claim := Moment(rows, now);
      if broke == AtClaim { return Turn(jobId, claim, false, claim, AtClaim, rows), true; }
      var claimedAt := Claim(jobId);
      if claimedAt.None? { return Turn(jobId, claim, false, claim, Nowhere, rows), false; }
      sent := sent + [jobId];
      Others();
      ghost var settle := Moment(rows, now);
      if broke == AtSettle { return Turn(jobId, claim, confirmed, settle, AtSettle, rows), true; }
      if confirmed {
        Remove(jobId);
      } else {
        Release(jobId, claimedAt.value);
      }
      return Turn(jobId, claim, confirmed, settle, Nowhere, rows), false;
    }

    /**
     * The pending rows in turn, with others at work before and within every turn. `publish` says what
     * the broker answers, `breaks` which query throws.
     */
    method Flush(publish: JobId -> bool, breaks: JobId -> Break) returns (batch: seq<JobId>, ghost turns: seq<Turn>)
      modifies this
      ensures Distinct(batch) && |batch| <= RELAY_BATCH
      ensures forall j :: j in batch ==> j in old(rows) && Pending(old(rows)[j], old(now))
      ensures forall j :: j in old(rows) && Pending(old(rows)[j], old(now)) && j !in batch ==> |batch| == RELAY_BATCH
      ensures FlushOk(turns, batch, old(now))
      ensures sent == old(sent) + SentIn(turns)
      ensures rows == if turns == [] then old(rows) else turns[|turns| - 1].after
    {
      batch := Oldest();
      turns := [];
      for i := 0 to |batch|
        invariant |turns| == i && UnderWay(turns, batch, old(now))
        invariant now == if turns == [] then old(now) else turns[i - 1].settle.now
        invariant sent == old(sent) + SentIn(turns)
        invariant rows == if turns == [] then old(rows) else turns[i - 1].after
      {
        var threw; ghost var turn;
        turn, threw := FlushRow(batch[i], publish(batch[i]), breaks(batch[i]));
        OneMoreTurn(turns, batch, old(now), turn);
        OneMoreSent(old(sent), turns, turn);
        turns := turns + [turn];
        if threw { return; }
      }
    }
  }

  // ----- Competing workers on one row

  datatype Phase = Publishing | Published | Refused

  datatype Hold = Hold(token: int, phase: Phase)

  /** The request publishes once and removes the row when the broker confirmed. */
  datatype Request = Sending | Confirmed | Over

  /**
   * One job: its row, the request, the workers that read it as pending, those holding a claim, and
   * the copies that entered the broker.
   */
  datatype Race = Race(now: int, createdAt: int, row: Option<Row>, request: Request,
                       picked: set<nat>, holds: map<nat, Hold>, copies: nat)

  datatype Step =
    | Tick(time: int)
    | RequestSends(confirmed: bool, arrives: bool)
    | RequestRemoves
    | RequestStops
    | Pick(worker: nat)
    | TryClaim(worker: nat)
    | Send(worker: nat, confirmed: bool, arrives: bool)
    | Remove(worker: nat)
    | Release(worker: nat)
    | Crash(worker: nat)

  function Accepted(now: int): Race {
    Race(now, now, Some(Row(now, None)), Sending, {}, map[], 0)
  }

  predicate Enabled(r: Race, s: Step) {
    match s
    case Tick(time) => r.now <= time
    case RequestSends(confirmed, arrives) => r.request == Sending && (confirmed ==> arrives)
    case RequestRemoves => r.request == Confirmed
    case RequestStops => r.request != Over
    case Pick(w) => r.row.Some? && Pending(r.row.value, r.now)
    case TryClaim(w) => w in r.picked && w !in r.holds
    case Send(w, confirmed, arrives) => w in r.holds && r.holds[w].phase == Publishing && (confirmed ==> arrives)
    case Remove(w) => w in r.holds && r.holds[w].phase == Published
    case Release(w) => w in r.holds && r.holds[w].phase == Refused
    case Crash(w) => w in r.holds
  }

  function Apply(r: Race, s: Step): Race
    requires Enabled(r, s)
  {
    match s
    case Tick(time) => r.(now := time)
    case RequestSends(confirmed, arrives) =>
      r.(request := if confirmed then Confirmed else Over, copies := r.copies + (if arrives then 1 else 0))
    case RequestRemoves => r.(request := Over, row := None)
    case RequestStops => r.(request := Over)
    case Pick(w) => r.(picked := r.picked + {w})
    case TryClaim(w) =>
      var t := r.(picked := r.picked - {w});
      if r.row.Some? && Claimable(r.row.value, r.now) then
        t.(row := Some(Claimed(r.row.value, r.now)), holds := r.holds[w := Hold(r.now, Publishing)])
      else t
    case Send(w, confirmed, arrives) =>
      r.(holds := r.holds[w := r.holds[w].(phase := if confirmed then Published else Refused)],
         copies := r.copies + (if arrives then 1 else 0))
    case Remove(w) => r.(row := None, holds := r.holds - {w})
    case Release(w) =>
      r.(holds := r.holds - {w},
         row := if r.row.Some? then Some(Released(r.row.value, r.holds[w].token)) else None)
    case Crash(w) => r.(holds := r.holds - {w})
  }

  ghost predicate Runs(r: Race, steps: seq<Step>, end: Race)
    decreases |steps|
  {
    if steps == [] then end == r
    else Enabled(r, steps[0]) && Runs(Apply(r, steps[0]), steps[1..], end)
  }

  // ----- A turn of a flush is a run

  /** The race over one job as a statement of the flush sees it. */
  predicate SeenIn(r: Race, m: Moment, j: JobId) {
    r.now == m.now && r.row == RowIn(m.rows, j)
  }

  function RowIn(rows: map<JobId, Row>, j: JobId): Option<Row> {
    if j in rows then Some(rows[j]) else None
  }

  predicate IsStepOf(s: Step, w: nat) {
    match s
    case Pick(v) => v == w
    case TryClaim(v) => v == w
    case Send(v, _, _) => v == w
    case Remove(v) => v == w
    case Release(v) => v == w
    case Crash(v) => v == w
    case _ => false
  }

  ghost predicate OthersOnly(steps: seq<Step>, w: nat) {
    forall i :: 0 <= i < |steps| ==> !IsStepOf(steps[i], w)
  }

  lemma {:induction false} OthersSpare(r: Race, steps: seq<Step>, end: Race, w: nat)
    requires Runs(r, steps, end) && OthersOnly(steps, w) && w in r.holds
    ensures w in end.holds && end.holds[w] == r.holds[w]
    decreases |steps|
  {
    if steps != [] {
      assert !IsStepOf(steps[0], w);
      OthersSpare(Apply(r, steps[0]), steps[1..], end, w);
    }
  }

  lemma {:induction false} RunThen(r: Race, steps: seq<Step>, mid: Race, more: seq<Step>, end: Race)
    requires Runs(r, steps, mid) && Runs(mid, more, end)
    ensures Runs(r, steps + more, end)
    decreases |steps|
  {
    if steps == [] {
      assert steps + more == more;
    } else {
      RunThen(Apply(r, steps[0]), steps[1..], mid, more, end);
      assert (steps + more)[0] == steps[0] && (steps + more)[1..] == steps[1..] + more;
    }
  }

  /** A turn that does not win the row is one failed claim. */
  lemma LostTurnIsARun(r: Race, w: nat, t: Turn) returns (end: Race)
    requires w in r.picked && w !in r.holds && TurnOk(t) && SeenIn(r, t.claim, t.jobId)
    requires !Won(t) && t.broke == Nowhere
    ensures Runs(r, [TryClaim(w)], end) && end == r.(picked := r.picked - {w}) && end.row == RowIn(t.after, t.jobId)
  {
    end := Apply(r, TryClaim(w));
    assert Runs(end, [], end) && [TryClaim(w)][1..] == [];
  }

  /** The claim and the publish of a turn that wins the row. */
  lemma TurnStarts(r: Race, w: nat, t: Turn, arrives: bool) returns (sent: Race)
    requires w in r.picked && w !in r.holds && SeenIn(r, t.claim, t.jobId) && Won(t) && (t.confirmed ==> arrives)
    ensures Runs(r, [TryClaim(w), Send(w, t.confirmed, arrives)], sent)
    ensures w in sent.holds && sent.holds[w] == Hold(t.claim.now, if t.confirmed then Published else Refused)
    ensures sent.copies == r.copies + if arrives then 1 else 0
    ensures sent.row == RowIn(AfterClaim(t), t.jobId)
  {
    var claimed := Apply(r, TryClaim(w));
    sent := Apply(claimed, Send(w, t.confirmed, arrives));
    var steps := [TryClaim(w), Send(w, t.confirmed, arrives)];
    assert steps[1..] == [Send(w, t.confirmed, arrives)] && steps[1..][1..] == [];
    assert Runs(sent, [], sent);
    assert Runs(claimed, steps[1..], sent);
  }

  /** The remove or release that ends such a turn; none when the query throws. */
  lemma TurnEnds(s: Race, w: nat, t: Turn) returns (step: Step, end: Race)
    requires TurnOk(t) && Won(t) && SeenIn(s, t.settle, t.jobId)
    requires w in s.holds && s.holds[w] == Hold(t.claim.now, if t.confirmed then Published else Refused)
    ensures Runs(s, [step], end) && w !in end.holds && end.copies == s.copies && end.row == RowIn(t.after, t.jobId)
  {
    step := if t.broke == AtSettle then Crash(w) else if t.confirmed then Remove(w) else Release(w);
    end := Apply(s, step);
    assert Runs(end, [], end) && [step][1..] == [];
  }

  /**
   * A turn that wins the row, with any steps of others between its publish and its end, is a run of
   * the race over that job: same row at the end, and the copies the worker and the others sent.
   */
  lemma TurnIsARun(r: Race, w: nat, t: Turn, arrives: bool, sent: Race, others: seq<Step>, s: Race)
    returns (steps: seq<Step>, end: Race)
    requires w in r.picked && w !in r.holds && TurnOk(t) && Won(t) && (t.confirmed ==> arrives)
    requires SeenIn(r, t.claim, t.jobId) && SeenIn(s, t.settle, t.jobId)
    requires Runs(r, [TryClaim(w), Send(w, t.confirmed, arrives)], sent)
    requires Runs(sent, others, s) && OthersOnly(others, w)
    ensures Runs(r, steps, end) && end.row == RowIn(t.after, t.jobId) && w !in end.holds && end.copies == s.copies
  {
    var start := [TryClaim(w), Send(w, t.confirmed, arrives)];
    var same := TurnStarts(r, w, t, arrives);
    RunsTo(r, start, sent, same);
    OthersSpare(sent, others, s, w);
    var step;
    step, end := TurnEnds(s, w, t);
    RunThen(r, start, sent, others, s);
    RunThen(r, start + others, s, [step], end);
    steps := start + others + [step];
  }

  lemma {:induction false} RunsTo(r: Race, steps: seq<Step>, end: Race, same: Race)
    requires Runs(r, steps, end) && Runs(r, steps, same)
    ensures end == same
    decreases |steps|
  {
    if steps != [] { RunsTo(Apply(r, steps[0]), steps[1..], end, same); }
  }

  predicate Expired(token: int, now: int) {
    token < now - CLAIM
  }

  // ----- Claims

  ghost predicate ClaimsApart(r: Race) {
    && (forall w :: w in r.holds ==> r.holds[w].token <= r.now)
    && (forall v, w :: v in r.holds && w in r.holds && v != w ==>
          && r.holds[v].token != r.holds[w].token
          && (Expired(r.holds[v].token, r.now) || Expired(r.holds[w].token, r.now)))
    && (r.row.Some? ==>
          && (r.row.value.claimedAt.Some? ==> r.row.value.claimedAt.value <= r.now)
          && forall w :: w in r.holds ==>
               || r.row.value.claimedAt == Some(r.holds[w].token)
               || Expired(r.holds[w].token, r.now))
  }

  lemma ClaimTaken(r: Race, w: nat)
    requires ClaimsApart(r) && Enabled(r, TryClaim(w)) && r.row.Some? && Claimable(r.row.value, r.now)
    ensures forall v :: v in r.holds ==> Expired(r.holds[v].token, r.now) && r.holds[v].token != r.now
    ensures ClaimsApart(Apply(r, TryClaim(w)))
  {
  }

  lemma ClaimGiven(r: Race, w: nat)
    requires ClaimsApart(r) && Enabled(r, Release(w))
    ensures ClaimsApart(Apply(r, Release(w)))
  {
  }

  lemma ClaimsApartStep(r: Race, s: Step)
    requires ClaimsApart(r) && Enabled(r, s)
    ensures ClaimsApart(Apply(r, s))
  {
    match s
    case TryClaim(w) => if r.row.Some? && Claimable(r.row.value, r.now) { ClaimTaken(r, w); }
    case Release(w) => ClaimGiven(r, w);
    case _ =>
  }

  lemma {:induction false} ClaimsApartRun(r: Race, steps: seq<Step>, end: Race)
    requires ClaimsApart(r) && Runs(r, steps, end)
    ensures ClaimsApart(end)
    decreases |steps|
  {
    if steps != [] {
      ClaimsApartStep(r, steps[0]);
      ClaimsApartRun(Apply(r, steps[0]), steps[1..], end);
    }
  }

  /**
   * On every run: the claim times of the workers still at work are pairwise distinct, at most one of
   * them is unexpired, and a late release leaves another worker's claim in place.
   */
  lemma ClaimsNeverClash(start: int, steps: seq<Step>, r: Race, v: nat, w: nat)
    requires Runs(Accepted(start), steps, r) && v in r.holds && w in r.holds && v != w
    ensures r.holds[v].token != r.holds[w].token
    ensures Expired(r.holds[v].token, r.now) || Expired(r.holds[w].token, r.now)
    ensures r.row.Some? && r.row.value.claimedAt == Some(r.holds[w].token) ==>
      Released(r.row.value, r.holds[v].token) == r.row.value
  {
    ClaimsApartRun(Accepted(start), steps, r);
  }

  // ----- One copy in the broker

  /**
   * What it takes for a job to enter the broker once, each assumption on or off: a publish of the
   * request, or of a relay, arrives only if it is confirmed; the request, or a relay, does not stop
   * between a confirmed publish and the delete; the request is over within the grace period; each relay
   * is done within its claim.
   */
  datatype Assumptions = Assumptions(requestConfirms: bool, relayConfirms: bool, requestDeletes: bool,
                                     relayDeletes: bool, requestOnTime: bool, relayOnTime: bool)

  const ALL := Assumptions(true, true, true, true, true, true)

  ghost predicate OnTime(a: Assumptions, r: Race) {
    && (a.requestOnTime && r.request != Over ==> r.now <= r.createdAt + GRACE)
    && (a.relayOnTime ==> forall w :: w in r.holds ==> !Expired(r.holds[w].token, r.now))
  }

  predicate Clean(a: Assumptions, r: Race, s: Step) {
    match s
    case RequestSends(confirmed, arrives) => a.requestConfirms ==> confirmed == arrives
    case RequestStops => a.requestDeletes ==> r.request != Confirmed
    case Send(_, confirmed, arrives) => a.relayConfirms ==> confirmed == arrives
    case Crash(w) => a.relayDeletes && w in r.holds ==> r.holds[w].phase != Published
    case _ => true
  }

  ghost predicate Moves(a: Assumptions, r: Race, s: Step, t: Race) {
    Enabled(r, s) && Clean(a, r, s) && t == Apply(r, s) && OnTime(a, t)
  }

  /** Runs under the assumptions that are on. */
  ghost predicate RunsUnder(a: Assumptions, r: Race, steps: seq<Step>, end: Race)
    decreases |steps|
  {
    && OnTime(a, r)
    && if steps == [] then end == r
       else Enabled(r, steps[0]) && Clean(a, r, steps[0]) && RunsUnder(a, Apply(r, steps[0]), steps[1..], end)
  }

  ghost predicate OneCopy(r: Race) {
    && ClaimsApart(r)
    && (r.row.Some? ==> r.row.value.createdAt == r.createdAt)
    && (r.picked != {} || r.holds != map[] ==> r.createdAt + GRACE < r.now)
    && (forall w :: w in r.holds ==> r.row.Some?)
    && (r.request == Sending ==> r.copies == 0 && r.row.Some?)
    && (r.request == Confirmed ==> r.copies == 1)
    && r.copies <= 1
    && (r.copies == 1 && r.row.Some? ==>
          r.request == Confirmed || exists w :: w in r.holds && r.holds[w].phase == Published)
    && (forall w :: w in r.holds && r.holds[w].phase == Published ==> r.copies == 1)
    && (forall w :: w in r.holds && r.holds[w].phase != Published ==> r.copies == 0)
  }

  lemma OneCopyStep(r: Race, s: Step)
    requires OneCopy(r) && OnTime(ALL, r) && Enabled(r, s) && Clean(ALL, r, s) && OnTime(ALL, Apply(r, s))
    ensures OneCopy(Apply(r, s))
  {
    var t := Apply(r, s);
    ClaimsApartStep(r, s);
    assert forall v, w :: v in r.holds && w in r.holds ==> v == w;
    assert forall v, w :: v in t.holds && w in t.holds ==> v == w;
    PublishedStays(r, s);
    assert s.Send? && s.arrives ==> t.holds[s.worker].phase == Published;
  }

  /** A worker whose publish was confirmed stays so until it removes the row. */
  lemma PublishedStays(r: Race, s: Step)
    requires Enabled(r, s) && Clean(ALL, r, s)
    ensures forall w :: w in r.holds && r.holds[w].phase == Published && s != Remove(w) ==>
              w in Apply(r, s).holds && Apply(r, s).holds[w].phase == Published
  {
  }

  lemma {:induction false} OneCopyRun(r: Race, steps: seq<Step>, end: Race)
    requires OneCopy(r) && RunsUnder(ALL, r, steps, end)
    ensures OneCopy(end)
    decreases |steps|
  {
    if steps != [] {
      OneCopyStep(r, steps[0]);
      OneCopyRun(Apply(r, steps[0]), steps[1..], end);
    }
  }

  /** With everyone on time and no publish or delete lost, a job enters the broker at most once. */
  lemma AtMostOneCopy(start: int, steps: seq<Step>, r: Race)
    requires RunsUnder(ALL, Accepted(start), steps, r)
    ensures r.copies <= 1
  {
    OneCopyRun(Accepted(start), steps, r);
  }

  // ----- Each assumption is needed

  ghost predicate CanReach(a: Assumptions, start: int, r: Race) {
    exists steps :: RunsUnder(a, Accepted(start), steps, r)
  }

  lemma {:induction false} RunOn(a: Assumptions, r: Race, steps: seq<Step>, end: Race, s: Step, t: Race)
    requires RunsUnder(a, r, steps, end) && Moves(a, end, s, t)
    ensures RunsUnder(a, r, steps + [s], t)
    decreases |steps|
  {
    var all := steps + [s];
    if steps == [] {
      assert all[1..] == [] && RunsUnder(a, Apply(r, all[0]), all[1..], t);
    } else {
      RunOn(a, Apply(r, steps[0]), steps[1..], end, s, t);
      assert all[0] == steps[0] && all[1..] == steps[1..] + [s];
    }
  }

  lemma Next(a: Assumptions, start: int, r: Race, s: Step) returns (t: Race)
    requires CanReach(a, start, r) && Enabled(r, s) && Moves(a, r, s, Apply(r, s))
    ensures t == Apply(r, s) && CanReach(a, start, t)
  {
    t := Apply(r, s);
    var steps :| RunsUnder(a, Accepted(start), steps, r);
    RunOn(a, Accepted(start), steps, r, s, t);
  }

  /** The request answers without a copy, and worker 0 holds the claim past the grace period. */
  lemma Claimed0(a: Assumptions, start: int, confirmed: bool, arrives: bool, stops: bool) returns (r: Race)
    requires confirmed ==> arrives
    requires Clean(a, Accepted(start), RequestSends(confirmed, arrives))
    requires stops == confirmed && (stops ==> !a.requestDeletes)
    ensures CanReach(a, start, r)
    ensures var now := start + GRACE + 1;
            r == Race(now, start, Some(Row(start, Some(now))), Over, {}, map[0 := Hold(now, Publishing)],
                      if arrives then 1 else 0)
  {
    assert RunsUnder(a, Accepted(start), [], Accepted(start));
    r := Next(a, start, Accepted(start), RequestSends(confirmed, arrives));
    if stops { r := Next(a, start, r, RequestStops); }
    r := Next(a, start, r, Tick(start + GRACE + 1));
    r := Next(a, start, r, Pick(0));
    r := Next(a, start, r, TryClaim(0));
    assert {} + {0} - {0} == {};
  }

  lemma RequestCopyDuplicates(a: Assumptions, start: int) returns (r: Race)
    requires !a.requestConfirms || !a.requestDeletes
    ensures CanReach(a, start, r) && r.copies == 2
  {
    r := Claimed0(a, start, a.requestConfirms, true, a.requestConfirms);
    r := Next(a, start, r, Send(0, true, true));
  }

  lemma LateRequestDuplicates(a: Assumptions, start: int) returns (r: Race)
    requires !a.requestOnTime
    ensures CanReach(a, start, r) && r.copies == 2
  {
    assert RunsUnder(a, Accepted(start), [], Accepted(start));
    r := Next(a, start, Accepted(start), Tick(start + GRACE + 1));
    r := Next(a, start, r, Pick(0));
    r := Next(a, start, r, TryClaim(0));
    r := Next(a, start, r, Send(0, true, true));
    r := Next(a, start, r, RequestSends(true, true));
  }

  /** Worker 1 takes over a row whose claim is gone or expired, and publishes it. */
  lemma TakenOver(a: Assumptions, start: int, r: Race) returns (t: Race)
    requires CanReach(a, start, r) && r.request == Over && r.holds == map[] && r.picked == {}
    requires r.row.Some? && Pending(r.row.value, r.now) && Claimable(r.row.value, r.now)
    ensures CanReach(a, start, t) && t.copies == r.copies + 1
  {
    t := Next(a, start, r, Pick(1));
    t := Next(a, start, t, TryClaim(1));
    t := Next(a, start, t, Send(1, true, true));
  }

  lemma UnconfirmedRelayDuplicates(a: Assumptions, start: int) returns (r: Race)
    requires !a.relayConfirms
    ensures CanReach(a, start, r) && r.copies == 2
  {
    r := Claimed0(a, start, false, false, false);
    r := Next(a, start, r, Send(0, false, true));
    r := Next(a, start, r, Release(0));
    r := TakenOver(a, start, r);
  }

  lemma LostDeleteDuplicates(a: Assumptions, start: int) returns (r: Race)
    requires !a.relayDeletes
    ensures CanReach(a, start, r) && r.copies == 2
  {
    r := Claimed0(a, start, false, false, false);
    r := Next(a, start, r, Send(0, true, true));
    r := Next(a, start, r, Crash(0));
    r := Next(a, start, r, Tick(start + GRACE + CLAIM + 2));
    r := TakenOver(a, start, r);
  }

  lemma OutlivedClaimDuplicates(a: Assumptions, start: int) returns (r: Race)
    requires !a.relayOnTime
    ensures CanReach(a, start, r) && r.copies == 2
  {
    r := Claimed0(a, start, false, false, false);
    r := Next(a, start, r, Tick(start + GRACE + CLAIM + 2));
    r := Next(a, start, r, Pick(1));
    r := Next(a, start, r, TryClaim(1));
    r := Next(a, start, r, Send(1, true, true));
    r := Next(a, start, r, Send(0, true, true));
  }

  /** A job enters the broker at most once exactly under all six assumptions: dropping any one allows two copies. */
  lemma OneCopyExactly(a: Assumptions)
    ensures (forall start, r :: CanReach(a, start, r) ==> r.copies <= 1) <==> a == ALL
  {
    if a == ALL {
      forall start, r | CanReach(a, start, r) ensures r.copies <= 1 {
        var steps :| RunsUnder(a, Accepted(start), steps, r);
        AtMostOneCopy(start, steps, r);
      }
    } else {
      var r: Race;
      if !a.requestConfirms || !a.requestDeletes {
        r := RequestCopyDuplicates(a, 0);
      } else if !a.requestOnTime {
        r := LateRequestDuplicates(a, 0);
      } else if !a.relayConfirms {
        r := UnconfirmedRelayDuplicates(a, 0);
      } else if !a.relayDeletes {
        r := LostDeleteDuplicates(a, 0);
      } else {
        r := OutlivedClaimDuplicates(a, 0);
      }
      assert CanReach(a, 0, r) && r.copies == 2;
    }
  }
}
