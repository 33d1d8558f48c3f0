/**
 * Following a job: what it takes that no stream waits for nothing, and that what it shows last is what
 * is stored. Exact conditions over all runs, with a run for each that is missing.
 */
module JobStreamProvisos {
  import opened Prelude
  import opened JobStream

  // ----- What it takes that no stream waits for nothing

  /** The last status written for the job, taken or not, is final. */
  predicate Finished(s: State, job: JobId) {
    job in s.told && IsFinished(s.told[job])
  }

  /** A stream watches a finished job, and no final status is on its way to it. */
  ghost predicate Stuck(s: State, id: StreamId) {
    At(s, id) && var r := s.server.streams[id]; r.phase.Watching? && !r.ended && Finished(s, r.job) && !Coming(s, r)
  }

  /**
   * `answered`: second reads are answered. `arrive`: no publication of a final status is lost.
   * `recorded`: every final status finds Redis up with a record of the job. `kept`: the record of a
   * finished job does not expire. `settled`: no final status is replaced by another one.
   */
  datatype Provisos = Provisos(answered: bool, arrive: bool, recorded: bool, kept: bool, settled: bool) {
    predicate Tells() {
      answered && arrive && recorded && kept
    }
  }

  predicate Allowed(p: Provisos, s: State, a: Action) {
    match a
    case Reread(_, up) => p.answered ==> up
    case LosePublish(_, status) => p.arrive ==> !IsFinished(status)
    case Write(job, status, up) =>
      && (p.recorded && IsFinished(status) ==> up && job in s.stored)
      && (p.settled && up && FinalStored(s, job) ==> status == s.stored[job])
    case Remove(job) => p.kept ==> !Finished(s, job)
    case _ => true
  }

  ghost predicate RunsWithin(p: Provisos, s: State, actions: seq<Action>, end: State)
    decreases |actions|
  {
    if actions == [] then end == s
    else
      && Enabled(s, actions[0]) && Allowed(p, s, actions[0])
      && RunsWithin(p, Apply(s, actions[0]), actions[1..], end)
  }

  ghost predicate ReachableWithin(p: Provisos, s: State) {
    exists actions :: RunsWithin(p, INITIAL, actions, s)
  }

  /** What the provisos keep: nothing lost, nobody blind, and every final status that was written is stored. */
  ghost predicate Provided(s: State) {
    && s.lost == {}
    && (forall id :: At(s, id) ==> !s.server.streams[id].blind)
    && (forall job :: Finished(s, job) ==> FinalStored(s, job))
  }

  lemma StepNotBlind(p: Provisos, s: State, a: Action, id: StreamId)
    requires p.Tells() && Enabled(s, a) && Allowed(p, s, a) && (At(s, id) ==> !s.server.streams[id].blind)
    ensures At(Apply(s, a), id) ==> !Apply(s, a).server.streams[id].blind
  {
    if !At(s, id) {
      NewTold(s, a, id);
    } else if Handles(a) {
      StepSteady(s, a, id);
    } else if a.Deliver? {
      DeliveredSees(s.server, a.id);
    }
  }

  lemma StepStored(p: Provisos, s: State, a: Action)
    requires p.Tells() && Enabled(s, a) && Allowed(p, s, a) && Provided(s)
    ensures Apply(s, a).lost == {} && forall job :: Finished(Apply(s, a), job) ==> FinalStored(Apply(s, a), job)
  {
    var t := Apply(s, a);
    forall job | Finished(t, job) ensures FinalStored(t, job) {
      assert !a.Write? ==> Finished(s, job);
      assert a.Write? && a.job != job ==> Finished(s, job);
    }
  }

  lemma {:induction false} RunProvides(p: Provisos, s: State, actions: seq<Action>, end: State)
    requires p.Tells() && Inv(s) && Provided(s) && RunsWithin(p, s, actions, end)
    ensures Inv(end) && Provided(end)
    decreases |actions|
  {
    if actions != [] {
      var a, t := actions[0], Apply(s, actions[0]);
      StepInv(s, a);
      StepStored(p, s, a);
      forall id | At(t, id) ensures !t.server.streams[id].blind { StepNotBlind(p, s, a, id); }
      RunProvides(p, t, actions[1..], end);
    }
  }

  lemma NoneStuck(p: Provisos, s: State, id: StreamId)
    requires p.Tells() && ReachableWithin(p, s)
    ensures !Stuck(s, id)
  {
    InitialInv();
    var actions :| RunsWithin(p, INITIAL, actions, s);
    RunProvides(p, INITIAL, actions, s);
    assert ToldOk(s, id);
  }

  /** No stream ever waits for nothing, whatever the run: exactly under the first four provisos. */
  lemma NeverStuckExactly(p: Provisos)
    ensures (forall s, id :: ReachableWithin(p, s) ==> !Stuck(s, id)) <==> p.Tells()
  {
    if p.Tells() {
      forall s, id | ReachableWithin(p, s) ensures !Stuck(s, id) { NoneStuck(p, s, id); }
    } else if !p.answered {
      var s := UnansweredRereadMisses(p);
    } else if !p.arrive {
      var s := LostPublicationMisses(p);
    } else if !p.recorded {
      var s := UnrecordedJobMisses(p);
    } else {
      var s := ExpiredRecordMisses(p);
    }
  }

  // ----- Each proviso is needed: runs that leave a stream waiting for nothing

  lemma {:induction false} RunsOn(p: Provisos, s: State, actions: seq<Action>, end: State, a: Action)
    requires RunsWithin(p, s, actions, end) && Enabled(end, a) && Allowed(p, end, a)
    ensures RunsWithin(p, s, actions + [a], Apply(end, a))
    decreases |actions|
  {
    var all := actions + [a];
    if actions == [] {
      assert all[1..] == [] && RunsWithin(p, Apply(s, all[0]), all[1..], Apply(end, a));
    } else {
      RunsOn(p, Apply(s, actions[0]), actions[1..], end, a);
      assert all[0] == actions[0] && all[1..] == actions[1..] + [a];
    }
  }

  lemma ReachNext(p: Provisos, s: State, a: Action, t: State)
    requires ReachableWithin(p, s) && Enabled(s, a) && Allowed(p, s, a) && t == Apply(s, a)
    ensures ReachableWithin(p, t)
  {
    var actions :| RunsWithin(p, INITIAL, actions, s);
    RunsOn(p, INITIAL, actions, s, a);
  }

  /** Stream 0 of user 7 on job 1, with no publication under way. */
  function Scene(r: Stream, open: map<UserId, nat>, stored: map<JobId, Status>, told: map<JobId, Status>,
                 history: set<(JobId, Status)>): State
  {
    State(Server(map[0 := r], open), stored, multiset{}, told, {}, history)
  }

  const ONE: map<UserId, nat> := map[7 := 1]
  const NOBODY: map<UserId, nat> := map[]
  const NONE: map<JobId, Status> := map[]
  const WAITS: map<JobId, Status> := map[1 := Pending]
  const DONE: map<JobId, Status> := map[1 := Completed]
  const NEVER: set<(JobId, Status)> := {}
  const QUEUED: set<(JobId, Status)> := {(1, Pending)}
  const FINISHED: set<(JobId, Status)> := {(1, Pending), (1, Completed)}
  const ASKED := Stream(7, 1, Reading, false, false, false, false, false, false, [], [])
  const SHOWN := ASKED.(phase := Subscribing, counted := true, output := [Data(Pending)])
  const HEARD := SHOWN.(phase := Rereading, attached := true)
  const WATCHES := HEARD.(phase := Watching)

  lemma Moved(r: Stream, q: Stream, open: map<UserId, nat>)
    ensures Put(Server(map[0 := r], open), 0, q) == Server(map[0 := q], open)
  {
    assert map[0 := r][0 := q] == map[0 := q];
  }

  /** A step of the stream's handler. */
  lemma Steps(p: Provisos, r: Stream, a: Action, q: Stream, stored: map<JobId, Status>, told: map<JobId, Status>,
              history: set<(JobId, Status)>)
    requires ReachableWithin(p, Scene(r, ONE, stored, told, history))
    requires Enabled(Scene(r, ONE, stored, told, history), a) && Allowed(p, Scene(r, ONE, stored, told, history), a)
    requires Apply(Scene(r, ONE, stored, told, history), a)
          == Scene(r, ONE, stored, told, history).(server := Put(Server(map[0 := r], ONE), 0, q))
    ensures ReachableWithin(p, Scene(q, ONE, stored, told, history))
  {
    Moved(r, q, ONE);
    ReachNext(p, Scene(r, ONE, stored, told, history), a, Scene(q, ONE, stored, told, history));
  }

  /** The job waits in the outbox, with a record or without one. */
  lemma Accepted(p: Provisos, record: bool)
    ensures ReachableWithin(p, if record then INITIAL.(stored := WAITS, history := QUEUED) else INITIAL)
  {
    assert RunsWithin(p, INITIAL, [], INITIAL);
    if record {
      var accepted := INITIAL.(stored := WAITS, history := QUEUED);
      var created := accepted.(publishing := multiset{(1, Pending)});
      assert NONE[1 := Pending] == WAITS && NEVER + {(1, Pending)} == QUEUED;
      ReachNext(p, INITIAL, Create(1), created);
      assert forall id :: id !in created.server.streams;
      ReachNext(p, created, Publish(1, Pending), accepted);
    }
  }

  const LOADED := ASKED.(phase := Loaded(Pending))

  /** The first read of the stream sees a job that waits. */
  lemma Loads(p: Provisos, stored: map<JobId, Status>, history: set<(JobId, Status)>)
    requires ReachableWithin(p, INITIAL.(stored := stored, history := history))
    requires stored == WAITS || stored == NONE
    ensures ReachableWithin(p, Scene(LOADED, NOBODY, stored, NONE, history))
  {
    var asked := Scene(ASKED, NOBODY, stored, NONE, history);
    ReachNext(p, INITIAL.(stored := stored, history := history), Ask(0, 7, 1), asked);
    Moved(ASKED, LOADED, NOBODY);
    ReachNext(p, asked, Load(0, true, true), Scene(LOADED, NOBODY, stored, NONE, history));
  }

  /** The stream is open before the job has started. */
  lemma Opens(p: Provisos, record: bool)
    ensures ReachableWithin(p, if record then Scene(SHOWN, ONE, WAITS, NONE, QUEUED)
                               else Scene(SHOWN, ONE, NONE, NONE, NEVER))
  {
    var stored, history := if record then WAITS else NONE, if record then QUEUED else NEVER;
    Accepted(p, record);
    Loads(p, stored, history);
    Moved(LOADED, SHOWN, ONE);
    assert NOBODY[7 := 1] == ONE && Count(NOBODY, 7) == 0;
    assert Sent(LOADED.(counted := true), Data(Pending)).(phase := Subscribing) == SHOWN;
    ReachNext(p, Scene(LOADED, NOBODY, stored, NONE, history), Open(0, false),
              Scene(SHOWN, ONE, stored, NONE, history));
  }

  /** The job finishes before the stream listens, and the update is about to be published. */
  lemma FinishesFirst(p: Provisos)
    ensures ReachableWithin(p, Scene(SHOWN, ONE, DONE, DONE, FINISHED).(publishing := multiset{(1, Completed)}))
  {
    Opens(p, true);
    assert NONE[1 := Completed] == DONE == WAITS[1 := Completed] && QUEUED + {(1, Completed)} == FINISHED;
    ReachNext(p, Scene(SHOWN, ONE, WAITS, NONE, QUEUED), Write(1, Completed, true),
              Scene(SHOWN, ONE, DONE, DONE, FINISHED).(publishing := multiset{(1, Completed)}));
  }

  /** The job finishes, and the update is published before the stream listens. */
  lemma FinishesUnheard(p: Provisos)
    ensures ReachableWithin(p, Scene(SHOWN, ONE, DONE, DONE, FINISHED))
  {
    FinishesFirst(p);
    var written := Scene(SHOWN, ONE, DONE, DONE, FINISHED).(publishing := multiset{(1, Completed)});
    assert Apply(written, Publish(1, Completed)).server.streams == map[0 := SHOWN];
    ReachNext(p, written, Publish(1, Completed), Scene(SHOWN, ONE, DONE, DONE, FINISHED));
  }

  lemma Subscribes(p: Provisos, stored: map<JobId, Status>, told: map<JobId, Status>,
                   history: set<(JobId, Status)>)
    requires ReachableWithin(p, Scene(SHOWN, ONE, stored, told, history))
    ensures ReachableWithin(p, Scene(HEARD, ONE, stored, told, history))
  {
    Steps(p, SHOWN, Attach(0), SHOWN.(attached := true), stored, told, history);
    Steps(p, SHOWN.(attached := true), Subscription(0), HEARD, stored, told, history);
  }

  /** The second read does not show a final status. */
  lemma Rereads(p: Provisos, up: bool, stored: map<JobId, Status>, told: map<JobId, Status>,
                history: set<(JobId, Status)>)
    requires ReachableWithin(p, Scene(HEARD, ONE, stored, told, history)) && (p.answered ==> up)
    requires up && 1 in stored ==> !IsFinished(stored[1])
    ensures ReachableWithin(p, Scene(WATCHES.(blind := !up), ONE, stored, told, history))
  {
    var judging := HEARD.(phase := Judging(if up then Lookup(stored, 1) else None), blind := !up);
    Steps(p, HEARD, Reread(0, up), judging, stored, told, history);
    Steps(p, judging, Judge(0), WATCHES.(blind := !up), stored, told, history);
  }

  /** The job finishes before the subscription, and the second read fails. */
  lemma UnansweredRereadMisses(p: Provisos) returns (s: State)
    requires !p.answered
    ensures ReachableWithin(p, s) && Stuck(s, 0)
  {
    FinishesUnheard(p);
    Subscribes(p, DONE, DONE, FINISHED);
    Rereads(p, false, DONE, DONE, FINISHED);
    s := Scene(WATCHES.(blind := true), ONE, DONE, DONE, FINISHED);
  }

  /** The job finishes after both reads of a stream, and the update is about to be published. */
  lemma FinishesWatched(p: Provisos)
    ensures ReachableWithin(p, Scene(WATCHES, ONE, DONE, DONE, FINISHED).(publishing := multiset{(1, Completed)}))
  {
    Opens(p, true);
    Subscribes(p, WAITS, NONE, QUEUED);
    Rereads(p, true, WAITS, NONE, QUEUED);
    assert WATCHES.(blind := false) == WATCHES && NONE[1 := Completed] == DONE == WAITS[1 := Completed];
    assert QUEUED + {(1, Completed)} == FINISHED;
    ReachNext(p, Scene(WATCHES, ONE, WAITS, NONE, QUEUED), Write(1, Completed, true),
              Scene(WATCHES, ONE, DONE, DONE, FINISHED).(publishing := multiset{(1, Completed)}));
  }

  /** The publication of the final status is lost. */
  lemma LostPublicationMisses(p: Provisos) returns (s: State)
    requires !p.arrive
    ensures ReachableWithin(p, s) && Stuck(s, 0)
  {
    FinishesWatched(p);
    s := Scene(WATCHES, ONE, DONE, DONE, FINISHED).(lost := {1});
    var written := Scene(WATCHES, ONE, DONE, DONE, FINISHED).(publishing := multiset{(1, Completed)});
    ReachNext(p, written, LosePublish(1, Completed), s);
  }

  /** A job accepted while Redis was down has no record, so its final status is dropped. */
  lemma UnrecordedJobMisses(p: Provisos) returns (s: State)
    requires !p.recorded
    ensures ReachableWithin(p, s) && Stuck(s, 0)
  {
    Opens(p, false);
    Subscribes(p, NONE, NONE, NEVER);
    Rereads(p, true, NONE, NONE, NEVER);
    s := Scene(WATCHES, ONE, NONE, DONE, NEVER);
    assert WATCHES.(blind := false) == WATCHES && NONE[1 := Completed] == DONE;
    ReachNext(p, Scene(WATCHES, ONE, NONE, NONE, NEVER), Write(1, Completed, true), s);
  }

  /** The record of the finished job expires between the two reads. */
  lemma ExpiredRecordMisses(p: Provisos) returns (s: State)
    requires !p.kept
    ensures ReachableWithin(p, s) && Stuck(s, 0)
  {
    FinishesUnheard(p);
    ReachNext(p, Scene(SHOWN, ONE, DONE, DONE, FINISHED), Remove(1), Scene(SHOWN, ONE, NONE, DONE, FINISHED));
    Subscribes(p, NONE, DONE, FINISHED);
    Rereads(p, true, NONE, DONE, FINISHED);
    s := Scene(WATCHES, ONE, NONE, DONE, FINISHED);
    assert WATCHES.(blind := false) == WATCHES;
  }

  // ----- What the last line says of the stored status

  /** A stream ended by itself on a final status, and another final status is stored. */
  predicate Mistold(s: State, id: StreamId) {
    At(s, id) && var r := s.server.streams[id];
    && r.ended && !r.left && FinalStored(s, r.job)
    && r.output != [] && r.output[|r.output| - 1] != Unavailable
    && r.output[|r.output| - 1] != Data(s.stored[r.job])
  }

  /** A job has had one final status at most, which is stored unless the record is gone. */
  ghost predicate OneFinal(s: State, job: JobId) {
    forall status :: (job, status) in s.history && IsFinished(status) ==>
      job in s.told && (job in s.stored ==> s.stored[job] == status)
  }

  ghost predicate Recorded(s: State, job: JobId) {
    forall a, b :: (job, a) in s.history && (job, b) in s.history && IsFinished(a) && IsFinished(b) ==> a == b
  }

  lemma StepSettled(p: Provisos, s: State, a: Action, job: JobId)
    requires p.settled && Enabled(s, a) && Allowed(p, s, a) && OneFinal(s, job) && Recorded(s, job)
    ensures OneFinal(Apply(s, a), job) && Recorded(Apply(s, a), job)
  {
  }

  lemma {:induction false} RunSettled(p: Provisos, s: State, actions: seq<Action>, end: State, job: JobId)
    requires p.settled && Inv(s) && RunsWithin(p, s, actions, end) && OneFinal(s, job) && Recorded(s, job)
    ensures Inv(end) && OneFinal(end, job) && Recorded(end, job)
    decreases |actions|
  {
    if actions != [] {
      StepSettled(p, s, actions[0], job);
      StepInv(s, actions[0]);
      RunSettled(p, Apply(s, actions[0]), actions[1..], end, job);
    }
  }

  lemma NoneMistold(p: Provisos, s: State, id: StreamId)
    requires p.settled && ReachableWithin(p, s)
    ensures !Mistold(s, id)
  {
    InitialInv();
    var actions :| RunsWithin(p, INITIAL, actions, s);
    if At(s, id) {
      RunSettled(p, INITIAL, actions, s, s.server.streams[id].job);
      assert StreamOk(s.server.streams[id]) && TrueStream(s, s.server.streams[id]);
    }
  }

  const FAILED: map<JobId, Status> := map[1 := Failed]
  const BROKEN: set<(JobId, Status)> := {(1, Pending), (1, Failed)}

  /** A watching stream is about to be told of a failure. */
  lemma FailsWatched(p: Provisos)
    ensures ReachableWithin(p, Scene(WATCHES, ONE, FAILED, FAILED, BROKEN).(publishing := multiset{(1, Failed)}))
  {
    Opens(p, true);
    Subscribes(p, WAITS, NONE, QUEUED);
    Rereads(p, true, WAITS, NONE, QUEUED);
    assert WATCHES.(blind := false) == WATCHES;
    assert NONE[1 := Failed] == FAILED == WAITS[1 := Failed] && QUEUED + {(1, Failed)} == BROKEN;
    ReachNext(p, Scene(WATCHES, ONE, WAITS, NONE, QUEUED), Write(1, Failed, true),
              Scene(WATCHES, ONE, FAILED, FAILED, BROKEN).(publishing := multiset{(1, Failed)}));
  }

  /** A stream is told of a failure and ends; then another delivery completes the job. */
  lemma FailedThenCompleted(p: Provisos) returns (s: State)
    requires !p.settled
    ensures ReachableWithin(p, s) && Mistold(s, 0)
  {
    FailsWatched(p);
    var heard := Scene(WATCHES.(inbox := [Failed]), ONE, FAILED, FAILED, BROKEN);
    var written := Scene(WATCHES, ONE, FAILED, FAILED, BROKEN).(publishing := multiset{(1, Failed)});
    assert Received(WATCHES, 1, Failed) == WATCHES.(inbox := [Failed]);
    assert Apply(written, Publish(1, Failed)).server.streams == map[0 := WATCHES.(inbox := [Failed])];
    ReachNext(p, written, Publish(1, Failed), heard);
    s := ToldAndReplaced(p, heard);
  }

  lemma ToldAndReplaced(p: Provisos, heard: State) returns (s: State)
    requires !p.settled && ReachableWithin(p, heard)
    requires heard == Scene(WATCHES.(inbox := [Failed]), ONE, FAILED, FAILED, BROKEN)
    ensures ReachableWithin(p, s) && Mistold(s, 0)
  {
    var told := Apply(heard, Deliver(0));
    ReachNext(p, heard, Deliver(0), told);
    s := Apply(told, Write(1, Completed, true));
    ReachNext(p, told, Write(1, Completed, true), s);
    DeliveredShows(heard.server, 0);
  }

  /**
   * A stream that ended by itself on a final status shows the one that is stored, whatever the run:
   * exactly when no final status is ever replaced by another.
   */
  lemma LastLineExactly(p: Provisos)
    ensures (forall s, id :: ReachableWithin(p, s) ==> !Mistold(s, id)) <==> p.settled
  {
    if p.settled {
      forall s, id | ReachableWithin(p, s) ensures !Mistold(s, id) { NoneMistold(p, s, id); }
    } else {
      var s := FailedThenCompleted(p);
    }
  }

  /**
   * Under all provisos, a stream past its set-up whose client stayed, with no final status on its way,
   * has ended on the status that is stored for its finished job.
   */
  lemma QuietStreamsTellTheEnd(p: Provisos, s: State, id: StreamId)
    requires p.Tells() && p.settled && ReachableWithin(p, s)
    requires At(s, id) && s.server.streams[id].phase.Watching? && !s.server.streams[id].left
    requires Finished(s, s.server.streams[id].job) && !Coming(s, s.server.streams[id])
    ensures var r := s.server.streams[id];
            && r.ended && r.output != [] && FinalStored(s, r.job)
            && r.output[|r.output| - 1] == Data(s.stored[r.job])
  {
    NoneStuck(p, s, id);
    NoneMistold(p, s, id);
    InitialInv();
    var actions :| RunsWithin(p, INITIAL, actions, s);
    RunProvides(p, INITIAL, actions, s);
    assert StreamOk(s.server.streams[id]);
  }
}
