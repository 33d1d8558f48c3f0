/**
 * The import pipeline: outbox, publishers, broker with its retry and failed queues, and workers.
 *
 * A state machine over the atomic steps of every process. Between any two steps every other process
 * may act, a worker may die, or its consumer may be lost while the handler goes on running. A publish
 * may arrive without being confirmed, at any later time, or never.
 */
module ImportPipeline {
  import opened Prelude

  type JobId = nat

  datatype Job = Job(packageId: nat, words: seq<string>)

  datatype Content = Malformed | Payload(jobId: JobId, job: Job)

  /** A learning row inserted by an import, with the submitted word it stands for. */
  datatype Row = Row(jobId: JobId, index: nat, packageId: nat, word: string)

  const MAX_RETRIES: nat := 1
  const DEADLOCK_RETRIES: nat := 2

  // ----- The x-death header and the retry decision

  datatype Queue = Process | Retry

  datatype Reason = RejectedByConsumer | Expired

  datatype Death = Death(queue: Queue, reason: Reason, count: nat)

  function Find(deaths: seq<Death>, queue: Queue, reason: Reason): Option<nat> {
    if deaths == [] then None
    else if deaths[0].queue == queue && deaths[0].reason == reason then Some(deaths[0].count)
    else Find(deaths[1..], queue, reason)
  }

  /** Times the message was rejected from the work queue. */
  function RetryCount(deaths: seq<Death>): nat {
    Find(deaths, Process, RejectedByConsumer).GetOr(0)
  }

  predicate Exhausted(deaths: seq<Death>) {
    RetryCount(deaths) >= MAX_RETRIES
  }

  function Without(deaths: seq<Death>, queue: Queue, reason: Reason): seq<Death> {
    if deaths == [] then []
    else if deaths[0].queue == queue && deaths[0].reason == reason then deaths[1..]
    else [deaths[0]] + Without(deaths[1..], queue, reason)
  }

  /** The broker counts a death in its entry, and moves the entry to the front. */
  function Bury(deaths: seq<Death>, queue: Queue, reason: Reason): seq<Death> {
    [Death(queue, reason, Find(deaths, queue, reason).GetOr(0) + 1)] + Without(deaths, queue, reason)
  }

  lemma {:induction false} FindWithout(deaths: seq<Death>, queue: Queue, reason: Reason, otherQueue: Queue,
                                       otherReason: Reason)
    requires queue != otherQueue || reason != otherReason
    ensures Find(Without(deaths, otherQueue, otherReason), queue, reason) == Find(deaths, queue, reason)
  {
    if deaths != [] {
      FindWithout(deaths[1..], queue, reason, otherQueue, otherReason);
      var rest := Without(deaths[1..], otherQueue, otherReason);
      assert ([deaths[0]] + rest)[1..] == rest;
    }
  }

  /** A rejection raises the retry count by one; waiting in the retry queue leaves it alone. */
  lemma RejectionsCounted(deaths: seq<Death>)
    ensures RetryCount(Bury(deaths, Process, RejectedByConsumer)) == RetryCount(deaths) + 1
    ensures RetryCount(Bury(deaths, Retry, Expired)) == RetryCount(deaths)
  {
    FindWithout(deaths, Process, RejectedByConsumer, Retry, Expired);
    var rest := Without(deaths, Retry, Expired);
    assert Bury(deaths, Retry, Expired)[1..] == rest;
  }

  // ----- State

  /** `Wire` holds a publish the broker has not stored yet. */
  datatype Place = Wire | Dropped | Work | InFlight(handler: nat) | Waiting | Settled

  /**
   * One copy of a message. `starts` records, for each start of `addWords`, how often the copy had
   * been rejected when it was delivered; `unconfirmed` and `thrown` count the rejections due to an
   * unconfirmed park and to a handler that threw.
   */
  datatype Copy = Copy(content: Content, place: Place, redelivered: bool, deaths: seq<Death>,
                       starts: seq<nat>, unconfirmed: nat, thrown: nat)

  datatype Cause = RetryLeft | ParkUnconfirmed | HandlerThrew

  /** Where a handler stands between two of its awaits. */
  datatype Pc =
    | Begin
    | Checking                // redelivered: reading applied_jobs
    | AddingWords             // addWords before its own read of applied_jobs
    | Saving(reruns: nat)     // about to run the transaction
    | Completing(count: nat)  // the words are saved
    | Failing
    | Parking                 // sent to the failed queue, waiting for the confirm
    | Acking
    | Nacking(cause: Cause)
    | Done

  datatype Handler = Handler(copy: nat, content: Content, redelivered: bool, deaths: seq<Death>, pc: Pc)

  datatype Publisher = Publisher(jobId: JobId, copy: nat, confirmed: bool)

  datatype Report = Report(jobId: JobId, imported: nat)

  datatype State = State(
    accepted: map<JobId, Job>,       // the journal
    outbox: set<JobId>,
    publishers: map<nat, Publisher>,
    copies: map<nat, Copy>,
    handlers: map<nat, Handler>,
    parkWire: set<nat>,              // handlers whose parked copy may still arrive
    failed: map<nat, Content>,       // the failed queue, by the handler that parked
    applied: set<JobId>,             // applied_jobs
    rows: seq<Row>,                  // rows inserted by imports
    reports: seq<Report>)            // completions written for jobs

  const INITIAL := State(map[], {}, map[], map[], map[], {}, map[], {}, [], [])

  /** The request that accepts a job, and whoever publishes it: the request, then the relay. */
  datatype PublishStep =
    | Accept(job: JobId, content: Job)
    | Publish(publisher: nat, copy: nat, jobId: JobId)
    | Confirm(publisher: nat)
    | RemoveRow(publisher: nat)
    | GiveUp(publisher: nat)

  datatype BrokerStep =
    | Arrive(copy: nat)
    | Drop(copy: nat)
    | Inject(copy: nat)              // a message that is not an import job
    | Deliver(copy: nat, handler: nat)
    | LoseConsumer(copy: nat)
    | Expire(copy: nat)
    | ParkArrives(handler: nat)
    | ParkLost(handler: nat)

  datatype WorkerStep =
    | Die
    | Parse
    | CheckApplied
    | CheckThrows
    | EarlyCheck
    | AddThrows
    | Deadlock
    | Commit
    | CommitUnseen                   // committed, but the worker sees an error
    | Complete
    | Reject
    | ParkConfirmed
    | ParkNotConfirmed
    | Ack
    | Nack

  datatype Action = Publishing(p: PublishStep) | Brokering(b: BrokerStep) | Working(handler: nat, w: WorkerStep)

  predicate Arrived(c: Copy) {
    c.place != Wire && c.place != Dropped
  }

  ghost predicate Carries(s: State, c: nat, j: JobId) {
    c in s.copies && s.copies[c].content.Payload? && s.copies[c].content.jobId == j && Arrived(s.copies[c])
  }

  // ----- Acceptance and publishing

  predicate PublishEnabled(s: State, a: PublishStep) {
    match a
    case Accept(j, _) => j !in s.accepted
    case Publish(p, c, j) => p !in s.publishers && c !in s.copies && j in s.accepted
    case Confirm(p) => p in s.publishers && s.publishers[p].copy in s.copies && Arrived(s.copies[s.publishers[p].copy])
    case RemoveRow(p) => p in s.publishers && s.publishers[p].confirmed
    case GiveUp(p) => p in s.publishers
  }

  function ApplyPublish(s: State, a: PublishStep): State
    requires PublishEnabled(s, a)
  {
    match a
    case Accept(j, job) => s.(accepted := s.accepted[j := job], outbox := s.outbox + {j})
    case Publish(p, c, j) =>
      Put(s, c, Copy(Payload(j, s.accepted[j]), Wire, false, [], [], 0, 0))
        .(publishers := s.publishers[p := Publisher(j, c, false)])
    case Confirm(p) => s.(publishers := s.publishers[p := s.publishers[p].(confirmed := true)])
    case RemoveRow(p) => s.(outbox := s.outbox - {s.publishers[p].jobId}, publishers := s.publishers - {p})
    case GiveUp(p) => s.(publishers := s.publishers - {p})
  }

  function Put(s: State, c: nat, copy: Copy): State {
    s.(copies := s.copies[c := copy])
  }

  // ----- The broker

  predicate BrokerEnabled(s: State, a: BrokerStep) {
    match a
    case Arrive(c) => c in s.copies && s.copies[c].place == Wire
    case Drop(c) => c in s.copies && s.copies[c].place == Wire
    case Inject(c) => c !in s.copies
    case Deliver(c, h) => c in s.copies && s.copies[c].place == Work && h !in s.handlers
    case LoseConsumer(c) => c in s.copies && s.copies[c].place.InFlight?
    case Expire(c) => c in s.copies && s.copies[c].place == Waiting
    case ParkArrives(h) => h in s.parkWire && h in s.handlers
    case ParkLost(h) => h in s.parkWire
  }

  function ApplyBroker(s: State, a: BrokerStep): State
    requires BrokerEnabled(s, a)
  {
    match a
    case Arrive(c) => Put(s, c, s.copies[c].(place := Work))
    case Drop(c) => Put(s, c, s.copies[c].(place := Dropped))
    case Inject(c) => Put(s, c, Copy(Malformed, Work, false, [], [], 0, 0))
    case Deliver(c, h) =>
      var copy := s.copies[c];
      Put(s, c, copy.(place := InFlight(h)))
        .(handlers := s.handlers[h := Handler(c, copy.content, copy.redelivered, copy.deaths, Begin)])
    case LoseConsumer(c) => Put(s, c, s.copies[c].(place := Work, redelivered := true))
    case Expire(c) =>
      Put(s, c, s.copies[c].(place := Work, redelivered := false, deaths := Bury(s.copies[c].deaths, Retry, Expired)))
    case ParkArrives(h) =>
      s.(parkWire := s.parkWire - {h}, failed := s.failed[h := s.handlers[h].content])
    case ParkLost(h) => s.(parkWire := s.parkWire - {h})
  }

  function DeadLetter(copy: Copy, cause: Cause): Copy {
    copy.(place := Waiting, redelivered := false, deaths := Bury(copy.deaths, Process, RejectedByConsumer),
          unconfirmed := copy.unconfirmed + (if cause == ParkUnconfirmed then 1 else 0),
          thrown := copy.thrown + (if cause == HandlerThrew then 1 else 0))
  }

  // ----- The worker

  predicate WorkerEnabled(s: State, h: nat, a: WorkerStep) {
    && h in s.handlers && s.handlers[h].copy in s.copies
    && var m := s.handlers[h];
       match a
       case Die => true
       case Parse => m.pc == Begin
       case CheckApplied => m.pc == Checking && m.content.Payload?
       case CheckThrows => m.pc == Checking
       case EarlyCheck => m.pc == AddingWords && m.content.Payload?
       case AddThrows => m.pc == AddingWords || m.pc.Saving?
       case Deadlock => m.pc.Saving?
       case Commit => m.pc.Saving? && m.content.Payload?
       case CommitUnseen => m.pc.Saving? && m.content.Payload?
       case Complete => m.pc.Completing? && m.content.Payload?
       case Reject => m.pc == Failing
       case ParkConfirmed => m.pc == Parking && h in s.failed
       case ParkNotConfirmed => m.pc == Parking
       case Ack => m.pc == Acking
       case Nack => m.pc.Nacking?
  }

  /** What `handle` does first with a delivery. */
  function FirstPc(content: Content, redelivered: bool): Pc {
    if content.Malformed? then Acking else if redelivered then Checking else AddingWords
  }

  function NextPc(s: State, h: nat, a: WorkerStep): Pc
    requires WorkerEnabled(s, h, a)
  {
    var m := s.handlers[h];
    match a
    case Die => Done
    case Parse => FirstPc(m.content, m.redelivered)
    case CheckApplied => if m.content.jobId in s.applied then Completing(|m.content.job.words|) else Failing
    case CheckThrows => Nacking(HandlerThrew)
    case EarlyCheck => if m.content.jobId in s.applied then Completing(|m.content.job.words|) else Saving(0)
    case AddThrows => Failing
    case Deadlock => if m.pc.reruns < DEADLOCK_RETRIES then Saving(m.pc.reruns + 1) else Failing
    case Commit => Completing(|m.content.job.words|)
    case CommitUnseen => Failing
    case Complete => Acking
    case Reject => if Exhausted(m.deaths) then Parking else Nacking(RetryLeft)
    case ParkConfirmed => Acking
    case ParkNotConfirmed => Nacking(ParkUnconfirmed)
    case Ack => Done
    case Nack => Done
  }

  /** The rows of a job, one per submitted word. */
  function JobRows(j: JobId, job: Job): (rows: seq<Row>)
    ensures |rows| == |job.words|
    ensures forall i :: 0 <= i < |rows| ==> rows[i] == Row(j, i, job.packageId, job.words[i])
  {
    seq(|job.words|, i requires 0 <= i < |job.words| => Row(j, i, job.packageId, job.words[i]))
  }

  /** The import transaction: nothing when an earlier delivery already recorded the job. */
  function Save(s: State, content: Content): State
    requires content.Payload?
  {
    if content.jobId in s.applied then s
    else s.(applied := s.applied + {content.jobId}, rows := s.rows + JobRows(content.jobId, content.job))
  }

  /** The delivered copy after a worker step. An ack or nack counts only on the live delivery. */
  function CopyAfter(s: State, h: nat, a: WorkerStep): Copy
    requires WorkerEnabled(s, h, a)
  {
    var m := s.handlers[h];
    var copy := s.copies[m.copy];
    if a == Parse && FirstPc(m.content, m.redelivered) == AddingWords then
      copy.(starts := copy.starts + [RetryCount(m.deaths)])
    else if a == Ack && copy.place == InFlight(h) then copy.(place := Settled)
    else if a == Nack && copy.place == InFlight(h) then DeadLetter(copy, m.pc.cause)
    else copy
  }

  /** What a worker step changes outside its handler. */
  function Effect(s: State, h: nat, a: WorkerStep): State
    requires WorkerEnabled(s, h, a)
  {
    var m := s.handlers[h];
    var saved := if a == Commit || a == CommitUnseen then Save(s, m.content) else s;
    saved.(copies := s.copies[m.copy := CopyAfter(s, h, a)],
           reports := if a == Complete then s.reports + [Report(m.content.jobId, m.pc.count)] else s.reports,
           parkWire := if a == Reject && Exhausted(m.deaths) then s.parkWire + {h} else s.parkWire)
  }

  function ApplyWorker(s: State, h: nat, a: WorkerStep): State
    requires WorkerEnabled(s, h, a)
  {
    Effect(s, h, a).(handlers := s.handlers[h := s.handlers[h].(pc := NextPc(s, h, a))])
  }

  lemma CopiesAfter(s: State, h: nat, a: WorkerStep)
    requires WorkerEnabled(s, h, a)
    ensures ApplyWorker(s, h, a).copies == s.copies[s.handlers[h].copy := CopyAfter(s, h, a)]
  {
  }

  /** Only a worker's commit and report touch what is saved and told. */
  lemma SavedAfter(s: State, h: nat, a: WorkerStep)
    requires WorkerEnabled(s, h, a)
    ensures var t, m := ApplyWorker(s, h, a), s.handlers[h];
            && t.accepted == s.accepted && t.failed == s.failed && t.outbox == s.outbox && t.publishers == s.publishers
            && t.applied == (if a == Commit || a == CommitUnseen then Save(s, m.content).applied else s.applied)
            && t.rows == (if a == Commit || a == CommitUnseen then Save(s, m.content).rows else s.rows)
            && t.reports == (if a == Complete then s.reports + [Report(m.content.jobId, m.pc.count)] else s.reports)
            && t.handlers == s.handlers[h := m.(pc := NextPc(s, h, a))]
  {
  }

  /** A worker step leaves its copy where it is, settles it, or has it wait for a retry. */
  lemma CopyAfterMoves(s: State, h: nat, a: WorkerStep)
    requires WorkerEnabled(s, h, a)
    ensures var copy, after := s.copies[s.handlers[h].copy], CopyAfter(s, h, a);
            && after.content == copy.content && (Arrived(copy) ==> Arrived(after))
            && (|| (after.place == copy.place && after.deaths == copy.deaths && after.redelivered == copy.redelivered)
                || (after.place == Settled && a == Ack)
                || after.place == Waiting)
  {
  }

  // ----- Runs

  predicate Enabled(s: State, a: Action) {
    match a
    case Publishing(p) => PublishEnabled(s, p)
    case Brokering(b) => BrokerEnabled(s, b)
    case Working(h, w) => WorkerEnabled(s, h, w)
  }

  function Apply(s: State, a: Action): State
    requires Enabled(s, a)
  {
    match a
    case Publishing(p) => ApplyPublish(s, p)
    case Brokering(b) => ApplyBroker(s, b)
    case Working(h, w) => ApplyWorker(s, h, w)
  }

  ghost predicate Runs(s: State, actions: seq<Action>, end: State)
    decreases |actions|
  {
    if actions == [] then end == s
    else Enabled(s, actions[0]) && Runs(Apply(s, actions[0]), actions[1..], end)
  }

  ghost predicate Reachable(s: State) {
    exists actions :: Runs(INITIAL, actions, s)
  }

  lemma {:induction false} RunThen(s: State, actions: seq<Action>, t: State, a: Action)
    requires Runs(s, actions, t) && Enabled(t, a)
    ensures Runs(s, actions + [a], Apply(t, a))
    decreases |actions|
  {
    if actions == [] {
      assert Runs(Apply(t, a), [a][1..], Apply(t, a));
    } else {
      RunThen(Apply(s, actions[0]), actions[1..], t, a);
      assert (actions + [a])[1..] == actions[1..] + [a];
    }
  }
}
