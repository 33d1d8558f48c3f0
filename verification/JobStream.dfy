/**
 * Following a job over server-sent events: each stream reads the job, subscribes to its updates and
 * reads it again, while the tracker stores and publishes updates and clients come and go.
 */
module JobStream {
  import opened Prelude

  const MAX_STREAMS_PER_USER := 10

  type JobId = nat
  type UserId = nat
  type StreamId = nat

  datatype Status = Pending | Processing | Retrying | Completed | Failed

  predicate IsFinished(status: Status) {
    status == Completed || status == Failed
  }

  datatype Line = Data(status: Status) | Unavailable

  /** Where the request handler of a stream is; `Returned` when it is over without a subscription in place. */
  datatype Phase =
    | Reading
    | Loaded(first: Status)
    | Refused
    | Subscribing
    | Rereading
    | Judging(current: Option<Status>)
    | Watching
    | Returned

  /**
   * `attached`: Redis knows the listener. `closed`: the listener ignores what it gets. `blind`: Redis
   * did not answer the second read. `left`: the client left, or its time ran out, before the end.
   */
  datatype Stream = Stream(user: UserId, job: JobId, phase: Phase, counted: bool, ended: bool, attached: bool,
                           closed: bool, blind: bool, left: bool, inbox: seq<Status>, output: seq<Line>)

  /** What the API process holds: its streams and the `openStreams` counts. */
  datatype Server = Server(streams: map<StreamId, Stream>, open: map<UserId, nat>)

  // ----- The handler and its callbacks

  predicate CanUnsubscribe(phase: Phase) {
    phase.Rereading? || phase.Judging? || phase.Watching?
  }

  function Count(open: map<UserId, nat>, user: UserId): nat {
    if user in open then open[user] else 0
  }

  /** `send` */
  function Sent(r: Stream, line: Line): Stream {
    if r.ended then r else r.(output := r.output + [line])
  }

  /** `end` */
  function Ended(v: Server, id: StreamId): Server
    requires id in v.streams
  {
    var r := v.streams[id];
    if r.ended then v
    else
      var left := Count(v.open, r.user) - 1;
      Server(v.streams[id := r.(ended := true, closed := r.closed || CanUnsubscribe(r.phase))],
             if left > 0 then v.open[r.user := left] else v.open - {r.user})
  }

  function Put(v: Server, id: StreamId, r: Stream): Server {
    v.(streams := v.streams[id := r])
  }

  /** The stream is counted and its first line written, unless the user has too many. */
  function Opened(v: Server, id: StreamId, gone: bool): Server
    requires id in v.streams && v.streams[id].phase.Loaded?
  {
    var r := v.streams[id];
    if Count(v.open, r.user) >= MAX_STREAMS_PER_USER then Put(v, id, r.(phase := Refused))
    else
      var counted := v.(open := v.open[r.user := Count(v.open, r.user) + 1]);
      if gone then Ended(Put(counted, id, r.(counted := true, phase := Returned, left := true)), id)
      else
        var written := Sent(r.(counted := true), Data(r.phase.first));
        if IsFinished(r.phase.first) then Ended(Put(counted, id, written.(phase := Returned)), id)
        else Put(counted, id, written.(phase := Subscribing))
  }

  lemma PutTwice(v: Server, id: StreamId, r: Stream, q: Stream)
    ensures Put(Put(v, id, r), id, q) == Put(v, id, q)
  {
    assert v.streams[id := r][id := q] == v.streams[id := q];
  }

  /** The subscription, or null, is there. */
  function Subscribed(v: Server, id: StreamId): Server
    requires id in v.streams && v.streams[id].phase.Subscribing?
  {
    var r := v.streams[id];
    if r.ended then Put(v, id, r.(phase := Returned, closed := r.attached))
    else if !r.attached then Ended(Put(v, id, Sent(r, Unavailable).(phase := Returned)), id)
    else Put(v, id, r.(phase := Rereading))
  }

  /** The second read is back. */
  function Judged(v: Server, id: StreamId): Server
    requires id in v.streams && v.streams[id].phase.Judging?
  {
    var r := v.streams[id];
    var current := r.phase.current;
    if current.Some? && IsFinished(current.value)
    then Ended(Put(v, id, Sent(r, Data(current.value)).(phase := Watching)), id)
    else Put(v, id, r.(phase := Watching))
  }

  /** The listener gets the next update. */
  function Delivered(v: Server, id: StreamId): Server
    requires id in v.streams && v.streams[id].inbox != []
  {
    var r := v.streams[id];
    var status := r.inbox[0];
    var popped := r.(inbox := r.inbox[1..]);
    if r.closed then Put(v, id, popped)
    else
      var shown := Put(v, id, Sent(popped, Data(status)));
      if IsFinished(status) then Ended(shown, id) else shown
  }

  /** The client leaves, or its time runs out. */
  function Left(v: Server, id: StreamId): Server
    requires id in v.streams
  {
    Ended(Put(v, id, v.streams[id].(left := v.streams[id].left || !v.streams[id].ended)), id)
  }

  class JobController {
    var streams: map<StreamId, Stream>
    var openStreams: map<UserId, nat>

    constructor ()
      ensures Contents() == Server(map[], map[])
    {
      streams, openStreams := map[], map[];
    }

    function Contents(): Server
      reads this
    {
      Server(streams, openStreams)
    }

    method End(id: StreamId)
      requires id in streams
      modifies this
      ensures Contents() == Ended(old(Contents()), id)
    {
      var r := streams[id];
      if r.ended { return; }
      var left := Count(openStreams, r.user) - 1;
      if left > 0 {
        openStreams := openStreams[r.user := left];
      } else {
        openStreams := openStreams - {r.user};
      }
      var closed := r.closed || CanUnsubscribe(r.phase);
      streams := streams[id := r.(ended := true, closed := closed)];
    }

    method Send(id: StreamId, line: Line)
      requires id in streams
      modifies this`streams
      ensures Contents() == Put(old(Contents()), id, Sent(old(streams[id]), line))
    {
      var r := streams[id];
      if !r.ended { r := r.(output := r.output + [line]); }
      streams := streams[id := r];
    }

    /** The `close` event and the timer. */
    method OnClose(id: StreamId)
      requires id in streams
      modifies this
      ensures Contents() == Left(old(Contents()), id)
    {
      if !streams[id].ended { streams := streams[id := streams[id].(left := true)]; }
      assert Contents() == Put(old(Contents()), id, streams[id]);
      End(id);
    }

    method StreamJob(id: StreamId, gone: bool) returns (accepted: bool)
      requires id in streams && streams[id].phase.Loaded? && !streams[id].ended
      modifies this
      ensures Contents() == Opened(old(Contents()), id, gone)
      ensures accepted <==> Count(old(openStreams), old(streams[id].user)) < MAX_STREAMS_PER_USER
    {
      var r := streams[id];
      var open := Count(openStreams, r.user);
      if open >= MAX_STREAMS_PER_USER {
        streams := streams[id := r.(phase := Refused)];
        return false;
      }
      openStreams := openStreams[r.user := open + 1];
      streams := streams[id := r.(counted := true, phase := Returned)];
      ghost var counted := old(Contents()).(open := openStreams);
      assert Contents() == Put(counted, id, r.(counted := true, phase := Returned));
      if gone {
        PutTwice(counted, id, streams[id], streams[id].(left := true));
        OnClose(id);
      } else {
        PutTwice(counted, id, streams[id], Sent(r.(counted := true), Data(r.phase.first)).(phase := Returned));
        Show(id, r.phase.first);
        PutTwice(counted, id, Sent(r.(counted := true), Data(r.phase.first)).(phase := Returned),
                 Sent(r.(counted := true), Data(r.phase.first)).(phase := Subscribing));
      }
      return true;
    }

    /** The first line; the handler goes on to subscribe unless it is the last. */
    method Show(id: StreamId, first: Status)
      requires id in streams
      modifies this
      ensures var v := old(Contents());
              var shown := Put(v, id, Sent(v.streams[id], Data(first)));
              Contents() == if IsFinished(first) then Ended(shown, id)
                            else Put(shown, id, shown.streams[id].(phase := Subscribing))
    {
      Send(id, Data(first));
      if IsFinished(first) {
        End(id);
      } else {
        streams := streams[id := streams[id].(phase := Subscribing)];
      }
    }

    method OnSubscription(id: StreamId)
      requires id in streams && streams[id].phase.Subscribing?
      modifies this
      ensures Contents() == Subscribed(old(Contents()), id)
    {
      var r := streams[id];
      if r.ended {
        streams := streams[id := r.(phase := Returned, closed := r.attached)];
        return;
      }
      if !r.attached {
        Send(id, Unavailable);
        streams := streams[id := streams[id].(phase := Returned)];
        End(id);
        return;
      }
      streams := streams[id := r.(phase := Rereading)];
    }

    method OnSecondRead(id: StreamId)
      requires id in streams && streams[id].phase.Judging?
      modifies this
      ensures Contents() == Judged(old(Contents()), id)
    {
      var current := streams[id].phase.current;
      streams := streams[id := streams[id].(phase := Watching)];
      if current.Some? && IsFinished(current.value) {
        Send(id, Data(current.value));
        ghost var shown := Sent(old(streams[id]), Data(current.value)).(phase := Watching);
        assert Contents() == Put(old(Contents()), id, shown);
        End(id);
      }
    }

    method OnUpdate(id: StreamId)
      requires id in streams && streams[id].inbox != []
      modifies this
      ensures Contents() == Delivered(old(Contents()), id)
    {
      var r := streams[id];
      var update := r.inbox[0];
      streams := streams[id := r.(inbox := r.inbox[1..])];
      if r.closed { return; }
      Send(id, Data(update));
      if IsFinished(update) { End(id); }
    }
  }

  // ----- Streams among tracker updates

  /**
   * `told`: the last status written for the job, whether the tracker took it or not. `lost`: a final
   * status of the job was lost on its way, and nothing was stored for the job since. `history`: every
   * status ever stored.
   */
  datatype State = State(server: Server, stored: map<JobId, Status>, publishing: multiset<(JobId, Status)>,
                         told: map<JobId, Status>, lost: set<JobId>, history: set<(JobId, Status)>)

  datatype Action =
    | Ask(id: StreamId, user: UserId, job: JobId)
    | Load(id: StreamId, up: bool, queued: bool)
    | Open(id: StreamId, gone: bool)
    | Attach(id: StreamId)
    | Subscription(id: StreamId)
    | Reread(id: StreamId, up: bool)
    | Judge(id: StreamId)
    | Deliver(id: StreamId)
    | Close(id: StreamId)
    | Create(job: JobId)
    | Write(job: JobId, status: Status, up: bool)
    | Remove(job: JobId)
    | Publish(job: JobId, status: Status)
    | LosePublish(job: JobId, status: Status)

  const INITIAL := State(Server(map[], map[]), map[], multiset{}, map[], {}, {})

  predicate At(s: State, id: StreamId) {
    id in s.server.streams
  }

  predicate Enabled(s: State, a: Action) {
    match a
    case Ask(id, _, _) => !At(s, id)
    case Load(id, _, _) => At(s, id) && s.server.streams[id].phase.Reading?
    case Open(id, _) => At(s, id) && s.server.streams[id].phase.Loaded?
    case Attach(id) => At(s, id) && s.server.streams[id].phase.Subscribing?
    case Subscription(id) => At(s, id) && s.server.streams[id].phase.Subscribing?
    case Reread(id, _) => At(s, id) && s.server.streams[id].phase.Rereading?
    case Judge(id) => At(s, id) && s.server.streams[id].phase.Judging?
    case Deliver(id) => At(s, id) && s.server.streams[id].inbox != []
    case Close(id) => At(s, id) && s.server.streams[id].counted
    case Create(job) => job !in s.stored && job !in s.told
    case Write(_, _, _) => true
    case Remove(_) => true
    case Publish(job, status) => (job, status) in s.publishing
    case LosePublish(job, status) => (job, status) in s.publishing
  }

  function Received(r: Stream, job: JobId, status: Status): Stream {
    if r.attached && r.job == job then r.(inbox := r.inbox + [status]) else r
  }

  /** `update`: dropped when Redis is down or has no record of the job. */
  function Written(s: State, job: JobId, status: Status, up: bool): State {
    var t := s.(told := s.told[job := status]);
    if up && job in s.stored then
      t.(stored := s.stored[job := status], publishing := s.publishing + multiset{(job, status)},
         lost := s.lost - {job}, history := s.history + {(job, status)})
    else t
  }

  function Lookup(stored: map<JobId, Status>, job: JobId): Option<Status> {
    if job in stored then Some(stored[job]) else None
  }

  function Apply(s: State, a: Action): State
    requires Enabled(s, a)
  {
    var v := s.server;
    match a
    case Ask(id, user, job) =>
      s.(server := Put(v, id, Stream(user, job, Reading, false, false, false, false, false, false, [], [])))
    case Load(id, up, queued) =>
      var r := v.streams[id];
      var job := if up then Lookup(s.stored, r.job) else None;
      var next := if job.Some? then Loaded(job.value) else if queued then Loaded(Pending) else Refused;
      s.(server := Put(v, id, r.(phase := next)))
    case Open(id, gone) => s.(server := Opened(v, id, gone))
    case Attach(id) => s.(server := Put(v, id, v.streams[id].(attached := true)))
    case Subscription(id) => s.(server := Subscribed(v, id))
    case Reread(id, up) =>
      var r := v.streams[id];
      s.(server := Put(v, id, r.(blind := !up, phase := Judging(if up then Lookup(s.stored, r.job) else None))))
    case Judge(id) => s.(server := Judged(v, id))
    case Deliver(id) => s.(server := Delivered(v, id))
    case Close(id) => s.(server := Left(v, id))
    case Create(job) =>
      s.(stored := s.stored[job := Pending], publishing := s.publishing + multiset{(job, Pending)},
         history := s.history + {(job, Pending)})
    case Write(job, status, up) => Written(s, job, status, up)
    case Remove(job) => s.(stored := s.stored - {job})
    case Publish(job, status) =>
      s.(server := v.(streams := map id | id in v.streams :: Received(v.streams[id], job, status)),
         publishing := s.publishing - multiset{(job, status)})
    case LosePublish(job, status) =>
      s.(publishing := s.publishing - multiset{(job, status)},
         lost := if IsFinished(status) then s.lost + {job} else s.lost)
  }

  ghost predicate Runs(s: State, actions: seq<Action>, end: State)
    decreases |actions|
  {
    if actions == [] then end == s
    else Enabled(s, actions[0]) && Runs(Apply(s, actions[0]), actions[1..], end)
  }

  ghost predicate Reachable(s: State) {
    exists actions :: Runs(INITIAL, actions, s)
  }

  // ----- Each stream by itself

  /** `end` touches its own stream, once. */
  lemma EndedAt(v: Server, id: StreamId)
    requires id in v.streams
    ensures OnlyAt(v, Ended(v, id), id)
    ensures var r := v.streams[id];
            Ended(v, id).streams[id]
              == r.(ended := true, closed := r.closed || (!r.ended && CanUnsubscribe(r.phase)))
  {
  }

  predicate Concludes(line: Line) {
    line.Unavailable? || IsFinished(line.status)
  }

  /** Nothing follows a final status, and a stream that wrote one has ended. */
  predicate OutputOk(r: Stream) {
    forall k :: 0 <= k < |r.output| && Concludes(r.output[k]) ==> k == |r.output| - 1 && r.ended
  }

  predicate StreamOk(r: Stream) {
    && (r.counted <==> !r.phase.Reading? && !r.phase.Loaded? && !r.phase.Refused?)
    && (!r.counted ==> !r.ended && !r.attached && r.output == [])
    && (r.closed ==> r.ended)
    && (r.ended && r.attached ==> r.closed || r.phase.Subscribing?)
    && (CanUnsubscribe(r.phase) ==> r.attached)
    && (r.phase.Returned? ==> r.ended && (r.attached ==> r.closed))
    && (r.inbox != [] ==> r.attached)
    && (r.counted && !r.left ==> r.output != [])
    && (r.ended && !r.left ==> r.output != [] && Concludes(r.output[|r.output| - 1]))
    && (r.output != [] && r.output[|r.output| - 1] == Unavailable ==> r.phase.Returned?)
    && OutputOk(r)
  }

  lemma SentOk(r: Stream, line: Line, ended: bool)
    requires OutputOk(r) && (r.ended ==> ended) && (Concludes(line) ==> ended)
    ensures OutputOk(Sent(r, line).(ended := ended))
  {
  }

  /** Only the stream itself moves. */
  predicate OnlyAt(v: Server, w: Server, id: StreamId) {
    w.streams.Keys == v.streams.Keys && forall j :: j in v.streams && j != id ==> w.streams[j] == v.streams[j]
  }

  lemma OpenedOk(v: Server, id: StreamId, gone: bool)
    requires id in v.streams && v.streams[id].phase.Loaded? && StreamOk(v.streams[id])
    ensures OnlyAt(v, Opened(v, id, gone), id) && StreamOk(Opened(v, id, gone).streams[id])
  {
    var r := v.streams[id];
    SentOk(r, Data(r.phase.first), IsFinished(r.phase.first));
  }

  lemma SubscribedOk(v: Server, id: StreamId)
    requires id in v.streams && v.streams[id].phase.Subscribing? && StreamOk(v.streams[id])
    ensures OnlyAt(v, Subscribed(v, id), id) && StreamOk(Subscribed(v, id).streams[id])
  {
    SentOk(v.streams[id], Unavailable, true);
  }

  lemma JudgedOk(v: Server, id: StreamId)
    requires id in v.streams && v.streams[id].phase.Judging? && StreamOk(v.streams[id])
    ensures OnlyAt(v, Judged(v, id), id) && StreamOk(Judged(v, id).streams[id])
  {
    var r := v.streams[id];
    if r.phase.current.Some? { SentOk(r, Data(r.phase.current.value), r.ended || IsFinished(r.phase.current.value)); }
  }

  lemma DeliveredOk(v: Server, id: StreamId)
    requires id in v.streams && v.streams[id].inbox != [] && StreamOk(v.streams[id])
    ensures OnlyAt(v, Delivered(v, id), id) && StreamOk(Delivered(v, id).streams[id])
  {
    var r := v.streams[id];
    SentOk(r, Data(r.inbox[0]), r.ended || IsFinished(r.inbox[0]));
  }

  lemma LeftOk(v: Server, id: StreamId)
    requires id in v.streams && v.streams[id].counted && StreamOk(v.streams[id])
    ensures OnlyAt(v, Left(v, id), id) && StreamOk(Left(v, id).streams[id])
  {
    EndedAt(Put(v, id, v.streams[id].(left := v.streams[id].left || !v.streams[id].ended)), id);
  }

  lemma StepStream(s: State, a: Action, id: StreamId)
    requires Enabled(s, a) && (At(s, id) ==> StreamOk(s.server.streams[id])) && At(Apply(s, a), id)
    ensures StreamOk(Apply(s, a).server.streams[id])
  {
    var v := s.server;
    match a
    case Open(j, gone) => if j == id { OpenedOk(v, j, gone); }
    case Subscription(j) => if j == id { SubscribedOk(v, j); }
    case Judge(j) => if j == id { JudgedOk(v, j); }
    case Deliver(j) => if j == id { DeliveredOk(v, j); }
    case Close(j) => if j == id { LeftOk(v, j); }
    case Publish(job, status) =>
      if At(s, id) { assert Apply(s, a).server.streams[id] == Received(v.streams[id], job, status); }
    case _ =>
  }

  // ----- Counting

  ghost function Live(v: Server, user: UserId): set<StreamId> {
    set id | id in v.streams && v.streams[id].user == user && v.streams[id].counted && !v.streams[id].ended
  }

  /** The count is the number of unended streams, within the limit; users without streams have no entry. */
  ghost predicate CountOk(v: Server, user: UserId) {
    && Count(v.open, user) == |Live(v, user)| <= MAX_STREAMS_PER_USER
    && (user in v.open ==> v.open[user] > 0)
  }

  lemma EndedCount(v: Server, id: StreamId, user: UserId)
    requires id in v.streams && v.streams[id].counted && CountOk(v, user)
    ensures CountOk(Ended(v, id), user)
  {
    var w, r := Ended(v, id), v.streams[id];
    EndedAt(v, id);
    if r.user == user && !r.ended {
      assert id in Live(v, user);
      assert Live(w, user) == Live(v, user) - {id};
    } else {
      assert Live(w, user) == Live(v, user);
    }
  }

  /** A step of the stream that neither opens nor ends it. */
  lemma PutCount(v: Server, id: StreamId, r: Stream, user: UserId)
    requires CountOk(v, user)
    requires if id in v.streams then
               r.user == v.streams[id].user && r.counted == v.streams[id].counted && r.ended == v.streams[id].ended
             else !r.counted
    ensures CountOk(Put(v, id, r), user)
  {
    assert Live(Put(v, id, r), user) == Live(v, user);
  }

  lemma OpenedCount(v: Server, id: StreamId, gone: bool, user: UserId)
    requires id in v.streams && v.streams[id].phase.Loaded? && StreamOk(v.streams[id]) && CountOk(v, user)
    ensures CountOk(Opened(v, id, gone), user)
  {
    var r := v.streams[id];
    if Count(v.open, r.user) >= MAX_STREAMS_PER_USER {
      PutCount(v, id, r.(phase := Refused), user);
    } else {
      var counted := v.(open := v.open[r.user := Count(v.open, r.user) + 1]);
      var started := r.(counted := true, phase := Returned, left := gone);
      var first := Data(r.phase.first);
      NewCount(v, id, started, user);
      if gone {
        EndedCount(Put(counted, id, started), id, user);
      } else {
        NewCount(v, id, Sent(r.(counted := true), first).(phase := Returned), user);
        if IsFinished(r.phase.first) {
          EndedCount(Put(counted, id, Sent(r.(counted := true), first).(phase := Returned)), id, user);
        } else {
          NewCount(v, id, Sent(r.(counted := true), first).(phase := Subscribing), user);
        }
      }
    }
  }

  lemma NewCount(v: Server, id: StreamId, r: Stream, user: UserId)
    requires id in v.streams && !v.streams[id].counted && r.counted && !r.ended && r.user == v.streams[id].user
    requires CountOk(v, user) && Count(v.open, r.user) < MAX_STREAMS_PER_USER
    ensures CountOk(Put(v.(open := v.open[r.user := Count(v.open, r.user) + 1]), id, r), user)
  {
    var w := Put(v.(open := v.open[r.user := Count(v.open, r.user) + 1]), id, r);
    if r.user == user {
      assert Live(w, user) == Live(v, user) + {id};
    } else {
      assert Live(w, user) == Live(v, user);
    }
  }

  lemma SubscribedCount(v: Server, id: StreamId, user: UserId)
    requires id in v.streams && v.streams[id].phase.Subscribing? && StreamOk(v.streams[id]) && CountOk(v, user)
    ensures CountOk(Subscribed(v, id), user)
  {
    var r := v.streams[id];
    if !r.ended && !r.attached {
      var shown := Sent(r, Unavailable).(phase := Returned);
      PutCount(v, id, shown, user);
      EndedCount(Put(v, id, shown), id, user);
    } else {
      PutCount(v, id, Subscribed(v, id).streams[id], user);
    }
  }

  lemma JudgedCount(v: Server, id: StreamId, user: UserId)
    requires id in v.streams && v.streams[id].phase.Judging? && StreamOk(v.streams[id]) && CountOk(v, user)
    ensures CountOk(Judged(v, id), user)
  {
    var r := v.streams[id];
    if r.phase.current.Some? && IsFinished(r.phase.current.value) {
      var shown := Sent(r, Data(r.phase.current.value)).(phase := Watching);
      PutCount(v, id, shown, user);
      EndedCount(Put(v, id, shown), id, user);
    } else {
      PutCount(v, id, Judged(v, id).streams[id], user);
    }
  }

  lemma DeliveredCount(v: Server, id: StreamId, user: UserId)
    requires id in v.streams && v.streams[id].inbox != [] && StreamOk(v.streams[id]) && CountOk(v, user)
    ensures CountOk(Delivered(v, id), user)
  {
    var r := v.streams[id];
    var popped := r.(inbox := r.inbox[1..]);
    if !r.closed && IsFinished(r.inbox[0]) {
      PutCount(v, id, Sent(popped, Data(r.inbox[0])), user);
      EndedCount(Put(v, id, Sent(popped, Data(r.inbox[0]))), id, user);
    } else {
      PutCount(v, id, Delivered(v, id).streams[id], user);
    }
  }

  lemma LeftCount(v: Server, id: StreamId, user: UserId)
    requires id in v.streams && v.streams[id].counted && CountOk(v, user)
    ensures CountOk(Left(v, id), user)
  {
    var r := v.streams[id].(left := v.streams[id].left || !v.streams[id].ended);
    PutCount(v, id, r, user);
    EndedCount(Put(v, id, r), id, user);
  }

  lemma StepCount(s: State, a: Action, user: UserId)
    requires Enabled(s, a) && CountOk(s.server, user) && forall id :: At(s, id) ==> StreamOk(s.server.streams[id])
    ensures CountOk(Apply(s, a).server, user)
  {
    var v := s.server;
    match a
    case Open(id, gone) => OpenedCount(v, id, gone, user);
    case Close(id) => LeftCount(v, id, user);
    case Subscription(id) => SubscribedCount(v, id, user);
    case Judge(id) => JudgedCount(v, id, user);
    case Deliver(id) => DeliveredCount(v, id, user);
    case _ => OtherCount(s, a, user);
  }

  /** The steps that neither open a stream nor end one. */
  lemma OtherCount(s: State, a: Action, user: UserId)
    requires Enabled(s, a) && CountOk(s.server, user)
    requires !a.Open? && !a.Close? && !a.Subscription? && !a.Judge? && !a.Deliver?
    ensures CountOk(Apply(s, a).server, user)
  {
    var v, w := s.server, Apply(s, a).server;
    match a
    case Publish(_, _) => assert Live(w, user) == Live(v, user);
    case Ask(id, _, _) => PutCount(v, id, w.streams[id], user);
    case Load(id, _, _) => PutCount(v, id, w.streams[id], user);
    case Attach(id) => PutCount(v, id, w.streams[id], user);
    case Reread(id, _) => PutCount(v, id, w.streams[id], user);
    case _ =>
  }

  // ----- A stored final status reaches every waiting stream

  /** A final status of the job is on its way to the stream. */
  ghost predicate Coming(s: State, r: Stream) {
    || (exists status :: IsFinished(status) && (r.job, status) in s.publishing)
    || (exists k :: 0 <= k < |r.inbox| && IsFinished(r.inbox[k]))
  }

  /** Past its second read, without having seen a final status. */
  predicate Waits(r: Stream) {
    && !r.ended && !r.blind
    && match r.phase
       case Watching => true
       case Judging(current) => current.None? || !IsFinished(current.value)
       case _ => false
  }

  predicate FinalStored(s: State, job: JobId) {
    job in s.stored && IsFinished(s.stored[job])
  }

  ghost predicate ToldOk(s: State, id: StreamId) {
    At(s, id) ==>
      var r := s.server.streams[id];
      Waits(r) && r.job !in s.lost && FinalStored(s, r.job) ==> Coming(s, r)
  }

  predicate StaysEnded(r: Stream, q: Stream) {
    r.ended && !r.phase.Loaded? ==> q.ended && q.output == r.output
  }

  /** No stream starts waiting: that takes a second read. */
  predicate Steady(r: Stream, q: Stream) {
    q.job == r.job && q.inbox == r.inbox && q.blind == r.blind && (Waits(q) ==> Waits(r)) && StaysEnded(r, q)
  }

  lemma OpenedSteady(v: Server, id: StreamId, gone: bool)
    requires id in v.streams && v.streams[id].phase.Loaded?
    ensures OnlyAt(v, Opened(v, id, gone), id) && Steady(v.streams[id], Opened(v, id, gone).streams[id])
  {
  }

  lemma SubscribedSteady(v: Server, id: StreamId)
    requires id in v.streams && v.streams[id].phase.Subscribing?
    ensures OnlyAt(v, Subscribed(v, id), id) && Steady(v.streams[id], Subscribed(v, id).streams[id])
  {
  }

  lemma JudgedSteady(v: Server, id: StreamId)
    requires id in v.streams && v.streams[id].phase.Judging?
    ensures OnlyAt(v, Judged(v, id), id) && Steady(v.streams[id], Judged(v, id).streams[id])
  {
    var r := v.streams[id];
    if r.phase.current.Some? { EndedAt(Put(v, id, Sent(r, Data(r.phase.current.value)).(phase := Watching)), id); }
  }

  lemma SteadyTold(s: State, t: State, id: StreamId)
    requires ToldOk(s, id) && At(s, id) && At(t, id) && Steady(s.server.streams[id], t.server.streams[id])
    requires t.stored == s.stored && t.publishing == s.publishing && t.lost == s.lost
    ensures ToldOk(t, id)
  {
  }

  /** The step of some stream's handler or client that takes nothing out of an inbox. */
  predicate Handles(a: Action) {
    a.Ask? || a.Load? || a.Open? || a.Attach? || a.Subscription? || a.Judge? || a.Close?
  }

  lemma StepSteady(s: State, a: Action, id: StreamId)
    requires Enabled(s, a) && Handles(a) && At(s, id)
    ensures At(Apply(s, a), id) && Steady(s.server.streams[id], Apply(s, a).server.streams[id])
  {
    match a
    case Open(j, gone) => OpenedSteady(s.server, j, gone);
    case Subscription(j) => SubscribedSteady(s.server, j);
    case Judge(j) => JudgedSteady(s.server, j);
    case _ =>
  }

  lemma HandlesOnly(s: State, a: Action)
    requires Enabled(s, a) && (Handles(a) || a.Deliver? || a.Reread?)
    ensures Apply(s, a).(server := s.server) == s
  {
  }

  lemma StepTold(s: State, a: Action, id: StreamId)
    requires Enabled(s, a) && ToldOk(s, id) && (At(s, id) ==> StreamOk(s.server.streams[id]))
    ensures ToldOk(Apply(s, a), id)
  {
    if At(s, id) {
      if Handles(a) {
        StepSteady(s, a, id);
        HandlesOnly(s, a);
        SteadyTold(s, Apply(s, a), id);
      } else if a.Deliver? {
        DeliverStep(s, a.id, id);
      } else {
        TrackerTold(s, a, id);
      }
    } else {
      NewTold(s, a, id);
    }
  }

  /** A stream that was just asked for does not wait yet, and is not blind. */
  lemma NewTold(s: State, a: Action, id: StreamId)
    requires Enabled(s, a) && !At(s, id)
    ensures At(Apply(s, a), id) ==> !Waits(Apply(s, a).server.streams[id]) && !Apply(s, a).server.streams[id].blind
  {
  }

  lemma DeliverStep(s: State, j: StreamId, id: StreamId)
    requires Enabled(s, Deliver(j)) && ToldOk(s, id) && At(s, id) && StreamOk(s.server.streams[id])
    ensures ToldOk(Apply(s, Deliver(j)), id)
  {
    if j == id {
      DeliverTold(s, id);
    } else {
      DeliveredStaysEnded(s.server, j);
      HandlesOnly(s, Deliver(j));
      SteadyTold(s, Apply(s, Deliver(j)), id);
    }
  }

  lemma TrackerTold(s: State, a: Action, id: StreamId)
    requires Enabled(s, a) && ToldOk(s, id) && At(s, id) && StreamOk(s.server.streams[id])
    requires !Handles(a) && !a.Deliver?
    ensures ToldOk(Apply(s, a), id)
  {
    var t := Apply(s, a);
    match a
    case Create(_) => assert forall x :: x in s.publishing ==> x in t.publishing;
    case Write(job, status, up) => WriteTold(s, job, status, up, id);
    case Remove(_) =>
    case Reread(j, _) => if j != id { SteadyTold(s, t, id); }
    case Publish(job, status) => PublishTold(s, job, status, id);
    case LosePublish(job, status) => assert forall x :: x in s.publishing && x != (job, status) ==> x in t.publishing;
  }

  lemma WriteTold(s: State, job: JobId, status: Status, up: bool, id: StreamId)
    requires ToldOk(s, id) && At(s, id)
    ensures ToldOk(Written(s, job, status, up), id)
  {
    var t := Written(s, job, status, up);
    assert forall x :: x in s.publishing ==> x in t.publishing;
    assert up && job in s.stored ==> (job, status) in t.publishing;
  }

  lemma PublishTold(s: State, job: JobId, status: Status, id: StreamId)
    requires Enabled(s, Publish(job, status)) && ToldOk(s, id) && At(s, id) && StreamOk(s.server.streams[id])
    ensures ToldOk(Apply(s, Publish(job, status)), id)
  {
    var t := Apply(s, Publish(job, status));
    var r, q := s.server.streams[id], t.server.streams[id];
    assert q == Received(r, job, status);
    if Waits(r) && r.job !in s.lost && FinalStored(s, r.job) {
      if k :| 0 <= k < |r.inbox| && IsFinished(r.inbox[k]) {
        assert q.inbox[k] == r.inbox[k];
      } else {
        var final :| IsFinished(final) && (r.job, final) in s.publishing;
        if (r.job, final) == (job, status) {
          assert q.inbox[|r.inbox|] == final;
        } else {
          assert (r.job, final) in t.publishing;
        }
      }
    }
  }

  lemma DeliverTold(s: State, id: StreamId)
    requires Enabled(s, Deliver(id)) && ToldOk(s, id) && StreamOk(s.server.streams[id])
    ensures ToldOk(Apply(s, Deliver(id)), id)
  {
    var t := Apply(s, Deliver(id));
    var r, q := s.server.streams[id], t.server.streams[id];
    if Waits(q) && q.job !in s.lost && FinalStored(s, q.job) {
      if k :| 0 <= k < |r.inbox| && IsFinished(r.inbox[k]) {
        assert k > 0 && q.inbox[k - 1] == r.inbox[k];
      }
    }
  }

  // ----- What the lines say

  /** What a step of its handler, its client or its listener appends to a stream's output. */
  predicate Appends(r: Stream, q: Stream, lines: seq<Line>) {
    q.output == r.output + lines
  }

  /** An accepted stream starts with the status that was loaded; one whose client is gone, or refused, with nothing. */
  lemma OpenedShows(v: Server, id: StreamId, gone: bool)
    requires id in v.streams && v.streams[id].phase.Loaded? && StreamOk(v.streams[id])
    ensures var r, q := v.streams[id], Opened(v, id, gone).streams[id];
            var accepted := Count(v.open, r.user) < MAX_STREAMS_PER_USER && !gone;
            && q.output == (if accepted then [Data(r.phase.first)] else [])
            && (accepted ==> (q.ended <==> IsFinished(r.phase.first)))
  {
  }

  /**
   * A stream asked for while Redis is up starts with the stored status of its job, and ends at once when
   * that is final. Without an answer or a record, a job in the outbox starts as pending, any other is refused.
   */
  lemma StartsWithTheStored(s: State, id: StreamId, up: bool, queued: bool)
    requires Enabled(s, Load(id, up, queued)) && StreamOk(s.server.streams[id])
    requires Count(s.server.open, s.server.streams[id].user) < MAX_STREAMS_PER_USER
    ensures var job := s.server.streams[id].job;
            var recorded, t := up && job in s.stored, Apply(s, Load(id, up, queued));
            if recorded || queued then
              && Enabled(t, Open(id, false))
              && var q := Apply(t, Open(id, false)).server.streams[id];
                 && q.output == [Data(if recorded then s.stored[job] else Pending)]
                 && (q.ended <==> recorded && FinalStored(s, job))
            else t.server.streams[id].phase == Refused
  {
  }

  /** A listener that is neither closed nor ended shows each update as it comes, and ends after a final one. */
  lemma DeliveredShows(v: Server, id: StreamId)
    requires id in v.streams && v.streams[id].inbox != []
    ensures var r, q := v.streams[id], Delivered(v, id).streams[id];
            && q.inbox == r.inbox[1..]
            && Appends(r, q, if r.closed || r.ended then [] else [Data(r.inbox[0])])
            && (!r.closed && !r.ended ==> (q.ended <==> IsFinished(r.inbox[0])))
  {
  }

  /** The second read is shown exactly when it found the job finished, and then ends the stream. */
  lemma JudgedShows(v: Server, id: StreamId)
    requires id in v.streams && v.streams[id].phase.Judging?
    ensures var r, q := v.streams[id], Judged(v, id).streams[id];
            var finished := r.phase.current.Some? && IsFinished(r.phase.current.value);
            && Appends(r, q, if finished && !r.ended then [Data(r.phase.current.value)] else [])
            && (q.ended <==> r.ended || finished)
  {
  }

  /** A subscription that is not there is reported, and ends the stream. */
  lemma SubscribedShows(v: Server, id: StreamId)
    requires id in v.streams && v.streams[id].phase.Subscribing?
    ensures var r, q := v.streams[id], Subscribed(v, id).streams[id];
            && Appends(r, q, if r.ended || r.attached then [] else [Unavailable])
            && (q.ended <==> r.ended || !r.attached)
  {
  }

  /** The status was stored for the job at some time, or is that of a job still in the outbox. */
  predicate Known(s: State, job: JobId, status: Status) {
    (job, status) in s.history || status == Pending
  }

  /** Everything a stream has read, waits to show, or has shown is true of its job at some time. */
  predicate TrueStream(s: State, r: Stream) {
    && (r.phase.Loaded? ==> Known(s, r.job, r.phase.first))
    && (r.phase.Judging? && r.phase.current.Some? ==> Known(s, r.job, r.phase.current.value))
    && (forall k :: 0 <= k < |r.inbox| ==> Known(s, r.job, r.inbox[k]))
    && (forall k :: 0 <= k < |r.output| && r.output[k].Data? ==> Known(s, r.job, r.output[k].status))
  }

  /** Every stored or published status is in the history. */
  ghost predicate TrueTracker(s: State) {
    && (forall job :: job in s.stored ==> (job, s.stored[job]) in s.history)
    && (forall x :: x in s.publishing ==> x in s.history)
  }

  lemma StepTrueTracker(s: State, a: Action)
    requires Enabled(s, a) && TrueTracker(s)
    ensures TrueTracker(Apply(s, a)) && s.history <= Apply(s, a).history
  {
    var t := Apply(s, a);
    if a.Create? || a.Write? {
      assert forall x :: x in t.publishing ==> x in s.publishing || x in t.history;
    } else {
      assert forall x :: x in t.publishing ==> x in s.publishing;
    }
  }

  lemma SentTrue(s: State, r: Stream, line: Line)
    requires TrueStream(s, r) && (line.Data? ==> Known(s, r.job, line.status))
    ensures TrueStream(s, Sent(r, line))
  {
  }

  lemma TrueLater(s: State, t: State, r: Stream)
    requires TrueStream(s, r) && s.history <= t.history
    ensures TrueStream(t, r)
  {
  }

  lemma StepTrueStream(s: State, a: Action, id: StreamId)
    requires Enabled(s, a) && TrueTracker(s) && (At(s, id) ==> StreamOk(s.server.streams[id]))
    requires At(s, id) ==> TrueStream(s, s.server.streams[id])
    ensures At(Apply(s, a), id) ==> TrueStream(Apply(s, a), Apply(s, a).server.streams[id])
  {
    var t := Apply(s, a);
    if At(s, id) && At(t, id) {
      StepTrueTracker(s, a);
      if a.Open? || a.Subscription? || a.Judge? || a.Deliver? {
        CallbackTrue(s, a, id);
      } else if a.Publish? {
        PublishTrue(s, a.job, a.status, id);
      } else {
        QuietTrue(s, a, id);
      }
      TrueLater(s, t, t.server.streams[id]);
    } else if At(t, id) {
      NewTrue(s, a, id);
    }
  }

  lemma CallbackTrue(s: State, a: Action, id: StreamId)
    requires Enabled(s, a) && (a.Open? || a.Subscription? || a.Judge? || a.Deliver?)
    requires At(s, id) && StreamOk(s.server.streams[id]) && TrueStream(s, s.server.streams[id])
    ensures At(Apply(s, a), id) && TrueStream(s, Apply(s, a).server.streams[id])
  {
    match a
    case Open(j, gone) => OpenedTrue(s, j, gone, id); OpenedSteady(s.server, j, gone);
    case Subscription(j) => SubscribedTrue(s, j, id); SubscribedSteady(s.server, j);
    case Judge(j) => JudgedTrue(s, j, id); JudgedSteady(s.server, j);
    case Deliver(j) => DeliveredTrue(s, j, id); DeliveredSees(s.server, j);
  }

  lemma PublishTrue(s: State, job: JobId, status: Status, id: StreamId)
    requires Enabled(s, Publish(job, status)) && TrueTracker(s) && At(s, id) && TrueStream(s, s.server.streams[id])
    ensures TrueStream(s, Apply(s, Publish(job, status)).server.streams[id])
  {
    assert Apply(s, Publish(job, status)).server.streams[id] == Received(s.server.streams[id], job, status);
  }

  /** The steps that append nothing and wait for nothing new. */
  lemma QuietTrue(s: State, a: Action, id: StreamId)
    requires Enabled(s, a) && TrueTracker(s) && At(s, id) && TrueStream(s, s.server.streams[id])
    requires !a.Open? && !a.Subscription? && !a.Judge? && !a.Deliver? && !a.Publish?
    ensures At(Apply(s, a), id) && TrueStream(s, Apply(s, a).server.streams[id])
  {
  }

  lemma NewTrue(s: State, a: Action, id: StreamId)
    requires Enabled(s, a) && !At(s, id) && At(Apply(s, a), id)
    ensures TrueStream(Apply(s, a), Apply(s, a).server.streams[id])
  {
  }

  lemma OpenedTrue(s: State, j: StreamId, gone: bool, id: StreamId)
    requires Enabled(s, Open(j, gone)) && At(s, id) && TrueStream(s, s.server.streams[id])
    requires StreamOk(s.server.streams[id])
    ensures TrueStream(s, Opened(s.server, j, gone).streams[id])
  {
    OpenedSteady(s.server, j, gone);
    if j == id { OpenedShows(s.server, j, gone); }
  }

  lemma SubscribedTrue(s: State, j: StreamId, id: StreamId)
    requires Enabled(s, Subscription(j)) && At(s, id) && TrueStream(s, s.server.streams[id])
    ensures TrueStream(s, Subscribed(s.server, j).streams[id])
  {
    SubscribedSteady(s.server, j);
    if j == id { SentTrue(s, s.server.streams[id], Unavailable); }
  }

  lemma JudgedTrue(s: State, j: StreamId, id: StreamId)
    requires Enabled(s, Judge(j)) && At(s, id) && TrueStream(s, s.server.streams[id])
    ensures TrueStream(s, Judged(s.server, j).streams[id])
  {
    JudgedSteady(s.server, j);
    if j == id { JudgedShows(s.server, j); }
  }

  lemma DeliveredTrue(s: State, j: StreamId, id: StreamId)
    requires Enabled(s, Deliver(j)) && At(s, id) && TrueStream(s, s.server.streams[id])
    ensures TrueStream(s, Delivered(s.server, j).streams[id])
  {
    DeliveredSees(s.server, j);
    if j == id { DeliveredShows(s.server, j); }
  }

  lemma DeliveredSees(v: Server, id: StreamId)
    requires id in v.streams && v.streams[id].inbox != []
    ensures OnlyAt(v, Delivered(v, id), id) && Delivered(v, id).streams[id].blind == v.streams[id].blind
    ensures Delivered(v, id).streams[id].job == v.streams[id].job
    ensures Delivered(v, id).streams[id].phase == v.streams[id].phase
  {
  }

  // ----- Over whole runs

  ghost predicate Inv(s: State) {
    && (forall id :: At(s, id) ==> StreamOk(s.server.streams[id]))
    && (forall user :: CountOk(s.server, user))
    && (forall id :: ToldOk(s, id))
    && TrueTracker(s) && (forall id :: At(s, id) ==> TrueStream(s, s.server.streams[id]))
  }

  lemma StepInv(s: State, a: Action)
    requires Inv(s) && Enabled(s, a)
    ensures Inv(Apply(s, a))
  {
    var t := Apply(s, a);
    forall id | At(t, id) ensures StreamOk(t.server.streams[id]) { StepStream(s, a, id); }
    forall user ensures CountOk(t.server, user) { StepCount(s, a, user); }
    forall id ensures ToldOk(t, id) { StepTold(s, a, id); }
    StepTrueTracker(s, a);
    forall id | At(t, id) ensures TrueStream(t, t.server.streams[id]) { StepTrueStream(s, a, id); }
  }

  lemma {:induction false} RunKeeps(s: State, actions: seq<Action>, end: State)
    requires Inv(s) && Runs(s, actions, end)
    ensures Inv(end)
    decreases |actions|
  {
    if actions != [] {
      StepInv(s, actions[0]);
      RunKeeps(Apply(s, actions[0]), actions[1..], end);
    }
  }

  lemma InitialInv()
    ensures Inv(INITIAL)
  {
    forall user ensures CountOk(INITIAL.server, user) { assert Live(INITIAL.server, user) == {}; }
  }

  lemma ReachableInv(s: State)
    requires Reachable(s)
    ensures Inv(s)
  {
    InitialInv();
    var actions :| Runs(INITIAL, actions, s);
    RunKeeps(INITIAL, actions, s);
  }

  /** `openStreams` is exactly the number of a user's unended streams, never more than 10. */
  lemma OpenStreamsAreCounted(s: State, user: UserId)
    requires Reachable(s)
    ensures Count(s.server.open, user) == |Live(s.server, user)| <= MAX_STREAMS_PER_USER
    ensures user in s.server.open <==> Live(s.server, user) != {}
  {
    ReachableInv(s);
    assert CountOk(s.server, user);
  }

  /** Once a stream has ended and its handler is over, its listener is closed. */
  lemma EndedStreamsAreClosed(s: State, id: StreamId)
    requires Reachable(s) && At(s, id)
    ensures var r := s.server.streams[id];
            && (r.ended && !r.phase.Subscribing? ==> r.attached ==> r.closed)
            && (r.closed ==> r.ended)
  {
    ReachableInv(s);
  }

  /** A stream shows at most one conclusion, as its last line, and has ended when it did. */
  lemma ConclusionIsLast(s: State, id: StreamId, k: nat)
    requires Reachable(s) && At(s, id) && k < |s.server.streams[id].output| && Concludes(s.server.streams[id].output[k])
    ensures k == |s.server.streams[id].output| - 1 && s.server.streams[id].ended
  {
    ReachableInv(s);
  }

  /** A stream that ended before its client left tells why: its last line is a final status, or a refusal. */
  lemma EndedMeansTold(s: State, id: StreamId)
    requires Reachable(s) && At(s, id) && s.server.streams[id].ended && !s.server.streams[id].left
    ensures var output := s.server.streams[id].output; output != [] && Concludes(output[|output| - 1])
  {
    ReachableInv(s);
  }

  /** Every status a stream shows was stored for its job, or is that of a job waiting in the outbox. */
  lemma LinesAreTrue(s: State, id: StreamId, k: nat)
    requires Reachable(s) && At(s, id) && k < |s.server.streams[id].output|
    requires s.server.streams[id].output[k].Data?
    ensures var status := s.server.streams[id].output[k].status;
            (s.server.streams[id].job, status) in s.history || status == Pending
  {
    ReachableInv(s);
  }

  lemma EndedStays(s: State, a: Action, id: StreamId)
    requires Enabled(s, a) && At(s, id)
    ensures At(Apply(s, a), id) && StaysEnded(s.server.streams[id], Apply(s, a).server.streams[id])
  {
    match a
    case Open(j, gone) => OpenedSteady(s.server, j, gone);
    case Subscription(j) => SubscribedSteady(s.server, j);
    case Judge(j) => JudgedSteady(s.server, j);
    case Deliver(j) => DeliveredStaysEnded(s.server, j);
    case _ =>
  }

  lemma DeliveredStaysEnded(v: Server, id: StreamId)
    requires id in v.streams && v.streams[id].inbox != []
    ensures OnlyAt(v, Delivered(v, id), id) && StaysEnded(v.streams[id], Delivered(v, id).streams[id])
  {
  }

  /** Nothing is written after a stream ended, whatever happens later. */
  lemma {:induction false} NothingAfterTheEnd(s: State, actions: seq<Action>, end: State, id: StreamId)
    requires Inv(s) && Runs(s, actions, end) && At(s, id) && s.server.streams[id].ended
    ensures At(end, id) && end.server.streams[id].ended && end.server.streams[id].output == s.server.streams[id].output
    decreases |actions|
  {
    if actions != [] {
      EndedStays(s, actions[0], id);
      StepInv(s, actions[0]);
      NothingAfterTheEnd(Apply(s, actions[0]), actions[1..], end, id);
    }
  }

  /**
   * No wake-up is lost: while the stored status is final, a stream past a successful second read has
   * ended or a final status is on its way to it, unless the publication of a final status was lost.
   */
  lemma FinalStatusIsNotMissed(s: State, id: StreamId)
    requires Reachable(s) && At(s, id)
    ensures var r := s.server.streams[id];
            Waits(r) && FinalStored(s, r.job) && r.job !in s.lost ==> Coming(s, r)
  {
    ReachableInv(s);
    assert ToldOk(s, id);
  }

  /** With nothing left on the way, every stream of a finished job has ended or is still setting up. */
  lemma QuietMeansTold(s: State, id: StreamId)
    requires Reachable(s) && At(s, id) && s.publishing == multiset{} && s.server.streams[id].inbox == []
    requires FinalStored(s, s.server.streams[id].job) && s.server.streams[id].job !in s.lost
    requires !s.server.streams[id].blind
    ensures s.server.streams[id].phase.Watching? ==> s.server.streams[id].ended
  {
    FinalStatusIsNotMissed(s, id);
  }
}
