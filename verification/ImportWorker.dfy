/**
 * One delivery in the import worker: what `handle`, `complete`, `fail` and the retry queue's
 * `reject` do to the message and to the job's tracked status, and how that appears in the pipeline.
 */
module ImportWorker {
  import opened Prelude
  import P = ImportPipeline

  datatype Message = Message(content: P.Content, redelivered: bool, deaths: seq<P.Death>)

  datatype Phase = Gemini | Saving

  /** The status a user sees. */
  datatype Status = Pending | Processing | Retrying | Completed | Failed

  /** A write to the job's tracker record. */
  datatype Update =
    | Started(total: nat)
    | Progress(phase: Phase, current: nat, total: nat)
    | Completed(imported: nat, errors: int, total: nat)
    | Retrying
    | Failed

  /** What becomes of the message. Left unsettled on a closed channel, the broker redelivers it. */
  datatype Fate = Unsettled | Acked | DeadLettered

  /**
   * What the surroundings do during one delivery: the read of `applied_jobs` of a redelivery (which
   * may throw), the progress `addWords` signals, its result and whether the job is recorded as applied
   * when it is over (it may throw all the same), whether the broker confirms a parked copy, and whether
   * the channel is still open when the message is first to be settled or parked (`open`) and after a
   * park (`stillOpen`).
   */
  datatype Surroundings = Surroundings(
    isApplied: Option<bool>, ticks: seq<(Phase, nat)>, added: Option<nat>, recorded: bool, parkConfirmed: bool,
    open: bool, stillOpen: bool)

  predicate Possible(env: Surroundings) {
    && ((env.stillOpen || env.parkConfirmed) ==> env.open)
    && (env.added.Some? ==> env.recorded)
  }

  /** The job's words are saved once the delivery is over. */
  predicate Applied(msg: Message, env: Surroundings) {
    msg.content.Payload? && if msg.redelivered then env.isApplied == Some(true) else env.recorded
  }

  datatype Verdict = Discarded | Finished(imported: nat) | Threw | Failing

  function Judge(msg: Message, env: Surroundings): Verdict {
    if msg.content.Malformed? then Discarded
    else if msg.redelivered then
      match env.isApplied
      case None => Threw
      case Some(applied) => if applied then Finished(|msg.content.job.words|) else Failing
    else match env.added
      case None => Failing
      case Some(count) => Finished(count)
  }

  /** How the delivery is settled. */
  function Settles(msg: Message, env: Surroundings): Fate {
    if !env.open then Unsettled
    else match Judge(msg, env)
      case Discarded => Acked
      case Finished(_) => Acked
      case Threw => DeadLettered
      case Failing =>
        if !P.Exhausted(msg.deaths) then DeadLettered
        else if !env.stillOpen then Unsettled
        else if env.parkConfirmed then Acked else DeadLettered
  }

  function FailedStatus(msg: Message): Update {
    if P.Exhausted(msg.deaths) then Update.Failed else Update.Retrying
  }

  /**
   * The statuses written once the outcome is known. On a closed channel the ack of a first delivery
   * throws inside the same `try` as the save, and the failure is reported after the completion.
   */
  function FinalStatus(msg: Message, env: Surroundings): seq<Update> {
    match Judge(msg, env)
    case Discarded => []
    case Finished(imported) =>
      var total := |msg.content.job.words|;
      [Update.Completed(imported, total - imported, total)]
      + if env.open || msg.redelivered then [] else [FailedStatus(msg)]
    case Threw => []
    case Failing => [FailedStatus(msg)]
  }

  /** Saving progress is published about every 5%. */
  function ReportStep(total: nat): (step: nat)
    ensures step >= 1
  {
    Max(1, total / 20)
  }

  predicate Reported(total: nat, tick: (Phase, nat)) {
    tick.0 == Gemini || tick.1 % ReportStep(total) == 0 || tick.1 == total
  }

  /**
   * Saving progress is shown about every twentieth of the words: at least that often, at most that
   * often until the last word, and always at the last. Gemini's progress is always shown.
   */
  lemma ReportsEveryTwentieth(total: nat, i: nat, j: nat)
    requires 1 <= i < j <= total
    ensures var twentieth := Max(1, total / 20);
            && (exists k :: i <= k < i + twentieth && k <= total && Reported(total, (Saving, k)))
            && (Reported(total, (Saving, i)) && Reported(total, (Saving, j)) && j < total ==> j - i >= twentieth)
    ensures Reported(total, (Saving, total)) && Reported(total, (Gemini, i))
  {
    var step := ReportStep(total);
    var k := NextMultiple(i, step);
    assert Reported(total, (Saving, Min(k, total)));
    if i % step == 0 && j % step == 0 { MultiplesApart(i, j, step); }
  }

  lemma Times(q: int, step: nat)
    ensures q >= 1 ==> q * step >= step
    ensures q <= 0 ==> q * step <= 0
  {
    assert q * step == (q - 1) * step + step;
  }

  /** The multiple at or after `i`. */
  lemma NextMultiple(i: nat, step: nat) returns (k: nat)
    requires step >= 1
    ensures k % step == 0 && i <= k < i + step
  {
    var q, r := i / step, i % step;
    assert i == q * step + r;
    if r == 0 { return i; }
    k := i + step - r;
    assert k == (q + 1) * step;
    ExactMultiple(k, q + 1, step);
  }

  lemma ExactMultiple(k: nat, q: nat, step: nat)
    requires step >= 1 && k == q * step
    ensures k % step == 0
  {
    var p, r := k / step, k % step;
    assert k == p * step + r;
    assert (q - p) * step == r && (p - q) * step == -r;
    Times(q - p, step);
    Times(p - q, step);
  }

  lemma MultiplesApart(i: nat, j: nat, step: nat)
    requires step >= 1 && i < j && i % step == 0 && j % step == 0
    ensures j - i >= step
  {
    var p, q := i / step, j / step;
    assert i == p * step && j == q * step;
    assert (q - p) * step == j - i;
    Times(q - p, step);
  }

  function Reports(total: nat, ticks: seq<(Phase, nat)>): seq<Update> {
    if ticks == [] then []
    else
      var n := |ticks| - 1;
      Reports(total, ticks[..n])
      + (if Reported(total, ticks[n]) then [Progress(ticks[n].0, ticks[n].1, total)] else [])
  }

  /** Every write for the delivery, in order. */
  function Statuses(msg: Message, env: Surroundings): seq<Update> {
    if msg.content.Malformed? || msg.redelivered then FinalStatus(msg, env)
    else
      var total := |msg.content.job.words|;
      [Started(total)] + Reports(total, env.ticks) + FinalStatus(msg, env)
  }

  // ----- What the tracker shows

  function StatusAfter(was: Status, write: Update): Status {
    match write
    case Started(_) => Processing
    case Progress(_, _, _) => was
    case Completed(_, _, _) => Status.Completed
    case Retrying => Status.Retrying
    case Failed => Status.Failed
  }

  /** The status shown after some writes, of which the tracker took those in `taken`. */
  function Shown(was: Status, writes: seq<Update>, taken: seq<bool>): Status
    requires |writes| == |taken|
  {
    if writes == [] then was
    else
      var n := |writes| - 1;
      var before := Shown(was, writes[..n], taken[..n]);
      if taken[n] then StatusAfter(before, writes[n]) else before
  }

  lemma {:induction false} ShownAppend(was: Status, a: seq<Update>, x: seq<bool>, b: seq<Update>, y: seq<bool>)
    requires |a| == |x| && |b| == |y|
    ensures Shown(was, a + b, x + y) == Shown(Shown(was, a, x), b, y)
    decreases |b|
  {
    if b == [] {
      assert a + b == a && x + y == x;
    } else {
      var n := |b| - 1;
      ShownAppend(was, a, x, b[..n], y[..n]);
      assert (a + b)[..|a| + n] == a + b[..n] && (x + y)[..|a| + n] == x + y[..n];
    }
  }

  lemma {:induction false} ReportsShowNothing(was: Status, total: nat, ticks: seq<(Phase, nat)>, taken: seq<bool>)
    requires |taken| == |Reports(total, ticks)|
    ensures Shown(was, Reports(total, ticks), taken) == was
    decreases |ticks|
  {
    if ticks != [] {
      var n := |ticks| - 1;
      var all, before := Reports(total, ticks), Reports(total, ticks[..n]);
      ReportsShowNothing(was, total, ticks[..n], taken[..|before|]);
      if Reported(total, ticks[n]) {
        assert all[..|all| - 1] == before;
      } else {
        assert all == before && taken[..|before|] == taken;
      }
    }
  }

  /** The channel the message was delivered on. Settling on a closed channel throws. */
  class Channel {
    var open: bool
    var fate: Fate
    var failedQueue: seq<P.Content>

    constructor ()
      ensures open && fate == Unsettled && failedQueue == []
    {
      open, fate, failedQueue := true, Unsettled, [];
    }

    method Ack() returns (threw: bool)
      requires fate == Unsettled
      modifies this`fate
      ensures threw <==> !open
      ensures fate == if open then Acked else Unsettled
    {
      if !open { return true; }
      fate := Acked;
      return false;
    }

    method Nack() returns (threw: bool)
      requires fate == Unsettled
      modifies this`fate
      ensures threw <==> !open
      ensures fate == if open then DeadLettered else Unsettled
    {
      if !open { return true; }
      fate := DeadLettered;
      return false;
    }

    /** An unconfirmed copy may be stored all the same; the channel may close meanwhile. */
    method SendToFailedQueue(content: P.Content, confirmed: bool, stored: bool, stillOpen: bool) returns (ok: bool)
      requires (confirmed ==> stored) && (stored || stillOpen ==> open)
      modifies this`failedQueue, this`open
      ensures failedQueue == old(failedQueue) + if stored then [content] else []
      ensures open == stillOpen && ok == confirmed
    {
      if stored { failedQueue := failedQueue + [content]; }
      open := stillOpen;
      return confirmed;
    }

    /** The retry queue's `reject`: the original is acked only once its parked copy is confirmed. */
    method Reject(msg: Message, parkConfirmed: bool, stored: bool, stillOpen: bool) returns (threw: bool)
      requires fate == Unsettled && (parkConfirmed ==> stored) && (stored || stillOpen ==> open)
      modifies this
      ensures fate == if !old(open) || (P.Exhausted(msg.deaths) && !stillOpen) then Unsettled
                      else if P.Exhausted(msg.deaths) && parkConfirmed then Acked else DeadLettered
      ensures failedQueue == old(failedQueue) + if P.Exhausted(msg.deaths) && stored then [msg.content] else []
      ensures threw <==> fate == Unsettled
    {
      if !P.Exhausted(msg.deaths) {
        threw := Nack();
        return;
      }
      var parked := SendToFailedQueue(msg.content, parkConfirmed, stored, stillOpen);
      if !parked {
        threw := Nack();
        return;
      }
      threw := Ack();
    }
  }

  /** The consumer: the writes to the job's record so far, those the tracker took, and the status it shows. */
  class ImportQueueService {
    var statuses: seq<Update>
    var taken: seq<bool>
    var shown: Status
    ghost const was: Status

    ghost predicate Valid()
      reads this
    {
      |taken| == |statuses| && shown == Shown(was, statuses, taken)
    }

    constructor (status: Status)
      ensures Valid() && statuses == [] && shown == status
    {
      statuses, taken, shown, was := [], [], status, status;
    }

    /** `update`: a write is lost when Redis is down or has no record of the job. It never throws. */
    method Track(write: Update)
      requires Valid()
      modifies this
      ensures Valid() && statuses == old(statuses) + [write] && old(taken) <= taken
    {
      var took := *;
      statuses, taken := statuses + [write], taken + [took];
      if took { shown := StatusAfter(shown, write); }
      assert statuses[..|statuses| - 1] == old(statuses) && taken[..|taken| - 1] == old(taken);
    }

    /**
     * The reports already queued are written one at a time, in order, whenever the handler waits for
     * something else: any number of them.
     */
    method RunQueued(queued: seq<Update>) returns (left: seq<Update>)
      requires Valid()
      modifies this
      ensures Valid() && statuses + left == old(statuses) + queued && old(taken) <= taken
    {
      var k :| 0 <= k <= |queued|;
      RunAll(queued[..k]);
      left := queued[k..];
      assert queued[..k] + left == queued;
    }

    method RunAll(queued: seq<Update>)
      requires Valid()
      modifies this
      ensures Valid() && statuses == old(statuses) + queued && old(taken) <= taken
    {
      for i := 0 to |queued|
        invariant Valid() && statuses == old(statuses) + queued[..i] && old(taken) <= taken
      {
        Track(queued[i]);
        assert queued[..i + 1] == queued[..i] + [queued[i]];
      }
      assert queued[..|queued|] == queued;
    }

    /** The reports of the word saving: queued in order, written whenever there is time. */
    method Report(total: nat, ticks: seq<(Phase, nat)>) returns (progress: seq<Update>)
      requires Valid()
      modifies this
      ensures Valid() && statuses + progress == old(statuses) + Reports(total, ticks) && old(taken) <= taken
    {
      progress := [];
      for i := 0 to |ticks|
        invariant Valid() && statuses + progress == old(statuses) + Reports(total, ticks[..i]) && old(taken) <= taken
      {
        var tick := ticks[i];
        ghost var before := statuses + progress;
        assert ticks[..i + 1][..i] == ticks[..i];
        if Reported(total, tick) {
          assert statuses + (progress + [Progress(tick.0, tick.1, total)])
              == before + [Progress(tick.0, tick.1, total)];
          progress := progress + [Progress(tick.0, tick.1, total)];
        }
        progress := RunQueued(progress);
      }
      assert ticks[..|ticks|] == ticks;
    }

    method Complete(total: nat, imported: nat)
      requires Valid()
      modifies this
      ensures Valid() && old(taken) <= taken
      ensures statuses == old(statuses) + [Update.Completed(imported, total - imported, total)]
    {
      Track(Update.Completed(imported, total - imported, total));
    }

    method Fail(msg: Message, ch: Channel, env: Surroundings, stored: bool) returns (threw: bool)
      requires Valid() && AtHand(ch, env, stored)
      modifies this, ch
      ensures Valid() && statuses == old(statuses) + [FailedStatus(msg)] && old(taken) <= taken
      ensures ch.fate == if !env.open || (P.Exhausted(msg.deaths) && !env.stillOpen) then Unsettled
                         else if P.Exhausted(msg.deaths) && env.parkConfirmed then Acked else DeadLettered
      ensures ch.failedQueue == old(ch.failedQueue) + if P.Exhausted(msg.deaths) && stored then [msg.content] else []
    {
      Track(FailedStatus(msg));
      threw := ch.Reject(msg, env.parkConfirmed, stored, env.stillOpen);
    }

    /** The message is not settled yet; a parked copy can be stored only while the channel is open. */
    ghost predicate AtHand(ch: Channel, env: Surroundings, stored: bool)
      reads ch
    {
      && ch.fate == Unsettled && ch.open == env.open && Possible(env)
      && (env.parkConfirmed ==> stored) && (stored ==> env.open)
    }

    /**
     * The message is settled at most once, as `Settles` says, and the writes are the queued reports in
     * order followed by the final ones: no late progress overwrites them. What is thrown goes to the
     * consumer's wrapper, whose nack is lost too on a closed channel.
     */
    method Handle(msg: Message, ch: Channel, env: Surroundings, stored: bool)
      requires Valid() && AtHand(ch, env, stored)
      modifies this, ch
      ensures ch.fate == Settles(msg, env)
      ensures statuses == old(statuses) + Statuses(msg, env)
      ensures Valid() && old(taken) <= taken && |taken| == |old(taken)| + |Statuses(msg, env)|
      ensures shown == Shown(old(shown), Statuses(msg, env), taken[|old(taken)|..])
      ensures ch.failedQueue == old(ch.failedQueue)
        + if Judge(msg, env) == Failing && P.Exhausted(msg.deaths) && stored then [msg.content] else []
    {
      if msg.content.Malformed? {
        var _ := ch.Ack();
      } else if msg.redelivered {
        HandleRedelivery(msg, ch, env, stored);
      } else {
        HandleFirst(msg, ch, env, stored);
      }
      ghost var answers := taken[|old(taken)|..];
      assert taken == old(taken) + answers && |answers| == |Statuses(msg, env)|;
      ShownAppend(was, old(statuses), old(taken), Statuses(msg, env), answers);
    }

    method HandleFirst(msg: Message, ch: Channel, env: Surroundings, stored: bool)
      requires Valid() && msg.content.Payload? && !msg.redelivered && AtHand(ch, env, stored)
      modifies this, ch
      ensures ch.fate == Settles(msg, env)
      ensures Valid() && statuses == old(statuses) + Statuses(msg, env) && old(taken) <= taken
      ensures ch.failedQueue == old(ch.failedQueue)
        + if Judge(msg, env) == Failing && P.Exhausted(msg.deaths) && stored then [msg.content] else []
    {
      var total := |msg.content.job.words|;
      Track(Started(total));
      var progress := Report(total, env.ticks);
      RunAll(progress);
      assert statuses == old(statuses) + ([Started(total)] + Reports(total, env.ticks));
      Conclude(msg, ch, env, stored);
      assert Statuses(msg, env) == [Started(total)] + Reports(total, env.ticks) + FinalStatus(msg, env);
    }

    /** The save, the completion and the ack share one `try`. */
    method Conclude(msg: Message, ch: Channel, env: Surroundings, stored: bool)
      requires Valid() && msg.content.Payload? && !msg.redelivered && AtHand(ch, env, stored)
      modifies this, ch
      ensures ch.fate == Settles(msg, env)
      ensures Valid() && statuses == old(statuses) + FinalStatus(msg, env) && old(taken) <= taken
      ensures ch.failedQueue == old(ch.failedQueue)
        + if Judge(msg, env) == Failing && P.Exhausted(msg.deaths) && stored then [msg.content] else []
    {
      var caught := env.added.None?;
      if !caught {
        Complete(|msg.content.job.words|, env.added.value);
        caught := ch.Ack();
      }
      if caught {
        var _ := Fail(msg, ch, env, stored);
      }
    }

    method HandleRedelivery(msg: Message, ch: Channel, env: Surroundings, stored: bool)
      requires Valid() && msg.content.Payload? && msg.redelivered && AtHand(ch, env, stored)
      modifies this, ch
      ensures ch.fate == Settles(msg, env)
      ensures Valid() && statuses == old(statuses) + Statuses(msg, env) && old(taken) <= taken
      ensures ch.failedQueue == old(ch.failedQueue)
        + if Judge(msg, env) == Failing && P.Exhausted(msg.deaths) && stored then [msg.content] else []
    {
      var total := |msg.content.job.words|;
      match env.isApplied {
        case None => var _ := ch.Nack();  // by the consumer's wrapper
        case Some(applied) =>
          if applied {
            Complete(total, total);
            var _ := ch.Ack();
          } else {
            var _ := Fail(msg, ch, env, stored);
          }
      }
    }
  }

  // ----- What the status tells of the job

  /** `fail` is reached: after a failed save, or on a first delivery whose ack throws. */
  predicate WritesFailure(msg: Message, env: Surroundings) {
    Judge(msg, env) == Failing || (Judge(msg, env).Finished? && !env.open && !msg.redelivered)
  }

  predicate FailureTaken(msg: Message, env: Surroundings, taken: seq<bool>)
    requires |taken| == |Statuses(msg, env)|
  {
    WritesFailure(msg, env) && taken[|taken| - 1]
  }

  predicate CompletionTaken(msg: Message, env: Surroundings, taken: seq<bool>)
    requires |taken| == |Statuses(msg, env)|
  {
    Judge(msg, env).Finished? && taken[|taken| - if WritesFailure(msg, env) then 2 else 1]
  }

  predicate StartTaken(msg: Message, env: Surroundings, taken: seq<bool>)
    requires |taken| == |Statuses(msg, env)|
  {
    msg.content.Payload? && !msg.redelivered && taken[0]
  }

  /** The status shown after a delivery, whichever writes the tracker took. */
  lemma ShownExactly(msg: Message, env: Surroundings, was: Status, taken: seq<bool>)
    requires |taken| == |Statuses(msg, env)|
    ensures Shown(was, Statuses(msg, env), taken)
         == if FailureTaken(msg, env, taken) then
              if P.Exhausted(msg.deaths) then Status.Failed else Status.Retrying
            else if CompletionTaken(msg, env, taken) then Status.Completed
            else if StartTaken(msg, env, taken) then Processing
            else was
  {
    var all, final := Statuses(msg, env), FinalStatus(msg, env);
    if msg.content.Payload? && !msg.redelivered {
      var total := |msg.content.job.words|;
      var reports := Reports(total, env.ticks);
      var k := 1 + |reports|;
      assert all == [Started(total)] + reports + final;
      assert taken == [taken[0]] + taken[1..k] + taken[k..];
      ShownAppend(was, [Started(total)], [taken[0]], reports, taken[1..k]);
      ReportsShowNothing(Shown(was, [Started(total)], [taken[0]]), total, env.ticks, taken[1..k]);
      ShownAppend(was, [Started(total)] + reports, [taken[0]] + taken[1..k], final, taken[k..]);
      ShownFinal(msg, env, Shown(was, [Started(total)], [taken[0]]), taken[k..]);
    } else {
      ShownFinal(msg, env, was, taken);
    }
  }

  lemma ShownFinal(msg: Message, env: Surroundings, was: Status, taken: seq<bool>)
    requires |taken| == |FinalStatus(msg, env)|
    ensures |taken| == (if Judge(msg, env).Finished? then 1 else 0) + (if WritesFailure(msg, env) then 1 else 0)
    ensures Shown(was, FinalStatus(msg, env), taken)
         == if WritesFailure(msg, env) && taken[|taken| - 1] then
              if P.Exhausted(msg.deaths) then Status.Failed else Status.Retrying
            else if Judge(msg, env).Finished? && taken[0] then Status.Completed
            else was
  {
    if |taken| == 2 {
      assert Shown(was, FinalStatus(msg, env)[..1], taken[..1])
          == if taken[0] then Status.Completed else was;
    }
  }

  /**
   * What the status tells: a job that did not show `completed` before the delivery shows it afterwards
   * exactly when the handler saw the words saved, the tracker took the completion, and no failure was
   * written over it, which happens only when the channel closed before the ack of a first delivery.
   * What shows `completed` is saved. The words may be saved unseen.
   */
  lemma StatusTellsFate(msg: Message, env: Surroundings, was: Status, taken: seq<bool>)
    requires |taken| == |Statuses(msg, env)| && Possible(env) && was != Status.Completed
    ensures var shown := Shown(was, Statuses(msg, env), taken);
            && (shown == Status.Completed <==>
                  && Judge(msg, env).Finished?
                  && if !env.open && !msg.redelivered then taken[|taken| - 2] && !taken[|taken| - 1]
                     else taken[|taken| - 1])
            && (shown == Status.Completed ==> Applied(msg, env))
            && (Judge(msg, env) == Failing && taken[|taken| - 1] ==>
                  shown == if P.Exhausted(msg.deaths) then Status.Failed else Status.Retrying)
  {
    ShownExactly(msg, env, was, taken);
  }

  /**
   * Whether a failed job is tried again: a job never rejected shows `retrying` and goes round the retry
   * queue; one rejected before shows `failed` and is parked, if the broker confirms.
   */
  lemma RetriedThenParked(msg: Message, env: Surroundings)
    requires msg.content.Payload? && Judge(msg, env) == Failing && Possible(env)
    ensures Statuses(msg, env) != []
    ensures var last, fate := Statuses(msg, env)[|Statuses(msg, env)| - 1], Settles(msg, env);
            && (P.RetryCount(msg.deaths) == 0 ==>
                  last == Update.Retrying && fate == if env.open then DeadLettered else Unsettled)
            && (P.RetryCount(msg.deaths) >= 1 ==>
                  && last == Update.Failed
                  && fate == if !env.stillOpen then Unsettled
                             else if env.parkConfirmed then Acked else DeadLettered)
  {
    var all := Statuses(msg, env);
    assert all[|all| - 1] == FinalStatus(msg, env)[0];
  }

  /** A message never delivered before has no deaths; one round of the retry queue counts one rejection. */
  lemma FirstAndSecondDelivery()
    ensures P.RetryCount([]) == 0
    ensures P.RetryCount(P.Bury(P.Bury([], P.Process, P.RejectedByConsumer), P.Retry, P.Expired)) == 1
  {
    P.RejectionsCounted([]);
    P.RejectionsCounted(P.Bury([], P.Process, P.RejectedByConsumer));
  }

  /** With the channel open and the message acked, a completion the tracker did not take hides the saved words. */
  lemma OpenChannelMayHide(msg: Message, was: Status) returns (env: Surroundings, taken: seq<bool>)
    requires msg.content.Payload? && !msg.redelivered && was != Status.Completed
    ensures Possible(env) && env.open && Settles(msg, env) == Acked && Applied(msg, env)
    ensures |taken| == |Statuses(msg, env)| && Shown(was, Statuses(msg, env), taken) == Processing
  {
    env := Surroundings(None, [], Some(|msg.content.job.words|), true, false, true, true);
    taken := [true, false];
    ShownExactly(msg, env, was, taken);
  }

  /** A commit the worker does not see: the words are saved, and the job shows a retry or a failure. */
  lemma UnseenCommitShows(msg: Message, was: Status) returns (env: Surroundings, taken: seq<bool>)
    requires msg.content.Payload? && !msg.redelivered
    ensures Possible(env) && env.open && Applied(msg, env) && |taken| == |Statuses(msg, env)|
    ensures Shown(was, Statuses(msg, env), taken)
         == if P.Exhausted(msg.deaths) then Status.Failed else Status.Retrying
  {
    env := Surroundings(None, [], None, true, false, true, true);
    taken := [true, true];
    ShownExactly(msg, env, was, taken);
  }

  // ----- The same delivery in the pipeline

  /** `t` follows `s` by some run in which only handler `h` and its parked copy moved. */
  ghost predicate Follows(s: P.State, t: P.State, h: nat, pc: P.Pc) {
    && (exists actions :: P.Runs(s, actions, t))
    && h in s.handlers && h in t.handlers && t.handlers[h] == s.handlers[h].(pc := pc)
    && s.handlers[h].copy in t.copies && t.copies[s.handlers[h].copy].place == P.InFlight(h)
    && t.accepted == s.accepted
  }

  lemma Move(s: P.State, t: P.State, h: nat, pc: P.Pc, w: P.WorkerStep) returns (u: P.State)
    requires Follows(s, t, h, pc) && P.WorkerEnabled(t, h, w) && w != P.Ack && w != P.Nack
    ensures Follows(s, u, h, P.NextPc(t, h, w)) && u.failed == t.failed
    ensures u.applied == t.applied + if w == P.Commit || w == P.CommitUnseen then {t.handlers[h].content.jobId} else {}
    ensures u.reports == t.reports + if w == P.Complete then [Told(t.handlers[h])] else []
    ensures w == P.Reject && P.Exhausted(t.handlers[h].deaths) ==> h in u.parkWire
  {
    var actions :| P.Runs(s, actions, t);
    P.RunThen(s, actions, t, P.Working(h, w));
    u := P.ApplyWorker(t, h, w);
    P.SavedAfter(t, h, w);
    P.CopiesAfter(t, h, w);
  }

  function Told(m: P.Handler): P.Report
    requires m.pc.Completing? && m.content.Payload?
  {
    P.Report(m.content.jobId, m.pc.count)
  }

  /** Where the fate of a delivery leaves the message; unsettled, it is back in the queue as redelivered. */
  predicate Lands(copy: P.Copy, fate: Fate) {
    match fate
    case Acked => copy.place == P.Settled
    case DeadLettered => copy.place == P.Waiting
    case Unsettled => copy.place == P.Work && copy.redelivered
  }

  lemma LoseChannel(s: P.State, t: P.State, h: nat) returns (u: P.State)
    requires h in s.handlers && s.handlers[h].copy in t.copies
    requires (exists actions :: P.Runs(s, actions, t)) && t.copies[s.handlers[h].copy].place.InFlight?
    ensures exists actions :: P.Runs(s, actions, u)
    ensures s.handlers[h].copy in u.copies && Lands(u.copies[s.handlers[h].copy], Unsettled)
    ensures u == t.(copies := u.copies)
  {
    var actions :| P.Runs(s, actions, t);
    var lost := P.Brokering(P.LoseConsumer(s.handlers[h].copy));
    P.RunThen(s, actions, t, lost);
    u := P.Apply(t, lost);
  }

  /** An ack or a nack, which counts only while the message is in flight to the handler. */
  lemma SettlesCopy(t: P.State, h: nat, w: P.WorkerStep)
    requires P.WorkerEnabled(t, h, w) && (w == P.Ack || w == P.Nack)
    ensures var u, c := P.ApplyWorker(t, h, w), t.handlers[h].copy;
            && c in u.copies
            && (t.copies[c].place == P.InFlight(h) ==> Lands(u.copies[c], if w == P.Ack then Acked else DeadLettered))
            && (t.copies[c].place != P.InFlight(h) ==> u.copies[c] == t.copies[c])
            && u.applied == t.applied && u.failed == t.failed && u.reports == t.reports
  {
    P.CopiesAfter(t, h, w);
    P.SavedAfter(t, h, w);
  }

  /** The last step of a delivery. */
  lemma Settle(s: P.State, t: P.State, h: nat, pc: P.Pc, open: bool) returns (u: P.State)
    requires Follows(s, t, h, pc) && (pc == P.Acking || pc.Nacking?)
    ensures exists actions :: P.Runs(s, actions, u)
    ensures s.handlers[h].copy in u.copies
    ensures Lands(u.copies[s.handlers[h].copy],
                  if !open then Unsettled else if pc == P.Acking then Acked else DeadLettered)
    ensures u.applied == t.applied && u.failed == t.failed && u.reports == t.reports
  {
    var w := if pc == P.Acking then P.Ack else P.Nack;
    var before := t;
    if !open { before := LoseChannel(s, t, h); }
    var actions :| P.Runs(s, actions, before);
    P.RunThen(s, actions, before, P.Working(h, w));
    u := P.ApplyWorker(before, h, w);
    SettlesCopy(before, h, w);
  }

  lemma FailFrom(s: P.State, t: P.State, h: nat, env: Surroundings) returns (u: P.State)
    requires Follows(s, t, h, P.Failing) && Possible(env)
    ensures exists actions :: P.Runs(s, actions, u)
    ensures s.handlers[h].copy in u.copies
    ensures var exhausted := P.Exhausted(s.handlers[h].deaths);
            && Lands(u.copies[s.handlers[h].copy],
                     if !env.open || (exhausted && !env.stillOpen) then Unsettled
                     else if exhausted && env.parkConfirmed then Acked else DeadLettered)
            && (exhausted && env.parkConfirmed ==> h in u.failed && u.failed[h] == s.handlers[h].content)
    ensures u.reports == t.reports && u.applied == t.applied
  {
    u := Move(s, t, h, P.Failing, P.Reject);
    if P.Exhausted(s.handlers[h].deaths) {
      u := ParkFrom(s, u, h, env);
    } else {
      u := Settle(s, u, h, P.Nacking(P.RetryLeft), env.open);
    }
  }

  lemma ParkFrom(s: P.State, t: P.State, h: nat, env: Surroundings) returns (u: P.State)
    requires Follows(s, t, h, P.Parking) && h in t.parkWire && Possible(env)
    ensures exists actions :: P.Runs(s, actions, u)
    ensures s.handlers[h].copy in u.copies
    ensures Lands(u.copies[s.handlers[h].copy],
                  if !env.stillOpen then Unsettled else if env.parkConfirmed then Acked else DeadLettered)
    ensures env.parkConfirmed ==> h in u.failed && u.failed[h] == s.handlers[h].content
    ensures u.reports == t.reports && u.applied == t.applied
  {
    if env.parkConfirmed {
      u := ParkedCopyArrives(s, t, h);
      u := Move(s, u, h, P.Parking, P.ParkConfirmed);
      u := Settle(s, u, h, P.Acking, env.stillOpen);
    } else {
      u := Move(s, t, h, P.Parking, P.ParkNotConfirmed);
      u := Settle(s, u, h, P.Nacking(P.ParkUnconfirmed), env.stillOpen);
    }
  }

  lemma ParkedCopyArrives(s: P.State, t: P.State, h: nat) returns (u: P.State)
    requires Follows(s, t, h, P.Parking) && h in t.parkWire
    ensures Follows(s, u, h, P.Parking) && h in u.failed && u.failed[h] == s.handlers[h].content
    ensures u.applied == t.applied && u.reports == t.reports
  {
    var actions :| P.Runs(s, actions, t);
    P.RunThen(s, actions, t, P.Brokering(P.ParkArrives(h)));
    u := P.ApplyBroker(t, P.ParkArrives(h));
  }

  /** The surroundings of an undisturbed delivery: reads see the tables, and a success saves every word. */
  ghost predicate Undisturbed(s: P.State, content: P.Content, env: Surroundings) {
    content.Payload? ==>
      && (env.isApplied.Some? ==> (env.isApplied.value <==> content.jobId in s.applied))
      && (env.added.Some? ==> env.added.value == |content.job.words|)
      && (content.jobId in s.applied ==> env.recorded)
  }

  /** `t` has the settlement, the effect and the report of the delivery. */
  ghost predicate Results(s: P.State, t: P.State, h: nat, msg: Message, env: Surroundings)
    requires h in s.handlers
  {
    var m := s.handlers[h];
    && (exists actions :: P.Runs(s, actions, t))
    && m.copy in t.copies && Lands(t.copies[m.copy], Settles(msg, env))
    && (m.content.Payload? ==>
          (m.content.jobId in t.applied <==> m.content.jobId in s.applied || Applied(msg, env)))
    && (Judge(msg, env).Finished? ==>
          && m.content.Payload?
          && t.reports == s.reports + [P.Report(m.content.jobId, Judge(msg, env).imported)])
    && (Judge(msg, env) == Failing && P.Exhausted(msg.deaths) && env.parkConfirmed ==>
          h in t.failed && t.failed[h] == m.content)
  }

  /**
   * A delivery nobody else disturbs, on a channel that may close, is a run of the pipeline: it leaves
   * the message where `Handle` leaves it, reports what `Handle` reports, and applies the job exactly as
   * `Applied` says, also when the worker does not see the commit.
   */
  lemma HandleIsARun(s: P.State, h: nat, env: Surroundings) returns (t: P.State)
    requires h in s.handlers && s.handlers[h].pc == P.Begin && Possible(env)
    requires s.handlers[h].copy in s.copies && s.copies[s.handlers[h].copy].place == P.InFlight(h)
    requires Undisturbed(s, s.handlers[h].content, env)
    ensures Results(s, t, h, Delivered(s.handlers[h]), env)
  {
    var m := s.handlers[h];
    assert P.Runs(s, [], s);
    assert m.(pc := P.Begin) == m;
    t := Move(s, s, h, P.Begin, P.Parse);
    if Judged(s, h, env).Finished? {
      t := FinishedRun(s, t, h, env);
    } else if Judged(s, h, env) == Failing {
      t := FailingRun(s, t, h, env);
    } else {
      t := OtherRun(s, t, h, env);
    }
  }

  function Delivered(m: P.Handler): Message {
    Message(m.content, m.redelivered, m.deaths)
  }

  function Judged(s: P.State, h: nat, env: Surroundings): Verdict
    requires h in s.handlers
  {
    Judge(Delivered(s.handlers[h]), env)
  }

  /** Parsed, and nothing else changed. */
  ghost predicate Parsed(s: P.State, t: P.State, h: nat) {
    && h in s.handlers && Follows(s, t, h, P.FirstPc(s.handlers[h].content, s.handlers[h].redelivered))
    && t.applied == s.applied && t.reports == s.reports
  }

  lemma FinishedRun(s: P.State, parsed: P.State, h: nat, env: Surroundings) returns (t: P.State)
    requires Parsed(s, parsed, h) && Undisturbed(s, s.handlers[h].content, env) && Judged(s, h, env).Finished?
    requires Possible(env)
    ensures Results(s, t, h, Delivered(s.handlers[h]), env)
  {
    var m := s.handlers[h];
    t := Saves(s, parsed, h, P.FirstPc(m.content, m.redelivered), env.open);
  }

  lemma FailingRun(s: P.State, parsed: P.State, h: nat, env: Surroundings) returns (t: P.State)
    requires Parsed(s, parsed, h) && Undisturbed(s, s.handlers[h].content, env) && Judged(s, h, env) == Failing
    requires Possible(env)
    ensures Results(s, t, h, Delivered(s.handlers[h]), env)
  {
    t := Fails(s, parsed, h, env);
    t := FailFrom(s, t, h, env);
  }

  /** To the point where the failure is known, with or without a commit. */
  lemma Fails(s: P.State, parsed: P.State, h: nat, env: Surroundings) returns (t: P.State)
    requires Parsed(s, parsed, h) && Undisturbed(s, s.handlers[h].content, env) && Judged(s, h, env) == Failing
    ensures Follows(s, t, h, P.Failing) && t.reports == s.reports
    ensures t.applied
         == s.applied + if Applied(Delivered(s.handlers[h]), env) then {s.handlers[h].content.jobId} else {}
  {
    var m := s.handlers[h];
    if m.redelivered {
      t := Move(s, parsed, h, P.Checking, P.CheckApplied);
    } else if env.recorded && m.content.jobId !in s.applied {
      t := Move(s, parsed, h, P.AddingWords, P.EarlyCheck);
      t := Move(s, t, h, P.Saving(0), P.CommitUnseen);
    } else {
      t := Move(s, parsed, h, P.AddingWords, P.AddThrows);
    }
  }

  lemma OtherRun(s: P.State, parsed: P.State, h: nat, env: Surroundings) returns (t: P.State)
    requires Parsed(s, parsed, h) && (Judged(s, h, env) == Discarded || Judged(s, h, env) == Threw)
    ensures Results(s, t, h, Delivered(s.handlers[h]), env)
  {
    if Judged(s, h, env) == Discarded {
      t := Settle(s, parsed, h, P.Acking, env.open);
    } else {
      t := Move(s, parsed, h, P.Checking, P.CheckThrows);
      t := Settle(s, t, h, P.Nacking(P.HandlerThrew), env.open);
    }
  }

  /** From the first step of a well-formed delivery whose words get saved, or already are. */
  lemma Saves(s: P.State, t: P.State, h: nat, pc: P.Pc, open: bool) returns (u: P.State)
    requires Follows(s, t, h, pc) && s.handlers[h].content.Payload? && t.applied == s.applied
    requires pc == P.AddingWords || (pc == P.Checking && s.handlers[h].content.jobId in s.applied)
    ensures exists actions :: P.Runs(s, actions, u)
    ensures s.handlers[h].copy in u.copies && Lands(u.copies[s.handlers[h].copy], if open then Acked else Unsettled)
    ensures u.applied == t.applied + {s.handlers[h].content.jobId}
    ensures u.reports == t.reports + [P.Report(s.handlers[h].content.jobId, |s.handlers[h].content.job.words|)]
  {
    u := Fills(s, t, h, pc);
    u := Move(s, u, h, P.Completing(|s.handlers[h].content.job.words|), P.Complete);
    u := Settle(s, u, h, P.Acking, open);
  }

  lemma Fills(s: P.State, t: P.State, h: nat, pc: P.Pc) returns (u: P.State)
    requires Follows(s, t, h, pc) && s.handlers[h].content.Payload? && t.applied == s.applied
    requires pc == P.AddingWords || (pc == P.Checking && s.handlers[h].content.jobId in s.applied)
    ensures Follows(s, u, h, P.Completing(|s.handlers[h].content.job.words|)) && u.reports == t.reports
    ensures u.applied == t.applied + {s.handlers[h].content.jobId}
  {
    u := Move(s, t, h, pc, if pc == P.Checking then P.CheckApplied else P.EarlyCheck);
    if s.handlers[h].content.jobId !in s.applied {
      u := Move(s, u, h, P.Saving(0), P.Commit);
    }
  }
}
