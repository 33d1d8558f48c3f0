/**
 * Accepting words in bulk: small batches are saved during the request, larger ones become a job whose
 * journal line and outbox row commit together before the first attempt to publish it.
 */
module ImportAcceptance {
  import opened Prelude
  import P = ImportPipeline

  datatype Kind = Import | AddWords

  /** Smallest batch handed to the worker. */
  function QueueThreshold(kind: Kind): nat {
    match kind
    case Import => 1
    case AddWords => 3
  }

  /**
   * How the surroundings answer one request: the tracker when the record is created and when it is
   * removed, the transaction, the channel, the broker's confirm (which it may send only for a message
   * it stored), the delete of the outbox row, and the direct save with its journal line.
   */
  datatype Surroundings = Surroundings(trackerUp: bool, untracks: bool, commits: bool, channelUp: bool, arrives: bool,
                                       confirmed: bool, removes: bool, saves: bool, journals: bool)

  predicate Possible(env: Surroundings) {
    (env.arrives ==> env.channelUp) && (env.confirmed ==> env.arrives)
  }

  /** The tracker has a record of the job after the request; of a refused one if the removal failed too. */
  predicate Tracked(env: Surroundings) {
    env.trackerUp && (env.commits || !env.untracks)
  }

  datatype Answer = Queued(jobId: P.JobId) | Saved(count: nat) | Threw

  /** A journal line written once the outcome is known. */
  datatype Line = Succeeded(count: nat) | ImportFailed(count: nat)

  class BulkWordsService {
    var tracker: set<P.JobId>
    var running: map<P.JobId, P.Job>  // journal lines of jobs
    var lines: seq<Line>              // the other journal lines
    var outbox: map<P.JobId, P.Job>
    var broker: seq<P.JobId>          // copies the broker stored
    var saved: seq<P.Job>             // batches saved during requests

    constructor ()
      ensures tracker == {} && running == map[] && lines == [] && outbox == map[] && broker == [] && saved == []
    {
      tracker, running, lines, outbox, broker, saved := {}, map[], [], map[], [], [];
    }

    /** One batch. `id` is a fresh identifier. */
    method Add(kind: Kind, job: P.Job, id: P.JobId, env: Surroundings) returns (answer: Answer)
      requires id !in tracker && id !in running && id !in outbox && Possible(env)
      modifies this
      ensures var direct := |job.words| < QueueThreshold(kind);
              && (answer.Queued? <==> !direct && env.commits)
              && (answer.Saved? <==> direct && env.saves)
              && saved == old(saved) + (if answer.Saved? then [job] else [])
              && lines == old(lines) + (if direct && env.journals then
                                          if env.saves then [Succeeded(|job.words|)]
                                          else if kind == Import then [ImportFailed(|job.words|)] else []
                                        else [])
              && (direct ==> outbox == old(outbox) && broker == old(broker))
              && (direct ==> running == old(running) && tracker == old(tracker))
      ensures answer.Queued? ==> answer.jobId == id && (id in outbox || id in broker)
      ensures answer == Threw ==> outbox == old(outbox) && broker == old(broker) && running == old(running)
                                  && saved == old(saved)
      ensures |job.words| >= QueueThreshold(kind) ==> tracker == old(tracker) + if Tracked(env) then {id} else {}
    {
      if |job.words| >= QueueThreshold(kind) {
        answer := Enqueue(job, id, env);
        return;
      }
      if env.saves {
        saved := saved + [job];
        if env.journals { lines := lines + [Succeeded(|job.words|)]; }
        return Saved(|job.words|);
      }
      if kind == Import && env.journals { lines := lines + [ImportFailed(|job.words|)]; }
      return Threw;
    }

    /** Journal and outbox in one transaction, then a first publish; the row goes once it is confirmed. */
    method Enqueue(job: P.Job, id: P.JobId, env: Surroundings) returns (answer: Answer)
      requires id !in tracker && id !in running && id !in outbox && Possible(env)
      modifies this
      ensures lines == old(lines) && saved == old(saved)
      ensures answer == if env.commits then Queued(id) else Threw
      ensures tracker == old(tracker) + if Tracked(env) then {id} else {}
      ensures running == if env.commits then old(running)[id := job] else old(running)
      ensures outbox == if Waits(env) then old(outbox)[id := job] else old(outbox)
      ensures broker == old(broker) + if env.commits && env.arrives then [id] else []
    {
      if env.trackerUp { tracker := tracker + {id}; }
      if !env.commits {
        if env.trackerUp && env.untracks { tracker := tracker - {id}; }
        return Threw;
      }
      running, outbox := running[id := job], outbox[id := job];
      var published := TryPublish(id, env);
      if published && env.removes {
        outbox := outbox - {id};
        assert outbox == old(outbox);
      }
      return Queued(id);
    }

    /** False when the channel is down or the broker did not confirm, though the copy may have arrived. */
    method TryPublish(id: P.JobId, env: Surroundings) returns (published: bool)
      requires Possible(env)
      modifies this`broker
      ensures published == env.confirmed
      ensures broker == old(broker) + if env.arrives then [id] else []
    {
      if !env.channelUp { return false; }
      if env.arrives { broker := broker + [id]; }
      return env.confirmed;
    }
  }

  /** The row stays in the outbox, for the relay. */
  predicate Waits(env: Surroundings) {
    env.commits && !(env.confirmed && env.removes)
  }

  // ----- The same request in the pipeline

  lemma Move(s: P.State, t: P.State, a: P.Action) returns (u: P.State)
    requires (exists actions :: P.Runs(s, actions, t)) && P.Enabled(t, a)
    ensures u == P.Apply(t, a) && exists actions :: P.Runs(s, actions, u)
  {
    var actions :| P.Runs(s, actions, t);
    P.RunThen(s, actions, t, a);
    u := P.Apply(t, a);
  }

  /**
   * A queued request is a run of the pipeline: the job is accepted, its row is left in the outbox
   * exactly when `Enqueue` leaves it, and the copy that arrived waits in the work queue.
   */
  lemma EnqueueIsARun(s: P.State, id: P.JobId, job: P.Job, p: nat, c: nat, env: Surroundings) returns (t: P.State)
    requires id !in s.accepted && id !in s.outbox && p !in s.publishers && c !in s.copies
    requires Possible(env) && env.commits
    ensures exists actions :: P.Runs(s, actions, t)
    ensures t.accepted == s.accepted[id := job]
    ensures t.outbox == s.outbox + if Waits(env) then {id} else {}
    ensures env.arrives ==> c in t.copies && t.copies[c].content == P.Payload(id, job) && t.copies[c].place == P.Work
    ensures id in t.outbox || P.Carries(t, c, id)
  {
    assert P.Runs(s, [], s);
    t := Move(s, s, P.Publishing(P.Accept(id, job)));
    if env.channelUp {
      t := Published(s, t, id, p, c, env);
    }
  }

  lemma Published(s: P.State, accepted: P.State, id: P.JobId, p: nat, c: nat, env: Surroundings) returns (t: P.State)
    requires (exists actions :: P.Runs(s, actions, accepted)) && Possible(env) && env.channelUp && env.commits
    requires id in accepted.accepted && p !in accepted.publishers && c !in accepted.copies
    ensures exists actions :: P.Runs(s, actions, t)
    ensures t.accepted == accepted.accepted
    ensures t.outbox == if Waits(env) then accepted.outbox else accepted.outbox - {id}
    ensures env.arrives ==>
              && c in t.copies && t.copies[c].place == P.Work
              && t.copies[c].content == P.Payload(id, accepted.accepted[id])
  {
    t := Move(s, accepted, P.Publishing(P.Publish(p, c, id)));
    if env.arrives {
      t := Move(s, t, P.Brokering(P.Arrive(c)));
    }
    if env.confirmed {
      t := Move(s, t, P.Publishing(P.Confirm(p)));
      if env.removes {
        t := Move(s, t, P.Publishing(P.RemoveRow(p)));
      }
    }
  }
}
