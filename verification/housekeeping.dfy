/** The sweep over all runs: who has no worker gets one, who is past its time is ended. */
module Housekeepings {
  import opened Wrappers
  import opened RunModel
  import opened RunInvariants
  import opened RunStores
  import opened RunRecovery

  class Housekeeping {
    const runs: RunStore
    const idleSeconds: nat
    var enqueued: seq<string>              // jobs put on the queue
    var published: seq<(string, Status)>   // events announced
    ghost var sent: seq<Statement>         // what was sent to every run
    ghost var refusals: nat                // jobs the queue has refused

    constructor (runs: RunStore, idleSeconds: nat)
      ensures this.runs == runs && this.idleSeconds == idleSeconds
      ensures enqueued == [] && published == [] && sent == [] && refusals == 0
    {
      this.runs, this.idleSeconds, enqueued, published := runs, idleSeconds, [], [];
      sent, refusals := [], 0;
    }

    /** Puts a run id on the queue; Redis may refuse it. */
    method Enqueue(id: string) returns (ok: bool)
      modifies this`enqueued, this`refusals
      ensures enqueued == if ok then old(enqueued) + [id] else old(enqueued)
      ensures refusals == old(refusals) + if ok then 0 else 1
    {
      ok := *;
      if ok { enqueued := enqueued + [id]; } else { refusals := refusals + 1; }
    }

    method EnqueueAll(ids: set<string>) returns (ok: bool)
      modifies this`enqueued, this`refusals
      ensures old(enqueued) <= enqueued && refusals == old(refusals) + if ok then 0 else 1
      ensures ok ==> forall id <- ids :: id in enqueued[|old(enqueued)|..]
      ensures forall id <- enqueued[|old(enqueued)|..] :: id in ids
    {
      ghost var n := |enqueued|;
      var rest := ids;
      ok := true;
      while rest != {} && ok
        invariant rest <= ids && old(enqueued) <= enqueued && refusals == old(refusals) + if ok then 0 else 1
        invariant ok ==> forall id <- ids :: id in rest || id in enqueued[n..]
        invariant forall id <- enqueued[n..] :: id in ids
        decreases |rest|, ok
      {
        var id :| id in rest;
        rest := rest - {id};
        ghost var before := enqueued;
        ok := Enqueue(id);
        assert ok ==> enqueued[n..] == before[n..] + [id];
      }
    }

    method PublishAll(ids: set<string>, status: Status)
      modifies this`published
      ensures old(published) <= published
      ensures forall id <- ids :: (id, status) in published[|old(published)|..]
    {
      ghost var n := |published|;
      var rest := ids;
      while rest != {}
        invariant rest <= ids && old(published) <= published
        invariant forall id <- ids :: id in rest || (id, status) in published[n..]
        decreases |rest|
      {
        var id :| id in rest;
        rest := rest - {id};
        ghost var before := published;
        published := published + [(id, status)];
        assert published[n..] == before[n..] + [(id, status)];
      }
    }

    ghost function Now(): Moment
      requires runs.Valid()
      reads runs
    {
      Moment(runs.now, map id <- runs.runs :: runs.State(id))
    }

    /** The workers and the API, for as long as they like. */
    method Others()
      requires runs.Valid() && Consistent(Now())
      modifies runs
      ensures runs.Valid() && Follows(old(Now()), None, Now())
    {
    }

    /** The four statements of a sweep that change rows, in their order. */
    ghost function Statements(): seq<Statement> {
      [CancelAbandoned, RequeueStale(QUEUED_STALE_SECONDS), FailStalled, CloseIdle(idleSeconds)]
    }

    /** Cancels what can only be cancelled and queues again what needs a worker. */
    method Requeue() returns (ok: bool, ghost m1: Moment, ghost m2: Moment)
      requires runs.Valid() && Consistent(Now())
      modifies this`enqueued, this`published, this`sent, this`refusals, runs
      ensures runs.Valid() && old(enqueued) <= enqueued && old(published) <= published
      ensures Follows(old(Now()), Some(CancelAbandoned), m1)
      ensures ok ==> Follows(m1, None, m2) && Follows(m2, Some(RequeueStale(QUEUED_STALE_SECONDS)), Now())
      ensures !ok ==> Follows(m1, None, Now())
      ensures ok <==> refusals == old(refusals)
      ensures ok ==> sent == old(sent) + Statements()[..2]
      ensures !ok ==> sent == old(sent) + Statements()[..1] || sent == old(sent) + Statements()[..2]
      ensures ok ==> forall id :: id in enqueued[|old(enqueued)|..] <==>
                || (id in m1.states && NeedsWorker(m1.states[id].run, m1.time))
                || (id in m2.states && Requeued(m2.states[id].run, QUEUED_STALE_SECONDS, m2.time).Some?)
    {
      ghost var n, m0 := |enqueued|, Now();
      var abandoned := runs.CancelAbandoned();
      PublishAll(abandoned, Cancelled);
      Settle(m0, CancelAbandoned);
      m1 := Now();
      m2 := m1;
      var expired := runs.ExpiredLeases();
      ok := EnqueueAll(expired);
      Others();
      ghost var first := enqueued;
      if ok {
        m2 := Now();
        var stale := runs.RequeueStaleQueued(QUEUED_STALE_SECONDS);
        ok := EnqueueAll(stale);
        assert enqueued[n..] == first[n..] + enqueued[|first|..];
        Settle(m2, RequeueStale(QUEUED_STALE_SECONDS));
        if !ok {
          FollowsGrows(m2, Some(RequeueStale(QUEUED_STALE_SECONDS)), Now());
          FollowsTrans(m1, None, m2, Now());
        }
      }
    }

    /** After a statement that was done to every run at `m`, the others act. */
    method Settle(ghost m: Moment, ghost st: Statement)
      requires runs.Valid() && runs.now == m.time && Consistent(m) && runs.runs.Keys == m.states.Keys
      requires forall id <- m.states :: runs.State(id) == Apply(m.states[id], st, m.time)
      modifies runs, this`sent
      ensures runs.Valid() && Follows(m, Some(st), Now()) && sent == old(sent) + [st]
    {
      sent := sent + [st];
      forall id <- m.states ensures RowInv(runs.State(id).run) { StatementKeepsRowInv(m.states[id], st, m.time); }
      Others();
    }

    /** The two endings of a sweep: of stalled runs, then of idle chats. */
    method StopStalledAndIdle() returns (ghost m4: Moment)
      requires runs.Valid() && Consistent(Now())
      modifies this`published, this`sent, runs
      ensures runs.Valid() && sent == old(sent) + Statements()[2..]
      ensures Follows(old(Now()), Some(FailStalled), m4) && Follows(m4, Some(CloseIdle(idleSeconds)), Now())
    {
      ghost var m3 := Now();
      var stalled := runs.FailStalled();
      PublishAll(stalled, Failed);
      Settle(m3, FailStalled);
      m4 := Now();
      var idle := runs.CloseIdleChats(idleSeconds);
      PublishAll(idle, Succeeded);
      Settle(m4, CloseIdle(idleSeconds));
    }

    /**
     One sweep, with others acting between its statements. Complete, each statement was
     done to every run as it was at that moment, and the queue got exactly the runs that
     need a worker. A queue that refuses a job ends it early: the statements after that
     point, failing stalled runs among them, wait for a later sweep.
     */
    method Sweep() returns (complete: bool, ghost moments: seq<Moment>)
      requires runs.Valid() && Consistent(Now())
      modifies this`enqueued, this`published, this`sent, this`refusals, runs
      ensures runs.Valid() && old(enqueued) <= enqueued
      ensures complete ==>
                && Sweeps(moments, idleSeconds) && moments[0] == old(Now()) && moments[5] == Now()
                && Queues(moments, enqueued[|old(enqueued)|..])
      ensures !complete ==> Follows(old(Now()), Some(CancelAbandoned), Now())
      // Complete exactly when the queue took every job; otherwise no run was failed or closed.
      ensures complete <==> refusals == old(refusals)
      ensures complete ==> sent == old(sent) + Statements()
      ensures !complete ==> sent == old(sent) + Statements()[..1] || sent == old(sent) + Statements()[..2]
    {
      ghost var m0 := Now();
      ghost var m1, m2;
      complete, m1, m2 := Requeue();
      moments := [];
      if complete {
        ghost var m3 := Now();
        ghost var m4 := StopStalledAndIdle();
        moments := [m0, m1, m2, m3, m4, Now()];
      } else {
        FollowsTrans(m0, Some(CancelAbandoned), m1, Now());
      }
    }
  }
}
