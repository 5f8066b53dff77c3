/**
 Recovery of runs: which clock frees a live run, what counts as progress for the stall
 clock, and what one sweep leaves behind.
 */
module RunRecovery {
  import opened Wrappers
  import opened RunModel
  import opened RunInvariants
  import opened RunProtocol

  const QUEUED_STALE_SECONDS := 60

  /** A statement of a claimer or of the sweep that takes the run out of the state it is in. */
  predicate Frees(r: Run, st: Statement, now: Time) {
    match st
    case Claim(owner, lease) => Claimed(r, owner, lease, now).Some?
    case CancelAbandoned => Abandoned(r, now).Some?
    case FailStalled => Stalled(r, now).Some?
    case CloseIdle(idleSeconds) => IdleClosed(r, idleSeconds, now).Some?
    case _ => false
  }

  function Min(a: int, b: int): int { if a < b then a else b }

  /** The moment after which a live run no longer depends on whoever had it. */
  function Deadline(r: Run, idleSeconds: nat, now: Time): Time {
    match r.status
    case Running =>
      Min(if r.leaseExpires.Some? then r.leaseExpires.value else now,
          r.updatedAt + 2 * r.limits.timeoutSeconds)
    case WaitingInput => r.updatedAt + idleSeconds
    case _ => now - 1
  }

  function Rescue(r: Run, owner: Holder, lease: nat, idleSeconds: nat, now: Time): Statement {
    if r.status.Queued? then Claim(owner, lease)
    else if r.status.WaitingInput? then CloseIdle(idleSeconds)
    else if !LeaseExpired(r, now) then FailStalled
    else if r.cancelRequested then CancelAbandoned
    else Claim(owner, lease)
  }

  /**
   No live run can be stranded: in every reachable state, once its clock has passed, a
   claim or a sweep statement matches it. The deadline is never later than the stall
   clock, whatever the lease says.
   */
  lemma {:induction false} NoLiveRunIsStranded(
      mode: Mode, limits: Limits, opening: seq<Message>, made: Time, actions: seq<Action>,
      owner: Holder, lease: nat, idleSeconds: nat, now: Time)
    requires Opening(opening)
    ensures var r := RunOf(Init(mode, limits, opening, made), actions).s.run;
            !r.status.Terminal() && now > Deadline(r, idleSeconds, now) ==>
              && Frees(r, Rescue(r, owner, lease, idleSeconds, now), now)
              && (r.status.Running? ==> Deadline(r, idleSeconds, now) <= r.updatedAt + 2 * limits.timeoutSeconds)
  {
    Reachable(mode, limits, opening, made, actions);
    InitHolds(mode, limits, opening, made);
    ActionsAreMonotone(Init(mode, limits, opening, made), actions);
  }

  // --- The stall clock -------------------------------------------------------

  /** The statement stamps the run it is sent to as having made progress. */
  predicate Stamps(r: Run, st: Statement, now: Time) {
    match st
    case Claim(_, _) => r.status.Queued? && !r.cancelRequested
    case CancelAbandoned => Abandoned(r, now).Some?
    case RequeueStale(olderThan) => Requeued(r, olderThan, now).Some?
    case AppendMessages(_, worker) => Held(r, worker)
    case RecordStep(_, _) => true
    case AddWarning(warning) => warning !in r.warnings
    case Finish(_, worker) => !r.status.Terminal() && Held(r, worker)
    case WaitForInput(worker) => r.status.Running? && Held(r, worker)
    case AddUserMessage(_) => r.status.WaitingInput?
    case RequestCancel => !r.status.Terminal()
    case FailStalled => Stalled(r, now).Some?
    case CloseIdle(idleSeconds) => IdleClosed(r, idleSeconds, now).Some?
    case _ => false
  }

  predicate Moves(y: Sys, a: Action) {
    match a
    case Outside(st) => OutsideMay(st) && Stamps(y.s.run, st, y.now)
    case ApiMessage(_) => y.s.run.status.WaitingInput?
    case WorkerClaims(h, _) => h !in y.pcs && y.s.run.status.Queued? && !y.s.run.cancelRequested
    case WorkerSends(h, st) => h in y.pcs && WorkerMay(h, st) && Stamps(y.s.run, st, y.now)
    case WorkerAppends(h, addition) =>
      ViewOf(y, h).Some? && Added(ViewOf(y, h).value, addition).Some? && HoldsRun(y, h)
    case WorkerSucceeds(h) =>
      && ViewOf(y, h).Some? && AtRest(ViewOf(y, h).value) && y.s.run.mode.Task?
      && HoldsRun(y, h) && !y.s.run.status.Terminal()
    case WorkerParks(h) =>
      && ViewOf(y, h).Some? && AtRest(ViewOf(y, h).value) && y.s.run.mode.Chat?
      && HoldsRun(y, h) && y.s.run.status.Running?
    case _ => false
  }

  lemma StatementStampsIff(s: RunState, st: Statement, now: Time)
    ensures Apply(s, st, now).run.updatedAt == if Stamps(s.run, st, now) then now else s.run.updatedAt
  {
  }

  lemma AppendStampsIff(y: Sys, h: Holder, messages: seq<Message>, next: Pc)
    ensures Append(y, h, messages, next).s.run.updatedAt == if HoldsRun(y, h) then y.now else y.s.run.updatedAt
    ensures Append(y, h, messages, next).now == y.now
  {
  }

  lemma RestMovesIff(y: Sys, a: Action)
    requires a.WorkerSucceeds? || a.WorkerParks?
    ensures Do(y, a).s.run.updatedAt == if Moves(y, a) then y.now else y.s.run.updatedAt
    ensures Do(y, a).now == y.now
  {
  }

  lemma StartMoves(y: Sys, h: Holder, start: StartInput)
    ensures Do(y, WorkerStarts(h, start)).s.run == y.s.run && Do(y, WorkerStarts(h, start)).now == y.now
  {
  }

  lemma DoMovesIff(y: Sys, a: Action)
    ensures Do(y, a).s.run.updatedAt == if Moves(y, a) then y.now else y.s.run.updatedAt
    ensures Do(y, a).now >= y.now
  {
    match a
    case Outside(st) => StatementStampsIff(y.s, st, y.now);
    case ApiMessage(text) => StatementStampsIff(y.s, AddUserMessage(text), y.now);
    case WorkerClaims(h, lease) => StatementStampsIff(y.s, Claim(h, lease), y.now);
    case WorkerSends(h, st) => StatementStampsIff(y.s, st, y.now);
    case WorkerStarts(h, start) => StartMoves(y, h, start);
    case WorkerSucceeds(_) => RestMovesIff(y, a);
    case WorkerParks(_) => RestMovesIff(y, a);
    case WorkerAppends(h, addition) =>
      var view := ViewOf(y, h);
      if view.Some? && Added(view.value, addition).Some? {
        AppendStampsIff(y, h, Added(view.value, addition).value, NextPc(addition));
      }
    case _ =>
  }

  /** Nobody stamps the run all along. */
  predicate Unmoved(y: Sys, actions: seq<Action>)
    decreases |actions|
  {
    actions == [] || (!Moves(y, actions[0]) && Unmoved(Do(y, actions[0]), actions[1..]))
  }

  lemma {:induction false} ClockGoesForward(y: Sys, actions: seq<Action>)
    requires y.s.run.updatedAt <= y.now
    ensures y.s.run.updatedAt <= RunOf(y, actions).s.run.updatedAt <= RunOf(y, actions).now
    decreases |actions|
  {
    if actions != [] {
      DoMovesIff(y, actions[0]);
      ClockGoesForward(Do(y, actions[0]), actions[1..]);
    }
  }

  /**
   Over every run the stall clock stands exactly as long as no action stamps the run, by
   whomever: takeovers, renewals, starts and outcomes of calls, repeated warnings and all
   that the lease refuses leave it where it was. So a run that is still running then can
   be stopped as soon as twice its timeout has passed since the last stamp, and not before.
   */
  lemma {:induction false} ClockStandsIff(y: Sys, actions: seq<Action>)
    requires y.s.run.updatedAt < y.now && Inv(y)
    ensures var z := RunOf(y, actions);
            && (z.s.run.updatedAt == y.s.run.updatedAt <==> Unmoved(y, actions))
            && (Unmoved(y, actions) && z.s.run.status.Running? ==>
                  (Stalled(z.s.run, z.now).Some? <==>
                     z.now > y.s.run.updatedAt + 2 * y.s.run.limits.timeoutSeconds))
    decreases |actions|
  {
    if actions != [] {
      var z := Do(y, actions[0]);
      DoMovesIff(y, actions[0]);
      ClockGoesForward(z, actions[1..]);
      ActionsKeepInv(y, [actions[0]]);
      assert RunOf(y, [actions[0]]) == z;
      DoIsMonotone(y, actions[0]);
      if !Moves(y, actions[0]) { ClockStandsIff(z, actions[1..]); }
    }
  }

  predicate IsWorkers(a: Action, h: Holder) {
    match a
    case WorkerClaims(o, _) => o == h
    case WorkerReads(o) => o == h
    case WorkerLists(o) => o == h
    case WorkerSends(o, _) => o == h
    case WorkerStarts(o, _) => o == h
    case WorkerRuns(o, _) => o == h
    case WorkerAppends(o, _) => o == h
    case WorkerSucceeds(o) => o == h
    case WorkerParks(o) => o == h
    case WorkerStops(o) => o == h
    case _ => false
  }

  /**
   Of all a worker can do to a running run it does not hold, exactly two statements move
   the clock of its holder: counting a step, and a warning the run does not have yet.
   */
  lemma LateWorkerMovesIff(y: Sys, a: Action, h: Holder)
    requires y.s.run.status.Running? && !HoldsRun(y, h) && IsWorkers(a, h)
    ensures Moves(y, a) <==>
            a.WorkerSends? && h in y.pcs &&
            (a.st.RecordStep? || (a.st.AddWarning? && a.st.warning !in y.s.run.warnings))
  {
  }

  /** Nor does anything the API or the sweep may send, but to cancel, to fail or to stop the run. */
  lemma OutsiderMovesIff(y: Sys, st: Statement)
    requires y.s.run.status.Running? && OutsideMay(st)
    ensures Moves(y, Outside(st)) <==>
            || st.RequestCancel? || st.Finish?
            || (st.CancelAbandoned? && y.s.run.cancelRequested && LeaseExpired(y.s.run, y.now))
            || (st.FailStalled? && y.now > y.s.run.updatedAt + 2 * y.s.run.limits.timeoutSeconds)
  {
  }

  /** Asked again, a run that was already asked to stop looks fresh although nothing has changed. */
  lemma RepeatedCancelRestartsTheClock(r: Run, now: Time)
    requires r.cancelRequested && Stalled(r, now).Some?
    ensures CancelAsked(r, now) == Some(r.(updatedAt := now)) && Stalled(r.(updatedAt := now), now).None?
  {
  }

  /** One worker has lost the run to another, which has made no progress for twice the timeout. */
  function StalledUnderAnother(limits: Limits): Sys {
    var y := Do(Do(Init(Task, limits, [User("q", false)], 0), WorkerClaims(1, 60)), Tick(61));
    Do(Do(y, WorkerClaims(2, 60)), Tick(2 * limits.timeoutSeconds))
  }

  /** The first comes back with a step that was refused, counts it, and the run looks fresh. */
  lemma LateStepRestartsTheClock(limits: Limits)
    ensures var y := StalledUnderAnother(limits);
            var z := Do(y, WorkerSends(1, RecordStep(1, 1)));
            && Stalled(y.s.run, y.now).Some? && !HoldsRun(y, 1) && HoldsRun(y, 2)
            && HoldsRun(z, 2) && Stalled(z.s.run, z.now).None? && z.s.messages == y.s.messages
  {
  }

  // --- One sweep -------------------------------------------------------------

  /** A running run whose worker stopped renewing and that may be claimed again. */
  predicate NeedsWorker(r: Run, now: Time) {
    r.status.Running? && LeaseExpired(r, now) && !r.cancelRequested
  }

  /** The two statements a sweep sends in any case end a stalled run exactly when it is abandoned too. */
  lemma CutShortEndsIff(s: RunState, now: Time, later: Time)
    requires Stalled(s.run, now).Some? && now <= later
    ensures var swept := Apply(Apply(s, CancelAbandoned, now), RequeueStale(QUEUED_STALE_SECONDS), later);
            if Abandoned(s.run, now).Some? then swept.run.status.Cancelled?
            else swept == s && Stalled(swept.run, later).Some?
  {
  }

  /**
   An input: of two runs the first needs a worker, and its job is refused. That is the end
   of the sweep, and the second, stalled under a worker that renews its lease, runs on.
   */
  lemma RefusedJobLeavesItStalled(limits: Limits)
    requires limits.timeoutSeconds < 100
    ensures var claimed := Apply(Created(Task, limits, [], 0), Claim(1, 60), 0);
            var renewed := Apply(claimed, RenewLease(1, 60), 240);
            && NeedsWorker(claimed.run, 250) && Stalled(renewed.run, 250).Some?
            && Apply(Apply(renewed, CancelAbandoned, 250), RequeueStale(QUEUED_STALE_SECONDS), 250) == renewed
            && renewed.run.status.Running?
  {
  }

  /** All runs, and the time, at one moment of a sweep. */
  datatype Moment = Moment(time: Time, states: map<string, RunState>)

  ghost predicate Consistent(m: Moment) { forall id <- m.states :: RowInv(m.states[id].run) }

  /** What may be at `later` when `st` was done to every run at `m` and others have acted since. */
  ghost predicate Follows(m: Moment, st: Option<Statement>, later: Moment) {
    && m.time <= later.time && Consistent(m) && Consistent(later)
    && forall id <- m.states ::
         && id in later.states
         && Monotone(if st.Some? then Apply(m.states[id], st.value, m.time) else m.states[id], later.states[id])
  }

  lemma FollowsTrans(a: Moment, st: Option<Statement>, b: Moment, c: Moment)
    requires Follows(a, st, b) && Follows(b, None, c)
    ensures Follows(a, st, c)
  {
    forall id <- a.states
      ensures id in c.states &&
              Monotone(if st.Some? then Apply(a.states[id], st.value, a.time) else a.states[id], c.states[id])
    {
      MonotoneTrans(if st.Some? then Apply(a.states[id], st.value, a.time) else a.states[id],
                    b.states[id], c.states[id]);
    }
  }

  /** A statement sent to every run leaves standing what was there. */
  lemma FollowsGrows(a: Moment, st: Option<Statement>, b: Moment)
    requires Follows(a, st, b)
    ensures Follows(a, None, b)
  {
    if st.Some? {
      forall id <- a.states ensures id in b.states && Monotone(a.states[id], b.states[id]) {
        StatementIsMonotone(a.states[id], st.value, a.time);
        MonotoneTrans(a.states[id], Apply(a.states[id], st.value, a.time), b.states[id]);
      }
    }
  }

  /** The moments of a complete sweep: before each of its five statements, and at its end. */
  ghost predicate Sweeps(m: seq<Moment>, idleSeconds: nat) {
    && |m| == 6
    && Follows(m[0], Some(CancelAbandoned), m[1])
    && Follows(m[1], None, m[2])   // here the expired leases are listed
    && Follows(m[2], Some(RequeueStale(QUEUED_STALE_SECONDS)), m[3])
    && Follows(m[3], Some(FailStalled), m[4])
    && Follows(m[4], Some(CloseIdle(idleSeconds)), m[5])
  }

  /** The queue got exactly the runs without a worker and those queued too long. */
  ghost predicate Queues(m: seq<Moment>, ids: seq<string>)
    requires |m| == 6
  {
    forall id :: id in ids <==>
      || (id in m[1].states && NeedsWorker(m[1].states[id].run, m[1].time))
      || (id in m[2].states && Requeued(m[2].states[id].run, QUEUED_STALE_SECONDS, m[2].time).Some?)
  }

  /** Nobody has done anything to the run that the sweep's tests look at. */
  predicate Untouched(r: Run, r': Run) {
    && r'.status == r.status && r'.cancelRequested == r.cancelRequested
    && r'.leaseExpires == r.leaseExpires && r'.updatedAt == r.updatedAt
  }

  lemma SweepGrows(m: seq<Moment>, idleSeconds: nat)
    requires Sweeps(m, idleSeconds)
    ensures Follows(m[0], None, m[1]) && Follows(m[0], None, m[2])
    ensures Follows(m[0], None, m[3]) && Follows(m[0], None, m[4])
  {
    FollowsGrows(m[0], Some(CancelAbandoned), m[1]);
    FollowsTrans(m[0], None, m[1], m[2]);
    FollowsGrows(m[2], Some(RequeueStale(QUEUED_STALE_SECONDS)), m[3]);
    FollowsTrans(m[0], None, m[2], m[3]);
    FollowsGrows(m[3], Some(FailStalled), m[4]);
    FollowsTrans(m[0], None, m[3], m[4]);
  }

  lemma SweepEnds(m: seq<Moment>, idleSeconds: nat)
    requires Sweeps(m, idleSeconds)
    ensures Follows(m[3], Some(FailStalled), m[5]) && Follows(m[0], Some(CancelAbandoned), m[5])
  {
    SweepGrows(m, idleSeconds);
    FollowsGrows(m[4], Some(CloseIdle(idleSeconds)), m[5]);
    FollowsTrans(m[3], Some(FailStalled), m[4], m[5]);
    FollowsTrans(m[0], Some(CancelAbandoned), m[1], m[2]);
    FollowsGrows(m[2], Some(RequeueStale(QUEUED_STALE_SECONDS)), m[3]);
    FollowsTrans(m[0], Some(CancelAbandoned), m[2], m[3]);
    FollowsGrows(m[3], Some(FailStalled), m[5]);
    FollowsTrans(m[0], Some(CancelAbandoned), m[3], m[5]);
  }

  /** What an ending statement matches has ended that way, whatever comes after. */
  lemma EndedStays(m: Moment, st: Statement, end: Moment, id: string)
    requires Follows(m, Some(st), end) && id in m.states
    ensures id in end.states
    ensures st.CancelAbandoned? && Abandoned(m.states[id].run, m.time).Some? ==> end.states[id].run.status.Cancelled?
    ensures st.FailStalled? && Stalled(m.states[id].run, m.time).Some? ==> end.states[id].run.status.Failed?
    ensures st.CloseIdle? && IdleClosed(m.states[id].run, st.idleSeconds, m.time).Some? ==>
              end.states[id].run.status.Succeeded?
  {
    assert Monotone(Apply(m.states[id], st, m.time), end.states[id]);
  }

  /** A clock that has run out has still run out later, unless somebody has touched the row. */
  lemma OverdueStays(m: Moment, later: Moment, id: string, idleSeconds: nat)
    requires Follows(m, None, later) && id in m.states
    ensures id in later.states
    ensures var r, r' := m.states[id].run, later.states[id].run;
            Untouched(r, r') ==>
              && (NeedsWorker(r, m.time) ==> NeedsWorker(r', later.time))
              && (Requeued(r, QUEUED_STALE_SECONDS, m.time).Some? ==>
                    Requeued(r', QUEUED_STALE_SECONDS, later.time).Some?)
              && (Stalled(r, m.time).Some? ==> Stalled(r', later.time).Some?)
              && (IdleClosed(r, idleSeconds, m.time).Some? ==> IdleClosed(r', idleSeconds, later.time).Some?)
  {
    assert Monotone(m.states[id], later.states[id]);
  }

  lemma SweepEndsAll(m: seq<Moment>, idleSeconds: nat, id: string)
    requires Sweeps(m, idleSeconds) && id in m[0].states
    ensures id in m[3].states && id in m[4].states && id in m[5].states
    ensures var r := m[0].states[id].run;
            var end := m[5].states[id].run;
            && (Abandoned(r, m[0].time).Some? ==> end.status.Cancelled?)
            && (Stalled(r, m[0].time).Some? && Untouched(r, m[3].states[id].run) ==> end.status.Failed?)
            && (IdleClosed(r, idleSeconds, m[0].time).Some? && Untouched(r, m[4].states[id].run) ==>
                 end.status.Succeeded?)
  {
    SweepGrows(m, idleSeconds);
    SweepEnds(m, idleSeconds);
    OverdueStays(m[0], m[3], id, idleSeconds);
    OverdueStays(m[0], m[4], id, idleSeconds);
    EndedStays(m[0], CancelAbandoned, m[5], id);
    EndedStays(m[3], FailStalled, m[5], id);
    EndedStays(m[4], CloseIdle(idleSeconds), m[5], id);
  }

  /**
   A complete sweep deals with every run that was overdue when it began, whatever the
   workers and the API do between its statements: the run is over, or on the queue, or
   somebody else has touched it before the sweep came to it. What a statement has ended
   stays ended.
   */
  lemma SweepLeavesNoneBehind(m: seq<Moment>, ids: seq<string>, idleSeconds: nat, id: string)
    requires Sweeps(m, idleSeconds) && Queues(m, ids) && id in m[0].states
    ensures id in m[1].states && id in m[2].states && id in m[3].states && id in m[4].states && id in m[5].states
    ensures var r := m[0].states[id].run;
            var now := m[0].time;
            var end := m[5].states[id].run;
            && (Abandoned(r, now).Some? ==> end.status.Cancelled?)
            && (NeedsWorker(r, now) && Untouched(r, m[1].states[id].run) ==> id in ids)
            && (Requeued(r, QUEUED_STALE_SECONDS, now).Some? && Untouched(r, m[2].states[id].run) ==> id in ids)
            && (Stalled(r, now).Some? && Untouched(r, m[3].states[id].run) ==> end.status.Failed?)
            && (IdleClosed(r, idleSeconds, now).Some? && Untouched(r, m[4].states[id].run) ==> end.status.Succeeded?)
  {
    SweepGrows(m, idleSeconds);
    OverdueStays(m[0], m[1], id, idleSeconds);
    OverdueStays(m[0], m[2], id, idleSeconds);
    SweepEndsAll(m, idleSeconds, id);
  }
}
