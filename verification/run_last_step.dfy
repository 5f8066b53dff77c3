/**
 The calls of the last step a run is allowed. The worker that took the step never starts
 them; another may, when that worker is gone before it has ended the run. When that can
 happen is said exactly.
 */
module RunLastStep {
  import opened Wrappers
  import opened RunModel
  import opened RunInvariants
  import opened RunProtocol

  /** A start logged since `y`. */
  ghost predicate NewStart(y: Sys, z: Sys, i: int) { |y.log| <= i && StartAt(z.log, i) }

  ghost predicate StartsOneOf(y: Sys, actions: seq<Action>, calls: seq<CallRequest>) {
    exists i :: NewStart(y, RunOf(y, actions), i) && Asked(calls, RunOf(y, actions).log[i].callId)
  }

  predicate Done(y: Sys, h: Holder) { h in y.pcs && (y.pcs[h].Ending? || y.pcs[h].Gone?) }

  lemma DoneStaysDone(y: Sys, a: Action, h: Holder)
    requires Done(y, h)
    ensures Done(Do(y, a), h) && y.log <= Do(y, a).log && |Do(y, a).log| <= |y.log| + 1
    ensures forall i | NewStart(y, Do(y, a), i) :: i == |y.log| && a.WorkerStarts? && Do(y, a).log[i].holder == a.h != h
  {
  }

  /** The worker whose last step asked starts nothing any more, whatever happens. */
  lemma {:induction false} AuthorStartsNothing(y: Sys, h: Holder, actions: seq<Action>)
    requires Done(y, h)
    ensures y.log <= RunOf(y, actions).log
    ensures forall i | NewStart(y, RunOf(y, actions), i) :: RunOf(y, actions).log[i].holder != h
    decreases |actions|
  {
    if actions != [] {
      DoneStaysDone(y, actions[0], h);
      AuthorStartsNothing(Do(y, actions[0]), h, actions[1..]);
    }
  }

  /** A start is logged by the holder of the run, on a transcript it read. */
  lemma OneStart(y: Sys, a: Action)
    ensures y.log <= Do(y, a).log
    ensures forall i | NewStart(y, Do(y, a), i) ::
              && i == |y.log| && a.WorkerStarts? && HoldsRun(y, a.h) && ViewOf(y, a.h).Some?
              && Do(y, a).log[i].holder == a.h && Do(y, a).log[i].callId == a.start.callId
              && Startable(y.s.calls, a.start.callId)
  {
  }

  lemma LostStaysLost(y: Sys, a: Action, h: Holder)
    requires h in y.pcs && !HoldsRun(y, h)
    ensures h in Do(y, a).pcs && !HoldsRun(Do(y, a), h)
  {
  }

  /** A worker that has lost the run starts nothing any more, whatever it is still busy with. */
  lemma {:induction false} LostStartsNothing(y: Sys, h: Holder, actions: seq<Action>)
    requires h in y.pcs && !HoldsRun(y, h)
    ensures y.log <= RunOf(y, actions).log
    ensures forall i | NewStart(y, RunOf(y, actions), i) :: RunOf(y, actions).log[i].holder != h
    decreases |actions|
  {
    if actions != [] {
      var z := Do(y, actions[0]);
      LostStaysLost(y, actions[0], h);
      OneStart(y, actions[0]);
      LostStartsNothing(z, h, actions[1..]);
      forall i | NewStart(y, RunOf(y, actions), i) ensures RunOf(y, actions).log[i].holder != h {
        if i < |z.log| { assert NewStart(y, z, i); }
      }
    }
  }

  // --- Never -----------------------------------------------------------------

  /** Nobody can claim the run, and whoever has it is done with it. */
  ghost predicate Closed(y: Sys) {
    y.s.run.cancelRequested && (y.s.run.leaseOwner.Some? ==> Done(y, y.s.run.leaseOwner.value))
  }

  /** Once a cancel is asked for, nobody takes the run over. */
  lemma CancelKeepsTheOwner(y: Sys, a: Action)
    requires y.s.run.cancelRequested
    ensures Do(y, a).s.run.cancelRequested
    ensures Do(y, a).s.run.leaseOwner.Some? ==> Do(y, a).s.run.leaseOwner == y.s.run.leaseOwner
  {
  }

  lemma ClosedStaysClosed(y: Sys, a: Action)
    requires Closed(y)
    ensures Closed(Do(y, a)) && y.log <= Do(y, a).log
    ensures forall i :: !NewStart(y, Do(y, a), i)
  {
    CancelKeepsTheOwner(y, a);
    OneStart(y, a);
    if y.s.run.leaseOwner.Some? { DoneStaysDone(y, a, y.s.run.leaseOwner.value); }
  }

  lemma {:induction false} ClosedStartsNothing(y: Sys, actions: seq<Action>)
    requires Inv(y) && Closed(y)
    ensures y.log <= RunOf(y, actions).log
    ensures forall i :: !NewStart(y, RunOf(y, actions), i)
    decreases |actions|
  {
    if actions != [] {
      var z := Do(y, actions[0]);
      ClosedStaysClosed(y, actions[0]);
      ActionsKeepInv(y, [actions[0]]);
      assert RunOf(y, [actions[0]]) == z;
      ClosedStartsNothing(z, actions[1..]);
      forall i ensures !NewStart(y, RunOf(y, actions), i) {
        assert NewStart(y, RunOf(y, actions), i) ==> NewStart(y, z, i) || NewStart(z, RunOf(y, actions), i);
      }
    }
  }

  lemma StatementKeepsUnstartable(s: RunState, st: Statement, now: Time, callId: string)
    requires !Startable(s.calls, callId) && st.WellTyped()
    ensures !Startable(Apply(s, st, now).calls, callId)
  {
  }

  lemma UnstartableStays(y: Sys, a: Action, callId: string)
    requires !Startable(y.s.calls, callId)
    ensures !Startable(Do(y, a).s.calls, callId)
  {
    match a
    case Outside(st) => if OutsideMay(st) { StatementKeepsUnstartable(y.s, st, y.now, callId); }
    case WorkerClaims(h, lease) => StatementKeepsUnstartable(y.s, Claim(h, lease), y.now, callId);
    case WorkerSends(h, st) => if WorkerMay(h, st) { StatementKeepsUnstartable(y.s, st, y.now, callId); }
    case WorkerStarts(h, start) => StatementKeepsUnstartable(y.s, StartToolCall(start, Some(h)), y.now, callId);
    case _ =>
  }

  lemma {:induction false} UnstartableNeverStarts(y: Sys, actions: seq<Action>, callId: string)
    requires Inv(y) && !Startable(y.s.calls, callId)
    ensures y.log <= RunOf(y, actions).log
    ensures forall i | NewStart(y, RunOf(y, actions), i) :: RunOf(y, actions).log[i].callId != callId
    decreases |actions|
  {
    if actions != [] {
      var z := Do(y, actions[0]);
      OneStart(y, actions[0]);
      UnstartableStays(y, actions[0], callId);
      ActionsKeepInv(y, [actions[0]]);
      assert RunOf(y, [actions[0]]) == z;
      UnstartableNeverStarts(z, actions[1..], callId);
      forall i | NewStart(y, RunOf(y, actions), i) ensures RunOf(y, actions).log[i].callId != callId {
        if i < |z.log| { assert NewStart(y, z, i); }
      }
    }
  }

  // --- After a crash ---------------------------------------------------------

  /** A name nobody has used. */
  lemma {:induction false} SomeNameIsFree(names: set<Holder>) returns (free: Holder)
    ensures free !in names && forall h <- names :: h < free
    decreases |names|
  {
    if names == {} { return 0; }
    var h :| h in names;
    var other := SomeNameIsFree(names - {h});
    free := if h < other then other else h + 1;
    forall k <- names ensures k < free { assert k == h || k in names - {h}; }
  }

  function ReadOf(callId: string): StartInput { StartInput(callId, 0, "svc.read", Some(Read), Executing, "{}", None) }

  /** Once the lease has lapsed, `b` claims the run, reads, lists and starts. */
  function TakeOver(y: Sys, b: Holder, callId: string): seq<Action> {
    [Tick(if y.s.run.leaseExpires.Some? && y.s.run.leaseExpires.value >= y.now
          then y.s.run.leaseExpires.value - y.now + 1 else 0),
     WorkerClaims(b, 60), WorkerReads(b), WorkerLists(b), WorkerStarts(b, ReadOf(callId))]
  }

  lemma OneMore(y: Sys, a: Action, rest: seq<Action>)
    ensures RunOf(y, [a] + rest) == RunOf(Do(y, a), rest)
  {
    assert ([a] + rest)[1..] == rest;
  }

  lemma ClaimsLapsed(y: Sys, b: Holder)
    requires b !in y.pcs && Claimed(y.s.run, b, 60, y.now).Some?
    ensures var z := Do(y, WorkerClaims(b, 60));
            && HoldsRun(z, b) && z.s.run.status.Running? && b in z.pcs && z.pcs[b].Ready?
            && z.s.messages == y.s.messages && z.s.calls == y.s.calls && z.log == y.log
  {
  }

  lemma ReadsAndLists(y: Sys, b: Holder)
    requires b in y.pcs && y.pcs[b].Ready?
    ensures var z := Do(Do(y, WorkerReads(b)), WorkerLists(b));
            && z.s == y.s && z.now == y.now && z.log == y.log
            && ViewOf(z, b) == Some(y.s.messages) && KnownOf(z, b) == Some(Known(y.s.calls, {}))
  {
  }

  /** A worker that has read and listed starts what the store lets it start. */
  lemma StartsIt(y: Sys, b: Holder, start: StartInput)
    requires ViewOf(y, b) == Some(y.s.messages) && KnownOf(y, b) == Some(Known(y.s.calls, {})) && HoldsRun(y, b)
    requires AsksFor(y.s.messages, start.callId) && Startable(y.s.calls, start.callId)
    requires start.status.Executing? && (start.effect != Some(Read) ==> start.callId !in y.s.calls)
    ensures Do(y, WorkerStarts(b, start)).log == y.log + [StartEvent(start.callId, b, start.effect,
                                                                     y.s.run.status.Terminal())]
    ensures Do(y, WorkerStarts(b, start)).inHand == y.inHand + {|y.log|}
  {
    assert MayStart(y, b, start) && Started(y.s, start, Some(b), y.now).Some?;
  }

  /** A worker that claims a lapsed run starts what its last message asks for and runs it. */
  lemma TakesOver(y: Sys, b: Holder, start: StartInput)
    requires b !in y.pcs && Claimed(y.s.run, b, 60, y.now).Some?
    requires AsksFor(y.s.messages, start.callId) && Startable(y.s.calls, start.callId)
    requires start.status.Executing? && (start.effect != Some(Read) ==> start.callId !in y.s.calls)
    ensures var z := Do(Do(Do(Do(y, WorkerClaims(b, 60)), WorkerReads(b)), WorkerLists(b)), WorkerStarts(b, start));
            && z.log == y.log + [StartEvent(start.callId, b, start.effect, false)]
            && Do(z, WorkerRuns(b, |y.log|)).log == z.log + [RunEvent(|y.log|, b)]
  {
    var claimed := Do(y, WorkerClaims(b, 60));
    ClaimsLapsed(y, b);
    ReadsAndLists(claimed, b);
    StartsIt(Do(Do(claimed, WorkerReads(b)), WorkerLists(b)), b, start);
  }

  lemma TakenOver(y: Sys, b: Holder, callId: string)
    requires LeaseInv(y) && y.s.run.status.Running? && !y.s.run.cancelRequested && b !in y.pcs
    requires AsksFor(y.s.messages, callId) && Startable(y.s.calls, callId)
    ensures var z := RunOf(y, TakeOver(y, b, callId));
            NewStart(y, z, |y.log|) && z.log[|y.log|].callId == callId
  {
    var t := TakeOver(y, b, callId);
    var y1 := Do(y, t[0]);
    var y2 := Do(y1, t[1]);
    var y4 := Do(Do(y2, t[2]), t[3]);
    TakesOver(y1, b, ReadOf(callId));
    assert t == [t[0]] + ([t[1]] + ([t[2]] + ([t[3]] + ([t[4]] + []))));
    OneMore(y, t[0], [t[1]] + ([t[2]] + ([t[3]] + ([t[4]] + []))));
    OneMore(y1, t[1], [t[2]] + ([t[3]] + ([t[4]] + [])));
    OneMore(y2, t[2], [t[3]] + ([t[4]] + []));
    OneMore(Do(y2, t[2]), t[3], [t[4]] + []);
    OneMore(y4, t[4], []);
  }

  /** The state right after a worker that holds the run appended an asking last step. */
  ghost predicate JustAsked(y0: Sys, h: Holder, messages: seq<Message>) {
    && Inv(y0) && HoldsRun(y0, h) && EndsAsking(messages)
    && ViewOf(y0, h).Some? && Added(ViewOf(y0, h).value, ModelStep(messages, true)) == Some(messages)
  }

  /**
   From there on the calls of the last step are started in some continuation exactly when
   nobody has asked to cancel and the store would still start one of them. And whoever
   starts one, it is not the worker that took the step.
   */
  lemma LastStepCallsRunIff(y0: Sys, h: Holder, messages: seq<Message>)
    requires JustAsked(y0, h, messages)
    ensures var y := Do(y0, WorkerAppends(h, ModelStep(messages, true)));
            var calls := messages[|messages| - 1].calls;
            (exists actions :: StartsOneOf(y, actions, calls)) <==>
              !y.s.run.cancelRequested && exists c <- calls :: Startable(y.s.calls, c.callId)
    ensures forall actions, i | NewStart(Do(y0, WorkerAppends(h, ModelStep(messages, true))),
                                         RunOf(Do(y0, WorkerAppends(h, ModelStep(messages, true))), actions), i) ::
              RunOf(Do(y0, WorkerAppends(h, ModelStep(messages, true))), actions).log[i].holder != h
  {
    var a := WorkerAppends(h, ModelStep(messages, true));
    var y := Do(y0, a);
    var calls := messages[|messages| - 1].calls;
    ActionsKeepInv(y0, [a]);
    assert RunOf(y0, [a]) == y;
    assert HoldsRun(y, h) && y.pcs[h].Ending? && y.s.run.status.Running?;
    assert y.s.messages[|y.s.messages| - 1] == messages[|messages| - 1];
    forall actions, i | NewStart(y, RunOf(y, actions), i) ensures RunOf(y, actions).log[i].holder != h {
      AuthorStartsNothing(y, h, actions);
    }
    if exists actions :: StartsOneOf(y, actions, calls) {
      var actions :| StartsOneOf(y, actions, calls);
      var i :| NewStart(y, RunOf(y, actions), i) && Asked(calls, RunOf(y, actions).log[i].callId);
      if y.s.run.cancelRequested {
        ClosedStartsNothing(y, actions);
      }
      var c :| c in calls && c.callId == RunOf(y, actions).log[i].callId;
      if !Startable(y.s.calls, c.callId) {
        UnstartableNeverStarts(y, actions, c.callId);
      }
    }
    if !y.s.run.cancelRequested && exists c <- calls :: Startable(y.s.calls, c.callId) {
      var c :| c in calls && Startable(y.s.calls, c.callId);
      var b := SomeNameIsFree(y.pcs.Keys);
      TakenOver(y, b, c.callId);
      assert StartsOneOf(y, TakeOver(y, b, c.callId), calls);
    }
  }

  const ASKS := [Assistant("", [CallRequest("c1", "write", "{}")])]

  /** A worker told that this is its last step takes it. */
  function Noted(limits: Limits): Sys {
    var y := Do(Init(Task, limits, [User("q", false)], 0), WorkerClaims(1, 60));
    Do(Do(y, WorkerReads(1)), WorkerAppends(1, Note("last step")))
  }

  /** The step asks, and the worker is gone before it has counted it. */
  function Crashed(limits: Limits): Sys {
    Do(Do(Noted(limits), WorkerReads(1)), WorkerAppends(1, ModelStep(ASKS, true)))
  }

  lemma NotedState(limits: Limits)
    ensures var y := Noted(limits);
            && y.pcs == map[1 := Ready] && y.s.messages == [User("q", false), User("last step", true)]
            && y.s.calls == map[] && y.log == [] && y.inHand == {} && y.now == 0 && HoldsRun(y, 1)
            && y.s.run.status.Running? && !y.s.run.cancelRequested && y.s.run.leaseExpires == Some(60)
  {
    assert AwaitsModel([User("q", false)]) && !EndsInNote([User("q", false)]);
  }

  lemma CrashedState(limits: Limits)
    ensures var y := Crashed(limits);
            && y.pcs == map[1 := Ending] && y.s.messages == [User("q", false), User("last step", true)] + ASKS
            && y.s.calls == map[] && y.log == [] && y.inHand == {} && y.now == 0
            && y.s.run.status.Running? && !y.s.run.cancelRequested && y.s.run.leaseExpires == Some(60)
  {
    NotedState(limits);
    assert StepShape(ASKS) && AwaitsModel([User("q", false), User("last step", true)]);
  }

  /** Then another worker runs what the last step asked for, a write. */
  lemma CrashRunsALastStepsCall(limits: Limits)
    ensures
      var y := Do(Crashed(limits), Tick(61));
      var write := StartInput("c1", 2, "svc.write", Some(Write), Executing, "{}", None);
      var z := Do(Do(Do(Do(y, WorkerClaims(2, 60)), WorkerReads(2)), WorkerLists(2)), WorkerStarts(2, write));
      Do(z, WorkerRuns(2, 0)).log == [StartEvent("c1", 2, Some(Write), false), RunEvent(0, 2)]
  {
    var y := Do(Crashed(limits), Tick(61));
    CrashedState(limits);
    assert ASKS[0].calls[0].callId == "c1" && y.s.messages[|y.s.messages| - 1] == ASKS[0];
    TakesOver(y, 2, StartInput("c1", 2, "svc.write", Some(Write), Executing, "{}", None));
  }
}
