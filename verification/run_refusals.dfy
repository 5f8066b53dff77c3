/**
 The ways a worker that holds the run is told it has lost it. In three of them a call is
 left in flight by a worker that lost the run: of a write, its tool is gone or has become a read;
 or its outcome is recorded late, between the listing of the new holder and its start. In
 the fourth the message repeats a call's id and the worker has settled that call itself.
 `RefusedToItsHolderIff` in `ToolCalls` says that these are all.
 */
module RunRefusals {
  import opened Wrappers
  import opened RunModel
  import opened RunProtocol
  import opened RunLastStep
  import opened RunRecovery
  import opened ToolCalls

  const WRITES := StartInput("c1", 1, "svc.write", Some(Write), Executing, "{}", None)

  const READS := WRITES.(toolId := "svc.read", effect := Some(Read))

  /** A worker takes a step that asks for calls, reads it back and lists the rows. */
  function ListedAs(limits: Limits, step: seq<Message>): Sys {
    var y := Do(Do(Init(Task, limits, [User("q", false)], 0), WorkerClaims(1, 60)), WorkerReads(1));
    Do(Do(Do(y, WorkerAppends(1, ModelStep(step, false))), WorkerReads(1)), WorkerLists(1))
  }

  function Listed(limits: Limits): Sys { ListedAs(limits, ASKS) }

  /** It starts the write and is never heard of again; then there is a new holder. */
  function Inherited(limits: Limits): Sys {
    Do(Do(Do(Listed(limits), WorkerStarts(1, WRITES)), Tick(61)), WorkerClaims(2, 60))
  }

  lemma AskedState(limits: Limits, step: seq<Message>)
    requires |step| == 1 && Asks(step[0])
    ensures var y := Do(Do(Init(Task, limits, [User("q", false)], 0), WorkerClaims(1, 60)), WorkerReads(1));
            var z := Do(y, WorkerAppends(1, ModelStep(step, false)));
            && z.pcs == map[1 := Ready] && HoldsRun(z, 1) && z.s.messages == [User("q", false)] + step
            && z.s.calls == map[] && z.now == 0 && z.s.run.leaseExpires == Some(60)
            && z.s.run.status.Running? && !z.s.run.cancelRequested
  {
    assert StepShape(step) && AwaitsModel([User("q", false)]);
  }

  lemma ListedState(limits: Limits, step: seq<Message>)
    requires |step| == 1 && Asks(step[0])
    ensures var y := ListedAs(limits, step);
            && HoldsRun(y, 1) && y.pcs.Keys == {1} && y.s.messages == [User("q", false)] + step
            && ViewOf(y, 1) == Some(y.s.messages) && KnownOf(y, 1) == Some(Known(map[], {}))
            && y.s.calls == map[] && y.now == 0 && y.s.run.leaseExpires == Some(60)
            && y.s.run.status.Running? && !y.s.run.cancelRequested
  {
    AskedState(limits, step);
  }

  /** A first start leaves its row in flight, under its own effect. */
  lemma LeavesItsRow(y: Sys, h: Holder, start: StartInput)
    requires MayStart(y, h, start) && HoldsRun(y, h) && start.callId !in y.s.calls
    ensures var z := Do(y, WorkerStarts(h, start));
            && z.pcs == y.pcs && z.now == y.now && z.s.run == y.s.run && start.callId in z.s.calls
            && z.s.calls[start.callId].status == start.status && z.s.calls[start.callId].effect == start.effect
  {
  }

  lemma MayBegin(y: Sys, step: seq<Message>)
    requires |step| == 1 && Asks(step[0]) && step[0].calls[0].callId == "c1"
    requires ViewOf(y, 1) == Some([User("q", false)] + step) && KnownOf(y, 1) == Some(Known(map[], {}))
    ensures MayStart(y, 1, WRITES) && MayStart(y, 1, READS)
  {
    assert ([User("q", false)] + step)[1] == step[0] && Asked(step[0].calls, "c1");
  }

  lemma InheritedState(limits: Limits)
    ensures var y := Inherited(limits);
            && HoldsRun(y, 2) && y.s.run.status.Running? && "c1" in y.s.calls
            && y.s.calls["c1"].status.Executing? && y.s.calls["c1"].effect == Some(Write)
  {
    ListedState(limits, ASKS);
    MayBegin(Listed(limits), ASKS);
    LeavesItsRow(Listed(limits), 1, WRITES);
    ClaimsLapsed(Do(Do(Listed(limits), WorkerStarts(1, WRITES)), Tick(61)), 2);
  }

  /** The tool is not offered any more: its refusal cannot be recorded, though the run is held. */
  lemma GoneToolIsRefused(limits: Limits, accepts: (string, Json) -> bool, chars: nat)
    ensures var y := Inherited(limits);
            var call := ASKS[0].calls[0];
            var start := StartInput("c1", 1, "write", None, Denied, "{}", Some("UNKNOWN_TOOL"));
            && PlanOf(call, y.s.calls, Offer(map[], accepts, chars)) == DenyUnknown
            && HoldsRun(y, 2) && y.s.run.status.Running? && Started(y.s, start, Some(2), y.now).None?
  {
    InheritedState(limits);
  }

  /** The tool has become a read: it is to be run, and may not be started. */
  lemma ToolTurnedReadIsRefused(limits: Limits, accepts: (string, Json) -> bool, chars: nat)
    requires accepts("write", "{}")
    ensures var y := Inherited(limits);
            var call := ASKS[0].calls[0];
            var tool := Tool("svc.write", Read);
            var start := StartInput("c1", 1, "svc.write", Some(Read), Executing, "{}", None);
            && PlanOf(call, y.s.calls, Offer(map["write" := tool], accepts, chars)) == Execute(tool)
            && HoldsRun(y, 2) && y.s.run.status.Running? && Started(y.s, start, Some(2), y.now).None?
  {
    InheritedState(limits);
  }

  /** It starts a read and loses the run to another worker, which reads and lists the call as in flight. */
  function ListedAgain(limits: Limits): Sys {
    var y := Do(Do(Do(Listed(limits), WorkerStarts(1, READS)), Tick(61)), WorkerClaims(2, 60));
    Do(Do(y, WorkerReads(2)), WorkerLists(2))
  }

  /** Then the first comes back and records what its read has returned. */
  function FinishedLate(limits: Limits): Sys {
    Do(ListedAgain(limits), WorkerSends(1, FinishToolCall("c1", CallOutcome(CallSucceeded, Some("r"), false, None))))
  }

  lemma ListedAgainState(limits: Limits)
    ensures var y := ListedAgain(limits);
            && HoldsRun(y, 2) && y.s.run.status.Running? && 1 in y.pcs && "c1" in y.s.calls
            && y.s.calls["c1"].status.Executing? && y.s.calls["c1"].effect == Some(Read)
            && ViewOf(y, 2) == Some([User("q", false)] + ASKS) && KnownOf(y, 2) == Some(Known(y.s.calls, {}))
  {
    ListedState(limits, ASKS);
    MayBegin(Listed(limits), ASKS);
    LeavesItsRow(Listed(limits), 1, READS);
    StartKeepsMessages(Listed(limits), 1, READS);
    TakenAndListed(Do(Do(Listed(limits), WorkerStarts(1, READS)), Tick(61)), 2);
  }

  lemma StartKeepsMessages(y: Sys, h: Holder, start: StartInput)
    ensures Do(y, WorkerStarts(h, start)).s.messages == y.s.messages
  {
  }

  lemma TakenAndListed(y: Sys, b: Holder)
    requires b !in y.pcs && Claimed(y.s.run, b, 60, y.now).Some?
    ensures var z := Do(Do(Do(y, WorkerClaims(b, 60)), WorkerReads(b)), WorkerLists(b));
            && HoldsRun(z, b) && z.s.run.status.Running? && z.pcs.Keys == y.pcs.Keys + {b}
            && z.s.messages == y.s.messages && z.s.calls == y.s.calls
            && ViewOf(z, b) == Some(y.s.messages) && KnownOf(z, b) == Some(Known(y.s.calls, {}))
  {
    ClaimsLapsed(y, b);
    ReadsAndLists(Do(y, WorkerClaims(b, 60)), b);
  }

  lemma FinishKeepsTheRest(y: Sys, h: Holder, callId: string, outcome: CallOutcome)
    requires h in y.pcs && callId in y.s.calls && y.s.calls[callId].status.Executing? && !outcome.status.Live()
    ensures var z := Do(y, WorkerSends(h, FinishToolCall(callId, outcome)));
            && z.s.run == y.s.run && z.pcs == y.pcs && z.known == y.known && z.now == y.now
            && callId in z.s.calls && z.s.calls[callId].status == outcome.status
  {
  }

  /**
   A late outcome: the new holder may start the read it listed, and is refused. Nothing about
   the tool has changed.
   */
  lemma LateOutcomeIsRefused(limits: Limits, accepts: (string, Json) -> bool, chars: nat)
    requires accepts("write", "{}")
    ensures var y := FinishedLate(limits);
            var tool := Tool("svc.read", Read);
            && 2 in y.known
            && PlanOf(ASKS[0].calls[0], y.known[2].listed, Offer(map["write" := tool], accepts, chars)) == Execute(tool)
            && HoldsRun(y, 2) && y.s.run.status.Running? && MayStart(y, 2, READS)
            && Started(y.s, READS, Some(2), y.now).None?
  {
    ListedAgainState(limits);
    FinishKeepsTheRest(ListedAgain(limits), 1, "c1", CallOutcome(CallSucceeded, Some("r"), false, None));
    assert ASKS[0].calls[0].callId == "c1" && ([User("q", false)] + ASKS)[1] == ASKS[0];
  }

  const TWICE := [Assistant("", [CallRequest("c1", "write", "{}"), CallRequest("c1", "write", "{}")])]

  /** A message repeats an id: the first of the calls is started and recorded. */
  function FirstSettled(limits: Limits): Sys {
    Do(Do(ListedAs(limits, TWICE), WorkerStarts(1, READS)),
       WorkerSends(1, FinishToolCall("c1", CallOutcome(CallSucceeded, Some("r"), false, None))))
  }

  lemma StartKeepsViews(y: Sys, h: Holder, start: StartInput)
    requires h in y.known
    ensures var z := Do(y, WorkerStarts(h, start));
            h in z.known && z.known[h].listed == y.known[h].listed && ViewOf(z, h) == ViewOf(y, h)
  {
  }

  /** The second is planned as its row was listed, and refused. */
  lemma RepeatedIdIsRefused(limits: Limits, accepts: (string, Json) -> bool, chars: nat)
    requires accepts("write", "{}")
    ensures var y := FirstSettled(limits);
            var tool := Tool("svc.read", Read);
            && 1 in y.known
            && PlanOf(TWICE[0].calls[1], y.known[1].listed, Offer(map["write" := tool], accepts, chars)) ==
               Execute(tool)
            && HoldsRun(y, 1) && y.s.run.status.Running? && MayStart(y, 1, READS)
            && Started(y.s, READS, Some(1), y.now).None?
  {
    var y := ListedAs(limits, TWICE);
    ListedState(limits, TWICE);
    MayBegin(y, TWICE);
    LeavesItsRow(y, 1, READS);
    StartKeepsViews(y, 1, READS);
    FinishKeepsTheRest(Do(y, WorkerStarts(1, READS)), 1, "c1", CallOutcome(CallSucceeded, Some("r"), false, None));
    assert TWICE[0].calls[0].callId == "c1" && ([User("q", false)] + TWICE)[1] == TWICE[0];
  }

  // --- How it ends -----------------------------------------------------------

  /** The call's outcome is recorded by this action, whoever sends it. */
  predicate RecordsOutcome(a: Action, callId: string) {
    a.WorkerSends? && a.st.FinishToolCall? && a.st.callId == callId
  }

  lemma SettlingChangesLittle(y: Sys, a: Action, callId: string)
    requires LeaseInv(y) && y.s.run.status.Running? && InFlightUnread(y.s.calls, callId)
    requires SettlesOnly(a) && !RecordsOutcome(a, callId)
    ensures var z := Do(y, a);
            && z.s.run.status.Running? && InFlightUnread(z.s.calls, callId) && z.s.messages == y.s.messages
            && !Moves(y, a) && z.now >= y.now
  {
  }

  /**
   A run whose last message asks for such a write goes nowhere by being taken over and
   settled, by however many workers: as long as nobody records the outcome, the write
   cannot be started, the transcript stands and the clock of the run with it. So the sweep
   can stop the run as soon as twice its timeout has passed since it last made progress.
   */
  lemma {:induction false} SettlingAloneStalls(y: Sys, actions: seq<Action>, callId: string)
    requires Inv(y) && y.s.run.status.Running? && InFlightUnread(y.s.calls, callId)
    requires forall a <- actions :: SettlesOnly(a) && !RecordsOutcome(a, callId)
    ensures var z := RunOf(y, actions);
            && z.s.run.status.Running? && InFlightUnread(z.s.calls, callId) && z.s.messages == y.s.messages
            && z.s.run.updatedAt == y.s.run.updatedAt
            && (Stalled(z.s.run, z.now).Some? <==> z.now > y.s.run.updatedAt + 2 * y.s.run.limits.timeoutSeconds)
    decreases |actions|
  {
    if actions != [] {
      SettlingChangesLittle(y, actions[0], callId);
      DoMovesIff(y, actions[0]);
      DoIsMonotone(y, actions[0]);
      DoKeepsInv(y, actions[0]);
      SettlingAloneStalls(Do(y, actions[0]), actions[1..], callId);
    }
  }
}
