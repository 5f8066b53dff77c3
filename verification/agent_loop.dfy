/**
 The run loop, statement by statement, on the store and beside everybody else: before
 each of its statements the others may take any number of protocol steps. What is proved
 of every execution: it is an execution of the protocol, it ends by a lexicographic
 measure, it takes no more model steps than it may, and it never runs what the model
 asked for on the last of them.
 */
module AgentLoops {
  import opened Wrappers
  import opened RunModel
  import opened RunInvariants
  import opened RunProtocol
  import opened RunStores
  import opened ModelView
  import opened ToolCalls

  datatype ProcessOutcome = Finished | Waiting | NotClaimed | LeaseLost

  datatype AbortReason = AskedToCancel | TookOver

  datatype FinishReason = Stop | ToolCalls | Length | Refusal | ModelErrorFinish

  /** A step's messages as the model client hands them over: only the last one asks. */
  type StepMessages = m: seq<Message> | m == [] || StepShape(m)

  /** One model call as the model client reports it. */
  datatype ModelReply =
    | Reply(messages: StepMessages, finish: FinishReason, input: nat, output: nat)
    | CallFailed(code: string, message: string)
    | CallAborted

  /**
   What a drive did: model steps (was it the last allowed one, did it ask) and settlings
   (did it still hold the run when it read what to settle).
   */
  datatype LoopEvent = Modelled(lastStep: bool, asked: bool) | Answered(held: bool)

  function StepCount(events: seq<LoopEvent>): nat {
    if events == [] then 0
    else StepCount(events[..|events| - 1]) + if events[|events| - 1].Modelled? then 1 else 0
  }

  lemma StepCountAppend(events: seq<LoopEvent>, e: LoopEvent)
    ensures StepCount(events + [e]) == StepCount(events) + if e.Modelled? then 1 else 0
  {
    assert (events + [e])[..|events|] == events;
  }

  /** The loop never keeps a partial output. */
  function Failing(code: string, message: string): Outcome { EndFailed(RunError(code, message), None) }

  function Lower(a: nat, b: nat): nat { if a < b then a else b }

  function Lowest(own: Limits, ceilings: Limits): Limits {
    Limits(Lower(own.maxSteps, ceilings.maxSteps), Lower(own.maxTokens, ceilings.maxTokens),
           Lower(own.timeoutSeconds, ceilings.timeoutSeconds), Lower(own.dailyTokens, ceilings.dailyTokens))
  }

  /** Steps and tokens spent before the count begins: none, or what earlier chat turns used. */
  datatype Usage = Usage(steps: nat, tokens: nat)

  function BaseOf(claimed: Run): Usage {
    if claimed.mode.Chat? then Usage(claimed.steps, claimed.inputTokens + claimed.outputTokens) else Usage(0, 0)
  }

  predicate IsLastStep(usedSteps: int, limits: Limits) { usedSteps + 1 >= limits.maxSteps }

  /** How far a transcript is from the next model step; the second part of the measure. */
  function Rank(m: seq<Message>): nat {
    if EndsAsking(m) then 3
    else if AtRest(m) then 0
    else if EndsInNote(m) then 1
    else 2
  }

  lemma AnswerComesCloser(m: seq<Message>, results: Message)
    requires EndsAsking(m) && results.ToolMessage?
    ensures Rank(m + [results]) < Rank(m)
  {
  }

  lemma NoteComesCloser(m: seq<Message>, text: string)
    requires AwaitsModel(m) && !EndsInNote(m)
    ensures Rank(m + [User(text, true)]) < Rank(m)
  {
  }

  function StepsLeft(usedSteps: int, limits: Limits): nat {
    if usedSteps < limits.maxSteps then limits.maxSteps - usedSteps else 0
  }

  /** What a drive promises of the events it went through. */
  ghost predicate Bounded(events: seq<LoopEvent>, most: nat) {
    && StepCount(events) <= most
    && forall i | 0 <= i < |events| :: events[i] == Modelled(true, true) ==> i == |events| - 1
  }

  /** The same while the drive goes on: `first` steps when claimed, `steps` by now. */
  ghost predicate Going(events: seq<LoopEvent>, first: nat, steps: nat, most: nat) {
    && first + StepCount(events) <= steps && StepCount(events) <= most
    && forall i | 0 <= i < |events| :: events[i] != Modelled(true, true)
  }

  /** A model step is taken only while there are steps left. */
  predicate Counts(event: Option<LoopEvent>, usedSteps: int, limits: Limits) {
    event.Some? && event.value.Modelled? ==> usedSteps < limits.maxSteps
  }

  function Noted(events: seq<LoopEvent>, event: Option<LoopEvent>): seq<LoopEvent> {
    if event.Some? then events + [event.value] else events
  }

  /** The last thing was to ask on the last step allowed. */
  ghost predicate EndsAskingLast(events: seq<LoopEvent>) {
    events != [] && events[|events| - 1] == Modelled(true, true)
  }

  /** After `events` a transcript is to be answered that was `opening` when the drive began. */
  predicate Due(opening: seq<Message>, events: seq<LoopEvent>) {
    if events == [] then EndsAsking(opening) else events[|events| - 1] == Modelled(false, true)
  }

  /** Calls are settled by their holder only as found at first, or after a step before the last that asked. */
  ghost predicate Ordered(opening: seq<Message>, events: seq<LoopEvent>) {
    forall i | 0 <= i < |events| && events[i] == Answered(true) :: Due(opening, events[..i])
  }

  lemma OrderedNext(opening: seq<Message>, events: seq<LoopEvent>, event: Option<LoopEvent>)
    requires Ordered(opening, events) && (event == Some(Answered(true)) ==> Due(opening, events))
    ensures Ordered(opening, Noted(events, event))
    ensures event.Some? ==> (Due(opening, Noted(events, event)) <==> event == Some(Modelled(false, true)))
  {
    var after := Noted(events, event);
    assert after[..|events|] == events;
    forall i | 0 <= i < |after| && after[i] == Answered(true) ensures Due(opening, after[..i]) {
      if i < |events| { assert after[..i] == events[..i]; }
    }
  }

  lemma TurnKeepsBound(events: seq<LoopEvent>, event: Option<LoopEvent>, first: nat, steps: nat, later: nat,
                       base: nat, limits: Limits)
    requires Going(events, first, steps, StepsLeft(first - base, limits)) && Counts(event, steps - base, limits)
    ensures Bounded(Noted(events, event), StepsLeft(first - base, limits))
    ensures event != Some(Modelled(true, true)) &&
            steps + (if event.Some? && event.value.Modelled? then 1 else 0) <= later ==>
              Going(Noted(events, event), first, later, StepsLeft(first - base, limits))
    ensures EndsAskingLast(Noted(events, event)) ==> event == Some(Modelled(true, true))
  {
    if event.Some? { StepCountAppend(events, event.value); }
  }

  /** All four limits hold: steps, tokens, time and the day's tokens. */
  ghost predicate Within(r: Run, base: Usage, limits: Limits, elapsed: int, today: nat) {
    && r.steps - base.steps < limits.maxSteps && r.inputTokens + r.outputTokens - base.tokens < limits.maxTokens
    && elapsed < limits.timeoutSeconds && today < limits.dailyTokens
  }

  /** The limit a code names is the one that does not. */
  ghost predicate Exceeded(code: string, r: Run, base: Usage, limits: Limits, elapsed: int, today: nat) {
    || (code == "STEP_LIMIT" && r.steps - base.steps >= limits.maxSteps)
    || (code == "BUDGET_EXCEEDED" && r.inputTokens + r.outputTokens - base.tokens >= limits.maxTokens)
    || (code == "TIMEOUT" && elapsed >= limits.timeoutSeconds)
    || (code == "DAILY_LIMIT" && today >= limits.dailyTokens)
  }

  /** The first limit that is reached, as the error it ends the run with. */
  function FirstExceeded(r: Run, base: Usage, limits: Limits, elapsed: int, today: nat): (e: Option<RunError>)
    ensures e.None? <==> Within(r, base, limits, elapsed, today)
    ensures e.Some? ==> Exceeded(e.value.code, r, base, limits, elapsed, today)
  {
    if r.steps - base.steps >= limits.maxSteps then Some(RunError("STEP_LIMIT", "steps"))
    else if r.inputTokens + r.outputTokens - base.tokens >= limits.maxTokens then
      Some(RunError("BUDGET_EXCEEDED", "tokens"))
    else if elapsed >= limits.timeoutSeconds then Some(RunError("TIMEOUT", "timeout"))
    else if today >= limits.dailyTokens then Some(RunError("DAILY_LIMIT", "today"))
    else None
  }

  predicate IsToolAction(a: Action) { a.WorkerStarts? || a.WorkerRuns? }

  /** What the worker did since `before` starts and runs no tool. */
  ghost predicate ToolFree(before: seq<Action>, own: seq<Action>) {
    before <= own && forall k | |before| <= k < |own| :: !IsToolAction(own[k])
  }

  /** From `turn` on the worker read the transcript and neither started nor ran a tool. */
  ghost predicate NoToolsSince(own: seq<Action>, turn: nat, h: Holder) {
    turn < |own| && own[turn] == WorkerReads(h) && forall k | turn <= k < |own| :: !IsToolAction(own[k])
  }

  lemma ToolFreePush(before: seq<Action>, own: seq<Action>, a: Action)
    requires ToolFree(before, own) && !IsToolAction(a)
    ensures ToolFree(before, own + [a])
  {
  }

  class AgentLoop {
    const runs: RunStore
    const runId: string
    const offer: Offer
    const ceilings: Limits
    var aborted: Option<AbortReason>  // the signal: the first reason stands

    ghost var y0: Sys
    ghost var trace: seq<Action>
    ghost var y: Sys
    ghost var own: seq<Action>  // this worker's part of the trace, renewals aside

    constructor (runs: RunStore, runId: string, offer: Offer, ceilings: Limits, ghost start: Sys)
      requires runs.Valid() && runId in runs.runs
      requires runs.State(runId) == start.s && runs.now == start.now && Inv(start)
      ensures this.runs == runs && this.runId == runId && this.ceilings == ceilings && this.offer == offer
      ensures Linked() && y0 == start && y == start && trace == [] && own == [] && aborted.None?
    {
      this.runs, this.runId, this.offer, this.ceilings, aborted := runs, runId, offer, ceilings, None;
      y0, trace, y, own := start, [], start, [];
      FromStart(start);
    }

    /** The store is where the protocol is after `trace`. */
    ghost predicate Linked()
      reads this, runs
    {
      && runs.Valid() && runId in runs.runs
      && runs.State(runId) == y.s && runs.now == y.now
      && From(y0, trace, y)
    }

    ghost method Act(a: Action)
      requires From(y0, trace, y)
      modifies this`y, this`trace, this`own
      ensures y == Do(old(y), a) && From(y0, trace, y) && y0 == old(y0)
      ensures own == old(own) + [a]
    {
      FromActs(y0, trace, y, a);
      own := own + [a];
      trace := trace + [a];
      y := Do(y, a);
    }

    /** Anybody else, for as long as they like; what they do is left open to the caller. */
    method Others(h: Holder) returns (ghost actions: seq<Action>)
      requires Linked() && h in y.pcs
      modifies this`y, this`trace, runs
      ensures Linked() && y0 == old(y0)
      ensures forall a <- actions :: ByOthers(a, h)
      ensures y == RunOf(old(y), actions) && trace == old(trace) + actions
    {
      actions := [];
    }

    method Interlude(h: Holder)
      requires Linked() && h in y.pcs
      modifies this`y, this`trace, runs
      ensures Linked() && y0 == old(y0) && Rely(h, old(y), y) && KnownOf(y, h) == old(KnownOf(y, h))
    {
      ghost var actions := Others(h);
      OthersFrom(y0, old(trace), old(y), actions, h);
    }

    /** An interlude of which only the worker's own place in the loop is of interest. */
    method Pause(h: Holder)
      requires Linked() && h in y.pcs
      modifies this`y, this`trace, runs
      ensures Linked() && y0 == old(y0) && h in y.pcs && y.pcs[h] == old(y.pcs[h])
      ensures y.s.run.mode == old(y.s.run.mode)
    {
      Interlude(h);
    }

    /** The heartbeat may abort the work; the first reason stands. */
    method Signal() returns (reason: Option<AbortReason>)
      modifies this`aborted
      ensures old(aborted).Some? ==> aborted == old(aborted)
      ensures reason == aborted
    {
      if aborted.None? { aborted := *; }
      reason := aborted;
    }

    // --- The loop's statements -----------------------------------------------

    method ReadTranscript(h: Holder) returns (messages: seq<Message>)
      requires Linked() && h in y.pcs && y.pcs[h].Ready?
      modifies this`y, this`trace, this`own, runs
      ensures Linked() && y0 == old(y0) && Monotone(old(y.s), y.s)
      ensures ViewOf(y, h) == Some(messages) && messages == y.s.messages
      ensures HoldsRun(y, h) ==> HoldsRun(old(y), h) && messages == old(y.s.messages)
      ensures own == old(own) + [WorkerReads(h)]
    {
      Interlude(h);
      var rows := runs.ListMessages(runId, -1);
      messages := Transcript(rows);
      assert messages == y.s.messages;
      ReadFrom(y0, trace, y, h);
      Act(WorkerReads(h));
    }

    method Append(h: Holder, ghost addition: Addition, messages: seq<Message>) returns (ok: bool)
      requires Linked() && ViewOf(y, h).Some? && Added(ViewOf(y, h).value, addition) == Some(messages)
      modifies this`y, this`trace, this`own, runs
      ensures Linked() && y0 == old(y0) && h in y.pcs && Monotone(old(y.s), y.s)
      ensures ok ==> HoldsRun(old(y), h) && HoldsRun(y, h) && y.pcs[h] == NextPc(addition)
      ensures ok ==> y.s.messages == old(y.s.messages) + messages
      ensures own == old(own) + [WorkerAppends(h, addition)]
    {
      Interlude(h);
      ghost var y1 := y;
      var r := runs.AppendMessages(runId, messages, Some(h));
      AppendFrom(y0, trace, y, h, addition, messages);
      Act(WorkerAppends(h, addition));
      MonotoneTrans(old(y.s), y1.s, y.s);
      ok := r.Ok?;
    }

    /** One of the statements a worker may send at any time. */
    method Sent(h: Holder, ghost before: Sys, ghost st: Statement)
      requires runs.Valid() && runId in runs.runs && From(y0, trace, y)
      requires h in y.pcs && WorkerMay(h, st)
      requires runs.State(runId) == Apply(y.s, st, y.now) && runs.now == y.now
      requires Rely(h, before, y)
      modifies this`y, this`trace, this`own
      ensures Linked() && y0 == old(y0) && y == Store(old(y), st)
      ensures Rely(h, before, y) && own == old(own) + [WorkerSends(h, st)]
    {
      OwnFrom(y0, trace, y, WorkerSends(h, st), h);
      RelyTrans(h, before, y, Do(y, WorkerSends(h, st)));
      Act(WorkerSends(h, st));
    }

    method Record(h: Holder, input: nat, output: nat) returns (run: Run)
      requires Linked() && h in y.pcs
      modifies this`y, this`trace, this`own, runs
      ensures Linked() && y0 == old(y0) && Rely(h, old(y), y)
      ensures run == y.s.run && run.steps > old(y.s.run.steps)
      ensures own == old(own) + [WorkerSends(h, RecordStep(input, output))]
    {
      Interlude(h);
      var r := runs.RecordStep(runId, input, output);
      Sent(h, old(y), RecordStep(input, output));
      run := r.value;
    }

    method Warn(h: Holder, warning: string)
      requires Linked() && h in y.pcs
      modifies this`y, this`trace, this`own, runs
      ensures Linked() && y0 == old(y0) && Rely(h, old(y), y)
      ensures own == old(own) + [WorkerSends(h, AddWarning(warning))]
    {
      Interlude(h);
      var _ := runs.AddWarning(runId, warning);
      Sent(h, old(y), AddWarning(warning));
    }

    /** Fails or cancels the run, unless another worker holds it. */
    method End(h: Holder, outcome: Outcome) returns (o: ProcessOutcome)
      requires Linked() && h in y.pcs && !outcome.EndSucceeded?
      modifies this`y, this`trace, this`own, runs
      ensures Linked() && y0 == old(y0)
      ensures o.Finished? ==> y.s.run.status.Terminal()
      ensures !o.Finished? ==> o.LeaseLost?
      ensures own == old(own) + [WorkerSends(h, Finish(outcome, Some(h)))]
    {
      Interlude(h);
      var r := runs.Finish(runId, outcome, Some(h));
      Sent(h, old(y), Finish(outcome, Some(h)));
      o := if r.Ok? then Finished else LeaseLost;
    }

    method Fail(h: Holder, code: string, message: string) returns (o: ProcessOutcome)
      requires Linked() && h in y.pcs
      modifies this`y, this`trace, this`own, runs
      ensures Linked() && y0 == old(y0)
      ensures o.Finished? ==> y.s.run.status.Terminal()
      ensures !o.Finished? ==> o.LeaseLost?
      ensures own == old(own) + [WorkerSends(h, Finish(Failing(code, message), Some(h)))]
    {
      o := End(h, Failing(code, message));
    }

    /** A run at rest is ended (task) or parked (chat) on the transcript as read. */
    method Rest(h: Holder, messages: seq<Message>, ghost end: Action)
      requires runs.Valid() && runId in runs.runs && From(y0, trace, y)
      requires ViewOf(y, h) == Some(messages) && AtRest(messages)
      requires if y.s.run.mode.Task? then end == WorkerSucceeds(h) else end == WorkerParks(h)
      requires runs.now == y.now
      requires runs.State(runId) ==
               Apply(y.s, if y.s.run.mode.Task? then Finish(EndSucceeded(messages[|messages| - 1].text), Some(h))
                          else WaitForInput(Some(h)), y.now)
      modifies this`y, this`trace, this`own
      ensures Linked() && y0 == old(y0) && y.s == runs.State(runId) && own == old(own) + [end]
    {
      RestFrom(y, h, messages);
      Act(end);
    }

    /** The answer of a task run ends it. */
    method Succeed(h: Holder, messages: seq<Message>) returns (o: ProcessOutcome)
      requires Linked() && ViewOf(y, h) == Some(messages) && AtRest(messages) && y.s.run.mode.Task?
      modifies this`y, this`trace, this`own, runs
      ensures Linked() && y0 == old(y0)
      ensures o.Finished? ==> y.s.run.status.Terminal()
      ensures !o.Finished? ==> o.LeaseLost?
      ensures own == old(own) + [WorkerSucceeds(h)]
    {
      Pause(h);
      var r := runs.Finish(runId, EndSucceeded(messages[|messages| - 1].text), Some(h));
      Rest(h, messages, WorkerSucceeds(h));
      o := if r.Ok? then Finished else LeaseLost;
    }

    /** The answer of a chat turn parks the run; a cancel that came meanwhile ends it. */
    method Park(h: Holder, messages: seq<Message>) returns (o: ProcessOutcome)
      requires Linked() && ViewOf(y, h) == Some(messages) && AtRest(messages) && y.s.run.mode.Chat?
      modifies this`y, this`trace, this`own, runs
      ensures Linked() && y0 == old(y0)
      ensures o.Finished? ==> y.s.run.status.Cancelled?
      ensures o.Finished? || o.Waiting? || o.LeaseLost?
      ensures own == old(own) + [WorkerParks(h)]
    {
      Pause(h);
      var r := runs.WaitForInput(runId, Some(h));
      Rest(h, messages, WorkerParks(h));
      match r {
        case Err(_) => o := LeaseLost;
        case Ok(Some(parked)) => o := if parked.status == Cancelled then Finished else Waiting;
        case Ok(None) => o := Waiting;
      }
    }

    // --- Tool calls ----------------------------------------------------------

    /** One start: it gets through exactly when the store, as it was `at` that moment, lets it. */
    method Start(job: Job, start: StartInput, ghost open: set<string>)
      returns (ok: bool, ghost token: nat, ghost at: Sys)
      requires Linked() && MaySend(y, job, open, start)
      modifies this`y, this`trace, this`own, runs
      ensures Linked() && y0 == old(y0) && Rely(job.holder, old(y), y) && Rely(job.holder, old(y), at)
      ensures Prepared(y, job, open + {start.callId})
      ensures ok <==> HoldsRun(at, job.holder) && Startable(at.s.calls, start.callId)
      ensures ok ==> start.callId in y.s.calls && y.s.calls[start.callId].status == start.status
      ensures ok && start.status.Executing? ==> HasToken(y, job.holder, token) && token >= |old(y).log|
      ensures own == old(own) + [WorkerStarts(job.holder, start)]
    {
      Interlude(job.holder);
      at := y;
      AfterStart(y0, trace, old(y), at, job, open, start);
      var r := runs.StartToolCall(runId, start, Some(job.holder));
      Act(WorkerStarts(job.holder, start));
      ok, token := r.Ok?, |at.log|;
    }

    /** Runs the tool once, for the start at `token`. */
    method RunTool(h: Holder, tool: Tool, input: Json, ghost token: nat) returns (r: Result<Json, string>)
      requires Linked() && h in y.pcs && HasToken(y, h, token)
      modifies this`y, this`trace, this`own, runs
      ensures Linked() && y0 == old(y0) && Quiet(h, old(y), y) && own == old(own) + [WorkerRuns(h, token)]
      ensures KnownOf(y, h) == old(KnownOf(y, h)) && KeepsTokens(h, old(y), y, Some(token))
    {
      Interlude(h);
      Act(WorkerRuns(h, token));
      r := *;
    }

    method FinishCall(h: Holder, callId: string, result: CallOutcome)
      requires Linked() && h in y.pcs && !result.status.Live() && callId in y.s.calls
      modifies this`y, this`trace, this`own, runs
      ensures Linked() && y0 == old(y0) && Rely(h, old(y), y)
      ensures HasOutcome(y.s.calls, callId) && own == old(own) + [WorkerSends(h, FinishToolCall(callId, result))]
      ensures KnownOf(y, h) == old(KnownOf(y, h))
    {
      Interlude(h);
      var _ := runs.FinishToolCall(runId, callId, result);
      Sent(h, old(y), FinishToolCall(callId, result));
    }

    /** A record that may fail; it may have got through all the same. */
    method TryRecord(job: Job, call: CallRequest, value: Json) returns (ok: bool, ghost sent: seq<Action>)
      requires Linked() && job.holder in y.pcs && call.callId in y.s.calls
      modifies this`y, this`trace, this`own, runs
      ensures Linked() && y0 == old(y0) && Rely(job.holder, old(y), y)
      ensures own == old(own) + sent && (sent == [] || sent == [RecordOf(job, call, Some(value), None)])
      ensures ok ==> sent != [] && HasOutcome(y.s.calls, call.callId)
      ensures KnownOf(y, job.holder) == old(KnownOf(y, job.holder))
    {
      var reaches: bool := *;
      if reaches {
        FinishCall(job.holder, call.callId, OutcomeOf(Some(value), None, job.offer.resultChars));
        ok, sent := *, [RecordOf(job, call, Some(value), None)];
      } else {
        Interlude(job.holder);
        ok, sent := false, [];
      }
    }

    // --- Writes, one at a time -----------------------------------------------

    /**
     Settles a call that may change something: one that was in flight is given up, any
     other is started, run and recorded. It is `lost` exactly when its start is refused:
     `at` that moment the run was gone, or the call was not to be started.
     */
    method SettleWrite(job: Job, i: nat) returns (lost: bool, output: Json, ghost at: Sys)
      requires Linked() && Prepared(y, job, {}) && job.offer == offer && i < |job.calls| && job.Plan(i).Writes()
      modifies this`y, this`trace, this`own, runs
      ensures Linked() && y0 == old(y0) && Quiet(job.holder, old(y), y)
      ensures Quiet(job.holder, old(y), at)
      ensures lost <==>
                job.Plan(i).Execute? && !(HoldsRun(at, job.holder) && Startable(at.s.calls, job.calls[i].callId))
      ensures lost ==> own == old(own) + [WorkerStarts(job.holder, StartOf(job, job.calls[i], job.Plan(i).tool))]
      ensures !lost ==> Prepared(y, job, {}) && HasOutcome(y.s.calls, job.calls[i].callId)
      ensures !lost && job.Plan(i).GiveUp? ==>
                own == old(own) + [WorkerSends(job.holder, FinishToolCall(job.calls[i].callId, UNKNOWN_OUTCOME))]
      ensures !lost && job.Plan(i).Execute? ==>
                exists t :: InARow(old(own), own, job, job.calls[i], job.Plan(i).tool, output, t)
      ensures !lost ==> Carried(own, |old(own)|, job, i, output)
      ensures OnlySettles(old(own), own)
    {
      var call := job.calls[i];
      match job.Plan(i) {
        case GiveUp =>
          at := y;
          FinishCall(job.holder, call.callId, UNKNOWN_OUTCOME);
          PreparedStays(old(y), y, job, {});
          assert SaidAt(own, |old(own)|, |old(own)|,
                        WorkerSends(job.holder, FinishToolCall(call.callId, UNKNOWN_OUTCOME)));
          lost, output := false, "OUTCOME_UNKNOWN";
        case Execute(tool) =>
          lost, output, at := ExecuteWrite(job, i, tool);
      }
    }

    /** Started, run and recorded. */
    method ExecuteWrite(job: Job, i: nat, tool: Tool) returns (lost: bool, output: Json, ghost at: Sys)
      requires Linked() && Prepared(y, job, {})
      requires i < |job.calls| && job.Plan(i) == Execute(tool) && tool.effect != Read
      modifies this`y, this`trace, this`own, runs
      ensures Linked() && y0 == old(y0) && Quiet(job.holder, old(y), y)
      ensures Quiet(job.holder, old(y), at)
      ensures lost <==> !(HoldsRun(at, job.holder) && Startable(at.s.calls, job.calls[i].callId))
      ensures lost ==> own == old(own) + [WorkerStarts(job.holder, StartOf(job, job.calls[i], tool))]
      ensures !lost ==> Prepared(y, job, {}) && HasOutcome(y.s.calls, job.calls[i].callId)
      ensures !lost ==> exists t :: InARow(old(own), own, job, job.calls[i], tool, output, t)
      ensures OnlySettles(old(own), own)
    {
      var call := job.calls[i];
      var ok;
      ghost var token;
      ok, token, at := Start(job, StartOf(job, call, tool), {});
      if !ok {
        SettlesOne(old(own), own, WorkerStarts(job.holder, StartOf(job, call, tool)));
        return true, "null", at;
      }
      ghost var y1 := y;
      var value, error;
      ghost var tried;
      value, error, tried := RunAndRecord(job, call, tool, token);
      QuietTrans(job.holder, old(y), y1, y);
      lost, output := false, Told(value, error, job.offer.resultChars);
      ExecutedInARow(old(own), own, job, call, tool, token, tried, value, error);
    }

    /**
     Runs the tool of a start that got through and records what came of it. A success that
     is said not to have been recorded is recorded as a failure.
     */
    method RunAndRecord(job: Job, call: CallRequest, tool: Tool, ghost token: nat)
      returns (value: Option<Json>, error: Option<Json>, ghost tried: seq<Action>)
      requires Linked() && Prepared(y, job, {call.callId}) && HasToken(y, job.holder, token) && call.callId in y.s.calls
      modifies this`y, this`trace, this`own, runs
      ensures Linked() && y0 == old(y0) && Quiet(job.holder, old(y), y)
      ensures Prepared(y, job, {}) && HasOutcome(y.s.calls, call.callId)
      ensures |tried| <= 1 && (tried != [] ==> value.None? && Records(tried[0], job.holder, call.callId))
      ensures own == old(own) + [WorkerRuns(job.holder, token)] + tried + [RecordOf(job, call, value, error)]
    {
      var r := RunTool(job.holder, tool, call.input, token);
      PreparedStays(old(y), y, job, {call.callId});
      ghost var y1 := y;
      value, error, tried :=
        RecordOutcome(job, call, if r.Ok? then Some(r.value) else None, if r.Ok? then None else Some(r.error));
      PreparedStays(y1, y, job, {call.callId});
      QuietTrans(job.holder, old(y), y1, y);
    }

    method RecordOutcome(job: Job, call: CallRequest, returned: Option<Json>, failed: Option<Json>)
      returns (value: Option<Json>, error: Option<Json>, ghost tried: seq<Action>)
      requires Linked() && job.holder in y.pcs && call.callId in y.s.calls
      modifies this`y, this`trace, this`own, runs
      ensures Linked() && y0 == old(y0) && Rely(job.holder, old(y), y) && HasOutcome(y.s.calls, call.callId)
      ensures KnownOf(y, job.holder) == old(KnownOf(y, job.holder))
      ensures |tried| <= 1 && (tried != [] ==> value.None? && Records(tried[0], job.holder, call.callId))
      ensures own == old(own) + tried + [RecordOf(job, call, value, error)]
    {
      value, error, tried := None, failed, [];
      if returned.Some? {
        var recorded;
        ghost var sent;
        recorded, sent := TryRecord(job, call, returned.value);
        if recorded { return returned, None, tried; }
        error, tried := Some("TOOL_ERROR"), sent;
      }
      ghost var y1 := y;
      FinishCall(job.holder, call.callId, OutcomeOf(None, error, job.offer.resultChars));
      if returned.Some? { RelyTrans(job.holder, old(y), y1, y); }
    }

    /**
     Settles the writes, one after the other; the signal is looked at before each, and the
     rest left to whoever has the run by then.
     */
    method SettleWrites(job: Job, order: seq<nat>, before: seq<Json>, ghost settled: set<nat>, ghost from: nat)
      returns (lost: bool, outputs: seq<Json>, ghost done: set<nat>)
      requires Linked() && Prepared(y, job, {}) && job.offer == offer && from <= |own| && InCalls(job, order)
      requires forall j | 0 <= j < |order| :: job.Plan(order[j]).Writes()
      requires AllTold(settled, job, before, own, from, y.s.calls)
      modifies this`y, this`trace, this`own, this`aborted, runs
      ensures Linked() && y0 == old(y0) && Quiet(job.holder, old(y), y)
      ensures !lost ==> AllTold(done, job, outputs, own, from, y.s.calls)
      ensures !lost ==> Touched(before, outputs, settled, done, order) && forall i <- order :: i in done
      ensures OnlySettles(old(own), own)
    {
      outputs, lost, done := before, false, settled;
      QuietRefl(job.holder, y);
      for k := 0 to |order|
        invariant Linked() && y0 == old(y0) && Quiet(job.holder, old(y), y) && from <= |own| && !lost
        invariant OnlySettles(old(own), own)
        invariant Writing(y, own, from, job, order, k, before, outputs, settled, done)
      {
        var reason := Signal();
        if reason == Some(TookOver) { return true, outputs, done; }
        ghost var was, y1 := own, y;
        var output;
        ghost var at;
        lost, output, at := SettleWrite(job, order[k]);
        QuietTrans(job.holder, old(y), y1, y);
        SettlesMore(old(own), was, own);
        if lost { return; }
        WritingNext(y1, was, y, own, from, job, order, k, before, outputs, settled, done, output);
        outputs, done := outputs[order[k] := output], done + {order[k]};
      }
    }

    // --- Reads, all at once --------------------------------------------------

    /**
     The first statement of a read: it is started, or recorded as refused. It is `lost`
     exactly when `at` that moment the run was gone, or the call was not to be started.
     */
    method BeginRead(job: Job, i: nat, ghost open: set<string>)
      returns (lost: bool, stage: ReadStage, output: Json, ghost token: nat, ghost at: Sys)
      requires Linked() && Prepared(y, job, open) && job.offer == offer && i < |job.calls| && job.Plan(i).Reads()
      modifies this`y, this`trace, this`own, runs
      ensures Linked() && y0 == old(y0) && Rely(job.holder, old(y), y)
      ensures Rely(job.holder, old(y), at)
      ensures lost <==> !(HoldsRun(at, job.holder) && Startable(at.s.calls, job.calls[i].callId))
      ensures own == old(own) + [WorkerStarts(job.holder, FirstStart(job, i))]
      ensures lost ==> Prepared(y, job, open + {job.calls[i].callId})
      ensures !lost ==> stage == if job.Plan(i).Execute? then Flying else Settled
      ensures !lost && stage.Flying? ==>
                && Prepared(y, job, open + {job.calls[i].callId}) && job.calls[i].callId in y.s.calls
                && HasToken(y, job.holder, token) && token >= |old(y).log|
      ensures !lost && stage.Settled? ==>
                && Prepared(y, job, open) && HasOutcome(y.s.calls, job.calls[i].callId)
                && Some(output) == RefusalOf(job, job.calls[i]).error
    {
      var call, plan := job.calls[i], job.Plan(i);
      var start := FirstStart(job, i);
      var ok;
      ok, token, at := Start(job, start, open);
      lost, stage := !ok, if plan.Execute? then Flying else Settled;
      output := if start.error.Some? then start.error.value else "null";
    }

    /** A read's start, or its refusal. */
    method TakeOff(job: Job, order: seq<nat>, stages: seq<ReadStage>, j: nat, ghost trails: seq<Trail>, ghost from: nat)
      returns (stage: ReadStage, output: Json, ghost trail: Trail)
      requires Linked() && from <= |own| && Reading(y, own, from, job, order, stages, trails) && job.offer == offer
      requires Prepared(y, job, OpenIds(job, order, stages))
      requires j < |order| && stages[j].Unsent? && job.Plan(order[j]).Reads()
      modifies this`y, this`trace, this`own, runs
      ensures Linked() && y0 == old(y0) && Quiet(job.holder, old(y), y) && OnlySettles(old(own), own)
      ensures Came(y, own, from, job, order, stages, trails, j, stage, trail, output)
    {
      ghost var open, n := OpenIds(job, order, stages), |own|;
      var lost;
      ghost var token, at;
      lost, stage, output, token, at := BeginRead(job, order[j], open);
      trail := Trail(n, 0, 0, token, None, None);
      if lost { stage := Lost; }
      if stage.Settled? {
        assert SaidAt(own, from, n, WorkerStarts(job.holder, RefusalOf(job, job.calls[order[j]])));
      }
      OpenNext(job, order, stages, j, stage);
      ReadingNext(old(y), old(own), y, own, from, job, order, stages, trails, j, stage, trail);
    }

    /** The run of a read's tool. */
    method Fly(job: Job, order: seq<nat>, stages: seq<ReadStage>, j: nat, ghost trails: seq<Trail>, ghost from: nat)
      returns (stage: ReadStage, ghost trail: Trail)
      requires Linked() && from <= |own| && Reading(y, own, from, job, order, stages, trails) && job.offer == offer
      requires Prepared(y, job, OpenIds(job, order, stages))
      requires j < |order| && stages[j].Flying? && job.Plan(order[j]).Reads()
      modifies this`y, this`trace, this`own, runs
      ensures Linked() && y0 == old(y0) && Quiet(job.holder, old(y), y) && OnlySettles(old(own), own)
      ensures stage.Landed? && Came(y, own, from, job, order, stages, trails, j, stage, trail, "null")
    {
      assert ReadAt(y, own, from, job, order[j], stages[j], trails[j]);
      ghost var was := own;
      var r := RunTool(job.holder, job.Plan(order[j]).tool, job.calls[order[j]].input, trails[j].token);
      stage := Landed(if r.Ok? then Some(r.value) else None, if r.Ok? then None else Some(r.error));
      trail := trails[j].(run := |was|, value := stage.value, error := stage.error);
      FlightComes(old(y), was, y, own, from, job, order, stages, trails, j, stage.value, stage.error);
    }

    /** The record of what came of it; a success that is said not to have been recorded is a failure then. */
    method Land(job: Job, order: seq<nat>, stages: seq<ReadStage>, j: nat, ghost trails: seq<Trail>, ghost from: nat)
      returns (stage: ReadStage, output: Json, ghost trail: Trail)
      requires Linked() && from <= |own| && Reading(y, own, from, job, order, stages, trails) && job.offer == offer
      requires Prepared(y, job, OpenIds(job, order, stages))
      requires j < |order| && stages[j].Landed? && job.Plan(order[j]).Reads()
      modifies this`y, this`trace, this`own, runs
      ensures Linked() && y0 == old(y0) && Quiet(job.holder, old(y), y) && OnlySettles(old(own), own)
      ensures (stage.Settled? || stage.Landed?) &&
              Came(y, own, from, job, order, stages, trails, j, stage, trail, output)
    {
      assert ReadAt(y, own, from, job, order[j], stages[j], trails[j]);
      var call, value, error := job.calls[order[j]], stages[j].value, stages[j].error;
      ghost var was := own;
      var missed := RecordRead(job, call, value, error);
      if missed {
        stage, output := Landed(None, Some("TOOL_ERROR")), "null";
        trail := trails[j].(value := None, error := stage.error);
        MissComes(old(y), was, y, own, from, job, order, stages, trails, j, stage.error);
      } else {
        stage, output := Settled, Told(value, error, job.offer.resultChars);
        trail := trails[j].(finish := |was|);
        LandingComes(old(y), was, y, own, from, job, order, stages, trails, j);
      }
    }

    /** Records a read's outcome; only the record of a success can be `missed`. */
    method RecordRead(job: Job, call: CallRequest, value: Option<Json>, error: Option<Json>) returns (missed: bool)
      requires Linked() && job.holder in y.pcs && call.callId in y.s.calls
      modifies this`y, this`trace, this`own, runs
      ensures Linked() && y0 == old(y0) && Rely(job.holder, old(y), y) && OnlySettles(old(own), own)
      ensures KnownOf(y, job.holder) == old(KnownOf(y, job.holder))
      ensures missed ==> value.Some?
      ensures !missed ==> HasOutcome(y.s.calls, call.callId)
      ensures !missed ==> own == old(own) + [RecordOf(job, call, value, error)]
    {
      if value.Some? {
        var ok;
        ghost var sent;
        ok, sent := TryRecord(job, call, value.value);
        missed := !ok;
      } else {
        FinishCall(job.holder, call.callId, OutcomeOf(value, error, job.offer.resultChars));
        missed := false;
      }
    }

    /** The next statement of the read at `j`, whichever it is. */
    method AdvanceRead(job: Job, order: seq<nat>, stages: seq<ReadStage>, j: nat, ghost trails: seq<Trail>,
                       ghost from: nat)
      returns (stage: ReadStage, output: Json, ghost trail: Trail)
      requires Linked() && from <= |own| && Reading(y, own, from, job, order, stages, trails) && job.offer == offer
      requires Prepared(y, job, OpenIds(job, order, stages))
      requires j < |order| && !stages[j].Over() && job.Plan(order[j]).Reads()
      modifies this`y, this`trace, this`own, runs
      ensures Linked() && y0 == old(y0) && Quiet(job.holder, old(y), y) && OnlySettles(old(own), own)
      ensures Came(y, own, from, job, order, stages, trails, j, stage, trail, output)
    {
      output := "null";
      match stages[j] {
        case Unsent => stage, output, trail := TakeOff(job, order, stages, j, trails, from);
        case Flying => stage, trail := Fly(job, order, stages, j, trails, from);
        case Landed(_, _) => stage, output, trail := Land(job, order, stages, j, trails, from);
      }
    }

    /**
     Settles the reads; whichever of them is not done yet may take the next step. When one
     is refused the rest is given up: the others may still go on for a while.
     */
    method SettleReads(job: Job, order: seq<nat>, before: seq<Json>, ghost from: nat)
      returns (lost: bool, outputs: seq<Json>, ghost done: set<nat>)
      requires Linked() && Prepared(y, job, {}) && job.offer == offer && from <= |own| && InCalls(job, order)
      requires |before| == |job.calls| && forall j | 0 <= j < |order| :: job.Plan(order[j]).Reads()
      modifies this`y, this`trace, this`own, runs
      ensures Linked() && y0 == old(y0) && Quiet(job.holder, old(y), y) && OnlySettles(old(own), own)
      ensures AllTold(done, job, outputs, own, from, y.s.calls) && Touched(before, outputs, {}, done, order)
      ensures !lost ==> Prepared(y, job, {}) && forall i <- order :: i in done
    {
      outputs, lost, done := before, false, {};
      var stages, goesOn := seq(|order|, _ => Unsent), true;
      ghost var trails := seq(|order|, _ => Trail(0, 0, 0, 0, None, None));
      QuietRefl(job.holder, y);
      NoneUnderway(y, own, from, job, order, before);
      while goesOn && exists j :: 0 <= j < |order| && !stages[j].Over()
        invariant Linked() && y0 == old(y0) && Quiet(job.holder, old(y), y) && OnlySettles(old(own), own)
        invariant |stages| == |order| && Underway(y, own, from, job, order, before, stages, trails, outputs, done)
        invariant !lost ==> goesOn && forall j | 0 <= j < |order| :: !stages[j].Lost?
        decreases Left(stages), goesOn
      {
        if lost { goesOn := *; }
        if goesOn {
          ghost var was, y1 := own, y;
          var refused;
          stages, outputs, refused, trails, done := NextRead(job, order, before, stages, outputs, trails, done, from);
          QuietTrans(job.holder, old(y), y1, y);
          SettlesMore(old(own), was, own);
          lost := lost || refused;
        }
      }
      if !lost { AllSettled(y, own, from, job, order, before, stages, trails, outputs, done); }
    }

    /** One statement of one of the reads. */
    method NextRead(job: Job, order: seq<nat>, before: seq<Json>, stages: seq<ReadStage>, outputs: seq<Json>,
                    ghost trails: seq<Trail>, ghost done: set<nat>, ghost from: nat)
      returns (after: seq<ReadStage>, told: seq<Json>, refused: bool, ghost trails': seq<Trail>, ghost done': set<nat>)
      requires Linked() && job.offer == offer && from <= |own| && |stages| == |order|
      requires Underway(y, own, from, job, order, before, stages, trails, outputs, done)
      requires forall j | 0 <= j < |order| :: job.Plan(order[j]).Reads()
      requires exists j :: 0 <= j < |order| && !stages[j].Over()
      modifies this`y, this`trace, this`own, runs
      ensures Linked() && y0 == old(y0) && Quiet(job.holder, old(y), y) && OnlySettles(old(own), own)
      ensures |after| == |order| && Underway(y, own, from, job, order, before, after, trails', told, done')
      ensures Left(after) < Left(stages)
      ensures !refused ==> forall j | 0 <= j < |order| && after[j].Lost? :: stages[j].Lost?
    {
      var j :| 0 <= j < |order| && !stages[j].Over();
      ghost var was, y1 := own, y;
      var stage, output;
      ghost var trail;
      stage, output, trail := AdvanceRead(job, order, stages, j, trails, from);
      UnderwayNext(y1, was, y, own, from, job, order, before, stages, trails, outputs, done, j, stage, trail, output);
      after, trails' := stages[j := stage], trails[j := trail];
      told := if stage.Settled? then outputs[order[j] := output] else outputs;
      done' := if stage.Settled? then done + {order[j]} else done;
      refused := stage.Lost?;
    }

    // --- All of them ---------------------------------------------------------

    /** Sorts the calls of a step: what is reused, what is read, what is written afterwards. */
    method PlanAll(job: Job) returns (outputs: seq<Json>, readCalls: seq<nat>, writeCalls: seq<nat>)
      ensures |outputs| == |job.calls| && Sorted(job, readCalls, writeCalls)
      ensures forall i | 0 <= i < |job.calls| && job.Plan(i).Reuse? :: outputs[i] == job.Plan(i).output
    {
      outputs, readCalls, writeCalls := [], [], [];
      for k := 0 to |job.calls|
        invariant |outputs| == k && InCalls(job, readCalls) && InCalls(job, writeCalls)
        invariant Ascending(readCalls) && Ascending(writeCalls)
        invariant forall j | 0 <= j < |readCalls| :: readCalls[j] < k
        invariant forall j | 0 <= j < |writeCalls| :: writeCalls[j] < k
        invariant forall i | 0 <= i < k :: i in writeCalls <==> job.Plan(i).Writes()
        invariant forall i | 0 <= i < k :: i in readCalls <==> job.Plan(i).Reads()
        invariant forall i | 0 <= i < k && job.Plan(i).Reuse? :: outputs[i] == job.Plan(i).output
      {
        var plan := job.Plan(k);
        outputs := outputs + [if plan.Reuse? then plan.output else "null"];
        if plan.GiveUp? || (plan.Execute? && plan.tool.effect != Read) { writeCalls := writeCalls + [k]; }
        else if !plan.Reuse? { readCalls := readCalls + [k]; }
      }
    }

    /** The calls still to be settled, reads before writes. */
    method SettlePlanned(job: Job, readCalls: seq<nat>, writeCalls: seq<nat>, planned: seq<Json>)
      returns (lost: bool, outputs: seq<Json>, ghost done: set<nat>)
      requires Linked() && Prepared(y, job, {}) && job.offer == offer && Sorted(job, readCalls, writeCalls)
      requires |planned| == |job.calls|
      modifies this`y, this`trace, this`own, this`aborted, runs
      ensures Linked() && y0 == old(y0) && Quiet(job.holder, old(y), y)
      ensures !lost ==> AllTold(done, job, outputs, own, |old(own)|, y.s.calls)
      ensures !lost ==> forall i | 0 <= i < |job.calls| && i !in done :: outputs[i] == planned[i]
      ensures !lost ==> forall i :: i in done <==> i in readCalls || i in writeCalls
      ensures OnlySettles(old(own), own)
    {
      ghost var from := |own|;
      assert forall j | 0 <= j < |readCalls| :: readCalls[j] in readCalls;
      assert forall j | 0 <= j < |writeCalls| :: writeCalls[j] in writeCalls;
      lost, outputs, done := SettleReads(job, readCalls, planned, from);
      if lost { return; }
      ghost var was, y1 := own, y;
      lost, outputs, done := SettleWrites(job, writeCalls, outputs, done, from);
      QuietTrans(job.holder, old(y), y1, y);
      SettlesMore(old(own), was, own);
    }

    /** Lists the rows of the run's calls. */
    method ListCalls(h: Holder, messageSeq: nat, calls: seq<CallRequest>) returns (job: Job)
      requires Linked() && Answering(y, h, calls)
      modifies this`y, this`trace, this`own, runs
      ensures Linked() && y0 == old(y0) && Quiet(h, old(y), y) && Prepared(y, job, {})
      ensures job == Job(h, messageSeq, calls, y.s.calls, offer) && own == old(own) + [WorkerLists(h)]
    {
      Interlude(h);
      var recorded := runs.ListToolCalls(runId);
      ListFrom(y, h);
      Act(WorkerLists(h));
      job := Job(h, messageSeq, calls, recorded, offer);
    }

    /**
     Gives all the calls of a message an outcome, reads first: unless the run was lost,
     each has one afterwards, and the right one goes to the model for each.
     */
    method SettleCalls(h: Holder, messageSeq: nat, calls: seq<CallRequest>)
      returns (lost: bool, outputs: seq<Json>, ghost job: Job)
      requires Linked() && Answering(y, h, calls)
      modifies this`y, this`trace, this`own, this`aborted, runs
      ensures Linked() && y0 == old(y0) && Quiet(h, old(y), y)
      ensures job == Job(h, messageSeq, calls, job.listed, offer)
      ensures forall c <- old(y.s.calls) :: HasOutcome(old(y.s.calls), c) ==>
                c in job.listed && job.listed[c] == old(y.s.calls)[c]
      ensures !lost ==> AllRight(y.s.calls, own, |old(own)|, job, outputs)
      ensures OnlySettles(old(own), own)
    {
      var work := ListCalls(h, messageSeq, calls);
      job := work;
      ghost var was, y1 := own, y;
      var planned, readCalls, writeCalls := PlanAll(work);
      ghost var done, n := {}, |own|;
      lost, outputs, done := SettlePlanned(work, readCalls, writeCalls, planned);
      QuietTrans(h, old(y), y1, y);
      SettlesMore(old(own), was, own);
      if !lost { DoneIsRight(y.s.calls, own, n, |old(own)|, job, planned, outputs, done); }
    }

    // --- One turn of the loop, by what the transcript ends in ----------------

    /** Settles what the last message asks for and appends the results. */
    method AnswerCalls(h: Holder, messages: seq<Message>)
      returns (ok: bool, ghost outputs: seq<Json>, ghost job: Job)
      requires Linked() && ViewOf(y, h) == Some(messages) && EndsAsking(messages)
      modifies this`y, this`trace, this`own, this`aborted, runs
      ensures Linked() && y0 == old(y0) && h in y.pcs
      ensures y.s.run.mode == old(y.s.run.mode) && old(y.s.run.steps) <= y.s.run.steps
      ensures ok ==> HoldsRun(old(y), h) && y.pcs[h].Ready?
      ensures ok && messages == old(y.s.messages) ==> Rank(y.s.messages) < Rank(messages)
      ensures ok ==> !EndsAsking(y.s.messages)
      ensures job == Job(h, |messages| - 1, messages[|messages| - 1].calls, job.listed, offer)
      ensures forall c <- old(y.s.calls) :: HasOutcome(old(y.s.calls), c) ==>
                c in job.listed && job.listed[c] == old(y.s.calls)[c]
      ensures OnlySettles(old(own), own) || (own != [] && own[|own| - 1] == WorkerAppends(h, Results(outputs))
                                             && OnlySettles(old(own), own[..|own| - 1]))
      ensures ok ==> own != [] && own[|own| - 1] == WorkerAppends(h, Results(outputs))
      ensures ok ==> AllRight(y.s.calls, own, |old(own)|, job, outputs)
    {
      var calls := messages[|messages| - 1].calls;
      var lost, settled;
      lost, settled, job := SettleCalls(h, |messages| - 1, calls);
      outputs := settled;
      if lost { return false, outputs, job; }
      var reason := Signal();
      if reason == Some(TookOver) { return false, outputs, job; }
      ghost var was, a := own, y.s;
      ok := AppendResults(h, messages, settled);
      assert own[..|own| - 1] == was;
      if ok { AllRightStays(a, was, y.s, own, |old(own)|, job, outputs); }
    }

    /** Appends the outputs as the answer to the last message. */
    method AppendResults(h: Holder, messages: seq<Message>, outputs: seq<Json>) returns (ok: bool)
      requires Linked() && ViewOf(y, h) == Some(messages) && EndsAsking(messages)
      requires |outputs| == |messages[|messages| - 1].calls|
      modifies this`y, this`trace, this`own, runs
      ensures Linked() && y0 == old(y0) && h in y.pcs && Monotone(old(y.s), y.s)
      ensures own == old(own) + [WorkerAppends(h, Results(outputs))]
      ensures ok ==> HoldsRun(old(y), h) && y.pcs[h].Ready? && !EndsAsking(y.s.messages)
      ensures ok && messages == old(y.s.messages) ==> Rank(y.s.messages) < Rank(messages)
    {
      var results := ResultsFor(messages[|messages| - 1].calls, outputs);
      ok := Append(h, Results(outputs), [results]);
      AnswerComesCloser(messages, results);
    }

    /** What the check did that sent the run to its end, or left it to another worker. */
    ghost predicate Blocked(after: seq<Action>, before: seq<Action>, h: Holder, signal: Option<AbortReason>,
                            current: Run, base: Usage, limits: Limits, elapsed: int, today: nat)
    {
      if after == before then signal == Some(TookOver)
      else if after == [] then false
      else
        var last := after[|after| - 1];
        && after == before + [last] && last.WorkerSends? && last.h == h && last.st.Finish?
        && match last.st.outcome
           case EndCancelled(_) => signal == Some(AskedToCancel) || current.cancelRequested
           case EndFailed(error, _) =>
             !current.cancelRequested && Exceeded(error.code, current, base, limits, elapsed, today)
           case EndSucceeded(_) => false
    }

    lemma BlockedIsToolFree(after: seq<Action>, before: seq<Action>, h: Holder, signal: Option<AbortReason>,
                            current: Run, base: Usage, limits: Limits, elapsed: int, today: nat)
      requires Blocked(after, before, h, signal, current, base, limits, elapsed, today)
      ensures ToolFree(before, after)
    {
      if after != before { ToolFreePush(before, before, after[|after| - 1]); }
    }

    /** May another model step be taken? The signal, the row and the limits decide, in this order. */
    method CheckBeforeStep(h: Holder, run: Run, base: Usage, limits: Limits)
      returns (stop: Option<ProcessOutcome>, ghost current: Run, ghost elapsed: int, ghost today: nat)
      requires Linked() && h in y.pcs && run.steps <= y.s.run.steps
      modifies this`y, this`trace, this`own, this`aborted, runs
      ensures Linked() && y0 == old(y0)
      ensures stop == Some(Finished) ==> y.s.run.status.Terminal()
      ensures stop.Some? ==> stop.value in {Finished, LeaseLost}
      ensures stop.None? ==> Rely(h, old(y), y) && run.steps - base.steps < limits.maxSteps
      ensures stop.None? ==> own == old(own) && current == y.s.run && !current.cancelRequested
                             && Within(current, base, limits, elapsed, today)
      ensures stop.Some? ==> Blocked(own, old(own), h, aborted, current, base, limits, elapsed, today)
    {
      current, elapsed, today := run, 0, 0;
      var reason := Signal();
      if reason == Some(TookOver) { return Some(LeaseLost), current, elapsed, today; }
      Interlude(h);
      var found := runs.Get(runId);
      var r := found.value;
      current := r;
      if reason.Some? || r.cancelRequested {
        assert reason.Some? ==> reason.value == AskedToCancel;
        var o := End(h, EndCancelled(None));
        return Some(o), current, elapsed, today;
      }
      stop, elapsed, today := CheckLimits(h, r, base, limits);
    }

    /** The limits, on the row as just read: the first one reached ends the run. */
    method CheckLimits(h: Holder, current: Run, base: Usage, limits: Limits)
      returns (stop: Option<ProcessOutcome>, ghost elapsed: int, ghost today: nat)
      requires Linked() && h in y.pcs
      modifies this`y, this`trace, this`own, runs
      ensures Linked() && y0 == old(y0)
      ensures stop == Some(Finished) ==> y.s.run.status.Terminal()
      ensures stop.Some? ==> stop.value in {Finished, LeaseLost}
      ensures stop.None? ==> own == old(own) && y == old(y) && Within(current, base, limits, elapsed, today)
      ensures stop.Some? && !current.cancelRequested ==>
                Blocked(own, old(own), h, None, current, base, limits, elapsed, today)
    {
      var clock: int, spent: nat := *, *;
      elapsed, today := clock, spent;
      var blocked := FirstExceeded(current, base, limits, clock, spent);
      stop := None;
      if blocked.Some? {
        var o := Fail(h, blocked.value.code, blocked.value.message);
        stop := Some(o);
      }
    }

    /** A model call that did not return a step ends the run, or leaves it to its holder. */
    method StopAfterFailedCall(h: Holder, reply: ModelReply) returns (o: ProcessOutcome)
      requires Linked() && h in y.pcs && !reply.Reply?
      modifies this`y, this`trace, this`own, this`aborted, runs
      ensures Linked() && y0 == old(y0)
      ensures o == Finished ==> y.s.run.status.Terminal()
      ensures o in {Finished, LeaseLost}
      ensures reply.CallFailed? ==>
                own == old(own) + [WorkerSends(h, Finish(Failing(reply.code, reply.message), Some(h)))]
      ensures reply.CallAborted? ==>
                own == match aborted
                       case Some(TookOver) => old(own)
                       case Some(AskedToCancel) => old(own) + [WorkerSends(h, Finish(EndCancelled(None), Some(h)))]
                       case None => old(own) + [WorkerSends(h, Finish(Failing("TIMEOUT", "timeout"), Some(h)))]
      ensures ToolFree(old(own), own)
    {
      if reply.CallFailed? {
        o := Fail(h, reply.code, reply.message);
        return;
      }
      var reason := Signal();
      match reason {
        case Some(TookOver) => o := LeaseLost;
        case Some(AskedToCancel) => o := End(h, EndCancelled(None));
        case None => o := Fail(h, "TIMEOUT", "timeout");
      }
    }

    /** The model call itself, whatever comes of it. */
    method CallModel(shown: seq<Message>) returns (reply: ModelReply)
    {
      reply := *;
    }

    /** A step that is no answer: it is counted, and ends the run. */
    method Reject(h: Holder, reply: ModelReply) returns (o: ProcessOutcome)
      requires Linked() && h in y.pcs && reply.Reply?
      modifies this`y, this`trace, this`own, runs
      ensures Linked() && y0 == old(y0)
      ensures o == Finished ==> y.s.run.status.Terminal()
      ensures o in {Finished, LeaseLost}
      ensures var code := if reply.finish.Refusal? then "MODEL_REFUSED" else "MODEL_ERROR";
              own == old(own) + [WorkerSends(h, RecordStep(reply.input, reply.output))]
                              + [WorkerSends(h, Finish(Failing(code, "no answer"), Some(h)))]
      ensures ToolFree(old(own), own)
    {
      var _ := Record(h, reply.input, reply.output);
      o := Fail(h, if reply.finish.Refusal? then "MODEL_REFUSED" else "MODEL_ERROR", "no answer");
    }

    /**
     A step is appended before it is counted. Then a last one that asks ends the run, and
     an answer cut off leaves a warning; a refused append is all there is.
     */
    ghost predicate Stepped(after: seq<Action>, before: seq<Action>, h: Holder, reply: ModelReply, lastStep: bool,
                            goesOn: bool)
      requires reply.Reply? && reply.messages != []
    {
      var appended := before + [WorkerAppends(h, ModelStep(reply.messages, lastStep))];
      var recorded := appended + [WorkerSends(h, RecordStep(reply.input, reply.output))];
      if goesOn then Closed(after, recorded, h, reply, lastStep, true)
      else after == appended || Closed(after, recorded, h, reply, lastStep, false)
    }

    /** What is done about a counted step. */
    ghost predicate Closed(after: seq<Action>, before: seq<Action>, h: Holder, reply: ModelReply, lastStep: bool,
                           goesOn: bool)
      requires reply.Reply?
    {
      var asked := EndsAsking(reply.messages);
      if lastStep && asked then
        !goesOn && after == before + [WorkerSends(h, Finish(Failing("STEP_LIMIT", "steps"), Some(h)))]
      else if reply.finish.Length? && !asked then
        goesOn && after == before + [WorkerSends(h, AddWarning("The answer was cut off at the model's output limit."))]
      else goesOn && after == before
    }

    lemma SteppedIsToolFree(after: seq<Action>, before: seq<Action>, h: Holder, reply: ModelReply, lastStep: bool,
                            goesOn: bool)
      requires reply.Reply? && reply.messages != [] && Stepped(after, before, h, reply, lastStep, goesOn)
      ensures ToolFree(before, after)
    {
      var append := WorkerAppends(h, ModelStep(reply.messages, lastStep));
      var record := WorkerSends(h, RecordStep(reply.input, reply.output));
      ToolFreePush(before, before, append);
      ToolFreePush(before, before + [append], record);
      if after != before + [append] && after != before + [append] + [record] {
        ToolFreePush(before, before + [append] + [record], after[|after| - 1]);
      }
    }

    /** The last step may not have asked for anything; an answer cut off is pointed out. */
    method CloseStep(h: Holder, reply: ModelReply, lastStep: bool) returns (stop: Option<ProcessOutcome>)
      requires Linked() && h in y.pcs && reply.Reply? && reply.messages != []
      modifies this`y, this`trace, this`own, runs
      ensures Linked() && y0 == old(y0)
      ensures stop == Some(Finished) ==> y.s.run.status.Terminal()
      ensures stop.Some? ==> stop.value in {Finished, LeaseLost}
      ensures stop.None? ==> Rely(h, old(y), y)
      ensures Closed(own, old(own), h, reply, lastStep, stop.None?)
    {
      var asked := Asks(reply.messages[|reply.messages| - 1]);
      if lastStep && asked {
        var o := Fail(h, "STEP_LIMIT", "steps");
        return Some(o);
      }
      if reply.finish.Length? && !asked {
        Warn(h, "The answer was cut off at the model's output limit.");
      } else {
        Interlude(h);
      }
      stop := None;
    }

    /** Appends and counts one model step. */
    method TakeStep(h: Holder, run: Run, messages: seq<Message>, reply: ModelReply, lastStep: bool)
      returns (stop: Option<ProcessOutcome>, counted: Run)
      requires Linked() && ViewOf(y, h) == Some(messages) && AwaitsModel(messages)
      requires run.steps <= y.s.run.steps && reply.Reply? && reply.messages != []
      modifies this`y, this`trace, this`own, runs
      ensures Linked() && y0 == old(y0)
      ensures stop == Some(Finished) ==> y.s.run.status.Terminal()
      ensures stop.Some? ==> stop.value in {Finished, LeaseLost}
      ensures stop.None? ==> h in y.pcs && y.pcs[h].Ready? && y.s.run.mode == old(y.s.run.mode)
      ensures stop.None? ==> run.steps < counted.steps <= y.s.run.steps
      ensures stop.None? && HoldsRun(y, h) ==> (EndsAsking(y.s.messages) <==> EndsAsking(reply.messages))
      ensures Stepped(own, old(own), h, reply, lastStep, stop.None?)
    {
      counted := run;
      var ok := Append(h, ModelStep(reply.messages, lastStep), reply.messages);
      if !ok { return Some(LeaseLost), counted; }
      stop, counted := CountStep(h, reply, lastStep);
    }

    /** Counts the step that was appended, and closes it. */
    method CountStep(h: Holder, reply: ModelReply, lastStep: bool)
      returns (stop: Option<ProcessOutcome>, counted: Run)
      requires Linked() && h in y.pcs && reply.Reply? && reply.messages != []
      modifies this`y, this`trace, this`own, runs
      ensures Linked() && y0 == old(y0)
      ensures stop == Some(Finished) ==> y.s.run.status.Terminal()
      ensures stop.Some? ==> stop.value in {Finished, LeaseLost}
      ensures stop.None? ==> Rely(h, old(y), y) && old(y.s.run.steps) < counted.steps <= y.s.run.steps
      ensures Closed(own, old(own) + [WorkerSends(h, RecordStep(reply.input, reply.output))], h, reply, lastStep,
                     stop.None?)
    {
      counted := Record(h, reply.input, reply.output);
      ghost var y1 := y;
      stop := CloseStep(h, reply, lastStep);
      if stop.None? { RelyTrans(h, old(y), y1, y); }
    }

    // --- The loop ------------------------------------------------------------

    /** Every grant the run cannot honour leaves a warning. */
    method WarnAll(h: Holder, notes: seq<string>)
      requires Linked() && h in y.pcs
      modifies this`y, this`trace, this`own, runs
      ensures Linked() && y0 == old(y0) && Rely(h, old(y), y)
      ensures |own| == |old(own)| + |notes| && old(own) <= own
      ensures forall i | 0 <= i < |notes| :: own[|old(own)| + i] == WorkerSends(h, AddWarning(notes[i]))
    {
      Interlude(h);
      for i := 0 to |notes|
        invariant Linked() && y0 == old(y0) && Rely(h, old(y), y)
        invariant |own| == |old(own)| + i && old(own) <= own
        invariant forall k | 0 <= k < i :: own[|old(own)| + k] == WorkerSends(h, AddWarning(notes[k]))
      {
        ghost var y1 := y;
        Warn(h, notes[i]);
        RelyTrans(h, old(y), y1, y);
      }
    }

    /** The model steps a run (a chat: its next turn) may still take. */
    function Allowed(run: Run): nat {
      StepsLeft(run.steps - BaseOf(run).steps, Lowest(run.limits, ceilings))
    }

    /** Ends or parks a run whose last message is the answer. */
    method Conclude(h: Holder, messages: seq<Message>) returns (o: ProcessOutcome)
      requires Linked() && ViewOf(y, h) == Some(messages) && AtRest(messages)
      modifies this`y, this`trace, this`own, runs
      ensures Linked() && y0 == old(y0)
      ensures o == Finished ==> y.s.run.status.Terminal()
      ensures o in {Finished, Waiting, LeaseLost} && (o.Waiting? ==> old(y.s.run.mode).Chat?)
      ensures own == old(own) + [if old(y.s.run.mode).Chat? then WorkerParks(h) else WorkerSucceeds(h)]
      ensures ToolFree(old(own), own)
    {
      if runs.runs[runId].mode.Chat? { o := Park(h, messages); } else { o := Succeed(h, messages); }
    }

    /** Before the last step the note asking for an answer; otherwise one model step. */
    method ModelTurn(h: Holder, run: Run, base: Usage, limits: Limits, messages: seq<Message>)
      returns (stop: Option<ProcessOutcome>, counted: Run, ghost event: Option<LoopEvent>)
      requires Linked() && ViewOf(y, h) == Some(messages) && AwaitsModel(messages)
      requires run.steps <= y.s.run.steps
      modifies this`y, this`trace, this`own, this`aborted, runs
      ensures Linked() && y0 == old(y0)
      ensures stop == Some(Finished) ==> y.s.run.status.Terminal()
      ensures stop.Some? ==> stop.value in {Finished, LeaseLost}
      ensures event.Some? ==> event.value.Modelled? && run.steps - base.steps < limits.maxSteps
      ensures event == Some(Modelled(true, true)) ==> stop.Some?
      ensures stop.None? ==> h in y.pcs && y.pcs[h].Ready? && counted.steps <= y.s.run.steps
      ensures stop.None? ==> y.s.run.mode == old(y.s.run.mode)
      ensures stop.None? && event.Some? ==> run.steps < counted.steps
      ensures stop.None? && event.None? ==> counted == run && HoldsRun(old(y), h)
      ensures stop.None? && event.None? && messages == old(y.s.messages) ==> Rank(y.s.messages) < Rank(messages)
      ensures stop.None? && HoldsRun(y, h) ==> (EndsAsking(y.s.messages) <==> event == Some(Modelled(false, true)))
      ensures ToolFree(old(own), own)
    {
      counted, event := run, None;
      ghost var current, elapsed, today;
      stop, current, elapsed, today := CheckBeforeStep(h, run, base, limits);
      if stop.Some? {
        BlockedIsToolFree(own, old(own), h, aborted, current, base, limits, elapsed, today);
        return;
      }
      var lastStep := IsLastStep(run.steps - base.steps, limits);
      ghost var y1 := y;
      if lastStep && !EndsInNote(messages) {
        var ok := Append(h, Note("note"), [User("note", true)]);
        NoteComesCloser(messages, "note");
        if !ok { stop := Some(LeaseLost); }
        return;
      }
      stop, counted, event := Model(h, run, messages, lastStep);
    }

    /** One model call and what its reply comes to. */
    method Model(h: Holder, run: Run, messages: seq<Message>, lastStep: bool)
      returns (stop: Option<ProcessOutcome>, counted: Run, ghost event: Option<LoopEvent>)
      requires Linked() && ViewOf(y, h) == Some(messages) && AwaitsModel(messages)
      requires run.steps <= y.s.run.steps
      modifies this`y, this`trace, this`own, this`aborted, runs
      ensures Linked() && y0 == old(y0)
      ensures stop == Some(Finished) ==> y.s.run.status.Terminal()
      ensures stop.Some? ==> stop.value in {Finished, LeaseLost}
      ensures event.Some? && event.value.Modelled? && event.value.lastStep == lastStep
      ensures event == Some(Modelled(true, true)) ==> stop.Some?
      ensures stop.None? ==> h in y.pcs && y.pcs[h].Ready? && y.s.run.mode == old(y.s.run.mode)
      ensures stop.None? ==> run.steps < counted.steps <= y.s.run.steps
      ensures stop.None? && HoldsRun(y, h) ==> (EndsAsking(y.s.messages) <==> event == Some(Modelled(false, true)))
      ensures ToolFree(old(own), own)
    {
      counted := run;
      var reply := CallModel(ForModel(messages));
      var asked := reply.Reply? && EndsAsking(reply.messages);
      event := Some(Modelled(lastStep, asked));
      if !reply.Reply? {
        var o := StopAfterFailedCall(h, reply);
        stop := Some(o);
      } else if reply.finish.Refusal? || reply.messages == [] || (reply.finish.ModelErrorFinish? && !asked) {
        var o := Reject(h, reply);
        stop := Some(o);
      } else {
        stop, counted := TakeStep(h, run, messages, reply, lastStep);
        SteppedIsToolFree(own, old(own), h, reply, lastStep, stop.None?);
      }
    }

    /** One turn: it stops, or it comes closer to stopping. */
    method Turn(h: Holder, run: Run, base: Usage, limits: Limits, ghost expected: seq<Message>)
      returns (stop: Option<ProcessOutcome>, counted: Run, ghost event: Option<LoopEvent>, ghost read: seq<Message>)
      requires Linked() && h in y.pcs && y.pcs[h].Ready?
      requires HoldsRun(y, h) ==> y.s.messages == expected
      requires run.steps <= y.s.run.steps
      modifies this`y, this`trace, this`own, this`aborted, runs
      ensures Linked() && y0 == old(y0)
      ensures stop == Some(Finished) ==> y.s.run.status.Terminal()
      ensures stop == Some(Waiting) ==> old(y.s.run.mode).Chat?
      ensures stop.Some? ==> !stop.value.NotClaimed?
      ensures Counts(event, run.steps - base.steps, limits)
      ensures event == Some(Modelled(true, true)) ==> stop.Some?
      ensures stop.None? ==> h in y.pcs && y.pcs[h].Ready? && y.s.run.mode == old(y.s.run.mode)
      ensures stop.None? ==> counted.steps <= y.s.run.steps
      ensures stop.None? ==>
                if event.Some? && event.value.Modelled? then run.steps < counted.steps
                else counted == run && Rank(y.s.messages) < Rank(expected)
      ensures (event.Some? && event.value.Answered?) <==> EndsAsking(read)
      ensures event == Some(Answered(true)) || (stop.None? && event.None?) ==> read == expected && HoldsRun(old(y), h)
      ensures stop.None? && HoldsRun(y, h) ==> (EndsAsking(y.s.messages) <==> event == Some(Modelled(false, true)))
      ensures !EndsAsking(read) ==> NoToolsSince(own, |old(own)|, h)
    {
      var messages := ReadTranscript(h);
      read := messages;
      stop, counted, event := ActOn(h, run, base, limits, messages);
    }

    /** What is done about a transcript, by what it ends in. */
    method ActOn(h: Holder, run: Run, base: Usage, limits: Limits, messages: seq<Message>)
      returns (stop: Option<ProcessOutcome>, counted: Run, ghost event: Option<LoopEvent>)
      requires Linked() && ViewOf(y, h) == Some(messages) && messages == y.s.messages && run.steps <= y.s.run.steps
      modifies this`y, this`trace, this`own, this`aborted, runs
      ensures Linked() && y0 == old(y0)
      ensures stop == Some(Finished) ==> y.s.run.status.Terminal()
      ensures stop == Some(Waiting) ==> old(y.s.run.mode).Chat?
      ensures stop.Some? ==> !stop.value.NotClaimed?
      ensures Counts(event, run.steps - base.steps, limits)
      ensures event == Some(Modelled(true, true)) ==> stop.Some?
      ensures stop.None? ==> h in y.pcs && y.pcs[h].Ready? && y.s.run.mode == old(y.s.run.mode)
      ensures stop.None? ==> counted.steps <= y.s.run.steps
      ensures stop.None? ==>
                if event.Some? && event.value.Modelled? then run.steps < counted.steps
                else counted == run && HoldsRun(old(y), h) && Rank(y.s.messages) < Rank(messages)
      ensures if EndsAsking(messages) then event == Some(Answered(HoldsRun(old(y), h)))
              else event.Some? ==> event.value.Modelled?
      ensures stop.None? && HoldsRun(y, h) ==> (EndsAsking(y.s.messages) <==> event == Some(Modelled(false, true)))
      ensures !EndsAsking(messages) ==> ToolFree(old(own), own)
    {
      counted, event, stop := run, None, None;
      if EndsAsking(messages) {
        event := Some(Answered(HoldsRun(y, h)));
        var ok, _, _ := AnswerCalls(h, messages);
        if !ok { stop := Some(LeaseLost); }
      } else if AtRest(messages) {
        var o := Conclude(h, messages);
        stop := Some(o);
      } else {
        stop, counted, event := ModelTurn(h, run, base, limits, messages);
      }
    }

    /**
     Works the run until it ends, parks, or turns out to be another worker's. From
     whatever transcript it starts, and whatever the others do meanwhile, it comes to an
     end: each turn leaves fewer model steps, or as many and a transcript closer to the
     next one. It takes no more model steps than the run (a chat: the turn) has left, and
     does nothing after a last step that asked for tools, which it does not run. While it
     holds the run it settles calls only after a step before the last that asked, or
     where the transcript it claimed ended in them.
     */
    method Rounds(h: Holder, claimed: Run, ghost opening: seq<Message>)
      returns (o: ProcessOutcome, ghost events: seq<LoopEvent>, ghost lastTurn: nat)
      requires Linked() && h in y.pcs && y.pcs[h].Ready?
      requires claimed.steps <= y.s.run.steps && claimed.mode == y.s.run.mode
      requires HoldsRun(y, h) ==> y.s.messages == opening
      modifies this`y, this`trace, this`own, this`aborted, runs
      ensures Linked() && y0 == old(y0)
      ensures Bounded(events, Allowed(claimed))
      ensures o == Finished ==> y.s.run.status.Terminal()
      ensures (o.Waiting? ==> claimed.mode.Chat?) && !o.NotClaimed?
      ensures EndsAskingLast(events) ==> NoToolsSince(own, lastTurn, h)
      ensures Ordered(opening, events)
    {
      events, lastTurn := [], 0;
      var limits := Lowest(claimed.limits, ceilings);
      var base := BaseOf(claimed);
      var run := claimed;
      ghost var expected := y.s.messages;
      while true
        invariant Linked() && y0 == old(y0) && h in y.pcs && y.pcs[h].Ready?
        invariant HoldsRun(y, h) ==> y.s.messages == expected
        invariant y.s.run.mode == claimed.mode && run.steps <= y.s.run.steps
        invariant Going(events, claimed.steps, run.steps, Allowed(claimed))
        invariant Ordered(opening, events)
        invariant HoldsRun(y, h) ==> (EndsAsking(expected) <==> Due(opening, events))
        decreases StepsLeft(run.steps - base.steps, limits), Rank(expected)
      {
        var stop;
        ghost var event, read;
        ghost var steps := run.steps;
        lastTurn := |own|;
        stop, run, event, read := Turn(h, run, base, limits, expected);
        OrderedNext(opening, events, event);
        TurnKeepsBound(events, event, claimed.steps, steps, run.steps, base.steps, limits);
        events := Noted(events, event);
        if stop.Some? { return stop.value, events, lastTurn; }
        expected := y.s.messages;
      }
    }

    /** Works a claimed run: a warning for every grant it cannot honour, then the rounds. */
    method Drive(h: Holder, claimed: Run, modelOffered: bool, notes: seq<string>)
      returns (o: ProcessOutcome, ghost events: seq<LoopEvent>, ghost lastTurn: nat)
      requires Linked() && h in y.pcs && y.pcs[h].Ready?
      requires claimed.steps <= y.s.run.steps && claimed.mode == y.s.run.mode
      modifies this`y, this`trace, this`own, this`aborted, runs
      ensures Linked() && y0 == old(y0)
      ensures Bounded(events, Allowed(claimed))
      ensures o == Finished ==> y.s.run.status.Terminal()
      ensures (o.Waiting? ==> claimed.mode.Chat?) && !o.NotClaimed?
      ensures !modelOffered ==>
                own == old(own) + [WorkerSends(h, Finish(Failing("MODEL_ERROR", "not offered"), Some(h)))]
      ensures EndsAskingLast(events) ==> NoToolsSince(own, lastTurn, h)
      ensures Ordered(old(y.s.messages), events)
    {
      events, lastTurn := [], 0;
      if !modelOffered {
        o := Fail(h, "MODEL_ERROR", "not offered");
        return;
      }
      WarnAll(h, notes);
      o, events, lastTurn := Rounds(h, claimed, old(y.s.messages));
    }

    /** Claims the run under a name never used before and works it. */
    method Process(h: Holder, lease: nat, modelOffered: bool, notes: seq<string>)
      returns (o: ProcessOutcome, ghost events: seq<LoopEvent>)
      requires Linked() && h !in y.pcs
      modifies this`y, this`trace, this`own, this`aborted, runs
      ensures Linked() && y0 == old(y0)
      ensures o == Finished ==> y.s.run.status.Terminal()
      ensures o == NotClaimed ==> events == [] && y.s == old(y.s)
      ensures Bounded(events, Allowed(old(y.s.run))) && Ordered(old(y.s.messages), events)
    {
      events := [];
      var claimed := runs.Claim(runId, h, lease);
      ClaimFrom(y, h, lease);
      Act(WorkerClaims(h, lease));
      if claimed.None? { return NotClaimed, events; }
      assert Allowed(claimed.value) == Allowed(old(y.s.run));
      ghost var lastTurn;
      o, events, lastTurn := Drive(h, claimed.value, modelOffered, notes);
    }
  }
}
