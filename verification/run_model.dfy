/**
 The rows of an agent run (its `runs` row, its transcript and its tool calls) and
 every SQL statement of `RunStore` as a function on them. A statement is one atomic
 step: it changes the rows its WHERE clause matches and leaves the others alone.
 */
module RunModel {
  import opened Wrappers

  type Time = int      // seconds; the database clock
  type Holder = nat    // the fresh name a worker takes for one claim
  type Json = string

  datatype Status =
    Queued | Running | WaitingApproval | WaitingInput | Succeeded | Failed | Cancelled
  {
    predicate Terminal() { Succeeded? || Failed? || Cancelled? }
    // No worker has the run, so a cancel request alone ends it.
    predicate Parked() { Queued? || WaitingInput? || WaitingApproval? }
  }

  datatype Mode = Task | Chat

  datatype RunError = RunError(code: string, message: string)

  datatype Limits = Limits(maxSteps: nat, maxTokens: nat, timeoutSeconds: nat, dailyTokens: nat)

  datatype Run = Run(
    mode: Mode,
    limits: Limits,
    status: Status,
    output: Option<Json>,
    error: Option<RunError>,
    inputTokens: nat,
    outputTokens: nat,
    steps: nat,
    cancelRequested: bool,
    leaseOwner: Option<Holder>,
    leaseExpires: Option<Time>,
    warnings: seq<string>,
    startedAt: Option<Time>,
    finishedAt: Option<Time>,
    updatedAt: Time)

  datatype CallRequest = CallRequest(callId: string, name: string, input: Json)

  datatype CallResult = CallResult(callId: string, name: string, output: Json)

  datatype Message =
    | User(text: string, note: bool)  // `note`: the last-step note of the loop
    | Assistant(text: string, calls: seq<CallRequest>)
    | ToolMessage(results: seq<CallResult>)

  datatype Effect = Read | Write | Delete

  datatype CallStatus =
    Pending | Executing | CallSucceeded | CallFailed | Denied | Expired | OutcomeUnknown
  {
    predicate Live() { Pending? || Executing? }
  }

  datatype ToolCall = ToolCall(
    messageSeq: nat,
    toolId: string,
    effect: Option<Effect>,  // None where no such tool is known
    status: CallStatus,
    input: Json,
    output: Option<Json>,
    truncated: bool,
    error: Option<Json>,
    startedAt: Time,
    finishedAt: Option<Time>)

  datatype StartInput = StartInput(
    callId: string,
    messageSeq: nat,
    toolId: string,
    effect: Option<Effect>,
    status: CallStatus,
    input: Json,
    error: Option<Json>)

  datatype CallOutcome = CallOutcome(
    status: CallStatus, output: Option<Json>, truncated: bool, error: Option<Json>)

  datatype Outcome =
    | EndSucceeded(output: Json)
    | EndFailed(error: RunError, partial: Option<Json>)
    | EndCancelled(partial: Option<Json>)

  /** Everything stored about one run. */
  datatype RunState = RunState(run: Run, messages: seq<Message>, calls: map<string, ToolCall>)

  function NewRun(mode: Mode, limits: Limits, now: Time): Run {
    Run(mode, limits, Queued, None, None, 0, 0, 0, false, None, None, [], None, None, now)
  }

  predicate Held(r: Run, owner: Option<Holder>) {
    owner.None? || r.leaseOwner == owner
  }

  predicate LeaseExpired(r: Run, now: Time) {
    r.leaseExpires.Some? && r.leaseExpires.value < now
  }

  // --- Statements on the `runs` row: None when the WHERE clause matches nothing

  function Claimed(r: Run, owner: Holder, lease: nat, now: Time): Option<Run> {
    if !r.cancelRequested && (r.status.Queued? || (r.status.Running? && LeaseExpired(r, now))) then
      Some(r.(status := Running, leaseOwner := Some(owner), leaseExpires := Some(now + lease),
              startedAt := if r.startedAt.Some? then r.startedAt else Some(now),
              updatedAt := if r.status.Queued? then now else r.updatedAt))
    else None
  }

  function Renewed(r: Run, owner: Holder, lease: nat, now: Time): Option<Run> {
    if r.leaseOwner == Some(owner) && r.status.Running? then
      Some(r.(leaseExpires := Some(now + lease)))
    else None
  }

  function Abandoned(r: Run, now: Time): Option<Run> {
    if r.status.Running? && r.cancelRequested && LeaseExpired(r, now) then
      Some(r.(status := Cancelled, finishedAt := Some(now), updatedAt := now,
              leaseOwner := None, leaseExpires := None))
    else None
  }

  function Requeued(r: Run, olderThan: nat, now: Time): Option<Run> {
    if r.status.Queued? && r.updatedAt < now - olderThan then Some(r.(updatedAt := now)) else None
  }

  function Counted(r: Run, input: nat, output: nat, now: Time): Run {
    r.(steps := r.steps + 1, inputTokens := r.inputTokens + input,
       outputTokens := r.outputTokens + output, updatedAt := now)
  }

  function Warned(r: Run, warning: string, now: Time): Run {
    if warning in r.warnings then r else r.(warnings := r.warnings + [warning], updatedAt := now)
  }

  function Ended(r: Run, outcome: Outcome, owner: Option<Holder>, now: Time): Option<Run> {
    if !r.status.Terminal() && Held(r, owner) then
      Some(r.(status := match outcome
                        case EndSucceeded(_) => Succeeded
                        case EndFailed(_, _) => Failed
                        case EndCancelled(_) => Cancelled,
              output := if outcome.EndSucceeded? then Some(outcome.output) else outcome.partial,
              error := if outcome.EndFailed? then Some(outcome.error) else None,
              finishedAt := Some(now), updatedAt := now, leaseOwner := None, leaseExpires := None))
    else None
  }

  function Parked(r: Run, owner: Option<Holder>, now: Time): Option<Run> {
    if r.status.Running? && Held(r, owner) then
      Some(r.(status := if r.cancelRequested then Cancelled else WaitingInput,
              finishedAt := if r.cancelRequested then Some(now) else r.finishedAt,
              updatedAt := now, leaseOwner := None, leaseExpires := None))
    else None
  }

  function CancelAsked(r: Run, now: Time): Option<Run> {
    if r.status.Terminal() then None
    else
      Some(r.(cancelRequested := true,
              status := if r.status.Parked() then Cancelled else r.status,
              finishedAt := if r.status.Parked() then Some(now) else r.finishedAt,
              updatedAt := now))
  }

  const STALLED := RunError("INTERNAL", "The run made no progress and was stopped.")

  function Stalled(r: Run, now: Time): Option<Run> {
    if r.status.Running? && r.updatedAt < now - 2 * r.limits.timeoutSeconds then
      Some(r.(status := Failed, finishedAt := Some(now), updatedAt := now,
              leaseOwner := None, leaseExpires := None, error := Some(STALLED)))
    else None
  }

  function IdleClosed(r: Run, idleSeconds: nat, now: Time): Option<Run> {
    if r.status.WaitingInput? && r.mode.Chat? && r.updatedAt < now - idleSeconds then
      Some(r.(status := Succeeded, finishedAt := Some(now), updatedAt := now))
    else None
  }

  // --- Statements on a tool call ---------------------------------------------

  /** The row `startToolCall` leaves, or None when it writes nothing (RunLeaseLostError). */
  function Started(s: RunState, i: StartInput, owner: Option<Holder>, now: Time): Option<ToolCall> {
    if !Held(s.run, owner) then None
    else if i.callId !in s.calls then
      Some(ToolCall(i.messageSeq, i.toolId, i.effect, i.status, i.input, None, false, i.error, now,
                    if i.status.Executing? then None else Some(now)))
    else
      var row := s.calls[i.callId];
      if row.status.Pending? || (row.status.Executing? && row.effect == Some(Read)) then
        Some(row.(status := i.status, startedAt := now, error := i.error,
                  finishedAt := if i.status.Executing? then None else Some(now)))
      else None
  }

  /** The row `finishToolCall` leaves, or None when the call is no longer in flight. */
  function CallFinished(row: ToolCall, o: CallOutcome, now: Time): Option<ToolCall> {
    if row.status.Live() then
      Some(row.(status := o.status, output := o.output, truncated := o.truncated, error := o.error,
                finishedAt := Some(now)))
    else None
  }

  // --- One step of the whole state -------------------------------------------

  datatype Statement =
    | Claim(owner: Holder, lease: nat)
    | RenewLease(owner: Holder, lease: nat)
    | CancelAbandoned
    | RequeueStale(olderThan: nat)
    | AppendMessages(messages: seq<Message>, worker: Option<Holder>)
    | RecordStep(input: nat, output: nat)
    | AddWarning(warning: string)
    | Finish(outcome: Outcome, worker: Option<Holder>)
    | WaitForInput(worker: Option<Holder>)
    | AddUserMessage(text: string)
    | RequestCancel
    | StartToolCall(start: StartInput, worker: Option<Holder>)
    | FinishToolCall(callId: string, result: CallOutcome)
    | FailStalled
    | CloseIdle(idleSeconds: nat)
  {
    // finishToolCall's type rules out recording a call as still in flight.
    predicate WellTyped() { FinishToolCall? ==> !result.status.Live() }
  }

  function WithRow(s: RunState, row: Option<Run>): RunState {
    if row.Some? then s.(run := row.value) else s
  }

  /** One statement executed at `now`; statements that match nothing change nothing. */
  function Apply(s: RunState, st: Statement, now: Time): RunState {
    match st
    case Claim(owner, lease) => WithRow(s, Claimed(s.run, owner, lease, now))
    case RenewLease(owner, lease) => WithRow(s, Renewed(s.run, owner, lease, now))
    case CancelAbandoned => WithRow(s, Abandoned(s.run, now))
    case RequeueStale(olderThan) => WithRow(s, Requeued(s.run, olderThan, now))
    case AppendMessages(messages, worker) =>
      if Held(s.run, worker) then
        s.(messages := s.messages + messages, run := s.run.(updatedAt := now))
      else s
    case RecordStep(input, output) => s.(run := Counted(s.run, input, output, now))
    case AddWarning(warning) => s.(run := Warned(s.run, warning, now))
    case Finish(outcome, worker) => WithRow(s, Ended(s.run, outcome, worker, now))
    case WaitForInput(worker) => WithRow(s, Parked(s.run, worker, now))
    case AddUserMessage(text) =>
      if s.run.status.WaitingInput? then
        s.(messages := s.messages + [User(text, false)],
           run := s.run.(status := Queued, updatedAt := now))
      else s
    case RequestCancel => WithRow(s, CancelAsked(s.run, now))
    case StartToolCall(start, worker) =>
      var row := Started(s, start, worker, now);
      if row.Some? then s.(calls := s.calls[start.callId := row.value]) else s
    case FinishToolCall(callId, result) =>
      if callId in s.calls && CallFinished(s.calls[callId], result, now).Some? then
        s.(calls := s.calls[callId := CallFinished(s.calls[callId], result, now).value])
      else s
    case FailStalled => WithRow(s, Stalled(s.run, now))
    case CloseIdle(idleSeconds) => WithRow(s, IdleClosed(s.run, idleSeconds, now))
  }

  /** A statement and the time it runs at. */
  datatype Timed = Timed(statement: Statement, at: Time)

  function ApplyAll(s: RunState, script: seq<Timed>): RunState
    decreases |script|
  {
    if script == [] then s else ApplyAll(Apply(s, script[0].statement, script[0].at), script[1..])
  }

  function Created(mode: Mode, limits: Limits, opening: seq<Message>, now: Time): RunState {
    RunState(NewRun(mode, limits, now), opening, map[])
  }
}
