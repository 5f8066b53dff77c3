/**
 The calls one message asks for, as a worker settles them: what each needs, decided from
 the rows it listed, and what it must have done about each before it answers. The reads
 are under way all at once, a statement of one between two of another.
 */
module ToolCalls {
  import opened Wrappers
  import opened RunModel
  import opened RunInvariants
  import opened RunProtocol

  datatype Tool = Tool(id: string, effect: Effect)

  /** The tools by the name the model knows them under, each one's check of its input, and how much it is shown. */
  datatype Offer = Offer(tools: map<string, Tool>, accepts: (string, Json) -> bool, resultChars: nat)

  /** One message's calls, with the rows as listed by the worker that settles them. */
  datatype Job = Job(
    holder: Holder, messageSeq: nat, calls: seq<CallRequest>, listed: map<string, ToolCall>, offer: Offer)
  {
    function Plan(i: nat): CallPlan
      requires i < |calls|
    {
      PlanOf(calls[i], listed, offer)
    }
  }

  // --- What a call needs -----------------------------------------------------

  datatype CallPlan =
    | Reuse(output: Json)      // it has an outcome already
    | DenyUnknown              // there is no such tool
    | GiveUp                   // a write that was running when its worker stopped
    | RefuseInput
    | Execute(tool: Tool)
  {
    // May change something, or may have: it waits until the reads are done.
    predicate Writes() { GiveUp? || (Execute? && tool.effect != Read) }

    predicate Reads() { !Reuse? && !Writes() }
  }

  datatype Fitted = Fitted(value: Json, truncated: bool)

  /** The model is shown at most `chars` of a result; its row keeps all of it. */
  function Fit(output: Json, chars: nat): Fitted {
    if |output| <= chars then Fitted(output, false) else Fitted(output[..chars], true)
  }

  /** What the model is told of a call that has an outcome on record. */
  function ResultOf(call: ToolCall, chars: nat): Json {
    if call.status.CallSucceeded? then
      Fit(if call.output.Some? then call.output.value else "null", chars).value
    else if call.error.Some? then call.error.value else "null"
  }

  function PlanOf(call: CallRequest, recorded: map<string, ToolCall>, offer: Offer): CallPlan {
    var prior := if call.callId in recorded then Some(recorded[call.callId]) else None;
    if prior.Some? && !prior.value.status.Live() then Reuse(ResultOf(prior.value, offer.resultChars))
    else if call.name !in offer.tools then DenyUnknown
    else if prior.Some? && prior.value.status.Executing? && offer.tools[call.name].effect != Read then GiveUp
    else if !offer.accepts(call.name, call.input) then RefuseInput
    else Execute(offer.tools[call.name])
  }

  /** The call is in flight under an effect that forbids starting it again. */
  predicate InFlightUnread(rows: map<string, ToolCall>, callId: string) {
    callId in rows && rows[callId].status.Executing? && rows[callId].effect != Some(Read)
  }

  /**
   In every reachable state: a start that the holder of the run has planned from the rows
   it listed is refused exactly when by now the call has an outcome, or is in flight under
   no read. Unless the worker has tried the call before, the one is an outcome recorded
   since it listed the call as open, and the other a call it listed as in flight whose
   tool is not offered any more or has become a read.
   */
  lemma RefusedToItsHolderIff(y: Sys, h: Holder, call: CallRequest, start: StartInput, offer: Offer)
    requires Inv(y) && HoldsRun(y, h) && h in y.known && start.callId == call.callId
    ensures Started(y.s, start, Some(h), y.now).None? <==>
            HasOutcome(y.s.calls, call.callId) || InFlightUnread(y.s.calls, call.callId)
    ensures var listed, plan := y.known[h].listed, PlanOf(call, y.known[h].listed, offer);
            call.callId !in y.known[h].started && !plan.Reuse? && !plan.GiveUp? ==>
              && (HasOutcome(y.s.calls, call.callId) ==>
                    call.callId in listed && listed[call.callId].status.Live())
              && (InFlightUnread(y.s.calls, call.callId) ==>
                    && InFlightUnread(listed, call.callId)
                    && (call.name !in offer.tools || offer.tools[call.name].effect == Read))
  {
    assert KnowsRows(y.known[h], y.s.calls);
  }

  predicate HasOutcome(rows: map<string, ToolCall>, callId: string) {
    callId in rows && !rows[callId].status.Live()
  }

  predicate Ascending(order: seq<nat>) { forall i, j | 0 <= i < j < |order| :: order[i] < order[j] }

  predicate InCalls(job: Job, order: seq<nat>) { forall j | 0 <= j < |order| :: order[j] < |job.calls| }

  /** The calls in two lists, each in call order: what is written, and the rest but for the reused. */
  ghost predicate Sorted(job: Job, readCalls: seq<nat>, writeCalls: seq<nat>) {
    && InCalls(job, readCalls) && InCalls(job, writeCalls) && Ascending(readCalls) && Ascending(writeCalls)
    && (forall i | 0 <= i < |job.calls| :: i in writeCalls <==> job.Plan(i).Writes())
    && (forall i | 0 <= i < |job.calls| :: i in readCalls <==> job.Plan(i).Reads())
  }

  // --- What is done about it -------------------------------------------------

  /** The start of a call that is to be run. */
  function StartOf(job: Job, call: CallRequest, tool: Tool): StartInput {
    StartInput(call.callId, job.messageSeq, tool.id, Some(tool.effect), Executing, call.input, None)
  }

  /** The row of a call that is not: its tool is not known, or does not take the input. */
  function RefusalOf(job: Job, call: CallRequest): StartInput {
    if call.name in job.offer.tools then
      var tool := job.offer.tools[call.name];
      StartInput(call.callId, job.messageSeq, tool.id, Some(tool.effect), CallStatus.CallFailed, call.input,
                 Some("INVALID_INPUT"))
    else StartInput(call.callId, job.messageSeq, call.name, None, Denied, call.input, Some("UNKNOWN_TOOL"))
  }

  /** The first statement about a call that is started or refused. */
  function FirstStart(job: Job, i: nat): StartInput
    requires i < |job.calls|
  {
    if job.Plan(i).Execute? then StartOf(job, job.calls[i], job.Plan(i).tool) else RefusalOf(job, job.calls[i])
  }

  /** What is recorded of a tool that returned `value` or failed with `error`. */
  function OutcomeOf(value: Option<Json>, error: Option<Json>, chars: nat): CallOutcome {
    if value.Some? then CallOutcome(CallSucceeded, value, Fit(value.value, chars).truncated, None)
    else CallOutcome(CallStatus.CallFailed, None, false, error)
  }

  function Told(value: Option<Json>, error: Option<Json>, chars: nat): Json {
    if value.Some? then Fit(value.value, chars).value else if error.Some? then error.value else "null"
  }

  /** The record of what came of a call that was run. */
  function RecordOf(job: Job, call: CallRequest, value: Option<Json>, error: Option<Json>): Action {
    WorkerSends(job.holder, FinishToolCall(call.callId, OutcomeOf(value, error, job.offer.resultChars)))
  }

  const UNKNOWN_OUTCOME := CallOutcome(OutcomeUnknown, None, false, Some("OUTCOME_UNKNOWN"))

  /** Where among a worker's own actions a call was started, run and recorded. */
  datatype Trail = Trail(start: nat, run: nat, finish: nat, token: nat, value: Option<Json>, error: Option<Json>)

  ghost predicate WasStarted(own: seq<Action>, from: nat, job: Job, call: CallRequest, tool: Tool, t: Trail) {
    from <= t.start < |own| && own[t.start] == WorkerStarts(job.holder, StartOf(job, call, tool))
  }

  ghost predicate WasRun(own: seq<Action>, from: nat, job: Job, call: CallRequest, tool: Tool, t: Trail) {
    && WasStarted(own, from, job, call, tool, t)
    && t.start < t.run < |own| && own[t.run] == WorkerRuns(job.holder, t.token)
  }

  /** Started, then run for that start, then recorded with what the model is told. */
  ghost predicate Executed(own: seq<Action>, from: nat, job: Job, call: CallRequest, tool: Tool, output: Json,
                           t: Trail) {
    && WasRun(own, from, job, call, tool, t)
    && t.run < t.finish < |own|
    && own[t.finish] == RecordOf(job, call, t.value, t.error)
    && output == Told(t.value, t.error, job.offer.resultChars)
  }

  predicate Records(a: Action, h: Holder, callId: string) {
    a.WorkerSends? && a.h == h && a.st.FinishToolCall? && a.st.callId == callId
  }

  /**
   Executed with nothing of the worker's own in between, but for a record of success that
   it was told has failed.
   */
  ghost predicate InARow(before: seq<Action>, own: seq<Action>, job: Job, call: CallRequest, tool: Tool,
                         output: Json, t: Trail)
  {
    && before <= own && |before| + 3 <= |own| <= |before| + 4
    && t.start == |before| && t.run == |before| + 1 && t.finish == |own| - 1
    && Executed(own, |before|, job, call, tool, output, t)
    && (forall k | t.run < k < |own| :: Records(own[k], job.holder, call.callId))
    && (|own| == |before| + 4 ==> t.value.None?)
  }

  lemma ExecutedInARow(before: seq<Action>, own: seq<Action>, job: Job, call: CallRequest, tool: Tool, token: nat,
                       tried: seq<Action>, value: Option<Json>, error: Option<Json>)
    requires |tried| <= 1 && (tried != [] ==> value.None? && Records(tried[0], job.holder, call.callId))
    requires own == before + [WorkerStarts(job.holder, StartOf(job, call, tool))] + [WorkerRuns(job.holder, token)]
                    + tried + [RecordOf(job, call, value, error)]
    ensures InARow(before, own, job, call, tool, Told(value, error, job.offer.resultChars),
                   Trail(|before|, |before| + 1, |own| - 1, token, value, error))
    ensures OnlySettles(before, own)
  {
    assert |tried| == 1 ==> own[|before| + 2] == tried[0];
  }

  /** Nothing was done since but to settle calls. */
  ghost predicate OnlySettles(was: seq<Action>, own: seq<Action>) {
    was <= own && forall k | |was| <= k < |own| :: SettlesOnly(own[k])
  }

  lemma SettlesOne(was: seq<Action>, own: seq<Action>, a: Action)
    requires own == was + [a] && SettlesOnly(a)
    ensures OnlySettles(was, own)
  {
  }

  lemma SettlesMore(was: seq<Action>, mid: seq<Action>, own: seq<Action>)
    requires OnlySettles(was, mid) && OnlySettles(mid, own)
    ensures OnlySettles(was, own)
  {
  }

  ghost predicate SaidAt(own: seq<Action>, from: nat, k: int, a: Action) { from <= k < |own| && own[k] == a }

  /** Since `from`, the call was settled as its plan wants it, and `output` is what that tells the model. */
  ghost predicate Carried(own: seq<Action>, from: nat, job: Job, i: nat, output: Json)
    requires i < |job.calls|
  {
    var call := job.calls[i];
    match job.Plan(i)
    case Reuse(_) => false
    case Execute(tool) => exists t :: Executed(own, from, job, call, tool, output, t)
    case GiveUp =>
      && output == "OUTCOME_UNKNOWN"
      && exists k :: SaidAt(own, from, k, WorkerSends(job.holder, FinishToolCall(call.callId, UNKNOWN_OUTCOME)))
    case _ =>
      && Some(output) == RefusalOf(job, call).error
      && exists k :: SaidAt(own, from, k, WorkerStarts(job.holder, RefusalOf(job, call)))
  }

  lemma CarriedStays(was: seq<Action>, own: seq<Action>, from: nat, job: Job, i: nat, output: Json)
    requires i < |job.calls| && Carried(was, from, job, i, output) && was <= own
    ensures Carried(own, from, job, i, output)
  {
    var call := job.calls[i];
    match job.Plan(i)
    case Reuse(_) =>
    case Execute(tool) =>
      var t :| Executed(was, from, job, call, tool, output, t);
      assert Executed(own, from, job, call, tool, output, t);
    case GiveUp =>
      var a := WorkerSends(job.holder, FinishToolCall(call.callId, UNKNOWN_OUTCOME));
      var k :| SaidAt(was, from, k, a);
      assert SaidAt(own, from, k, a);
    case _ =>
      var a := WorkerStarts(job.holder, RefusalOf(job, call));
      var k :| SaidAt(was, from, k, a);
      assert SaidAt(own, from, k, a);
  }

  lemma CarriedSince(own: seq<Action>, n: nat, from: nat, job: Job, i: nat, output: Json)
    requires i < |job.calls| && Carried(own, n, job, i, output) && from <= n
    ensures Carried(own, from, job, i, output)
  {
    var call := job.calls[i];
    match job.Plan(i)
    case Reuse(_) =>
    case Execute(tool) =>
      var t :| Executed(own, n, job, call, tool, output, t);
      assert Executed(own, from, job, call, tool, output, t);
    case GiveUp =>
      var a := WorkerSends(job.holder, FinishToolCall(call.callId, UNKNOWN_OUTCOME));
      var k :| SaidAt(own, n, k, a);
      assert SaidAt(own, from, k, a);
    case _ =>
      var a := WorkerStarts(job.holder, RefusalOf(job, call));
      var k :| SaidAt(own, n, k, a);
      assert SaidAt(own, from, k, a);
  }

  /** The calls done so far have an outcome, and each output is what was done about its call. */
  ghost predicate AllTold(done: set<nat>, job: Job, outputs: seq<Json>, own: seq<Action>, from: nat,
                          rows: map<string, ToolCall>)
  {
    && |outputs| == |job.calls|
    && forall i <- done ::
         i < |job.calls| && HasOutcome(rows, job.calls[i].callId) && Carried(own, from, job, i, outputs[i])
  }

  lemma AllToldStays(done: set<nat>, job: Job, outputs: seq<Json>, was: seq<Action>, own: seq<Action>, from: nat,
                     a: RunState, b: RunState)
    requires AllTold(done, job, outputs, was, from, a.calls) && Monotone(a, b) && was <= own
    ensures AllTold(done, job, outputs, own, from, b.calls)
  {
    forall i <- done ensures HasOutcome(b.calls, job.calls[i].callId) && Carried(own, from, job, i, outputs[i]) {
      CarriedStays(was, own, from, job, i, outputs[i]);
    }
  }

  /** One more call is done. */
  lemma ToldNext(done: set<nat>, job: Job, outputs: seq<Json>, was: seq<Action>, own: seq<Action>, from: nat,
                 a: RunState, b: RunState, i: nat, output: Json)
    requires AllTold(done, job, outputs, was, from, a.calls) && Monotone(a, b) && was <= own && from <= |was|
    requires i < |job.calls| && HasOutcome(b.calls, job.calls[i].callId)
    requires Carried(own, from, job, i, output)
    ensures AllTold(done + {i}, job, outputs[i := output], own, from, b.calls)
  {
    AllToldStays(done, job, outputs, was, own, from, a, b);
  }

  /** What the model is told of a call: the outcome listed for it, or what was done about it since. */
  ghost predicate RightAt(rows: map<string, ToolCall>, own: seq<Action>, from: nat, job: Job, i: nat, output: Json)
    requires i < |job.calls|
  {
    && HasOutcome(rows, job.calls[i].callId)
    && (if job.Plan(i).Reuse? then output == job.Plan(i).output else Carried(own, from, job, i, output))
  }

  /** Every call of the message has the right output, in call order. */
  ghost predicate AllRight(rows: map<string, ToolCall>, own: seq<Action>, from: nat, job: Job, outputs: seq<Json>) {
    |outputs| == |job.calls| && forall i | 0 <= i < |job.calls| :: RightAt(rows, own, from, job, i, outputs[i])
  }

  lemma AllRightStays(a: RunState, was: seq<Action>, b: RunState, own: seq<Action>, from: nat, job: Job,
                      outputs: seq<Json>)
    requires AllRight(a.calls, was, from, job, outputs) && Monotone(a, b) && was <= own
    ensures AllRight(b.calls, own, from, job, outputs)
  {
    forall i | 0 <= i < |job.calls| ensures RightAt(b.calls, own, from, job, i, outputs[i]) {
      assert RightAt(a.calls, was, from, job, i, outputs[i]);
      if !job.Plan(i).Reuse? { CarriedStays(was, own, from, job, i, outputs[i]); }
    }
  }

  /** Reused or done, every call is told right. */
  lemma DoneIsRight(rows: map<string, ToolCall>, own: seq<Action>, n: nat, from: nat, job: Job, planned: seq<Json>,
                    outputs: seq<Json>, done: set<nat>)
    requires |planned| == |job.calls| && from <= n && AllTold(done, job, outputs, own, n, rows)
    requires forall i | 0 <= i < |job.calls| && job.Plan(i).Reuse? :: planned[i] == job.Plan(i).output
    requires forall i | 0 <= i < |job.calls| :: job.Plan(i).Reuse? <==> i !in done
    requires forall i | 0 <= i < |job.calls| && i !in done :: outputs[i] == planned[i]
    requires forall c | HasOutcome(job.listed, c) :: HasOutcome(rows, c)
    ensures AllRight(rows, own, from, job, outputs)
  {
    forall i | 0 <= i < |job.calls| ensures RightAt(rows, own, from, job, i, outputs[i]) {
      if i in done { CarriedSince(own, n, from, job, i, outputs[i]); }
    }
  }

  /** Only what is done has a new output, and only what `order` names is done since. */
  ghost predicate Touched(before: seq<Json>, outputs: seq<Json>, settled: set<nat>, done: set<nat>, order: seq<nat>) {
    && |outputs| == |before| && settled <= done
    && (forall i | 0 <= i < |outputs| && i !in done :: outputs[i] == before[i])
    && (forall i <- done :: i in settled || i in order)
  }

  lemma TouchedNext(before: seq<Json>, outputs: seq<Json>, settled: set<nat>, done: set<nat>, order: seq<nat>,
                    k: nat, output: Json)
    requires Touched(before, outputs, settled, done, order) && k < |order| && order[k] < |outputs|
    ensures Touched(before, outputs[order[k] := output], settled, done + {order[k]}, order)
  {
  }

  // --- What a worker stands on meanwhile -------------------------------------

  /** What is left of `Rely` across a tool's own run: it takes the start out of hand. */
  ghost predicate Quiet(h: Holder, a: Sys, b: Sys) {
    && h in a.pcs && h in b.pcs && b.pcs[h] == a.pcs[h]
    && Monotone(a.s, b.s)
    && (HoldsRun(b, h) ==> HoldsRun(a, h) && b.s.messages == a.s.messages)
  }

  lemma QuietRefl(h: Holder, a: Sys)
    requires h in a.pcs
    ensures Quiet(h, a, a)
  {
  }

  lemma QuietTrans(h: Holder, a: Sys, b: Sys, c: Sys)
    requires Quiet(h, a, b) && Quiet(h, b, c)
    ensures Quiet(h, a, c)
  {
    MonotoneTrans(a.s, b.s, c.s);
  }

  predicate Answering(y: Sys, h: Holder, calls: seq<CallRequest>) {
    ViewOf(y, h).Some? && var view := ViewOf(y, h).value; EndsAsking(view) && view[|view| - 1].calls == calls
  }

  /**
   The calls are those of the message the worker read, it has listed the rows, and what it
   has tried to start since is settled by now or still `open`.
   */
  ghost predicate Prepared(y: Sys, job: Job, open: set<string>) {
    && Answering(y, job.holder, job.calls)
    && job.holder in y.known && y.known[job.holder].listed == job.listed
    && (forall c <- job.listed :: c in y.s.calls)
    && (forall c <- y.known[job.holder].started :: c in open || HasOutcome(y.s.calls, c))
  }

  lemma PreparedStays(a: Sys, b: Sys, job: Job, open: set<string>)
    requires Prepared(a, job, open) && Quiet(job.holder, a, b) && KnownOf(b, job.holder) == KnownOf(a, job.holder)
    ensures Prepared(b, job, open)
  {
  }

  /** The worker may send this start now and, if it comes to nothing, later. */
  ghost predicate MaySend(y: Sys, job: Job, open: set<string>, start: StartInput) {
    && Prepared(y, job, open) && Asked(job.calls, start.callId) && !start.status.Pending?
    && (start.status.Executing? && start.effect != Some(Read) ==>
          start.callId !in open && !(start.callId in job.listed && job.listed[start.callId].status.Executing?))
  }

  lemma MayStartOrRefused(y: Sys, job: Job, open: set<string>, start: StartInput)
    requires MaySend(y, job, open, start)
    ensures MayStart(y, job.holder, start) || Started(y.s, start, Some(job.holder), y.now).None?
  {
  }

  /** A start as it leaves the worker: what it holds on to, and the token to run the tool with. */
  lemma AfterStart(y0: Sys, trace: seq<Action>, first: Sys, at: Sys, job: Job, open: set<string>, start: StartInput)
    requires From(y0, trace, at) && MaySend(first, job, open, start)
    requires Rely(job.holder, first, at) && KnownOf(at, job.holder) == KnownOf(first, job.holder)
    ensures var h := job.holder;
            var z := Do(at, WorkerStarts(h, start));
            && z.s == Apply(at.s, StartToolCall(start, Some(h)), at.now) && z.now == at.now
            && Rely(h, first, z) && Prepared(z, job, open + {start.callId})
            && (Started(at.s, start, Some(h), at.now).Some? <==> HoldsRun(at, h) && Startable(at.s.calls, start.callId))
            && (Started(at.s, start, Some(h), at.now).Some? ==>
                  && start.callId in z.s.calls && z.s.calls[start.callId].status == start.status
                  && (start.status.Executing? ==> HasToken(z, h, |at.log|) && |at.log| >= |first.log|))
  {
    PreparedStays(first, at, job, open);
    MayStartOrRefused(at, job, open, start);
    StartFrom(y0, trace, at, job.holder, start);
    RelyTrans(job.holder, first, at, Do(at, WorkerStarts(job.holder, start)));
  }

  predicate HasToken(y: Sys, h: Holder, token: nat) {
    StartAt(y.log, token) && token in y.inHand && y.log[token].holder == h
  }

  /** What was to be run still is, but for the run of one's own that `spent` names. */
  ghost predicate KeepsTokens(h: Holder, a: Sys, b: Sys, spent: Option<nat>) {
    |a.log| <= |b.log| && forall t: nat | HasToken(a, h, t) && spent != Some(t) :: HasToken(b, h, t)
  }

  /** The first `k` of the writes are done, one after the other. */
  ghost predicate Writing(y: Sys, own: seq<Action>, from: nat, job: Job, order: seq<nat>, k: nat, before: seq<Json>,
                          outputs: seq<Json>, settled: set<nat>, done: set<nat>)
  {
    && Prepared(y, job, {}) && AllTold(done, job, outputs, own, from, y.s.calls)
    && Touched(before, outputs, settled, done, order)
    && k <= |order| && forall j | 0 <= j < k :: order[j] in done
  }

  lemma WritingNext(a: Sys, was: seq<Action>, b: Sys, own: seq<Action>, from: nat, job: Job, order: seq<nat>, k: nat,
                    before: seq<Json>, outputs: seq<Json>, settled: set<nat>, done: set<nat>, output: Json)
    requires Writing(a, was, from, job, order, k, before, outputs, settled, done) && k < |order|
    requires InCalls(job, order) && from <= |was| && was <= own
    requires Quiet(job.holder, a, b) && Prepared(b, job, {})
    requires HasOutcome(b.s.calls, job.calls[order[k]].callId) && Carried(own, |was|, job, order[k], output)
    ensures Writing(b, own, from, job, order, k + 1, before, outputs[order[k] := output], settled, done + {order[k]})
  {
    CarriedSince(own, |was|, from, job, order[k], output);
    ToldNext(done, job, outputs, was, own, from, a.s, b.s, order[k], output);
    TouchedNext(before, outputs, settled, done, order, k, output);
  }

  // --- Reads under way -------------------------------------------------------

  datatype ReadStage =
    | Unsent
    | Flying
    | Landed(value: Option<Json>, error: Option<Json>)  // to be recorded
    | Settled
    | Lost  // its first statement was refused
  {
    function Left(): nat {
      match this
      case Unsent => 4
      case Flying => 3
      case Landed(value, _) => if value.Some? then 2 else 1
      case _ => 0
    }

    predicate Over() { Settled? || Lost? }

    predicate Open() { Flying? || Landed? || Lost? }
  }

  function Left(stages: seq<ReadStage>): nat {
    if stages == [] then 0 else Left(stages[..|stages| - 1]) + stages[|stages| - 1].Left()
  }

  lemma {:induction false} LeftDrops(stages: seq<ReadStage>, j: nat, stage: ReadStage)
    requires j < |stages| && stage.Left() < stages[j].Left()
    ensures Left(stages[j := stage]) < Left(stages)
  {
    var n := |stages| - 1;
    if j < n {
      LeftDrops(stages[..n], j, stage);
      assert stages[j := stage][..n] == stages[..n][j := stage];
    } else {
      assert stages[j := stage][..n] == stages[..n];
    }
  }

  /** The calls whose start was sent and that are not recorded yet. */
  function OpenIds(job: Job, order: seq<nat>, stages: seq<ReadStage>): set<string>
    requires InCalls(job, order) && |stages| == |order|
  {
    set j | 0 <= j < |order| && stages[j].Open() :: job.calls[order[j]].callId
  }

  /** What is open when one read moves on, but for the call that is recorded then. */
  lemma OpenNext(job: Job, order: seq<nat>, stages: seq<ReadStage>, j: nat, stage: ReadStage)
    requires InCalls(job, order) && |stages| == |order| && j < |order|
    ensures var open, open' := OpenIds(job, order, stages), OpenIds(job, order, stages[j := stage]);
            var id := job.calls[order[j]].callId;
            && (stage.Open() ==> id in open')
            && (forall c | c in open && c != id :: c in open')
            && (!stages[j].Open() ==> open <= open') && (stages[j].Open() && stage.Open() ==> open' == open)
  {
    var open, open' := OpenIds(job, order, stages), OpenIds(job, order, stages[j := stage]);
    forall c | c in open && (c != job.calls[order[j]].callId || !stages[j].Open()) ensures c in open' {
      var k :| 0 <= k < |order| && stages[k].Open() && job.calls[order[k]].callId == c;
      assert stages[j := stage][k].Open();
    }
    if stages[j].Open() && stage.Open() {
      forall k | 0 <= k < |order| ensures stages[j := stage][k].Open() <==> stages[k].Open() {}
      assert open' == open;
    }
  }

  /** How far one read has come, as the worker's own actions tell it. */
  ghost predicate ReadAt(y: Sys, own: seq<Action>, from: nat, job: Job, i: nat, stage: ReadStage, t: Trail)
    requires i < |job.calls|
  {
    var call, plan := job.calls[i], job.Plan(i);
    match stage
    case Flying =>
      && plan.Execute? && call.callId in y.s.calls
      && HasToken(y, job.holder, t.token) && WasStarted(own, from, job, call, plan.tool, t)
    case Landed(value, error) =>
      && plan.Execute? && call.callId in y.s.calls && t.value == value && t.error == error
      && WasRun(own, from, job, call, plan.tool, t)
    case _ => true
  }

  /** Every read is where its stage says, no two wait for the same start, and what is settled is told. */
  ghost predicate Reading(y: Sys, own: seq<Action>, from: nat, job: Job, order: seq<nat>, stages: seq<ReadStage>,
                          trails: seq<Trail>)
  {
    && |stages| == |trails| == |order| && InCalls(job, order)
    && (forall j | 0 <= j < |order| :: ReadAt(y, own, from, job, order[j], stages[j], trails[j]))
    && (forall j, k | 0 <= j < k < |order| && stages[j].Flying? && stages[k].Flying? ::
         trails[j].token != trails[k].token)
  }

  lemma ReadAtStays(a: Sys, was: seq<Action>, b: Sys, own: seq<Action>, from: nat, job: Job, i: nat, stage: ReadStage,
                    t: Trail, spent: Option<nat>)
    requires i < |job.calls| && ReadAt(a, was, from, job, i, stage, t) && was <= own
    requires Quiet(job.holder, a, b) && KeepsTokens(job.holder, a, b, spent)
    requires stage.Flying? ==> spent != Some(t.token)
    ensures ReadAt(b, own, from, job, i, stage, t)
  {
  }

  /** One read moves on, and the others are where they were. */
  lemma ReadingNext(a: Sys, was: seq<Action>, b: Sys, own: seq<Action>, from: nat, job: Job, order: seq<nat>,
                    stages: seq<ReadStage>, trails: seq<Trail>, j: nat, stage: ReadStage, t: Trail)
    requires Reading(a, was, from, job, order, stages, trails) && j < |order| && was <= own
    requires Quiet(job.holder, a, b)
    requires KeepsTokens(job.holder, a, b, if stages[j].Flying? then Some(trails[j].token) else None)
    requires ReadAt(b, own, from, job, order[j], stage, t)
    requires stage.Flying? ==> t.token >= |a.log|
    ensures Reading(b, own, from, job, order, stages[j := stage], trails[j := t])
  {
    var spent := if stages[j].Flying? then Some(trails[j].token) else None;
    forall k | 0 <= k < |order| && k != j ensures ReadAt(b, own, from, job, order[k], stages[k], trails[k]) {
      ReadAtStays(a, was, b, own, from, job, order[k], stages[k], trails[k], spent);
    }
  }

  /** The read at `j` has come to `stage` by one statement. */
  ghost predicate Came(y: Sys, own: seq<Action>, from: nat, job: Job, order: seq<nat>, stages: seq<ReadStage>,
                       trails: seq<Trail>, j: nat, stage: ReadStage, t: Trail, output: Json)
  {
    && |stages| == |trails| == |order| && InCalls(job, order) && j < |order| && stage.Left() < stages[j].Left()
    && Reading(y, own, from, job, order, stages[j := stage], trails[j := t])
    && Prepared(y, job, OpenIds(job, order, stages[j := stage]))
    && (stage.Settled? ==>
          HasOutcome(y.s.calls, job.calls[order[j]].callId) && Carried(own, from, job, order[j], output))
  }

  /** All reads where their stages say; those settled have their outputs. */
  ghost predicate Underway(y: Sys, own: seq<Action>, from: nat, job: Job, order: seq<nat>, before: seq<Json>,
                           stages: seq<ReadStage>, trails: seq<Trail>, outputs: seq<Json>, done: set<nat>)
  {
    && Reading(y, own, from, job, order, stages, trails) && Prepared(y, job, OpenIds(job, order, stages))
    && AllTold(done, job, outputs, own, from, y.s.calls) && Touched(before, outputs, {}, done, order)
    && (forall j | 0 <= j < |order| && stages[j].Settled? :: order[j] in done)
  }

  /** A read's tool was run. */
  lemma FlightComes(a: Sys, was: seq<Action>, b: Sys, own: seq<Action>, from: nat, job: Job, order: seq<nat>,
                    stages: seq<ReadStage>, trails: seq<Trail>, j: nat, value: Option<Json>, error: Option<Json>)
    requires Reading(a, was, from, job, order, stages, trails) && Prepared(a, job, OpenIds(job, order, stages))
    requires j < |order| && stages[j].Flying? && from <= |was|
    requires Quiet(job.holder, a, b) && KnownOf(b, job.holder) == KnownOf(a, job.holder)
    requires KeepsTokens(job.holder, a, b, Some(trails[j].token))
    requires own == was + [WorkerRuns(job.holder, trails[j].token)]
    ensures Came(b, own, from, job, order, stages, trails, j, Landed(value, error),
                 trails[j].(run := |was|, value := value, error := error), "null")
  {
    assert ReadAt(a, was, from, job, order[j], stages[j], trails[j]);
    OpenNext(job, order, stages, j, Landed(value, error));
    PreparedStays(a, b, job, OpenIds(job, order, stages));
    ReadingNext(a, was, b, own, from, job, order, stages, trails, j, Landed(value, error),
                trails[j].(run := |was|, value := value, error := error));
  }

  /** What came of it was recorded. */
  lemma LandingComes(a: Sys, was: seq<Action>, b: Sys, own: seq<Action>, from: nat, job: Job, order: seq<nat>,
                     stages: seq<ReadStage>, trails: seq<Trail>, j: nat)
    requires Reading(a, was, from, job, order, stages, trails) && Prepared(a, job, OpenIds(job, order, stages))
    requires j < |order| && stages[j].Landed? && from <= |was|
    requires Rely(job.holder, a, b) && KnownOf(b, job.holder) == KnownOf(a, job.holder)
    requires HasOutcome(b.s.calls, job.calls[order[j]].callId)
    requires own == was + [RecordOf(job, job.calls[order[j]], stages[j].value, stages[j].error)]
    ensures Came(b, own, from, job, order, stages, trails, j, Settled, trails[j].(finish := |was|),
                 Told(stages[j].value, stages[j].error, job.offer.resultChars))
  {
    var t := trails[j].(finish := |was|);
    var output := Told(stages[j].value, stages[j].error, job.offer.resultChars);
    assert ReadAt(a, was, from, job, order[j], stages[j], trails[j]);
    assert Executed(own, from, job, job.calls[order[j]], job.Plan(order[j]).tool, output, t);
    OpenNext(job, order, stages, j, Settled);
    PreparedStays(a, b, job, OpenIds(job, order, stages));
    ReadingNext(a, was, b, own, from, job, order, stages, trails, j, Settled, t);
  }

  /** The record of a success is said to have failed, whether it has or not: it is to be recorded as a failure. */
  lemma MissComes(a: Sys, was: seq<Action>, b: Sys, own: seq<Action>, from: nat, job: Job, order: seq<nat>,
                  stages: seq<ReadStage>, trails: seq<Trail>, j: nat, error: Option<Json>)
    requires Reading(a, was, from, job, order, stages, trails) && Prepared(a, job, OpenIds(job, order, stages))
    requires j < |order| && stages[j].Landed? && stages[j].value.Some? && from <= |was| && was <= own
    requires Rely(job.holder, a, b) && KnownOf(b, job.holder) == KnownOf(a, job.holder)
    ensures Came(b, own, from, job, order, stages, trails, j, Landed(None, error),
                 trails[j].(value := None, error := error), "null")
  {
    assert ReadAt(a, was, from, job, order[j], stages[j], trails[j]);
    OpenNext(job, order, stages, j, Landed(None, error));
    PreparedStays(a, b, job, OpenIds(job, order, stages));
    ReadingNext(a, was, b, own, from, job, order, stages, trails, j, Landed(None, error),
                trails[j].(value := None, error := error));
  }

  lemma NoneUnderway(y: Sys, own: seq<Action>, from: nat, job: Job, order: seq<nat>, before: seq<Json>)
    requires Prepared(y, job, {}) && InCalls(job, order) && |before| == |job.calls|
    ensures Underway(y, own, from, job, order, before, seq(|order|, _ => Unsent),
                     seq(|order|, _ => Trail(0, 0, 0, 0, None, None)), before, {})
  {
    assert OpenIds(job, order, seq(|order|, _ => Unsent)) == {};
  }

  lemma AllSettled(y: Sys, own: seq<Action>, from: nat, job: Job, order: seq<nat>, before: seq<Json>,
                   stages: seq<ReadStage>, trails: seq<Trail>, outputs: seq<Json>, done: set<nat>)
    requires Underway(y, own, from, job, order, before, stages, trails, outputs, done)
    requires forall j | 0 <= j < |order| :: stages[j].Settled?
    ensures Prepared(y, job, {}) && forall i <- order :: i in done
  {
    assert OpenIds(job, order, stages) == {};
  }

  lemma UnderwayNext(a: Sys, was: seq<Action>, b: Sys, own: seq<Action>, from: nat, job: Job, order: seq<nat>,
                     before: seq<Json>, stages: seq<ReadStage>, trails: seq<Trail>, outputs: seq<Json>, done: set<nat>,
                     j: nat, stage: ReadStage, t: Trail, output: Json)
    requires Underway(a, was, from, job, order, before, stages, trails, outputs, done)
    requires j < |order| && Came(b, own, from, job, order, stages, trails, j, stage, t, output)
    requires Quiet(job.holder, a, b) && was <= own && from <= |was|
    ensures Underway(b, own, from, job, order, before, stages[j := stage], trails[j := t],
                     if stage.Settled? then outputs[order[j] := output] else outputs,
                     if stage.Settled? then done + {order[j]} else done)
    ensures Left(stages[j := stage]) < Left(stages)
  {
    LeftDrops(stages, j, stage);
    if stage.Settled? {
      ToldNext(done, job, outputs, was, own, from, a.s, b.s, order[j], output);
      TouchedNext(before, outputs, {}, done, order, j, output);
    } else {
      AllToldStays(done, job, outputs, was, own, from, a.s, b.s);
    }
  }
}
