/**
 The agent-run protocol: any number of workers, the API and the sweep working on one
 run, interleaved statement by statement. A worker may stop at any point, be overtaken
 and go on late; a statement it sends after that meets the state as it is by then.

 `Action` over-approximates what a worker of the run loop does between two looks at the
 transcript: it may run and finish calls, count steps, renew and warn at any time, even
 after it has lost the run. What follows the loop is what it appends, when it ends or parks
 the run, and which calls it starts: that depends on the transcript it last read and on
 the rows of calls it listed.
 */
module RunProtocol {
  import opened Wrappers
  import opened RunModel
  import opened RunInvariants

  datatype Pc =
    | Ready                      // about to read the transcript
    | Viewed(view: seq<Message>) // deciding on the transcript as read
    | Ending                     // its last step asked for tools: it only ends the run
    | Gone                       // returned, crashed or fenced off

  /** The rows of calls as a worker listed them, and what it has tried to start since. */
  datatype Known = Known(listed: map<string, ToolCall>, started: set<string>)

  datatype Event =
    | StartEvent(callId: string, holder: Holder, effect: Option<Effect>, over: bool)
    | RunEvent(token: nat, holder: Holder)  // the tool of the start logged at `token` was run

  datatype Sys = Sys(
    now: Time,
    s: RunState,
    pcs: map<Holder, Pc>,
    known: map<Holder, Known>,
    claims: seq<Holder>,           // successful claims, oldest first
    authors: seq<Option<Holder>>,  // who appended each message; None for the API
    inHand: set<nat>,              // starts, by their place in the log, not yet run
    log: seq<Event>)

  /** What a worker appends, as the loop builds it from the transcript it read. */
  datatype Addition =
    | Results(outputs: seq<Json>)   // the answer to the calls of the last message
    | Note(text: string)            // the last-step note
    | ModelStep(messages: seq<Message>, last: bool)  // `last`: no further step is allowed

  datatype Action =
    | Tick(seconds: nat)
    | Outside(st: Statement)               // the API or the sweep
    | ApiMessage(text: string)
    | WorkerClaims(h: Holder, lease: nat)
    | WorkerReads(h: Holder)
    | WorkerLists(h: Holder)
    | WorkerSends(h: Holder, st: Statement)
    | WorkerStarts(h: Holder, start: StartInput)
    | WorkerRuns(h: Holder, token: nat)
    | WorkerAppends(h: Holder, addition: Addition)
    | WorkerSucceeds(h: Holder)
    | WorkerParks(h: Holder)
    | WorkerStops(h: Holder)

  /** The statements of the API (cancel, could not queue) and of the sweep. */
  predicate OutsideMay(st: Statement) {
    match st
    case RequestCancel => true
    case Finish(outcome, worker) => outcome.EndFailed? && worker.None?
    case CancelAbandoned => true
    case RequeueStale(_) => true
    case FailStalled => true
    case CloseIdle(_) => true
    case _ => false
  }

  /** The statements a worker may send whatever it last read, and however late. */
  predicate WorkerMay(h: Holder, st: Statement) {
    match st
    case RenewLease(owner, _) => owner == h
    case FinishToolCall(_, result) => !result.status.Live()
    case RecordStep(_, _) => true
    case AddWarning(_) => true
    case Finish(outcome, worker) => !outcome.EndSucceeded? && worker == Some(h)
    case _ => false
  }

  // --- The shape of a transcript ---------------------------------------------

  predicate Asks(m: Message) { m.Assistant? && m.calls != [] }

  predicate Replies(m: Message) { m.Assistant? && m.calls == [] }

  /** The tool message with these outputs for the calls, in call order. */
  function ResultsFor(calls: seq<CallRequest>, outputs: seq<Json>): Message
    requires |outputs| == |calls|
  {
    ToolMessage(seq(|calls|, k requires 0 <= k < |calls| =>
                  CallResult(calls[k].callId, calls[k].name, outputs[k])))
  }

  ghost predicate Answers(a: Message, t: Message) {
    && Asks(a) && t.ToolMessage? && |t.results| == |a.calls|
    && forall k | 0 <= k < |a.calls| ::
         t.results[k].callId == a.calls[k].callId && t.results[k].name == a.calls[k].name
  }

  /** The answers to a message are exactly the messages built from one output for each call. */
  lemma AnswersIff(a: Message, t: Message)
    requires Asks(a)
    ensures Answers(a, t) <==>
            exists outputs: seq<Json> :: |outputs| == |a.calls| && t == ResultsFor(a.calls, outputs)
  {
    if Answers(a, t) {
      var outputs := seq(|t.results|, k requires 0 <= k < |t.results| => t.results[k].output);
      assert ResultsFor(a.calls, outputs).results == t.results;
    }
  }

  /**
   An assistant message with calls is last or directly followed by its answer, and a
   tool message stands only there: so each is answered at most once, by one message.
   */
  ghost predicate Grammar(m: seq<Message>) {
    && (forall i | 0 <= i < |m| - 1 :: Asks(m[i]) ==> Answers(m[i], m[i + 1]))
    && (forall i | 0 <= i < |m| :: m[i].ToolMessage? ==> i > 0 && Answers(m[i - 1], m[i]))
  }

  predicate EndsAsking(m: seq<Message>) { m != [] && Asks(m[|m| - 1]) }

  predicate AtRest(m: seq<Message>) { m != [] && Replies(m[|m| - 1]) }

  predicate AwaitsModel(m: seq<Message>) { m == [] || !m[|m| - 1].Assistant? }

  predicate EndsInNote(m: seq<Message>) { m != [] && m[|m| - 1].User? && m[|m| - 1].note }

  /** What takes over a running run, settles calls or lets time pass. */
  predicate SettlesOnly(a: Action) {
    match a
    case Tick(_) => true
    case WorkerClaims(_, _) => true
    case WorkerReads(_) => true
    case WorkerLists(_) => true
    case WorkerSends(_, st) => st.RenewLease? || st.FinishToolCall?
    case WorkerStarts(_, _) => true
    case WorkerRuns(_, _) => true
    case WorkerStops(_) => true
    case _ => false
  }

  /** What one model step returns: assistant messages, of which only the last asks. */
  predicate StepShape(m: seq<Message>) {
    && m != []
    && (forall k | 0 <= k < |m| :: m[k].Assistant?)
    && (forall k | 0 <= k < |m| - 1 :: Replies(m[k]))
  }

  // --- One action ------------------------------------------------------------

  function Init(mode: Mode, limits: Limits, opening: seq<Message>, now: Time): Sys {
    Sys(now, Created(mode, limits, opening, now), map[], map[], [],
        seq(|opening|, _ => None), {}, [])
  }

  function Store(y: Sys, st: Statement): Sys { y.(s := Apply(y.s, st, y.now)) }

  function Move(y: Sys, h: Holder, pc: Pc): Sys { y.(pcs := y.pcs[h := pc]) }

  function ViewOf(y: Sys, h: Holder): Option<seq<Message>> {
    if h in y.pcs && y.pcs[h].Viewed? then Some(y.pcs[h].view) else None
  }

  predicate HoldsRun(y: Sys, h: Holder) { y.s.run.leaseOwner == Some(h) }

  /** A worker's append: fenced by the lease; refused, the worker gives up. */
  function Append(y: Sys, h: Holder, messages: seq<Message>, next: Pc): Sys {
    if HoldsRun(y, h) then
      Move(Store(y, AppendMessages(messages, Some(h))), h, next)
        .(authors := y.authors + seq(|messages|, _ => Some(h)))
    else Move(Store(y, AppendMessages(messages, Some(h))), h, Gone)
  }

  /** The messages an addition stands for, when the loop would make it on `view`. */
  function Added(view: seq<Message>, addition: Addition): Option<seq<Message>> {
    match addition
    case Results(outputs) =>
      if EndsAsking(view) && |outputs| == |view[|view| - 1].calls| then
        Some([ResultsFor(view[|view| - 1].calls, outputs)])
      else None
    case Note(text) =>
      if AwaitsModel(view) && !EndsInNote(view) then Some([User(text, true)]) else None
    case ModelStep(messages, _) =>
      if AwaitsModel(view) && StepShape(messages) then Some(messages) else None
  }

  /** After its last step has asked, a worker reads no more. */
  function NextPc(addition: Addition): Pc {
    if addition.ModelStep? && addition.last && EndsAsking(addition.messages) then Ending else Ready
  }

  predicate Asked(calls: seq<CallRequest>, callId: string) { exists c <- calls :: c.callId == callId }

  /** The call is one of those the last message asks for. */
  predicate AsksFor(view: seq<Message>, callId: string) {
    EndsAsking(view) && Asked(view[|view| - 1].calls, callId)
  }

  /**
   The start of a call as the loop may send it: for a call of the message it is to answer
   and after listing the rows; and to run a tool that is not a read only where the listed
   row was not in flight and this worker has not tried since.
   */
  predicate MayStart(y: Sys, h: Holder, start: StartInput) {
    && ViewOf(y, h).Some? && AsksFor(ViewOf(y, h).value, start.callId) && h in y.known
    && !start.status.Pending?
    && (start.status.Executing? && start.effect != Some(Read) ==> NotInFlight(y.known[h], start.callId))
  }

  predicate NotInFlight(k: Known, callId: string) {
    callId !in k.started && (callId in k.listed ==> !k.listed[callId].status.Executing?)
  }

  /** The store starts the call for its holder: it has no row, or that of a read in flight. */
  predicate Startable(rows: map<string, ToolCall>, callId: string) {
    callId in rows ==>
      rows[callId].status.Pending? || (rows[callId].status.Executing? && rows[callId].effect == Some(Read))
  }

  predicate StartAt(log: seq<Event>, i: int) { 0 <= i < |log| && log[i].StartEvent? }

  predicate RunAt(log: seq<Event>, k: int) { 0 <= k < |log| && log[k].RunEvent? }

  function Tried(y: Sys, h: Holder, callId: string): map<Holder, Known> {
    if h in y.known then y.known[h := y.known[h].(started := y.known[h].started + {callId})] else y.known
  }

  /** A start as it meets the store; one that gets through is to be run, and is logged. */
  function Start(y: Sys, h: Holder, start: StartInput): Sys {
    if Started(y.s, start, Some(h), y.now).Some? && start.status.Executing? then
      Store(y, StartToolCall(start, Some(h)))
        .(known := Tried(y, h, start.callId), inHand := y.inHand + {|y.log|},
          log := y.log + [StartEvent(start.callId, h, start.effect, y.s.run.status.Terminal())])
    else Store(y, StartToolCall(start, Some(h))).(known := Tried(y, h, start.callId))
  }

  function Do(y: Sys, a: Action): Sys {
    match a
    case Tick(seconds) => y.(now := y.now + seconds)
    case Outside(st) => if OutsideMay(st) then Store(y, st) else y
    case ApiMessage(text) =>
      if y.s.run.status.WaitingInput? then
        Store(y, AddUserMessage(text)).(authors := y.authors + [None])
      else Store(y, AddUserMessage(text))
    case WorkerClaims(h, lease) =>
      // A fresh name per claim: one that was ever used is never used again.
      if h in y.pcs then y
      else if Claimed(y.s.run, h, lease, y.now).Some? then
        Move(Store(y, Claim(h, lease)), h, Ready).(claims := y.claims + [h])
      else Move(y, h, Gone)
    case WorkerReads(h) =>
      if h in y.pcs && y.pcs[h].Ready? then Move(y, h, Viewed(y.s.messages)) else y
    case WorkerLists(h) => if h in y.pcs then y.(known := y.known[h := Known(y.s.calls, {})]) else y
    case WorkerSends(h, st) => if h in y.pcs && WorkerMay(h, st) then Store(y, st) else y
    case WorkerStarts(h, start) => if MayStart(y, h, start) then Start(y, h, start) else y
    case WorkerRuns(h, token) =>
      // Only the worker that made a start runs its tool, and only once.
      if token in y.inHand && StartAt(y.log, token) && y.log[token].holder == h then
        y.(inHand := y.inHand - {token}, log := y.log + [RunEvent(token, h)])
      else y
    case WorkerAppends(h, addition) =>
      var view := ViewOf(y, h);
      if view.Some? && Added(view.value, addition).Some? then
        Append(y, h, Added(view.value, addition).value, NextPc(addition))
      else y
    case WorkerSucceeds(h) =>
      var view := ViewOf(y, h);
      if view.Some? && AtRest(view.value) && y.s.run.mode.Task? then
        Move(Store(y, Finish(EndSucceeded(view.value[|view.value| - 1].text), Some(h))), h, Gone)
      else y
    case WorkerParks(h) =>
      var view := ViewOf(y, h);
      if view.Some? && AtRest(view.value) && y.s.run.mode.Chat? then
        Move(Store(y, WaitForInput(Some(h))), h, Gone)
      else y
    case WorkerStops(h) => if h in y.pcs then Move(y, h, Gone) else y
  }

  function RunOf(y: Sys, actions: seq<Action>): Sys
    decreases |actions|
  {
    if actions == [] then y else RunOf(Do(y, actions[0]), actions[1..])
  }

  // --- The inductive invariant -----------------------------------------------

  ghost predicate LeaseInv(y: Sys) {
    && RowInv(y.s.run)
    && (y.s.run.leaseOwner.Some? ==>
          y.claims != [] && y.claims[|y.claims| - 1] == y.s.run.leaseOwner.value)
    && (forall i | 0 <= i < |y.claims| :: y.claims[i] in y.pcs)
    && (forall i, j | 0 <= i < j < |y.claims| :: y.claims[i] != y.claims[j])
    // A worker that still holds the run has read the transcript as it is now.
    && (forall h | h in y.pcs :: HoldsRun(y, h) && y.pcs[h].Viewed? ==> y.pcs[h].view == y.s.messages)
  }

  ghost predicate TranscriptInv(y: Sys) {
    && Grammar(y.s.messages)
    && (y.s.run.status.WaitingInput? ==> y.s.run.mode.Chat? && AtRest(y.s.messages))
    && (y.s.run.status.Succeeded? ==> AtRest(y.s.messages))
    && (y.s.run.status.Succeeded? && y.s.run.mode.Task? ==>
          y.s.run.output == Some(y.s.messages[|y.s.messages| - 1].text))
  }

  /** The place of a message's author among the claims. */
  ghost predicate ByClaim(y: Sys, i: nat, k: nat) {
    i < |y.authors| && k < |y.claims| && y.authors[i] == Some(y.claims[k])
  }

  ghost predicate AuthorInv(y: Sys) {
    && |y.authors| == |y.s.messages|
    && (forall i | 0 <= i < |y.authors| :: y.authors[i].Some? ==> exists k :: ByClaim(y, i, k))
    && (forall i, j, k, l | 0 <= i < j && ByClaim(y, i, k) && ByClaim(y, j, l) :: k <= l)
  }

  /** Each run belongs to one earlier start of the same worker, and no start is run twice. */
  ghost predicate RunsMatch(y: Sys) {
    && (forall t <- y.inHand :: StartAt(y.log, t))
    && (forall k | RunAt(y.log, k) ::
          && y.log[k].token < k && StartAt(y.log, y.log[k].token)
          && y.log[y.log[k].token].holder == y.log[k].holder && y.log[k].token !in y.inHand)
    && (forall k, l | RunAt(y.log, k) && RunAt(y.log, l) && y.log[k].token == y.log[l].token :: k == l)
  }

  /** A start that is no read leaves no row that says read, and such a row has one start. */
  ghost predicate StartsMatch(y: Sys) {
    && (forall c <- y.s.calls :: !y.s.calls[c].status.Pending?)
    && (forall i | StartAt(y.log, i) ::
          && !y.log[i].over && y.log[i].callId in y.s.calls
          && (y.log[i].effect != Some(Read) ==> y.s.calls[y.log[i].callId].effect != Some(Read)))
    && (forall i, j | StartAt(y.log, i) && StartAt(y.log, j) && y.log[i].callId == y.log[j].callId
                      && y.s.calls[y.log[i].callId].effect != Some(Read) :: i == j)
  }

  ghost predicate LogInv(y: Sys) { RunsMatch(y) && StartsMatch(y) }

  /** Of what it has not tried to start since, it has listed every row, and as in flight what still is. */
  ghost predicate KnowsRows(k: Known, rows: map<string, ToolCall>) {
    forall c <- rows :: c !in k.started ==>
      && c in k.listed && k.listed[c].effect == rows[c].effect
      && (rows[c].status.Live() ==> k.listed[c].status.Live())
      && (rows[c].status.Executing? ==> k.listed[c].status.Executing?)
  }

  /** A worker that holds the run has missed no start since it listed the rows. */
  ghost predicate KnownInv(y: Sys) {
    forall h <- y.known :: h in y.pcs && (HoldsRun(y, h) ==> KnowsRows(y.known[h], y.s.calls))
  }

  ghost predicate Inv(y: Sys) {
    LeaseInv(y) && TranscriptInv(y) && AuthorInv(y) && LogInv(y) && KnownInv(y)
  }

  // --- Lease -----------------------------------------------------------------

  lemma StoreKeepsLease(y: Sys, st: Statement)
    requires LeaseInv(y) && !st.Claim? && !st.AppendMessages?
    ensures LeaseInv(Store(y, st))
  {
    StatementKeepsRowInv(y.s, st, y.now);
  }

  lemma MoveKeepsLease(y: Sys, h: Holder, pc: Pc)
    requires LeaseInv(y) && (pc.Viewed? ==> pc.view == y.s.messages)
    ensures LeaseInv(Move(y, h, pc))
  {
  }

  lemma AppendKeepsLease(y: Sys, h: Holder, messages: seq<Message>, next: Pc)
    requires LeaseInv(y) && !next.Viewed?
    ensures LeaseInv(Append(y, h, messages, next))
  {
  }

  lemma RestKeepsLease(y: Sys, h: Holder)
    requires LeaseInv(y)
    ensures LeaseInv(Do(y, WorkerSucceeds(h))) && LeaseInv(Do(y, WorkerParks(h)))
  {
    var view := ViewOf(y, h);
    if view.Some? && AtRest(view.value) {
      var st := if y.s.run.mode.Task? then Finish(EndSucceeded(view.value[|view.value| - 1].text), Some(h))
                else WaitForInput(Some(h));
      StoreKeepsLease(y, st);
      MoveKeepsLease(Store(y, st), h, Gone);
    }
  }

  lemma ClaimKeepsLease(y: Sys, h: Holder, lease: nat)
    requires LeaseInv(y)
    ensures LeaseInv(Do(y, WorkerClaims(h, lease)))
  {
    if h !in y.pcs && Claimed(y.s.run, h, lease, y.now).Some? {
      StatementKeepsRowInv(y.s, Claim(h, lease), y.now);
    }
  }

  lemma StartKeepsLease(y: Sys, h: Holder, start: StartInput)
    requires LeaseInv(y)
    ensures LeaseInv(Do(y, WorkerStarts(h, start)))
  {
    StoreKeepsLease(y, StartToolCall(start, Some(h)));
  }

  lemma DoKeepsLease(y: Sys, a: Action)
    requires LeaseInv(y)
    ensures LeaseInv(Do(y, a))
  {
    match a
    case Tick(_) =>
    case WorkerClaims(h, lease) => ClaimKeepsLease(y, h, lease);
    case WorkerRuns(_, _) =>
    case WorkerLists(_) =>
    case Outside(st) => if OutsideMay(st) { StoreKeepsLease(y, st); }
    case ApiMessage(text) => StoreKeepsLease(y, AddUserMessage(text));
    case WorkerReads(h) => MoveKeepsLease(y, h, Viewed(y.s.messages));
    case WorkerSends(h, st) => if WorkerMay(h, st) { StoreKeepsLease(y, st); }
    case WorkerStarts(h, start) => StartKeepsLease(y, h, start);
    case WorkerAppends(h, addition) =>
      var view := ViewOf(y, h);
      if view.Some? && Added(view.value, addition).Some? {
        AppendKeepsLease(y, h, Added(view.value, addition).value, NextPc(addition));
      }
    case WorkerSucceeds(h) => RestKeepsLease(y, h);
    case WorkerParks(h) => RestKeepsLease(y, h);
    case WorkerStops(h) => MoveKeepsLease(y, h, Gone);
  }

  // --- Transcript ------------------------------------------------------------

  lemma GrammarExtends(m: seq<Message>, next: Message)
    requires Grammar(m)
    requires if EndsAsking(m) then Answers(m[|m| - 1], next) else !next.ToolMessage?
    ensures Grammar(m + [next])
  {
    var m' := m + [next];
    forall i | 0 <= i < |m'| - 1 && Asks(m'[i]) ensures Answers(m'[i], m'[i + 1]) {
      if i < |m| - 1 { assert Answers(m[i], m[i + 1]); }
    }
    forall i | 0 <= i < |m'| && m'[i].ToolMessage? ensures i > 0 && Answers(m'[i - 1], m'[i]) {
      if i < |m| { assert i > 0 && Answers(m[i - 1], m[i]); }
    }
  }

  lemma {:induction false} StepExtends(m: seq<Message>, step: seq<Message>)
    requires Grammar(m) && !EndsAsking(m) && StepShape(step)
    ensures Grammar(m + step)
    decreases |step|
  {
    GrammarExtends(m, step[0]);
    if |step| == 1 {
      assert m + step == m + [step[0]];
    } else {
      assert (m + [step[0]])[|m|] == step[0] && Replies(step[0]);
      StepExtends(m + [step[0]], step[1..]);
      assert m + step == m + [step[0]] + step[1..];
    }
  }

  /** Statements that leave the transcript alone and neither park nor succeed. */
  predicate Plain(st: Statement) {
    && !st.AppendMessages? && !st.AddUserMessage? && !st.WaitForInput?
    && (st.Finish? ==> !st.outcome.EndSucceeded?)
  }

  lemma StoreKeepsTranscript(y: Sys, st: Statement)
    requires LeaseInv(y) && TranscriptInv(y) && Plain(st)
    ensures TranscriptInv(Store(y, st))
  {
  }

  lemma MessageKeepsTranscript(y: Sys, text: string)
    requires LeaseInv(y) && TranscriptInv(y)
    ensures TranscriptInv(Store(y, AddUserMessage(text)))
  {
    if y.s.run.status.WaitingInput? { GrammarExtends(y.s.messages, User(text, false)); }
  }

  lemma AppendKeepsTranscript(y: Sys, h: Holder, messages: seq<Message>, next: Pc)
    requires LeaseInv(y) && TranscriptInv(y)
    requires HoldsRun(y, h) ==> Grammar(y.s.messages + messages)
    ensures TranscriptInv(Append(y, h, messages, next))
  {
  }

  lemma SuccessKeepsTranscript(y: Sys, h: Holder)
    requires LeaseInv(y) && TranscriptInv(y)
    ensures TranscriptInv(Do(y, WorkerSucceeds(h)))
  {
  }

  lemma ParkKeepsTranscript(y: Sys, h: Holder)
    requires LeaseInv(y) && TranscriptInv(y)
    ensures TranscriptInv(Do(y, WorkerParks(h)))
  {
  }

  lemma AddedExtends(m: seq<Message>, addition: Addition)
    requires Grammar(m) && Added(m, addition).Some?
    ensures Grammar(m + Added(m, addition).value)
  {
    match addition
    case Results(outputs) => GrammarExtends(m, ResultsFor(m[|m| - 1].calls, outputs));
    case Note(text) => GrammarExtends(m, User(text, true));
    case ModelStep(messages, _) => StepExtends(m, messages);
  }

  lemma StartKeepsTranscript(y: Sys, h: Holder, start: StartInput)
    requires LeaseInv(y) && TranscriptInv(y)
    ensures TranscriptInv(Do(y, WorkerStarts(h, start)))
  {
    StoreKeepsTranscript(y, StartToolCall(start, Some(h)));
  }

  lemma DoKeepsTranscript(y: Sys, a: Action)
    requires LeaseInv(y) && TranscriptInv(y)
    ensures TranscriptInv(Do(y, a))
  {
    match a
    case Outside(st) => if OutsideMay(st) { StoreKeepsTranscript(y, st); }
    case ApiMessage(text) => MessageKeepsTranscript(y, text);
    case WorkerClaims(h, lease) => StoreKeepsTranscript(y, Claim(h, lease));
    case WorkerSends(h, st) => if WorkerMay(h, st) { StoreKeepsTranscript(y, st); }
    case WorkerStarts(h, start) => StartKeepsTranscript(y, h, start);
    case WorkerAppends(h, addition) =>
      var view := ViewOf(y, h);
      if view.Some? && Added(view.value, addition).Some? {
        if HoldsRun(y, h) { AddedExtends(y.s.messages, addition); }
        AppendKeepsTranscript(y, h, Added(view.value, addition).value, NextPc(addition));
      }
    case WorkerSucceeds(h) => SuccessKeepsTranscript(y, h);
    case WorkerParks(h) => ParkKeepsTranscript(y, h);
    case _ =>
  }

  // --- Authors ---------------------------------------------------------------

  /** Appending messages of the latest claim, or of nobody, keeps the authors in claim order. */
  lemma AuthorsExtend(y: Sys, y': Sys, who: Option<Holder>, n: nat)
    requires AuthorInv(y) && LeaseInv(y)
    requires y'.claims == y.claims && y'.authors == y.authors + seq(n, _ => who)
    requires |y'.s.messages| == |y'.authors|
    requires who.Some? ==> y.claims != [] && who.value == y.claims[|y.claims| - 1]
    ensures AuthorInv(y')
  {
    forall i | 0 <= i < |y'.authors| && y'.authors[i].Some? ensures exists k :: ByClaim(y', i, k) {
      if i < |y.authors| {
        var k :| ByClaim(y, i, k);
        assert ByClaim(y', i, k);
      } else {
        assert ByClaim(y', i, |y.claims| - 1);
      }
    }
    forall i, j, k, l | 0 <= i < j && ByClaim(y', i, k) && ByClaim(y', j, l) ensures k <= l {
      if j < |y.authors| { assert ByClaim(y, i, k) && ByClaim(y, j, l); }
    }
  }

  lemma AuthorsStay(y: Sys, y': Sys)
    requires AuthorInv(y) && LeaseInv(y)
    requires y'.authors == y.authors && |y'.s.messages| == |y.s.messages|
    requires y.claims <= y'.claims && |y'.claims| <= |y.claims| + 1
    requires |y'.claims| > |y.claims| ==> y'.claims[|y.claims|] !in y.claims
    ensures AuthorInv(y')
  {
    forall i, k | ByClaim(y', i, k) ensures ByClaim(y, i, k) {
      var k' :| ByClaim(y, i, k');
    }
    forall i | 0 <= i < |y'.authors| && y'.authors[i].Some? ensures exists k :: ByClaim(y', i, k) {
      var k :| ByClaim(y, i, k);
      assert ByClaim(y', i, k);
    }
  }

  lemma AppendKeepsAuthors(y: Sys, h: Holder, messages: seq<Message>, next: Pc)
    requires LeaseInv(y) && AuthorInv(y)
    ensures AuthorInv(Append(y, h, messages, next))
  {
    if HoldsRun(y, h) { AuthorsExtend(y, Append(y, h, messages, next), Some(h), |messages|); }
    else { AuthorsStay(y, Append(y, h, messages, next)); }
  }

  lemma RestKeepsAuthors(y: Sys, h: Holder)
    requires LeaseInv(y) && AuthorInv(y)
    ensures AuthorInv(Do(y, WorkerSucceeds(h))) && AuthorInv(Do(y, WorkerParks(h)))
  {
    AuthorsStay(y, Do(y, WorkerSucceeds(h)));
    AuthorsStay(y, Do(y, WorkerParks(h)));
  }

  lemma ClaimKeepsAuthors(y: Sys, h: Holder, lease: nat)
    requires LeaseInv(y) && AuthorInv(y)
    ensures AuthorInv(Do(y, WorkerClaims(h, lease)))
  {
    AuthorsStay(y, Do(y, WorkerClaims(h, lease)));
  }

  lemma StoreKeepsAuthors(y: Sys, st: Statement)
    requires LeaseInv(y) && AuthorInv(y) && !st.AppendMessages? && !st.AddUserMessage?
    ensures AuthorInv(Store(y, st))
  {
    AuthorsStay(y, Store(y, st));
  }

  lemma DoKeepsAuthors(y: Sys, a: Action)
    requires LeaseInv(y) && AuthorInv(y)
    ensures AuthorInv(Do(y, a))
  {
    match a
    case Outside(st) => if OutsideMay(st) { StoreKeepsAuthors(y, st); }
    case ApiMessage(text) =>
      if y.s.run.status.WaitingInput? { AuthorsExtend(y, Do(y, a), None, 1); }
    case WorkerClaims(h, lease) => ClaimKeepsAuthors(y, h, lease);
    case WorkerSends(h, st) => if WorkerMay(h, st) { StoreKeepsAuthors(y, st); }
    case WorkerAppends(h, addition) =>
      var view := ViewOf(y, h);
      if view.Some? && Added(view.value, addition).Some? {
        AppendKeepsAuthors(y, h, Added(view.value, addition).value, NextPc(addition));
      }
    case WorkerSucceeds(h) => RestKeepsAuthors(y, h);
    case WorkerParks(h) => RestKeepsAuthors(y, h);
    case _ => AuthorsStay(y, Do(y, a));
  }

  // --- Tool calls ------------------------------------------------------------

  lemma StoreKeepsLog(y: Sys, st: Statement)
    requires LogInv(y) && !st.StartToolCall? && st.WellTyped()
    ensures LogInv(Store(y, st))
  {
  }

  /** The log invariant reads only the calls, what is in hand and the log. */
  lemma SameLog(y: Sys, y': Sys)
    requires LogInv(y) && y'.log == y.log && y'.inHand == y.inHand && y'.s.calls == y.s.calls
    ensures LogInv(y')
  {
  }

  lemma StartKeepsRuns(y: Sys, h: Holder, start: StartInput)
    requires RunsMatch(y)
    ensures RunsMatch(Do(y, WorkerStarts(h, start)))
  {
    var y' := Do(y, WorkerStarts(h, start));
    forall k | RunAt(y'.log, k) ensures RunAt(y.log, k) {}
  }

  /** A start that is no read gets through only where there was no row: its row says so. */
  lemma UnreadStartIsFirst(y: Sys, h: Holder, start: StartInput)
    requires KnownInv(y) && StartsMatch(y) && MayStart(y, h, start)
    requires start.status.Executing? && start.effect != Some(Read) && Started(y.s, start, Some(h), y.now).Some?
    ensures start.callId !in y.s.calls
  {
    assert HoldsRun(y, h) && KnowsRows(y.known[h], y.s.calls);
  }

  lemma StartKeepsStarts(y: Sys, h: Holder, start: StartInput)
    requires LeaseInv(y) && KnownInv(y) && StartsMatch(y)
    ensures StartsMatch(Do(y, WorkerStarts(h, start)))
  {
    var y' := Do(y, WorkerStarts(h, start));
    if MayStart(y, h, start) && Started(y.s, start, Some(h), y.now).Some? {
      if start.status.Executing? && start.effect != Some(Read) { UnreadStartIsFirst(y, h, start); }
      forall i | StartAt(y'.log, i) && i < |y.log| ensures StartAt(y.log, i) {}
    }
  }

  // --- What workers know of the rows -----------------------------------------

  lemma StoreKeepsKnown(y: Sys, st: Statement)
    requires LeaseInv(y) && KnownInv(y) && !st.StartToolCall? && !st.Claim? && st.WellTyped()
    ensures KnownInv(Store(y, st))
  {
    forall h | h in y.known && HoldsRun(Store(y, st), h) ensures KnowsRows(y.known[h], Store(y, st).s.calls) {
      assert HoldsRun(y, h);
    }
  }

  lemma StartKeepsKnown(y: Sys, h: Holder, start: StartInput)
    requires LeaseInv(y) && KnownInv(y)
    ensures KnownInv(Do(y, WorkerStarts(h, start)))
  {
    var y' := Do(y, WorkerStarts(h, start));
    forall o | o in y'.known && HoldsRun(y', o) ensures o in y'.pcs && KnowsRows(y'.known[o], y'.s.calls) {
      assert HoldsRun(y, o);
    }
  }

  lemma ClaimKeepsKnown(y: Sys, h: Holder, lease: nat)
    requires LeaseInv(y) && KnownInv(y)
    ensures KnownInv(Do(y, WorkerClaims(h, lease)))
  {
    var y' := Do(y, WorkerClaims(h, lease));
    assert y'.s.calls == y.s.calls;
  }

  /** Nothing that leaves the rows, the lease and what is known alone can matter. */
  lemma SameKnown(y: Sys, y': Sys)
    requires KnownInv(y) && y'.known == y.known && y'.s.calls == y.s.calls && y.pcs.Keys <= y'.pcs.Keys
    requires forall h :: HoldsRun(y', h) ==> HoldsRun(y, h)
    ensures KnownInv(y')
  {
  }

  lemma ViewActionKeepsKnown(y: Sys, a: Action)
    requires LeaseInv(y) && KnownInv(y) && (a.WorkerAppends? || a.WorkerSucceeds? || a.WorkerParks?)
    ensures KnownInv(Do(y, a))
  {
    SameKnown(y, Do(y, a));
  }

  lemma DoKeepsKnown(y: Sys, a: Action)
    requires LeaseInv(y) && KnownInv(y)
    ensures KnownInv(Do(y, a))
  {
    match a
    case Outside(st) => if OutsideMay(st) { StoreKeepsKnown(y, st); }
    case ApiMessage(_) => SameKnown(y, Do(y, a));
    case WorkerClaims(h, lease) => ClaimKeepsKnown(y, h, lease);
    case WorkerSends(h, st) => if WorkerMay(h, st) { StoreKeepsKnown(y, st); }
    case WorkerStarts(h, start) => StartKeepsKnown(y, h, start);
    case WorkerLists(_) =>
    case WorkerAppends(_, _) => ViewActionKeepsKnown(y, a);
    case WorkerSucceeds(_) => ViewActionKeepsKnown(y, a);
    case WorkerParks(_) => ViewActionKeepsKnown(y, a);
    case _ => SameKnown(y, Do(y, a));
  }

  lemma RunKeepsLog(y: Sys, h: Holder, token: nat)
    requires LogInv(y)
    ensures LogInv(Do(y, WorkerRuns(h, token)))
  {
    var y' := Do(y, WorkerRuns(h, token));
    forall i | StartAt(y'.log, i) ensures StartAt(y.log, i) {}
    forall k | RunAt(y'.log, k) && k < |y.log| ensures RunAt(y.log, k) {}
  }

  lemma ViewActionKeepsLog(y: Sys, a: Action)
    requires LogInv(y) && (a.WorkerAppends? || a.WorkerSucceeds? || a.WorkerParks?)
    ensures LogInv(Do(y, a))
  {
    assert Do(y, a).s.calls == y.s.calls;
    SameLog(y, Do(y, a));
  }

  lemma DoKeepsLog(y: Sys, a: Action)
    requires LeaseInv(y) && KnownInv(y) && LogInv(y)
    ensures LogInv(Do(y, a))
  {
    match a
    case Outside(st) => if OutsideMay(st) { StoreKeepsLog(y, st); }
    case WorkerSends(h, st) => if WorkerMay(h, st) { StoreKeepsLog(y, st); }
    case WorkerStarts(h, start) => StartKeepsRuns(y, h, start); StartKeepsStarts(y, h, start);
    case WorkerRuns(h, token) => RunKeepsLog(y, h, token);
    case WorkerAppends(_, _) => ViewActionKeepsLog(y, a);
    case WorkerSucceeds(_) => ViewActionKeepsLog(y, a);
    case WorkerParks(_) => ViewActionKeepsLog(y, a);
    case _ => SameLog(y, Do(y, a));
  }

  // --- Main results ----------------------------------------------------------

  predicate Opening(m: seq<Message>) { forall k | 0 <= k < |m| :: m[k].User? }

  lemma InitHolds(mode: Mode, limits: Limits, opening: seq<Message>, now: Time)
    requires Opening(opening)
    ensures Inv(Init(mode, limits, opening, now))
  {
  }

  lemma DoKeepsInv(y: Sys, a: Action)
    requires Inv(y)
    ensures Inv(Do(y, a))
  {
    DoKeepsLease(y, a);
    DoKeepsTranscript(y, a);
    DoKeepsAuthors(y, a);
    DoKeepsLog(y, a);
    DoKeepsKnown(y, a);
  }

  lemma {:induction false} ActionsKeepInv(y: Sys, actions: seq<Action>)
    requires Inv(y)
    ensures Inv(RunOf(y, actions))
    decreases |actions|
  {
    if actions != [] {
      DoKeepsInv(y, actions[0]);
      ActionsKeepInv(Do(y, actions[0]), actions[1..]);
    }
  }

  lemma {:induction false} Reachable(
      mode: Mode, limits: Limits, opening: seq<Message>, made: Time, actions: seq<Action>)
    requires Opening(opening)
    ensures Inv(RunOf(Init(mode, limits, opening, made), actions))
  {
    InitHolds(mode, limits, opening, made);
    ActionsKeepInv(Init(mode, limits, opening, made), actions);
  }

  /**
   At most once, over every interleaving and whatever tools the workers are offered: a
   call started under a tool that is not a read is started once in all, by anyone under
   any tool, and its tool is run once at most. Whatever the effect, every run of a tool
   follows its own start, and no call is started after the run has ended.
   */
  lemma {:induction false} WritesRunAtMostOnce(
      mode: Mode, limits: Limits, opening: seq<Message>, made: Time, actions: seq<Action>)
    requires Opening(opening)
    ensures var y := RunOf(Init(mode, limits, opening, made), actions);
            && RunsMatch(y)
            && (forall i | StartAt(y.log, i) :: !y.log[i].over)
            && (forall i, j | StartAt(y.log, i) && StartAt(y.log, j) && y.log[i].callId == y.log[j].callId
                              && y.log[i].effect != Some(Read) :: i == j)
            && (forall k, l | RunAt(y.log, k) && RunAt(y.log, l)
                              && y.log[y.log[k].token].callId == y.log[y.log[l].token].callId
                              && y.log[y.log[k].token].effect != Some(Read) :: k == l)
  {
    Reachable(mode, limits, opening, made, actions);
    var y := RunOf(Init(mode, limits, opening, made), actions);
    forall k, l | RunAt(y.log, k) && RunAt(y.log, l)
                  && y.log[y.log[k].token].callId == y.log[y.log[l].token].callId
                  && y.log[y.log[k].token].effect != Some(Read)
      ensures k == l
    {
      assert StartAt(y.log, y.log[k].token) && StartAt(y.log, y.log[l].token);
      assert y.log[k].token == y.log[l].token;
    }
  }

  /**
   Every reachable transcript follows the grammar, and the appends of different claims
   do not interleave: read along the transcript, the claims only go forward.
   */
  lemma {:induction false} TranscriptsAreWellFormed(
      mode: Mode, limits: Limits, opening: seq<Message>, made: Time, actions: seq<Action>)
    requires Opening(opening)
    ensures var y := RunOf(Init(mode, limits, opening, made), actions);
            && Grammar(y.s.messages)
            && |y.authors| == |y.s.messages|
            && (forall i, j, k, l | 0 <= i < j && ByClaim(y, i, k) && ByClaim(y, j, l) :: k <= l)
  {
    Reachable(mode, limits, opening, made, actions);
  }

  /** A task run that succeeded has its answer as output and as last message, with no call open. */
  lemma {:induction false} SuccessIsTheAnswer(
      mode: Mode, limits: Limits, opening: seq<Message>, made: Time, actions: seq<Action>)
    requires Opening(opening)
    ensures var y := RunOf(Init(mode, limits, opening, made), actions);
            y.s.run.status.Succeeded? ==>
              && AtRest(y.s.messages)
              && (mode.Task? ==> y.s.run.output == Some(y.s.messages[|y.s.messages| - 1].text))
  {
    Reachable(mode, limits, opening, made, actions);
    ActionsAreMonotone(Init(mode, limits, opening, made), actions);
  }

  lemma AppendIsMonotone(y: Sys, h: Holder, messages: seq<Message>, next: Pc)
    requires LeaseInv(y)
    ensures Monotone(y.s, Append(y, h, messages, next).s) && y.authors <= Append(y, h, messages, next).authors
  {
    StatementIsMonotone(y.s, AppendMessages(messages, Some(h)), y.now);
  }

  lemma ViewActionIsMonotone(y: Sys, a: Action)
    requires LeaseInv(y) && (a.WorkerAppends? || a.WorkerSucceeds? || a.WorkerParks?)
    ensures Monotone(y.s, Do(y, a).s) && y.authors <= Do(y, a).authors
  {
    var view := ViewOf(y, a.h);
    if Do(y, a) != y {
      match a
      case WorkerAppends(h, addition) => AppendIsMonotone(y, h, Added(view.value, addition).value, NextPc(addition));
      case WorkerSucceeds(h) =>
        StatementIsMonotone(y.s, Finish(EndSucceeded(view.value[|view.value| - 1].text), Some(h)), y.now);
      case WorkerParks(h) => StatementIsMonotone(y.s, WaitForInput(Some(h)), y.now);
    }
  }

  lemma DoIsMonotone(y: Sys, a: Action)
    requires LeaseInv(y)
    ensures Monotone(y.s, Do(y, a).s) && y.authors <= Do(y, a).authors
  {
    match a
    case Outside(st) => StatementIsMonotone(y.s, st, y.now);
    case ApiMessage(text) => StatementIsMonotone(y.s, AddUserMessage(text), y.now);
    case WorkerClaims(h, lease) => StatementIsMonotone(y.s, Claim(h, lease), y.now);
    case WorkerSends(h, st) => StatementIsMonotone(y.s, st, y.now);
    case WorkerStarts(h, start) => StatementIsMonotone(y.s, StartToolCall(start, Some(h)), y.now);
    case WorkerParks(_) => ViewActionIsMonotone(y, a);
    case WorkerSucceeds(_) => ViewActionIsMonotone(y, a);
    case WorkerAppends(_, _) => ViewActionIsMonotone(y, a);
    case _ =>
  }

  /** Along every interleaving the transcript is append-only and what is settled stays settled. */
  lemma {:induction false} ActionsAreMonotone(y: Sys, actions: seq<Action>)
    requires Inv(y)
    ensures Monotone(y.s, RunOf(y, actions).s) && y.authors <= RunOf(y, actions).authors
    decreases |actions|
  {
    if actions != [] {
      DoIsMonotone(y, actions[0]);
      ActionsKeepInv(y, [actions[0]]);
      assert RunOf(y, [actions[0]]) == Do(y, actions[0]);
      ActionsAreMonotone(Do(y, actions[0]), actions[1..]);
      MonotoneTrans(y.s, Do(y, actions[0]).s, RunOf(y, actions).s);
    }
  }

  // --- What one worker may rely on while the others act ----------------------

  /** An action of anyone but `h`, or the renewal its own heartbeat sends. */
  predicate ByOthers(a: Action, h: Holder) {
    match a
    case WorkerClaims(o, _) => o != h
    case WorkerReads(o) => o != h
    case WorkerLists(o) => o != h
    case WorkerSends(o, st) => o != h || st.RenewLease?
    case WorkerStarts(o, _) => o != h
    case WorkerRuns(o, _) => o != h
    case WorkerAppends(o, _) => o != h
    case WorkerSucceeds(o) => o != h
    case WorkerParks(o) => o != h
    case WorkerStops(o) => o != h
    case _ => true
  }

  /**
   Whatever the others do, a worker that still holds the run held it all along, and
   finds the transcript exactly as it left it.
   */
  ghost predicate Rely(h: Holder, y: Sys, y': Sys) {
    && h in y.pcs && h in y'.pcs && y'.pcs[h] == y.pcs[h]
    && Monotone(y.s, y'.s)
    && (HoldsRun(y', h) ==> HoldsRun(y, h) && y'.s.messages == y.s.messages)
    && y.log <= y'.log
    && (forall t <- y.inHand :: StartAt(y.log, t) && y.log[t].holder == h ==> t in y'.inHand)
  }

  function KnownOf(y: Sys, h: Holder): Option<Known> {
    if h in y.known then Some(y.known[h]) else None
  }

  lemma RelyTrans(h: Holder, a: Sys, b: Sys, c: Sys)
    requires Rely(h, a, b) && Rely(h, b, c)
    ensures Rely(h, a, c)
  {
    MonotoneTrans(a.s, b.s, c.s);
  }

  lemma StoreByOthers(y: Sys, st: Statement, h: Holder)
    requires LeaseInv(y) && !Claims(st, h) && !st.AppendMessages?
    ensures HoldsRun(Store(y, st), h) ==> HoldsRun(y, h) && Store(y, st).s.messages == y.s.messages
  {
  }

  lemma AppendByOthers(y: Sys, o: Holder, messages: seq<Message>, next: Pc, h: Holder)
    requires LeaseInv(y) && o != h
    ensures HoldsRun(Append(y, o, messages, next), h) ==>
              HoldsRun(y, h) && Append(y, o, messages, next).s.messages == y.s.messages
  {
  }

  lemma DoByOthers(y: Sys, a: Action, h: Holder)
    requires LeaseInv(y) && h in y.pcs && ByOthers(a, h)
    ensures HoldsRun(Do(y, a), h) ==> HoldsRun(y, h) && Do(y, a).s.messages == y.s.messages
  {
    match a
    case Outside(st) => if OutsideMay(st) { StoreByOthers(y, st, h); }
    case ApiMessage(text) => StoreByOthers(y, AddUserMessage(text), h);
    case WorkerClaims(o, lease) => StoreByOthers(y, Claim(o, lease), h);
    case WorkerSends(o, st) => if WorkerMay(o, st) { StoreByOthers(y, st, h); }
    case WorkerStarts(o, start) => StoreByOthers(y, StartToolCall(start, Some(o)), h);
    case WorkerAppends(o, addition) =>
      var view := ViewOf(y, o);
      if view.Some? && Added(view.value, addition).Some? {
        AppendByOthers(y, o, Added(view.value, addition).value, NextPc(addition), h);
      }
    case WorkerSucceeds(o) => RestByOthers(y, o, h);
    case WorkerParks(o) => RestByOthers(y, o, h);
    case _ =>
  }

  lemma RestByOthers(y: Sys, o: Holder, h: Holder)
    requires LeaseInv(y)
    ensures HoldsRun(Do(y, WorkerSucceeds(o)), h) ==>
              HoldsRun(y, h) && Do(y, WorkerSucceeds(o)).s.messages == y.s.messages
    ensures HoldsRun(Do(y, WorkerParks(o)), h) ==>
              HoldsRun(y, h) && Do(y, WorkerParks(o)).s.messages == y.s.messages
  {
  }

  /** A worker's place in the loop is its own. */
  lemma DoKeepsPc(y: Sys, a: Action, h: Holder)
    requires h in y.pcs && ByOthers(a, h)
    ensures h in Do(y, a).pcs && Do(y, a).pcs[h] == y.pcs[h] && KnownOf(Do(y, a), h) == KnownOf(y, h)
    ensures y.log <= Do(y, a).log
    ensures forall t <- y.inHand :: StartAt(y.log, t) && y.log[t].holder == h ==> t in Do(y, a).inHand
  {
  }

  lemma {:induction false} OthersKeepRely(y: Sys, actions: seq<Action>, h: Holder)
    requires Inv(y) && h in y.pcs
    requires forall a <- actions :: ByOthers(a, h)
    ensures Rely(h, y, RunOf(y, actions)) && KnownOf(RunOf(y, actions), h) == KnownOf(y, h)
    decreases |actions|
  {
    if actions != [] {
      DoByOthers(y, actions[0], h);
      DoKeepsPc(y, actions[0], h);
      DoIsMonotone(y, actions[0]);
      ActionsKeepInv(y, [actions[0]]);
      assert RunOf(y, [actions[0]]) == Do(y, actions[0]);
      OthersKeepRely(Do(y, actions[0]), actions[1..], h);
      RelyTrans(h, y, Do(y, actions[0]), RunOf(y, actions));
    }
  }

  // --- The same, from a start where the invariant holds ----------------------

  /** At its `i`th step a path has the invariant, and goes on by the `i`th action. */
  ghost predicate StepAt(path: seq<Sys>, trace: seq<Action>, i: nat)
    requires |path| == |trace| + 1
  {
    i <= |trace| ==> Inv(path[i]) && (i < |trace| ==> path[i + 1] == Do(path[i], trace[i]))
  }

  ghost predicate Path(path: seq<Sys>, y0: Sys, trace: seq<Action>, y: Sys) {
    && |path| == |trace| + 1 && path[0] == y0 && path[|trace|] == y
    && forall i :: StepAt(path, trace, i)
  }

  /** `y` is reached from `y0` by `trace`, through states with the invariant. */
  ghost predicate From(y0: Sys, trace: seq<Action>, y: Sys) { exists path :: Path(path, y0, trace, y) }

  lemma FromHolds(y0: Sys, trace: seq<Action>, y: Sys)
    requires From(y0, trace, y)
    ensures Inv(y)
  {
    var path :| Path(path, y0, trace, y);
    assert StepAt(path, trace, |trace|);
  }

  lemma FromStart(y0: Sys)
    requires Inv(y0)
    ensures From(y0, [], y0)
  {
    assert Path([y0], y0, [], y0);
  }

  lemma FromActs(y0: Sys, trace: seq<Action>, y: Sys, a: Action)
    requires From(y0, trace, y)
    ensures From(y0, trace + [a], Do(y, a))
  {
    var path :| Path(path, y0, trace, y);
    FromHolds(y0, trace, y);
    DoKeepsInv(y, a);
    var longer, more := path + [Do(y, a)], trace + [a];
    forall i ensures StepAt(longer, more, i) {
      assert StepAt(path, trace, i);
    }
    assert Path(longer, y0, more, Do(y, a));
  }

  lemma {:induction false} FromExtends(y0: Sys, trace: seq<Action>, y: Sys, more: seq<Action>)
    requires From(y0, trace, y)
    ensures From(y0, trace + more, RunOf(y, more))
    decreases |more|
  {
    if more == [] {
      assert trace + more == trace;
    } else {
      FromActs(y0, trace, y, more[0]);
      FromExtends(y0, trace + [more[0]], Do(y, more[0]), more[1..]);
      assert trace + [more[0]] + more[1..] == trace + more;
    }
  }

  /** So it is a run of the protocol. */
  lemma {:induction false} FromIsRun(y0: Sys, trace: seq<Action>, y: Sys)
    requires From(y0, trace, y)
    ensures Inv(y0) && y == RunOf(y0, trace)
    decreases |trace|
  {
    var path :| Path(path, y0, trace, y);
    assert StepAt(path, trace, 0);
    if trace != [] {
      var rest, later := path[1..], trace[1..];
      forall i: nat ensures StepAt(rest, later, i) {
        assert StepAt(path, trace, i + 1);
        if i <= |later| { assert rest[i] == path[i + 1]; }
        if i < |later| { assert rest[i + 1] == path[i + 2] && later[i] == trace[i + 1]; }
      }
      assert Path(rest, path[1], later, y);
      FromIsRun(path[1], trace[1..], y);
    }
  }

  lemma OthersFrom(y0: Sys, trace: seq<Action>, y: Sys, actions: seq<Action>, h: Holder)
    requires From(y0, trace, y) && h in y.pcs
    requires forall a <- actions :: ByOthers(a, h)
    ensures Rely(h, y, RunOf(y, actions)) && KnownOf(RunOf(y, actions), h) == KnownOf(y, h)
  {
    FromHolds(y0, trace, y);
    OthersKeepRely(y, actions, h);
  }

  /** What `h` sends, starts or runs itself is no more disturbing than what the others do. */
  lemma OwnFrom(y0: Sys, trace: seq<Action>, y: Sys, a: Action, h: Holder)
    requires From(y0, trace, y) && h in y.pcs
    requires a.WorkerStarts? || a.WorkerSends?
    ensures Rely(h, y, Do(y, a)) && (a.WorkerSends? ==> Do(y, a).known == y.known)
  {
    FromHolds(y0, trace, y);
    DoIsMonotone(y, a);
    if a.WorkerSends? && WorkerMay(a.h, a.st) { StoreByOthers(y, a.st, h); }
  }

  lemma ClaimFrom(y: Sys, h: Holder, lease: nat)
    requires h !in y.pcs
    ensures var y' := Do(y, WorkerClaims(h, lease));
            && y'.s == Apply(y.s, Claim(h, lease), y.now) && y'.now == y.now && h in y'.pcs
            && (Claimed(y.s.run, h, lease, y.now).Some? ==> y'.pcs[h].Ready?)
  {
  }

  lemma ListFrom(y: Sys, h: Holder)
    requires h in y.pcs
    ensures var y' := Do(y, WorkerLists(h));
            && y' == y.(known := y'.known) && KnownOf(y', h) == Some(Known(y.s.calls, {}))
  {
  }

  lemma ReadFrom(y0: Sys, trace: seq<Action>, y: Sys, h: Holder)
    requires h in y.pcs && y.pcs[h].Ready?
    ensures var y' := Do(y, WorkerReads(h)); y'.s == y.s && y'.now == y.now && ViewOf(y', h) == Some(y.s.messages)
  {
  }

  /**
   A start the loop may send, or one the store refuses anyway: it leaves its row and, to
   run the tool, its place in the log, exactly when it gets through.
   */
  lemma StartFrom(y0: Sys, trace: seq<Action>, y: Sys, h: Holder, start: StartInput)
    requires From(y0, trace, y) && h in y.known
    requires MayStart(y, h, start) || Started(y.s, start, Some(h), y.now).None?
    ensures var y' := Do(y, WorkerStarts(h, start));
            && y'.s == Apply(y.s, StartToolCall(start, Some(h)), y.now) && y'.now == y.now
            && h in y.pcs && Rely(h, y, y')
            && (Started(y.s, start, Some(h), y.now).Some? <==> HoldsRun(y, h) && Startable(y.s.calls, start.callId))
            && h in y'.known && y'.known[h].listed == y.known[h].listed
            && y'.known[h].started <= y.known[h].started + {start.callId}
            && (Started(y.s, start, Some(h), y.now).Some? ==>
                  && start.callId in y'.s.calls && y'.s.calls[start.callId].status == start.status
                  && (start.status.Executing? ==>
                        StartAt(y'.log, |y.log|) && |y.log| in y'.inHand && y'.log[|y.log|].holder == h))
  {
    FromHolds(y0, trace, y);
    OwnFrom(y0, trace, y, WorkerStarts(h, start), h);
  }

  /** An append gets through exactly when the worker still holds the run, and keeps it then. */
  lemma AppendFrom(y0: Sys, trace: seq<Action>, y: Sys, h: Holder, addition: Addition, messages: seq<Message>)
    requires From(y0, trace, y)
    requires ViewOf(y, h).Some? && Added(ViewOf(y, h).value, addition) == Some(messages)
    ensures var y' := Do(y, WorkerAppends(h, addition));
            && y'.s == Apply(y.s, AppendMessages(messages, Some(h)), y.now) && y'.now == y.now
            && h in y'.pcs && Monotone(y.s, y'.s)
            && (HoldsRun(y, h) ==>
                  HoldsRun(y', h) && y'.pcs[h] == NextPc(addition) && y'.s.messages == y.s.messages + messages)
  {
    FromHolds(y0, trace, y);
    DoIsMonotone(y, WorkerAppends(h, addition));
  }

  lemma RestFrom(y: Sys, h: Holder, messages: seq<Message>)
    requires ViewOf(y, h) == Some(messages) && AtRest(messages)
    ensures y.s.run.mode.Task? ==>
              var y' := Do(y, WorkerSucceeds(h));
              && y'.s == Apply(y.s, Finish(EndSucceeded(messages[|messages| - 1].text), Some(h)), y.now)
              && y'.now == y.now
    ensures y.s.run.mode.Chat? ==>
              var y' := Do(y, WorkerParks(h));
              y'.s == Apply(y.s, WaitForInput(Some(h)), y.now) && y'.now == y.now
  {
  }
}
