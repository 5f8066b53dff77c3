/**
 The store of agent runs as it is: rows changed in place, each method one transaction.
 Every method is proved to do exactly one statement of `RunModel` to the run it names
 and nothing to any other run; the sweep's methods do theirs to every run at once.
 */
module RunStores {
  import opened Wrappers
  import opened RunModel

  datatype StoreError = RunNotFound | RunLeaseLost | RunNotWaiting(status: Status) | CallNotFound

  /** A row of `run_messages`: the number is written by the insert, not by the table. */
  datatype MessageRow = MessageRow(num: int, content: Message)

  /** Numbered from 0 with no gap and none twice. */
  ghost predicate GapFree(rows: seq<MessageRow>) {
    forall i | 0 <= i < |rows| :: rows[i].num == i
  }

  function Transcript(rows: seq<MessageRow>): (m: seq<Message>)
    ensures |m| == |rows| && forall i | 0 <= i < |m| :: m[i] == rows[i].content
  {
    seq(|rows|, i requires 0 <= i < |rows| => rows[i].content)
  }

  /** The first number above `num`, for any number a client may resume after. */
  function FirstAfter(num: int): nat { if num < -1 then 0 else num + 1 }

  /** The messages above `num`, each under its own number. */
  function Since(m: seq<Message>, num: int): (rows: seq<MessageRow>)
    ensures |rows| == if FirstAfter(num) <= |m| then |m| - FirstAfter(num) else 0
    ensures forall i | 0 <= i < |rows| :: rows[i] == MessageRow(FirstAfter(num) + i, m[FirstAfter(num) + i])
  {
    var from := FirstAfter(num);
    if from <= |m| then
      seq(|m| - from, i requires 0 <= i < |m| - from => MessageRow(from + i, m[from + i]))
    else []
  }

  /** One above the highest number there is; 0 for no message. */
  method NextSeq(rows: seq<MessageRow>) returns (next: int)
    ensures forall i | 0 <= i < |rows| :: rows[i].num < next
    ensures GapFree(rows) ==> next == |rows|
  {
    var max := -1;
    for i := 0 to |rows|
      invariant forall k | 0 <= k < i :: rows[k].num <= max
      invariant GapFree(rows) ==> max == i - 1
    {
      if rows[i].num > max { max := rows[i].num; }
    }
    next := max + 1;
  }

  /** Inserts `added` numbered from `firstSeq` on, one row at a time. */
  method InsertMessages(before: seq<MessageRow>, firstSeq: int, added: seq<Message>)
    returns (rows: seq<MessageRow>)
    requires GapFree(before) && firstSeq == |before|
    ensures GapFree(rows) && Transcript(rows) == Transcript(before) + added
  {
    rows := before;
    for i := 0 to |added|
      invariant GapFree(rows) && |rows| == |before| + i
      invariant Transcript(rows) == Transcript(before) + added[..i]
    {
      rows := rows + [MessageRow(firstSeq + i, added[i])];
    }
  }

  class RunStore {
    var now: Time
    var runs: map<string, Run>
    var messages: map<string, seq<MessageRow>>
    var calls: map<string, map<string, ToolCall>>

    ghost predicate Valid()
      reads this
    {
      && messages.Keys == runs.Keys && calls.Keys == runs.Keys
      && (forall id <- messages :: GapFree(messages[id]))
    }

    ghost function State(id: string): RunState
      requires Valid() && id in runs
      reads this
    {
      RunState(runs[id], Transcript(messages[id]), calls[id])
    }

    /** The run `id` (if there is one) did `st`, and no other run changed. */
    twostate predicate Did(id: string, st: Statement)
      requires old(Valid())
      reads this
    {
      && Valid() && now == old(now) && runs.Keys == old(runs.Keys)
      && (id in runs ==> State(id) == Apply(old(State(id)), st, now))
      && (forall k <- runs :: k != id ==> State(k) == old(State(k)))
    }

    /** Every run did `st`. */
    twostate predicate AllDid(st: Statement)
      requires old(Valid())
      reads this
    {
      && Valid() && now == old(now) && runs.Keys == old(runs.Keys)
      && (forall k <- runs :: State(k) == Apply(old(State(k)), st, now))
    }

    constructor ()
      ensures Valid() && runs == map[] && now == 0
    {
      now, runs, messages, calls := 0, map[], map[], map[];
    }

    method Create(id: string, mode: Mode, limits: Limits, opening: seq<Message>)
      requires Valid() && id !in runs
      modifies this
      ensures Valid() && now == old(now) && runs.Keys == old(runs.Keys) + {id}
      ensures State(id) == Created(mode, limits, opening, now)
      ensures forall k <- old(runs) :: State(k) == old(State(k))
    {
      var rows := InsertMessages([], 0, opening);
      assert Transcript(rows) == opening;
      runs := runs[id := NewRun(mode, limits, now)];
      messages := messages[id := rows];
      calls := calls[id := map[]];
      forall k <- old(runs) ensures State(k) == old(State(k)) { assert k != id; }
    }

    method Get(id: string) returns (run: Option<Run>)
      ensures run == if id in runs then Some(runs[id]) else None
    {
      run := if id in runs then Some(runs[id]) else None;
    }

    /** The rows numbered above `afterSeq`: a tail of the transcript, each under its place. */
    method ListMessages(id: string, afterSeq: int) returns (found: seq<MessageRow>)
      requires Valid() && id in runs
      ensures found == Since(State(id).messages, afterSeq)
    {
      found := [];
      var rows := messages[id];
      var from := FirstAfter(afterSeq);
      for i := 0 to |rows|
        invariant |found| == if from <= i then i - from else 0
        invariant forall k | 0 <= k < |found| :: found[k] == rows[from + k]
      {
        if rows[i].num > afterSeq { found := found + [rows[i]]; }
      }
    }

    method Claim(id: string, owner: Holder, lease: nat) returns (claimed: Option<Run>)
      requires Valid()
      modifies this`runs
      ensures Did(id, Statement.Claim(owner, lease))
      ensures claimed.Some? <==> id in runs && Claimed(old(runs[id]), owner, lease, now).Some?
      ensures claimed.Some? ==> claimed.value == runs[id] && runs[id].leaseOwner == Some(owner)
    {
      claimed := None;
      if id in runs {
        var r := runs[id];
        var lapsed := r.leaseExpires.Some? && r.leaseExpires.value < now;
        if !r.cancelRequested && (r.status == Queued || (r.status == Running && lapsed)) {
          // Only a queued run moves its clock by being claimed.
          if r.status == Queued { r := r.(updatedAt := now); }
          if r.startedAt.None? { r := r.(startedAt := Some(now)); }
          r := r.(status := Running, leaseOwner := Some(owner), leaseExpires := Some(now + lease));
          runs := runs[id := r];
          claimed := Some(r);
        }
      }
    }

    method Renew(id: string, owner: Holder, lease: nat) returns (held: bool, cancelRequested: bool)
      requires Valid()
      modifies this`runs
      ensures Did(id, RenewLease(owner, lease))
      ensures held <==> id in runs && runs[id].status.Running? && runs[id].leaseOwner == Some(owner)
      ensures cancelRequested <==> held && runs[id].cancelRequested
    {
      held := id in runs && runs[id].leaseOwner == Some(owner) && runs[id].status == Running;
      if held { runs := runs[id := runs[id].(leaseExpires := Some(now + lease))]; }
      cancelRequested := held && runs[id].cancelRequested;
    }

    method ExpiredLeases() returns (ids: set<string>)
      ensures forall id :: id in ids <==>
                id in runs && runs[id].status.Running? && LeaseExpired(runs[id], now) && !runs[id].cancelRequested
    {
      ids := set id <- runs | runs[id].status == Running && LeaseExpired(runs[id], now) && !runs[id].cancelRequested;
    }

    method CancelAbandoned() returns (ids: set<string>)
      requires Valid()
      modifies this`runs
      ensures AllDid(Statement.CancelAbandoned)
      ensures forall id :: id in ids <==> id in runs && Abandoned(old(runs)[id], now).Some?
    {
      ids := set id <- runs | runs[id].status == Running && runs[id].cancelRequested && LeaseExpired(runs[id], now);
      runs := map id <- runs :: if id in ids then
          runs[id].(status := Cancelled, finishedAt := Some(now), updatedAt := now, leaseOwner := None,
                    leaseExpires := None)
        else runs[id];
      forall k <- runs ensures State(k) == Apply(old(State(k)), Statement.CancelAbandoned, now) {
        assert Abandoned(old(runs)[k], now) == if k in ids then Some(runs[k]) else None;
      }
    }

    method RequeueStaleQueued(olderThan: nat) returns (ids: set<string>)
      requires Valid()
      modifies this`runs
      ensures AllDid(RequeueStale(olderThan))
      ensures forall id :: id in ids <==> id in runs && Requeued(old(runs)[id], olderThan, now).Some?
    {
      ids := set id <- runs | runs[id].status == Queued && runs[id].updatedAt < now - olderThan;
      runs := map id <- runs :: if id in ids then runs[id].(updatedAt := now) else runs[id];
      forall k <- runs ensures State(k) == Apply(old(State(k)), RequeueStale(olderThan), now) {
        assert Requeued(old(runs)[k], olderThan, now) == if k in ids then Some(runs[k]) else None;
      }
    }

    method AppendMessages(id: string, added: seq<Message>, owner: Option<Holder>)
      returns (r: Result<int, StoreError>)
      requires Valid()
      modifies this
      ensures Did(id, Statement.AppendMessages(added, owner))
      ensures id !in runs ==> r == Err(RunNotFound)
      ensures id in runs ==>
                if Held(old(runs[id]), owner) then r == Ok(|old(State(id)).messages|) else r == Err(RunLeaseLost)
    {
      if id !in runs { return Err(RunNotFound); }
      if owner.Some? && runs[id].leaseOwner != owner { return Err(RunLeaseLost); }
      var next := NextSeq(messages[id]);
      var rows := InsertMessages(messages[id], next, added);
      messages := messages[id := rows];
      runs := runs[id := runs[id].(updatedAt := now)];
      assert State(id) == Apply(old(State(id)), Statement.AppendMessages(added, owner), now);
      r := Ok(next);
    }

    method RecordStep(id: string, input: nat, output: nat) returns (r: Result<Run, StoreError>)
      requires Valid()
      modifies this`runs
      ensures Did(id, Statement.RecordStep(input, output))
      ensures r == if id in runs then Ok(runs[id]) else Err(RunNotFound)
    {
      if id !in runs { return Err(RunNotFound); }
      var was := runs[id];
      runs := runs[id := was.(steps := was.steps + 1, inputTokens := was.inputTokens + input,
                              outputTokens := was.outputTokens + output, updatedAt := now)];
      r := Ok(runs[id]);
    }

    method AddWarning(id: string, warning: string) returns (r: Result<Run, StoreError>)
      requires Valid()
      modifies this`runs
      ensures Did(id, Statement.AddWarning(warning))
      ensures r == if id in runs then Ok(runs[id]) else Err(RunNotFound)
    {
      if id !in runs { return Err(RunNotFound); }
      if warning !in runs[id].warnings {
        runs := runs[id := runs[id].(warnings := runs[id].warnings + [warning], updatedAt := now)];
      }
      r := Ok(runs[id]);
    }

    /** Why a write fenced by `owner` changed nothing: is the run live under somebody else? */
    method HeldByOther(id: string, owner: Option<Holder>) returns (other: bool)
      ensures other <==>
                owner.Some? && id in runs && !runs[id].status.Terminal() && runs[id].leaseOwner != owner
    {
      other := owner.Some? && id in runs && !runs[id].status.Terminal() && runs[id].leaseOwner != owner;
    }

    method Finish(id: string, outcome: Outcome, owner: Option<Holder>)
      returns (r: Result<Option<Run>, StoreError>)
      requires Valid()
      modifies this`runs
      ensures Did(id, Statement.Finish(outcome, owner))
      ensures id in runs && Ended(old(runs[id]), outcome, owner, now).Some? ==> r == Ok(Some(runs[id]))
      ensures id !in runs || Ended(old(runs[id]), outcome, owner, now).None? ==>
                r == if id in runs && !runs[id].status.Terminal() then Err(RunLeaseLost) else Ok(None)
      ensures r.Ok? && id in runs ==> runs[id].status.Terminal()
    {
      if id in runs && !runs[id].status.Terminal() && (owner.None? || runs[id].leaseOwner == owner) {
        var run := runs[id].(finishedAt := Some(now), updatedAt := now, leaseOwner := None, leaseExpires := None);
        ghost var was := runs[id];
        match outcome {
          case EndSucceeded(output) => run := run.(status := Succeeded, output := Some(output), error := None);
          case EndFailed(error, partial) => run := run.(status := Failed, output := partial, error := Some(error));
          case EndCancelled(partial) => run := run.(status := Cancelled, output := partial, error := None);
        }
        assert Ended(was, outcome, owner, now) == Some(run);
        runs := runs[id := run];
        return Ok(Some(run));
      }
      var other := HeldByOther(id, owner);
      r := if other then Err(RunLeaseLost) else Ok(None);
    }

    method WaitForInput(id: string, owner: Option<Holder>) returns (r: Result<Option<Run>, StoreError>)
      requires Valid()
      modifies this`runs
      ensures Did(id, Statement.WaitForInput(owner))
      ensures id in runs && Parked(old(runs[id]), owner, now).Some? ==> r == Ok(Some(runs[id]))
      ensures id !in runs || Parked(old(runs[id]), owner, now).None? ==>
                r == if owner.Some? && id in runs && !runs[id].status.Terminal() && runs[id].leaseOwner != owner
                     then Err(RunLeaseLost) else Ok(None)
    {
      if id in runs && runs[id].status == Running && (owner.None? || runs[id].leaseOwner == owner) {
        var run := runs[id].(updatedAt := now, leaseOwner := None, leaseExpires := None);
        if run.cancelRequested { run := run.(status := Cancelled, finishedAt := Some(now)); }
        else { run := run.(status := WaitingInput); }
        runs := runs[id := run];
        return Ok(Some(run));
      }
      var other := HeldByOther(id, owner);
      r := if other then Err(RunLeaseLost) else Ok(None);
    }

    method AddUserMessage(id: string, text: string) returns (r: Result<Run, StoreError>)
      requires Valid()
      modifies this
      ensures Did(id, Statement.AddUserMessage(text))
      ensures id !in runs ==> r == Err(RunNotFound)
      ensures id in runs ==>
                r == if old(runs[id]).status.WaitingInput? then Ok(runs[id]) else Err(RunNotWaiting(runs[id].status))
    {
      if id !in runs { return Err(RunNotFound); }
      if runs[id].status != WaitingInput { return Err(RunNotWaiting(runs[id].status)); }
      var next := NextSeq(messages[id]);
      var rows := InsertMessages(messages[id], next, [User(text, false)]);
      messages := messages[id := rows];
      runs := runs[id := runs[id].(status := Queued, updatedAt := now)];
      r := Ok(runs[id]);
    }

    method RequestCancel(id: string) returns (r: Option<Run>)
      requires Valid()
      modifies this`runs
      ensures Did(id, Statement.RequestCancel)
      ensures r == if id in runs then Some(runs[id]) else None
    {
      if id in runs && !runs[id].status.Terminal() {
        var run := runs[id].(cancelRequested := true, updatedAt := now);
        if run.status in {Queued, WaitingInput, WaitingApproval} {
          run := run.(status := Cancelled, finishedAt := Some(now));
        }
        runs := runs[id := run];
      }
      r := Get(id);
    }

    method StartToolCall(id: string, start: StartInput, owner: Option<Holder>)
      returns (r: Result<ToolCall, StoreError>)
      requires Valid() && id in runs
      modifies this`calls
      ensures Did(id, Statement.StartToolCall(start, owner))
      ensures var row := old(Started(State(id), start, owner, now));
              r == if row.Some? then Ok(row.value) else Err(RunLeaseLost)
    {
      if owner.Some? && runs[id].leaseOwner != owner { return Err(RunLeaseLost); }
      var finished := if start.status == Executing then None else Some(now);
      var row := ToolCall(start.messageSeq, start.toolId, start.effect, start.status, start.input,
                          None, false, start.error, now, finished);
      if start.callId in calls[id] {
        var prior := calls[id][start.callId];
        // A write in flight and a call with an outcome are never started again.
        if !(prior.status == Pending || (prior.status == Executing && prior.effect == Some(Read))) {
          return Err(RunLeaseLost);
        }
        row := prior.(status := start.status, startedAt := now, finishedAt := finished, error := start.error);
      }
      calls := calls[id := calls[id][start.callId := row]];
      r := Ok(row);
    }

    /** The call's row afterwards: this outcome, or the one recorded first. */
    method FinishToolCall(id: string, callId: string, result: CallOutcome)
      returns (r: Result<ToolCall, StoreError>)
      requires Valid() && id in runs && !result.status.Live()
      modifies this`calls
      ensures Did(id, Statement.FinishToolCall(callId, result))
      ensures r == if callId in calls[id] then Ok(calls[id][callId]) else Err(CallNotFound)
      ensures callId in calls[id] ==> !calls[id][callId].status.Live()
    {
      if callId !in calls[id] { return Err(CallNotFound); }
      var row := calls[id][callId];
      if row.status == Pending || row.status == Executing {
        row := row.(status := result.status, output := result.output, truncated := result.truncated,
                    error := result.error, finishedAt := Some(now));
        calls := calls[id := calls[id][callId := row]];
      }
      r := Ok(row);
    }

    method ListToolCalls(id: string) returns (found: map<string, ToolCall>)
      ensures found == if id in calls then calls[id] else map[]
    {
      found := if id in calls then calls[id] else map[];
    }

    method FailStalled() returns (ids: set<string>)
      requires Valid()
      modifies this`runs
      ensures AllDid(Statement.FailStalled)
      ensures forall id :: id in ids <==> id in runs && Stalled(old(runs)[id], now).Some?
    {
      ids := set id <- runs |
        runs[id].status == Running && runs[id].updatedAt < now - 2 * runs[id].limits.timeoutSeconds;
      runs := map id <- runs :: if id in ids then
          runs[id].(status := Failed, error := Some(STALLED), finishedAt := Some(now), updatedAt := now,
                    leaseOwner := None, leaseExpires := None)
        else runs[id];
      forall k <- runs ensures State(k) == Apply(old(State(k)), Statement.FailStalled, now) {
        assert Stalled(old(runs)[k], now) == if k in ids then Some(runs[k]) else None;
      }
    }

    method CloseIdleChats(idleSeconds: nat) returns (ids: set<string>)
      requires Valid()
      modifies this`runs
      ensures AllDid(CloseIdle(idleSeconds))
      ensures forall id :: id in ids <==> id in runs && IdleClosed(old(runs)[id], idleSeconds, now).Some?
    {
      ids := set id <- runs |
        runs[id].status == WaitingInput && runs[id].mode == Chat && runs[id].updatedAt < now - idleSeconds;
      runs := map id <- runs :: if id in ids then
          runs[id].(status := Succeeded, finishedAt := Some(now), updatedAt := now)
        else runs[id];
      forall k <- runs ensures State(k) == Apply(old(State(k)), CloseIdle(idleSeconds), now) {
        assert IdleClosed(old(runs)[k], idleSeconds, now) == if k in ids then Some(runs[k]) else None;
      }
    }
  }
}
