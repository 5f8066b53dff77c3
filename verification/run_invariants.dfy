/**
 What every sequence of store statements keeps, whoever issues them: any number of
 workers holding or not holding the lease, the API, and the sweep. Nothing here
 assumes a holder check where the statement has none.
 */
module RunInvariants {
  import opened Wrappers
  import opened RunModel

  /** The consistency of a `runs` row. */
  ghost predicate RowInv(r: Run) {
    && (r.leaseOwner.Some? <==> r.status.Running?)
    && (r.leaseExpires.Some? <==> r.status.Running?)
    && (r.finishedAt.Some? <==> r.status.Terminal())
    && (r.error.Some? <==> r.status.Failed?)
    && (r.cancelRequested ==> r.status.Running? || r.status.Terminal())
    && (r.status.Running? || r.status.WaitingInput? ==> r.startedAt.Some?)
    && !r.status.WaitingApproval?
  }

  /** What may still change about a run once it has ended: only counters and warnings. */
  ghost predicate SameEnding(r: Run, r': Run) {
    && r'.status == r.status && r'.output == r.output && r'.error == r.error
    && r'.finishedAt == r.finishedAt && r'.leaseOwner == r.leaseOwner
  }

  /** From `s` on to `s'`: nothing that was settled has been unsettled. */
  ghost predicate Monotone(s: RunState, s': RunState) {
    && s.messages <= s'.messages
    && s.run.mode == s'.run.mode && s.run.limits == s'.run.limits
    && s.run.steps <= s'.run.steps
    && s.run.inputTokens <= s'.run.inputTokens && s.run.outputTokens <= s'.run.outputTokens
    && s.run.warnings <= s'.run.warnings
    && (s.run.cancelRequested ==> s'.run.cancelRequested)
    && (s.run.startedAt.Some? ==> s'.run.startedAt == s.run.startedAt)
    && (s.run.status.Terminal() ==> SameEnding(s.run, s'.run))
    && (forall c <- s.calls :: c in s'.calls && s'.calls[c].effect == s.calls[c].effect
                               && s'.calls[c].messageSeq == s.calls[c].messageSeq
                               && (!s.calls[c].status.Live() ==> s'.calls[c] == s.calls[c]))
  }

  lemma StatementKeepsRowInv(s: RunState, st: Statement, now: Time)
    requires RowInv(s.run)
    ensures RowInv(Apply(s, st, now).run)
  {
  }

  lemma StatementIsMonotone(s: RunState, st: Statement, now: Time)
    requires RowInv(s.run)
    ensures Monotone(s, Apply(s, st, now))
  {
    match st
    case StartToolCall(start, worker) =>
      assert s.messages <= Apply(s, st, now).messages;
    case _ =>
  }

  lemma MonotoneTrans(a: RunState, b: RunState, c: RunState)
    requires Monotone(a, b) && Monotone(b, c)
    ensures Monotone(a, c)
  {
  }

  /**
   Every run of statements from a fresh run: the row stays consistent, the transcript
   only grows at its end, the first ending stands, and a tool call's first outcome stands.
   */
  lemma {:induction false} ScriptKeeps(s: RunState, script: seq<Timed>)
    requires RowInv(s.run)
    ensures RowInv(ApplyAll(s, script).run)
    ensures Monotone(s, ApplyAll(s, script))
    decreases |script|
  {
    if script != [] {
      var s1 := Apply(s, script[0].statement, script[0].at);
      StatementKeepsRowInv(s, script[0].statement, script[0].at);
      StatementIsMonotone(s, script[0].statement, script[0].at);
      ScriptKeeps(s1, script[1..]);
      MonotoneTrans(s, s1, ApplyAll(s1, script[1..]));
    }
  }

  /** Every queued run can be claimed, by anyone and at any time. */
  lemma {:induction false} QueuedIsClaimable(
      mode: Mode, limits: Limits, opening: seq<Message>, made: Time, script: seq<Timed>,
      owner: Holder, lease: nat, now: Time)
    ensures var r := ApplyAll(Created(mode, limits, opening, made), script).run;
            && (r.status.Queued? ==> Claimed(r, owner, lease, now).Some?)
            && (r.cancelRequested ==> !r.status.Parked())
  {
    ScriptKeeps(Created(mode, limits, opening, made), script);
  }

  // --- A lost worker is fenced -----------------------------------------------

  /** A statement that only the lease holder `h` may get through. */
  predicate FencedBy(st: Statement, h: Holder) {
    match st
    case AppendMessages(_, worker) => worker == Some(h)
    case StartToolCall(_, worker) => worker == Some(h)
    case Finish(_, worker) => worker == Some(h)
    case WaitForInput(worker) => worker == Some(h)
    case RenewLease(owner, _) => owner == h
    case _ => false
  }

  predicate Claims(st: Statement, h: Holder) { st.Claim? && st.owner == h }

  /**
   Once `h` has lost the run it never gets it back without a new claim under that
   name, and until then nothing it sends through a fenced statement has any effect.
   */
  lemma {:induction false} LostWorkerIsFenced(s: RunState, script: seq<Timed>, h: Holder)
    requires RowInv(s.run) && s.run.leaseOwner != Some(h)
    requires forall t <- script :: !Claims(t.statement, h)
    ensures ApplyAll(s, script).run.leaseOwner != Some(h)
    ensures forall st, now | FencedBy(st, h) ::
              Apply(ApplyAll(s, script), st, now) == ApplyAll(s, script)
    decreases |script|
  {
    if script != [] {
      StatementKeepsRowInv(s, script[0].statement, script[0].at);
      LostWorkerIsFenced(Apply(s, script[0].statement, script[0].at), script[1..], h);
    }
  }

  /** Once a run has ended, no worker appends to it and no worker starts a call in it. */
  lemma {:induction false} EndedRunIsFrozen(s: RunState, script: seq<Timed>)
    requires RowInv(s.run) && s.run.status.Terminal()
    requires forall t <- script :: t.statement.AppendMessages? ==> t.statement.worker.Some?
    requires forall t <- script :: t.statement.StartToolCall? ==> t.statement.worker.Some?
    ensures var s' := ApplyAll(s, script);
            && s'.messages == s.messages && SameEnding(s.run, s'.run)
            && s'.calls.Keys == s.calls.Keys
            && (forall c <- s.calls :: s'.calls[c].startedAt == s.calls[c].startedAt)
    decreases |script|
  {
    if script != [] {
      var t := script[0];
      var s1 := Apply(s, t.statement, t.at);
      StatementKeepsRowInv(s, t.statement, t.at);
      StatementIsMonotone(s, t.statement, t.at);
      assert s1.messages == s.messages && s1.calls.Keys == s.calls.Keys;
      EndedRunIsFrozen(s1, script[1..]);
    }
  }
}
