/**
 The index worker's loop: claim a batch, work it with several hands, wait for the next
 wake-up. What is proved: a wake-up is never slept over, whenever it comes; and every
 claimed document is worked exactly once, however the hands are scheduled.
 */
module IndexLoops {
  import opened Wrappers
  import opened Documents
  import opened KnowledgeModel
  import opened KnowledgeStores
  import opened IndexPipeline
  import P = KnowledgeProtocol

  // --- Several hands on one batch --------------------------------------------

  /** `n` items, the next to hand out, what each hand is at, and what is finished. */
  datatype Pool = Pool(n: nat, next: nat, hands: seq<Option<nat>>, finished: seq<nat>)

  datatype Move = Takes(hand: nat) | Finishes(hand: nat)

  /** At least one hand, at most the limit, and none without an item. */
  function Hands(limit: nat, n: nat): (k: nat)
    ensures 1 <= k && (k <= limit || k == 1) && (n > 0 ==> k <= n)
  {
    var least := if limit < n then limit else n;
    if least > 1 then least else 1
  }

  function Start(n: nat, limit: nat): Pool { Pool(n, 0, seq(Hands(limit, n), _ => None), []) }

  /** One step of one hand: no await lies between looking at `next` and moving it on. */
  function Step(p: Pool, m: Move): Pool {
    if m.hand >= |p.hands| then p
    else
      match m
      case Takes(h) =>
        if p.hands[h].None? && p.next < p.n then p.(hands := p.hands[h := Some(p.next)], next := p.next + 1) else p
      case Finishes(h) =>
        if p.hands[h].Some? then p.(hands := p.hands[h := None], finished := p.finished + [p.hands[h].value]) else p
  }

  function RunPool(p: Pool, moves: seq<Move>): Pool
    decreases |moves|
  {
    if moves == [] then p else RunPool(Step(p, moves[0]), moves[1..])
  }

  ghost predicate HeldBy(p: Pool, item: nat, h: nat) { h < |p.hands| && p.hands[h] == Some(item) }

  ghost predicate Held(p: Pool, item: nat) { exists h :: HeldBy(p, item, h) }

  /** Every item handed out is with one hand or finished once, and no other is. */
  ghost predicate PoolInv(p: Pool) {
    && p.next <= p.n
    && (forall k: nat :: k < p.next <==> Held(p, k) || k in p.finished)
    && (forall k: nat :: !(Held(p, k) && k in p.finished))
    && (forall k: nat, g, h :: HeldBy(p, k, g) && HeldBy(p, k, h) ==> g == h)
    && (forall i, j | 0 <= i < j < |p.finished| :: p.finished[i] != p.finished[j])
  }

  lemma HeldAfter(p: Pool, h: nat, what: Option<nat>, k: nat)
    requires h < |p.hands|
    ensures var q := p.(hands := p.hands[h := what]);
            forall g: nat :: HeldBy(q, k, g) <==> if g == h then what == Some(k) else HeldBy(p, k, g)
  {
  }

  lemma TakeKeeps(p: Pool, h: nat)
    requires PoolInv(p) && h < |p.hands| && p.hands[h].None? && p.next < p.n
    ensures PoolInv(Step(p, Takes(h)))
  {
    var q := Step(p, Takes(h));
    forall k: nat ensures Held(q, k) <==> Held(p, k) || k == p.next {
      HeldAfter(p, h, Some(p.next), k);
      if k == p.next { assert HeldBy(q, k, h); }
      if Held(p, k) {
        var g :| HeldBy(p, k, g);
        assert HeldBy(q, k, g);
      }
      if Held(q, k) && k != p.next {
        var g :| HeldBy(q, k, g);
        assert HeldBy(p, k, g);
      }
    }
    forall k: nat, g, j | HeldBy(q, k, g) && HeldBy(q, k, j) ensures g == j {
      assert !Held(p, p.next);
      if k != p.next { assert HeldBy(p, k, g) && HeldBy(p, k, j); }
      else { assert g != h ==> HeldBy(p, k, g); assert j != h ==> HeldBy(p, k, j); }
    }
  }

  lemma FinishKeeps(p: Pool, h: nat)
    requires PoolInv(p) && h < |p.hands| && p.hands[h].Some?
    ensures PoolInv(Step(p, Finishes(h)))
  {
    var q := Step(p, Finishes(h));
    var item := p.hands[h].value;
    assert HeldBy(p, item, h) && Held(p, item);
    forall k: nat ensures Held(q, k) <==> Held(p, k) && k != item {
      if Held(p, k) && k != item {
        var g :| HeldBy(p, k, g);
        assert HeldBy(q, k, g);
      }
      if Held(q, k) {
        var g :| HeldBy(q, k, g);
        assert HeldBy(p, k, g);
      }
    }
    forall k: nat, g, j | HeldBy(q, k, g) && HeldBy(q, k, j) ensures g == j {
      assert HeldBy(p, k, g) && HeldBy(p, k, j);
    }
  }

  lemma {:induction false} PoolKeeps(p: Pool, moves: seq<Move>)
    requires PoolInv(p)
    ensures PoolInv(RunPool(p, moves)) && RunPool(p, moves).n == p.n && |RunPool(p, moves).hands| == |p.hands|
    decreases |moves|
  {
    if moves != [] {
      var m := moves[0];
      if m.hand < |p.hands| {
        if m.Takes? && p.hands[m.hand].None? && p.next < p.n { TakeKeeps(p, m.hand); }
        if m.Finishes? && p.hands[m.hand].Some? { FinishKeeps(p, m.hand); }
      }
      PoolKeeps(Step(p, m), moves[1..]);
    }
  }

  /**
   However the hands are scheduled: no item is worked twice, at most `limit` at once, and
   when the hands have nothing left, every item has been worked.
   */
  lemma EveryItemOnce(n: nat, limit: nat, moves: seq<Move>)
    ensures var p := RunPool(Start(n, limit), moves);
            && |p.hands| == Hands(limit, n)
            && (forall i, j | 0 <= i < j < |p.finished| :: p.finished[i] != p.finished[j])
            && (p.next == n && (forall h | 0 <= h < |p.hands| :: p.hands[h].None?) ==>
                  forall k: nat :: k < n <==> k in p.finished)
  {
    PoolKeeps(Start(n, limit), moves);
  }

  // --- One document ----------------------------------------------------------

  datatype LoopOutcome = Done(outcome: IndexOutcome) | FailedOnce | HandedBack

  /**
   What one hand does with a claimed document: index it; hand it back without a failure
   if the worker is stopping; otherwise record what went wrong.
   */
  method Work(indexer: Indexer, containerName: Text, stoppingBefore: bool) returns (o: LoopOutcome)
    requires indexer.Ready() && indexer.sent == []
    modifies indexer.store, indexer`sent, indexer`y
    ensures indexer.Linked()
    ensures o.Done? ==> !o.outcome.Threw? && indexer.Ended(o.outcome, containerName)
    ensures o.HandedBack? ==> indexer.sent != [] && indexer.sent[|indexer.sent| - 1] == ReleaseClaim
    ensures o.FailedOnce? ==> indexer.sent != [] && indexer.sent[|indexer.sent| - 1] == MarkFailed
    ensures stoppingBefore ==> o.HandedBack? && indexer.sent == [ReleaseClaim]
  {
    if stoppingBefore {
      HandBack(indexer);
      return HandedBack;
    }
    var outcome := indexer.IndexDocument(containerName);
    if !outcome.Threw? { return Done(outcome); }
    var stopping: bool := *;
    if stopping {
      HandBack(indexer);
      return HandedBack;
    }
    RecordFailure(indexer);
    o := FailedOnce;
  }

  method RecordFailure(indexer: Indexer)
    requires indexer.Ready()
    modifies indexer.store, indexer`sent, indexer`y
    ensures indexer.Linked() && indexer.sent == old(indexer.sent) + [MarkFailed]
  {
    indexer.World();
    indexer.store.MarkFailed(indexer.id);
    indexer.Act(P.Fails(indexer.task));
    indexer.sent := indexer.sent + [MarkFailed];
  }

  method HandBack(indexer: Indexer)
    requires indexer.Ready()
    modifies indexer.store, indexer`sent, indexer`y
    ensures indexer.Linked() && indexer.sent == old(indexer.sent) + [ReleaseClaim]
  {
    indexer.World();
    indexer.store.ReleaseClaim(indexer.id);
    indexer.Act(P.Releases(indexer.task));
    indexer.sent := indexer.sent + [ReleaseClaim];
  }

  // --- Waking up -------------------------------------------------------------

  class IndexLoop {
    const batchSize: nat
    var running: bool
    var waiting: bool
    var wakePending: bool
    var wakeResolve: Option<bool>  // while there is a wait: has it been cut short?
    ghost var owed: bool           // a wake-up came since the last claim began

    /** A wake-up is on record: in the flag, or as the end of the wait. */
    ghost predicate Valid()
      reads this
    {
      && (owed && wakeResolve.None? ==> wakePending)
      && (owed && wakeResolve.Some? ==> wakeResolve.value)
      && (waiting ==> wakeResolve.Some?)
    }

    constructor (batchSize: nat)
      ensures Valid() && running && !owed && this.batchSize == batchSize
    {
      this.batchSize := batchSize;
      running, waiting, wakePending, wakeResolve, owed := true, false, false, None, false;
    }

    /** A wake-up: cuts the wait short or, without one, is remembered. */
    method Kick()
      requires Valid()
      modifies this
      ensures Valid() && owed && running == old(running) && waiting == old(waiting)
      ensures wakeResolve.Some? == old(wakeResolve.Some?) && (old(wakePending) ==> wakePending)
    {
      if wakeResolve.Some? { wakeResolve := Some(true); } else { wakePending := true; }
      owed := true;
    }

    method Stop()
      requires Valid()
      modifies this
      ensures Valid() && !running && owed && waiting == old(waiting)
      ensures wakeResolve.Some? == old(wakeResolve.Some?) && (old(wakePending) ==> wakePending)
    {
      running := false;
      Kick();
    }

    /** While the loop awaits something, wake-ups and a stop may come, in any number. */
    method Await(events: seq<bool>)
      requires Valid()
      modifies this
      ensures Valid() && waiting == old(waiting) && wakeResolve.Some? == old(wakeResolve.Some?)
      ensures (running ==> old(running)) && (old(owed) ==> owed) && (old(wakePending) ==> wakePending)
      ensures events != [] ==> owed
      ensures running == (old(running) && forall i | 0 <= i < |events| :: !events[i])
    {
      for i := 0 to |events|
        invariant Valid() && waiting == old(waiting) && wakeResolve.Some? == old(wakeResolve.Some?)
        invariant (running ==> old(running)) && (old(owed) ==> owed) && (old(wakePending) ==> wakePending)
        invariant i > 0 ==> owed
        invariant running == (old(running) && forall k | 0 <= k < i :: !events[k])
      {
        if events[i] { Stop(); } else { Kick(); }
      }
    }

    /**
     One turn of the loop: a batch, then either the next claim at once or a wait. It waits
     only when nothing came since its claim began, and what comes then ends the wait.
     Between the wait and the next claim nothing is awaited, so nothing can come.
     */
    method Turn(claimed: Option<nat>, duringBatch: seq<bool>, duringWait: seq<bool>)
      returns (again: bool, ghost waited: bool, ghost owedAsItWaited: bool, ghost cutShort: bool)
      requires running && wakeResolve.None? && !waiting
      modifies this
      ensures wakeResolve.None? && !waiting && again == running
      ensures waited ==> !owedAsItWaited
      ensures waited && duringWait != [] ==> cutShort
      ensures duringBatch != [] ==> !waited
      ensures (exists i | 0 <= i < |duringBatch| :: duringBatch[i]) ==> !again
    {
      waited, owedAsItWaited, cutShort := false, false, false;
      owed := false;  // the claim begins
      Await(duringBatch);
      if !running { return false, waited, owedAsItWaited, cutShort; }
      if claimed.Some? && claimed.value >= batchSize { return true, waited, owedAsItWaited, cutShort; }
      if wakePending {
        wakePending := false;
        return true, waited, owedAsItWaited, cutShort;
      }
      waited, owedAsItWaited := true, owed;
      waiting, wakeResolve := true, Some(false);
      Await(duringWait);
      cutShort := wakeResolve == Some(true);
      waiting, wakeResolve := false, None;
      again := running;
    }
  }
}
