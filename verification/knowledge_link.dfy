/**
 The store's methods, seen from one document: each is a run of the protocol's actions. So
 all that holds of every protocol run holds of the document's row in the store.
 */
module KnowledgeLinks {
  import opened Wrappers
  import opened Documents
  import opened KnowledgeModel
  import opened KnowledgeStores
  import P = KnowledgeProtocol

  predicate BySink(st: Statement) { st.Upsert? || st.Tombstone? || st.Purge? }

  function SinkAction(st: Statement): P.Action
    requires BySink(st)
  {
    match st
    case Upsert(d, container) => P.SinkUpserts(d, container)
    case Tombstone => P.SinkTombstones
    case Purge => P.SinkPurges
  }

  function SinkActions(script: seq<Statement>): (actions: seq<P.Action>)
    requires forall st <- script :: BySink(st)
    ensures |actions| == |script|
  {
    if script == [] then [] else [SinkAction(script[0])] + SinkActions(script[1..])
  }

  /** Where a document is when only its row may differ, and what has failed for it. */
  ghost predicate RowIs(y: P.Sys, z: P.Sys, row: Option<Doc>) {
    z.row == row && z.now == y.now && z.tasks == y.tasks && z.used == y.used
  }

  /** Statements of the sink in one transaction are its actions, one after the other. */
  lemma {:induction false} ScriptIsRun(build: P.Build, y: P.Sys, script: seq<Statement>)
    requires forall st <- script :: BySink(st)
    ensures RowIs(y, P.RunOf(build, y, SinkActions(script)), ApplyAll(y.row, script, y.now))
    decreases |script|
  {
    if script != [] {
      var z := P.Do(build, y, SinkAction(script[0]));
      assert BySink(script[0]) && RowIs(y, z, Apply(y.row, script[0], y.now));
      assert SinkActions(script)[0] == SinkAction(script[0]) && SinkActions(script)[1..] == SinkActions(script[1..]);
      ScriptIsRun(build, z, script[1..]);
    }
  }

  lemma {:induction false} UpsertsAreBySink(documents: seq<SourceDoc>, container: string, id: string)
    ensures forall st <- Upserts(documents, container, id) :: BySink(st)
    decreases |documents|
  {
    if documents != [] { UpsertsAreBySink(documents[..|documents| - 1], container, id); }
  }

  /** An accepted batch: to every document its upserts in order, then its deletion. */
  lemma BatchIsRun(build: P.Build, y: P.Sys, before: map<string, Doc>, after: map<string, Doc>,
                   batch: Batch, container: string, id: string)
    requires RowIn(before, id) == y.row
    requires RowIn(after, id) == ApplyAll(RowIn(before, id), Script(batch, container, id), y.now)
    ensures forall st <- Script(batch, container, id) :: BySink(st)
    ensures RowIs(y, P.RunOf(build, y, SinkActions(Script(batch, container, id))), RowIn(after, id))
  {
    UpsertsAreBySink(batch.documents, container, id);
    ScriptIsRun(build, y, Script(batch, container, id));
  }

  /** A prune empties what it names, one action each. */
  lemma PruneIsRun(build: P.Build, y: P.Sys, before: map<string, Doc>, after: map<string, Doc>, ids: set<string>,
                   id: string)
    requires RowIn(before, id) == y.row && Stepped(before, after, ids, Tombstone, y.now)
    ensures RowIs(y, if id in ids then P.Do(build, y, P.SinkTombstones) else y, RowIn(after, id))
  {
  }

  /** Rows go with their container's purge, or as old tombstones. */
  lemma RemovalIsRun(build: P.Build, y: P.Sys, before: map<string, Doc>, after: map<string, Doc>, gone: set<string>,
                     id: string)
    requires RowIn(before, id) == y.row && after == before - gone
    ensures RowIs(y, if id in gone then P.Do(build, y, P.SinkPurges) else y, RowIn(after, id))
  {
  }

  /** A claim of the store is the claim of a new task, which has the row as claimed in hand. */
  lemma ClaimIsAction(build: P.Build, y: P.Sys, before: map<string, Doc>, after: map<string, Doc>,
                      claimed: set<string>, id: string, t: nat)
    requires RowIn(before, id) == y.row && Stepped(before, after, claimed, Claim, y.now) && t !in y.used
    requires forall k <- claimed :: k in before && Claimable(before[k], CLAIM_STALE_MS, y.now)
    ensures var z := P.Do(build, y, P.Claims(t));
            if id in claimed then
              z.row == RowIn(after, id) && z.now == y.now && z.row.Some?
              && z.tasks == y.tasks[t := z.row.value] && z.used == y.used + {t}
            else RowIn(after, id) == y.row
  {
  }
}
