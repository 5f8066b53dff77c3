/**
 The knowledge store as it is: container and document rows of one connector, changed in
 place, each method one transaction. `log` is what the rows are proved to be the result
 of: the batches accepted and the removals, in order. Index workers leave no trace in it.
 */
module KnowledgeStores {
  import opened Wrappers
  import opened Documents
  import opened KnowledgeModel

  type Checkpoint = string

  datatype Container = Container(
    selected: bool, checkpoint: Option<Checkpoint>, purgeRequestedAt: Option<Time>, goneAt: Option<Time>)

  datatype Batch = Batch(documents: seq<SourceDoc>, deletedIds: seq<string>, checkpoint: Option<Checkpoint>)

  datatype BatchError = ContainerUnknown | NotSelected | ContainerReset

  datatype Stored = Stored(changed: nat, deleted: nat)

  datatype Entry =
    | Accepted(container: string, fetchedOn: Option<Checkpoint>, batch: Batch)
    | Pruned(ids: set<string>)
    | Purged(containers: set<string>)
    | Expired(ids: set<string>)

  // --- What the log says -----------------------------------------------------

  function CheckpointStep(before: Option<Checkpoint>, e: Entry, container: string): Option<Checkpoint> {
    if e.Accepted? && e.container == container && e.batch.checkpoint.Some? then e.batch.checkpoint
    else if e.Purged? && container in e.containers then None
    else before
  }

  /** The last checkpoint a batch brought since the container's last purge; at first none. */
  function CheckpointAfter(log: seq<Entry>, container: string): Option<Checkpoint> {
    if log == [] then None
    else CheckpointStep(CheckpointAfter(log[..|log| - 1], container), log[|log| - 1], container)
  }

  lemma CheckpointAppend(log: seq<Entry>, e: Entry, container: string)
    ensures CheckpointAfter(log + [e], container) == CheckpointStep(CheckpointAfter(log, container), e, container)
  {
    assert (log + [e])[..|log|] == log;
  }

  predicate Brings(e: Entry, container: string) {
    e.Accepted? && e.container == container && e.batch.checkpoint.Some?
  }

  predicate Forgets(e: Entry, container: string) { e.Purged? && container in e.containers }

  /** The entry brought the checkpoint, and nothing since has brought another or forgotten it. */
  ghost predicate IsLatest(log: seq<Entry>, container: string, i: int) {
    && 0 <= i < |log| && Brings(log[i], container)
    && (forall j | i < j < |log| :: !Brings(log[j], container) && !Forgets(log[j], container))
  }

  /**
   A container has a checkpoint exactly when some batch brought one that nothing since has
   replaced or forgotten, and then it is that one.
   */
  lemma {:induction false} CheckpointIsTheLatest(log: seq<Entry>, container: string)
    ensures CheckpointAfter(log, container).Some? <==> exists i :: IsLatest(log, container, i)
    ensures forall i :: IsLatest(log, container, i) ==> CheckpointAfter(log, container) == log[i].batch.checkpoint
  {
    if log != [] {
      var rest := log[..|log| - 1];
      var last := |log| - 1;
      CheckpointIsTheLatest(rest, container);
      forall i ensures IsLatest(log, container, i) <==>
                       if i == last then Brings(log[last], container)
                       else
                         && IsLatest(rest, container, i)
                         && !Brings(log[last], container) && !Forgets(log[last], container)
      {
        if 0 <= i < last { assert log[i] == rest[i]; }
      }
      if Brings(log[last], container) { assert IsLatest(log, container, last); }
      else if !Forgets(log[last], container) && exists i :: IsLatest(rest, container, i) {
        var i :| IsLatest(rest, container, i);
        assert IsLatest(log, container, i);
      }
    }
  }

  /** Every accepted batch was fetched against the checkpoint it was stored on. */
  ghost predicate Chained(log: seq<Entry>) {
    forall i | 0 <= i < |log| && log[i].Accepted? ::
      log[i].fetchedOn == CheckpointAfter(log[..i], log[i].container)
  }

  lemma ChainedAppend(log: seq<Entry>, e: Entry)
    requires Chained(log) && (e.Accepted? ==> e.fetchedOn == CheckpointAfter(log, e.container))
    ensures Chained(log + [e])
  {
    forall i | 0 <= i <= |log| ensures (log + [e])[..i] == log[..i] {}
    assert log[..|log|] == log;
  }

  /** What is left of a document when indexing is looked away from. */
  datatype Shadow = Gone | Holds(container: string, hash: Option<Fingerprint>)

  function ShadowOf(row: Option<Doc>): Shadow {
    if row.None? then Gone else Holds(row.value.container, row.value.contentHash)
  }

  function Emptied(s: Shadow): Shadow { if s.Holds? then s.(hash := None) else s }

  /** The last document of the batch under this id. */
  function LastOf(documents: seq<SourceDoc>, id: string): Option<SourceDoc> {
    if documents == [] then None
    else
      var d := documents[|documents| - 1];
      if d.id == id then Some(d) else LastOf(documents[..|documents| - 1], id)
  }

  /** What a batch leaves of a document: its last version in it, unless it is deleted too. */
  function AfterBatch(before: Shadow, batch: Batch, container: string, id: string): Shadow {
    var sent := LastOf(batch.documents, id);
    var after := if sent.Some? then Holds(container, sent.value.Hash()) else before;
    if id in batch.deletedIds then Emptied(after) else after
  }

  function ReplayStep(before: Shadow, e: Entry, id: string): Shadow {
    match e
    case Accepted(container, _, batch) => AfterBatch(before, batch, container, id)
    case Pruned(ids) => if id in ids then Emptied(before) else before
    case Purged(cs) => if before.Holds? && before.container in cs then Gone else before
    case Expired(ids) => if id in ids then Gone else before
  }

  /** The batches and removals played on a plain map. */
  function Replay(log: seq<Entry>, id: string): Shadow {
    if log == [] then Gone else ReplayStep(Replay(log[..|log| - 1], id), log[|log| - 1], id)
  }

  lemma ReplayAppend(log: seq<Entry>, e: Entry, id: string)
    ensures Replay(log + [e], id) == ReplayStep(Replay(log, id), e, id)
  {
    assert (log + [e])[..|log|] == log;
  }

  // --- The statements of one batch on one document ---------------------------

  function Upserts(documents: seq<SourceDoc>, container: string, id: string): seq<Statement> {
    if documents == [] then []
    else
      var d := documents[|documents| - 1];
      Upserts(documents[..|documents| - 1], container, id) + if d.id == id then [Upsert(d, container)] else []
  }

  function Script(batch: Batch, container: string, id: string): seq<Statement> {
    Upserts(batch.documents, container, id) + if id in batch.deletedIds then [Tombstone] else []
  }

  lemma ApplyOne(row: Option<Doc>, st: Statement, now: Time)
    ensures ApplyAll(row, [st], now) == Apply(row, st, now)
  {
    assert [st][1..] == [];
  }

  lemma {:induction false} UpsertsShadow(row: Option<Doc>, documents: seq<SourceDoc>, container: string, id: string,
                                         now: Time)
    ensures ShadowOf(ApplyAll(row, Upserts(documents, container, id), now)) ==
              var sent := LastOf(documents, id);
              if sent.Some? then Holds(container, sent.value.Hash()) else ShadowOf(row)
  {
    if documents != [] {
      var rest := documents[..|documents| - 1];
      var d := documents[|documents| - 1];
      UpsertsShadow(row, rest, container, id, now);
      if d.id == id {
        ApplyAllAppend(row, Upserts(rest, container, id), [Upsert(d, container)], now);
        ApplyOne(ApplyAll(row, Upserts(rest, container, id), now), Upsert(d, container), now);
      } else {
        assert Upserts(documents, container, id) == Upserts(rest, container, id);
      }
    }
  }

  lemma ScriptShadow(row: Option<Doc>, batch: Batch, container: string, id: string, now: Time)
    requires row.Some? && row.value.deletedAt.Some? ==> row.value.contentHash.None?
    ensures ShadowOf(ApplyAll(row, Script(batch, container, id), now)) ==
            AfterBatch(ShadowOf(row), batch, container, id)
    ensures var r := ApplyAll(row, Script(batch, container, id), now);
            r.Some? && r.value.deletedAt.Some? ==> r.value.contentHash.None?
  {
    UpsertsShadow(row, batch.documents, container, id, now);
    UpsertsKeepDeleted(row, batch.documents, container, id, now);
    var ups := Upserts(batch.documents, container, id);
    if id in batch.deletedIds {
      ApplyAllAppend(row, ups, [Tombstone], now);
      ApplyOne(ApplyAll(row, ups, now), Tombstone, now);
    } else {
      assert Script(batch, container, id) == ups;
    }
  }

  /** A deleted document has no content hash, whatever a batch does to it first. */
  lemma {:induction false} UpsertsKeepDeleted(row: Option<Doc>, documents: seq<SourceDoc>, container: string,
                                              id: string, now: Time)
    requires row.Some? && row.value.deletedAt.Some? ==> row.value.contentHash.None?
    ensures var r := ApplyAll(row, Upserts(documents, container, id), now);
            r.Some? && r.value.deletedAt.Some? ==> r.value.contentHash.None?
  {
    if documents != [] {
      var rest := documents[..|documents| - 1];
      var d := documents[|documents| - 1];
      UpsertsKeepDeleted(row, rest, container, id, now);
      if d.id == id {
        ApplyAllAppend(row, Upserts(rest, container, id), [Upsert(d, container)], now);
        ApplyOne(ApplyAll(row, Upserts(rest, container, id), now), Upsert(d, container), now);
      } else {
        assert Upserts(documents, container, id) == Upserts(rest, container, id);
      }
    }
  }

  predicate ByWorker(st: Statement) { !st.Upsert? && !st.Tombstone? && !st.Purge? }

  /** Indexing changes neither what a document holds nor where it belongs. */
  lemma WorkersKeepShadow(row: Option<Doc>, st: Statement, now: Time)
    requires ByWorker(st)
    ensures ShadowOf(Apply(row, st, now)) == ShadowOf(row)
    ensures row.Some? ==> Apply(row, st, now).Some? && Apply(row, st, now).value.deletedAt == row.value.deletedAt
  {
  }

  // --- What the rows are proved to be ----------------------------------------

  function RowIn(docs: map<string, Doc>, id: string): Option<Doc> { if id in docs then Some(docs[id]) else None }

  /** Each checkpoint is what the accepted batches made it, each fetched where the last ended. */
  ghost predicate CheckpointsReplay(containers: map<string, Container>, log: seq<Entry>) {
    && Chained(log)
    && forall c: string :: CheckpointAfter(log, c) == if c in containers then containers[c].checkpoint else None
  }

  /** Each document holds what the batches left of it. */
  ghost predicate ContentReplays(docs: map<string, Doc>, log: seq<Entry>) {
    forall id: string :: Replay(log, id) == ShadowOf(RowIn(docs, id))
  }

  /** Documents stand only in a container that is selected or on its way to be purged. */
  ghost predicate Homed(docs: map<string, Doc>, containers: map<string, Container>) {
    forall id <- docs ::
      && docs[id].container in containers
      && (containers[docs[id].container].selected || containers[docs[id].container].purgeRequestedAt.Some?)
      && (docs[id].deletedAt.Some? ==> docs[id].contentHash.None?)
  }

  /** One more upsert of a batch, seen from every document. */
  lemma UpsertsNext(before: map<string, Doc>, was: map<string, Doc>, after: map<string, Doc>,
                    documents: seq<SourceDoc>, i: nat, container: string, now: Time)
    requires i < |documents|
    requires forall id: string ::
               RowIn(was, id) == ApplyAll(RowIn(before, id), Upserts(documents[..i], container, id), now)
    requires after == was[documents[i].id := Upserted(RowIn(was, documents[i].id), documents[i], container, now)]
    ensures forall id: string ::
              RowIn(after, id) == ApplyAll(RowIn(before, id), Upserts(documents[..i + 1], container, id), now)
  {
    forall id: string
      ensures RowIn(after, id) == ApplyAll(RowIn(before, id), Upserts(documents[..i + 1], container, id), now)
    {
      var ups := Upserts(documents[..i], container, id);
      assert documents[..i + 1][..i] == documents[..i];
      if documents[i].id == id {
        ApplyAllAppend(RowIn(before, id), ups, [Upsert(documents[i], container)], now);
        ApplyOne(ApplyAll(RowIn(before, id), ups, now), Upsert(documents[i], container), now);
      } else {
        assert Upserts(documents[..i + 1], container, id) == ups;
      }
    }
  }

  /** Upserts, then tombstones, is the batch's script on every document. */
  lemma UpsertsThenTombstones(before: map<string, Doc>, upserted: map<string, Doc>, after: map<string, Doc>,
                              batch: Batch, container: string, now: Time, id: string)
    requires RowIn(upserted, id) == ApplyAll(RowIn(before, id), Upserts(batch.documents, container, id), now)
    requires RowIn(after, id) ==
             if id in batch.deletedIds then Apply(RowIn(upserted, id), Tombstone, now) else RowIn(upserted, id)
    ensures RowIn(after, id) == ApplyAll(RowIn(before, id), Script(batch, container, id), now)
  {
    var ups := Upserts(batch.documents, container, id);
    if id in batch.deletedIds {
      ApplyAllAppend(RowIn(before, id), ups, [Tombstone], now);
      ApplyOne(RowIn(upserted, id), Tombstone, now);
    } else {
      assert Script(batch, container, id) == ups;
    }
  }

  lemma EntryKeepsCheckpoints(before: map<string, Container>, after: map<string, Container>, log: seq<Entry>, e: Entry)
    requires CheckpointsReplay(before, log)
    requires e.Accepted? ==> e.fetchedOn == CheckpointAfter(log, e.container)
    requires forall c: string :: CheckpointStep(CheckpointAfter(log, c), e, c) ==
                                 if c in after then after[c].checkpoint else None
    ensures CheckpointsReplay(after, log + [e])
  {
    ChainedAppend(log, e);
    forall c: string ensures CheckpointAfter(log + [e], c) == CheckpointStep(CheckpointAfter(log, c), e, c) {
      CheckpointAppend(log, e, c);
    }
  }

  lemma EntryKeepsContent(before: map<string, Doc>, after: map<string, Doc>, log: seq<Entry>, e: Entry)
    requires ContentReplays(before, log)
    requires forall id: string :: ShadowOf(RowIn(after, id)) == ReplayStep(ShadowOf(RowIn(before, id)), e, id)
    ensures ContentReplays(after, log + [e])
  {
    forall id: string ensures Replay(log + [e], id) == ShadowOf(RowIn(after, id)) {
      ReplayAppend(log, e, id);
    }
  }

  /** A batch on every document, and where the documents are afterwards. */
  lemma BatchKeepsDocs(before: map<string, Doc>, after: map<string, Doc>, containers: map<string, Container>,
                       log: seq<Entry>, container: string, held: Option<Checkpoint>, batch: Batch, now: Time)
    requires ContentReplays(before, log) && Homed(before, containers)
    requires container in containers && containers[container].selected
    requires forall id: string :: RowIn(after, id) == ApplyAll(RowIn(before, id), Script(batch, container, id), now)
    ensures ContentReplays(after, log + [Accepted(container, held, batch)]) && Homed(after, containers)
  {
    forall id: string
      ensures ShadowOf(RowIn(after, id)) == AfterBatch(ShadowOf(RowIn(before, id)), batch, container, id)
      ensures id in after && after[id].deletedAt.Some? ==> after[id].contentHash.None?
    {
      ScriptShadow(RowIn(before, id), batch, container, id, now);
      assert id in after ==> RowIn(after, id) == Some(after[id]);
    }
    EntryKeepsContent(before, after, log, Accepted(container, held, batch));
    forall id <- after
      ensures after[id].container == container || (id in before && after[id].container == before[id].container)
    {
      assert ShadowOf(RowIn(after, id)) == Holds(after[id].container, after[id].contentHash);
    }
  }

  lemma PruneKeepsDocs(before: map<string, Doc>, after: map<string, Doc>, containers: map<string, Container>,
                       log: seq<Entry>, ids: set<string>, now: Time)
    requires ContentReplays(before, log) && Homed(before, containers) && Stepped(before, after, ids, Tombstone, now)
    ensures ContentReplays(after, log + [Pruned(ids)]) && Homed(after, containers)
  {
    forall id: string
      ensures ShadowOf(RowIn(after, id)) == ReplayStep(ShadowOf(RowIn(before, id)), Pruned(ids), id)
      ensures id in after ==> id in before && after[id].container == before[id].container
      ensures id in after && after[id].deletedAt.Some? ==> after[id].contentHash.None?
    {
      if id in before { assert RowIn(before, id) == Some(before[id]); }
      if id in after { assert RowIn(after, id) == Some(after[id]); }
    }
    EntryKeepsContent(before, after, log, Pruned(ids));
  }

  /** Rows that go with an entry which says so. */
  lemma RemovalKeepsContent(before: map<string, Doc>, after: map<string, Doc>, log: seq<Entry>, gone: set<string>,
                            e: Entry)
    requires ContentReplays(before, log)
    requires after == before - gone
    requires e.Expired? || e.Purged?
    requires e.Expired? ==> e.ids == gone
    requires e.Purged? ==> forall id <- before :: id in gone <==> before[id].container in e.containers
    ensures ContentReplays(after, log + [e])
  {
    EntryKeepsContent(before, after, log, e);
  }

  // --- Which rows a statement is about ---------------------------------------

  predicate OldTombstone(r: Doc, olderThan: Time, now: Time) {
    r.deletedAt.Some? && r.deletedAt.value < now - olderThan
  }

  /** The containers that wait for their purge, with the stamp they are ordered by. */
  function PurgeQueue(containers: map<string, Container>): (stamps: map<string, Time>)
    ensures forall c :: c in stamps <==>
              c in containers && containers[c].purgeRequestedAt.Some? && !containers[c].selected
    ensures forall c <- stamps :: containers[c].purgeRequestedAt == Some(stamps[c])
  {
    map c <- containers | containers[c].purgeRequestedAt.Some? && !containers[c].selected ::
      containers[c].purgeRequestedAt.value
  }

  function HeldBy(docs: map<string, Doc>, containers: set<string>): (ids: set<string>)
    ensures forall id :: id in ids <==> id in docs && docs[id].container in containers
  {
    set id <- docs | docs[id].container in containers
  }

  /** What a complete listing did not name is gone at the source. */
  function MarkGone(containers: map<string, Container>, present: seq<string>, now: Time)
    : (after: map<string, Container>)
    ensures after.Keys == containers.Keys
    ensures forall id <- after :: id !in present ==> after[id].goneAt.Some?
    ensures forall id <- after :: after[id].(goneAt := None) == containers[id].(goneAt := None)
    ensures forall id <- after :: id in present ==> after[id] == containers[id]
  {
    map id <- containers ::
      if id !in present && containers[id].goneAt.None? then containers[id].(goneAt := Some(now)) else containers[id]
  }

  /** Live documents of the container that a listing covers but does not name. */
  function Missing(docs: map<string, Doc>, container: string, present: set<string>, listedAt: Option<Time>,
                   kinds: Option<set<Kind>>): (ids: set<string>)
    ensures forall id <- ids ::
              id in docs && docs[id].deletedAt.None? && id !in present && docs[id].container == container
    // What was stored after the listing began was invisible to it.
    ensures forall id <- ids :: listedAt.Some? ==> docs[id].updatedAt < listedAt.value
    ensures forall id <- docs :: docs[id].container == container && docs[id].deletedAt.None? && id !in ids ==>
              id in present || listedAt.Some? || kinds.Some?
  {
    set id <- docs |
      && docs[id].container == container && docs[id].deletedAt.None? && id !in present
      && (listedAt.None? || docs[id].updatedAt < listedAt.value)
      && (kinds.None? || docs[id].kind in kinds.value)
  }

  /** A listing leaves alone what was selected, fetched or marked; new rows are blank. */
  ghost predicate OnlyListed(before: map<string, Container>, after: map<string, Container>) {
    && before.Keys <= after.Keys
    && (forall id <- after ::
          && after[id].checkpoint == (if id in before then before[id].checkpoint else None)
          && after[id].selected == (id in before && before[id].selected)
          && after[id].purgeRequestedAt == (if id in before then before[id].purgeRequestedAt else None))
  }

  lemma ListOneMore(before: map<string, Container>, rows: map<string, Container>, id: string)
    requires OnlyListed(before, rows)
    ensures OnlyListed(before, Listed(rows, id))
  {
  }

  lemma ListingKeeps(before: map<string, Container>, after: map<string, Container>, docs: map<string, Doc>,
                     log: seq<Entry>)
    requires OnlyListed(before, after) && CheckpointsReplay(before, log) && Homed(docs, before)
    ensures CheckpointsReplay(after, log) && Homed(docs, after)
  {
  }

  lemma PurgeKeepsContainers(before: map<string, Container>, docs: map<string, Doc>, purged: set<string>,
                             log: seq<Entry>)
    requires CheckpointsReplay(before, log) && Homed(docs, before)
    ensures CheckpointsReplay(Reset(before, purged), log + [Purged(purged)])
    ensures Homed(docs - HeldBy(docs, purged), Reset(before, purged))
  {
    EntryKeepsCheckpoints(before, Reset(before, purged), log, Purged(purged));
  }

  ghost predicate StoredAs(log: seq<Entry>, container: string, start: Option<Checkpoint>, batches: seq<Batch>, n: nat) {
    n <= |batches| && forall i | 0 <= i < n :: Accepted(container, HeldAfter(start, batches[..i]), batches[i]) in log
  }

  lemma StoredAsGrows(log: seq<Entry>, longer: seq<Entry>, container: string, start: Option<Checkpoint>,
                      batches: seq<Batch>, n: nat)
    requires StoredAs(log, container, start, batches, n) && log <= longer
    ensures StoredAs(longer, container, start, batches, n)
  {
  }

  lemma HeldNext(start: Option<Checkpoint>, batches: seq<Batch>, n: nat)
    requires n < |batches|
    ensures HeldAfter(start, batches[..n + 1]) ==
              if batches[n].checkpoint.Some? then batches[n].checkpoint else HeldAfter(start, batches[..n])
  {
    assert batches[..n + 1][..n] == batches[..n];
  }

  function Listed(containers: map<string, Container>, id: string): map<string, Container> {
    if id !in containers then containers[id := Container(false, None, None, None)]
    else
      var c := containers[id];
      containers[id := c.(goneAt := if c.purgeRequestedAt.Some? then c.goneAt else None)]
  }

  /** Purged containers as they stay behind, without those the source no longer has. */
  function Reset(containers: map<string, Container>, purged: set<string>): (after: map<string, Container>)
    ensures forall c <- containers :: c !in purged ==> c in after && after[c] == containers[c]
    ensures forall c <- after :: c in purged ==> after[c].checkpoint.None? && after[c].purgeRequestedAt.None?
  {
    map c <- containers | c !in purged || containers[c].goneAt.None? || containers[c].selected ::
      if c in purged then containers[c].(purgeRequestedAt := None, checkpoint := None) else containers[c]
  }

  function Cleared(c: Container, now: Time): Container {
    if c.selected || c.purgeRequestedAt.None? || c.goneAt.None? then
      c.(selected := false, purgeRequestedAt := Some(now), goneAt := if c.goneAt.Some? then c.goneAt else Some(now))
    else c
  }

  /** The checkpoint a run holds after storing `batches` from `start` on. */
  function HeldAfter(start: Option<Checkpoint>, batches: seq<Batch>): Option<Checkpoint> {
    if batches == [] then start
    else
      var last := batches[|batches| - 1].checkpoint;
      if last.Some? then last else HeldAfter(start, batches[..|batches| - 1])
  }

  /** The container is gone, deselected, or not where the run left it. */
  predicate Moved(containers: map<string, Container>, container: string, held: Option<Checkpoint>) {
    container !in containers || !containers[container].selected || containers[container].checkpoint != held
  }

  // --- Choosing the oldest ---------------------------------------------------

  method Oldest(candidates: map<string, Time>) returns (oldest: string)
    requires candidates != map[]
    ensures oldest in candidates && forall id <- candidates :: candidates[oldest] <= candidates[id]
  {
    var rest := candidates.Keys;
    oldest :| oldest in rest;
    rest := rest - {oldest};
    while rest != {}
      invariant oldest in candidates && rest <= candidates.Keys
      invariant forall id <- candidates.Keys - rest :: candidates[oldest] <= candidates[id]
      decreases |rest|
    {
      var id :| id in rest;
      if candidates[id] < candidates[oldest] { oldest := id; }
      rest := rest - {id};
    }
  }

  /** ORDER BY the stamp LIMIT `limit`: as many as there are, none passed over for a later one. */
  method OldestFirst(candidates: map<string, Time>, limit: nat) returns (chosen: set<string>)
    ensures chosen <= candidates.Keys && |chosen| <= limit
    ensures |chosen| < limit ==> chosen == candidates.Keys
    ensures forall a <- chosen, b <- candidates.Keys - chosen :: candidates[a] <= candidates[b]
  {
    chosen := {};
    var rest := candidates;
    while |chosen| < limit && rest != map[]
      invariant chosen <= candidates.Keys && |chosen| <= limit
      invariant rest == map id <- candidates | id !in chosen :: candidates[id]
      invariant forall a <- chosen, b <- candidates.Keys - chosen :: candidates[a] <= candidates[b]
      decreases |rest|
    {
      var id := Oldest(rest);
      chosen := chosen + {id};
      rest := rest - {id};
    }
  }

  /** The documents under `ids` did `st`, the others nothing. */
  ghost predicate Stepped(before: map<string, Doc>, after: map<string, Doc>, ids: set<string>, st: Statement,
                          now: Time) {
    forall id: string :: RowIn(after, id) == if id in ids then Apply(RowIn(before, id), st, now) else RowIn(before, id)
  }

  lemma StepKeepsShadows(before: map<string, Doc>, after: map<string, Doc>, ids: set<string>, st: Statement, now: Time)
    requires Stepped(before, after, ids, st, now) && ByWorker(st)
    ensures after.Keys == before.Keys
    ensures forall id: string :: ShadowOf(RowIn(after, id)) == ShadowOf(RowIn(before, id))
    ensures forall id <- after :: after[id].container == before[id].container
                                  && after[id].contentHash == before[id].contentHash
                                  && after[id].deletedAt == before[id].deletedAt
  {
    forall id: string
      ensures ShadowOf(RowIn(after, id)) == ShadowOf(RowIn(before, id))
      ensures id in after <==> id in before
      ensures id in after ==> after[id].deletedAt == before[id].deletedAt
    {
      WorkersKeepShadow(RowIn(before, id), st, now);
      assert RowIn(after, id).Some? <==> id in after;
      if id in before { assert RowIn(before, id) == Some(before[id]); }
      if id in after { assert RowIn(after, id) == Some(after[id]); }
    }
    forall id <- after
      ensures after[id].container == before[id].container && after[id].contentHash == before[id].contentHash
    {
      assert ShadowOf(RowIn(after, id)) == Holds(after[id].container, after[id].contentHash);
      assert ShadowOf(RowIn(before, id)) == Holds(before[id].container, before[id].contentHash);
    }
  }

  /** As many as the limit allows, and none before another that has waited longer. */
  ghost predicate FairlyClaimed(before: map<string, Doc>, claimed: set<string>, limit: nat, now: Time) {
    && |claimed| <= limit
    && (forall id <- claimed :: id in before && Claimable(before[id], CLAIM_STALE_MS, now))
    && (forall b <- before :: Claimable(before[b], CLAIM_STALE_MS, now) && b !in claimed ==>
          |claimed| == limit && forall a <- claimed :: before[a].updatedAt <= before[b].updatedAt)
  }

  /** The documents a claim may take, with the stamp they are ordered by. */
  function Waiting(docs: map<string, Doc>, now: Time): (stamps: map<string, Time>)
    ensures forall id :: id in stamps <==> id in docs && Claimable(docs[id], CLAIM_STALE_MS, now)
    ensures forall id <- stamps :: stamps[id] == docs[id].updatedAt
  {
    map id <- docs | Claimable(docs[id], CLAIM_STALE_MS, now) :: docs[id].updatedAt
  }

  function ClaimEach(docs: map<string, Doc>, ids: set<string>, now: Time): (claimed: map<string, Doc>)
    requires forall id <- ids :: id in docs && Claimable(docs[id], CLAIM_STALE_MS, now)
    ensures Stepped(docs, claimed, ids, Claim, now)
  {
    map id <- docs :: if id in ids then Claimed(docs[id], now) else docs[id]
  }

  /** The entry brings content its document did not have before the batch. */
  predicate BringsNew(docs: map<string, Doc>, d: SourceDoc) {
    !d.restricted && (d.id !in docs || docs[d.id].contentHash != d.Hash())
  }

  /** The entries of a batch, by their place, that bring new content. */
  function NewEntries(docs: map<string, Doc>, documents: seq<SourceDoc>): set<nat> {
    set i: nat | i < |documents| && BringsNew(docs, documents[i])
  }

  lemma NewEntriesNext(docs: map<string, Doc>, documents: seq<SourceDoc>, i: nat)
    requires i < |documents|
    ensures |NewEntries(docs, documents[..i + 1])| ==
            |NewEntries(docs, documents[..i])| + if BringsNew(docs, documents[i]) then 1 else 0
  {
    var fewer := NewEntries(docs, documents[..i]);
    assert NewEntries(docs, documents[..i + 1]) == if BringsNew(docs, documents[i]) then fewer + {i} else fewer;
  }

  /** The documents a batch deletes that are there when its own upserts are done. */
  function Deleting(docs: map<string, Doc>, batch: Batch, container: string, now: Time): set<string> {
    set id <- batch.deletedIds |
      Live(ApplyAll(RowIn(docs, id), Upserts(batch.documents, container, id), now))
  }

  predicate Live(row: Option<Doc>) { row.Some? && row.value.deletedAt.None? }

  function LiveAmong(docs: map<string, Doc>, ids: set<string>): set<string> {
    set id <- ids | id in docs && docs[id].deletedAt.None?
  }

  method ListAll(containers: map<string, Container>, present: seq<string>) returns (rows: map<string, Container>)
    ensures OnlyListed(containers, rows)
    ensures rows.Keys == containers.Keys + (set id <- present)
    ensures forall id <- present :: rows[id].purgeRequestedAt.None? ==> rows[id].goneAt.None?
  {
    rows := containers;
    for i := 0 to |present|
      invariant OnlyListed(containers, rows)
      invariant rows.Keys == containers.Keys + (set id <- present[..i])
      invariant forall k | 0 <= k < i :: rows[present[k]].purgeRequestedAt.None? ==> rows[present[k]].goneAt.None?
    {
      ListOneMore(containers, rows, present[i]);
      rows := Listed(rows, present[i]);
    }
    assert present[..|present|] == present;
  }

  class KnowledgeStore {
    var now: Time
    var containers: map<string, Container>
    var docs: map<string, Doc>  // by external id
    var emptyListings: set<string>  // containers whose last listing was empty
    ghost var log: seq<Entry>

    ghost predicate Valid()
      reads this
    {
      CheckpointsReplay(containers, log) && ContentReplays(docs, log) && Homed(docs, containers)
    }

    constructor ()
      ensures Valid() && docs == map[] && containers == map[] && log == []
    {
      now, containers, docs, emptyListings, log := 0, map[], map[], {}, [];
    }

    // --- The worker side -----------------------------------------------------

    /** Claims the documents that waited longest: pending, gone stale, or due for another try. */
    method ClaimPending(limit: nat) returns (claimed: set<string>)
      requires Valid()
      modifies this`docs
      ensures Valid() && FairlyClaimed(old(docs), claimed, limit, now)
      ensures Stepped(old(docs), docs, claimed, Claim, now)
    {
      var candidates := Waiting(docs, now);
      claimed := OldestFirst(candidates, limit);
      docs := ClaimEach(docs, claimed, now);
      StepKeepsShadows(old(docs), docs, claimed, Claim, now);
    }

    /** Writes the chunks if nobody has edited or taken back the document since its claim. */
    method ReplaceChunks(id: string, chunks: seq<ChunkRow>, hash: Fingerprint, version: int) returns (written: bool)
      requires Valid()
      modifies this`docs
      ensures Valid() && Stepped(old(docs), docs, {id}, Statement.ReplaceChunks(chunks, hash, version), now)
      ensures written <==> id in old(docs) && StillTheClaim(old(docs)[id], hash)
      ensures written ==> docs[id].chunks == chunks && docs[id].indexedHash == docs[id].contentHash == Some(hash)
    {
      written := false;
      if id in docs && StillTheClaim(docs[id], hash) {
        var row := docs[id].(chunks := []);
        for i := 0 to |chunks|
          invariant row == docs[id].(chunks := chunks[..i])
        {
          row := row.(chunks := row.chunks + [chunks[i]]);
        }
        assert row.chunks == chunks;
        row := row.(status := Indexed, indexedHash := Some(hash), indexVersion := Some(version), attempts := 0,
                    claimedAt := None, updatedAt := now);
        docs := docs[id := row];
        written := true;
      }
      StepKeepsShadows(old(docs), docs, {id}, Statement.ReplaceChunks(chunks, hash, version), now);
    }

    method MarkUnchanged(id: string, version: int)
      requires Valid()
      modifies this`docs
      ensures Valid() && Stepped(old(docs), docs, {id}, Statement.MarkUnchanged(version), now)
    {
      if id in docs && docs[id].status == Indexing {
        docs := docs[id := docs[id].(status := Indexed, indexVersion := Some(version), claimedAt := None,
                                     updatedAt := now)];
      }
      StepKeepsShadows(old(docs), docs, {id}, Statement.MarkUnchanged(version), now);
    }

    method MarkSkipped(id: string)
      requires Valid()
      modifies this`docs
      ensures Valid() && Stepped(old(docs), docs, {id}, Statement.MarkSkipped, now)
    {
      if id in docs && docs[id].status == Indexing {
        docs := docs[id := docs[id].(status := Skipped, claimedAt := None, indexedHash := None, indexVersion := None,
                                     updatedAt := now)];
        docs := docs[id := docs[id].(chunks := [])];
      }
      StepKeepsShadows(old(docs), docs, {id}, Statement.MarkSkipped, now);
    }

    method KeepClaim(id: string, hash: Fingerprint) returns (kept: bool)
      requires Valid()
      modifies this`docs
      ensures Valid() && Stepped(old(docs), docs, {id}, Statement.KeepClaim(hash), now)
      ensures kept <==> id in old(docs) && StillTheClaim(old(docs)[id], hash)
    {
      kept := id in docs && StillTheClaim(docs[id], hash);
      if kept { docs := docs[id := docs[id].(claimedAt := Some(now))]; }
      StepKeepsShadows(old(docs), docs, {id}, Statement.KeepClaim(hash), now);
    }

    method ReleaseClaim(id: string)
      requires Valid()
      modifies this`docs
      ensures Valid() && Stepped(old(docs), docs, {id}, Statement.ReleaseClaim, now)
    {
      if id in docs && docs[id].status == Indexing { docs := docs[id := docs[id].(status := Pending)]; }
      StepKeepsShadows(old(docs), docs, {id}, Statement.ReleaseClaim, now);
    }

    method MarkFailed(id: string)
      requires Valid()
      modifies this`docs
      ensures Valid() && Stepped(old(docs), docs, {id}, Statement.MarkFailed, now)
    {
      if id in docs && docs[id].status == Indexing {
        docs := docs[id := docs[id].(status := Failed, attempts := docs[id].attempts + 1, claimedAt := Some(now),
                                     updatedAt := now)];
      }
      StepKeepsShadows(old(docs), docs, {id}, Statement.MarkFailed, now);
    }

    // --- The sink side -------------------------------------------------------

    /** Upserts the documents of a batch in order; `changed` counts those with new content. */
    method UpsertAll(documents: seq<SourceDoc>, container: string) returns (changed: nat)
      modifies this`docs
      ensures forall id: string ::
                RowIn(docs, id) == ApplyAll(RowIn(old(docs), id), Upserts(documents, container, id), now)
      ensures changed == |NewEntries(old(docs), documents)|
    {
      var before := docs;
      changed := 0;
      for i := 0 to |documents|
        invariant forall id: string ::
                    RowIn(docs, id) == ApplyAll(RowIn(before, id), Upserts(documents[..i], container, id), now)
        invariant changed == |NewEntries(before, documents[..i])|
      {
        var d := documents[i];
        var isChanged := d.id !in before || before[d.id].contentHash != d.Hash();
        if isChanged && !d.restricted { changed := changed + 1; }
        ghost var was := docs;
        docs := docs[d.id := Upserted(RowIn(docs, d.id), d, container, now)];
        UpsertsNext(before, was, docs, documents, i, container, now);
        NewEntriesNext(before, documents, i);
      }
      assert documents[..|documents|] == documents;
    }

    /** Empties the documents named and still there, and says how many. */
    method TombstoneAll(ids: set<string>) returns (deleted: nat)
      modifies this`docs
      ensures Stepped(old(docs), docs, ids, Tombstone, now)
      ensures deleted == |LiveAmong(old(docs), ids)|
    {
      var live := LiveAmong(docs, ids);
      deleted := |live|;
      docs := map id <- docs :: if id in live then Tombstoned(docs[id], now) else docs[id];
    }

    /** A batch's documents, then its deletions; counts the new contents and what was still there to delete. */
    method StoreDocuments(container: string, batch: Batch) returns (stored: Stored)
      modifies this`docs
      ensures forall id: string ::
                RowIn(docs, id) == ApplyAll(RowIn(old(docs), id), Script(batch, container, id), now)
      ensures stored.changed == |NewEntries(old(docs), batch.documents)|
      ensures stored.deleted == |Deleting(old(docs), batch, container, now)|
    {
      var changed := UpsertAll(batch.documents, container);
      ghost var upserted := docs;
      var deleted := TombstoneAll(set id <- batch.deletedIds);
      assert Deleting(old(docs), batch, container, now) == LiveAmong(upserted, set id <- batch.deletedIds);
      forall id: string
        ensures RowIn(docs, id) == ApplyAll(RowIn(old(docs), id), Script(batch, container, id), now)
      {
        UpsertsThenTombstones(old(docs), upserted, docs, batch, container, now, id);
      }
      stored := Stored(changed, deleted);
    }

    /**
     One transaction: a batch is stored whole, or, when the container is not as the run
     knew it, not at all.
     */
    method StoreBatch(container: string, held: Option<Checkpoint>, batch: Batch) returns (r: Result<Stored, BatchError>)
      requires Valid()
      modifies this`docs, this`containers, this`log
      ensures Valid()
      ensures r.Ok? <==> container in old(containers) && old(containers)[container].selected
                         && old(containers)[container].checkpoint == held
      ensures r.Err? ==> docs == old(docs) && containers == old(containers) && log == old(log)
      ensures r.Err? ==> r.error == if container !in containers then ContainerUnknown
                                    else if !containers[container].selected then NotSelected else ContainerReset
      ensures r.Ok? ==> log == old(log) + [Accepted(container, held, batch)]
      ensures r.Ok? ==> forall id: string ::
                RowIn(docs, id) == ApplyAll(RowIn(old(docs), id), Script(batch, container, id), now)
      ensures r.Ok? ==> r.value.changed == |NewEntries(old(docs), batch.documents)|
      ensures r.Ok? ==> r.value.deleted == |Deleting(old(docs), batch, container, now)|
      ensures r.Ok? ==> containers == old(containers)[container := old(containers)[container].(checkpoint :=
                          if batch.checkpoint.Some? then batch.checkpoint else old(containers)[container].checkpoint)]
    {
      if container !in containers { return Err(ContainerUnknown); }
      var found := containers[container];
      if !found.selected { return Err(NotSelected); }
      if found.checkpoint != held { return Err(ContainerReset); }
      var stored := StoreDocuments(container, batch);
      containers := containers[container := found.(checkpoint :=
        if batch.checkpoint.Some? then batch.checkpoint else found.checkpoint)];
      ghost var entry := Accepted(container, held, batch);
      BatchKeepsDocs(old(docs), docs, old(containers), log, container, held, batch, now);
      EntryKeepsCheckpoints(old(containers), containers, log, entry);
      log := log + [entry];
      r := Ok(stored);
    }

    /**
     A complete listing empties what it leaves out. An empty one, where something is stored,
     has to come twice: the first time it is only remembered.
     */
    method PruneMissing(container: string, present: set<string>, listedAt: Option<Time>, kinds: Option<set<Kind>>)
      returns (deleted: nat)
      requires Valid()
      modifies this`docs, this`emptyListings, this`log
      ensures Valid()
      ensures var missing := Missing(old(docs), container, present, listedAt, kinds);
              if present == {} && missing != {} && container !in old(emptyListings) then
                && deleted == 0 && docs == old(docs) && log == old(log)
                && emptyListings == old(emptyListings) + {container}
              else
                && deleted == |missing| && emptyListings == old(emptyListings) - {container}
                && Stepped(old(docs), docs, missing, Tombstone, now)
    {
      var missing := Missing(docs, container, present, listedAt, kinds);
      if present == {} && missing != {} && container !in emptyListings {
        emptyListings := emptyListings + {container};
        return 0;
      }
      emptyListings := emptyListings - {container};
      deleted := TombstoneAll(missing);
      assert missing == LiveAmong(old(docs), missing);
      PruneKeepsDocs(old(docs), docs, containers, log, missing, now);
      EntryKeepsCheckpoints(containers, containers, log, Pruned(missing));
      log := log + [Pruned(missing)];
    }

    /** Old tombstones go for good. */
    method DeleteTombstones(olderThan: Time) returns (deleted: nat)
      requires Valid()
      modifies this`docs, this`log
      ensures Valid()
      ensures docs == map id <- old(docs) | !OldTombstone(old(docs)[id], olderThan, now) :: old(docs)[id]
      ensures deleted == |old(docs).Keys - docs.Keys|
    {
      var gone := set id <- docs | OldTombstone(docs[id], olderThan, now);
      ghost var before := docs;
      docs := map id <- docs | !OldTombstone(docs[id], olderThan, now) :: docs[id];
      deleted := |gone|;
      assert before.Keys - docs.Keys == gone;
      RemovalKeepsContent(before, docs, log, gone, Expired(gone));
      EntryKeepsCheckpoints(containers, containers, log, Expired(gone));
      log := log + [Expired(gone)];
    }

    // --- Containers ----------------------------------------------------------

    /** One container is listed: a new row, or it is there again unless it waits for its purge. */
    method UpsertContainer(id: string)
      requires Valid()
      modifies this`containers
      ensures Valid() && containers == Listed(old(containers), id) && OnlyListed(old(containers), containers)
    {
      if id in containers {
        var c := containers[id];
        containers := containers[id := c.(goneAt := if c.purgeRequestedAt.Some? then c.goneAt else None)];
      } else {
        containers := containers[id := Container(false, None, None, None)];
      }
      ListingKeeps(old(containers), containers, docs, log);
    }

    /** A complete listing: what it names is upserted, the rest is marked gone. */
    method UpsertContainers(present: seq<string>)
      requires Valid()
      modifies this`containers
      ensures Valid() && OnlyListed(old(containers), containers)
      ensures containers.Keys == old(containers).Keys + (set id <- present)
      ensures forall id <- containers :: id !in present ==> containers[id].goneAt.Some?
      ensures forall id <- present :: containers[id].purgeRequestedAt.None? ==> containers[id].goneAt.None?
    {
      ghost var before := containers;
      var rows := ListAll(containers, present);
      rows := MarkGone(rows, present, now);
      assert OnlyListed(before, rows);
      ListingKeeps(before, rows, docs, log);
      containers := rows;
    }

    /** Deselecting asks for a purge; selecting again before it ran takes that back. */
    method SelectContainer(id: string, selected: bool) returns (done: bool)
      requires Valid()
      modifies this`containers
      ensures Valid()
      ensures done <==> id in old(containers) && (selected ==> old(containers)[id].goneAt.None?)
      ensures containers == if done then old(containers)[id := old(containers)[id].(
                              selected := selected, purgeRequestedAt := if selected then None else Some(now))]
                            else old(containers)
    {
      done := id in containers && (!selected || containers[id].goneAt.None?);
      if done {
        containers := containers[id := containers[id].(
          selected := selected, purgeRequestedAt := if selected then None else Some(now))];
      }
    }

    /**
     Deletes what deselected containers hold and forgets how far their sync had come, so
     that selecting one again starts afresh; those the source dropped lose their row too.
     */
    method PurgeBatch(limit: nat) returns (purged: set<string>, deleted: nat)
      requires Valid()
      modifies this`docs, this`containers, this`log
      ensures Valid() && |purged| <= limit
      ensures purged <= PurgeQueue(old(containers)).Keys
      ensures |purged| < limit ==> purged == PurgeQueue(old(containers)).Keys
      ensures forall a <- purged, b <- PurgeQueue(old(containers)).Keys - purged ::
                PurgeQueue(old(containers))[a] <= PurgeQueue(old(containers))[b]
      ensures docs == old(docs) - HeldBy(old(docs), purged) && deleted == |HeldBy(old(docs), purged)|
      ensures containers == Reset(old(containers), purged)
    {
      purged := OldestFirst(PurgeQueue(containers), limit);
      var gone := HeldBy(docs, purged);
      deleted := |gone|;
      RemovalKeepsContent(docs, docs - gone, log, gone, Purged(purged));
      PurgeKeepsContainers(containers, docs, purged, log);
      docs := docs - gone;
      containers := Reset(containers, purged);
      log := log + [Purged(purged)];
    }

    /** The connector is gone: empty containers go at once, the rest is marked to be purged. */
    method ClearConnector()
      requires Valid()
      modifies this`containers, this`log
      ensures Valid()
      ensures forall c <- containers :: c in old(containers) && !containers[c].selected
                                        && containers[c].purgeRequestedAt.Some? && containers[c].goneAt.Some?
      ensures forall c <- old(containers) :: c in containers <==> exists id <- docs :: docs[id].container == c
    {
      var held := set id <- docs :: docs[id].container;
      var emptied := containers.Keys - held;
      containers := map c <- containers | c in held :: Cleared(containers[c], now);
      RemovalKeepsContent(docs, docs, log, {}, Purged(emptied));
      EntryKeepsCheckpoints(old(containers), containers, log, Purged(emptied));
      log := log + [Purged(emptied)];
    }

    // --- A run of the sync harness -------------------------------------------

    /** Other runs, the admin and the workers, for as long as they like. */
    method World()
      requires Valid()
      modifies this
      ensures Valid() && old(log) <= log
    {
    }

    /**
     A run stores the batches it fetches from where the container stood, and keeps the
     checkpoint of the last one in hand. As soon as the container is no longer where the
     run left it, nothing more is stored.
     */
    method Poll(container: string, batches: seq<Batch>) returns (stored: nat)
      requires Valid() && container in containers
      modifies this
      ensures Valid() && old(log) <= log
      ensures StoredAs(log, container, old(containers)[container].checkpoint, batches, stored)
      // Short of the last batch, the container was not as the run held it any more.
      ensures stored < |batches| ==>
                Moved(containers, container, HeldAfter(old(containers)[container].checkpoint, batches[..stored]))
    {
      var start := containers[container].checkpoint;
      var held := start;
      stored := 0;
      while stored < |batches|
        invariant Valid() && old(log) <= log
        invariant stored <= |batches| && held == HeldAfter(start, batches[..stored])
        invariant StoredAs(log, container, start, batches, stored)
      {
        ghost var before := log;
        World();
        var batch := batches[stored];
        var r := StoreBatch(container, held, batch);
        StoredAsGrows(before, log, container, start, batches, stored);
        if r.Err? { return; }
        assert log[|log| - 1] == Accepted(container, held, batch);
        if batch.checkpoint.Some? { held := batch.checkpoint; }
        HeldNext(start, batches, stored);
        stored := stored + 1;
      }
    }
  }
}
