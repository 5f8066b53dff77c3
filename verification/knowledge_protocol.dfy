/**
 One document, the sink and any number of index workers. The sink edits, restricts,
 tombstones and purges at any moment; a worker claims the document, works on the row as
 it was then, and reports at some later moment, or never.
 */
module KnowledgeProtocol {
  import opened Wrappers
  import opened Documents
  import opened KnowledgeModel

  /** What indexing version `version` makes of a document: its chunks with their vectors. */
  type Build = (Chunkable, int) -> seq<ChunkRow>

  datatype Sys = Sys(
    now: Time,
    row: Option<Doc>,
    tasks: map<nat, Doc>,  // what each worker at work on the document claimed
    used: set<nat>,        // every task there has ever been
    failures: nat,         // failures recorded for the content there is now
    made: int)             // the version that made the stored chunks

  datatype Action =
    | Tick(ms: nat)
    | SinkUpserts(d: SourceDoc, container: string)
    | SinkTombstones
    | SinkPurges
    | Claims(t: nat)
    | Keeps(t: nat)
    | Replaces(t: nat, containerName: Text, version: int)
    | FindsUnchanged(t: nat, version: int)
    | Skips(t: nat)
    | Releases(t: nat)
    | Fails(t: nat)
    | Stops(t: nat)

  /** The pipeline's first test: nothing to index. */
  predicate NothingToIndex(r: Doc) {
    r.deletedAt.Some? || r.restricted || r.segments == [] || r.contentHash.None?
  }

  predicate Unchanged(r: Doc, version: int) {
    r.indexedHash == r.contentHash && r.indexVersion == Some(version)
  }

  function SourceOf(r: Doc, containerName: Text): Chunkable {
    Chunkable(r.kind, r.title, r.segments, r.reference, containerName)
  }

  function Store(y: Sys, st: Statement): Sys { y.(row := Apply(y.row, st, y.now)) }

  /** A worker's last statement about the document. */
  function Finish(y: Sys, t: nat, st: Statement): Sys { Store(y, st).(tasks := y.tasks - {t}) }

  function Do(build: Build, y: Sys, a: Action): Sys {
    match a
    case Tick(ms) => y.(now := y.now + ms)
    case SinkUpserts(d, container) =>
      var same := y.row.Some? && y.row.value.contentHash == d.Hash();
      Store(y, Upsert(d, container)).(failures := if same then y.failures else 0)
    case SinkTombstones => Store(y, Tombstone)
    case SinkPurges => Store(y, Purge).(failures := 0)
    case Claims(t) =>
      if t in y.used || y.row.None? || !Claimable(y.row.value, CLAIM_STALE_MS, y.now) then y
      else
        var z := Store(y, Claim);
        z.(tasks := y.tasks[t := z.row.value], used := y.used + {t})
    case Keeps(t) =>
      if t in y.tasks && y.tasks[t].contentHash.Some? then Store(y, KeepClaim(y.tasks[t].contentHash.value)) else y
    case Replaces(t, containerName, version) =>
      if t in y.tasks && !NothingToIndex(y.tasks[t]) && !Unchanged(y.tasks[t], version) then
        var doc := y.tasks[t];
        Finish(y, t, ReplaceChunks(build(SourceOf(doc, containerName), version), doc.contentHash.value, version))
          .(made := if y.row.Some? && StillTheClaim(y.row.value, doc.contentHash.value) then version else y.made)
      else y
    case FindsUnchanged(t, version) =>
      if t in y.tasks && !NothingToIndex(y.tasks[t]) && Unchanged(y.tasks[t], version) then
        Finish(y, t, MarkUnchanged(version))
      else y
    case Skips(t) =>
      if t in y.tasks && NothingToIndex(y.tasks[t]) then Finish(y, t, MarkSkipped) else y
    case Releases(t) => if t in y.tasks then Finish(y, t, ReleaseClaim) else y
    case Fails(t) =>
      if t in y.tasks then
        var counted := y.row.Some? && y.row.value.status.Indexing?;
        Finish(y, t, MarkFailed).(failures := if counted then y.failures + 1 else y.failures)
      else y
    case Stops(t) => y.(tasks := y.tasks - {t})
  }

  function RunOf(build: Build, y: Sys, actions: seq<Action>): Sys
    decreases |actions|
  {
    if actions == [] then y else RunOf(build, Do(build, y, actions[0]), actions[1..])
  }

  const Fresh := Sys(0, None, map[], {}, 0, 0)

  /** Anything but an action of task `t`. */
  predicate ByOthers(a: Action, t: nat) {
    match a
    case Claims(u) => u != t
    case Keeps(u) => u != t
    case Replaces(u, _, _) => u != t
    case FindsUnchanged(u, _) => u != t
    case Skips(u) => u != t
    case Releases(u) => u != t
    case Fails(u) => u != t
    case Stops(u) => u != t
    case _ => true
  }

  /** What a worker has in hand is its own: whatever the others do, it is still the row it claimed. */
  lemma {:induction false} OthersKeepTask(build: Build, y: Sys, actions: seq<Action>, t: nat)
    requires t in y.tasks && forall a <- actions :: ByOthers(a, t)
    ensures t in RunOf(build, y, actions).tasks && RunOf(build, y, actions).tasks[t] == y.tasks[t]
    decreases |actions|
  {
    if actions != [] {
      assert ByOthers(actions[0], t);
      OthersKeepTask(build, Do(build, y, actions[0]), actions[1..], t);
    }
  }

  // --- Any number of workers -------------------------------------------------

  /** `chunks` are what `version` makes of some document with the content `hash`. */
  ghost predicate BuiltBy(build: Build, chunks: seq<ChunkRow>, hash: Fingerprint, version: int) {
    exists src: Chunkable :: HashOf(src.title, src.segments) == hash && chunks == build(src, version)
  }

  /** A content hash is there exactly when there is content, and names it. */
  ghost predicate HashNamesContent(r: Doc) {
    && (r.contentHash.None? <==> r.deletedAt.Some? || r.restricted)
    && (r.contentHash.Some? ==> r.contentHash.value == HashOf(r.title, r.segments))
    && (r.deletedAt.Some? || r.restricted ==> r.status.Skipped?)
  }

  ghost predicate ChunksMatch(build: Build, r: Doc, made: int) {
    && (r.indexedHash.None? ==> r.chunks == [])
    && (r.indexedHash.Some? ==> BuiltBy(build, r.chunks, r.indexedHash.value, made))
    && (r.deletedAt.Some? || r.restricted ==> r.indexedHash.None?)
  }

  ghost predicate AttemptsBounded(r: Doc) {
    && r.attempts <= MAX_INDEX_ATTEMPTS
    && (r.status.Pending? || r.status.Indexing? ==> r.attempts < MAX_INDEX_ATTEMPTS)
    && (r.status.Indexing? || r.status.Failed? ==> r.claimedAt.Some?)
  }

  ghost predicate RowInv(build: Build, r: Doc, made: int) {
    HashNamesContent(r) && ChunksMatch(build, r, made) && AttemptsBounded(r)
  }

  /** While a content is still to be indexed, its failures are the attempts on record. */
  ghost predicate FailuresCounted(y: Sys) {
    && y.failures <= MAX_INDEX_ATTEMPTS
    && (y.row.Some? && (y.row.value.status.Pending? || y.row.value.status.Indexing? || y.row.value.status.Failed?) ==>
          y.failures == y.row.value.attempts)
  }

  /** Every task works on a row that had its content when it was claimed. */
  ghost predicate Inv(build: Build, y: Sys) {
    && (y.row.Some? ==> RowInv(build, y.row.value, y.made)) && FailuresCounted(y)
    && (forall t <- y.tasks :: t in y.used && HashNamesContent(y.tasks[t]))
  }

  lemma ReplaceMeans(build: Build, y: Sys, t: nat, containerName: Text, version: int)
    requires t in y.tasks && !NothingToIndex(y.tasks[t]) && !Unchanged(y.tasks[t], version)
    ensures var z := Do(build, y, Replaces(t, containerName, version));
            var chunks := build(SourceOf(y.tasks[t], containerName), version);
            && z.row == Apply(y.row, ReplaceChunks(chunks, y.tasks[t].contentHash.value, version), y.now)
            && z.now == y.now
  {
  }

  lemma ReplaceKeepsInv(build: Build, y: Sys, t: nat, containerName: Text, version: int)
    requires Inv(build, y)
    ensures Inv(build, Do(build, y, Replaces(t, containerName, version)))
  {
    if t in y.tasks && !NothingToIndex(y.tasks[t]) {
      var doc := y.tasks[t];
      var src := SourceOf(doc, containerName);
      assert BuiltBy(build, build(src, version), doc.contentHash.value, version);
    }
  }

  lemma DoKeepsInv(build: Build, y: Sys, a: Action)
    requires Inv(build, y)
    ensures Inv(build, Do(build, y, a))
  {
    match a
    case Replaces(t, containerName, version) => ReplaceKeepsInv(build, y, t, containerName, version);
    case _ =>
  }

  lemma {:induction false} RunKeepsInv(build: Build, y: Sys, actions: seq<Action>)
    requires Inv(build, y)
    ensures Inv(build, RunOf(build, y, actions))
    decreases |actions|
  {
    if actions != [] {
      DoKeepsInv(build, y, actions[0]);
      RunKeepsInv(build, Do(build, y, actions[0]), actions[1..]);
    }
  }

  /**
   Whatever the sink and any number of workers do, however late: the stored chunks are
   those of a document with the content `indexedHash` names, and there are none without
   it, nor for a deleted or restricted document; and one content fails at most five times.
   */
  lemma {:induction false} ChunksAgreeWithTheirContent(build: Build, actions: seq<Action>)
    ensures var y := RunOf(build, Fresh, actions);
            && y.failures <= MAX_INDEX_ATTEMPTS
            && (y.row.Some? ==>
                  var r := y.row.value;
                  && (r.indexedHash.None? ==> r.chunks == [])
                  && (r.indexedHash.Some? ==> BuiltBy(build, r.chunks, r.indexedHash.value, y.made))
                  && (r.deletedAt.Some? || r.restricted ==> r.chunks == [] && r.status.Skipped?)
                  && r.attempts <= MAX_INDEX_ATTEMPTS)
  {
    RunKeepsInv(build, Fresh, actions);
  }

  // --- When the marks can be believed ----------------------------------------

  /** The status says of the content there is now, and of the chunks, what it should. */
  ghost predicate Tells(y: Sys) {
    y.row.Some? ==>
      var r := y.row.value;
      && (r.status.Indexed? ==>
            r.contentHash.Some? && r.indexedHash == r.contentHash && r.indexVersion == Some(y.made))
      && (r.status.Skipped? ==> NothingToIndex(r))
  }

  /** No edit has got lost yet at any moment of the run. */
  ghost predicate AlwaysTells(build: Build, y: Sys, actions: seq<Action>)
    decreases |actions|
  {
    Tells(y) && (actions != [] ==> AlwaysTells(build, Do(build, y, actions[0]), actions[1..]))
  }

  /** A mark that takes effect meets the row it was decided on: the tests it does not make. */
  predicate MeetsItsRow(y: Sys, a: Action) {
    y.row.Some? && y.row.value.status.Indexing? ==>
      match a
      case FindsUnchanged(t, version) =>
        t in y.tasks && !NothingToIndex(y.tasks[t]) && Unchanged(y.tasks[t], version) ==>
          Unchanged(y.row.value, version)
      case Skips(t) => t in y.tasks && NothingToIndex(y.tasks[t]) ==> NothingToIndex(y.row.value)
      case _ => true
  }

  predicate Guarded(build: Build, y: Sys, actions: seq<Action>)
    decreases |actions|
  {
    actions == [] || (MeetsItsRow(y, actions[0]) && Guarded(build, Do(build, y, actions[0]), actions[1..]))
  }

  /** The version on record is that of the chunks. */
  ghost predicate VersionTells(y: Sys) {
    y.row.Some? ==>
      var r := y.row.value;
      (r.indexVersion.Some? <==> r.indexedHash.Some?) && (r.indexVersion.Some? ==> r.indexVersion == Some(y.made))
  }

  lemma SinkKeepsTelling(build: Build, y: Sys, a: Action)
    requires Inv(build, y) && Tells(y) && VersionTells(y)
    requires a.SinkUpserts? || a.SinkTombstones? || a.SinkPurges?
    ensures Tells(Do(build, y, a)) && VersionTells(Do(build, y, a))
  {
    if a.SinkUpserts? && y.row.Some? && y.row.value.contentHash == a.d.Hash() && a.d.Hash().Some? {
      assert |a.d.Hash().value.segments| == |a.d.segments| == |y.row.value.segments|;
    }
  }

  lemma MarkTellsIff(build: Build, y: Sys, a: Action)
    requires Inv(build, y) && Tells(y) && VersionTells(y) && (a.FindsUnchanged? || a.Skips?)
    ensures Tells(Do(build, y, a)) <==> MeetsItsRow(y, a)
    ensures MeetsItsRow(y, a) ==> VersionTells(Do(build, y, a))
  {
  }

  lemma WorkerKeepsTelling(build: Build, y: Sys, a: Action)
    requires Inv(build, y) && Tells(y) && VersionTells(y)
    requires !a.SinkUpserts? && !a.SinkTombstones? && !a.SinkPurges? && !a.FindsUnchanged? && !a.Skips?
    ensures Tells(Do(build, y, a)) && VersionTells(Do(build, y, a))
  {
  }

  /** Of all actions only a mark that does not meet its row makes the status tell a lie, and each such does. */
  lemma DoTellsIff(build: Build, y: Sys, a: Action)
    requires Inv(build, y) && Tells(y) && VersionTells(y)
    ensures Tells(Do(build, y, a)) <==> MeetsItsRow(y, a)
    ensures MeetsItsRow(y, a) ==> VersionTells(Do(build, y, a))
  {
    match a
    case SinkUpserts(_, _) => SinkKeepsTelling(build, y, a);
    case SinkTombstones => SinkKeepsTelling(build, y, a);
    case SinkPurges => SinkKeepsTelling(build, y, a);
    case FindsUnchanged(_, _) => MarkTellsIff(build, y, a);
    case Skips(_) => MarkTellsIff(build, y, a);
    case _ => WorkerKeepsTelling(build, y, a);
  }

  lemma {:induction false} TellsIffGuarded(build: Build, y: Sys, actions: seq<Action>)
    requires Inv(build, y) && Tells(y) && VersionTells(y)
    ensures AlwaysTells(build, y, actions) <==> Guarded(build, y, actions)
    ensures Guarded(build, y, actions) ==> Tells(RunOf(build, y, actions))
    decreases |actions|
  {
    if actions != [] {
      var z := Do(build, y, actions[0]);
      DoKeepsInv(build, y, actions[0]);
      DoTellsIff(build, y, actions[0]);
      if MeetsItsRow(y, actions[0]) { TellsIffGuarded(build, z, actions[1..]); }
    }
  }

  /**
   With any number of workers and versions: in every state of a run the status tells the
   truth exactly when each unchanged mark that takes effect meets chunks of the content
   and the version it names, and each skip mark a row with nothing to index. The first
   mark that does not is the one that loses an edit.
   */
  lemma NoEditIsLostIff(build: Build, actions: seq<Action>)
    ensures AlwaysTells(build, Fresh, actions) <==> Guarded(build, Fresh, actions)
  {
    TellsIffGuarded(build, Fresh, actions);
  }

  /**
   What that is worth: `indexed` says that the chunks are those of the content there is
   now, of the version on record, `skipped` that no chunks are due, and anything
   else is still to be done.
   */
  lemma {:induction false} NoEditIsLost(build: Build, actions: seq<Action>)
    requires Guarded(build, Fresh, actions)
    ensures var y := RunOf(build, Fresh, actions);
            y.row.Some? ==>
              var r := y.row.value;
              && (r.status.Indexed? ==>
                    && r.deletedAt.None? && !r.restricted && r.contentHash.Some?
                    && r.indexedHash == r.contentHash && r.indexVersion.Some?
                    && BuiltBy(build, r.chunks, HashOf(r.title, r.segments), r.indexVersion.value))
              && (r.status.Skipped? ==> r.deletedAt.Some? || r.restricted || r.segments == [])
  {
    RunKeepsInv(build, Fresh, actions);
    TellsIffGuarded(build, Fresh, actions);
  }

  // --- One index loop --------------------------------------------------------

  /**
   The actions of one index loop: it claims only when it has nothing left in work, so a
   document has one task at most. A loop that stops or crashes leaves its task behind
   for good.
   */
  predicate OneLoop(build: Build, y: Sys, actions: seq<Action>)
    decreases |actions|
  {
    actions == [] ||
    ((actions[0].Claims? ==> y.tasks == map[]) && OneLoop(build, Do(build, y, actions[0]), actions[1..]))
  }

  /** What the claimed row still shares with the stored one while that is being indexed. */
  ghost predicate SameContent(r: Doc, doc: Doc) {
    && r.contentHash == doc.contentHash && (r.segments == [] <==> doc.segments == [])
    && r.indexedHash == doc.indexedHash && r.indexVersion == doc.indexVersion
    && r.restricted == doc.restricted && r.deletedAt == doc.deletedAt
  }

  ghost predicate LoopInv(y: Sys) {
    && (forall t <- y.tasks, u <- y.tasks :: t == u)
    && (y.row.Some? && y.row.value.status.Indexing? ==> forall t <- y.tasks :: SameContent(y.row.value, y.tasks[t]))
  }

  lemma SinkKeepsLoop(build: Build, y: Sys, a: Action)
    requires Inv(build, y) && LoopInv(y)
    requires a.SinkUpserts? || a.SinkTombstones? || a.SinkPurges?
    ensures LoopInv(Do(build, y, a))
  {
    if a.SinkUpserts? && y.row.Some? && y.row.value.contentHash == a.d.Hash() && a.d.Hash().Some? {
      assert |a.d.Hash().value.segments| == |a.d.segments| == |y.row.value.segments|;
    }
  }

  lemma WorkerKeepsLoop(build: Build, y: Sys, a: Action)
    requires LoopInv(y) && (a.Claims? ==> y.tasks == map[])
    requires !a.SinkUpserts? && !a.SinkTombstones? && !a.SinkPurges?
    ensures LoopInv(Do(build, y, a))
  {
  }

  /** A single loop's marks always meet the row they were decided on. */
  lemma DoKeepsLoop(build: Build, y: Sys, a: Action)
    requires Inv(build, y) && LoopInv(y) && (a.Claims? ==> y.tasks == map[])
    ensures LoopInv(Do(build, y, a)) && MeetsItsRow(y, a)
  {
    if a.SinkUpserts? || a.SinkTombstones? || a.SinkPurges? { SinkKeepsLoop(build, y, a); }
    else { WorkerKeepsLoop(build, y, a); }
  }

  /** So with one loop no edit is lost. */
  lemma {:induction false} OneLoopIsGuarded(build: Build, y: Sys, actions: seq<Action>)
    requires Inv(build, y) && LoopInv(y) && OneLoop(build, y, actions)
    ensures Guarded(build, y, actions)
    decreases |actions|
  {
    if actions != [] {
      DoKeepsInv(build, y, actions[0]);
      DoKeepsLoop(build, y, actions[0]);
      OneLoopIsGuarded(build, Do(build, y, actions[0]), actions[1..]);
    }
  }

  lemma OneLoopLosesNoEdit(build: Build, actions: seq<Action>)
    requires OneLoop(build, Fresh, actions)
    ensures AlwaysTells(build, Fresh, actions)
  {
    OneLoopIsGuarded(build, Fresh, actions);
    NoEditIsLostIff(build, actions);
  }

  /** Content is indexed, edited, and edited back: a worker claims it and finds it unchanged. */
  function FoundUnchanged(build: Build, d: SourceDoc, edited: SourceDoc): Sys {
    var indexed := Do(build, Do(build, Do(build, Fresh, SinkUpserts(d, "c")), Claims(0)), Replaces(0, [], 1));
    Do(build, Do(build, Do(build, indexed, SinkUpserts(edited, "c")), SinkUpserts(d, "c")), Claims(1))
  }

  lemma FoundUnchangedState(build: Build, d: SourceDoc, edited: SourceDoc)
    requires !d.restricted && !edited.restricted && d.segments != [] && d.Hash() != edited.Hash()
    ensures var y := FoundUnchanged(build, d, edited);
            && y.row.Some? && y.row.value.status.Indexing? && y.tasks == map[1 := y.row.value] && y.used == {0, 1}
            && y.row.value.contentHash == y.row.value.indexedHash == d.Hash() && y.row.value.indexVersion == Some(1)
            && y.row.value.deletedAt.None? && !y.row.value.restricted && y.row.value.segments != []
  {
    var indexed := Do(build, Do(build, Do(build, Fresh, SinkUpserts(d, "c")), Claims(0)), Replaces(0, [], 1));
    assert indexed.row.Some? && indexed.row.value.status.Indexed? && indexed.row.value.indexedHash == d.Hash();
    assert indexed.tasks == map[] && indexed.used == {0} && indexed.row.value.indexVersion == Some(1);
  }

  /**
   Two workers can lose an edit: before the first reports, the document is edited again
   and claimed by the second, and the late verdict marks content indexed that never was.
   */
  lemma LateMarkLosesAnEdit(build: Build, d: SourceDoc, edited: SourceDoc)
    requires !d.restricted && !edited.restricted && d.segments != [] && d.Hash() != edited.Hash()
    ensures var y := Do(build, Do(build, FoundUnchanged(build, d, edited), SinkUpserts(edited, "c")), Claims(2));
            var z := Do(build, y, FindsUnchanged(1, 1));
            && !MeetsItsRow(y, FindsUnchanged(1, 1)) && z.row.Some? && z.row.value.status.Indexed?
            && z.row.value.contentHash == edited.Hash() && z.row.value.indexedHash == d.Hash()
  {
    FoundUnchangedState(build, d, edited);
    var y := Do(build, Do(build, FoundUnchanged(build, d, edited), SinkUpserts(edited, "c")), Claims(2));
    assert y.row.value.status.Indexing? && y.row.value.contentHash == edited.Hash() && 1 in y.tasks;
  }

  // --- No document is stranded -----------------------------------------------

  /** When a document that is not done can be claimed at the latest. */
  function ReadyAt(r: Doc): Time {
    if r.claimedAt.None? || r.status.Pending? then 0
    else if r.status.Indexing? then r.claimedAt.value + CLAIM_STALE_MS
    else r.claimedAt.value + BackoffMs(r.attempts)
  }

  /** A live document is done, has used up its attempts, or can be claimed once its wait is over. */
  lemma {:induction false} NoDocumentIsStranded(build: Build, actions: seq<Action>)
    ensures var y := RunOf(build, Fresh, actions);
            y.row.Some? && y.row.value.deletedAt.None? ==>
              var r := y.row.value;
              || r.status.Indexed? || r.status.Skipped?
              || (r.status.Failed? && r.attempts == MAX_INDEX_ATTEMPTS)
              || (forall now | now > ReadyAt(r) :: Claimable(r, CLAIM_STALE_MS, now))
  {
    RunKeepsInv(build, Fresh, actions);
  }
}
