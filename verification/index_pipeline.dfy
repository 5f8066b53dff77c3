/**
 One claimed document through the index: nothing to do, unchanged, or chunked, embedded
 slice by slice, and written. Vectors stored before are used again where the
 text is the same. What is proved: the rows written are those of a rebuild from scratch.
 */
module IndexPipeline {
  import opened Wrappers
  import opened Documents
  import opened Texts
  import opened Packing
  import opened Chunking
  import opened Chunks
  import opened KnowledgeModel
  import opened KnowledgeStores
  import P = KnowledgeProtocol

  const TEXTS_PER_EMBEDDING_CALL: nat := 100
  const RETRY_ATTEMPTS: nat := 5

  type Embed = (string, Text) -> Vector  // the model's vector of a text

  datatype IndexOutcome = Indexed | Unchanged | Skipped | Superseded | Threw(error: string)

  datatype Answer = Vectors(vectors: seq<Vector>) | Failure(retryable: bool)

  datatype Slice = Embedded(vectors: seq<Vector>) | ClaimLost | GaveUp(error: string)

  // --- A rebuild -------------------------------------------------------------

  function RowOf(d: ChunkDraft, vector: Vector, model: string): ChunkRow {
    ChunkRow(d.num, d.segmentKeys, d.url, d.occurredAt, d.prefix, d.text, d.textHash, d.tokenEstimate, vector, model)
  }

  /** Each chunk with the vector of its own prefix and text. */
  function RowsFrom(drafts: seq<ChunkDraft>, model: string, embed: Embed): (rows: seq<ChunkRow>)
    ensures |rows| == |drafts|
    ensures forall i | 0 <= i < |rows| ::
              rows[i] == RowOf(drafts[i], embed(model, drafts[i].prefix + [NEWLINE] + drafts[i].text), model)
  {
    seq(|drafts|, i requires 0 <= i < |drafts| =>
      RowOf(drafts[i], embed(model, drafts[i].prefix + [NEWLINE] + drafts[i].text), model))
  }

  /** The document indexed from scratch. */
  function Rebuilt(src: Chunkable, options: Options, model: string, embed: Embed): seq<ChunkRow>
    requires options.sizes.Valid()
  {
    RowsFrom(ChunksOf(src, options), model, embed)
  }

  /** What one version of the worker makes of a document. */
  datatype Setup = Setup(options: Options, model: string, dimensions: nat, version: int)

  /** Rows whose vector is that of the text they say it is of. */
  ghost predicate Sound(rows: seq<ChunkRow>, embed: Embed) {
    forall i | 0 <= i < |rows| ::
      && rows[i].textHash == rows[i].prefix + [NEWLINE] + rows[i].text
      && rows[i].embedding == embed(rows[i].model, rows[i].textHash)
  }

  /** What each version of the worker makes of a document. */
  type Setups = f: int -> Setup | forall v :: f(v).options.sizes.Valid() && f(v).version == v
    witness v => Setup(Options(Sizes(400, 1000), 30, Clock(_ => None, (t, _) => t)), "model", 1, v)

  /** The protocol's workers are these: what they make of a document is its rebuild. */
  function BuildOf(setups: Setups, embed: Embed): P.Build {
    (src, version) => Rebuilt(src, setups(version).options, setups(version).model, embed)
  }

  /** The hash of a draft is that of what is embedded: its prefix and its text. */
  ghost predicate Hashed(drafts: seq<ChunkDraft>) {
    forall i | 0 <= i < |drafts| :: drafts[i].textHash == drafts[i].prefix + [NEWLINE] + drafts[i].text
  }

  lemma ChunksAreHashed(src: Chunkable, options: Options)
    requires options.sizes.Valid()
    ensures Hashed(ChunksOf(src, options))
  {
  }

  lemma RowsAreSound(drafts: seq<ChunkDraft>, model: string, embed: Embed)
    requires Hashed(drafts)
    ensures Sound(RowsFrom(drafts, model, embed), embed)
  {
  }

  lemma RebuiltIsSound(src: Chunkable, options: Options, model: string, embed: Embed)
    requires options.sizes.Valid()
    ensures Sound(Rebuilt(src, options, model, embed), embed)
  {
    ChunksAreHashed(src, options);
    RowsAreSound(ChunksOf(src, options), model, embed);
  }

  /**
   Wherever a document is, its stored chunks are the rebuild, by the version that made
   them, of a document with the indexed content; so each vector is that of its own text.
   */
  lemma {:induction false} StoredIsRebuilt(setups: Setups, embed: Embed, actions: seq<P.Action>)
    ensures var y := P.RunOf(BuildOf(setups, embed), P.Fresh, actions);
            y.row.Some? ==>
            var r := y.row.value;
            && (r.indexedHash.None? ==> r.chunks == [])
            && (r.indexedHash.Some? ==>
                  exists src: Chunkable :: HashOf(src.title, src.segments) == r.indexedHash.value
                                           && r.chunks == Rebuilt(src, setups(y.made).options, setups(y.made).model,
                                                                  embed))
            && Sound(r.chunks, embed)
  {
    P.RunKeepsInv(BuildOf(setups, embed), P.Fresh, actions);
    var y := P.RunOf(BuildOf(setups, embed), P.Fresh, actions);
    if y.row.Some? && y.row.value.indexedHash.Some? {
      var r := y.row.value;
      assert P.BuiltBy(BuildOf(setups, embed), r.chunks, r.indexedHash.value, y.made);
      var src: Chunkable :| HashOf(src.title, src.segments) == r.indexedHash.value
                            && r.chunks == BuildOf(setups, embed)(src, y.made);
      RebuiltIsSound(src, setups(y.made).options, setups(y.made).model, embed);
    }
  }

  /** Slices are full but for the last; each but the first costs a renewal. */
  lemma SliceCount(from: nat, to: nat, n: nat)
    requires from < n && from % TEXTS_PER_EMBEDDING_CALL == 0
    requires to == if from + TEXTS_PER_EMBEDDING_CALL < n then from + TEXTS_PER_EMBEDDING_CALL else n
    ensures to < n ==> to % TEXTS_PER_EMBEDDING_CALL == 0
    ensures (to - 1) / TEXTS_PER_EMBEDDING_CALL == from / TEXTS_PER_EMBEDDING_CALL
    ensures from > 0 ==> from / TEXTS_PER_EMBEDDING_CALL == (from - 1) / TEXTS_PER_EMBEDDING_CALL + 1
  {
  }

  /** What a worker relies on: its version makes rebuilds, and every version makes sound rows. */
  ghost predicate Makes(build: P.Build, setup: Setup, embed: Embed)
    requires setup.options.sizes.Valid()
  {
    && (forall src :: build(src, setup.version) == Rebuilt(src, setup.options, setup.model, embed))
    && (forall src, version :: Sound(build(src, version), embed))
  }

  lemma BuildOfMakes(build: P.Build, setups: Setups, embed: Embed, version: int)
    requires build == BuildOf(setups, embed)
    ensures Makes(build, setups(version), embed)
  {
    forall src, version ensures Sound(build(src, version), embed) {
      RebuiltIsSound(src, setups(version).options, setups(version).model, embed);
    }
  }

  /** A worker's write, seen from the protocol: its rebuild goes to the row. */
  lemma RebuildIsReplace(build: P.Build, setup: Setup, embed: Embed, y: P.Sys, task: nat, containerName: Text)
    requires setup.options.sizes.Valid() && Makes(build, setup, embed) && task in y.tasks
    requires !P.NothingToIndex(y.tasks[task]) && !P.Unchanged(y.tasks[task], setup.version)
    ensures var doc := y.tasks[task];
            var rows := Rebuilt(P.SourceOf(doc, containerName), setup.options, setup.model, embed);
            var z := P.Do(build, y, P.Replaces(task, containerName, setup.version));
            && z.row == Apply(y.row, ReplaceChunks(rows, doc.contentHash.value, setup.version), y.now) && z.now == y.now
  {
    P.ReplaceMeans(build, y, task, containerName, setup.version);
    assert build(P.SourceOf(y.tasks[task], containerName), setup.version) ==
           Rebuilt(P.SourceOf(y.tasks[task], containerName), setup.options, setup.model, embed);
  }

  lemma StoredIsSound(build: P.Build, setup: Setup, embed: Embed, y: P.Sys)
    requires setup.options.sizes.Valid() && Makes(build, setup, embed) && P.Inv(build, y) && y.row.Some?
    ensures Sound(y.row.value.chunks, embed)
  {
    var r := y.row.value;
    if r.indexedHash.Some? { assert P.BuiltBy(build, r.chunks, r.indexedHash.value, y.made); }
  }

  /** Vectors by the text they are of. */
  ghost predicate Right(byHash: map<Text, Vector>, model: string, embed: Embed) {
    forall h <- byHash :: byHash[h] == embed(model, h)
  }

  function TextsFrom(drafts: seq<ChunkDraft>): (texts: seq<Text>)
    ensures |texts| == |drafts| && forall i | 0 <= i < |drafts| ::
              texts[i] == drafts[i].prefix + [NEWLINE] + drafts[i].text
  {
    seq(|drafts|, i requires 0 <= i < |drafts| => drafts[i].prefix + [NEWLINE] + drafts[i].text)
  }

  /** The vectors at hand, by the text they are of. */
  method Reusable(rows: seq<ChunkRow>, model: string, ghost embed: Embed) returns (byHash: map<Text, Vector>)
    requires Sound(rows, embed)
    ensures Right(byHash, model, embed)
    ensures forall i | 0 <= i < |rows| :: rows[i].model == model ==> rows[i].textHash in byHash
  {
    byHash := map[];
    for i := 0 to |rows|
      invariant Right(byHash, model, embed)
      invariant forall k | 0 <= k < i :: rows[k].model == model ==> rows[k].textHash in byHash
    {
      if rows[i].model == model { byHash := byHash[rows[i].textHash := rows[i].embedding]; }
    }
  }

  /** The drafts there is no vector for yet. */
  method ToEmbed(drafts: seq<ChunkDraft>, byHash: map<Text, Vector>) returns (missing: seq<ChunkDraft>)
    ensures forall d <- missing :: d in drafts && d.textHash !in byHash
    ensures forall d <- drafts :: d.textHash in byHash || d in missing
  {
    missing := [];
    for i := 0 to |drafts|
      invariant forall d <- missing :: d in drafts && d.textHash !in byHash
      invariant forall k | 0 <= k < i :: drafts[k].textHash in byHash || drafts[k] in missing
    {
      if drafts[i].textHash !in byHash { missing := missing + [drafts[i]]; }
    }
  }

  method Record(byHash: map<Text, Vector>, slice: seq<ChunkDraft>, vectors: seq<Vector>, model: string,
                ghost embed: Embed)
    returns (after: map<Text, Vector>)
    requires Right(byHash, model, embed) && |vectors| == |slice| && Hashed(slice)
    requires forall i | 0 <= i < |slice| :: vectors[i] == embed(model, slice[i].textHash)
    ensures Right(after, model, embed) && byHash.Keys <= after.Keys
    ensures forall i | 0 <= i < |slice| :: slice[i].textHash in after
  {
    after := byHash;
    for i := 0 to |slice|
      invariant Right(after, model, embed) && byHash.Keys <= after.Keys
      invariant forall k | 0 <= k < i :: slice[k].textHash in after
    {
      after := after[slice[i].textHash := vectors[i]];
    }
  }

  /** The rows to write: every draft has a vector, and it is the right one. */
  method Rows(drafts: seq<ChunkDraft>, byHash: map<Text, Vector>, model: string, ghost embed: Embed)
    returns (rows: seq<ChunkRow>)
    requires Right(byHash, model, embed) && Hashed(drafts)
    requires forall i | 0 <= i < |drafts| :: drafts[i].textHash in byHash
    ensures rows == RowsFrom(drafts, model, embed)
  {
    rows := [];
    for i := 0 to |drafts|
      invariant |rows| == i && forall k | 0 <= k < i :: rows[k] == RowsFrom(drafts, model, embed)[k]
    {
      rows := rows + [RowOf(drafts[i], byHash[drafts[i].textHash], model)];
    }
  }

  /**
   One worker on one document of the store, beside the sink and the other workers: `y` is
   where the document is in the protocol, and everything below is an execution of that.
   */
  class Indexer {
    const store: KnowledgeStore
    const id: string
    const doc: Doc  // the row as claimed
    const setup: Setup
    const embed: Embed
    ghost const task: nat  // the claim it works for
    ghost const build: P.Build  // what each version makes of a document: its rebuild
    ghost var y: P.Sys
    ghost var sent: seq<Statement>  // what this worker did to the document

    constructor (store: KnowledgeStore, id: string, doc: Doc, setup: Setup, embed: Embed,
                 ghost build: P.Build, ghost task: nat, ghost y: P.Sys)
      requires setup.options.sizes.Valid() && Makes(build, setup, embed)
      requires store.Valid() && RowIn(store.docs, id) == y.row && store.now == y.now && P.Inv(build, y)
      requires task in y.tasks && y.tasks[task] == doc
      ensures this.store == store && this.id == id && this.doc == doc && this.embed == embed
      ensures this.setup == setup && this.build == build && this.task == task
      ensures Ready() && this.y == y && sent == []
    {
      this.store, this.id, this.doc, this.setup, this.embed := store, id, doc, setup, embed;
      this.build, this.task, this.y, sent := build, task, y, [];
    }

    /** The store's row of the document is where the protocol is. */
    ghost predicate Linked()
      reads this, store
    {
      && store.Valid() && RowIn(store.docs, id) == y.row && store.now == y.now && P.Inv(build, y)
      && setup.options.sizes.Valid() && Makes(build, setup, embed)
    }

    /** And the claim has not been answered yet. */
    ghost predicate Ready()
      reads this, store
    {
      Linked() && task in y.tasks && y.tasks[task] == doc
    }

    ghost method Act(a: P.Action)
      requires P.Inv(build, y)
      modifies this`y
      ensures P.Inv(build, y) && y == P.Do(build, old(y), a)
    {
      P.DoKeepsInv(build, y, a);
      y := P.Do(build, y, a);
    }

    /** The sink and the other workers, for as long as they like; what they do is left open. */
    method Others() returns (ghost actions: seq<P.Action>)
      requires Ready()
      modifies store, this`y
      ensures Linked() && y == P.RunOf(build, old(y), actions)
      ensures forall a <- actions :: P.ByOthers(a, task)
    {
      actions := [];
    }

    method World()
      requires Ready()
      modifies store, this`y
      ensures Ready()
    {
      ghost var was := y;
      ghost var actions := Others();
      P.OthersKeepTask(build, was, actions, task);
    }

    /** What the store tests before it renews or writes. */
    ghost predicate HasClaim()
      requires doc.contentHash.Some?
      reads this
    {
      y.row.Some? && StillTheClaim(y.row.value, doc.contentHash.value)
    }

    /** So far it only kept its claim. */
    ghost predicate OnlyKept()
      reads this
    {
      forall i | 0 <= i < |sent| :: doc.contentHash.Some? && sent[i] == KeepClaim(doc.contentHash.value)
    }

    /** The model call, whatever comes of it; a full answer has a vector per text, in order. */
    method EmbedDocuments(texts: seq<Text>) returns (answer: Answer)
      ensures answer.Vectors? && |answer.vectors| == |texts| ==>
                forall i | 0 <= i < |texts| :: answer.vectors[i] == embed(setup.model, texts[i])
    {
      var fails: bool, retryable: bool := *, *;
      if fails { return Failure(retryable); }
      answer := Vectors(seq(|texts|, i requires 0 <= i < |texts| => embed(setup.model, texts[i])));
    }

    method StillClaimed() returns (kept: bool)
      requires Ready() && OnlyKept() && doc.contentHash.Some?
      modifies store, this`sent, this`y
      ensures Ready() && OnlyKept() && |sent| == old(|sent|) + 1
      ensures kept <==> HasClaim()
    {
      World();
      kept := store.KeepClaim(id, doc.contentHash.value);
      Act(P.Keeps(task));
      sent := sent + [KeepClaim(doc.contentHash.value)];
    }

    /** One request, made again up to five times; before each new try the claim is renewed. */
    method WithRetry(texts: seq<Text>) returns (r: Slice, ghost calls: nat)
      requires Ready() && OnlyKept() && doc.contentHash.Some?
      modifies store, this`sent, this`y
      ensures Ready() && OnlyKept()
      ensures 1 <= calls <= RETRY_ATTEMPTS
      // The claim is renewed before each call but the first, and not held when it ends in a lost one.
      ensures |sent| == old(|sent|) + calls - (if r.ClaimLost? then 0 else 1)
      ensures r.ClaimLost? ==> !HasClaim()
      ensures r.Embedded? && |r.vectors| == |texts| ==>
                forall i | 0 <= i < |texts| :: r.vectors[i] == embed(setup.model, texts[i])
    {
      calls := 0;
      var attempt := 1;
      while true
        invariant Ready() && OnlyKept()
        invariant 1 <= attempt <= RETRY_ATTEMPTS && calls == attempt - 1
        invariant |sent| == old(|sent|) + calls
        decreases RETRY_ATTEMPTS - attempt
      {
        var answer := EmbedDocuments(texts);
        calls := calls + 1;
        match answer {
          case Vectors(vectors) => return Embedded(vectors), calls;
          case Failure(retryable) =>
            if attempt == RETRY_ATTEMPTS || !retryable { return GaveUp("the embedding call failed"), calls; }
        }
        var stopped: bool := *;  // while waiting before the next try
        if stopped { return GaveUp("the worker is stopping"), calls; }
        var kept := StillClaimed();
        if !kept { return ClaimLost, calls; }
        attempt := attempt + 1;
      }
    }

    /** One request's worth of drafts. */
    method EmbedSlice(slice: seq<ChunkDraft>, byHash: map<Text, Vector>)
      returns (stop: Option<IndexOutcome>, after: map<Text, Vector>, ghost answer: Slice)
      requires Ready() && OnlyKept() && doc.contentHash.Some?
      requires Right(byHash, setup.model, embed) && Hashed(slice)
      modifies store, this`sent, this`y
      ensures Ready() && OnlyKept()
      ensures stop.None? <==>
                answer.Embedded? && |answer.vectors| == |slice| && forall v <- answer.vectors :: |v| == setup.dimensions
      ensures stop.Some? ==> if answer.ClaimLost? then stop.value.Superseded? && !HasClaim() else stop.value.Threw?
      ensures stop.None? ==> Right(after, setup.model, embed) && byHash.Keys <= after.Keys
      ensures stop.None? ==> forall i | 0 <= i < |slice| :: slice[i].textHash in after
      ensures stop.None? ==> |sent| >= old(|sent|)
    {
      after := byHash;
      var r, _ := WithRetry(TextsFrom(slice));
      answer := r;
      match r {
        case ClaimLost => stop := Some(Superseded);
        case GaveUp(error) => stop := Some(Threw(error));
        case Embedded(vectors) =>
          if |vectors| != |slice| { return Some(Threw("wrong number of vectors")), after, answer; }
          if exists v <- vectors :: |v| != setup.dimensions { return Some(Threw("wrong dimensions")), after, answer; }
          after := Record(byHash, slice, vectors, setup.model, embed);
          stop := None;
      }
    }

    /** A vector for every draft, asked for a hundred at a time. */
    method EmbedAll(missing: seq<ChunkDraft>, reusable: map<Text, Vector>)
      returns (stop: Option<IndexOutcome>, byHash: map<Text, Vector>)
      requires Ready() && OnlyKept() && doc.contentHash.Some?
      requires Right(reusable, setup.model, embed) && Hashed(missing)
      modifies store, this`sent, this`y
      ensures Ready() && OnlyKept()
      ensures stop.Some? ==> (stop.value.Superseded? && !HasClaim()) || stop.value.Threw?
      ensures stop.None? ==> Right(byHash, setup.model, embed) && reusable.Keys <= byHash.Keys
      ensures stop.None? ==> forall i | 0 <= i < |missing| :: missing[i].textHash in byHash
      // The claim was renewed at least once before every slice but the first.
      ensures stop.None? && missing != [] ==> |sent| >= old(|sent|) + (|missing| - 1) / TEXTS_PER_EMBEDDING_CALL
    {
      byHash, stop := reusable, None;
      var from := 0;
      while from < |missing|
        invariant Ready() && OnlyKept() && from <= |missing| && stop.None?
        invariant Right(byHash, setup.model, embed) && reusable.Keys <= byHash.Keys
        invariant forall i | 0 <= i < from :: missing[i].textHash in byHash
        invariant from < |missing| ==> from % TEXTS_PER_EMBEDDING_CALL == 0
        invariant |sent| >= old(|sent|) && (from > 0 ==> |sent| >= old(|sent|) + (from - 1) / TEXTS_PER_EMBEDDING_CALL)
        decreases |missing| - from
      {
        var to := if from + TEXTS_PER_EMBEDDING_CALL < |missing| then from + TEXTS_PER_EMBEDDING_CALL else |missing|;
        stop, byHash := NextSlice(missing, from, to, byHash);
        if stop.Some? { return; }
        SliceCount(from, to, |missing|);
        from := to;
      }
    }

    /** The next slice; the claim is renewed before any but the first. */
    method NextSlice(missing: seq<ChunkDraft>, from: nat, to: nat, byHash: map<Text, Vector>)
      returns (stop: Option<IndexOutcome>, after: map<Text, Vector>)
      requires Ready() && OnlyKept() && doc.contentHash.Some? && from <= to <= |missing|
      requires Right(byHash, setup.model, embed) && Hashed(missing)
      modifies store, this`sent, this`y
      ensures Ready() && OnlyKept()
      ensures stop.Some? ==> (stop.value.Superseded? && !HasClaim()) || stop.value.Threw?
      ensures stop.None? ==> Right(after, setup.model, embed) && byHash.Keys <= after.Keys
      ensures stop.None? ==> forall i | from <= i < to :: missing[i].textHash in after
      ensures stop.None? ==> |sent| >= old(|sent|) + if from > 0 then 1 else 0
    {
      after := byHash;
      if from > 0 {
        var kept := StillClaimed();
        if !kept { return Some(Superseded), after; }
      }
      var slice := missing[from..to];
      ghost var answer;
      stop, after, answer := EmbedSlice(slice, byHash);
      assert forall i | from <= i < to :: missing[i] == slice[i - from];
    }

    /** The worker's last word on the document: `st`, if it says anything. */
    ghost predicate Ended(o: IndexOutcome, containerName: Text)
      requires setup.options.sizes.Valid()
      reads this
    {
      match o
      case Skipped => P.NothingToIndex(doc) && sent == [MarkSkipped]
      case Unchanged =>
        !P.NothingToIndex(doc) && P.Unchanged(doc, setup.version) && sent == [MarkUnchanged(setup.version)]
      case Threw(_) => OnlyKept()
      case Indexed => ToDo() && Wrote(containerName)
      case Superseded => ToDo() && (OnlyKept() || Wrote(containerName))  // refused at the end, or before
    }

    ghost predicate ToDo() { !P.NothingToIndex(doc) && !P.Unchanged(doc, setup.version) }

    /** After keeping its claim, it sent the rebuild of the document as claimed. */
    ghost predicate Wrote(containerName: Text)
      requires setup.options.sizes.Valid() && doc.contentHash.Some?
      reads this
    {
      && sent != []
      && (forall i | 0 <= i < |sent| - 1 :: sent[i] == KeepClaim(doc.contentHash.value))
      && sent[|sent| - 1] ==
         ReplaceChunks(Rebuilt(P.SourceOf(doc, containerName), setup.options, setup.model, embed),
                       doc.contentHash.value, setup.version)
    }

    /** Writes the rows exactly when the document, as it is `at` that moment, is still the claim. */
    method Write(rows: seq<ChunkRow>, containerName: Text) returns (o: IndexOutcome, ghost at: P.Sys)
      requires Ready() && OnlyKept() && !P.NothingToIndex(doc) && !P.Unchanged(doc, setup.version)
      requires rows == Rebuilt(P.SourceOf(doc, containerName), setup.options, setup.model, embed)
      modifies store, this`sent, this`y
      ensures Linked() && Ended(o, containerName)
      ensures o == if at.row.Some? && StillTheClaim(at.row.value, doc.contentHash.value) then IndexOutcome.Indexed
                   else Superseded
      ensures y == P.Do(build, at, P.Replaces(task, containerName, setup.version))
      ensures o.Superseded? ==> !HasClaim()
      ensures o.Indexed? ==> id in store.docs && store.docs[id].chunks == rows
                             && store.docs[id].indexedHash == store.docs[id].contentHash == doc.contentHash
    {
      World();
      at := y;
      var written := store.ReplaceChunks(id, rows, doc.contentHash.value, setup.version);
      RebuildIsReplace(build, setup, embed, y, task, containerName);
      Act(P.Replaces(task, containerName, setup.version));
      Say(ReplaceChunks(rows, doc.contentHash.value, setup.version));
      o := if written then IndexOutcome.Indexed else Superseded;
    }

    ghost method Say(st: Statement)
      requires OnlyKept() && doc.contentHash.Some?
      modifies this`sent
      ensures sent == old(sent) + [st]
      ensures forall i | 0 <= i < |sent| - 1 :: sent[i] == KeepClaim(doc.contentHash.value)
    {
      sent := sent + [st];
    }

    /** The rows of the document as claimed, or why there are none. */
    method Prepare(containerName: Text) returns (stop: Option<IndexOutcome>, rows: seq<ChunkRow>)
      requires Ready() && OnlyKept() && doc.contentHash.Some?
      modifies store, this`sent, this`y
      ensures Ready() && OnlyKept()
      ensures stop.Some? ==> (stop.value.Superseded? && !HasClaim()) || stop.value.Threw?
      ensures stop.None? ==> rows == Rebuilt(P.SourceOf(doc, containerName), setup.options, setup.model, embed)
    {
      rows := [];
      var src := P.SourceOf(doc, containerName);
      var drafts := ChunkDocument(src, setup.options);
      ChunksAreHashed(src, setup.options);
      World();
      var stored := if id in store.docs then store.docs[id].chunks else [];
      if y.row.Some? { StoredIsSound(build, setup, embed, y); }
      var reusable := Reusable(stored, setup.model, embed);
      var missing := ToEmbed(drafts, reusable);
      assert Hashed(missing);
      var byHash;
      stop, byHash := EmbedAll(missing, reusable);
      if stop.Some? { return; }
      forall i | 0 <= i < |drafts| ensures drafts[i].textHash in byHash {
        assert drafts[i] in drafts;
        if drafts[i] in missing {
          var k :| 0 <= k < |missing| && missing[k] == drafts[i];
        }
      }
      rows := Rows(drafts, byHash, setup.model, embed);
    }

    /** Nothing to index: the row is marked skipped. */
    method Skip()
      requires Ready() && sent == [] && P.NothingToIndex(doc)
      modifies store, this`sent, this`y
      ensures Linked() && sent == [MarkSkipped]
    {
      World();
      store.MarkSkipped(id);
      Act(P.Skips(task));
      sent := sent + [MarkSkipped];
    }

    /** Nothing has changed since it was last indexed: the row is marked so. */
    method Confirm()
      requires Ready() && sent == [] && !P.NothingToIndex(doc) && P.Unchanged(doc, setup.version)
      modifies store, this`sent, this`y
      ensures Linked() && sent == [MarkUnchanged(setup.version)]
    {
      World();
      store.MarkUnchanged(id, setup.version);
      Act(P.FindsUnchanged(task, setup.version));
      sent := sent + [MarkUnchanged(setup.version)];
    }

    /**
     Indexes the document. Whatever was reused, however the calls were sliced and made
     again, what is written is the rebuild; and otherwise nothing is.
     */
    method IndexDocument(containerName: Text) returns (o: IndexOutcome)
      requires Ready() && sent == []
      modifies store, this`sent, this`y
      ensures Linked() && Ended(o, containerName) && (o.Threw? ==> Ready())
      // Superseded is what the store refused, at the end or at a renewal: the row is not the claim any more.
      ensures o.Superseded? ==> doc.contentHash.Some? && !HasClaim()
    {
      if doc.deletedAt.Some? || doc.restricted || |doc.segments| == 0 || doc.contentHash.None? {
        Skip();
        return IndexOutcome.Skipped;
      }
      if doc.indexedHash == doc.contentHash && doc.indexVersion == Some(setup.version) {
        Confirm();
        return Unchanged;
      }
      var stop, rows := Prepare(containerName);
      if stop.Some? { return stop.value; }
      ghost var at;
      o, at := Write(rows, containerName);
    }
  }

  /** A worker of one version takes up a claim, in a protocol whose workers are those of `setups`. */
  method TakeUp(store: KnowledgeStore, id: string, doc: Doc, setups: Setups, version: int, embed: Embed,
                ghost build: P.Build, ghost task: nat, ghost y: P.Sys)
    returns (indexer: Indexer)
    requires build == BuildOf(setups, embed)
    requires store.Valid() && RowIn(store.docs, id) == y.row && store.now == y.now && P.Inv(build, y)
    requires task in y.tasks && y.tasks[task] == doc
    ensures indexer.store == store && indexer.id == id && indexer.doc == doc && indexer.build == build
    ensures indexer.setup == setups(version) && indexer.Ready() && indexer.y == y && indexer.sent == []
  {
    BuildOfMakes(build, setups, embed, version);
    indexer := new Indexer(store, id, doc, setups(version), embed, build, task, y);
  }
}
