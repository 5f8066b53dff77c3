/**
 The document rows of the knowledge index and every statement on one of them, the
 sink's and the workers'. A statement is one atomic step; where its WHERE clause does
 not match, the row stays as it is.
 */
module KnowledgeModel {
  import opened Wrappers
  import opened Documents

  type Time = int  // milliseconds; the database clock

  const CLAIM_STALE_MS: int := 600_000
  const MAX_INDEX_ATTEMPTS: nat := 5

  datatype IndexStatus = Pending | Indexing | Indexed | Failed | Skipped

  datatype Doc = Doc(
    container: string,
    kind: Kind,
    title: Text,
    segments: seq<Segment>,
    reference: Text,
    contentHash: Option<Fingerprint>,
    restricted: bool,
    deletedAt: Option<Time>,
    status: IndexStatus,
    claimedAt: Option<Time>,
    attempts: nat,
    indexedHash: Option<Fingerprint>,
    indexVersion: Option<int>,
    updatedAt: Time,
    chunks: seq<ChunkRow>)

  /** A document as a batch brings it. */
  datatype SourceDoc = SourceDoc(
    id: string, kind: Kind, title: Text, segments: seq<Segment>, reference: Text, restricted: bool)
  {
    function Hash(): Option<Fingerprint> { if restricted then None else Some(HashOf(title, segments)) }
  }

  function Pow4(n: nat): nat { if n == 0 then 1 else 4 * Pow4(n - 1) }

  /** A failed document waits 4^attempts minutes. */
  function BackoffMs(attempts: nat): int { Pow4(attempts) * 60_000 }

  function Upserted(row: Option<Doc>, d: SourceDoc, container: string, now: Time): Doc {
    var kept := if d.restricted then [] else d.segments;
    match row
    case None =>
      Doc(container, d.kind, d.title, kept, d.reference, d.Hash(), d.restricted, None,
          if d.restricted then Skipped else Pending, None, 0, None, None, now, [])
    case Some(r) =>
      var changed := d.Hash() != r.contentHash;
      r.(container := container, kind := d.kind, title := d.title, segments := kept, reference := d.reference,
         contentHash := d.Hash(), restricted := d.restricted,
         // Nothing indexed is left of a restricted document.
         indexedHash := if d.restricted then None else r.indexedHash,
         indexVersion := if d.restricted then None else r.indexVersion,
         chunks := if d.restricted then [] else r.chunks,
         status := if d.restricted then Skipped
                   else if r.deletedAt.Some? || changed then Pending else r.status,
         claimedAt := if d.restricted || r.deletedAt.Some? || changed then None else r.claimedAt,
         attempts := if changed then 0 else r.attempts,
         deletedAt := None, updatedAt := now)
  }

  function Tombstoned(r: Doc, now: Time): Doc {
    if r.deletedAt.Some? then r
    else
      r.(deletedAt := Some(now), title := [], segments := [], contentHash := None, indexedHash := None,
         indexVersion := None, status := Skipped, claimedAt := None, updatedAt := now, chunks := [])
  }

  predicate Claimable(r: Doc, staleMs: int, now: Time) {
    && r.deletedAt.None?
    && (|| r.status.Pending?
        || (r.status.Indexing? && r.claimedAt.Some? && r.claimedAt.value < now - staleMs)
        || (r.status.Failed? && r.attempts < MAX_INDEX_ATTEMPTS
            && r.claimedAt.Some? && r.claimedAt.value < now - BackoffMs(r.attempts)))
  }

  function Claimed(r: Doc, now: Time): Doc { r.(status := Indexing, claimedAt := Some(now)) }

  /** Being indexed, live, unrestricted, and with the content `hash`: what a write tests. */
  predicate StillTheClaim(r: Doc, hash: Fingerprint) {
    r.status.Indexing? && r.contentHash == Some(hash) && r.deletedAt.None? && !r.restricted
  }

  function Replaced(r: Doc, chunks: seq<ChunkRow>, hash: Fingerprint, version: int, now: Time): Doc {
    if StillTheClaim(r, hash) then
      r.(chunks := chunks, status := Indexed, indexedHash := Some(hash), indexVersion := Some(version),
         attempts := 0, claimedAt := None, updatedAt := now)
    else r
  }

  function MarkedUnchanged(r: Doc, version: int, now: Time): Doc {
    if r.status.Indexing? then
      r.(status := Indexed, indexVersion := Some(version), claimedAt := None, updatedAt := now)
    else r
  }

  function MarkedSkipped(r: Doc, now: Time): Doc {
    if r.status.Indexing? then
      r.(status := Skipped, claimedAt := None, indexedHash := None, indexVersion := None, updatedAt := now,
         chunks := [])
    else r
  }

  function Kept(r: Doc, hash: Fingerprint, now: Time): Doc {
    if StillTheClaim(r, hash) then r.(claimedAt := Some(now)) else r
  }

  function Released(r: Doc): Doc { if r.status.Indexing? then r.(status := Pending) else r }

  function MarkedFailed(r: Doc, now: Time): Doc {
    if r.status.Indexing? then
      r.(status := Failed, attempts := r.attempts + 1, claimedAt := Some(now), updatedAt := now)
    else r
  }

  datatype Statement =
    | Upsert(d: SourceDoc, container: string)
    | Tombstone
    | Purge                 // the row goes, with its container's content or as an old tombstone
    | Claim
    | ReplaceChunks(chunks: seq<ChunkRow>, hash: Fingerprint, version: int)
    | MarkUnchanged(version: int)
    | MarkSkipped
    | KeepClaim(hash: Fingerprint)
    | ReleaseClaim
    | MarkFailed

  /** One statement on the document's row, if it has one. */
  function Apply(row: Option<Doc>, st: Statement, now: Time): Option<Doc> {
    if st.Upsert? then Some(Upserted(row, st.d, st.container, now))
    else if row.None? || st.Purge? then None
    else
      var r := row.value;
      Some(match st
           case Tombstone => Tombstoned(r, now)
           case Claim => if Claimable(r, CLAIM_STALE_MS, now) then Claimed(r, now) else r
           case ReplaceChunks(chunks, hash, version) => Replaced(r, chunks, hash, version, now)
           case MarkUnchanged(version) => MarkedUnchanged(r, version, now)
           case MarkSkipped => MarkedSkipped(r, now)
           case KeepClaim(hash) => Kept(r, hash, now)
           case ReleaseClaim => Released(r)
           case MarkFailed => MarkedFailed(r, now)
           case _ => r)
  }

  function ApplyAll(row: Option<Doc>, script: seq<Statement>, now: Time): Option<Doc>
    decreases |script|
  {
    if script == [] then row else ApplyAll(Apply(row, script[0], now), script[1..], now)
  }

  lemma {:induction false} ApplyAllAppend(row: Option<Doc>, a: seq<Statement>, b: seq<Statement>, now: Time)
    ensures ApplyAll(row, a + b, now) == ApplyAll(ApplyAll(row, a, now), b, now)
    decreases |a|
  {
    if a == [] {
      assert a + b == b;
    } else {
      assert (a + b)[1..] == a[1..] + b;
      ApplyAllAppend(Apply(row, a[0], now), a[1..], b, now);
    }
  }
}
