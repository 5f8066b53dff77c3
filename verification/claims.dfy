/**
 The claims of one graph node: connectors merge theirs by compare-and-set on a revision
 counter, people set and revert theirs under the node's lock. Every read of the one may
 be overtaken by writes of the other; what is stored is proved to be a serial replay.
 */
module Claims {
  import opened Wrappers

  datatype Source = Manual(actor: string) | Connector(name: string)

  datatype Claim = Claim(key: string, value: string, source: Source, sourceId: string)

  // --- Merging ---------------------------------------------------------------

  predicate SameTriple(a: Claim, b: Claim) {
    a.source == b.source && a.sourceId == b.sourceId && a.key == b.key
  }

  /** The first place of a claim with this triple; the length if there is none. */
  function FindTriple(claims: seq<Claim>, c: Claim, from: nat): (k: nat)
    requires from <= |claims|
    ensures from <= k <= |claims|
    ensures k < |claims| ==> SameTriple(claims[k], c)
    ensures forall i | from <= i < k :: !SameTriple(claims[i], c)
    decreases |claims| - from
  {
    if from == |claims| || SameTriple(claims[from], c) then from else FindTriple(claims, c, from + 1)
  }

  function MergeOne(claims: seq<Claim>, c: Claim): seq<Claim> {
    var k := FindTriple(claims, c, 0);
    if k < |claims| then claims[k := c] else claims + [c]
  }

  /** The first `n` incoming claims merged in: each replaces its triple or is added. */
  function Merge(existing: seq<Claim>, incoming: seq<Claim>, n: nat): seq<Claim>
    requires n <= |incoming|
  {
    if n == 0 then existing else MergeOne(Merge(existing, incoming, n - 1), incoming[n - 1])
  }

  function MergeAll(existing: seq<Claim>, incoming: seq<Claim>): seq<Claim> {
    Merge(existing, incoming, |incoming|)
  }

  predicate NoManual(claims: seq<Claim>) { forall c <- claims :: !c.source.Manual? }

  ghost predicate SameManual(a: seq<Claim>, b: seq<Claim>) {
    forall c: Claim :: c.source.Manual? ==> (c in a <==> c in b)
  }

  lemma MergeOneKeepsManual(claims: seq<Claim>, c: Claim)
    requires !c.source.Manual?
    ensures SameManual(claims, MergeOne(claims, c))
  {
    var k := FindTriple(claims, c, 0);
    var after := MergeOne(claims, c);
    forall m: Claim | m.source.Manual? ensures m in claims <==> m in after {
      if m in claims {
        var i :| 0 <= i < |claims| && claims[i] == m;
        assert after[i] == m;
      }
    }
  }

  /** What a connector brings never touches what people set. */
  lemma {:induction false} MergeKeepsManual(existing: seq<Claim>, incoming: seq<Claim>, n: nat)
    requires n <= |incoming| && NoManual(incoming)
    ensures SameManual(existing, Merge(existing, incoming, n))
  {
    if n > 0 {
      MergeKeepsManual(existing, incoming, n - 1);
      assert incoming[n - 1] in incoming;
      MergeOneKeepsManual(Merge(existing, incoming, n - 1), incoming[n - 1]);
    }
  }

  // --- Manual edits ----------------------------------------------------------

  /** The claims without this source's on this property. */
  function Without(claims: seq<Claim>, source: Source, key: string): (rest: seq<Claim>)
    ensures forall c :: c in rest <==> c in claims && !(c.source == source && c.key == key)
  {
    if claims == [] then []
    else
      var c := claims[|claims| - 1];
      Without(claims[..|claims| - 1], source, key) + if c.source == source && c.key == key then [] else [c]
  }

  /** What was done to the node, in the order it took effect. */
  datatype Op =
    | Merged(incoming: seq<Claim>)
    | ManualSet(claim: Claim)
    | ManualReverted(source: Source, key: string)

  function Apply(claims: seq<Claim>, op: Op): seq<Claim> {
    match op
    case Merged(incoming) => MergeAll(claims, incoming)
    case ManualSet(c) => Without(claims, c.source, c.key) + [c]
    case ManualReverted(source, key) => Without(claims, source, key)
  }

  function Replay(log: seq<Op>, n: nat): seq<Claim>
    requires n <= |log|
  {
    if n == 0 then [] else Apply(Replay(log, n - 1), log[n - 1])
  }

  function Key(c: Claim): (Source, string) { (c.source, c.key) }

  /** The manual claims set and not reverted since: the last per person and property. */
  function Standing(log: seq<Op>, n: nat): map<(Source, string), Claim>
    requires n <= |log|
  {
    if n == 0 then map[]
    else
      var before := Standing(log, n - 1);
      match log[n - 1]
      case Merged(_) => before
      case ManualSet(c) => before[Key(c) := c]
      case ManualReverted(source, key) => before - {(source, key)}
  }

  /** Connectors bring no manual claims; people set nothing else. */
  ghost predicate Proper(log: seq<Op>) {
    forall i | 0 <= i < |log| ::
      && (log[i].Merged? ==> NoManual(log[i].incoming))
      && (log[i].ManualSet? ==> log[i].claim.source.Manual?)
      && (log[i].ManualReverted? ==> log[i].source.Manual?)
  }

  ghost predicate Shows(claims: seq<Claim>, standing: map<(Source, string), Claim>) {
    forall c: Claim :: c.source.Manual? ==> (c in claims <==> Key(c) in standing && standing[Key(c)] == c)
  }

  /**
   No manual claim is lost, whatever connectors write in between: the manual claims stored
   are those set and not reverted, each person's last on each property, and no others.
   */
  lemma {:induction false} ManualClaimsStand(log: seq<Op>, n: nat)
    requires n <= |log| && Proper(log)
    ensures Shows(Replay(log, n), Standing(log, n))
  {
    if n > 0 {
      ManualClaimsStand(log, n - 1);
      var before, standing := Replay(log, n - 1), Standing(log, n - 1);
      if log[n - 1].Merged? { MergeKeepsManual(before, log[n - 1].incoming, |log[n - 1].incoming|); }
    }
  }

  lemma {:induction false} ReplayPrefix(log: seq<Op>, op: Op, n: nat)
    requires n <= |log|
    ensures Replay(log + [op], n) == Replay(log, n)
  {
    if n > 0 { ReplayPrefix(log, op, n - 1); }
  }

  // --- The node --------------------------------------------------------------

  datatype Version = Epoch(ms: int) | Hash(hash: string)

  /** Only two epochs can be put in order. */
  predicate Newer(stored: Option<Version>, incoming: Version) {
    stored.Some? && stored.value.Epoch? && incoming.Epoch? && stored.value.ms > incoming.ms
  }

  datatype WriteNodeResult = WriteNodeResult(written: bool, claimsWritten: bool, claimsConflict: bool)

  datatype EditError = EntityNotFound | NoManualClaim

  class Node {
    var present: bool
    var claims: seq<Claim>
    var rev: nat
    var version: Option<Version>
    ghost var log: seq<Op>

    /** The stored claims are the operations that took effect, done one after the other. */
    ghost predicate Valid()
      reads this
    {
      && claims == Replay(log, |log|) && Proper(log)
      && (!present ==> claims == [] && rev == 0 && log == [] && version.None?)
    }

    /** Whoever changes the claims moves the revision on; it never comes back. */
    twostate predicate Moves()
      reads this
    {
      && rev >= old(rev) && (rev == old(rev) ==> claims == old(claims))
      && old(log) <= log && (old(present) ==> present)
    }

    constructor ()
      ensures Valid() && !present
    {
      present, claims, rev, version, log := false, [], 0, None, [];
    }

    method GetExistingClaims() returns (found: seq<Claim>, at: nat)
      ensures found == claims && at == rev
    {
      found, at := claims, rev;
    }

    /** Two guards in one statement: nothing of a stale delivery, no claims over newer ones. */
    method WriteNode(incomingVersion: Version, merged: seq<Claim>, expectedRev: nat,
                     ghost read: seq<Claim>, ghost incoming: seq<Claim>)
      returns (r: WriteNodeResult)
      requires Valid() && NoManual(incoming) && merged == MergeAll(read, incoming)
      requires rev == expectedRev ==> claims == read
      modifies this
      ensures Valid() && Moves()
      ensures r.written <==> !old(Newer(version, incomingVersion))
      ensures r.claimsConflict <==> r.written && old(rev) != expectedRev
      ensures r.claimsWritten <==> r.written && !r.claimsConflict
      ensures r.claimsWritten ==> claims == MergeAll(old(claims), incoming) && log == old(log) + [Merged(incoming)]
      ensures !r.claimsWritten ==> claims == old(claims) && rev == old(rev) && log == old(log)
      ensures version == if r.written then Some(incomingVersion) else old(version)
    {
      present := true;
      var reject := Newer(version, incomingVersion);
      var conflict := !reject && rev != expectedRev;
      if !reject { version := Some(incomingVersion); }
      if !reject && !conflict {
        ReplayPrefix(log, Merged(incoming), |log|);
        log := log + [Merged(incoming)];
        claims := merged;
        rev := rev + 1;
      }
      r := WriteNodeResult(!reject, !reject && !conflict, conflict);
    }

    /** Takes the node's lock by moving the revision, and reads the claims under it. */
    method LoadClaimsLocked() returns (found: Option<seq<Claim>>)
      modifies this`rev
      ensures present ==> found == Some(claims) && rev == old(rev) + 1
      ensures !present ==> found.None? && rev == old(rev)
    {
      if !present { return None; }
      rev := rev + 1;
      found := Some(claims);
    }

    method WriteClaims(next: seq<Claim>, ghost op: Op)
      requires present && claims == Replay(log, |log|) && Proper(log + [op]) && next == Apply(claims, op)
      modifies this`claims, this`log
      ensures Valid() && claims == next && log == old(log) + [op]
    {
      ReplayPrefix(log, op, |log|);
      log := log + [op];
      claims := next;
    }

    /** One manual claim per person and property; the person's earlier one is replaced. */
    method SetManualClaim(actor: string, key: string, value: string, sourceId: string)
      returns (r: Result<seq<Claim>, EditError>)
      requires Valid()
      modifies this
      ensures Valid() && Moves()
      ensures r.Ok? <==> old(present)
      ensures r.Ok? ==> log == old(log) + [ManualSet(Claim(key, value, Manual(actor), sourceId))] && r.value == claims
      ensures r.Err? ==> r.error.EntityNotFound? && claims == old(claims) && rev == old(rev) && log == old(log)
    {
      var loaded := LoadClaimsLocked();
      if loaded.None? { return Err(EntityNotFound); }
      var c := Claim(key, value, Manual(actor), sourceId);
      var next := Without(loaded.value, Manual(actor), key) + [c];
      WriteClaims(next, ManualSet(c));
      r := Ok(next);
    }

    /** Takes a manual claim back; a transaction that finds none changes nothing. */
    method RevertManualClaim(actor: string, key: string) returns (r: Result<seq<Claim>, EditError>)
      requires Valid()
      modifies this
      ensures Valid() && Moves()
      ensures r.Ok? <==> old(present) && exists c <- old(claims) :: c.source == Manual(actor) && c.key == key
      ensures r.Ok? ==> log == old(log) + [ManualReverted(Manual(actor), key)] && r.value == claims
      ensures r.Err? ==> claims == old(claims) && rev == old(rev) && log == old(log)
      ensures r.Err? ==> r.error == if old(present) then NoManualClaim else EntityNotFound
    {
      var before := rev;
      var loaded := LoadClaimsLocked();
      if loaded.None? { return Err(EntityNotFound); }
      if !exists c <- loaded.value :: c.source == Manual(actor) && c.key == key {
        rev := before;  // the transaction is rolled back
        return Err(NoManualClaim);
      }
      var next := Without(loaded.value, Manual(actor), key);
      WriteClaims(next, ManualReverted(Manual(actor), key));
      r := Ok(next);
    }

    /** Anybody else, for as long as they like; each of them keeps `Valid` and `Moves`. */
    method World()
      requires Valid()
      modifies this
      ensures Valid() && Moves()
    {
    }
  }

  // --- The connector's writer ------------------------------------------------

  const CLAIMS_REV_MAX_RETRIES: nat := 3

  datatype NodeOutcome = Written | Duplicate | Stale | ConflictSkipped

  class Writer {
    const node: Node
    var recorded: set<string>  // idempotency keys

    constructor (node: Node)
      ensures this.node == node && recorded == {}
    {
      this.node, recorded := node, {};
    }

    /** The claims to store: each incoming one replaces its triple, or is added. */
    method Resolve(existing: seq<Claim>, incoming: seq<Claim>) returns (merged: seq<Claim>)
      ensures merged == MergeAll(existing, incoming)
    {
      merged := existing;
      for i := 0 to |incoming|
        invariant merged == Merge(existing, incoming, i)
      {
        var idx := FindTriple(merged, incoming[i], 0);
        if idx < |merged| { merged := merged[idx := incoming[i]]; } else { merged := merged + [incoming[i]]; }
      }
    }

    /**
     One delivered node. At most three tries; the key is recorded exactly when the payload
     was written or refused as stale, so that a payload dropped in a conflict is taken up
     again when it is delivered again. Stale is what the last try `met` a newer version of.
     */
    method ProcessNode(key: string, version: Version, incoming: seq<Claim>)
      returns (o: NodeOutcome, attempts: nat, ghost met: Option<Version>)
      requires node.Valid() && NoManual(incoming)
      modifies this, node
      ensures node.Valid() && node.Moves()
      ensures o.Duplicate? <==> key in old(recorded)
      ensures recorded == old(recorded) + if o.Written? || o.Stale? then {key} else {}
      ensures !o.Duplicate? ==> (o.Stale? <==> Newer(met, version)) && attempts > 0
      ensures o.Written? ==> Merged(incoming) in node.log[|old(node.log)|..]
      ensures attempts <= CLAIMS_REV_MAX_RETRIES && (o.ConflictSkipped? ==> attempts == CLAIMS_REV_MAX_RETRIES)
    {
      attempts, met := 0, None;
      if key in recorded { return Duplicate, attempts, met; }
      var written, conflict := false, true;
      while attempts < CLAIMS_REV_MAX_RETRIES && conflict
        invariant node.Valid() && node.Moves() && recorded == old(recorded)
        invariant attempts <= CLAIMS_REV_MAX_RETRIES
        invariant attempts == 0 ==> conflict
        invariant attempts > 0 ==> (written <==> !Newer(met, version)) && (conflict ==> written)
        invariant written && !conflict ==> Merged(incoming) in node.log[|old(node.log)|..]
      {
        node.World();
        var existing, at := node.GetExistingClaims();
        var merged := Resolve(existing, incoming);
        node.World();
        ghost var before := node.log;
        met := node.version;
        var r := node.WriteNode(version, merged, at, existing, incoming);
        written, conflict := r.written, r.claimsConflict;
        if written && !conflict {
          assert node.log[|before|] == Merged(incoming);
        }
        attempts := attempts + 1;
      }
      if conflict { return ConflictSkipped, attempts, met; }
      recorded := recorded + {key};
      o := if written then Written else Stale;
    }
  }
}
