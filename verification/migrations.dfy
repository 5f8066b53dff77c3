/**
 Forward-only schema migrations: what is planned from the files and the recorded
 versions, and what a run leaves behind when it may fail or crash between any two
 statements. Migrators exclude one another by a lock, so runs follow one another.
 */
module Migrations {
  import opened Wrappers
  import opened Sequences

  // --- File names ------------------------------------------------------------

  predicate IsDigit(c: char) { '0' <= c <= '9' }

  predicate InDescription(c: char) { 'a' <= c <= 'z' || IsDigit(c) || c == '_' }

  const SUFFIX := ".sql"

  predicate IsSql(filename: string) {
    |filename| >= 4 && filename[|filename| - 4..] == SUFFIX
  }

  function Digit(c: char): nat
    requires IsDigit(c)
  {
    (c - '0') as nat
  }

  /** The version of NNNN_description.sql; the four digits compare as text as they do as numbers. */
  function VersionOf(filename: string): Option<nat> {
    var n := |filename|;
    if n >= 10 && IsSql(filename)
       && IsDigit(filename[0]) && IsDigit(filename[1]) && IsDigit(filename[2]) && IsDigit(filename[3])
       && filename[4] == '_' && forall i | 5 <= i < n - 4 :: InDescription(filename[i]) then
      Some(Digit(filename[0]) * 1000 + Digit(filename[1]) * 100 + Digit(filename[2]) * 10 + Digit(filename[3]))
    else None
  }

  function DigitChar(d: nat): char
    requires d < 10
  {
    '0' + d as char
  }

  /** The file name of a version: four digits, with zeros in front, and what it does. */
  function NameOf(version: nat, description: string): string
    requires version < 10_000
  {
    [DigitChar(version / 1000), DigitChar(version / 100 % 10), DigitChar(version / 10 % 10), DigitChar(version % 10)]
    + "_" + description + SUFFIX
  }

  predicate Describes(description: string) {
    description != "" && forall i | 0 <= i < |description| :: InDescription(description[i])
  }

  lemma FourDigits(a: nat, b: nat, c: nat, d: nat)
    requires a < 10 && b < 10 && c < 10 && d < 10
    ensures var v := a * 1000 + b * 100 + c * 10 + d;
            v < 10_000 && v / 1000 == a && v / 100 % 10 == b && v / 10 % 10 == c && v % 10 == d
  {
    var v := a * 1000 + b * 100 + c * 10 + d;
    assert v / 10 == a * 100 + b * 10 + c;
    assert v / 100 == a * 10 + b;
  }

  lemma NameHasItsVersion(version: nat, description: string)
    requires version < 10_000 && Describes(description)
    ensures VersionOf(NameOf(version, description)) == Some(version)
  {
    var f := NameOf(version, description);
    var n := |description|;
    assert |f| == n + 9 && f[4] == '_' && f[n + 5..] == SUFFIX;
    assert forall i | 5 <= i < n + 5 :: f[i] == description[i - 5];
  }

  /** A name has a version exactly when it is that version's name under some description. */
  lemma VersionIsTheName(filename: string, version: nat)
    ensures VersionOf(filename) == Some(version) <==>
            version < 10_000 && exists d :: Describes(d) && filename == NameOf(version, d)
  {
    if version < 10_000 && exists d :: Describes(d) && filename == NameOf(version, d) {
      var d :| Describes(d) && filename == NameOf(version, d);
      NameHasItsVersion(version, d);
    }
    if VersionOf(filename) == Some(version) {
      var n := |filename|;
      var d := filename[5..n - 4];
      FourDigits(Digit(filename[0]), Digit(filename[1]), Digit(filename[2]), Digit(filename[3]));
      assert filename == filename[..5] + d + filename[n - 4..];
      assert filename[..5] == [filename[0], filename[1], filename[2], filename[3]] + "_";
      assert Describes(d) && filename == NameOf(version, d);
    }
  }

  // --- The plan --------------------------------------------------------------

  datatype PlanError =
    | BadName(filename: string)
    | Clash(first: string, second: string)
    | OutOfOrder(filename: string, highest: nat)

  datatype Plan = Plan(pending: seq<string>, unknownApplied: seq<nat>)

  ghost predicate Ascending(versions: seq<nat>) {
    forall i, j | 0 <= i < j < |versions| :: versions[i] < versions[j]
  }

  ghost predicate Misnamed(filenames: seq<string>, f: string) {
    f in filenames && IsSql(f) && VersionOf(f).None?
  }

  ghost predicate Clashes(filenames: seq<string>, i: int, j: int) {
    0 <= i < j < |filenames| && VersionOf(filenames[i]).Some? && VersionOf(filenames[i]) == VersionOf(filenames[j])
  }

  /** Not recorded, and older than something that is. */
  ghost predicate ComesTooLate(filenames: seq<string>, applied: seq<nat>, f: string) {
    && f in filenames && VersionOf(f).Some? && VersionOf(f).value !in applied
    && exists v <- applied :: VersionOf(f).value < v
  }

  /** Every version that has a file, with that file. */
  ghost predicate Indexes(byVersion: map<nat, string>, filenames: seq<string>) {
    && (forall v <- byVersion :: byVersion[v] in filenames && VersionOf(byVersion[v]) == Some(v))
    && (forall f <- filenames :: VersionOf(f).Some? ==>
          VersionOf(f).value in byVersion && byVersion[VersionOf(f).value] == f)
  }

  method IndexFiles(filenames: seq<string>) returns (r: Result<map<nat, string>, PlanError>)
    ensures r.Ok? ==> Indexes(r.value, filenames)
    ensures r.Ok? ==> (forall f :: !Misnamed(filenames, f)) && forall i, j :: !Clashes(filenames, i, j)
    ensures r.Err? ==> !r.error.OutOfOrder?
    ensures r.Err? && r.error.BadName? ==> Misnamed(filenames, r.error.filename)
    ensures r.Err? && r.error.Clash? ==>
              exists i, j :: Clashes(filenames, i, j) && filenames[i] == r.error.first && filenames[j] == r.error.second
  {
    var byVersion: map<nat, string> := map[];
    for k := 0 to |filenames|
      invariant Indexes(byVersion, filenames[..k])
      invariant forall i | 0 <= i < k :: IsSql(filenames[i]) ==> VersionOf(filenames[i]).Some?
      invariant forall i, j | 0 <= i < j < k :: !Clashes(filenames, i, j)
    {
      var f := filenames[k];
      assert filenames[..k + 1] == filenames[..k] + [f];
      if IsSql(f) {
        var parsed := VersionOf(f);
        if parsed.None? { return Err(BadName(f)); }
        if parsed.value in byVersion {
          var i :| 0 <= i < k && filenames[i] == byVersion[parsed.value];
          assert Clashes(filenames, i, k);
          return Err(Clash(byVersion[parsed.value], f));
        }
        forall i | 0 <= i < k ensures !Clashes(filenames, i, k) {
          assert filenames[i] in filenames[..k];
        }
        byVersion := byVersion[parsed.value := f];
      }
    }
    assert filenames[..|filenames|] == filenames;
    r := Ok(byVersion);
  }

  /** The versions of a set, smallest first. */
  method Sorted(versions: set<nat>) returns (sorted: seq<nat>)
    ensures Ascending(sorted) && forall v :: v in sorted <==> v in versions
  {
    sorted := [];
    var rest := versions;
    while rest != {}
      invariant rest <= versions && Ascending(sorted)
      invariant forall v :: v in sorted <==> v in versions - rest
      invariant forall v <- sorted, w <- rest :: v < w
      decreases |rest|
    {
      var least := Least(rest);
      assert forall i | 0 <= i < |sorted| :: sorted[i] in sorted;
      sorted := sorted + [least];
      rest := rest - {least};
    }
  }

  method Least(versions: set<nat>) returns (least: nat)
    requires versions != {}
    ensures least in versions && forall v <- versions :: least <= v
  {
    least :| least in versions;
    var rest := versions - {least};
    while rest != {}
      invariant rest <= versions && least in versions && forall w <- versions :: w in rest || least <= w
      decreases |rest|
    {
      var v :| v in rest;
      if v < least { least := v; }
      rest := rest - {v};
    }
  }

  method Highest(applied: seq<nat>) returns (max: int)
    ensures max == -1 || max in applied
    ensures forall v <- applied :: v <= max
    ensures applied == [] ==> max == -1
  {
    max := -1;
    for i := 0 to |applied|
      invariant max == -1 || max in applied
      invariant forall k | 0 <= k < i :: applied[k] <= max
    {
      if applied[i] > max { max := applied[i]; }
    }
  }

  function VersionsOf(files: seq<string>): (versions: seq<nat>)
    requires forall f <- files :: VersionOf(f).Some?
    ensures |versions| == |files| && forall i | 0 <= i < |files| :: versions[i] == VersionOf(files[i]).value
  {
    seq(|files|, i requires 0 <= i < |files| => assert files[i] in files; VersionOf(files[i]).value)
  }

  /** The files to run: those not recorded, oldest first, all younger than what is recorded. */
  ghost predicate Pends(pending: seq<string>, filenames: seq<string>, applied: seq<nat>) {
    && (forall f <- pending :: VersionOf(f).Some?)
    && (forall f :: f in pending <==> f in filenames && VersionOf(f).Some? && VersionOf(f).value !in applied)
    && Ascending(VersionsOf(pending))
    && (forall f <- pending, v <- applied :: v < VersionOf(f).value)
  }

  /** A plan, exactly when every file is named right, no two clash and none comes too late. */
  method PlanMigrations(filenames: seq<string>, applied: seq<nat>) returns (r: Result<Plan, PlanError>)
    ensures r.Ok? ==> Pends(r.value.pending, filenames, applied)
    ensures r.Ok? ==> Ascending(r.value.unknownApplied) && forall v ::
              v in r.value.unknownApplied <==> v in applied && !exists f <- filenames :: VersionOf(f) == Some(v)
    ensures r.Ok? <==> (forall f :: !Misnamed(filenames, f) && !ComesTooLate(filenames, applied, f))
                       && forall i, j :: !Clashes(filenames, i, j)
    ensures r.Err? && r.error.OutOfOrder? ==> ComesTooLate(filenames, applied, r.error.filename)
  {
    var indexed := IndexFiles(filenames);
    if indexed.Err? {
      if indexed.error.BadName? { assert Misnamed(filenames, indexed.error.filename); }
      return Err(indexed.error);
    }
    var byVersion := indexed.value;
    var highest := Highest(applied);
    var versions := Sorted(byVersion.Keys);
    var pending: seq<string> := [];
    for k := 0 to |versions|
      invariant forall f <- pending :: VersionOf(f).Some? && f in filenames
      invariant forall f <- pending :: VersionOf(f).value !in applied && VersionOf(f).value > highest
      invariant forall f <- pending :: VersionOf(f).value in versions[..k]
      invariant forall i | 0 <= i < k :: versions[i] in applied || byVersion[versions[i]] in pending
      invariant Ascending(VersionsOf(pending))
    {
      var v := versions[k];
      if v !in applied {
        if v < highest {
          assert ComesTooLate(filenames, applied, byVersion[v]);
          return Err(OutOfOrder(byVersion[v], highest));
        }
        pending := PushPending(pending, byVersion[v], v, versions[..k]);
      }
    }
    forall f | f in filenames && VersionOf(f).Some? && VersionOf(f).value !in applied ensures f in pending {
      var i :| 0 <= i < |versions| && versions[i] == VersionOf(f).value;
    }
    var unknown := Sorted(set v <- applied | v !in byVersion);
    r := Ok(Plan(pending, unknown));
  }

  method PushPending(pending: seq<string>, f: string, v: nat, ghost before: seq<nat>) returns (more: seq<string>)
    requires forall g <- pending :: VersionOf(g).Some? && VersionOf(g).value in before
    requires VersionOf(f) == Some(v) && forall w <- before :: w < v
    requires Ascending(VersionsOf(pending))
    ensures more == pending + [f] && (forall g <- more :: VersionOf(g).Some?) && Ascending(VersionsOf(more))
  {
    more := pending + [f];
    assert forall i | 0 <= i < |pending| :: more[i] == pending[i];
  }

  // --- The runs --------------------------------------------------------------

  /** A file as it ran: in a transaction or, for an index built concurrently, outside. */
  datatype Ran = Ran(filename: string, version: nat, transactional: bool)

  datatype RunResult =
    | Applied(files: seq<string>, already: seq<nat>)
    | Rejected(error: PlanError)
    | FileFailed(filename: string)
    | Crashed

  function Versions(rows: seq<Ran>): (versions: seq<nat>)
    ensures |versions| == |rows| && forall i | 0 <= i < |rows| :: versions[i] == rows[i].version
  {
    seq(|rows|, i requires 0 <= i < |rows| => rows[i].version)
  }

  function IfTransactional(r: Ran): seq<Ran> { if r.transactional then [r] else [] }

  /** Those that ran in a transaction. */
  function Transactional(ran: seq<Ran>): seq<Ran> { FlatMap(IfTransactional, ran, |ran|) }

  /**
   Recorded in increasing order; the transactional files that took effect are those
   recorded, each once; and nothing is recorded that did not run.
   */
  ghost predicate Consistent(recorded: seq<Ran>, effects: seq<Ran>) {
    && Ascending(Versions(recorded))
    && Transactional(effects) == Transactional(recorded)
    && (forall i | 0 <= i < |recorded| :: recorded[i] in effects)
  }

  ghost predicate Youngest(recorded: seq<Ran>, ran: Ran) {
    forall i | 0 <= i < |recorded| :: recorded[i].version < ran.version
  }

  lemma EffectAndRecord(recorded: seq<Ran>, effects: seq<Ran>, ran: Ran)
    requires Consistent(recorded, effects) && Youngest(recorded, ran)
    ensures Consistent(recorded + [ran], effects + [ran])
  {
    FlatMapPush(IfTransactional, effects, ran);
    FlatMapPush(IfTransactional, recorded, ran);
    assert Versions(recorded + [ran]) == Versions(recorded) + [ran.version];
  }

  lemma EffectOnly(recorded: seq<Ran>, effects: seq<Ran>, ran: Ran)
    requires Consistent(recorded, effects) && !ran.transactional
    ensures Consistent(recorded, effects + [ran])
  {
    FlatMapPush(IfTransactional, effects, ran);
    assert Transactional(effects) + [] == Transactional(effects);
  }

  /** What is pending continues what is recorded. */
  lemma PendingFollows(pending: seq<string>, filenames: seq<string>, applied: seq<nat>)
    requires Pends(pending, filenames, applied) && Ascending(applied)
    ensures Ascending(applied + VersionsOf(pending))
  {
    var all := applied + VersionsOf(pending);
    forall i, j | 0 <= i < j < |all| ensures all[i] < all[j] {
      if i < |applied| <= j {
        assert applied[i] in applied && pending[j - |applied|] in pending;
      }
    }
  }

  lemma PendingCovers(pending: seq<string>, filenames: seq<string>, applied: seq<nat>)
    requires Pends(pending, filenames, applied)
    ensures forall f <- filenames :: VersionOf(f).Some? ==> VersionOf(f).value in applied + VersionsOf(pending)
  {
    forall f <- filenames | VersionOf(f).Some? ensures VersionOf(f).value in applied + VersionsOf(pending) {
      if VersionOf(f).value !in applied {
        var i :| 0 <= i < |pending| && pending[i] == f;
        assert VersionsOf(pending)[i] in VersionsOf(pending);
      }
    }
  }

  ghost predicate Recorded(recorded: seq<Ran>, version: nat) {
    exists i | 0 <= i < |recorded| :: recorded[i].version == version
  }

  lemma RecordedStay(before: seq<Ran>, after: seq<Ran>)
    requires before <= after
    ensures forall v | Recorded(before, v) :: Recorded(after, v)
  {
    forall v | Recorded(before, v) ensures Recorded(after, v) {
      var i :| 0 <= i < |before| && before[i].version == v;
      assert after[i] == before[i];
    }
  }

  class Database {
    var recorded: seq<Ran>  // rows of schema_migrations in the order they were written
    var effects: seq<Ran>   // files whose statements took effect, in that order

    ghost predicate Valid()
      reads this
    {
      Consistent(recorded, effects)
    }

    constructor ()
      ensures Valid() && recorded == [] && effects == []
    {
      recorded, effects := [], [];
    }

    /**
     A transaction: the effect and the row are one. It may fail, or die; and a commit may
     get through and still be reported as an error.
     */
    method RunInTransaction(ran: Ran) returns (done: bool)
      requires Valid() && ran.transactional && Youngest(recorded, ran)
      modifies this
      ensures Valid()
      ensures (recorded == old(recorded) + [ran] && effects == old(effects) + [ran])
              || (!done && recorded == old(recorded) && effects == old(effects))
    {
      done := false;
      var commits: bool := *;
      if commits {
        EffectAndRecord(recorded, effects, ran);
        recorded, effects := recorded + [ran], effects + [ran];
        done := *;
      }
    }

    /** Outside a transaction each statement stands for itself: the effect, the check, the row. */
    method RunOutside(ran: Ran) returns (done: bool)
      requires Valid() && !ran.transactional && Youngest(recorded, ran)
      modifies this
      ensures Valid()
      ensures recorded == old(recorded) + [ran] || (!done && recorded == old(recorded))
      ensures recorded != old(recorded) ==> effects == old(effects) + [ran]
    {
      var takesEffect: bool := *;
      if !takesEffect { return false; }
      EffectOnly(recorded, effects, ran);
      EffectAndRecord(recorded, effects, ran);
      effects := effects + [ran];
      done := false;
      var records: bool := *;  // it may have failed, or the schema may hold an invalid index
      if records {
        recorded := recorded + [ran];
        done := *;
      }
    }

    /** Runs one pending file; `all` are the versions recorded when the run has got through. */
    method RunFile(f: string, outside: set<string>, ghost all: seq<nat>) returns (done: bool)
      requires Valid() && VersionOf(f).Some? && Ascending(all)
      requires |recorded| < |all| && Versions(recorded) == all[..|recorded|] && all[|recorded|] == VersionOf(f).value
      modifies this
      ensures Valid() && old(recorded) <= recorded
      ensures done ==> |recorded| == old(|recorded|) + 1 && Versions(recorded) == all[..|recorded|]
    {
      var ran := Ran(f, VersionOf(f).value, f !in outside);
      forall i | 0 <= i < |recorded| ensures recorded[i].version < ran.version {
        assert Versions(recorded)[i] == all[i];
      }
      if ran.transactional { done := RunInTransaction(ran); } else { done := RunOutside(ran); }
      if done { assert Versions(recorded) == Versions(old(recorded)) + [ran.version]; }
    }

    /** Runs what is pending; it may stop, or be killed, before, between or inside the files. */
    method Apply(pending: seq<string>, outside: set<string>, ghost all: seq<nat>) returns (failed: Option<RunResult>)
      requires Valid() && (forall f <- pending :: VersionOf(f).Some?) && Ascending(all)
      requires all == Versions(recorded) + VersionsOf(pending)
      modifies this
      ensures Valid() && old(recorded) <= recorded
      ensures failed.Some? ==> failed.value.FileFailed? || failed.value.Crashed?
      ensures failed.None? ==> Versions(recorded) == all
    {
      failed := None;
      for i := 0 to |pending|
        invariant Valid() && old(recorded) <= recorded && failed.None?
        invariant |recorded| == |old(recorded)| + i && Versions(recorded) == all[..|recorded|]
      {
        var killed: bool := *;
        if killed { return Some(Crashed); }
        assert all[|recorded|] == VersionsOf(pending)[i];
        var done := RunFile(pending[i], outside, all);
        if !done {
          killed := *;
          return Some(if killed then Crashed else FileFailed(pending[i]));
        }
      }
    }

    /**
     One run over the files of a directory. If it returns, every migration file there is
     recorded; if it rejects the files, nothing has changed.
     */
    method RunMigrations(filenames: seq<string>, outside: set<string>) returns (r: RunResult)
      requires Valid()
      modifies this
      ensures Valid() && old(recorded) <= recorded
      ensures r.Applied? ==> r.already == Versions(old(recorded)) && forall f <- r.files :: VersionOf(f).Some?
      ensures r.Applied? ==> Holds(filenames)
      ensures r.Applied? ==> Versions(recorded) == r.already + VersionsOf(r.files)
      ensures r.Rejected? ==> recorded == old(recorded) && effects == old(effects)
    {
      var already := Versions(recorded);
      var plan := PlanMigrations(filenames, already);
      if plan.Err? { return Rejected(plan.error); }
      var pending := plan.value.pending;
      PendingFollows(pending, filenames, already);
      var failed := Apply(pending, outside, already + VersionsOf(pending));
      if failed.Some? { return failed.value; }
      PendingCovers(pending, filenames, already);
      forall f <- filenames | VersionOf(f).Some? ensures Recorded(recorded, VersionOf(f).value) {
        var i :| 0 <= i < |recorded| && Versions(recorded)[i] == VersionOf(f).value;
      }
      r := Applied(pending, already);
    }

    /** Every migration file of the directory is recorded. */
    ghost predicate Holds(filenames: seq<string>)
      reads this
    {
      forall f <- filenames :: VersionOf(f).Some? ==> Recorded(recorded, VersionOf(f).value)
    }

    /**
     Any number of runs over directories that change, each ending as it may: what a run
     that returned has recorded stays recorded, in order.
     */
    method Deploys(directories: seq<seq<string>>, outside: set<string>) returns (results: seq<RunResult>)
      requires Valid()
      modifies this
      ensures Valid() && old(recorded) <= recorded && |results| == |directories|
      ensures forall i | 0 <= i < |results| && results[i].Applied? :: Holds(directories[i])
    {
      results := [];
      for i := 0 to |directories|
        invariant Valid() && old(recorded) <= recorded && |results| == i
        invariant forall k | 0 <= k < i && results[k].Applied? :: Holds(directories[k])
      {
        ghost var before := recorded;
        var r := RunMigrations(directories[i], outside);
        RecordedStay(before, recorded);
        results := results + [r];
      }
    }
  }
}
