/**
 Secrets cut out of a text: the ranges a linter reports are merged and replaced from the
 end. What is linted has its directives blanked, position by position.
 */
module Redaction {
  import opened Wrappers
  import opened Sequences

  datatype Range = Range(start: nat, end: nat, rule: string)

  /** As the linter reports them for a text of `n` characters, in whatever order. */
  ghost predicate InText(ranges: seq<Range>, n: nat) {
    forall i | 0 <= i < |ranges| :: ranges[i].start <= ranges[i].end <= n
  }

  ghost predicate Ordered(ranges: seq<Range>) {
    forall i, j | 0 <= i < j < |ranges| :: ranges[i].start <= ranges[j].start
  }

  ghost predicate Reported(ranges: seq<Range>, n: nat) { InText(ranges, n) && Ordered(ranges) }

  // --- Sorting ---------------------------------------------------------------

  /** `r` behind every range that starts no later. */
  function Insert(sorted: seq<Range>, r: Range): seq<Range> {
    if sorted == [] || sorted[|sorted| - 1].start <= r.start then sorted + [r]
    else Insert(sorted[..|sorted| - 1], r) + [sorted[|sorted| - 1]]
  }

  /** The ranges by their start, those with the same start in the order they came in. */
  function SortByStart(ranges: seq<Range>): seq<Range> {
    if ranges == [] then [] else Insert(SortByStart(ranges[..|ranges| - 1]), ranges[|ranges| - 1])
  }

  /** The ranges that start at `p`, in their order. */
  function StartingAt(ranges: seq<Range>, p: nat): seq<Range> {
    if ranges == [] then []
    else StartingAt(ranges[..|ranges| - 1], p) + if ranges[|ranges| - 1].start == p then [ranges[|ranges| - 1]] else []
  }

  lemma StartingAtPush(ranges: seq<Range>, r: Range, p: nat)
    ensures StartingAt(ranges + [r], p) == StartingAt(ranges, p) + if r.start == p then [r] else []
  {
    assert (ranges + [r])[..|ranges|] == ranges;
  }

  lemma {:induction false} InsertSorts(sorted: seq<Range>, r: Range)
    requires Ordered(sorted)
    ensures Ordered(Insert(sorted, r)) && multiset(Insert(sorted, r)) == multiset(sorted) + multiset{r}
    decreases |sorted|
  {
    if sorted != [] && sorted[|sorted| - 1].start > r.start {
      var rest, last := sorted[..|sorted| - 1], sorted[|sorted| - 1];
      assert sorted == rest + [last];
      InsertSorts(rest, r);
      forall i | 0 <= i < |Insert(rest, r)| ensures Insert(rest, r)[i].start <= last.start {
        assert Insert(rest, r)[i] in multiset(Insert(rest, r));
      }
    }
  }

  lemma {:induction false} InsertIsStable(sorted: seq<Range>, r: Range, p: nat)
    ensures StartingAt(Insert(sorted, r), p) == StartingAt(sorted + [r], p)
    decreases |sorted|
  {
    StartingAtPush(sorted, r, p);
    if sorted != [] && sorted[|sorted| - 1].start > r.start {
      var rest, last := sorted[..|sorted| - 1], sorted[|sorted| - 1];
      InsertIsStable(rest, r, p);
      StartingAtPush(Insert(rest, r), last, p);
      StartingAtPush(rest, r, p);
      var before := StartingAt(rest, p);
      if r.start == p { assert before + [r] + [] == before + [] + [r]; }
      else { assert before + [] == before; }
    }
  }

  /** Sorting loses nothing, puts the starts in order, and swaps no two ranges that start together. */
  lemma {:induction false} SortIsStable(ranges: seq<Range>, p: nat)
    ensures Ordered(SortByStart(ranges)) && multiset(SortByStart(ranges)) == multiset(ranges)
    ensures StartingAt(SortByStart(ranges), p) == StartingAt(ranges, p)
  {
    if ranges != [] {
      var rest, last := ranges[..|ranges| - 1], ranges[|ranges| - 1];
      assert ranges == rest + [last];
      SortIsStable(rest, p);
      InsertSorts(SortByStart(rest), last);
      InsertIsStable(SortByStart(rest), last, p);
      StartingAtPush(SortByStart(rest), last, p);
      StartingAtPush(rest, last, p);
    }
  }

  lemma SortedIsReported(ranges: seq<Range>, n: nat)
    requires InText(ranges, n)
    ensures Reported(SortByStart(ranges), n)
    ensures forall p :: Covered(SortByStart(ranges), p) <==> Covered(ranges, p)
  {
    var sorted := SortByStart(ranges);
    SortIsStable(ranges, 0);
    SameRanges(sorted, ranges);
    SameRanges(ranges, sorted);
  }

  /** What is in the one is in the other, and covers there what it covers here. */
  lemma SameRanges(a: seq<Range>, b: seq<Range>)
    requires multiset(a) == multiset(b)
    ensures forall p :: Covered(a, p) ==> Covered(b, p)
    ensures forall n: nat | InText(b, n) :: InText(a, n)
  {
    forall i | 0 <= i < |a| ensures exists k | 0 <= k < |b| :: b[k] == a[i] {
      assert a[i] in multiset(b);
    }
  }

  /** One of the first `n` ranges covers the place. */
  ghost predicate CoveredBy(ranges: seq<Range>, n: nat, p: int)
    requires n <= |ranges|
  {
    exists i | 0 <= i < n :: ranges[i].start <= p < ranges[i].end
  }

  ghost predicate Covered(ranges: seq<Range>, p: int) { CoveredBy(ranges, |ranges|, p) }

  // --- Merging ---------------------------------------------------------------

  function Absorb(merged: seq<Range>, r: Range): seq<Range> {
    if merged != [] && r.start <= merged[|merged| - 1].end then
      var last := merged[|merged| - 1];
      merged[|merged| - 1 := last.(end := if r.end > last.end then r.end else last.end)]
    else merged + [r]
  }

  function Merged(ranges: seq<Range>, n: nat): seq<Range>
    requires n <= |ranges|
  {
    if n == 0 then [] else Absorb(Merged(ranges, n - 1), ranges[n - 1])
  }

  /** In order, and with something uncovered between any two. */
  ghost predicate Apart(merged: seq<Range>) {
    && (forall i | 0 <= i < |merged| :: merged[i].start <= merged[i].end)
    && (forall i, j | 0 <= i < j < |merged| :: merged[i].end < merged[j].start)
  }

  /** Begins where one of the first `n` ranges does, under that one's rule, and ends where one does. */
  ghost predicate Bounded(m: Range, ranges: seq<Range>, n: nat)
    requires n <= |ranges|
  {
    && (exists i | 0 <= i < n :: ranges[i].start == m.start && ranges[i].rule == m.rule)
    && (exists i | 0 <= i < n :: ranges[i].end == m.end)
  }

  ghost predicate Inside(r: Range, merged: seq<Range>) {
    exists j | 0 <= j < |merged| :: merged[j].start <= r.start && r.end <= merged[j].end
  }

  ghost predicate BoundedAt(merged: seq<Range>, j: nat, ranges: seq<Range>, n: nat)
    requires n <= |ranges|
  {
    j < |merged| ==> Bounded(merged[j], ranges, n)
  }

  ghost predicate AllBounded(merged: seq<Range>, ranges: seq<Range>, n: nat)
    requires n <= |ranges|
  {
    forall j: nat :: BoundedAt(merged, j, ranges, n)
  }

  ghost predicate InsideAt(ranges: seq<Range>, i: nat, n: nat, merged: seq<Range>)
    requires n <= |ranges|
  {
    i < n ==> Inside(ranges[i], merged)
  }

  ghost predicate AllInside(merged: seq<Range>, ranges: seq<Range>, n: nat)
    requires n <= |ranges|
  {
    forall i: nat :: InsideAt(ranges, i, n, merged)
  }

  ghost predicate CoversNoMore(merged: seq<Range>, ranges: seq<Range>, n: nat)
    requires n <= |ranges|
  {
    forall p :: Covered(merged, p) ==> CoveredBy(ranges, n, p)
  }

  /** `merged` are the maximal unions of touching ranges among the first `n`. */
  ghost predicate Unions(merged: seq<Range>, ranges: seq<Range>, n: nat)
    requires n <= |ranges|
  {
    Apart(merged) && AllBounded(merged, ranges, n) && AllInside(merged, ranges, n) && CoversNoMore(merged, ranges, n)
  }

  /** No union begins after the range that comes next. */
  ghost predicate StartedBefore(merged: seq<Range>, start: nat) {
    forall j | 0 <= j < |merged| :: merged[j].start <= start
  }

  lemma AbsorbStaysApart(merged: seq<Range>, r: Range)
    requires Apart(merged) && StartedBefore(merged, r.start) && r.start <= r.end
    ensures Apart(Absorb(merged, r)) && StartedBefore(Absorb(merged, r), r.start)
  {
  }

  lemma AbsorbStaysBounded(merged: seq<Range>, ranges: seq<Range>, n: nat)
    requires n < |ranges| && AllBounded(merged, ranges, n)
    ensures AllBounded(Absorb(merged, ranges[n]), ranges, n + 1)
  {
    var after, m := Absorb(merged, ranges[n]), n + 1;
    forall j: nat ensures BoundedAt(after, j, ranges, m) {
      assert BoundedAt(merged, j, ranges, n);
    }
  }

  lemma AbsorbHolds(merged: seq<Range>, r: Range, s: Range)
    requires Inside(s, merged) || s == r
    requires StartedBefore(merged, r.start)
    ensures Inside(s, Absorb(merged, r))
  {
    var after := Absorb(merged, r);
    if s == r {
      assert after[|after| - 1].start <= r.start && r.end <= after[|after| - 1].end;
    } else {
      var j :| 0 <= j < |merged| && merged[j].start <= s.start && s.end <= merged[j].end;
      assert after[j].start <= s.start && s.end <= after[j].end;
    }
  }

  lemma AbsorbCovers(merged: seq<Range>, ranges: seq<Range>, n: nat, p: int)
    requires n < |ranges| && StartedBefore(merged, ranges[n].start)
    requires CoversNoMore(merged, ranges, n) && Covered(Absorb(merged, ranges[n]), p)
    ensures CoveredBy(ranges, n + 1, p)
  {
    var r, after := ranges[n], Absorb(merged, ranges[n]);
    var j :| 0 <= j < |after| && after[j].start <= p < after[j].end;
    if !(r.start <= p < r.end) {
      assert j < |merged| && merged[j].start <= p < merged[j].end;
      assert Covered(merged, p);
    }
  }

  lemma AbsorbKeepsUnions(merged: seq<Range>, ranges: seq<Range>, n: nat)
    requires n < |ranges| && Unions(merged, ranges, n) && StartedBefore(merged, ranges[n].start)
    requires ranges[n].start <= ranges[n].end
    ensures Unions(Absorb(merged, ranges[n]), ranges, n + 1) &&
            StartedBefore(Absorb(merged, ranges[n]), ranges[n].start)
  {
    AbsorbStaysApart(merged, ranges[n]);
    AbsorbStaysBounded(merged, ranges, n);
    var after, m := Absorb(merged, ranges[n]), n + 1;
    forall i: nat ensures InsideAt(ranges, i, m, after) {
      if i < m {
        assert InsideAt(ranges, i, n, merged);
        AbsorbHolds(merged, ranges[n], ranges[i]);
      }
    }
    forall p | Covered(Absorb(merged, ranges[n]), p) ensures CoveredBy(ranges, n + 1, p) {
      AbsorbCovers(merged, ranges, n, p);
    }
  }

  lemma StartedEarlier(merged: seq<Range>, a: nat, b: nat)
    requires a <= b && (merged == [] || StartedBefore(merged, a))
    ensures StartedBefore(merged, b)
  {
  }

  lemma {:induction false} MergedAreUnions(ranges: seq<Range>, n: nat, length: nat)
    requires n <= |ranges| && Reported(ranges, length)
    ensures Unions(Merged(ranges, n), ranges, n)
    ensures n > 0 ==> StartedBefore(Merged(ranges, n), ranges[n - 1].start)
  {
    if n > 0 {
      var merged := Merged(ranges, n - 1);
      MergedAreUnions(ranges, n - 1, length);
      StartedEarlier(merged, if n > 1 then ranges[n - 2].start else 0, ranges[n - 1].start);
      AbsorbKeepsUnions(merged, ranges, n - 1);
    }
  }

  // --- Replacing -------------------------------------------------------------

  function Marker(r: Range): string { "[redacted:" + r.rule + "]" }

  /** Where the text goes on behind the first `i` unions. */
  function Behind(merged: seq<Range>, i: nat): nat
    requires i <= |merged|
  {
    if i == 0 then 0 else merged[i - 1].end
  }

  ghost predicate Fits(merged: seq<Range>, n: nat) {
    Apart(merged) && forall i | 0 <= i < |merged| :: merged[i].end <= n
  }

  lemma FitsAt(merged: seq<Range>, n: nat, i: nat)
    requires Fits(merged, n) && i <= |merged|
    ensures Behind(merged, i) <= n
    ensures i < |merged| ==> Behind(merged, i) <= merged[i].start <= merged[i].end == Behind(merged, i + 1) <= n
  {
  }

  /** One pass from left to right: the text between the unions, and `mark` for each of them. */
  function Pass(text: string, merged: seq<Range>, mark: Range -> string, i: nat): string
    requires i <= |merged| && Fits(merged, |text|)
    decreases |merged| - i
  {
    FitsAt(merged, |text|, i);
    if i == |merged| then text[Behind(merged, i)..]
    else text[Behind(merged, i)..merged[i].start] + mark(merged[i]) + Pass(text, merged, mark, i + 1)
  }

  /** The characters from `p` on that no range covers. */
  ghost function Uncovered(text: string, ranges: seq<Range>, p: nat): string
    requires p <= |text|
    decreases |text| - p
  {
    if p == |text| then []
    else (if Covered(ranges, p) then [] else [text[p]]) + Uncovered(text, ranges, p + 1)
  }

  lemma {:induction false} UncoveredGap(text: string, ranges: seq<Range>, p: nat, q: nat)
    requires p <= q <= |text| && forall k | p <= k < q :: !Covered(ranges, k)
    ensures Uncovered(text, ranges, p) == text[p..q] + Uncovered(text, ranges, q)
    decreases q - p
  {
    if p < q {
      UncoveredGap(text, ranges, p + 1, q);
      assert text[p..q] == [text[p]] + text[p + 1..q];
      Assoc([text[p]], text[p + 1..q], Uncovered(text, ranges, q));
    }
  }

  lemma {:induction false} UncoveredSkip(text: string, ranges: seq<Range>, p: nat, q: nat)
    requires p <= q <= |text| && forall k | p <= k < q :: Covered(ranges, k)
    ensures Uncovered(text, ranges, p) == Uncovered(text, ranges, q)
    decreases q - p
  {
    if p < q { UncoveredSkip(text, ranges, p + 1, q); }
  }

  lemma GapIsFree(merged: seq<Range>, n: nat, i: nat, k: nat)
    requires Fits(merged, n) && i <= |merged| && Behind(merged, i) <= k
    requires i < |merged| ==> k < merged[i].start
    ensures !Covered(merged, k)
  {
  }

  /** Without the markers the pass is the text nothing covers. */
  lemma {:induction false} PassKeepsTheRest(text: string, merged: seq<Range>, i: nat)
    requires i <= |merged| && Fits(merged, |text|)
    ensures Pass(text, merged, _ => "", i) == Uncovered(text, merged, Behind(merged, i))
    decreases |merged| - i
  {
    FitsAt(merged, |text|, i);
    var from := Behind(merged, i);
    var to := if i == |merged| then |text| else merged[i].start;
    forall k | from <= k < to ensures !Covered(merged, k) { GapIsFree(merged, |text|, i, k); }
    UncoveredGap(text, merged, from, to);
    if i == |merged| {
      assert text[from..to] == text[from..];
    } else {
      forall k | merged[i].start <= k < merged[i].end ensures Covered(merged, k) {}
      UncoveredSkip(text, merged, to, merged[i].end);
      PassKeepsTheRest(text, merged, i + 1);
      assert text[from..to] + "" == text[from..to];
    }
  }

  lemma {:induction false} SameUncovered(text: string, a: seq<Range>, b: seq<Range>, p: nat)
    requires p <= |text| && forall k :: Covered(a, k) <==> Covered(b, k)
    ensures Uncovered(text, a, p) == Uncovered(text, b, p)
    decreases |text| - p
  {
    if p < |text| { SameUncovered(text, a, b, p + 1); }
  }

  lemma InsideIsCovered(r: Range, merged: seq<Range>, p: int)
    requires Inside(r, merged) && r.start <= p < r.end
    ensures Covered(merged, p)
  {
  }

  lemma UnionsCoverTheSame(merged: seq<Range>, ranges: seq<Range>)
    requires Unions(merged, ranges, |ranges|)
    ensures forall p :: Covered(merged, p) <==> Covered(ranges, p)
  {
    forall p | Covered(ranges, p) ensures Covered(merged, p) {
      var i :| 0 <= i < |ranges| && ranges[i].start <= p < ranges[i].end;
      assert InsideAt(ranges, i, |ranges|, merged);
      InsideIsCovered(ranges[i], merged, p);
    }
  }

  lemma UnionsFit(merged: seq<Range>, ranges: seq<Range>, n: nat)
    requires Unions(merged, ranges, |ranges|) && Reported(ranges, n)
    ensures Fits(merged, n)
  {
    forall j | 0 <= j < |merged| ensures merged[j].end <= n {
      assert BoundedAt(merged, j, ranges, |ranges|);
    }
  }

  datatype Redacted = Redacted(text: string, count: nat)

  /** One marker for every maximal union of touching ranges, all at once. */
  function Redact(text: string, ranges: seq<Range>): Redacted
    requires InText(ranges, |text|)
  {
    var sorted := SortByStart(ranges);
    SortedIsReported(ranges, |text|);
    MergedAreUnions(sorted, |sorted|, |text|);
    var merged := Merged(sorted, |sorted|);
    UnionsFit(merged, sorted, |text|);
    Redacted(Pass(text, merged, Marker, 0), |merged|)
  }

  /** All text outside the ranges stays, in order, and none of what is inside. */
  lemma RedactionIsExact(text: string, ranges: seq<Range>)
    requires InText(ranges, |text|)
    ensures var sorted := SortByStart(ranges);
            var merged := Merged(sorted, |sorted|);
            && Unions(merged, sorted, |sorted|) && Fits(merged, |text|)
            && Redact(text, ranges) == Redacted(Pass(text, merged, Marker, 0), |merged|)
            && Pass(text, merged, _ => "", 0) == Uncovered(text, ranges, 0)
  {
    var sorted := SortByStart(ranges);
    var merged := Merged(sorted, |sorted|);
    SortedIsReported(ranges, |text|);
    MergedAreUnions(sorted, |sorted|, |text|);
    UnionsFit(merged, sorted, |text|);
    PassKeepsTheRest(text, merged, 0);
    UnionsCoverTheSame(merged, sorted);
    SameUncovered(text, merged, ranges, 0);
  }

  // --- As the program does it ------------------------------------------------

  method MergeRanges(ranges: seq<Range>) returns (merged: seq<Range>)
    ensures merged == Merged(ranges, |ranges|)
  {
    merged := [];
    for i := 0 to |ranges|
      invariant merged == Merged(ranges, i)
    {
      var r := ranges[i];
      var n := |merged|;
      if n > 0 && r.start <= merged[n - 1].end {
        if r.end > merged[n - 1].end { merged := merged[n - 1 := merged[n - 1].(end := r.end)]; }
      } else {
        merged := merged + [r];
      }
    }
  }

  /** Splices from the end, so that earlier offsets stay valid. */
  method Splice(text: string, merged: seq<Range>) returns (out: string)
    requires Fits(merged, |text|)
    ensures out == Pass(text, merged, Marker, 0)
  {
    out := text;
    var i: nat := |merged|;
    FitsAt(merged, |text|, i);
    assert text == text[..Behind(merged, i)] + text[Behind(merged, i)..];
    while i > 0
      invariant i <= |merged| && Behind(merged, i) <= |text|
      invariant out == text[..Behind(merged, i)] + Pass(text, merged, Marker, i)
    {
      i := i - 1;
      out := SpliceOne(text, merged, i, out);
    }
    assert text[..0] == "";
  }

  method SpliceOne(text: string, merged: seq<Range>, i: nat, before: string) returns (out: string)
    requires Fits(merged, |text|) && i < |merged| && Behind(merged, i + 1) <= |text|
    requires before == text[..Behind(merged, i + 1)] + Pass(text, merged, Marker, i + 1)
    ensures Behind(merged, i) <= |text| && out == text[..Behind(merged, i)] + Pass(text, merged, Marker, i)
  {
    FitsAt(merged, |text|, i);
    var r := merged[i];
    ghost var from, rest := Behind(merged, i), Pass(text, merged, Marker, i + 1);
    out := before[..r.start] + Marker(r) + before[r.end..];
    assert before[..r.start] == text[..from] + text[from..r.start];
    assert before[r.end..] == rest;
    Assoc(text[..from], text[from..r.start], Marker(r));
    Assoc(text[..from], text[from..r.start] + Marker(r), rest);
  }

  method RedactText(text: string, ranges: seq<Range>) returns (r: Redacted)
    requires InText(ranges, |text|)
    ensures r == Redact(text, ranges)
  {
    var sorted := SortByStart(ranges);
    SortedIsReported(ranges, |text|);
    MergedAreUnions(sorted, |sorted|, |text|);
    UnionsFit(Merged(sorted, |sorted|), sorted, |text|);
    if |ranges| == 0 {
      assert sorted == [] && Merged(sorted, 0) == [] && text[0..] == text;
      return Redacted(text, 0);
    }
    var merged := MergeRanges(sorted);
    var out := Splice(text, merged);
    r := Redacted(out, |merged|);
  }

  // --- Directives ------------------------------------------------------------

  const DISABLE := "secretlint-disable"
  const ENABLE := "secretlint-enable"

  predicate Starts(s: string, word: string) { |s| >= |word| && s[..|word|] == word }

  function DirectiveLength(s: string): (n: nat)
    ensures n <= |s|
    ensures n > 0 <==> Starts(s, DISABLE) || Starts(s, ENABLE)
  {
    if Starts(s, DISABLE) then |DISABLE| else if Starts(s, ENABLE) then |ENABLE| else 0
  }

  function BlankDirectives(s: string): (b: string)
    ensures |b| == |s|
    decreases |s|
  {
    var n := DirectiveLength(s);
    if n > 0 then seq(n, _ => 'x') + BlankDirectives(s[n..])
    else if s == [] then [] else [s[0]] + BlankDirectives(s[1..])
  }

  /** A directive's first character is always blanked, and nothing else ever changes. */
  lemma {:induction false} DirectiveIsBlanked(s: string, k: nat)
    requires k < |s|
    ensures BlankDirectives(s)[k] == s[k] || BlankDirectives(s)[k] == 'x'
    ensures DirectiveLength(s[k..]) > 0 ==> BlankDirectives(s)[k] == 'x'
    decreases |s|
  {
    var n := DirectiveLength(s);
    if n > 0 {
      if k >= n {
        DirectiveIsBlanked(s[n..], k - n);
        assert s[n..][k - n..] == s[k..];
      }
    } else if k > 0 {
      DirectiveIsBlanked(s[1..], k - 1);
      assert s[1..][k - 1..] == s[k..];
    } else {
      assert s[0..] == s;
    }
  }

  ghost predicate BlankCopy(s: string, b: string) {
    |b| == |s| && forall i | 0 <= i < |s| :: b[i] == s[i] || b[i] == 'x'
  }

  lemma BlankingOnlyBlanks(s: string)
    ensures BlankCopy(s, BlankDirectives(s))
  {
    forall i | 0 <= i < |s| ensures BlankDirectives(s)[i] == s[i] || BlankDirectives(s)[i] == 'x' {
      DirectiveIsBlanked(s, i);
    }
  }

  /** A word without an x that stands in the copy stood in the text. */
  lemma WordWasThere(s: string, b: string, k: nat, word: string)
    requires BlankCopy(s, b) && k <= |s| && word != "" && 'x' !in word && Starts(b[k..], word)
    ensures k < |s| && b[k] == word[0] && Starts(s[k..], word)
  {
    forall i | 0 <= i < |word| ensures b[k + i] == word[i] == s[k + i] {
      assert b[k..][..|word|][i] == b[k + i];
    }
    assert b[k + 0] == word[0];
    assert s[k..][..|word|] == word;
  }

  /** The copy has the length of the text, so offsets agree, and no directive is left in it. */
  lemma NoDirectiveIsLeft(s: string, k: nat)
    requires k <= |s|
    ensures |BlankDirectives(s)| == |s| && DirectiveLength(BlankDirectives(s)[k..]) == 0
  {
    var b := BlankDirectives(s);
    if DirectiveLength(b[k..]) > 0 {
      BlankingOnlyBlanks(s);
      WordWasThere(s, b, k, if Starts(b[k..], DISABLE) then DISABLE else ENABLE);
      DirectiveIsBlanked(s, k);
      assert false;
    }
  }
}
