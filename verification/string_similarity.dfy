/**
 Jaro and Jaro-Winkler similarity. The definition pairs equal characters greedily within
 a window and compares the paired characters of both strings in order; the program keeps
 marks in two arrays and walks the second with a pointer of its own.
 */
module StringSimilarity {
  import opened Sequences

  // --- The definition --------------------------------------------------------

  function Window(a: string, b: string): nat {
    var longer := if |a| > |b| then |a| else |b|;
    if longer / 2 >= 1 then longer / 2 - 1 else 0
  }

  function From(i: nat, window: nat): nat { if i >= window then i - window else 0 }

  function To(i: nat, window: nat, n: nat): nat { if i + window + 1 < n then i + window + 1 else n }

  /** The first free place from `j` on that holds `c`; `end` if there is none. */
  function FreePlace(c: char, b: string, taken: seq<bool>, j: nat, end: nat): (k: nat)
    requires end <= |b| == |taken|
    ensures k < end ==> j <= k && !taken[k] && b[k] == c
    ensures forall p | j <= p < k && p < end :: taken[p] || b[p] != c
    ensures k >= end ==> k == if j < end then end else j
    decreases end - j
  {
    if j >= end || (!taken[j] && b[j] == c) then j else FreePlace(c, b, taken, j + 1, end)
  }

  /** Which characters of either string are paired. */
  datatype Marks = Marks(a: seq<bool>, b: seq<bool>)

  function Place(a: string, b: string, taken: seq<bool>, i: nat): nat
    requires i < |a| && |taken| == |b|
  {
    var w := Window(a, b);
    FreePlace(a[i], b, taken, From(i, w), To(i, w, |b|))
  }

  /** The marks once the first `n` characters of `a` have looked for a partner. */
  function Pair(a: string, b: string, n: nat): (m: Marks)
    requires n <= |a|
    ensures |m.a| == n && |m.b| == |b|
  {
    if n == 0 then Marks([], seq(|b|, _ => false))
    else
      var m := Pair(a, b, n - 1);
      var j := Place(a, b, m.b, n - 1);
      if j < To(n - 1, Window(a, b), |b|) then Marks(m.a + [true], m.b[j := true]) else Marks(m.a + [false], m.b)
  }

  /** The marked ones among the first `n` characters. */
  function Picked(s: string, marks: seq<bool>, n: nat): string
    requires n <= |s| && n <= |marks|
  {
    if n == 0 then [] else Picked(s, marks, n - 1) + if marks[n - 1] then [s[n - 1]] else []
  }

  function Differences(x: string, y: string): nat
    requires |x| == |y|
  {
    if x == [] then 0
    else Differences(x[..|x| - 1], y[..|y| - 1]) + if x[|x| - 1] != y[|y| - 1] then 1 else 0
  }

  function PairedA(a: string, b: string): string { Picked(a, Pair(a, b, |a|).a, |a|) }

  function PairedB(a: string, b: string): string { Picked(b, Pair(a, b, |a|).b, |b|) }

  function Score(matches: nat, transpositions: nat, n: nat, m: nat): real
    requires n > 0 && m > 0 && matches > 0
  {
    (matches as real / n as real + matches as real / m as real
     + (matches as real - transpositions as real / 2.0) / matches as real) / 3.0
  }

  function Jaro(a: string, b: string): real {
    if a == b then 1.0
    else if a == [] || b == [] then 0.0
    else
      PairsAreEqual(a, b, |a|);
      var matches := |PairedA(a, b)|;
      if matches == 0 then 0.0 else Score(matches, Differences(PairedA(a, b), PairedB(a, b)), |a|, |b|)
  }

  // --- Both strings have equally many marks ----------------------------------

  lemma {:induction false} PickedKeeps(s: string, marks: seq<bool>, more: seq<bool>, n: nat)
    requires n <= |s| && n <= |marks| && n <= |more| && marks[..n] == more[..n]
    ensures Picked(s, marks, n) == Picked(s, more, n)
  {
    if n > 0 {
      assert marks[n - 1] == marks[..n][n - 1] == more[..n][n - 1];
      assert marks[..n - 1] == marks[..n][..n - 1] == more[..n][..n - 1];
      PickedKeeps(s, marks, more, n - 1);
    }
  }

  lemma {:induction false} PickedOneMore(s: string, marks: seq<bool>, j: nat, n: nat)
    requires j < n <= |s| && n <= |marks| && !marks[j]
    ensures |Picked(s, marks[j := true], n)| == |Picked(s, marks, n)| + 1
  {
    if j == n - 1 {
      PickedKeeps(s, marks, marks[j := true], n - 1);
    } else {
      PickedOneMore(s, marks, j, n - 1);
    }
  }

  lemma {:induction false} NonePicked(s: string, marks: seq<bool>, n: nat)
    requires n <= |s| && n <= |marks| && forall i | 0 <= i < n :: !marks[i]
    ensures Picked(s, marks, n) == []
  {
    if n > 0 { NonePicked(s, marks, n - 1); }
  }

  /** Every pair marks one character on either side. */
  lemma {:induction false} PairsAreEqual(a: string, b: string, n: nat)
    requires n <= |a|
    ensures var m := Pair(a, b, n); |Picked(a, m.a, n)| == |Picked(b, m.b, |b|)|
  {
    var m := Pair(a, b, n);
    if n == 0 {
      NonePicked(b, m.b, |b|);
    } else {
      var before := Pair(a, b, n - 1);
      var j := Place(a, b, before.b, n - 1);
      PairsAreEqual(a, b, n - 1);
      assert m.a[..n - 1] == before.a[..n - 1];
      PickedKeeps(a, m.a, before.a, n - 1);
      if j < To(n - 1, Window(a, b), |b|) { PickedOneMore(b, before.b, j, |b|); }
    }
  }

  // --- What the score says ---------------------------------------------------

  lemma {:induction false} PickedLength(s: string, marks: seq<bool>, n: nat)
    requires n <= |s| && n <= |marks|
    ensures |Picked(s, marks, n)| <= n
    ensures |Picked(s, marks, n)| == n ==> Picked(s, marks, n) == s[..n]
    ensures |Picked(s, marks, n)| == 0 <==> forall i | 0 <= i < n :: !marks[i]
  {
    if n > 0 {
      PickedLength(s, marks, n - 1);
      TakeNext(s, n);
    }
  }

  lemma {:induction false} DifferencesMean(x: string, y: string)
    requires |x| == |y|
    ensures Differences(x, y) <= |x| && (Differences(x, y) == 0 <==> x == y)
  {
    if x != [] {
      var n := |x| - 1;
      DifferencesMean(x[..n], y[..n]);
      assert x == x[..n] + [x[n]] && y == y[..n] + [y[n]];
    }
  }

  lemma Fraction(part: nat, whole: nat)
    requires 0 < part <= whole
    ensures 0.0 < part as real / whole as real <= 1.0
    ensures part as real / whole as real == 1.0 <==> part == whole
  {
    if part as real / whole as real == 1.0 { assert part as real == whole as real; }
  }

  lemma ScoreMeans(matches: nat, transpositions: nat, n: nat, m: nat)
    requires 0 < matches <= n && matches <= m && transpositions <= matches
    ensures 0.0 < Score(matches, transpositions, n, m) <= 1.0
    ensures Score(matches, transpositions, n, m) == 1.0 <==> matches == n == m && transpositions == 0
  {
    Fraction(matches, n);
    Fraction(matches, m);
    var kept := (matches as real - transpositions as real / 2.0) / matches as real;
    assert kept * matches as real == matches as real - transpositions as real / 2.0;
    assert 0.0 < kept <= 1.0 && (kept == 1.0 <==> transpositions == 0);
  }

  /** Two characters close enough to be a pair. */
  ghost predicate Near(a: string, b: string, i: int, j: int) {
    0 <= i < |a| && From(i, Window(a, b)) <= j < To(i, Window(a, b), |b|) && a[i] == b[j]
  }

  ghost predicate NearTo(a: string, b: string, i: nat) { exists j :: Near(a, b, i, j) }

  /** As long as nothing is taken, a character finds a place exactly when one is near. */
  lemma PlaceFinds(a: string, b: string, taken: seq<bool>, i: nat)
    requires i < |a| && |taken| == |b| && forall p | 0 <= p < |b| :: !taken[p]
    ensures Place(a, b, taken, i) < To(i, Window(a, b), |b|) <==> NearTo(a, b, i)
  {
    var j := Place(a, b, taken, i);
    if j < To(i, Window(a, b), |b|) { assert Near(a, b, i, j); }
  }

  ghost predicate Unmarked(marks: seq<bool>) { forall i | 0 <= i < |marks| :: !marks[i] }

  ghost predicate NoneNearTo(a: string, b: string, n: nat) { forall i: nat | i < n :: !NearTo(a, b, i) }

  lemma PairNext(a: string, b: string, i: nat)
    requires i < |a|
    ensures var m := Pair(a, b, i);
            var j := Place(a, b, m.b, i);
            var found := j < To(i, Window(a, b), |b|);
            && Pair(a, b, i + 1) == Marks(m.a + [found], if found then m.b[j := true] else m.b)
            && |Picked(a, Pair(a, b, i + 1).a, i + 1)| == |Picked(a, m.a, i)| + if found then 1 else 0
  {
    var m := Pair(a, b, i);
    assert Pair(a, b, i + 1).a[..i] == m.a[..i];
    PickedKeeps(a, Pair(a, b, i + 1).a, m.a, i);
  }

  lemma UnmarkedPush(marks: seq<bool>, mark: bool)
    ensures Unmarked(marks + [mark]) <==> Unmarked(marks) && !mark
  {
    if Unmarked(marks + [mark]) {
      assert (marks + [mark])[|marks|] == mark;
      forall i | 0 <= i < |marks| ensures !marks[i] { assert (marks + [mark])[i] == marks[i]; }
    }
  }

  lemma NoneNearNext(a: string, b: string, n: nat)
    ensures NoneNearTo(a, b, n + 1) <==> NoneNearTo(a, b, n) && !NearTo(a, b, n)
  {
  }

  lemma OneMoreLooks(a: string, b: string, n: nat, before: Marks, after: Marks)
    requires n < |a| && before == Pair(a, b, n) && after == Pair(a, b, n + 1)
    requires Unmarked(before.a) <==> NoneNearTo(a, b, n)
    ensures Unmarked(after.a) <==> NoneNearTo(a, b, n + 1)
  {
    var found := Place(a, b, before.b, n) < To(n, Window(a, b), |b|);
    PairNext(a, b, n);
    UnmarkedPush(before.a, found);
    NoneNearNext(a, b, n);
    if Unmarked(before.a) {
      FreeYet(a, b, n);
      PlaceFinds(a, b, before.b, n);
    }
  }

  /** The first mark is set where the first near character is. */
  lemma {:induction false} NoPairNoMark(a: string, b: string, n: nat)
    requires n <= |a|
    ensures Unmarked(Pair(a, b, n).a) <==> NoneNearTo(a, b, n)
  {
    if n > 0 {
      NoPairNoMark(a, b, n - 1);
      OneMoreLooks(a, b, n - 1, Pair(a, b, n - 1), Pair(a, b, n));
    }
  }

  lemma FreeYet(a: string, b: string, n: nat)
    requires n <= |a| && Unmarked(Pair(a, b, n).a)
    ensures Unmarked(Pair(a, b, n).b)
  {
    PairsAreEqual(a, b, n);
    PickedLength(a, Pair(a, b, n).a, n);
    PickedLength(b, Pair(a, b, n).b, |b|);
  }

  lemma NoneNear(a: string, b: string)
    ensures NoneNearTo(a, b, |a|) <==> forall i, j :: !Near(a, b, i, j)
  {
    if NoneNearTo(a, b, |a|) {
      forall i, j ensures !Near(a, b, i, j) {
        if Near(a, b, i, j) { assert NearTo(a, b, i); }
      }
    }
  }

  /**
   The score lies between 0 and 1; it is 1 for equal strings and no others, and 0 for
   different ones exactly when no equal characters lie near enough to be paired.
   */
  lemma JaroMeans(a: string, b: string)
    ensures 0.0 <= Jaro(a, b) <= 1.0
    ensures Jaro(a, b) == 1.0 <==> a == b
    ensures Jaro(a, b) == 0.0 <==> a != b && forall i, j :: !Near(a, b, i, j)
  {
    if a != b && a != [] && b != [] {
      var m := Pair(a, b, |a|);
      PairsAreEqual(a, b, |a|);
      PickedLength(a, m.a, |a|);
      PickedLength(b, m.b, |b|);
      DifferencesMean(PairedA(a, b), PairedB(a, b));
      NoPairNoMark(a, b, |a|);
      NoneNear(a, b);
      var matches := |PairedA(a, b)|;
      if matches > 0 {
        ScoreMeans(matches, Differences(PairedA(a, b), PairedB(a, b)), |a|, |b|);
        assert a[..|a|] == a && b[..|b|] == b;
      }
    }
  }

  // --- As the program computes it --------------------------------------------

  /** The first place in the window that is free and holds the same character. */
  method FindPartner(a: string, b: string, bMatches: array<bool>, i: nat, start: nat, end: nat) returns (j: nat)
    requires i < |a| && bMatches.Length == |b|
    requires start == From(i, Window(a, b)) && end == To(i, Window(a, b), |b|)
    ensures j == Place(a, b, bMatches[..], i)
  {
    j := start;
    while j < end && (bMatches[j] || a[i] != b[j])
      invariant FreePlace(a[i], b, bMatches[..], j, end) == Place(a, b, bMatches[..], i)
      decreases end - j
    {
      j := j + 1;
    }
  }

  /** One character of `a` looks for its partner. */
  method MarkOne(a: string, b: string, aMatches: array<bool>, bMatches: array<bool>, i: nat) returns (found: bool)
    requires aMatches.Length == |a| && bMatches.Length == |b| && aMatches != bMatches && i < |a|
    requires aMatches[..i] == Pair(a, b, i).a && bMatches[..] == Pair(a, b, i).b && !aMatches[i]
    modifies aMatches, bMatches
    ensures aMatches[..i + 1] == Pair(a, b, i + 1).a && bMatches[..] == Pair(a, b, i + 1).b
    ensures aMatches[i + 1..] == old(aMatches[i + 1..])
    ensures |Picked(a, Pair(a, b, i + 1).a, i + 1)| == |Picked(a, Pair(a, b, i).a, i)| + if found then 1 else 0
  {
    ghost var m := Pair(a, b, i);
    var start, end := From(i, Window(a, b)), To(i, Window(a, b), |b|);
    var j := FindPartner(a, b, bMatches, i, start, end);
    PairNext(a, b, i);
    found := j < end;
    if found {
      aMatches[i] := true;
      bMatches[j] := true;
      assert bMatches[..] == m.b[j := true];
    }
    assert aMatches[..i] == m.a;
    assert aMatches[..i + 1] == aMatches[..i] + [found];
  }

  method MarkPairs(a: string, b: string, aMatches: array<bool>, bMatches: array<bool>) returns (matches: nat)
    requires aMatches.Length == |a| && bMatches.Length == |b| && aMatches != bMatches
    requires Unmarked(aMatches[..]) && Unmarked(bMatches[..])
    modifies aMatches, bMatches
    ensures aMatches[..] == Pair(a, b, |a|).a && bMatches[..] == Pair(a, b, |a|).b
    ensures matches == |PairedA(a, b)|
  {
    matches := 0;
    assert bMatches[..] == Pair(a, b, 0).b;
    for i := 0 to |a|
      invariant aMatches[..i] == Pair(a, b, i).a && bMatches[..] == Pair(a, b, i).b
      invariant aMatches[i..] == old(aMatches[i..])
      invariant matches == |Picked(a, Pair(a, b, i).a, i)|
    {
      assert aMatches[i] == aMatches[i..][0] == old(aMatches[..])[i];
      var found := MarkOne(a, b, aMatches, bMatches, i);
      if found { matches := matches + 1; }
    }
    assert aMatches[..|a|] == aMatches[..];
  }

  /** The next mark from `k` on; it is there as long as marks are left. */
  method NextMark(b: string, bMatches: array<bool>, k: nat) returns (next: nat)
    requires bMatches.Length == |b| && k <= |b|
    requires |Picked(b, bMatches[..], k)| < |Picked(b, bMatches[..], |b|)|
    ensures k <= next < |b| && bMatches[next]
    ensures Picked(b, bMatches[..], next) == Picked(b, bMatches[..], k)
    ensures Picked(b, bMatches[..], next + 1) == Picked(b, bMatches[..], k) + [b[next]]
  {
    next := k;
    while !bMatches[next]
      invariant k <= next < |b| && Picked(b, bMatches[..], next) == Picked(b, bMatches[..], k)
      decreases |b| - next
    {
      // There are marks left, so the pointer stays inside.
      assert Picked(b, bMatches[..], next + 1) == Picked(b, bMatches[..], next);
      next := next + 1;
    }
  }

  method CountTranspositions(a: string, b: string, aMatches: array<bool>, bMatches: array<bool>)
    returns (transpositions: nat)
    requires aMatches.Length == |a| && bMatches.Length == |b|
    requires |Picked(a, aMatches[..], |a|)| == |Picked(b, bMatches[..], |b|)|
    ensures transpositions == Differences(Picked(a, aMatches[..], |a|), Picked(b, bMatches[..], |b|))
  {
    ghost var x, y := aMatches[..], bMatches[..];
    transpositions := 0;
    var k := 0;
    for i := 0 to |a|
      invariant k <= |b| && |Picked(a, x, i)| == |Picked(b, y, k)|
      invariant transpositions == Differences(Picked(a, x, i), Picked(b, y, k))
    {
      if aMatches[i] {
        PickedGrows(a, x, i + 1, |a|);
        ghost var seen, seenB := Picked(a, x, i), Picked(b, y, k);
        k := NextMark(b, bMatches, k);
        DifferencesPush(seen, seenB, a[i], b[k]);
        assert Picked(a, x, i + 1) == seen + [a[i]];
        if a[i] != b[k] { transpositions := transpositions + 1; }
        k := k + 1;
      } else {
        assert Picked(a, x, i + 1) == Picked(a, x, i);
      }
    }
    NoMarksLeft(b, y, k);
  }

  lemma {:induction false} PickedGrows(s: string, marks: seq<bool>, m: nat, n: nat)
    requires m <= n <= |s| && n <= |marks|
    ensures |Picked(s, marks, m)| <= |Picked(s, marks, n)|
    ensures |Picked(s, marks, m)| == |Picked(s, marks, n)| ==> Picked(s, marks, m) == Picked(s, marks, n)
    decreases n - m
  {
    if m < n { PickedGrows(s, marks, m, n - 1); }
  }

  lemma NoMarksLeft(s: string, marks: seq<bool>, k: nat)
    requires k <= |s| <= |marks|
    ensures |Picked(s, marks, k)| == |Picked(s, marks, |s|)| ==> Picked(s, marks, k) == Picked(s, marks, |s|)
  {
    PickedGrows(s, marks, k, |s|);
  }

  lemma DifferencesPush(x: string, y: string, c: char, d: char)
    requires |x| == |y|
    ensures Differences(x + [c], y + [d]) == Differences(x, y) + if c != d then 1 else 0
  {
    assert (x + [c])[..|x|] == x && (y + [d])[..|y|] == y;
  }

  method ComputeJaro(a: string, b: string) returns (score: real)
    ensures score == Jaro(a, b)
  {
    if a == b { return 1.0; }
    if |a| == 0 || |b| == 0 { return 0.0; }
    var aMatches := new bool[|a|](_ => false);
    var bMatches := new bool[|b|](_ => false);
    var matches := MarkPairs(a, b, aMatches, bMatches);
    PairsAreEqual(a, b, |a|);
    if matches == 0 { return 0.0; }
    var transpositions := CountTranspositions(a, b, aMatches, bMatches);
    score := Score(matches, transpositions, |a|, |b|);
  }

  /** Rewards a common beginning of up to four characters, but not of poor matches. */
  method JaroWinkler(a: string, b: string, normalize: string -> string) returns (score: real)
    ensures var na, nb := normalize(a), normalize(b);
            && Jaro(na, nb) <= score <= 1.0 && (score == 1.0 <==> na == nb)
            && (score == 0.0 <==> na != nb && forall i, j :: !Near(na, nb, i, j))
            && (score > Jaro(na, nb) ==> Jaro(na, nb) >= 0.7 && na[0] == nb[0])
  {
    var na, nb := normalize(a), normalize(b);
    score := ComputeJaro(na, nb);
    JaroMeans(na, nb);
    if score < 0.7 { return; }
    var prefix := 0;
    while prefix < 4 && prefix < |na| && prefix < |nb| && na[prefix] == nb[prefix]
      invariant prefix <= 4 && prefix <= |na| && prefix <= |nb|
      invariant prefix > 0 ==> na[0] == nb[0]
    {
      prefix := prefix + 1;
    }
    score := Boosted(score, prefix);
  }

  function Boosted(score: real, prefix: nat): (boosted: real)
    requires 0.0 <= score <= 1.0 && prefix <= 4
    ensures score <= boosted <= 1.0 && (boosted == 1.0 <==> score == 1.0)
    ensures boosted > score ==> prefix > 0
  {
    var room, share := 1.0 - score, prefix as real * 0.1;
    Share(share, room);
    score + share * room
  }

  lemma Share(share: real, room: real)
    requires 0.0 <= share <= 0.4 && 0.0 <= room
    ensures 0.0 <= share * room <= 0.4 * room && (share == 0.0 ==> share * room == 0.0)
  {
    assert (0.4 - share) * room >= 0.0;
  }
}
