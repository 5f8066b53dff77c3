/**
 Filling windows of a target size with pieces of text, each window beginning with the
 last `overlap` pieces of the one before.
 */
module Packing {
  import opened Wrappers
  import opened Documents
  import opened Sequences
  import opened Texts
  import opened SplitText

  datatype Piece = Piece(key: Text, url: Option<Text>, at: Option<Text>, text: Text)

  datatype Sizes = Sizes(chunkTokens: nat, maxChunkTokens: nat) {
    predicate Valid() { maxChunkTokens >= 1 }
  }

  /** Four code units a token, rounded up. */
  function EstimateTokens(text: Text): nat { (|text| + 3) / 4 }

  // --- Making every piece fit ------------------------------------------------

  function PiecesLike(p: Piece, parts: seq<Text>): (pieces: seq<Piece>)
    ensures |pieces| == |parts| && forall i | 0 <= i < |parts| :: pieces[i] == p.(text := parts[i])
  {
    seq(|parts|, i requires 0 <= i < |parts| => p.(text := parts[i]))
  }

  function FitOne(p: Piece, max: nat): seq<Piece>
    requires max >= 1
  {
    if EstimateTokens(p.text) <= max then [p] else PiecesLike(p, SplitOf(p.text, max))
  }

  function FitWith(max: nat): (f: Piece -> seq<Piece>)
    requires max >= 1
    ensures forall p :: f(p) == FitOne(p, max)
  {
    p => FitOne(p, max)
  }

  function Fitted(pieces: seq<Piece>, max: nat): seq<Piece>
    requires max >= 1
  {
    FlatMap(FitWith(max), pieces, |pieces|)
  }

  function TextsOf(pieces: seq<Piece>): (texts: seq<Text>)
    ensures |texts| == |pieces| && forall i | 0 <= i < |pieces| :: texts[i] == pieces[i].text
  {
    seq(|pieces|, i requires 0 <= i < |pieces| => pieces[i].text)
  }

  function InkOfPieces(pieces: seq<Piece>): Text { InkOf(TextsOf(pieces)) }

  lemma InkOfPiecesConcat(a: seq<Piece>, b: seq<Piece>)
    ensures InkOfPieces(a + b) == InkOfPieces(a) + InkOfPieces(b)
  {
    assert TextsOf(a + b) == TextsOf(a) + TextsOf(b);
    InkOfConcat(TextsOf(a), TextsOf(b));
  }

  ghost predicate AllFit(pieces: seq<Piece>, max: nat) {
    forall i | 0 <= i < |pieces| :: EstimateTokens(pieces[i].text) <= max
  }

  ghost predicate WellFormedPieces(pieces: seq<Piece>) {
    forall i | 0 <= i < |pieces| :: WellFormed(pieces[i].text)
  }

  lemma AllFitConcat(a: seq<Piece>, b: seq<Piece>, max: nat)
    requires AllFit(a, max) && AllFit(b, max)
    ensures AllFit(a + b, max)
  {
  }

  lemma WellFormedPiecesConcat(a: seq<Piece>, b: seq<Piece>)
    requires WellFormedPieces(a) && WellFormedPieces(b)
    ensures WellFormedPieces(a + b)
  {
  }

  lemma FitOneKeeps(p: Piece, max: nat)
    requires max >= 1
    ensures InkOfPieces(FitOne(p, max)) == Ink(p.text) && AllFit(FitOne(p, max), max)
  {
    if EstimateTokens(p.text) <= max {
      assert TextsOf([p]) == [p.text];
      InkOfOne(p.text);
    } else {
      var parts := SplitOf(p.text, max);
      SplitLosesNothing(p.text, max);
      assert TextsOf(PiecesLike(p, parts)) == parts;
      assert forall i | 0 <= i < |parts| :: parts[i] in parts;
    }
  }

  lemma FitOneWellFormed(p: Piece, max: nat)
    requires max >= 1 && WellFormed(p.text)
    ensures WellFormedPieces(FitOne(p, max))
  {
    if EstimateTokens(p.text) > max {
      var parts := SplitOf(p.text, max);
      SplitLosesNothing(p.text, max);
      assert forall i | 0 <= i < |parts| :: parts[i] in parts;
    }
  }

  lemma {:induction false} FlatMapFits(f: Piece -> seq<Piece>, pieces: seq<Piece>, n: nat, max: nat)
    requires n <= |pieces| && forall i | 0 <= i < n :: AllFit(f(pieces[i]), max)
    ensures AllFit(FlatMap(f, pieces, n), max)
  {
    if n > 0 {
      FlatMapFits(f, pieces, n - 1, max);
      AllFitConcat(FlatMap(f, pieces, n - 1), f(pieces[n - 1]), max);
    }
  }

  lemma {:induction false} FlatMapWellFormed(f: Piece -> seq<Piece>, pieces: seq<Piece>, n: nat)
    requires n <= |pieces| && forall i | 0 <= i < n :: WellFormedPieces(f(pieces[i]))
    ensures WellFormedPieces(FlatMap(f, pieces, n))
  {
    if n > 0 {
      FlatMapWellFormed(f, pieces, n - 1);
      WellFormedPiecesConcat(FlatMap(f, pieces, n - 1), f(pieces[n - 1]));
    }
  }

  lemma {:induction false} FlatMapInk(f: Piece -> seq<Piece>, pieces: seq<Piece>, n: nat)
    requires n <= |pieces| && forall i | 0 <= i < n :: InkOfPieces(f(pieces[i])) == Ink(pieces[i].text)
    ensures InkOfPieces(FlatMap(f, pieces, n)) == InkOfTo(TextsOf(pieces), n)
  {
    if n == 0 {
      assert TextsOf([]) == [];
    } else {
      FlatMapInk(f, pieces, n - 1);
      InkOfPiecesConcat(FlatMap(f, pieces, n - 1), f(pieces[n - 1]));
      assert InkOfTo(TextsOf(pieces), n) == InkOfTo(TextsOf(pieces), n - 1) + Ink(pieces[n - 1].text);
    }
  }

  /** Fitting loses no ink: what a long piece is cut into is all of it, and fits. */
  lemma FittedKeeps(pieces: seq<Piece>, max: nat)
    requires max >= 1
    ensures InkOfPieces(Fitted(pieces, max)) == InkOfPieces(pieces) && AllFit(Fitted(pieces, max), max)
  {
    var f := FitWith(max);
    forall i | 0 <= i < |pieces| ensures InkOfPieces(f(pieces[i])) == Ink(pieces[i].text) && AllFit(f(pieces[i]), max) {
      FitOneKeeps(pieces[i], max);
    }
    FlatMapInk(f, pieces, |pieces|);
    FlatMapFits(f, pieces, |pieces|, max);
  }

  lemma FittedWellFormed(pieces: seq<Piece>, max: nat)
    requires max >= 1 && WellFormedPieces(pieces)
    ensures WellFormedPieces(Fitted(pieces, max))
  {
    var f := FitWith(max);
    forall i | 0 <= i < |pieces| ensures WellFormedPieces(f(pieces[i])) {
      FitOneWellFormed(pieces[i], max);
    }
    FlatMapWellFormed(f, pieces, |pieces|);
  }

  // --- Filling windows -------------------------------------------------------

  /** A piece and the newline that joins it. */
  function Cost(p: Piece): nat { EstimateTokens(p.text) + 1 }

  function CostOf(pieces: seq<Piece>, n: nat): nat
    requires n <= |pieces|
  {
    if n == 0 then 0 else CostOf(pieces, n - 1) + Cost(pieces[n - 1])
  }

  function Total(pieces: seq<Piece>): nat { CostOf(pieces, |pieces|) }

  lemma {:induction false} CostOfPrefix(a: seq<Piece>, b: seq<Piece>, n: nat)
    requires n <= |a|
    ensures CostOf(a + b, n) == CostOf(a, n)
  {
    if n > 0 { CostOfPrefix(a, b, n - 1); }
  }

  lemma TotalPush(pieces: seq<Piece>, p: Piece)
    ensures Total(pieces + [p]) == Total(pieces) + Cost(p)
  {
    CostOfPrefix(pieces, [p], |pieces|);
  }

  /** current.slice(-overlap), and nothing when there is no overlap. */
  function Carried(current: seq<Piece>, overlap: nat): seq<Piece> {
    if overlap < |current| then current[|current| - overlap..] else if overlap > 0 then current else []
  }

  datatype Filling = Filling(windows: seq<seq<Piece>>, current: seq<Piece>, tokens: nat)

  function Place(st: Filling, p: Piece, chunkTokens: nat, overlap: nat): Filling {
    var room :=
      if st.current != [] && st.tokens + Cost(p) > chunkTokens then
        var carried := Carried(st.current, overlap);
        Filling(st.windows + [st.current], carried, Total(carried))
      else st;
    Filling(room.windows, room.current + [p], room.tokens + Cost(p))
  }

  function PlaceAll(fitted: seq<Piece>, n: nat, chunkTokens: nat, overlap: nat): Filling
    requires n <= |fitted|
  {
    if n == 0 then Filling([], [], 0)
    else Place(PlaceAll(fitted, n - 1, chunkTokens, overlap), fitted[n - 1], chunkTokens, overlap)
  }

  /** Drops a trailing window that is taken for nothing but the overlap. */
  function Close(st: Filling, overlap: nat): seq<seq<Piece>> {
    var onlyCarried := overlap > 0 && st.windows != [] && |st.current| == overlap;
    if st.current != [] && !onlyCarried then st.windows + [st.current] else st.windows
  }

  function WindowsOf(pieces: seq<Piece>, sizes: Sizes, overlap: nat): seq<seq<Piece>>
    requires sizes.Valid()
  {
    var fitted := Fitted(pieces, sizes.maxChunkTokens);
    Close(PlaceAll(fitted, |fitted|, sizes.chunkTokens, overlap), overlap)
  }

  // --- What the windows hold -------------------------------------------------

  /** The pieces a window brings, without those repeated from the window before. */
  function NewIn(windows: seq<seq<Piece>>, i: nat, overlap: nat): seq<Piece>
    requires i < |windows|
  {
    if i == 0 || |windows[i]| < overlap then windows[i] else windows[i][overlap..]
  }

  function NewTo(windows: seq<seq<Piece>>, n: nat, overlap: nat): seq<Piece>
    requires n <= |windows|
  {
    if n == 0 then [] else NewTo(windows, n - 1, overlap) + NewIn(windows, n - 1, overlap)
  }

  lemma {:induction false} NewToPrefix(a: seq<seq<Piece>>, b: seq<seq<Piece>>, n: nat, overlap: nat)
    requires n <= |a|
    ensures NewTo(a + b, n, overlap) == NewTo(a, n, overlap)
  {
    if n > 0 { NewToPrefix(a, b, n - 1, overlap); }
  }

  lemma NewPush(windows: seq<seq<Piece>>, w: seq<Piece>, overlap: nat)
    ensures NewTo(windows + [w], |windows| + 1, overlap) ==
            NewTo(windows, |windows|, overlap) + NewIn(windows + [w], |windows|, overlap)
  {
    NewToPrefix(windows, [w], |windows|, overlap);
  }

  /** A window is within the target, or could not be smaller: one piece and its overlap. */
  ghost predicate Small(w: seq<Piece>, chunkTokens: nat, overlap: nat, max: nat) {
    && w != [] && AllFit(w, max)
    && (Total(w) <= chunkTokens || |w| <= overlap + 1)
  }

  /** `w` begins with the last `overlap` pieces of `before`, and goes on. */
  ghost predicate Follows(before: seq<Piece>, w: seq<Piece>, overlap: nat) {
    && |w| > overlap && |before| >= overlap
    && w[..overlap] == before[|before| - overlap..]
  }

  ghost predicate FollowsAt(windows: seq<seq<Piece>>, i: nat, overlap: nat) {
    0 < i < |windows| ==> Follows(windows[i - 1], windows[i], overlap)
  }

  ghost predicate Overlapping(windows: seq<seq<Piece>>, overlap: nat) {
    forall i: nat :: FollowsAt(windows, i, overlap)
  }

  lemma OverlappingPush(windows: seq<seq<Piece>>, w: seq<Piece>, overlap: nat)
    requires Overlapping(windows, overlap) && (windows != [] ==> Follows(windows[|windows| - 1], w, overlap))
    ensures Overlapping(windows + [w], overlap)
  {
    forall i: nat ensures FollowsAt(windows + [w], i, overlap) {
      assert FollowsAt(windows, i, overlap);
    }
  }

  ghost predicate AllSmall(windows: seq<seq<Piece>>, chunkTokens: nat, overlap: nat, max: nat) {
    forall i | 0 <= i < |windows| :: Small(windows[i], chunkTokens, overlap, max)
  }

  /** What the window being filled brings. */
  function NewNow(st: Filling, overlap: nat): seq<Piece> {
    if st.windows == [] || |st.current| < overlap then st.current else st.current[overlap..]
  }

  /** So far the windows bring exactly what was placed. */
  ghost predicate Brings(st: Filling, placed: seq<Piece>, overlap: nat) {
    NewTo(st.windows, |st.windows|, overlap) + NewNow(st, overlap) == placed
  }

  ghost predicate Linked(st: Filling, overlap: nat) {
    && Overlapping(st.windows, overlap)
    && (st.windows != [] ==> Follows(st.windows[|st.windows| - 1], st.current, overlap))
  }

  ghost predicate FitsIn(st: Filling, chunkTokens: nat, overlap: nat, max: nat) {
    && AllSmall(st.windows, chunkTokens, overlap, max) && Small(st.current, chunkTokens, overlap, max)
    && st.tokens == Total(st.current)
  }

  lemma FirstBrings(st: Filling, p: Piece, chunkTokens: nat, overlap: nat)
    requires st == Filling([], [], 0)
    ensures Brings(Place(st, p, chunkTokens, overlap), [p], overlap) &&
            Linked(Place(st, p, chunkTokens, overlap), overlap)
  {
    assert [] + [p] == [p];
  }

  lemma FirstFits(st: Filling, p: Piece, chunkTokens: nat, overlap: nat, max: nat)
    requires st == Filling([], [], 0) && EstimateTokens(p.text) <= max
    ensures FitsIn(Place(st, p, chunkTokens, overlap), chunkTokens, overlap, max)
  {
    TotalPush([], p);
    assert [] + [p] == [p];
  }

  lemma SameBrings(st: Filling, p: Piece, placed: seq<Piece>, chunkTokens: nat, overlap: nat)
    requires st.current != [] && st.tokens + Cost(p) <= chunkTokens
    requires Brings(st, placed, overlap) && Linked(st, overlap)
    ensures Brings(Place(st, p, chunkTokens, overlap), placed + [p], overlap)
  {
    var next := Place(st, p, chunkTokens, overlap);
    assert NewNow(next, overlap) == NewNow(st, overlap) + [p];
    Assoc(NewTo(st.windows, |st.windows|, overlap), NewNow(st, overlap), [p]);
  }

  lemma SameLinked(st: Filling, p: Piece, chunkTokens: nat, overlap: nat)
    requires st.current != [] && st.tokens + Cost(p) <= chunkTokens && Linked(st, overlap)
    ensures Linked(Place(st, p, chunkTokens, overlap), overlap)
  {
    if st.windows != [] { assert (st.current + [p])[..overlap] == st.current[..overlap]; }
  }

  lemma SameFits(st: Filling, p: Piece, chunkTokens: nat, overlap: nat, max: nat)
    requires st.current != [] && st.tokens + Cost(p) <= chunkTokens && EstimateTokens(p.text) <= max
    requires FitsIn(st, chunkTokens, overlap, max)
    ensures FitsIn(Place(st, p, chunkTokens, overlap), chunkTokens, overlap, max)
  {
    TotalPush(st.current, p);
    AllFitConcat(st.current, [p], max);
  }

  lemma CarriedKeeps(current: seq<Piece>, overlap: nat, p: Piece)
    requires overlap <= 1 && current != []
    ensures var carried := Carried(current, overlap);
            && |carried| == overlap && Total(carried + [p]) == Total(carried) + Cost(p)
            && Follows(current, carried + [p], overlap) && (carried + [p])[overlap..] == [p]
  {
    var carried := Carried(current, overlap);
    assert carried == current[|current| - overlap..];
    TotalPush(carried, p);
  }

  lemma NextBrings(st: Filling, p: Piece, placed: seq<Piece>, chunkTokens: nat, overlap: nat)
    requires overlap <= 1 && st.current != [] && st.tokens + Cost(p) > chunkTokens
    requires Brings(st, placed, overlap)
    ensures Brings(Place(st, p, chunkTokens, overlap), placed + [p], overlap)
  {
    var next := Place(st, p, chunkTokens, overlap);
    CarriedKeeps(st.current, overlap, p);
    NewPush(st.windows, st.current, overlap);
    assert NewIn(next.windows, |st.windows|, overlap) == NewNow(st, overlap);
    assert NewNow(next, overlap) == [p];
  }

  lemma NextLinked(st: Filling, p: Piece, chunkTokens: nat, overlap: nat)
    requires overlap <= 1 && st.current != [] && st.tokens + Cost(p) > chunkTokens && Linked(st, overlap)
    ensures Linked(Place(st, p, chunkTokens, overlap), overlap)
  {
    CarriedKeeps(st.current, overlap, p);
    OverlappingPush(st.windows, st.current, overlap);
  }

  lemma NextFits(st: Filling, p: Piece, chunkTokens: nat, overlap: nat, max: nat)
    requires overlap <= 1 && st.current != [] && st.tokens + Cost(p) > chunkTokens && EstimateTokens(p.text) <= max
    requires FitsIn(st, chunkTokens, overlap, max)
    ensures FitsIn(Place(st, p, chunkTokens, overlap), chunkTokens, overlap, max)
  {
    CarriedKeeps(st.current, overlap, p);
    AllFitConcat(Carried(st.current, overlap), [p], max);
  }

  ghost predicate Filled(st: Filling, placed: seq<Piece>, chunkTokens: nat, overlap: nat, max: nat) {
    if placed == [] then st == Filling([], [], 0)
    else st.current != [] && Brings(st, placed, overlap) && Linked(st, overlap) && FitsIn(st, chunkTokens, overlap, max)
  }

  lemma PlaceKeeps(st: Filling, p: Piece, placed: seq<Piece>, chunkTokens: nat, overlap: nat, max: nat)
    requires overlap <= 1 && EstimateTokens(p.text) <= max
    requires Filled(st, placed, chunkTokens, overlap, max)
    ensures Filled(Place(st, p, chunkTokens, overlap), placed + [p], chunkTokens, overlap, max)
  {
    if placed == [] {
      FirstBrings(st, p, chunkTokens, overlap);
      FirstFits(st, p, chunkTokens, overlap, max);
      assert placed + [p] == [p];
    } else if st.tokens + Cost(p) > chunkTokens {
      NextBrings(st, p, placed, chunkTokens, overlap);
      NextLinked(st, p, chunkTokens, overlap);
      NextFits(st, p, chunkTokens, overlap, max);
    } else {
      SameBrings(st, p, placed, chunkTokens, overlap);
      SameLinked(st, p, chunkTokens, overlap);
      SameFits(st, p, chunkTokens, overlap, max);
    }
  }

  lemma PlaceNext(st: Filling, p: Piece, placed: seq<Piece>, st': Filling, placed': seq<Piece>,
                  chunkTokens: nat, overlap: nat, max: nat)
    requires overlap <= 1 && EstimateTokens(p.text) <= max
    requires Filled(st, placed, chunkTokens, overlap, max)
    requires st' == Place(st, p, chunkTokens, overlap) && placed' == placed + [p]
    ensures Filled(st', placed', chunkTokens, overlap, max)
  {
    PlaceKeeps(st, p, placed, chunkTokens, overlap, max);
  }

  lemma {:induction false} PlaceAllKeeps(fitted: seq<Piece>, n: nat, chunkTokens: nat, overlap: nat, max: nat)
    requires n <= |fitted| && overlap <= 1 && AllFit(fitted, max)
    ensures Filled(PlaceAll(fitted, n, chunkTokens, overlap), fitted[..n], chunkTokens, overlap, max)
  {
    if n > 0 {
      TakeNext(fitted, n);
      assert EstimateTokens(fitted[n - 1].text) <= max;
      PlaceAllKeeps(fitted, n - 1, chunkTokens, overlap, max);
      PlaceNext(PlaceAll(fitted, n - 1, chunkTokens, overlap), fitted[n - 1], fitted[..n - 1],
                PlaceAll(fitted, n, chunkTokens, overlap), fitted[..n], chunkTokens, overlap, max);
    }
  }

  /** What is taken for nothing but overlap never is: the window that follows has a piece of its own. */
  lemma CloseKeeps(st: Filling, overlap: nat)
    requires overlap <= 1 && Linked(st, overlap) && st.current != []
    ensures Close(st, overlap) == st.windows + [st.current]
  {
  }

  lemma CloseBrings(st: Filling, placed: seq<Piece>, overlap: nat)
    requires Brings(st, placed, overlap)
    ensures var windows := st.windows + [st.current]; NewTo(windows, |windows|, overlap) == placed
  {
    NewPush(st.windows, st.current, overlap);
    assert NewIn(st.windows + [st.current], |st.windows|, overlap) == NewNow(st, overlap);
  }

  lemma CloseFits(st: Filling, chunkTokens: nat, overlap: nat, max: nat)
    requires FitsIn(st, chunkTokens, overlap, max)
    ensures AllSmall(st.windows + [st.current], chunkTokens, overlap, max)
  {
  }

  lemma NothingIsDropped(st: Filling, placed: seq<Piece>, chunkTokens: nat, overlap: nat, max: nat)
    requires overlap <= 1 && Filled(st, placed, chunkTokens, overlap, max)
    ensures var windows := Close(st, overlap);
            && NewTo(windows, |windows|, overlap) == placed
            && Overlapping(windows, overlap) && AllSmall(windows, chunkTokens, overlap, max)
  {
    if placed != [] {
      CloseKeeps(st, overlap);
      CloseBrings(st, placed, overlap);
      OverlappingPush(st.windows, st.current, overlap);
      CloseFits(st, chunkTokens, overlap, max);
    }
  }

  /**
   With the overlaps used, the windows without what they repeat are the fitted pieces,
   in order and each once.
   */
  lemma PackingLosesNothing(pieces: seq<Piece>, sizes: Sizes, overlap: nat)
    requires sizes.Valid() && overlap <= 1
    ensures var windows := WindowsOf(pieces, sizes, overlap);
            && NewTo(windows, |windows|, overlap) == Fitted(pieces, sizes.maxChunkTokens)
            && Overlapping(windows, overlap)
            && AllSmall(windows, sizes.chunkTokens, overlap, sizes.maxChunkTokens)
  {
    var fitted := Fitted(pieces, sizes.maxChunkTokens);
    FittedKeeps(pieces, sizes.maxChunkTokens);
    PlaceAllKeeps(fitted, |fitted|, sizes.chunkTokens, overlap, sizes.maxChunkTokens);
    assert fitted[..|fitted|] == fitted;
    var st := PlaceAll(fitted, |fitted|, sizes.chunkTokens, overlap);
    NothingIsDropped(st, fitted, sizes.chunkTokens, overlap, sizes.maxChunkTokens);
  }

  /** With an overlap of two the last piece can be lost: the window is taken for overlap. */
  lemma OverlapOfTwoDropsAPiece(p: Piece, q: Piece)
    requires EstimateTokens(p.text) <= 1 && EstimateTokens(q.text) <= 1
    ensures WindowsOf([p, q], Sizes(1, 1), 2) == [[p]]
  {
    var f := FitWith(1);
    assert FlatMap(f, [p, q], 1) == [p];
    assert FlatMap(f, [p, q], 2) == [p, q];
    assert PlaceAll([p, q], 1, 1, 2) == Filling([], [p], Cost(p));
    assert Carried([p], 2) == [p];
    assert PlaceAll([p, q], 2, 1, 2).windows == [[p]];
    assert PlaceAll([p, q], 2, 1, 2).current == [p, q];
  }

  // --- Whatever holds of every fitted piece holds in every window ------------

  ghost predicate AllWindowsWellFormed(windows: seq<seq<Piece>>) {
    forall i | 0 <= i < |windows| :: WellFormedPieces(windows[i])
  }

  lemma PlaceWellFormed(st: Filling, p: Piece, chunkTokens: nat, overlap: nat)
    requires AllWindowsWellFormed(st.windows) && WellFormedPieces(st.current) && WellFormed(p.text)
    ensures var next := Place(st, p, chunkTokens, overlap);
            AllWindowsWellFormed(next.windows) && WellFormedPieces(next.current)
  {
    var carried := Carried(st.current, overlap);
    assert WellFormedPieces(carried);
    WellFormedPiecesConcat(carried, [p]);
    WellFormedPiecesConcat(st.current, [p]);
  }

  lemma {:induction false} PlaceAllWellFormed(fitted: seq<Piece>, n: nat, chunkTokens: nat, overlap: nat)
    requires n <= |fitted| && WellFormedPieces(fitted)
    ensures var st := PlaceAll(fitted, n, chunkTokens, overlap);
            AllWindowsWellFormed(st.windows) && WellFormedPieces(st.current)
  {
    if n > 0 {
      PlaceAllWellFormed(fitted, n - 1, chunkTokens, overlap);
      PlaceWellFormed(PlaceAll(fitted, n - 1, chunkTokens, overlap), fitted[n - 1], chunkTokens, overlap);
    }
  }

  lemma WindowsWellFormed(pieces: seq<Piece>, sizes: Sizes, overlap: nat)
    requires sizes.Valid() && WellFormedPieces(pieces)
    ensures AllWindowsWellFormed(WindowsOf(pieces, sizes, overlap))
  {
    var fitted := Fitted(pieces, sizes.maxChunkTokens);
    FittedWellFormed(pieces, sizes.maxChunkTokens);
    PlaceAllWellFormed(fitted, |fitted|, sizes.chunkTokens, overlap);
  }

  // --- The text of a window --------------------------------------------------

  function JoinTo(pieces: seq<Piece>, n: nat): Text
    requires n <= |pieces|
  {
    if n == 0 then [] else if n == 1 then pieces[0].text
    else JoinTo(pieces, n - 1) + [NEWLINE] + pieces[n - 1].text
  }

  function Joined(pieces: seq<Piece>): Text { JoinTo(pieces, |pieces|) }

  lemma {:induction false} JoinKeeps(pieces: seq<Piece>, n: nat)
    requires n <= |pieces|
    ensures Ink(JoinTo(pieces, n)) == InkOfTo(TextsOf(pieces), n)
    ensures n > 0 ==> |JoinTo(pieces, n)| + 4 <= 4 * CostOf(pieces, n)
  {
    if n > 0 {
      JoinKeeps(pieces, n - 1);
      var last := pieces[n - 1].text;
      if n == 1 {
        assert InkOfTo(TextsOf(pieces), 0) == [];
        assert CostOf(pieces, 1) == Cost(pieces[0]);
      } else {
        InkBesideSpace(JoinTo(pieces, n - 1), [NEWLINE], last);
      }
    }
  }

  lemma {:induction false} JoinWellFormed(pieces: seq<Piece>, n: nat)
    requires n <= |pieces| && WellFormedPieces(pieces)
    ensures WellFormed(JoinTo(pieces, n))
  {
    if n > 1 {
      JoinWellFormed(pieces, n - 1);
      ConcatWellFormed(JoinTo(pieces, n - 1), [NEWLINE]);
      ConcatWellFormed(JoinTo(pieces, n - 1) + [NEWLINE], pieces[n - 1].text);
    }
  }

  lemma {:induction false} FewCost(pieces: seq<Piece>, n: nat, max: nat)
    requires n <= |pieces| && AllFit(pieces, max)
    ensures CostOf(pieces, n) <= n * (max + 1)
  {
    if n > 0 { FewCost(pieces, n - 1, max); }
  }

  /** What a piece that just fits takes, with the one it may repeat and a newline between. */
  function Unavoidable(overlap: nat, max: nat): nat { if overlap == 0 then max else 2 * max + 1 }

  /** A window's text is within the target, or that of one piece and its overlap. */
  lemma WindowIsSmall(w: seq<Piece>, chunkTokens: nat, overlap: nat, max: nat)
    requires Small(w, chunkTokens, overlap, max) && overlap <= 1
    ensures EstimateTokens(Joined(w)) < chunkTokens || EstimateTokens(Joined(w)) <= Unavoidable(overlap, max)
    ensures Ink(Joined(w)) == InkOfPieces(w)
  {
    JoinKeeps(w, |w|);
    FewCost(w, |w|, max);
    assert |w| <= overlap + 1 ==> |w| == 1 || (|w| == 2 && overlap == 1);
    assert |w| == 1 ==> |w| * (max + 1) == max + 1;
    assert |w| == 2 ==> |w| * (max + 1) == 2 * max + 2;
  }

  // --- As the program does it ------------------------------------------------

  method FitPiece(p: Piece, max: nat) returns (fitted: seq<Piece>)
    requires max >= 1
    ensures fitted == FitOne(p, max)
  {
    if EstimateTokens(p.text) <= max { return [p]; }
    var parts := SplitLongText(p.text, max);
    fitted := [];
    for k := 0 to |parts|
      invariant |fitted| == k && forall i | 0 <= i < k :: fitted[i] == p.(text := parts[i])
    {
      fitted := fitted + [p.(text := parts[k])];
    }
    assert fitted == PiecesLike(p, parts);
  }

  method FitAll(pieces: seq<Piece>, max: nat) returns (fitted: seq<Piece>)
    requires max >= 1
    ensures fitted == Fitted(pieces, max)
  {
    fitted := [];
    ghost var f := FitWith(max);
    var i := 0;
    while i < |pieces|
      invariant i <= |pieces| && fitted == FlatMap(f, pieces, i)
    {
      var cut := FitPiece(pieces[i], max);
      assert cut == f(pieces[i]);
      fitted := fitted + cut;
      i := i + 1;
    }
  }

  /** Into the window being filled, or into the next one. */
  method PlacePiece(filled: seq<seq<Piece>>, open: seq<Piece>, cost: nat, p: Piece, chunkTokens: nat, overlap: nat)
    returns (windows: seq<seq<Piece>>, current: seq<Piece>, tokens: nat)
    ensures Filling(windows, current, tokens) == Place(Filling(filled, open, cost), p, chunkTokens, overlap)
  {
    windows, current, tokens := filled, open, cost;
    var t := EstimateTokens(p.text) + 1;
    if |current| > 0 && tokens + t > chunkTokens {
      windows := windows + [current];
      current := Carried(current, overlap);
      tokens := 0;
      for k := 0 to |current|
        invariant tokens == CostOf(current, k)
      {
        tokens := tokens + EstimateTokens(current[k].text) + 1;
      }
    }
    current := current + [p];
    tokens := tokens + t;
  }

  method Pack(pieces: seq<Piece>, sizes: Sizes, overlap: nat) returns (windows: seq<seq<Piece>>)
    requires sizes.Valid()
    ensures windows == WindowsOf(pieces, sizes, overlap)
  {
    var fitted := FitAll(pieces, sizes.maxChunkTokens);
    windows := [];
    var current: seq<Piece>, tokens: nat := [], 0;
    for i := 0 to |fitted|
      invariant Filling(windows, current, tokens) == PlaceAll(fitted, i, sizes.chunkTokens, overlap)
    {
      windows, current, tokens := PlacePiece(windows, current, tokens, fitted[i], sizes.chunkTokens, overlap);
    }
    var onlyCarried := overlap > 0 && |windows| > 0 && |current| == overlap;
    if |current| > 0 && !onlyCarried { windows := windows + [current]; }
  }
}
