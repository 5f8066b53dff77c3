/**
 The chunks of a whole document. `LayoutOf` says which pieces stand in which chunk and
 how many of them only repeat the end of the chunk before.
 */
module Chunks {
  import opened Wrappers
  import opened Documents
  import opened Sequences
  import opened Texts
  import opened Packing
  import opened Chunking

  datatype Window = Window(prefix: Text, pieces: seq<Piece>, repeated: nat)

  // --- The layout ------------------------------------------------------------

  function WindowsIn(g: Group, sizes: Sizes): (windows: seq<Window>)
    requires sizes.Valid()
    ensures var packed := WindowsOf(g.pieces, sizes, g.overlap);
            && |windows| == |packed|
            && forall i | 0 <= i < |packed| ::
                 windows[i] == Window(g.prefix, packed[i], if i == 0 then 0 else g.overlap)
  {
    var packed := WindowsOf(g.pieces, sizes, g.overlap);
    seq(|packed|, i requires 0 <= i < |packed| => Window(g.prefix, packed[i], if i == 0 then 0 else g.overlap))
  }

  function Laid(sizes: Sizes): (f: Group -> seq<Window>)
    requires sizes.Valid()
    ensures forall g :: f(g) == WindowsIn(g, sizes)
  {
    g => WindowsIn(g, sizes)
  }

  function LayoutOf(doc: Chunkable, options: Options): seq<Window>
    requires options.sizes.Valid()
  {
    var groups := GroupsOf(doc, options);
    FlatMap(Laid(options.sizes), groups, |groups|)
  }

  /** The pieces a chunk brings, without those it repeats. */
  function Brings(w: Window): seq<Piece> {
    if w.repeated <= |w.pieces| then w.pieces[w.repeated..] else w.pieces
  }

  function Brought(windows: seq<Window>): seq<Piece> { FlatMap(Brings, windows, |windows|) }

  /** Within one group the chunks bring what its windows do. */
  lemma {:induction false} PackedBring(windows: seq<Window>, packed: seq<seq<Piece>>, overlap: nat, n: nat)
    requires n <= |windows| == |packed|
    requires forall i | 0 <= i < |packed| ::
               windows[i].pieces == packed[i] && windows[i].repeated == if i == 0 then 0 else overlap
    ensures FlatMap(Brings, windows, n) == NewTo(packed, n, overlap)
  {
    if n > 0 {
      PackedBring(windows, packed, overlap, n - 1);
      assert Brings(windows[n - 1]) == NewIn(packed, n - 1, overlap);
    }
  }

  lemma GroupBrings(g: Group, sizes: Sizes)
    requires sizes.Valid() && g.overlap <= 1
    ensures Brought(WindowsIn(g, sizes)) == Fitted(g.pieces, sizes.maxChunkTokens)
  {
    var packed := WindowsOf(g.pieces, sizes, g.overlap);
    PackedBring(WindowsIn(g, sizes), packed, g.overlap, |packed|);
    PackingLosesNothing(g.pieces, sizes, g.overlap);
  }

  // --- The chunks ------------------------------------------------------------

  /** The keys in order, each once. */
  function Distinct(pieces: seq<Piece>, n: nat): (keys: seq<Text>)
    requires n <= |pieces|
    ensures forall i | 0 <= i < n :: pieces[i].key in keys
    ensures forall k <- keys :: exists i | 0 <= i < n :: pieces[i].key == k
    ensures forall i, j | 0 <= i < j < |keys| :: keys[i] != keys[j]
  {
    if n == 0 then []
    else
      var keys := Distinct(pieces, n - 1);
      if pieces[n - 1].key in keys then keys else keys + [pieces[n - 1].key]
  }

  /** The first that is there and not empty. */
  function FirstGiven(values: seq<Option<Text>>): Option<Text> {
    if values == [] then None
    else if values[0].Some? && values[0].value != [] then values[0] else FirstGiven(values[1..])
  }

  function DraftOf(w: Window, num: nat): ChunkDraft {
    var text := Joined(w.pieces);
    ChunkDraft(num, Distinct(w.pieces, |w.pieces|),
               FirstGiven(seq(|w.pieces|, i requires 0 <= i < |w.pieces| => w.pieces[i].url)),
               FirstGiven(seq(|w.pieces|, i requires 0 <= i < |w.pieces| => w.pieces[i].at)),
               w.prefix, text, w.prefix + [NEWLINE] + text, EstimateTokens(text))
  }

  function ChunksOf(doc: Chunkable, options: Options): (drafts: seq<ChunkDraft>)
    requires options.sizes.Valid()
    ensures |drafts| == |LayoutOf(doc, options)|
    ensures forall i | 0 <= i < |drafts| :: drafts[i] == DraftOf(LayoutOf(doc, options)[i], i)
  {
    var layout := LayoutOf(doc, options);
    seq(|layout|, i requires 0 <= i < |layout| => DraftOf(layout[i], i))
  }

  /** Each draft is that of its window, numbered on from `first`. */
  ghost predicate Drafted(drafts: seq<ChunkDraft>, windows: seq<Window>, first: nat) {
    |drafts| == |windows| && forall i | 0 <= i < |drafts| :: drafts[i] == DraftOf(windows[i], first + i)
  }

  lemma DraftedConcat(drafts: seq<ChunkDraft>, windows: seq<Window>, more: seq<ChunkDraft>, next: seq<Window>)
    requires Drafted(drafts, windows, 0) && Drafted(more, next, |drafts|)
    ensures Drafted(drafts + more, windows + next, 0)
  {
  }

  method DraftWindows(prefix: Text, packed: seq<seq<Piece>>, overlap: nat, first: nat, ghost windows: seq<Window>)
    returns (drafts: seq<ChunkDraft>)
    requires |windows| == |packed|
    requires forall i | 0 <= i < |packed| :: windows[i] == Window(prefix, packed[i], if i == 0 then 0 else overlap)
    ensures Drafted(drafts, windows, first)
  {
    drafts := [];
    for i := 0 to |packed|
      invariant |drafts| == i && forall k | 0 <= k < i :: drafts[k] == DraftOf(windows[k], first + k)
    {
      var draft := DraftOf(Window(prefix, packed[i], if i == 0 then 0 else overlap), first + i);
      drafts := drafts + [draft];
    }
  }

  lemma LaidNext(groups: seq<Group>, sizes: Sizes, i: nat)
    requires sizes.Valid() && i < |groups|
    ensures FlatMap(Laid(sizes), groups, i + 1) == FlatMap(Laid(sizes), groups, i) + WindowsIn(groups[i], sizes)
  {
  }

  method ChunkDocument(doc: Chunkable, options: Options) returns (drafts: seq<ChunkDraft>)
    requires options.sizes.Valid()
    ensures drafts == ChunksOf(doc, options)
  {
    var groups := GroupSegments(doc, options);
    ghost var laid := Laid(options.sizes);
    ghost var layout: seq<Window> := [];
    drafts := [];
    var i := 0;
    while i < |groups|
      invariant i <= |groups| && layout == FlatMap(laid, groups, i) && Drafted(drafts, layout, 0)
    {
      ghost var windows := WindowsIn(groups[i], options.sizes);
      var packed := Pack(groups[i].pieces, options.sizes, groups[i].overlap);
      var more := DraftWindows(groups[i].prefix, packed, groups[i].overlap, |drafts|, windows);
      DraftedConcat(drafts, layout, more, windows);
      LaidNext(groups, options.sizes, i);
      drafts := drafts + more;
      layout := layout + windows;
      i := i + 1;
    }
  }

  /**
   Nothing is lost and nothing moves: what the chunks bring is every segment's piece, in
   the document's order and cut to size where it is too long; and that is, white space
   apart, what the segments show.
   */
  lemma ChunksLoseNothing(doc: Chunkable, options: Options)
    requires options.sizes.Valid()
    ensures var layout := LayoutOf(doc, options);
            var pieces := PiecesOf(doc, options.clock, 0, |doc.segments|);
            && Brought(layout) == Fitted(pieces, options.sizes.maxChunkTokens)
            && InkOfPieces(Brought(layout)) == InkOfPieces(pieces)
  {
    var groups := GroupsOf(doc, options);
    var fit, laid := FitWith(options.sizes.maxChunkTokens), Laid(options.sizes);
    GroupsKeepPieces(doc, options);
    forall i | 0 <= i < |groups|
      ensures FlatMap(Brings, laid(groups[i]), |laid(groups[i])|) ==
              FlatMap(fit, PiecesIn(groups[i]), |PiecesIn(groups[i])|)
    {
      assert groups[i] in groups;
      GroupBrings(groups[i], options.sizes);
    }
    NestedAgree(laid, Brings, PiecesIn, fit, groups, |groups|);
    FittedKeeps(PiecesOf(doc, options.clock, 0, |doc.segments|), options.sizes.maxChunkTokens);
  }

  function Max(a: int, b: int): int { if a > b then a else b }

  /** The size a chunk may have: a thread's repeats one piece. */
  function Bound(kind: Kind, sizes: Sizes): int {
    var overlap := if kind.SlackThread? then 1 else 0;
    Max(sizes.chunkTokens - 1, Unavoidable(overlap, sizes.maxChunkTokens))
  }

  ghost predicate Within(windows: seq<Window>, bound: int) {
    forall i | 0 <= i < |windows| ::
      windows[i].pieces != [] && EstimateTokens(Joined(windows[i].pieces)) <= bound
  }

  lemma PackedIsSmall(packed: seq<seq<Piece>>, sizes: Sizes, overlap: nat, bound: int, i: nat)
    requires overlap <= 1 && AllSmall(packed, sizes.chunkTokens, overlap, sizes.maxChunkTokens) && i < |packed|
    requires bound >= sizes.chunkTokens - 1 && bound >= Unavoidable(overlap, sizes.maxChunkTokens)
    ensures packed[i] != [] && EstimateTokens(Joined(packed[i])) <= bound
  {
    WindowIsSmall(packed[i], sizes.chunkTokens, overlap, sizes.maxChunkTokens);
  }

  lemma GroupIsSmall(g: Group, sizes: Sizes, bound: int)
    requires sizes.Valid() && g.overlap <= 1
    requires bound >= sizes.chunkTokens - 1 && bound >= Unavoidable(g.overlap, sizes.maxChunkTokens)
    ensures Within(WindowsIn(g, sizes), bound)
  {
    ghost var packed := WindowsOf(g.pieces, sizes, g.overlap);
    PackingLosesNothing(g.pieces, sizes, g.overlap);
    ghost var windows := WindowsIn(g, sizes);
    forall i | 0 <= i < |windows|
      ensures windows[i].pieces != [] && EstimateTokens(Joined(windows[i].pieces)) <= bound
    {
      PackedIsSmall(packed, sizes, g.overlap, bound, i);
    }
  }

  lemma {:induction false} AllWithin(laid: Group -> seq<Window>, groups: seq<Group>, n: nat, bound: int)
    requires n <= |groups| && forall i | 0 <= i < n :: Within(laid(groups[i]), bound)
    ensures Within(FlatMap(laid, groups, n), bound)
  {
    if n > 0 { AllWithin(laid, groups, n - 1, bound); }
  }

  lemma LayoutIsSmall(doc: Chunkable, options: Options)
    requires options.sizes.Valid()
    ensures Within(LayoutOf(doc, options), Bound(doc.kind, options.sizes))
  {
    var groups := GroupsOf(doc, options);
    var laid := Laid(options.sizes);
    var bound := Bound(doc.kind, options.sizes);
    GroupsKeepPieces(doc, options);
    forall i | 0 <= i < |groups| ensures Within(laid(groups[i]), bound) {
      assert groups[i] in groups;
      BoundCovers(groups[i].overlap, doc.kind, options.sizes);
      GroupIsSmall(groups[i], options.sizes, bound);
    }
    AllWithin(laid, groups, |groups|, bound);
  }

  lemma BoundCovers(overlap: nat, kind: Kind, sizes: Sizes)
    requires overlap <= (if kind.SlackThread? then 1 else 0)
    ensures Bound(kind, sizes) >= sizes.chunkTokens - 1
    ensures Bound(kind, sizes) >= Unavoidable(overlap, sizes.maxChunkTokens)
  {
  }

  /** No chunk is larger than the target or, where one piece alone is, than what that piece needs. */
  lemma ChunksAreSmall(doc: Chunkable, options: Options)
    requires options.sizes.Valid()
    ensures forall d <- ChunksOf(doc, options) ::
              d.tokenEstimate <= Bound(doc.kind, options.sizes) && d.segmentKeys != []
  {
    LayoutIsSmall(doc, options);
    forall d <- ChunksOf(doc, options)
      ensures d.tokenEstimate <= Bound(doc.kind, options.sizes) && d.segmentKeys != []
    {
      var i :| 0 <= i < |ChunksOf(doc, options)| && ChunksOf(doc, options)[i] == d;
      DraftMeans(LayoutOf(doc, options)[i], i);
    }
  }

  lemma DraftMeans(w: Window, num: nat)
    ensures DraftOf(w, num).tokenEstimate == EstimateTokens(Joined(w.pieces)) && DraftOf(w, num).num == num
    ensures w.pieces != [] ==> DraftOf(w, num).segmentKeys != []
  {
    if w.pieces != [] { assert w.pieces[0].key in Distinct(w.pieces, |w.pieces|); }
  }

  // --- Surrogate pairs -------------------------------------------------------

  ghost predicate AllTextsWellFormed(windows: seq<Window>) {
    forall i | 0 <= i < |windows| :: WellFormedPieces(windows[i].pieces)
  }

  lemma {:induction false} LaidWellFormed(laid: Group -> seq<Window>, groups: seq<Group>, n: nat)
    requires n <= |groups| && forall i | 0 <= i < n :: AllTextsWellFormed(laid(groups[i]))
    ensures AllTextsWellFormed(FlatMap(laid, groups, n))
  {
    if n > 0 { LaidWellFormed(laid, groups, n - 1); }
  }

  lemma GroupWellFormed(g: Group, sizes: Sizes)
    requires sizes.Valid() && WellFormedPieces(g.pieces)
    ensures AllTextsWellFormed(WindowsIn(g, sizes))
  {
    WindowsWellFormed(g.pieces, sizes, g.overlap);
  }

  /** A piece of a group is a piece of the document. */
  lemma {:induction false} PieceAmongAll(groups: seq<Group>, n: nat, i: nat, j: nat)
    requires i < n <= |groups| && j < |groups[i].pieces|
    ensures groups[i].pieces[j] in FlatMap(PiecesIn, groups, n)
  {
    if i < n - 1 { PieceAmongAll(groups, n - 1, i, j); }
  }

  /** Well-formed segments make well-formed chunk texts: no pair is cut in half. */
  lemma ChunkTextsAreWellFormed(doc: Chunkable, options: Options)
    requires options.sizes.Valid()
    requires WellFormedPieces(PiecesOf(doc, options.clock, 0, |doc.segments|))
    ensures forall d <- ChunksOf(doc, options) :: WellFormed(d.text)
  {
    var groups := GroupsOf(doc, options);
    var laid := Laid(options.sizes);
    GroupsKeepPieces(doc, options);
    forall i | 0 <= i < |groups| ensures AllTextsWellFormed(laid(groups[i])) {
      forall j | 0 <= j < |groups[i].pieces| ensures WellFormed(groups[i].pieces[j].text) {
        PieceAmongAll(groups, |groups|, i, j);
      }
      GroupWellFormed(groups[i], options.sizes);
    }
    LaidWellFormed(laid, groups, |groups|);
    forall d <- ChunksOf(doc, options) ensures WellFormed(d.text) {
      var k :| 0 <= k < |ChunksOf(doc, options)| && ChunksOf(doc, options)[k] == d;
      var w := LayoutOf(doc, options)[k];
      JoinWellFormed(w.pieces, |w.pieces|);
    }
  }

  lemma CutIsWellFormedIff(line: Text, n: nat)
    requires WellFormed(line) && n > 0
    ensures WellFormed(Cut(line, n)) <==> |line| <= n || !High(line[n - 1])
  {
    if |line| > n && !High(line[n - 1]) { SliceWellFormed(line, 0, n); }
    if |line| > n && High(line[n - 1]) { assert Cut(line, n)[n - 1] == line[n - 1]; }
  }

  lemma {:induction false} FirstLineIsPrefix(s: Text)
    ensures FirstLine(s) <= s && (|FirstLine(s)| < |s| ==> s[|FirstLine(s)|] == NEWLINE)
  {
    if s != [] && s[0] != NEWLINE { FirstLineIsPrefix(s[1..]); }
  }

  lemma FirstLineWellFormed(s: Text)
    requires WellFormed(s)
    ensures WellFormed(FirstLine(s))
  {
    FirstLineIsPrefix(s);
    var n := |FirstLine(s)|;
    if 0 < n < |s| { assert High(s[n - 1]) ==> Low(s[n]); }
    SliceWellFormed(s, 0, n);
    assert s[0..n] == FirstLine(s);
  }

  /** Texts set apart by something that holds no half of a pair. */
  lemma SeparatedIff(a: Text, b: Text)
    ensures WellFormed(a + DOT + b) <==> WellFormed(a) && WellFormed(b)
  {
    var s := a + DOT + b;
    var n, m := |a|, |a| + |DOT|;
    assert forall i | 0 <= i < |DOT| :: !High(DOT[i]) && !Low(DOT[i]) && s[n + i] == DOT[i];
    assert s[..n] == a && s[m..] == b;
    if WellFormed(s) {
      assert s[n] == DOT[0] && s[m - 1] == DOT[|DOT| - 1];
      assert !Low(s[n]) && !High(s[m - 1]);
      SliceWellFormed(s, 0, n);
      SliceWellFormed(s, m, |s|);
      assert s[0..n] == a && s[m..|s|] == b;
    }
    if WellFormed(a) && WellFormed(b) {
      assert WellFormed(DOT);
      ConcatWellFormed(a, DOT);
      ConcatWellFormed(a + DOT, b);
    }
  }

  lemma {:induction false} JoinedIff(parts: seq<Text>)
    ensures WellFormed(JoinWith(NonEmpty(parts), DOT)) <==> forall i | 0 <= i < |parts| :: WellFormed(parts[i])
  {
    if parts != [] {
      var rest := NonEmpty(parts[1..]);
      JoinedIff(parts[1..]);
      assert (forall i | 0 <= i < |parts| :: WellFormed(parts[i])) <==>
             WellFormed(parts[0]) && forall i | 0 <= i < |parts[1..]| :: WellFormed(parts[1..][i]);
      if parts[0] != [] && rest != [] {
        assert ([parts[0]] + rest)[1..] == rest;
        SeparatedIff(parts[0], JoinWith(rest, DOT));
      } else if parts[0] != [] {
        assert [parts[0]] + rest == [parts[0]];
      } else {
        assert [] + rest == rest;
      }
    }
  }

  /**
   Not so the prefix of a thread, which cuts its date at 10 code units and its first line
   at 80 wherever that falls: it comes out well-formed exactly when neither cut falls
   inside a pair.
   */
  lemma ThreadPrefixIsWellFormedIff(doc: Chunkable)
    requires doc.segments != [] && WellFormed(doc.containerName) && WellFormed(doc.segments[0].text)
    requires WellFormed(Or(doc.segments[0].at))
    ensures var date, line := Or(doc.segments[0].at), FirstLine(doc.segments[0].text);
            WellFormed(ThreadPrefix(doc)) <==>
              (|date| <= 10 || !High(date[9])) && (|line| <= 80 || !High(line[79]))
  {
    var line := FirstLine(doc.segments[0].text);
    var parts := [HASH + doc.containerName, DateOf(doc), Cut(line, 80)];
    FirstLineWellFormed(doc.segments[0].text);
    CutIsWellFormedIff(Or(doc.segments[0].at), 10);
    CutIsWellFormedIff(line, 80);
    ConcatWellFormed(HASH, doc.containerName);
    JoinedIff(parts);
    assert parts[0] == HASH + doc.containerName && parts[1] == DateOf(doc) && parts[2] == Cut(line, 80);
  }

  lemma {:induction false} FirstLineIsWhole(s: Text)
    requires forall i | 0 <= i < |s| :: s[i] != NEWLINE
    ensures FirstLine(s) == s
  {
    if s != [] { FirstLineIsWhole(s[1..]); }
  }

  /** Seventy-nine letters and then a pair. */
  const LONG_LINE: Text := seq(79, _ => 97) + [0xD83D, 0xDE00]

  /** An input: a first line with a pair across its eightieth place leaves half of it in the prefix. */
  lemma PairIsCut(doc: Chunkable, first: Segment)
    requires doc.segments == [first] && first.text == LONG_LINE && first.at.None? && WellFormed(doc.containerName)
    ensures WellFormed(LONG_LINE) && !WellFormed(ThreadPrefix(doc))
  {
    assert forall i | 0 <= i < 79 :: LONG_LINE[i] == 97;
    FirstLineIsWhole(LONG_LINE);
    assert High(LONG_LINE[79]) && Low(LONG_LINE[80]);
    ThreadPrefixIsWellFormedIff(doc);
  }
}
