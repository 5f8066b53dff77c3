/**
 A document cut into the chunks that are embedded and searched: grouped by its kind,
 packed into windows, each rendered under the group's prefix.
 */
module Chunking {
  import opened Wrappers
  import opened Documents
  import opened Sequences
  import opened Texts
  import opened SplitText
  import opened Packing

  /** Dates as the host reads them: a text's time, or nothing for a text that is no date. */
  datatype Clock = Clock(parse: Text -> Option<int>, stamp: (Text, bool) -> Text)

  datatype Options = Options(sizes: Sizes, gapMinutes: nat, clock: Clock)

  datatype Group = Group(prefix: Text, pieces: seq<Piece>, overlap: nat)

  datatype ChunkDraft = ChunkDraft(
    num: nat, segmentKeys: seq<Text>, url: Option<Text>, occurredAt: Option<Text>,
    prefix: Text, text: Text, textHash: Text, tokenEstimate: nat)

  const ARROW: Text := [32, 0x203A, 32]
  const DOT: Text := [32, 0xB7, 32]
  const HASH: Text := [35]
  const SPACE: Text := [32]

  // --- Rendering -------------------------------------------------------------

  function PieceOf(s: Segment, text: Text): Piece { Piece(s.key, s.url, s.at, text) }

  function Or(text: Option<Text>): Text { if text.Some? then text.value else [] }

  /** Author and time in front of the text; comments get the date too, and a line of their own. */
  function RenderAuthored(s: Segment, withDate: bool, clock: Clock): Text {
    var stamp := if Or(s.at) != [] then clock.stamp(s.at.value, withDate) else [];
    var who := Or(s.authorName);
    if who == [] && stamp == [] then s.text
    else
      var head := who + (if stamp != [] then [32, 40] + stamp + [41] else []) + [58];
      if withDate then head + [NEWLINE] + s.text else head + SPACE + s.text
  }

  /** How a document of this kind shows its `i`th segment. */
  function Rendered(doc: Chunkable, i: nat, clock: Clock): Text
    requires i < |doc.segments|
  {
    var s := doc.segments[i];
    match doc.kind
    case ConfluencePage => s.text
    case GithubDoc => s.text
    case SlackThread => RenderAuthored(s, false, clock)
    case SlackChannelDay => RenderAuthored(s, false, clock)
    case _ => if i == 0 then s.text else RenderAuthored(s, true, clock)
  }

  function RenderedPiece(doc: Chunkable, clock: Clock, i: nat): Piece
    requires i < |doc.segments|
  {
    PieceOf(doc.segments[i], Rendered(doc, i, clock))
  }

  /** The document's pieces from `from` up to `to`. */
  function PiecesOf(doc: Chunkable, clock: Clock, from: nat, to: nat): (pieces: seq<Piece>)
    requires from <= to <= |doc.segments|
    ensures |pieces| == to - from
    ensures forall i | 0 <= i < to - from :: pieces[i] == RenderedPiece(doc, clock, from + i)
  {
    seq(to - from, i requires 0 <= i < to - from => RenderedPiece(doc, clock, from + i))
  }

  // --- Prefixes --------------------------------------------------------------

  function JoinWith(parts: seq<Text>, sep: Text): Text {
    if parts == [] then [] else if |parts| == 1 then parts[0] else parts[0] + sep + JoinWith(parts[1..], sep)
  }

  function NonEmpty(parts: seq<Text>): seq<Text> {
    if parts == [] then [] else (if parts[0] == [] then [] else [parts[0]]) + NonEmpty(parts[1..])
  }

  function Cut(s: Text, n: nat): Text { if |s| <= n then s else s[..n] }

  function FirstLine(s: Text): Text {
    if s == [] || s[0] == NEWLINE then [] else [s[0]] + FirstLine(s[1..])
  }

  function HeadingOf(s: Segment): seq<Text> { if s.headingPath.Some? then s.headingPath.value else [] }

  function IssuePrefix(doc: Chunkable): Text {
    JoinWith(NonEmpty([doc.reference, doc.title]), SPACE) + DOT + doc.containerName
  }

  function DateOf(doc: Chunkable): Text {
    if doc.segments == [] then [] else Cut(Or(doc.segments[0].at), 10)
  }

  function ThreadPrefix(doc: Chunkable): Text {
    var first := if doc.segments == [] then [] else doc.segments[0].text;
    JoinWith(NonEmpty([HASH + doc.containerName, DateOf(doc), Cut(FirstLine(first), 80)]), DOT)
  }

  function DayPrefix(doc: Chunkable): Text {
    JoinWith(NonEmpty([HASH + doc.containerName, DateOf(doc)]), DOT)
  }

  // --- Grouping --------------------------------------------------------------

  /** Another group, or one more piece in the last one. */
  function Put(groups: seq<Group>, split: bool, prefix: Text, p: Piece): (after: seq<Group>)
    ensures after != []
  {
    if split || groups == [] then groups + [Group(prefix, [p], 0)]
    else
      var last := groups[|groups| - 1];
      groups[..|groups| - 1] + [last.(pieces := last.pieces + [p])]
  }

  function PathOf(s: Segment): Text { JoinWith(HeadingOf(s), ARROW) }

  /** The segment stands under another heading than the one before. */
  predicate HeadingChanges(doc: Chunkable, i: nat)
    requires i < |doc.segments|
  {
    i == 0 || PathOf(doc.segments[i]) != PathOf(doc.segments[i - 1])
  }

  function HeadingPrefix(doc: Chunkable, i: nat): Text
    requires i < |doc.segments|
  {
    JoinWith([doc.title] + HeadingOf(doc.segments[i]), ARROW)
  }

  /** Segments under one heading stay together. */
  function ByHeading(doc: Chunkable, clock: Clock, n: nat): seq<Group>
    requires n <= |doc.segments|
  {
    if n == 0 then []
    else Put(ByHeading(doc, clock, n - 1), HeadingChanges(doc, n - 1), HeadingPrefix(doc, n - 1),
             RenderedPiece(doc, clock, n - 1))
  }

  /** When the last dated segment was; a date that cannot be read leaves no time to compare. */
  function LastAt(doc: Chunkable, clock: Clock, n: nat): Option<int>
    requires n <= |doc.segments|
  {
    if n == 0 then None
    else
      var s := doc.segments[n - 1];
      if Or(s.at) != [] then clock.parse(s.at.value) else LastAt(doc, clock, n - 1)
  }

  predicate Pause(last: Option<int>, at: Option<int>, gapMinutes: nat) {
    last.Some? && at.Some? && at.value - last.value > gapMinutes * 60_000
  }

  function TimeOf(s: Segment, clock: Clock): Option<int> {
    if Or(s.at) != [] then clock.parse(s.at.value) else None
  }

  /** Nobody wrote for longer than the gap before this segment. */
  predicate PausesAt(doc: Chunkable, options: Options, i: nat)
    requires i < |doc.segments|
  {
    Pause(LastAt(doc, options.clock, i), TimeOf(doc.segments[i], options.clock), options.gapMinutes)
  }

  /** Messages stay together until nobody wrote for longer than the gap. */
  function ByPause(doc: Chunkable, options: Options, n: nat): seq<Group>
    requires n <= |doc.segments|
  {
    if n == 0 then []
    else Put(ByPause(doc, options, n - 1), PausesAt(doc, options, n - 1), DayPrefix(doc),
             RenderedPiece(doc, options.clock, n - 1))
  }

  function IssueGroups(doc: Chunkable, clock: Clock): seq<Group> {
    var n := |doc.segments|;
    var prefix := IssuePrefix(doc);
    (if n > 0 then [Group(prefix, PiecesOf(doc, clock, 0, 1), 0)] else [])
    + (if n > 1 then [Group(prefix, PiecesOf(doc, clock, 1, n), 0)] else [])
  }

  function GroupsOf(doc: Chunkable, options: Options): seq<Group> {
    var n := |doc.segments|;
    match doc.kind
    case ConfluencePage => ByHeading(doc, options.clock, n)
    case GithubDoc => ByHeading(doc, options.clock, n)
    case SlackThread => [Group(ThreadPrefix(doc), PiecesOf(doc, options.clock, 0, n), 1)]
    case SlackChannelDay => ByPause(doc, options, n)
    case _ => IssueGroups(doc, options.clock)
  }

  function PiecesIn(g: Group): seq<Piece> { g.pieces }

  /** The pieces of all groups, one after the other. */
  function AllPieces(groups: seq<Group>): seq<Piece> { FlatMap(PiecesIn, groups, |groups|) }

  lemma PutKeeps(groups: seq<Group>, split: bool, prefix: Text, p: Piece)
    ensures AllPieces(Put(groups, split, prefix, p)) == AllPieces(groups) + [p]
    ensures (forall g <- groups :: g.overlap == 0) ==> forall g <- Put(groups, split, prefix, p) :: g.overlap == 0
  {
    if split || groups == [] {
      FlatMapPush(PiecesIn, groups, Group(prefix, [p], 0));
    } else {
      var before, last := groups[..|groups| - 1], groups[|groups| - 1];
      assert groups == before + [last];
      FlatMapPush(PiecesIn, before, last);
      FlatMapPush(PiecesIn, before, last.(pieces := last.pieces + [p]));
      Assoc(AllPieces(before), last.pieces, [p]);
    }
  }

  /** So far the groups hold the first `n` segments, and none overlaps. */
  ghost predicate Holds(groups: seq<Group>, doc: Chunkable, clock: Clock, n: nat) {
    && n <= |doc.segments|
    && AllPieces(groups) == PiecesOf(doc, clock, 0, n)
    && forall g <- groups :: g.overlap == 0
  }

  lemma PutNext(groups: seq<Group>, doc: Chunkable, clock: Clock, n: nat, split: bool, prefix: Text)
    requires Holds(groups, doc, clock, n) && n < |doc.segments|
    ensures Holds(Put(groups, split, prefix, RenderedPiece(doc, clock, n)), doc, clock, n + 1)
  {
    var p := RenderedPiece(doc, clock, n);
    PutKeeps(groups, split, prefix, p);
    assert PiecesOf(doc, clock, 0, n + 1) == PiecesOf(doc, clock, 0, n) + [p];
  }

  lemma {:induction false} ByHeadingKeeps(doc: Chunkable, clock: Clock, n: nat)
    requires n <= |doc.segments|
    ensures Holds(ByHeading(doc, clock, n), doc, clock, n)
  {
    if n > 0 {
      ByHeadingKeeps(doc, clock, n - 1);
      PutNext(ByHeading(doc, clock, n - 1), doc, clock, n - 1, HeadingChanges(doc, n - 1), HeadingPrefix(doc, n - 1));
    }
  }

  lemma {:induction false} ByPauseKeeps(doc: Chunkable, options: Options, n: nat)
    requires n <= |doc.segments|
    ensures Holds(ByPause(doc, options, n), doc, options.clock, n)
  {
    if n > 0 {
      ByPauseKeeps(doc, options, n - 1);
      PutNext(ByPause(doc, options, n - 1), doc, options.clock, n - 1, PausesAt(doc, options, n - 1), DayPrefix(doc));
    }
  }

  lemma TwoGroups(a: Group, b: Group)
    ensures AllPieces([a]) == a.pieces && AllPieces([a, b]) == a.pieces + b.pieces
  {
    FlatMapPush(PiecesIn, [], a);
    FlatMapPush(PiecesIn, [a], b);
    assert [] + [a] == [a] && [a] + [b] == [a, b];
  }

  lemma IssueGroupsKeep(doc: Chunkable, clock: Clock)
    ensures Holds(IssueGroups(doc, clock), doc, clock, |doc.segments|)
  {
    var n := |doc.segments|;
    if n > 0 {
      var prefix := IssuePrefix(doc);
      var header := Group(prefix, PiecesOf(doc, clock, 0, 1), 0);
      if n == 1 {
        TwoGroups(header, header);
        assert IssueGroups(doc, clock) == [header];
      } else {
        var comments := Group(prefix, PiecesOf(doc, clock, 1, n), 0);
        TwoGroups(header, comments);
        assert IssueGroups(doc, clock) == [header, comments];
        assert PiecesOf(doc, clock, 0, n) == PiecesOf(doc, clock, 0, 1) + PiecesOf(doc, clock, 1, n);
      }
    }
  }

  /** Grouping loses and reorders nothing, whatever the kind; only threads overlap, by one. */
  lemma GroupsKeepPieces(doc: Chunkable, options: Options)
    ensures var groups := GroupsOf(doc, options);
            && AllPieces(groups) == PiecesOf(doc, options.clock, 0, |doc.segments|)
            && (forall g <- groups :: g.overlap <= (if doc.kind.SlackThread? then 1 else 0))
  {
    ByHeadingKeeps(doc, options.clock, |doc.segments|);
    ByPauseKeeps(doc, options, |doc.segments|);
    IssueGroupsKeep(doc, options.clock);
    if doc.kind.SlackThread? {
      var thread := Group(ThreadPrefix(doc), PiecesOf(doc, options.clock, 0, |doc.segments|), 1);
      TwoGroups(thread, thread);
    }
  }

  // --- As the program does it ------------------------------------------------

  /** A new group where `split` says so, and the piece in the last one. */
  method PutPiece(groups: seq<Group>, split: bool, prefix: Text, p: Piece) returns (after: seq<Group>)
    ensures after == Put(groups, split, prefix, p)
  {
    after := groups;
    if split || |groups| == 0 { after := after + [Group(prefix, [], 0)]; }
    var before, last := after[..|after| - 1], after[|after| - 1];
    after := before + [last.(pieces := last.pieces + [p])];
    assert split || |groups| == 0 ==> before == groups && last.pieces + [p] == [p];
  }

  method GroupByHeading(doc: Chunkable, clock: Clock) returns (groups: seq<Group>)
    ensures groups == ByHeading(doc, clock, |doc.segments|)
  {
    groups := [];
    var currentPath: Option<Text> := None;
    for i := 0 to |doc.segments|
      invariant groups == ByHeading(doc, clock, i) && (i > 0 ==> groups != [])
      invariant currentPath == if i == 0 then None else Some(PathOf(doc.segments[i - 1]))
    {
      var segment := doc.segments[i];
      var path := JoinWith(HeadingOf(segment), ARROW);
      groups := PutPiece(groups, Some(path) != currentPath, JoinWith([doc.title] + HeadingOf(segment), ARROW),
                         PieceOf(segment, Rendered(doc, i, clock)));
      currentPath := Some(path);
    }
  }

  method GroupChannelDay(doc: Chunkable, options: Options) returns (groups: seq<Group>)
    ensures groups == ByPause(doc, options, |doc.segments|)
  {
    groups := [];
    var lastAt: Option<int> := None;
    for i := 0 to |doc.segments|
      invariant groups == ByPause(doc, options, i)
      invariant lastAt == LastAt(doc, options.clock, i)
    {
      var segment := doc.segments[i];
      var at := TimeOf(segment, options.clock);
      groups := PutPiece(groups, Pause(lastAt, at, options.gapMinutes), DayPrefix(doc),
                         PieceOf(segment, Rendered(doc, i, options.clock)));
      if Or(segment.at) != [] { lastAt := at; }
    }
  }

  method GroupSegments(doc: Chunkable, options: Options) returns (groups: seq<Group>)
    ensures groups == GroupsOf(doc, options)
  {
    match doc.kind {
      case ConfluencePage => groups := GroupByHeading(doc, options.clock);
      case GithubDoc => groups := GroupByHeading(doc, options.clock);
      case SlackChannelDay => groups := GroupChannelDay(doc, options);
      case _ => groups := GroupsOf(doc, options);
    }
  }
}
