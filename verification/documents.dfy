/**
 A document of the knowledge layer as its source gives it, and the chunks stored for
 it. Text is UTF-16 code units, as the program's strings are.
 */
module Documents {
  import opened Wrappers

  type Unit = u: int | 0 <= u < 0x1_0000
  type Text = seq<Unit>
  type Vector = seq<real>

  datatype Kind =
    | ConfluencePage | GithubDoc
    | JiraIssue | GithubPullRequest | GithubIssue
    | SlackThread | SlackChannelDay

  datatype Segment = Segment(
    key: Text,
    headingPath: Option<seq<Text>>,
    author: Option<Text>,      // the author's id at the source
    authorName: Option<Text>,  // the display name when fetched
    at: Option<Text>,
    url: Option<Text>,
    text: Text)

  /** What the chunker reads: `reference` is the issue key or `#` and the number, if any. */
  datatype Chunkable = Chunkable(
    kind: Kind, title: Text, segments: seq<Segment>, reference: Text, containerName: Text)

  datatype Fingerprint = Fingerprint(title: Text, segments: seq<Segment>)

  function Unnamed(s: Segment): Segment { s.(authorName := None) }

  /**
   The content hash, taken as injective on what it covers: the title and the segments,
   without the authors' display names. Kind, reference and container are not covered.
   */
  function HashOf(title: Text, segments: seq<Segment>): Fingerprint {
    Fingerprint(title, seq(|segments|, i requires 0 <= i < |segments| => Unnamed(segments[i])))
  }

  datatype ChunkRow = ChunkRow(
    num: nat,
    segmentKeys: seq<Text>,
    url: Option<Text>,
    occurredAt: Option<Text>,
    prefix: Text,
    text: Text,
    textHash: Text,  // the hashed text itself: the hash is injective
    tokenEstimate: nat,
    embedding: Vector,
    model: string)
}
