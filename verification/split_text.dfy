/**
 Long text cut to size: at paragraphs first, then at sentences, then anywhere but inside
 a surrogate pair. `SplitOf` says what the parts are; the lemmas, what they are worth.
 */
module SplitText {
  import opened Documents
  import opened Sequences
  import opened Texts

  // --- Splitting at a separator ----------------------------------------------

  /** Where the first run of two or more newlines begins; the length if there is none. */
  function FirstBreak(s: Text, from: nat): (k: nat)
    requires from <= |s|
    ensures from <= k <= |s|
    ensures k < |s| ==> k + 1 < |s| && s[k] == NEWLINE && s[k + 1] == NEWLINE
    decreases |s| - from
  {
    if from + 1 >= |s| then |s|
    else if s[from] == NEWLINE && s[from + 1] == NEWLINE then from
    else FirstBreak(s, from + 1)
  }

  /** Where the first white space directly after the end of a sentence begins. */
  function FirstGap(s: Text, from: nat): (k: nat)
    requires 1 <= from
    ensures k <= |s|
    ensures k < |s| ==> k >= from && EndsSentence(s[k - 1]) && IsSpace(s[k])
    decreases |s| - from
  {
    if from >= |s| then |s|
    else if EndsSentence(s[from - 1]) && IsSpace(s[from]) then from
    else FirstGap(s, from + 1)
  }

  function SkipNewlines(s: Text, from: nat): (to: nat)
    requires from <= |s|
    ensures from <= to <= |s| && (from < |s| && s[from] == NEWLINE ==> to > from)
    ensures forall i | from <= i < to :: s[i] == NEWLINE
    decreases |s| - from
  {
    if from < |s| && s[from] == NEWLINE then SkipNewlines(s, from + 1) else from
  }

  function SkipSpace(s: Text, from: nat): (to: nat)
    requires from <= |s|
    ensures from <= to <= |s| && (from < |s| && IsSpace(s[from]) ==> to > from)
    ensures forall i | from <= i < to :: IsSpace(s[i])
    decreases |s| - from
  {
    if from < |s| && IsSpace(s[from]) then SkipSpace(s, from + 1) else from
  }

  /** text.split(/\n{2,}/) */
  function Paragraphs(s: Text): seq<Text>
    decreases |s|
  {
    var k := FirstBreak(s, 0);
    if k == |s| then [s] else [s[..k]] + Paragraphs(s[SkipNewlines(s, k)..])
  }

  /** paragraph.split(/(?<=[.!?])\s+/) */
  function Sentences(s: Text): seq<Text>
    decreases |s|
  {
    var k := FirstGap(s, 1);
    if k == |s| then [s] else [s[..k]] + Sentences(s[SkipSpace(s, k)..])
  }

  /** Cutting out white space loses no ink and breaks no pair. */
  lemma CutKeeps(s: Text, from: nat, to: nat)
    requires from < to <= |s| && forall i | from <= i < to :: IsSpace(s[i])
    ensures Ink(s) == Ink(s[..from]) + Ink(s[to..])
    ensures WellFormed(s) ==> WellFormed(s[..from]) && WellFormed(s[to..])
  {
    InkOfCut(s, from, to);
    if WellFormed(s) {
      assert !Low(s[from]) && !High(s[to - 1]);
      SliceWellFormed(s, 0, from);
      SliceWellFormed(s, to, |s|);
    }
  }

  lemma {:induction false} ParagraphsKeep(s: Text)
    ensures InkOf(Paragraphs(s)) == Ink(s)
    ensures WellFormed(s) ==> AllWellFormed(Paragraphs(s))
    decreases |s|
  {
    var k := FirstBreak(s, 0);
    if k == |s| {
      InkOfOne(s);
    } else {
      var to := SkipNewlines(s, k);
      CutKeeps(s, k, to);
      ParagraphsKeep(s[to..]);
      InkOfConcat([s[..k]], Paragraphs(s[to..]));
      InkOfOne(s[..k]);
    }
  }

  lemma {:induction false} SentencesKeep(s: Text)
    ensures InkOf(Sentences(s)) == Ink(s)
    ensures WellFormed(s) ==> AllWellFormed(Sentences(s))
    decreases |s|
  {
    var k := FirstGap(s, 1);
    if k == |s| {
      InkOfOne(s);
    } else {
      var to := SkipSpace(s, k);
      CutKeeps(s, k, to);
      SentencesKeep(s[to..]);
      InkOfConcat([s[..k]], Sentences(s[to..]));
      InkOfOne(s[..k]);
    }
  }

  // --- The hard cut ----------------------------------------------------------

  /** Where a part of at most `max` units ends: not behind the first half of a pair. */
  function CutAt(s: Text, max: nat): (end: nat)
    requires s != [] && max >= 2
    ensures 1 <= end <= |s| && end <= max
  {
    var end := if max < |s| then max else |s|;
    if end < |s| && High(s[end - 1]) then end - 1 else end
  }

  function HardCuts(s: Text, max: nat): seq<Text>
    requires max >= 2
    decreases |s|
  {
    if s == [] then [] else [s[..CutAt(s, max)]] + HardCuts(s[CutAt(s, max)..], max)
  }

  /** Parts the chunker may store: not empty and not too long. */
  ghost predicate Sized(parts: seq<Text>, max: nat) {
    forall part <- parts :: 0 < |part| <= max
  }

  lemma SizedConcat(a: seq<Text>, b: seq<Text>, max: nat)
    requires Sized(a, max) && Sized(b, max)
    ensures Sized(a + b, max)
  {
  }

  lemma CutHardKeeps(s: Text, max: nat)
    requires s != [] && max >= 2
    ensures var end := CutAt(s, max);
            && Ink(s) == Ink(s[..end]) + Ink(s[end..])
            && (WellFormed(s) ==> WellFormed(s[..end]) && WellFormed(s[end..]))
  {
    var end := CutAt(s, max);
    assert s == s[..end] + s[end..];
    InkConcat(s[..end], s[end..]);
    if WellFormed(s) {
      assert end < |s| ==> !High(s[end - 1]);
      SliceWellFormed(s, 0, end);
      SliceWellFormed(s, end, |s|);
    }
  }

  lemma {:induction false} HardCutsKeep(s: Text, max: nat)
    requires max >= 2
    ensures InkOf(HardCuts(s, max)) == Ink(s)
    ensures Sized(HardCuts(s, max), max)
    ensures WellFormed(s) ==> AllWellFormed(HardCuts(s, max))
    decreases |s|
  {
    if s != [] {
      var head, rest := s[..CutAt(s, max)], s[CutAt(s, max)..];
      CutHardKeeps(s, max);
      HardCutsKeep(rest, max);
      if WellFormed(s) { AllWellFormedConcat([head], HardCuts(rest, max)); }
      SizedConcat([head], HardCuts(rest, max), max);
      InkOfConcat([head], HardCuts(rest, max));
      InkOfOne(head);
    }
  }

  // --- Filling parts ---------------------------------------------------------

  datatype Splitting = Splitting(out: seq<Text>, buffer: Text)

  function Flush(st: Splitting): Splitting {
    Splitting(if |Trim(st.buffer)| > 0 then st.out + [Trim(st.buffer)] else st.out, [])
  }

  /** Where one paragraph or sentence goes. */
  function Take(st: Splitting, unit: Text, max: nat): Splitting
    requires max >= 2
  {
    if |unit| > max then Flush(st).(out := Flush(st).out + HardCuts(unit, max))
    else
      var room := if |st.buffer + BREAK + unit| > max then Flush(st) else st;
      room.(buffer := if room.buffer != [] then room.buffer + BREAK + unit else unit)
  }

  /** The same for the first `n` of them. */
  function TakeAll(st: Splitting, units: seq<Text>, n: nat, max: nat): Splitting
    requires n <= |units| && max >= 2
  {
    if n == 0 then st else Take(TakeAll(st, units, n - 1, max), units[n - 1], max)
  }

  function UnitsOf(paragraph: Text, max: nat): seq<Text> {
    if |paragraph| <= max then [paragraph] else Sentences(paragraph)
  }

  function TakeParagraphs(paragraphs: seq<Text>, n: nat, max: nat): Splitting
    requires n <= |paragraphs| && max >= 2
  {
    if n == 0 then Splitting([], [])
    else
      var units := UnitsOf(paragraphs[n - 1], max);
      TakeAll(TakeParagraphs(paragraphs, n - 1, max), units, |units|, max)
  }

  function SplitOf(text: Text, maxTokens: nat): seq<Text>
    requires maxTokens >= 1
  {
    Flush(TakeParagraphs(Paragraphs(text), |Paragraphs(text)|, 4 * maxTokens)).out
  }

  /** What has been taken: everything is in `out` or still in the buffer, and fits. */
  ghost predicate Holds(st: Splitting, taken: Text, max: nat, whole: bool) {
    && InkOf(st.out) + Ink(st.buffer) == taken
    && Sized(st.out, max) && |st.buffer| <= max
    && (whole ==> AllWellFormed(st.out) && WellFormed(st.buffer))
  }

  lemma FlushKeeps(st: Splitting, taken: Text, max: nat, whole: bool)
    requires Holds(st, taken, max, whole)
    ensures Holds(Flush(st), taken, max, whole)
  {
    TrimKeeps(st.buffer);
    var t := Trim(st.buffer);
    assert Ink([]) == [];
    if |t| > 0 {
      InkOfConcat(st.out, [t]);
      InkOfOne(t);
      SizedConcat(st.out, [t], max);
      if whole { AllWellFormedConcat(st.out, [t]); }
    } else {
      assert Ink(st.buffer) == [];
    }
  }

  lemma TakeCutKeeps(st: Splitting, cuts: seq<Text>, unit: Text, taken: Text, max: nat, whole: bool)
    requires Holds(st, taken, max, whole) && st.buffer == []
    requires InkOf(cuts) == Ink(unit) && Sized(cuts, max) && (whole ==> AllWellFormed(cuts))
    ensures Holds(st.(out := st.out + cuts), taken + Ink(unit), max, whole)
  {
    InkOfConcat(st.out, cuts);
    SizedConcat(st.out, cuts, max);
    if whole { AllWellFormedConcat(st.out, cuts); }
    assert Ink(st.buffer) == [];
    assert InkOf(st.out) == taken;
  }

  /** A unit joins what is in the buffer, behind an empty line. */
  lemma JoinKeeps(st: Splitting, unit: Text, taken: Text, max: nat, whole: bool)
    requires Holds(st, taken, max, whole) && (whole ==> WellFormed(unit))
    requires st.buffer != [] && |st.buffer + BREAK + unit| <= max
    ensures Holds(st.(buffer := st.buffer + BREAK + unit), taken + Ink(unit), max, whole)
  {
    InkBesideSpace(st.buffer, BREAK, unit);
    assert InkOf(st.out) + (Ink(st.buffer) + Ink(unit)) == taken + Ink(unit);
    if whole {
      ConcatWellFormed(st.buffer, BREAK);
      ConcatWellFormed(st.buffer + BREAK, unit);
    }
  }

  lemma TakeKeeps(st: Splitting, unit: Text, taken: Text, max: nat, whole: bool)
    requires max >= 2 && Holds(st, taken, max, whole) && (whole ==> WellFormed(unit))
    ensures Holds(Take(st, unit, max), taken + Ink(unit), max, whole)
  {
    FlushKeeps(st, taken, max, whole);
    if |unit| > max {
      HardCutsKeep(unit, max);
      TakeCutKeeps(Flush(st), HardCuts(unit, max), unit, taken, max, whole);
    } else {
      var room := if |st.buffer + BREAK + unit| > max then Flush(st) else st;
      if room.buffer != [] {
        JoinKeeps(room, unit, taken, max, whole);
      } else {
        assert Ink(room.buffer) == [] && InkOf(room.out) == taken;
      }
    }
  }

  lemma {:induction false} TakeAllKeeps(
      st: Splitting, units: seq<Text>, n: nat, taken: Text, max: nat, whole: bool)
    requires n <= |units| && max >= 2 && Holds(st, taken, max, whole) && (whole ==> AllWellFormed(units))
    ensures Holds(TakeAll(st, units, n, max), taken + InkOfTo(units, n), max, whole)
  {
    if n > 0 {
      TakeAllKeeps(st, units, n - 1, taken, max, whole);
      TakeKeeps(TakeAll(st, units, n - 1, max), units[n - 1], taken + InkOfTo(units, n - 1), max, whole);
      Assoc(taken, InkOfTo(units, n - 1), Ink(units[n - 1]));
    }
  }

  lemma UnitsKeep(paragraph: Text, max: nat)
    ensures InkOf(UnitsOf(paragraph, max)) == Ink(paragraph)
    ensures WellFormed(paragraph) ==> AllWellFormed(UnitsOf(paragraph, max))
  {
    InkOfOne(paragraph);
    SentencesKeep(paragraph);
  }

  lemma {:induction false} TakeParagraphsKeeps(paragraphs: seq<Text>, n: nat, max: nat, whole: bool)
    requires n <= |paragraphs| && max >= 2 && (whole ==> AllWellFormed(paragraphs))
    ensures Holds(TakeParagraphs(paragraphs, n, max), InkOfTo(paragraphs, n), max, whole)
  {
    if n > 0 {
      var units := UnitsOf(paragraphs[n - 1], max);
      UnitsKeep(paragraphs[n - 1], max);
      TakeParagraphsKeeps(paragraphs, n - 1, max, whole);
      TakeAllKeeps(TakeParagraphs(paragraphs, n - 1, max), units, |units|, InkOfTo(paragraphs, n - 1), max, whole);
    }
  }

  /**
   Every part is non-empty and fits; nothing but white space is lost, and nothing moves;
   well-formed text comes out as well-formed parts.
   */
  lemma SplitLosesNothing(text: Text, maxTokens: nat)
    requires maxTokens >= 1
    ensures Sized(SplitOf(text, maxTokens), 4 * maxTokens)
    ensures InkOf(SplitOf(text, maxTokens)) == Ink(text)
    ensures WellFormed(text) ==> AllWellFormed(SplitOf(text, maxTokens))
  {
    var max := 4 * maxTokens;
    var whole := if WellFormed(text) then true else false;
    ParagraphsKeep(text);
    TakeParagraphsKeeps(Paragraphs(text), |Paragraphs(text)|, max, whole);
    var st := TakeParagraphs(Paragraphs(text), |Paragraphs(text)|, max);
    FlushKeeps(st, Ink(text), max, whole);
    assert Flush(st).buffer == [] && Ink([]) == [];
  }

  // --- As the program does it ------------------------------------------------

  lemma HardCutsNext(unit: Text, i: nat, end: nat, max: nat)
    requires max >= 2 && i < end <= |unit| && end - i == CutAt(unit[i..], max)
    ensures HardCuts(unit[i..], max) == [unit[i..end]] + HardCuts(unit[end..], max)
  {
    assert unit[i..][..end - i] == unit[i..end];
    assert unit[i..][end - i..] == unit[end..];
  }

  method CutHard(unit: Text, max: nat) returns (parts: seq<Text>)
    requires max >= 2
    ensures parts == HardCuts(unit, max)
  {
    parts := [];
    var i := 0;
    while i < |unit|
      invariant i <= |unit|
      invariant parts + HardCuts(unit[i..], max) == HardCuts(unit, max)
      decreases |unit| - i
    {
      var end := if i + max < |unit| then i + max else |unit|;
      var last := unit[end - 1];
      if end < |unit| && High(last) { end := end - 1; }
      HardCutsNext(unit, i, end, max);
      Assoc(parts, [unit[i..end]], HardCuts(unit[end..], max));
      parts := parts + [unit[i..end]];
      i := end;
    }
  }

  /** One paragraph or sentence, added to the parts and the buffer as they are. */
  method TakeUnit(parts: seq<Text>, filled: Text, unit: Text, max: nat) returns (out: seq<Text>, buffer: Text)
    requires max >= 2
    ensures Splitting(out, buffer) == Take(Splitting(parts, filled), unit, max)
  {
    out, buffer := parts, filled;
    if |unit| > max || |buffer + BREAK + unit| > max {
      if |Trim(buffer)| > 0 { out := out + [Trim(buffer)]; }
      buffer := [];
    }
    if |unit| > max {
      var cuts := CutHard(unit, max);
      out := out + cuts;
    } else {
      buffer := if buffer != [] then buffer + BREAK + unit else unit;
    }
  }

  method TakeUnits(parts: seq<Text>, filled: Text, units: seq<Text>, max: nat) returns (out: seq<Text>, buffer: Text)
    requires max >= 2
    ensures Splitting(out, buffer) == TakeAll(Splitting(parts, filled), units, |units|, max)
  {
    out, buffer := parts, filled;
    for k := 0 to |units|
      invariant Splitting(out, buffer) == TakeAll(Splitting(parts, filled), units, k, max)
    {
      out, buffer := TakeUnit(out, buffer, units[k], max);
    }
  }

  lemma TakeParagraphsNext(paragraphs: seq<Text>, p: nat, max: nat)
    requires p < |paragraphs| && max >= 2
    ensures TakeParagraphs(paragraphs, p + 1, max) ==
            TakeAll(TakeParagraphs(paragraphs, p, max), UnitsOf(paragraphs[p], max), |UnitsOf(paragraphs[p], max)|, max)
  {
  }

  method SplitLongText(text: Text, maxTokens: nat) returns (out: seq<Text>)
    requires maxTokens >= 1
    ensures out == SplitOf(text, maxTokens)
  {
    var max := maxTokens * 4;
    out := [];
    var buffer: Text := [];
    var paragraphs := Paragraphs(text);
    for p := 0 to |paragraphs|
      invariant Splitting(out, buffer) == TakeParagraphs(paragraphs, p, max)
    {
      var units := UnitsOf(paragraphs[p], max);
      TakeParagraphsNext(paragraphs, p, max);
      out, buffer := TakeUnits(out, buffer, units, max);
    }
    if |Trim(buffer)| > 0 { out := out + [Trim(buffer)]; }
  }
}
