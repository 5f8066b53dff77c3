/**
 UTF-16 text: white space as the program's trim and regular expressions see it, what is
 left without it, and well-formedness (section 3.9 of the Unicode Standard).
 */
module Texts {
  import opened Documents
  import opened Sequences

  const NEWLINE: Unit := 10
  const BREAK: Text := [NEWLINE, NEWLINE]

  predicate IsSpace(u: Unit) {
    || 9 <= u <= 13 || u == 32 || u == 0xA0 || u == 0x1680 || 0x2000 <= u <= 0x200A
    || u == 0x2028 || u == 0x2029 || u == 0x202F || u == 0x205F || u == 0x3000 || u == 0xFEFF
  }

  predicate EndsSentence(u: Unit) { u == 46 || u == 33 || u == 63 }

  predicate High(u: Unit) { 0xD800 <= u <= 0xDBFF }

  predicate Low(u: Unit) { 0xDC00 <= u <= 0xDFFF }

  /** Surrogates stand in pairs only: a high one directly before a low one. */
  ghost predicate WellFormed(s: Text) {
    && (forall i | 0 <= i < |s| :: High(s[i]) ==> i + 1 < |s| && Low(s[i + 1]))
    && (forall i | 0 <= i < |s| :: Low(s[i]) ==> i > 0 && High(s[i - 1]))
  }

  ghost predicate AllWellFormed(parts: seq<Text>) {
    forall part <- parts :: WellFormed(part)
  }

  lemma AllWellFormedConcat(a: seq<Text>, b: seq<Text>)
    requires AllWellFormed(a) && AllWellFormed(b)
    ensures AllWellFormed(a + b)
  {
  }

  function InkTo(s: Text, n: nat): Text
    requires n <= |s|
  {
    if n == 0 then [] else if IsSpace(s[n - 1]) then InkTo(s, n - 1) else InkTo(s, n - 1) + [s[n - 1]]
  }

  /** The text without its white space. */
  function Ink(s: Text): Text { InkTo(s, |s|) }

  function InkOfTo(parts: seq<Text>, n: nat): Text
    requires n <= |parts|
  {
    if n == 0 then [] else InkOfTo(parts, n - 1) + Ink(parts[n - 1])
  }

  function InkOf(parts: seq<Text>): Text { InkOfTo(parts, |parts|) }

  lemma {:induction false} InkToPrefix(a: Text, b: Text, n: nat)
    requires n <= |a|
    ensures InkTo(a + b, n) == InkTo(a, n)
  {
    if n > 0 { InkToPrefix(a, b, n - 1); }
  }

  lemma {:induction false} InkToConcat(a: Text, b: Text, n: nat)
    requires n <= |b|
    ensures InkTo(a + b, |a| + n) == Ink(a) + InkTo(b, n)
  {
    if n == 0 {
      InkToPrefix(a, b, |a|);
    } else {
      InkToConcat(a, b, n - 1);
    }
  }

  lemma InkConcat(a: Text, b: Text)
    ensures Ink(a + b) == Ink(a) + Ink(b)
  {
    InkToConcat(a, b, |b|);
  }

  lemma {:induction false} InkOfToConcat(a: seq<Text>, b: seq<Text>, n: nat)
    requires n <= |a| + |b|
    ensures InkOfTo(a + b, n) == if n <= |a| then InkOfTo(a, n) else InkOf(a) + InkOfTo(b, n - |a|)
  {
    if n > 0 {
      InkOfToConcat(a, b, n - 1);
      if n > |a| {
        assert (a + b)[n - 1] == b[n - 1 - |a|];
        Assoc(InkOf(a), InkOfTo(b, n - 1 - |a|), Ink(b[n - 1 - |a|]));
      }
    }
  }

  lemma InkOfConcat(a: seq<Text>, b: seq<Text>)
    ensures InkOf(a + b) == InkOf(a) + InkOf(b)
  {
    InkOfToConcat(a, b, |a| + |b|);
  }

  lemma InkOfOne(part: Text)
    ensures InkOf([part]) == Ink(part)
  {
    assert InkOfTo([part], 1) == InkOfTo([part], 0) + Ink(part);
  }

  lemma {:induction false} SpaceToHasNoInk(s: Text, n: nat)
    requires n <= |s| && forall i | 0 <= i < n :: IsSpace(s[i])
    ensures InkTo(s, n) == []
  {
    if n > 0 { SpaceToHasNoInk(s, n - 1); }
  }

  lemma SpaceHasNoInk(s: Text)
    requires forall i | 0 <= i < |s| :: IsSpace(s[i])
    ensures Ink(s) == []
  {
    SpaceToHasNoInk(s, |s|);
  }

  lemma InkBesideSpace(a: Text, space: Text, b: Text)
    requires forall i | 0 <= i < |space| :: IsSpace(space[i])
    ensures Ink(a + space + b) == Ink(a) + Ink(b)
  {
    InkConcat(a + space, b);
    InkConcat(a, space);
    SpaceHasNoInk(space);
  }

  lemma InkOfCut(s: Text, from: nat, to: nat)
    requires from <= to <= |s|
    requires forall i | from <= i < to :: IsSpace(s[i])
    ensures Ink(s) == Ink(s[..from]) + Ink(s[to..])
  {
    InkBesideSpace(s[..from], s[from..to], s[to..]);
    assert s == s[..from] + s[from..to] + s[to..];
  }

  function TrimStart(s: Text): Text {
    if s != [] && IsSpace(s[0]) then TrimStart(s[1..]) else s
  }

  function TrimEnd(s: Text): Text {
    if s != [] && IsSpace(s[|s| - 1]) then TrimEnd(s[..|s| - 1]) else s
  }

  function Trim(s: Text): Text { TrimEnd(TrimStart(s)) }

  lemma {:induction false} TrimStartKeeps(s: Text)
    ensures Ink(TrimStart(s)) == Ink(s) && |TrimStart(s)| <= |s|
    ensures WellFormed(s) ==> WellFormed(TrimStart(s))
  {
    if s != [] && IsSpace(s[0]) {
      InkOfCut(s, 0, 1);
      if WellFormed(s) { SliceWellFormed(s, 1, |s|); }
      TrimStartKeeps(s[1..]);
    }
  }

  lemma {:induction false} TrimEndKeeps(s: Text)
    ensures Ink(TrimEnd(s)) == Ink(s) && |TrimEnd(s)| <= |s|
    ensures WellFormed(s) ==> WellFormed(TrimEnd(s))
  {
    if s != [] && IsSpace(s[|s| - 1]) {
      var n := |s| - 1;
      InkOfCut(s, n, |s|);
      if WellFormed(s) { SliceWellFormed(s, 0, n); }
      TrimEndKeeps(s[..n]);
    }
  }

  /** Trimming drops white space only, and everything when there is nothing else. */
  lemma TrimKeeps(s: Text)
    ensures Ink(Trim(s)) == Ink(s) && |Trim(s)| <= |s|
    ensures WellFormed(s) ==> WellFormed(Trim(s))
  {
    TrimStartKeeps(s);
    TrimEndKeeps(TrimStart(s));
  }

  lemma ConcatWellFormed(a: Text, b: Text)
    requires WellFormed(a) && WellFormed(b)
    ensures WellFormed(a + b)
  {
  }

  /** A slice of well-formed text that starts and ends beside no half of a pair. */
  lemma SliceWellFormed(s: Text, from: nat, to: nat)
    requires WellFormed(s) && from <= to <= |s|
    requires from == 0 || from == |s| || !High(s[from - 1])
    requires to == 0 || to == |s| || !High(s[to - 1])
    ensures WellFormed(s[from..to])
  {
    var t := s[from..to];
    forall i | 0 <= i < |t|
      ensures High(t[i]) ==> i + 1 < |t| && Low(t[i + 1])
      ensures Low(t[i]) ==> i > 0 && High(t[i - 1])
    {
      assert t[i] == s[from + i];
    }
  }
}
