/**
 What the model gets to see of a transcript: everything but the last-step notes of earlier
 questions. What is left out takes nothing from the grammar a model expects.
 */
module ModelView {
  import opened RunModel
  import opened RunProtocol

  predicate IsNote(m: Message) { m.User? && m.note }

  /** The last of the first `n` messages that a user wrote; -1 if there is none. */
  function LastQuestion(m: seq<Message>, n: nat): (q: int)
    requires n <= |m|
    ensures -1 <= q < n && (q >= 0 ==> m[q].User? && !m[q].note)
    ensures forall i | q < i < n :: !m[i].User? || m[i].note
  {
    if n == 0 then -1 else if m[n - 1].User? && !m[n - 1].note then n - 1 else LastQuestion(m, n - 1)
  }

  predicate LeftOut(m: seq<Message>, q: int, i: nat)
    requires i < |m|
  {
    IsNote(m[i]) && i < q
  }

  /** The first `n` messages without the notes before `q`. */
  function Shown(m: seq<Message>, q: int, n: nat): seq<Message>
    requires n <= |m|
  {
    if n == 0 then [] else Shown(m, q, n - 1) + if LeftOut(m, q, n - 1) then [] else [m[n - 1]]
  }

  function ForModel(m: seq<Message>): seq<Message> { Shown(m, LastQuestion(m, |m|), |m|) }

  /** What asks is answered at once: so no note that is left out stands directly behind it. */
  lemma {:induction false} ShownEnds(m: seq<Message>, q: int, n: nat)
    requires 0 < n <= |m| && Grammar(m)
    ensures EndsAsking(Shown(m, q, n)) ==> !LeftOut(m, q, n - 1) && Asks(m[n - 1])
    ensures !LeftOut(m, q, n - 1) ==> Shown(m, q, n) != [] && Shown(m, q, n)[|Shown(m, q, n)| - 1] == m[n - 1]
  {
    if n > 1 { ShownEnds(m, q, n - 1); }
  }

  lemma {:induction false} ShownKeepsGrammar(m: seq<Message>, q: int, n: nat)
    requires n <= |m| && Grammar(m)
    ensures Grammar(Shown(m, q, n))
  {
    if n > 0 {
      ShownKeepsGrammar(m, q, n - 1);
      if !LeftOut(m, q, n - 1) {
        if n > 1 {
          ShownEnds(m, q, n - 1);
          assert Asks(m[n - 2]) ==> Answers(m[n - 2], m[n - 1]);
          assert m[n - 1].ToolMessage? ==> Answers(m[n - 2], m[n - 1]);
        }
        GrammarExtends(Shown(m, q, n - 1), m[n - 1]);
      }
    }
  }

  function WithoutNotes(m: seq<Message>): seq<Message> {
    if m == [] then []
    else WithoutNotes(m[..|m| - 1]) + if IsNote(m[|m| - 1]) then [] else [m[|m| - 1]]
  }

  lemma {:induction false} ShownIs(m: seq<Message>, q: nat, n: nat)
    requires q <= n <= |m|
    ensures Shown(m, q, n) == WithoutNotes(m[..q]) + m[q..n]
    decreases n
  {
    if n > q {
      ShownIs(m, q, n - 1);
      assert m[q..n] == m[q..n - 1] + [m[n - 1]];
    } else if n > 0 {
      ShownAllBefore(m, q, n);
      assert m[q..n] == [];
    }
  }

  lemma {:induction false} ShownAllBefore(m: seq<Message>, q: nat, n: nat)
    requires n <= q <= |m|
    ensures Shown(m, q, n) == WithoutNotes(m[..n])
  {
    if n > 0 {
      ShownAllBefore(m, q, n - 1);
      assert m[..n][..n - 1] == m[..n - 1];
    }
  }

  /** Where the question at hand begins; at the start when nobody has asked. */
  function Question(m: seq<Message>): (q: nat)
    ensures q <= |m| && forall i | q < i < |m| :: !m[i].User? || m[i].note
  {
    var q := LastQuestion(m, |m|);
    if q < 0 then 0 else q
  }

  /**
   The model is shown, in order and each once, all messages before the question at hand
   but notes, and all from there on. That has the same grammar and ends the same way.
   */
  lemma ForModelKeepsGrammar(m: seq<Message>)
    requires Grammar(m)
    ensures Grammar(ForModel(m))
    ensures ForModel(m) == WithoutNotes(m[..Question(m)]) + m[Question(m)..]
    ensures EndsInNote(m) ==> EndsInNote(ForModel(m))
    ensures EndsAsking(m) <==> EndsAsking(ForModel(m))
  {
    var q := LastQuestion(m, |m|);
    ShownKeepsGrammar(m, q, |m|);
    if m != [] { ShownEnds(m, q, |m|); }
    if q < 0 { NothingLeftOut(m, q, |m|); } else { ShownIs(m, q, |m|); }
    assert m[Question(m)..|m|] == m[Question(m)..];
  }

  lemma {:induction false} NothingLeftOut(m: seq<Message>, q: int, n: nat)
    requires q <= 0 && n <= |m|
    ensures Shown(m, q, n) == m[..n]
  {
    if n > 0 {
      NothingLeftOut(m, q, n - 1);
      assert m[..n] == m[..n - 1] + [m[n - 1]];
    }
  }
}
