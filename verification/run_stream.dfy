/**
 The live stream of one run: the catch-up that every announcement, every keepalive and
 the connection itself start, one after the other. Between its two reads, and between
 any two catch-ups, the run may move on; a read may fail; the reader may hang up.
 */
module RunStreams {
  import opened Wrappers
  import opened Sequences
  import opened RunModel
  import opened RunInvariants
  import opened RunProtocol
  import opened RunStores

  datatype Frame =
    | RunFrame(run: Run)
    | MessageFrame(id: int, message: Message)
    | EndFrame(status: Status)

  /** What a run may do while nobody looks: grow, and once ended only count and warn. */
  ghost predicate Grows(s: RunState, s': RunState) {
    && s.messages <= s'.messages
    && (s.run.status.Terminal() ==> s'.messages == s.messages && SameEnding(s.run, s'.run))
  }

  lemma EndedTranscriptStays(y: Sys, a: Action)
    requires LeaseInv(y) && y.s.run.status.Terminal()
    ensures Do(y, a).s.messages == y.s.messages
  {
  }

  /** The protocol is such a world: over any actions of workers, API and sweep the run grows. */
  lemma {:induction false} ProtocolGrows(y: Sys, actions: seq<Action>)
    requires Inv(y)
    ensures Grows(y.s, RunOf(y, actions).s)
    decreases |actions|
  {
    ActionsAreMonotone(y, actions);
    if actions != [] && y.s.run.status.Terminal() {
      EndedTranscriptStays(y, actions[0]);
      DoIsMonotone(y, actions[0]);
      ActionsKeepInv(y, [actions[0]]);
      assert RunOf(y, [actions[0]]) == Do(y, actions[0]);
      ProtocolGrows(Do(y, actions[0]), actions[1..]);
    }
  }

  function IfMessage(f: Frame): seq<Frame> { if f.MessageFrame? then [f] else [] }

  /** The messages among the frames, in the order they were sent. */
  function Delivered(sent: seq<Frame>): seq<Frame> { FlatMap(IfMessage, sent, |sent|) }

  lemma DeliveredAppend(sent: seq<Frame>, f: Frame)
    ensures Delivered(sent + [f]) == Delivered(sent) + if f.MessageFrame? then [f] else []
  {
    FlatMapPush(IfMessage, sent, f);
  }

  /** The status in the last record among the first `n` frames. */
  function ShownTo(sent: seq<Frame>, n: nat): Option<Status>
    requires n <= |sent|
  {
    if n == 0 then None
    else if sent[n - 1].RunFrame? then Some(sent[n - 1].run.status)
    else ShownTo(sent, n - 1)
  }

  function LastShown(sent: seq<Frame>): Option<Status> { ShownTo(sent, |sent|) }

  lemma {:induction false} ShownToPrefix(sent: seq<Frame>, f: Frame, n: nat)
    requires n <= |sent|
    ensures ShownTo(sent + [f], n) == ShownTo(sent, n)
  {
    if n > 0 { ShownToPrefix(sent, f, n - 1); }
  }

  lemma LastShownAppend(sent: seq<Frame>, f: Frame)
    ensures LastShown(sent + [f]) == if f.RunFrame? then Some(f.run.status) else LastShown(sent)
  {
    ShownToPrefix(sent, f, |sent|);
  }

  /** The reader has seen the status, unless it is a final one, which comes with the end. */
  ghost predicate UpToDate(sent: seq<Frame>, status: Option<Status>) {
    status.Some? && !status.value.Terminal() ==> LastShown(sent) == status
  }

  /** Messages `from`, `from` + 1, … up to and without `to`, each under its own number. */
  ghost predicate Slice(frames: seq<Frame>, transcript: seq<Message>, from: nat, to: nat) {
    && from <= to <= |transcript| && |frames| == to - from
    && forall i | 0 <= i < |frames| :: frames[i] == MessageFrame(from + i, transcript[from + i])
  }

  /** Every message after `resume`, up to `last`: none missing, none twice, in order. */
  ghost predicate InOrder(sent: seq<Frame>, transcript: seq<Message>, resume: int, last: int) {
    if last == resume then Delivered(sent) == []
    else last >= 0 && Slice(Delivered(sent), transcript, FirstAfter(resume), last + 1)
  }

  lemma MessageKeepsOrder(sent: seq<Frame>, transcript: seq<Message>, resume: int, last: int)
    requires InOrder(sent, transcript, resume, last) && FirstAfter(last) < |transcript|
    ensures var next := FirstAfter(last);
            InOrder(sent + [MessageFrame(next, transcript[next])], transcript, resume, next)
  {
    var f := MessageFrame(FirstAfter(last), transcript[FirstAfter(last)]);
    DeliveredAppend(sent, f);
    if last == resume { assert Delivered(sent + [f]) == [f]; }
  }

  lemma GrowthKeepsOrder(sent: seq<Frame>, transcript: seq<Message>, longer: seq<Message>, resume: int, last: int)
    requires InOrder(sent, transcript, resume, last) && transcript <= longer
    ensures InOrder(sent, longer, resume, last)
  {
  }

  /** The frames of a stream that was brought to its end: `end` last, after the final record. */
  ghost predicate EndsWell(sent: seq<Frame>, run: Run) {
    && sent != [] && sent[|sent| - 1] == EndFrame(run.status) && run.status.Terminal()
    && (forall i | 0 <= i < |sent| - 1 :: !sent[i].EndFrame?)
    && (exists i | 0 <= i < |sent| - 1 :: sent[i].RunFrame? && SameEnding(sent[i].run, run))
  }

  predicate NoEnd(sent: seq<Frame>) { forall i | 0 <= i < |sent| :: !sent[i].EndFrame? }

  lemma EndedWell(sent: seq<Frame>, record: int, run: Run)
    requires NoEnd(sent) && run.status.Terminal()
    requires 0 <= record < |sent| && sent[record].RunFrame? && SameEnding(sent[record].run, run)
    ensures EndsWell(sent + [EndFrame(run.status)], run)
  {
    assert (sent + [EndFrame(run.status)])[record] == sent[record];
  }

  lemma EndKeepsOrder(sent: seq<Frame>, transcript: seq<Message>, resume: int, last: int, f: Frame)
    requires InOrder(sent, transcript, resume, last) && !f.MessageFrame?
    ensures InOrder(sent + [f], transcript, resume, last)
  {
    DeliveredAppend(sent, f);
  }

  class RunStream {
    const resume: int
    var stored: RunState  // the rows of the run; `World` changes them, the stream only reads
    var lastSeq: int
    var first: bool
    var sentStatus: Option<Status>
    var closed: bool
    var sent: seq<Frame>
    ghost var ended: bool

    ghost predicate Valid()
      reads this
    {
      && InOrder(sent, stored.messages, resume, lastSeq)
      && (if ended then closed && EndsWell(sent, stored.run) && FirstAfter(lastSeq) >= |stored.messages|
          else NoEnd(sent))
      && (first <==> sent == []) && (sent != [] ==> sent[0].RunFrame?) && UpToDate(sent, sentStatus)
    }

    constructor (stored: RunState, resume: int)
      ensures this.stored == stored && this.resume == resume
      ensures Valid() && !closed && sent == [] && lastSeq == resume
    {
      this.stored, this.resume := stored, resume;
      lastSeq, first, sentStatus, closed, sent := resume, true, None, false, [];
      ended := false;
    }

    /** The run moves on while the stream waits; how is left open to the caller. */
    method World()
      modifies this`stored
      ensures Grows(old(stored), stored)
    {
    }

    /** An await: the run moves on, the reader may hang up. */
    method Await()
      requires Valid()
      modifies this`closed, this`stored
      ensures Valid() && (old(closed) ==> closed) && Grows(old(stored), stored)
    {
      World();
      GrowthKeepsOrder(sent, old(stored).messages, stored.messages, resume, lastSeq);
      var hungUp: bool := *;
      if hungUp { closed := true; }
    }

    method Send(f: Frame)
      modifies this`sent
      ensures sent == old(sent) + [f]
    {
      sent := sent + [f];
    }

    method SendMessage(row: MessageRow)
      requires Valid() && !ended && !first
      requires row.num == FirstAfter(lastSeq) < |stored.messages| && row.content == stored.messages[row.num]
      modifies this`lastSeq, this`sent
      ensures Valid() && lastSeq == row.num && sent == old(sent) + [MessageFrame(row.num, row.content)]
    {
      MessageKeepsOrder(sent, stored.messages, resume, lastSeq);
      LastShownAppend(sent, MessageFrame(row.num, row.content));
      Send(MessageFrame(row.num, row.content));
      lastSeq := row.num;
    }

    /** Sends the rows as listed after `lastSeq`, whatever the run has become since. */
    method SendMessages(rows: seq<MessageRow>, ghost listed: seq<Message>)
      requires Valid() && !ended && !first
      requires listed <= stored.messages && rows == Since(listed, lastSeq)
      modifies this`lastSeq, this`sent
      ensures Valid() && old(sent) <= sent
      ensures closed ==> sent == old(sent) && lastSeq == old(lastSeq)
      ensures !closed || rows == [] ==> FirstAfter(lastSeq) >= |listed|
    {
      for i := 0 to |rows|
        invariant Valid() && !first && old(sent) <= sent
        invariant closed ==> i == 0 && sent == old(sent) && lastSeq == old(lastSeq)
        invariant FirstAfter(lastSeq) == FirstAfter(old(lastSeq)) + i
      {
        if closed { return; }
        SendMessage(rows[i]);
      }
    }

    /** A record, on connecting or as a run changes or ends. */
    method SendRun(current: Run)
      requires Valid() && !ended
      modifies this`sent, this`first, this`sentStatus
      ensures Valid() && !first && sent == old(sent) + [RunFrame(current)] && sentStatus == Some(current.status)
    {
      EndKeepsOrder(sent, stored.messages, resume, lastSeq, RunFrame(current));
      LastShownAppend(sent, RunFrame(current));
      Send(RunFrame(current));
      first, sentStatus := false, Some(current.status);
    }

    /** The last frame of a finished run whose messages are out. */
    method SendEnd(current: Run, ghost record: int)
      requires Valid() && !ended && !first && SameEnding(current, stored.run) && current.status.Terminal()
      requires FirstAfter(lastSeq) >= |stored.messages|
      requires 0 <= record < |sent| && sent[record] == RunFrame(current)
      modifies this`sent, this`closed, this`ended
      ensures Valid() && ended && sent == old(sent) + [EndFrame(current.status)]
    {
      EndKeepsOrder(sent, stored.messages, resume, lastSeq, EndFrame(current.status));
      EndedWell(sent, record, stored.run);
      LastShownAppend(sent, EndFrame(current.status));
      Send(EndFrame(current.status));
      closed, ended := true, true;
    }

    /** The second half: the messages, and the end of a run that was over when it was read. */
    method SendRest(current: Run, sentRun: bool) returns (complete: bool)
      requires Valid() && !ended && !first
      requires current.status.Terminal() ==> stored.run.status.Terminal() && SameEnding(current, stored.run)
      requires sentRun ==> sent[|sent| - 1] == RunFrame(current)
      requires sentStatus == Some(current.status)
      modifies this
      ensures Valid() && old(sent) <= sent && sentStatus == old(sentStatus)
      ensures complete ==> FirstAfter(lastSeq) >= |old(stored.messages)|
      ensures complete ==> ended == current.status.Terminal()
    {
      var rows := Since(stored.messages, lastSeq);
      ghost var record := |sent| - 1;
      Await();
      SendMessages(rows, old(stored.messages));
      complete := !closed || rows == [];
      if complete && current.status.Terminal() {
        if !sentRun {
          record := |sent|;
          SendRun(current);
        }
        SendEnd(current, record);
      }
    }

    /** Reads the record: it is of some moment between asking and going on. */
    method ReadRun() returns (current: Run)
      requires Valid() && !ended
      modifies this`closed, this`stored
      ensures Valid() && Grows(old(stored), stored)
      ensures old(stored.run.status).Terminal() ==> current.status.Terminal()
      ensures current.status.Terminal() ==> stored.run.status.Terminal() && SameEnding(current, stored.run)
    {
      Await();
      current := stored.run;
      Await();
    }

    /**
     One catch-up. If it was not cut short, the reader has every message there was when
     it began, and `end` if the run was over by then.
     */
    method CatchUp(statusChanged: bool) returns (complete: bool)
      requires Valid()
      modifies this
      ensures Valid() && old(sent) <= sent
      ensures old(closed) ==> !complete && sent == old(sent) && ended == old(ended)
      ensures complete ==> FirstAfter(lastSeq) >= |old(stored.messages)|
      ensures complete && old(stored.run.status).Terminal() ==> ended
      ensures complete ==> sentStatus.Some? && (sentStatus.value.Terminal() <==> ended)
    {
      complete := false;
      if closed { return; }
      var getFails: bool := *;
      if getFails { return; }
      var current := ReadRun();
      if closed { return; }
      var changed := statusChanged || Some(current.status) != sentStatus;
      var sentRun := first || (changed && !current.status.Terminal());
      if sentRun { SendRun(current); } else { sentStatus := Some(current.status); }
      var listFails: bool := *;
      if listFails { return; }
      complete := SendRest(current, sentRun);
    }

    /** A connection: the first catch-up, then one for every announcement and keepalive. */
    method Serve(wakes: seq<bool>)
      requires Valid() && sent == []
      modifies this
      ensures Valid()
    {
      var _ := CatchUp(false);
      for i := 0 to |wakes|
        invariant Valid()
      {
        var _ := CatchUp(wakes[i]);
      }
    }
  }
}
