/** What every action of the capture transport keeps. */
module CaptureInvariant {
  import opened Words
  import opened LossyQueue
  import opened CaptureMachine

  /** Buffers announced to the reader so far, and buffers it has handed to its client. */
  function Sent(s: State): nat { |s.h.accepted| }
  function Done(s: State): nat { |s.h.delivered| }

  /** 1 while the reader holds a notification it has not acknowledged. */
  function Held(pc: ReaderPc): nat {
    if pc.Received? || pc.Checked? || pc.Processed? || (pc.Stopped? && pc.held) then 1 else 0
  }

  /** The current buffer's index while Write() has not yet decided its fate. */
  function InHand(pc: WriterPc, written: nat): seq<nat> {
    if pc.Idle? || pc.Finishing? || written == 0 then [] else [written - 1]
  }

  /** How many FIFO entries the flush loop has passed but not yet erased. */
  function Passed(pc: WriterPc): nat {
    match pc
    case FlushTest(it) => it
    case Filling(FromFifo(it), _) => it
    case _ => 0
  }

  predicate WriterOk(n: nat, w: Writer, sent: nat, acks: nat) {
    && 0 < n < TWO32
    && w.filled <= n
    && w.filled <= sent
    && w.segment == SlotAt(sent, n)
    && w.nextBufferId == Wrap(sent)
    && w.nextReadIndex == Wrap(sent - w.filled)
    && (w.pc.Draining? ==> 0 < w.pc.left <= acks)
    && (w.pc.Filling? ==> w.filled < n)
    && (w.pc.Filling? && w.pc.src.FromFifo? ==> w.pc.src.it < |w.fifo|)
    && (w.pc.Deciding? ==> w.fifo == [] || w.filled == n)
    && (w.pc.Filling? && w.pc.src.Direct? ==> w.fifo == [])
    && |w.fifo| <= MAX_OVERFLOW_BUSES
  }

  /** Announcements name consecutive slots, ending just before the one filled next. */
  ghost predicate NotesOk(n: nat, sent: nat, notes: seq<u32>)
    requires 0 < n
  {
    && |notes| <= sent
    && forall i | 0 <= i < |notes| :: notes[i] == SlotAt(sent - |notes| + i, n)
  }

  /** Acknowledgements are consecutive counters. */
  ghost predicate AcksOk(drained: nat, acks: seq<u32>) {
    forall i | 0 <= i < |acks| :: acks[i] == Wrap(drained + 1 + i)
  }

  predicate ReaderOk(n: nat, r: Reader, sent: nat, done: nat, notes: nat, acked: nat)
    requires 0 < n
  {
    && notes <= sent
    && done + (if r.pc.Received? || r.pc.Checked? then 1 else 0) == sent - notes
    && r.segment == SlotAt(done, n)
    && r.lastBufferId == Wrap(done + if r.pc.Checked? then 0 else MAX32)
    && (r.pc.Received? ==> r.pc.pending == r.segment)
    && (!r.pc.Stopped? ==> r.bufferIndex == Wrap(acked))
  }

  /** A segment holds exactly what Write() was given, under its sequence number. */
  predicate Holds(slot: Segment, b: Buffer, k: nat) {
    slot == Segment(ParamsOf(b, Wrap(k)), b.audio)
  }

  ghost predicate AcceptedOk(accepted: seq<nat>, written: seq<Buffer>) {
    forall k | 0 <= k < |accepted| :: accepted[k] < |written|
  }

  ghost predicate DeliveredOk(delivered: seq<Buffer>, accepted: seq<nat>, written: seq<Buffer>)
    requires AcceptedOk(accepted, written)
  {
    && |delivered| <= |accepted|
    && forall k | 0 <= k < |delivered| :: delivered[k] == written[accepted[k]]
  }

  ghost predicate RingOk(n: nat, ring: seq<Segment>, done: nat, accepted: seq<nat>, written: seq<Buffer>)
    requires 0 < n && |ring| == n && AcceptedOk(accepted, written)
  {
    forall k | done <= k < |accepted| :: Holds(ring[SlotAt(k, n)], written[accepted[k]], k)
  }

  predicate FillingOk(w: Writer, slot: Segment) {
    w.pc.Filling? ==>
      && (!w.pc.stage.NothingWritten? ==> slot.params == ParamsOf(SourceBuffer(w), w.nextBufferId))
      && (w.pc.stage.AudioWritten? ==> slot.audio == SourceBuffer(w).audio)
  }

  /** Accepted, queued and in-hand buffers are, in this order, all that was not dropped. */
  ghost predicate OrderOk(h: History, inHand: seq<nat>) {
    && h.accepted + h.queued + inHand == Kept(|h.written|, h.dropped)
    && forall i | i in h.dropped :: i < |h.written|
  }

  ghost predicate FifoOk(fifo: seq<Buffer>, passed: nat, queued: seq<nat>, written: seq<Buffer>) {
    && passed <= |fifo|
    && |queued| == |fifo| - passed
    && forall j | 0 <= j < |queued| :: queued[j] < |written| && fifo[passed + j] == written[queued[j]]
  }

  predicate CurrentOk(pc: WriterPc, current: Buffer, written: seq<Buffer>) {
    !pc.Idle? ==> written != [] && current == written[|written| - 1]
  }

  ghost predicate CountsOk(k: Counters, h: History, idle: bool, inHand: nat) {
    && k.writes == |h.written|
    && |h.outcomes| + (if idle then 0 else 1) == |h.written|
    && |h.viaFifo| + inHand == |h.written|
    && k.errors == CountTrue(h.outcomes)
    && k.trailingErrors == TrailingTrue(h.outcomes)
    && k.toFifo == CountTrue(h.viaFifo)
    && k.trailingToFifo == TrailingTrue(h.viaFifo)
  }

  ghost predicate ErrorsOk(h: History, idle: bool, writeError: bool) {
    && h.droppedBefore <= h.dropped
    && (CountTrue(h.outcomes) == 0 <==> (if idle then h.dropped else h.droppedBefore) == {})
    && (!idle ==> (writeError <==> h.dropped != h.droppedBefore))
  }

  /** Counters, segment numbers and socket contents agree. */
  ghost predicate Transport(s: State) {
    && WriterOk(s.n, s.w, Sent(s), |s.c.acks|)
    && |s.c.ring| == s.n
    && |s.c.notes| + Held(s.r.pc) + |s.c.acks| == s.w.filled
    && NotesOk(s.n, Sent(s), s.c.notes)
    && AcksOk(Sent(s) - s.w.filled, s.c.acks)
    && ReaderOk(s.n, s.r, Sent(s), Done(s), |s.c.notes|, Sent(s) - s.w.filled + |s.c.acks|)
    && s.faults == {}
  }

  /** Shared memory and the client hold the accepted buffers. */
  ghost predicate Contents(s: State)
    requires Transport(s)
  {
    && AcceptedOk(s.h.accepted, s.h.written)
    && DeliveredOk(s.h.delivered, s.h.accepted, s.h.written)
    && RingOk(s.n, s.c.ring, Done(s), s.h.accepted, s.h.written)
    && FillingOk(s.w, s.c.ring[s.w.segment])
  }

  /** No buffer is lost without being counted. */
  ghost predicate Ledger(s: State) {
    && OrderOk(s.h, InHand(s.w.pc, |s.h.written|))
    && FifoOk(s.w.fifo, Passed(s.w.pc), s.h.queued, s.h.written)
    && CurrentOk(s.w.pc, s.w.current, s.h.written)
    && CountsOk(s.w.counters, s.h, s.w.pc.Idle?, |InHand(s.w.pc, |s.h.written|)|)
    && ErrorsOk(s.h, s.w.pc.Idle?, s.w.writeError)
  }

  ghost predicate Inv(s: State) {
    Transport(s) && Contents(s) && Ledger(s)
  }

  lemma InitInv(s: State)
    requires Init(s)
    ensures Inv(s)
  {
  }

  lemma BeginWriteKeeps(s: State, data: Buffer)
    requires Inv(s) && s.w.pc.Idle?
    ensures Inv(DoBeginWrite(s, data))
  {
    hide SlotAt, Wrap;
    var s' := DoBeginWrite(s, data);
    assert |s.h.written| !in s.h.dropped;
    assert Kept(|s'.h.written|, s'.h.dropped) == Kept(|s.h.written|, s.h.dropped) + [|s.h.written|];
  }

  lemma PeekKeeps(s: State)
    requires Inv(s) && s.w.pc.Entered?
    ensures Inv(DoPeek(s))
  {
    hide SlotAt, Wrap;
  }

  lemma AcksTail(drained: nat, acks: seq<u32>)
    requires AcksOk(drained, acks) && acks != []
    ensures acks[0] == Wrap(Wrap(drained) + 1) == Wrap(drained + 1)
    ensures AcksOk(drained + 1, acks[1..])
  {
    assert acks[0] == Wrap(drained + 1 + 0);
    forall i | 0 <= i < |acks[1..]| ensures acks[1..][i] == Wrap(drained + 1 + 1 + i) {
      assert acks[1..][i] == acks[i + 1];
    }
  }

  lemma DrainAckKeeps(s: State)
    requires Inv(s) && s.w.pc.Draining?
    ensures Inv(DoDrainAck(s))
  {
    hide SlotAt, Wrap;
    var s' := DoDrainAck(s);
    AcksTail(Sent(s) - s.w.filled, s.c.acks);
    assert s'.faults == {};
    assert Sent(s') - s'.w.filled == Sent(s) - s.w.filled + 1;
    assert WriterOk(s'.n, s'.w, Sent(s'), |s'.c.acks|);
  }

  lemma TestFlushTransport(s: State)
    requires Transport(s) && s.w.pc.FlushTest? && s.w.pc.it <= |s.w.fifo|
    ensures Transport(DoTestFlush(s))
  {
    hide SlotAt, Wrap;
  }

  lemma TestFlushLedger(s: State)
    requires Ledger(s) && s.w.pc.FlushTest?
    ensures Ledger(DoTestFlush(s))
  {
    hide Kept, CountTrue, TrailingTrue;
  }

  lemma TestFlushKeeps(s: State)
    requires Inv(s) && s.w.pc.FlushTest?
    ensures Inv(DoTestFlush(s))
  {
    hide SlotAt, Wrap;
    TestFlushTransport(s);
    TestFlushLedger(s);
  }

  /** The segment being filled is not one whose buffer the reader has yet to take. */
  lemma FillingIsFree(s: State, k: nat)
    requires Inv(s) && s.w.filled < s.n && Done(s) <= k < Sent(s)
    ensures SlotAt(k, s.n) != s.w.segment
  {
    SlotsDiffer(k, Sent(s), s.n);
  }

  /** Writing into the free segment leaves every unread buffer as it was. */
  lemma RewriteKeepsRing(s: State, slot: Segment)
    requires Inv(s) && s.w.filled < s.n
    ensures RingOk(s.n, s.c.ring[s.w.segment := slot], Done(s), s.h.accepted, s.h.written)
  {
    forall k | Done(s) <= k < Sent(s) ensures SlotAt(k, s.n) != s.w.segment {
      FillingIsFree(s, k);
    }
  }

  lemma FillParamsKeeps(s: State)
    requires Inv(s) && s.w.pc.Filling? && s.w.pc.stage.NothingWritten?
    ensures Inv(DoFillParams(s))
  {
    hide SlotAt, Wrap;
    var s' := DoFillParams(s);
    RewriteKeepsRing(s, s'.c.ring[s.w.segment]);
  }

  lemma FillAudioKeeps(s: State)
    requires Inv(s) && s.w.pc.Filling? && s.w.pc.stage.ParamsWritten?
    ensures Inv(DoFillAudio(s))
  {
    hide SlotAt, Wrap;
    var s' := DoFillAudio(s);
    RewriteKeepsRing(s, s'.c.ring[s.w.segment]);
  }

  lemma NotesAppend(n: nat, sent: nat, notes: seq<u32>, slot: u32)
    requires 0 < n && NotesOk(n, sent, notes) && slot == SlotAt(sent, n)
    ensures NotesOk(n, sent + 1, notes + [slot])
  {
  }

  /** An announced segment joins the unread part of the ring. */
  lemma RingAppend(s: State, x: nat)
    requires Inv(s) && x < |s.h.written|
    requires Holds(s.c.ring[s.w.segment], s.h.written[x], Sent(s))
    ensures AcceptedOk(s.h.accepted + [x], s.h.written)
    ensures DeliveredOk(s.h.delivered, s.h.accepted + [x], s.h.written)
    ensures RingOk(s.n, s.c.ring, Done(s), s.h.accepted + [x], s.h.written)
  {
  }

  /** The FIFO's head has left the queue, accepted or dropped. */
  lemma FifoAdvance(s: State)
    requires Ledger(s) && s.w.pc.Filling? && s.w.pc.src.FromFifo? && s.w.pc.src.it < |s.w.fifo|
    ensures s.h.queued != [] && s.h.queued[0] < |s.h.written|
    ensures SourceBuffer(s.w) == s.h.written[s.h.queued[0]]
    ensures FifoOk(s.w.fifo, s.w.pc.src.it + 1, s.h.queued[1..], s.h.written)
  {
    assert s.w.fifo[Passed(s.w.pc) + 0] == s.h.written[s.h.queued[0]];
    var rest := s.h.queued[1..];
    forall j | 0 <= j < |rest|
      ensures rest[j] < |s.h.written| && s.w.fifo[s.w.pc.src.it + 1 + j] == s.h.written[rest[j]]
    {
      assert rest[j] == s.h.queued[j + 1];
      assert s.w.fifo[Passed(s.w.pc) + (j + 1)] == s.h.written[s.h.queued[j + 1]];
    }
  }

  /** A full segment holds the buffer it was filled from. */
  lemma FilledHolds(s: State)
    requires Inv(s) && s.w.pc.Filling? && s.w.pc.stage.AudioWritten?
    ensures Holds(s.c.ring[s.w.segment], SourceBuffer(s.w), Sent(s))
  {
  }

  /** After a successful send the writer's counters describe one more buffer. */
  lemma WriterAdvances(n: nat, w: Writer, w': Writer, sent: nat, acks: nat)
    requires WriterOk(n, w, sent, acks) && w.pc.Filling?
    requires w' == w.(segment := NextSlot(w.segment, n), filled := w.filled + 1,
                      nextBufferId := Wrap(w.nextBufferId + 1), pc := w'.pc, writeError := w'.writeError,
                      counters := w'.counters)
    requires w'.pc.FlushTest? || w'.pc.Finishing?
    ensures WriterOk(n, w', sent + 1, acks)
  {
    WrapNext(sent);
    assert SlotAt(sent + 1, n) == NextSlot(SlotAt(sent, n), n);
  }

  lemma SendTransport(s: State, ok: bool)
    requires Transport(s) && s.w.pc.Filling? && s.w.pc.stage.AudioWritten?
    requires s.w.pc.src.FromFifo? ==> s.h.queued != []
    requires s.w.pc.src.Direct? ==> s.h.written != []
    ensures Transport(DoSend(s, ok))
  {
    hide SlotAt, Wrap;
    var s' := DoSend(s, ok);
    if ok {
      WriterAdvances(s.n, s.w, s'.w, Sent(s), |s.c.acks|);
      NotesAppend(s.n, Sent(s), s.c.notes, s.w.segment);
      WrapSmall(s.w.segment);
      assert s'.c.notes == s.c.notes + [s.w.segment];
      assert Sent(s') == Sent(s) + 1;
      assert Sent(s') - s'.w.filled == Sent(s) - s.w.filled;
      assert AcksOk(Sent(s') - s'.w.filled, s'.c.acks);
      assert ReaderOk(s'.n, s'.r, Sent(s'), Done(s'), |s'.c.notes|, Sent(s') - s'.w.filled + |s'.c.acks|);
    } else {
      assert Sent(s') == Sent(s);
    }
  }

  lemma SendFifoLedger(s: State, ok: bool)
    requires Ledger(s) && s.w.pc.Filling? && s.w.pc.src.FromFifo? && s.w.pc.src.it < |s.w.fifo|
    ensures Ledger(DoSend(s, ok))
  {
    hide SlotAt, Wrap, Kept, CountTrue, TrailingTrue;
    var s' := DoSend(s, ok);
    FifoAdvance(s);
    var x, rest := s.h.queued[0], s.h.queued[1..];
    var inHand := InHand(s.w.pc, |s.h.written|);
    assert s.h.accepted + s.h.queued + inHand == s.h.accepted + [x] + (rest + inHand);
    if ok {
      assert s'.h.accepted + s'.h.queued + inHand == s.h.accepted + [x] + (rest + inHand);
    } else {
      KeptRemove(|s.h.written|, s.h.dropped, s.h.accepted, x, rest + inHand);
      DropIsNew(s, s.h.accepted, x, rest + inHand);
      assert s'.h.accepted + s'.h.queued + inHand == s.h.accepted + (rest + inHand);
    }
  }

  lemma SendFifoKeeps(s: State, ok: bool)
    requires Inv(s) && s.w.pc.Filling? && s.w.pc.stage.AudioWritten? && s.w.pc.src.FromFifo?
    ensures Inv(DoSend(s, ok))
  {
    hide SlotAt, Wrap;
    FifoAdvance(s);
    FilledHolds(s);
    SendTransport(s, ok);
    SendFifoLedger(s, ok);
    RingAppend(s, s.h.queued[0]);
  }

  /** A buffer still in the pipeline was not dropped before. */
  lemma DropIsNew(s: State, before: seq<nat>, x: nat, after: seq<nat>)
    requires Ledger(s) && !s.w.pc.Idle?
    requires s.h.accepted + s.h.queued + InHand(s.w.pc, |s.h.written|) == before + [x] + after
    ensures x !in s.h.dropped
    ensures s.h.dropped + {x} != s.h.droppedBefore
  {
    KeptRemove(|s.h.written|, s.h.dropped, before, x, after);
  }

  lemma SendDirectLedger(s: State, ok: bool)
    requires Ledger(s) && s.w.pc.Filling? && s.w.pc.src.Direct? && s.w.fifo == []
    ensures Ledger(DoSend(s, ok))
  {
    hide SlotAt, Wrap, Kept;
    var s' := DoSend(s, ok);
    var x := |s.h.written| - 1;
    assert s.h.queued == [];
    assert s.h.accepted + s.h.queued + [x] == s.h.accepted + [x] + [];
    assert s'.h.viaFifo[..|s'.h.viaFifo| - 1] == s.h.viaFifo;
    if ok {
      assert s'.h.accepted + s'.h.queued + [] == s.h.accepted + [x] + [];
    } else {
      KeptRemove(|s.h.written|, s.h.dropped, s.h.accepted, x, []);
      DropIsNew(s, s.h.accepted, x, []);
      assert s'.h.accepted + s'.h.queued + [] == s.h.accepted + [];
    }
  }

  lemma SendDirectKeeps(s: State, ok: bool)
    requires Inv(s) && s.w.pc.Filling? && s.w.pc.stage.AudioWritten? && s.w.pc.src.Direct?
    ensures Inv(DoSend(s, ok))
  {
    hide SlotAt, Wrap;
    FilledHolds(s);
    SendTransport(s, ok);
    SendDirectLedger(s, ok);
    RingAppend(s, |s.h.written| - 1);
  }

  lemma DecideTransport(s: State)
    requires Transport(s) && s.w.pc.Deciding?
    ensures Transport(DoDecide(s))
  {
    hide SlotAt, Wrap;
  }

  lemma PushLedger(s: State)
    requires Ledger(s) && s.w.pc.Deciding? && s.w.filled >= s.n
    ensures Ledger(DoDecide(s))
  {
    hide SlotAt, Wrap, Kept;
    var s' := DoDecide(s);
    var x := |s.h.written| - 1;
    assert s'.h.viaFifo[..|s'.h.viaFifo| - 1] == s.h.viaFifo;
    assert s.h.accepted + s.h.queued + [x] == (s.h.accepted + s.h.queued) + [x] + [];
    if |s.w.fifo| == MAX_OVERFLOW_BUSES {
      KeptRemove(|s.h.written|, s.h.dropped, s.h.accepted + s.h.queued, x, []);
      DropIsNew(s, s.h.accepted + s.h.queued, x, []);
      assert s'.h.accepted + s'.h.queued + [] == (s.h.accepted + s.h.queued) + [];
    } else {
      assert s'.h.accepted + s'.h.queued + [] == s.h.accepted + s.h.queued + [x];
    }
  }

  lemma DecideKeeps(s: State)
    requires Inv(s) && s.w.pc.Deciding?
    ensures Inv(DoDecide(s))
  {
    hide SlotAt, Wrap;
    DecideTransport(s);
    if s.w.filled == s.n {
      PushLedger(s);
    }
  }

  lemma FinishWriteKeeps(s: State)
    requires Inv(s) && s.w.pc.Finishing?
    ensures Inv(DoFinishWrite(s))
  {
    hide SlotAt, Wrap;
    var s' := DoFinishWrite(s);
    assert s'.h.outcomes[..|s'.h.outcomes| - 1] == s.h.outcomes;
  }

  lemma ReceiveKeeps(s: State)
    requires Inv(s) && s.r.pc.Waiting? && s.c.notes != []
    ensures Inv(DoReceive(s))
  {
    hide SlotAt, Wrap;
    var notes' := s.c.notes[1..];
    assert s.c.notes[0] == SlotAt(Sent(s) - |s.c.notes| + 0, s.n);
    assert NotesOk(s.n, Sent(s), notes') by {
      forall i | 0 <= i < |notes'| ensures notes'[i] == SlotAt(Sent(s) - |notes'| + i, s.n) {
        assert notes'[i] == s.c.notes[i + 1];
        assert Sent(s) - |s.c.notes| + (i + 1) == Sent(s) - |notes'| + i;
      }
    }
  }

  lemma CheckParamsKeeps(s: State)
    requires Inv(s) && s.r.pc.Received?
    ensures Inv(DoCheckParams(s))
  {
    hide SlotAt, Wrap;
    var s' := DoCheckParams(s);
    WrapNext(Done(s));
    assert Holds(s.c.ring[SlotAt(Done(s), s.n)], s.h.written[s.h.accepted[Done(s)]], Done(s));
    assert s.c.ring[s.r.segment].params.id == Wrap(Done(s));
    assert s'.faults == {};
  }

  lemma ReaderAdvances(n: nat, r: Reader, sent: nat, done: nat, notes: nat, acked: nat)
    requires 0 < n && ReaderOk(n, r, sent, done, notes, acked) && r.pc.Checked?
    ensures ReaderOk(n, r.(pc := Processed, segment := NextSlot(r.segment, n)), sent, done + 1, notes, acked)
  {
    assert SlotAt(done + 1, n) == NextSlot(SlotAt(done, n), n);
    assert Wrap(done + 1 + MAX32) == Wrap(done);
  }

  lemma CaptureTransport(s: State)
    requires Transport(s) && s.r.pc.Checked?
    ensures Transport(DoCapture(s))
  {
    hide SlotAt, Wrap;
    var s' := DoCapture(s);
    assert Done(s') == Done(s) + 1;
    ReaderAdvances(s.n, s.r, Sent(s), Done(s), |s.c.notes|, Sent(s) - s.w.filled + |s.c.acks|);
  }

  lemma CaptureKeeps(s: State)
    requires Inv(s) && s.r.pc.Checked?
    ensures Inv(DoCapture(s))
  {
    hide SlotAt, Wrap;
    var s' := DoCapture(s);
    CaptureTransport(s);
    assert Holds(s.c.ring[SlotAt(Done(s), s.n)], s.h.written[s.h.accepted[Done(s)]], Done(s));
    assert DeliveredOk(s'.h.delivered, s'.h.accepted, s'.h.written);
  }

  lemma AcksAppend(drained: nat, acks: seq<u32>)
    requires AcksOk(drained, acks)
    ensures AcksOk(drained, acks + [Wrap(drained + |acks| + 1)])
  {
  }

  lemma AckKeeps(s: State, ok: bool)
    requires Inv(s) && s.r.pc.Processed?
    ensures Inv(DoAck(s, ok))
  {
    hide SlotAt, Wrap;
    var acked := Sent(s) - s.w.filled + |s.c.acks|;
    WrapNext(acked);
    AcksAppend(Sent(s) - s.w.filled, s.c.acks);
  }

  lemma ReceiveFailsKeeps(s: State)
    requires Inv(s) && s.r.pc.Waiting?
    ensures Inv(s.(r := s.r.(pc := Stopped(false))))
  {
    hide SlotAt, Wrap;
  }

  /** No segment id is the pause signal, so no notification bypasses Process(). */
  lemma NeverSkipped(s: State)
    requires Inv(s) && s.r.pc.Received?
    ensures s.r.pc.pending < MAX32
  {
  }

  lemma StepKeeps(s: State, a: Action)
    requires Inv(s)
    ensures Inv(Next(s, a))
  {
    hide WriterOk, NotesOk, AcksOk, ReaderOk, Ledger;
    if Enabled(s, a) {
      match a
      case BeginWrite(data) => BeginWriteKeeps(s, data);
      case Peek => PeekKeeps(s);
      case DrainAck => DrainAckKeeps(s);
      case TestFlush => TestFlushKeeps(s);
      case FillParams => FillParamsKeeps(s);
      case FillAudio => FillAudioKeeps(s);
      case Send(ok) =>
        if s.w.pc.src.FromFifo? { SendFifoKeeps(s, ok); } else { SendDirectKeeps(s, ok); }
      case Decide => DecideKeeps(s);
      case FinishWrite => FinishWriteKeeps(s);
      case Receive => ReceiveKeeps(s);
      case ReceiveFails => ReceiveFailsKeeps(s);
      case SkipPaused => NeverSkipped(s);
      case CheckParams => CheckParamsKeeps(s);
      case Capture => CaptureKeeps(s);
      case Ack(ok) => AckKeeps(s, ok);
    }
  }

  /** The invariant holds in every state of every run. */
  lemma {:induction false} RunKeeps(s: State, run: seq<Action>)
    requires Init(s)
    ensures Inv(Exec(s, run))
    decreases |run|
  {
    if run == [] {
      InitInv(s);
    } else {
      RunKeeps(s, run[..|run| - 1]);
      StepKeeps(Exec(s, run[..|run| - 1]), run[|run| - 1]);
    }
  }
}
