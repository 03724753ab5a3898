/** The two programs of the capture transport in their imperative form. Between
    any two accesses of Write() to shared state, Interfere() lets the renderer's
    audio thread take any number of its own steps. Each object's life is a run of
    the machine in CaptureMachine, so the theorems about runs are theorems about
    these programs; the source's CHECKs appear as assertions. */
module CaptureWriter {
  import opened Words
  import opened CaptureMachine
  import opened CaptureInvariant
  import CaptureTheorems
  import CapturePercentages
  import LossyQueue

  /** Sizes and indices in any reachable state. */
  lemma Bounds(start: State, run: seq<Action>)
    requires Init(start)
    ensures var s := Exec(start, run);
            && |s.c.ring| == s.n && s.w.segment < s.n && s.r.segment < s.n
            && s.w.filled <= s.n && |s.w.fifo| <= MAX_OVERFLOW_BUSES
            && (s.w.pc.Filling? ==> s.w.filled < s.n)
  {
    hide Exec, Contents, Ledger, NotesOk, AcksOk;
    RunKeeps(start, run);
  }

  lemma FifoBounded(start: State, run: seq<Action>)
    requires Init(start)
    ensures |Exec(start, run).w.fifo| <= MAX_OVERFLOW_BUSES && Exec(start, run).w.filled <= Exec(start, run).n
  {
    hide Exec, Init;
    Bounds(start, run);
  }

  lemma IndexWraps(start: State, run: seq<Action>)
    ensures Exec(start, run).w.nextReadIndex == Wrap(Exec(start, run).w.nextReadIndex)
  {
    hide Exec;
    WrapSmall(Exec(start, run).w.nextReadIndex);
  }

  /** The next acknowledgement is the one the writer expects. */
  lemma AckMatches(start: State, run: seq<Action>)
    requires Init(start) && Exec(start, run).w.pc.Draining?
    ensures var s := Exec(start, run);
            && 0 < s.w.pc.left && s.c.acks != [] && s.w.filled > 0 && s.c.acks[0] == Wrap(s.w.nextReadIndex + 1)
  {
    hide Exec, Contents, Ledger, NotesOk, ReaderOk, SlotAt, Wrap;
    RunKeeps(start, run);
    var s := Exec(start, run);
    AcksTail(|s.h.accepted| - s.w.filled, s.c.acks);
  }

  /** The notified segment is the reader's, carries the next id and is no pause signal. */
  lemma NoticeMatches(start: State, run: seq<Action>)
    requires Init(start) && Exec(start, run).r.pc.Received?
    ensures var s := Exec(start, run);
            && s.r.segment < |s.c.ring| && s.r.pc.pending == s.r.segment < MAX32
            && s.c.ring[s.r.segment].params.id == Wrap(s.r.lastBufferId + 1)
  {
    hide Exec, Ledger, NotesOk, AcksOk, SlotAt, Wrap;
    RunKeeps(start, run);
    var s := Exec(start, run);
    WrapNext(|s.h.delivered|);
    assert Holds(s.c.ring[SlotAt(Done(s), s.n)], s.h.written[s.h.accepted[Done(s)]], Done(s));
  }

  /** `write_error` is set exactly when this Write() has dropped a buffer. */
  lemma ErrorFlag(start: State, run: seq<Action>)
    requires Init(start) && !Exec(start, run).w.pc.Idle?
    ensures var s := Exec(start, run); s.w.writeError <==> s.h.dropped != s.h.droppedBefore
  {
    hide Exec, Transport, Contents, OrderOk, FifoOk, CountsOk;
    RunKeeps(start, run);
  }

  /** What Decide does to the writer when the ring is full: queue the buffer, or drop it. */
  lemma DecideWhenFull(s: State)
    requires s.w.pc.Deciding? && s.w.filled >= s.n && |s.w.fifo| <= MAX_OVERFLOW_BUSES
    ensures var t := Next(s, Decide); var k := s.w.counters; var full := |s.w.fifo| == MAX_OVERFLOW_BUSES;
            && t == s.(w := t.w, h := t.h)
            && t.w == s.w.(pc := Finishing, fifo := if full then s.w.fifo else s.w.fifo + [s.w.current],
                           writeError := s.w.writeError || full,
                           counters := k.(toFifo := k.toFifo + 1, trailingToFifo := k.trailingToFifo + 1))
            && t.h.accepted == s.h.accepted && t.h.written == s.h.written && t.h.droppedBefore == s.h.droppedBefore
  {
    assert s.faults + {} == s.faults;
  }

  /** What sending the current buffer does to the writer and the socket. */
  lemma SendDirect(s: State, ok: bool)
    requires s.w.pc.Filling? && s.w.pc.stage.AudioWritten? && s.w.pc.src.Direct? && s.w.filled < s.n
    ensures var t := Next(s, Send(ok));
            && t == s.(w := t.w, c := s.c.(notes := if ok then s.c.notes + [Wrap(s.w.segment)] else s.c.notes), h := t.h)
            && t.w == (if ok then s.w.(segment := NextSlot(s.w.segment, s.n), filled := s.w.filled + 1,
                                       nextBufferId := Wrap(s.w.nextBufferId + 1))
                       else s.w).(pc := Finishing, writeError := s.w.writeError || !ok,
                                  counters := s.w.counters.(trailingToFifo := 0))
            && t.h.written == s.h.written && t.h.droppedBefore == s.h.droppedBefore
  {
    hide Wrap;
    assert s.faults + {} == s.faults;
  }

  lemma SendFromFifo(s: State, ok: bool)
    requires s.w.pc.Filling? && s.w.pc.stage.AudioWritten? && s.w.pc.src.FromFifo? && s.w.filled < s.n
    ensures var t := Next(s, Send(ok));
            && t == s.(w := t.w, c := s.c.(notes := if ok then s.c.notes + [Wrap(s.w.segment)] else s.c.notes), h := t.h)
            && t.w == (if ok then s.w.(segment := NextSlot(s.w.segment, s.n), filled := s.w.filled + 1,
                                       nextBufferId := Wrap(s.w.nextBufferId + 1))
                       else s.w).(pc := FlushTest(s.w.pc.src.it + 1), writeError := s.w.writeError || !ok)
            && t.h.written == s.h.written && t.h.droppedBefore == s.h.droppedBefore
  {
    hide Wrap;
    assert s.faults + {} == s.faults;
  }

  /** A successful send announces one more buffer. */
  lemma SendGrows(start: State, run: seq<Action>, ok: bool)
    requires Init(start) && Exec(start, run).w.pc.Filling? && Exec(start, run).w.pc.stage.AudioWritten?
    ensures var s := Exec(start, run);
            |Next(s, Send(ok)).h.accepted| == |s.h.accepted| + if ok then 1 else 0
  {
    hide Exec, Init, Inv;
    RunKeeps(start, run);
    CaptureTheorems.SendSource(Exec(start, run));
  }

  /** Shared memory and the socket pair. */
  class SharedChannel {
    const ring: array<Segment>
    var notes: seq<u32>
    var acks: seq<u32>

    constructor (ring: array<Segment>)
      ensures this.ring == ring && notes == [] && acks == []
    {
      this.ring := ring;
      notes, acks := [], [];
    }

    ghost function View(): Channel
      reads this, ring
    {
      Channel(ring[..], notes, acks)
    }
  }

  /** AudioDeviceThread running AudioInputDevice::AudioThreadCallback. */
  class CaptureThread {
    var segment: nat
    var lastBufferId: u32
    var bufferIndex: u32
    var pc: ReaderPc

    constructor ()
      ensures View() == Reader(0, MAX32, 0, Waiting)
    {
      segment, lastBufferId, bufferIndex, pc := 0, MAX32, 0, Waiting;
    }

    ghost function View(): Reader
      reads this
    {
      Reader(segment, lastBufferId, bufferIndex, pc)
    }
  }

  class SyncWriter {
    const channel: SharedChannel
    const reader: CaptureThread
    const segments: nat

    var segment: nat
    var nextBufferId: u32
    var nextReadIndex: u32
    var filled: nat
    var overflow: seq<Buffer>
    var writeCount: nat
    var writeToFifoCount: nat
    var writeErrorCount: nat
    var trailingWriteToFifoCount: nat
    var trailingWriteErrorCount: nat

    // What Write() keeps in its program counter, argument and local variable.
    ghost var pc: WriterPc
    ghost var current: Buffer
    ghost var errorSoFar: bool

    ghost var h: History
    ghost var start: State
    ghost var run: seq<Action>

    ghost function Own(): Writer
      reads this
    {
      Writer(segment, nextBufferId, nextReadIndex, filled, overflow,
             Counters(writeCount, writeToFifoCount, writeErrorCount,
                      trailingWriteToFifoCount, trailingWriteErrorCount),
             pc, current, errorSoFar)
    }

    ghost function View(): State
      reads this, channel, channel.ring, reader
    {
      State(segments, Own(), channel.View(), reader.View(), {}, h)
    }

    /** The objects are in a state that a run of the machine reaches. */
    ghost predicate Valid()
      reads this, channel, channel.ring, reader
    {
      Init(start) && View() == Exec(start, run)
    }

    /** Everything of the writer that the audio thread never touches. */
    ghost function Private(): (Writer, seq<Buffer>, seq<nat>, seq<nat>, set<nat>, set<nat>)
      reads this, channel, channel.ring, reader
    {
      (View().w, h.written, h.accepted, h.queued, h.dropped, h.droppedBefore)
    }

    constructor (ring: array<Segment>, reader: CaptureThread)
      requires 0 < ring.Length < TWO32
      requires reader.View() == Reader(0, MAX32, 0, Waiting)
      ensures Valid() && pc.Idle? && h.written == []
    {
      this.channel := new SharedChannel(ring);
      this.reader := reader;
      segments := ring.Length;
      segment, nextBufferId, nextReadIndex, filled, overflow := 0, 0, 0, 0, [];
      writeCount, writeToFifoCount, writeErrorCount := 0, 0, 0;
      trailingWriteToFifoCount, trailingWriteErrorCount := 0, 0;
      pc, current, errorSoFar := Idle, Buffer([], 0.0, false, 0), false;
      h := History([], [], [], {}, {}, [], [], []);
      run := [];
      new;
      start := View();
    }

    /** Records that the objects have just taken the step `a`. */
    ghost method Took(before: State, a: Action)
      requires Init(start) && before == Exec(start, run) && View() == Next(before, a)
      modifies this`run
      ensures Valid() && run == old(run) + [a]
    {
      hide Exec, Init, Next;
      ExecSnoc(start, run, a);
      run := run + [a];
    }

    /** The ghost half of a step of Write(): program counter, error flag and history. */
    ghost method EndStep(before: State, a: Action, next: WriterPc, failed: bool)
      requires Init(start) && before == Exec(start, run)
      requires var t := Next(before, a);
               t == View().(w := View().w.(pc := next, writeError := View().w.writeError || failed), h := t.h)
      modifies this`pc, this`errorSoFar, this`h, this`run
      ensures Valid() && pc == next && errorSoFar == (old(errorSoFar) || failed) && h == Next(before, a).h
    {
      hide Exec, Init, SlotAt, Wrap, Next;
      pc, errorSoFar, h := next, errorSoFar || failed, Next(before, a).h;
      Took(before, a);
    }

    // -------------------------------------------------- the renderer's thread

    method ReceiveNotification()
      requires Valid() && reader.pc.Waiting? && channel.notes != []
      modifies reader`pc, channel`notes, this`run
      ensures Valid() && Private() == old(Private()) && channel.acks == old(channel.acks)
    {
      ghost var before := View();
      reader.pc := Received(channel.notes[0]);
      channel.notes := channel.notes[1..];
      Took(before, Receive);
    }

    method CheckSegment()
      requires Valid() && reader.pc.Received?
      modifies reader`pc, reader`lastBufferId, this`run
      ensures Valid() && Private() == old(Private())
    {
      hide Exec, Init, SlotAt, Wrap;
      ghost var before := View();
      NoticeMatches(start, run);
      var id := channel.ring[reader.segment].params.id;
      assert id == Wrap(reader.lastBufferId + 1);
      assert reader.pc.pending == reader.segment;
      reader.lastBufferId := id;
      reader.pc := Checked;
      Took(before, CheckParams);
    }

    method DeliverSegment() returns (captured: Buffer)
      requires Valid() && reader.pc.Checked?
      modifies reader`pc, reader`segment, this`h, this`run
      ensures Valid() && Private() == old(Private())
      ensures h.delivered == old(h.delivered) + [captured]
    {
      ghost var before := View();
      Bounds(start, run);
      captured := BufferOf(channel.ring[reader.segment]);
      h := h.(delivered := h.delivered + [captured]);
      reader.segment := NextSlot(reader.segment, segments);
      reader.pc := Processed;
      Took(before, Capture);
    }

    method Acknowledge(ok: bool)
      requires Valid() && reader.pc.Processed?
      modifies reader`pc, reader`bufferIndex, channel`acks, this`run
      ensures Valid() && Private() == old(Private())
      ensures old(channel.acks) <= channel.acks
    {
      ghost var before := View();
      reader.bufferIndex := Wrap(reader.bufferIndex + 1);
      if ok {
        channel.acks := channel.acks + [reader.bufferIndex];
        reader.pc := Waiting;
      } else {
        reader.pc := Stopped(true);
      }
      Took(before, Ack(ok));
    }

    method StopReceiving()
      requires Valid() && reader.pc.Waiting?
      modifies reader`pc, this`run
      ensures Valid() && Private() == old(Private())
    {
      ghost var before := View();
      reader.pc := Stopped(false);
      Took(before, ReceiveFails);
    }

    /** Any number of steps of AudioDeviceThread::ThreadMain(). */
    method Interfere()
      requires Valid()
      modifies reader, channel`notes, channel`acks, this`h, this`run
      ensures Valid() && Private() == old(Private())
      ensures old(channel.acks) <= channel.acks
    {
      var steps: nat := *;
      while steps > 0
        invariant Valid() && Private() == old(Private())
        invariant old(channel.acks) <= channel.acks
      {
        steps := steps - 1;
        var choice: bool := *;
        if reader.pc.Waiting? && channel.notes != [] && choice {
          ReceiveNotification();
        } else if reader.pc.Waiting? && !choice {
          StopReceiving();
        } else if reader.pc.Received? {
          CheckSegment();
        } else if reader.pc.Checked? {
          var _ := DeliverSegment();
        } else if reader.pc.Processed? {
          Acknowledge(choice);
        }
      }
    }

    // ------------------------------------------------------ the writer's steps

    /** The acknowledgements received so far: announced buffers less filled segments. */
    ghost function AcksTaken(): int
      reads this
    {
      |h.accepted| - filled
    }

    /** What one Write() call has in progress stays put while other steps are taken. */
    ghost predicate InCall(data: Buffer, written: seq<Buffer>, droppedBefore: set<nat>)
      reads this
    {
      current == data && h.written == written && h.droppedBefore == droppedBefore
    }

    method Enter(data: Buffer)
      requires Valid() && pc.Idle?
      modifies this
      ensures Valid() && pc.Entered? && !errorSoFar && InCall(data, old(h.written) + [data], old(h.dropped))
      ensures writeCount == old(writeCount) + 1 && writeErrorCount == old(writeErrorCount) && writeToFifoCount == old(writeToFifoCount)
      ensures AcksTaken() == old(AcksTaken()) && channel.acks == old(channel.acks)
    {
      hide Exec, Init, SlotAt, Wrap, SharedChannel.View, CaptureThread.View;
      ghost var before := View();
      writeCount := writeCount + 1;
      pc, current, errorSoFar := Entered, data, false;
      h := h.(written := h.written + [data], droppedBefore := h.dropped);
      Took(before, BeginWrite(data));
    }

    method DrainOne()
      requires Valid() && pc.Draining?
      modifies this, channel`acks
      ensures Valid() && InCall(current, old(h.written), old(h.droppedBefore)) && current == old(current)
      ensures pc == if old(pc.left) <= 1 then FlushTest(0) else Draining(old(pc.left) - 1)
      ensures errorSoFar == old(errorSoFar)
      ensures writeCount == old(writeCount) && writeErrorCount == old(writeErrorCount) && writeToFifoCount == old(writeToFifoCount)
      ensures AcksTaken() == old(AcksTaken()) + 1 && filled == old(filled) - 1
      ensures nextReadIndex == Wrap(old(nextReadIndex) + 1)
      ensures old(channel.acks) != [] && channel.acks == old(channel.acks)[1..]
    {
      hide Exec, Init, SlotAt, Wrap;
      ghost var before := View();
      AckMatches(start, run);
      nextReadIndex := Wrap(nextReadIndex + 1);
      assert channel.acks[0] == nextReadIndex;
      assert filled > 0;
      filled := filled - 1;
      channel.acks := channel.acks[1..];
      pc := if pc.left == 1 then FlushTest(0) else Draining(pc.left - 1);
      Took(before, DrainAck);
    }

    method PeekAcknowledgements() returns (available: nat)
      requires Valid() && pc.Entered?
      modifies this`pc, this`run
      ensures Valid() && pc == if available == 0 then FlushTest(0) else Draining(available)
      ensures available == |channel.acks|
    {
      hide Exec, Init, SlotAt, Wrap;
      ghost var before := View();
      available := |channel.acks|;
      pc := if available == 0 then FlushTest(0) else Draining(available);
      Took(before, Peek);
    }

    /** Peek, then receive and verify as many acknowledgements as Peek() saw. */
    method DrainAcknowledgements()
      requires Valid() && pc.Entered? && !errorSoFar
      modifies this, channel, reader
      ensures Valid() && pc == FlushTest(0) && !errorSoFar
      ensures InCall(old(current), old(h.written), old(h.droppedBefore))
      ensures writeCount == old(writeCount) && writeErrorCount == old(writeErrorCount) && writeToFifoCount == old(writeToFifoCount)
      ensures filled == old(filled) - |old(channel.acks)|
      ensures nextReadIndex == Wrap(old(nextReadIndex) + |old(channel.acks)|)
      ensures AcksTaken() == old(AcksTaken()) + |old(channel.acks)|
    {
      hide Exec, Init, SlotAt, Wrap, Next, SharedChannel.View, CaptureThread.View;
      var available := PeekAcknowledgements();
      assert available == |old(channel.acks)|;
      IndexWraps(start, run);
      var i := 0;
      while i < available
        invariant Valid() && !errorSoFar && i <= available
        invariant pc == if i == available then FlushTest(0) else Draining(available - i)
        invariant AcksTaken() == old(AcksTaken()) + i && filled == old(filled) - i
        invariant nextReadIndex == Wrap(old(nextReadIndex) + i)
        invariant InCall(old(current), old(h.written), old(h.droppedBefore))
        invariant writeCount == old(writeCount) && writeErrorCount == old(writeErrorCount) && writeToFifoCount == old(writeToFifoCount)
      {
        Interfere();
        DrainOne();
        WrapAdd(old(nextReadIndex) + i, 1);
        i := i + 1;
      }
    }

    /** The error counts at the end of Write(). */
    method Leave(writeError: bool)
      requires Valid() && pc.Finishing? && writeError == errorSoFar
      modifies this
      ensures Valid() && pc.Idle? && h.written == old(h.written) && writeCount == old(writeCount)
      ensures writeErrorCount == old(writeErrorCount) + if h.dropped == old(h.droppedBefore) then 0 else 1
      ensures AcksTaken() == old(AcksTaken())
      ensures overflow == old(overflow) && filled == old(filled) && writeToFifoCount == old(writeToFifoCount)
    {
      hide Exec, Init, SlotAt, Wrap;
      ghost var before := View();
      ErrorFlag(start, run);
      if writeError {
        writeErrorCount := writeErrorCount + 1;
        trailingWriteErrorCount := trailingWriteErrorCount + 1;
      } else {
        trailingWriteErrorCount := 0;
      }
      pc := Idle;
      h := h.(outcomes := h.outcomes + [h.dropped != h.droppedBefore]);
      Took(before, FinishWrite);
    }

    /** WriteParametersToCurrentSegment(). */
    method WriteParameters(b: Buffer)
      requires Valid() && pc.Filling? && pc.stage.NothingWritten? && b == SourceBuffer(View().w)
      modifies this, channel.ring
      ensures Valid() && pc == Filling(old(pc.src), ParamsWritten) && b == SourceBuffer(View().w)
      ensures Private() == old(Private()).(0 := old(Private()).0.(pc := pc))
    {
      hide Exec, Init, SlotAt, Wrap;
      ghost var before := View();
      Bounds(start, run);
      assert segment < channel.ring.Length;
      channel.ring[segment] := channel.ring[segment].(params := ParamsOf(b, nextBufferId));
      pc := Filling(pc.src, ParamsWritten);
      assert View().c.ring == before.c.ring[segment := View().c.ring[segment]];
      Took(before, FillParams);
    }

    method CopyAudio(b: Buffer)
      requires Valid() && pc.Filling? && pc.stage.ParamsWritten? && b == SourceBuffer(View().w)
      modifies this, channel.ring
      ensures Valid() && pc == Filling(old(pc.src), AudioWritten)
      ensures Private() == old(Private()).(0 := old(Private()).0.(pc := pc))
    {
      hide Exec, Init, SlotAt, Wrap;
      ghost var before := View();
      Bounds(start, run);
      channel.ring[segment] := channel.ring[segment].(audio := b.audio);
      pc := Filling(pc.src, AudioWritten);
      assert View().c.ring == before.c.ring[segment := View().c.ring[segment]];
      Took(before, FillAudio);
    }

    /** SignalDataWrittenAndUpdateCounters(); `ok` is the outcome of the socket's Send(). */
    method SignalDataWritten(ok: bool) returns (sent: bool)
      requires Valid() && pc.Filling? && pc.stage.AudioWritten?
      modifies this`segment, this`filled, this`nextBufferId, channel`notes
      ensures sent == ok
      ensures View() == if ok then
          old(View()).(w := old(View().w).(segment := NextSlot(old(segment), segments), filled := old(filled) + 1,
                                           nextBufferId := Wrap(old(nextBufferId) + 1)),
                       c := old(View().c).(notes := old(channel.notes) + [Wrap(old(segment))]))
        else old(View())
      ensures filled <= segments
    {
      hide Exec, Init, SlotAt, Wrap;
      Bounds(start, run);
      if !ok {
        return false;
      }
      channel.notes := channel.notes + [Wrap(segment)];
      segment := if segment + 1 >= segments then 0 else segment + 1;
      filled := filled + 1;
      assert filled <= segments;
      nextBufferId := Wrap(nextBufferId + 1);
      return true;
    }

    /** One turn of the flush loop's tail: the iterator advances whatever Send() did. */
    method SendQueued(ok: bool) returns (sent: bool)
      requires Valid() && pc.Filling? && pc.stage.AudioWritten? && pc.src.FromFifo?
      modifies this, channel`notes
      ensures Valid() && sent == ok && pc == FlushTest(old(pc.src.it) + 1)
      ensures InCall(old(current), old(h.written), old(h.droppedBefore)) && overflow == old(overflow)
      ensures filled == old(filled) + if ok then 1 else 0
      ensures errorSoFar == (old(errorSoFar) || !ok)
      ensures writeCount == old(writeCount) && writeErrorCount == old(writeErrorCount) && writeToFifoCount == old(writeToFifoCount)
      ensures AcksTaken() == old(AcksTaken())
    {
      hide Exec, Init, SlotAt, Wrap, Next;
      ghost var before := View();
      Bounds(start, run);
      SendFromFifo(before, ok);
      SendGrows(start, run, ok);
      sent := SignalDataWritten(ok);
      EndStep(before, Send(ok), FlushTest(pc.src.it + 1), !ok);
    }

    method SendCurrent(ok: bool) returns (sent: bool)
      requires Valid() && pc.Filling? && pc.stage.AudioWritten? && pc.src.Direct?
      modifies this, channel`notes
      ensures Valid() && sent == ok && pc.Finishing?
      ensures InCall(old(current), old(h.written), old(h.droppedBefore))
      ensures errorSoFar == (old(errorSoFar) || !ok)
      ensures writeCount == old(writeCount) && writeErrorCount == old(writeErrorCount) && writeToFifoCount == old(writeToFifoCount)
      ensures AcksTaken() == old(AcksTaken())
      ensures overflow == old(overflow)
    {
      hide Exec, Init, SlotAt, Wrap, Next;
      ghost var before := View();
      Bounds(start, run);
      SendDirect(before, ok);
      SendGrows(start, run, ok);
      sent := SignalDataWritten(ok);
      trailingWriteToFifoCount := 0;
      EndStep(before, Send(ok), Finishing, !ok);
    }

    /** PushDataToFifo(). */
    method PushDataToFifo(data: Buffer) returns (pushed: bool)
      requires |overflow| <= MAX_OVERFLOW_BUSES
      modifies this`overflow
      ensures pushed == (|old(overflow)| != MAX_OVERFLOW_BUSES) && |overflow| <= MAX_OVERFLOW_BUSES
      ensures overflow == if pushed then old(overflow) + [data] else old(overflow)
    {
      if |overflow| == MAX_OVERFLOW_BUSES {
        return false;
      }
      overflow := overflow + [data];
      return true;
    }

    /** The branch of Write() for a full ring. */
    method QueueCurrent(data: Buffer) returns (pushed: bool)
      requires Valid() && pc.Deciding? && filled >= segments && data == current
      modifies this
      ensures Valid() && pc.Finishing? && pushed == (|old(overflow)| != MAX_OVERFLOW_BUSES)
      ensures InCall(data, old(h.written), old(h.droppedBefore))
      ensures errorSoFar == (old(errorSoFar) || !pushed)
      ensures writeCount == old(writeCount) && writeErrorCount == old(writeErrorCount) && writeToFifoCount == old(writeToFifoCount) + 1
      ensures AcksTaken() == old(AcksTaken()) && filled == segments
    {
      hide Exec, Init, SlotAt, Wrap, Next, SharedChannel.View, CaptureThread.View;
      ghost var before := View();
      FifoBounded(start, run);
      DecideWhenFull(before);
      pushed := PushDataToFifo(data);
      writeToFifoCount, trailingWriteToFifoCount := writeToFifoCount + 1, trailingWriteToFifoCount + 1;
      EndStep(before, Decide, Finishing, !pushed);
    }

    /** One turn of the flush loop: segment parameters, audio, then the announcement. */
    method WriteQueued(it: nat) returns (sent: bool)
      requires Valid() && pc == FlushTest(it) && it < |overflow| && filled < segments
      modifies this, channel, channel.ring, reader
      ensures Valid() && pc == FlushTest(it + 1) && overflow == old(overflow)
      ensures errorSoFar == (old(errorSoFar) || !sent)
      ensures InCall(old(current), old(h.written), old(h.droppedBefore))
      ensures writeCount == old(writeCount) && writeErrorCount == old(writeErrorCount) && writeToFifoCount == old(writeToFifoCount)
      ensures AcksTaken() == old(AcksTaken())
    {
      hide Exec, Init, SlotAt, Wrap, Next;
      TakeQueued(it);
      Interfere();
      WriteParameters(overflow[it]);
      Interfere();
      CopyAudio(overflow[it]);
      Interfere();
      var ok: bool := *;
      sent := SendQueued(ok);
    }

    /** The loop test finds a queued buffer and room for it. */
    ghost method TakeQueued(it: nat)
      requires Valid() && pc == FlushTest(it) && it < |overflow| && filled < segments
      modifies this
      ensures Valid() && pc == Filling(FromFifo(it), NothingWritten) && overflow[it] == SourceBuffer(View().w)
      ensures Private() == old(Private()).(0 := old(Private()).0.(pc := pc))
    {
      hide Exec, Init, SlotAt, Wrap;
      ghost var before := View();
      pc := Filling(FromFifo(it), NothingWritten);
      Took(before, TestFlush);
    }

    /** Write() finds room for its own buffer. */
    ghost method TakeCurrent()
      requires Valid() && pc.Deciding? && filled < segments
      modifies this
      ensures Valid() && pc == Filling(Direct, NothingWritten) && current == SourceBuffer(View().w)
      ensures Private() == old(Private()).(0 := old(Private()).0.(pc := pc))
    {
      hide Exec, Init, SlotAt, Wrap;
      ghost var before := View();
      pc := Filling(Direct, NothingWritten);
      Took(before, Decide);
    }

    /** The current buffer into the ring: segment parameters, audio, then the announcement. */
    method WriteCurrent(data: Buffer) returns (sent: bool)
      requires Valid() && pc.Deciding? && filled < segments && data == current
      modifies this, channel, channel.ring, reader
      ensures Valid() && pc.Finishing?
      ensures errorSoFar == (old(errorSoFar) || !sent)
      ensures InCall(data, old(h.written), old(h.droppedBefore))
      ensures writeCount == old(writeCount) && writeErrorCount == old(writeErrorCount) && writeToFifoCount == old(writeToFifoCount)
      ensures AcksTaken() == old(AcksTaken())
      ensures overflow == old(overflow)
    {
      hide Exec, Init, SlotAt, Wrap, Next;
      TakeCurrent();
      Interfere();
      WriteParameters(data);
      Interfere();
      CopyAudio(data);
      Interfere();
      var ok: bool := *;
      sent := SendCurrent(ok);
    }

    /** WriteDataFromFifoToSharedMemory(): afterwards the FIFO is empty or the ring is full. */
    method WriteDataFromFifoToSharedMemory() returns (clean: bool)
      requires Valid() && pc == FlushTest(0) && !errorSoFar
      modifies this, channel, channel.ring, reader
      ensures Valid() && pc.Deciding? && clean == !errorSoFar
      ensures overflow == [] || filled == segments
      ensures exists k | 0 <= k <= |old(overflow)| :: overflow == old(overflow)[k..]
      ensures InCall(old(current), old(h.written), old(h.droppedBefore))
      ensures writeCount == old(writeCount) && writeErrorCount == old(writeErrorCount) && writeToFifoCount == old(writeToFifoCount)
      ensures AcksTaken() == old(AcksTaken())
    {
      hide Exec, Init, SlotAt, Wrap, Next;
      clean := true;
      var it := 0;
      while it < |overflow| && filled < segments
        invariant Valid() && pc == FlushTest(it) && clean == !errorSoFar
        invariant it <= |overflow| && overflow == old(overflow) && AcksTaken() == old(AcksTaken())
        invariant InCall(old(current), old(h.written), old(h.droppedBefore))
        invariant writeCount == old(writeCount) && writeErrorCount == old(writeErrorCount) && writeToFifoCount == old(writeToFifoCount)
      {
        var sent := WriteQueued(it);
        if !sent {
          clean := false;
        }
        it := it + 1;
        Interfere();
      }
      EraseCopied(it);
    }

    /** The erase after the flush loop. */
    method EraseCopied(it: nat)
      requires Valid() && pc == FlushTest(it) && it <= |overflow| && (it < |overflow| ==> filled >= segments)
      modifies this`overflow, this`pc, this`run
      ensures Valid() && pc.Deciding? && overflow == old(overflow)[it..]
      ensures overflow == [] || filled == segments
    {
      hide Exec, Init, SlotAt, Wrap;
      ghost var before := View();
      overflow := overflow[it..];
      pc := Deciding;
      Took(before, TestFlush);
      Bounds(start, run);
    }

    /** AudioInputSyncWriter::Write(). */
    method Write(data: Buffer)
      requires Valid() && pc.Idle?
      modifies this, channel, channel.ring, reader
      ensures Valid() && pc.Idle?
      ensures h.written == old(h.written) + [data]
      ensures writeCount == old(writeCount) + 1
      ensures writeErrorCount == old(writeErrorCount) + if h.dropped == old(h.dropped) then 0 else 1
      // Every acknowledgement queued at entry has been taken; after that and the flush, the buffer
      // goes to the FIFO only with the ring full, and otherwise the FIFO is empty.
      ensures AcksTaken() >= old(AcksTaken()) + |old(channel.acks)|
      ensures writeToFifoCount == old(writeToFifoCount) || writeToFifoCount == old(writeToFifoCount) + 1
      ensures writeToFifoCount > old(writeToFifoCount) ==> filled == segments
      ensures writeToFifoCount == old(writeToFifoCount) ==> overflow == []
    {
      hide Exec, Init, SlotAt, Wrap;
      Enter(data);
      Interfere();
      DrainAcknowledgements();
      Interfere();
      var clean := WriteDataFromFifoToSharedMemory();
      var writeError := !clean;
      Interfere();
      if filled < segments {
        var sent := WriteCurrent(data);
        if !sent {
          writeError := true;
        }
      } else {
        var pushed := QueueCurrent(data);
        if !pushed {
          writeError := true;
        }
      }
      Interfere();
      Leave(writeError);
    }

    /** A whole capture session: any buffers, any interference, any failing sends. What the client
        got, what is unread in the ring and what is queued are the written buffers less the
        dropped ones, in order. */
    method WriteAll(buffers: seq<Buffer>)
      requires Valid() && pc.Idle? && h.written == []
      modifies this, channel, channel.ring, reader
      ensures Valid() && pc.Idle? && h.written == buffers && writeCount == old(writeCount) + |buffers|
      ensures CaptureTheorems.Readable(View())
      ensures h.delivered + CaptureTheorems.Unread(View()) + overflow == LossyQueue.Survivors(buffers, h.dropped)
      ensures h.dropped == {} ==> h.delivered <= buffers
    {
      hide Exec, Init, CaptureTheorems.Readable, CaptureTheorems.Unread, LossyQueue.Survivors;
      for i := 0 to |buffers|
        invariant Valid() && pc.Idle? && h.written == buffers[..i] && writeCount == old(writeCount) + i
      {
        Write(buffers[i]);
        assert buffers[..i + 1] == buffers[..i] + [buffers[i]];
      }
      assert buffers[..|buffers|] == buffers;
      CaptureTheorems.CaptureRefinement(start, run);
      assert CaptureTheorems.Waiting(View()) == overflow;
    }

    /** ~AudioInputSyncWriter(): no subtraction of a trailing count goes below zero. If writes are
        left, two percentages are reported; each is at most 100 exactly under the condition given,
        which may fail. */
    method Destroy() returns (reported: bool, missedDeadline: real, droppedData: real)
      requires Valid() && pc.Idle?
      modifies this`writeCount, this`writeToFifoCount, this`writeErrorCount
      ensures writeToFifoCount + trailingWriteToFifoCount == old(writeToFifoCount)
      ensures writeErrorCount + trailingWriteErrorCount == old(writeErrorCount)
      ensures writeCount == TrimmedWrites(old(Own()).counters)
      ensures reported <==> writeCount > 0
      ensures reported ==> missedDeadline >= 0.0 && droppedData >= 0.0
      ensures reported ==>
                && CapturePercentages.IsPercentage(missedDeadline, writeToFifoCount, writeCount)
                && CapturePercentages.IsPercentage(droppedData, writeErrorCount, writeCount)
      ensures reported ==>
                (missedDeadline <= 100.0 <==>
                   trailingWriteErrorCount - trailingWriteToFifoCount <= old(writeCount) - old(writeToFifoCount))
      ensures reported ==>
                (droppedData <= 100.0 <==>
                   trailingWriteToFifoCount - trailingWriteErrorCount <= old(writeCount) - old(writeErrorCount))
    {
      hide Exec, Init, SlotAt, Wrap, CapturePercentages.Percent, CapturePercentages.IsPercentage;
      CapturePercentages.TrimmedFacts(start, run);
      writeToFifoCount := writeToFifoCount - trailingWriteToFifoCount;
      writeErrorCount := writeErrorCount - trailingWriteErrorCount;
      writeCount := writeCount - if trailingWriteToFifoCount > trailingWriteErrorCount then trailingWriteToFifoCount
                                 else trailingWriteErrorCount;
      reported, missedDeadline, droppedData := writeCount != 0, 0.0, 0.0;
      if reported {
        missedDeadline := CapturePercentages.Percent(writeToFifoCount, writeCount);
        droppedData := CapturePercentages.Percent(writeErrorCount, writeCount);
      }
    }
  }
}
