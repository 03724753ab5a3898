/** The two percentages that ~AudioInputSyncWriter() reports. Both trailing counts
    shorten the number of writes, but each numerator is shortened by its own only,
    so a percentage may exceed 100: exactly when, and a session for each. */
module CapturePercentages {
  import opened Words
  import opened LossyQueue
  import opened CaptureMachine
  import opened CaptureInvariant

  /** The dropped-data percentage is one unless the calls that dropped nothing are fewer than the
      final calls through the FIFO that come on top of the final calls with a drop. */
  lemma DroppedPercentageExact(s0: State, run: seq<Action>)
    requires Init(s0) && Exec(s0, run).w.pc.Idle? && TrimmedWrites(Exec(s0, run).w.counters) != 0
    ensures var s := Exec(s0, run);
            var clean := |s.h.outcomes| - CountTrue(s.h.outcomes);
            && TrimmedWrites(s.w.counters) > 0
            && DroppedPercentage(s.w.counters) >= 0.0
            && (DroppedPercentage(s.w.counters) <= 100.0 <==>
                  TrailingTrue(s.h.viaFifo) - TrailingTrue(s.h.outcomes) <= clean)
  {
    hide Exec, Init;
    var s := Exec(s0, run);
    TrimmedFacts(s0, run);
    var k := s.w.counters;
    Ratio(k.errors - k.trailingErrors, TrimmedWrites(k));
  }

  /** The FIFO percentage is one unless the calls that did not use the FIFO are fewer than the final
      calls with a drop that come on top of the final calls through the FIFO. */
  lemma FifoPercentageExact(s0: State, run: seq<Action>)
    requires Init(s0) && Exec(s0, run).w.pc.Idle? && TrimmedWrites(Exec(s0, run).w.counters) != 0
    ensures var s := Exec(s0, run);
            var direct := |s.h.viaFifo| - CountTrue(s.h.viaFifo);
            && TrimmedWrites(s.w.counters) > 0
            && FifoPercentage(s.w.counters) >= 0.0
            && (FifoPercentage(s.w.counters) <= 100.0 <==>
                  TrailingTrue(s.h.outcomes) - TrailingTrue(s.h.viaFifo) <= direct)
  {
    hide Exec, Init;
    var s := Exec(s0, run);
    TrimmedFacts(s0, run);
    var k := s.w.counters;
    Ratio(k.toFifo - k.trailingToFifo, TrimmedWrites(k));
  }

  /** Between calls, the counters are those of the outcomes. */
  lemma TrimmedFacts(s0: State, run: seq<Action>)
    requires Init(s0) && Exec(s0, run).w.pc.Idle?
    ensures var s := Exec(s0, run); var k := s.w.counters;
            && k.writes == |s.h.outcomes| == |s.h.viaFifo|
            && k.errors == CountTrue(s.h.outcomes) && k.trailingErrors == TrailingTrue(s.h.outcomes)
            && k.toFifo == CountTrue(s.h.viaFifo) && k.trailingToFifo == TrailingTrue(s.h.viaFifo)
            && k.trailingErrors <= k.errors <= k.writes && k.trailingToFifo <= k.toFifo <= k.writes
  {
    hide Exec, Init, Transport, Contents;
    var s := Exec(s0, run);
    RunKeeps(s0, run);
    TrailingBounded(s.h.outcomes);
    TrailingBounded(s.h.viaFifo);
  }

  predicate IsPercentage(r: real, part: nat, whole: nat) {
    r * whole as real == 100.0 * part as real
  }

  function Percent(part: nat, whole: nat): (r: real)
    requires 0 < whole
    ensures r >= 0.0 && IsPercentage(r, part, whole)
    ensures r <= 100.0 <==> part <= whole
  {
    Ratio(part, whole);
    100.0 * part as real / whole as real
  }

  lemma Ratio(part: nat, whole: nat)
    requires whole > 0
    ensures 100.0 * part as real / whole as real >= 0.0
    ensures 100.0 * part as real / whole as real <= 100.0 <==> part <= whole
  {
    var q := 100.0 * part as real / whole as real;
    assert q * whole as real == 100.0 * part as real;
    if part > whole {
      assert q * whole as real > 100.0 * whole as real;
    }
  }

  // ------------------------------------------------------------- the sessions

  /** A call that finds the FIFO empty and room in the ring. */
  function DirectCall(b: Buffer): seq<Action> {
    [BeginWrite(b), Peek] + DirectRest()
  }

  /** A call that finds the ring full. */
  function FullCall(b: Buffer): seq<Action> {
    [BeginWrite(b), Peek, TestFlush, Decide, FinishWrite]
  }

  function FullCalls(b: Buffer, m: nat): seq<Action> {
    if m == 0 then [] else FullCalls(b, m - 1) + FullCall(b)
  }

  /** The reader takes one buffer and acknowledges it. */
  function ReadOne(): seq<Action> {
    [Receive, CheckParams, Capture, Ack(true)]
  }

  /** A call that finds one acknowledgement. */
  function EnterWithAck(b: Buffer): seq<Action> {
    [BeginWrite(b), Peek, DrainAck]
  }

  function FlushOne(ok: bool): seq<Action> {
    [TestFlush, FillParams, FillAudio, Send(ok)]
  }

  function FailedFlushes(m: nat): seq<Action> {
    if m == 0 then [] else FailedFlushes(m - 1) + FlushOne(false)
  }

  /** A sequence of states, each the successor of the one before. */
  lemma {:induction false} Trace(run: seq<Action>, states: seq<State>)
    requires |states| == |run| + 1
    requires forall i | 0 <= i < |run| :: states[i + 1] == Next(states[i], run[i])
    ensures Exec(states[0], run) == states[|run|]
    decreases |run|
  {
    if run != [] {
      var last := |run| - 1;
      hide Next;
      Trace(run[..last], states[..last + 1]);
    }
  }

  /** The ring has one segment, as in the sessions below. */
  predicate Between(s: State) {
    s.n == 1 && |s.c.ring| == 1 && s.w.segment == 0 && s.w.pc.Idle?
  }

  lemma DirectCallEffect(s: State, b: Buffer)
    requires Between(s) && s.c.acks == [] && s.w.fifo == [] && s.w.filled == 0
    ensures var t := Exec(s, DirectCall(b)); var k := s.w.counters;
            && Between(t) && t.w.fifo == [] && t.w.filled == 1 && t.c.acks == [] && t.c.notes == s.c.notes + [0] && t.r == s.r
            && t.w.counters == Counters(k.writes + 1, k.toFifo, k.errors, 0, 0)
  {
    var s1 := Next(s, BeginWrite(b));
    var s2 := Next(s1, Peek);
    assert s2.w.pc == FlushTest(0);
    hide Next;
    Trace([BeginWrite(b), Peek], [s, s1, s2]);
    DirectRestEffect(s2);
    ExecAppend(s, [BeginWrite(b), Peek], DirectRest());
  }

  lemma FullCallEffect(s: State, b: Buffer)
    requires Between(s) && s.c.acks == [] && s.w.filled == 1 && |s.w.fifo| <= MAX_OVERFLOW_BUSES
    ensures var t := Exec(s, FullCall(b)); var k := s.w.counters; var full := |s.w.fifo| == MAX_OVERFLOW_BUSES;
            && Between(t) && t.c == s.c && t.r == s.r && t.w.filled == 1
            && |t.w.fifo| == (if full then MAX_OVERFLOW_BUSES else |s.w.fifo| + 1)
            && t.w.counters == Counters(k.writes + 1, k.toFifo + 1, if full then k.errors + 1 else k.errors,
                                        k.trailingToFifo + 1, if full then k.trailingErrors + 1 else 0)
  {
    var s1 := Next(s, BeginWrite(b));
    var s2 := Next(s1, Peek);
    var s3 := Next(s2, TestFlush);
    var s4 := Next(s3, Decide);
    var s5 := Next(s4, FinishWrite);
    assert s3.w.pc.Deciding? && s3.w.fifo == s.w.fifo;
    hide Next;
    Trace(FullCall(b), [s, s1, s2, s3, s4, s5]);
  }

  /** m calls into an empty FIFO with m <= 100, then k calls into a full one. */
  lemma {:induction false} FullCallsEffect(s: State, b: Buffer, m: nat)
    requires Between(s) && s.c.acks == [] && s.w.filled == 1 && s.w.fifo == []
    requires s.w.counters.trailingToFifo == s.w.counters.trailingErrors == 0
    ensures var t := Exec(s, FullCalls(b, m)); var k := s.w.counters;
            var lost := if m > MAX_OVERFLOW_BUSES then m - MAX_OVERFLOW_BUSES else 0;
            && Between(t) && t.c == s.c && t.r == s.r && t.w.filled == 1 && |t.w.fifo| == m - lost
            && t.w.counters == Counters(k.writes + m, k.toFifo + m, k.errors + lost, m, lost)
  {
    if m > 0 {
      FullCallsEffect(s, b, m - 1);
      ExecAppend(s, FullCalls(b, m - 1), FullCall(b));
      FullCallEffect(Exec(s, FullCalls(b, m - 1)), b);
    }
  }

  lemma ReadOneEffect(s: State)
    requires Between(s) && s.c.notes == [0] && s.c.acks == [] && s.r.pc.Waiting? && s.r.segment == 0
    ensures var t := Exec(s, ReadOne()); t.w == s.w && t.n == s.n && |t.c.ring| == 1 && |t.c.acks| == 1 && t.c.notes == []
  {
    hide Wrap;
    var s1 := Next(s, Receive);
    var s2 := Next(s1, CheckParams);
    var s3 := Next(s2, Capture);
    var s4 := Next(s3, Ack(true));
    assert s2.r.pc.Checked? && s2.w == s.w && s2.c.ring == s.c.ring;
    hide Next;
    Trace(ReadOne(), [s, s1, s2, s3, s4]);
  }

  lemma EnterWithAckEffect(s: State, b: Buffer)
    requires Between(s) && |s.c.acks| == 1 && s.w.filled == 1
    ensures var t := Exec(s, EnterWithAck(b)); var k := s.w.counters;
            && t.n == 1 && |t.c.ring| == 1 && t.w.segment == 0 && t.w.pc == FlushTest(0) && t.w.filled == 0
            && t.w.fifo == s.w.fifo && t.c.acks == [] && !t.w.writeError
            && t.w.counters == k.(writes := k.writes + 1)
  {
    hide Wrap;
    var s1 := Next(s, BeginWrite(b));
    var s2 := Next(s1, Peek);
    assert s2.w.pc == Draining(1) && |s2.c.acks| == 1;
    var s3 := Next(s2, DrainAck);
    hide Next;
    Trace(EnterWithAck(b), [s, s1, s2, s3]);
  }

  /** One turn of the flush loop with a free segment. */
  lemma FlushOneEffect(s: State, ok: bool)
    requires s.n == 1 && |s.c.ring| == 1 && s.w.segment == 0 && s.w.pc.FlushTest? && s.w.filled == 0
    requires s.w.pc.it < |s.w.fifo|
    ensures var t := Exec(s, FlushOne(ok));
            && t.n == 1 && |t.c.ring| == 1 && t.w.segment == 0 && t.w.pc == FlushTest(s.w.pc.it + 1)
            && t.w.filled == (if ok then 1 else 0) && t.w.fifo == s.w.fifo && t.c.acks == s.c.acks
            && t.w.writeError == (s.w.writeError || !ok) && t.w.counters == s.w.counters
  {
    hide Wrap;
    var s1 := Next(s, TestFlush);
    var s2 := Next(s1, FillParams);
    var s3 := Next(s2, FillAudio);
    var s4 := Next(s3, Send(ok));
    assert s3.w.pc == Filling(FromFifo(s.w.pc.it), AudioWritten) && s3.w.filled == 0;
    hide Next;
    Trace(FlushOne(ok), [s, s1, s2, s3, s4]);
  }

  lemma {:induction false} FailedFlushesEffect(s: State, m: nat)
    requires s.n == 1 && |s.c.ring| == 1 && s.w.segment == 0 && s.w.pc == FlushTest(0) && s.w.filled == 0
    requires m <= |s.w.fifo|
    ensures var t := Exec(s, FailedFlushes(m));
            && t.n == 1 && |t.c.ring| == 1 && t.w.segment == 0 && t.w.pc == FlushTest(m)
            && t.w.filled == 0 && t.w.fifo == s.w.fifo && t.c.acks == s.c.acks
            && t.w.writeError == (s.w.writeError || m > 0) && t.w.counters == s.w.counters
  {
    if m > 0 {
      FailedFlushesEffect(s, m - 1);
      ExecAppend(s, FailedFlushes(m - 1), FlushOne(false));
      FlushOneEffect(Exec(s, FailedFlushes(m - 1)), false);
    }
  }

  /** The rest of a call once the ring is full again: the buffer is queued. */
  function QueueRest(): seq<Action> {
    [TestFlush, Decide, FinishWrite]
  }

  lemma QueueRestEffect(s: State)
    requires s.w.pc.FlushTest? && s.w.filled == s.n && 0 < s.w.pc.it <= |s.w.fifo| <= MAX_OVERFLOW_BUSES && !s.w.writeError
    ensures var t := Exec(s, QueueRest()); var k := s.w.counters;
            && t.w.pc.Idle?
            && t.w.counters == Counters(k.writes, k.toFifo + 1, k.errors, k.trailingToFifo + 1, 0)
  {
    var s1 := Next(s, TestFlush);
    var s2 := Next(s1, Decide);
    var s3 := Next(s2, FinishWrite);
    assert s1.w.pc.Deciding? && |s1.w.fifo| < MAX_OVERFLOW_BUSES;
    hide Next;
    Trace(QueueRest(), [s, s1, s2, s3]);
  }

  /** The rest of a call once the FIFO is empty and the ring still free: the buffer is sent. */
  function DirectRest(): seq<Action> {
    [TestFlush, Decide, FillParams, FillAudio, Send(true), FinishWrite]
  }

  lemma DirectRestEffect(s: State)
    requires s.n == 1 && |s.c.ring| == 1 && s.w.segment == 0 && s.w.filled == 0
    requires s.w.pc == FlushTest(|s.w.fifo|)
    ensures var t := Exec(s, DirectRest()); var k := s.w.counters;
            && Between(t) && t.w.fifo == [] && t.w.filled == 1
            && t.c.acks == s.c.acks && t.c.notes == s.c.notes + [0] && t.r == s.r
            && t.w.counters == if s.w.writeError
                               then Counters(k.writes, k.toFifo, k.errors + 1, 0, k.trailingErrors + 1)
                               else Counters(k.writes, k.toFifo, k.errors, 0, 0)
  {
    WrapSmall(0);
    hide Wrap;
    var s1 := Next(s, TestFlush);
    var s2 := Next(s1, Decide);
    var s3 := Next(s2, FillParams);
    var s4 := Next(s3, FillAudio);
    var s5 := Next(s4, Send(true));
    var s6 := Next(s5, FinishWrite);
    assert s2.w.pc == Filling(Direct, NothingWritten) && s2.w.filled == 0;
    assert s4.w.pc == Filling(Direct, AudioWritten) && s4.w.writeError == s.w.writeError;
    hide Next;
    Trace(DirectRest(), [s, s1, s2, s3, s4, s5, s6]);
  }

  /** One direct call, then m calls with the ring full, then the reader takes the first buffer. */
  function Backlog(b: Buffer, m: nat): seq<Action> {
    DirectCall(b) + FullCalls(b, m) + ReadOne()
  }

  /** A hundred queued, `lost` dropped. */
  lemma BacklogEffect(s: State, b: Buffer, lost: nat)
    requires Init(s) && s.n == 1
    ensures var t := Exec(s, Backlog(b, MAX_OVERFLOW_BUSES + lost) + EnterWithAck(b)); var m := MAX_OVERFLOW_BUSES + lost;
            && t.n == 1 && |t.c.ring| == 1 && t.w.segment == 0 && t.w.pc == FlushTest(0) && t.w.filled == 0
            && |t.w.fifo| == MAX_OVERFLOW_BUSES && !t.w.writeError
            && t.w.counters == Counters(m + 2, m, lost, m, lost)
  {
    hide Exec, FullCalls, DirectCall, ReadOne, EnterWithAck;
    var m := MAX_OVERFLOW_BUSES + lost;
    DirectCallEffect(s, b);
    FullCallsEffect(Exec(s, DirectCall(b)), b, m);
    ExecAppend(s, DirectCall(b), FullCalls(b, m));
    ReadOneEffect(Exec(s, DirectCall(b) + FullCalls(b, m)));
    ExecAppend(s, DirectCall(b) + FullCalls(b, m), ReadOne());
    EnterWithAckEffect(Exec(s, Backlog(b, m)), b);
    ExecAppend(s, Backlog(b, m), EnterWithAck(b));
  }

  /** Two buffers are dropped with the FIFO full, the ring frees up, and a last call queues again. */
  function DropSession(b: Buffer): seq<Action> {
    Backlog(b, MAX_OVERFLOW_BUSES + 2) + EnterWithAck(b) + FlushOne(true) + QueueRest()
  }

  /** Then 104 writes trim to 1 while both errors stay: 200 percent. */
  lemma DroppedPercentageExceeds(s: State, b: Buffer)
    requires Init(s) && s.n == 1
    ensures var t := Exec(s, DropSession(b));
            && t.w.pc.Idle? && TrimmedWrites(t.w.counters) == 1
            && DroppedPercentage(t.w.counters) == 200.0
  {
    hide Exec, FlushOne, QueueRest;
    BacklogEffect(s, b, 2);
    var head := Backlog(b, MAX_OVERFLOW_BUSES + 2) + EnterWithAck(b);
    FlushOneEffect(Exec(s, head), true);
    ExecAppend(s, head, FlushOne(true));
    QueueRestEffect(Exec(s, head + FlushOne(true)));
    ExecAppend(s, head + FlushOne(true), QueueRest());
  }

  /** 102 buffers are dropped with the FIFO full, then all its entries by failing sends, and the
      buffer of that last call is sent directly. */
  function FailSession(b: Buffer): seq<Action> {
    Backlog(b, MAX_OVERFLOW_BUSES + 102) + EnterWithAck(b) + FailedFlushes(MAX_OVERFLOW_BUSES) + DirectRest()
  }

  /** Then 204 writes trim to 101 while all 202 uses of the FIFO stay: 200 percent. */
  lemma FifoPercentageExceeds(s: State, b: Buffer)
    requires Init(s) && s.n == 1
    ensures var t := Exec(s, FailSession(b));
            && t.w.pc.Idle? && TrimmedWrites(t.w.counters) == 101
            && FifoPercentage(t.w.counters) == 200.0
  {
    hide Exec, FailedFlushes, DirectRest;
    BacklogEffect(s, b, 102);
    var head := Backlog(b, MAX_OVERFLOW_BUSES + 102) + EnterWithAck(b);
    FailedFlushesEffect(Exec(s, head), MAX_OVERFLOW_BUSES);
    ExecAppend(s, head, FailedFlushes(MAX_OVERFLOW_BUSES));
    DirectRestEffect(Exec(s, head + FailedFlushes(MAX_OVERFLOW_BUSES)));
    ExecAppend(s, head + FailedFlushes(MAX_OVERFLOW_BUSES), DirectRest());
  }
}
