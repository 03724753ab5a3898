/** The promises of the capture transport, over every run and read off the
    actual memory: ring segments, FIFO and sockets. */
module CaptureTheorems {
  import opened Words
  import opened LossyQueue
  import opened CaptureMachine
  import opened CaptureInvariant

  // ------------------------------------------------------------ order and loss

  /** The segments announced to the reader and not yet handed to its client. */
  function UnreadCount(s: State): nat {
    |s.c.notes| + if s.r.pc.Received? || s.r.pc.Checked? then 1 else 0
  }

  /** i slots on from the reader's segment. */
  function Ahead(segment: nat, i: nat, n: nat): nat {
    if segment + i < n then segment + i else segment + i - n
  }

  /** What the reader will find in shared memory, from its current segment on. */
  function Unread(s: State): seq<Buffer>
    requires s.r.segment < |s.c.ring| && UnreadCount(s) <= |s.c.ring|
  {
    seq(UnreadCount(s), i requires 0 <= i < UnreadCount(s) =>
      BufferOf(s.c.ring[Ahead(s.r.segment, i, |s.c.ring|)]))
  }

  /** FIFO entries the flush loop has not passed, then the buffer Write() still holds. */
  function Waiting(s: State): seq<Buffer>
    requires Passed(s.w.pc) <= |s.w.fifo|
  {
    s.w.fifo[Passed(s.w.pc)..] + if s.w.pc.Idle? || s.w.pc.Finishing? then [] else [s.w.current]
  }

  ghost predicate Readable(s: State) {
    s.r.segment < |s.c.ring| && UnreadCount(s) <= |s.c.ring| && Passed(s.w.pc) <= |s.w.fifo|
  }

  /** The transport seen as a queue. */
  ghost function AsQueue(s: State): Queue<Buffer>
    requires Readable(s)
  {
    Queue(s.h.delivered, Unread(s) + Waiting(s))
  }

  /** Everything not dropped: accepted, queued and in hand. */
  ghost function Pipeline(s: State): seq<nat> {
    s.h.accepted + s.h.queued + InHand(s.w.pc, |s.h.written|)
  }

  lemma PipelineBelow(s: State)
    requires Inv(s)
    ensures forall i | 0 <= i < |Pipeline(s)| :: Pipeline(s)[i] < |s.h.written|
  {
    KeptBelow(|s.h.written|, s.h.dropped);
  }

  lemma UnreadIs(s: State)
    requires Transport(s) && Contents(s) && Passed(s.w.pc) <= |s.w.fifo|
    ensures Readable(s)
    ensures Unread(s) == Pick(s.h.written, s.h.accepted[Done(s)..])
  {
    hide Wrap, SlotAt;
    assert UnreadCount(s) == Sent(s) - Done(s);
    forall i | 0 <= i < UnreadCount(s)
      ensures Unread(s)[i] == s.h.written[s.h.accepted[Done(s) + i]]
    {
      SlotAhead(Done(s), i, s.n);
      assert Holds(s.c.ring[SlotAt(Done(s) + i, s.n)], s.h.written[s.h.accepted[Done(s) + i]], Done(s) + i);
    }
  }

  lemma QueuedFacts(s: State)
    requires Inv(s)
    ensures FifoOk(s.w.fifo, Passed(s.w.pc), s.h.queued, s.h.written)
    ensures CurrentOk(s.w.pc, s.w.current, s.h.written)
  {
    hide FifoOk, CurrentOk, Transport, Contents;
  }

  lemma WaitingIs(s: State)
    requires Inv(s)
    ensures forall i | 0 <= i < |s.h.queued| :: s.h.queued[i] < |s.h.written|
    ensures Waiting(s) == Pick(s.h.written, s.h.queued + InHand(s.w.pc, |s.h.written|))
  {
    QueuedFacts(s);
    hide Inv;
    var inHand := InHand(s.w.pc, |s.h.written|);
    var at := s.h.queued + inHand;
    assert |Waiting(s)| == |at|;
    forall i | 0 <= i < |at| ensures at[i] < |s.h.written| && Waiting(s)[i] == s.h.written[at[i]] {
      if i < |s.h.queued| {
        assert Waiting(s)[i] == s.w.fifo[Passed(s.w.pc) + i];
      } else {
        assert at[i] == inHand[i - |s.h.queued|];
      }
    }
  }

  /** The queue holds, in order, the undelivered part of the pipeline. */
  lemma QueueIs(s: State)
    requires Inv(s)
    ensures Readable(s)
    ensures Done(s) <= |Pipeline(s)|
    ensures forall i | 0 <= i < |Pipeline(s)| :: Pipeline(s)[i] < |s.h.written|
    ensures AsQueue(s) == Queue(Pick(s.h.written, Pipeline(s)[..Done(s)]), Pick(s.h.written, Pipeline(s)[Done(s)..]))
  {
    hide SlotAt, Wrap, Kept, CountTrue, TrailingTrue;
    PipelineBelow(s);
    UnreadIs(s);
    WaitingIs(s);
    assert Pipeline(s)[Done(s)..] ==
           s.h.accepted[Done(s)..] + (s.h.queued + InHand(s.w.pc, |s.h.written|));
  }

  /** Delivered, then unread in the ring, then queued: the written buffers less the
      dropped ones, unaltered and in their original order. */
  lemma CaptureRefinement(s0: State, run: seq<Action>)
    requires Init(s0)
    ensures var s := Exec(s0, run);
            && Readable(s)
            && s.h.delivered + Unread(s) + Waiting(s) == Survivors(s.h.written, s.h.dropped)
    ensures var s := Exec(s0, run);
            s.h.dropped == {} ==> s.h.delivered <= s.h.written
  {
    hide SlotAt, Wrap, Kept, CountTrue, TrailingTrue, Next, Transport, Contents, CountsOk, ErrorsOk;
    var s := Exec(s0, run);
    RunKeeps(s0, run);
    QueueIs(s);
    SurvivorsArePicked(s.h.written, s.h.dropped);
    assert Pipeline(s) == Pipeline(s)[..Done(s)] + Pipeline(s)[Done(s)..];
    assert s.h.delivered + Unread(s) + Waiting(s) == s.h.delivered + (Unread(s) + Waiting(s));
    NothingDropped(s.h.written);
  }

  lemma PickLoses(xs: seq<Buffer>, at: seq<nat>, at': seq<nat>, done: nat, i: nat)
    requires done <= i < |at| && at' == at[..i] + at[i + 1..]
    requires forall j | 0 <= j < |at| :: at[j] < |xs|
    ensures Loses(Queue(Pick(xs, at[..done]), Pick(xs, at[done..])), Queue(Pick(xs, at'[..done]), Pick(xs, at'[done..])))
  {
    var q, q' := Pick(xs, at[done..]), Pick(xs, at'[done..]);
    assert at'[..done] == at[..done];
    assert q' == q[..i - done] + q[i - done + 1..];
  }

  /** One transport step is one step of the lossy queue, or none at all. */
  lemma StepRefines(s: State, a: Action)
    requires Inv(s)
    ensures Inv(Next(s, a)) && Readable(s) && Readable(Next(s, a))
    ensures QueueStep(AsQueue(s), AsQueue(Next(s, a)))
  {
    hide SlotAt, Wrap, Kept, CountTrue, TrailingTrue, Transport, Contents, RingOk;
    var s' := Next(s, a);
    StepKeeps(s, a);
    QueueIs(s);
    QueueIs(s');
    if !Enabled(s, a) {
    } else if a.BeginWrite? {
      BeginEnqueues(s, a.data);
    } else if a.Capture? {
      CaptureDelivers(s);
    } else if a.Send? {
      SendLosesOrNot(s, a.ok);
    } else if a.Decide? {
      DecideLosesOrNot(s);
    } else {
      assert s'.h.delivered == s.h.delivered && s'.h.written == s.h.written && Pipeline(s') == Pipeline(s);
    }
  }

  lemma BeginEnqueues(s: State, data: Buffer)
    requires Inv(s) && s.w.pc.Idle? && Inv(DoBeginWrite(s, data))
    requires Readable(s) && Readable(DoBeginWrite(s, data))
    ensures Enqueues(AsQueue(s), AsQueue(DoBeginWrite(s, data)))
  {
    hide SlotAt, Wrap, Kept, CountTrue, TrailingTrue;
    var s' := DoBeginWrite(s, data);
    assert AsQueue(s') == Queue(s.h.delivered, AsQueue(s).pending + [data]);
  }

  lemma CaptureDelivers(s: State)
    requires Inv(s) && s.r.pc.Checked? && Inv(DoCapture(s))
    requires Readable(s) && Readable(DoCapture(s))
    ensures Delivers(AsQueue(s), AsQueue(DoCapture(s)))
  {
    hide SlotAt, Wrap, Kept, CountTrue, TrailingTrue;
    var s' := DoCapture(s);
    QueueIs(s);
    QueueIs(s');
    assert Pipeline(s') == Pipeline(s) && s'.h.written == s.h.written && Done(s') == Done(s) + 1;
    assert Pipeline(s)[..Done(s)] + [Pipeline(s)[Done(s)]] == Pipeline(s)[..Done(s')];
  }

  lemma SendPipeline(s: State, ok: bool)
    requires s.w.pc.Filling? && s.h.written != []
    requires s.w.pc.src.FromFifo? ==> s.h.queued != []
    requires s.w.pc.src.Direct? ==> s.h.queued == []
    ensures ok ==> Pipeline(DoSend(s, ok)) == Pipeline(s)
    ensures !ok ==> Pipeline(DoSend(s, ok)) == Pipeline(s)[..Sent(s)] + Pipeline(s)[Sent(s) + 1..]
  {
    hide Wrap, NextSlot;
    var last := [|s.h.written| - 1];
    if s.w.pc.src.FromFifo? {
      var first, rest := [s.h.queued[0]], s.h.queued[1..];
      assert s.h.queued == first + rest;
      assert Pipeline(s) == s.h.accepted + first + (rest + last);
      assert Pipeline(DoSend(s, ok)) == (if ok then s.h.accepted + first else s.h.accepted) + rest + last;
    } else {
      assert Pipeline(s) == s.h.accepted + last + [];
      assert Pipeline(DoSend(s, ok)) == (if ok then s.h.accepted + last else s.h.accepted) + [] + [];
    }
  }

  lemma SendSource(s: State)
    requires Inv(s) && s.w.pc.Filling?
    ensures s.h.written != [] && Done(s) <= Sent(s) < |Pipeline(s)|
    ensures s.w.pc.src.FromFifo? ==> s.h.queued != []
    ensures s.w.pc.src.Direct? ==> s.h.queued == []
  {
    hide SlotAt, Wrap, Kept, CountTrue, TrailingTrue, Contents, OrderOk;
  }

  lemma SendLosesOrNot(s: State, ok: bool)
    requires Inv(s) && s.w.pc.Filling? && s.w.pc.stage.AudioWritten? && Inv(DoSend(s, ok))
    requires Readable(s) && Readable(DoSend(s, ok))
    ensures QueueStep(AsQueue(s), AsQueue(DoSend(s, ok)))
  {
    hide Inv, Readable, AsQueue, Pipeline;
    var s' := DoSend(s, ok);
    SendSource(s);
    SendPipeline(s, ok);
    QueueIs(s);
    QueueIs(s');
    assert s'.h.written == s.h.written && Done(s') == Done(s);
    if !ok {
      PickLoses(s.h.written, Pipeline(s), Pipeline(s'), Done(s), Sent(s));
    }
  }

  lemma DecideLosesOrNot(s: State)
    requires Inv(s) && s.w.pc.Deciding? && Inv(DoDecide(s))
    requires Readable(s) && Readable(DoDecide(s))
    ensures QueueStep(AsQueue(s), AsQueue(DoDecide(s)))
  {
    hide SlotAt, Wrap, Kept, CountTrue, TrailingTrue;
    var s' := DoDecide(s);
    QueueIs(s);
    QueueIs(s');
    if s.w.filled == s.n && |s.w.fifo| == MAX_OVERFLOW_BUSES {
      var i := |Pipeline(s)| - 1;
      assert Pipeline(s') == Pipeline(s)[..i] + Pipeline(s)[i + 1..];
      PickLoses(s.h.written, Pipeline(s), Pipeline(s'), Done(s), i);
    } else {
      assert Pipeline(s') == Pipeline(s);
    }
  }

  /** In every run the transport behaves as a lossy order-preserving queue. */
  lemma RunRefines(s0: State, run: seq<Action>, a: Action)
    requires Init(s0)
    ensures Readable(Exec(s0, run)) && Readable(Exec(s0, run + [a]))
    ensures QueueStep(AsQueue(Exec(s0, run)), AsQueue(Exec(s0, run + [a])))
  {
    RunKeeps(s0, run);
    ExecSnoc(s0, run, a);
    StepRefines(Exec(s0, run), a);
  }

  /** A buffer is lost exactly when its notification cannot be sent, or when the ring is full and a
      hundred buffers wait in the FIFO. */
  lemma LossExactly(s0: State, run: seq<Action>, a: Action)
    requires Init(s0)
    ensures var s := Exec(s0, run);
            Next(s, a).h.dropped != s.h.dropped <==>
              && Enabled(s, a)
              && (a == Send(false) || (a.Decide? && s.w.filled == s.n && |s.w.fifo| == 100))
  {
    hide Exec, Init, Inv, Kept;
    var s := Exec(s0, run);
    RunKeeps(s0, run);
    DecideBounds(s);
    if s.w.pc.Filling? {
      SendSource(s);
    }
    NotDroppedYet(s);
  }

  lemma DecideBounds(s: State)
    requires Inv(s)
    ensures s.w.filled <= s.n
  {
  }

  /** What is queued or in hand has not been dropped. */
  lemma NotDroppedYet(s: State)
    requires Inv(s)
    ensures s.h.queued != [] ==> s.h.queued[0] !in s.h.dropped
    ensures !s.w.pc.Idle? && !s.w.pc.Finishing? ==> s.h.written != [] && |s.h.written| - 1 !in s.h.dropped
  {
    hide SlotAt, Wrap, Transport, Contents, CountTrue, TrailingTrue, Kept;
    KeptBelow(|s.h.written|, s.h.dropped);
    var kept := Pipeline(s);
    if s.h.queued != [] {
      assert kept[|s.h.accepted|] == s.h.queued[0];
    }
    if !s.w.pc.Idle? && !s.w.pc.Finishing? {
      assert kept[|kept| - 1] == |s.h.written| - 1;
    }
  }

  // ------------------------------------------------------------- no overwrite

  /** j slots before a segment, going round the ring. */
  function Behind(segment: nat, j: nat, n: nat): nat {
    if segment >= j then segment - j else if segment + n >= j then segment + n - j else 0
  }

  /** The `number_of_filled_segments_` slots cyclically before `current_segment_id_`. */
  function FilledSlots(s: State): set<nat> {
    set j | 1 <= j <= s.w.filled :: Behind(s.w.segment, j, s.n)
  }

  lemma FilledIsBehind(s: State, k: nat)
    requires Transport(s) && Sent(s) - s.w.filled <= k < Sent(s)
    ensures SlotAt(k, s.n) == Behind(s.w.segment, Sent(s) - k, s.n)
    ensures SlotAt(k, s.n) in FilledSlots(s)
  {
    var j := Sent(s) - k;
    if j < s.n {
      SlotAhead(k, j, s.n);
    } else {
      SlotAhead(k, s.n - 1, s.n);
      assert SlotAt(k + (s.n - 1) + 1, s.n) == NextSlot(SlotAt(k + (s.n - 1), s.n), s.n);
    }
  }

  /** The segment being filled is never an announced and unacknowledged one, and no
      step of either side changes such a segment. */
  lemma NoUnreadOverwrite(s0: State, run: seq<Action>, a: Action)
    requires Init(s0)
    ensures var s := Exec(s0, run);
            && (s.w.pc.Filling? ==> s.w.segment !in FilledSlots(s))
            && (forall i | 0 <= i < |s.c.notes| :: s.c.notes[i] in FilledSlots(s))
            && (s.r.pc.Received? || s.r.pc.Checked? ==> s.r.segment in FilledSlots(s))
    ensures var s := Exec(s0, run); var s' := Next(s, a);
            forall x | x in FilledSlots(s) :: x < |s.c.ring| == |s'.c.ring| && s'.c.ring[x] == s.c.ring[x]
  {
    hide Next, FilledSlots, WriterOk, NotesOk, AcksOk, ReaderOk, Contents, Ledger;
    RunKeeps(s0, run);
    AnnouncedIsFilled(Exec(s0, run));
    RingUntouched(Exec(s0, run), a);
  }

  lemma AnnouncedIsFilled(s: State)
    requires Transport(s)
    ensures forall i | 0 <= i < |s.c.notes| :: s.c.notes[i] in FilledSlots(s)
    ensures s.r.pc.Received? || s.r.pc.Checked? ==> s.r.segment in FilledSlots(s)
  {
    hide SlotAt, Wrap;
    forall i | 0 <= i < |s.c.notes| ensures s.c.notes[i] in FilledSlots(s) {
      FilledIsBehind(s, Sent(s) - |s.c.notes| + i);
    }
    if s.r.pc.Received? || s.r.pc.Checked? {
      FilledIsBehind(s, Done(s));
    }
  }

  lemma RingUntouched(s: State, a: Action)
    requires Transport(s)
    ensures |Next(s, a).c.ring| == |s.c.ring| == s.n
    ensures s.w.pc.Filling? ==> s.w.segment !in FilledSlots(s)
    ensures forall x | x in FilledSlots(s) :: x < s.n && Next(s, a).c.ring[x] == s.c.ring[x]
  {
    hide SlotAt, Wrap;
    forall x | x in FilledSlots(s) ensures x < s.n && (s.w.pc.Filling? ==> x != s.w.segment) {
    }
  }

  // ------------------------------------------------------ checks and accounting

  /** No CHECK, DCHECK or sequence error of either side fires in any run, however
      often the 32-bit counters wrap, and no notification is taken for the pause signal. */
  lemma ChecksNeverFire(s0: State, run: seq<Action>)
    requires Init(s0)
    ensures Exec(s0, run).faults == {}
  {
    RunKeeps(s0, run);
  }

  /** The writer's counters against what happened to every buffer. */
  lemma CaptureAccounting(s0: State, run: seq<Action>)
    requires Init(s0)
    ensures var s := Exec(s0, run); var k := s.w.counters;
            && |s.w.fifo| <= MAX_OVERFLOW_BUSES && s.w.filled <= s.n
            && (s.w.pc.Deciding? ==> s.w.fifo == [] || s.w.filled == s.n)
            && (s.w.pc.Filling? && s.w.pc.src.Direct? ==> s.w.fifo == [])
            && (s.w.pc.Idle? ==> k.writes == |s.h.accepted| + |s.w.fifo| + |s.h.dropped|)
            && k.errors == CountTrue(s.h.outcomes) && k.toFifo == CountTrue(s.h.viaFifo)
            && (s.w.pc.Idle? ==> (k.errors == 0 <==> s.h.dropped == {}))
            && CanTrim(k)
  {
    var s := Exec(s0, run);
    RunKeeps(s0, run);
    KeptCount(|s.h.written|, s.h.dropped);
    TrailingBounded(s.h.outcomes);
    TrailingBounded(s.h.viaFifo);
  }
}
