/** The capture transport as one state machine: AudioInputSyncWriter in the
    browser process, the AudioDeviceThread loop with
    AudioInputDevice::AudioThreadCallback in the renderer, and between them a
    ring of shared-memory segments and a socket pair. Every action is one
    indivisible access, so a run is an arbitrary interleaving of both sides. */
module CaptureMachine {
  import opened Words

  const MAX_OVERFLOW_BUSES: nat := 100

  /** One captured buffer as handed to Write(). Audio is opaque. */
  datatype Buffer = Buffer(audio: seq<real>, volume: real, keyPressed: bool, captureTime: int)

  datatype Params = Params(volume: real, keyPressed: bool, captureTimeUs: int, id: u32)

  /** One shared-memory segment. */
  datatype Segment = Segment(params: Params, audio: seq<real>)

  // ---------------------------------------------------------------- writer

  datatype Source = FromFifo(it: nat) | Direct

  datatype Stage = NothingWritten | ParamsWritten | AudioWritten

  /** Where the writer thread is inside Write(). */
  datatype WriterPc =
    | Idle
    | Entered
    | Draining(left: nat)
    | FlushTest(it: nat)
    | Filling(src: Source, stage: Stage)
    | Deciding
    | Finishing

  datatype Counters = Counters(writes: nat, toFifo: nat, errors: nat, trailingToFifo: nat, trailingErrors: nat)

  datatype Writer = Writer(
    segment: nat,
    nextBufferId: u32,
    nextReadIndex: u32,
    filled: nat,
    fifo: seq<Buffer>,
    counters: Counters,
    pc: WriterPc,
    current: Buffer,
    writeError: bool)

  // ---------------------------------------------------------------- reader

  /** Where the renderer's audio thread is in its receive/process/ack loop. */
  datatype ReaderPc =
    | Waiting
    | Received(pending: u32)
    | Checked
    | Processed
    | Stopped(held: bool)

  datatype Reader = Reader(segment: nat, lastBufferId: u32, bufferIndex: u32, pc: ReaderPc)

  // ---------------------------------------------------------------- system

  /** Shared memory and the two directions of the socket. */
  datatype Channel = Channel(ring: seq<Segment>, notes: seq<u32>, acks: seq<u32>)

  /** The run-time checks of both sides, each recorded when it would fire. */
  datatype Fault =
    | AckReceiveShort       // CHECK_EQ on the bytes received
    | AckOutOfSequence      // CHECK_EQ(indices[i], next_read_buffer_index_)
    | AckWithoutFilled      // CHECK_GT(number_of_filled_segments_, 0u)
    | SegmentOutOfRange     // CHECK_LT(current_segment_id_, audio_buses_.size())
    | TooManyFilled         // CHECK_LE(number_of_filled_segments_, audio_buses_.size())
    | FifoTooLong           // DCHECK_LE(overflow_data_.size(), kMaxOverflowBusesSize)
    | BufferIdMismatch      // "Incorrect buffer sequence"
    | SegmentMismatch       // "Segment id not matching"
    | NotificationSkipped   // a notification taken for the pause signal

  /** History variables: no action reads them to decide what to do.
      `accepted` and `queued` hold indices into `written`. */
  datatype History = History(
    written: seq<Buffer>,
    accepted: seq<nat>,
    queued: seq<nat>,
    dropped: set<nat>,
    droppedBefore: set<nat>,
    delivered: seq<Buffer>,
    outcomes: seq<bool>,
    viaFifo: seq<bool>)

  datatype State = State(n: nat, w: Writer, c: Channel, r: Reader, faults: set<Fault>, h: History)

  datatype Action =
    | BeginWrite(data: Buffer)
    | Peek
    | DrainAck
    | TestFlush
    | FillParams
    | FillAudio
    | Send(ok: bool)
    | Decide
    | FinishWrite
    | Receive
    | ReceiveFails
    | SkipPaused
    | CheckParams
    | Capture
    | Ack(ok: bool)

  /** Both ends freshly constructed over a ring with arbitrary contents. */
  predicate Init(s: State) {
    && 0 < s.n < TWO32
    && s.w.segment == 0 && s.w.nextBufferId == 0 && s.w.nextReadIndex == 0 && s.w.filled == 0
    && s.w.fifo == [] && s.w.counters == Counters(0, 0, 0, 0, 0) && s.w.pc.Idle?
    && |s.c.ring| == s.n && s.c.notes == [] && s.c.acks == []
    && s.r == Reader(0, MAX32, 0, Waiting)
    && s.faults == {}
    && s.h == History([], [], [], {}, {}, [], [], [])
  }

  predicate Enabled(s: State, a: Action) {
    match a
    case BeginWrite(_) => s.w.pc.Idle?
    case Peek => s.w.pc.Entered?
    case DrainAck => s.w.pc.Draining?
    case TestFlush => s.w.pc.FlushTest?
    case FillParams => s.w.pc.Filling? && s.w.pc.stage.NothingWritten?
    case FillAudio => s.w.pc.Filling? && s.w.pc.stage.ParamsWritten?
    case Send(_) => s.w.pc.Filling? && s.w.pc.stage.AudioWritten?
    case Decide => s.w.pc.Deciding?
    case FinishWrite => s.w.pc.Finishing?
    case Receive => s.r.pc.Waiting? && s.c.notes != []
    case ReceiveFails => s.r.pc.Waiting?
    case SkipPaused => s.r.pc.Received? && s.r.pc.pending == MAX32
    case CheckParams => s.r.pc.Received? && s.r.pc.pending != MAX32
    case Capture => s.r.pc.Checked?
    case Ack(_) => s.r.pc.Processed?
  }

  // ------------------------------------------------------- writer's actions

  /** Write() is entered: `++write_count_`. */
  function DoBeginWrite(s: State, data: Buffer): State {
    s.(w := s.w.(pc := Entered, current := data, writeError := false,
                 counters := s.w.counters.(writes := s.w.counters.writes + 1)),
       h := s.h.(written := s.h.written + [data], droppedBefore := s.h.dropped))
  }

  /** `socket_->Peek()`: as many acknowledgements as are queued now will be received. */
  function DoPeek(s: State): State {
    s.(w := s.w.(pc := if s.c.acks == [] then FlushTest(0) else Draining(|s.c.acks|)))
  }

  /** One turn of the acknowledgement loop. */
  function DoDrainAck(s: State): State {
    var left := if s.w.pc.Draining? then s.w.pc.left else 0;
    var pc' := if left <= 1 then FlushTest(0) else Draining(left - 1);
    if s.c.acks == [] then s.(w := s.w.(pc := pc'), faults := s.faults + {AckReceiveShort}) else
    var next := Wrap(s.w.nextReadIndex + 1);
    s.(w := s.w.(pc := pc', nextReadIndex := next, filled := if s.w.filled == 0 then 0 else s.w.filled - 1),
       c := s.c.(acks := s.c.acks[1..]),
       faults := s.faults + (if s.c.acks[0] != next then {AckOutOfSequence} else {})
                          + (if s.w.filled == 0 then {AckWithoutFilled} else {}))
  }

  /** The loop test of WriteDataFromFifoToSharedMemory(), and the erase after the loop. */
  function DoTestFlush(s: State): State {
    var it := if s.w.pc.FlushTest? then s.w.pc.it else 0;
    if it < |s.w.fifo| && s.w.filled < s.n then
      s.(w := s.w.(pc := Filling(FromFifo(it), NothingWritten)))
    else
      s.(w := s.w.(pc := Deciding, fifo := if it <= |s.w.fifo| then s.w.fifo[it..] else []))
  }

  /** The buffer being copied into the current segment. */
  function SourceBuffer(w: Writer): Buffer {
    if w.pc.Filling? && w.pc.src.FromFifo? && w.pc.src.it < |w.fifo| then w.fifo[w.pc.src.it] else w.current
  }

  function ParamsOf(b: Buffer, id: u32): Params {
    Params(b.volume, b.keyPressed, b.captureTime, id)
  }

  function AtStage(pc: WriterPc, stage: Stage): WriterPc {
    if pc.Filling? then Filling(pc.src, stage) else pc
  }

  /** WriteParametersToCurrentSegment(). */
  function DoFillParams(s: State): State {
    var w' := s.w.(pc := AtStage(s.w.pc, ParamsWritten));
    if s.w.segment >= |s.c.ring| then s.(w := w', faults := s.faults + {SegmentOutOfRange}) else
    var slot := s.c.ring[s.w.segment].(params := ParamsOf(SourceBuffer(s.w), s.w.nextBufferId));
    s.(w := w', c := s.c.(ring := s.c.ring[s.w.segment := slot]))
  }

  /** CopyTo() into the current segment's audio bus. */
  function DoFillAudio(s: State): State {
    var w' := s.w.(pc := AtStage(s.w.pc, AudioWritten));
    if s.w.segment >= |s.c.ring| then s.(w := w') else
    var slot := s.c.ring[s.w.segment].(audio := SourceBuffer(s.w).audio);
    s.(w := w', c := s.c.(ring := s.c.ring[s.w.segment := slot]))
  }

  /** SignalDataWrittenAndUpdateCounters(), with the outcome of the socket's Send(). */
  function DoSend(s: State, ok: bool): State {
    var sent := if !ok then s else
      s.(w := s.w.(segment := NextSlot(s.w.segment, s.n), filled := s.w.filled + 1,
                   nextBufferId := Wrap(s.w.nextBufferId + 1)),
         c := s.c.(notes := s.c.notes + [Wrap(s.w.segment)]),
         faults := s.faults + if s.w.filled + 1 > s.n then {TooManyFilled} else {});
    if s.w.pc.Filling? && s.w.pc.src.FromFifo? then
      // The iterator advances whether or not the send succeeded.
      sent.(w := sent.w.(pc := FlushTest(s.w.pc.src.it + 1), writeError := s.w.writeError || !ok),
            h := if s.h.queued == [] then s.h else
                 s.h.(queued := s.h.queued[1..],
                      accepted := if ok then s.h.accepted + [s.h.queued[0]] else s.h.accepted,
                      dropped := if ok then s.h.dropped else s.h.dropped + {s.h.queued[0]}))
    else
      sent.(w := sent.w.(pc := Finishing, writeError := s.w.writeError || !ok,
                         counters := s.w.counters.(trailingToFifo := 0)),
            h := if s.h.written == [] then s.h else
                 s.h.(accepted := if ok then s.h.accepted + [|s.h.written| - 1] else s.h.accepted,
                      dropped := if ok then s.h.dropped else s.h.dropped + {|s.h.written| - 1},
                      viaFifo := s.h.viaFifo + [false]))
  }

  /** Write the current buffer to the ring if there is room, else PushDataToFifo(). */
  function DoDecide(s: State): State {
    if s.w.filled < s.n then s.(w := s.w.(pc := Filling(Direct, NothingWritten))) else
    var full := |s.w.fifo| == MAX_OVERFLOW_BUSES;
    var fifo' := if full then s.w.fifo else s.w.fifo + [s.w.current];
    s.(w := s.w.(pc := Finishing, fifo := fifo', writeError := s.w.writeError || full,
                 counters := s.w.counters.(toFifo := s.w.counters.toFifo + 1,
                                           trailingToFifo := s.w.counters.trailingToFifo + 1)),
       faults := s.faults + (if |fifo'| > MAX_OVERFLOW_BUSES then {FifoTooLong} else {}),
       h := if s.h.written == [] then s.h else
            s.h.(queued := if full then s.h.queued else s.h.queued + [|s.h.written| - 1],
                 dropped := if full then s.h.dropped + {|s.h.written| - 1} else s.h.dropped,
                 viaFifo := s.h.viaFifo + [true]))
  }

  /** The error counts at the end of Write(). */
  function DoFinishWrite(s: State): State {
    var k := s.w.counters;
    s.(w := s.w.(pc := Idle,
                 counters := if s.w.writeError
                             then k.(errors := k.errors + 1, trailingErrors := k.trailingErrors + 1)
                             else k.(trailingErrors := 0)),
       h := s.h.(outcomes := s.h.outcomes + [s.h.dropped != s.h.droppedBefore]))
  }

  /** The four DCHECKs of ~AudioInputSyncWriter(). */
  predicate CanTrim(k: Counters) {
    && k.trailingToFifo <= k.toFifo && k.trailingToFifo <= k.writes
    && k.trailingErrors <= k.errors && k.trailingErrors <= k.writes
  }

  /** The writes left after the destructor takes off the larger trailing count. */
  function TrimmedWrites(k: Counters): int {
    k.writes - if k.trailingToFifo > k.trailingErrors then k.trailingToFifo else k.trailingErrors
  }

  /** Media.AudioCapturerMissedReadDeadline. */
  function FifoPercentage(k: Counters): real
    requires TrimmedWrites(k) != 0
  {
    100.0 * (k.toFifo - k.trailingToFifo) as real / TrimmedWrites(k) as real
  }

  /** Media.AudioCapturerDroppedData. */
  function DroppedPercentage(k: Counters): real
    requires TrimmedWrites(k) != 0
  {
    100.0 * (k.errors - k.trailingErrors) as real / TrimmedWrites(k) as real
  }

  // ------------------------------------------------------- reader's actions

  function DoReceive(s: State): State
    requires s.c.notes != []
  {
    s.(r := s.r.(pc := Received(s.c.notes[0])), c := s.c.(notes := s.c.notes[1..]))
  }

  /** Process() up to `last_buffer_id_ = buffer->params.id`. */
  function DoCheckParams(s: State): State {
    if !s.r.pc.Received? || s.r.segment >= |s.c.ring| then s.(faults := s.faults + {SegmentOutOfRange}) else
    var id := s.c.ring[s.r.segment].params.id;
    s.(r := s.r.(pc := Checked, lastBufferId := id),
       faults := s.faults + (if id != Wrap(s.r.lastBufferId + 1) then {BufferIdMismatch} else {})
                          + (if s.r.segment != s.r.pc.pending then {SegmentMismatch} else {}))
  }

  function BufferOf(slot: Segment): Buffer {
    Buffer(slot.audio, slot.params.volume, slot.params.keyPressed, slot.params.captureTimeUs)
  }

  /** The rest of Process(): hand the segment to the client and advance. */
  function DoCapture(s: State): State {
    if s.r.segment >= |s.c.ring| then s.(faults := s.faults + {SegmentOutOfRange}) else
    s.(r := s.r.(pc := Processed, segment := NextSlot(s.r.segment, s.n)),
       h := s.h.(delivered := s.h.delivered + [BufferOf(s.c.ring[s.r.segment])]))
  }

  /** `++buffer_index` and the acknowledgement; a failed Send() ends the thread. */
  function DoAck(s: State, ok: bool): State {
    var index := Wrap(s.r.bufferIndex + 1);
    if ok then s.(r := s.r.(pc := Waiting, bufferIndex := index), c := s.c.(acks := s.c.acks + [index]))
    else s.(r := s.r.(pc := Stopped(true), bufferIndex := index))
  }

  /** One step; an action that is not enabled changes nothing. */
  function Next(s: State, a: Action): State {
    if !Enabled(s, a) then s else
    match a
    case BeginWrite(data) => DoBeginWrite(s, data)
    case Peek => DoPeek(s)
    case DrainAck => DoDrainAck(s)
    case TestFlush => DoTestFlush(s)
    case FillParams => DoFillParams(s)
    case FillAudio => DoFillAudio(s)
    case Send(ok) => DoSend(s, ok)
    case Decide => DoDecide(s)
    case FinishWrite => DoFinishWrite(s)
    case Receive => DoReceive(s)
    case ReceiveFails => s.(r := s.r.(pc := Stopped(false)))
    case SkipPaused => s.(r := s.r.(pc := Processed), faults := s.faults + {NotificationSkipped})
    case CheckParams => DoCheckParams(s)
    case Capture => DoCapture(s)
    case Ack(ok) => DoAck(s, ok)
  }

  /** The state after a run. */
  function Exec(s: State, run: seq<Action>): State {
    if run == [] then s else Next(Exec(s, run[..|run| - 1]), run[|run| - 1])
  }

  lemma ExecSnoc(s: State, run: seq<Action>, a: Action)
    ensures Exec(s, run + [a]) == Next(Exec(s, run), a)
  {
    hide Next;
    assert (run + [a])[..|run|] == run;
  }
  lemma {:induction false} ExecAppend(s: State, a: seq<Action>, b: seq<Action>)
    ensures Exec(s, a + b) == Exec(Exec(s, a), b)
    decreases |b|
  {
    if b == [] {
      assert a + b == a;
    } else {
      var last := |b| - 1;
      ExecAppend(s, a, b[..last]);
      assert (a + b)[..|a + b| - 1] == a + b[..last];
    }
  }
}
