/** The playout handshake as one state machine: AudioSyncReader in the browser,
    the AudioDeviceThread loop with AudioOutputDeviceThreadCallback in the
    renderer, one shared buffer, and a socket carrying controls one way and
    buffer indices the other. Every action is one access to shared state. */
module PlayoutMachine {
  import opened Words

  /** base::TimeDelta::Max(), in microseconds. */
  const MAX_DELAY: int := 0x7FFF_FFFF_FFFF_FFFF
  const MAX_INT: nat := 0x7FFF_FFFF

  /** What the shared audio memory holds. Render() fills the whole bus; its result is
      named by its arguments. Overlapping writers leave Mixed contents. */
  datatype Audio =
    | Silence
    | Zeroing
    | Rendering(delay: int, timestamp: int)
    | Rendered(delay: int, timestamp: int)
    | Mixed

  datatype SharedBuffer = SharedBuffer(
    framesSkipped: u32,
    delay: int,
    timestamp: int,
    bitstreamDataSize: u32,
    bitstreamFrames: u32,
    audio: Audio)

  datatype Request = Request(delay: int, timestamp: int, skipped: nat)

  /** `delay.is_max()` asks for the pause signal instead of 0. */
  function Signal(q: Request): u32 {
    if q.delay == MAX_DELAY then MAX32 else 0
  }

  // --------------------------------------------------------------- browser

  datatype RequestStage = AddSkipped | SetDelay | SetTimestamp | ZeroBegins | ZeroEnds | Sending

  datatype BrowserPc =
    | Idle
    | Requesting(request: Request, stage: RequestStage)
    | Waiting
    | Ready
    | Missed

  datatype Config = Config(muted: bool, bitstream: bool, busBytes: nat)

  datatype Browser = Browser(
    bufferIndex: u32,
    callbacks: nat,
    missed: nat,
    trailingMissed: nat,
    pc: BrowserPc,
    output: Audio)

  // -------------------------------------------------------------- renderer

  datatype RendererPc =
    | Listening
    | Received(signal: u32)
    | Skimmed
    | HasDelay(delay: int)
    | HasTimestamp(delay: int, timestamp: int)
    | InRender(delay: int, timestamp: int)
    | Replying
    | Stopped(replyLost: bool)

  /** `skipped` is Process()'s local copy of the number of skipped frames. */
  datatype Renderer = Renderer(bufferIndex: u32, pc: RendererPc, skipped: u32)

  // ---------------------------------------------------------------- system

  /** `requests` have had their control sent or lost, `sent` those whose control was not lost; `answered` replies were sent;
      `inWindow` says whether the last matching reply was taken within one counter lap. */
  datatype History = History(
    requests: seq<Request>,
    sent: seq<Request>,
    failed: nat,
    lastSent: bool,
    answered: nat,
    misses: seq<bool>,
    inWindow: bool)

  /** A call of Render(). */
  datatype RenderCall = RenderCall(delay: int, timestamp: int, skipped: u32)

  /** What the renderer did: controls received, calls of Render(), and the sizes each returned with. */
  datatype RenderLog = RenderLog(handled: nat, renders: seq<RenderCall>, declared: seq<(u32, u32)>)

  datatype State = State(
    cfg: Config,
    b: Browser,
    shm: SharedBuffer,
    controls: seq<u32>,
    replies: seq<u32>,
    r: Renderer,
    h: History,
    g: RenderLog)

  datatype Action =
    | BeginRequest(request: Request)
    | RequestStep
    | SendControl(ok: bool)
    | BeginRead
    | ReceiveReply
    | GiveUp
    | FinishRead
    | Receive
    | Stop
    | TakeSkipped
    | ReadDelay
    | ReadTimestamp
    | RenderBegins
    | RenderEnds(dataSize: u32, frames: u32)
    | Reply(ok: bool)

  predicate Init(s: State) {
    && s.b.bufferIndex == 0 && s.b.callbacks == 0 && s.b.missed == 0 && s.b.trailingMissed == 0 && s.b.pc.Idle?
    && s.shm.audio.Silence? && s.controls == [] && s.replies == []
    && s.r == Renderer(0, Listening, 0)
    && s.shm.framesSkipped == 0
    && s.h == History([], [], 0, false, 0, [], false) && s.g == RenderLog(0, [], [])
  }

  predicate Enabled(s: State, a: Action) {
    match a
    case BeginRequest(_) => s.b.pc.Idle?
    case RequestStep => s.b.pc.Requesting? && !s.b.pc.stage.Sending?
    case SendControl(_) => s.b.pc.Requesting? && s.b.pc.stage.Sending?
    case BeginRead => s.b.pc.Idle?
    case ReceiveReply => s.b.pc.Waiting? && s.replies != []
    case GiveUp => s.b.pc.Waiting?
    case FinishRead => s.b.pc.Ready? || s.b.pc.Missed?
    case Receive => s.r.pc.Listening? && s.controls != []
    case Stop => s.r.pc.Listening?
    case TakeSkipped => s.r.pc.Received? && s.r.pc.signal != MAX32
    case ReadDelay => s.r.pc.Skimmed?
    case ReadTimestamp => s.r.pc.HasDelay?
    case RenderBegins => s.r.pc.HasTimestamp?
    case RenderEnds(_, _) => s.r.pc.InRender?
    case Reply(_) => s.r.pc.Replying? || (s.r.pc.Received? && s.r.pc.signal == MAX32)
  }

  /** The writes of RequestMoreData() to shared memory, in order. */
  function DoRequestStep(s: State): State
    requires s.b.pc.Requesting?
  {
    var q := s.b.pc.request;
    match s.b.pc.stage
    case AddSkipped =>
      s.(shm := s.shm.(framesSkipped := Wrap(s.shm.framesSkipped + q.skipped)), b := s.b.(pc := Requesting(q, SetDelay)))
    case SetDelay =>
      s.(shm := s.shm.(delay := q.delay), b := s.b.(pc := Requesting(q, SetTimestamp)))
    case SetTimestamp =>
      s.(shm := s.shm.(timestamp := q.timestamp), b := s.b.(pc := Requesting(q, ZeroBegins)))
    case ZeroBegins =>
      s.(shm := s.shm.(audio := Zeroing), b := s.b.(pc := Requesting(q, ZeroEnds)))
    case ZeroEnds =>
      s.(shm := s.shm.(audio := if s.shm.audio.Zeroing? then Silence else Mixed), b := s.b.(pc := Requesting(q, Sending)))
    case Sending => s
  }

  /** The control message; `++buffer_index_` happens whether or not it was sent. */
  function DoSendControl(s: State, ok: bool): State
    requires s.b.pc.Requesting?
  {
    var q := s.b.pc.request;
    s.(b := s.b.(pc := Idle, bufferIndex := Wrap(s.b.bufferIndex + 1)),
       controls := if ok then s.controls + [Signal(q)] else s.controls,
       h := s.h.(requests := s.h.requests + [q], sent := if ok then s.h.sent + [q] else s.h.sent, lastSent := ok, failed := if ok then s.h.failed else s.h.failed + 1))
  }

  function DoBeginRead(s: State): State {
    s.(b := s.b.(pc := Waiting, callbacks := s.b.callbacks + 1))
  }

  /** Requests whose reply has not been taken from the socket: lost, unanswered or unread. */
  function Lag(s: State): int {
    |s.h.requests| - (s.h.answered - |s.replies|)
  }

  /** One successful receive in WaitUntilDataIsReady(). */
  function DoReceiveReply(s: State): State
    requires s.replies != []
  {
    s.(replies := s.replies[1..], b := s.b.(pc := if s.replies[0] == s.b.bufferIndex then Ready else Waiting),
       h := s.h.(inWindow := Lag(s) <= TWO32))
  }

  /** Muted output, or a compressed buffer whose declared size cannot be right. */
  predicate Suppressed(cfg: Config, shm: SharedBuffer) {
    || (cfg.muted && !cfg.bitstream)
    || (cfg.bitstream && (shm.bitstreamDataSize > cfg.busBytes || shm.bitstreamFrames > MAX_INT))
  }

  function DoFinishRead(s: State): State {
    if s.b.pc.Ready? then
      s.(b := s.b.(pc := Idle, trailingMissed := 0, output := if Suppressed(s.cfg, s.shm) then Silence else s.shm.audio),
         h := s.h.(misses := s.h.misses + [false]))
    else
      s.(b := s.b.(pc := Idle, trailingMissed := s.b.trailingMissed + 1, missed := s.b.missed + 1, output := Silence),
         h := s.h.(misses := s.h.misses + [true]))
  }

  function DoRenderEnds(s: State, dataSize: u32, frames: u32): State
    requires s.r.pc.InRender?
  {
    var whole := s.shm.audio == Rendering(s.r.pc.delay, s.r.pc.timestamp);
    var audio := if whole then Rendered(s.r.pc.delay, s.r.pc.timestamp) else Mixed;
    s.(shm := if s.cfg.bitstream
              then s.shm.(audio := audio, bitstreamDataSize := dataSize, bitstreamFrames := frames)
              else s.shm.(audio := audio),
       r := s.r.(pc := Replying),
       g := s.g.(declared := s.g.declared + [(dataSize, frames)]))
  }

  /** `++buffer_index` and its send; a failed send ends the thread. */
  function DoReply(s: State, ok: bool): State {
    var index := Wrap(s.r.bufferIndex + 1);
    if ok then s.(r := s.r.(bufferIndex := index, pc := Listening), replies := s.replies + [index], h := s.h.(answered := s.h.answered + 1))
    else s.(r := s.r.(bufferIndex := index, pc := Stopped(true)))
  }

  /** One step; an action that is not enabled changes nothing. */
  function Next(s: State, a: Action): State {
    if !Enabled(s, a) then s else
    match a
    case BeginRequest(q) => s.(b := s.b.(pc := Requesting(q, AddSkipped)))
    case RequestStep => DoRequestStep(s)
    case SendControl(ok) => DoSendControl(s, ok)
    case BeginRead => DoBeginRead(s)
    case ReceiveReply => DoReceiveReply(s)
    case GiveUp => s.(b := s.b.(pc := Missed))
    case FinishRead => DoFinishRead(s)
    case Receive =>
      s.(r := s.r.(pc := Received(s.controls[0])), controls := s.controls[1..], g := s.g.(handled := s.g.handled + 1))
    case Stop => s.(r := s.r.(pc := Stopped(false)))
    case TakeSkipped =>
      s.(r := s.r.(pc := Skimmed, skipped := s.shm.framesSkipped), shm := s.shm.(framesSkipped := 0))
    case ReadDelay => s.(r := s.r.(pc := HasDelay(s.shm.delay)))
    case ReadTimestamp => s.(r := s.r.(pc := HasTimestamp(s.r.pc.delay, s.shm.timestamp)))
    case RenderBegins =>
      s.(r := s.r.(pc := InRender(s.r.pc.delay, s.r.pc.timestamp)),
         shm := s.shm.(audio := Rendering(s.r.pc.delay, s.r.pc.timestamp)),
         g := s.g.(renders := s.g.renders + [RenderCall(s.r.pc.delay, s.r.pc.timestamp, s.r.skipped)]))
    case RenderEnds(dataSize, frames) => DoRenderEnds(s, dataSize, frames)
    case Reply(ok) => DoReply(s, ok)
  }

  function Exec(s: State, run: seq<Action>): State {
    if run == [] then s else Next(Exec(s, run[..|run| - 1]), run[|run| - 1])
  }

  lemma ExecSnoc(s: State, run: seq<Action>, a: Action)
    ensures Exec(s, run + [a]) == Next(Exec(s, run), a)
  {
    hide Next;
    assert (run + [a])[..|run|] == run;
  }

  // ------------------------------------------------------------ destruction

  /** The DCHECKs of ~AudioSyncReader(). */
  predicate CanTrim(b: Browser) {
    b.trailingMissed <= b.missed && b.trailingMissed <= b.callbacks
  }

  /** The percentage of missed deadlines that ~AudioSyncReader() reports. */
  function PercentageMissed(b: Browser): int
    requires CanTrim(b) && b.callbacks > b.trailingMissed
  {
    100 * (b.missed - b.trailingMissed) / (b.callbacks - b.trailingMissed)
  }
}
