/** The output stream stack: any number of AudioOutputProxy objects over one
    AudioOutputResampler, which owns an AudioOutputDispatcherImpl and falls back
    to other parameters. A step is one client call, timer firing or device event;
    a run is any sequence of legal ones. */
module OutputStack {
  import opened StreamPool

  datatype Format = LowLatency | Linear | Fake

  datatype AudioParameters = AudioParameters(format: Format, layout: int, sampleRate: int, framesPerBuffer: int)

  const MIN_LOW_LATENCY_FRAME_SIZE: int := 2048

  /** GetFallbackOutputParams(), used on Windows. */
  function FallbackParams(original: AudioParameters): AudioParameters {
    AudioParameters(Linear, original.layout, original.sampleRate,
                    if original.framesPerBuffer >= MIN_LOW_LATENCY_FRAME_SIZE then original.framesPerBuffer
                    else MIN_LOW_LATENCY_FRAME_SIZE)
  }

  datatype ProxyState = Created | Opened | Playing | Closed | OpenError | StartError

  datatype Proxy = Proxy(state: ProxyState, volume: real)

  /** OnMoreDataConverter: whether it has a source callback, and whether OnError() was ever called. */
  datatype Converter = Converter(started: bool, error: bool)

  datatype Option<T> = None | Some(value: T)

  datatype Config = Config(original: AudioParameters, input: AudioParameters, windows: bool)

  datatype World = World(
    cfg: Config,
    proxies: map<ProxyId, Proxy>,
    alive: bool,
    dispatcher: Option<Dispatcher>,
    generation: nat,
    params: AudioParameters,
    callbacks: map<ProxyId, Converter>,
    reinitTimer: bool,
    m: Manager,
    faults: set<Fault>)

  /** The outcomes of up to three attempts to open a physical stream. */
  datatype Attempts = Attempts(first: Outcome, second: Outcome, third: Outcome)

  datatype Step =
    | NewProxy(p: ProxyId)
    | Open(p: ProxyId, tries: Attempts)
    | Start(p: ProxyId, outcome: Outcome)
    | Stop(p: ProxyId, fails: bool)
    | SetProxyVolume(p: ProxyId, volume: real)
    | Close(p: ProxyId)
    | StreamFails(p: ProxyId)
    | CloseTimerFires
    | ReinitTimerFires
    | OthersTake
    | OthersRelease
    | Destroy(order: seq<ProxyId>, failing: set<ProxyId>)

  predicate IsIdle(x: Proxy) { x.state.Opened? || x.state.StartError? }

  function IdleSet(proxies: map<ProxyId, Proxy>): set<ProxyId> {
    set p | p in proxies && IsIdle(proxies[p])
  }

  function PlayingSet(proxies: map<ProxyId, Proxy>): set<ProxyId> {
    set p | p in proxies && proxies[p].state.Playing?
  }

  predicate NoneOpen(w: World) {
    IdleSet(w.proxies) == {} && PlayingSet(w.proxies) == {}
  }

  predicate Init(w: World) {
    && w.proxies == map[] && w.alive && w.dispatcher.None? && w.params == w.cfg.original
    && !w.cfg.original.format.Fake? && w.callbacks == map[]
    && w.m.streams == [] && w.m.count == w.m.others <= w.m.cap && w.faults == {}
  }

  /** What clients of the proxies, the timers and the device may do next. */
  predicate Enabled(w: World, step: Step) {
    match step
    case NewProxy(p) => p !in w.proxies && w.alive
    case Open(p, _) => p in w.proxies && w.proxies[p].state.Created?
    case Start(p, _) => p in w.proxies && IsIdle(w.proxies[p])
    case Stop(p, _) => p in w.proxies && !w.proxies[p].state.Closed?
    case SetProxyVolume(p, _) => p in w.proxies && (IsIdle(w.proxies[p]) || w.proxies[p].state.Playing?)
    case Close(p) => p in w.proxies && !w.proxies[p].state.Playing? && !w.proxies[p].state.Closed?
    case StreamFails(p) => w.dispatcher.Some? && p in w.dispatcher.value.playing
    case CloseTimerFires => w.dispatcher.Some? && w.dispatcher.value.closeTimer
    case ReinitTimerFires => w.alive && w.reinitTimer
    case OthersTake => w.m.count < w.m.cap
    case OthersRelease => w.m.others > 0
    case Destroy(order, _) =>
      && w.alive
      && (forall i, j | 0 <= i < j < |order| :: order[i] != order[j])
      && (forall p | p in order :: p in w.callbacks && w.callbacks[p].started)
      && (forall p | p in w.callbacks && w.callbacks[p].started :: p in order)
  }

  // --------------------------------------------------- the inner dispatcher

  function Inner(w: World): Dispatcher {
    if w.dispatcher.Some? then w.dispatcher.value else EmptyDispatcher()
  }

  function PoolOf(w: World): Pool {
    Pool(Inner(w), w.m, w.faults)
  }

  function WithPool(w: World, q: Pool): World {
    w.(dispatcher := Some(q.d), m := q.m, faults := q.faults)
  }

  /** `dispatcher_.reset()`: the dispatcher's destructor closes its idle streams. */
  function Discard(w: World): World {
    if w.dispatcher.None? then w else
    var q := CloseIdleStreams(PoolOf(w), 0);
    w.(dispatcher := None, m := q.m, faults := q.faults)
  }

  /** `dispatcher_ = MakeDispatcher(...)`. */
  function Install(w: World, params: AudioParameters): World {
    var v := Discard(w);
    v.(dispatcher := Some(EmptyDispatcher()), generation := v.generation + 1, params := params,
       faults := v.faults + if w.callbacks != map[] then {CallbacksLeft} else {})
  }

  // ----------------------------------------------------- AudioOutputResampler

  function Reinitialize(w: World): World {
    if w.dispatcher.Some? && HasOutputProxies(w.dispatcher.value) then w else
    Discard(w.(params := w.cfg.original,
               faults := w.faults + if w.callbacks != map[] then {CallbacksLeft} else {}))
  }

  function OpenInner(w: World, o: Outcome): (World, bool) {
    var (q, ok) := OpenStream(PoolOf(w), o);
    (WithPool(w, q), ok)
  }

  function FakeParams(cfg: Config): AudioParameters {
    cfg.input.(format := Fake)
  }

  /** The fallback part of OpenStream(), after the first attempt of a first open failed. */
  function FallBack(w: World, tries: Attempts): (World, bool) {
    var (v, linear) := if w.cfg.windows then OpenInner(Install(w, FallbackParams(w.cfg.original)), tries.second)
                       else (w, false);
    if linear then (v, true) else
    var (u, fake) := OpenInner(Install(v, FakeParams(w.cfg)), tries.third);
    if fake then (u, true) else (Reinitialize(u), false)
  }

  function ResamplerOpen(w: World, tries: Attempts): (World, bool) {
    var first := w.dispatcher.None?;
    var ready := if !first then w else
      Install(w.(faults := w.faults + if w.params != w.cfg.original then {NotOriginalParams} else {}), w.params);
    var (v, ok) := OpenInner(ready, tries.first);
    if ok then (v, true)
    else if !w.cfg.original.format.LowLatency? || !first then (v, false)
    else FallBack(v, tries)
  }

  function ResamplerStart(w: World, p: ProxyId, volume: real, o: Outcome): (World, bool) {
    if w.dispatcher.None? then (w.(faults := w.faults + {NoDispatcher}), false) else
    var c := if p in w.callbacks then w.callbacks[p] else Converter(false, false);
    var (q, ok) := StartStream(PoolOf(w), p, volume, o);
    var v := WithPool(w, q);
    (v.(callbacks := w.callbacks[p := c.(started := ok)],
        faults := v.faults + if c.started then {ConverterInUse} else {}), ok)
  }

  /** The physical stream of a playing proxy reports an error: OnMoreDataConverter::OnError(). */
  function StreamError(w: World, p: ProxyId): World {
    if p !in Inner(w).playing || p !in w.callbacks then w.(faults := w.faults + {ConverterNotStarted}) else
    var id := Inner(w).playing[p];
    w.(callbacks := w.callbacks[p := w.callbacks[p].(error := true)],
       m := if id < |w.m.streams| then w.m.(streams := w.m.streams[id := w.m.streams[id].(failed := true)]) else w.m,
       faults := w.faults + if !w.callbacks[p].started then {ConverterNotStarted} else {})
  }

  /** StopStreamInternal(); the stream may fail while it is being stopped. */
  function StopInternal(w: World, p: ProxyId, fails: bool): World {
    if w.dispatcher.None? || p !in w.callbacks || !w.callbacks[p].started then
      w.(faults := w.faults + {ConverterNotStarted})
    else
      var v := if fails then StreamError(w, p) else w;
      var q := StopStream(PoolOf(v), p);
      var c := if p in v.callbacks then v.callbacks[p] else w.callbacks[p];
      var r := if c.error then CloseIdleStreams(q, 0) else q;
      WithPool(v, r).(callbacks := v.callbacks[p := c.(started := false)])
  }

  function ResamplerSetVolume(w: World, p: ProxyId, volume: real): World {
    if w.dispatcher.None? then w.(faults := w.faults + {NoDispatcher}) else
    WithPool(w, SetVolume(PoolOf(w), p, volume))
  }

  function ResamplerClose(w: World, p: ProxyId): World {
    if w.dispatcher.None? then w.(faults := w.faults + {NoDispatcher}) else
    var q := CloseStream(PoolOf(w));
    var v := WithPool(w, q).(callbacks := w.callbacks - {p});
    v.(reinitTimer := w.reinitTimer ||
                      (!HasOutputProxies(q.d) && v.callbacks == map[] && w.params != w.cfg.original),
       faults := v.faults + if p in w.callbacks && w.callbacks[p].started then {ConverterInUse} else {})
  }

  function StopAll(w: World, order: seq<ProxyId>, failing: set<ProxyId>): World {
    if order == [] then w else
    var p := order[|order| - 1];
    StopInternal(StopAll(w, order[..|order| - 1], failing), p, p in failing)
  }

  /** ~AudioOutputResampler(): stops what plays, then its members are destroyed. */
  function ResamplerDestroy(w: World, order: seq<ProxyId>, failing: set<ProxyId>): World {
    var v := StopAll(w, order, failing);
    var left := exists p | p in v.callbacks :: v.callbacks[p].started;
    Discard(v).(alive := false, callbacks := map[], reinitTimer := false,
                faults := Discard(v).faults + if left then {ConverterInUse} else {})
  }

  // -------------------------------------------------------- AudioOutputProxy

  function SetState(w: World, p: ProxyId, state: ProxyState): World {
    if p in w.proxies then w.(proxies := w.proxies[p := w.proxies[p].(state := state)]) else w
  }

  function ProxyOpen(w: World, p: ProxyId, tries: Attempts): World {
    var (v, ok) := if w.alive then ResamplerOpen(w, tries) else (w, false);
    SetState(v, p, if ok then Opened else OpenError)
  }

  function ProxyStart(w: World, p: ProxyId, o: Outcome): World
    requires p in w.proxies
  {
    var (v, ok) := if w.alive then ResamplerStart(w, p, w.proxies[p].volume, o) else (w, false);
    SetState(v, p, if ok then Playing else StartError)
  }

  function ProxyStop(w: World, p: ProxyId, fails: bool): World
    requires p in w.proxies
  {
    if !w.proxies[p].state.Playing? then w else
    SetState(if w.alive then StopInternal(w, p, fails) else w, p, Opened)
  }

  function ProxySetVolume(w: World, p: ProxyId, volume: real): World
    requires p in w.proxies
  {
    var v := w.(proxies := w.proxies[p := w.proxies[p].(volume := volume)]);
    if w.alive then ResamplerSetVolume(v, p, volume) else v
  }

  function ProxyClose(w: World, p: ProxyId): World
    requires p in w.proxies
  {
    var wasOpen := !w.proxies[p].state.Created? && !w.proxies[p].state.OpenError?;
    SetState(if wasOpen && w.alive then ResamplerClose(w, p) else w, p, Closed)
  }

  function Next(w: World, step: Step): World {
    if !Enabled(w, step) then w else
    match step
    case NewProxy(p) => w.(proxies := w.proxies[p := Proxy(Created, 1.0)])
    case Open(p, tries) => ProxyOpen(w, p, tries)
    case Start(p, o) => ProxyStart(w, p, o)
    case Stop(p, fails) => ProxyStop(w, p, fails)
    case SetProxyVolume(p, volume) => ProxySetVolume(w, p, volume)
    case Close(p) => ProxyClose(w, p)
    case StreamFails(p) => StreamError(w, p)
    case CloseTimerFires =>
      var v := WithPool(w, CloseIdleStreams(PoolOf(w), 0));
      v.(dispatcher := Some(v.dispatcher.value.(closeTimer := false)))
    case ReinitTimerFires => Reinitialize(w).(reinitTimer := false)
    case OthersTake => w.(m := w.m.(count := w.m.count + 1, others := w.m.others + 1))
    case OthersRelease => w.(m := w.m.(count := w.m.count - 1, others := w.m.others - 1))
    case Destroy(order, failing) => ResamplerDestroy(w, order, failing)
  }

  function Exec(w: World, run: seq<Step>): World {
    if run == [] then w else Next(Exec(w, run[..|run| - 1]), run[|run| - 1])
  }
}
