/** What a client such as AudioOutputController does to one proxy, as a sequence
    of calls, and how that fits the output stream stack: the calls determine the
    proxy's state and volume in every run of the stack, and a client that keeps
    to the discipline below never makes a call the stack does not allow. */
module ProxyCalls {
  import opened StreamPool
  import opened OutputStack
  import opened OutputStackProofs
  import opened OutputStackTheorems

  datatype Call =
    | CallOpen(ok: bool)
    | CallStart(ok: bool)
    | CallStop
    | CallSetVolume(volume: real)
    | CallClose

  // ------------------------------------------------------------- the proxy

  /** The DCHECKs of AudioOutputProxy, and a successful open before SetVolume(). */
  predicate Allows(state: ProxyState, c: Call) {
    match c
    case CallOpen(_) => state.Created?
    case CallStart(_) => state.Opened? || state.StartError?
    case CallStop => !state.Closed?
    case CallSetVolume(_) => state.Opened? || state.Playing? || state.StartError?
    case CallClose => state.Created? || state.OpenError? || state.Opened? || state.StartError?
  }

  function StateStep(state: ProxyState, c: Call): ProxyState {
    match c
    case CallOpen(ok) => if ok then Opened else OpenError
    case CallStart(ok) => if ok then Playing else StartError
    case CallStop => if state.Playing? then Opened else state
    case CallSetVolume(_) => state
    case CallClose => Closed
  }

  function StateAfter(calls: seq<Call>): ProxyState {
    if calls == [] then Created else StateStep(StateAfter(calls[..|calls| - 1]), calls[|calls| - 1])
  }

  /** The volume last set, 1.0 if none was. */
  function VolumeAfter(calls: seq<Call>): real {
    if calls == [] then 1.0
    else if calls[|calls| - 1].CallSetVolume? then calls[|calls| - 1].volume
    else VolumeAfter(calls[..|calls| - 1])
  }

  // ---------------------------------------------------------- the discipline

  /** Opened once, then started and stopped in turn, closed once while not running. */
  datatype Phase = Fresh | Ready | Failed | Running | Done | Broken

  function PhaseStep(phase: Phase, c: Call): Phase {
    match c
    case CallOpen(ok) => if phase != Fresh then Broken else if ok then Ready else Failed
    case CallStart(_) => if phase == Ready then Running else Broken
    case CallStop => if phase == Running then Ready else Broken
    case CallSetVolume(_) => if phase == Ready || phase == Running then phase else Broken
    case CallClose => if phase == Ready || phase == Failed then Done else Broken
  }

  function PhaseAfter(calls: seq<Call>): Phase {
    if calls == [] then Fresh else PhaseStep(PhaseAfter(calls[..|calls| - 1]), calls[|calls| - 1])
  }

  lemma CallAppend(calls: seq<Call>, c: Call)
    ensures StateAfter(calls + [c]) == StateStep(StateAfter(calls), c)
    ensures PhaseAfter(calls + [c]) == PhaseStep(PhaseAfter(calls), c)
    ensures VolumeAfter(calls + [c]) == if c.CallSetVolume? then c.volume else VolumeAfter(calls)
  {
    assert (calls + [c])[..|calls|] == calls;
  }

  /** The Start() calls as true and the Stop() calls as false, in order. */
  function Toggles(calls: seq<Call>): seq<bool> {
    if calls == [] then []
    else Toggles(calls[..|calls| - 1]) +
         if calls[|calls| - 1].CallStart? then [true] else if calls[|calls| - 1].CallStop? then [false] else []
  }

  /** What the discipline means: Open() is the first call and no other, Close() the last and no
      other, Start() and Stop() alternate beginning with Start(), and at the end as many were made
      of one as of the other, unless the stream is running. */
  lemma {:induction false} DisciplineMeans(calls: seq<Call>)
    requires PhaseAfter(calls) != Broken
    ensures forall i | 0 <= i < |calls| :: calls[i].CallOpen? <==> i == 0
    ensures forall i | 0 <= i < |calls| :: calls[i].CallClose? <==> i == |calls| - 1 && PhaseAfter(calls) == Done
    ensures forall i | 0 <= i < |Toggles(calls)| :: Toggles(calls)[i] <==> i % 2 == 0
    ensures |Toggles(calls)| % 2 == if PhaseAfter(calls) == Running then 1 else 0
    ensures PhaseAfter(calls) == Fresh <==> calls == []
    decreases |calls|
  {
    if calls != [] {
      var front, c := calls[..|calls| - 1], calls[|calls| - 1];
      DisciplineMeans(front);
      forall i | 0 <= i < |calls|
        ensures (calls[i].CallOpen? <==> i == 0)
        ensures (calls[i].CallClose? <==> i == |calls| - 1 && PhaseAfter(calls) == Done)
      {
        if i < |front| {
          assert calls[i] == front[i];
        }
      }
    }
  }

  predicate Fits(phase: Phase, state: ProxyState) {
    match phase
    case Fresh => state.Created?
    case Ready => state.Opened? || state.StartError?
    case Failed => state.OpenError?
    case Running => state.Playing? || state.StartError?
    case Done => state.Closed?
    case Broken => true
  }

  lemma {:induction false} PhaseFits(calls: seq<Call>)
    ensures Fits(PhaseAfter(calls), StateAfter(calls))
    decreases |calls|
  {
    if calls != [] {
      PhaseFits(calls[..|calls| - 1]);
    }
  }

  /** A call that keeps to the discipline passes the proxy's DCHECK. */
  lemma DisciplineAllowed(calls: seq<Call>, c: Call)
    requires PhaseAfter(calls + [c]) != Broken
    ensures Allows(StateAfter(calls), c)
  {
    CallAppend(calls, c);
    PhaseFits(calls);
  }

  // ------------------------------------------------------------- in the stack

  /** Whether a step of the stack is the client's call `c` on `p`, whatever its outcome. */
  predicate IsCall(step: Step, p: ProxyId, c: Call) {
    match step
    case Open(q, _) => q == p && c.CallOpen?
    case Start(q, _) => q == p && c.CallStart?
    case Stop(q, _) => q == p && c.CallStop?
    case SetProxyVolume(q, v) => q == p && c == CallSetVolume(v)
    case Close(q) => q == p && c.CallClose?
    case _ => false
  }

  /** The call on `p` that a step makes, with its outcome; none if the step is not about `p`. */
  function CallMade(w: World, step: Step, p: ProxyId): seq<Call> {
    if !Enabled(w, step) then [] else
    match step
    case Open(q, tries) => if q == p then [CallOpen(w.alive && ResamplerOpen(w, tries).1)] else []
    case Start(q, o) =>
      if q == p then [CallStart(w.alive && ResamplerStart(w, p, w.proxies[p].volume, o).1)] else []
    case Stop(q, _) => if q == p then [CallStop] else []
    case SetProxyVolume(q, v) => if q == p then [CallSetVolume(v)] else []
    case Close(q) => if q == p then [CallClose] else []
    case _ => []
  }

  /** All calls on `p` in a run. */
  function CallsOn(w0: World, run: seq<Step>, p: ProxyId): seq<Call> {
    if run == [] then [] else
    CallsOn(w0, run[..|run| - 1], p) + CallMade(Exec(w0, run[..|run| - 1]), run[|run| - 1], p)
  }

  /** A step changes a proxy only by the call it makes on it. */
  lemma StepOnProxy(w: World, step: Step, p: ProxyId)
    ensures var made := CallMade(w, step, p); var w' := Next(w, step);
            if p !in w.proxies then
              made == [] && (p in w'.proxies ==> w'.proxies[p] == Proxy(Created, 1.0))
            else if made == [] then
              p in w'.proxies && w'.proxies[p] == w.proxies[p]
            else
              && |made| == 1 && p in w'.proxies
              && w'.proxies[p].state == StateStep(w.proxies[p].state, made[0])
              && w'.proxies[p].volume == if made[0].CallSetVolume? then made[0].volume else w.proxies[p].volume
  {
    hide ResamplerOpen, ResamplerStart, ResamplerClose, ResamplerSetVolume, Reinitialize, StopInternal, StopAll,
      CloseIdleStreams, StreamError, Discard;
    if Enabled(w, step) {
      match step
      case Open(_, tries) => OpenProxies(w, tries);
      case Start(q, o) => StartProxies(w, q, w.proxies[q].volume, o);
      case Stop(q, fails) => StopProxies(w, q, fails);
      case SetProxyVolume(q, v) => SetVolumeProxies(w.(proxies := w.proxies[q := w.proxies[q].(volume := v)]), q, v);
      case Close(q) => CloseProxies(w, q);
      case StreamFails(q) => StreamErrorProxies(w, q);
      case ReinitTimerFires => ReinitProxies(w);
      case Destroy(order, failing) => DestroyProxies(w, order, failing);
      case _ =>
    }
  }

  lemma StartProxies(w: World, p: ProxyId, volume: real, o: Outcome)
    ensures ResamplerStart(w, p, volume, o).0.proxies == w.proxies
  {
    hide StartStream;
  }

  lemma SetVolumeProxies(w: World, p: ProxyId, volume: real)
    ensures ResamplerSetVolume(w, p, volume).proxies == w.proxies
  {
    hide SetVolume;
  }

  lemma CloseProxies(w: World, p: ProxyId)
    ensures ResamplerClose(w, p).proxies == w.proxies
  {
    hide CloseStream;
  }

  lemma StreamErrorProxies(w: World, p: ProxyId)
    ensures StreamError(w, p).proxies == w.proxies
  {
  }

  lemma DestroyProxies(w: World, order: seq<ProxyId>, failing: set<ProxyId>)
    ensures ResamplerDestroy(w, order, failing).proxies == w.proxies
  {
    hide StopAll, CloseIdleStreams;
    StopAllProxies(w, order, failing);
  }

  /** In every run of the stack, the calls made on a proxy determine its state and its volume. */
  lemma {:induction false} CallsDetermine(w0: World, run: seq<Step>, p: ProxyId)
    requires Init(w0)
    ensures var w := Exec(w0, run); var calls := CallsOn(w0, run, p);
            && (p !in w.proxies ==> calls == [])
            && (p in w.proxies ==> w.proxies[p] == Proxy(StateAfter(calls), VolumeAfter(calls)))
    decreases |run|
  {
    hide Next, CallMade;
    if run != [] {
      var front, step := run[..|run| - 1], run[|run| - 1];
      CallsDetermine(w0, front, p);
      var w, calls := Exec(w0, front), CallsOn(w0, front, p);
      var made := CallMade(w, step, p);
      StepOnProxy(w, step, p);
      if made == [] {
        assert calls + made == calls;
      } else {
        CallAppend(calls, made[0]);
        assert made == [made[0]];
      }
    }
  }

  /** A client that has kept to the discipline on its proxy, and keeps to it with its next call,
      makes a call that the stack allows, whatever all other clients, timers and devices did. */
  lemma DisciplinedCallEnabled(w0: World, run: seq<Step>, p: ProxyId, c: Call, step: Step)
    requires Init(w0) && p in Exec(w0, run).proxies && IsCall(step, p, c)
    requires PhaseAfter(CallsOn(w0, run, p) + [c]) != Broken
    ensures Enabled(Exec(w0, run), step)
  {
    hide Next, CallsOn, PhaseAfter, StateAfter, VolumeAfter, Exec;
    CallsDetermine(w0, run, p);
    DisciplineAllowed(CallsOn(w0, run, p), c);
  }

  /** The volume a client last set on its proxy is the volume of the physical stream that plays for it. */
  lemma VolumeReachesDevice(w0: World, run: seq<Step>, p: ProxyId)
    requires Init(w0) && Exec(w0, run).alive && p in Inner(Exec(w0, run)).playing
    ensures var w := Exec(w0, run); var id := Inner(w).playing[p];
            && id < |w.m.streams| && w.m.streams[id].playing
            && w.m.streams[id].volume == VolumeAfter(CallsOn(w0, run, p))
            && StateAfter(CallsOn(w0, run, p)).Playing?
  {
    hide Next, CallsOn, StateAfter, VolumeAfter, Exec;
    PoolPartition(w0, run);
    CallsDetermine(w0, run, p);
    InSets(Exec(w0, run).proxies, p);
  }
}
