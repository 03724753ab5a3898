/** The promises of the output stream stack, over every run. */
module OutputStackTheorems {
  import opened StreamPool
  import opened OutputStack
  import opened OutputStackProofs

  /** Logged streams are the disjoint union of the distinct idle ones and those mapped to playing
      proxies; the map is injective, its keys are the proxies in kPlaying, `idle_proxies_` counts
      those in kOpened or kStartError, and each playing stream has its proxy's volume. */
  lemma PoolPartition(w0: World, run: seq<Step>)
    requires Init(w0) && Exec(w0, run).alive
    ensures var w := Exec(w0, run); var d := Inner(w);
            && Distinct(d.idle) && Injective(d.playing)
            && d.logs == Elems(d.idle) + d.playing.Values && Elems(d.idle) !! d.playing.Values
            && d.playing.Keys == PlayingSet(w.proxies)
            && d.idleProxies == |IdleSet(w.proxies)|
            && (forall p | p in d.playing ::
                  && p in w.proxies && d.playing[p] < |w.m.streams|
                  && w.m.streams[d.playing[p]].playing && w.m.streams[d.playing[p]].volume == w.proxies[p].volume)
  {
    var w := Exec(w0, run);
    RunKeeps(w0, run);
    Partitioned(Inner(w));
    CorePlayingLogged(w);
    assert forall p | p in Inner(w).playing :: p in PlayingSet(w.proxies);
    assert forall p | p in Inner(w).playing :: Inner(w).playing[p] in Inner(w).playing.Values;
  }

  lemma Partitioned(d: Dispatcher)
    requires Partition(d)
    ensures d.logs == Elems(d.idle) + d.playing.Values && Elems(d.idle) !! d.playing.Values
  {
    forall id | id in d.playing.Values ensures id !in d.idle {
      var p :| p in d.playing && d.playing[p] == id;
    }
  }

  /** No check of the manager, the dispatcher, the resampler or its converters fires; idle streams
      stay within one of the idle proxies; the manager's count is this stack's live streams plus the
      others', within the cap; and every stream ever made is live, or closed exactly once, and all
      are closed once the resampler is destroyed. */
  lemma PoolConservation(w0: World, run: seq<Step>)
    requires Init(w0)
    ensures var w := Exec(w0, run); var d := Inner(w);
            && w.faults == {}
            && |d.idle| <= d.idleProxies + 1
            && w.m.count == |d.logs| + w.m.others && w.m.count <= w.m.cap
            && (forall id | 0 <= id < |w.m.streams| :: w.m.streams[id].closes == if id in d.logs then 0 else 1)
            && (!w.alive ==> d.logs == {})
  {
    hide Next;
    RunKeeps(w0, run);
  }

  /** Right after a proxy closes, idle streams are at most max(idle proxies, 1). */
  lemma BoundAfterClose(w0: World, run: seq<Step>, p: ProxyId)
    requires Init(w0)
    requires var w := Exec(w0, run); w.alive && p in w.proxies && IsIdle(w.proxies[p])
    ensures var w' := Next(Exec(w0, run), Close(p));
            |Inner(w').idle| <= Max(Inner(w').idleProxies, 1)
  {
    hide PoolOk, IdleSet, PlayingSet, CloseStream;
    var w := Exec(w0, run);
    RunKeeps(w0, run);
    InSets(w.proxies, p);
    OpenMeansDispatcher(w, p);
    CloseStreamKeeps(PoolOf(w));
  }

  // --------------------------------------------------------------- resampler

  /** Until the resampler is destroyed, the inner dispatcher is neither replaced nor destroyed while
      a proxy is open; without a dispatcher the parameters are the original ones and there are no
      converters; and fallback parameters with no proxy open imply an armed timer. */
  lemma DispatcherLifetime(w0: World, run: seq<Step>, step: Step)
    requires Init(w0) && Exec(w0, run).alive && !step.Destroy?
    ensures var w := Exec(w0, run); var w' := Next(w, step);
            && (!NoneOpen(w) ==> w.dispatcher.Some? && w'.dispatcher.Some? && w'.generation == w.generation)
            && (w.dispatcher.None? ==> w.params == w.cfg.original && w.callbacks == map[])
            && (w.params != w.cfg.original && NoneOpen(w) ==> w.reinitTimer)
  {
    hide PoolOk, IdleSet, PlayingSet;
    var w := Exec(w0, run);
    RunKeeps(w0, run);
    if !NoneOpen(w) {
      NoneOpenMeansUnused(w);
      InUseKept(w, step);
    }
  }

  lemma InUseKept(w: World, step: Step)
    requires Live(w) && w.alive && w.dispatcher.Some? && HasOutputProxies(Inner(w)) && !step.Destroy?
    ensures Next(w, step).dispatcher.Some? && Next(w, step).generation == w.generation
  {
    hide PoolOk, IdleSet, PlayingSet, CloseIdleStreams, StopStream, CloseStream, StartStream, Discard, Install;
    if step.Open? && Enabled(w, step) {
      ResamplerOpenKeeps(w, step.tries);
    }
  }

  /** Parameters change only when a first open falls back, or back to the original ones when the
      timer finds no proxy open. */
  lemma FallbackOnlyOnFirstOpen(w0: World, run: seq<Step>, step: Step)
    requires Init(w0) && Exec(w0, run).alive && !step.Destroy?
    ensures var w := Exec(w0, run); var w' := Next(w, step);
            w'.params != w.params ==>
              || (step.Open? && w.dispatcher.None? && NoneOpen(w) && w.params == w.cfg.original &&
                  w.cfg.original.format.LowLatency?)
              || (step.ReinitTimerFires? && NoneOpen(w) && w'.params == w.cfg.original && w'.dispatcher.None?)
  {
    hide PoolOk, IdleSet, PlayingSet, CloseIdleStreams, StopStream, CloseStream, StartStream, Install;
    var w := Exec(w0, run);
    RunKeeps(w0, run);
    NoneOpenMeansUnused(w);
    if step.Open? && Enabled(w, step) {
      ResamplerOpenKeeps(w, step.tries);
    }
  }

  /** Whether the manager has room, finds a driver stream, and that stream opens. */
  predicate Succeeds(m: Manager, o: Outcome) {
    m.count < m.cap && o.made && o.opens
  }

  /** High-latency parameters: the original's layout and rate, and buffers of the original's or of
      2048 frames, whichever is more. */
  predicate LinearFallback(cfg: Config, params: AudioParameters) {
    && params.format.Linear? && params.layout == cfg.original.layout && params.sampleRate == cfg.original.sampleRate
    && params.framesPerBuffer >= 2048 && params.framesPerBuffer >= cfg.original.framesPerBuffer
    && (params.framesPerBuffer == 2048 || params.framesPerBuffer == cfg.original.framesPerBuffer)
  }

  /** A fake device that takes what the clients provide. */
  predicate FakeFallback(cfg: Config, params: AudioParameters) {
    && params.format.Fake? && params.layout == cfg.input.layout && params.sampleRate == cfg.input.sampleRate
    && params.framesPerBuffer == cfg.input.framesPerBuffer
  }

  /** The order of a first open: the original parameters; then, if those are low-latency ones, linear
      on Windows, then fake; the first attempt that succeeds decides, and if none does the
      resampler is back where it was. */
  lemma FallbackOrder(w: World, tries: Attempts)
    requires CoreOk(w) && ParamsOk(w) && w.dispatcher.None?
    ensures var (v, ok) := ResamplerOpen(w, tries);
            var lowLatency := w.cfg.original.format.LowLatency?;
            && (ok <==>
                  || Succeeds(w.m, tries.first)
                  || (lowLatency && w.cfg.windows && Succeeds(w.m, tries.second))
                  || (lowLatency && Succeeds(w.m, tries.third)))
            && (Succeeds(w.m, tries.first) ==> v.params == w.cfg.original)
            && (ok && !Succeeds(w.m, tries.first) ==>
                  if w.cfg.windows && Succeeds(w.m, tries.second) then LinearFallback(w.cfg, v.params)
                  else FakeFallback(w.cfg, v.params))
            && (!ok ==> v.params == w.cfg.original && (lowLatency ==> v.dispatcher.None?))
  {
    hide PoolOk, ConvertersOk, ErrorsOk, Install, OpenInner;
    FaultFree(w);
    assert w.(faults := w.faults + {}) == w;
    InstallFresh(w, w.params);
    var ready := Install(w, w.params);
    AttemptDecides(ready, tries.first);
    var (v, ok) := OpenInner(ready, tries.first);
    if !ok {
      FallBackOrder(v, tries);
    }
  }

  /** Nothing open and no stream left over. */
  ghost predicate Fresh(w: World) {
    Unused(w) && Inner(w).idle == []
  }

  lemma InstallFresh(w: World, params: AudioParameters)
    requires Fresh(w)
    ensures var v := Install(w, params);
            Fresh(v) && v.dispatcher.Some? && v.m == w.m && v.cfg == w.cfg && v.params == params
  {
    hide PoolOk;
    InstallKeeps(w, params);
  }

  lemma AttemptDecides(w: World, o: Outcome)
    requires Fresh(w) && w.dispatcher.Some?
    ensures var (v, ok) := OpenInner(w, o);
            && (ok <==> Succeeds(w.m, o))
            && v.cfg == w.cfg && v.params == w.params
            && (!ok ==> Fresh(v) && v.m.count == w.m.count && v.m.cap == w.m.cap)
  {
    hide Partition, StreamsOk;
    OpenInnerKeeps(w, o);
    CreateKeeps(PoolOf(w), o);
  }

  lemma FallBackOrder(w: World, tries: Attempts)
    requires Fresh(w)
    ensures var (v, ok) := FallBack(w, tries);
            && (ok <==> (w.cfg.windows && Succeeds(w.m, tries.second)) || Succeeds(w.m, tries.third))
            && (ok ==> v.params == if w.cfg.windows && Succeeds(w.m, tries.second) then FallbackParams(w.cfg.original)
                                   else FakeParams(w.cfg))
            && (!ok ==> v.dispatcher.None? && v.params == w.cfg.original)
  {
    hide PoolOk, Install, OpenInner;
    FallBackKeeps(w, tries);
    var u := w;
    if w.cfg.windows {
      InstallFresh(w, FallbackParams(w.cfg.original));
      var x := Install(w, FallbackParams(w.cfg.original));
      AttemptDecides(x, tries.second);
      u := OpenInner(x, tries.second).0;
    }
    if !(w.cfg.windows && Succeeds(w.m, tries.second)) {
      InstallFresh(u, FakeParams(w.cfg));
      AttemptDecides(Install(u, FakeParams(w.cfg)), tries.third);
    }
  }

  // -------------------------------------------------------------- converters

  /** A proxy's converter is started iff the proxy is in the inner dispatcher's playing map, and a
      stream that failed is playing for a proxy whose converter knows, or has been closed. */
  lemma ConverterAgreement(w0: World, run: seq<Step>)
    requires Init(w0) && Exec(w0, run).alive
    ensures var w := Exec(w0, run); var d := Inner(w);
            && (forall p :: p in d.playing <==> p in w.callbacks && w.callbacks[p].started)
            && (forall p | p in d.playing :: d.playing[p] < |w.m.streams| &&
                  (w.m.streams[d.playing[p]].failed ==> w.callbacks[p].error))
            && (forall id | 0 <= id < |w.m.streams| && w.m.streams[id].failed ::
                  id in d.playing.Values || w.m.streams[id].closes == 1)
  {
    hide Next;
    var w := Exec(w0, run);
    RunKeeps(w0, run);
    CorePlayingLogged(w);
  }

  /** A stream that failed while playing, or fails while being stopped, is closed by the stop. */
  lemma FailedStreamClosed(w0: World, run: seq<Step>, p: ProxyId, fails: bool)
    requires Init(w0)
    requires var w := Exec(w0, run);
             w.alive && p in Inner(w).playing && Inner(w).playing[p] < |w.m.streams| &&
             (fails || w.m.streams[Inner(w).playing[p]].failed)
    ensures var w := Exec(w0, run); var w' := Next(w, Stop(p, fails)); var id := Inner(w).playing[p];
            id < |w'.m.streams| && w'.m.streams[id].closes == 1 && id !in Inner(w').logs
  {
    hide Next, StopInternal, ErrorsOk;
    var w := Exec(w0, run);
    RunKeeps(w0, run);
    InSets(w.proxies, p);
    SomeDispatcher(w, p);
    StopInternalKeeps(w, p, fails);
    var w' := Next(w, Stop(p, fails));
    StopIsInternal(w, p, fails);
    FailedLeavesPool(w, p, fails);
  }

  /** A stream that starts playing for a proxy has never reported an error. */
  lemma FailedNeverRestarted(w0: World, run: seq<Step>, step: Step, q: ProxyId)
    requires Init(w0) && Exec(w0, run).alive && Next(Exec(w0, run), step).alive
    requires q in Inner(Next(Exec(w0, run), step)).playing && q !in Inner(Exec(w0, run)).playing
    ensures var w' := Next(Exec(w0, run), step); var id := Inner(w').playing[q];
            id < |w'.m.streams| && !w'.m.streams[id].failed && w'.m.streams[id].closes == 0
  {
    hide Next, IdleSet, PlayingSet, PoolOk;
    var w := Exec(w0, run);
    var w' := Next(w, step);
    RunKeeps(w0, run);
    StepKeeps(w, step);
    InSets(w.proxies, q);
    InSets(w'.proxies, q);
    OnlyStartPlays(w, step, q);
    StartStreams(w, q, step.outcome);
    LoggedUnclosed(w', q);
  }

  lemma OnlyStartPlays(w: World, step: Step, q: ProxyId)
    requires q in Next(w, step).proxies && Next(w, step).proxies[q].state.Playing?
    requires q in w.proxies ==> !w.proxies[q].state.Playing?
    ensures step.Start? && step.p == q && Enabled(w, step) && ResamplerStart(w, q, w.proxies[q].volume, step.outcome).1
    ensures w.alive
  {
    hide ResamplerOpen, Reinitialize, StopInternal, StopAll, StartStream, CloseStream, CloseIdleStreams;
    match step
    case Open(_, tries) => OpenProxies(w, tries);
    case Stop(p, fails) => StopProxies(w, p, fails);
    case ReinitTimerFires => ReinitProxies(w);
    case Destroy(order, failing) => StopAllProxies(w, order, failing);
    case _ =>
  }

  lemma OpenProxies(w: World, tries: Attempts)
    ensures ResamplerOpen(w, tries).0.proxies == w.proxies
  {
    hide Install, OpenInner, FallBack;
    var checked := w.(faults := w.faults + if w.params != w.cfg.original then {NotOriginalParams} else {});
    InstallProxies(checked, w.params);
    var ready := if w.dispatcher.Some? then w else Install(checked, w.params);
    OpenInnerProxies(ready, tries.first);
    FallBackProxies(OpenInner(ready, tries.first).0, tries);
  }

  lemma InstallProxies(w: World, params: AudioParameters)
    ensures Install(w, params).proxies == w.proxies
  {
    hide CloseIdleStreams;
  }

  lemma OpenInnerProxies(w: World, o: Outcome)
    ensures OpenInner(w, o).0.proxies == w.proxies
  {
    hide OpenStream;
  }

  lemma FallBackProxies(w: World, tries: Attempts)
    ensures FallBack(w, tries).0.proxies == w.proxies
  {
    hide Install, OpenInner, Reinitialize;
    var v := w;
    if w.cfg.windows {
      InstallProxies(w, FallbackParams(w.cfg.original));
      OpenInnerProxies(Install(w, FallbackParams(w.cfg.original)), tries.second);
      v := OpenInner(Install(w, FallbackParams(w.cfg.original)), tries.second).0;
    }
    InstallProxies(v, FakeParams(w.cfg));
    OpenInnerProxies(Install(v, FakeParams(w.cfg)), tries.third);
    ReinitProxies(OpenInner(Install(v, FakeParams(w.cfg)), tries.third).0);
  }

  lemma StopProxies(w: World, p: ProxyId, fails: bool)
    ensures StopInternal(w, p, fails).proxies == w.proxies
  {
    hide StopStream, CloseIdleStreams;
  }

  lemma ReinitProxies(w: World)
    ensures Reinitialize(w).proxies == w.proxies
  {
    hide CloseIdleStreams;
  }

  lemma {:induction false} StopAllProxies(w: World, order: seq<ProxyId>, failing: set<ProxyId>)
    ensures StopAll(w, order, failing).proxies == w.proxies
    decreases |order|
  {
    hide StopInternal;
    if order != [] {
      StopAllProxies(w, order[..|order| - 1], failing);
      var p := order[|order| - 1];
      StopProxies(StopAll(w, order[..|order| - 1], failing), p, p in failing);
    }
  }

  lemma StartStreams(w: World, q: ProxyId, o: Outcome)
    requires Live(w) && w.alive && q in w.proxies && IsIdle(w.proxies[q])
    requires ResamplerStart(w, q, w.proxies[q].volume, o).1
    ensures var w' := Next(w, Start(q, o));
            && q in Inner(w').playing && Inner(w').playing[q] < |w'.m.streams|
            && !w'.m.streams[Inner(w').playing[q]].failed
  {
    hide IdleSet, PlayingSet, PoolOk, StartStream;
    InSets(w.proxies, q);
    OpenMeansDispatcher(w, q);
    StartKeeps(PoolOf(w), q, w.proxies[q].volume, o);
  }

  lemma LoggedUnclosed(w: World, q: ProxyId)
    requires CoreOk(w) && q in Inner(w).playing
    ensures Inner(w).playing[q] < |w.m.streams| && w.m.streams[Inner(w).playing[q]].closes == 0
  {
    PlayingLogged(PoolOf(w));
  }

  lemma StopIsInternal(w: World, p: ProxyId, fails: bool)
    requires w.alive && p in w.proxies && w.proxies[p].state.Playing?
    ensures var w' := Next(w, Stop(p, fails)); var v := StopInternal(w, p, fails);
            Inner(w') == Inner(v) && w'.m == v.m
  {
    hide StopInternal;
  }

  lemma FailedLeavesPool(w: World, p: ProxyId, fails: bool)
    requires CoreOk(w) && w.dispatcher.Some? && p in Inner(w).playing && Inner(w).playing[p] < |w.m.streams|
    requires fails || w.m.streams[Inner(w).playing[p]].failed
    ensures var v := StopInternal(w, p, fails); var id := Inner(w).playing[p];
            id < |v.m.streams| && v.m.streams[id].closes == 1 && id !in Inner(v).logs
  {
    hide StreamsOk, CountOk, Clean, CloseEach, ErrorsOk, StopStream;
    var id := Inner(w).playing[p];
    var u := if fails then StreamError(w, p) else w;
    if fails {
      StreamErrorCore(w, p);
    } else {
      ErrorKnown(w, p);
    }
    assert u.callbacks[p].error && Inner(u) == Inner(w);
    var v := StopInternal(w, p, fails);
    StopInternalKeeps(w, p, fails);
    StopKeeps(PoolOf(u), p);
    var q := StopStream(PoolOf(u), p);
    CloseAllIdleKeeps(q);
    assert PoolOf(v) == CloseIdleStreams(q, 0);
    assert id !in Inner(v).playing.Values by {
      forall x | x in Inner(v).playing ensures Inner(v).playing[x] != id {
      }
    }
    ClosedWhenUnlogged(PoolOf(v), id);
  }

  lemma ErrorKnown(w: World, p: ProxyId)
    requires CoreOk(w) && p in Inner(w).playing && Inner(w).playing[p] < |w.m.streams|
    requires w.m.streams[Inner(w).playing[p]].failed
    ensures w.callbacks[p].error
  {
  }

  lemma ClosedWhenUnlogged(p: Pool, id: StreamId)
    requires PoolOk(p) && p.d.idle == [] && id !in p.d.playing.Values && id < |p.m.streams|
    ensures id !in p.d.logs && p.m.streams[id].closes == 1
  {
  }
}
