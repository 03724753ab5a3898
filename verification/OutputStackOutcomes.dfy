/** When a call on the output stream stack succeeds and what it leaves behind, in
    every reachable state: the liveness half of what OutputStackTheorems says. */
module OutputStackOutcomes {
  import opened StreamPool
  import opened OutputStack
  import opened OutputStackProofs
  import opened OutputStackTheorems

  // ---------------------------------------------------------- open and start

  /** A proxy opens exactly if the resampler lives and either a stream is waiting or one can be
      made; on a first open of low-latency parameters also if a fallback can be made. */
  lemma OpenOutcome(w0: World, run: seq<Step>, p: ProxyId, tries: Attempts)
    requires Init(w0)
    requires var w := Exec(w0, run); p in w.proxies && w.proxies[p].state.Created?
    ensures var w := Exec(w0, run); var w' := Next(w, Open(p, tries));
            var lowLatency := w.cfg.original.format.LowLatency?;
            p in w'.proxies && w'.proxies[p].state ==
              if w.alive && (|| Inner(w).idle != [] || Succeeds(w.m, tries.first)
                             || (w.dispatcher.None? && lowLatency &&
                                 ((w.cfg.windows && Succeeds(w.m, tries.second)) || Succeeds(w.m, tries.third))))
              then Opened else OpenError
  {
    hide PoolOk, IdleSet, PlayingSet, ResamplerOpen, Live, Gone, Exec;
    var w := Exec(w0, run);
    RunKeeps(w0, run);
    if w.alive {
      LiveCore(w);
      OpenProxies(w, tries);
      if w.dispatcher.None? {
        FallbackOrder(w, tries);
      } else {
        OpenAgain(w, tries);
      }
    }
  }

  lemma LiveCore(w: World)
    requires Live(w)
    ensures CoreOk(w) && ParamsOk(w) && ProxiesOk(Inner(w), w.proxies) && PoolOk(PoolOf(w))
  {
    hide PoolOk, IdleSet, PlayingSet;
  }

  lemma OpenAgain(w: World, tries: Attempts)
    requires PoolOk(PoolOf(w)) && w.dispatcher.Some?
    ensures ResamplerOpen(w, tries).1 <==> Inner(w).idle != [] || Succeeds(w.m, tries.first)
  {
    hide PoolOk, OpenStream, Install, FallBack;
    OpenKeeps(PoolOf(w), tries.first);
  }

  /** A proxy starts playing exactly if the resampler lives and either a stream is waiting, of which
      the most recent is taken, or one can be made. */
  lemma StartOutcome(w0: World, run: seq<Step>, p: ProxyId, o: Outcome)
    requires Init(w0)
    requires var w := Exec(w0, run); p in w.proxies && IsIdle(w.proxies[p])
    ensures var w := Exec(w0, run); var w' := Next(w, Start(p, o));
            && p in w'.proxies
            && w'.proxies[p].state == (if w.alive && (Inner(w).idle != [] || Succeeds(w.m, o)) then Playing else StartError)
            && (w.alive && Inner(w).idle != [] ==>
                  p in Inner(w').playing && Inner(w').playing[p] == Inner(w).idle[|Inner(w).idle| - 1])
  {
    hide PoolOk, IdleSet, PlayingSet, Live, Gone, Exec, StartStream;
    var w := Exec(w0, run);
    RunKeeps(w0, run);
    if w.alive {
      LiveCore(w);
      IdleProxyFacts(w, p);
      StartKeeps(PoolOf(w), p, w.proxies[p].volume, o);
    }
  }

  // ------------------------------------------------------------ stop and errors

  /** A stop without an error, now or earlier, keeps the stream and all idle ones for others; with
      one it closes them all. */
  lemma StopOutcome(w0: World, run: seq<Step>, p: ProxyId, fails: bool)
    requires Init(w0) && Exec(w0, run).alive && p in Inner(Exec(w0, run)).playing
    ensures var w := Exec(w0, run); var w' := Next(w, Stop(p, fails)); var id := Inner(w).playing[p];
            && p in w.callbacks && p in w'.proxies && w'.proxies[p].state.Opened?
            && |w'.m.streams| == |w.m.streams|
            && Inner(w').idle == (if fails || w.callbacks[p].error then [] else Inner(w).idle + [id])
            && (!fails && !w.callbacks[p].error ==>
                  && Inner(w').logs == Inner(w).logs
                  && forall i | 0 <= i < |w.m.streams| ::
                       w'.m.streams[i] == if i == id then w.m.streams[i].(playing := false) else w.m.streams[i])
  {
    hide PoolOk, IdleSet, PlayingSet, Live, Exec, StopInternal, ErrorsOk;
    var w := Exec(w0, run);
    RunKeeps(w0, run);
    LiveCore(w);
    InSets(w.proxies, p);
    SomeDispatcher(w, p);
    StopProxies(w, p, fails);
    StopPool(w, p, fails);
  }

  lemma StopPool(w: World, p: ProxyId, fails: bool)
    requires CoreOk(w) && w.dispatcher.Some? && p in Inner(w).playing
    ensures var v := StopInternal(w, p, fails); var id := Inner(w).playing[p];
            && |v.m.streams| == |w.m.streams|
            && Inner(v).idle == (if fails || w.callbacks[p].error then [] else Inner(w).idle + [id])
            && (!fails && !w.callbacks[p].error ==>
                  && Inner(v).logs == Inner(w).logs
                  && forall i | 0 <= i < |w.m.streams| ::
                       v.m.streams[i] == if i == id then w.m.streams[i].(playing := false) else w.m.streams[i])
  {
    hide PoolOk, ErrorsOk, StopStream, CloseIdleStreams, StreamError;
    var u := if fails then StreamError(w, p) else w;
    if fails {
      StreamErrorCore(w, p);
    }
    StopKeeps(PoolOf(u), p);
    var q := StopStream(PoolOf(u), p);
    StopLogs(PoolOf(u), p);
    CloseAllIdleKeeps(q);
    assert u.callbacks[p].error == (fails || w.callbacks[p].error);
  }

  lemma StopLogs(p: Pool, proxy: ProxyId)
    ensures StopStream(p, proxy).d.logs == p.d.logs
  {
  }

  /** Once a proxy's physical stream has reported an error, its converter knows until the proxy
      closes or the resampler is destroyed. */
  lemma ErrorRemembered(w0: World, run: seq<Step>, step: Step, p: ProxyId)
    requires Init(w0) && p in Exec(w0, run).callbacks
    requires Exec(w0, run).callbacks[p].error || (step == StreamFails(p) && Enabled(Exec(w0, run), step))
    ensures var w := Exec(w0, run); var w' := Next(w, step);
            if Enabled(w, step) && (step.Destroy? || (step == Close(p) && IsIdle(w.proxies[p]))) then p !in w'.callbacks
            else p in w'.callbacks && w'.callbacks[p].error
  {
    hide PoolOk, IdleSet, PlayingSet, Live, Exec, StopInternal, ResamplerOpen, Discard, StreamError,
      ResamplerClose, ResamplerStart, ResamplerSetVolume, Reinitialize, CloseIdleStreams, StopAll;
    var w := Exec(w0, run);
    RunKeeps(w0, run);
    if w.alive && Enabled(w, step) {
      LiveCore(w);
      match step
      case Open(_, tries) => ResamplerOpenKeeps(w, tries);
      case Stop(q, fails) =>
        if w.proxies[q].state.Playing? {
          InSets(w.proxies, q);
          SomeDispatcher(w, q);
          StopInternalKeeps(w, q, fails);
        }
      case StreamFails(q) => StreamErrorCore(w, q);
      case ReinitTimerFires => ReinitCallbacks(w);
      case Close(q) =>
        if IsIdle(w.proxies[q]) {
          IdleProxyFacts(w, q);
          CloseCallbacks(w, q);
        }
      case Start(q, o) => StartCallbacks(w, q, w.proxies[q].volume, o);
      case SetProxyVolume(q, v) => SetVolumeCallbacks(w.(proxies := w.proxies[q := w.proxies[q].(volume := v)]), q, v);
      case _ =>
    }
  }

  lemma CloseCallbacks(w: World, p: ProxyId)
    requires w.dispatcher.Some?
    ensures ResamplerClose(w, p).callbacks == w.callbacks - {p}
  {
    hide CloseStream;
  }

  lemma StartCallbacks(w: World, p: ProxyId, volume: real, o: Outcome)
    ensures var v := ResamplerStart(w, p, volume, o).0;
            forall q | q in w.callbacks :: q in v.callbacks && v.callbacks[q].error == w.callbacks[q].error
  {
    hide StartStream;
  }

  lemma SetVolumeCallbacks(w: World, p: ProxyId, volume: real)
    ensures ResamplerSetVolume(w, p, volume).callbacks == w.callbacks
  {
    hide SetVolume;
  }

  lemma ReinitCallbacks(w: World)
    ensures Reinitialize(w).callbacks == w.callbacks
  {
    hide CloseIdleStreams;
  }

  // ------------------------------------------------------------------- timers

  /** Closing a proxy arms the reinitialize timer exactly if no proxy is then open and the
      parameters are fallback ones; when it fires with none open the original parameters are back
      and there is no dispatcher, and otherwise nothing but the timer has changed. */
  lemma ReinitializeTimer(w0: World, run: seq<Step>, step: Step)
    requires Init(w0) && Exec(w0, run).alive && Enabled(Exec(w0, run), step)
    ensures var w := Exec(w0, run); var w' := Next(w, step);
            if step.Close? && IsIdle(w.proxies[step.p]) then
              w'.reinitTimer <==> w.reinitTimer || (NoneOpen(w') && w.params != w.cfg.original)
            else if step.ReinitTimerFires? then
              && !w'.reinitTimer
              && (if NoneOpen(w) then w'.dispatcher.None? && w'.params == w.cfg.original
                  else w' == w.(reinitTimer := false))
            else
              w'.reinitTimer == (w.reinitTimer && !step.Destroy?)
  {
    hide PoolOk, IdleSet, PlayingSet, Live, Exec, StopInternal, ResamplerOpen, Discard, StreamError,
      CloseStream, StartStream, CloseIdleStreams, StopAll, ResamplerClose, Reinitialize, Inv;
    var w := Exec(w0, run);
    RunKeeps(w0, run);
    InvLive(w);
    match step
    case Open(_, tries) => OpenTimer(w, tries);
    case Stop(q, fails) =>
      StopTimer(w, q, fails);
    case StreamFails(q) => StreamErrorCore(w, q);
    case ReinitTimerFires => ReinitTimer(w);
    case Close(q) =>
      if IsIdle(w.proxies[q]) {
        CloseTimer(w, q);
      }
    case _ =>
  }

  lemma InvLive(w: World)
    requires Inv(w) && w.alive
    ensures Live(w) && CoreOk(w)
  {
    hide PoolOk, IdleSet, PlayingSet;
  }

  lemma OpenTimer(w: World, tries: Attempts)
    requires Live(w)
    ensures ResamplerOpen(w, tries).0.reinitTimer == w.reinitTimer
  {
    hide PoolOk, IdleSet, PlayingSet, ResamplerOpen;
    ResamplerOpenKeeps(w, tries);
  }

  lemma StopTimer(w: World, p: ProxyId, fails: bool)
    ensures StopInternal(w, p, fails).reinitTimer == w.reinitTimer
  {
    hide StopStream, CloseIdleStreams;
  }

  lemma ReinitTimer(w: World)
    requires Live(w) && w.alive
    ensures var v := Reinitialize(w);
            if NoneOpen(w) then v.dispatcher.None? && v.params == w.cfg.original else v == w
  {
    hide PoolOk, IdleSet, PlayingSet, Discard;
    NoneOpenMeansUnused(w);
    if NoneOpen(w) {
      NoCallbacksLeft(w);
      FaultFree(w);
      NotPlaying(w);
      ReinitializeUnused(w);
    }
  }

  lemma NotPlaying(w: World)
    requires !HasOutputProxies(Inner(w))
    ensures Inner(w).playing == map[] && Inner(w).idleProxies == 0
  {
  }

  lemma CloseTimer(w: World, p: ProxyId)
    requires Live(w) && w.alive && p in w.proxies && IsIdle(w.proxies[p])
    ensures var v := ProxyClose(w, p);
            v.reinitTimer <==> w.reinitTimer || (NoneOpen(v) && w.params != w.cfg.original)
  {
    hide PoolOk, IdleSet, PlayingSet, CloseStream, CoreOk, VolumesOk, ParamsOk;
    CloseStep(w, p);
    LiveParts(ProxyClose(w, p));
    var v := ProxyClose(w, p);
    IdleProxyFacts(w, p);
    NoneOpenMeansUnused(v);
    if NoneOpen(v) {
      NoOwners(v);
    }
  }

  lemma LiveParts(w: World)
    requires Live(w)
    ensures ProxiesOk(Inner(w), w.proxies) && OwnersOk(w.callbacks, w.proxies)
  {
    hide PoolOk, IdleSet, PlayingSet;
  }

  lemma NoOwners(w: World)
    requires OwnersOk(w.callbacks, w.proxies) && NoneOpen(w)
    ensures w.callbacks == map[]
  {
    assert forall q :: q !in w.callbacks;
  }

  /** A waiting stream is never forgotten: the close timer is armed. */
  predicate TimerOk(d: Dispatcher) {
    d.idle != [] ==> d.closeTimer
  }

  lemma {:induction false} CloseEachTimer(p: Pool, ids: seq<StreamId>)
    ensures CloseEach(p, ids).d.closeTimer == p.d.closeTimer && CloseEach(p, ids).d.idle == p.d.idle
    decreases |ids|
  {
    if ids != [] {
      CloseEachTimer(p, ids[..|ids| - 1]);
    }
  }

  lemma CloseIdleTimer(p: Pool, keep: nat)
    requires TimerOk(p.d)
    ensures TimerOk(CloseIdleStreams(p, keep).d)
  {
    hide CloseEach;
    if |p.d.idle| > keep {
      CloseEachTimer(p, p.d.idle[keep..]);
    }
  }

  lemma DiscardTimer(w: World)
    ensures TimerOk(Inner(Discard(w)))
  {
    hide CloseIdleStreams;
  }

  lemma OpenInnerTimer(w: World, o: Outcome)
    requires TimerOk(Inner(w))
    ensures TimerOk(Inner(OpenInner(w, o).0))
  {
  }

  lemma OpenCloseTimer(w: World, tries: Attempts)
    requires TimerOk(Inner(w))
    ensures TimerOk(Inner(ResamplerOpen(w, tries).0))
  {
    hide OpenInner, Discard, FallBack;
    var ready := if w.dispatcher.Some? then w else
      Install(w.(faults := w.faults + if w.params != w.cfg.original then {NotOriginalParams} else {}), w.params);
    OpenInnerTimer(ready, tries.first);
    FallBackTimer(OpenInner(ready, tries.first).0, tries);
  }

  lemma FallBackTimer(w: World, tries: Attempts)
    requires TimerOk(Inner(w))
    ensures TimerOk(Inner(FallBack(w, tries).0))
  {
    hide OpenInner, Discard;
    var v := w;
    if w.cfg.windows {
      OpenInnerTimer(Install(w, FallbackParams(w.cfg.original)), tries.second);
      v := OpenInner(Install(w, FallbackParams(w.cfg.original)), tries.second).0;
    }
    OpenInnerTimer(Install(v, FakeParams(w.cfg)), tries.third);
    ReinitializeTimerOk(OpenInner(Install(v, FakeParams(w.cfg)), tries.third).0);
  }

  lemma ReinitializeTimerOk(w: World)
    requires TimerOk(Inner(w))
    ensures TimerOk(Inner(Reinitialize(w)))
  {
    hide Discard;
    DiscardTimer(w.(params := w.cfg.original,
                    faults := w.faults + if w.callbacks != map[] then {CallbacksLeft} else {}));
  }

  lemma StartTimer(w: World, p: ProxyId, volume: real, o: Outcome)
    requires TimerOk(Inner(w))
    ensures TimerOk(Inner(ResamplerStart(w, p, volume, o).0))
  {
  }

  lemma StopCloseTimer(w: World, p: ProxyId, fails: bool)
    requires TimerOk(Inner(w))
    ensures TimerOk(Inner(StopInternal(w, p, fails)))
  {
    hide CloseIdleStreams;
    var v := if fails then StreamError(w, p) else w;
    CloseIdleTimer(StopStream(PoolOf(v), p), 0);
  }

  lemma SetVolumeTimer(w: World, p: ProxyId, volume: real)
    requires TimerOk(Inner(w))
    ensures TimerOk(Inner(ResamplerSetVolume(w, p, volume)))
  {
  }

  lemma CloseCloseTimer(w: World, p: ProxyId)
    requires TimerOk(Inner(w))
    ensures TimerOk(Inner(ResamplerClose(w, p)))
  {
    hide CloseIdleStreams;
  }

  lemma FireTimer(w: World)
    requires w.dispatcher.Some? && w.dispatcher.value.closeTimer
    ensures Inner(Next(w, CloseTimerFires)).idle == []
  {
    hide CloseEach;
    CloseEachTimer(PoolOf(w), Inner(w).idle[0..]);
  }

  lemma StepTimer(w: World, step: Step)
    requires TimerOk(Inner(w))
    ensures TimerOk(Inner(Next(w, step)))
  {
    hide ResamplerOpen, ResamplerStart, ResamplerClose, ResamplerSetVolume, Reinitialize, StopInternal, StopAll,
      CloseIdleStreams, Discard;
    if Enabled(w, step) {
      match step
      case Open(_, tries) => OpenCloseTimer(w, tries);
      case Start(p, o) => StartTimer(w, p, w.proxies[p].volume, o);
      case Stop(p, fails) => StopCloseTimer(w, p, fails);
      case SetProxyVolume(p, volume) =>
        SetVolumeTimer(w.(proxies := w.proxies[p := w.proxies[p].(volume := volume)]), p, volume);
      case Close(p) => CloseCloseTimer(w, p);
      case CloseTimerFires => FireTimer(w);
      case ReinitTimerFires => ReinitializeTimerOk(w);
      case Destroy(order, failing) => DiscardTimer(StopAll(w, order, failing));
      case _ =>
    }
  }

  /** In every reachable state a waiting stream means an armed close timer; when that fires no
      stream is left waiting. */
  lemma {:induction false} CloseTimerArmed(w0: World, run: seq<Step>)
    requires Init(w0)
    ensures var w := Exec(w0, run);
            && (Inner(w).idle != [] ==> Inner(w).closeTimer)
            && (Enabled(w, CloseTimerFires) ==> Inner(Next(w, CloseTimerFires)).idle == [])
    decreases |run|
  {
    hide Next;
    if run != [] {
      CloseTimerArmed(w0, run[..|run| - 1]);
      StepTimer(Exec(w0, run[..|run| - 1]), run[|run| - 1]);
    }
    if Enabled(Exec(w0, run), CloseTimerFires) {
      FireTimer(Exec(w0, run));
    }
  }
}
