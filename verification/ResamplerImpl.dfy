/** AudioOutputResampler, its converters and its proxies as an object updated in
    place over a dispatcher object, proved against the steps of OutputStack. */
module ResamplerImpl {
  import opened StreamPool
  import opened OutputStack
  import opened OutputStackProofs
  import opened DispatcherImpl

  class AudioOutputResampler {
    const cfg: Config
    const manager: AudioManagerBase
    var dispatcher: AudioOutputDispatcherImpl?
    var params: AudioParameters
    var callbacks: map<ProxyId, Converter>
    var reinitTimer: bool
    var alive: bool
    var proxies: map<ProxyId, Proxy>
    ghost var generation: nat

    /** The whole stack as a value. */
    ghost function View(): World
      reads this, manager, dispatcher
    {
      World(cfg, proxies, alive, if dispatcher == null then None else Some(dispatcher.Own()), generation,
            params, callbacks, reinitTimer, manager.View(), {})
    }

    ghost predicate Wired()
      reads this, dispatcher
    {
      dispatcher != null ==> dispatcher.manager == manager
    }

    ghost predicate Valid()
      reads this, manager, dispatcher
    {
      Wired() && Inv(View())
    }

    constructor (cfg: Config, manager: AudioManagerBase)
      requires !cfg.original.format.Fake?
      requires manager.streams == [] && manager.numOutputStreams == manager.others <= manager.maxNumOutputStreams
      ensures Valid() && Init(View()) && this.manager == manager && dispatcher == null
    {
      this.cfg, this.manager, dispatcher, params := cfg, manager, null, cfg.original;
      callbacks, reinitTimer, alive, proxies, generation := map[], false, true, map[], 0;
      new;
      InitInv(View());
    }

    // ------------------------------------------------- the inner dispatcher

    /** `dispatcher_.reset()`. */
    method DiscardDispatcher()
      requires Wired() && PoolOk(PoolOf(View())) && Inner(View()).playing == map[]
      modifies this`dispatcher, dispatcher, manager
      ensures View() == Discard(old(View())) && dispatcher == null
    {
      hide PoolOk, CloseIdleStreams;
      if dispatcher != null {
        assert PoolOf(View()) == dispatcher.View();
        dispatcher.Destroy();
        dispatcher := null;
      }
    }

    /** `dispatcher_ = MakeDispatcher(...)`, when no proxy is open. */
    method MakeDispatcher(newParams: AudioParameters)
      requires Wired() && Unused(View())
      modifies this`dispatcher, this`params, this`generation, dispatcher, manager
      ensures Wired() && dispatcher != null && fresh(dispatcher)
      ensures View() == Install(old(View()), newParams) && Unused(View())
    {
      hide PoolOk, Discard;
      InstallKeeps(View(), newParams);
      DiscardKeeps(View());
      DiscardDispatcher();
      dispatcher := new AudioOutputDispatcherImpl(manager);
      params := newParams;
      generation := generation + 1;
    }

    method OpenInnerStream(o: Outcome) returns (ok: bool)
      requires Wired() && PoolOk(PoolOf(View())) && dispatcher != null
      modifies dispatcher, manager
      ensures (View(), ok) == OpenInner(old(View()), o)
      ensures PoolOk(PoolOf(View()))
    {
      hide PoolOk, StreamPool.OpenStream;
      assert PoolOf(View()) == dispatcher.View();
      ok := dispatcher.OpenStream(o);
      assert PoolOf(View()) == dispatcher.View();
    }

    // ------------------------------------------------- AudioOutputResampler

    method Reinitialize()
      requires Wired() && PoolOk(PoolOf(View())) && (!HasOutputProxies(Inner(View())) ==> callbacks == map[])
      modifies this`dispatcher, this`params, dispatcher, manager
      ensures View() == OutputStack.Reinitialize(old(View())) && Wired()
      ensures dispatcher == null || dispatcher == old(dispatcher)
    {
      hide PoolOk, Discard;
      if dispatcher != null && dispatcher.HasOutputProxies() {
        return;
      }
      params := cfg.original;
      assert View() == old(View()).(params := cfg.original, faults := {} + {});
      DiscardDispatcher();
    }

    /** The attempts after the first: linear on Windows, then fake, then giving up. */
    method FallBackOpen(tries: Attempts) returns (ok: bool)
      requires Wired() && Unused(View())
      modifies this`dispatcher, this`params, this`generation, dispatcher, manager
      ensures (View(), ok) == FallBack(old(View()), tries) && Wired()
      ensures dispatcher == null || dispatcher == old(dispatcher) || fresh(dispatcher)
    {
      hide PoolOk, Install, OpenInner, OutputStack.Reinitialize;
      if cfg.windows {
        MakeDispatcher(FallbackParams(cfg.original));
        OpenInnerKeeps(View(), tries.second);
        ok := OpenInnerStream(tries.second);
        if ok {
          return;
        }
      }
      MakeDispatcher(FakeParams(cfg));
      OpenInnerKeeps(View(), tries.third);
      ok := OpenInnerStream(tries.third);
      if !ok {
        Reinitialize();
      }
    }

    method OpenStream(tries: Attempts) returns (ok: bool)
      requires Wired() && CoreOk(View()) && ParamsOk(View())
      modifies this`dispatcher, this`params, this`generation, dispatcher, manager
      ensures (View(), ok) == ResamplerOpen(old(View()), tries) && Wired()
      ensures dispatcher == null || dispatcher == old(dispatcher) || fresh(dispatcher)
    {
      hide PoolOk, Install, OpenInner, FallBack, ConvertersOk, ErrorsOk;
      var firstStream := dispatcher == null;
      if firstStream {
        assert View().(faults := {} + {}) == View();
        MakeDispatcher(params);
        OpenInnerKeeps(View(), tries.first);
      }
      ok := OpenInnerStream(tries.first);
      if ok || !cfg.original.format.LowLatency? || !firstStream {
        return;
      }
      ok := FallBackOpen(tries);
    }

    method StartStream(p: ProxyId, volume: real, o: Outcome) returns (ok: bool)
      requires Wired() && CoreOk(View()) && dispatcher != null
      requires p !in Inner(View()).playing && Inner(View()).idleProxies > 0
      modifies this`callbacks, dispatcher, manager
      ensures (View(), ok) == ResamplerStart(old(View()), p, volume, o)
    {
      hide PoolOk, ConvertersOk, ErrorsOk, StreamPool.StartStream, ResamplerStart;
      ghost var w := View();
      ghost var was := if p in w.callbacks then w.callbacks[p] else Converter(false, false);
      StartResult(w, p, volume, o);
      assert PoolOf(w) == dispatcher.View();
      if p !in callbacks {
        callbacks := callbacks[p := Converter(false, false)];
      }
      assert !callbacks[p].started;
      callbacks := callbacks[p := callbacks[p].(started := true)];
      ok := dispatcher.StartStream(p, volume, o);
      if !ok {
        callbacks := callbacks[p := callbacks[p].(started := false)];
      }
      assert callbacks == w.callbacks[p := was.(started := ok)];
    }

    /** A playing physical stream reports an error: OnMoreDataConverter::OnError(). */
    method OnError(p: ProxyId)
      requires Wired() && CoreOk(View()) && p in Inner(View()).playing
      modifies this`callbacks, manager
      ensures View() == StreamError(old(View()), p)
    {
      hide PoolOk, ErrorsOk;
      CorePlayingLogged(View());
      callbacks := callbacks[p := callbacks[p].(error := true)];
      manager.Fail(dispatcher.proxyToPhysical[p]);
    }

    method StopStreamInternal(p: ProxyId, fails: bool)
      requires Wired() && CoreOk(View()) && p in Inner(View()).playing
      modifies this`callbacks, dispatcher, manager
      ensures View() == StopInternal(old(View()), p, fails)
    {
      hide PoolOk, ErrorsOk, StreamPool.StopStream, StreamPool.CloseIdleStreams, StreamError;
      if fails {
        StreamErrorCore(View(), p);
        OnError(p);
      }
      assert PoolOf(View()) == dispatcher.View();
      dispatcher.StopStream(p);
      callbacks := callbacks[p := callbacks[p].(started := false)];
      if callbacks[p].error {
        dispatcher.CloseIdleStreams(0);
      }
    }

    method StreamVolumeSet(p: ProxyId, volume: real)
      requires Wired() && CoreOk(View()) && dispatcher != null
      modifies manager
      ensures View() == ResamplerSetVolume(old(View()), p, volume)
    {
      hide PoolOk, StreamPool.SetVolume;
      assert PoolOf(View()) == dispatcher.View();
      dispatcher.StreamVolumeSet(p, volume);
    }

    method CloseStream(p: ProxyId)
      requires Wired() && CoreOk(View()) && p !in Inner(View()).playing && Inner(View()).idleProxies > 0
      modifies this`callbacks, this`reinitTimer, dispatcher, manager
      ensures View() == ResamplerClose(old(View()), p)
    {
      hide PoolOk, ConvertersOk, ErrorsOk, StreamPool.CloseStream, ResamplerClose;
      CloseResult(View(), p);
      assert PoolOf(View()) == dispatcher.View();
      dispatcher.CloseStream();
      callbacks := callbacks - {p};
      if !dispatcher.HasOutputProxies() && callbacks == map[] && params != cfg.original {
        reinitTimer := true;
      }
    }

    /** The destructor's loop: stops the given converters in order. */
    method StopEach(order: seq<ProxyId>, failing: set<ProxyId>)
      requires Wired() && CoreOk(View()) && (forall p | p in order :: p in Inner(View()).playing)
      requires forall i, j | 0 <= i < j < |order| :: order[i] != order[j]
      modifies this`callbacks, dispatcher, manager
      ensures View() == StopAll(old(View()), order, failing)
    {
      hide CoreOk, StopInternal;
      ghost var w := View();
      for i := 0 to |order|
        invariant View() == StopAll(w, order[..i], failing)
      {
        assert order[..i + 1][..i] == order[..i];
        StopAllKeeps(w, order[..i], failing);
        assert order[i] !in order[..i];
        assert order[i] in order;
        StopStreamInternal(order[i], order[i] in failing);
      }
      assert order[..|order|] == order;
    }

    /** The destructor: stops every started converter, then drops the dispatcher. */
    method Destroy(order: seq<ProxyId>, failing: set<ProxyId>)
      requires Wired() && Live(View()) && Enabled(View(), Step.Destroy(order, failing))
      modifies this, dispatcher, manager
      ensures View() == ResamplerDestroy(old(View()), order, failing)
      ensures dispatcher == null
    {
      hide PoolOk, ErrorsOk, StopInternal, Discard, IdleSet, PlayingSet, StopAll;
      ghost var w := View();
      StopAllKeeps(w, order, failing);
      StopEach(order, failing);
      AllStopped(View());
      DiscardDispatcher();
      callbacks, reinitTimer, alive := map[], false, false;
    }

    // ----------------------------------------------------- AudioOutputProxy

    method SetProxyState(p: ProxyId, state: ProxyState)
      requires p in proxies
      modifies this`proxies
      ensures View() == SetState(old(View()), p, state)
    {
      proxies := proxies[p := proxies[p].(state := state)];
    }

    method ProxyOpen(p: ProxyId, tries: Attempts)
      requires Valid() && p in proxies && proxies[p].state.Created?
      modifies this, dispatcher, manager
      ensures View() == OutputStack.ProxyOpen(old(View()), p, tries) && Wired()
      ensures dispatcher == null || dispatcher == old(dispatcher) || fresh(dispatcher)
    {
      hide PoolOk, ResamplerOpen, ConvertersOk, ErrorsOk, IdleSet, PlayingSet;
      var ok := false;
      if alive {
        ok := OpenStream(tries);
      }
      SetProxyState(p, if ok then Opened else OpenError);
    }

    method ProxyStart(p: ProxyId, o: Outcome)
      requires Valid() && p in proxies && IsIdle(proxies[p])
      modifies this, dispatcher, manager
      ensures View() == OutputStack.ProxyStart(old(View()), p, o) && Wired() && dispatcher == old(dispatcher)
    {
      hide PoolOk, ResamplerStart, ConvertersOk, ErrorsOk, IdleSet, PlayingSet;
      var ok := false;
      if alive {
        InSets(proxies, p);
        OpenMeansDispatcher(View(), p);
        ok := StartStream(p, proxies[p].volume, o);
      }
      SetProxyState(p, if ok then Playing else StartError);
    }

    method ProxyStop(p: ProxyId, fails: bool)
      requires Valid() && p in proxies
      modifies this, dispatcher, manager
      ensures View() == OutputStack.ProxyStop(old(View()), p, fails) && Wired() && dispatcher == old(dispatcher)
    {
      hide PoolOk, StopInternal, ConvertersOk, ErrorsOk, IdleSet, PlayingSet;
      if !proxies[p].state.Playing? {
        return;
      }
      if alive {
        InSets(proxies, p);
        StopStreamInternal(p, fails);
      }
      SetProxyState(p, Opened);
    }

    method ProxySetVolume(p: ProxyId, volume: real)
      requires Valid() && p in proxies && (IsIdle(proxies[p]) || proxies[p].state.Playing?)
      modifies this`proxies, manager
      ensures View() == OutputStack.ProxySetVolume(old(View()), p, volume) && Wired()
    {
      hide PoolOk, ResamplerSetVolume, IdleSet, PlayingSet, Live;
      ghost var w := View();
      proxies := proxies[p := proxies[p].(volume := volume)];
      if alive {
        CanSetVolume(w, p);
        assert View() == w.(proxies := proxies);
        StreamVolumeSet(p, volume);
      }
    }

    method ProxyClose(p: ProxyId)
      requires Valid() && p in proxies && !proxies[p].state.Playing? && !proxies[p].state.Closed?
      modifies this, dispatcher, manager
      ensures View() == OutputStack.ProxyClose(old(View()), p) && Wired() && dispatcher == old(dispatcher)
    {
      hide PoolOk, ResamplerClose, ConvertersOk, ErrorsOk, IdleSet, PlayingSet;
      if !proxies[p].state.Created? && !proxies[p].state.OpenError? && alive {
        InSets(proxies, p);
        OpenMeansDispatcher(View(), p);
        CloseStream(p);
      }
      SetProxyState(p, Closed);
    }

    /** One step of the stack. */
    method Do(step: Step)
      requires Valid() && Enabled(View(), step)
      modifies this, dispatcher, manager
      ensures Valid() && View() == Next(old(View()), step)
      ensures dispatcher == null || dispatcher == old(dispatcher) || fresh(dispatcher)
    {
      hide Live, Gone, OutputStack.ProxyOpen, OutputStack.ProxyStart, OutputStack.ProxyStop,
        OutputStack.ProxySetVolume, OutputStack.ProxyClose, StreamError, OutputStack.Reinitialize, ResamplerDestroy,
        StreamPool.CloseIdleStreams;
      ghost var w := View();
      StepKeeps(w, step);
      match step {
        case NewProxy(p) => proxies := proxies[p := Proxy(Created, 1.0)];
        case Open(p, tries) => ProxyOpen(p, tries);
        case Start(p, o) => ProxyStart(p, o);
        case Stop(p, fails) => ProxyStop(p, fails);
        case SetProxyVolume(p, volume) => ProxySetVolume(p, volume);
        case Close(p) => ProxyClose(p);
        case StreamFails(p) =>
          LiveWhenDispatching(w);
          OnError(p);
        case CloseTimerFires =>
          LiveWhenDispatching(w);
          assert PoolOf(w) == dispatcher.View();
          dispatcher.OnCloseTimer();
        case ReinitTimerFires =>
          MayReinitialize(w);
          Reinitialize();
          reinitTimer := false;
        case OthersTake => manager.TakeForOther();
        case OthersRelease => manager.ReleaseOther();
        case Destroy(order, failing) => Destroy(order, failing);
      }
    }

    /** Any legal run of clients, timers and devices: the object goes through the states of the
        machine, so that what is proved of every run of the machine holds of the object. */
    method Run(steps: seq<Step>)
      requires Valid() && forall i | 0 <= i < |steps| :: Enabled(Exec(View(), steps[..i]), steps[i])
      modifies this, dispatcher, manager
      ensures Valid() && View() == Exec(old(View()), steps)
    {
      hide Inv, Next, Enabled;
      ghost var w := View();
      for i := 0 to |steps|
        invariant Valid() && View() == Exec(w, steps[..i])
        invariant dispatcher == null || dispatcher == old(dispatcher) || fresh(dispatcher)
      {
        assert steps[..i + 1][..i] == steps[..i];
        Do(steps[i]);
      }
      assert steps[..|steps|] == steps;
    }
  }

  /** The converter of a proxy that does not play is not in use. */
  lemma StartResult(w: World, p: ProxyId, volume: real, o: Outcome)
    requires CoreOk(w) && w.dispatcher.Some? && p !in Inner(w).playing
    ensures var was := if p in w.callbacks then w.callbacks[p] else Converter(false, false);
            var (q, ok) := StartStream(PoolOf(w), p, volume, o);
            && !was.started
            && ResamplerStart(w, p, volume, o) == (WithPool(w, q).(callbacks := w.callbacks[p := was.(started := ok)]), ok)
  {
    hide PoolOk, ErrorsOk, StartStream;
    var v := WithPool(w, StartStream(PoolOf(w), p, volume, o).0);
    assert v.faults + {} == v.faults;
  }

  /** A proxy that closes does not play, so its converter is not in use. */
  lemma CloseResult(w: World, p: ProxyId)
    requires CoreOk(w) && w.dispatcher.Some? && p !in Inner(w).playing
    ensures var q := CloseStream(PoolOf(w));
            var timer := !HasOutputProxies(q.d) && w.callbacks - {p} == map[] && w.params != w.cfg.original;
            ResamplerClose(w, p) == WithPool(w, q).(callbacks := w.callbacks - {p}, reinitTimer := w.reinitTimer || timer)
  {
    hide PoolOk, ErrorsOk, CloseStream;
    var v := WithPool(w, CloseStream(PoolOf(w)));
    assert v.faults + {} == v.faults;
  }

  lemma AllStopped(w: World)
    requires CoreOk(w) && forall p :: p !in Inner(w).playing
    ensures PoolOk(PoolOf(w)) && Inner(w).playing == map[]
    ensures forall p | p in w.callbacks :: !w.callbacks[p].started
  {
    hide PoolOk, ErrorsOk;
  }

  lemma CanSetVolume(w: World, p: ProxyId)
    requires Live(w) && p in w.proxies && (IsIdle(w.proxies[p]) || w.proxies[p].state.Playing?)
    ensures w.dispatcher.Some? && CoreOk(w)
  {
    hide PoolOk, IdleSet, PlayingSet;
    InSets(w.proxies, p);
    OpenMeansDispatcher(w, p);
  }

  lemma LiveWhenDispatching(w: World)
    requires Inv(w) && w.dispatcher.Some?
    ensures CoreOk(w) && Coherent(PoolOf(w))
  {
  }

  lemma MayReinitialize(w: World)
    requires Live(w)
    ensures PoolOk(PoolOf(w)) && (!HasOutputProxies(Inner(w)) ==> w.callbacks == map[])
  {
    hide PoolOk, IdleSet, PlayingSet;
    NoneOpenMeansUnused(w);
    if NoneOpen(w) {
      NoCallbacksLeft(w);
    }
  }
}
