/** What every step of the output stream stack keeps, and what follows for runs. */
module OutputStackProofs {
  import opened StreamPool
  import opened OutputStack

  /** The playing map's keys are the proxies in kPlaying; `idle_proxies_` counts the proxies in
      kOpened or kStartError. */
  ghost predicate ProxiesOk(d: Dispatcher, proxies: map<ProxyId, Proxy>) {
    && (forall p :: p in d.playing <==> p in PlayingSet(proxies))
    && d.idleProxies == |IdleSet(proxies)|
  }

  ghost predicate VolumesOk(d: Dispatcher, streams: seq<Physical>, proxies: map<ProxyId, Proxy>) {
    forall p | p in d.playing && p in proxies && d.playing[p] < |streams| ::
      streams[d.playing[p]].volume == proxies[p].volume
  }

  /** A proxy's converter is started iff the proxy is in the playing map. */
  ghost predicate ConvertersOk(d: Dispatcher, callbacks: map<ProxyId, Converter>) {
    && (forall p | p in d.playing :: p in callbacks)
    && (forall p | p in callbacks :: callbacks[p].started <==> p in d.playing)
  }

  /** A playing stream that failed has told its proxy's converter. */
  ghost predicate ErrorsOk(d: Dispatcher, streams: seq<Physical>, callbacks: map<ProxyId, Converter>) {
    forall p | p in d.playing && p in callbacks && d.playing[p] < |streams| ::
      streams[d.playing[p]].failed ==> callbacks[p].error
  }

  /** Converters belong to open proxies. */
  ghost predicate OwnersOk(callbacks: map<ProxyId, Converter>, proxies: map<ProxyId, Proxy>) {
    forall p | p in callbacks :: p in IdleSet(proxies) || p in PlayingSet(proxies)
  }

  predicate ParamsOk(w: World) {
    && !w.cfg.original.format.Fake?
    && (w.params != w.cfg.original ==>
          && w.cfg.original.format.LowLatency?
          && (w.params == FakeParams(w.cfg) || (w.cfg.windows && w.params == FallbackParams(w.cfg.original))))
    && (w.dispatcher.None? ==> w.params == w.cfg.original && w.callbacks == map[])
    && (w.params != w.cfg.original && NoneOpen(w) ==> w.reinitTimer)
  }

  /** The part that also holds halfway through destruction. */
  ghost predicate CoreOk(w: World) {
    && PoolOk(PoolOf(w))
    && ConvertersOk(Inner(w), w.callbacks)
    && ErrorsOk(Inner(w), w.m.streams, w.callbacks)
  }

  ghost predicate Live(w: World) {
    && CoreOk(w)
    && ProxiesOk(Inner(w), w.proxies)
    && VolumesOk(Inner(w), w.m.streams, w.proxies)
    && OwnersOk(w.callbacks, w.proxies)
    && ParamsOk(w)
  }

  /** After destruction every stream ever made has been closed exactly once. */
  ghost predicate Gone(w: World) {
    && w.dispatcher.None? && w.callbacks == map[] && w.faults == {}
    && w.m.count == w.m.others && w.m.count <= w.m.cap
    && forall id | 0 <= id < |w.m.streams| :: w.m.streams[id].closes == 1 && !w.m.streams[id].playing
  }

  ghost predicate Inv(w: World) {
    if w.alive then Live(w) else Gone(w)
  }

  lemma InitInv(w: World)
    requires Init(w)
    ensures Inv(w)
  {
    assert IdleSet(w.proxies) == {};
    assert PlayingSet(w.proxies) == {};
    assert Inner(w).playing.Values == {};
  }

  // ------------------------------------------------------------- proxy counts

  /** Changing one proxy changes the two sets by at most that proxy. */
  lemma SetsAfter(proxies: map<ProxyId, Proxy>, p: ProxyId, x: Proxy)
    ensures var after := proxies[p := x];
            && IdleSet(after) == IdleSet(proxies) - {p} + (if IsIdle(x) then {p} else {})
            && PlayingSet(after) == PlayingSet(proxies) - {p} + (if x.state.Playing? then {p} else {})
  {
  }

  lemma InSets(proxies: map<ProxyId, Proxy>, p: ProxyId)
    ensures p in IdleSet(proxies) <==> p in proxies && IsIdle(proxies[p])
    ensures p in PlayingSet(proxies) <==> p in proxies && proxies[p].state.Playing?
  {
  }

  lemma NoneOpenMeansUnused(w: World)
    requires ProxiesOk(Inner(w), w.proxies)
    ensures HasOutputProxies(Inner(w)) <==> !NoneOpen(w)
  {
    if Inner(w).playing == map[] {
      assert PlayingSet(w.proxies) == {};
    } else {
      var p :| p in Inner(w).playing;
      assert p in PlayingSet(w.proxies);
    }
    if IdleSet(w.proxies) != {} {
      assert |IdleSet(w.proxies)| > 0;
    }
  }

  lemma NoCallbacksLeft(w: World)
    requires Live(w) && NoneOpen(w)
    ensures w.callbacks == map[]
  {
    assert forall p :: p !in w.callbacks;
  }

  // -------------------------------------------------------------------- steps

  /** Discarding a dispatcher that no proxy uses. */
  lemma DiscardKeeps(w: World)
    requires PoolOk(PoolOf(w)) && Inner(w).playing == map[] && Inner(w).idleProxies == 0
    ensures var v := Discard(w);
            && PoolOk(PoolOf(v)) && v == w.(dispatcher := None, m := v.m, faults := {})
            && v.m.others == w.m.others
  {
    hide Partition, StreamsOk;
    if w.dispatcher.Some? {
      DestroyClosesAll(PoolOf(w));
      CloseAllIdleKeeps(PoolOf(w));
      EmptyPoolOk(Discard(w).m);
    }
  }

  lemma EmptyPoolOk(m: Manager)
    requires m.count == m.others && m.count <= m.cap
    requires forall id | 0 <= id < |m.streams| :: m.streams[id].closes == 1 && !m.streams[id].playing
    ensures PoolOk(Pool(EmptyDispatcher(), m, {}))
  {
    assert EmptyDispatcher().playing.Values == {};
  }

  /** A fresh dispatcher, when none is in use. */
  lemma InstallKeeps(w: World, params: AudioParameters)
    requires PoolOk(PoolOf(w)) && Inner(w).playing == map[] && Inner(w).idleProxies == 0 && w.callbacks == map[]
    ensures var v := Install(w, params);
            && PoolOk(PoolOf(v)) && v == w.(dispatcher := Some(EmptyDispatcher()), generation := w.generation + 1,
                                            params := params, m := v.m, faults := {})
            && v.m.others == w.m.others
  {
    DiscardKeeps(w);
  }

  lemma OpenInnerKeeps(w: World, o: Outcome)
    requires PoolOk(PoolOf(w)) && w.dispatcher.Some? && Inner(w).playing == map[]
    ensures var (v, ok) := OpenInner(w, o);
            && PoolOk(PoolOf(v)) && v == w.(dispatcher := Some(Inner(v)), m := v.m, faults := {})
            && Inner(v).playing == map[] && Inner(v).idleProxies == Inner(w).idleProxies + (if ok then 1 else 0)
            && v.m.others == w.m.others
  {
    OpenKeeps(PoolOf(w), o);
  }

  /** Nothing is open: the state before a first open and after each failed attempt. */
  ghost predicate Unused(w: World) {
    && PoolOk(PoolOf(w)) && Inner(w).playing == map[] && Inner(w).idleProxies == 0 && w.callbacks == map[]
  }

  lemma ReinitializeUnused(w: World)
    requires Unused(w)
    ensures var v := Reinitialize(w);
            && Unused(v) && v == w.(dispatcher := None, params := w.cfg.original, m := v.m, faults := {})
  {
    DiscardKeeps(w.(params := w.cfg.original, faults := w.faults + {}));
  }

  /** The fallback attempts: linear on Windows, then fake, then giving up. */
  lemma FallBackKeeps(w: World, tries: Attempts)
    requires Unused(w)
    ensures var (v, ok) := FallBack(w, tries);
            && PoolOk(PoolOf(v)) && Inner(v).playing == map[]
            && v == w.(dispatcher := v.dispatcher, generation := v.generation, params := v.params, m := v.m, faults := {})
            && Inner(v).idleProxies == (if ok then 1 else 0)
            && (ok ==> v.dispatcher.Some?)
            && (ok ==> v.params == FakeParams(w.cfg) || (w.cfg.windows && v.params == FallbackParams(w.cfg.original)))
            && (!ok ==> v.dispatcher.None? && v.params == w.cfg.original)
  {
    hide PoolOk;
    var u := w;
    if w.cfg.windows {
      InstallKeeps(w, FallbackParams(w.cfg.original));
      var x := Install(w, FallbackParams(w.cfg.original));
      OpenInnerKeeps(x, tries.second);
      u := OpenInner(x, tries.second).0;
      if OpenInner(x, tries.second).1 {
        return;
      }
    }
    InstallKeeps(u, FakeParams(w.cfg));
    var y := Install(u, FakeParams(w.cfg));
    OpenInnerKeeps(y, tries.third);
    if !OpenInner(y, tries.third).1 {
      ReinitializeUnused(OpenInner(y, tries.third).0);
    }
  }

  /** Opening one more proxy's stream. */
  ghost predicate OpenEffect(w: World, v: World, ok: bool) {
    && PoolOk(PoolOf(v)) && SamePlaying(PoolOf(w), PoolOf(v), {})
    && v == w.(dispatcher := v.dispatcher, generation := v.generation, params := v.params, m := v.m, faults := {})
    && Inner(v).playing == Inner(w).playing
    && Inner(v).idleProxies == Inner(w).idleProxies + (if ok then 1 else 0)
    && (w.dispatcher.Some? ==> v.dispatcher.Some? && v.generation == w.generation && v.params == w.params)
    && (ok ==> v.dispatcher.Some?)
    && (!ok ==> v.params == w.params)
    && (v.params != w.params ==>
          && w.cfg.original.format.LowLatency?
          && (v.params == FakeParams(w.cfg) || (w.cfg.windows && v.params == FallbackParams(w.cfg.original))))
  }

  lemma ResamplerOpenKeeps(w: World, tries: Attempts)
    requires CoreOk(w) && ParamsOk(w)
    ensures OpenEffect(w, ResamplerOpen(w, tries).0, ResamplerOpen(w, tries).1)
  {
    hide Partition, StreamsOk, CountOk, Clean;
    PlayingLogged(PoolOf(w));
    if w.dispatcher.Some? {
      OpenKeeps(PoolOf(w), tries.first);
    } else {
      FirstOpenKeeps(w, tries);
    }
  }

  lemma FirstOpenKeeps(w: World, tries: Attempts)
    requires CoreOk(w) && ParamsOk(w) && w.dispatcher.None?
    ensures OpenEffect(w, ResamplerOpen(w, tries).0, ResamplerOpen(w, tries).1)
  {
    hide PoolOk, ConvertersOk, ErrorsOk, Discard, OpenInner;
    assert w.(faults := w.faults + {}) == w by { FaultFree(w); }
    FaultFree(w);
    InstallKeeps(w, w.params);
    var ready := Install(w, w.params);
    OpenInnerKeeps(ready, tries.first);
    var (v, ok) := OpenInner(ready, tries.first);
    if !ok && w.cfg.original.format.LowLatency? {
      FallBackKeeps(v, tries);
    }
  }

  lemma FaultFree(w: World)
    requires PoolOk(PoolOf(w))
    ensures w.faults == {}
  {
  }

  /** SamePlaying carries volumes and errors over to the new pool. */
  lemma PlayingCarried(w: World, v: World)
    requires CoreOk(w) && SamePlaying(PoolOf(w), PoolOf(v), {}) && Inner(v).playing == Inner(w).playing
    requires v.callbacks == w.callbacks
    ensures ConvertersOk(Inner(v), v.callbacks)
    ensures ErrorsOk(Inner(v), v.m.streams, v.callbacks)
    ensures VolumesOk(Inner(w), w.m.streams, w.proxies) ==> VolumesOk(Inner(v), v.m.streams, w.proxies)
  {
    hide Partition, StreamsOk, CountOk, Clean;
  }

  lemma OpenStep(w: World, p: ProxyId, tries: Attempts)
    requires Live(w) && w.alive && p in w.proxies && w.proxies[p].state.Created?
    ensures Live(ProxyOpen(w, p, tries)) && ProxyOpen(w, p, tries).alive
  {
    hide PoolOk, ConvertersOk, ErrorsOk, VolumesOk, SamePlaying, IdleSet, PlayingSet, ResamplerOpen;
    var (v, ok) := ResamplerOpen(w, tries);
    ResamplerOpenKeeps(w, tries);
    PlayingCarried(w, v);
    var x := w.proxies[p].(state := if ok then Opened else OpenError);
    OpenedSets(w.proxies, p, x);
    VolumesAfter(Inner(v), v.m.streams, w.proxies, p, x);
  }

  lemma OpenedSets(proxies: map<ProxyId, Proxy>, p: ProxyId, x: Proxy)
    requires p in proxies && proxies[p].state.Created? && !x.state.Playing?
    ensures IdleSet(proxies[p := x]) == IdleSet(proxies) + (if IsIdle(x) then {p} else {})
    ensures |IdleSet(proxies[p := x])| == |IdleSet(proxies)| + (if IsIdle(x) then 1 else 0)
    ensures PlayingSet(proxies[p := x]) == PlayingSet(proxies)
  {
    SetsAfter(proxies, p, x);
    hide IdleSet, PlayingSet;
    InSets(proxies, p);
    assert IdleSet(proxies) - {p} == IdleSet(proxies);
    assert PlayingSet(proxies) - {p} == PlayingSet(proxies);
  }

  lemma VolumesAfter(d: Dispatcher, streams: seq<Physical>, proxies: map<ProxyId, Proxy>, p: ProxyId, x: Proxy)
    requires VolumesOk(d, streams, proxies) && p in proxies && x.volume == proxies[p].volume
    ensures VolumesOk(d, streams, proxies[p := x])
  {
  }

  // Start

  lemma StartSets(proxies: map<ProxyId, Proxy>, p: ProxyId, x: Proxy)
    requires p in proxies && IsIdle(proxies[p]) && (x.state.Playing? || IsIdle(x))
    ensures |IdleSet(proxies[p := x])| == |IdleSet(proxies)| - (if x.state.Playing? then 1 else 0)
    ensures |IdleSet(proxies)| > 0
    ensures PlayingSet(proxies[p := x]) == PlayingSet(proxies) + (if x.state.Playing? then {p} else {})
    ensures p in IdleSet(proxies) && p !in PlayingSet(proxies)
  {
    hide IdleSet, PlayingSet;
    SetsAfter(proxies, p, x);
    InSets(proxies, p);
    InSets(proxies[p := x], p);
    if IsIdle(x) {
      assert IdleSet(proxies[p := x]) == IdleSet(proxies);
    } else {
      assert IdleSet(proxies[p := x]) == IdleSet(proxies) - {p};
    }
    assert PlayingSet(proxies) - {p} == PlayingSet(proxies);
  }

  /** StartStream(): the proxy enters the playing map if it succeeds. */
  ghost predicate StartEffect(w: World, v: World, p: ProxyId, ok: bool) {
    && CoreOk(v) && v.dispatcher.Some?
    && v == w.(dispatcher := v.dispatcher, m := v.m, callbacks := v.callbacks)
    && Inner(v).idleProxies == Inner(w).idleProxies - (if ok then 1 else 0)
    && (forall q :: q in Inner(v).playing <==> q in Inner(w).playing || (ok && q == p))
    && (forall q | q in v.callbacks :: q in w.callbacks || q == p)
  }

  lemma StartStep(w: World, p: ProxyId, o: Outcome)
    requires Live(w) && w.alive && p in w.proxies && IsIdle(w.proxies[p])
    ensures Live(ProxyStart(w, p, o)) && ProxyStart(w, p, o).alive
  {
    hide CoreOk, ProxiesOk, VolumesOk, OwnersOk, ParamsOk, ResamplerStart;
    IdleProxyFacts(w, p);
    var (u, ok) := ResamplerStart(w, p, w.proxies[p].volume, o);
    var x := w.proxies[p].(state := if ok then Playing else StartError);
    var v := ProxyStart(w, p, o);
    ResamplerStartKeeps(w, p, o);
    StartedVolumes(w, p, o, x);
    assert v == u.(proxies := w.proxies[p := x]);
    SameCore(u, v);
    StartedProxies(Inner(w), Inner(v), w.proxies, p, x);
    StartedOwners(w, v, p, x);
    ParamsWhileOpen(w, v);
  }

  lemma IdleProxyFacts(w: World, p: ProxyId)
    requires ProxiesOk(Inner(w), w.proxies) && p in w.proxies && IsIdle(w.proxies[p])
    ensures w.dispatcher.Some? && Inner(w).idleProxies > 0 && p !in Inner(w).playing
  {
    hide IdleSet, PlayingSet;
    InSets(w.proxies, p);
    OpenMeansDispatcher(w, p);
  }

  lemma StartedProxies(d: Dispatcher, d': Dispatcher, proxies: map<ProxyId, Proxy>, p: ProxyId, x: Proxy)
    requires ProxiesOk(d, proxies) && p in proxies && IsIdle(proxies[p]) && (x.state.Playing? || IsIdle(x))
    requires d'.idleProxies == d.idleProxies - (if x.state.Playing? then 1 else 0)
    requires forall q :: q in d'.playing <==> q in d.playing || (x.state.Playing? && q == p)
    ensures ProxiesOk(d', proxies[p := x])
  {
    hide IdleSet, PlayingSet;
    StartSets(proxies, p, x);
  }

  /** With a proxy open, the parameters only have to be admissible ones. */
  lemma ParamsWhileOpen(w: World, v: World)
    requires ParamsOk(w) && v.params == w.params && v.cfg == w.cfg && v.dispatcher.Some? && !NoneOpen(v)
    ensures ParamsOk(v)
  {
    hide IdleSet, PlayingSet;
  }

  lemma SameCore(u: World, v: World)
    requires CoreOk(u) && v == u.(proxies := v.proxies)
    ensures CoreOk(v)
  {
  }

  lemma StartedOwners(w: World, v: World, p: ProxyId, x: Proxy)
    requires OwnersOk(w.callbacks, w.proxies) && p in w.proxies && IsIdle(w.proxies[p])
    requires (x.state.Playing? || IsIdle(x)) && v.proxies == w.proxies[p := x]
    requires forall q | q in v.callbacks :: q in w.callbacks || q == p
    ensures OwnersOk(v.callbacks, v.proxies) && !NoneOpen(v)
  {
    hide IdleSet, PlayingSet;
    SetsAfter(w.proxies, p, x);
    InSets(v.proxies, p);
  }

  lemma StartedVolumes(w: World, p: ProxyId, o: Outcome, x: Proxy)
    requires CoreOk(w) && w.dispatcher.Some? && p in w.proxies && p !in Inner(w).playing && Inner(w).idleProxies > 0
    requires VolumesOk(Inner(w), w.m.streams, w.proxies) && x.volume == w.proxies[p].volume
    ensures var v := ResamplerStart(w, p, w.proxies[p].volume, o).0;
            VolumesOk(Inner(v), v.m.streams, w.proxies[p := x])
  {
    hide PoolOk, ConvertersOk, ErrorsOk, StartStream;
    StartKeeps(PoolOf(w), p, w.proxies[p].volume, o);
  }

  lemma ResamplerStartKeeps(w: World, p: ProxyId, o: Outcome)
    requires CoreOk(w) && w.dispatcher.Some? && p in w.proxies && p !in Inner(w).playing && Inner(w).idleProxies > 0
    ensures var (v, ok) := ResamplerStart(w, p, w.proxies[p].volume, o); StartEffect(w, v, p, ok)
  {
    hide Partition, StreamsOk, CountOk, Clean, StartStream;
    FaultFree(w);
    StartKeeps(PoolOf(w), p, w.proxies[p].volume, o);
    var v := ResamplerStart(w, p, w.proxies[p].volume, o).0;
    assert PoolOf(v) == StartStream(PoolOf(w), p, w.proxies[p].volume, o).0;
  }

  // Stop

  /** An error of a playing stream is remembered by its proxy's converter. */
  lemma StreamErrorCore(w: World, p: ProxyId)
    requires CoreOk(w) && p in Inner(w).playing
    ensures var v := StreamError(w, p);
            && CoreOk(v) && p in v.callbacks && v.callbacks[p].error && v.callbacks[p].started
            && v == w.(callbacks := w.callbacks[p := v.callbacks[p]], m := v.m)
            && v.m.others == w.m.others
            && |v.m.streams| == |w.m.streams|
            && (forall id | 0 <= id < |w.m.streams| :: v.m.streams[id].volume == w.m.streams[id].volume)
  {
    hide Partition;
    var v := StreamError(w, p);
    PlayingLogged(PoolOf(w));
    ErrorPool(w, p);
    assert Inner(v) == Inner(w);
    PlayingDiffer(w, p);
  }

  lemma PlayingDiffer(w: World, p: ProxyId)
    requires PoolOk(PoolOf(w)) && p in Inner(w).playing
    ensures forall q | q in Inner(w).playing && q != p :: Inner(w).playing[q] != Inner(w).playing[p]
  {
  }

  lemma ErrorPool(w: World, p: ProxyId)
    requires PoolOk(PoolOf(w)) && p in Inner(w).playing && p in w.callbacks && w.callbacks[p].started
    ensures PoolOk(PoolOf(StreamError(w, p)))
  {
    PlayingLogged(PoolOf(w));
    var id := Inner(w).playing[p];
    assert id !in Inner(w).idle;
  }

  /** StopStreamInternal(): the proxy leaves the playing map, and a stream that failed is closed. */
  ghost predicate StopEffect(w: World, v: World, p: ProxyId) {
    && CoreOk(v) && v.dispatcher.Some?
    && Inner(v).playing == Inner(w).playing - {p} && Inner(v).idleProxies == Inner(w).idleProxies + 1
    && v == w.(dispatcher := v.dispatcher, m := v.m, callbacks := v.callbacks)
    && v.callbacks.Keys == w.callbacks.Keys
    && (forall q | q in w.callbacks && q != p :: v.callbacks[q] == w.callbacks[q])
    && (forall q | q in Inner(v).playing && Inner(v).playing[q] < |w.m.streams| ::
          && Inner(v).playing[q] < |v.m.streams|
          && v.m.streams[Inner(v).playing[q]].volume == w.m.streams[Inner(v).playing[q]].volume)
  }

  lemma StopInternalKeeps(w: World, p: ProxyId, fails: bool)
    requires CoreOk(w) && w.dispatcher.Some? && p in Inner(w).playing
    ensures StopEffect(w, StopInternal(w, p, fails), p)
    ensures var v := StopInternal(w, p, fails); v.callbacks[p] == Converter(false, w.callbacks[p].error || fails)
  {
    hide PoolOk, ErrorsOk;
    if fails {
      StreamErrorCore(w, p);
      StopQuietly(StreamError(w, p), p);
      var u := StreamError(w, p);
      SameAsFailing(w, p);
      assert StopInternal(w, p, fails) == StopInternal(u, p, false);
    } else {
      StopQuietly(w, p);
    }
  }

  lemma SameAsFailing(w: World, p: ProxyId)
    requires CoreOk(w) && w.dispatcher.Some? && p in Inner(w).playing
    ensures StopInternal(w, p, true) == StopInternal(StreamError(w, p), p, false)
  {
    hide PoolOk, StopStream, CloseIdleStreams;
    var u := StreamError(w, p);
    assert u.callbacks == w.callbacks[p := w.callbacks[p].(error := true)];
  }

  /** The pool after a stop: a failed stream takes all idle streams with it. */
  function StoppedPool(w: World, p: ProxyId, error: bool): Pool {
    var q := StopStream(PoolOf(w), p);
    if error then CloseIdleStreams(q, 0) else q
  }

  lemma StoppedPoolOk(w: World, p: ProxyId, error: bool)
    requires PoolOk(PoolOf(w)) && p in Inner(w).playing
    requires Inner(w).playing[p] < |w.m.streams| && w.m.streams[Inner(w).playing[p]].failed ==> error
    ensures var r := StoppedPool(w, p, error);
            && PoolOk(r) && SamePlaying(PoolOf(w), r, {p})
            && r.d.playing == Inner(w).playing - {p} && r.d.idleProxies == Inner(w).idleProxies + 1
  {
    hide Partition, StreamsOk, CountOk, StopStream, CloseIdleStreams;
    StopKeeps(PoolOf(w), p);
    StoppedDispatcher(PoolOf(w), p);
    var q := StopStream(PoolOf(w), p);
    if error {
      CloseAllIdleKeeps(q);
    }
  }

  lemma StopQuietly(w: World, p: ProxyId)
    requires CoreOk(w) && w.dispatcher.Some? && p in Inner(w).playing
    ensures StopEffect(w, StopInternal(w, p, false), p)
    ensures StopInternal(w, p, false).callbacks[p] == w.callbacks[p].(started := false)
  {
    hide PoolOk, StopStream, CloseIdleStreams;
    var c := w.callbacks[p];
    var v := StopInternal(w, p, false);
    CorePlayingLogged(w);
    FaultFree(w);
    StoppedPoolOk(w, p, c.error);
    assert PoolOf(v) == StoppedPool(w, p, c.error);
    FaultFree(v);
    assert v.callbacks == w.callbacks[p := c.(started := false)];
  }

  lemma StoppedDispatcher(p: Pool, proxy: ProxyId)
    requires PoolOk(p) && proxy in p.d.playing
    ensures var q := StopStream(p, proxy);
            && q.d.playing == p.d.playing - {proxy} && q.d.idleProxies == p.d.idleProxies + 1
            && q.m.others == p.m.others && q.faults == {}
  {
    assert p.d.playing[proxy] in p.d.playing.Values;
  }

  lemma StopSets(proxies: map<ProxyId, Proxy>, p: ProxyId, x: Proxy)
    requires p in proxies && proxies[p].state.Playing? && IsIdle(x)
    ensures |IdleSet(proxies[p := x])| == |IdleSet(proxies)| + 1
    ensures PlayingSet(proxies[p := x]) == PlayingSet(proxies) - {p}
    ensures IdleSet(proxies[p := x]) + PlayingSet(proxies[p := x]) == IdleSet(proxies) + PlayingSet(proxies)
    ensures p in PlayingSet(proxies) && p in IdleSet(proxies[p := x])
  {
    hide IdleSet, PlayingSet;
    SetsAfter(proxies, p, x);
    InSets(proxies, p);
    assert IdleSet(proxies[p := x]) == IdleSet(proxies) + {p};
  }

  lemma StopStep(w: World, p: ProxyId, fails: bool)
    requires Live(w) && w.alive && p in w.proxies && w.proxies[p].state.Playing?
    ensures Live(ProxyStop(w, p, fails)) && ProxyStop(w, p, fails).alive
  {
    hide IdleSet, PlayingSet, PoolOk, ConvertersOk, ErrorsOk, StopInternal;
    var x := w.proxies[p].(state := Opened);
    StopSets(w.proxies, p, x);
    assert p in Inner(w).playing;
    SomeDispatcher(w, p);
    StopInternalKeeps(w, p, fails);
    var v := ProxyStop(w, p, fails);
    assert v.proxies == w.proxies[p := x];
    assert ProxiesOk(Inner(v), v.proxies);
    assert OwnersOk(v.callbacks, v.proxies) by {
      forall q | q in v.callbacks ensures q in IdleSet(v.proxies) + PlayingSet(v.proxies) {
      }
    }
    assert VolumesOk(Inner(v), v.m.streams, v.proxies) by { CorePlayingLogged(w); }
    assert !NoneOpen(v);
  }

  lemma SomeDispatcher(w: World, p: ProxyId)
    requires p in Inner(w).playing || Inner(w).idleProxies > 0
    ensures w.dispatcher.Some?
  {
  }

  lemma CorePlayingLogged(w: World)
    requires CoreOk(w)
    ensures forall q | q in Inner(w).playing :: Inner(w).playing[q] < |w.m.streams|
  {
    PlayingLogged(PoolOf(w));
  }

  // SetVolume

  lemma SameSets(proxies: map<ProxyId, Proxy>, p: ProxyId, x: Proxy)
    requires p in proxies && x.state == proxies[p].state
    ensures IdleSet(proxies[p := x]) == IdleSet(proxies) && PlayingSet(proxies[p := x]) == PlayingSet(proxies)
  {
  }

  lemma SetVolumeStep(w: World, p: ProxyId, volume: real)
    requires Live(w) && w.alive && p in w.proxies && (IsIdle(w.proxies[p]) || w.proxies[p].state.Playing?)
    ensures Live(ProxySetVolume(w, p, volume)) && ProxySetVolume(w, p, volume).alive
  {
    hide IdleSet, PlayingSet, PoolOk;
    var x := w.proxies[p].(volume := volume);
    SameSets(w.proxies, p, x);
    InSets(w.proxies, p);
    OpenMeansDispatcher(w, p);
    SetVolumeKeeps(PoolOf(w), p, volume);
    CorePlayingLogged(w);
    PlayingDistinct(w);
    FaultFree(w);
  }

  lemma OpenMeansDispatcher(w: World, p: ProxyId)
    requires ProxiesOk(Inner(w), w.proxies) && (p in IdleSet(w.proxies) || p in PlayingSet(w.proxies))
    ensures w.dispatcher.Some?
    ensures p in IdleSet(w.proxies) ==> Inner(w).idleProxies > 0
  {
    if p in IdleSet(w.proxies) {
      assert |IdleSet(w.proxies)| > 0;
    }
  }

  lemma PlayingDistinct(w: World)
    requires PoolOk(PoolOf(w))
    ensures forall p, q | p in Inner(w).playing && q in Inner(w).playing && p != q ::
              Inner(w).playing[p] != Inner(w).playing[q]
  {
  }

  // Close

  lemma CloseSets(proxies: map<ProxyId, Proxy>, p: ProxyId, x: Proxy)
    requires p in proxies && !proxies[p].state.Playing? && x.state.Closed?
    ensures |IdleSet(proxies[p := x])| == |IdleSet(proxies)| - (if IsIdle(proxies[p]) then 1 else 0)
    ensures IdleSet(proxies[p := x]) == IdleSet(proxies) - {p}
    ensures PlayingSet(proxies[p := x]) == PlayingSet(proxies)
    ensures p in IdleSet(proxies) <==> IsIdle(proxies[p])
    ensures p !in PlayingSet(proxies)
  {
    hide IdleSet, PlayingSet;
    SetsAfter(proxies, p, x);
    InSets(proxies, p);
    assert PlayingSet(proxies) - {p} == PlayingSet(proxies);
    if !IsIdle(proxies[p]) {
      assert IdleSet(proxies) - {p} == IdleSet(proxies);
    }
  }

  ghost predicate CloseEffect(w: World, v: World, p: ProxyId) {
    && CoreOk(v) && v.dispatcher.Some?
    && v == w.(dispatcher := v.dispatcher, m := v.m, callbacks := w.callbacks - {p}, reinitTimer := v.reinitTimer)
    && Inner(v).playing == Inner(w).playing && Inner(v).idleProxies == Inner(w).idleProxies - 1
  }

  lemma ResamplerCloseKeeps(w: World, p: ProxyId)
    requires CoreOk(w) && w.dispatcher.Some? && p !in Inner(w).playing && Inner(w).idleProxies > 0
    ensures CloseEffect(w, ResamplerClose(w, p), p)
    ensures SamePlaying(PoolOf(w), PoolOf(ResamplerClose(w, p)), {})
  {
    hide PoolOk, CloseStream;
    FaultFree(w);
    CorePlayingLogged(w);
    CloseStreamKeeps(PoolOf(w));
    PoolFaultFree(CloseStream(PoolOf(w)));
    var v := ResamplerClose(w, p);
    assert PoolOf(v) == CloseStream(PoolOf(w));
  }

  lemma ClosedVolumes(w: World, v: World, p: ProxyId, x: Proxy)
    requires VolumesOk(Inner(w), w.m.streams, w.proxies) && SamePlaying(PoolOf(w), PoolOf(v), {})
    requires Inner(v).playing == Inner(w).playing && p !in Inner(w).playing
    ensures VolumesOk(Inner(v), v.m.streams, w.proxies[p := x])
  {
  }

  lemma CloseStep(w: World, p: ProxyId)
    requires Live(w) && w.alive && p in w.proxies && IsIdle(w.proxies[p])
    ensures Live(ProxyClose(w, p)) && ProxyClose(w, p).alive
  {
    hide CoreOk, ProxiesOk, VolumesOk, OwnersOk, ParamsOk, ResamplerClose, SamePlaying;
    var x := w.proxies[p].(state := Closed);
    var u, v := ResamplerClose(w, p), ProxyClose(w, p);
    IdleProxyFacts(w, p);
    ResamplerCloseKeeps(w, p);
    assert v == u.(proxies := w.proxies[p := x]);
    SameCore(u, v);
    ClosedVolumes(w, u, p, x);
    ClosedProxies(Inner(w), Inner(v), w.proxies, p, x);
    ClosedOwners(w.callbacks, w.proxies, p, x);
    ClosedTimer(w, p);
  }

  lemma ClosedProxies(d: Dispatcher, d': Dispatcher, proxies: map<ProxyId, Proxy>, p: ProxyId, x: Proxy)
    requires ProxiesOk(d, proxies) && p in proxies && IsIdle(proxies[p]) && x.state.Closed?
    requires d'.idleProxies == d.idleProxies - 1 && d'.playing == d.playing
    ensures ProxiesOk(d', proxies[p := x])
  {
    hide IdleSet, PlayingSet;
    CloseSets(proxies, p, x);
  }

  lemma ClosedOwners(callbacks: map<ProxyId, Converter>, proxies: map<ProxyId, Proxy>, p: ProxyId, x: Proxy)
    requires OwnersOk(callbacks, proxies) && p in proxies && IsIdle(proxies[p]) && x.state.Closed?
    ensures OwnersOk(callbacks - {p}, proxies[p := x])
  {
    hide IdleSet, PlayingSet;
    CloseSets(proxies, p, x);
  }

  lemma PoolFaultFree(p: Pool)
    requires PoolOk(p)
    ensures p.faults == {}
  {
  }

  /** Closing the last proxy on fallback parameters arms the timer. */
  lemma ClosedTimer(w: World, p: ProxyId)
    requires w.dispatcher.Some? && p in w.proxies && w.alive && IsIdle(w.proxies[p])
    requires var v := ProxyClose(w, p); ProxiesOk(Inner(v), v.proxies) && OwnersOk(v.callbacks, v.proxies)
    requires ParamsOk(w)
    ensures ParamsOk(ProxyClose(w, p))
  {
    hide IdleSet, PlayingSet, CloseStream;
    var v := ProxyClose(w, p);
    NoneOpenMeansUnused(v);
    if NoneOpen(v) {
      assert forall q :: q !in v.callbacks;
      assert v.callbacks == map[];
    }
  }

  lemma CloseUnopenedStep(w: World, p: ProxyId)
    requires Live(w) && p in w.proxies && (w.proxies[p].state.Created? || w.proxies[p].state.OpenError?)
    ensures Live(SetState(w, p, Closed))
  {
    hide IdleSet, PlayingSet, PoolOk, ConvertersOk, ErrorsOk;
    var x := w.proxies[p].(state := Closed);
    CloseSets(w.proxies, p, x);
    assert IdleSet(w.proxies) - {p} == IdleSet(w.proxies);
  }

  lemma NewProxyStep(w: World, p: ProxyId)
    requires Live(w) && p !in w.proxies
    ensures Live(w.(proxies := w.proxies[p := Proxy(Created, 1.0)]))
  {
    hide PoolOk, ConvertersOk, ErrorsOk, IdleSet, PlayingSet;
    NewProxySets(w.proxies, p);
    InSets(w.proxies, p);
  }

  lemma NewProxySets(proxies: map<ProxyId, Proxy>, p: ProxyId)
    requires p !in proxies
    ensures var after := proxies[p := Proxy(Created, 1.0)];
            IdleSet(after) == IdleSet(proxies) && PlayingSet(after) == PlayingSet(proxies)
  {
  }

  // Device and timers

  lemma StreamFailsStep(w: World, p: ProxyId)
    requires Live(w) && p in Inner(w).playing
    ensures Live(StreamError(w, p)) && StreamError(w, p).alive == w.alive
  {
    hide IdleSet, PlayingSet, PoolOk, ConvertersOk, ErrorsOk, StreamError;
    StreamErrorCore(w, p);
    FaultFree(w);
  }

  lemma CloseTimerStep(w: World)
    requires Live(w) && w.alive && w.dispatcher.Some? && w.dispatcher.value.closeTimer
    ensures Live(Next(w, CloseTimerFires))
  {
    hide IdleSet, PlayingSet, PoolOk, CloseIdleStreams, ConvertersOk, ErrorsOk, VolumesOk, SamePlaying;
    CoherentPool(PoolOf(w));
    CloseAllIdleKeeps(PoolOf(w));
    var q := CloseIdleStreams(PoolOf(w), 0);
    var v := Next(w, CloseTimerFires);
    TimerIrrelevant(q);
    TimerCarried(w, v);
  }

  lemma CoherentPool(p: Pool)
    requires PoolOk(p)
    ensures Coherent(p)
  {
  }

  lemma TimerIrrelevant(q: Pool)
    requires PoolOk(q)
    ensures PoolOk(q.(d := q.d.(closeTimer := false)))
  {
  }

  lemma TimerCarried(w: World, v: World)
    requires CoreOk(w) && VolumesOk(Inner(w), w.m.streams, w.proxies)
    requires w.dispatcher.Some? && v == Next(w, CloseTimerFires) && w.dispatcher.value.closeTimer
    requires SamePlaying(PoolOf(w), CloseIdleStreams(PoolOf(w), 0), {})
    requires CloseIdleStreams(PoolOf(w), 0).d.playing == Inner(w).playing
    ensures ConvertersOk(Inner(v), v.callbacks) && ErrorsOk(Inner(v), v.m.streams, v.callbacks)
    ensures VolumesOk(Inner(v), v.m.streams, v.proxies)
  {
    hide PoolOk, CloseIdleStreams;
  }

  lemma ReinitTimerStep(w: World)
    requires Live(w) && w.alive
    ensures Live(Reinitialize(w).(reinitTimer := false)) && Reinitialize(w).alive
  {
    hide PoolOk, IdleSet, PlayingSet, Discard;
    NoneOpenMeansUnused(w);
    if NoneOpen(w) {
      NoCallbacksLeft(w);
      FaultFree(w);
      assert Inner(w).playing == map[];
      ReinitializeUnused(w);
    }
  }

  lemma OthersStep(w: World, m: Manager)
    requires Live(w) && m.streams == w.m.streams && m.cap == w.m.cap
    requires m.count - m.others == w.m.count - w.m.others && m.count <= m.cap
    ensures Live(w.(m := m))
  {
    hide IdleSet, PlayingSet, Partition, StreamsOk;
  }

  // Destruction

  /** Stopping every started converter empties the playing map. */
  lemma {:induction false} StopAllKeeps(w: World, order: seq<ProxyId>, failing: set<ProxyId>)
    requires CoreOk(w)
    requires forall i, j | 0 <= i < j < |order| :: order[i] != order[j]
    requires forall p | p in order :: p in Inner(w).playing
    ensures var v := StopAll(w, order, failing);
            && CoreOk(v)
            && (forall p :: p in Inner(v).playing <==> p in Inner(w).playing && p !in order)
            && v.cfg == w.cfg && v.m.others == w.m.others
    decreases |order|
  {
    hide PoolOk, ConvertersOk, ErrorsOk, StopInternal;
    if order != [] {
      var last := |order| - 1;
      var front, p := order[..last], order[last];
      assert order == front + [p];
      assert p !in front;
      StopAllKeeps(w, front, failing);
      var u := StopAll(w, front, failing);
      assert p in Inner(u).playing;
      SomeDispatcher(u, p);
      StopInternalKeeps(u, p, p in failing);
      StopManager(u, p, p in failing);
    }
  }

  /** Apart from its count, a stack's own steps leave the manager as they found it. */
  predicate SameManager(m: Manager, m': Manager) {
    m'.others == m.others && m'.cap == m.cap
  }

  lemma {:induction false} CloseEachManager(p: Pool, ids: seq<StreamId>)
    ensures SameManager(p.m, CloseEach(p, ids).m)
    decreases |ids|
  {
    if ids != [] {
      CloseEachManager(p, ids[..|ids| - 1]);
    }
  }

  lemma CloseIdleManager(p: Pool, keep: nat)
    ensures SameManager(p.m, CloseIdleStreams(p, keep).m)
  {
    hide CloseEach;
    if |p.d.idle| > keep {
      CloseEachManager(p, p.d.idle[keep..]);
    }
  }

  lemma StopManager(w: World, p: ProxyId, fails: bool)
    ensures SameManager(w.m, StopInternal(w, p, fails).m)
  {
    hide CloseIdleStreams, StopStream;
    var v := if fails then StreamError(w, p) else w;
    StopStreamManager(PoolOf(v), p);
    CloseIdleManager(StopStream(PoolOf(v), p), 0);
  }

  lemma StopStreamManager(p: Pool, proxy: ProxyId)
    ensures SameManager(p.m, StopStream(p, proxy).m)
  {
  }

  lemma DestroyStep(w: World, order: seq<ProxyId>, failing: set<ProxyId>)
    requires Live(w) && w.alive && Enabled(w, Step.Destroy(order, failing))
    ensures Gone(ResamplerDestroy(w, order, failing))
  {
    hide PoolOk, ErrorsOk, StopAll, IdleSet, PlayingSet;
    StopAllKeeps(w, order, failing);
    var v := StopAll(w, order, failing);
    assert Inner(v).playing == map[];
    assert forall p | p in v.callbacks :: !v.callbacks[p].started;
    FaultFree(v);
    CoherentPool(PoolOf(v));
    if v.dispatcher.Some? {
      DestroyClosesAll(PoolOf(v));
    } else {
      EmptyMeansClosed(v.m);
    }
  }

  lemma EmptyMeansClosed(m: Manager)
    requires PoolOk(Pool(EmptyDispatcher(), m, {}))
    ensures m.count == m.others && m.count <= m.cap
    ensures forall id | 0 <= id < |m.streams| :: m.streams[id].closes == 1 && !m.streams[id].playing
  {
    assert EmptyDispatcher().playing.Values == {};
  }

  // ---------------------------------------------------------------- all runs

  lemma LiveStep(w: World, step: Step)
    requires Live(w) && w.alive && Enabled(w, step)
    ensures Inv(Next(w, step))
  {
    hide Live, Gone, PoolOk, IdleSet, PlayingSet, StopInternal, StreamError, Reinitialize, CloseIdleStreams,
      ResamplerOpen, ResamplerStart, ResamplerClose, ResamplerSetVolume, Discard, StopAll;
    match step
    case NewProxy(p) => NewProxyStep(w, p);
    case Open(p, tries) => OpenStep(w, p, tries);
    case Start(p, o) => StartStep(w, p, o);
    case Stop(p, fails) =>
      if w.proxies[p].state.Playing? { StopStep(w, p, fails); }
    case SetProxyVolume(p, volume) => SetVolumeStep(w, p, volume);
    case Close(p) =>
      if IsIdle(w.proxies[p]) { CloseStep(w, p); } else { CloseUnopenedStep(w, p); }
    case StreamFails(p) => StreamFailsStep(w, p);
    case CloseTimerFires => CloseTimerStep(w);
    case ReinitTimerFires => ReinitTimerStep(w);
    case OthersTake => OthersStep(w, w.m.(count := w.m.count + 1, others := w.m.others + 1));
    case OthersRelease =>
      LiveCount(w);
      OthersStep(w, w.m.(count := w.m.count - 1, others := w.m.others - 1));
    case Destroy(order, failing) => DestroyStep(w, order, failing);
  }

  lemma LiveCount(w: World)
    requires Live(w)
    ensures w.m.count <= w.m.cap
  {
  }

  lemma GoneStep(w: World, step: Step)
    requires Gone(w) && !w.alive && Enabled(w, step)
    ensures Gone(Next(w, step)) && !Next(w, step).alive
  {
  }

  lemma StepKeeps(w: World, step: Step)
    requires Inv(w)
    ensures Inv(Next(w, step))
  {
    hide Live, Gone;
    if !Enabled(w, step) {
    } else if w.alive {
      LiveStep(w, step);
    } else {
      GoneStep(w, step);
    }
  }

  lemma {:induction false} RunKeeps(w: World, run: seq<Step>)
    requires Init(w)
    ensures Inv(Exec(w, run))
    decreases |run|
  {
    hide Inv;
    if run == [] {
      InitInv(w);
    } else {
      RunKeeps(w, run[..|run| - 1]);
      StepKeeps(Exec(w, run[..|run| - 1]), run[|run| - 1]);
    }
  }
}
