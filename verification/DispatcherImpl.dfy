/** AudioOutputDispatcherImpl and the stream accounting of AudioManagerBase as
    objects updated in place, proved against the operations of StreamPool. */
module DispatcherImpl {
  import opened StreamPool

  class AudioManagerBase {
    var streams: seq<Physical>
    var numOutputStreams: int
    const maxNumOutputStreams: int
    ghost var others: nat

    constructor (cap: nat)
      ensures View() == Manager([], 0, cap, 0)
    {
      streams, numOutputStreams, maxNumOutputStreams, others := [], 0, cap, 0;
    }

    ghost function View(): Manager
      reads this
    {
      Manager(streams, numOutputStreams, maxNumOutputStreams, others)
    }

    /** `made`: whether the platform finds a driver stream. */
    method MakeAudioOutputStream(made: bool) returns (ok: bool, id: StreamId)
      modifies this
      ensures ok <==> made && old(numOutputStreams) < maxNumOutputStreams
      ensures ok ==> id == |old(streams)| && View() == MakeStream(old(View()))
      ensures !ok ==> View() == old(View())
    {
      ok, id := false, 0;
      if numOutputStreams >= maxNumOutputStreams {
        return;
      }
      if made {
        id := |streams|;
        streams := streams + [Physical(false, 1.0, false, 0)];
        numOutputStreams := numOutputStreams + 1;
        ok := true;
      }
    }

    /** A stream's Close(), ending in ReleaseOutputStream(). */
    method CloseStream(id: StreamId)
      requires id < |streams| && numOutputStreams > 0
      modifies this
      ensures View() == ClosePhysical(Pool(EmptyDispatcher(), old(View()), {}), id).m
      ensures others == old(others)
    {
      streams := streams[id := streams[id].(closes := streams[id].closes + 1)];
      numOutputStreams := numOutputStreams - 1;
    }

    /** Another dispatcher makes or releases a stream. */
    method TakeForOther()
      modifies this
      ensures View() == old(View()).(count := old(numOutputStreams) + 1, others := old(others) + 1)
    {
      numOutputStreams, others := numOutputStreams + 1, others + 1;
    }

    method ReleaseOther()
      requires others > 0
      modifies this
      ensures View() == old(View()).(count := old(numOutputStreams) - 1, others := old(others) - 1)
    {
      numOutputStreams, others := numOutputStreams - 1, others - 1;
    }

    /** A stream of this manager reports an error. */
    method Fail(id: StreamId)
      requires id < |streams|
      modifies this`streams
      ensures View() == old(View()).(streams := old(streams)[id := old(streams)[id].(failed := true)])
    {
      streams := streams[id := streams[id].(failed := true)];
    }

    method SetStream(id: StreamId, playing: bool, volume: real)
      requires id < |streams|
      modifies this`streams
      ensures View() == SetPhysical(old(View()), id, playing, volume)
    {
      streams := streams[id := streams[id].(playing := playing, volume := volume)];
    }
  }

  class AudioOutputDispatcherImpl {
    const manager: AudioManagerBase
    var idleProxies: nat
    var idleStreams: seq<StreamId>
    var proxyToPhysical: map<ProxyId, StreamId>
    var audioLogs: set<StreamId>
    var closeTimer: bool

    ghost function Own(): Dispatcher
      reads this
    {
      Dispatcher(idleProxies, idleStreams, proxyToPhysical, audioLogs, closeTimer)
    }

    ghost function View(): Pool
      reads this, manager
    {
      Pool(Own(), manager.View(), {})
    }

    ghost predicate Valid()
      reads this, manager
    {
      PoolOk(View())
    }

    constructor (manager: AudioManagerBase)
      requires PoolOk(Pool(EmptyDispatcher(), manager.View(), {}))
      ensures this.manager == manager && Valid() && View().d == EmptyDispatcher()
    {
      this.manager := manager;
      idleProxies, idleStreams, proxyToPhysical, audioLogs, closeTimer := 0, [], map[], {}, false;
    }

    predicate HasOutputProxies()
      reads this
    {
      idleProxies > 0 || proxyToPhysical != map[]
    }

    method CreateAndOpenStream(o: Outcome) returns (ok: bool)
      requires Valid() && idleStreams == []
      modifies this, manager
      ensures (View(), ok) == CreateAndOpen(old(View()), o) && Valid()
    {
      hide Partition, StreamsOk, CountOk, Clean;
      CreateKeeps(View(), o);
      CountNotNegative(View());
      var made, id := manager.MakeAudioOutputStream(o.made);
      if !made {
        return false;
      }
      if !o.opens {
        manager.CloseStream(id);
        return false;
      }
      audioLogs := audioLogs + {id};
      idleStreams := idleStreams + [id];
      return true;
    }

    method OpenStream(o: Outcome) returns (ok: bool)
      requires Valid()
      modifies this, manager
      ensures (View(), ok) == StreamPool.OpenStream(old(View()), o) && Valid()
    {
      OpenKeeps(View(), o);
      if idleStreams == [] {
        ok := CreateAndOpenStream(o);
        if !ok {
          return;
        }
      }
      idleProxies := idleProxies + 1;
      closeTimer := true;
      return true;
    }

    method StartStream(proxy: ProxyId, volume: real, o: Outcome) returns (ok: bool)
      requires Valid() && proxy !in proxyToPhysical && idleProxies > 0
      modifies this, manager
      ensures (View(), ok) == StreamPool.StartStream(old(View()), proxy, volume, o) && Valid()
    {
      hide PoolOk, CreateAndOpen, TakeIdle;
      StartKeeps(View(), proxy, volume, o);
      assert View().(faults := {} + {}) == View();
      if idleStreams == [] {
        CreateKeeps(View(), o);
        ok := CreateAndOpenStream(o);
        if !ok {
          return;
        }
      }
      TakeIdleStream(proxy, volume);
      return true;
    }

    /** The most recently idle stream starts playing for the proxy. */
    method TakeIdleStream(proxy: ProxyId, volume: real)
      requires Valid() && idleStreams != [] && idleProxies > 0
      modifies this, manager
      ensures View() == TakeIdle(old(View()), proxy, volume)
    {
      hide Partition, StreamsOk, CountOk, Clean;
      IdleLive(View(), idleStreams);
      var last := |idleStreams| - 1;
      var id := idleStreams[last];
      assert id in idleStreams;
      idleStreams := idleStreams[..last];
      idleProxies := idleProxies - 1;
      assert id in audioLogs;
      manager.SetStream(id, true, volume);
      proxyToPhysical := proxyToPhysical[proxy := id];
      closeTimer := true;
    }

    /** StopPhysicalStream() and the bookkeeping around it; errors may leave a failed stream idle
        until the caller closes the idle streams. */
    method StopStream(proxy: ProxyId)
      requires Valid() && proxy in proxyToPhysical
      modifies this, manager
      ensures View() == StreamPool.StopStream(old(View()), proxy) && Coherent(View()) && Bounded(View().d)
    {
      StopKeeps(View(), proxy);
      PlayingLogged(View());
      var id := proxyToPhysical[proxy];
      assert id in audioLogs;
      manager.SetStream(id, false, manager.streams[id].volume);
      idleStreams := idleStreams + [id];
      closeTimer := true;
      proxyToPhysical := proxyToPhysical - {proxy};
      idleProxies := idleProxies + 1;
    }

    method StreamVolumeSet(proxy: ProxyId, volume: real)
      requires Valid()
      modifies manager
      ensures View() == StreamPool.SetVolume(old(View()), proxy, volume) && Valid()
    {
      SetVolumeKeeps(View(), proxy, volume);
      PlayingLogged(View());
      if proxy in proxyToPhysical {
        manager.SetStream(proxyToPhysical[proxy], true, volume);
        PlayingMarked(old(View()), proxy);
      }
    }

    /** CloseIdleStreams(keep_alive). */
    method CloseIdleStreams(keepAlive: nat)
      requires Coherent(View())
      modifies this, manager
      ensures View() == StreamPool.CloseIdleStreams(old(View()), keepAlive) && Coherent(View())
    {
      hide Partition, StreamsOk, CountOk, CloseEach;
      CloseIdleKeeps(View(), keepAlive);
      if |idleStreams| <= keepAlive {
        return;
      }
      ghost var before := View();
      ghost var gone := idleStreams[keepAlive..];
      IdleLive(before, gone);
      NoneClosedYet(before);
      for i := keepAlive to |idleStreams|
        invariant idleStreams == old(idleStreams) && i - keepAlive <= |gone|
        invariant View() == CloseEach(before, gone[..i - keepAlive])
      {
        CloseAndForget(idleStreams[i], before, gone, i - keepAlive);
      }
      assert gone[..|gone|] == gone;
      idleStreams := idleStreams[..keepAlive];
    }

    /** The close timer fires. */
    method OnCloseTimer()
      requires Coherent(View())
      modifies this, manager
      ensures var q := StreamPool.CloseIdleStreams(old(View()), 0); View() == q.(d := q.d.(closeTimer := false))
    {
      hide Partition, StreamsOk, CountOk, StreamPool.CloseIdleStreams;
      CloseIdleStreams(0);
      closeTimer := false;
    }

    /** One turn of that loop. */
    method CloseAndForget(id: StreamId, ghost before: Pool, ghost gone: seq<StreamId>, ghost k: nat)
      requires k < |gone| && gone[k] == id && View() == CloseEach(before, gone[..k])
      requires Distinct(gone) && (forall x | x in gone :: x in before.d.logs && x < |before.m.streams|)
      requires before.m.count >= |gone| && before.faults == {}
      modifies this`audioLogs, manager
      ensures View() == CloseEach(before, gone[..k + 1])
    {
      CloseEachPrefix(before, gone, k);
      assert gone[..k + 1][..k] == gone[..k];
      manager.CloseStream(id);
      assert id in audioLogs;
      audioLogs := audioLogs - {id};
    }

    method CloseStream()
      requires Valid() && idleProxies > 0
      modifies this, manager
      ensures View() == StreamPool.CloseStream(old(View())) && Valid()
      ensures |idleStreams| <= Max(idleProxies, 1)
    {
      hide Partition, StreamsOk, CountOk, StreamPool.CloseIdleStreams;
      CloseStreamKeeps(View());
      idleProxies := idleProxies - 1;
      CountsIrrelevant(old(View()), View());
      CloseIdleStreams(if idleProxies >= 1 then idleProxies else 1);
      closeTimer := true;
    }

    /** The destructor: stops every active stream, in any order, and closes all. */
    method Destroy()
      requires Valid()
      modifies this, manager
      ensures idleStreams == [] && audioLogs == {} && proxyToPhysical == map[]
      ensures forall id | 0 <= id < |manager.streams| ::
                manager.streams[id].closes == 1 && !manager.streams[id].playing
      ensures manager.numOutputStreams == manager.others
      ensures old(proxyToPhysical) == map[] ==> View() == StreamPool.CloseIdleStreams(old(View()), 0)
    {
      hide Partition, StreamsOk, CountOk, StreamPool.CloseIdleStreams;
      while proxyToPhysical != map[]
        invariant Coherent(View())
        invariant old(proxyToPhysical) == map[] ==> View() == old(View())
        decreases |proxyToPhysical|
      {
        var proxy :| proxy in proxyToPhysical;
        StopOne(proxy);
      }
      DestroyClosesAll(View());
      CloseIdleKeeps(View(), 0);
      CloseIdleStreams(0);
    }

    /** One turn of the destructor's loop. */
    method StopOne(proxy: ProxyId)
      requires Coherent(View()) && proxy in proxyToPhysical
      modifies this, manager
      ensures Coherent(View()) && proxyToPhysical == old(proxyToPhysical) - {proxy}
      ensures |proxyToPhysical| < |old(proxyToPhysical)|
    {
      PlayingLogged(View());
      ghost var d := View().d;
      var id := proxyToPhysical[proxy];
      assert id in proxyToPhysical.Values;
      manager.SetStream(id, false, manager.streams[id].volume);
      idleStreams := idleStreams + [id];
      proxyToPhysical := proxyToPhysical - {proxy};
      closeTimer := true;
      StopPartition(d, proxy, View().d);
      assert old(proxyToPhysical).Keys == proxyToPhysical.Keys + {proxy};
    }
  }

  lemma CountNotNegative(p: Pool)
    requires Coherent(p)
    ensures p.m.count >= 0
  {
  }

  lemma NoneClosedYet(p: Pool)
    ensures CloseEach(p, []) == p
  {
  }

  lemma PlayingMarked(p: Pool, proxy: ProxyId)
    requires PoolOk(p) && proxy in p.d.playing
    ensures p.d.playing[proxy] in p.d.logs
  {
    PlayingLogged(p);
  }

  /** Halfway through, the next stream to close is still logged and the manager still counts it. */
  lemma CloseEachPrefix(p: Pool, ids: seq<StreamId>, k: nat)
    requires k < |ids| && Distinct(ids) && (forall id | id in ids :: id in p.d.logs && id < |p.m.streams|)
    requires p.m.count >= |ids| && p.faults == {}
    ensures var q := CloseEach(p, ids[..k]);
            && ids[k] in q.d.logs && q.m.count > 0 && ids[k] < |q.m.streams| && q.faults == {}
  {
    hide ClosedMore;
    var front := ids[..k];
    assert forall id | id in front :: id in ids;
    CloseEachEffect(p, front);
    SameLength(p.m.streams, CloseEach(p, front).m.streams, Elems(front));
    NotElem(front, ids[k]);
    assert ids[k] !in front;
    assert ids[k] in ids;
  }
}
