/** AudioOutputDispatcherImpl over AudioManagerBase: a pool of physical output
    streams shared by proxies. Operations are functions on values; a DCHECK or
    CHECK that would fire is recorded as a fault. */
module StreamPool {

  type StreamId = nat
  type ProxyId = nat

  /** A physical stream obtained from the manager. */
  datatype Physical = Physical(playing: bool, volume: real, failed: bool, closes: nat)

  /** AudioManagerBase: every stream it ever handed to this pool, its stream count and cap, and
      the streams that other dispatchers hold. */
  datatype Manager = Manager(streams: seq<Physical>, count: int, cap: int, others: nat)

  datatype Dispatcher = Dispatcher(
    idleProxies: nat,
    idle: seq<StreamId>,
    playing: map<ProxyId, StreamId>,
    logs: set<StreamId>,
    closeTimer: bool)

  datatype Fault =
    | ReleaseWithoutStreams      // CHECK_GT(num_output_streams_, 0)
    | StartWhilePlaying          // DCHECK(proxy_to_physical_map_.find(...) == end)
    | NoIdleProxy                // DCHECK_GT(idle_proxies_, 0u)
    | StopWhileStopped           // DCHECK(it != proxy_to_physical_map_.end())
    | NoLog                      // DCHECK(base::ContainsKey(audio_logs_, ...))
    | ConverterInUse             // CHECK(!source_callback_)
    | ConverterNotStarted        // CHECK(source_callback_), DCHECK(callback->started())
    | CallbacksLeft              // DCHECK(callbacks_.empty())
    | NoDispatcher               // DCHECK(dispatcher_)
    | NotOriginalParams          // DCHECK(original_output_params_.Equals(output_params_))

  datatype Pool = Pool(d: Dispatcher, m: Manager, faults: set<Fault>)

  /** Whether MakeAudioOutputStream() finds a driver stream, and whether that stream opens. */
  datatype Outcome = Outcome(made: bool, opens: bool)

  function EmptyDispatcher(): Dispatcher {
    Dispatcher(0, [], map[], {}, false)
  }

  // ------------------------------------------------------- AudioManagerBase

  /** MakeAudioOutputStream() delivers a stream unless the cap is reached. */
  predicate Makes(m: Manager, made: bool) {
    made && m.count < m.cap
  }

  function MakeStream(m: Manager): Manager {
    m.(streams := m.streams + [Physical(false, 1.0, false, 0)], count := m.count + 1)
  }

  /** AudioOutputStream::Close(), which releases the stream. */
  function ClosePhysical(p: Pool, id: StreamId): Pool {
    p.(m := p.m.(count := p.m.count - 1,
                 streams := if id < |p.m.streams|
                            then p.m.streams[id := p.m.streams[id].(closes := p.m.streams[id].closes + 1)]
                            else p.m.streams),
       faults := p.faults + if p.m.count <= 0 then {ReleaseWithoutStreams} else {})
  }

  function SetPhysical(m: Manager, id: StreamId, playing: bool, volume: real): Manager {
    if id < |m.streams| then m.(streams := m.streams[id := m.streams[id].(playing := playing, volume := volume)]) else m
  }

  function VolumeOf(m: Manager, id: StreamId): real {
    if id < |m.streams| then m.streams[id].volume else 0.0
  }

  // ------------------------------------------- AudioOutputDispatcherImpl

  /** CreateAndOpenStream(). */
  function CreateAndOpen(p: Pool, o: Outcome): (Pool, bool) {
    if !Makes(p.m, o.made) then (p, false) else
    var id := |p.m.streams|;
    var made := p.(m := MakeStream(p.m));
    if !o.opens then (ClosePhysical(made, id), false) else
    (made.(d := p.d.(logs := p.d.logs + {id}, idle := p.d.idle + [id])), true)
  }

  function OpenStream(p: Pool, o: Outcome): (Pool, bool) {
    var (q, ok) := if p.d.idle == [] then CreateAndOpen(p, o) else (p, true);
    if !ok then (q, false) else
    (q.(d := q.d.(idleProxies := q.d.idleProxies + 1, closeTimer := true)), true)
  }

  /** The most recently idle stream starts playing for the proxy. */
  function TakeIdle(p: Pool, proxy: ProxyId, volume: real): Pool
    requires p.d.idle != []
  {
    var last := |p.d.idle| - 1;
    var id := p.d.idle[last];
    p.(d := p.d.(idle := p.d.idle[..last], playing := p.d.playing[proxy := id],
                 idleProxies := if p.d.idleProxies == 0 then 0 else p.d.idleProxies - 1, closeTimer := true),
       m := SetPhysical(p.m, id, true, volume),
       faults := p.faults + (if p.d.idleProxies == 0 then {NoIdleProxy} else {})
                          + (if id !in p.d.logs then {NoLog} else {}))
  }

  function StartStream(p: Pool, proxy: ProxyId, volume: real, o: Outcome): (Pool, bool) {
    var checked := p.(faults := p.faults + if proxy in p.d.playing then {StartWhilePlaying} else {});
    var (q, ok) := if p.d.idle == [] then CreateAndOpen(checked, o) else (checked, true);
    if !ok || q.d.idle == [] then (q, false) else (TakeIdle(q, proxy, volume), true)
  }

  function StopStream(p: Pool, proxy: ProxyId): Pool {
    if proxy !in p.d.playing then p.(faults := p.faults + {StopWhileStopped}) else
    var id := p.d.playing[proxy];
    p.(d := p.d.(idle := p.d.idle + [id], playing := p.d.playing - {proxy},
                 idleProxies := p.d.idleProxies + 1, closeTimer := true),
       m := SetPhysical(p.m, id, false, VolumeOf(p.m, id)),
       faults := p.faults + if id !in p.d.logs then {NoLog} else {})
  }

  function SetVolume(p: Pool, proxy: ProxyId, volume: real): Pool {
    if proxy !in p.d.playing then p else
    var id := p.d.playing[proxy];
    p.(m := SetPhysical(p.m, id, true, volume), faults := p.faults + if id !in p.d.logs then {NoLog} else {})
  }

  /** Closes the streams in order and forgets their logs. */
  function CloseEach(p: Pool, ids: seq<StreamId>): Pool {
    if ids == [] then p else
    var id := ids[|ids| - 1];
    var q := CloseEach(p, ids[..|ids| - 1]);
    var r := ClosePhysical(q, id);
    r.(d := r.d.(logs := r.d.logs - {id}), faults := r.faults + if id !in q.d.logs then {NoLog} else {})
  }

  /** CloseIdleStreams(keep_alive). */
  function CloseIdleStreams(p: Pool, keep: nat): Pool {
    if |p.d.idle| <= keep then p else
    var q := CloseEach(p, p.d.idle[keep..]);
    q.(d := q.d.(idle := p.d.idle[..keep]))
  }

  function Max(a: nat, b: nat): nat {
    if a >= b then a else b
  }

  function CloseStream(p: Pool): Pool {
    if p.d.idleProxies == 0 then p.(faults := p.faults + {NoIdleProxy}) else
    var left := p.d.idleProxies - 1;
    var q := CloseIdleStreams(p.(d := p.d.(idleProxies := left)), Max(left, 1));
    q.(d := q.d.(closeTimer := true))
  }

  predicate HasOutputProxies(d: Dispatcher) {
    d.idleProxies > 0 || d.playing != map[]
  }

  // -------------------------------------------------------------- invariant

  ghost predicate Distinct(ids: seq<StreamId>) {
    forall i, j | 0 <= i < j < |ids| :: ids[i] != ids[j]
  }

  ghost predicate Injective(m: map<ProxyId, StreamId>) {
    forall p, q | p in m && q in m && p != q :: m[p] != m[q]
  }

  /** Logged streams are exactly the idle ones and those playing for some proxy, disjointly. */
  ghost predicate Partition(d: Dispatcher) {
    && Distinct(d.idle)
    && Injective(d.playing)
    && (forall p | p in d.playing :: d.playing[p] !in d.idle)
    && (forall id :: id in d.logs <==> id in d.idle || id in d.playing.Values)
  }

  /** Every stream ever made is live and never closed, or closed exactly once; it plays iff some
      proxy plays it. */
  ghost predicate StreamsOk(d: Dispatcher, streams: seq<Physical>) {
    && (forall id | id in d.logs :: id < |streams|)
    && (forall id | 0 <= id < |streams| :: streams[id].closes == if id in d.logs then 0 else 1)
    && (forall id | 0 <= id < |streams| :: streams[id].playing <==> id in d.playing.Values)
  }

  /** No stream that reported an error waits for another proxy. */
  ghost predicate Clean(d: Dispatcher, streams: seq<Physical>) {
    forall id | id in d.idle && id < |streams| :: !streams[id].failed
  }

  /** The manager counts this pool's live streams and the others', within its cap. */
  ghost predicate CountOk(d: Dispatcher, m: Manager) {
    m.count == |d.logs| + m.others && m.count <= m.cap
  }

  predicate Bounded(d: Dispatcher) {
    |d.idle| <= d.idleProxies + 1
  }

  ghost predicate Coherent(p: Pool) {
    Partition(p.d) && StreamsOk(p.d, p.m.streams) && CountOk(p.d, p.m) && p.faults == {}
  }

  ghost predicate PoolOk(p: Pool) {
    Coherent(p) && Bounded(p.d) && Clean(p.d, p.m.streams)
  }

  lemma CreateKeeps(p: Pool, o: Outcome)
    requires PoolOk(p) && p.d.idle == []
    ensures var (q, ok) := CreateAndOpen(p, o);
            && PoolOk(q)
            && q.d.playing == p.d.playing && q.d.idleProxies == p.d.idleProxies
            && |q.d.idle| == (if ok then 1 else 0)
            && (ok <==> p.m.count < p.m.cap && o.made && o.opens)
            && (ok ==> q.d.idle == [|p.m.streams|] && |q.m.streams| == |p.m.streams| + 1)
            && q.m.others == p.m.others && q.m.cap == p.m.cap
            && p.m.streams <= q.m.streams
  {
    if Makes(p.m, o.made) && o.opens {
      var id := |p.m.streams|;
      var q := CreateAndOpen(p, o).0;
      assert id !in p.d.logs;
      assert q.d.logs == p.d.logs + {id};
      assert q.d.idle == [id];
    }
  }

  lemma OpenKeeps(p: Pool, o: Outcome)
    requires PoolOk(p)
    ensures var (q, ok) := OpenStream(p, o);
            && PoolOk(q)
            && q.d.playing == p.d.playing
            && q.d.idleProxies == p.d.idleProxies + (if ok then 1 else 0)
            && (ok <==> p.d.idle != [] || (p.m.count < p.m.cap && o.made && o.opens))
            && |q.d.idle| == (if p.d.idle == [] && ok then 1 else |p.d.idle|)
            && (p.d.idle != [] ==> q.d.idle == p.d.idle && q.m == p.m)
            && p.m.streams <= q.m.streams && q.m.others == p.m.others && q.m.cap == p.m.cap
  {
    if p.d.idle == [] {
      CreateKeeps(p, o);
    }
  }

  /** The streams playing for the proxies of `before` are as they were. */
  ghost predicate SamePlaying(before: Pool, after: Pool, but: set<ProxyId>) {
    forall p | p in before.d.playing && p !in but ::
      && p in after.d.playing && after.d.playing[p] == before.d.playing[p]
      && before.d.playing[p] < |before.m.streams| && before.d.playing[p] < |after.m.streams|
      && after.m.streams[before.d.playing[p]] == before.m.streams[before.d.playing[p]]
  }

  lemma TakeIdlePartition(d: Dispatcher, proxy: ProxyId, d': Dispatcher)
    requires Partition(d) && d.idle != [] && proxy !in d.playing
    requires d'.idle == d.idle[..|d.idle| - 1] && d'.logs == d.logs
    requires d'.playing == d.playing[proxy := d.idle[|d.idle| - 1]]
    ensures Partition(d')
    ensures d'.playing.Values == d.playing.Values + {d.idle[|d.idle| - 1]}
  {
    var id := d.idle[|d.idle| - 1];
    forall x | x in d'.playing.Values ensures x in d.playing.Values + {id} {
      var p :| p in d'.playing && d'.playing[p] == x;
      assert p != proxy ==> p in d.playing && d.playing[p] == x;
    }
    forall x | x in d.playing.Values + {id} ensures x in d'.playing.Values {
      if x != id {
        var p :| p in d.playing && d.playing[p] == x;
        assert d'.playing[p] == x;
      } else {
        assert d'.playing[proxy] == x;
      }
    }
    forall x ensures x in d.idle <==> x in d'.idle || x == id {
      assert d.idle == d'.idle + [id];
    }
  }

  lemma TakeIdleKeeps(p: Pool, proxy: ProxyId, volume: real)
    requires PoolOk(p) && p.d.idle != [] && proxy !in p.d.playing && p.d.idleProxies > 0
    ensures var q := TakeIdle(p, proxy, volume); var id := p.d.idle[|p.d.idle| - 1];
            && PoolOk(q) && id < |q.m.streams| && id !in p.d.playing.Values
            && q.d.playing == p.d.playing[proxy := id]
            && q.m.streams[id].volume == volume && !q.m.streams[id].failed
            && SamePlaying(p, q, {})
  {
    var q := TakeIdle(p, proxy, volume);
    TakeIdlePartition(p.d, proxy, q.d);
    assert p.d.idle[|p.d.idle| - 1] in p.d.logs;
    assert forall x | x in q.d.idle :: x in p.d.idle;
  }

  lemma StartKeeps(p: Pool, proxy: ProxyId, volume: real, o: Outcome)
    requires PoolOk(p) && proxy !in p.d.playing && p.d.idleProxies > 0
    ensures var (q, ok) := StartStream(p, proxy, volume, o);
            && PoolOk(q) && SamePlaying(p, q, {})
            && q.m.others == p.m.others && q.m.cap == p.m.cap
            && (ok <==> p.d.idle != [] || (p.m.count < p.m.cap && o.made && o.opens))
            && q.d.idle == (if p.d.idle == [] then [] else p.d.idle[..|p.d.idle| - 1])
            && (ok ==> && proxy in q.d.playing
                       && q.d.playing[proxy] ==
                            if p.d.idle == [] then |p.m.streams| else p.d.idle[|p.d.idle| - 1])
            && (!ok ==> q.d.playing == p.d.playing && q.d.idleProxies == p.d.idleProxies)
            && (ok ==> && proxy in q.d.playing
                       && q.d.playing == p.d.playing[proxy := q.d.playing[proxy]]
                       && q.d.idleProxies == p.d.idleProxies - 1
                       && q.d.playing[proxy] < |q.m.streams|
                       && q.m.streams[q.d.playing[proxy]].volume == volume
                       && !q.m.streams[q.d.playing[proxy]].failed)
  {
    hide Partition, StreamsOk, CountOk;
    PlayingLogged(p);
    if p.d.idle == [] {
      CreateKeeps(p, o);
      var (q, ok) := CreateAndOpen(p, o);
      assert p.(faults := p.faults + {}) == p;
      if ok {
        PlayingLogged(q);
        TakeIdleKeeps(q, proxy, volume);
      }
    } else {
      assert p.(faults := p.faults + {}) == p;
      TakeIdleKeeps(p, proxy, volume);
    }
  }

  lemma PlayingLogged(p: Pool)
    requires Coherent(p)
    ensures forall x | x in p.d.playing :: p.d.playing[x] in p.d.logs && p.d.playing[x] < |p.m.streams|
  {
    forall x | x in p.d.playing ensures p.d.playing[x] in p.d.logs {
      assert p.d.playing[x] in p.d.playing.Values;
    }
  }

  lemma StopPartition(d: Dispatcher, proxy: ProxyId, d': Dispatcher)
    requires Partition(d) && proxy in d.playing
    requires d'.idle == d.idle + [d.playing[proxy]] && d'.logs == d.logs && d'.playing == d.playing - {proxy}
    ensures Partition(d')
    ensures d'.playing.Values == d.playing.Values - {d.playing[proxy]}
  {
    var id := d.playing[proxy];
    forall x | x in d.playing.Values && x != id ensures x in d'.playing.Values {
      var p :| p in d.playing && d.playing[p] == x;
      assert p in d'.playing && d'.playing[p] == x;
    }
    forall x | x in d'.playing.Values ensures x in d.playing.Values && x != id {
      var p :| p in d'.playing && d'.playing[p] == x;
      assert d.playing[p] == x;
    }
  }

  lemma StopKeeps(p: Pool, proxy: ProxyId)
    requires PoolOk(p) && proxy in p.d.playing
    ensures var q := StopStream(p, proxy);
            && Coherent(q) && Bounded(q.d) && SamePlaying(p, q, {proxy})
            && p.d.playing[proxy] < |p.m.streams| == |q.m.streams|
            && q.d.idle == p.d.idle + [p.d.playing[proxy]]
            && (forall id | 0 <= id < |p.m.streams| ::
                  q.m.streams[id] == if id == p.d.playing[proxy] then p.m.streams[id].(playing := false)
                                     else p.m.streams[id])
            && (Clean(q.d, q.m.streams) <==> !p.m.streams[p.d.playing[proxy]].failed)
  {
    var q := StopStream(p, proxy);
    assert p.d.playing[proxy] in q.d.idle by { assert q.d.idle[|q.d.idle| - 1] == p.d.playing[proxy]; }
    StopPartition(p.d, proxy, q.d);
    PlayingLogged(p);
    assert p.d.playing[proxy] in p.d.playing.Values;
  }

  lemma SetVolumeKeeps(p: Pool, proxy: ProxyId, volume: real)
    requires PoolOk(p)
    ensures var q := SetVolume(p, proxy, volume);
            && PoolOk(q) && SamePlaying(p, q, {proxy}) && q.d == p.d
            && (proxy in p.d.playing ==>
                  && p.d.playing[proxy] < |q.m.streams| == |p.m.streams|
                  && q.m.streams[p.d.playing[proxy]] == p.m.streams[p.d.playing[proxy]].(volume := volume))
  {
    PlayingLogged(p);
    if proxy in p.d.playing {
      assert p.d.playing[proxy] in p.d.playing.Values;
    }
  }

  function Elems(ids: seq<StreamId>): set<StreamId> {
    set id | id in ids
  }

  lemma ElemsSnoc(ids: seq<StreamId>)
    requires ids != []
    ensures Elems(ids) == Elems(ids[..|ids| - 1]) + {ids[|ids| - 1]}
  {
    assert ids == ids[..|ids| - 1] + [ids[|ids| - 1]];
  }

  /** The streams in `ids` were closed once more; nothing else changed. */
  ghost predicate ClosedMore(before: seq<Physical>, after: seq<Physical>, ids: set<StreamId>) {
    && |after| == |before|
    && forall id | 0 <= id < |before| ::
         after[id] == before[id].(closes := before[id].closes + if id in ids then 1 else 0)
  }

  lemma ClosedOneMore(before: seq<Physical>, mid: seq<Physical>, after: seq<Physical>, ids: set<StreamId>, id: StreamId)
    requires ClosedMore(before, mid, ids) && id !in ids && id < |before|
    requires after == mid[id := mid[id].(closes := mid[id].closes + 1)]
    ensures ClosedMore(before, after, ids + {id})
  {
  }

  /** The streams in `ids` are closed once more, forgotten and released. */
  ghost predicate AllClosed(p: Pool, q: Pool, ids: seq<StreamId>) {
    && q.d == p.d.(logs := p.d.logs - Elems(ids))
    && |q.d.logs| == |p.d.logs| - |ids|
    && q.m == p.m.(streams := q.m.streams, count := p.m.count - |ids|)
    && ClosedMore(p.m.streams, q.m.streams, Elems(ids)) && q.faults == {}
  }

  /** Closing distinct live streams: each is closed once more, forgotten and released. */
  lemma {:induction false} CloseEachEffect(p: Pool, ids: seq<StreamId>)
    requires Distinct(ids) && (forall id | id in ids :: id in p.d.logs && id < |p.m.streams|)
    requires p.m.count >= |ids| && p.faults == {}
    ensures AllClosed(p, CloseEach(p, ids), ids)
    decreases |ids|
  {
    hide AllClosed;
    if ids == [] {
      NothingClosed(p);
    } else {
      var last := |ids| - 1;
      var front, id := ids[..last], ids[last];
      assert id !in front;
      assert forall x | x in front :: x in ids;
      CloseEachEffect(p, front);
      CloseOneMore(p, CloseEach(p, front), CloseEach(p, ids), front, id);
      assert front + [id] == ids;
    }
  }

  lemma CloseOneMore(p: Pool, q: Pool, r: Pool, front: seq<StreamId>, id: StreamId)
    requires AllClosed(p, q, front) && id !in front && id in p.d.logs && id < |p.m.streams| && p.m.count > |front|
    requires var c := ClosePhysical(q, id);
             r == c.(d := c.d.(logs := c.d.logs - {id}), faults := c.faults + if id !in q.d.logs then {NoLog} else {})
    ensures AllClosed(p, r, front + [id])
  {
    hide ClosedMore, Elems;
    var ids := front + [id];
    assert ids[..|ids| - 1] == front;
    ElemsSnoc(ids);
    NotElem(front, id);
    SameLength(p.m.streams, q.m.streams, Elems(front));
    ClosedOneMore(p.m.streams, q.m.streams, r.m.streams, Elems(front), id);
    assert p.d.logs - Elems(ids) == (p.d.logs - Elems(front)) - {id};
  }

  lemma NothingClosed(p: Pool)
    requires p.faults == {}
    ensures AllClosed(p, p, [])
  {
    assert p.d.logs - Elems([]) == p.d.logs;
  }

  lemma NotElem(ids: seq<StreamId>, id: StreamId)
    ensures id in Elems(ids) <==> id in ids
  {
  }

  lemma SameLength(before: seq<Physical>, after: seq<Physical>, ids: set<StreamId>)
    requires ClosedMore(before, after, ids)
    ensures |after| == |before|
  {
  }

  lemma IdleCount(d: Dispatcher)
    requires Partition(d)
    ensures |d.logs| >= |d.idle|
  {
    DistinctCount(d.idle);
    SubsetCount(Elems(d.idle), d.logs);
  }

  lemma {:induction false} DistinctCount(ids: seq<StreamId>)
    requires Distinct(ids)
    ensures |Elems(ids)| == |ids|
    decreases |ids|
  {
    if ids == [] {
      assert Elems(ids) == {};
    } else {
      DistinctCount(ids[..|ids| - 1]);
      ElemsSnoc(ids);
    }
  }

  lemma SubsetCount(a: set<StreamId>, b: set<StreamId>)
    requires a <= b
    ensures |a| <= |b|
  {
    assert b == a + (b - a);
  }

  lemma TruncatedPartition(d: Dispatcher, keep: nat, d': Dispatcher)
    requires Partition(d) && keep <= |d.idle|
    requires d' == d.(idle := d.idle[..keep], logs := d.logs - Elems(d.idle[keep..]))
    ensures Partition(d')
  {
    assert d.idle == d'.idle + d.idle[keep..];
    forall id ensures id in d'.logs <==> id in d'.idle || id in d'.playing.Values {
      if id in d.playing.Values {
        var p :| p in d.playing && d.playing[p] == id;
        assert id !in d.idle;
      }
    }
  }

  lemma ClosedStreamsOk(d: Dispatcher, before: seq<Physical>, gone: set<StreamId>, d': Dispatcher, after: seq<Physical>)
    requires StreamsOk(d, before) && ClosedMore(before, after, gone) && gone <= d.logs
    requires d'.logs == d.logs - gone && d'.playing == d.playing
    ensures StreamsOk(d', after)
    ensures forall id | 0 <= id < |before| && id !in gone :: after[id] == before[id]
    ensures forall id | 0 <= id < |before| :: after[id].failed == before[id].failed
  {
  }

  lemma CloseIdleKeeps(p: Pool, keep: nat)
    requires Coherent(p)
    ensures var q := CloseIdleStreams(p, keep);
            && Coherent(q)
            && q.d == p.d.(idle := q.d.idle, logs := q.d.logs)
            && q.d.idle == (if |p.d.idle| <= keep then p.d.idle else p.d.idle[..keep])
            && SamePlaying(p, q, {})
            && |q.m.streams| == |p.m.streams| && q.m.others == p.m.others && q.m.cap == p.m.cap
            && (forall id | 0 <= id < |p.m.streams| :: q.m.streams[id].failed == p.m.streams[id].failed)
  {
    hide StreamsOk, ClosedMore, CloseEach, Partition, Elems;
    PlayingLogged(p);
    if |p.d.idle| > keep {
      var gone := p.d.idle[keep..];
      var q := CloseIdleStreams(p, keep);
      IdleLive(p, gone);
      CloseEachEffect(p, gone);
      SameLength(p.m.streams, q.m.streams, Elems(gone));
      TruncatedPartition(p.d, keep, q.d);
      ClosedStreamsOk(p.d, p.m.streams, Elems(gone), q.d, q.m.streams);
    }
  }

  lemma IdleLive(p: Pool, ids: seq<StreamId>)
    requires Coherent(p) && |ids| <= |p.d.idle| && ids == p.d.idle[|p.d.idle| - |ids|..]
    ensures Distinct(ids) && p.m.count >= |ids|
    ensures forall id | id in ids :: id in p.d.idle && id in p.d.logs && id < |p.m.streams|
    ensures Elems(ids) <= p.d.logs
    ensures forall x | x in p.d.playing :: p.d.playing[x] !in Elems(ids)
  {
    IdleCount(p.d);
    SuffixElems(p.d.idle, ids);
    assert forall id | id in p.d.idle :: id in p.d.logs;
  }

  lemma SuffixElems(all: seq<StreamId>, ids: seq<StreamId>)
    requires |ids| <= |all| && ids == all[|all| - |ids|..]
    ensures forall id | id in ids :: id in all
  {
  }

  lemma CloseStreamKeeps(p: Pool)
    requires PoolOk(p) && p.d.idleProxies > 0
    ensures var q := CloseStream(p);
            && PoolOk(q) && SamePlaying(p, q, {})
            && q.d.playing == p.d.playing && q.d.idleProxies == p.d.idleProxies - 1
            && |q.d.idle| <= Max(q.d.idleProxies, 1)
            && |q.m.streams| == |p.m.streams| && q.m.others == p.m.others && q.m.cap == p.m.cap
            && q.d.idle == (if |p.d.idle| <= Max(q.d.idleProxies, 1) then p.d.idle
                            else p.d.idle[..Max(q.d.idleProxies, 1)])
  {
    hide CloseIdleStreams, StreamsOk, CountOk;
    var lowered := p.(d := p.d.(idleProxies := p.d.idleProxies - 1));
    CountsIrrelevant(p, lowered);
    CloseIdleKeeps(lowered, Max(p.d.idleProxies - 1, 1));
    var q := CloseStream(p);
    CountsIrrelevant(CloseIdleStreams(lowered, Max(p.d.idleProxies - 1, 1)), q);
    assert forall id | id in q.d.idle :: id in p.d.idle;
  }

  lemma CountsIrrelevant(p: Pool, q: Pool)
    requires Coherent(p) && q == p.(d := p.d.(idleProxies := q.d.idleProxies, closeTimer := q.d.closeTimer))
    ensures Coherent(q)
  {
  }

  /** Dropping all idle streams leaves the pool coherent and clean. */
  lemma CloseAllIdleKeeps(p: Pool)
    requires Coherent(p)
    ensures var q := CloseIdleStreams(p, 0);
            && PoolOk(q) && q.d.idle == [] && SamePlaying(p, q, {})
            && q.d.playing == p.d.playing && q.d.idleProxies == p.d.idleProxies
            && |q.m.streams| == |p.m.streams| && q.m.others == p.m.others && q.m.cap == p.m.cap
            && (forall id | 0 <= id < |p.m.streams| :: q.m.streams[id].failed == p.m.streams[id].failed)
  {
    CloseIdleKeeps(p, 0);
  }

  /** Destroying a dispatcher that plays nothing closes its last streams: every stream it
      ever opened has then been closed exactly once, and the manager counts only the others'. */
  lemma DestroyClosesAll(p: Pool)
    requires Coherent(p) && p.d.playing == map[]
    ensures var q := CloseIdleStreams(p, 0);
            && q.d.logs == {} && q.m.count == q.m.others && q.faults == {} && q.m.count <= q.m.cap
            && (forall id | 0 <= id < |q.m.streams| :: q.m.streams[id].closes == 1 && !q.m.streams[id].playing)
  {
    CloseIdleKeeps(p, 0);
    var q := CloseIdleStreams(p, 0);
    assert forall id :: id !in q.d.logs;
  }
}
