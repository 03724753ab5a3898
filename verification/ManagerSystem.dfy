/** One audio manager shared by any number of output stream stacks. All of them
    run on the audio thread, so a run of the system is any sequence of steps of
    single stacks; each sees the streams of all others in the shared count. */
module ManagerSystem {
  import opened StreamPool
  import opened OutputStack
  import opened OutputStackProofs

  datatype Move = Move(stack: nat, step: Step)

  function LiveStreams(w: World): nat {
    |Inner(w).logs|
  }

  /** The live streams of all stacks. */
  function Total(stacks: seq<World>): nat {
    if stacks == [] then 0 else Total(stacks[..|stacks| - 1]) + LiveStreams(stacks[|stacks| - 1])
  }

  /** A stack sees the shared count change by what another stack opened or closed. */
  function Shift(w: World, delta: int): World {
    w.(m := w.m.(count := w.m.count + delta, others := if w.m.others + delta >= 0 then w.m.others + delta else 0))
  }

  predicate Possible(stacks: seq<World>, move: Move) {
    move.stack < |stacks| && !move.step.OthersTake? && !move.step.OthersRelease?
  }

  /** One stack takes a step; the manager's count, and with it every other stack's view, follows. */
  function SystemNext(stacks: seq<World>, move: Move): seq<World> {
    if !Possible(stacks, move) then stacks else
    var moved := Next(stacks[move.stack], move.step);
    var delta := moved.m.count - stacks[move.stack].m.count;
    seq(|stacks|, j requires 0 <= j < |stacks| => if j == move.stack then moved else Shift(stacks[j], delta))
  }

  function SystemExec(stacks: seq<World>, run: seq<Move>): seq<World> {
    if run == [] then stacks else SystemNext(SystemExec(stacks, run[..|run| - 1]), run[|run| - 1])
  }

  /** A new manager, no stream made yet. */
  predicate SystemInit(stacks: seq<World>) {
    forall j | 0 <= j < |stacks| :: Init(stacks[j]) && stacks[j].m.count == 0 && stacks[j].m.cap == stacks[0].m.cap
  }

  /** Every stack is sound, and all agree on the manager's count: the live streams of all stacks. */
  ghost predicate SystemInv(stacks: seq<World>) {
    forall j | 0 <= j < |stacks| ::
      Inv(stacks[j]) && stacks[j].m.count == Total(stacks) && stacks[j].m.cap == stacks[0].m.cap
  }

  // ---------------------------------------------------------------- totals

  lemma {:induction false} NothingLive(stacks: seq<World>)
    requires forall j | 0 <= j < |stacks| :: LiveStreams(stacks[j]) == 0
    ensures Total(stacks) == 0
  {
    if stacks != [] {
      NothingLive(stacks[..|stacks| - 1]);
    }
  }

  /** Changing one stack's live streams changes the total by as much. */
  lemma {:induction false} TotalChange(before: seq<World>, after: seq<World>, k: nat)
    requires |before| == |after| && k < |before|
    requires forall j | 0 <= j < |before| && j != k :: LiveStreams(after[j]) == LiveStreams(before[j])
    ensures Total(after) - Total(before) == LiveStreams(after[k]) - LiveStreams(before[k])
    decreases |before|
  {
    var last := |before| - 1;
    if k < last {
      TotalChange(before[..last], after[..last], k);
    } else {
      SameTotal(before[..last], after[..last]);
    }
  }

  lemma {:induction false} SameTotal(before: seq<World>, after: seq<World>)
    requires |before| == |after|
    requires forall j | 0 <= j < |before| :: LiveStreams(after[j]) == LiveStreams(before[j])
    ensures Total(after) == Total(before)
  {
    if before != [] {
      SameTotal(before[..|before| - 1], after[..|before| - 1]);
    }
  }

  lemma {:induction false} PartOfTotal(stacks: seq<World>, j: nat)
    requires j < |stacks|
    ensures LiveStreams(stacks[j]) <= Total(stacks)
  {
    var last := |stacks| - 1;
    if j < last {
      PartOfTotal(stacks[..last], j);
    }
  }

  // ------------------------------------------------- what a step leaves alone

  lemma CloseManager(p: Pool)
    ensures SameManager(p.m, CloseStream(p).m)
  {
    hide CloseIdleStreams;
    if p.d.idleProxies > 0 {
      var left := p.d.idleProxies - 1;
      CloseIdleManager(p.(d := p.d.(idleProxies := left)), Max(left, 1));
    }
  }

  lemma DiscardManager(w: World)
    ensures SameManager(w.m, Discard(w).m)
  {
    hide CloseIdleStreams;
    CloseIdleManager(PoolOf(w), 0);
  }

  lemma InstallManager(w: World, params: AudioParameters)
    ensures SameManager(w.m, Install(w, params).m)
  {
    hide Discard;
    DiscardManager(w);
  }

  lemma ReinitializeManager(w: World)
    ensures SameManager(w.m, Reinitialize(w).m)
  {
    hide Discard;
    DiscardManager(w.(params := w.cfg.original,
                      faults := w.faults + if w.callbacks != map[] then {CallbacksLeft} else {}));
  }

  lemma OpenInnerManager(w: World, o: Outcome)
    ensures SameManager(w.m, OpenInner(w, o).0.m)
  {
  }

  lemma FallBackManager(w: World, tries: Attempts)
    ensures SameManager(w.m, FallBack(w, tries).0.m)
  {
    hide Install, OpenInner, Reinitialize;
    var v := w;
    if w.cfg.windows {
      InstallManager(w, FallbackParams(w.cfg.original));
      OpenInnerManager(Install(w, FallbackParams(w.cfg.original)), tries.second);
      v := OpenInner(Install(w, FallbackParams(w.cfg.original)), tries.second).0;
    }
    InstallManager(v, FakeParams(w.cfg));
    OpenInnerManager(Install(v, FakeParams(w.cfg)), tries.third);
    ReinitializeManager(OpenInner(Install(v, FakeParams(w.cfg)), tries.third).0);
  }

  lemma OpenManager(w: World, tries: Attempts)
    ensures SameManager(w.m, ResamplerOpen(w, tries).0.m)
  {
    hide Install, OpenInner, FallBack;
    var checked := w.(faults := w.faults + if w.params != w.cfg.original then {NotOriginalParams} else {});
    InstallManager(checked, w.params);
    var ready := if w.dispatcher.Some? then w else Install(checked, w.params);
    OpenInnerManager(ready, tries.first);
    FallBackManager(OpenInner(ready, tries.first).0, tries);
  }

  lemma StartManager(w: World, p: ProxyId, volume: real, o: Outcome)
    ensures SameManager(w.m, ResamplerStart(w, p, volume, o).0.m)
  {
  }

  lemma {:induction false} StopAllManager(w: World, order: seq<ProxyId>, failing: set<ProxyId>)
    ensures SameManager(w.m, StopAll(w, order, failing).m)
    decreases |order|
  {
    hide StopInternal;
    if order != [] {
      var p := order[|order| - 1];
      StopAllManager(w, order[..|order| - 1], failing);
      StopManager(StopAll(w, order[..|order| - 1], failing), p, p in failing);
    }
  }

  lemma ResamplerCloseManager(w: World, p: ProxyId)
    ensures SameManager(w.m, ResamplerClose(w, p).m)
  {
    hide CloseStream;
    CloseManager(PoolOf(w));
  }

  lemma StepManager(w: World, step: Step)
    requires !step.OthersTake? && !step.OthersRelease?
    ensures SameManager(w.m, Next(w, step).m)
  {
    hide ResamplerOpen, ResamplerStart, ResamplerClose, Reinitialize, StopInternal, StopAll, CloseIdleStreams, Discard;
    if Enabled(w, step) {
      match step
      case Open(_, tries) => OpenManager(w, tries);
      case Start(p, o) => StartManager(w, p, w.proxies[p].volume, o);
      case Stop(p, fails) => StopManager(w, p, fails);
      case Close(p) => ResamplerCloseManager(w, p);
      case CloseTimerFires => CloseIdleManager(PoolOf(w), 0);
      case ReinitTimerFires => ReinitializeManager(w);
      case Destroy(order, failing) =>
        StopAllManager(w, order, failing);
        DiscardManager(StopAll(w, order, failing));
      case _ =>
    }
  }

  // ------------------------------------------------------------- all systems

  /** A sound stack's share of the count. */
  lemma CountIsShared(w: World)
    requires Inv(w)
    ensures w.m.count == LiveStreams(w) + w.m.others && w.m.count <= w.m.cap
  {
    hide Partition, StreamsOk, Clean, IdleSet, PlayingSet;
  }

  lemma ShiftKeeps(w: World, delta: int)
    requires Inv(w) && w.m.others + delta >= 0 && w.m.count + delta <= w.m.cap
    ensures Inv(Shift(w, delta))
  {
    hide Live;
    if w.alive {
      OthersStep(w, Shift(w, delta).m);
    }
  }

  lemma SystemStepKeeps(stacks: seq<World>, move: Move)
    requires SystemInv(stacks)
    ensures SystemInv(SystemNext(stacks, move))
  {
    hide Inv, Next, LiveStreams;
    if Possible(stacks, move) {
      var k := move.stack;
      var w, moved := stacks[k], Next(stacks[k], move.step);
      var after := SystemNext(stacks, move);
      var delta := moved.m.count - w.m.count;
      StepKeeps(w, move.step);
      StepManager(w, move.step);
      CountIsShared(w);
      CountIsShared(moved);
      forall j | 0 <= j < |stacks| && j != k
        ensures LiveStreams(after[j]) == LiveStreams(stacks[j])
      {
        SameStreams(stacks[j], delta);
      }
      TotalChange(stacks, after, k);
      assert moved.m.count == Total(after);
      forall j | 0 <= j < |stacks|
        ensures Inv(after[j]) && after[j].m.count == Total(after) && after[j].m.cap == after[0].m.cap
      {
        assert after[0].m.cap == stacks[0].m.cap == stacks[j].m.cap == after[j].m.cap;
        if j != k {
          CountIsShared(stacks[j]);
          PartOfTotal(after, j);
          ShiftKeeps(stacks[j], delta);
        }
      }
    }
  }

  lemma SameStreams(w: World, delta: int)
    ensures LiveStreams(Shift(w, delta)) == LiveStreams(w)
  {
  }

  lemma {:induction false} SystemRunKeeps(stacks: seq<World>, run: seq<Move>)
    requires SystemInit(stacks)
    ensures SystemInv(SystemExec(stacks, run))
    decreases |run|
  {
    hide SystemNext, Inv;
    if run == [] {
      forall j | 0 <= j < |stacks| ensures Inv(stacks[j]) && LiveStreams(stacks[j]) == 0 {
        InitInv(stacks[j]);
      }
      NothingLive(stacks);
    } else {
      SystemRunKeeps(stacks, run[..|run| - 1]);
      SystemStepKeeps(SystemExec(stacks, run[..|run| - 1]), run[|run| - 1]);
    }
  }

  /** In every run of any number of stacks over one manager: the manager's count is the number of
      live streams of all dispatchers together and stays within the cap; no check fires, so that it is
      positive at every release; and every stream any of them ever made is live in its dispatcher,
      or has been closed exactly once. */
  lemma SharedCount(stacks: seq<World>, run: seq<Move>, j: nat)
    requires SystemInit(stacks) && j < |stacks|
    ensures var after := SystemExec(stacks, run);
            && |after| == |stacks|
            && after[j].m.count == Total(after) <= after[j].m.cap == stacks[j].m.cap
            && after[j].faults == {}
            && (forall id | 0 <= id < |after[j].m.streams| ::
                  after[j].m.streams[id].closes == if id in Inner(after[j]).logs then 0 else 1)
  {
    hide SystemNext, Next;
    SystemRunKeeps(stacks, run);
    SameSize(stacks, run);
    var w := SystemExec(stacks, run)[j];
    CountIsShared(w);
    SoundStreams(w);
  }

  lemma SoundStreams(w: World)
    requires Inv(w)
    ensures w.faults == {}
    ensures forall id | 0 <= id < |w.m.streams| :: w.m.streams[id].closes == if id in Inner(w).logs then 0 else 1
  {
    hide Partition, IdleSet, PlayingSet;
  }

  lemma {:induction false} SameSize(stacks: seq<World>, run: seq<Move>)
    requires SystemInit(stacks)
    ensures |SystemExec(stacks, run)| == |stacks|
    ensures forall j | 0 <= j < |stacks| :: SystemExec(stacks, run)[j].m.cap == stacks[j].m.cap
    decreases |run|
  {
    hide Next, Init;
    if run != [] {
      SameSize(stacks, run[..|run| - 1]);
      var before, move := SystemExec(stacks, run[..|run| - 1]), run[|run| - 1];
      if Possible(before, move) {
        StepManager(before[move.stack], move.step);
      }
    }
  }

  // ---------------------------------------- each stack's view is a run of its own

  function Repeat(step: Step, n: nat): seq<Step> {
    if n == 0 then [] else Repeat(step, n - 1) + [step]
  }

  lemma {:induction false} ExecAppend(w: World, a: seq<Step>, b: seq<Step>)
    ensures Exec(w, a + b) == Exec(Exec(w, a), b)
    decreases |b|
  {
    hide Next;
    if b == [] {
      assert a + b == a;
    } else {
      var last := |b| - 1;
      ExecAppend(w, a, b[..last]);
      assert (a + b)[..|a + b| - 1] == a + b[..last];
    }
  }

  lemma {:induction false} TakesShift(w: World, n: nat)
    requires w.m.count + n <= w.m.cap
    ensures Exec(w, Repeat(OthersTake, n)) == Shift(w, n)
  {
    hide Exec, Next, Shift;
    if n == 0 {
      EmptyRun(w);
      NoShift(w);
    } else {
      TakesShift(w, n - 1);
      OneMore(w, OthersTake, n);
      OneTake(w, n);
    }
  }

  lemma {:induction false} ReleasesShift(w: World, n: nat)
    requires n <= w.m.others
    ensures Exec(w, Repeat(OthersRelease, n)) == Shift(w, -(n as int))
  {
    hide Exec, Next, Shift;
    if n == 0 {
      EmptyRun(w);
      NoShift(w);
    } else {
      ReleasesShift(w, n - 1);
      OneMore(w, OthersRelease, n);
      OneRelease(w, n);
    }
  }

  lemma NoShift(w: World)
    ensures Shift(w, 0) == w
  {
  }

  lemma OneMore(w: World, step: Step, n: nat)
    requires n > 0
    ensures Exec(w, Repeat(step, n)) == Next(Exec(w, Repeat(step, n - 1)), step)
  {
    hide Next;
    assert Repeat(step, n)[..|Repeat(step, n)| - 1] == Repeat(step, n - 1);
  }

  lemma OneTake(w: World, n: nat)
    requires n > 0 && w.m.count + n <= w.m.cap
    ensures Next(Shift(w, n - 1), OthersTake) == Shift(w, n)
  {
  }

  lemma OneRelease(w: World, n: nat)
    requires 0 < n <= w.m.others
    ensures Next(Shift(w, 1 - (n as int)), OthersRelease) == Shift(w, -(n as int))
  {
  }

  /** What a stack goes through in a run of the system is a run of that stack alone, so that every
      theorem about runs of one stack holds for each stack of the system. */
  lemma {:induction false} OwnRun(stacks: seq<World>, run: seq<Move>, j: nat) returns (own: seq<Step>)
    requires SystemInit(stacks) && j < |stacks|
    ensures |SystemExec(stacks, run)| == |stacks|
    ensures SystemExec(stacks, run)[j] == Exec(stacks[j], own)
    decreases |run|
  {
    hide Next, Init, Inv, Exec;
    SameSize(stacks, run);
    if run == [] {
      own := [];
      EmptyRun(stacks[j]);
    } else {
      var front, move := run[..|run| - 1], run[|run| - 1];
      own := OwnRun(stacks, front, j);
      var before := SystemExec(stacks, front);
      var more := OwnSteps(stacks, run, j);
      ExecAppend(stacks[j], own, more);
      own := own + more;
    }
  }

  lemma EmptyRun(w: World)
    ensures Exec(w, []) == w
  {
  }

  /** The steps of stack j that the last move amounts to. */
  lemma OwnSteps(stacks: seq<World>, run: seq<Move>, j: nat) returns (more: seq<Step>)
    requires run != [] && SystemInit(stacks) && j < |stacks| == |SystemExec(stacks, run[..|run| - 1])|
    ensures |SystemExec(stacks, run)| == |stacks|
    ensures SystemExec(stacks, run)[j] == Exec(SystemExec(stacks, run[..|run| - 1])[j], more)
  {
    hide Next, Init, Inv, Exec, LiveStreams;
    var before, after := SystemExec(stacks, run[..|run| - 1]), SystemExec(stacks, run);
    var move := run[|run| - 1];
    SystemRunKeeps(stacks, run[..|run| - 1]);
    SystemRunKeeps(stacks, run);
    SameSize(stacks, run);
    EmptyRun(before[j]);
    if !Possible(before, move) {
      more := [];
    } else if j == move.stack {
      more := [move.step];
      OneStep(before[j], move.step);
    } else {
      var delta := Next(before[move.stack], move.step).m.count - before[move.stack].m.count;
      CountIsShared(before[j]);
      CountIsShared(after[j]);
      SameStreams(before[j], delta);
      if delta >= 0 {
        more := Repeat(OthersTake, delta);
        TakesShift(before[j], delta);
      } else {
        more := Repeat(OthersRelease, -delta);
        ReleasesShift(before[j], -delta);
      }
    }
  }

  lemma OneStep(w: World, step: Step)
    ensures Exec(w, [step]) == Next(w, step)
  {
    hide Next;
    assert [step][..0] == [];
  }
}
