/** What the renderer is asked to do over whole runs of the playout handshake: one
    Render() for each control that is not the pause signal, with every skipped
    frame handed over, and a bitstream's sizes left for the browser. */
module PlayoutRenders {
  import opened Words
  import opened PlayoutMachine
  import opened PlayoutInvariant

  /** Requests that are not for the pause signal. */
  function NonPause(requests: seq<Request>): nat {
    if requests == [] then 0
    else NonPause(requests[..|requests| - 1]) + if requests[|requests| - 1].delay == MAX_DELAY then 0 else 1
  }

  function RequestedSkips(requests: seq<Request>): nat {
    if requests == [] then 0 else RequestedSkips(requests[..|requests| - 1]) + requests[|requests| - 1].skipped
  }

  function HandedSkips(renders: seq<RenderCall>): nat {
    if renders == [] then 0 else HandedSkips(renders[..|renders| - 1]) + renders[|renders| - 1].skipped
  }

  /** A request whose skipped frames are already in shared memory, but whose control is not out. */
  function UnsentSkips(b: Browser): nat {
    if b.pc.Requesting? && b.pc.stage != AddSkipped then b.pc.request.skipped else 0
  }

  /** Skipped frames that Process() has taken and not yet handed to Render(). */
  function TakenSkips(r: Renderer): nat {
    if r.pc.Skimmed? || r.pc.HasDelay? || r.pc.HasTimestamp? then r.skipped else 0
  }

  /** A control that is being handled and will lead to a call of Render(). */
  function ToRender(r: Renderer): nat {
    if (r.pc.Received? && r.pc.signal != 0xFFFF_FFFF) || r.pc.Skimmed? || r.pc.HasDelay? || r.pc.HasTimestamp? then 1 else 0
  }

  function SignalFor(q: Request): u32 {
    if q.delay == 0x7FFF_FFFF_FFFF_FFFF then 0xFFFF_FFFF else 0
  }

  /** The queued controls are those of the requests sent and not yet handled. */
  ghost predicate Queued(handled: nat, controls: seq<u32>, sent: seq<Request>) {
    && handled + |controls| == |sent|
    && forall i | 0 <= i < |controls| :: controls[i] == SignalFor(sent[handled + i])
  }

  ghost predicate ControlsOk(s: State) {
    && Queued(s.g.handled, s.controls, s.h.sent)
    && |s.h.sent| + s.h.failed == |s.h.requests|
    && (s.r.pc.Received? ==> s.g.handled > 0 && s.r.pc.signal == SignalFor(s.h.sent[s.g.handled - 1]))
    && |s.g.renders| + ToRender(s.r) == NonPause(s.h.sent[..s.g.handled])
  }

  ghost predicate SkipsOk(s: State) {
    Wrap(HandedSkips(s.g.renders) + TakenSkips(s.r) + s.shm.framesSkipped) ==
      Wrap(RequestedSkips(s.h.requests) + UnsentSkips(s.b))
  }

  ghost predicate SizesOk(s: State) {
    && (s.shm.audio.Rendered? ==> s.g.declared != [])
    && (s.cfg.bitstream && s.g.declared != [] ==>
          (s.shm.bitstreamDataSize, s.shm.bitstreamFrames) == s.g.declared[|s.g.declared| - 1])
  }

  lemma Sums(requests: seq<Request>, q: Request, renders: seq<RenderCall>, c: RenderCall)
    ensures RequestedSkips(requests + [q]) == RequestedSkips(requests) + q.skipped
    ensures NonPause(requests + [q]) == NonPause(requests) + if q.delay == MAX_DELAY then 0 else 1
    ensures HandedSkips(renders + [c]) == HandedSkips(renders) + c.skipped
  {
    assert (requests + [q])[..|requests|] == requests && (renders + [c])[..|renders|] == renders;
  }

  lemma SendQueues(handled: nat, controls: seq<u32>, sent: seq<Request>, q: Request)
    requires Queued(handled, controls, sent)
    ensures Queued(handled, controls + [SignalFor(q)], sent + [q])
    ensures (sent + [q])[..handled] == sent[..handled]
    ensures handled > 0 ==> (sent + [q])[handled - 1] == sent[handled - 1]
  {
  }

  lemma ReceiveTakes(handled: nat, controls: seq<u32>, sent: seq<Request>)
    requires Queued(handled, controls, sent) && controls != []
    ensures Queued(handled + 1, controls[1..], sent) && controls[0] == SignalFor(sent[handled])
    ensures NonPause(sent[..handled + 1]) == NonPause(sent[..handled]) + if controls[0] == 0xFFFF_FFFF then 0 else 1
  {
    assert controls[0] == SignalFor(sent[handled + 0]);
    assert sent[..handled + 1] == sent[..handled] + [sent[handled]];
    Sums(sent[..handled], sent[handled], [], RenderCall(0, 0, 0));
    forall i | 0 <= i < |controls[1..]| ensures controls[1..][i] == SignalFor(sent[handled + 1 + i]) {
      assert controls[1..][i] == controls[i + 1];
    }
  }

  lemma ControlsKept(s: State, a: Action)
    requires ControlsOk(s)
    ensures ControlsOk(Next(s, a))
  {
    hide Wrap, NonPause, Queued, SignalFor;
    QueuedCount(s.g.handled, s.controls, s.h.sent);
    if Enabled(s, a) {
      if a.SendControl? && a.ok {
        SendQueues(s.g.handled, s.controls, s.h.sent, s.b.pc.request);
        SameSignal(s.b.pc.request);
      } else if a.Receive? {
        ReceiveTakes(s.g.handled, s.controls, s.h.sent);
      }
    }
  }

  lemma QueuedCount(handled: nat, controls: seq<u32>, sent: seq<Request>)
    requires Queued(handled, controls, sent)
    ensures handled + |controls| == |sent|
  {
  }

  lemma SameSignal(q: Request)
    ensures Signal(q) == SignalFor(q)
  {
  }

  lemma SkipsKept(s: State, a: Action)
    requires SkipsOk(s)
    ensures SkipsOk(Next(s, a))
  {
    hide Wrap, RequestedSkips, HandedSkips;
    var s' := Next(s, a);
    if Enabled(s, a) {
      if a.RequestStep? && s.b.pc.stage.AddSkipped? {
        var handed, k := HandedSkips(s.g.renders) + TakenSkips(s.r), s.b.pc.request.skipped;
        MoreSkips(handed, s.shm.framesSkipped, RequestedSkips(s.h.requests), k);
      } else if a.SendControl? {
        Sums(s.h.requests, s.b.pc.request, [], RenderCall(0, 0, 0));
      } else if a.RenderBegins? {
        Sums([], Request(0, 0, 0), s.g.renders, RenderCall(s.r.pc.delay, s.r.pc.timestamp, s.r.skipped));
      }
    }
  }

  lemma MoreSkips(handed: nat, stored: u32, requested: nat, k: nat)
    requires Wrap(handed + stored) == Wrap(requested)
    ensures Wrap(handed + Wrap(stored + k)) == Wrap(requested + k)
  {
    hide Wrap;
    WrapAdd(stored + k, handed);
    WrapAdd(handed + stored, k);
    WrapAdd(requested, k);
  }

  lemma SizesKept(s: State, a: Action)
    requires SizesOk(s)
    ensures SizesOk(Next(s, a))
  {
    hide Wrap;
  }

  lemma {:induction false} RunRenders(s0: State, run: seq<Action>)
    requires Init(s0)
    ensures var s := Exec(s0, run); ControlsOk(s) && SkipsOk(s) && SizesOk(s)
    decreases |run|
  {
    hide Next, Wrap;
    if run == [] {
      assert s0.h.sent[..0] == [];
    } else {
      var s, a := Exec(s0, run[..|run| - 1]), run[|run| - 1];
      RunRenders(s0, run[..|run| - 1]);
      ControlsKept(s, a);
      SkipsKept(s, a);
      SizesKept(s, a);
    }
  }

  /** Each control in the socket is the pause signal exactly if its request asked for it, and Render()
      has been called once for each control received that is not the pause signal, but for the one
      that may be in hand; never for a pause. */
  lemma RenderPerControl(s0: State, run: seq<Action>)
    requires Init(s0)
    ensures var s := Exec(s0, run);
            && s.g.handled + |s.controls| == |s.h.sent|
            && (forall i | 0 <= i < |s.controls| ::
                  s.controls[i] == 0xFFFF_FFFF <==> s.h.sent[s.g.handled + i].delay == 0x7FFF_FFFF_FFFF_FFFF)
            && |s.g.renders| <= NonPause(s.h.sent[..s.g.handled]) <= |s.g.renders| + 1
            && (s.r.pc.Listening? ==> |s.g.renders| == NonPause(s.h.sent[..s.g.handled]))
  {
    hide Next, Exec, Init;
    RunRenders(s0, run);
  }

  /** Skipped frames add up: what Render() was told so far, what Process() has taken, and what is in
      shared memory make all that was reported, modulo 2^32. */
  lemma SkipsConserved(s0: State, run: seq<Action>)
    requires Init(s0)
    ensures var s := Exec(s0, run);
            (HandedSkips(s.g.renders) + TakenSkips(s.r) + s.shm.framesSkipped) % 0x1_0000_0000 ==
            (RequestedSkips(s.h.requests) + UnsentSkips(s.b)) % 0x1_0000_0000
  {
    hide Next, Exec, Init;
    RunRenders(s0, run);
  }

  /** For a bitstream, shared memory declares the sizes that the latest Render() returned with. */
  lemma SizesAreLatest(s0: State, run: seq<Action>)
    requires Init(s0) && Exec(s0, run).cfg.bitstream
    requires Exec(s0, run).g.declared != [] || Exec(s0, run).shm.audio.Rendered?
    ensures var s := Exec(s0, run);
            s.g.declared != [] && (s.shm.bitstreamDataSize, s.shm.bitstreamFrames) == s.g.declared[|s.g.declared| - 1]
  {
    hide Next, Exec, Init;
    RunRenders(s0, run);
  }
}
