/** What every action of the playout handshake keeps, and what follows for runs. */
module PlayoutInvariant {
  import opened Words
  import opened LossyQueue
  import opened PlayoutMachine

  function Requests(s: State): nat { |s.h.requests| }

  /** Controls in the socket or being worked on. */
  function Unanswered(s: State): nat {
    |s.controls| + if s.r.pc.Listening? || s.r.pc.Stopped? then 0 else 1
  }

  /** Replies are consecutive counters, the last being the latest answer. */
  ghost predicate RepliesOk(answered: nat, replies: seq<u32>) {
    && |replies| <= answered
    && forall i | 0 <= i < |replies| :: replies[i] == Wrap(answered - |replies| + 1 + i)
  }

  /** The counters on both sides, with lost controls and lost replies accounted for. */
  predicate CountersOk(s: State) {
    var replyLost := if s.r.pc.Stopped? && s.r.pc.replyLost then 1 else 0;
    && s.b.bufferIndex == Wrap(Requests(s))
    && s.r.bufferIndex == Wrap(s.h.answered + replyLost)
    && s.h.answered + replyLost + Unanswered(s) + s.h.failed == Requests(s)
  }

  /** The latest request went out, is not a pause, and no newer one is being written. */
  predicate Live(s: State) {
    s.h.requests != [] && s.h.lastSent && !s.b.pc.Requesting?
  }

  function Latest(s: State): Request
    requires s.h.requests != []
  {
    s.h.requests[Requests(s) - 1]
  }

  /** The last queued control is the latest request's. */
  predicate SignalsOk(s: State) {
    s.h.requests != [] && s.h.lastSent ==>
      && (s.controls != [] ==> s.controls[|s.controls| - 1] == Signal(Latest(s)))
      && (s.controls == [] && s.r.pc.Received? ==> s.r.pc.signal == Signal(Latest(s)))
      && (s.controls == [] && (s.r.pc.Skimmed? || s.r.pc.HasDelay? || s.r.pc.HasTimestamp? || s.r.pc.InRender?) ==>
            Signal(Latest(s)) == 0)
  }

  /** How far the renderer has come with the latest request. */
  predicate FreshOk(s: State) {
    Live(s) ==>
      var q := Latest(s);
      && s.shm.delay == q.delay && s.shm.timestamp == q.timestamp
      && (s.controls == [] && q.delay != MAX_DELAY ==>
            match s.r.pc
            case HasDelay(d) => d == q.delay
            case HasTimestamp(d, t) => d == q.delay && t == q.timestamp
            case InRender(d, t) => d == q.delay && t == q.timestamp && s.shm.audio == Rendering(d, t)
            case Replying => s.shm.audio == Rendered(q.delay, q.timestamp)
            case Listening => s.shm.audio == Rendered(q.delay, q.timestamp)
            case Stopped(false) => s.shm.audio == Rendered(q.delay, q.timestamp)
            case _ => true)
  }

  /** The writes of the request in progress made so far. */
  predicate WritingOk(s: State) {
    s.b.pc.Requesting? ==>
      && (s.b.pc.stage != AddSkipped && s.b.pc.stage != SetDelay ==> s.shm.delay == s.b.pc.request.delay)
      && (s.b.pc.stage == ZeroBegins || s.b.pc.stage == ZeroEnds || s.b.pc.stage == Sending ==>
            s.shm.timestamp == s.b.pc.request.timestamp)
  }

  ghost predicate MissesOk(b: Browser, misses: seq<bool>) {
    && b.missed == CountTrue(misses) && b.trailingMissed == TrailingTrue(misses)
    && b.callbacks == |misses| + if b.pc.Waiting? || b.pc.Ready? || b.pc.Missed? then 1 else 0
  }

  /** Every control was sent, answered and its answer read; the renderer is idle. */
  predicate Settled(s: State) {
    && s.h.failed == 0 && s.h.requests != [] && s.h.lastSent
    && s.controls == [] && s.replies == [] && s.h.answered == Requests(s)
    && (s.r.pc.Listening? || s.r.pc == Stopped(false))
  }

  predicate LastOk(h: History) {
    h.requests != [] && !h.lastSent ==> h.failed > 0
  }

  ghost predicate Inv(s: State) {
    && CountersOk(s) && RepliesOk(s.h.answered, s.replies) && SignalsOk(s) && FreshOk(s) && WritingOk(s)
    && MissesOk(s.b, s.h.misses) && LastOk(s.h)
    && (s.b.pc.Ready? && s.h.inWindow ==> Settled(s))
  }

  /** A matching reply taken within one lap of the counters is the reply to the latest
      request, and then nothing is lost, outstanding or in progress. */
  lemma MatchSettles(s: State)
    requires Inv(s) && s.b.pc.Waiting? && s.replies != [] && s.replies[0] == s.b.bufferIndex
    ensures Settled(DoReceiveReply(s)) <==> Lag(s) <= TWO32
  {
    RepliesTail(s.h.answered, s.replies);
    var k := s.h.answered - |s.replies| + 1;
    if Lag(s) <= TWO32 {
      WrapInjective(k, Requests(s));
    }
  }

  predicate OfBrowser(a: Action) {
    || a.BeginRequest? || a.RequestStep? || a.SendControl? || a.BeginRead? || a.ReceiveReply? || a.GiveUp?
    || a.FinishRead?
  }

  lemma ReceiveReplyKeeps(s: State)
    requires Inv(s) && s.b.pc.Waiting? && s.replies != []
    ensures Inv(DoReceiveReply(s))
  {
    hide Wrap, CountTrue, TrailingTrue;
    RepliesTail(s.h.answered, s.replies);
    if s.replies[0] == s.b.bufferIndex {
      MatchSettles(s);
    }
  }

  lemma FinishReadKeeps(s: State)
    requires Inv(s) && (s.b.pc.Ready? || s.b.pc.Missed?)
    ensures Inv(DoFinishRead(s))
  {
    hide Wrap;
    var s' := DoFinishRead(s);
    assert s'.h.misses[..|s'.h.misses| - 1] == s.h.misses;
  }

  lemma SendControlKeeps(s: State, ok: bool)
    requires Inv(s) && s.b.pc.Requesting? && s.b.pc.stage.Sending?
    ensures Inv(DoSendControl(s, ok))
  {
    hide Wrap, CountTrue, TrailingTrue;
    WrapNext(Requests(s));
  }

  lemma BrowserKeeps(s: State, a: Action)
    requires Inv(s) && OfBrowser(a)
    ensures Inv(Next(s, a))
  {
    hide Wrap, CountTrue, TrailingTrue;
    if Enabled(s, a) {
      match a
      case ReceiveReply => ReceiveReplyKeeps(s);
      case FinishRead => FinishReadKeeps(s);
      case SendControl(ok) => SendControlKeeps(s, ok);
      case _ =>
    }
  }

  lemma RendererKeeps(s: State, a: Action)
    requires Inv(s) && !OfBrowser(a)
    ensures Inv(Next(s, a))
  {
    hide Wrap, CountTrue, TrailingTrue;
    WrapNext(s.h.answered);
    if a.Reply? && Enabled(s, a) && a.ok {
      RepliesAppend(s.h.answered, s.replies);
    }
  }

  lemma StepKeeps(s: State, a: Action)
    requires Inv(s)
    ensures Inv(Next(s, a))
  {
    hide Inv, Next;
    if OfBrowser(a) {
      BrowserKeeps(s, a);
    } else {
      RendererKeeps(s, a);
    }
  }

  lemma RepliesTail(answered: nat, replies: seq<u32>)
    requires RepliesOk(answered, replies) && replies != []
    ensures replies[0] == Wrap(answered - |replies| + 1)
    ensures RepliesOk(answered, replies[1..])
  {
    assert replies[0] == Wrap(answered - |replies| + 1 + 0);
    forall i | 0 <= i < |replies[1..]| ensures replies[1..][i] == Wrap(answered - |replies[1..]| + 1 + i) {
      assert replies[1..][i] == replies[i + 1];
    }
  }

  lemma RepliesAppend(answered: nat, replies: seq<u32>)
    requires RepliesOk(answered, replies)
    ensures RepliesOk(answered + 1, replies + [Wrap(answered + 1)])
  {
  }

  /** The invariant holds in every state of every run. */
  lemma {:induction false} RunKeeps(s: State, run: seq<Action>)
    requires Init(s)
    ensures Inv(Exec(s, run))
    decreases |run|
  {
    if run != [] {
      RunKeeps(s, run[..|run| - 1]);
      StepKeeps(Exec(s, run[..|run| - 1]), run[|run| - 1]);
    }
  }

  // --------------------------------------------------------------- promises

  /** When the wait ends on a matching reply: exactly if no more than 2^32 requests were
      lost, unanswered or unread before it, no control was ever lost, every request is
      answered and the renderer is idle; and then, unless the latest request was the pause
      signal, shared memory holds the complete result of the Render() called for it. */
  lemma PlayoutFreshness(s0: State, run: seq<Action>)
    requires Init(s0)
    requires var s := Exec(s0, run); s.b.pc.Waiting? && s.replies != [] && s.replies[0] == s.b.bufferIndex
    ensures var s := Exec(s0, run); var s' := Next(s, ReceiveReply);
            && s'.b.pc.Ready?
            && (Lag(s) <= TWO32 <==> Settled(s'))
            && (Lag(s) <= TWO32 && Latest(s').delay != MAX_DELAY ==>
                  s'.shm.audio == Rendered(Latest(s').delay, Latest(s').timestamp))
  {
    var s := Exec(s0, run);
    RunKeeps(s0, run);
    MatchSettles(s);
    StepKeeps(s, ReceiveReply);
  }

  /** What Read() puts out. Silence if the wait failed. Otherwise, for PCM, silence exactly when
      muted; for a compressed bitstream, whatever `muted` is, silence exactly when the declared size
      exceeds the bus or the frame count exceeds an int; and else what shared memory holds, which is
      the latest request's Render(). */
  lemma ReadIsFreshOrSilent(s0: State, run: seq<Action>)
    requires Init(s0)
    requires Exec(s0, run).b.pc.Ready? || Exec(s0, run).b.pc.Missed?
    ensures var s := Exec(s0, run); var out := Next(s, FinishRead).b.output;
            var impossible := s.shm.bitstreamDataSize > s.cfg.busBytes || s.shm.bitstreamFrames > 0x7FFF_FFFF;
            && (s.b.pc.Missed? ==> out == Silence)
            && (s.b.pc.Ready? && !s.cfg.bitstream ==> out == if s.cfg.muted then Silence else s.shm.audio)
            && (s.b.pc.Ready? && s.cfg.bitstream ==> out == if impossible then Silence else s.shm.audio)
            && (s.b.pc.Ready? && s.h.inWindow && s.h.requests != [] && Latest(s).delay != MAX_DELAY ==>
                  Settled(s) && s.shm.audio == Rendered(Latest(s).delay, Latest(s).timestamp))
  {
    RunKeeps(s0, run);
  }

  /** Reader index minus renderer index is the number of unanswered plus lost controls,
      pause signals included; queued replies are consecutive and end at the latest answer. */
  lemma PlayoutAccounting(s0: State, run: seq<Action>)
    requires Init(s0)
    ensures var s := Exec(s0, run);
            && s.b.bufferIndex == Wrap(s.r.bufferIndex + Unanswered(s) + s.h.failed)
            && (forall i | 0 <= i < |s.replies| - 1 :: s.replies[i + 1] == Wrap(s.replies[i] as nat + 1))
            && (s.replies != [] ==> s.replies[|s.replies| - 1] == Wrap(s.h.answered))
  {
    hide Wrap, Next;
    var s := Exec(s0, run);
    RunKeeps(s0, run);
    WrapAdd(s.h.answered + (if s.r.pc.Stopped? && s.r.pc.replyLost then 1 else 0), Unanswered(s) + s.h.failed);
    forall i | 0 <= i < |s.replies| - 1 ensures s.replies[i + 1] == Wrap(s.replies[i] as nat + 1) {
      WrapNext(s.h.answered - |s.replies| + 1 + i);
      assert s.replies[i + 1] == Wrap(s.h.answered - |s.replies| + 1 + (i + 1));
    }
  }

  /** Missed reads are counted one by one, and the reported percentage lies in 0..100. */
  lemma MissCounting(s0: State, run: seq<Action>)
    requires Init(s0)
    ensures var b := Exec(s0, run).b; var misses := Exec(s0, run).h.misses;
            && b.missed == CountTrue(misses) && b.trailingMissed == TrailingTrue(misses)
            && CanTrim(b) && b.missed <= b.callbacks
            && (b.callbacks > b.trailingMissed ==> 0 <= PercentageMissed(b) <= 100)
  {
    hide Next;
    var s := Exec(s0, run);
    RunKeeps(s0, run);
    TrailingBounded(s.h.misses);
    if s.b.callbacks > s.b.trailingMissed {
      Percentage(s.b.missed - s.b.trailingMissed, s.b.callbacks - s.b.trailingMissed);
    }
  }

  lemma Percentage(part: nat, whole: nat)
    requires part <= whole && 0 < whole
    ensures 0 <= 100 * part / whole <= 100
  {
    var q := 100 * part / whole;
    assert (q - 100) * whole <= 0;
    NotPositive(q - 100, whole);
  }

  lemma NotPositive(x: int, y: nat)
    requires 0 < y && x * y <= 0
    ensures x <= 0
  {
  }

  /** Receiving until a match: a matching reply anywhere in the queue is reached, and the
      replies before it are discarded. */
  lemma {:induction false} WaitReaches(s: State, j: nat)
    requires s.b.pc.Waiting? && j < |s.replies| && s.replies[j] == s.b.bufferIndex
    requires forall i | 0 <= i < j :: s.replies[i] != s.b.bufferIndex
    ensures var s' := Exec(s, seq(j + 1, _ => ReceiveReply));
            s'.b.pc.Ready? && s'.replies == s.replies[j + 1..]
    decreases j
  {
    var turns := seq(j + 1, _ => ReceiveReply);
    WaitDiscards(s, j);
    assert turns[..j] == seq(j, _ => ReceiveReply);
  }

  lemma {:induction false} WaitDiscards(s: State, j: nat)
    requires s.b.pc.Waiting? && j <= |s.replies|
    requires forall i | 0 <= i < j :: s.replies[i] != s.b.bufferIndex
    ensures var s' := Exec(s, seq(j, _ => ReceiveReply));
            s'.b.pc.Waiting? && s'.replies == s.replies[j..] && s'.b.bufferIndex == s.b.bufferIndex
    decreases j
  {
    if j > 0 {
      WaitDiscards(s, j - 1);
      assert seq(j, _ => ReceiveReply)[..j - 1] == seq(j - 1, _ => ReceiveReply);
    }
  }
}
