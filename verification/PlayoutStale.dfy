/** Why freshness needs fewer than one lap of outstanding requests: after exactly
    2^32 lost controls the counters agree again, and a reply from long ago is
    taken for the latest request's. */
module PlayoutStale {
  import opened Words
  import opened PlayoutMachine
  import opened PlayoutInvariant

  lemma {:induction false} ExecAppend(s: State, a: seq<Action>, b: seq<Action>)
    ensures Exec(s, a + b) == Exec(Exec(s, a), b)
    decreases |b|
  {
    if b == [] {
      assert a + b == a;
    } else {
      var last := |b| - 1;
      ExecAppend(s, a, b[..last]);
      assert (a + b)[..|a + b| - 1] == a + b[..last];
    }
  }

  /** A call of RequestMoreData() whose control is sent or lost. */
  function Call(q: Request, ok: bool): seq<Action> {
    [BeginRequest(q), RequestStep, RequestStep, RequestStep, RequestStep, RequestStep, SendControl(ok)]
  }

  /** The renderer answers one control. */
  function Answer(): seq<Action> {
    ReadRequest() + RenderAndReply()
  }

  function ReadRequest(): seq<Action> {
    [Receive, TakeSkipped, ReadDelay, ReadTimestamp]
  }

  function RenderAndReply(): seq<Action> {
    [RenderBegins, RenderEnds(0, 0), Reply(true)]
  }

  function LostCalls(q: Request, n: nat): seq<Action> {
    if n == 0 then [] else LostCalls(q, n - 1) + Call(q, false)
  }

  /** A sequence of states, each the successor of the one before. */
  lemma {:induction false} Trace(run: seq<Action>, states: seq<State>)
    requires |states| == |run| + 1
    requires forall i | 0 <= i < |run| :: states[i + 1] == Next(states[i], run[i])
    ensures Exec(states[0], run) == states[|run|]
    decreases |run|
  {
    if run != [] {
      var last := |run| - 1;
      hide Next;
      Trace(run[..last], states[..last + 1]);
    }
  }

  lemma CallEffect(s: State, q: Request, ok: bool)
    requires s.b.pc.Idle?
    ensures var t := Exec(s, Call(q, ok));
            && t.b == s.b.(bufferIndex := Wrap(s.b.bufferIndex + 1))
            && t.controls == (if ok then s.controls + [Signal(q)] else s.controls)
            && t.replies == s.replies && t.r == s.r && t.cfg == s.cfg
            && t.shm.audio == Silence && t.shm.delay == q.delay && t.shm.timestamp == q.timestamp
            && t.h == s.h.(requests := s.h.requests + [q], sent := if ok then s.h.sent + [q] else s.h.sent, lastSent := ok,
                         failed := s.h.failed + if ok then 0 else 1)
  {
    hide Wrap;
    var s1 := Next(s, BeginRequest(q));
    var s2 := Next(s1, RequestStep);
    var s3 := Next(s2, RequestStep);
    var s4 := Next(s3, RequestStep);
    assert s4.b == s.b.(pc := Requesting(q, ZeroBegins)) && s4.shm.delay == q.delay && s4.shm.timestamp == q.timestamp;
    var s5 := Next(s4, RequestStep);
    var s6 := Next(s5, RequestStep);
    assert s6.b == s.b.(pc := Requesting(q, Sending)) && s6.shm.audio == Silence;
    var s7 := Next(s6, SendControl(ok));
    hide Next;
    Trace(Call(q, ok), [s, s1, s2, s3, s4, s5, s6, s7]);
  }

  lemma {:induction false} LostCallsEffect(s: State, q: Request, n: nat)
    requires s.b.pc.Idle? && s.b.bufferIndex == 1
    ensures var t := Exec(s, LostCalls(q, n));
            && t.b == s.b.(bufferIndex := Wrap(n + 1)) && t.replies == s.replies
            && t.h.failed == s.h.failed + n
            && (n > 0 ==> t.shm.audio == Silence && t.h.requests != [] && Latest(t) == q)
  {
    hide Wrap;
    if n == 0 {
      WrapSmall(1);
    } else {
      LostCallsEffect(s, q, n - 1);
      ExecAppend(s, LostCalls(q, n - 1), Call(q, false));
      CallEffect(Exec(s, LostCalls(q, n - 1)), q, false);
      WrapNext(n);
    }
  }

  lemma ReadRequestEffect(s: State)
    requires s.r.bufferIndex == 0 && s.r.pc.Listening? && s.controls == [0]
    ensures var t := Exec(s, ReadRequest());
            && t.b == s.b && t.replies == s.replies && t.h == s.h
            && t.r.bufferIndex == 0 && t.r.pc == HasTimestamp(s.shm.delay, s.shm.timestamp)
  {
    hide Wrap;
    var s1 := Next(s, Receive);
    var s2 := Next(s1, TakeSkipped);
    assert s2.r.bufferIndex == 0 && s2.r.pc == Skimmed && s2.b == s.b && s2.h == s.h;
    var s3 := Next(s2, ReadDelay);
    var s4 := Next(s3, ReadTimestamp);
    hide Next;
    Trace(ReadRequest(), [s, s1, s2, s3, s4]);
  }

  lemma RenderAndReplyEffect(s: State)
    requires s.r.bufferIndex == 0 && s.r.pc.HasTimestamp? && s.replies == []
    ensures var t := Exec(s, RenderAndReply()); t.b == s.b && t.replies == [1] && t.h.failed == s.h.failed
  {
    hide Wrap;
    WrapSmall(1);
    var s1 := Next(s, RenderBegins);
    assert s1.r.pc.InRender? && s1.r.bufferIndex == 0 && s1.b == s.b && s1.h == s.h;
    var s2 := Next(s1, RenderEnds(0, 0));
    assert s2.r.bufferIndex == 0 && s2.r.pc == Replying && s2.b == s.b && s2.h == s.h && s2.replies == [];
    var s3 := Next(s2, Reply(true));
    hide Next;
    Trace(RenderAndReply(), [s, s1, s2, s3]);
  }

  lemma AnswerEffect(s: State)
    requires s.r.bufferIndex == 0 && s.r.pc.Listening? && s.controls == [0] && s.replies == []
    ensures var t := Exec(s, Answer()); t.b == s.b && t.replies == [1] && t.h.failed == s.h.failed
  {
    hide Exec, ReadRequest, RenderAndReply;
    ReadRequestEffect(s);
    RenderAndReplyEffect(Exec(s, ReadRequest()));
    ExecAppend(s, ReadRequest(), RenderAndReply());
  }

  /** The run: one request is answered but not read, 2^32 later ones are lost, then Read() waits. */
  function StaleRun(q: Request): seq<Action> {
    Call(q, true) + Answer() + LostCalls(q, TWO32) + [BeginRead]
  }

  /** The wait then succeeds although every later control was lost and the buffer holds silence
      instead of the latest request's audio. */
  lemma StaleMatch(s: State, q: Request)
    requires Init(s) && q.delay != MAX_DELAY
    ensures var t := Exec(s, StaleRun(q));
            && t.b.pc.Waiting? && t.replies != [] && t.replies[0] == t.b.bufferIndex && t.h.failed == TWO32
    ensures var u := Next(Exec(s, StaleRun(q)), ReceiveReply);
            && u.b.pc.Ready? && !Settled(u) && u.h.requests != [] && Latest(u) == q
            && u.shm.audio == Silence
  {
    hide Wrap, Exec, LostCalls;
    var a, b, c := Call(q, true), Answer(), LostCalls(q, TWO32);
    WrapSmall(1);
    CallEffect(s, q, true);
    var s1 := Exec(s, a);
    AnswerEffect(s1);
    ExecAppend(s, a, b);
    var s2 := Exec(s, a + b);
    LostCallsEffect(s2, q, TWO32);
    ExecAppend(s, a + b, c);
    WrapLap();
    ExecSnoc(s, a + b + c, BeginRead);
  }

  lemma WrapLap()
    ensures Wrap(TWO32 + 1) == 1
  {
  }
}
