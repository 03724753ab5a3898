/** AudioSyncReader and the renderer's audio thread in their imperative form.
    Between any two accesses to shared state, Interfere() lets the renderer take
    any number of steps; every object's life is a run of PlayoutMachine. */
module PlayoutReader {
  import opened Words
  import opened PlayoutMachine
  import opened PlayoutInvariant

  /** The shared AudioOutputBuffer. */
  class OutputMemory {
    var framesSkipped: u32
    var delay: int
    var timestamp: int
    var bitstreamDataSize: u32
    var bitstreamFrames: u32
    var audio: Audio

    constructor ()
      ensures View() == SharedBuffer(0, 0, 0, 0, 0, Silence)
    {
      framesSkipped, delay, timestamp, bitstreamDataSize, bitstreamFrames, audio := 0, 0, 0, 0, 0, Silence;
    }

    ghost function View(): SharedBuffer
      reads this
    {
      SharedBuffer(framesSkipped, delay, timestamp, bitstreamDataSize, bitstreamFrames, audio)
    }
  }

  /** AudioDeviceThread running AudioOutputDeviceThreadCallback. */
  class RenderThread {
    var bufferIndex: u32
    var pc: RendererPc
    var framesSkipped: u32

    constructor ()
      ensures bufferIndex == 0 && pc == Listening && framesSkipped == 0
    {
      bufferIndex, pc, framesSkipped := 0, Listening, 0;
    }
  }

  class SyncReader {
    const memory: OutputMemory
    const renderer: RenderThread
    const cfg: Config
    const maximumWait: int

    var controls: seq<u32>
    var replies: seq<u32>
    var closed: bool
    var clock: int

    var bufferIndex: u32
    var callbackCount: nat
    var missedCount: nat
    var trailingMissedCount: nat
    var output: Audio

    ghost var pc: BrowserPc
    ghost var h: History
    ghost var g: RenderLog
    ghost var start: State
    ghost var run: seq<Action>

    ghost function View(): State
      reads this, memory, renderer
    {
      State(cfg, Browser(bufferIndex, callbackCount, missedCount, trailingMissedCount, pc, output),
            memory.View(), controls, replies, Renderer(renderer.bufferIndex, renderer.pc, renderer.framesSkipped), h, g)
    }

    ghost predicate Valid()
      reads this, memory, renderer
    {
      Init(start) && View() == Exec(start, run)
    }

    constructor (cfg: Config, maximumWait: int, now: int)
      ensures Valid() && pc.Idle?
    {
      this.cfg, this.maximumWait := cfg, maximumWait;
      memory := new OutputMemory();
      renderer := new RenderThread();
      controls, replies, closed, clock := [], [], false, now;
      bufferIndex, callbackCount, missedCount, trailingMissedCount, output := 0, 0, 0, 0, Silence;
      pc, h, run := Idle, History([], [], 0, false, 0, [], false), [];
      g := RenderLog(0, [], []);
      new;
      start := View();
    }

    ghost method Took(before: State, a: Action)
      requires Init(start) && before == Exec(start, run) && View() == Next(before, a)
      modifies this`run
      ensures Valid() && run == old(run) + [a]
    {
      hide Exec, Init, Next;
      ExecSnoc(start, run, a);
      run := run + [a];
    }

    // -------------------------------------------------- the renderer's thread

    /** One step of ThreadMain() and AudioOutputDeviceThreadCallback::Process(). */
    method RendererStep(choice: bool, dataSize: u32, frames: u32)
      requires Valid()
      modifies this`controls, this`replies, this`h, this`g, this`run, memory, renderer
      ensures Valid() && View().b == old(View().b) && h == old(h).(answered := h.answered)
      ensures |replies| + Unanswered(View()) <= old(|replies| + Unanswered(View()))
    {
      hide Exec, Init, Wrap, Next;
      match renderer.pc
      case Listening => ListenStep(choice);
      case Received(signal) =>
        if signal != MAX32 {
          TakeFramesSkipped();
        } else {
          SendReply(choice);
        }
      case Replying => SendReply(choice);
      case Stopped(_) =>
      case _ => ProcessStep(dataSize, frames);
    }

    /** The blocking receive, or the end of the thread. */
    method ListenStep(choice: bool)
      requires Valid() && renderer.pc.Listening?
      modifies this`controls, this`g, this`run, renderer
      ensures Valid()
      ensures Unanswered(View()) == old(Unanswered(View()))
    {
      hide Exec, Init, Wrap;
      ghost var before := View();
      if choice && controls != [] {
        renderer.pc := Received(controls[0]);
        controls := controls[1..];
        g := g.(handled := g.handled + 1);
        Took(before, Receive);
      } else if !choice {
        renderer.pc := Stopped(false);
        Took(before, Stop);
      }
    }

    method TakeFramesSkipped()
      requires Valid() && renderer.pc.Received? && renderer.pc.signal != MAX32
      modifies this`run, memory, renderer
      ensures Valid() && Unanswered(View()) == old(Unanswered(View()))
    {
      hide Exec, Init, Wrap;
      ghost var before := View();
      renderer.framesSkipped := memory.framesSkipped;
      memory.framesSkipped := 0;
      renderer.pc := Skimmed;
      Took(before, TakeSkipped);
    }

    /** Process() reads the parameters and calls Render(). */
    method ProcessStep(dataSize: u32, frames: u32)
      requires Valid()
      requires renderer.pc.Skimmed? || renderer.pc.HasDelay? || renderer.pc.HasTimestamp? || renderer.pc.InRender?
      modifies this`g, this`run, memory, renderer
      ensures Valid() && Unanswered(View()) == old(Unanswered(View()))
    {
      hide Exec, Init, Wrap;
      ghost var before := View();
      match renderer.pc
      case Skimmed =>
        renderer.pc := HasDelay(memory.delay);
        Took(before, ReadDelay);
      case HasDelay(delay) =>
        renderer.pc := HasTimestamp(delay, memory.timestamp);
        Took(before, ReadTimestamp);
      case HasTimestamp(delay, timestamp) =>
        memory.audio := Rendering(delay, timestamp);
        renderer.pc := InRender(delay, timestamp);
        g := g.(renders := g.renders + [RenderCall(delay, timestamp, renderer.framesSkipped)]);
        Took(before, RenderBegins);
      case InRender(delay, timestamp) =>
        FinishRender(delay, timestamp, dataSize, frames);
    }

    /** Render() returns; for a bitstream its size and frame count go to shared memory. */
    method FinishRender(delay: int, timestamp: int, dataSize: u32, frames: u32)
      requires Valid() && renderer.pc == InRender(delay, timestamp)
      modifies this`g, this`run, memory, renderer
      ensures Valid() && Unanswered(View()) == old(Unanswered(View()))
    {
      hide Exec, Init, Wrap;
      ghost var before := View();
      memory.audio := if memory.audio == Rendering(delay, timestamp) then Rendered(delay, timestamp) else Mixed;
      if cfg.bitstream {
        memory.bitstreamDataSize, memory.bitstreamFrames := dataSize, frames;
      }
      renderer.pc := Replying;
      g := g.(declared := g.declared + [(dataSize, frames)]);
      Took(before, RenderEnds(dataSize, frames));
    }

    method SendReply(ok: bool)
      requires Valid() && (renderer.pc.Replying? || (renderer.pc.Received? && renderer.pc.signal == MAX32))
      modifies this`replies, this`h, this`run, renderer
      ensures Valid() && h == old(h).(answered := h.answered)
      ensures |replies| + Unanswered(View()) <= old(|replies| + Unanswered(View()))
    {
      hide Exec, Init, Wrap;
      ghost var before := View();
      renderer.bufferIndex := Wrap(renderer.bufferIndex + 1);
      if ok {
        replies := replies + [renderer.bufferIndex];
        renderer.pc := Listening;
        h := h.(answered := h.answered + 1);
      } else {
        renderer.pc := Stopped(true);
      }
      Took(before, Reply(ok));
    }

    /** Any number of renderer steps; another thread may close the socket meanwhile. */
    method Interfere()
      requires Valid()
      modifies this`controls, this`replies, this`closed, this`h, this`g, this`run, memory, renderer
      ensures Valid() && View().b == old(View().b) && h == old(h).(answered := h.answered)
      ensures |replies| + Unanswered(View()) <= old(|replies| + Unanswered(View()))
      ensures old(closed) ==> closed
    {
      hide Exec, Init, Next;
      var steps: nat := *;
      while steps > 0
        invariant Valid() && View().b == old(View().b) && h == old(h).(answered := h.answered)
        invariant |replies| + Unanswered(View()) <= old(|replies| + Unanswered(View()))
        invariant old(closed) ==> closed
      {
        steps := steps - 1;
        var choice: bool, closing: bool, dataSize: u32, frames: u32 := *, *, *, *;
        if closing {
          Close();
        } else {
          RendererStep(choice, dataSize, frames);
        }
      }
    }

    // ------------------------------------------------------------ the browser

    method RequestMoreData(delay: int, timestamp: int, priorFramesSkipped: nat)
      requires Valid() && pc.Idle?
      modifies this, memory, renderer
      ensures Valid() && pc.Idle?
      ensures h.requests == old(h.requests) + [Request(delay, timestamp, priorFramesSkipped)]
      ensures bufferIndex == Wrap(old(bufferIndex) + 1)
      ensures callbackCount == old(callbackCount) && missedCount == old(missedCount)
    {
      hide Exec, Init, Wrap;
      ghost var q := Request(delay, timestamp, priorFramesSkipped);
      StoreRequest(delay, timestamp, priorFramesSkipped);
      Interfere();
      var control: u32 := if delay == MAX_DELAY then MAX32 else 0;
      var ok: bool := *;
      ok := ok && !closed;
      ghost var before := View();
      if ok {
        controls := controls + [control];
      }
      bufferIndex := Wrap(bufferIndex + 1);
      pc := Idle;
      h := h.(requests := h.requests + [q], sent := if ok then h.sent + [q] else h.sent, lastSent := ok,
              failed := if ok then h.failed else h.failed + 1);
      Took(before, SendControl(ok));
    }

    /** The parameters and the zeroed bus, each write open to interference. */
    method StoreRequest(delay: int, timestamp: int, priorFramesSkipped: nat)
      requires Valid() && pc.Idle?
      modifies this, memory, renderer
      ensures Valid() && pc == Requesting(Request(delay, timestamp, priorFramesSkipped), Sending)
      ensures View().b == old(View().b).(pc := pc) && h == old(h).(answered := h.answered)
    {
      hide Exec, Init, Wrap, Next, Unanswered;
      ghost var q := Request(delay, timestamp, priorFramesSkipped);
      AddSkippedFrames(q, priorFramesSkipped);
      Interfere();
      StoreTimes(q, delay, timestamp);
      Interfere();
      ZeroBus(q);
    }

    method AddSkippedFrames(ghost q: Request, priorFramesSkipped: nat)
      requires Valid() && pc.Idle? && q.skipped == priorFramesSkipped
      modifies this, memory, renderer
      ensures Valid() && pc == Requesting(q, SetDelay)
      ensures View().b == old(View().b).(pc := pc) && h == old(h).(answered := h.answered)
    {
      hide Exec, Init, Wrap, Unanswered;
      ghost var before := View();
      pc := Requesting(q, AddSkipped);
      Took(before, BeginRequest(q));
      Interfere();
      before := View();
      memory.framesSkipped := Wrap(memory.framesSkipped + priorFramesSkipped);
      pc := Requesting(q, SetDelay);
      Took(before, RequestStep);
    }

    method StoreTimes(ghost q: Request, delay: int, timestamp: int)
      requires Valid() && pc == Requesting(q, SetDelay) && q.delay == delay && q.timestamp == timestamp
      modifies this, memory, renderer
      ensures Valid() && pc == Requesting(q, ZeroBegins)
      ensures View().b == old(View().b).(pc := pc) && h == old(h).(answered := h.answered)
    {
      hide Exec, Init, Wrap, Unanswered;
      ghost var before := View();
      memory.delay := delay;
      pc := Requesting(q, SetTimestamp);
      Took(before, RequestStep);
      Interfere();
      before := View();
      memory.timestamp := timestamp;
      pc := Requesting(q, ZeroBegins);
      Took(before, RequestStep);
    }

    method ZeroBus(ghost q: Request)
      requires Valid() && pc == Requesting(q, ZeroBegins)
      modifies this, memory, renderer
      ensures Valid() && pc == Requesting(q, Sending)
      ensures View().b == old(View().b).(pc := pc) && h == old(h).(answered := h.answered)
    {
      hide Exec, Init, Wrap;
      ghost var before := View();
      memory.audio := Zeroing;
      pc := Requesting(q, ZeroEnds);
      Took(before, RequestStep);
      Interfere();
      before := View();
      memory.audio := if memory.audio.Zeroing? then Silence else Mixed;
      pc := Requesting(q, Sending);
      Took(before, RequestStep);
    }

    /** WaitUntilDataIsReady(): succeeds exactly on a reply carrying `buffer_index_`, fails on an
        open socket only once the wait is over, and ends even if the clock stands still, since no
        more replies can come than controls are unanswered. */
    method WaitUntilDataIsReady() returns (ready: bool)
      requires Valid() && pc.Waiting?
      modifies this`controls, this`replies, this`closed, this`clock, this`pc, this`h, this`g, this`run, memory, renderer
      ensures Valid() && pc == (if ready then Ready else Missed)
      ensures h == old(h).(answered := h.answered, inWindow := h.inWindow)
      ensures !ready && !closed ==> clock >= old(clock) + maximumWait
      ensures ready && h.inWindow ==> Settled(View())
    {
      hide Exec, Init, Wrap, Next, Settled;
      var timeout := maximumWait;
      var finish := clock + timeout;
      ready := false;
      while timeout > 0 && !ready
        invariant Valid() && pc == if ready then Ready else Waiting
        invariant h == old(h).(answered := h.answered, inWindow := h.inWindow)
        invariant View().b == old(View().b).(pc := pc)
        invariant !ready ==> timeout == finish - clock
        decreases |replies| + Unanswered(View())
      {
        var received;
        received, ready := ReceiveWithTimeout(timeout);
        if !received {
          break;
        }
        if !ready {
          timeout := finish - clock;
        }
      }
      if !ready {
        MarkMissed();
      } else {
        ReadySettles(start, run);
      }
    }

    /** The socket's ReceiveWithTimeout() and the comparison with `buffer_index_`: on an open socket
        nothing is received only once the timeout is over. */
    method ReceiveWithTimeout(timeout: int) returns (received: bool, matches: bool)
      requires Valid() && pc.Waiting? && timeout > 0
      modifies this`controls, this`replies, this`closed, this`clock, this`pc, this`h, this`g, this`run, memory, renderer
      ensures Valid() && pc == (if matches then Ready else Waiting) && (matches ==> received)
      ensures h == old(h).(answered := h.answered, inWindow := h.inWindow)
      ensures View().b == old(View().b).(pc := pc)
      ensures received ==> clock >= old(clock) &&
                           |replies| + Unanswered(View()) < old(|replies| + Unanswered(View()))
      ensures !received && !closed ==> clock >= old(clock) + timeout
    {
      hide Exec, Init, Wrap, Next, Settled;
      Interfere();
      var passed: int :| passed >= 0;
      received, matches := !closed && replies != [], false;
      if received {
        clock := clock + passed;
        matches := TakeReply();
      } else if !closed {
        clock := clock + timeout + passed;
      }
    }

    ghost method MarkMissed()
      requires Valid() && pc.Waiting?
      modifies this`pc, this`run
      ensures Valid() && pc.Missed?
    {
      hide Exec, Init, Wrap;
      ghost var before := View();
      pc := Missed;
      Took(before, GiveUp);
    }

    method TakeReply() returns (matches: bool)
      requires Valid() && pc.Waiting? && replies != []
      modifies this`replies, this`pc, this`h, this`run
      ensures Valid() && replies == old(replies[1..]) && pc == (if matches then Ready else Waiting)
      ensures matches == (old(replies[0]) == bufferIndex)
      ensures h == old(h).(inWindow := h.inWindow)
    {
      hide Exec, Init, Wrap;
      ghost var before := View();
      matches := replies[0] == bufferIndex;
      h := h.(inWindow := Lag(before) <= TWO32);
      replies := replies[1..];
      pc := if matches then Ready else Waiting;
      Took(before, ReceiveReply);
    }

    /** AudioSyncReader::Read(). */
    method Read() returns (dest: Audio)
      requires Valid() && pc.Idle?
      modifies this, memory, renderer
      ensures Valid() && pc.Idle? && output == dest
      ensures h.requests == old(h.requests) && bufferIndex == old(bufferIndex)
      ensures callbackCount == old(callbackCount) + 1
      ensures |h.misses| == |old(h.misses)| + 1 && old(h.misses) <= h.misses
      ensures missedCount == old(missedCount) + if h.misses[|h.misses| - 1] then 1 else 0
      // Silence on a miss; PCM is silenced when muted, a bitstream only when its sizes are impossible.
      ensures h.misses[|h.misses| - 1] || (cfg.muted && !cfg.bitstream) ==> dest == Silence
      ensures cfg.bitstream && (memory.bitstreamDataSize > cfg.busBytes || memory.bitstreamFrames > 0x7FFF_FFFF) ==>
                dest == Silence
      ensures !h.misses[|h.misses| - 1] &&
              (if cfg.bitstream then memory.bitstreamDataSize <= cfg.busBytes && memory.bitstreamFrames <= 0x7FFF_FFFF
               else !cfg.muted) ==>
                dest == memory.audio
      // A read that did not miss found the latest request's Render().
      ensures !h.misses[|h.misses| - 1] && h.inWindow && h.requests != [] && Latest(View()).delay != MAX_DELAY ==>
                Settled(View()) && memory.audio == Rendered(Latest(View()).delay, Latest(View()).timestamp)
    {
      hide Exec, Init, Wrap, Unanswered;
      ghost var before := View();
      callbackCount := callbackCount + 1;
      pc := Waiting;
      Took(before, BeginRead);
      var ready := WaitUntilDataIsReady();
      dest := CopyOut(ready);
    }

    /** The end of Read(): counts the outcome and fills the destination. */
    method CopyOut(ready: bool) returns (dest: Audio)
      requires Valid() && pc == (if ready then Ready else Missed)
      requires ready && h.inWindow ==> Settled(View())
      modifies this
      ensures Valid() && pc.Idle? && output == dest && replies == old(replies) && controls == old(controls)
      ensures h == old(h).(misses := old(h.misses) + [!ready])
      ensures bufferIndex == old(bufferIndex) && callbackCount == old(callbackCount)
      ensures missedCount == old(missedCount) + if ready then 0 else 1
      ensures !ready ==> dest == Silence
      ensures ready ==> dest == if Suppressed(cfg, memory.View()) then Silence else memory.audio
      ensures ready && h.inWindow && h.requests != [] && Latest(View()).delay != MAX_DELAY ==>
                Settled(View()) && memory.audio == Rendered(Latest(View()).delay, Latest(View()).timestamp)
    {
      hide Exec, Init, Wrap, Unanswered, Next;
      ReadyFresh(start, run);
      ghost var before := View();
      if !ready {
        trailingMissedCount := trailingMissedCount + 1;
        missedCount := missedCount + 1;
      } else {
        trailingMissedCount := 0;
      }
      dest := ChooseOutput(ready);
      output := dest;
      EndRead(before, ready);
    }

    ghost method EndRead(before: State, ready: bool)
      requires Init(start) && before == Exec(start, run) && before.b.pc == (if ready then Ready else Missed)
      requires View() == before.(b := before.b.(
                 missed := if ready then before.b.missed else before.b.missed + 1,
                 trailingMissed := if ready then 0 else before.b.trailingMissed + 1,
                 output := if !ready || Suppressed(cfg, before.shm) then Silence else before.shm.audio))
      modifies this`pc, this`h, this`run
      ensures Valid() && pc.Idle? && h == old(h).(misses := old(h.misses) + [!ready])
    {
      hide Exec, Init, Wrap, Suppressed;
      pc := Idle;
      h := h.(misses := h.misses + [!ready]);
      Took(before, FinishRead);
    }

    /** What goes to the destination bus. */
    method ChooseOutput(ready: bool) returns (dest: Audio)
      ensures !ready || (cfg.muted && !cfg.bitstream) ==> dest == Silence
      ensures cfg.bitstream && (memory.bitstreamDataSize > cfg.busBytes || memory.bitstreamFrames > 0x7FFF_FFFF) ==>
                dest == Silence
      ensures ready && (if cfg.bitstream then memory.bitstreamDataSize <= cfg.busBytes && memory.bitstreamFrames <= 0x7FFF_FFFF
                        else !cfg.muted) ==>
                dest == memory.audio
    {
      if !ready {
        return Silence;
      }
      // Muted buffers are zeroed, except when they hold a compressed bitstream.
      if cfg.muted && !cfg.bitstream {
        return Silence;
      }
      if cfg.bitstream && (memory.bitstreamDataSize > cfg.busBytes || memory.bitstreamFrames > MAX_INT) {
        return Silence;
      }
      return memory.audio;
    }

    method Close()
      modifies this`closed
      ensures closed
    {
      closed := true;
    }

    /** ~AudioSyncReader(): the subtractions cannot underflow and the percentage is one. */
    method Destroy() returns (percentage: nat)
      requires Valid() && pc.Idle?
      modifies this`callbackCount, this`missedCount
      ensures percentage <= 100
      ensures callbackCount == old(callbackCount) - trailingMissedCount
      ensures missedCount == old(missedCount) - trailingMissedCount
      ensures callbackCount == 0 ==> percentage == 0
      ensures callbackCount > 0 ==> TruncatedPercentage(percentage, missedCount, callbackCount)
    {
      hide Exec, Init, Percent, TruncatedPercentage, PercentageMissed;
      MissCounting(start, run);
      percentage := 0;
      missedCount := missedCount - trailingMissedCount;
      callbackCount := callbackCount - trailingMissedCount;
      if callbackCount != 0 {
        percentage := Percent(missedCount, callbackCount);
      }
    }
  }

  /** r percent of `whole` is at most `part`, and r + 1 percent is more. */
  predicate TruncatedPercentage(r: nat, part: nat, whole: nat) {
    r * whole <= 100 * part < (r + 1) * whole
  }

  /** The percentage truncated to an integer. */
  function Percent(part: nat, whole: nat): (r: nat)
    requires part <= whole && 0 < whole
    ensures r <= 100 && TruncatedPercentage(r, part, whole)
  {
    Percentage(part, whole);
    Floor(100 * part, whole);
    100 * part / whole
  }

  lemma Floor(x: nat, y: nat)
    requires 0 < y
    ensures x / y * y <= x < (x / y + 1) * y
  {
    var q := x / y;
    assert x == q * y + x % y;
  }

  lemma ReadySettles(start: State, run: seq<Action>)
    requires Init(start)
    ensures var s := Exec(start, run); s.b.pc.Ready? && s.h.inWindow ==> Settled(s)
  {
    hide Exec, Next;
    RunKeeps(start, run);
  }

  lemma ReadyFresh(start: State, run: seq<Action>)
    requires Init(start)
    ensures var s := Exec(start, run);
            s.b.pc.Ready? && s.h.inWindow && s.h.requests != [] && Latest(s).delay != MAX_DELAY ==>
              Settled(s) && s.shm.audio == Rendered(Latest(s).delay, Latest(s).timestamp)
  {
    hide Exec, Next;
    RunKeeps(start, run);
  }
}
