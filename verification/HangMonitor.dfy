/** AudioManagerHelper: the audio-thread hang monitor. Each method is one region
    under `hang_lock_` or one task posting outside it, so that any sequence of
    calls is an interleaving of the monitor thread, the audio thread and power
    notifications. Posted tasks are kept with the time before which they do not
    run; nothing assumes that there is at most one of each. */
module HangMonitor {
  import opened Words

  /** `max_hung_task_time_`: one minute, in microseconds. */
  const MAX_HUNG_TASK_TIME: int := 60_000_000
  const MAX_FAILED_PINGS: nat := 3

  datatype ThreadStatus = None | Started | Hung | Recovered

  function Rank(s: ThreadStatus): nat {
    match s case None => 0 case Started => 1 case Hung => 2 case Recovered => 3
  }

  /** What happened under the lock, oldest first. */
  datatype Event = CheckFailed(at: int) | CheckPassed(at: int) | AudioTick(at: int) | Suspended | Resumed(at: int)

  /** Failed checks since the last passed check, audio tick, suspend or resume. */
  function TrailingFails(log: seq<Event>): nat {
    if log == [] || !log[|log| - 1].CheckFailed? then 0 else TrailingFails(log[..|log| - 1]) + 1
  }

  /** Passed checks since the last failed check, suspend or resume; audio ticks do not matter. */
  function TrailingPasses(log: seq<Event>): nat {
    if log == [] then 0
    else if log[|log| - 1].CheckPassed? then TrailingPasses(log[..|log| - 1]) + 1
    else if log[|log| - 1].AudioTick? then TrailingPasses(log[..|log| - 1])
    else 0
  }

  /** When the audio thread was last heard of, a resume counting as such; 0 if never. */
  function LastHeard(log: seq<Event>): int {
    if log == [] then 0
    else if log[|log| - 1].AudioTick? || log[|log| - 1].Resumed? then log[|log| - 1].at
    else LastHeard(log[..|log| - 1])
  }

  /** A check has passed at some point. */
  predicate EverPassed(log: seq<Event>) {
    log != [] && (log[|log| - 1].CheckPassed? || EverPassed(log[..|log| - 1]))
  }

  /** At some point the last three checks had failed with nothing between them. */
  predicate EverHung(log: seq<Event>) {
    log != [] && (TrailingFails(log) >= 3 || EverHung(log[..|log| - 1]))
  }

  /** At some point after that, the last three checks had passed. */
  predicate EverRecovered(log: seq<Event>) {
    log != [] && ((EverHung(log) && TrailingPasses(log) >= 3) || EverRecovered(log[..|log| - 1]))
  }

  ghost predicate Increasing(recorded: seq<ThreadStatus>) {
    forall i, j | 0 <= i < j < |recorded| :: Rank(recorded[i]) < Rank(recorded[j])
  }

  lemma LogAppend(log: seq<Event>, e: Event)
    ensures TrailingFails(log + [e]) == if e.CheckFailed? then TrailingFails(log) + 1 else 0
    ensures TrailingPasses(log + [e]) ==
            if e.CheckPassed? then TrailingPasses(log) + 1 else if e.AudioTick? then TrailingPasses(log) else 0
    ensures LastHeard(log + [e]) == if e.AudioTick? || e.Resumed? then e.at else LastHeard(log)
    ensures EverPassed(log + [e]) <==> e.CheckPassed? || EverPassed(log)
    ensures EverHung(log + [e]) <==> TrailingFails(log + [e]) >= 3 || EverHung(log)
    ensures EverRecovered(log + [e]) <==> (EverHung(log + [e]) && TrailingPasses(log + [e]) >= 3) || EverRecovered(log)
    ensures TrailingFails(log) >= 3 ==> EverHung(log)
    ensures EverHung(log) && TrailingPasses(log) >= 3 ==> EverRecovered(log)
  {
    assert (log + [e])[..|log|] == log;
  }

  /** A run of failed checks is a suffix of the log. */
  lemma {:induction false} FailsAreLast(log: seq<Event>, k: nat)
    requires k <= TrailingFails(log)
    ensures k <= |log| && forall i | |log| - k <= i < |log| :: log[i].CheckFailed?
    decreases k
  {
    if k > 0 {
      FailsAreLast(log[..|log| - 1], k - 1);
      forall i | |log| - k <= i < |log| ensures log[i].CheckFailed? {
        assert i < |log| - 1 ==> log[i] == log[..|log| - 1][i];
      }
    }
  }

  /** A run of passed checks began after any failed check, suspend or resume. */
  lemma {:induction false} PassesAreAfter(log: seq<Event>, i: nat)
    requires i < |log| && !log[i].CheckPassed? && !log[i].AudioTick?
    ensures TrailingPasses(log) == TrailingPasses(log[i + 1..]) <= |log| - 1 - i
    decreases |log|
  {
    var front, tail := log[..|log| - 1], log[i + 1..];
    if i < |log| - 1 {
      PassesAreAfter(front, i);
      assert tail[..|tail| - 1] == front[i + 1..];
      assert tail[|tail| - 1] == log[|log| - 1];
    }
  }

  /** k consecutive failures: the last tick is more than k periods before the last of them,
      and the next check is at least one period after it. */
  ghost predicate Spaced(log: seq<Event>, clock: int, lastTick: int, checks: seq<int>) {
    && log != [] && log[|log| - 1].CheckFailed?
    && log[|log| - 1].at <= clock
    && log[|log| - 1].at - lastTick > TrailingFails(log) * MAX_HUNG_TASK_TIME
    && forall i | 0 <= i < |checks| :: checks[i] >= log[|log| - 1].at + MAX_HUNG_TASK_TIME
  }

  /** Reported statuses strictly increase, the last is the current one, and a hang was reported at
      a failed check. What the status is follows from the log alone: nothing before the first passed
      check or hang, hung from the third failure in a row on, recovered from the third pass in a
      row after that on. */
  ghost predicate StatusOk(status: ThreadStatus, recorded: seq<ThreadStatus>, log: seq<Event>, hungAt: nat) {
    && Increasing(recorded)
    && status == (if recorded == [] then None else recorded[|recorded| - 1])
    && (Rank(status) >= Rank(Hung) ==> 0 < hungAt <= |log| && log[hungAt - 1].CheckFailed?)
    && (status == None <==> !EverPassed(log) && !EverHung(log))
    && (Rank(status) >= Rank(Hung) <==> EverHung(log))
    && (status == Recovered <==> EverRecovered(log))
  }

  lemma StatusKept(status: ThreadStatus, recorded: seq<ThreadStatus>, log: seq<Event>, hungAt: nat, e: Event)
    requires StatusOk(status, recorded, log, hungAt) && !e.CheckFailed? && !e.CheckPassed?
    ensures StatusOk(status, recorded, log + [e], hungAt)
  {
    hide TrailingFails, TrailingPasses, EverPassed, EverHung, EverRecovered;
    LogAppend(log, e);
  }

  /** One move of one of the threads, or of the clock. */
  datatype Move =
    | Wait(elapsed: nat)
    | Suspend
    | Resume
    | PostTickOnResume
    | RelockOnResume
    | PostCheckOnResume
    | Check(i: nat)
    | CheckReposts
    | Tick(i: nat)
    | TickReposts

  class AudioManagerHelper {
    var hangDetectionEnabled: bool
    var lastTick: int
    var failedPings: u32
    var successfulPings: u32
    var ioTaskRunning: bool
    var audioTaskRunning: bool
    var status: ThreadStatus

    // The world around it: the clock, tasks posted and not yet run (by the earliest time
    // they may run), tasks that have left the lock and will post themselves again, and
    // OnResume() calls that are about to post or to take the lock again.
    var clock: int
    var checks: seq<int>
    var ticks: seq<int>
    var checksReposting: nat
    var ticksReposting: nat
    var resumesPostingTick: nat
    var resumesRelocking: nat
    var resumesPostingCheck: nat

    ghost var log: seq<Event>
    ghost var recorded: seq<ThreadStatus>
    ghost var hungAt: nat
    ghost var tickPosted: int

    /** Live instances of the status check: queued, about to repost, or about to be posted. */
    function LiveChecks(): nat
      reads this
    {
      |checks| + checksReposting + resumesPostingCheck
    }

    function LiveTicks(): nat
      reads this
    {
      |ticks| + ticksReposting + resumesPostingTick
    }

    ghost predicate SingleChain()
      reads this
    {
      && LiveChecks() == (if ioTaskRunning then 1 else 0)
      && LiveTicks() == (if audioTaskRunning then 1 else 0)
    }

    ghost predicate FailuresSpaced()
      reads this
    {
      TrailingFails(log) > 0 ==>
        && hangDetectionEnabled && ioTaskRunning && resumesPostingCheck == 0
        && Spaced(log, clock, lastTick, checks)
    }

    ghost predicate StatusRecorded()
      reads this
    {
      StatusOk(status, recorded, log, hungAt)
    }

    /** While detection is on, both chains live or an OnResume() in progress restarts the one missing. */
    ghost predicate NotLost()
      reads this
    {
      hangDetectionEnabled ==>
        && audioTaskRunning
        && (ioTaskRunning || resumesPostingTick + resumesRelocking > 0)
    }

    /** The tick recorded is the last one in the log, and the next tick is due at most a fifth of a
        period after it was posted. */
    ghost predicate TicksKept()
      reads this
    {
      && lastTick == LastHeard(log)
      && forall i | 0 <= i < |ticks| :: ticks[i] <= tickPosted + MAX_HUNG_TASK_TIME / 5
    }

    ghost predicate Valid()
      reads this
    {
      && TicksKept()
      && SingleChain()
      && NotLost()
      && failedPings == Wrap(TrailingFails(log))
      && successfulPings == Wrap(TrailingPasses(log))
      && FailuresSpaced()
      && StatusRecorded()
    }

    /** StartHangTimer(). */
    constructor (now: int)
      ensures Valid() && status == None && recorded == []
    {
      hangDetectionEnabled, lastTick, failedPings, successfulPings := true, 0, 0, 0;
      status, clock := None, now;
      ioTaskRunning, audioTaskRunning := true, true;
      ticks, checks := [now], [now];
      checksReposting, ticksReposting := 0, 0;
      resumesPostingTick, resumesRelocking, resumesPostingCheck := 0, 0, 0;
      log, recorded, hungAt, tickPosted := [], [], 0, now;
    }

    method Advance(elapsed: nat)
      requires Valid()
      modifies this`clock
      ensures Valid() && clock == old(clock) + elapsed
    {
      clock := clock + elapsed;
    }

    method OnSuspend()
      requires Valid()
      modifies this
      ensures Valid() && !hangDetectionEnabled && status == old(status) && recorded == old(recorded) && log == old(log) + [Suspended]
    {
      hide TrailingFails, TrailingPasses, Wrap, StatusOk, Spaced, LastHeard;
      hangDetectionEnabled := false;
      ClearPings(Suspended);
    }

    /** `failed_pings_ = successful_pings_ = 0` on a power notification. */
    method ClearPings(ghost e: Event)
      requires (e.Suspended? || e.Resumed?) && StatusRecorded()
      modifies this`failedPings, this`successfulPings, this`log
      ensures log == old(log) + [e] && TrailingFails(log) == 0 && StatusRecorded()
      ensures LastHeard(log) == if e.Resumed? then e.at else LastHeard(old(log))
      ensures failedPings == Wrap(TrailingFails(log)) && successfulPings == Wrap(TrailingPasses(log))
    {
      hide TrailingFails, TrailingPasses, Wrap, StatusOk, LastHeard;
      WrapSmall(0);
      LogAppend(log, e);
      StatusKept(status, recorded, log, hungAt, e);
      failedPings, successfulPings := 0, 0;
      log := log + [e];
    }

    /** OnResume() up to the point where it releases the lock. */
    method OnResume()
      requires Valid()
      modifies this
      ensures Valid() && hangDetectionEnabled && status == old(status) && recorded == old(recorded) && log == old(log) + [Resumed(clock)]
      ensures audioTaskRunning && LiveTicks() == 1
    {
      hide TrailingFails, TrailingPasses, Wrap, StatusOk, Spaced, LastHeard;
      hangDetectionEnabled := true;
      lastTick := clock;
      ClearPings(Resumed(clock));
      RestartChains();
    }

    /** If either of the tasks was stopped during suspend, start it now. */
    method RestartChains()
      requires SingleChain()
      modifies this`audioTaskRunning, this`resumesPostingTick, this`ioTaskRunning, this`resumesPostingCheck
      ensures SingleChain() && audioTaskRunning
      ensures ioTaskRunning || resumesPostingTick > 0
    {
      if !audioTaskRunning {
        audioTaskRunning := true;
        resumesPostingTick := resumesPostingTick + 1;
      } else if !ioTaskRunning {
        ioTaskRunning := true;
        resumesPostingCheck := resumesPostingCheck + 1;
      }
    }

    /** OnResume() posts the tick task without the lock. */
    method ResumePostsTick()
      requires Valid() && resumesPostingTick > 0
      modifies this
      ensures Valid() && status == old(status) && recorded == old(recorded) && log == old(log)
    {
      resumesPostingTick := resumesPostingTick - 1;
      ticks, tickPosted := ticks + [clock], clock;
      resumesRelocking := resumesRelocking + 1;
    }

    /** OnResume() holds the lock again and looks at the status-check task. */
    method ResumeRelocks()
      requires Valid() && resumesRelocking > 0
      modifies this
      ensures Valid() && status == old(status) && recorded == old(recorded) && log == old(log)
      ensures ioTaskRunning && LiveChecks() == 1
    {
      resumesRelocking := resumesRelocking - 1;
      if !ioTaskRunning {
        ioTaskRunning := true;
        resumesPostingCheck := resumesPostingCheck + 1;
      }
    }

    method ResumePostsCheck()
      requires Valid() && resumesPostingCheck > 0
      modifies this
      ensures Valid() && status == old(status) && recorded == old(recorded) && log == old(log)
    {
      resumesPostingCheck := resumesPostingCheck - 1;
      checks := checks + [clock];
    }

    /** The locked part of RecordAudioThreadStatus(). */
    method RecordAudioThreadStatus(i: nat)
      requires Valid() && i < |checks| && checks[i] <= clock
      modifies this
      ensures Valid()
      // Whether it checks, and what it finds.
      ensures log == old(log) + if !hangDetectionEnabled then []
                                else if clock - LastHeard(old(log)) > MAX_HUNG_TASK_TIME then [CheckFailed(clock)]
                                else [CheckPassed(clock)]
      ensures hangDetectionEnabled == old(hangDetectionEnabled) && ticks == old(ticks)
      // No false alarm: the audio thread has left its next tick overdue for more than four fifths
      // of a period, less the time it took to post it.
      ensures clock - LastHeard(old(log)) > MAX_HUNG_TASK_TIME ==>
                forall j | 0 <= j < |ticks| ::
                  clock - ticks[j] > 4 * MAX_HUNG_TASK_TIME / 5 - (tickPosted - LastHeard(old(log)))
      ensures Rank(status) >= Rank(old(status))
      ensures status != old(status) ==> recorded == old(recorded) + [status]
      ensures status == old(status) ==> recorded == old(recorded)
      // Becoming hung: three failures in a row, nothing between them, and more than three
      // periods since the audio thread was last heard of.
      ensures status == Hung && old(status) != Hung ==>
                && |log| >= 3
                && (forall j | |log| - 3 <= j < |log| :: log[j].CheckFailed?)
                && clock - lastTick > 3 * MAX_HUNG_TASK_TIME
      // Recovering: three passes in a row since the failure that was reported.
      ensures status == Recovered && old(status) != Recovered ==>
                && old(status) == Hung
                && 0 < hungAt <= |log|
                && log[hungAt - 1].CheckFailed?
                && TrailingPasses(log[hungAt..]) >= 3
    {
      hide TrailingFails, TrailingPasses, Wrap, StatusOk, Spaced, LastHeard;
      checks := checks[..i] + checks[i + 1..];
      if !hangDetectionEnabled {
        ioTaskRunning := false;
        return;
      }
      assert ioTaskRunning;
      if clock - lastTick > MAX_HUNG_TASK_TIME {
        CheckFails(i, old(checks));
      } else {
        CheckPasses();
      }
      checksReposting := checksReposting + 1;
    }

    /** A check that finds the last tick too old. */
    method CheckFails(ghost i: nat, ghost before: seq<int>)
      requires hangDetectionEnabled && ioTaskRunning && resumesPostingCheck == 0
      requires i < |before| && before[i] <= clock && checks == []
      requires TrailingFails(log) > 0 ==> Spaced(log, clock, lastTick, before)
      requires clock - lastTick > MAX_HUNG_TASK_TIME
      requires failedPings == Wrap(TrailingFails(log)) && StatusRecorded()
      modifies this`successfulPings, this`failedPings, this`log, this`status, this`recorded, this`hungAt
      ensures log == old(log) + [CheckFailed(clock)]
      ensures failedPings == Wrap(TrailingFails(log)) && successfulPings == Wrap(TrailingPasses(log))
      ensures FailuresSpaced() && StatusRecorded()
      ensures status != old(status) ==>
                && status == Hung && Rank(old(status)) < Rank(Hung) && recorded == old(recorded) + [Hung]
                && |log| >= 3 && (forall j | |log| - 3 <= j < |log| :: log[j].CheckFailed?)
                && clock - lastTick > 3 * MAX_HUNG_TASK_TIME
      ensures status == old(status) ==> recorded == old(recorded)
      ensures LastHeard(log) == LastHeard(old(log))
    {
      hide TrailingFails, TrailingPasses, Wrap, LastHeard, EverPassed, EverHung, EverRecovered;
      LogAppend(log, CheckFailed(clock));
      if TrailingFails(log) < 3 {
        WrapSmall(TrailingFails(log) + 1);
      }
      WrapNext(TrailingFails(log));
      WrapSmall(0);
      successfulPings := 0;
      failedPings := Wrap(failedPings + 1);
      log := log + [CheckFailed(clock)];
      WrapAtMost(TrailingFails(log));
      if failedPings >= MAX_FAILED_PINGS && Rank(status) < Rank(Hung) {
        FailsAreLast(log, 3);
        status, recorded, hungAt := Hung, recorded + [Hung], |log|;
      }
    }

    /** A check that finds a recent tick. */
    method CheckPasses()
      requires successfulPings == Wrap(TrailingPasses(log)) && StatusRecorded()
      modifies this`successfulPings, this`failedPings, this`log, this`status, this`recorded
      ensures log == old(log) + [CheckPassed(clock)]
      ensures failedPings == Wrap(TrailingFails(log)) && successfulPings == Wrap(TrailingPasses(log))
      ensures TrailingFails(log) == 0 && StatusRecorded()
      ensures status != old(status) ==> recorded == old(recorded) + [status] && Rank(status) > Rank(old(status))
      ensures status == old(status) ==> recorded == old(recorded)
      ensures status != old(status) ==>
                || (old(status) == None && status == Started)
                || (old(status) == Hung && status == Recovered && TrailingPasses(log[hungAt..]) >= 3 &&
                    0 < hungAt <= |log| && log[hungAt - 1].CheckFailed?)
      ensures LastHeard(log) == LastHeard(old(log))
    {
      hide TrailingFails, TrailingPasses, Wrap, LastHeard, EverPassed, EverHung, EverRecovered;
      LogAppend(log, CheckPassed(clock));
      if TrailingPasses(log) < 3 {
        WrapSmall(TrailingPasses(log) + 1);
      }
      WrapNext(TrailingPasses(log));
      WrapSmall(0);
      failedPings := 0;
      successfulPings := Wrap(successfulPings + 1);
      log := log + [CheckPassed(clock)];
      WrapAtMost(TrailingPasses(log));
      if status == None {
        status, recorded := Started, recorded + [Started];
      } else if status == Hung && successfulPings >= MAX_FAILED_PINGS {
        PassesAreAfter(log, hungAt - 1);
        status, recorded := Recovered, recorded + [Recovered];
      }
    }

    /** RecordAudioThreadStatus() posts itself without the lock. */
    method RepostCheck()
      requires Valid() && checksReposting > 0
      modifies this
      ensures Valid() && status == old(status) && recorded == old(recorded) && log == old(log)
      ensures checks == old(checks) + [clock + MAX_HUNG_TASK_TIME]
    {
      checksReposting := checksReposting - 1;
      checks := checks + [clock + MAX_HUNG_TASK_TIME];
    }

    /** The locked part of UpdateLastAudioThreadTimeTick(). */
    method UpdateLastAudioThreadTimeTick(i: nat)
      requires Valid() && i < |ticks| && ticks[i] <= clock
      modifies this
      ensures Valid() && status == old(status) && recorded == old(recorded) && log == old(log) + [AudioTick(clock)]
      ensures lastTick == clock && hangDetectionEnabled == old(hangDetectionEnabled)
      ensures audioTaskRunning == hangDetectionEnabled && ticks == []
    {
      hide TrailingFails, TrailingPasses, Wrap, StatusOk, Spaced, LastHeard;
      ticks := ticks[..i] + ticks[i + 1..];
      RecordTick();
      if !hangDetectionEnabled {
        audioTaskRunning := false;
        return;
      }
      assert audioTaskRunning;
      ticksReposting := ticksReposting + 1;
    }

    method RecordTick()
      requires StatusRecorded() && successfulPings == Wrap(TrailingPasses(log))
      modifies this`lastTick, this`failedPings, this`log
      ensures log == old(log) + [AudioTick(clock)] && TrailingFails(log) == 0 && StatusRecorded()
      ensures lastTick == clock == LastHeard(log)
      ensures failedPings == Wrap(TrailingFails(log)) && successfulPings == Wrap(TrailingPasses(log))
    {
      hide TrailingFails, TrailingPasses, Wrap, StatusOk, LastHeard;
      WrapSmall(0);
      LogAppend(log, AudioTick(clock));
      StatusKept(status, recorded, log, hungAt, AudioTick(clock));
      lastTick := clock;
      failedPings := 0;
      log := log + [AudioTick(clock)];
    }

    method RepostTick()
      requires Valid() && ticksReposting > 0
      modifies this
      ensures Valid() && status == old(status) && recorded == old(recorded) && log == old(log)
      ensures ticks == old(ticks) + [clock + MAX_HUNG_TASK_TIME / 5]
    {
      ticksReposting := ticksReposting - 1;
      ticks, tickPosted := ticks + [clock + MAX_HUNG_TASK_TIME / 5], clock;
    }

    /** Every interleaving: any sequence of moves, those that are not possible being skipped.
        The statuses reported over the whole run strictly increase, so none is reported twice
        and a recovered thread is never reported hung again. */
    method Run(moves: seq<Move>)
      requires Valid()
      modifies this
      ensures Valid()
      ensures LiveChecks() <= 1 && LiveTicks() <= 1
      ensures old(recorded) <= recorded && Increasing(recorded)
      ensures old(status) == Recovered ==> recorded == old(recorded)
      ensures status == None <==> !EverPassed(log) && !EverHung(log)
      ensures Rank(status) >= Rank(Hung) <==> EverHung(log)
      ensures status == Recovered <==> EverRecovered(log)
    {
      for n := 0 to |moves|
        invariant Valid() && old(recorded) <= recorded
        invariant Rank(status) >= Rank(old(status))
        invariant old(status) == Recovered ==> recorded == old(recorded)
      {
        match moves[n]
        case Wait(elapsed) => Advance(elapsed);
        case Suspend => OnSuspend();
        case Resume => OnResume();
        case PostTickOnResume => if resumesPostingTick > 0 { ResumePostsTick(); }
        case RelockOnResume => if resumesRelocking > 0 { ResumeRelocks(); }
        case PostCheckOnResume => if resumesPostingCheck > 0 { ResumePostsCheck(); }
        case Check(i) => if i < |checks| && checks[i] <= clock { RecordAudioThreadStatus(i); }
        case CheckReposts => if checksReposting > 0 { RepostCheck(); }
        case Tick(i) => if i < |ticks| && ticks[i] <= clock { UpdateLastAudioThreadTimeTick(i); }
        case TickReposts => if ticksReposting > 0 { RepostTick(); }
      }
    }
  }
}
