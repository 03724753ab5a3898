/** AudioOutputController driving AudioOutputProxy. Each method is one task on the
    audio thread; the outcomes of calls into the platform are parameters. The
    proxy's DCHECKs are its preconditions, so a verified controller never fails
    one. */
module OutputController {

  import Stack = OutputStack
  import opened ProxyCalls

  /** AudioOutputProxy, or any stream given to divert to. `calls` is what was done to it; each method
      demands the source's DCHECK and that the call keeps to the discipline of ProxyCalls. */
  class AudioOutputProxy {
    var state: Stack.ProxyState
    var volume: real
    ghost var calls: seq<Call>

    /** The fields are what the calls make them. */
    ghost predicate Follows()
      reads this
    {
      state == StateAfter(calls) && volume == VolumeAfter(calls)
    }

    ghost predicate Unused()
      reads this
    {
      calls == [] && Follows()
    }

    /** Opened, not closed; `running` says whether the last Start() is still to be stopped. */
    ghost predicate InUse(running: bool)
      reads this
    {
      && Follows()
      && PhaseAfter(calls) == (if running then Running else if state.OpenError? then Failed else Ready)
      && (if running then state.Playing? || state.StartError?
          else state.Opened? || state.StartError? || state.OpenError?)
    }

    /** Opened, started and stopped in turn, closed. */
    ghost predicate Finished()
      reads this
    {
      Follows() && PhaseAfter(calls) == Done
    }

    /** The source's DCHECK, and the discipline. */
    ghost predicate MayCall(c: Call)
      reads this
    {
      Follows() && Allows(state, c) && PhaseAfter(calls + [c]) != Broken
    }

    lemma MayOpen(ok: bool)
      requires Unused()
      ensures MayCall(CallOpen(ok))
    {
      CallAppend(calls, CallOpen(ok));
    }

    /** A stream in use takes Start() and Close() when it does not run, Stop() when it does. */
    lemma MayUse(running: bool)
      requires InUse(running)
      ensures running ==> MayCall(CallStop)
      ensures !running ==> MayCall(CallClose)
      ensures !running && !state.OpenError? ==> MayCall(CallStart(true)) && MayCall(CallStart(false))
    {
      hide PhaseAfter, StateAfter, VolumeAfter;
      CallAppend(calls, CallStart(true));
      CallAppend(calls, CallStart(false));
      CallAppend(calls, CallStop);
      CallAppend(calls, CallClose);
    }

    lemma MaySetVolume(running: bool, v: real)
      requires InUse(running) && !state.OpenError?
      ensures MayCall(CallSetVolume(v))
    {
      hide PhaseAfter, StateAfter, VolumeAfter;
      CallAppend(calls, CallSetVolume(v));
    }

    constructor ()
      ensures Unused()
    {
      state, volume, calls := Stack.Created, 1.0, [];
    }

    method Open(succeeds: bool) returns (ok: bool)
      requires MayCall(CallOpen(succeeds))
      modifies this
      ensures ok == succeeds && InUse(false) && state == (if ok then Stack.Opened else Stack.OpenError)
      ensures calls == old(calls) + [CallOpen(ok)]
    {
      hide PhaseAfter, StateAfter, VolumeAfter;
      CallAppend(calls, CallOpen(succeeds));
      calls := calls + [CallOpen(succeeds)];
      ok := succeeds;
      if !succeeds {
        state := Stack.OpenError;
        return;
      }
      state := Stack.Opened;
    }

    /** On failure the proxy calls OnError() of its callback, which `failed` reports. */
    method Start(succeeds: bool) returns (failed: bool)
      requires MayCall(CallStart(succeeds))
      modifies this
      ensures failed == !succeeds && InUse(true) && state == (if succeeds then Stack.Playing else Stack.StartError)
      ensures calls == old(calls) + [CallStart(succeeds)] && volume == old(volume)
    {
      hide PhaseAfter, StateAfter, VolumeAfter;
      CallAppend(calls, CallStart(succeeds));
      calls := calls + [CallStart(succeeds)];
      failed := !succeeds;
      if failed {
        state := Stack.StartError;
        return;
      }
      state := Stack.Playing;
    }

    method Stop()
      requires MayCall(CallStop)
      modifies this
      ensures InUse(false) && state == (if old(state).Playing? then Stack.Opened else old(state))
      ensures calls == old(calls) + [CallStop] && volume == old(volume)
    {
      PhaseFits(calls);
      hide PhaseAfter, StateAfter, VolumeAfter;
      CallAppend(calls, CallStop);
      calls := calls + [CallStop];
      if !state.Playing? {
        return;
      }
      state := Stack.Opened;
    }

    method SetVolume(v: real)
      requires MayCall(CallSetVolume(v))
      modifies this
      ensures Follows() && volume == v && state == old(state) && calls == old(calls) + [CallSetVolume(v)]
      ensures PhaseAfter(calls) == PhaseAfter(old(calls))
    {
      hide PhaseAfter, StateAfter, VolumeAfter;
      CallAppend(calls, CallSetVolume(v));
      calls := calls + [CallSetVolume(v)];
      volume := v;
    }

    method Close()
      requires MayCall(CallClose)
      modifies this
      ensures Finished() && calls == old(calls) + [CallClose]
    {
      hide PhaseAfter, StateAfter, VolumeAfter;
      CallAppend(calls, CallClose);
      calls := calls + [CallClose];
      state := Stack.Closed;
    }
  }

  datatype State = kEmpty | kCreated | kPlaying | kPaused | kClosed | kError

  /** An error reported by a stream and deferred, with the weak-pointer generation it was posted under. */
  datatype ErrorTask = ErrorTask(generation: nat, raiser: AudioOutputProxy)

  /** What the event handler and the sync reader see. */
  datatype Event =
    | ControllerCreated
    | ControllerPlaying
    | ControllerPaused
    | ControllerError
    | FirstPacketRequested
    | PauseRequested
    | ReaderClosed

  /** How the calls into the audio manager and the streams turn out during one task. */
  datatype Outcome = Outcome(made: bool, opens: bool, starts: bool, failsStopping: bool)

  /** The tasks of the audio thread that concern one controller. */
  datatype Task =
    | Create
    | Play
    | Pause
    | Close
    | SetVolume(v: real)
    | StreamError
    | ReportError(i: nat)
    | DeviceChange
    | StartDiverting
    | StopDiverting

  /** The volume last requested, `v` if none was. */
  function LastVolume(tasks: seq<Task>, v: real): real {
    if tasks == [] then v
    else if tasks[|tasks| - 1].SetVolume? then tasks[|tasks| - 1].v
    else LastVolume(tasks[..|tasks| - 1], v)
  }

  predicate HasStream(state: State) {
    state == kCreated || state == kPlaying || state == kPaused
  }

  class AudioOutputController {
    var state: State
    var stream: AudioOutputProxy?
    var divertingTo: AudioOutputProxy?
    var volume: real
    var listening: bool

    // weak_factory_for_errors_ and weak_this_for_errors_: a task posted under an older generation
    // is never run.
    var factoryGeneration: nat
    var weakGeneration: nat
    var errorTasks: seq<ErrorTask>

    var events: seq<Event>

    /** Every stream ever taken, from the manager or to divert to. */
    ghost var taken: set<AudioOutputProxy>

    /** What holds even while streams are being exchanged: every stream but the current one is
        finished, the current one is running exactly while playing, and it alone has deferred errors
        that can still be delivered. */
    ghost predicate Base()
      reads this, taken
    {
      && (forall s | s in taken && s != stream :: s.Finished())
      && (stream != null ==> stream in taken && stream.InUse(state == kPlaying))
      && (forall t | t in errorTasks ::
            && t.raiser in taken && t.generation <= factoryGeneration
            && (t.generation == factoryGeneration <==> t.raiser == stream))
      && weakGeneration == factoryGeneration
      && (state == kPlaying || listening ==> stream != null)
      && (listening ==> stream != divertingTo)
    }

    /** What holds between tasks. */
    ghost predicate Valid()
      reads this, taken
    {
      && Base()
      && (stream != null <==> HasStream(state))
      && (stream != null ==> !stream.state.OpenError? && stream.volume == volume)
      && (listening <==> stream != null && stream != divertingTo)
      && (divertingTo != null ==> divertingTo == stream)
    }

    constructor ()
      ensures Valid() && state == kEmpty && taken == {} && volume == 1.0 && errorTasks == []
    {
      state, stream, divertingTo, volume, listening := kEmpty, null, null, 1.0, false;
      factoryGeneration, weakGeneration, errorTasks, events, taken := 0, 0, [], [], {};
    }

    /** OnError(): called by the running stream; defers the report. */
    method OnError()
      requires Valid() && state == kPlaying
      modifies this`errorTasks
      ensures Valid() && errorTasks == old(errorTasks) + [ErrorTask(weakGeneration, stream)]
    {
      errorTasks := errorTasks + [ErrorTask(weakGeneration, stream)];
    }

    /** DoReportError() for the i-th deferred error: reported if and only if the stream that raised
        it is still the current one. */
    method DoReportError(i: nat) returns (reported: bool)
      requires Valid() && i < |errorTasks|
      modifies this`errorTasks, this`events
      ensures Valid()
      ensures errorTasks == old(errorTasks)[..i] + old(errorTasks)[i + 1..]
      ensures reported <==> old(errorTasks)[i].raiser == stream
      ensures events == old(events) + (if reported then [ControllerError] else [])
    {
      var task := errorTasks[i];
      assert task in errorTasks;
      errorTasks := errorTasks[..i] + errorTasks[i + 1..];
      reported := task.generation == factoryGeneration && state != kClosed;
      if reported {
        events := events + [ControllerError];
      }
    }

    /** StopStream(); the stream may report an error while it stops, under the weak pointer current
        at that time. */
    method StopStream(failsStopping: bool)
      requires stream != null ==> stream.InUse(state == kPlaying)
      requires state == kPlaying ==> stream != null
      modifies this`state, this`errorTasks, stream
      ensures state == (if old(state) == kPlaying then kPaused else old(state))
      ensures stream != null ==>
                && stream.InUse(false) && stream.volume == old(stream.volume)
                && (stream.state.OpenError? <==> old(stream.state).OpenError?)
      ensures errorTasks == old(errorTasks) +
              (if old(state) == kPlaying && failsStopping then [ErrorTask(weakGeneration, stream)] else [])
    {
      hide PhaseAfter, StateAfter, VolumeAfter, AudioOutputProxy.MayCall, Allows;
      if state == kPlaying {
        if failsStopping {
          errorTasks := errorTasks + [ErrorTask(weakGeneration, stream)];
        }
        stream.MayUse(true);
        stream.Stop();
        state := kPaused;
      }
    }

    /** DoStopCloseAndClearStream(): the errors raised so far, and while stopping, are never reported. */
    method DoStopCloseAndClearStream(failsStopping: bool)
      requires Base()
      modifies this`state, this`stream, this`divertingTo, this`listening, this`factoryGeneration,
        this`weakGeneration, this`errorTasks, stream
      ensures Base() && state == kEmpty && stream == null && !listening
      ensures divertingTo == if old(stream) != null && old(stream) == old(divertingTo) then null else old(divertingTo)
    {
      hide PhaseAfter, StateAfter, VolumeAfter, AudioOutputProxy.MayCall, Allows;
      if stream != null {
        factoryGeneration := factoryGeneration + 1;
        if stream != divertingTo {
          listening := false;
        }
        StopStream(failsStopping);
        stream.MayUse(false);
        stream.Close();
        if stream == divertingTo {
          divertingTo := null;
        }
        stream := null;
        weakGeneration := factoryGeneration;
      }
      state := kEmpty;
    }

    /** The part common to DoCreate() and DoStartOrStopDivertingInternal(): replaces the current
        stream by the one to divert to, or by one from the manager. */
    method ReplaceStream(o: Outcome)
      requires Base()
      requires divertingTo != null ==> divertingTo == stream || (divertingTo !in taken && divertingTo.Unused())
      modifies this, stream, divertingTo
      ensures Valid() && volume == old(volume)
      ensures state == kCreated || state == kError
      ensures events == old(events) + (if state == kError then [ControllerError] else [])
      ensures fresh(taken - old(taken) - {old(divertingTo)})
      ensures taken >= old(taken)
      ensures state == kCreated ==> stream !in old(taken)
      ensures old(divertingTo) != null && old(divertingTo) != old(stream) ==>
                && taken == old(taken) + {old(divertingTo)}
                && (state == kCreated <==> o.opens)
                && (state == kCreated ==> stream == divertingTo == old(divertingTo))
      ensures old(divertingTo) == null || old(divertingTo) == old(stream) ==>
                divertingTo == null && (state == kCreated <==> o.made && o.opens)
    {
      hide PhaseAfter, StateAfter, VolumeAfter, AudioOutputProxy.MayCall, Allows;
      DoStopCloseAndClearStream(o.failsStopping);
      var next: AudioOutputProxy? := divertingTo;
      if divertingTo == null && o.made {
        next := new AudioOutputProxy();
      }
      if next == null {
        state := kError;
        events := events + [ControllerError];
        return;
      }
      OpenTaken(next, o);
    }

    /** Opens the stream just taken and makes it the current one. */
    method OpenTaken(next: AudioOutputProxy, o: Outcome)
      requires Base() && state == kEmpty && stream == null && !listening
      requires next !in taken && next.Unused() && (divertingTo == null || divertingTo == next)
      modifies this, next
      ensures Valid() && volume == old(volume) && taken == old(taken) + {next}
      ensures state == (if o.opens then kCreated else kError)
      ensures state == kCreated ==> stream == next && divertingTo == old(divertingTo)
      ensures state == kError ==> divertingTo == null
      ensures events == old(events) + (if o.opens then [] else [ControllerError])
    {
      hide PhaseAfter, StateAfter, VolumeAfter, AudioOutputProxy.MayCall, Allows;
      var ok := TakeAndOpen(next, o.opens);
      if !ok {
        DoStopCloseAndClearStream(o.failsStopping);
        state := kError;
        events := events + [ControllerError];
        return;
      }
      RegisterOpened();
    }

    method TakeAndOpen(next: AudioOutputProxy, opens: bool) returns (ok: bool)
      requires Base() && state == kEmpty && stream == null && !listening
      requires next !in taken && next.Unused()
      modifies this`stream, this`taken, next
      ensures Base() && stream == next && taken == old(taken) + {next}
      ensures ok == opens && (next.state.OpenError? <==> !ok)
    {
      hide PhaseAfter, StateAfter, VolumeAfter, AudioOutputProxy.MayCall, Allows;
      stream, taken := next, taken + {next};
      next.MayOpen(opens);
      ok := next.Open(opens);
    }

    /** Registers for device changes unless diverting, and sets the initial volume. */
    method RegisterOpened()
      requires Base() && state == kEmpty && stream != null && !stream.state.OpenError? && !listening
      requires divertingTo == null || divertingTo == stream
      modifies this`state, this`listening, stream
      ensures Valid() && state == kCreated
    {
      hide PhaseAfter, StateAfter, VolumeAfter, AudioOutputProxy.MayCall, Allows;
      if stream != divertingTo {
        listening := true;
      }
      stream.MaySetVolume(false, volume);
      stream.SetVolume(volume);
      state := kCreated;
    }

    method DoCreate(forDeviceChange: bool, o: Outcome)
      requires Valid()
      modifies this, stream
      ensures Valid() && volume == old(volume)
      ensures fresh(taken - old(taken)) && taken >= old(taken)
      ensures old(state) == kClosed ==> unchanged(this)
      ensures old(state) != kClosed ==>
                && divertingTo == null
                && state == (if o.made && o.opens then kCreated else kError)
                && (state == kCreated ==> stream !in old(taken))
                && events == old(events) + (if state == kError then [ControllerError]
                                            else if forDeviceChange then [] else [ControllerCreated])
    {
      hide PhaseAfter, StateAfter, VolumeAfter, AudioOutputProxy.MayCall, Allows;
      if state == kClosed {
        return;
      }
      ReplaceStream(o);
      if state == kCreated && !forDeviceChange {
        events := events + [ControllerCreated];
      }
    }

    /** A stream that fails to start reports its error at once. */
    method DoPlay(o: Outcome)
      requires Valid()
      modifies this`state, this`events, this`errorTasks, stream
      ensures Valid()
      ensures old(state) != kCreated && old(state) != kPaused ==> unchanged(this) && (stream != null ==> unchanged(stream))
      ensures old(state) == kCreated || old(state) == kPaused ==>
                && state == kPlaying
                && events == old(events) + [FirstPacketRequested, ControllerPlaying]
                && errorTasks == old(errorTasks) + (if o.starts then [] else [ErrorTask(weakGeneration, stream)])
    {
      hide PhaseAfter, StateAfter, VolumeAfter, AudioOutputProxy.MayCall, Allows;
      if state != kCreated && state != kPaused {
        return;
      }
      stream.MayUse(false);
      events := events + [FirstPacketRequested];
      state := kPlaying;
      var failed := stream.Start(o.starts);
      if failed {
        OnError();
      }
      events := events + [ControllerPlaying];
    }

    method DoPause(o: Outcome)
      requires Valid()
      modifies this`state, this`events, this`errorTasks, stream
      ensures Valid()
      ensures state == (if old(state) == kPlaying then kPaused else old(state))
      ensures events == old(events) + (if state == kPaused then [PauseRequested, ControllerPaused] else [])
    {
      hide PhaseAfter, StateAfter, VolumeAfter, AudioOutputProxy.MayCall, Allows;
      StopStream(o.failsStopping);
      if state != kPaused {
        return;
      }
      events := events + [PauseRequested, ControllerPaused];
    }

    /** Afterwards the destructor's checks hold, and every stream is finished. */
    method DoClose(o: Outcome)
      requires Valid()
      modifies this, stream
      ensures Valid() && state == kClosed && stream == null && divertingTo == null && !listening
      ensures forall s | s in taken :: s.Finished()
      ensures volume == old(volume) && taken == old(taken)
      ensures events == old(events) + (if old(state) == kClosed then [] else [ReaderClosed])
    {
      hide PhaseAfter, StateAfter, VolumeAfter, AudioOutputProxy.MayCall, Allows;
      if state != kClosed {
        DoStopCloseAndClearStream(o.failsStopping);
        events := events + [ReaderClosed];
        state := kClosed;
      }
    }

    method DoSetVolume(v: real)
      requires Valid()
      modifies this`volume, stream
      ensures Valid() && volume == v
    {
      hide PhaseAfter, StateAfter, VolumeAfter, AudioOutputProxy.MayCall, Allows;
      volume := v;
      if HasStream(state) {
        stream.MaySetVolume(state == kPlaying, volume);
        stream.SetVolume(volume);
      }
    }

    /** Called for a registered listener only. The new stream plays if and only if the old one did. */
    method OnDeviceChange(o: Outcome)
      requires Valid() && listening
      modifies this, stream
      ensures Valid() && volume == old(volume)
      ensures fresh(taken - old(taken)) && taken >= old(taken)
      ensures state == if !(o.made && o.opens) then kError
                       else if old(state) == kPlaying then kPlaying else kCreated
      ensures stream != null ==> listening && stream !in old(taken)
      ensures events == old(events) + if state == kError then [ControllerError]
                                      else if state == kPlaying then [FirstPacketRequested, ControllerPlaying]
                                      else []
    {
      var original := state;
      DoCreate(true, o);
      if stream == null || state == kError {
        return;
      }
      match original {
        case kPlaying => DoPlay(o);
        case kCreated => return;
        case kPaused => return;
        case _ => assert false;
      }
    }

    /** DoStartOrStopDivertingInternal(). */
    method DoStartOrStopDivertingInternal(o: Outcome)
      requires Base()
      requires divertingTo != null ==> divertingTo == stream || (divertingTo !in taken && divertingTo.Unused())
      modifies this, stream, divertingTo
      ensures Valid() && volume == old(volume)
      ensures fresh(taken - old(taken) - {old(divertingTo)}) && taken >= old(taken)
      ensures state == kError || state == (if old(state) == kPlaying then kPlaying else kCreated)
      ensures state != kError ==> stream !in old(taken)
      ensures old(divertingTo) != null && old(divertingTo) != old(stream) ==>
                && taken == old(taken) + {old(divertingTo)}
                && (state != kError <==> o.opens)
                && (state != kError ==> stream == divertingTo == old(divertingTo))
      ensures old(divertingTo) == null || old(divertingTo) == old(stream) ==>
                divertingTo == null && (state != kError <==> o.made && o.opens)
      ensures events == old(events) + if state == kError then [ControllerError]
                                      else if state == kPlaying then [FirstPacketRequested, ControllerPlaying]
                                      else []
    {
      var restorePlayback := state == kPlaying;
      ReplaceStream(o);
      if state == kError {
        return;
      }
      if restorePlayback {
        DoPlay(o);
      }
    }

    /** Diverts to a stream of the caller's, which the controller then owns and closes. */
    method DoStartDiverting(to: AudioOutputProxy, o: Outcome)
      requires Valid() && to !in taken && to.Unused()
      requires divertingTo == null
      modifies this, stream, to
      ensures Valid() && volume == old(volume)
      ensures old(state) == kClosed ==> unchanged(this)
      ensures old(state) != kClosed ==>
                && taken == old(taken) + {to}
                && state == (if !o.opens then kError else if old(state) == kPlaying then kPlaying else kCreated)
                && (o.opens ==> stream == divertingTo == to && !listening)
                && (!o.opens ==> to.Finished())
    {
      if state == kClosed {
        return;
      }
      divertingTo := to;
      DoStartOrStopDivertingInternal(o);
    }

    method DoStopDiverting(o: Outcome)
      requires Valid()
      modifies this, stream
      ensures Valid() && volume == old(volume)
      ensures fresh(taken - old(taken)) && taken >= old(taken)
      ensures old(state) == kClosed ==> unchanged(this)
      ensures old(state) != kClosed ==>
                && divertingTo == null
                && state == (if !(o.made && o.opens) then kError else if old(state) == kPlaying then kPlaying else kCreated)
    {
      if state == kClosed {
        return;
      }
      DoStartOrStopDivertingInternal(o);
    }

    /** One task. A task that the caller or the platform may not issue now does nothing: an error from
        a stream that is not running, a device change without a listener, a second diversion. */
    method Do(task: Task, o: Outcome)
      requires Valid()
      modifies this, taken
      ensures Valid() && fresh(taken - old(taken)) && taken >= old(taken)
      ensures volume == if task.SetVolume? then task.v else old(volume)
      ensures old(state) == kClosed || task.Close? ==> state == kClosed
    {
      match task {
        case Create => DoCreate(false, o);
        case Play => DoPlay(o);
        case Pause => DoPause(o);
        case Close => DoClose(o);
        case SetVolume(v) => DoSetVolume(v);
        case StreamError => if state == kPlaying { OnError(); }
        case ReportError(i) => if i < |errorTasks| { var _ := DoReportError(i); }
        case DeviceChange => if listening { OnDeviceChange(o); }
        case StartDiverting =>
          if divertingTo == null {
            var to := new AudioOutputProxy();
            DoStartDiverting(to, o);
          }
        case StopDiverting => DoStopDiverting(o);
      }
    }

    /** Any run of tasks with any outcomes: the current stream carries the last volume requested,
        and once closed the controller stays closed with every stream it ever took finished. */
    method Run(tasks: seq<Task>, outcomes: seq<Outcome>)
      requires Valid() && |tasks| == |outcomes|
      modifies this, taken
      ensures Valid() && fresh(taken - old(taken)) && taken >= old(taken)
      ensures volume == LastVolume(tasks, old(volume))
      ensures stream != null ==> stream.volume == LastVolume(tasks, old(volume))
      ensures old(state) == kClosed || Close in tasks ==> state == kClosed && forall s | s in taken :: s.Finished()
    {
      for i := 0 to |tasks|
        invariant Valid() && fresh(taken - old(taken)) && taken >= old(taken)
        invariant volume == LastVolume(tasks[..i], old(volume))
        invariant old(state) == kClosed || Close in tasks[..i] ==> state == kClosed
      {
        Do(tasks[i], outcomes[i]);
        assert tasks[..i + 1] == tasks[..i] + [tasks[i]];
      }
      assert tasks[..|tasks|] == tasks;
    }
  }
}
