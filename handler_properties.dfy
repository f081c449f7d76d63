/**
 * The behaviour of the main window's handlers, for one event and for every
 * sequence of events, stated over the transition functions of WindowSpec.
 */
module HandlerProperties {
  import opened Wrappers
  import opened PipelineCommand
  import opened WindowSpec
  import opened WindowProperties

  /** select_input_directory / select_output_directory keep the old directory on a cancelled dialog. */
  lemma DirectorySelection(s: State, d: string)
    ensures var r := SelectInputDirectory(s, d);
      && (d != "" ==> r.paths.inputDirectory == Some(d) && r.paths.inputText == d)
      && (d == "" ==> r.paths.inputDirectory == s.paths.inputDirectory
                      && r.paths.inputText == WRONG_DIRECTORY_MESSAGE)
      && r.paths.outputDirectory == s.paths.outputDirectory && r.paths.outputText == s.paths.outputText
      && r.screen == s.screen && r.job == s.job && r.viewers == s.viewers && r.quit == s.quit
    ensures var r := SelectOutputDirectory(s, d);
      && (d != "" ==> r.paths.outputDirectory == Some(d) && r.paths.outputText == d)
      && (d == "" ==> r.paths.outputDirectory == s.paths.outputDirectory
                      && r.paths.outputText == WRONG_DIRECTORY_MESSAGE)
      && r.paths.inputDirectory == s.paths.inputDirectory && r.paths.inputText == s.paths.inputText
      && r.screen == s.screen && r.job == s.job && r.viewers == s.viewers && r.quit == s.quit
  {
  }

  /**
   * start_process launches exactly when both directories are set; otherwise
   * only the message in the box of the first missing directory changes.
   */
  lemma LaunchGuard(s: State, o: Options)
    requires Inv(s) && !s.quit && Clickable(s, StartButton)
    ensures var r := Step(s, PressStart(o));
      && (r.job.worker.Some? <==> IsSet(s.paths.inputDirectory) && IsSet(s.paths.outputDirectory))
      && (!IsSet(s.paths.inputDirectory) ==>
            r == s.(paths := s.paths.(inputText := WRONG_DIRECTORY_MESSAGE)))
      && (IsSet(s.paths.inputDirectory) && !IsSet(s.paths.outputDirectory) ==>
            r == s.(paths := s.paths.(outputText := WRONG_DIRECTORY_MESSAGE)))
  {
  }

  /**
   * A launch locks the whole window (every button disabled and hidden, the
   * start button included) and shows the loading screen, starts the poll
   * timer, and runs the pipeline command built from the two directories and
   * the options on the script thread.
   */
  lemma LaunchEffect(s: State, o: Options)
    requires Inv(s) && !s.quit && Clickable(s, StartButton)
    requires IsSet(s.paths.inputDirectory) && IsSet(s.paths.outputDirectory)
    ensures var r := Step(s, PressStart(o));
      && r.job.worker == Some(Command(false, s.paths.inputDirectory.value, s.paths.outputDirectory.value, o))
      && Decode(r.job.worker.value)
         == Some(Pipeline(s.paths.inputDirectory.value, s.paths.outputDirectory.value, o))
      && r.job.processTimer && !r.job.scriptCompleted
      && r.screen.animationTimer && r.screen.labels && r.screen.loadingMessage
      && (forall b :: !Flag(r.screen.enabled, b) && !Flag(r.screen.visible, b))
      && !r.screen.browsersVisible
      && r.paths == s.paths && r.viewers == s.viewers
  {
    CommandRoundTrip(false, s.paths.inputDirectory.value, s.paths.outputDirectory.value, o);
  }

  /** The end of the script thread: only exit code 0 raises the completion flag. */
  lemma ExitCodeHandling(s: State, outcome: Outcome)
    requires Inv(s) && !s.quit && s.job.worker.Some?
    ensures var r := Step(s, WorkerReturned(outcome));
      && (r.job.scriptCompleted <==> outcome == Exited(0))
      && r.job.worker.None?
      && r == s.(job := s.job.(worker := None, scriptCompleted := r.job.scriptCompleted))
  {
  }

  /** A poll tick without completion changes nothing. */
  lemma TickWithoutCompletion(s: State)
    requires !s.job.scriptCompleted
    ensures Step(s, ProcessTimerTimeout) == s
  {
  }

  /**
   * A poll tick that sees the flag consumes it: the flag is cleared, both
   * timers stop, the counter and the loading screen are reset, the whole
   * window is enabled and shown again, and processing is marked finished.
   */
  lemma TickConsumesCompletion(s: State)
    requires !s.quit && s.job.processTimer && s.job.scriptCompleted
    ensures var r := Step(s, ProcessTimerTimeout);
      && !r.job.scriptCompleted && !r.job.processTimer && !r.screen.animationTimer
      && r.screen.rotation == 0 && !r.screen.labels && !r.screen.loadingMessage
      && r.screen.background == DroneBackground
      && (forall b :: Clickable(r, b))
      && r.screen.browsersVisible
      && !r.job.processNotFinished
      && r.job.worker == s.job.worker && r.paths == s.paths && r.viewers == s.viewers
  {
  }

  /** Hence a second tick with no new completion does nothing. */
  lemma SecondTickIsNoOp(s: State)
    ensures Step(Step(s, ProcessTimerTimeout), ProcessTimerTimeout) == Step(s, ProcessTimerTimeout)
  {
  }

  /** A tick that consumes a completion. */
  predicate Fires(s: State, e: Event)
  {
    e == ProcessTimerTimeout && !s.quit && s.job.processTimer && s.job.scriptCompleted
  }

  /** How many ticks of es consume a completion, starting in s. */
  function Consumed(s: State, es: seq<Event>): nat
    decreases |es|
  {
    if es == [] then 0
    else (if Fires(s, es[0]) then 1 else 0) + Consumed(Step(s, es[0]), es[1..])
  }

  /** A return of the running script thread with exit code 0. */
  predicate ReturnsZero(s: State, e: Event)
  {
    e == WorkerReturned(Exited(0)) && !s.quit && s.job.worker.Some?
  }

  /** How many returns with exit code 0 reach the window over es, starting in s. */
  function Delivered(s: State, es: seq<Event>): nat
    decreases |es|
  {
    if es == [] then 0
    else (if ReturnsZero(s, es[0]) then 1 else 0) + Delivered(Step(s, es[0]), es[1..])
  }

  function Bit(b: bool): nat
  {
    if b then 1 else 0
  }

  /** Only a delivered zero exit raises the flag and only a firing tick lowers it. */
  lemma StepFlag(s: State, e: Event)
    ensures Bit(Fires(s, e)) + Bit(Step(s, e).job.scriptCompleted)
            <= Bit(ReturnsZero(s, e)) + Bit(s.job.scriptCompleted)
    ensures s.job.scriptCompleted && !Step(s, e).job.scriptCompleted ==> Fires(s, e)
    ensures !s.job.scriptCompleted && Step(s, e).job.scriptCompleted ==> ReturnsZero(s, e)
  {
    if !s.quit {
      match e
      case PressCloud =>
      case PressMesh =>
      case PressClose =>
      case ViewerExited(k) =>
      case _ =>
    }
  }

  /**
   * Completion is consumed at most once per successful run: over any
   * sequence of events, the firing ticks plus a completion still pending at
   * the end never outnumber the delivered zero exits plus a completion
   * pending at the start.
   */
  lemma {:induction false} CompletionConsumedAtMostOnce(s: State, es: seq<Event>)
    ensures Consumed(s, es) + Bit(Run(s, es).job.scriptCompleted) <= Delivered(s, es) + Bit(s.job.scriptCompleted)
    decreases |es|
  {
    if es != [] {
      StepFlag(s, es[0]);
      CompletionConsumedAtMostOnce(Step(s, es[0]), es[1..]);
    }
  }

  lemma FromStartConsumedAtMostOnce(inputText0: string, outputText0: string, es: seq<Event>)
    ensures Consumed(Initial(inputText0, outputText0), es) <= Delivered(Initial(inputText0, outputText0), es)
  {
    CompletionConsumedAtMostOnce(Initial(inputText0, outputText0), es);
  }

  /** A start click that launches a script thread. */
  predicate Launches(s: State, e: Event)
  {
    && e.PressStart? && !s.quit && Clickable(s, StartButton)
    && IsSet(s.paths.inputDirectory) && IsSet(s.paths.outputDirectory)
  }

  /** How many launches happen over es, starting in s. */
  function Launched(s: State, es: seq<Event>): nat
    decreases |es|
  {
    if es == [] then 0
    else (if Launches(s, es[0]) then 1 else 0) + Launched(Step(s, es[0]), es[1..])
  }

  /** Only a launch creates a script thread, and a delivered return ends it. */
  lemma StepWorker(s: State, e: Event)
    ensures Bit(ReturnsZero(s, e)) + Bit(Step(s, e).job.worker.Some?)
            <= Bit(Launches(s, e)) + Bit(s.job.worker.Some?)
    ensures !s.quit && s.job.worker.Some? && e.WorkerReturned? ==> Step(s, e).job.worker.None?
  {
    if !s.quit {
      match e
      case PressCloud =>
      case PressMesh =>
      case PressClose =>
      case ViewerExited(k) =>
      case _ =>
    }
  }

  /** Every delivered zero exit belongs to its own launch (or to the thread running at the start). */
  lemma {:induction false} ReturnsPerLaunch(s: State, es: seq<Event>)
    ensures Delivered(s, es) + Bit(Run(s, es).job.worker.Some?) <= Launched(s, es) + Bit(s.job.worker.Some?)
    decreases |es|
  {
    if es != [] {
      StepWorker(s, es[0]);
      ReturnsPerLaunch(Step(s, es[0]), es[1..]);
    }
  }

  /** From `__init__`, the window unlocks at most once per launched job. */
  lemma ConsumedPerLaunch(inputText0: string, outputText0: string, es: seq<Event>)
    ensures Consumed(Initial(inputText0, outputText0), es) <= Launched(Initial(inputText0, outputText0), es)
  {
    FromStartConsumedAtMostOnce(inputText0, outputText0, es);
    ReturnsPerLaunch(Initial(inputText0, outputText0), es);
  }

  /** With the window unlocked, no second unlock happens without a new start. */
  lemma NoConsumeWithoutLaunch(s: State, es: seq<Event>)
    requires Inv(s) && !s.job.processTimer
    ensures Consumed(s, es) <= Launched(s, es)
  {
    CompletionConsumedAtMostOnce(s, es);
    ReturnsPerLaunch(s, es);
  }

  /** A successful return is consumed by the very next poll tick. */
  lemma SuccessConsumedByNextTick(s: State)
    requires Inv(s) && !s.quit && s.job.worker.Some?
    ensures var r := Step(s, WorkerReturned(Exited(0)));
      && Fires(r, ProcessTimerTimeout)
      && !Step(r, ProcessTimerTimeout).job.processNotFinished
      && Clickable(Step(r, ProcessTimerTimeout), StartButton)
  {
  }

  /** While the poll timer runs no click reaches the window: a second start is not delivered. */
  lemma NoReentryWhileProcessing(s: State, e: Event)
    requires Inv(s) && s.job.processTimer
    requires e.ChooseInputDirectory? || e.ChooseOutputDirectory? || e.PressStart?
             || e.PressCloud? || e.PressMesh? || e.PressClose?
    ensures Step(s, e) == s
  {
  }

  lemma StepKeepsLock(s: State, e: Event)
    requires Inv(s) && s.job.processTimer && !Fires(s, e)
    ensures Step(s, e).job.processTimer
  {
    if !s.quit {
      match e
      case PressCloud =>
      case PressMesh =>
      case PressClose =>
      case ViewerExited(k) =>
      case _ =>
    }
  }

  /** From launch until a tick consumes a completion, every button stays disabled. */
  lemma {:induction false} LockedUntilConsumed(s: State, es: seq<Event>)
    requires Inv(s) && s.job.processTimer && Consumed(s, es) == 0
    ensures Run(s, es).job.processTimer
    ensures forall b :: !Clickable(Run(s, es), b)
    decreases |es|
  {
    if es != [] {
      StepInv(s, es[0]);
      StepKeepsLock(s, es[0]);
      LockedUntilConsumed(Step(s, es[0]), es[1..]);
    }
    RunInv(s, es);
  }

  /** The state a failing run leaves: locked, polling, with no thread and no completion. */
  ghost predicate Stuck(s: State)
  {
    Inv(s) && s.job.processTimer && s.job.worker.None? && !s.job.scriptCompleted
  }

  lemma FailureIsStuck(s: State, outcome: Outcome)
    requires Inv(s) && !s.quit && s.job.worker.Some? && outcome != Exited(0)
    ensures Stuck(Step(s, WorkerReturned(outcome)))
  {
    StepInv(s, WorkerReturned(outcome));
  }

  lemma StepKeepsStuck(s: State, e: Event)
    requires Stuck(s)
    ensures Stuck(Step(s, e))
  {
    StepInv(s, e);
    StepKeepsLock(s, e);
  }

  /**
   * After a failing run the window never unlocks: the flag is never raised
   * again, the poll timer keeps running and every button stays disabled.
   */
  lemma {:induction false} FailedRunStaysLocked(s: State, es: seq<Event>)
    requires Stuck(s)
    ensures Stuck(Run(s, es))
    ensures forall b :: !Clickable(Run(s, es), b)
    decreases |es|
  {
    if es != [] {
      StepKeepsStuck(s, es[0]);
      FailedRunStaysLocked(Step(s, es[0]), es[1..]);
    }
  }

  lemma StepKeepsFinished(s: State, e: Event)
    requires !s.job.processNotFinished
    ensures !Step(s, e).job.processNotFinished
  {
    if !s.quit {
      match e
      case PressCloud =>
      case PressMesh =>
      case PressClose =>
      case ViewerExited(k) =>
      case _ =>
    }
  }

  /** process_not_finished starts true and, once false, is never set back to true. */
  lemma {:induction false} ProcessFinishedIsFinal(s: State, es: seq<Event>)
    requires !s.job.processNotFinished
    ensures !Run(s, es).job.processNotFinished
    decreases |es|
  {
    if es != [] {
      StepKeepsFinished(s, es[0]);
      ProcessFinishedIsFinal(Step(s, es[0]), es[1..]);
    }
  }

  /** The animation counter stays in 0..360 and wraps from 360 to 0. */
  lemma RotationStep(r: int)
    requires 0 <= r <= 360
    ensures 0 <= NextRotation(r) <= 360
    ensures NextRotation(r) == (r + 1) % 361
  {
  }

  function AnimationTicks(n: nat): seq<Event>
  {
    seq(n, _ => AnimationTimerTimeout)
  }

  /** n animation ticks advance the counter by n modulo 361, so it cycles with period 361. */
  lemma {:induction false} RotationAfterTicks(s: State, n: nat)
    requires !s.quit && s.screen.animationTimer && 0 <= s.screen.rotation <= 360
    ensures Run(s, AnimationTicks(n)).screen.rotation == (s.screen.rotation + n) % 361
    ensures Run(s, AnimationTicks(n)).screen.animationTimer
    decreases n
  {
    if n > 0 {
      var es := AnimationTicks(n);
      assert es[0] == AnimationTimerTimeout;
      assert es[1..] == AnimationTicks(n - 1);
      RotationStep(s.screen.rotation);
      RotationAfterTicks(Step(s, AnimationTimerTimeout), n - 1);
    }
  }

  function Other(k: Kind): Kind
  {
    match k
    case CloudKind => MeshKind
    case MeshKind => CloudKind
  }

  /**
   * The slot rule of cloud_display / mesh_display: an empty slot gets the
   * new started process; a live one is terminated and replaced; a slot
   * holding a process that has ended is left alone and nothing is started.
   * The other slot never changes.
   */
  lemma RequestRule(v: Viewers, k: Kind, p: Proc)
    ensures var r := Request(v, k, p);
      && Slot(r, Other(k)) == Slot(v, Other(k))
      && (Slot(v, k).None? ==>
            Slot(r, k) == Some(p) && r.terminated == v.terminated && r.nextPid == v.nextPid + 1)
      && (Slot(v, k).Some? && Slot(v, k).value.alive ==>
            Slot(r, k) == Some(p) && r.terminated == v.terminated + [Slot(v, k).value]
            && r.nextPid == v.nextPid + 1)
      && (Slot(v, k).Some? && !Slot(v, k).value.alive ==> r == v)
  {
    match k
    case CloudKind =>
    case MeshKind =>
  }

  /**
   * Two requests in a row for the same kind, from an empty or live slot:
   * exactly the second handle is held and alive, and the first handle has been
   * terminated.
   */
  lemma SingleFlight(s: State, k: Kind)
    requires Slot(s.viewers, k).None? || Slot(s.viewers, k).value.alive
    ensures var r1 := Display(s, k); var r2 := Display(r1, k);
      && Slot(r1.viewers, k) == Some(NewProc(s, k))
      && Slot(r2.viewers, k) == Some(NewProc(r1, k))
      && Slot(r2.viewers, k).value.alive
      && Slot(r2.viewers, k).value.id == s.viewers.nextPid + 1
      && r2.viewers.terminated[|r2.viewers.terminated| - 1] == NewProc(s, k)
  {
    RequestRule(s.viewers, k, NewProc(s, k));
    var r1 := Display(s, k);
    RequestRule(r1.viewers, k, NewProc(r1, k));
  }

  lemma StepKeepsDeadSlot(s: State, e: Event, k: Kind)
    requires Slot(s.viewers, k).Some? && !Slot(s.viewers, k).value.alive
    ensures Slot(Step(s, e).viewers, k) == Slot(s.viewers, k)
  {
    var p := Slot(s.viewers, k).value;
    assert Terminate(p) == p;
    if !s.quit {
      match e
      case PressCloud => RequestRule(s.viewers, CloudKind, NewProc(s, CloudKind));
      case PressMesh => RequestRule(s.viewers, MeshKind, NewProc(s, MeshKind));
      case PressClose =>
      case ViewerExited(k') =>
      case _ =>
    }
  }

  /**
   * Once a viewer has ended by itself, its slot keeps the dead handle for
   * good: no sequence of events ever starts another viewer of that kind.
   */
  lemma {:induction false} DeadSlotNeverReopens(s: State, k: Kind, es: seq<Event>)
    requires Slot(s.viewers, k).Some? && !Slot(s.viewers, k).value.alive
    ensures Slot(Run(s, es).viewers, k) == Slot(s.viewers, k)
    decreases |es|
  {
    if es != [] {
      StepKeepsDeadSlot(s, es[0], k);
      DeadSlotNeverReopens(Step(s, es[0]), k, es[1..]);
    }
  }

  function Held(p: Option<Proc>): seq<Proc>
  {
    if p.Some? then [p.value] else []
  }

  /** close_app calls terminate on each non-empty slot, cloud first, and on no empty one. */
  lemma CloseTerminatesHeld(s: State)
    ensures var r := CloseApp(s);
      && r.viewers.terminated == s.viewers.terminated + Held(s.viewers.cloudProcess) + Held(s.viewers.meshProcess)
      && r.quit
      && (r.viewers.cloudProcess.Some? ==> !r.viewers.cloudProcess.value.alive)
      && (r.viewers.meshProcess.Some? ==> !r.viewers.meshProcess.value.alive)
      && r.viewers.cloudProcess.None? == s.viewers.cloudProcess.None?
      && r.viewers.meshProcess.None? == s.viewers.meshProcess.None?
  {
  }
}
