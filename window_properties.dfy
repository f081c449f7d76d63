/**
 * The invariant of the main window, proved for every reachable state.
 */
module WindowProperties {
  import opened Wrappers
  import opened PipelineCommand
  import opened WindowSpec

  lemma InitialInv(inputText0: string, outputText0: string)
    ensures Inv(Initial(inputText0, outputText0))
    ensures Initial(inputText0, outputText0).job.processNotFinished
    ensures forall b :: Clickable(Initial(inputText0, outputText0), b)
  {
  }

  lemma SelectInputInv(s: State, d: string)
    requires Inv(s)
    ensures Inv(SelectInputDirectory(s, d))
  {
  }

  lemma SelectOutputInv(s: State, d: string)
    requires Inv(s)
    ensures Inv(SelectOutputDirectory(s, d))
  {
  }

  lemma StartInv(s: State, o: Options)
    requires Inv(s) && !s.job.processTimer && !s.quit
    ensures Inv(StartProcess(s, o))
  {
  }

  lemma ReturnedInv(s: State, outcome: Outcome)
    requires Inv(s) && s.job.worker.Some?
    ensures Inv(ScriptReturned(s, outcome))
  {
  }

  lemma CheckInv(s: State)
    requires Inv(s) && s.job.processTimer
    ensures Inv(CheckScriptStatus(s))
  {
  }

  lemma AnimateInv(s: State)
    requires Inv(s) && s.screen.animationTimer
    ensures Inv(AnimateDrone(s))
  {
  }

  lemma RequestInv(v: Viewers, k: Kind, p: Proc)
    requires ViewersInv(v) && p.kind == k && p.id == v.nextPid
    ensures ViewersInv(Request(v, k, p))
  {
    match k
    case CloudKind =>
    case MeshKind =>
  }

  lemma DisplayInv(s: State, k: Kind)
    requires Inv(s)
    ensures Inv(Display(s, k))
  {
    RequestInv(s.viewers, k, NewProc(s, k));
  }

  lemma ViewerEndedInv(s: State, k: Kind)
    requires Inv(s)
    ensures Inv(ViewerEnded(s, k))
  {
    match k
    case CloudKind =>
    case MeshKind =>
  }

  lemma CloseInv(s: State)
    requires Inv(s) && !s.job.processTimer
    ensures Inv(CloseApp(s))
  {
  }

  lemma StepInv(s: State, e: Event)
    requires Inv(s)
    ensures Inv(Step(s, e))
  {
    if !s.quit {
      match e
      case ChooseInputDirectory(d) => SelectInputInv(s, d);
      case ChooseOutputDirectory(d) => SelectOutputInv(s, d);
      case PressStart(o) => if Clickable(s, StartButton) { StartInv(s, o); }
      case PressCloud => DisplayInv(s, CloudKind);
      case PressMesh => DisplayInv(s, MeshKind);
      case PressClose => if Clickable(s, CloseButton) { CloseInv(s); }
      case WorkerReturned(outcome) => if s.job.worker.Some? { ReturnedInv(s, outcome); }
      case ProcessTimerTimeout => if s.job.processTimer { CheckInv(s); }
      case AnimationTimerTimeout => if s.screen.animationTimer { AnimateInv(s); }
      case ViewerExited(k) => ViewerEndedInv(s, k);
    }
  }

  lemma {:induction false} RunInv(s: State, es: seq<Event>)
    requires Inv(s)
    ensures Inv(Run(s, es))
    decreases |es|
  {
    if es != [] {
      StepInv(s, es[0]);
      RunInv(Step(s, es[0]), es[1..]);
    }
  }

  /** Every state the window can reach from its start satisfies Inv. */
  lemma ReachableInv(inputText0: string, outputText0: string, es: seq<Event>)
    ensures Inv(Run(Initial(inputText0, outputText0), es))
  {
    InitialInv(inputText0, outputText0);
    RunInv(Initial(inputText0, outputText0), es);
  }
}
