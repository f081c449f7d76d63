/**
 * `MainWindow` of main.py as a class: its fields hold the attributes the
 * handlers update, grouped as in WindowSpec.State, and each handler is a
 * method that updates them statement by statement; its new state is the
 * matching transition function of WindowSpec applied to the old state.
 */
module Window {
  import opened Wrappers
  import opened PyText
  import opened PipelineCommand
  import opened WindowSpec
  import opened WindowProperties

  class MainWindow {
    // The attributes of main.py's MainWindow, grouped as in WindowSpec.State.
    var paths: Paths       // input_directory, output_directory and the two text browsers
    var screen: Screen     // the buttons, the loading labels, the animation timer and rotation
    var job: Job           // script_completed, process_timer, process_not_finished, the script thread
    var viewers: Viewers   // cloud_process, mesh_process
    var quit: bool         // app.quit() was called

    function Snapshot(): State
      reads this
    {
      State(paths, screen, job, viewers, quit)
    }

    constructor (inputText0: string, outputText0: string)
      ensures Snapshot() == Initial(inputText0, outputText0)
      ensures Inv(Snapshot())
    {
      paths := Paths(None, None, inputText0, outputText0);
      job := Job(false, false, true, None);
      screen := Screen(Uniform(true), Uniform(true), true, false, false, DroneBackground, false, 0);
      viewers := Viewers(None, None, 0, []);
      quit := false;
      InitialInv(inputText0, outputText0);
    }

    method SelectInputDirectory(directory: string)
      modifies this`paths
      ensures Snapshot() == WindowSpec.SelectInputDirectory(old(Snapshot()), directory)
    {
      if directory != "" {
        paths := paths.(inputDirectory := Some(directory));
        paths := paths.(inputText := directory);
      } else {
        paths := paths.(inputText := WRONG_DIRECTORY_MESSAGE);
      }
    }

    method SelectOutputDirectory(directory: string)
      modifies this`paths
      ensures Snapshot() == WindowSpec.SelectOutputDirectory(old(Snapshot()), directory)
    {
      if directory != "" {
        paths := paths.(outputDirectory := Some(directory));
        paths := paths.(outputText := directory);
      } else {
        paths := paths.(outputText := WRONG_DIRECTORY_MESSAGE);
      }
    }

    method SetMainWindowStatus(flag: bool)
      modifies this`screen
      ensures Snapshot() == WindowSpec.SetMainWindowStatus(old(Snapshot()), flag)
    {
      screen := screen.(enabled := screen.enabled.(close := flag, inputDir := flag, outputDir := flag,
                                                   options := flag, start := flag, cloud := flag,
                                                   mesh := flag, help := flag));
      screen := screen.(visible := screen.visible.(close := flag, inputDir := flag, outputDir := flag,
                                                   options := flag, start := flag, cloud := flag,
                                                   mesh := flag, help := flag));
      screen := screen.(browsersVisible := flag);
    }

    method LoadingScreen()
      modifies this`screen
      ensures Snapshot() == WindowSpec.LoadingScreen(old(Snapshot()))
    {
      SetMainWindowStatus(false);
      screen := screen.(labels := true);
      screen := screen.(background := NoDroneBackground);
      screen := screen.(animationTimer := true);
      screen := screen.(loadingMessage := true);
    }

    /** Starts the poll timer, then the script thread with the command it will run. */
    method RunProcessingScript(testWindows: bool, o: Options)
      modifies this`job
      ensures Snapshot() == WindowSpec.RunProcessingScript(old(Snapshot()), testWindows, o)
    {
      job := job.(processTimer := true);
      var command := Command(testWindows, DirString(paths.inputDirectory), DirString(paths.outputDirectory), o);
      job := job.(worker := Some(command));
    }

    method StartProcess(o: Options)
      modifies this`paths, this`screen, this`job
      ensures Snapshot() == WindowSpec.StartProcess(old(Snapshot()), o)
    {
      if IsSet(paths.inputDirectory) {
        if IsSet(paths.outputDirectory) {
          LoadingScreen();
          RunProcessingScript(TEST_MODE_ON, o);
        } else {
          paths := paths.(outputText := WRONG_DIRECTORY_MESSAGE);
        }
      } else {
        paths := paths.(inputText := WRONG_DIRECTORY_MESSAGE);
      }
    }

    /** The end of `run_script` on the script thread, once `subprocess.run` is done. */
    method ScriptReturned(outcome: Outcome)
      requires job.worker.Some?
      modifies this`job
      ensures Snapshot() == WindowSpec.ScriptReturned(old(Snapshot()), outcome)
    {
      match outcome {
        case Exited(code) =>
          // with check=True a non-zero exit code raises CalledProcessError instead
          if code == 0 {
            job := job.(scriptCompleted := code == 0);
          }
        case LaunchFailed =>
      }
      // the thread has ended
      job := job.(worker := None);
    }

    /** The poll timer's handler; closing the labels needs them to exist. */
    method CheckScriptStatus()
      requires job.scriptCompleted ==> screen.labels
      modifies this`screen, this`job
      ensures Snapshot() == WindowSpec.CheckScriptStatus(old(Snapshot()))
    {
      if job.scriptCompleted {
        screen := screen.(labels := false);
        screen := screen.(rotation := 0);
        screen := screen.(animationTimer := false);
        screen := screen.(loadingMessage := false);
        screen := screen.(background := DroneBackground);
        SetMainWindowStatus(true);
        job := job.(scriptCompleted := false);
        job := job.(processTimer := false);
        job := job.(processNotFinished := false);
      }
    }

    /** The animation timer's handler; it draws on the loading label. */
    method AnimateDrone()
      requires screen.labels
      modifies this`screen
      ensures Snapshot() == WindowSpec.AnimateDrone(old(Snapshot()))
    {
      if screen.rotation == 360 {
        screen := screen.(rotation := 0);
      } else {
        screen := screen.(rotation := screen.rotation + 1);
      }
    }

    /** Creates and starts a display process of kind k. */
    method StartViewer(k: Kind) returns (p: Proc)
      modifies this`viewers
      ensures p == NewProc(old(Snapshot()), k)
      ensures viewers == old(viewers).(nextPid := old(viewers.nextPid) + 1)
    {
      p := Proc(viewers.nextPid, k, ["python3", ViewerScript(k), BoolString(job.processNotFinished), paths.outputText], true);
      viewers := viewers.(nextPid := viewers.nextPid + 1);
    }

    method CloudDisplay()
      modifies this`viewers
      ensures Snapshot() == Display(old(Snapshot()), CloudKind)
    {
      if viewers.cloudProcess.None? {
        var p := StartViewer(CloudKind);
        viewers := viewers.(cloudProcess := Some(p));
      } else if viewers.cloudProcess.value.alive {
        viewers := viewers.(terminated := viewers.terminated + [viewers.cloudProcess.value]);
        var p := StartViewer(CloudKind);
        viewers := viewers.(cloudProcess := Some(p));
      }
    }

    method MeshDisplay()
      modifies this`viewers
      ensures Snapshot() == Display(old(Snapshot()), MeshKind)
    {
      if viewers.meshProcess.None? {
        var p := StartViewer(MeshKind);
        viewers := viewers.(meshProcess := Some(p));
      } else if viewers.meshProcess.value.alive {
        viewers := viewers.(terminated := viewers.terminated + [viewers.meshProcess.value]);
        var p := StartViewer(MeshKind);
        viewers := viewers.(meshProcess := Some(p));
      }
    }

    /** A display process ending by itself. */
    method ViewerExited(k: Kind)
      modifies this`viewers
      ensures Snapshot() == ViewerEnded(old(Snapshot()), k)
    {
      match k
      case CloudKind =>
        if viewers.cloudProcess.Some? {
          viewers := viewers.(cloudProcess := Some(Terminate(viewers.cloudProcess.value)));
        }
      case MeshKind =>
        if viewers.meshProcess.Some? {
          viewers := viewers.(meshProcess := Some(Terminate(viewers.meshProcess.value)));
        }
    }

    method CloseApp()
      modifies this`viewers, this`quit
      ensures Snapshot() == WindowSpec.CloseApp(old(Snapshot()))
    {
      if viewers.cloudProcess.Some? {
        viewers := viewers.(terminated := viewers.terminated + [viewers.cloudProcess.value]);
        viewers := viewers.(cloudProcess := Some(Terminate(viewers.cloudProcess.value)));
      }
      if viewers.meshProcess.Some? {
        viewers := viewers.(terminated := viewers.terminated + [viewers.meshProcess.value]);
        viewers := viewers.(meshProcess := Some(Terminate(viewers.meshProcess.value)));
      }
      quit := true;
    }

    /**
     * The Qt event loop handing one event to the window through the signal
     * connections of `__init__`; it keeps the invariant.
     */
    method Handle(e: Event)
      requires Inv(Snapshot())
      modifies this
      ensures Snapshot() == Step(old(Snapshot()), e)
      ensures Inv(Snapshot())
    {
      StepInv(Snapshot(), e);
      if quit {
        return;
      }
      var s := Snapshot();
      match e
      case ChooseInputDirectory(d) =>
        if Clickable(s, InputDirButton) { SelectInputDirectory(d); }
      case ChooseOutputDirectory(d) =>
        if Clickable(s, OutputDirButton) { SelectOutputDirectory(d); }
      case PressStart(o) =>
        if Clickable(s, StartButton) { StartProcess(o); }
      case PressCloud =>
        if Clickable(s, CloudButton) { CloudDisplay(); }
      case PressMesh =>
        if Clickable(s, MeshButton) { MeshDisplay(); }
      case PressClose =>
        if Clickable(s, CloseButton) { CloseApp(); }
      case WorkerReturned(outcome) =>
        if job.worker.Some? { ScriptReturned(outcome); }
      case ProcessTimerTimeout =>
        if job.processTimer { CheckScriptStatus(); }
      case AnimationTimerTimeout =>
        if screen.animationTimer { AnimateDrone(); }
      case ViewerExited(k) =>
        ViewerExited(k);
    }
  }
}
