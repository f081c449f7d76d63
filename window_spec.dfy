/**
 * The control state of `MainWindow` (main.py) as a value, and one transition
 * function per handler.  Widgets are reduced to the flags the handlers set,
 * timers to whether they run, the pipeline thread to the command it runs,
 * and each visualisation process to a handle with an `alive` flag.
 */
module WindowSpec {
  import opened Wrappers
  import opened PyText
  import opened PipelineCommand

  const WRONG_DIRECTORY_MESSAGE := "Please select correct directory."
  const TEST_MODE_ON := false

  /** The eight buttons of the main window that `set_main_window_status` switches. */
  datatype Button =
    | CloseButton | InputDirButton | OutputDirButton | OptionsButton
    | StartButton | CloudButton | MeshButton | HelpButton

  /** The enabled (or visible) flag of each of the eight buttons. */
  datatype Panel = Panel(
    close: bool, inputDir: bool, outputDir: bool, options: bool,
    start: bool, cloud: bool, mesh: bool, help: bool)

  function Flag(p: Panel, b: Button): bool
  {
    match b
    case CloseButton => p.close
    case InputDirButton => p.inputDir
    case OutputDirButton => p.outputDir
    case OptionsButton => p.options
    case StartButton => p.start
    case CloudButton => p.cloud
    case MeshButton => p.mesh
    case HelpButton => p.help
  }

  datatype Background = DroneBackground | NoDroneBackground

  /** The two visualisation slots: `cloud_process` and `mesh_process`. */
  datatype Kind = CloudKind | MeshKind

  /** A `multiprocessing.Process` handle; `id` tells apart handles created at different times. */
  datatype Proc = Proc(id: nat, kind: Kind, argv: seq<string>, alive: bool)

  /** How the worker's `subprocess.run(command, check=True)` ends. */
  datatype Outcome =
    | Exited(code: int)   // the script ran and returned this exit code
    | LaunchFailed        // the command could not be started (an exception other than CalledProcessError)

  /** The two chosen directories and the text of the two text browsers. */
  datatype Paths = Paths(
    inputDirectory: Option<string>,
    outputDirectory: Option<string>,
    inputText: string,               // input_text_browser
    outputText: string               // output_text_browser
  )

  /** The main window's widgets and the loading-screen animation. */
  datatype Screen = Screen(
    enabled: Panel,
    visible: Panel,
    browsersVisible: bool,           // both text browsers
    labels: bool,                    // loading_label and trampoline_label exist
    loadingMessage: bool,            // loading_mess_butt is visible
    background: Background,
    animationTimer: bool,            // animation_timer is running
    rotation: int
  )

  /** The pipeline run: the flag shared with the script thread and the poll timer. */
  datatype Job = Job(
    scriptCompleted: bool,
    processTimer: bool,              // process_timer is running
    processNotFinished: bool,
    worker: Option<seq<string>>      // the command of the running script thread
  )

  /** The two display slots, the id of the next handle and every handle terminated. */
  datatype Viewers = Viewers(
    cloudProcess: Option<Proc>,
    meshProcess: Option<Proc>,
    nextPid: nat,
    terminated: seq<Proc>            // every handle `terminate` was called on, in order
  )

  datatype State = State(paths: Paths, screen: Screen, job: Job, viewers: Viewers, quit: bool)

  /** Every button given the same flag. */
  function Uniform(flag: bool): (p: Panel)
    ensures forall b :: Flag(p, b) == flag
  {
    Panel(flag, flag, flag, flag, flag, flag, flag, flag)
  }

  /** The state `__init__` leaves; the browsers' initial text comes from the .ui file. */
  function Initial(inputText0: string, outputText0: string): State
  {
    State(Paths(None, None, inputText0, outputText0),
          Screen(Uniform(true), Uniform(true), true, false, false, DroneBackground, false, 0),
          Job(false, false, true, None),
          Viewers(None, None, 0, []),
          false)
  }

  /** Python truthiness of a stored directory: neither None nor the empty string. */
  predicate IsSet(d: Option<string>)
  {
    d.Some? && d.value != ""
  }

  /** `str(d)` of a stored directory. */
  function DirString(d: Option<string>): string
  {
    if d.Some? then d.value else "None"
  }

  /** select_input_directory, given the dialog's answer ("" when cancelled). */
  function SelectInputDirectory(s: State, directory: string): State
  {
    if directory != "" then s.(paths := s.paths.(inputDirectory := Some(directory), inputText := directory))
    else s.(paths := s.paths.(inputText := WRONG_DIRECTORY_MESSAGE))
  }

  function SelectOutputDirectory(s: State, directory: string): State
  {
    if directory != "" then s.(paths := s.paths.(outputDirectory := Some(directory), outputText := directory))
    else s.(paths := s.paths.(outputText := WRONG_DIRECTORY_MESSAGE))
  }

  function SetMainWindowStatus(s: State, flag: bool): State
  {
    s.(screen := s.screen.(enabled := Uniform(flag), visible := Uniform(flag), browsersVisible := flag))
  }

  /** loading_screen: lock the window, then show the labels, the message and start the animation. */
  function LoadingScreen(s: State): State
  {
    var locked := SetMainWindowStatus(s, false);
    locked.(screen := locked.screen.(labels := true, background := NoDroneBackground,
                                     animationTimer := true, loadingMessage := true))
  }

  /** The command vector as the worker thread builds it from the current state. */
  function WorkerCommand(s: State, testWindows: bool, o: Options): seq<string>
  {
    Command(testWindows, DirString(s.paths.inputDirectory), DirString(s.paths.outputDirectory), o)
  }

  /** run_processing_script: start the poll timer, then the script thread. */
  function RunProcessingScript(s: State, testWindows: bool, o: Options): State
  {
    s.(job := s.job.(processTimer := true, worker := Some(WorkerCommand(s, testWindows, o))))
  }

  function StartProcess(s: State, o: Options): State
  {
    if IsSet(s.paths.inputDirectory) then
      if IsSet(s.paths.outputDirectory) then RunProcessingScript(LoadingScreen(s), TEST_MODE_ON, o)
      else s.(paths := s.paths.(outputText := WRONG_DIRECTORY_MESSAGE))
    else s.(paths := s.paths.(inputText := WRONG_DIRECTORY_MESSAGE))
  }

  /** The end of the worker thread: only a zero exit code reaches the assignment of the flag. */
  function ScriptReturned(s: State, outcome: Outcome): State
  {
    match outcome
    case Exited(code) =>
      if code != 0 then s.(job := s.job.(worker := None))  // CalledProcessError: printed, flag untouched
      else s.(job := s.job.(worker := None, scriptCompleted := code == 0))
    case LaunchFailed => s.(job := s.job.(worker := None))
  }

  function CheckScriptStatus(s: State): State
  {
    if s.job.scriptCompleted then
      var shown := SetMainWindowStatus(
        s.(screen := s.screen.(labels := false, rotation := 0, animationTimer := false,
                               loadingMessage := false, background := DroneBackground)), true);
      shown.(job := shown.job.(scriptCompleted := false, processTimer := false, processNotFinished := false))
    else s
  }

  /** The rotation step of animate_drone. */
  function NextRotation(r: int): int
  {
    if r == 360 then 0 else r + 1
  }

  function AnimateDrone(s: State): State
  {
    s.(screen := s.screen.(rotation := NextRotation(s.screen.rotation)))
  }

  function Slot(v: Viewers, k: Kind): Option<Proc>
  {
    match k
    case CloudKind => v.cloudProcess
    case MeshKind => v.meshProcess
  }

  function WithSlot(v: Viewers, k: Kind, p: Option<Proc>): Viewers
  {
    match k
    case CloudKind => v.(cloudProcess := p)
    case MeshKind => v.(meshProcess := p)
  }

  /** The viewer script a display process runs. */
  function ViewerScript(k: Kind): string
  {
    match k
    case CloudKind => "src/point_cloud_visualizer.py"
    case MeshKind => "src/mesh_lib.py"
  }

  /** The command line of a display process: the flag and the output text browser's content. */
  function ViewerCommand(s: State, k: Kind): seq<string>
  {
    ["python3", ViewerScript(k), BoolString(s.job.processNotFinished), s.paths.outputText]
  }

  /** A new, started handle for kind k. */
  function NewProc(s: State, k: Kind): Proc
  {
    Proc(s.viewers.nextPid, k, ViewerCommand(s, k), true)
  }

  function Terminate(p: Proc): Proc
  {
    p.(alive := false)
  }

  /** The slots after a request for kind k (cloud_display and mesh_display). */
  function Request(v: Viewers, k: Kind, started: Proc): Viewers
  {
    var slot := Slot(v, k);
    if slot.None? then
      WithSlot(v, k, Some(started)).(nextPid := v.nextPid + 1)
    else if slot.value.alive then
      WithSlot(v.(terminated := v.terminated + [slot.value]), k, Some(started)).(nextPid := v.nextPid + 1)
    else v
  }

  function Display(s: State, k: Kind): State
  {
    s.(viewers := Request(s.viewers, k, NewProc(s, k)))
  }

  /** A display process ending by itself (its viewer window was closed). */
  function ViewerEnded(s: State, k: Kind): State
  {
    var slot := Slot(s.viewers, k);
    if slot.Some? then s.(viewers := WithSlot(s.viewers, k, Some(Terminate(slot.value)))) else s
  }

  /** Terminates a non-empty slot, in the manner of close_app. */
  function TerminateSlot(v: Viewers, k: Kind): Viewers
  {
    var slot := Slot(v, k);
    if slot.Some? then WithSlot(v.(terminated := v.terminated + [slot.value]), k, Some(Terminate(slot.value)))
    else v
  }

  function CloseApp(s: State): State
  {
    s.(viewers := TerminateSlot(TerminateSlot(s.viewers, CloudKind), MeshKind), quit := true)
  }

  /** What reaches the window from the outside. */
  datatype Event =
    | ChooseInputDirectory(directory: string)   // input_dir_butt clicked, dialog answered
    | ChooseOutputDirectory(directory: string)  // output_dir_butt clicked, dialog answered
    | PressStart(options: Options)              // start_butt clicked, options window as it stands
    | PressCloud
    | PressMesh
    | PressClose
    | WorkerReturned(outcome: Outcome)          // the script thread reaches the end of run_script
    | ProcessTimerTimeout
    | AnimationTimerTimeout
    | ViewerExited(kind: Kind)

  /** Qt delivers a click only to an enabled, visible button. */
  predicate Clickable(s: State, b: Button)
  {
    Flag(s.screen.enabled, b) && Flag(s.screen.visible, b)
  }

  /**
   * One event, delivered the way the signal connections of `__init__` deliver
   * it: clicks on disabled buttons and timeouts of stopped timers are not
   * delivered, a thread returns only if one runs, and nothing reaches the
   * window after the application has quit.
   */
  function Step(s: State, e: Event): State
  {
    if s.quit then s
    else
      match e
      case ChooseInputDirectory(d) => if Clickable(s, InputDirButton) then SelectInputDirectory(s, d) else s
      case ChooseOutputDirectory(d) => if Clickable(s, OutputDirButton) then SelectOutputDirectory(s, d) else s
      case PressStart(o) => if Clickable(s, StartButton) then StartProcess(s, o) else s
      case PressCloud => if Clickable(s, CloudButton) then Display(s, CloudKind) else s
      case PressMesh => if Clickable(s, MeshButton) then Display(s, MeshKind) else s
      case PressClose => if Clickable(s, CloseButton) then CloseApp(s) else s
      case WorkerReturned(outcome) => if s.job.worker.Some? then ScriptReturned(s, outcome) else s
      case ProcessTimerTimeout => if s.job.processTimer then CheckScriptStatus(s) else s
      case AnimationTimerTimeout => if s.screen.animationTimer then AnimateDrone(s) else s
      case ViewerExited(k) => ViewerEnded(s, k)
  }

  function Run(s: State, es: seq<Event>): State
    decreases |es|
  {
    if es == [] then s else Run(Step(s, es[0]), es[1..])
  }

  predicate SlotWellFormed(slot: Option<Proc>, k: Kind, nextPid: nat)
  {
    slot.Some? ==> slot.value.kind == k && slot.value.id < nextPid
  }

  ghost predicate PathsInv(p: Paths)
  {
    && (p.inputDirectory.Some? ==> p.inputDirectory.value != "")
    && (p.outputDirectory.Some? ==> p.outputDirectory.value != "")
  }

  /** The screen while the poll timer is or is not running. */
  ghost predicate ScreenInv(sc: Screen, processing: bool)
  {
    && sc.enabled == Uniform(!processing)
    && sc.visible == Uniform(!processing)
    && sc.browsersVisible == !processing
    && sc.labels == processing
    && sc.animationTimer == processing
    && sc.loadingMessage == processing
    && sc.background == (if processing then NoDroneBackground else DroneBackground)
    && 0 <= sc.rotation <= 360
    && (!processing ==> sc.rotation == 0)
  }

  ghost predicate JobInv(j: Job)
  {
    && (j.worker.Some? ==> j.processTimer && !j.scriptCompleted)
    && (j.scriptCompleted ==> j.processTimer)
  }

  ghost predicate ViewersInv(v: Viewers)
  {
    && SlotWellFormed(v.cloudProcess, CloudKind, v.nextPid)
    && SlotWellFormed(v.meshProcess, MeshKind, v.nextPid)
  }

  /**
   * The invariant of every reachable state: the whole main window is locked
   * exactly while the poll timer runs, the loading screen is shown exactly
   * then, a script thread or an unconsumed completion only exists then, and
   * the rotation counter stays in 0..360.
   */
  ghost predicate Inv(s: State)
  {
    && PathsInv(s.paths)
    && ScreenInv(s.screen, s.job.processTimer)
    && JobInv(s.job)
    && ViewersInv(s.viewers)
    && (s.quit ==> !s.job.processTimer)
  }
}
