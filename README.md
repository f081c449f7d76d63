# MainWindow control state of building_mapping_drone

`main.py` is the Qt front end of a photogrammetry pipeline. The user picks an
input and an output directory and presses start. The window then locks itself
and shows an animated loading screen. `./tools/pipeline.sh` runs on a script
thread while a one-second poll timer waits for the thread's completion flag.
Once the flag is seen, the window unlocks again. Two buttons open a
point-cloud viewer and a mesh viewer, each as a separate process held in a
per-kind slot. The close button terminates the handles the slots hold and
quits.

This project models that control state and proves its properties:

- `PyText` — Python's `str` rendering of the values that go on the command
  line (`int`, `int(bool)`, `bool` and `float(v / 10)`). The `int` and
  `float` renderings have a decoder and a round-trip lemma. The contracts of
  the two boolean renderings say which string stands for true.
- `PipelineCommand` — the argument vector that `run_processing_script` builds.
  Its decoder `Decode` is the reference: every vector decodes back to the
  directories and options it was built from.
- `WindowSpec` — the window's state as a value (`State`, in four parts: paths,
  screen, job, viewers) and one transition function per handler.
  - `Step` delivers an event the way the Qt connections of `__init__` do: a
    click reaches only an enabled, visible button; a timer tick arrives only
    while its timer runs; the script thread returns only if one is running;
    nothing arrives after `app.quit()`.
  - `Run` folds `Step` over a sequence of events.
  - `Inv` is the invariant of every reachable state.
- `WindowProperties` — each handler keeps `Inv`, and hence so does every
  reachable state.
- `HandlerProperties` — what each handler does, stated for one event and for
  every sequence of events:
  - the launch guard;
  - the completion-flag protocol;
  - the UI lock;
  - the display-slot rule;
  - the rotation counter;
  - shutdown.
- `Window` — the class `MainWindow`. Its fields are the attributes that the
  handlers assign, and it has one method per handler. Each method's
  postcondition says that its new state is the matching `WindowSpec` function
  applied to its old state. `Handle` dispatches one event as `Step` does and
  keeps `Inv`.

The model makes these choices:

- Widgets are reduced to the flags the handlers set:
  - the enabled and visible flags of the eight buttons (`Panel`);
  - the visibility of the text browsers, the labels, the loading message and
    the background picture;
  - whether each timer runs.
- The script thread is represented by the command it runs. Its return is an
  event that carries the outcome of `subprocess.run(command, check=True)`:
  an exit code, or a launch failure.
- A `multiprocessing.Process` handle is a value with an id, its kind, the
  command line of its viewer and an `alive` flag. `terminate()` clears the
  flag and appends the handle to a log of terminated handles, so contracts can
  say which handles were terminated. This is the handle's own process only; see
  "Behaviour worth knowing".
- A viewer ending by itself, through its window being closed, is the event
  `ViewerExited`.
- The text the text browsers show before any directory is chosen comes from
  the `.ui` file, so the constructor takes it as parameters.
- The `.ui` file is not part of this model. The eight buttons are taken to
  start enabled and visible. `__init__` enables the cloud and mesh buttons
  explicitly (main.py:65-66).

## Model

| member | source | states |
|---|---|---|
| PyText.NatToStringRoundTrip | main.py:345-355 | the decimal digits of `str(n)` read back as n |
| PyText.IntToStringRoundTrip | main.py:345-354 | `str(i)` of a slider value, minus sign included, reads back as i |
| PyText.IntToString | main.py:345-354 | `str(i)` is non-empty and starts with '-' exactly when i is negative |
| PyText.BitString | main.py:350-351 | `str(int(b))` is "0" or "1", and "1" exactly when b |
| PyText.BoolString | main.py:500 | `str(b)` is "True" exactly when b and "False" exactly when not b |
| PyText.TenthsString | main.py:349 | `str(float(v / 10))` ends in a point and one digit, and starts with '-' exactly when v is negative |
| PyText.TenthsStringRoundTrip | main.py:349 | the `-s` text of decimation value v reads back as v |
| PipelineCommand.Values | main.py:342-354 | one value per flag of the pipeline script |
| PipelineCommand.InterleaveAt | main.py:342-354 | in the extended list, flag k sits at 2k and its value at 2k+1 |
| PipelineCommand.Command | main.py:339-342 | the test command has 2 elements starting with "python3"; a pipeline command has one element per flag and per value after "./tools/pipeline.sh" |
| PipelineCommand.CommandLayout | main.py:341-355 | a pipeline vector is 23 strings: the script, then "-i" "-o" "-m" "-e" "-v" "-s" "-d" "-r" "-t" "-p" "-x" in that order, each followed by its value; the directories verbatim; `-d` `-r` `-x` rendered "0" or "1" |
| PipelineCommand.CommandRoundTrip | main.py:339-355 | decoding a vector gives back the test invocation, or exactly the directories and options it was built from |
| PipelineCommand.CommandInjective | main.py:339-355 | different directories or options never give the same vector |
| WindowSpec.Uniform | main.py:406-422 | `set_main_window_status(flag)` gives every button the same flag |
| WindowProperties.InitialInv | main.py:40-142 | the window after `__init__` satisfies the invariant, is unlocked and has `process_not_finished` true |
| WindowProperties.StepInv | main.py:196-527 | every delivered event keeps the invariant: locked exactly while the poll timer runs, loading screen shown exactly then, a thread or a pending completion only then, rotation in 0..360 |
| WindowProperties.ReachableInv | main.py:40-527 | every state reachable from `__init__` satisfies the invariant |
| HandlerProperties.DirectorySelection | main.py:207-235 | a non-empty choice is stored and shown; a cancelled dialog only shows the message and keeps the stored directory; nothing else changes |
| HandlerProperties.LaunchGuard | main.py:427-440 | a job is launched exactly when both directories are set; otherwise only the box of the first missing directory changes, to the message |
| HandlerProperties.LaunchEffect | main.py:328-467 | a launch disables and hides every button, start included; shows the loading screen; starts the poll and animation timers; runs the pipeline vector of the two directories and the options |
| HandlerProperties.ExitCodeHandling | main.py:356-361 | the thread's return raises the completion flag exactly when the exit code is 0, and changes nothing else |
| HandlerProperties.TickWithoutCompletion | main.py:378 | a poll tick without the flag changes nothing |
| HandlerProperties.TickConsumesCompletion | main.py:378-396 | a tick with the flag clears it, stops both timers, resets rotation and the loading screen, re-enables and shows every button, and marks processing finished |
| HandlerProperties.SecondTickIsNoOp | main.py:378-396 | a second tick after a tick does nothing |
| HandlerProperties.CompletionConsumedAtMostOnce | main.py:356-396 | over any event sequence, firing ticks plus a completion still pending never exceed the zero exits of a running thread plus a completion pending at the start |
| HandlerProperties.FromStartConsumedAtMostOnce | main.py:356-396 | from `__init__`, ticks consume a completion no more often than a running script thread returns with exit code 0 |
| HandlerProperties.StepWorker | main.py:356-367 | only a launch creates a script thread, and every delivered return of the running thread ends it, whatever its outcome |
| HandlerProperties.ReturnsPerLaunch | main.py:356-367 | over any event sequence, delivered zero exits plus a thread still running never exceed the launches plus a thread running at the start |
| HandlerProperties.ConsumedPerLaunch | main.py:356-440 | from `__init__`, the window unlocks at most once per launched job |
| HandlerProperties.NoConsumeWithoutLaunch | main.py:356-440 | from any reachable unlocked state, the unlocks over any event sequence never outnumber the new starts |
| HandlerProperties.SuccessConsumedByNextTick | main.py:356-396 | after a zero exit, the next tick consumes the flag and unlocks the start button |
| HandlerProperties.NoReentryWhileProcessing | main.py:398-425 | while the poll timer runs, no click reaches the window, a second start included |
| HandlerProperties.StepKeepsLock | main.py:363-394 | the poll timer stops only on a tick that consumes a completion |
| HandlerProperties.LockedUntilConsumed | main.py:398-425 | from launch until a tick consumes the flag, the poll timer runs and every button is disabled |
| HandlerProperties.FailureIsStuck | main.py:356-361 | a non-zero exit or a launch failure leaves the window locked, polling, without thread or flag |
| HandlerProperties.FailedRunStaysLocked | main.py:356-378 | after a failed run, no sequence of events unlocks the window again |
| HandlerProperties.StepKeepsStuck | main.py:356-378 | the locked state after a failure is kept by every event |
| HandlerProperties.StepKeepsFinished | main.py:378-396 | no event sets `process_not_finished` back to true |
| HandlerProperties.ProcessFinishedIsFinal | main.py:48-396 | once false, `process_not_finished` stays false over any event sequence |
| HandlerProperties.StepFlag | main.py:356-396 | only a zero exit of the running thread raises the flag, and only a firing tick lowers it; one event never does both |
| HandlerProperties.RotationStep | main.py:473-476 | the rotation stays in 0..360; 360 wraps to 0, and otherwise it grows by one, i.e. (r + 1) mod 361 |
| HandlerProperties.RotationAfterTicks | main.py:466-476 | n animation ticks advance the rotation by n modulo 361 |
| HandlerProperties.RequestRule | main.py:504-527 | an empty slot gets the new started process; a live one is terminated and replaced; a slot holding an ended process is left alone and nothing starts; the other slot is untouched |
| HandlerProperties.SingleFlight | main.py:504-527 | two requests in a row from an empty or live slot: the second handle is held and alive, and the first handle was terminated |
| HandlerProperties.StepKeepsDeadSlot | main.py:504-527 | no event changes a slot that holds an ended process |
| HandlerProperties.DeadSlotNeverReopens | main.py:504-527 | once a viewer has ended by itself, no event sequence starts another viewer of that kind |
| HandlerProperties.CloseTerminatesHeld | main.py:196-205 | `close_app` terminates each non-empty slot, cloud first, and no empty one, then quits |
| Window.MainWindow.constructor | main.py:40-142 | the new window is `WindowSpec.Initial` and satisfies the invariant |
| Window.MainWindow.SelectInputDirectory | main.py:207-220 | the new state is `WindowSpec.SelectInputDirectory` applied to the old state |
| Window.MainWindow.SelectOutputDirectory | main.py:222-235 | the new state is `WindowSpec.SelectOutputDirectory` applied to the old state |
| Window.MainWindow.SetMainWindowStatus | main.py:398-425 | the new state is `WindowSpec.SetMainWindowStatus`: all eight buttons and both browsers get the flag, and nothing else changes |
| Window.MainWindow.LoadingScreen | main.py:446-467 | the new state is `WindowSpec.LoadingScreen`: the window is locked, the labels and message are shown, the background is swapped and the animation timer runs |
| Window.MainWindow.RunProcessingScript | main.py:328-367 | the new state is `WindowSpec.RunProcessingScript`: the poll timer runs and the thread runs the vector built from the stored directories |
| Window.MainWindow.StartProcess | main.py:427-440 | the new state is `WindowSpec.StartProcess` applied to the old state |
| Window.MainWindow.ScriptReturned | main.py:337-361 | the new state is `WindowSpec.ScriptReturned`: the thread is gone and the flag is set only by exit code 0 |
| Window.MainWindow.CheckScriptStatus | main.py:369-396 | the new state is `WindowSpec.CheckScriptStatus` applied to the old state |
| Window.MainWindow.AnimateDrone | main.py:469-476 | the new state is `WindowSpec.AnimateDrone`: the rotation moves one step of the 0..360 cycle |
| Window.MainWindow.StartViewer | main.py:494-510 | the handle is `WindowSpec.NewProc`: alive, with the next id and the viewer's command line |
| Window.MainWindow.CloudDisplay | main.py:494-510 | the new state is `WindowSpec.Display` for the cloud kind: the cloud slot follows the slot rule |
| Window.MainWindow.MeshDisplay | main.py:512-527 | the new state is `WindowSpec.Display` for the mesh kind: the mesh slot follows the slot rule |
| Window.MainWindow.ViewerExited | main.py:504-527 | the new state is `WindowSpec.ViewerEnded`: a viewer ending by itself leaves its handle in the slot, no longer alive |
| Window.MainWindow.CloseApp | main.py:196-205 | the new state is `WindowSpec.CloseApp`: both non-empty slots are terminated, cloud first, and the application quits |
| Window.MainWindow.Handle | main.py:46-126 | the new state is `WindowSpec.Step`: one event delivered as the signal connections deliver it; the invariant is kept |

## Behaviour worth knowing

The lemmas named below pin down behaviour of `main.py` that is easy to miss.

- A second start is never delivered while a job runs: `loading_screen`
  disables the start button (`NoReentryWhileProcessing`). There is no error
  path for it.
- A failed run leaves the window locked for good. A non-zero exit takes the
  `CalledProcessError` branch, which only prints. A launch failure ends the
  thread. In both cases the flag is never raised, so the poll timer keeps
  running and no button comes back (`FailedRunStaysLocked`).
- A viewer that has ended by itself is never reopened. The `elif ... is_alive()`
  branch leaves that slot alone, so no viewer of that kind starts again
  (`DeadSlotNeverReopens`).
- `terminate()` ends only the handle's own process. Each slot holds a
  `multiprocessing.Process` whose target runs the viewer through
  `subprocess.run` (main.py:499-502, main.py:517-519). Terminating the handle
  orphans that viewer, so its window stays open: next to the new one when a
  live slot is replaced, and after `close_app`. The model tracks the handles,
  not the viewers they started.
- `close_app` terminates only the two viewer slots. It does not stop the
  pipeline thread, but the close button is disabled while the pipeline runs.
- The window unlocks at most once per delivered zero exit
  (`CompletionConsumedAtMostOnce`), and hence at most once per launched job
  (`ConsumedPerLaunch`).

## Left out

- Qt rendering:
  - pixmaps, the label positions and `show()` calls;
  - the drone picture's position computed with `np.cos`/`np.deg2rad` at
    main.py:477-488, which is floating-point drawing;
  - cursors and mouse-drag window movement (main.py:296-322).
- The options window and the help window:
  - opening, closing and applying options (main.py:237-290);
  - the slider label texts;
  - the help pages (main.py:153-189).
  The options come in with the start event as the values the sliders and radio
  buttons hold.
- Hiding the main window while those windows are open is not modelled: a click
  is delivered whenever its button is enabled and visible.
- `subprocess.run`, `threading.Thread`, `multiprocessing.Process` and the
  `QTimer` cadence are not executed:
  - the script thread's return is an event;
  - the timers are flags;
  - the viewers are handles.
- The script thread reads the directories and options when it runs, not when it
  is started. The model builds the vector at launch. Nothing can change those
  values in between, because the window is locked (`NoReentryWhileProcessing`).
- The `print` calls are left out, as is the exception traceback of a thread that
  fails to launch. The script itself writes straight to the console:
  `subprocess.run` is called without capturing output. None of this affects the
  state.
- PyText.TenthsString: is exact only for |v| < 10^15. Above that, Python's
  float `v / 10` loses its tenths digit and, from 10^16 on, prints in exponent
  notation. The options window's sliders range far below that.
- Window.MainWindow.CheckScriptStatus: requires the loading labels to exist when
  the flag is set, since `self.loading_label.close()` would otherwise raise. The
  invariant guarantees this for every reachable state.
- Window.MainWindow.AnimateDrone: requires the loading label to exist, since
  `self.loading_label.setPixmap` needs it. The animation timer runs only while it
  exists.
- Window.MainWindow.ScriptReturned: requires a running thread, since only a
  started thread can return.
- src/point_cloud_visualizer.py and src/mesh_lib.py are not part of this model:
  they are Open3D viewers and geometry that run in the display processes.
