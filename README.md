# AdbMirror, modelled in Dafny

AdbMirror is a Windows desktop tool that mirrors an Android phone's screen. It polls the
Android Debug Bridge (`adb`) for connected devices and classifies the result into one
high-level device state. It launches `scrcpy` for the chosen device with a quality
preset, and drives a small window through a view model (button text, status text, log).

This project models the three pieces of sequential logic at the core of that program,
and proves properties of them:

- `adb.dfy` (module `Adb`): the `adb` client.
  - The availability check over the result of `adb version`.
  - The line-by-line parser of `adb devices -l`, written as a `while` loop proved
    against a specification function.
  - The classification into a `DeviceState`.
  - The choice of the adb executable among candidate paths.
  - Each command's result (exit code, standard output, standard error, or an exception
    message) is an input.
- `scrcpy.dfy` (module `Scrcpy`): the mirror-session supervisor.
  - Specification functions over a `Supervisor` value, and the class `ScrcpyService`,
    whose methods are proved against them.
  - The supervisor is a one-slot state machine: `StartMirroring` always stops first, so
    at most one process is held.
  - Processes are numbered handles, with ghost bookkeeping of which were released,
    killed or have exited. Whether the executable exists and whether the launch succeeds
    are inputs (`StartEnv`).
  - The argument builder and the exit-summary builder are pure functions. Each one is
    proved to be read back by an independent reader.
- `viewmodel.dfy` (module `ViewModel`): the window's controller.
  - The event handlers are mutually recursive functions over a `Controller` value. The
    class `MainViewModel` has one method per handler, proved against those functions.
  - The poll loop becomes an arbitrary sequence of `(state, device)` deliveries.
  - Each event carries what the world answers if it starts a session.
- `text.dfy` (module `Text`) holds the .NET string operations the core relies on:
  - white-space tests, `Trim` and splitting on white space;
  - line reading with `StringReader.ReadLine`;
  - ordinal-ignore-case prefix tests;
  - decimal formatting of integers.
- `devices.dfy` holds the `DeviceState` enum and the `AndroidDevice` record.
- `wrappers.dfy` holds `Option` and `Result`.

Two behaviours of the controller are proved as stated, because the code does them.
The text on both sides describes a different intent.

- After a successful auto-start, the session runs but the button reads "Mirror". The
  Connected branch resets the text after starting (`AutoStartLeavesMirrorText`). This
  lasts until the next delivery, about one second later with the one-second poll: while
  mirroring, every delivery shows "Stop" again (`StateChanged`).
- A Stop click can start a new session at once (`StopClickCanRestart`). This happens
  after a manual start in the MultipleDevices state, followed by a Connected delivery
  for the same device while mirroring. The serial was never recorded as auto-started,
  so the re-evaluation after the stop auto-starts it.

## Model

| member | source | states |
|---|---|---|
| Adb.IsAdbAvailable | AdbMirror/Core/AdbService.cs:147-166 | available exactly when `adb version` ran with exit code 0; no error exactly when available; on a non-zero exit the error is standard error unless that is blank, then standard output; an exception gives its message |
| Adb.TimedOutIsUnavailable | AdbMirror/Core/AdbService.cs:147-166 | the runner's timeout result (-1, "", "adb command timed out") makes adb unavailable with that message |
| Adb.ModelOf | AdbMirror/Core/AdbService.cs:207-208 | the text after "model:" in the first token carrying the tag in any case, and "" when no token carries it |
| Adb.ParseLine | AdbMirror/Core/AdbService.cs:192-215 | a line yields a device exactly when, after trimming, it is non-empty, does not start with "List of devices" in any case and has at least two tokens; the device is (token 0, model, token 1); serial and state are tokens |
| Adb.ParseListing | AdbMirror/Core/AdbService.cs:187-216 | at most one device per line, each with token serial and state |
| Adb.ListDevices | AdbMirror/Core/AdbService.cs:179-219 | an exception propagates; a non-zero exit code gives no devices; otherwise at most as many devices as lines |
| Adb.GetDevices | AdbMirror/Core/AdbService.cs:179-219 | the reading loop returns exactly the parse of the listing's lines |
| Adb.ParseListingAppend | AdbMirror/Core/AdbService.cs:187-216 | the parse of two blocks of lines is the parse of the first followed by the parse of the second, so devices come out in line order |
| Adb.SkippedLine | AdbMirror/Core/AdbService.cs:192-196 | a blank line, or one starting with the header in any case, yields no device |
| Adb.NoValidLinesNoDevices | AdbMirror/Core/AdbService.cs:187-216 | a listing made only of headers and blank lines holds no device |
| Adb.ParseWordsLine | AdbMirror/Core/AdbService.cs:198-215 | a line written as two or more space-separated tokens reads back as the device made of the first two tokens and the model tag |
| Adb.StateOfToken | AdbMirror/Core/AdbService.cs:249-255 | "unauthorized" gives Unauthorized, "device" gives Connected, and every other token, "offline" included, gives Offline |
| Adb.GetHighLevelState | AdbMirror/Core/AdbService.cs:224-256 | AdbNotAvailable with no device exactly when adb is unavailable; NoDevice with no device exactly when the listing is empty; MultipleDevices exactly when more than one device is listed; otherwise the primary is the first device listed, and a lone device's state follows its token; never Mirroring or ScrcpyNotAvailable; an exception from start-server or the listing fails the poll |
| Adb.MultipleDevicesPicksFirst | AdbMirror/Core/AdbService.cs:241-246 | with two or more devices, the state is MultipleDevices and the primary is the first one parsed, whatever else is listed |
| Adb.EmptyListingIsNoDevice | AdbMirror/Core/AdbService.cs:235-239 | a successful listing with only headers and blank lines classifies as NoDevice |
| Adb.ResolveAdbPath | AdbMirror/Core/AdbService.cs:38-141 | an explicit path that is not blank and exists is returned (lines 41-44); otherwise the first existing candidate in list order, and "adb" when none exists (lines 131-141); the candidate list that lines 46-129 assemble is an input |
| Scrcpy.BuildArguments | AdbMirror/Core/ScrcpyService.cs:311-342 | the arguments start with `-s "serial"` and end with ` --stay-awake --turn-screen-off` |
| Scrcpy.PresetFlagsFollowTable | AdbMirror/Core/ScrcpyService.cs:316-327 | each preset appends exactly its row of the quality table: Low 4M/1024/30, Balanced 8M/1280/60, High 16M/1920/60 |
| Scrcpy.ArgumentWords | AdbMirror/Core/ScrcpyService.cs:311-342 | after the serial selector the arguments are exactly the preset's option words followed by the two fixed options, and `--no-control` is never among them |
| Scrcpy.ReadBuildArguments | AdbMirror/Core/ScrcpyService.cs:311-342 | an independent reader of the argument string recovers the serial and the preset |
| Scrcpy.ExitSummary | AdbMirror/Core/ScrcpyService.cs:246-259 | an independent reader of the exit summary recovers the exit code, and which of standard error or standard output was reported with its trimmed text; standard error wins when it is not blank, and nothing is reported when both are blank |
| Scrcpy.ExitHeadlineClean | AdbMirror/Core/ScrcpyService.cs:246-249 | the summary starts with "scrcpy exited." exactly when the exit code is 0 |
| Scrcpy.CheckAvailable | AdbMirror/Core/ScrcpyService.cs:27-46 | available exactly when the current path or the re-resolved one exists; the path is kept when it exists and replaced by the re-resolved one otherwise; the error names the re-resolved path |
| Scrcpy.Stop | AdbMirror/Core/ScrcpyService.cs:286-309 | with nothing held nothing changes; otherwise the slot is cleared, the handle released, and the process killed only when it has not exited and the kill succeeds; the invariant is kept |
| Scrcpy.StopIdempotent | AdbMirror/Core/ScrcpyService.cs:286-309 | two stops in a row equal one |
| Scrcpy.Start | AdbMirror/Core/ScrcpyService.cs:206-281 | success exactly when scrcpy is found and the launch starts; no error exactly on success and never a blank error; on success the new, never-used handle is held and the launched command is the found path with the built arguments; on failure nothing is held; the prior handle is always released; the invariant is kept |
| Scrcpy.StartTwice | AdbMirror/Core/ScrcpyService.cs:206-208 | after two successful starts only the second process is held, and the first was released and killed |
| Scrcpy.MarkExited | AdbMirror/Core/ScrcpyService.cs:232-262 | an exited process stays launched and the slot is untouched |
| Scrcpy.DisposeExited | AdbMirror/Core/ScrcpyService.cs:260-261 | the Exited handler disposes its process without clearing the slot |
| Scrcpy.ScrcpyService.IsScrcpyAvailable | AdbMirror/Core/ScrcpyService.cs:27-46 | the method's new path and answer are those of CheckAvailable |
| Scrcpy.ScrcpyService.StopMirroring | AdbMirror/Core/ScrcpyService.cs:286-309 | the new state is Stop of the old one |
| Scrcpy.ScrcpyService.StartMirroring | AdbMirror/Core/ScrcpyService.cs:206-281 | the new state and the answer are those of Start, and the invariant is kept |
| Scrcpy.Spawn | AdbMirror/Core/ScrcpyService.cs:229-274 | success exactly when the process starts, and no error exactly on success; a started process fills the slot with the next, never-used handle and records the command it was launched with; a launch that does not start or throws leaves the supervisor as it was and reports a non-blank error |
| Scrcpy.ScrcpyService.SpawnProcess | AdbMirror/Core/ScrcpyService.cs:229-280 | with the slot empty, the new state and the answer are those of Spawn: only a started process fills the slot, with the next handle; the invariant is kept |
| ViewModel.FormatDevice | AdbMirror/MainViewModel.cs:211-219 | the model when it is not blank, else the serial; not blank unless both are |
| ViewModel.SetField | AdbMirror/MainViewModel.cs:301-310 | the field takes the value, and a change is announced exactly when the value differs |
| ViewModel.WriteLog | AdbMirror/MainViewModel.cs:282-299 | the buffer becomes LogAppend of the old buffer and the message, the Logs property shows the whole buffer, and nothing else changes but the change notifications |
| ViewModel.LogAppend | AdbMirror/MainViewModel.cs:282-299 | the buffer is at most 10000 characters and is the suffix of the old buffer, the line and a line break that drops exactly the excess |
| ViewModel.StateChanged | AdbMirror/MainViewModel.cs:138-209 | the delivery is recorded; while mirroring the display is forced to running/Stop/enabled and the guard and supervisor are untouched; otherwise the button is enabled exactly in Connected and MultipleDevices and reads "Mirror"; NoDevice and Offline reset the guard, the other non-Connected states keep it; a session is requested exactly for a Connected delivery when auto-mirror is on, no session runs, a device is present and its serial is not the guard, which then records it; the controller invariant is kept |
| ViewModel.ShowState | AdbMirror/MainViewModel.cs:156-206 | the switch over the recorded state keeps the delivery; the button is enabled exactly in Connected and MultipleDevices; NoDevice and Offline reset the auto-start guard and the other states other than Connected keep it; a session is asked for only in Connected when the auto-start is due, and otherwise no session runs and the supervisor is untouched; the controller invariant is kept |
| ViewModel.ShowConnected | AdbMirror/MainViewModel.cs:183-200 | the button is enabled; the auto-start happens exactly when due, records the serial first, and asks the supervisor for exactly one session |
| ViewModel.PrimaryClicked | AdbMirror/MainViewModel.cs:221-253 | without a session a start is asked for exactly when a device is recorded in Connected or MultipleDevices, and nothing at all happens otherwise; a failed start shows the supervisor's non-blank error and leaves no session; a successful one shows running/Stop/enabled; with a session the outcome is that of the stop branch (see ClickStop) |
| ViewModel.ClickStart | AdbMirror/MainViewModel.cs:233-252 | the start branch keeps the delivery, the guard and the preset; the supervisor and the session flag are those of Start for the recorded serial and the selected preset; a failed start shows the supervisor's non-blank error, a successful one shows running/Stop/enabled; the controller invariant is kept |
| ViewModel.ClickStop | AdbMirror/MainViewModel.cs:223-231 | the stop branch releases the held process, keeps the recorded delivery and shows it again: the button reads "Mirror" and is usable exactly in Connected and MultipleDevices; unless that delivery is Connected and due to auto-start, no session runs and the supervisor is exactly the stopped one; when it is due, the supervisor is the stopped one started again for the recorded serial and preset, and the session flag is that start's answer; NoDevice and Offline clear the auto-start guard; the invariant is kept |
| ViewModel.ScrcpyExited | AdbMirror/MainViewModel.cs:255-265 | the session flag drops and the recorded delivery is re-evaluated: the delivery is kept, the button reads "Mirror" and is usable exactly in Connected and MultipleDevices; unless that delivery is Connected and due to auto-start, no session runs, no start is asked for and the supervisor is untouched; when it is due, exactly one start is asked for, the supervisor and the session flag are that start's outcome and the serial is recorded; NoDevice and Offline clear the guard, and the other states keep it when no auto-start is due; the controller invariant is kept |
| ViewModel.ProcessExit | AdbMirror/Core/ScrcpyService.cs:232-262 | a whole Exited event keeps the invariant and releases the process |
| ViewModel.AutoStartOncePerSerial | AdbMirror/MainViewModel.cs:183-198 | any number of Connected deliveries for one device ask for at most one session, even when that start failed |
| ViewModel.StartClick | AdbMirror/MainViewModel.cs:233-253 | a successful start click holds the new handle, with the recorded serial and the selected preset in its command |
| ViewModel.StopClick | AdbMirror/MainViewModel.cs:223-231 | a stop click releases the process it stops; unless the re-run auto-start is due, no session runs, the slot is empty and no start is asked for; when due, exactly one start is asked for, and a session that then runs holds a handle never used before |
| ViewModel.ExitDoesNotRestart | AdbMirror/MainViewModel.cs:255-265 | after an auto-started session exits, the same recorded delivery does not start it again and the button is usable |
| ViewModel.StaleExitKeepsProcess | AdbMirror/MainViewModel.cs:255-265 | the exit of a process other than the held one drops the session flag while the live process stays held |
| ViewModel.AutoStartLeavesMirrorText | AdbMirror/MainViewModel.cs:183-207 | a successful auto-start leaves a running session whose button reads "Mirror" |
| ViewModel.StopClickCanRestart | AdbMirror/MainViewModel.cs:221-253 | a manual start in MultipleDevices, then Connected, then Stop leaves a new session running |
| ViewModel.StopRestarts | AdbMirror/MainViewModel.cs:223-231 | stopping while the recorded Connected device is due for auto-start starts it again |
| ViewModel.PolledDeviceHasName | AdbMirror/MainViewModel.cs:211-219 | a classified primary device always has a non-blank name to show |
| ViewModel.MainViewModel.OnDeviceStateChanged | AdbMirror/MainViewModel.cs:138-209 | the new state is StateChanged of the old one |
| ViewModel.MainViewModel.OnPrimaryClicked | AdbMirror/MainViewModel.cs:221-253 | the new state is PrimaryClicked of the old one, whose stop branch is stated by ClickStop; the controller invariant is kept |
| ViewModel.MainViewModel.OnScrcpyExited | AdbMirror/MainViewModel.cs:255-265 | the new state is ScrcpyExited of the old one; the controller invariant is kept |
| ViewModel.MainViewModel.OnProcessExited | AdbMirror/Core/ScrcpyService.cs:232-262 | for a launched process, the new state is ProcessExit of the old one: the process is marked exited, the summary goes to the exit callback and the process is disposed; the controller invariant is kept |
| ViewModel.MainViewModel.Log | AdbMirror/MainViewModel.cs:282-299 | the new buffer is LogAppend of the old one, and Logs shows it |
| Text.SplitJoinWords | AdbMirror/Core/AdbService.cs:198 | splitting tokens joined by single spaces gives the tokens back |
| Text.LinesOfUnixText | AdbMirror/Core/AdbService.cs:188-190 | reading lines from text written with line breaks gives the lines back |
| Text.ParseIntToString | AdbMirror/Core/ScrcpyService.cs:249 | the decimal text of an integer reads back as that integer |

## Left out

- The process runner `RunAdbCommandRaw`. It launches a process, reads its streams
  asynchronously and kills it after the timeout. Each command's outcome is an input
  instead, and the timeout case is the constant `Adb.TimedOut`.
- `StartPollingAsync`, the one-second poll loop. It is background concurrency. The
  controller is driven by an arbitrary sequence of deliveries instead.
- How both `Resolve*Path` methods build their candidate lists, and `TryBootstrapScrcpy`.
  These cover environment variables, PATH, `where`, HTTP download and zip extraction.
  `ResolveAdbPath` keeps only the selection; the path scrcpy re-resolves to is an input.
- `ResourceExtractor` and `AppSettings`. The settings' default preset and auto-mirror
  flag are constructor arguments.
- The WPF layers: App, MainWindow, SettingsWindow, `RelayCommand`, `ShowSettings`, the
  clipboard command and `Dispatcher.Invoke`. Handlers run synchronously, in place.
- `InitializeAsync` and `Dispose` of the view model. They are start-up and shutdown
  around the same service calls.
- ViewModel.MainViewModel.Log: the `[HH:mm:ss] ` timestamp is not modelled, so the
  logged line is the message alone.
- ViewModel.LogAppend: lengths are counted in Unicode scalar values (Dafny characters),
  while `StringBuilder.Length` counts UTF-16 code units. With characters outside the
  Basic Multilingual Plane (emoji in scrcpy output or a device model) the source trims
  earlier than the model, and its `Remove(0, excess)` can split a surrogate pair; the
  model does neither. The same holds for ViewModel.MainViewModel.Log.
- Scrcpy.ExitSummary: the exit code is formatted with ASCII digits and an ASCII minus
  sign. The source's interpolation uses the current culture, which for some cultures
  writes a negative code with another minus sign (U+2212).
- Text.StartsWithIgnoreCase: folds ASCII letters only, not the full Unicode case
  mapping of `OrdinalIgnoreCase`. Text.IsWhiteSpace lists the common Unicode spaces.
- Scrcpy.ReadBuildArguments applies to a serial that is a single token. Every serial
  the parser produces is one (`Adb.ParseLine`).
- ViewModel.ProcessExit: the order in which Exited events are delivered and their races
  with clicks are not modelled. The exit callback runs as one controller event, applied
  to any launched handle. When that event auto-starts a new session, the model lets it
  finish; in the source the Exited handler is blocked in `Dispatcher.Invoke` while the
  new start disposes the very process whose handler is running, and whether the .NET
  runtime can deadlock there is not captured.
- Scrcpy.Start: the exceptions `Path.GetFullPath` can throw while the start information
  is built, outside the `try`, are not modelled.
- Handles are numbers, not process objects. Killing, disposing and having exited are
  ghost sets on the supervisor.
- The class fields that record the supervisor's history (`released`, `killed`,
  `exited`, `commands`, `requests`) are ghost. The process itself is not represented.
