/** The controller of the main window (MainViewModel): it maps device-state deliveries,
    button clicks and process exits onto the bindable properties, drives the mirror
    supervisor, and keeps a bounded log. The poll loop is replaced by an arbitrary
    sequence of deliveries; each event carries what the world answers if it starts a
    mirroring session. */
module ViewModel {
  import opened Wrappers
  import opened Text
  import opened Devices
  import opened Adb
  import opened Scrcpy

  /** The log keeps at most this many characters. */
  const MaxLogChars: nat := 10000

  /** The name shown for a device: its model when that is not blank, else its serial. */
  function FormatDevice(device: AndroidDevice): (name: string)
    ensures name == device.model || name == device.serial
    ensures !IsBlank(device.model) ==> name == device.model
    ensures !IsBlank(name) || (IsBlank(device.model) && IsBlank(device.serial))
  {
    if !IsBlank(device.model) then device.model else device.serial
  }

  /** SetField: the field takes the new value, and a change notification is raised
      exactly when the value differs from the old one. */
  function SetField<T(==)>(field: T, value: T): (r: (T, bool))
    ensures r.0 == value
    ensures r.1 <==> field != value
  {
    if field == value then (field, false) else (value, true)
  }

  /** Log's buffer update: append the line and a line break, then drop from the front
      exactly what exceeds the maximum. */
  function LogAppend(buffer: string, line: string): (r: string)
    ensures var full := buffer + line + NewLine;
            |r| == (if |full| <= MaxLogChars then |full| else MaxLogChars)
            && r == full[|full| - |r|..]
  {
    var full := buffer + line + NewLine;
    if |full| > MaxLogChars then full[|full| - MaxLogChars..] else full
  }

  // ---------------------------------------------------------------------------
  // The controller's state and the event handlers as functions of it

  /** A snapshot of the controller: the recorded delivery, the session flag, the auto-start
      guard, the bindable properties, the log, the names of the properties whose change
      was announced (in order), and the supervisor it drives. */
  datatype Controller = Controller(
    autoMirror: bool,
    state: DeviceState,
    device: Option<AndroidDevice>,
    mirroring: bool,
    lastAuto: Option<string>,
    status: string,
    button: string,
    enabled: bool,
    preset: ScrcpyPreset,
    logBuffer: string,
    logs: string,
    announced: seq<string>,
    sup: Supervisor)

  /** The constructor, with the settings passed in: the preset comes from the settings. */
  function InitialController(autoMirror: bool, preset: ScrcpyPreset, scrcpyPath: string): (c: Controller)
    ensures ControllerInv(c)
    ensures !c.mirroring && !c.enabled && c.button == "Mirror" && c.state == NoDevice
  {
    var announced := if preset == Balanced then [] else ["SelectedPreset"];
    Controller(autoMirror, NoDevice, None, false, None, "No device connected", "Mirror", false,
               preset, "", "", announced, InitialSupervisor(scrcpyPath))
  }

  /** What the handlers keep true: the supervisor's own invariant, a session flag that
      is only up while a process is held, a bounded log and a Logs property that shows it. */
  ghost predicate ControllerInv(c: Controller) {
    && SupervisorInv(c.sup)
    && (c.mirroring ==> c.sup.current.Some?)
    && |c.logBuffer| <= MaxLogChars
    && c.logs == c.logBuffer
  }

  function Announce(c: Controller, changed: bool, name: string): seq<string> {
    if changed then c.announced + [name] else c.announced
  }

  function SetStatus(c: Controller, text: string): (r: Controller)
    ensures r == c.(status := text, announced := r.announced)
  {
    var (v, changed) := SetField(c.status, text);
    c.(status := v, announced := Announce(c, changed, "StatusText"))
  }

  function SetButton(c: Controller, text: string): (r: Controller)
    ensures r == c.(button := text, announced := r.announced)
  {
    var (v, changed) := SetField(c.button, text);
    c.(button := v, announced := Announce(c, changed, "PrimaryButtonText"))
  }

  function SetEnabled(c: Controller, enabled: bool): (r: Controller)
    ensures r == c.(enabled := enabled, announced := r.announced)
  {
    var (v, changed) := SetField(c.enabled, enabled);
    c.(enabled := v, announced := Announce(c, changed, "IsPrimaryEnabled"))
  }

  function SetPreset(c: Controller, preset: ScrcpyPreset): (r: Controller)
    ensures r == c.(preset := preset, announced := r.announced)
  {
    var (v, changed) := SetField(c.preset, preset);
    c.(preset := v, announced := Announce(c, changed, "SelectedPreset"))
  }

  /** A status text and the button's usability, set in that order. */
  function ShowStatus(c: Controller, text: string, enabled: bool): (r: Controller)
    ensures r == c.(status := text, enabled := enabled, announced := r.announced)
  {
    SetEnabled(SetStatus(c, text), enabled)
  }

  /** Log: the buffer takes the line, and the Logs property is set to the whole buffer. */
  function WriteLog(c: Controller, message: string): (r: Controller)
    ensures r == c.(logBuffer := LogAppend(c.logBuffer, message), logs := r.logBuffer, announced := r.announced)
  {
    var buffer := LogAppend(c.logBuffer, message);
    var (v, changed) := SetField(c.logs, buffer);
    c.(logBuffer := buffer, logs := v, announced := Announce(c, changed, "Logs"))
  }

  function DeviceInfo(device: Option<AndroidDevice>): string {
    match device
    case None => "none"
    case Some(d) => FormatDevice(d) + " (" + d.serial + ")"
  }

  /** The guard on auto-starting for a recorded Connected delivery. */
  predicate AutoStartDue(c: Controller) {
    c.autoMirror && !c.mirroring && c.device.Some? && c.lastAuto != Some(c.device.value.serial)
  }

  /** Re-evaluating the recorded delivery once the session flag is down auto-starts. */
  predicate DueOnReevaluation(c: Controller) {
    c.state == Connected && AutoStartDue(c.(mirroring := false))
  }

  /** The start branch does something only for a recorded device in a usable state. */
  predicate StartAllowed(c: Controller) {
    c.device.Some? && (c.state == Connected || c.state == MultipleDevices)
  }

  /** The start request a click asks for, if any. */
  function ClickRequest(c: Controller): seq<Request> {
    if StartAllowed(c) then [Request(c.device.value.serial, c.preset)] else []
  }

  /** OnDeviceStateChanged: record the delivery and log it; then, while a session runs,
      show it and do nothing else; otherwise show the state, enabling the button exactly
      in Connected and MultipleDevices, and reset the button text. A start is asked for
      exactly when the delivery is Connected and an auto-start is due. */
  function StateChanged(c: Controller, state: DeviceState, device: Option<AndroidDevice>, env: StartEnv)
    : (r: Controller)
    ensures ControllerInv(c) ==> ControllerInv(r)
    ensures r.autoMirror == c.autoMirror && r.preset == c.preset
    ensures r.state == state && r.device == device
    ensures c.mirroring ==>
              && r.status == "Mirroring running" && r.button == "Stop" && r.enabled
              && r.mirroring && r.lastAuto == c.lastAuto && r.sup == c.sup
    ensures !c.mirroring ==>
              && (r.enabled <==> state == Connected || state == MultipleDevices)
              && r.button == "Mirror"
    ensures var due := state == Connected && AutoStartDue(c.(device := device));
            && r.sup.requests == c.sup.requests + (if due then [Request(device.value.serial, c.preset)] else [])
            && (!c.mirroring && !due ==> !r.mirroring && r.sup == c.sup)
            && (due ==> var (sup, ok, _) := Start(c.sup, device.value.serial, c.preset, env);
                        r.sup == sup && r.mirroring == ok && (ok ==> r.status == "Mirroring running"))
    ensures !c.mirroring ==>
              && (state == NoDevice || state == Offline ==> r.lastAuto == None)
              && (state != NoDevice && state != Offline && state != Connected ==> r.lastAuto == c.lastAuto)
              && (state == Connected ==>
                    r.lastAuto == (if AutoStartDue(c.(device := device)) then Some(device.value.serial) else c.lastAuto))
    decreases 1, 3
  {
    var c1 := WriteLog(c.(state := state, device := device),
                       "Device state changed: " + StateName(state) + ", Device: " + DeviceInfo(device));
    if c1.mirroring then SetEnabled(SetButton(SetStatus(c1, "Mirroring running"), "Stop"), true)
    else SetButton(ShowState(c1, env), "Mirror")
  }

  /** The switch over the recorded state, without a session. */
  function ShowState(c: Controller, env: StartEnv): (r: Controller)
    requires !c.mirroring
    ensures ControllerInv(c) ==> ControllerInv(r)
    ensures r.autoMirror == c.autoMirror && r.preset == c.preset
    ensures r.state == c.state && r.device == c.device
    ensures r.enabled <==> c.state == Connected || c.state == MultipleDevices
    ensures r.sup.requests == c.sup.requests + (if c.state == Connected && AutoStartDue(c) then ClickRequest(c) else [])
    ensures !(c.state == Connected && AutoStartDue(c)) ==> !r.mirroring && r.sup == c.sup
    ensures c.state == Connected && AutoStartDue(c) ==>
              var (sup, ok, _) := Start(c.sup, c.device.value.serial, c.preset, env);
              r.sup == sup && r.mirroring == ok && (ok ==> r.status == "Mirroring running")
    ensures c.state == NoDevice || c.state == Offline ==> r.lastAuto == None
    ensures c.state != NoDevice && c.state != Offline && c.state != Connected ==> r.lastAuto == c.lastAuto
    ensures c.state == Connected ==>
              r.lastAuto == (if AutoStartDue(c) then Some(c.device.value.serial) else c.lastAuto)
    decreases 1, 2
  {
    match c.state
    case AdbNotAvailable =>
      ShowStatus(c, "ADB not available. Check installation.", false)
    case NoDevice =>
      ShowStatus(c, "No device connected", false).(lastAuto := None)
    case Unauthorized =>
      ShowStatus(c, "Device unauthorized: check phone prompt", false)
    case Offline =>
      ShowStatus(c, "Device offline", false).(lastAuto := None)
    case MultipleDevices =>
      ShowStatus(c, if c.device.None? then "Multiple devices connected"
                    else "Multiple devices; using " + FormatDevice(c.device.value), true)
    case Connected =>
      ShowConnected(c, env)
    case _ =>
      ShowStatus(c, "Unknown device state", false)
  }

  /** The Connected case: show the device, and auto-start when that is due, recording the
      serial before the attempt, whatever its outcome. */
  function ShowConnected(c: Controller, env: StartEnv): (r: Controller)
    requires !c.mirroring && c.state == Connected
    ensures ControllerInv(c) ==> ControllerInv(r)
    ensures r.autoMirror == c.autoMirror && r.preset == c.preset
    ensures r.state == c.state && r.device == c.device && r.enabled
    ensures r.sup.requests == c.sup.requests + (if AutoStartDue(c) then ClickRequest(c) else [])
    ensures r.lastAuto == (if AutoStartDue(c) then Some(c.device.value.serial) else c.lastAuto)
    ensures !AutoStartDue(c) ==> !r.mirroring && r.sup == c.sup
    ensures AutoStartDue(c) ==>
              var (sup, ok, _) := Start(c.sup, c.device.value.serial, c.preset, env);
              r.sup == sup && r.mirroring == ok && (ok ==> r.status == "Mirroring running")
    decreases 1, 1
  {
    var c1 := ShowStatus(c, if c.device.None? then "Device connected"
                            else "Device connected: " + FormatDevice(c.device.value), true);
    if AutoStartDue(c1) then PrimaryClicked(c1.(lastAuto := Some(c1.device.value.serial)), env)
    else c1
  }

  /** What re-running the state handler on the recorded delivery leaves behind, once the
      session flag is down and the supervisor is sup: the delivery is kept and shown with
      the button reading "Mirror", usable exactly in Connected and MultipleDevices; no
      session runs and sup is untouched unless an auto-start is due, in which case sup
      starts the recorded device and the serial is recorded as auto-started; NoDevice and
      Offline clear that record and the other states keep it. */
  predicate Reevaluated(c: Controller, sup: Supervisor, env: StartEnv, r: Controller) {
    && r.state == c.state && r.device == c.device && r.button == "Mirror"
    && (r.enabled <==> c.state == Connected || c.state == MultipleDevices)
    && (!DueOnReevaluation(c) ==> !r.mirroring && r.sup == sup)
    && (DueOnReevaluation(c) ==>
          var (started, ok, _) := Start(sup, c.device.value.serial, c.preset, env);
          r.sup == started && r.mirroring == ok && r.lastAuto == Some(c.device.value.serial))
    && (c.state == NoDevice || c.state == Offline ==> r.lastAuto == None)
    && (!DueOnReevaluation(c) && c.state != NoDevice && c.state != Offline ==> r.lastAuto == c.lastAuto)
  }

  /** What a Stop click leaves behind: the held process is stopped and released, and the
      recorded delivery is re-evaluated against the stopped supervisor. */
  predicate StoppedThenReevaluated(c: Controller, env: StartEnv, r: Controller) {
    var stopped := Stop(c.sup, env.killSucceeds);
    && (c.sup.current.Some? ==> c.sup.current.value in stopped.released)
    && Reevaluated(c, stopped, env, r)
  }

  /** OnPrimaryClicked: stop the session, or start one for the recorded device. Without
      a session the recorded delivery and the auto-start guard stay as they are, a start
      is asked for exactly when a device is recorded in a usable state, and otherwise
      nothing at all happens. */
  function PrimaryClicked(c: Controller, env: StartEnv): (r: Controller)
    ensures ControllerInv(c) ==> ControllerInv(r)
    ensures r.autoMirror == c.autoMirror && r.preset == c.preset
    ensures !c.mirroring ==>
              && r.state == c.state && r.device == c.device && r.lastAuto == c.lastAuto
              && (c.enabled ==> r.enabled)
              && r.sup.requests == c.sup.requests + ClickRequest(c)
    ensures !c.mirroring && !StartAllowed(c) ==> r == c
    ensures c.mirroring ==> StoppedThenReevaluated(c, env, r)
    ensures !c.mirroring && StartAllowed(c) ==>
              var (sup, ok, error) := Start(c.sup, c.device.value.serial, c.preset, env);
              && r.sup == sup && r.mirroring == ok
              && (!ok ==> r.status == error.value && !IsBlank(r.status))
              && (ok ==> r.status == "Mirroring running" && r.button == "Stop" && r.enabled)
    decreases if c.mirroring then 2 else 0, 1
  {
    if c.mirroring then ClickStop(c, env)
    else if c.device.None? || (c.state != Connected && c.state != MultipleDevices) then c
    else ClickStart(c, env)
  }

  /** The stop branch: stop the supervisor, drop the session flag and evaluate the
      recorded delivery again, which may start a new session. */
  function ClickStop(c: Controller, env: StartEnv): (r: Controller)
    requires c.mirroring
    ensures ControllerInv(c) ==> ControllerInv(r)
    ensures r.autoMirror == c.autoMirror && r.preset == c.preset
    ensures r.state == c.state && r.device == c.device
    ensures r.button == "Mirror"
    ensures StoppedThenReevaluated(c, env, r)
    decreases 2, 0
  {
    var c1 := WriteLog(c, "Stopping scrcpy...");
    var c2 := c1.(sup := Stop(c1.sup, env.killSucceeds), mirroring := false);
    var c3 := WriteLog(c2, "scrcpy stopped");
    StateChanged(c3, c3.state, c3.device, env)
  }

  /** The start branch: log, ask the supervisor, and show its answer. */
  function ClickStart(c: Controller, env: StartEnv): (r: Controller)
    requires !c.mirroring && StartAllowed(c)
    ensures ControllerInv(c) ==> ControllerInv(r)
    ensures r.autoMirror == c.autoMirror && r.preset == c.preset && r.state == c.state
            && r.device == c.device && r.lastAuto == c.lastAuto && (c.enabled ==> r.enabled)
    ensures var (sup, ok, error) := Start(c.sup, c.device.value.serial, c.preset, env);
            && r.sup == sup && r.mirroring == ok
            && (!ok ==> r.status == error.value && !IsBlank(r.status))
            && (ok ==> r.status == "Mirroring running" && r.button == "Stop" && r.enabled)
  {
    var serial := c.device.value.serial;
    var c1 := WriteLog(c, "Starting scrcpy for device " + serial + " with preset " + PresetName(c.preset));
    var (sup, ok, error) := Start(c1.sup, serial, c1.preset, env);
    var c2 := c1.(sup := sup);
    if !ok then
      var c3 := WriteLog(c2, "Failed to start scrcpy: " + (if error.Some? then error.value else "Unknown error"));
      SetStatus(c3, if IsNullOrBlank(error) then "Failed to start scrcpy." else error.value)
    else
      var c3 := WriteLog(c2, "scrcpy started successfully");
      SetEnabled(SetButton(SetStatus(c3.(mirroring := true), "Mirroring running"), "Stop"), true)
  }

  /** OnScrcpyExited, given the exit summary: the session flag drops and the recorded
      delivery is evaluated again. */
  function ScrcpyExited(c: Controller, message: string, env: StartEnv): (r: Controller)
    ensures ControllerInv(c) ==> ControllerInv(r)
    ensures r.state == c.state && r.device == c.device
    ensures r.button == "Mirror"
    ensures r.sup.requests == c.sup.requests
                              + (if DueOnReevaluation(c) then [Request(c.device.value.serial, c.preset)] else [])
    ensures Reevaluated(c, c.sup, env, r)
  {
    var c1 := WriteLog(c, "scrcpy exited: " + message).(mirroring := false);
    var c2 := SetButton(SetStatus(c1, message), "Mirror");
    StateChanged(c2, c2.state, c2.device, env)
  }

  /** A whole Exited event for process h (which the operating system only reports for a
      started process): the process has exited, the handler builds the summary and hands
      it to the controller, then disposes the process. */
  function ProcessExit(c: Controller, h: Handle, exitCode: int, stdErr: Option<string>, stdOut: Option<string>,
                       env: StartEnv): (r: Controller)
    requires h < c.sup.launched
    ensures ControllerInv(c) ==> ControllerInv(r)
    ensures h in r.sup.released && r.button == "Mirror"
  {
    var c0 := c.(sup := MarkExited(c.sup, h));
    assert ControllerInv(c) ==> ControllerInv(c0);
    var c1 := ScrcpyExited(c0, ExitSummary(exitCode, stdErr, stdOut), env);
    c1.(sup := DisposeExited(c1.sup, h))
  }

  // ---------------------------------------------------------------------------
  // Properties over several events

  /** Repeated Connected deliveries for one device ask for at most one session, even if
      that session failed to start. */
  lemma {:induction false} AutoStartOncePerSerial(c: Controller, d: AndroidDevice, envs: seq<StartEnv>)
    ensures |ConnectedRun(c, d, envs).sup.requests| <= |c.sup.requests| + 1
  {
    if envs != [] {
      var c1 := StateChanged(c, Connected, Some(d), envs[0]);
      AfterConnected(c, d, envs[0]);
      QuietRun(c1, d, envs[1..]);
    }
  }

  /** The controller after the same Connected delivery, once per environment. */
  function ConnectedRun(c: Controller, d: AndroidDevice, envs: seq<StartEnv>): Controller
    decreases |envs|
  {
    if envs == [] then c else ConnectedRun(StateChanged(c, Connected, Some(d), envs[0]), d, envs[1..])
  }

  /** No Connected delivery of d is due to auto-start. */
  predicate Quiet(c: Controller, d: AndroidDevice) {
    !AutoStartDue(c.(device := Some(d)))
  }

  lemma AfterConnected(c: Controller, d: AndroidDevice, env: StartEnv)
    ensures Quiet(StateChanged(c, Connected, Some(d), env), d)
  {
  }

  lemma {:induction false} QuietRun(c: Controller, d: AndroidDevice, envs: seq<StartEnv>)
    requires Quiet(c, d)
    ensures ConnectedRun(c, d, envs).sup.requests == c.sup.requests
    decreases |envs|
  {
    if envs != [] {
      AfterConnected(c, d, envs[0]);
      QuietRun(StateChanged(c, Connected, Some(d), envs[0]), d, envs[1..]);
    }
  }

  /** A start click: on failure no session runs and the status shows the supervisor's
      error; on success the session runs the recorded device's serial with the selected
      preset, from the path found to exist, and the display says so. */
  lemma StartClick(c: Controller, env: StartEnv)
    requires ControllerInv(c)
    requires !c.mirroring && StartAllowed(c)
    ensures var r := PrimaryClicked(c, env);
            var (sup, ok, error) := Start(c.sup, c.device.value.serial, c.preset, env);
            && r.sup == sup && r.mirroring == ok
            && (!ok ==> r.status == error.value && !IsBlank(r.status))
            && (ok ==> r.status == "Mirroring running" && r.button == "Stop" && r.enabled
                       && r.sup.current == Some(c.sup.launched)
                       && r.sup.commands[c.sup.launched]
                          == Command(r.sup.path, BuildArguments(c.device.value.serial, c.preset)))
  {
    var (sup, ok, error) := Start(c.sup, c.device.value.serial, c.preset, env);
    if ok {
      assert |c.sup.commands| == c.sup.launched;
    }
  }

  /** A stop click releases the process it stops. Unless the recorded delivery is due
      to auto-start, no session runs afterwards, the slot is empty and nothing more is
      asked of the supervisor; when it is due, exactly one start is asked for, with the
      recorded serial and the selected preset, and a session that runs holds a handle
      never used before. */
  lemma StopClick(c: Controller, env: StartEnv)
    requires ControllerInv(c) && c.mirroring
    ensures var r := PrimaryClicked(c, env);
            && c.sup.current.value in r.sup.released
            && r.sup.requests == c.sup.requests
                                 + (if DueOnReevaluation(c) then [Request(c.device.value.serial, c.preset)] else [])
            && (!DueOnReevaluation(c) ==> !r.mirroring && r.sup.current == None)
            && (r.mirroring ==> r.sup.current == Some(c.sup.launched))
  {
  }

  /** After a session that was auto-started for the recorded device exits, the same
      recorded delivery does not auto-start again, and the button is usable. */
  lemma ExitDoesNotRestart(c: Controller, message: string, env: StartEnv)
    requires c.state == Connected && c.device.Some? && c.lastAuto == Some(c.device.value.serial)
    ensures var r := ScrcpyExited(c, message, env);
            !r.mirroring && r.sup.requests == c.sup.requests && r.enabled && r.button == "Mirror"
  {
  }

  /** The exit of a process other than the held one, while a session runs and the recorded
      state is not Connected, drops the session flag although the supervisor still holds
      the live process. */
  lemma StaleExitKeepsProcess(c: Controller, h: Handle, exitCode: int, stdErr: Option<string>,
                              stdOut: Option<string>, env: StartEnv)
    requires ControllerInv(c) && c.mirroring && c.state != Connected
    requires h < c.sup.launched && c.sup.current != Some(h)
    ensures var r := ProcessExit(c, h, exitCode, stdErr, stdOut, env);
            !r.mirroring && r.sup.current == c.sup.current && r.sup.current.Some?
  {
  }

  /** After a successful auto-start the session runs, but the button still reads "Mirror":
      the Connected branch resets the text after the start branch has set it to "Stop". */
  lemma AutoStartLeavesMirrorText(c: Controller, d: AndroidDevice, env: StartEnv)
    requires c.autoMirror && !c.mirroring && c.lastAuto != Some(d.serial)
    requires env.launch == Started && env.fileExists(c.sup.path)
    ensures var r := StateChanged(c, Connected, Some(d), env);
            r.mirroring && r.status == "Mirroring running" && r.enabled && r.button == "Mirror"
  {
  }

  /** A Stop click can start a new session at once: after a manual start in
      MultipleDevices and a Connected delivery for the same device while mirroring, the
      device's serial was never recorded as auto-started, so stopping re-evaluates
      Connected and auto-starts it. */
  lemma StopClickCanRestart(d: AndroidDevice, preset: ScrcpyPreset, path: string, env: StartEnv)
    requires env.launch == Started && env.fileExists(path)
    ensures var c0 := InitialController(true, preset, path);
            var c1 := StateChanged(c0, MultipleDevices, Some(d), env);
            var c2 := PrimaryClicked(c1, env);
            var c3 := StateChanged(c2, Connected, Some(d), env);
            var c4 := PrimaryClicked(c3, env);
            && c2.mirroring && c3.mirroring && c3.lastAuto == None
            && c4.mirroring && |c4.sup.requests| == 2
  {
    var c2 := ManualStartInMultipleDevices(d, preset, path, env);
    var c3 := StateChanged(c2, Connected, Some(d), env);
    assert c3.sup == c2.sup && c3.mirroring && c3.lastAuto == None && c3.autoMirror;
    StopRestarts(c3, env);
  }

  /** A manual start with two devices listed, from a fresh controller with auto-start on,
      runs a session without recording the serial as auto-started. */
  lemma ManualStartInMultipleDevices(d: AndroidDevice, preset: ScrcpyPreset, path: string, env: StartEnv)
    returns (c2: Controller)
    requires env.launch == Started && env.fileExists(path)
    ensures c2 == PrimaryClicked(StateChanged(InitialController(true, preset, path), MultipleDevices, Some(d), env), env)
    ensures ControllerInv(c2) && c2.autoMirror && c2.mirroring && c2.lastAuto == None
    ensures |c2.sup.requests| == 1 && env.fileExists(c2.sup.path)
  {
    var c0 := InitialController(true, preset, path);
    var c1 := StateChanged(c0, MultipleDevices, Some(d), env);
    assert c1.sup == c0.sup && c1.lastAuto == None && StartAllowed(c1) && !c1.mirroring;
    c2 := PrimaryClicked(c1, env);
  }

  /** Stopping a session while the recorded Connected device is due for auto-start
      starts it again. */
  lemma StopRestarts(c: Controller, env: StartEnv)
    requires ControllerInv(c) && c.mirroring && c.state == Connected && c.device.Some?
    requires c.autoMirror && c.lastAuto != Some(c.device.value.serial)
    requires env.launch == Started && env.fileExists(c.sup.path)
    ensures PrimaryClicked(c, env).mirroring
    ensures |PrimaryClicked(c, env).sup.requests| == |c.sup.requests| + 1
  {
    var c1 := WriteLog(c, "Stopping scrcpy...");
    var c2 := c1.(sup := Stop(c1.sup, env.killSucceeds), mirroring := false);
    var c3 := WriteLog(c2, "scrcpy stopped");
    assert c3.sup.path == c.sup.path;
    AutoStartLeavesMirrorText(c3, c.device.value, env);
  }

  /** A classified device always has a name to show: its serial is never blank. */
  lemma PolledDeviceHasName(version: CommandOutcome, startServer: CommandOutcome, listing: CommandOutcome)
    requires GetHighLevelState(version, startServer, listing).Classified?
    requires GetHighLevelState(version, startServer, listing).primary.Some?
    ensures !IsBlank(FormatDevice(GetHighLevelState(version, startServer, listing).primary.value))
  {
    var d := GetHighLevelState(version, startServer, listing).primary.value;
    assert !IsWhiteSpace(d.serial[0]);
  }

  // ---------------------------------------------------------------------------
  // The controller object

  class MainViewModel {
    const service: ScrcpyService
    const autoMirrorOnConnect: bool
    var statusText: string
    var primaryButtonText: string
    var isPrimaryEnabled: bool
    var selectedPreset: ScrcpyPreset
    var currentDevice: Option<AndroidDevice>
    var currentState: DeviceState
    var isMirroring: bool
    var lastAutoMirroredSerial: Option<string>
    var logBuffer: string
    var logs: string
    /** The property names PropertyChanged has been raised with, in order. */
    var announced: seq<string>

    ghost function Snapshot(): Controller
      reads this, service
    {
      Controller(autoMirrorOnConnect, currentState, currentDevice, isMirroring, lastAutoMirroredSerial,
                 statusText, primaryButtonText, isPrimaryEnabled, selectedPreset, logBuffer, logs,
                 announced, service.Snapshot())
    }

    ghost predicate Valid()
      reads this, service
    {
      ControllerInv(Snapshot())
    }

    /** The settings are passed in; starting the poll loop is not modelled. */
    constructor (autoMirror: bool, defaultPreset: ScrcpyPreset, scrcpyPath: string)
      ensures Snapshot() == InitialController(autoMirror, defaultPreset, scrcpyPath)
      ensures Valid()
    {
      service := new ScrcpyService(scrcpyPath);
      autoMirrorOnConnect := autoMirror;
      statusText := "No device connected";
      primaryButtonText := "Mirror";
      isPrimaryEnabled := false;
      selectedPreset := Balanced;
      currentDevice := None;
      currentState := NoDevice;
      isMirroring := false;
      lastAutoMirroredSerial := None;
      logBuffer := "";
      logs := "";
      announced := [];
      new;
      SetSelectedPreset(defaultPreset);
    }

    method SetStatusText(value: string)
      modifies this
      ensures Snapshot() == SetStatus(old(Snapshot()), value)
    {
      if statusText == value {
        return;
      }
      statusText := value;
      announced := announced + ["StatusText"];
    }

    method SetPrimaryButtonText(value: string)
      modifies this
      ensures Snapshot() == SetButton(old(Snapshot()), value)
    {
      if primaryButtonText == value {
        return;
      }
      primaryButtonText := value;
      announced := announced + ["PrimaryButtonText"];
    }

    method SetIsPrimaryEnabled(value: bool)
      modifies this
      ensures Snapshot() == SetEnabled(old(Snapshot()), value)
    {
      if isPrimaryEnabled == value {
        return;
      }
      isPrimaryEnabled := value;
      announced := announced + ["IsPrimaryEnabled"];
    }

    method SetSelectedPreset(value: ScrcpyPreset)
      modifies this
      ensures Snapshot() == SetPreset(old(Snapshot()), value)
    {
      if selectedPreset == value {
        return;
      }
      selectedPreset := value;
      announced := announced + ["SelectedPreset"];
    }

    method Log(message: string)
      modifies this
      ensures Snapshot() == WriteLog(old(Snapshot()), message)
    {
      logBuffer := logBuffer + message + NewLine;
      if |logBuffer| > MaxLogChars {
        var excess := |logBuffer| - MaxLogChars;
        logBuffer := logBuffer[excess..];
      }
      if logs != logBuffer {
        logs := logBuffer;
        announced := announced + ["Logs"];
      }
    }

    /** Shows a status text and the button's usability, in that order. */
    method ShowStatusText(text: string, enabled: bool)
      modifies this
      ensures Snapshot() == ShowStatus(old(Snapshot()), text, enabled)
    {
      SetStatusText(text);
      SetIsPrimaryEnabled(enabled);
    }

    method OnDeviceStateChanged(state: DeviceState, device: Option<AndroidDevice>, env: StartEnv)
      requires Valid()
      modifies this, service
      ensures Valid()
      ensures Snapshot() == StateChanged(old(Snapshot()), state, device, env)
      decreases 1, 3
    {
      currentState := state;
      currentDevice := device;
      Log("Device state changed: " + StateName(state) + ", Device: " + DeviceInfo(device));
      if isMirroring {
        SetStatusText("Mirroring running");
        SetPrimaryButtonText("Stop");
        SetIsPrimaryEnabled(true);
        return;
      }
      ShowRecordedState(env);
      SetPrimaryButtonText("Mirror");
    }

    /** The switch over the recorded state, without a session. */
    method ShowRecordedState(env: StartEnv)
      requires !isMirroring
      requires Valid()
      modifies this, service
      ensures Valid()
      ensures Snapshot() == ShowState(old(Snapshot()), env)
      decreases 1, 2
    {
      match currentState {
        case AdbNotAvailable =>
          ShowStatusText("ADB not available. Check installation.", false);
        case NoDevice =>
          ShowStatusText("No device connected", false);
          lastAutoMirroredSerial := None;
        case Unauthorized =>
          ShowStatusText("Device unauthorized: check phone prompt", false);
        case Offline =>
          ShowStatusText("Device offline", false);
          lastAutoMirroredSerial := None;
        case MultipleDevices =>
          ShowStatusText(if currentDevice.None? then "Multiple devices connected"
                         else "Multiple devices; using " + FormatDevice(currentDevice.value), true);
        case Connected =>
          ShowConnectedDevice(env);
        case _ =>
          ShowStatusText("Unknown device state", false);
      }
    }

    /** The Connected case, with the auto-start. */
    method ShowConnectedDevice(env: StartEnv)
      requires !isMirroring && currentState == Connected
      requires Valid()
      modifies this, service
      ensures Valid()
      ensures Snapshot() == ShowConnected(old(Snapshot()), env)
      decreases 1, 1
    {
      ShowStatusText(if currentDevice.None? then "Device connected"
                     else "Device connected: " + FormatDevice(currentDevice.value), true);
      if autoMirrorOnConnect && !isMirroring && currentDevice.Some?
         && lastAutoMirroredSerial != Some(currentDevice.value.serial) {
        lastAutoMirroredSerial := Some(currentDevice.value.serial);
        OnPrimaryClicked(env);
      }
    }

    method OnPrimaryClicked(env: StartEnv)
      requires Valid()
      modifies this, service
      ensures Valid()
      ensures Snapshot() == PrimaryClicked(old(Snapshot()), env)
      decreases if isMirroring then 2 else 0, 1
    {
      if isMirroring {
        StopSession(env);
      } else if currentDevice == None || (currentState != Connected && currentState != MultipleDevices) {
      } else {
        StartSession(env);
      }
    }

    /** The stop branch of the click handler. */
    method StopSession(env: StartEnv)
      requires isMirroring
      requires Valid()
      modifies this, service
      ensures Valid()
      ensures Snapshot() == ClickStop(old(Snapshot()), env)
      decreases 2, 0
    {
      Log("Stopping scrcpy...");
      service.StopMirroring(env.killSucceeds);
      isMirroring := false;
      Log("scrcpy stopped");
      OnDeviceStateChanged(currentState, currentDevice, env);
    }

    /** The start branch of the click handler. */
    method StartSession(env: StartEnv)
      requires !isMirroring && currentDevice.Some?
      requires currentState == Connected || currentState == MultipleDevices
      requires Valid()
      modifies this, service
      ensures Valid()
      ensures Snapshot() == ClickStart(old(Snapshot()), env)
    {
      var serial := currentDevice.value.serial;
      Log("Starting scrcpy for device " + serial + " with preset " + PresetName(selectedPreset));
      var ok, error := service.StartMirroring(serial, selectedPreset, env);
      if !ok {
        Log("Failed to start scrcpy: " + (if error.Some? then error.value else "Unknown error"));
        SetStatusText(if IsNullOrBlank(error) then "Failed to start scrcpy." else error.value);
        return;
      }
      Log("scrcpy started successfully");
      isMirroring := true;
      SetStatusText("Mirroring running");
      SetPrimaryButtonText("Stop");
      SetIsPrimaryEnabled(true);
    }

    method OnScrcpyExited(message: string, env: StartEnv)
      requires Valid()
      modifies this, service
      ensures Valid()
      ensures Snapshot() == ScrcpyExited(old(Snapshot()), message, env)
    {
      Log("scrcpy exited: " + message);
      isMirroring := false;
      SetStatusText(message);
      SetPrimaryButtonText("Mirror");
      OnDeviceStateChanged(currentState, currentDevice, env);
    }

    /** The Exited event of process h, from the supervisor's handler through the callback. */
    method OnProcessExited(h: Handle, exitCode: int, stdErr: Option<string>, stdOut: Option<string>, env: StartEnv)
      requires h < service.launched
      requires Valid()
      modifies this, service
      ensures Valid()
      ensures Snapshot() == ProcessExit(old(Snapshot()), h, exitCode, stdErr, stdOut, env)
    {
      ghost var c0 := Snapshot();
      service.ProcessHasExited(h);
      assert Snapshot() == c0.(sup := MarkExited(c0.sup, h));
      OnScrcpyExited(ExitSummary(exitCode, stdErr, stdOut), env);
      ghost var c1 := Snapshot();
      service.DisposeProcess(h);
      assert Snapshot() == c1.(sup := DisposeExited(c1.sup, h));
    }
  }
}
