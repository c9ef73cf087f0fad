/** kodeOS_flet.py's `main(page)` closure as a state machine over values.

    The state is what the nested handlers read and write: `lang` and
    `current_notification`, what the notification text shows, the entries of the
    log view, the four buttons, the disabled flags of the firmware field and the
    app checkbox, the port dropdown, the firmware path and the checkbox value, the
    callbacks handed to `page.run_thread`, and the started worker thread that has
    not run yet. The class in module FletApp performs these transitions in place. */
module FletLoader {
  import opened Common
  import opened Text
  import opened Localization
  import opened Esptool
  import opened Ports
  import opened Events
  import FletLogger

  /** The keys `kodeOS_flet.py` passes to `get_string`, directly or through `_show_notification`. */
  const LookedUpKeys: set<string> :=
    {"browse_button", "browse_dialog_title", "erase_button", "erase_button_erasing",
     "erase_error", "erase_success", "error_missing_params", "error_missing_port",
     "firmware_label", "flash_app_checkbox", "flash_error_generic", "flash_success",
     "flashing_progress", "load_button", "load_button_loading", "no_ports_found",
     "refresh_button", "select_port_prompt", "serial_port_label", "status_erasing_critical",
     "status_ready", "status_starting", "window_title"}

  /** Every key the program looks up is translated in each of its languages, so no
      `<key>` placeholder is ever shown; a language without a table shows the English text. */
  lemma LookupsTranslated(lang: string, key: string)
    requires key in LookedUpKeys
    ensures key in FletEn && key in FletEs && key in FletDe
    ensures lang in FletLanguages ==> GetString(FletLanguages, lang, key) == FletLanguages[lang][key]
    ensures lang !in FletLanguages ==> GetString(FletLanguages, lang, key) == FletLanguages["en"][key]
  {
  }

  /** An `ElevatedButton`'s `disabled` flag and `text`. */
  datatype ButtonState = ButtonState(disabled: bool, text: string)

  /** The four buttons and the disabled flags of the firmware field and the checkbox. */
  datatype Controls = Controls(load: ButtonState, erase: ButtonState, refresh: ButtonState, browse: ButtonState,
                               pathDisabled: bool, checkDisabled: bool)

  /** The port dropdown, the firmware path field's value and the checkbox value. */
  datatype Form = Form(dropdown: Dropdown, firmwarePath: string, appMode: bool)

  datatype FletState = FletState(
    lang: string,
    notification: Option<Notification>,   // current_notification
    result: Label,                        // notification_text and notification_icon
    log: seq<string>,                     // the Text entries of log_view
    controls: Controls,
    form: Form,
    queue: seq<UiEvent>,                  // callbacks handed to page.run_thread
    worker: Option<Job>)                  // a started thread that has not run yet

  /** The load button is disabled exactly while an operation runs. */
  predicate Busy(s: FletState) { s.controls.load.disabled }

  /** `get_string(key)` */
  function Str(s: FletState, tables: Tables, key: string): string
    requires "en" in tables
  {
    GetString(tables, s.lang, key)
  }

  /** `_show_notification(key, level)` */
  function ShowNotification(s: FletState, tables: Tables, key: string, level: Level): FletState
    requires "en" in tables
  {
    s.(notification := Some(Notification(key, level)), result := Label(Str(s, tables, key), level))
  }

  /** `_set_controls_disabled(disabled)`: on re-enabling, the dropdown is enabled only if it has options. */
  function SetControlsDisabled(s: FletState, disabled: bool): FletState {
    var c := s.controls;
    s.(controls := Controls(c.load.(disabled := disabled), c.erase.(disabled := disabled),
                            c.refresh.(disabled := disabled), c.browse.(disabled := disabled),
                            disabled, disabled),
       form := s.form.(dropdown := s.form.dropdown.(disabled := disabled || |s.form.dropdown.options| == 0)))
  }

  /** Every control takes the flag, and the dropdown is disabled iff the controls are or
      it has no options; nothing else changes. */
  lemma SetControlsDisabledSpec(s: FletState, disabled: bool)
    ensures var t := SetControlsDisabled(s, disabled);
      && t.controls.load.disabled == disabled && t.controls.erase.disabled == disabled
      && t.controls.refresh.disabled == disabled && t.controls.browse.disabled == disabled
      && t.controls.pathDisabled == disabled && t.controls.checkDisabled == disabled
      && (t.form.dropdown.disabled <==> disabled || s.form.dropdown.options == [])
      && t.form.dropdown.options == s.form.dropdown.options && t.form.dropdown.value == s.form.dropdown.value
      && t.controls.load.text == s.controls.load.text && t.controls.erase.text == s.controls.erase.text
      && t.lang == s.lang && t.notification == s.notification && t.result == s.result && t.log == s.log
      && t.queue == s.queue && t.worker == s.worker
      && t.form.firmwarePath == s.form.firmwarePath && t.form.appMode == s.form.appMode
  {
  }

  /** `_refresh_ports(update_text=updateText)` with `list_ports.comports()` returning `ports`:
      a new dropdown built from the old one's value. */
  function RefreshPorts(s: FletState, tables: Tables, ports: seq<PortInfo>, updateText: bool): FletState
    requires "en" in tables
  {
    s.(form := s.form.(dropdown := FletRefresh(s.form.dropdown.value, ListPorts(ports), updateText,
                                               Str(s, tables, "select_port_prompt"), Str(s, tables, "no_ports_found"))))
  }

  /** `not port_dropdown.current.value` */
  predicate PortMissing(s: FletState) {
    s.form.dropdown.value.None? || s.form.dropdown.value.value == ""
  }

  /** What both start handlers do first: `_clear_log_area()` and `_set_controls_disabled(True)`. */
  function BeginOperation(s: FletState): FletState {
    SetControlsDisabled(s.(log := []), true)
  }

  /** `_start_flash(e)`: the port is checked before the firmware path. */
  function StartFlash(s: FletState, tables: Tables): FletState
    requires "en" in tables
  {
    if PortMissing(s) then ShowNotification(s, tables, "error_missing_port", Error)
    else if s.form.firmwarePath == "" then ShowNotification(s, tables, "error_missing_params", Error)
    else
      var b := BeginOperation(s);
      var s1 := b.(controls := b.controls.(load := b.controls.load.(text := Str(s, tables, "load_button_loading"))));
      ShowNotification(s1, tables, "status_starting", Info)
        .(worker := Some(FlashJob(s.form.firmwarePath, s.form.dropdown.value.value, s.form.appMode)))
  }

  /** `_start_erase(e)`: no confirmation is asked. */
  function StartErase(s: FletState, tables: Tables): FletState
    requires "en" in tables
  {
    if PortMissing(s) then ShowNotification(s, tables, "error_missing_port", Error)
    else
      var b := BeginOperation(s);
      var s1 := b.(controls := b.controls.(erase := b.controls.erase.(text := Str(s, tables, "erase_button_erasing"))));
      ShowNotification(s1, tables, "status_erasing_critical", Error)
        .(worker := Some(EraseJob(s.form.dropdown.value.value)))
  }

  /** Notifications that a running operation overwrites, so a language change leaves them alone. */
  predicate TransientKey(key: string) {
    StartsWith(key, "flashing_progress") || StartsWith(key, "status_erasing")
  }

  /** The button texts `_update_ui_text` sets: a disabled load or erase button keeps its text. */
  function RetitleButtons(c: Controls, tables: Tables, lang: string): Controls
    requires "en" in tables
  {
    c.(refresh := c.refresh.(text := GetString(tables, lang, "refresh_button")),
       browse := c.browse.(text := GetString(tables, lang, "browse_button")),
       load := if c.load.disabled then c.load else c.load.(text := GetString(tables, lang, "load_button")),
       erase := if c.erase.disabled then c.erase else c.erase.(text := GetString(tables, lang, "erase_button")))
  }

  /** The notification `_update_ui_text` shows again; an idle app without one gets
      `status_ready` through `_show_notification`, which also stores it. */
  function RerenderNotification(s: FletState, tables: Tables): FletState
    requires "en" in tables
  {
    if s.notification.Some? then
      (if TransientKey(s.notification.value.key) then s
       else ShowNotification(s, tables, s.notification.value.key, s.notification.value.level))
    else if !Busy(s) then ShowNotification(s, tables, "status_ready", Info)
    else s
  }

  /** `_update_ui_text()`: the button texts, a dropdown rebuilt with `update_text=True`, the notification. */
  function UpdateUiText(s: FletState, tables: Tables, ports: seq<PortInfo>): FletState
    requires "en" in tables
  {
    var s1 := s.(controls := RetitleButtons(s.controls, tables, s.lang));
    RerenderNotification(RefreshPorts(s1, tables, ports, true), tables)
  }

  /** `_set_language(e, new_lang)`: ignored while busy; any other language is accepted. */
  function SetLanguage(s: FletState, tables: Tables, lang: string, ports: seq<PortInfo>): FletState
    requires "en" in tables
  {
    if Busy(s) || lang == s.lang then s
    else UpdateUiText(s.(lang := lang), tables, ports)
  }

  /** The line `_flash_complete` logs for return code rc. */
  function FlashResultLine(s: FletState, tables: Tables, rc: int): string
    requires "en" in tables
  {
    if rc == 0 then SuccessLine(Str(s, tables, "flash_success")) else FailureLine("flash", rc)
  }

  /** The line `_erase_complete` logs for return code rc. */
  function EraseResultLine(s: FletState, tables: Tables, rc: int): string
    requires "en" in tables
  {
    if rc == 0 then SuccessLine(Str(s, tables, "erase_success")) else FailureLine("erase", rc)
  }

  /** `_flash_complete(rc, logs)`, with `comports()` returning `ports` at its `_refresh_ports()`. */
  function FlashComplete(s: FletState, tables: Tables, ports: seq<PortInfo>, rc: int): FletState
    requires "en" in tables
  {
    var s1 := SetControlsDisabled(s, false);
    var s2 := RefreshPorts(s1.(controls := s1.controls.(load := s1.controls.load.(text := Str(s, tables, "load_button")))),
                           tables, ports, false);
    var s3 := if rc == 0 then ShowNotification(s2, tables, "flash_success", Success)
              else ShowNotification(s2, tables, "flash_error_generic", Error);
    s3.(queue := s3.queue + [AppendLog(FlashResultLine(s, tables, rc))])
  }

  /** `_erase_complete(rc, logs)`, with `comports()` returning `ports` at its `_refresh_ports()`. */
  function EraseComplete(s: FletState, tables: Tables, ports: seq<PortInfo>, rc: int): FletState
    requires "en" in tables
  {
    var s1 := SetControlsDisabled(s, false);
    var c := s1.controls;
    var s2 := RefreshPorts(s1.(controls := c.(load := c.load.(text := Str(s, tables, "load_button")),
                                             erase := c.erase.(text := Str(s, tables, "erase_button")))),
                           tables, ports, false);
    var s3 := if rc == 0 then ShowNotification(s2, tables, "erase_success", Success)
              else ShowNotification(s2, tables, "erase_error", Error);
    s3.(queue := s3.queue + [AppendLog(EraseResultLine(s, tables, rc))])
  }

  /** Runs one callback. A progress message replaces only the notification text: the
      stored notification and its colour stay. */
  function Apply(s: FletState, tables: Tables, ports: seq<PortInfo>, e: UiEvent): FletState
    requires "en" in tables
  {
    match e
    case AppendLog(text) => s.(log := s.log + [text])
    case ShowProgress(text) => s.(result := s.result.(text := text))
    case ForgetNotification => s.(notification := None)
    case FlashDone(rc, _) => FlashComplete(s, tables, ports, rc)
    case EraseDone(rc, _) => EraseComplete(s, tables, ports, rc)
  }

  /** Takes the oldest handed-over callback and runs it. */
  function Dispatch(s: FletState, tables: Tables, ports: seq<PortInfo>): FletState
    requires "en" in tables
  {
    if s.queue == [] then s else Apply(s.(queue := s.queue[1..]), tables, ports, s.queue[0])
  }

  /** The esptool arguments of a job: the app flag is the one read when the flash started. */
  function JobArgs(job: Job): seq<string> {
    match job
    case FlashJob(binFile, port, appMode) => FlashArgs(port, binFile, appMode)
    case EraseJob(port) => EraseArgs(port, FletEraseCommand)
  }

  /** Everything one worker thread hands over: the command line, the logger's callbacks,
      the exception line, and (from `finally`) the completion with the captured output. */
  function WorkerEvents(job: Job, args: seq<string>, template: Option<string>, run: EsptoolRun): seq<UiEvent> {
    var rc := ReturnCode(run.outcome);
    var logs := Concat(run.chunks);
    [AppendLog(ExecLine(args))] + FletLogger.ChunksEvents(run.chunks, template) + ExceptionEvents(run.outcome)
      + [if job.FlashJob? then FlashDone(rc, logs) else EraseDone(rc, logs)]
  }

  /** The flash logger handles progress with `flashing_progress`; the erase logger does not. */
  function JobTemplate(s: FletState, tables: Tables, job: Job): Option<string>
    requires "en" in tables
  {
    if job.FlashJob? then Some(Str(s, tables, "flashing_progress")) else None
  }

  /** `_flash_thread` / `_erase_thread` running to its end. */
  function RunWorker(s: FletState, tables: Tables, run: EsptoolRun): FletState
    requires "en" in tables && s.worker.Some?
  {
    var job := s.worker.value;
    s.(queue := s.queue + WorkerEvents(job, JobArgs(job), JobTemplate(s, tables, job), run), worker := None)
  }

  /** What can happen next. */
  datatype FletInput =
    | ClickLoad
    | ClickErase
    | ClickRefresh(ports: seq<PortInfo>)   // with what comports() returns
    | PickFiles(paths: seq<string>)        // the file picker's result, empty when cancelled
    | ChoosePort(index: nat)               // an option of the dropdown
    | ToggleAppMode
    | ChooseLanguage(lang: string, ports: seq<PortInfo>)
    | DispatchNext(ports: seq<PortInfo>)   // with what comports() returns if a completion runs
    | WorkerRuns(run: EsptoolRun)

  /** An input coming from the widgets the busy state disables, or the language switch. */
  predicate IsUserInput(input: FletInput) {
    !input.DispatchNext? && !input.WorkerRuns?
  }

  function Step(s: FletState, tables: Tables, input: FletInput): FletState
    requires "en" in tables
  {
    match input
    case ClickLoad => if s.controls.load.disabled then s else StartFlash(s, tables)
    case ClickErase => if s.controls.erase.disabled then s else StartErase(s, tables)
    case ClickRefresh(ports) => if s.controls.refresh.disabled then s else RefreshPorts(s, tables, ports, false)
    case PickFiles(paths) =>
      if s.controls.browse.disabled || paths == [] then s else s.(form := s.form.(firmwarePath := paths[0]))
    case ChoosePort(i) =>
      if s.form.dropdown.disabled || i >= |s.form.dropdown.options| then s
      else s.(form := s.form.(dropdown := s.form.dropdown.(value := Some(s.form.dropdown.options[i]))))
    case ToggleAppMode => if s.controls.checkDisabled then s else s.(form := s.form.(appMode := !s.form.appMode))
    case ChooseLanguage(lang, ports) => SetLanguage(s, tables, lang, ports)
    case DispatchNext(ports) => Dispatch(s, tables, ports)
    case WorkerRuns(run) => if s.worker.None? then s else RunWorker(s, tables, run)
  }

  /** The page after `main`: English, `status_ready` shown but not stored, every control
      enabled, an empty dropdown refreshed once. */
  function Initial(tables: Tables, ports: seq<PortInfo>): FletState
    requires "en" in tables
  {
    var c := Controls(ButtonState(false, GetString(tables, "en", "load_button")),
                      ButtonState(false, GetString(tables, "en", "erase_button")),
                      ButtonState(false, GetString(tables, "en", "refresh_button")),
                      ButtonState(false, GetString(tables, "en", "browse_button")),
                      false, false);
    var f := Form(Dropdown(None, None, [], false), "", false);
    RefreshPorts(FletState("en", None, Label(GetString(tables, "en", "status_ready"), Info), [], c, f, [], None),
                 tables, ports, false)
  }

  // ---------------------------------------------------------------------------
  // The busy cycle

  /** All controls share the busy flag; the dropdown is disabled while busy and, when idle,
      iff it has no options; its value is one of its options; a busy page has either a
      worker still to run or exactly one completion handed over, an idle one neither. */
  predicate Lifecycle(s: FletState) {
    && s.controls.erase.disabled == Busy(s) && s.controls.refresh.disabled == Busy(s)
    && s.controls.browse.disabled == Busy(s)
    && s.controls.pathDisabled == Busy(s) && s.controls.checkDisabled == Busy(s)
    && (s.form.dropdown.disabled <==> Busy(s) || s.form.dropdown.options == [])
    && (s.form.dropdown.value.Some? ==> s.form.dropdown.value.value in s.form.dropdown.options)
    && (if s.worker.Some? then 1 else 0) + DoneCount(s.queue) == (if Busy(s) then 1 else 0)
  }

  lemma InitialIdle(tables: Tables, ports: seq<PortInfo>)
    requires "en" in tables
    ensures Lifecycle(Initial(tables, ports)) && !Busy(Initial(tables, ports))
    ensures Initial(tables, ports).notification == None
    ensures Initial(tables, ports).result == Label(GetString(tables, "en", "status_ready"), Info)
  {
    var s := Initial(tables, ports);
    FletRefreshSpec(None, ListPorts(ports), false, GetString(tables, "en", "select_port_prompt"),
                    GetString(tables, "en", "no_ports_found"));
  }

  /** A refresh keeps the dropdown's value among its options and disables it iff nothing was found. */
  lemma RefreshPortsSpec(s: FletState, tables: Tables, ports: seq<PortInfo>, updateText: bool)
    requires "en" in tables
    ensures var t := RefreshPorts(s, tables, ports, updateText);
      && t.form.dropdown.options == ListPorts(ports)
      && (t.form.dropdown.disabled <==> ListPorts(ports) == [])
      && (t.form.dropdown.value.Some? ==> t.form.dropdown.value.value in t.form.dropdown.options)
      && (t.form.dropdown.value == s.form.dropdown.value <==>
            (s.form.dropdown.value.Some? && s.form.dropdown.value.value in ListPorts(ports) && !updateText)
            || s.form.dropdown.value.None?)
      && t == s.(form := s.form.(dropdown := t.form.dropdown))
  {
    FletRefreshSpec(s.form.dropdown.value, ListPorts(ports), updateText,
                    Str(s, tables, "select_port_prompt"), Str(s, tables, "no_ports_found"));
  }

  /** A worker hands over exactly one completion, last, whatever esptool did, after the
      command line; only the logger's progress callbacks count as progress, at most one per chunk. */
  lemma WorkerEventsSpec(job: Job, args: seq<string>, template: Option<string>, run: EsptoolRun)
    ensures var w := WorkerEvents(job, args, template, run);
      && DoneCount(w) == 1
      && w[0] == AppendLog(ExecLine(args))
      && w[|w| - 1] == (if job.FlashJob? then FlashDone(ReturnCode(run.outcome), Concat(run.chunks))
                        else EraseDone(ReturnCode(run.outcome), Concat(run.chunks)))
      && (template.None? ==> ProgressCount(w) == 0)
      && ProgressCount(w) <= |run.chunks|
  {
    var rc := ReturnCode(run.outcome);
    var logs := Concat(run.chunks);
    var a := [AppendLog(ExecLine(args))];
    var b := FletLogger.ChunksEvents(run.chunks, template);
    var c := ExceptionEvents(run.outcome);
    var d := [if job.FlashJob? then FlashDone(rc, logs) else EraseDone(rc, logs)];
    var abc := a + b + c;
    assert WorkerEvents(job, args, template, run) == abc + d;
    FletLogger.ChunksEventsSpec(run.chunks, template);
    ExceptionEventsQuiet(run.outcome);
    EventsSingle(a[0]);
    EventsSingle(d[0]);
    EventsAppend(a, b);
    EventsAppend(a + b, c);
    EventsAppend(abc, d);
    assert (abc + d)[0] == a[0];
  }

  /** The exception line is neither a completion nor progress. */
  lemma ExceptionEventsQuiet(o: Outcome)
    ensures DoneCount(ExceptionEvents(o)) == 0 && ProgressCount(ExceptionEvents(o)) == 0
  {
    if o.Raised? {
      EventsSingle(ExceptionEvents(o)[0]);
    }
  }

  /** Starting an operation clears the log and disables every control and the dropdown;
      the queue, the worker, the stored notification and the inputs are untouched. */
  lemma BeginOperationSpec(s: FletState)
    ensures var t := BeginOperation(s);
      && Busy(t) && t.controls.erase.disabled && t.controls.refresh.disabled && t.controls.browse.disabled
      && t.controls.pathDisabled && t.controls.checkDisabled && t.form.dropdown.disabled
      && t.log == [] && t.queue == s.queue && t.worker == s.worker
      && t.form.dropdown.options == s.form.dropdown.options && t.form.dropdown.value == s.form.dropdown.value
  {
    SetControlsDisabledSpec(s.(log := []), true);
  }

  lemma LifecycleStartFlash(s: FletState, tables: Tables)
    requires "en" in tables && Lifecycle(s)
    ensures Lifecycle(Step(s, tables, ClickLoad))
  {
    if !Busy(s) && !PortMissing(s) && s.form.firmwarePath != "" {
      BeginOperationSpec(s);
    }
  }

  lemma LifecycleStartErase(s: FletState, tables: Tables)
    requires "en" in tables && Lifecycle(s)
    ensures Lifecycle(Step(s, tables, ClickErase))
  {
    if !Busy(s) && !PortMissing(s) {
      BeginOperationSpec(s);
    }
  }

  /** A completion handler ends the operation and hands over no further completion. */
  lemma FlashCompleteEnds(s: FletState, tables: Tables, ports: seq<PortInfo>, rc: int)
    requires "en" in tables
    ensures var t := FlashComplete(s, tables, ports, rc);
      && !Busy(t) && !t.controls.erase.disabled && !t.controls.refresh.disabled && !t.controls.browse.disabled
      && !t.controls.pathDisabled && !t.controls.checkDisabled
      && t.form.dropdown.options == ListPorts(ports)
      && (t.form.dropdown.disabled <==> t.form.dropdown.options == [])
      && (t.form.dropdown.value.Some? ==> t.form.dropdown.value.value in t.form.dropdown.options)
      && t.worker == s.worker && DoneCount(t.queue) == DoneCount(s.queue)
  {
    var s1 := SetControlsDisabled(s, false);
    SetControlsDisabledSpec(s, false);
    var r := s1.(controls := s1.controls.(load := s1.controls.load.(text := Str(s, tables, "load_button"))));
    var s2 := RefreshPorts(r, tables, ports, false);
    RefreshPortsSpec(r, tables, ports, false);
    var s3 := if rc == 0 then ShowNotification(s2, tables, "flash_success", Success)
              else ShowNotification(s2, tables, "flash_error_generic", Error);
    assert s3.controls == s2.controls && s3.form == s2.form && s3.queue == s.queue && s3.worker == s.worker;
    DoneCountSnoc(s.queue, AppendLog(FlashResultLine(s, tables, rc)));
  }

  lemma EraseCompleteEnds(s: FletState, tables: Tables, ports: seq<PortInfo>, rc: int)
    requires "en" in tables
    ensures var t := EraseComplete(s, tables, ports, rc);
      && !Busy(t) && !t.controls.erase.disabled && !t.controls.refresh.disabled && !t.controls.browse.disabled
      && !t.controls.pathDisabled && !t.controls.checkDisabled
      && t.form.dropdown.options == ListPorts(ports)
      && (t.form.dropdown.disabled <==> t.form.dropdown.options == [])
      && (t.form.dropdown.value.Some? ==> t.form.dropdown.value.value in t.form.dropdown.options)
      && t.worker == s.worker && DoneCount(t.queue) == DoneCount(s.queue)
  {
    var s1 := SetControlsDisabled(s, false);
    var c := s1.controls;
    SetControlsDisabledSpec(s, false);
    var r := s1.(controls := c.(load := c.load.(text := Str(s, tables, "load_button")),
                                erase := c.erase.(text := Str(s, tables, "erase_button"))));
    var s2 := RefreshPorts(r, tables, ports, false);
    RefreshPortsSpec(r, tables, ports, false);
    var s3 := if rc == 0 then ShowNotification(s2, tables, "erase_success", Success)
              else ShowNotification(s2, tables, "erase_error", Error);
    assert s3.controls == s2.controls && s3.form == s2.form && s3.queue == s.queue && s3.worker == s.worker;
    DoneCountSnoc(s.queue, AppendLog(EraseResultLine(s, tables, rc)));
  }

  lemma LifecycleDispatch(s: FletState, tables: Tables, ports: seq<PortInfo>)
    requires "en" in tables && Lifecycle(s)
    ensures Lifecycle(Dispatch(s, tables, ports))
  {
    if s.queue != [] {
      var e := s.queue[0];
      DoneCountCons(e, s.queue[1..]);
      assert s.queue == [e] + s.queue[1..];
      var s1 := s.(queue := s.queue[1..]);
      var t := Apply(s1, tables, ports, e);
      assert Dispatch(s, tables, ports) == t;
      if e.FlashDone? {
        FlashCompleteEnds(s1, tables, ports, e.rc);
      } else if e.EraseDone? {
        EraseCompleteEnds(s1, tables, ports, e.rc);
      } else {
        ApplyQuiet(s1, tables, ports, e);
      }
    }
  }

  /** A log entry, a progress message or a forgotten notification leaves the controls,
      the dropdown, the worker and the remaining callbacks alone. */
  lemma ApplyQuiet(s: FletState, tables: Tables, ports: seq<PortInfo>, e: UiEvent)
    requires "en" in tables && !IsDone(e)
    ensures var t := Apply(s, tables, ports, e);
      t.controls == s.controls && t.form == s.form && t.worker == s.worker && t.queue == s.queue
  {
  }

  lemma LifecycleWorker(s: FletState, tables: Tables, run: EsptoolRun)
    requires "en" in tables && Lifecycle(s)
    ensures Lifecycle(Step(s, tables, WorkerRuns(run)))
  {
    if s.worker.Some? {
      var job := s.worker.value;
      WorkerEventsSpec(job, JobArgs(job), JobTemplate(s, tables, job), run);
      EventsAppend(s.queue, WorkerEvents(job, JobArgs(job), JobTemplate(s, tables, job), run));
    }
  }

  /** Re-rendering the texts on an idle page: the busy state, log, queue and worker stay;
      both operation buttons are retitled; the dropdown is rebuilt without a selection; and a
      notification is stored afterwards (`status_ready` when there was none). */
  lemma UpdateUiTextIdle(s: FletState, tables: Tables, ports: seq<PortInfo>)
    requires "en" in tables && Lifecycle(s) && !Busy(s)
    ensures var t := UpdateUiText(s, tables, ports);
      && Lifecycle(t) && !Busy(t)
      && t.lang == s.lang && t.log == s.log && t.queue == s.queue && t.worker == s.worker
      && t.controls.load.text == Str(s, tables, "load_button")
      && t.controls.erase.text == Str(s, tables, "erase_button")
      && t.form.dropdown.value == None
      && t.notification == (if s.notification.Some? then s.notification else Some(Notification("status_ready", Info)))
      && (s.notification.None? ==> t.result == Label(Str(s, tables, "status_ready"), Info))
      && (s.notification.Some? && !TransientKey(s.notification.value.key) ==>
            t.result == Label(Str(s, tables, s.notification.value.key), s.notification.value.level))
  {
    var s1 := s.(controls := RetitleButtons(s.controls, tables, s.lang));
    RefreshPortsSpec(s1, tables, ports, true);
  }

  lemma LifecycleLanguage(s: FletState, tables: Tables, lang: string, ports: seq<PortInfo>)
    requires "en" in tables && Lifecycle(s)
    ensures Lifecycle(Step(s, tables, ChooseLanguage(lang, ports)))
  {
    if !Busy(s) && lang != s.lang {
      UpdateUiTextIdle(s.(lang := lang), tables, ports);
    }
  }

  lemma LifecycleRefresh(s: FletState, tables: Tables, ports: seq<PortInfo>)
    requires "en" in tables && Lifecycle(s)
    ensures Lifecycle(Step(s, tables, ClickRefresh(ports)))
  {
    if !Busy(s) {
      RefreshPortsSpec(s, tables, ports, false);
    }
  }

  /** Every transition keeps the busy cycle intact. */
  lemma StepKeepsLifecycle(s: FletState, tables: Tables, input: FletInput)
    requires "en" in tables && Lifecycle(s)
    ensures Lifecycle(Step(s, tables, input))
  {
    match input
    case ClickLoad => LifecycleStartFlash(s, tables);
    case ClickErase => LifecycleStartErase(s, tables);
    case ClickRefresh(ports) => LifecycleRefresh(s, tables, ports);
    case DispatchNext(ports) => LifecycleDispatch(s, tables, ports);
    case WorkerRuns(run) => LifecycleWorker(s, tables, run);
    case ChooseLanguage(lang, ports) => LifecycleLanguage(s, tables, lang, ports);
    case ChoosePort(i) =>
    case _ =>
  }

  /** While an operation runs, the buttons, the dropdown, the file picker, the checkbox
      and the language switch all ignore the user: nothing starts and nothing is relabelled. */
  lemma BusyIgnoresUser(s: FletState, tables: Tables, input: FletInput)
    requires "en" in tables && Lifecycle(s) && Busy(s) && IsUserInput(input)
    ensures Step(s, tables, input) == s
  {
  }

  /** Only the dispatch of a handed-over completion ends an operation ... */
  lemma OnlyCompletionEndsBusy(s: FletState, tables: Tables, input: FletInput)
    requires "en" in tables && Lifecycle(s) && Busy(s) && !Busy(Step(s, tables, input))
    ensures input.DispatchNext? && s.queue != [] && IsDone(s.queue[0])
  {
  }

  /** ... and it always does, re-enabling the controls and the dropdown iff it has options. */
  lemma CompletionEndsBusy(s: FletState, tables: Tables, ports: seq<PortInfo>)
    requires "en" in tables && s.queue != [] && IsDone(s.queue[0])
    ensures var t := Step(s, tables, DispatchNext(ports));
      && !Busy(t) && !t.controls.erase.disabled && !t.controls.refresh.disabled
      && !t.controls.browse.disabled && !t.controls.pathDisabled && !t.controls.checkDisabled
      && (t.form.dropdown.disabled <==> ListPorts(ports) == [])
  {
    var e := s.queue[0];
    var s1 := s.(queue := s.queue[1..]);
    assert Step(s, tables, DispatchNext(ports)) == Apply(s1, tables, ports, e);
    if e.FlashDone? {
      FlashCompleteEnds(s1, tables, ports, e.rc);
    } else {
      EraseCompleteEnds(s1, tables, ports, e.rc);
    }
  }

  // ---------------------------------------------------------------------------
  // The guards of the two start handlers

  /** Without a selected port, either start handler only shows `error_missing_port`. */
  lemma StartWithoutPort(s: FletState, tables: Tables)
    requires "en" in tables && !Busy(s) && !s.controls.erase.disabled && PortMissing(s)
    ensures var missing := s.(notification := Some(Notification("error_missing_port", Error)),
                              result := Label(Str(s, tables, "error_missing_port"), Error));
      Step(s, tables, ClickLoad) == missing && Step(s, tables, ClickErase) == missing
  {
  }

  /** With a port but no firmware, a flash only shows `error_missing_params`. */
  lemma StartFlashWithoutFirmware(s: FletState, tables: Tables)
    requires "en" in tables && !Busy(s) && !PortMissing(s) && s.form.firmwarePath == ""
    ensures Step(s, tables, ClickLoad)
         == s.(notification := Some(Notification("error_missing_params", Error)),
               result := Label(Str(s, tables, "error_missing_params"), Error))
  {
  }

  /** Otherwise the log is cleared, the page goes busy with `status_starting` stored and
      shown, and a flash worker for the selected port, the firmware path and the checkbox
      value of this moment is started; nothing is logged yet. */
  lemma StartFlashAccepts(s: FletState, tables: Tables)
    requires "en" in tables && !Busy(s) && !PortMissing(s) && s.form.firmwarePath != ""
    ensures var t := Step(s, tables, ClickLoad);
      && Busy(t) && t.log == [] && t.queue == s.queue
      && t.notification == Some(Notification("status_starting", Info))
      && t.result == Label(Str(s, tables, "status_starting"), Info)
      && t.controls.load.text == Str(s, tables, "load_button_loading")
      && t.worker == Some(FlashJob(s.form.firmwarePath, s.form.dropdown.value.value, s.form.appMode))
  {
  }

  /** An erase with a port starts at once, with no confirmation, under the error-level
      `status_erasing_critical` notification. */
  lemma StartEraseAccepts(s: FletState, tables: Tables)
    requires "en" in tables && !s.controls.erase.disabled && !PortMissing(s)
    ensures var t := Step(s, tables, ClickErase);
      && Busy(t) && t.log == [] && t.queue == s.queue
      && t.notification == Some(Notification("status_erasing_critical", Error))
      && t.result == Label(Str(s, tables, "status_erasing_critical"), Error)
      && t.controls.erase.text == Str(s, tables, "erase_button_erasing")
      && t.worker == Some(EraseJob(s.form.dropdown.value.value))
  {
  }

  // ---------------------------------------------------------------------------
  // Completion

  /** Dispatching a flash completion shows success iff the return code is 0, otherwise an
      error and a log line naming the return code; the selected port survives when still listed. */
  lemma FlashCompletionOutcome(s: FletState, tables: Tables, ports: seq<PortInfo>, rc: int, logs: string)
    requires "en" in tables && s.queue != [] && s.queue[0] == FlashDone(rc, logs)
    ensures var t := Step(s, tables, DispatchNext(ports));
      && !Busy(t) && t.controls.load.text == Str(s, tables, "load_button")
      && (t.notification == Some(Notification("flash_success", Success)) <==> rc == 0)
      && (rc != 0 ==> t.notification == Some(Notification("flash_error_generic", Error)))
      && t.queue == s.queue[1..] + [AppendLog(FlashResultLine(s, tables, rc))]
      && (rc != 0 ==> Contains(FlashResultLine(s, tables, rc), ReturnCodeText(rc)))
      && (s.form.dropdown.value.Some? && s.form.dropdown.value.value in ListPorts(ports) ==>
            t.form.dropdown.value == s.form.dropdown.value)
  {
    var s1 := SetControlsDisabled(s.(queue := s.queue[1..]), false);
    RefreshPortsSpec(s1.(controls := s1.controls.(load := s1.controls.load.(text := Str(s, tables, "load_button")))), tables, ports, false);
    if rc != 0 {
      FailureLineNamesCode("flash", rc);
    }
  }

  lemma EraseCompletionOutcome(s: FletState, tables: Tables, ports: seq<PortInfo>, rc: int, logs: string)
    requires "en" in tables && s.queue != [] && s.queue[0] == EraseDone(rc, logs)
    ensures var t := Step(s, tables, DispatchNext(ports));
      && !Busy(t) && t.controls.load.text == Str(s, tables, "load_button")
      && t.controls.erase.text == Str(s, tables, "erase_button")
      && (t.notification == Some(Notification("erase_success", Success)) <==> rc == 0)
      && (rc != 0 ==> t.notification == Some(Notification("erase_error", Error)))
      && t.queue == s.queue[1..] + [AppendLog(EraseResultLine(s, tables, rc))]
      && (rc != 0 ==> Contains(EraseResultLine(s, tables, rc), ReturnCodeText(rc)))
  {
    if rc != 0 {
      FailureLineNamesCode("erase", rc);
    }
  }

  /** A worker run hands over the command line first and the completion last, whatever
      esptool did, and an erase worker never reports progress. */
  lemma WorkerRunQueues(s: FletState, tables: Tables, run: EsptoolRun)
    requires "en" in tables && s.worker.Some?
    ensures var t := RunWorker(s, tables, run);
      && var w := WorkerEvents(s.worker.value, JobArgs(s.worker.value), JobTemplate(s, tables, s.worker.value), run);
      && t.worker == None && t.queue == s.queue + w
      && w[0] == AppendLog(ExecLine(JobArgs(s.worker.value)))
      && w[|w| - 1] == (if s.worker.value.FlashJob? then FlashDone(ReturnCode(run.outcome), Concat(run.chunks))
                        else EraseDone(ReturnCode(run.outcome), Concat(run.chunks)))
      && DoneCount(w) == 1
      && (s.worker.value.EraseJob? ==> ProgressCount(w) == 0)
  {
    WorkerEventsSpec(s.worker.value, JobArgs(s.worker.value), JobTemplate(s, tables, s.worker.value), run);
  }

  /** A progress message changes only the shown text: the stored notification and the
      level it is shown with stay. */
  lemma ProgressKeepsNotification(s: FletState, tables: Tables, ports: seq<PortInfo>, text: string)
    requires "en" in tables && s.queue != [] && s.queue[0] == ShowProgress(text)
    ensures var t := Step(s, tables, DispatchNext(ports));
      && t.result == Label(text, s.result.level) && t.notification == s.notification
      && t.queue == s.queue[1..] && t.controls == s.controls && t.form == s.form
  {
  }

  // ---------------------------------------------------------------------------
  // Language

  /** The language cannot change while an operation runs, nor by choosing the current one. */
  lemma SetLanguageNoop(s: FletState, tables: Tables, lang: string, ports: seq<PortInfo>)
    requires "en" in tables && (Busy(s) || lang == s.lang)
    ensures Step(s, tables, ChooseLanguage(lang, ports)) == s
  {
  }

  /** On an idle page another language relabels both operation buttons, drops the port
      selection, and stores a notification: the one there was (re-rendered unless transient)
      or `status_ready`. A language missing from the tables falls back to English texts. */
  lemma SetLanguageRerenders(s: FletState, tables: Tables, lang: string, ports: seq<PortInfo>)
    requires "en" in tables && Lifecycle(s) && !Busy(s) && lang != s.lang
    ensures var t := Step(s, tables, ChooseLanguage(lang, ports));
      && Lifecycle(t) && !Busy(t) && t.lang == lang
      && t.log == s.log && t.queue == s.queue && t.worker == s.worker
      && t.controls.load.text == GetString(tables, lang, "load_button")
      && t.controls.erase.text == GetString(tables, lang, "erase_button")
      && t.form.dropdown.value == None
      && t.notification == (if s.notification.Some? then s.notification else Some(Notification("status_ready", Info)))
      && (s.notification.Some? && !TransientKey(s.notification.value.key) ==>
            t.result == Label(GetString(tables, lang, s.notification.value.key), s.notification.value.level))
      && (lang !in tables ==> t.controls.load.text == GetString(tables, "en", "load_button"))
  {
    UpdateUiTextIdle(s.(lang := lang), tables, ports);
  }
}
