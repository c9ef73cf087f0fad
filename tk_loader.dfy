/** kodeOS.py's `LoaderApp` as a state machine over values.

    The state is what the handlers read and write: the language, the stored
    notification and what the result label shows, the log text, the four rounded
    buttons and the widgets disabled with them, the port menu and the firmware and
    app-mode inputs, the callbacks queued with `self.after(0, ...)` and the worker
    thread that has been started but has not yet run. Its transitions are the
    user's actions, the dispatch of the next queued callback, and a run of the
    worker thread. The classes in module TkApp perform these transitions in place. */
module TkLoader {
  import opened Common
  import opened Text
  import opened Localization
  import opened Esptool
  import opened Ports
  import opened Events
  import TkLogger

  const Accent: string := "#FF7F1F"
  const GrayLight: string := "#CCCCCC"
  const ColorError: string := "#DC3545"

  /** The fields of a `RoundedButton` the handlers change. */
  datatype ButtonView = ButtonView(disabled: bool, normalBg: string, text: string)

  /** `RoundedButton.set_disabled(disabled)` for a button created with `bg=origBg`. */
  function SetDisabledView(b: ButtonView, origBg: string, disabled: bool): ButtonView {
    ButtonView(disabled, if disabled then GrayLight else origBg, b.text)
  }

  /** Disabling greys a button out and enabling it again restores exactly the
      background it was created with; the text is untouched. */
  lemma SetDisabledRestores(b: ButtonView, origBg: string)
    ensures var d := SetDisabledView(b, origBg, true);
      && d.disabled && d.normalBg == GrayLight && d.text == b.text
      && SetDisabledView(d, origBg, false) == ButtonView(false, origBg, b.text)
  {
  }

  /** kodeOS.py's `LANGUAGES` has English and Spanish and both spell the two port
      status texts, which `_update_ui_text` reads from each table directly. */
  predicate TkTables(tables: Tables) {
    && "en" in tables && "es" in tables
    && "no_ports_found" in tables["en"] && "no_ports_found" in tables["es"]
    && "ports_loading" in tables["en"] && "ports_loading" in tables["es"]
  }

  lemma TkLanguagesValid()
    ensures TkTables(TkLanguages)
  {
    assert "no_ports_found" in TkEn && "ports_loading" in TkEn;
    assert "no_ports_found" in TkEs && "ports_loading" in TkEs;
  }

  /** The keys `kodeOS.py` passes to `get_string`, directly or through `_show_notification`. */
  const LookedUpKeys: set<string> :=
    {"browse_button", "browse_dialog_title", "erase_button", "erase_button_erasing",
     "erase_confirm_message", "erase_confirm_title", "erase_error", "erase_success",
     "error_missing_params", "error_missing_port", "firmware_label", "flash_app_checkbox",
     "flash_error_generic", "flash_success", "flashing_progress", "load_button",
     "load_button_loading", "no_ports_found", "ports_loading", "refresh_button",
     "serial_port_label", "status_erasing", "status_ready", "status_starting",
     "window_title"}

  /** Every key the program looks up is translated in each of its languages, so no
      `<key>` placeholder is ever shown; a language without a table shows the English text. */
  lemma LookupsTranslated(lang: string, key: string)
    requires key in LookedUpKeys
    ensures key in TkEn && key in TkEs
    ensures lang in TkLanguages ==> GetString(TkLanguages, lang, key) == TkLanguages[lang][key]
    ensures lang !in TkLanguages ==> GetString(TkLanguages, lang, key) == TkLanguages["en"][key]
  {
  }

  /** The four rounded buttons and whether the port menu, the firmware entry and
      the app-mode checkbox are disabled (`_set_controls_disabled` switches all of them). */
  datatype Controls = Controls(load: ButtonView, erase: ButtonView, refresh: ButtonView, browse: ButtonView,
                               widgetsDisabled: bool)

  /** `port_var`, the commands of the port menu, `build_var`, and `flash_app_var == 1`. */
  datatype Form = Form(portVar: string, menu: seq<MenuEntry>, buildVar: string, appMode: bool)

  datatype TkState = TkState(
    lang: string,
    notification: Option<Notification>,   // current_notification
    result: Label,                        // result_label
    log: string,                          // log_text
    controls: Controls,
    form: Form,
    skipInitialProgress: bool,            // _skip_initial_progress: written, never read
    queue: seq<UiEvent>,                  // callbacks posted with self.after(0, ...)
    worker: Option<Job>)                  // a started thread that has not run yet

  /** The load button is disabled exactly while an operation runs. */
  predicate Busy(s: TkState) { s.controls.load.disabled }

  /** `get_string(key)` */
  function Str(s: TkState, tables: Tables, key: string): string
    requires "en" in tables
  {
    GetString(tables, s.lang, key)
  }

  /** `_show_notification(key, level)` */
  function ShowNotification(s: TkState, tables: Tables, key: string, level: Level): TkState
    requires "en" in tables
  {
    s.(notification := Some(Notification(key, level)), result := Label(Str(s, tables, key), level))
  }

  /** `_clear_notification()` */
  function ClearNotification(s: TkState): TkState {
    s.(notification := None, result := Label("", Info))
  }

  /** `_set_controls_disabled(disabled)` */
  function SetControlsDisabled(c: Controls, disabled: bool): Controls {
    Controls(SetDisabledView(c.load, Accent, disabled),
             SetDisabledView(c.erase, ColorError, disabled),
             SetDisabledView(c.refresh, Accent, disabled),
             SetDisabledView(c.browse, Accent, disabled),
             disabled)
  }

  /** Every control takes the flag; the buttons keep their texts and are greyed out or
      restored to the colour they were created with. */
  lemma SetControlsDisabledSpec(c: Controls, disabled: bool)
    ensures var d := SetControlsDisabled(c, disabled);
      && d.load.disabled == disabled && d.erase.disabled == disabled
      && d.refresh.disabled == disabled && d.browse.disabled == disabled && d.widgetsDisabled == disabled
      && d.load.text == c.load.text && d.erase.text == c.erase.text
      && d.refresh.text == c.refresh.text && d.browse.text == c.browse.text
      && d.erase.normalBg == (if disabled then GrayLight else ColorError)
      && d.load.normalBg == (if disabled then GrayLight else Accent)
  {
  }

  /** `_refresh_ports()` with `list_ports.comports()` returning `ports`, in language lang. */
  function RefreshForm(f: Form, tables: Tables, lang: string, ports: seq<PortInfo>): Form
    requires "en" in tables
  {
    var names := ListPorts(ports);
    var noPorts := GetString(tables, lang, "no_ports_found");
    f.(menu := TkMenu(names, noPorts),
       portVar := TkSelection(f.portVar, names, noPorts, GetString(tables, lang, "ports_loading")))
  }

  function RefreshPorts(s: TkState, tables: Tables, ports: seq<PortInfo>): TkState
    requires "en" in tables
  {
    s.(form := RefreshForm(s.form, tables, s.lang, ports))
  }

  /** The port variable is empty or holds a status text instead of a port. */
  predicate PortMissing(s: TkState, tables: Tables)
    requires "en" in tables
  {
    s.form.portVar == "" || s.form.portVar == Str(s, tables, "no_ports_found") || s.form.portVar == Str(s, tables, "ports_loading")
  }

  /** What both start handlers do before starting a worker: `_clear_log_area()`,
      `_clear_notification()`, `_set_controls_disabled(True)`. */
  function BeginOperation(s: TkState): TkState {
    ClearNotification(s.(log := [])).(controls := SetControlsDisabled(s.controls, true))
  }

  /** `_start_flash()` */
  function StartFlash(s: TkState, tables: Tables): TkState
    requires "en" in tables
  {
    if PortMissing(s, tables) || s.form.buildVar == "" then
      ShowNotification(s, tables, "error_missing_params", Error)
    else
      var b := BeginOperation(s);
      var s1 := b.(controls := b.controls.(load := b.controls.load.(text := Str(s, tables, "load_button_loading"))));
      var s2 := ShowNotification(s1, tables, "status_starting", Info);
      s2.(skipInitialProgress := true,
          queue := s2.queue + [AppendLog(Str(s, tables, "status_starting") + "\n")],
          worker := Some(FlashJob(s.form.buildVar, s.form.portVar, s.form.appMode)))
  }

  /** `_start_erase()`, with `confirmed` the answer of the confirmation dialog. */
  function StartErase(s: TkState, tables: Tables, confirmed: bool): TkState
    requires "en" in tables
  {
    if PortMissing(s, tables) then
      ShowNotification(s, tables, "error_missing_port", Error)
    else if !confirmed then s
    else
      var b := BeginOperation(s);
      var s1 := b.(controls := b.controls.(erase := b.controls.erase.(text := Str(s, tables, "erase_button_erasing"))));
      var s2 := ShowNotification(s1, tables, "status_erasing", Info);
      s2.(queue := s2.queue + [AppendLog(Str(s, tables, "status_erasing") + "\n")],
          worker := Some(EraseJob(s.form.portVar)))
  }

  /** Notifications that a running operation overwrites, so a language change leaves them alone. */
  predicate TransientKey(key: string) {
    StartsWith(key, "flashing_progress") || StartsWith(key, "status_erasing")
  }

  /** The button texts `_update_ui_text` sets: a disabled load or erase button keeps its text. */
  function RetitleButtons(c: Controls, tables: Tables, lang: string): Controls
    requires "en" in tables
  {
    c.(refresh := c.refresh.(text := GetString(tables, lang, "refresh_button")),
       browse := c.browse.(text := GetString(tables, lang, "browse_button")),
       load := if c.load.disabled then c.load else c.load.(text := GetString(tables, lang, "load_button")),
       erase := if c.erase.disabled then c.erase else c.erase.(text := GetString(tables, lang, "erase_button")))
  }

  /** The notification `_update_ui_text` shows again in the current language. */
  function RerenderNotification(s: TkState, tables: Tables): TkState
    requires "en" in tables
  {
    if s.notification.Some? then
      (if TransientKey(s.notification.value.key) then s
       else ShowNotification(s, tables, s.notification.value.key, s.notification.value.level))
    else if !Busy(s) then s.(result := Label(Str(s, tables, "status_ready"), Info))
    else s
  }

  /** A port status text of either language is replaced by the current language's. */
  function TranslatePortStatus(f: Form, tables: Tables, lang: string): Form
    requires TkTables(tables)
  {
    if f.portVar == tables["en"]["no_ports_found"] || f.portVar == tables["es"]["no_ports_found"] then
      f.(portVar := GetString(tables, lang, "no_ports_found"))
    else if f.portVar == tables["en"]["ports_loading"] || f.portVar == tables["es"]["ports_loading"] then
      f.(portVar := GetString(tables, lang, "ports_loading"))
    else f
  }

  /** `_update_ui_text()`: the button texts, the port menu, the notification and the port status text. */
  function UpdateUiText(s: TkState, tables: Tables, ports: seq<PortInfo>): TkState
    requires TkTables(tables)
  {
    var s1 := RefreshPorts(s.(controls := RetitleButtons(s.controls, tables, s.lang)), tables, ports);
    var s2 := RerenderNotification(s1, tables);
    s2.(form := TranslatePortStatus(s2.form, tables, s.lang))
  }

  /** `_set_language(lang)` */
  function SetLanguage(s: TkState, tables: Tables, lang: string, ports: seq<PortInfo>): TkState
    requires TkTables(tables)
  {
    if lang !in tables || lang == s.lang then s
    else UpdateUiText(s.(lang := lang), tables, ports)
  }

  /** The line `_flash_complete` queues for return code rc. */
  function FlashResultLine(s: TkState, tables: Tables, rc: int): string
    requires "en" in tables
  {
    if rc == 0 then SuccessLine(Str(s, tables, "flash_success")) else FailureLine("flash", rc)
  }

  /** The line `_erase_complete` queues for return code rc. */
  function EraseResultLine(s: TkState, tables: Tables, rc: int): string
    requires "en" in tables
  {
    if rc == 0 then SuccessLine(Str(s, tables, "erase_success")) else FailureLine("erase", rc)
  }

  /** `_flash_complete(rc, logs)` */
  function FlashComplete(s: TkState, tables: Tables, rc: int): TkState
    requires "en" in tables
  {
    var c := SetControlsDisabled(s.controls, false);
    var s1 := s.(controls := c.(load := c.load.(text := Str(s, tables, "load_button"))));
    var s2 := if rc == 0 then ShowNotification(s1, tables, "flash_success", Success)
              else ShowNotification(s1, tables, "flash_error_generic", Error);
    s2.(queue := s2.queue + [AppendLog(FlashResultLine(s, tables, rc))])
  }

  /** `_erase_complete(rc, logs)` */
  function EraseComplete(s: TkState, tables: Tables, rc: int): TkState
    requires "en" in tables
  {
    var c := SetControlsDisabled(s.controls, false);
    var s1 := s.(controls := c.(load := c.load.(text := Str(s, tables, "load_button")),
                                erase := c.erase.(text := Str(s, tables, "erase_button"))));
    var s2 := if rc == 0 then ShowNotification(s1, tables, "erase_success", Success)
              else ShowNotification(s1, tables, "erase_error", Error);
    s2.(queue := s2.queue + [AppendLog(EraseResultLine(s, tables, rc))])
  }

  /** Runs one queued callback. */
  function Apply(s: TkState, tables: Tables, e: UiEvent): TkState
    requires "en" in tables
  {
    match e
    case AppendLog(text) => s.(log := s.log + text)
    case ShowProgress(text) => s.(result := Label(text, Info))
    case ForgetNotification => s.(notification := None)
    case FlashDone(rc, _) => FlashComplete(s, tables, rc)
    case EraseDone(rc, _) => EraseComplete(s, tables, rc)
  }

  /** Takes the oldest queued callback off the queue and runs it. */
  function Dispatch(s: TkState, tables: Tables): TkState
    requires "en" in tables
  {
    if s.queue == [] then s else Apply(s.(queue := s.queue[1..]), tables, s.queue[0])
  }

  /** The esptool arguments of a job; the flash thread reads the checkbox when it runs. */
  function JobArgs(job: Job, appMode: bool): seq<string> {
    match job
    case FlashJob(binFile, port, _) => FlashArgs(port, binFile, appMode)
    case EraseJob(port) => EraseArgs(port, TkEraseCommand)
  }

  /** Everything one worker thread queues: the command line, the logger's callbacks,
      the exception line, and the completion with the return code and the captured output. */
  function WorkerEvents(job: Job, args: seq<string>, template: Option<string>, run: EsptoolRun): seq<UiEvent> {
    var rc := ReturnCode(run.outcome);
    var logs := Concat(run.chunks);
    [AppendLog(ExecLine(args))] + TkLogger.ChunksEvents(run.chunks, template) + ExceptionEvents(run.outcome)
      + [if job.FlashJob? then FlashDone(rc, logs) else EraseDone(rc, logs)]
  }

  /** The progress template of a job's logger: the flash logger formats
      `flashing_progress` in the language of the moment; the erase logger parses nothing. */
  function JobTemplate(s: TkState, tables: Tables, job: Job): Option<string>
    requires "en" in tables
  {
    if job.FlashJob? then Some(Str(s, tables, "flashing_progress")) else None
  }

  /** `_flash_thread` / `_erase_thread` running to its end. */
  function RunWorker(s: TkState, tables: Tables, run: EsptoolRun): TkState
    requires "en" in tables && s.worker.Some?
  {
    var job := s.worker.value;
    s.(queue := s.queue + WorkerEvents(job, JobArgs(job, s.form.appMode), JobTemplate(s, tables, job), run),
       worker := None)
  }

  /** What can happen next. */
  datatype TkInput =
    | ClickLoad
    | ClickErase(confirmed: bool)          // with the answer of askyesno
    | ClickRefresh(ports: seq<PortInfo>)   // with what comports() returns
    | ClickBrowse(path: string)            // with what askopenfilename returns
    | EditFirmware(text: string)           // typing into the firmware entry
    | ChoosePort(index: nat)               // a command of the port menu
    | ToggleAppMode
    | ChooseLanguage(lang: string, ports: seq<PortInfo>)
    | DispatchNext
    | WorkerRuns(run: EsptoolRun)

  /** An input the widgets ignore while they are disabled. */
  predicate IsControlInput(input: TkInput) {
    !input.ChooseLanguage? && !input.DispatchNext? && !input.WorkerRuns?
  }

  function Step(s: TkState, tables: Tables, input: TkInput): TkState
    requires TkTables(tables)
  {
    match input
    case ClickLoad => if s.controls.load.disabled then s else StartFlash(s, tables)
    case ClickErase(confirmed) => if s.controls.erase.disabled then s else StartErase(s, tables, confirmed)
    case ClickRefresh(ports) => if s.controls.refresh.disabled then s else RefreshPorts(s, tables, ports)
    case ClickBrowse(path) => if s.controls.browse.disabled || path == "" then s else s.(form := s.form.(buildVar := path))
    case EditFirmware(text) => if s.controls.widgetsDisabled then s else s.(form := s.form.(buildVar := text))
    case ChoosePort(i) =>
      if s.controls.widgetsDisabled || i >= |s.form.menu| || !s.form.menu[i].enabled then s
      else s.(form := s.form.(portVar := s.form.menu[i].text))
    case ToggleAppMode => if s.controls.widgetsDisabled then s else s.(form := s.form.(appMode := !s.form.appMode))
    case ChooseLanguage(lang, ports) => SetLanguage(s, tables, lang, ports)
    case DispatchNext => Dispatch(s, tables)
    case WorkerRuns(run) => if s.worker.None? then s else RunWorker(s, tables, run)
  }

  /** The state after `__init__`: English, `status_ready` shown, every control enabled,
      the port variable at `ports_loading` until the first `_refresh_ports()`. */
  function Initial(tables: Tables, ports: seq<PortInfo>): TkState
    requires "en" in tables
  {
    var c := Controls(ButtonView(false, Accent, GetString(tables, "en", "load_button")),
                      ButtonView(false, ColorError, GetString(tables, "en", "erase_button")),
                      ButtonView(false, Accent, GetString(tables, "en", "refresh_button")),
                      ButtonView(false, Accent, GetString(tables, "en", "browse_button")),
                      false);
    var loading := GetString(tables, "en", "ports_loading");
    var f := Form(loading, [MenuEntry(loading, true)], "", false);
    RefreshPorts(TkState("en", None, Label(GetString(tables, "en", "status_ready"), Info), [], c, f, false, [], None), tables, ports)
  }

  // ---------------------------------------------------------------------------
  // The busy cycle

  /** All controls share the busy flag; a busy app has either a worker still to run or
      exactly one completion queued, an idle one neither; and a flash worker will read
      the checkbox value it was started with. */
  predicate Lifecycle(s: TkState) {
    && s.controls.erase.disabled == Busy(s) && s.controls.refresh.disabled == Busy(s)
    && s.controls.browse.disabled == Busy(s) && s.controls.widgetsDisabled == Busy(s)
    && (if s.worker.Some? then 1 else 0) + DoneCount(s.queue) == (if Busy(s) then 1 else 0)
    && (s.worker.Some? && s.worker.value.FlashJob? ==> s.worker.value.appMode == s.form.appMode)
  }

  lemma InitialIdle(tables: Tables, ports: seq<PortInfo>)
    requires "en" in tables
    ensures Lifecycle(Initial(tables, ports)) && !Busy(Initial(tables, ports))
    ensures Initial(tables, ports).result == Label(GetString(tables, "en", "status_ready"), Info)
  {
  }

  /** A worker queues exactly one completion, last, and its log text is the command
      line, everything esptool wrote, and the exception line if there was one. */
  lemma WorkerEventsSpec(job: Job, args: seq<string>, template: Option<string>, run: EsptoolRun)
    ensures var w := WorkerEvents(job, args, template, run);
      && DoneCount(w) == 1
      && w[0] == AppendLog(ExecLine(args))
      && w[|w| - 1] == (if job.FlashJob? then FlashDone(ReturnCode(run.outcome), Concat(run.chunks))
                        else EraseDone(ReturnCode(run.outcome), Concat(run.chunks)))
      && LogText(w) == ExecLine(args) + Concat(run.chunks) + (if run.outcome.Raised? then ExceptionLines(run.outcome)[0] else [])
      && (template.None? ==> ProgressCount(w) == 0)
  {
    var rc := ReturnCode(run.outcome);
    var logs := Concat(run.chunks);
    var a := [AppendLog(ExecLine(args))];
    var b := TkLogger.ChunksEvents(run.chunks, template);
    var c := ExceptionEvents(run.outcome);
    var d := [if job.FlashJob? then FlashDone(rc, logs) else EraseDone(rc, logs)];
    TkLogger.ChunksEventsLossless(run.chunks, template);
    EventsSingle(a[0]);
    EventsSingle(d[0]);
    if c != [] {
      EventsSingle(c[0]);
    }
    EventsAppend(a, b);
    EventsAppend(a + b, c);
    EventsAppend(a + b + c, d);
  }

  /** Starting an operation clears the log and the notification and disables every
      control; the queue, the worker and the inputs are untouched. */
  lemma BeginOperationSpec(s: TkState)
    ensures var t := BeginOperation(s);
      && Busy(t) && t.controls.erase.disabled && t.controls.refresh.disabled
      && t.controls.browse.disabled && t.controls.widgetsDisabled
      && t.log == [] && t.notification == None && t.result == Label("", Info)
      && t.queue == s.queue && t.worker == s.worker && t.form == s.form && t.lang == s.lang
  {
    SetControlsDisabledSpec(s.controls, true);
  }

  lemma LifecycleStartFlash(s: TkState, tables: Tables)
    requires TkTables(tables) && Lifecycle(s)
    ensures Lifecycle(Step(s, tables, ClickLoad))
  {
    if !Busy(s) && !(PortMissing(s, tables) || s.form.buildVar == "") {
      BeginOperationSpec(s);
      DoneCountSnoc(s.queue, AppendLog(Str(s, tables, "status_starting") + "\n"));
    }
  }

  lemma LifecycleStartErase(s: TkState, tables: Tables, confirmed: bool)
    requires TkTables(tables) && Lifecycle(s)
    ensures Lifecycle(Step(s, tables, ClickErase(confirmed)))
  {
    if !Busy(s) && !PortMissing(s, tables) && confirmed {
      BeginOperationSpec(s);
      DoneCountSnoc(s.queue, AppendLog(Str(s, tables, "status_erasing") + "\n"));
    }
  }

  /** A completion handler ends the operation and queues no further completion. */
  lemma FlashCompleteEnds(s: TkState, tables: Tables, rc: int)
    requires "en" in tables
    ensures var t := FlashComplete(s, tables, rc);
      && !Busy(t) && !t.controls.erase.disabled && !t.controls.refresh.disabled
      && !t.controls.browse.disabled && !t.controls.widgetsDisabled
      && t.worker == s.worker && t.form == s.form && DoneCount(t.queue) == DoneCount(s.queue)
  {
    var c := SetControlsDisabled(s.controls, false);
    SetControlsDisabledSpec(s.controls, false);
    var s1 := s.(controls := c.(load := c.load.(text := Str(s, tables, "load_button"))));
    var s2 := if rc == 0 then ShowNotification(s1, tables, "flash_success", Success)
              else ShowNotification(s1, tables, "flash_error_generic", Error);
    assert s2.controls == s1.controls && s2.queue == s.queue && s2.worker == s.worker && s2.form == s.form;
    DoneCountSnoc(s.queue, AppendLog(FlashResultLine(s, tables, rc)));
  }

  lemma EraseCompleteEnds(s: TkState, tables: Tables, rc: int)
    requires "en" in tables
    ensures var t := EraseComplete(s, tables, rc);
      && !Busy(t) && !t.controls.erase.disabled && !t.controls.refresh.disabled
      && !t.controls.browse.disabled && !t.controls.widgetsDisabled
      && t.worker == s.worker && t.form == s.form && DoneCount(t.queue) == DoneCount(s.queue)
  {
    var c := SetControlsDisabled(s.controls, false);
    SetControlsDisabledSpec(s.controls, false);
    var s1 := s.(controls := c.(load := c.load.(text := Str(s, tables, "load_button")),
                                erase := c.erase.(text := Str(s, tables, "erase_button"))));
    var s2 := if rc == 0 then ShowNotification(s1, tables, "erase_success", Success)
              else ShowNotification(s1, tables, "erase_error", Error);
    assert s2.controls == s1.controls && s2.queue == s.queue && s2.worker == s.worker && s2.form == s.form;
    DoneCountSnoc(s.queue, AppendLog(EraseResultLine(s, tables, rc)));
  }

  lemma LifecycleDispatch(s: TkState, tables: Tables)
    requires TkTables(tables) && Lifecycle(s)
    ensures Lifecycle(Dispatch(s, tables))
  {
    if s.queue != [] {
      DoneCountCons(s.queue[0], s.queue[1..]);
      assert s.queue == [s.queue[0]] + s.queue[1..];
      var s1 := s.(queue := s.queue[1..]);
      assert Dispatch(s, tables) == Apply(s1, tables, s.queue[0]);
      match s.queue[0]
      case FlashDone(rc, _) => FlashCompleteEnds(s1, tables, rc);
      case EraseDone(rc, _) => EraseCompleteEnds(s1, tables, rc);
      case _ => assert Apply(s1, tables, s.queue[0]).controls == s1.controls;
    }
  }

  lemma LifecycleWorker(s: TkState, tables: Tables, run: EsptoolRun)
    requires TkTables(tables) && Lifecycle(s)
    ensures Lifecycle(Step(s, tables, WorkerRuns(run)))
  {
    if s.worker.Some? {
      var job := s.worker.value;
      var w := WorkerEvents(job, JobArgs(job, s.form.appMode), JobTemplate(s, tables, job), run);
      WorkerEventsSpec(job, JobArgs(job, s.form.appMode), JobTemplate(s, tables, job), run);
      EventsAppend(s.queue, w);
    }
  }

  /** Re-rendering the texts touches neither the busy state, the log, the queue, the
      worker, the inputs nor the stored notification; a disabled load or erase button
      keeps its text and an enabled one is retitled. */
  lemma UpdateUiTextFrame(s: TkState, tables: Tables, ports: seq<PortInfo>)
    requires TkTables(tables)
    ensures var t := UpdateUiText(s, tables, ports);
      && t.lang == s.lang && t.notification == s.notification && t.log == s.log
      && t.queue == s.queue && t.worker == s.worker
      && t.form.appMode == s.form.appMode && t.form.buildVar == s.form.buildVar
      && t.controls.load.disabled == s.controls.load.disabled && t.controls.erase.disabled == s.controls.erase.disabled
      && t.controls.refresh.disabled == s.controls.refresh.disabled
      && t.controls.browse.disabled == s.controls.browse.disabled
      && t.controls.widgetsDisabled == s.controls.widgetsDisabled
      && t.controls.load.text == (if Busy(s) then s.controls.load.text else Str(s, tables, "load_button"))
      && t.controls.erase.text == (if s.controls.erase.disabled then s.controls.erase.text else Str(s, tables, "erase_button"))
  {
  }

  lemma LifecycleLanguage(s: TkState, tables: Tables, lang: string, ports: seq<PortInfo>)
    requires TkTables(tables) && Lifecycle(s)
    ensures Lifecycle(Step(s, tables, ChooseLanguage(lang, ports)))
  {
    if lang in tables && lang != s.lang {
      UpdateUiTextFrame(s.(lang := lang), tables, ports);
    }
  }

  /** Every transition keeps the busy cycle intact. */
  lemma StepKeepsLifecycle(s: TkState, tables: Tables, input: TkInput)
    requires TkTables(tables) && Lifecycle(s)
    ensures Lifecycle(Step(s, tables, input))
  {
    match input
    case ClickLoad => LifecycleStartFlash(s, tables);
    case ClickErase(confirmed) => LifecycleStartErase(s, tables, confirmed);
    case DispatchNext => LifecycleDispatch(s, tables);
    case WorkerRuns(run) => LifecycleWorker(s, tables, run);
    case ChooseLanguage(lang, ports) => LifecycleLanguage(s, tables, lang, ports);
    case _ =>
  }

  /** While an operation runs, every button, the menu, the entry and the checkbox
      ignore the user: a second operation cannot start. */
  lemma BusyIgnoresControls(s: TkState, tables: Tables, input: TkInput)
    requires TkTables(tables) && Lifecycle(s) && Busy(s) && IsControlInput(input)
    ensures Step(s, tables, input) == s
  {
  }

  /** Only the dispatch of a queued completion ends an operation ... */
  lemma OnlyCompletionEndsBusy(s: TkState, tables: Tables, input: TkInput)
    requires TkTables(tables) && Lifecycle(s) && Busy(s) && !Busy(Step(s, tables, input))
    ensures input.DispatchNext? && s.queue != [] && IsDone(s.queue[0])
  {
    if input.ChooseLanguage? && input.lang in tables && input.lang != s.lang {
      UpdateUiTextFrame(s.(lang := input.lang), tables, input.ports);
    }
  }

  /** ... and it always does, re-enabling every control. */
  lemma CompletionEndsBusy(s: TkState, tables: Tables)
    requires TkTables(tables) && s.queue != [] && IsDone(s.queue[0])
    ensures var t := Step(s, tables, DispatchNext);
      && !Busy(t) && !t.controls.erase.disabled && !t.controls.refresh.disabled
      && !t.controls.browse.disabled && !t.controls.widgetsDisabled
  {
    var e := s.queue[0];
    var s1 := s.(queue := s.queue[1..]);
    assert Step(s, tables, DispatchNext) == Apply(s1, tables, e);
    if e.FlashDone? {
      FlashCompleteEnds(s1, tables, e.rc);
    } else {
      EraseCompleteEnds(s1, tables, e.rc);
    }
  }

  // ---------------------------------------------------------------------------
  // The guards of the two start handlers

  /** A flash without a real port or without a firmware path only shows
      `error_missing_params`; the log, the controls, the queue and the threads are untouched. */
  lemma StartFlashRejects(s: TkState, tables: Tables)
    requires TkTables(tables) && !Busy(s)
    requires s.form.portVar == "" || s.form.buildVar == ""
          || s.form.portVar == Str(s, tables, "no_ports_found") || s.form.portVar == Str(s, tables, "ports_loading")
    ensures Step(s, tables, ClickLoad)
         == s.(notification := Some(Notification("error_missing_params", Error)),
               result := Label(Str(s, tables, "error_missing_params"), Error))
  {
  }

  /** Otherwise the log is cleared, the app goes busy with `status_starting` shown and
      queued to the log, and a flash worker for the chosen port and file is started. */
  lemma StartFlashAccepts(s: TkState, tables: Tables)
    requires TkTables(tables) && !Busy(s)
    requires s.form.portVar != "" && s.form.buildVar != ""
          && s.form.portVar != Str(s, tables, "no_ports_found") && s.form.portVar != Str(s, tables, "ports_loading")
    ensures var t := Step(s, tables, ClickLoad);
      && Busy(t) && t.log == []
      && t.notification == Some(Notification("status_starting", Info))
      && t.result == Label(Str(s, tables, "status_starting"), Info)
      && t.controls.load.text == Str(s, tables, "load_button_loading")
      && t.queue == s.queue + [AppendLog(Str(s, tables, "status_starting") + "\n")]
      && t.worker == Some(FlashJob(s.form.buildVar, s.form.portVar, s.form.appMode))
  {
  }

  /** An erase without a real port only shows `error_missing_port`; a declined
      confirmation changes nothing at all; a confirmed one starts the erase worker. */
  lemma StartEraseCases(s: TkState, tables: Tables, confirmed: bool)
    requires TkTables(tables) && Lifecycle(s) && !Busy(s)
    ensures var t := Step(s, tables, ClickErase(confirmed));
      && (PortMissing(s, tables) ==>
            t == s.(notification := Some(Notification("error_missing_port", Error)),
                     result := Label(Str(s, tables, "error_missing_port"), Error)))
      && (!PortMissing(s, tables) && !confirmed ==> t == s)
      && (!PortMissing(s, tables) && confirmed ==>
            && Busy(t) && t.log == [] && t.worker == Some(EraseJob(s.form.portVar))
            && t.notification == Some(Notification("status_erasing", Info))
            && t.controls.erase.text == Str(s, tables, "erase_button_erasing")
            && t.queue == s.queue + [AppendLog(Str(s, tables, "status_erasing") + "\n")])
  {
  }

  // ---------------------------------------------------------------------------
  // Completion

  /** Dispatching a flash completion shows success iff the return code is 0, and
      otherwise an error and a log line naming the return code. */
  lemma FlashCompletionOutcome(s: TkState, tables: Tables, rc: int, logs: string)
    requires TkTables(tables) && s.queue != [] && s.queue[0] == FlashDone(rc, logs)
    ensures var t := Step(s, tables, DispatchNext);
      && !Busy(t) && t.controls.load.text == Str(s, tables, "load_button")
      && (t.notification == Some(Notification("flash_success", Success)) <==> rc == 0)
      && (rc != 0 ==> t.notification == Some(Notification("flash_error_generic", Error)))
      && t.queue == s.queue[1..] + [AppendLog(FlashResultLine(s, tables, rc))]
      && (rc != 0 ==> Contains(FlashResultLine(s, tables, rc), ReturnCodeText(rc)))
  {
    if rc != 0 {
      FailureLineNamesCode("flash", rc);
    }
  }

  lemma EraseCompletionOutcome(s: TkState, tables: Tables, rc: int, logs: string)
    requires TkTables(tables) && s.queue != [] && s.queue[0] == EraseDone(rc, logs)
    ensures var t := Step(s, tables, DispatchNext);
      && !Busy(t) && t.controls.load.text == Str(s, tables, "load_button")
      && t.controls.erase.text == Str(s, tables, "erase_button")
      && (t.notification == Some(Notification("erase_success", Success)) <==> rc == 0)
      && (rc != 0 ==> t.notification == Some(Notification("erase_error", Error)))
      && t.queue == s.queue[1..] + [AppendLog(EraseResultLine(s, tables, rc))]
      && (rc != 0 ==> Contains(EraseResultLine(s, tables, rc), ReturnCodeText(rc)))
  {
    if rc != 0 {
      FailureLineNamesCode("erase", rc);
    }
  }

  /** A worker run queues the command line first and the completion last, with the
      return code of esptool's outcome and everything it wrote as the captured logs. */
  lemma WorkerRunQueues(s: TkState, tables: Tables, run: EsptoolRun)
    requires TkTables(tables) && s.worker.Some?
    ensures var t := RunWorker(s, tables, run);
      && var w := WorkerEvents(s.worker.value, JobArgs(s.worker.value, s.form.appMode), JobTemplate(s, tables, s.worker.value), run);
      && t.worker == None && t.queue == s.queue + w
      && w[0] == AppendLog(ExecLine(JobArgs(s.worker.value, s.form.appMode)))
      && w[|w| - 1] == (if s.worker.value.FlashJob? then FlashDone(ReturnCode(run.outcome), Concat(run.chunks))
                        else EraseDone(ReturnCode(run.outcome), Concat(run.chunks)))
      && DoneCount(w) == 1
      && LogText(w) == ExecLine(JobArgs(s.worker.value, s.form.appMode)) + Concat(run.chunks)
                       + (if run.outcome.Raised? then ExceptionLines(run.outcome)[0] else [])
      && (s.worker.value.EraseJob? ==> ProgressCount(w) == 0)
  {
    var job := s.worker.value;
    WorkerEventsSpec(job, JobArgs(job, s.form.appMode), JobTemplate(s, tables, job), run);
  }

  // ---------------------------------------------------------------------------
  // Language

  /** Choosing an unknown language or the current one changes nothing. */
  lemma SetLanguageNoop(s: TkState, tables: Tables, lang: string, ports: seq<PortInfo>)
    requires TkTables(tables) && (lang !in tables || lang == s.lang)
    ensures Step(s, tables, ChooseLanguage(lang, ports)) == s
  {
  }

  /** The label after re-rendering: a stored notification in the current language unless it is
      transient, `status_ready` for an idle app without one, else what was shown. */
  lemma UpdateUiTextResult(s: TkState, tables: Tables, ports: seq<PortInfo>)
    requires TkTables(tables)
    ensures var t := UpdateUiText(s, tables, ports);
      && (s.notification.Some? && !TransientKey(s.notification.value.key) ==>
            t.result == Label(Str(s, tables, s.notification.value.key), s.notification.value.level))
      && (s.notification.Some? && TransientKey(s.notification.value.key) ==> t.result == s.result)
      && (s.notification.None? && !Busy(s) ==> t.result == Label(Str(s, tables, "status_ready"), Info))
      && (s.notification.None? && Busy(s) ==> t.result == s.result)
  {
  }

  /** Choosing another language re-renders a stored notification in it, unless a running
      operation is about to overwrite it; with none stored, an idle app shows `status_ready`.
      Controls, log, queue and worker are untouched: the language is never locked. */
  lemma SetLanguageRerenders(s: TkState, tables: Tables, lang: string, ports: seq<PortInfo>)
    requires TkTables(tables) && lang in tables && lang != s.lang
    ensures var t := Step(s, tables, ChooseLanguage(lang, ports));
      && t.lang == lang && t.notification == s.notification
      && t.log == s.log && t.queue == s.queue && t.worker == s.worker
      && Busy(t) == Busy(s) && t.controls.widgetsDisabled == s.controls.widgetsDisabled
      && (s.notification.Some? && !TransientKey(s.notification.value.key) ==>
            t.result == Label(GetString(tables, lang, s.notification.value.key), s.notification.value.level))
      && (s.notification.Some? && TransientKey(s.notification.value.key) ==> t.result == s.result)
      && (s.notification.None? && !Busy(s) ==> t.result == Label(GetString(tables, lang, "status_ready"), Info))
  {
    UpdateUiTextFrame(s.(lang := lang), tables, ports);
    UpdateUiTextResult(s.(lang := lang), tables, ports);
  }

  /** The erase button keeps the text of the old language after a flash during which
      the language changed: it is skipped while disabled and `_flash_complete` does not
      set it again. */
  lemma EraseTextStaleAfterFlash(s: TkState, tables: Tables, lang: string, ports: seq<PortInfo>, logs: string)
    requires TkTables(tables) && Lifecycle(s) && Busy(s) && lang in tables && lang != s.lang
    requires s.queue == [FlashDone(0, logs)]
    ensures var t := Step(Step(s, tables, ChooseLanguage(lang, ports)), tables, DispatchNext);
      && !Busy(t) && t.lang == lang
      && t.controls.erase.text == s.controls.erase.text
      && t.controls.load.text == GetString(tables, lang, "load_button")
  {
    var u := s.(lang := lang);
    UpdateUiTextFrame(u, tables, ports);
    var m := Step(s, tables, ChooseLanguage(lang, ports));
    assert m == UpdateUiText(u, tables, ports);
    assert m.queue == [FlashDone(0, logs)] && m.lang == lang && m.controls.erase.text == s.controls.erase.text;
  }
}
