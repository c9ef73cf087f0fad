/** kodeOS.py's widgets and handlers as objects changed in place. Each handler of
    `LoaderApp` is a method whose new state is the transition of module TkLoader
    for the same input, and which keeps the busy cycle `TkLoader.Lifecycle`. */
module TkApp {
  import opened Common
  import opened Text
  import opened Localization
  import opened Esptool
  import opened Ports
  import opened Events
  import TkLogger
  import TkLoader

  /** The canvas button: its disabled flag, fill, text and the colour it was created with. */
  class RoundedButton {
    var stateDisabled: bool
    var normalBg: string
    var text: string
    const origBg: string

    constructor(text: string, bg: string)
      ensures View() == TkLoader.ButtonView(false, bg, text) && origBg == bg
    {
      this.text := text;
      normalBg := bg;
      origBg := bg;
      stateDisabled := false;
    }

    function View(): TkLoader.ButtonView
      reads this
    {
      TkLoader.ButtonView(stateDisabled, normalBg, text)
    }

    /** `set_text(text)` */
    method SetText(t: string)
      modifies this
      ensures View() == old(View()).(text := t)
    {
      text := t;
    }

    /** `set_disabled(disabled)` */
    method SetDisabled(disabled: bool)
      modifies this
      ensures View() == TkLoader.SetDisabledView(old(View()), origBg, disabled)
    {
      stateDisabled := disabled;
      if disabled {
        normalBg := TkLoader.GrayLight;
      } else {
        normalBg := origBg;
      }
    }

    /** `_on_click`: the command runs iff the button is enabled. */
    method Click() returns (fired: bool)
      ensures fired <==> !stateDisabled
    {
      fired := !stateDisabled;
    }
  }

  class LoaderApp {
    var lang: string
    var currentNotification: Option<Notification>
    var resultLabel: Label
    var logText: string
    var portVar: string
    var portMenu: seq<MenuEntry>
    var buildVar: string
    var flashApp: bool
    var widgetsDisabled: bool
    var skipInitialProgress: bool
    /** The callbacks posted with `after(0, ...)`, oldest first. */
    var pending: seq<UiEvent>
    /** The worker thread started and not yet run. */
    var thread: Option<Job>
    const loadBtn: RoundedButton
    const eraseBtn: RoundedButton
    const refreshBtn: RoundedButton
    const browseBtn: RoundedButton
    /** `LANGUAGES` */
    const tables: Tables

    function State(): TkLoader.TkState
      reads this, loadBtn, eraseBtn, refreshBtn, browseBtn
    {
      TkLoader.TkState(lang, currentNotification, resultLabel, logText,
                       TkLoader.Controls(loadBtn.View(), eraseBtn.View(), refreshBtn.View(), browseBtn.View(), widgetsDisabled),
                       TkLoader.Form(portVar, portMenu, buildVar, flashApp),
                       skipInitialProgress, pending, thread)
    }

    /** Four distinct buttons in the colours `_build_ui` gives them, and tables with English and Spanish. */
    predicate Wired() {
      && loadBtn != eraseBtn && loadBtn != refreshBtn && loadBtn != browseBtn
      && eraseBtn != refreshBtn && eraseBtn != browseBtn && refreshBtn != browseBtn
      && loadBtn.origBg == TkLoader.Accent && eraseBtn.origBg == TkLoader.ColorError
      && refreshBtn.origBg == TkLoader.Accent && browseBtn.origBg == TkLoader.Accent
      && TkLoader.TkTables(tables)
    }

    predicate Valid()
      reads this, loadBtn, eraseBtn, refreshBtn, browseBtn
    {
      Wired() && TkLoader.Lifecycle(State())
    }

    /** `get_string(key)` */
    function GetText(key: string): string
      reads this
      requires Wired()
    {
      GetString(tables, lang, key)
    }

    /** `__init__`, with `comports()` returning `ports` at the first `_refresh_ports()`. */
    constructor(tables: Tables, ports: seq<PortInfo>)
      requires TkLoader.TkTables(tables)
      ensures Valid() && State() == TkLoader.Initial(tables, ports)
    {
      this.tables := tables;
      lang := "en";
      currentNotification := None;
      var loading := GetString(tables, "en", "ports_loading");
      portVar := loading;
      portMenu := [MenuEntry(loading, true)];
      refreshBtn := new RoundedButton(GetString(tables, "en", "refresh_button"), TkLoader.Accent);
      buildVar := "";
      browseBtn := new RoundedButton(GetString(tables, "en", "browse_button"), TkLoader.Accent);
      flashApp := false;
      loadBtn := new RoundedButton(GetString(tables, "en", "load_button"), TkLoader.Accent);
      eraseBtn := new RoundedButton(GetString(tables, "en", "erase_button"), TkLoader.ColorError);
      resultLabel := Label(GetString(tables, "en", "status_ready"), Info);
      logText := [];
      widgetsDisabled := false;
      skipInitialProgress := false;
      pending := [];
      thread := None;
      new;
      RefreshPorts(ports);
      TkLoader.InitialIdle(tables, ports);
    }

    /** `_show_notification(key, level)` */
    method ShowNotification(key: string, level: Level)
      requires Wired()
      modifies this
      ensures State() == TkLoader.ShowNotification(old(State()), tables, key, level)
    {
      currentNotification := Some(Notification(key, level));
      resultLabel := Label(GetText(key), level);
    }

    /** `_clear_notification()` */
    method ClearNotification()
      modifies this
      ensures State() == TkLoader.ClearNotification(old(State()))
    {
      currentNotification := None;
      resultLabel := Label("", Info);
    }

    /** `_set_controls_disabled(disabled)` */
    method SetControlsDisabled(disabled: bool)
      requires Wired()
      modifies this, loadBtn, eraseBtn, refreshBtn, browseBtn
      ensures State() == old(State()).(controls := TkLoader.SetControlsDisabled(old(State()).controls, disabled))
    {
      loadBtn.SetDisabled(disabled);
      eraseBtn.SetDisabled(disabled);
      refreshBtn.SetDisabled(disabled);
      browseBtn.SetDisabled(disabled);
      widgetsDisabled := disabled;
    }

    /** `_refresh_ports()` with `comports()` returning `ports`. */
    method RefreshPorts(ports: seq<PortInfo>)
      requires Wired()
      modifies this
      ensures State() == TkLoader.RefreshPorts(old(State()), tables, ports)
    {
      var names := ListPorts(ports);
      var noPorts := GetText("no_ports_found");
      if names != [] {
        var menu := [];
        var i := 0;
        while i < |names|
          invariant 0 <= i <= |names|
          invariant |menu| == i
          invariant forall k | 0 <= k < i :: menu[k] == MenuEntry(names[k], true)
        {
          menu := menu + [MenuEntry(names[i], true)];
          i := i + 1;
        }
        portMenu := menu;
        assert portMenu == TkMenu(names, noPorts);
        var current := portVar;
        if current == noPorts || current == GetText("ports_loading") || current !in names {
          portVar := names[0];
        }
      } else {
        portVar := noPorts;
        portMenu := [MenuEntry(noPorts, false)];
      }
    }

    /** `_clear_log_area()`, `_clear_notification()` and `_set_controls_disabled(True)`. */
    method BeginOperation()
      requires Wired()
      modifies this, loadBtn, eraseBtn, refreshBtn, browseBtn
      ensures State() == TkLoader.BeginOperation(old(State()))
    {
      logText := [];
      ClearNotification();
      SetControlsDisabled(true);
    }

    /** `_start_flash()` */
    method StartFlash()
      requires Wired()
      modifies this, loadBtn, eraseBtn, refreshBtn, browseBtn
      ensures State() == TkLoader.StartFlash(old(State()), tables)
    {
      var port := portVar;
      var build := buildVar;
      if port == "" || build == "" || port == GetText("no_ports_found") || port == GetText("ports_loading") {
        ShowNotification("error_missing_params", Error);
        return;
      }
      LaunchFlash();
    }

    /** What `_start_flash()` does once the port and the firmware path are there. */
    method LaunchFlash()
      requires Wired() && !TkLoader.PortMissing(State(), tables) && buildVar != ""
      modifies this, loadBtn, eraseBtn, refreshBtn, browseBtn
      ensures State() == TkLoader.StartFlash(old(State()), tables)
    {
      var port := portVar;
      var build := buildVar;
      BeginOperation();
      loadBtn.SetText(GetText("load_button_loading"));
      ShowNotification("status_starting", Info);
      skipInitialProgress := true;
      pending := pending + [AppendLog(GetText("status_starting") + "\n")];
      thread := Some(FlashJob(build, port, flashApp));
    }

    /** `_start_erase()`, with `confirmed` the answer of the confirmation dialog. */
    method StartErase(confirmed: bool)
      requires Wired()
      modifies this, loadBtn, eraseBtn, refreshBtn, browseBtn
      ensures State() == TkLoader.StartErase(old(State()), tables, confirmed)
    {
      var port := portVar;
      if port == "" || port == GetText("no_ports_found") || port == GetText("ports_loading") {
        ShowNotification("error_missing_port", Error);
        return;
      }
      if !confirmed {
        return;
      }
      BeginOperation();
      eraseBtn.SetText(GetText("erase_button_erasing"));
      ShowNotification("status_erasing", Info);
      pending := pending + [AppendLog(GetText("status_erasing") + "\n")];
      thread := Some(EraseJob(port));
    }

    /** The button texts `_update_ui_text` sets. */
    method RetitleButtons()
      requires Wired()
      modifies loadBtn, eraseBtn, refreshBtn, browseBtn
      ensures State() == old(State()).(controls := TkLoader.RetitleButtons(old(State()).controls, tables, lang))
    {
      refreshBtn.SetText(GetText("refresh_button"));
      browseBtn.SetText(GetText("browse_button"));
      RetitleIfEnabled();
    }

    /** The load and erase buttons get their texts back only when enabled. */
    method RetitleIfEnabled()
      requires Wired()
      modifies loadBtn, eraseBtn
      ensures State() == old(State()).(controls := old(State()).controls.(
                load := if loadBtn.stateDisabled then old(loadBtn.View()) else old(loadBtn.View()).(text := GetText("load_button")),
                erase := if eraseBtn.stateDisabled then old(eraseBtn.View()) else old(eraseBtn.View()).(text := GetText("erase_button"))))
    {
      if !loadBtn.stateDisabled {
        loadBtn.SetText(GetText("load_button"));
      }
      if !eraseBtn.stateDisabled {
        eraseBtn.SetText(GetText("erase_button"));
      }
    }

    /** The notification `_update_ui_text` shows again. */
    method RerenderNotification()
      requires Wired()
      modifies this
      ensures State() == TkLoader.RerenderNotification(old(State()), tables)
    {
      if currentNotification.Some? {
        var key := currentNotification.value.key;
        if !TkLoader.TransientKey(key) {
          ShowNotification(key, currentNotification.value.level);
        }
      } else if !loadBtn.stateDisabled {
        resultLabel := Label(GetText("status_ready"), Info);
      }
    }

    /** The port status text `_update_ui_text` puts into the current language. */
    method TranslatePortStatus()
      requires Wired()
      modifies this
      ensures State() == old(State()).(form := TkLoader.TranslatePortStatus(old(State()).form, tables, lang))
    {
      var current := portVar;
      if current == tables["en"]["no_ports_found"] || current == tables["es"]["no_ports_found"] {
        portVar := GetText("no_ports_found");
      } else if current == tables["en"]["ports_loading"] || current == tables["es"]["ports_loading"] {
        portVar := GetText("ports_loading");
      }
    }

    /** `_update_ui_text()`, with `comports()` returning `ports`. */
    method UpdateUiText(ports: seq<PortInfo>)
      requires Wired()
      modifies this, loadBtn, eraseBtn, refreshBtn, browseBtn
      ensures State() == TkLoader.UpdateUiText(old(State()), tables, ports)
    {
      RetitleButtons();
      RefreshPorts(ports);
      RerenderNotification();
      TranslatePortStatus();
    }

    /** `_set_language(lang)`, with `comports()` returning `ports`. */
    method SetLanguage(newLang: string, ports: seq<PortInfo>)
      requires Valid()
      modifies this, loadBtn, eraseBtn, refreshBtn, browseBtn
      ensures Valid() && State() == TkLoader.Step(old(State()), tables, TkLoader.ChooseLanguage(newLang, ports))
    {
      TkLoader.StepKeepsLifecycle(State(), tables, TkLoader.ChooseLanguage(newLang, ports));
      if newLang !in tables || newLang == lang {
        return;
      }
      lang := newLang;
      UpdateUiText(ports);
    }

    /** `_flash_complete(rc, logs)` */
    method FlashComplete(rc: int)
      requires Wired()
      modifies this, loadBtn, eraseBtn, refreshBtn, browseBtn
      ensures State() == TkLoader.FlashComplete(old(State()), tables, rc)
    {
      SetControlsDisabled(false);
      loadBtn.SetText(GetText("load_button"));
      if rc == 0 {
        ShowNotification("flash_success", Success);
        pending := pending + [AppendLog(SuccessLine(GetText("flash_success")))];
      } else {
        ShowNotification("flash_error_generic", Error);
        pending := pending + [AppendLog(FailureLine("flash", rc))];
      }
    }

    /** `_erase_complete(rc, logs)` */
    method EraseComplete(rc: int)
      requires Wired()
      modifies this, loadBtn, eraseBtn, refreshBtn, browseBtn
      ensures State() == TkLoader.EraseComplete(old(State()), tables, rc)
    {
      SetControlsDisabled(false);
      loadBtn.SetText(GetText("load_button"));
      eraseBtn.SetText(GetText("erase_button"));
      if rc == 0 {
        ShowNotification("erase_success", Success);
        pending := pending + [AppendLog(SuccessLine(GetText("erase_success")))];
      } else {
        ShowNotification("erase_error", Error);
        pending := pending + [AppendLog(FailureLine("erase", rc))];
      }
    }

    /** The Tk event loop running the oldest posted callback. */
    method DispatchNext()
      requires Valid()
      modifies this, loadBtn, eraseBtn, refreshBtn, browseBtn
      ensures Valid() && State() == TkLoader.Step(old(State()), tables, TkLoader.DispatchNext)
    {
      TkLoader.StepKeepsLifecycle(State(), tables, TkLoader.DispatchNext);
      if pending == [] {
        return;
      }
      var event := pending[0];
      pending := pending[1..];
      RunCallback(event);
    }

    /** The Tk event loop running one posted callback. */
    method RunCallback(event: UiEvent)
      requires Wired()
      modifies this, loadBtn, eraseBtn, refreshBtn, browseBtn
      ensures State() == TkLoader.Apply(old(State()), tables, event)
    {
      match event
      case AppendLog(text) => logText := logText + text;
      case ShowProgress(text) => resultLabel := Label(text, Info);
      case ForgetNotification => currentNotification := None;
      case FlashDone(rc, _) => FlashComplete(rc);
      case EraseDone(rc, _) => EraseComplete(rc);
    }

    /** A started worker thread runs to its end, with esptool behaving as `run`. */
    method RunWorker(run: EsptoolRun)
      requires Valid()
      modifies this
      ensures Valid() && State() == TkLoader.Step(old(State()), tables, TkLoader.WorkerRuns(run))
    {
      TkLoader.StepKeepsLifecycle(State(), tables, TkLoader.WorkerRuns(run));
      if thread.Some? {
        RunThread(run);
      }
    }

    /** `_flash_thread` or `_erase_thread`: the command line, the redirected run of
        esptool, the exception line, and the completion with the return code. */
    method RunThread(run: EsptoolRun)
      requires Wired() && thread.Some?
      modifies this
      ensures State() == TkLoader.RunWorker(old(State()), tables, run)
    {
      var job := thread.value;
      var args := TkLoader.JobArgs(job, flashApp);
      var template := if job.FlashJob? then Some(GetText("flashing_progress")) else None;
      var output, posted := TkLogger.Capture(run.chunks, template);
      var rc := ReturnCode(run.outcome);
      var done := if job.FlashJob? then FlashDone(rc, output) else EraseDone(rc, output);
      pending := pending + ([AppendLog(ExecLine(args))] + posted + ExceptionEvents(run.outcome) + [done]);
      thread := None;
    }

    // -------------------------------------------------------------------------
    // The user's actions

    method ClickLoad()
      requires Valid()
      modifies this, loadBtn, eraseBtn, refreshBtn, browseBtn
      ensures Valid() && State() == TkLoader.Step(old(State()), tables, TkLoader.ClickLoad)
    {
      TkLoader.StepKeepsLifecycle(State(), tables, TkLoader.ClickLoad);
      var fired := loadBtn.Click();
      if fired {
        StartFlash();
      }
    }

    method ClickErase(confirmed: bool)
      requires Valid()
      modifies this, loadBtn, eraseBtn, refreshBtn, browseBtn
      ensures Valid() && State() == TkLoader.Step(old(State()), tables, TkLoader.ClickErase(confirmed))
    {
      TkLoader.StepKeepsLifecycle(State(), tables, TkLoader.ClickErase(confirmed));
      var fired := eraseBtn.Click();
      if fired {
        StartErase(confirmed);
      }
    }

    method ClickRefresh(ports: seq<PortInfo>)
      requires Valid()
      modifies this
      ensures Valid() && State() == TkLoader.Step(old(State()), tables, TkLoader.ClickRefresh(ports))
    {
      var fired := refreshBtn.Click();
      if fired {
        RefreshPorts(ports);
      }
    }

    /** `_browse()`, with the dialog returning `path` ("" when cancelled). */
    method ClickBrowse(path: string)
      requires Valid()
      modifies this
      ensures Valid() && State() == TkLoader.Step(old(State()), tables, TkLoader.ClickBrowse(path))
    {
      var fired := browseBtn.Click();
      if fired && path != "" {
        buildVar := path;
      }
    }

    /** Typing into the firmware entry, which is read-only while the controls are disabled. */
    method EditFirmware(text: string)
      requires Valid()
      modifies this
      ensures Valid() && State() == TkLoader.Step(old(State()), tables, TkLoader.EditFirmware(text))
    {
      if !widgetsDisabled {
        buildVar := text;
      }
    }

    /** Choosing the entry at `index` of the port menu. */
    method ChoosePort(index: nat)
      requires Valid()
      modifies this
      ensures Valid() && State() == TkLoader.Step(old(State()), tables, TkLoader.ChoosePort(index))
    {
      if !widgetsDisabled && index < |portMenu| && portMenu[index].enabled {
        portVar := portMenu[index].text;
      }
    }

    method ToggleAppMode()
      requires Valid()
      modifies this
      ensures Valid() && State() == TkLoader.Step(old(State()), tables, TkLoader.ToggleAppMode)
    {
      TkLoader.StepKeepsLifecycle(State(), tables, TkLoader.ToggleAppMode);
      if !widgetsDisabled {
        flashApp := !flashApp;
      }
    }
  }
}
