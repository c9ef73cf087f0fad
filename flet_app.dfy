/** kodeOS_flet.py's page as an object changed in place: the variables the nested
    handlers of `main` share, and the controls they reach through their refs. Each
    handler of `LoaderPage` is a method whose new state is the transition of module
    FletLoader for the same input, and which keeps the busy cycle `FletLoader.Lifecycle`. */
module FletApp {
  import opened Common
  import opened Text
  import opened Localization
  import opened Esptool
  import opened Ports
  import opened Events
  import FletLogger
  import FletLoader

  class LoaderPage {
    var lang: string
    var currentNotification: Option<Notification>
    /** `notification_text`'s value and the level its colour and icon show. */
    var notificationText: Label
    /** The texts of `log_view`'s controls. */
    var logView: seq<string>
    var loadBtn: FletLoader.ButtonState
    var eraseBtn: FletLoader.ButtonState
    var refreshBtn: FletLoader.ButtonState
    var browseBtn: FletLoader.ButtonState
    var pathDisabled: bool
    var checkDisabled: bool
    /** The dropdown in `port_dropdown_container`, replaced by every refresh. */
    var dropdown: Dropdown
    /** `firmware_path`'s value, "" when unset. */
    var firmwarePath: string
    /** `flash_app_check`'s value. */
    var flashApp: bool
    /** The callbacks handed to `page.run_thread`, oldest first. */
    var pending: seq<UiEvent>
    /** The worker thread started and not yet run. */
    var thread: Option<Job>
    /** `LANGUAGES` */
    const tables: Tables

    function State(): FletLoader.FletState
      reads this
    {
      FletLoader.FletState(lang, currentNotification, notificationText, logView,
                           FletLoader.Controls(loadBtn, eraseBtn, refreshBtn, browseBtn, pathDisabled, checkDisabled),
                           FletLoader.Form(dropdown, firmwarePath, flashApp),
                           pending, thread)
    }

    predicate Valid()
      reads this
    {
      "en" in tables && FletLoader.Lifecycle(State())
    }

    /** `get_string(key)` */
    function GetText(key: string): string
      reads this
      requires "en" in tables
    {
      GetString(tables, lang, key)
    }

    /** `main(page)`: the page built, with `comports()` returning `ports` at its `_refresh_ports()`. */
    constructor(tables: Tables, ports: seq<PortInfo>)
      requires "en" in tables
      ensures Valid() && State() == FletLoader.Initial(tables, ports)
    {
      this.tables := tables;
      lang := "en";
      currentNotification := None;
      notificationText := Label(GetString(tables, "en", "status_ready"), Info);
      logView := [];
      loadBtn := FletLoader.ButtonState(false, GetString(tables, "en", "load_button"));
      eraseBtn := FletLoader.ButtonState(false, GetString(tables, "en", "erase_button"));
      refreshBtn := FletLoader.ButtonState(false, GetString(tables, "en", "refresh_button"));
      browseBtn := FletLoader.ButtonState(false, GetString(tables, "en", "browse_button"));
      pathDisabled := false;
      checkDisabled := false;
      dropdown := Dropdown(None, None, [], false);
      firmwarePath := "";
      flashApp := false;
      pending := [];
      thread := None;
      new;
      RefreshPorts(ports, false);
      FletLoader.InitialIdle(tables, ports);
    }

    /** `_show_notification(key, level)` */
    method ShowNotification(key: string, level: Level)
      requires "en" in tables
      modifies this
      ensures State() == FletLoader.ShowNotification(old(State()), tables, key, level)
    {
      currentNotification := Some(Notification(key, level));
      notificationText := Label(GetText(key), level);
    }

    /** `_set_controls_disabled(disabled)` */
    method SetControlsDisabled(disabled: bool)
      modifies this
      ensures State() == FletLoader.SetControlsDisabled(old(State()), disabled)
    {
      SetButtonsDisabled(disabled);
      pathDisabled := disabled;
      checkDisabled := disabled;
      if disabled {
        dropdown := dropdown.(disabled := true);
      } else {
        dropdown := dropdown.(disabled := |dropdown.options| == 0);
      }
    }

    /** The flags `_set_controls_disabled` sets on the four buttons. */
    method SetButtonsDisabled(disabled: bool)
      modifies this
      ensures State() == old(State()).(controls := old(State()).controls.(
                load := old(loadBtn).(disabled := disabled), erase := old(eraseBtn).(disabled := disabled),
                refresh := old(refreshBtn).(disabled := disabled), browse := old(browseBtn).(disabled := disabled)))
    {
      loadBtn := loadBtn.(disabled := disabled);
      eraseBtn := eraseBtn.(disabled := disabled);
      refreshBtn := refreshBtn.(disabled := disabled);
      browseBtn := browseBtn.(disabled := disabled);
    }

    /** `_refresh_ports(update_text=updateText)` with `comports()` returning `ports`: a new
        dropdown gets one option per listed port. */
    method RefreshPorts(ports: seq<PortInfo>, updateText: bool)
      requires "en" in tables
      modifies this
      ensures State() == FletLoader.RefreshPorts(old(State()), tables, ports, updateText)
    {
      var oldValue := dropdown.value;
      var names := ListPorts(ports);
      if names != [] {
        var options := [];
        var i := 0;
        while i < |names|
          invariant 0 <= i <= |names|
          invariant options == names[..i]
        {
          options := options + [names[i]];
          i := i + 1;
        }
        assert names[..|names|] == names;
        if oldValue.Some? && oldValue.value in names && !updateText {
          dropdown := Dropdown(oldValue, None, options, false);
        } else {
          dropdown := Dropdown(None, Some(GetText("select_port_prompt")), options, false);
        }
      } else {
        dropdown := Dropdown(None, Some(GetText("no_ports_found")), [], true);
      }
    }

    /** `_clear_log_area()` and `_set_controls_disabled(True)`. */
    method BeginOperation()
      modifies this
      ensures State() == FletLoader.BeginOperation(old(State()))
    {
      logView := [];
      SetControlsDisabled(true);
    }

    /** `_start_flash(e)` */
    method StartFlash()
      requires "en" in tables
      modifies this
      ensures State() == FletLoader.StartFlash(old(State()), tables)
    {
      var port := dropdown.value;
      var build := firmwarePath;
      if port.None? || port.value == "" {
        ShowNotification("error_missing_port", Error);
        return;
      }
      if build == "" {
        ShowNotification("error_missing_params", Error);
        return;
      }
      BeginOperation();
      loadBtn := loadBtn.(text := GetText("load_button_loading"));
      ShowNotification("status_starting", Info);
      thread := Some(FlashJob(build, port.value, flashApp));
    }

    /** `_start_erase(e)` */
    method StartErase()
      requires "en" in tables
      modifies this
      ensures State() == FletLoader.StartErase(old(State()), tables)
    {
      var port := dropdown.value;
      if port.None? || port.value == "" {
        ShowNotification("error_missing_port", Error);
        return;
      }
      BeginOperation();
      eraseBtn := eraseBtn.(text := GetText("erase_button_erasing"));
      ShowNotification("status_erasing_critical", Error);
      thread := Some(EraseJob(port.value));
    }

    /** The button texts `_update_ui_text` sets. */
    method RetitleButtons()
      requires "en" in tables
      modifies this
      ensures State() == old(State()).(controls := FletLoader.RetitleButtons(old(State()).controls, tables, lang))
    {
      refreshBtn := refreshBtn.(text := GetText("refresh_button"));
      browseBtn := browseBtn.(text := GetText("browse_button"));
      RetitleIfEnabled();
    }

    /** The load and erase buttons get their texts back only when enabled. */
    method RetitleIfEnabled()
      requires "en" in tables
      modifies this
      ensures State() == old(State()).(controls := old(State()).controls.(
                load := if loadBtn.disabled then old(loadBtn) else old(loadBtn).(text := GetText("load_button")),
                erase := if eraseBtn.disabled then old(eraseBtn) else old(eraseBtn).(text := GetText("erase_button"))))
    {
      if !loadBtn.disabled {
        loadBtn := loadBtn.(text := GetText("load_button"));
      }
      if !eraseBtn.disabled {
        eraseBtn := eraseBtn.(text := GetText("erase_button"));
      }
    }

    /** The notification `_update_ui_text` shows again. */
    method RerenderNotification()
      requires "en" in tables
      modifies this
      ensures State() == FletLoader.RerenderNotification(old(State()), tables)
    {
      if currentNotification.Some? {
        var key := currentNotification.value.key;
        if !FletLoader.TransientKey(key) {
          ShowNotification(key, currentNotification.value.level);
        }
      } else if !loadBtn.disabled {
        ShowNotification("status_ready", Info);
      }
    }

    /** `_update_ui_text()`, with `comports()` returning `ports`. */
    method UpdateUiText(ports: seq<PortInfo>)
      requires "en" in tables
      modifies this
      ensures State() == FletLoader.UpdateUiText(old(State()), tables, ports)
    {
      RetitleButtons();
      RefreshPorts(ports, true);
      RerenderNotification();
    }

    /** `_set_language(e, new_lang)`, with `comports()` returning `ports`. */
    method SetLanguage(newLang: string, ports: seq<PortInfo>)
      requires Valid()
      modifies this
      ensures Valid() && State() == FletLoader.Step(old(State()), tables, FletLoader.ChooseLanguage(newLang, ports))
    {
      FletLoader.StepKeepsLifecycle(State(), tables, FletLoader.ChooseLanguage(newLang, ports));
      if loadBtn.disabled || lang == newLang {
        return;
      }
      lang := newLang;
      UpdateUiText(ports);
    }

    /** `_flash_complete(rc, logs)`, with `comports()` returning `ports`. */
    method FlashComplete(rc: int, ports: seq<PortInfo>)
      requires "en" in tables
      modifies this
      ensures State() == FletLoader.FlashComplete(old(State()), tables, ports, rc)
    {
      SetControlsDisabled(false);
      loadBtn := loadBtn.(text := GetText("load_button"));
      RefreshPorts(ports, false);
      if rc == 0 {
        ShowNotification("flash_success", Success);
        pending := pending + [AppendLog(SuccessLine(GetText("flash_success")))];
      } else {
        ShowNotification("flash_error_generic", Error);
        pending := pending + [AppendLog(FailureLine("flash", rc))];
      }
    }

    /** `_erase_complete(rc, logs)`, with `comports()` returning `ports`. */
    method EraseComplete(rc: int, ports: seq<PortInfo>)
      requires "en" in tables
      modifies this
      ensures State() == FletLoader.EraseComplete(old(State()), tables, ports, rc)
    {
      SetControlsDisabled(false);
      loadBtn := loadBtn.(text := GetText("load_button"));
      eraseBtn := eraseBtn.(text := GetText("erase_button"));
      RefreshPorts(ports, false);
      if rc == 0 {
        ShowNotification("erase_success", Success);
        pending := pending + [AppendLog(SuccessLine(GetText("erase_success")))];
      } else {
        ShowNotification("erase_error", Error);
        pending := pending + [AppendLog(FailureLine("erase", rc))];
      }
    }

    /** The oldest handed-over callback runs. */
    method DispatchNext(ports: seq<PortInfo>)
      requires Valid()
      modifies this
      ensures Valid() && State() == FletLoader.Step(old(State()), tables, FletLoader.DispatchNext(ports))
    {
      FletLoader.StepKeepsLifecycle(State(), tables, FletLoader.DispatchNext(ports));
      if pending == [] {
        return;
      }
      var event := pending[0];
      pending := pending[1..];
      RunCallback(event, ports);
    }

    /** One handed-over callback runs: `_update_log_area_safe`, the progress lambda, or a completion. */
    method RunCallback(event: UiEvent, ports: seq<PortInfo>)
      requires "en" in tables
      modifies this
      ensures State() == FletLoader.Apply(old(State()), tables, ports, event)
    {
      match event
      case AppendLog(text) => logView := logView + [text];
      case ShowProgress(text) => notificationText := notificationText.(text := text);
      case ForgetNotification => currentNotification := None;
      case FlashDone(rc, _) => FlashComplete(rc, ports);
      case EraseDone(rc, _) => EraseComplete(rc, ports);
    }

    /** A started worker thread runs to its end, with esptool behaving as `run`. */
    method RunWorker(run: EsptoolRun)
      requires Valid()
      modifies this
      ensures Valid() && State() == FletLoader.Step(old(State()), tables, FletLoader.WorkerRuns(run))
    {
      FletLoader.StepKeepsLifecycle(State(), tables, FletLoader.WorkerRuns(run));
      if thread.Some? {
        RunThread(run);
      }
    }

    /** `_flash_thread` or `_erase_thread`: the command line, the redirected run of
        esptool, the exception line, and from `finally` the completion. */
    method RunThread(run: EsptoolRun)
      requires "en" in tables && thread.Some?
      modifies this
      ensures State() == FletLoader.RunWorker(old(State()), tables, run)
    {
      var job := thread.value;
      var args := FletLoader.JobArgs(job);
      var template := if job.FlashJob? then Some(GetText("flashing_progress")) else None;
      var output, posted := FletLogger.Capture(run.chunks, template);
      var rc := ReturnCode(run.outcome);
      var done := if job.FlashJob? then FlashDone(rc, output) else EraseDone(rc, output);
      pending := pending + ([AppendLog(ExecLine(args))] + posted + ExceptionEvents(run.outcome) + [done]);
      thread := None;
    }

    // -------------------------------------------------------------------------
    // The user's actions

    method ClickLoad()
      requires Valid()
      modifies this
      ensures Valid() && State() == FletLoader.Step(old(State()), tables, FletLoader.ClickLoad)
    {
      FletLoader.StepKeepsLifecycle(State(), tables, FletLoader.ClickLoad);
      if !loadBtn.disabled {
        StartFlash();
      }
    }

    method ClickErase()
      requires Valid()
      modifies this
      ensures Valid() && State() == FletLoader.Step(old(State()), tables, FletLoader.ClickErase)
    {
      FletLoader.StepKeepsLifecycle(State(), tables, FletLoader.ClickErase);
      if !eraseBtn.disabled {
        StartErase();
      }
    }

    method ClickRefresh(ports: seq<PortInfo>)
      requires Valid()
      modifies this
      ensures Valid() && State() == FletLoader.Step(old(State()), tables, FletLoader.ClickRefresh(ports))
    {
      FletLoader.StepKeepsLifecycle(State(), tables, FletLoader.ClickRefresh(ports));
      if !refreshBtn.disabled {
        RefreshPorts(ports, false);
      }
    }

    /** `_browse_file_picker` and then `_on_file_picked` with the picked `paths`. */
    method PickFiles(paths: seq<string>)
      requires Valid()
      modifies this
      ensures Valid() && State() == FletLoader.Step(old(State()), tables, FletLoader.PickFiles(paths))
    {
      if !browseBtn.disabled && |paths| > 0 {
        firmwarePath := paths[0];
      }
    }

    /** Choosing the option at `index` of the dropdown. */
    method ChoosePort(index: nat)
      requires Valid()
      modifies this
      ensures Valid() && State() == FletLoader.Step(old(State()), tables, FletLoader.ChoosePort(index))
    {
      if !dropdown.disabled && index < |dropdown.options| {
        dropdown := dropdown.(value := Some(dropdown.options[index]));
      }
    }

    method ToggleAppMode()
      requires Valid()
      modifies this
      ensures Valid() && State() == FletLoader.Step(old(State()), tables, FletLoader.ToggleAppMode)
    {
      if !checkDisabled {
        flashApp := !flashApp;
      }
    }
  }
}
