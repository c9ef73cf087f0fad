# kodeOS loader — a verified model of its flashing core

The kodeOS loader is a small desktop program that writes firmware to an
ESP32-S3 board through `esptool`. It comes in two variants:

- `kodeOS.py`, built on Tkinter (class `LoaderApp`);
- `kodeOS_flet.py`, built on Flet (the closure `main(page)`).

Both variants work the same way. The user picks a serial port and a `.bin`
file and presses *Load* (flash) or *Erase*. The program disables its
controls and starts a worker thread. That thread calls `esptool.main(args)`
with stdout and stderr redirected into a `_StreamLogger`. The logger
forwards esptool's output to the log view and turns `(NN%)` into a progress
message. Every change to the UI is queued back to the UI thread:
`self.after(0, ...)` in Tk, `page.run_thread(...)` in Flet. A completion
handler re-enables the controls and reports success or the return code.

This project models that core in Dafny.

**Shared modules**

- `Text`: the character classes and `str.splitlines(True)`.
- `Progress`: the progress regex `\(\s*(\d{1,3})\s*%\s*\)`, written as a scanner.
- `Ansi`: the Flet variant's ANSI-stripping regex.
- `Localization`: the `get_string` lookup with its two fallbacks, `{pct}` formatting, and both programs' string tables.
- `Esptool`: the esptool argument lists, the return-code classifier and the log lines around the call.
- `Ports`: the USB filter and the two port-selector rebuild rules.
- `Events`: the callbacks queued for the UI thread.

**Per-variant modules**

- `TkLogger`, `FletLogger`: each variant's `_StreamLogger`. It is a class whose
  `Write` is proved against a specification function of what it queues, with
  lemmas about that function.
- `TkLoader`, `FletLoader`: each program's state as a value, with one
  transition function per handler. `Step` combines the user's inputs, the
  dispatch of the oldest queued callback and a worker run. The invariant
  `Lifecycle` ties the busy flag, the worker and the queued completions
  together. The lemmas state what each handler promises.
- `TkApp`, `FletApp`: the same handlers performed in place on a class with
  the program's fields (`LoaderApp` with its `RoundedButton`s; `LoaderPage`
  for the Flet closure). Each method ensures that its new state is the
  corresponding transition of the old state.

The two variants differ, and each is modelled as its own code behaves:

- Tk asks for confirmation before erasing. Flet erases at once under an
  error-level `status_erasing_critical`.
- Tk lets the language change while an operation runs. Flet ignores the
  language switch while busy.
- Tk reports every missing input as `error_missing_params`. Flet checks the
  port first and reports `error_missing_port`.
- Tk queues every piece of output. Flet strips ANSI sequences first and
  drops pieces that are whitespace only.
- Tk parses progress per piece and forgets the stored notification. Flet
  parses progress once per raw write and hands over a callback meant to
  change only the shown text (see "## Left out" on `set_value`).
- The erase subcommand is `erase_flash` in Tk and `erase-flash` in Flet.
- Flet rebuilds the port dropdown after every completion.

A comment in the Tk logger says it skips the first 100%, but the code does
not do that. The model follows the code: `TkLogger.HundredPercentShown`
proves that a `(100%)` line is shown like any other percentage. Tk's
`_skip_initial_progress` is set and never read; it is kept as a field of the
state.

## Model

| member | source | states |
|---|---|---|
| Text.SplitLinesConcat | kodeOS.py:689 | the pieces of `splitlines(True)` join back to the written data: nothing is lost or reordered |
| Text.SplitLinesShape | kodeOS.py:689 | every piece is break-free text plus at most one line ending (`\r\n` whole), and every piece but the last ends with a break |
| Text.SplitLinesBreakFree | kodeOS.py:689 | data without a line break is one piece, or no piece when empty |
| Text.FirstLineShape | kodeOS.py:689 | the first piece cut from non-empty text is one line, and it ends with a break unless it is the whole text |
| Text.DecimalRoundTrip | kodeOS.py:693 | `int(str(n)) == n` for every natural n |
| Text.NatToDecimalCanonical | kodeOS.py:680 | `str(n)` starts with `0` only for 0 |
| Text.DecimalValueBound | kodeOS.py:683 | a numeral of k digits is below 10^k |
| Text.ContainsInfix | kodeOS.py:580-583 | `sub in a + sub + c` always holds |
| Progress.SearchSpec | kodeOS.py:683 | `regex.search` finds a value iff the pattern matches somewhere; the value is that of the leftmost match and is at most 999 |
| Progress.MatchAtSound | kodeOS.py:683 | the scanner accepts only text the pattern describes: `(`, spaces, 1–3 digits, spaces, `%`, spaces, `)` |
| Progress.MatchAtComplete | kodeOS.py:683 | wherever the pattern occurs, the scanner accepts it with the digits' value |
| Progress.MatchAtBound | kodeOS.py:683 | a matched percentage is at most 999; it is not clamped to 100 |
| Progress.PercentRoundTrip | kodeOS.py:683-693 | scanning `(` + `str(n)` + `%)` gives back n, for every n up to 999 |
| Progress.HundredPercent | kodeOS.py:683-693 | `(100%)` is read as 100 |
| Progress.FourDigitsNoProgress | kodeOS.py:683 | `(1234%)` yields no match: at most three digits |
| Ansi.EscapeLengthSpec | kodeOS_flet.py:25 | a sequence is recognised at a position exactly when ESC `[` params letter starts there, with that length |
| Ansi.StripIsSubsequence | kodeOS_flet.py:237 | `ANSI_ESCAPE_REGEX.sub('', data)` only deletes characters |
| Ansi.StripUnchangedIff | kodeOS_flet.py:237 | stripping leaves the text unchanged iff no escape sequence occurs in it |
| Ansi.StripEscFree | kodeOS_flet.py:237 | text without ESC passes through unchanged |
| Ansi.StripShortens | kodeOS_flet.py:237 | text containing a sequence gets strictly shorter |
| Ansi.StripNotIdempotent | kodeOS_flet.py:237 | one pass of `sub` can splice a new sequence out of two halves, so stripping twice differs from once |
| Localization.GetStringSpec | kodeOS.py:245-247 | the language's own text if it has the key; `<key>` if the language lacks the key; English for an unknown language |
| Localization.FormatPctField | kodeOS.py:695 | `.format(pct=pct)` replaces the `{pct}` field by the decimal number and copies the text around it |
| Localization.FormatPctBraceFree | kodeOS.py:695 | text without `{` is copied through formatting unchanged |
| Localization.TkSpanishComplete | kodeOS.py:71-130 | the Spanish Tk table has exactly the English keys |
| Localization.FletSpanishComplete | kodeOS_flet.py:66-162 | the Spanish Flet table has exactly the English keys |
| Localization.FletGermanComplete | kodeOS_flet.py:66-162 | the German Flet table has exactly the English keys |
| Esptool.BaudRateText | kodeOS.py:48 | `str(BAUD_RATE)` is `460800` |
| Esptool.FlashArgsShape | kodeOS.py:657-674 | a flash command is chip/port/baud + `write_flash`; it has 10 elements with `-z 0x0` by default and 15 with the app-image options at 0x400000; the firmware path comes last |
| Esptool.FlashArgsRoundTrip | kodeOS.py:657-674 | the port, firmware path and app flag can be read back from the command: building it loses nothing |
| Esptool.EraseArgsShape | kodeOS.py:755-759 | an erase command is the common prefix plus the subcommand, seven elements, no firmware |
| Esptool.FlashNotErase | kodeOS.py:674 | no flash command equals an erase command |
| Esptool.ReturnCodeZeroIff | kodeOS.py:705-712 | the return code is 0 exactly when esptool returned normally or raised `SystemExit(0)` |
| Esptool.ReturnCodeOther | kodeOS.py:708-712 | a code other than 0 or 1 comes only from an integer `SystemExit` code |
| Esptool.StrReprPlain | kodeOS.py:680 | `repr` shows printable Latin-1 text without quotes or backslashes verbatim between single quotes; control characters, U+007F–U+00A0 and the soft hyphen U+00AD are excluded because `repr` escapes them |
| Esptool.StrReprRoundTrip | kodeOS.py:680 | `repr(s)` is quoted with the same quote at both ends, and its body reads back as exactly s, so the logged argument list names the real port and path |
| Events.ExceptionEvents | kodeOS.py:710-711 | one log line is queued for a non-exit exception, and none otherwise |
| Events.FailureLineNamesCode | kodeOS.py:731 | the failure line names the return code |
| Events.EventsAppend | kodeOS.py:690-697 | completions, log text and progress messages add up over concatenated runs of callbacks |
| Ports.ListPortsMember | kodeOS.py:576-584 | a device is listed iff some enumerated port with that name has a VID or shows "USB" in its upper-cased hwid or description |
| Ports.ListPortsAppend | kodeOS.py:576-584 | the filter keeps enumeration order |
| Ports.TkSelectionSpec | kodeOS.py:586-601 | with no ports, the status text is selected; otherwise the choice is kept if it is still listed and is not a status text, else the first port is selected |
| Ports.TkSelectionIdempotent | kodeOS.py:586-601 | refreshing twice over the same ports selects what one refresh selects |
| Ports.FletRefreshSpec | kodeOS_flet.py:331-359 | options = listed ports; disabled iff none; a value is always an option; the old value survives only a plain refresh that still lists it; a label shows iff there is no value |
| Ports.FletRefreshIdempotent | kodeOS_flet.py:331-359 | a second plain refresh over the same ports changes nothing |
| TkLogger.StreamLogger.constructor | kodeOS.py:699 | a new logger has an empty buffer and has queued nothing |
| TkLogger.StreamLogger.Write | kodeOS.py:685-697 | the buffer gains the data, and the queue gains exactly the callbacks `WriteEvents` describes |
| TkLogger.Pieces | kodeOS.py:689-697 | for each piece in order: a log append, then the progress message and `current_notification = None` when the pattern matches |
| TkLogger.Capture | kodeOS.py:699-718 | the text `getvalue()` returns after esptool's writes is their concatenation, and the callbacks are those of each write in turn |
| TkLogger.CaptureStep | kodeOS.py:699-718 | one more write extends both the captured text and the queued callbacks |
| TkLogger.PieceEventsMeasures | kodeOS.py:689-697 | one piece is logged whole, queues no completion, and queues one progress message iff it matches and the logger parses progress |
| TkLogger.PiecesEventsMeasures | kodeOS.py:689-697 | over many pieces the log receives their concatenation, and progress is reported once per matching piece |
| TkLogger.WriteEventsLossless | kodeOS.py:685-697 | one write's log text equals the written data |
| TkLogger.ChunksEventsLossless | kodeOS.py:685-718 | over a whole run the log receives exactly what `getvalue()` returns; the erase logger reports no progress |
| TkLogger.SinglePieceWrite | kodeOS.py:689 | a write without a line break is handled as one piece |
| TkLogger.HundredPercentPiece | kodeOS.py:688-697 | a `(100%)` piece queues the log append, the 100% message and the forgetting |
| TkLogger.HundredPercentShown | kodeOS.py:688-697 | nothing skips 100%: a `(100%)` write queues its progress message like any other |
| TkLogger.FourDigitsNotShown | kodeOS.py:683-697 | a four-digit percentage queues only its log append |
| FletLogger.StreamLogger.constructor | kodeOS_flet.py:219-221 | a new logger has an empty buffer and has queued nothing |
| FletLogger.StreamLogger.Write | kodeOS_flet.py:223-240 | the buffer gains the raw data, and the queue gains exactly `WriteEvents`: at most one progress message, then the kept cleaned pieces |
| FletLogger.Forward | kodeOS_flet.py:237-240 | each cleaned piece with a non-whitespace character becomes a log append, in order |
| FletLogger.Capture | kodeOS_flet.py:447-465 | `getvalue()` is the raw, uncleaned concatenation of esptool's writes, and the callbacks are those of each write in turn |
| FletLogger.CaptureStep | kodeOS_flet.py:447-465 | one more write extends both the captured text and the queued callbacks |
| FletLogger.ForwardedSpec | kodeOS_flet.py:238-240 | the forwarded appends are exactly the kept pieces, in order; each has a non-whitespace character; no completion or progress |
| FletLogger.KeptPiecesAll | kodeOS_flet.py:239 | pieces that all have text are all kept |
| FletLogger.KeptPiecesAppend | kodeOS_flet.py:238-240 | the filter works piecewise over concatenated runs |
| FletLogger.ProgressEventsSpec | kodeOS_flet.py:227-234 | a write queues one progress message iff the logger handles progress and the raw data matches |
| FletLogger.WriteEventsSpec | kodeOS_flet.py:223-240 | the progress message comes first and is the raw data's first match; the log receives the kept cleaned pieces; every append has text; no completion |
| FletLogger.ChunksEventsSpec | kodeOS_flet.py:223-240 | over a run: at most one progress message per write, none for the erase logger, no completion |
| FletLogger.SplitLinesAllSpace | kodeOS_flet.py:238-240 | whitespace-only text keeps no piece |
| FletLogger.AllSpaceNoMatch | kodeOS_flet.py:212 | whitespace-only text contains no percentage |
| FletLogger.WhitespaceChunkDropped | kodeOS_flet.py:223-240 | a whitespace-only write (a bare newline, say) queues nothing |
| FletLogger.OnePieceChunk | kodeOS_flet.py:236-240 | a write whose cleaned text is one non-blank piece queues its progress and that one append |
| FletLogger.ClearLineChunk | kodeOS_flet.py:223-240 | ESC`[2K(67%)` reports 67% and logs `(67%)` without the sequence |
| FletLogger.SplitPercentChunk | kodeOS_flet.py:227-237 | progress is searched before cleaning: a sequence inside `(50%)` hides it from the pattern, while the log shows `(50%)` |
| TkLoader.SetDisabledRestores | kodeOS.py:208-221 | disabling greys a button and keeps its text; enabling restores exactly its original background |
| TkLoader.TkLanguagesValid | kodeOS.py:71-130 | both Tk tables spell the two port status texts that `_update_ui_text` reads directly |
| TkLoader.LookupsTranslated | kodeOS.py:71-130 | every key kodeOS.py passes to `get_string` or `_show_notification` is in both the en and es tables, so `get_string` never returns the `<key>` placeholder; a language without a table gives the English text |
| TkLoader.SetControlsDisabledSpec | kodeOS.py:623-638 | every button and widget takes the flag, and the button texts stay |
| TkLoader.InitialIdle | kodeOS.py:223-243 | the app starts idle in English with `status_ready` shown, satisfying the lifecycle invariant |
| TkLoader.BeginOperationSpec | kodeOS.py:648-650 | starting clears the log and the notification and disables everything; the queue, the worker and the inputs stay |
| TkLoader.WorkerEventsSpec | kodeOS.py:657-721 | a worker queues the command line first and exactly one completion last, carrying `ReturnCode` and everything esptool wrote; its log text is the command line, the output and the exception line |
| TkLoader.WorkerRunQueues | kodeOS.py:657-721 | a worker run appends those callbacks to the queue and ends the thread; an erase worker reports no progress |
| TkLoader.LifecycleStartFlash | kodeOS.py:642-655 | clicking Load keeps the lifecycle invariant |
| TkLoader.LifecycleStartErase | kodeOS.py:734-753 | clicking Erase keeps the lifecycle invariant |
| TkLoader.FlashCompleteEnds | kodeOS.py:723-731 | `_flash_complete` re-enables every control and queues no further completion |
| TkLoader.EraseCompleteEnds | kodeOS.py:798-808 | `_erase_complete` re-enables every control and queues no further completion |
| TkLoader.LifecycleDispatch | kodeOS.py:690-697 | running the oldest queued callback keeps the invariant |
| TkLoader.LifecycleWorker | kodeOS.py:657-721 | a worker run keeps the invariant: its completion replaces the thread |
| TkLoader.UpdateUiTextFrame | kodeOS.py:266-304 | re-rendering changes no busy flag, log, queue, worker or input; a disabled load/erase button keeps its text and an enabled one is retitled |
| TkLoader.UpdateUiTextResult | kodeOS.py:287-296 | the stored notification is re-shown unless it is transient; an idle app without one shows `status_ready`; otherwise the label stays |
| TkLoader.LifecycleLanguage | kodeOS.py:249-255 | changing the language keeps the invariant |
| TkLoader.StepKeepsLifecycle | kodeOS.py:642-808 | every transition keeps the lifecycle invariant |
| TkLoader.BusyIgnoresControls | kodeOS.py:196-198 | while busy, every button, the menu, the entry and the checkbox leave the state unchanged |
| TkLoader.OnlyCompletionEndsBusy | kodeOS.py:723-808 | only dispatching a queued completion ends an operation |
| TkLoader.CompletionEndsBusy | kodeOS.py:723-808 | dispatching a completion always ends it and re-enables every control |
| TkLoader.StartFlashRejects | kodeOS.py:643-646 | with no port, a status text as port, or no firmware, Load only shows `error_missing_params` |
| TkLoader.StartFlashAccepts | kodeOS.py:642-655 | otherwise the app goes busy: log cleared, `status_starting` shown and queued to the log, a flash worker started for that port, file and checkbox |
| TkLoader.StartEraseCases | kodeOS.py:734-753 | no port shows `error_missing_port`; a declined confirmation changes nothing; a confirmed erase starts the erase worker under `status_erasing` |
| TkLoader.FlashCompletionOutcome | kodeOS.py:723-731 | success is shown iff rc is 0, else `flash_error_generic`; the queued line names rc; Load is retitled |
| TkLoader.EraseCompletionOutcome | kodeOS.py:798-808 | success is shown iff rc is 0, else `erase_error`; the queued line names rc; both buttons are retitled |
| TkLoader.SetLanguageNoop | kodeOS.py:249-252 | an unknown language or the current one changes nothing |
| TkLoader.SetLanguageRerenders | kodeOS.py:249-304 | another language re-renders the stored notification unless it is transient (`status_ready` when idle with none); nothing is locked while busy |
| TkLoader.EraseTextStaleAfterFlash | kodeOS.py:276-281 | after a language change during a flash, the erase button keeps the old language's text once the flash completes |
| TkApp.RoundedButton.constructor | kodeOS.py:135-150 | a new button is enabled, with its text and original background |
| TkApp.RoundedButton.SetText | kodeOS.py:204-206 | only the text changes |
| TkApp.RoundedButton.SetDisabled | kodeOS.py:208-221 | the button becomes `SetDisabledView` of its old view |
| TkApp.RoundedButton.Click | kodeOS.py:196-201 | the command fires iff the button is enabled |
| TkApp.LoaderApp.constructor | kodeOS.py:223-243 | the app's state is `Initial` and satisfies the invariant |
| TkApp.LoaderApp.ShowNotification | kodeOS.py:554-568 | performs `_show_notification` in place |
| TkApp.LoaderApp.ClearNotification | kodeOS.py:570-573 | performs `_clear_notification` in place |
| TkApp.LoaderApp.SetControlsDisabled | kodeOS.py:623-638 | performs `_set_controls_disabled` on the four buttons and the widget flag |
| TkApp.LoaderApp.RefreshPorts | kodeOS.py:586-601 | rebuilds the menu and the port variable as `RefreshPorts` specifies |
| TkApp.LoaderApp.BeginOperation | kodeOS.py:648-650 | clears log and notification and disables the controls, in place |
| TkApp.LoaderApp.StartFlash | kodeOS.py:642-655 | performs `_start_flash` in place |
| TkApp.LoaderApp.LaunchFlash | kodeOS.py:648-655 | the accepting branch of `_start_flash` |
| TkApp.LoaderApp.StartErase | kodeOS.py:734-753 | performs `_start_erase` in place, with the dialog's answer |
| TkApp.LoaderApp.RetitleButtons | kodeOS.py:272-281 | sets the button texts; disabled load/erase buttons keep theirs |
| TkApp.LoaderApp.RetitleIfEnabled | kodeOS.py:276-281 | retitles the load and erase buttons only when enabled |
| TkApp.LoaderApp.RerenderNotification | kodeOS.py:287-296 | re-shows the notification as `RerenderNotification` specifies |
| TkApp.LoaderApp.TranslatePortStatus | kodeOS.py:299-303 | swaps a port status text of either language for the current one |
| TkApp.LoaderApp.UpdateUiText | kodeOS.py:266-304 | performs `_update_ui_text` in place |
| TkApp.LoaderApp.SetLanguage | kodeOS.py:249-255 | performs `_set_language` and keeps the invariant |
| TkApp.LoaderApp.FlashComplete | kodeOS.py:723-731 | performs `_flash_complete` in place |
| TkApp.LoaderApp.EraseComplete | kodeOS.py:798-808 | performs `_erase_complete` in place |
| TkApp.LoaderApp.RunCallback | kodeOS.py:690-697 | runs one queued callback as `Apply` specifies |
| TkApp.LoaderApp.DispatchNext | kodeOS.py:690-697 | runs the oldest queued callback and keeps the invariant |
| TkApp.LoaderApp.RunThread | kodeOS.py:657-721 | runs the worker with a fresh logger and queues its callbacks as `RunWorker` specifies |
| TkApp.LoaderApp.RunWorker | kodeOS.py:657-721 | a worker run in place that keeps the invariant |
| TkApp.LoaderApp.ClickLoad | kodeOS.py:497-498 | Load as `Step` specifies, ignored while disabled |
| TkApp.LoaderApp.ClickErase | kodeOS.py:501-502 | Erase as `Step` specifies, ignored while disabled |
| TkApp.LoaderApp.ClickRefresh | kodeOS.py:457 | Refresh as `Step` specifies |
| TkApp.LoaderApp.ClickBrowse | kodeOS.py:603-609 | an empty dialog result keeps the firmware path; any other result replaces it |
| TkApp.LoaderApp.EditFirmware | kodeOS.py:466-467 | typing into the entry sets the firmware path unless the entry is read-only |
| TkApp.LoaderApp.ChoosePort | kodeOS.py:590-592 | choosing an enabled menu command sets the port variable |
| TkApp.LoaderApp.ToggleAppMode | kodeOS.py:480-483 | toggles the checkbox unless it is disabled |
| FletLoader.LookupsTranslated | kodeOS_flet.py:66-162 | every key kodeOS_flet.py passes to `get_string` or `_show_notification` is in the en, es and de tables, so no `<key>` placeholder reaches the page; a language without a table gives the English text |
| FletLoader.SetControlsDisabledSpec | kodeOS_flet.py:408-423 | every control takes the flag; the dropdown is disabled iff the flag is set or it has no options; nothing else changes |
| FletLoader.InitialIdle | kodeOS_flet.py:783-786 | the page starts idle with `status_ready` shown but not stored, satisfying the invariant |
| FletLoader.RefreshPortsSpec | kodeOS_flet.py:331-359 | `_refresh_ports` changes only the dropdown, as `FletRefreshSpec` states |
| FletLoader.WorkerEventsSpec | kodeOS_flet.py:427-466 | a worker hands over the command line first and exactly one completion last (from `finally`); at most one progress message per write |
| FletLoader.ExceptionEventsQuiet | kodeOS_flet.py:458-460 | the exception line is neither a completion nor progress |
| FletLoader.WorkerRunQueues | kodeOS_flet.py:427-528 | a worker run appends those callbacks and ends the thread; an erase worker reports no progress |
| FletLoader.BeginOperationSpec | kodeOS_flet.py:479-480 | starting clears the log and disables every control and the dropdown; the queue, worker and notification stay |
| FletLoader.LifecycleStartFlash | kodeOS_flet.py:468-486 | Load keeps the lifecycle invariant |
| FletLoader.LifecycleStartErase | kodeOS_flet.py:530-542 | Erase keeps the lifecycle invariant |
| FletLoader.FlashCompleteEnds | kodeOS_flet.py:488-497 | `_flash_complete` re-enables everything and rebuilds the dropdown from the listed ports, disabled iff empty; no further completion |
| FletLoader.EraseCompleteEnds | kodeOS_flet.py:544-555 | `_erase_complete` re-enables everything and rebuilds the dropdown from the listed ports, disabled iff empty; no further completion |
| FletLoader.ApplyQuiet | kodeOS_flet.py:398-403 | a log entry, a progress text or a forgotten notification leaves controls, dropdown, worker and queue alone |
| FletLoader.LifecycleDispatch | kodeOS_flet.py:398-406 | running the oldest callback keeps the invariant |
| FletLoader.LifecycleWorker | kodeOS_flet.py:427-528 | a worker run keeps the invariant |
| FletLoader.UpdateUiTextIdle | kodeOS_flet.py:272-294 | on an idle page: both buttons retitled, selection dropped, a notification stored afterwards (`status_ready` if none) |
| FletLoader.LifecycleLanguage | kodeOS_flet.py:296-306 | changing the language keeps the invariant |
| FletLoader.LifecycleRefresh | kodeOS_flet.py:331-359 | Refresh keeps the invariant |
| FletLoader.StepKeepsLifecycle | kodeOS_flet.py:468-555 | every transition keeps the lifecycle invariant |
| FletLoader.BusyIgnoresUser | kodeOS_flet.py:296-299 | while busy, every button, the dropdown, the picker, the checkbox and the language switch leave the state unchanged |
| FletLoader.OnlyCompletionEndsBusy | kodeOS_flet.py:488-555 | only dispatching a handed-over completion ends an operation |
| FletLoader.CompletionEndsBusy | kodeOS_flet.py:488-555 | dispatching a completion always ends it; the dropdown is enabled iff ports are listed |
| FletLoader.StartWithoutPort | kodeOS_flet.py:468-474 | with no port selected, both Load and Erase only show `error_missing_port` |
| FletLoader.StartFlashWithoutFirmware | kodeOS_flet.py:475-477 | with a port but no firmware, Load only shows `error_missing_params` |
| FletLoader.StartFlashAccepts | kodeOS_flet.py:468-486 | otherwise: busy, log cleared, `status_starting` stored and shown, nothing queued, a worker started for the port, path and checkbox value of that moment |
| FletLoader.StartEraseAccepts | kodeOS_flet.py:530-542 | an erase with a port starts at once, without confirmation, under the error-level `status_erasing_critical` |
| FletLoader.FlashCompletionOutcome | kodeOS_flet.py:488-497 | success iff rc is 0, else `flash_error_generic`; the line names rc; a still-listed port stays selected |
| FletLoader.EraseCompletionOutcome | kodeOS_flet.py:544-555 | success iff rc is 0, else `erase_error`; the line names rc; both buttons retitled |
| FletLoader.ProgressKeepsNotification | kodeOS_flet.py:232-234 | a progress message replaces only the shown text, taking `set_value(msg)` as setting it (see "## Left out"); the stored notification and its level stay |
| FletLoader.SetLanguageNoop | kodeOS_flet.py:296-303 | while busy, or for the current language, the switch changes nothing |
| FletLoader.SetLanguageRerenders | kodeOS_flet.py:296-306 | on an idle page another language retitles both buttons, drops the port selection and stores a notification; a language without a table falls back to English |
| FletApp.LoaderPage.constructor | kodeOS_flet.py:189-210 | the page's state is `Initial` and satisfies the invariant |
| FletApp.LoaderPage.ShowNotification | kodeOS_flet.py:372-392 | performs `_show_notification` in place |
| FletApp.LoaderPage.SetControlsDisabled | kodeOS_flet.py:408-423 | performs `_set_controls_disabled` in place |
| FletApp.LoaderPage.SetButtonsDisabled | kodeOS_flet.py:410-413 | sets the four buttons' flags and keeps their texts |
| FletApp.LoaderPage.RefreshPorts | kodeOS_flet.py:331-359 | builds the options list in a loop; the result is `RefreshPorts` |
| FletApp.LoaderPage.BeginOperation | kodeOS_flet.py:479-480 | clears the log and disables the controls, in place |
| FletApp.LoaderPage.StartFlash | kodeOS_flet.py:468-486 | performs `_start_flash` in place |
| FletApp.LoaderPage.StartErase | kodeOS_flet.py:530-542 | performs `_start_erase` in place |
| FletApp.LoaderPage.RetitleButtons | kodeOS_flet.py:277-283 | sets the button texts; disabled load/erase buttons keep theirs |
| FletApp.LoaderPage.RetitleIfEnabled | kodeOS_flet.py:280-283 | retitles the load and erase buttons only when enabled |
| FletApp.LoaderPage.RerenderNotification | kodeOS_flet.py:287-292 | re-shows the notification as `RerenderNotification` specifies |
| FletApp.LoaderPage.UpdateUiText | kodeOS_flet.py:272-294 | performs `_update_ui_text` in place |
| FletApp.LoaderPage.SetLanguage | kodeOS_flet.py:296-306 | performs `_set_language` and keeps the invariant |
| FletApp.LoaderPage.FlashComplete | kodeOS_flet.py:488-497 | performs `_flash_complete` in place |
| FletApp.LoaderPage.EraseComplete | kodeOS_flet.py:544-555 | performs `_erase_complete` in place |
| FletApp.LoaderPage.RunCallback | kodeOS_flet.py:398-403 | runs one handed-over callback as `Apply` specifies |
| FletApp.LoaderPage.DispatchNext | kodeOS_flet.py:398-406 | runs the oldest callback and keeps the invariant |
| FletApp.LoaderPage.RunThread | kodeOS_flet.py:427-466 | runs the worker with a fresh logger and hands over its callbacks as `RunWorker` specifies |
| FletApp.LoaderPage.RunWorker | kodeOS_flet.py:427-528 | a worker run in place that keeps the invariant |
| FletApp.LoaderPage.ClickLoad | kodeOS_flet.py:699-701 | Load as `Step` specifies |
| FletApp.LoaderPage.ClickErase | kodeOS_flet.py:707-709 | Erase as `Step` specifies |
| FletApp.LoaderPage.ClickRefresh | kodeOS_flet.py:644 | Refresh as `Step` specifies |
| FletApp.LoaderPage.PickFiles | kodeOS_flet.py:361-364 | the first picked file becomes the firmware path; a cancelled pick changes nothing |
| FletApp.LoaderPage.ChoosePort | kodeOS_flet.py:316-329 | choosing an option of an enabled dropdown selects it |
| FletApp.LoaderPage.ToggleAppMode | kodeOS_flet.py:683 | toggles the checkbox unless it is disabled |

## Left out

- Drawing: colours other than a notification's level and a rounded button's
  background, icons, fonts, hover effects, window geometry, scrolling,
  `_center_window`, `_load_resources`, `_update_lang_switcher_ui`, and
  `page.update()`. None of these affects the state the handlers read.
- TkApp.RoundedButton.SetDisabled: the label colour that `set_disabled`
  configures is not modelled, because `_draw` repaints the label in the
  button's `fg` right after it.
- `esptool.main` is an input. A run is the sequence of chunks it writes and
  how it ends: it returns, raises `SystemExit(code)`, or raises another
  exception with a given message. Serial I/O and the device are outside the
  model.
- `list_ports.comports()`, the file dialogs and the Tk erase confirmation
  are inputs: the ports, the chosen path and the yes/no answer. The Flet
  browse click and the picker's result are one input, `PickFiles`.
- Threads: each worker is modelled as running in one step between UI
  callbacks. The controls are disabled while it runs, so no user action
  interleaves with it, with one exception: the Tk language switch.
- TkLoader.RunWorker reads the `flashing_progress` template once per run,
  whereas the source reads it at each write. A Tk language change in the
  middle of a flash therefore does not change the language of later
  progress messages in the model.
- FletLoader.Dispatch assumes that `page.run_thread` runs callbacks in the
  order they were handed over. Flet does not promise this order.
- The `logs` argument of the completion handlers is carried in the
  completion event but not modelled further, because neither handler reads
  it.
- Python's `str(e)` of an exception is an input string.
- A `SystemExit` code that is a bool counts as the integer 0 or 1, as
  `isinstance(True, int)` holds. The model does not capture that the
  failure line would then print `True` rather than `1`.
- Esptool.StrRepr treats every character from U+00A1 upwards except U+00AD
  as printable. Python's `repr` also escapes the non-printable characters
  beyond Latin-1 (U+2028, U+200B, ...) as `\uXXXX`, so for such a port name
  or path the model's `ExecLine` differs from the logged line. Deciding
  printability there needs the Unicode character database.
- FletLoader.Apply / FletLoader.ProgressKeepsNotification: the Flet progress
  callback is `notification_text.current.set_value(msg)`
  (kodeOS_flet.py:232-234). The program defines no `set_value`, and no
  `page.update()` follows the call. The model assumes the call sets the text
  the notification shows, which is what the callback is evidently for. If
  Flet's `Text` has no such method, the call raises inside the thread that
  `page.run_thread` starts, and the shown text never changes.
- `\d` and `int()` accept ASCII digits only. Python also accepts other
  Unicode decimal digits.
- `str.upper()` in the USB filter is applied to ASCII letters only.
- The Flet variant has language buttons for en, es and de only.
  `_set_language` itself accepts any code, and so does the model; a code
  without a table falls back to English through `get_string`.
- The Flet firmware field is read-only, so it has no typing input. The Tk
  entry does (`EditFirmware`).
- `resource_path`, the window icon, the `ft.app` entry point and the build
  scripts are not part of this model.
