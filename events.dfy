/** What the two programs pass from the worker thread to the UI thread
    (`self.after(0, ...)` in kodeOS.py, `page.run_thread(...)` in
    kodeOS_flet.py), what a worker is asked to do, and what the notification
    area shows. */
module Events {
  import opened Text
  import opened Esptool

  /** The `level` of a notification, which picks its colour and icon. */
  datatype Level = Info | Success | Error

  /** `current_notification`: the message key and level last shown through `_show_notification`. */
  datatype Notification = Notification(key: string, level: Level)

  /** What the notification area displays: its text and the colour/icon of a level. */
  datatype Label = Label(text: string, level: Level)

  /** The operation a started worker thread performs, with the arguments it was started with. */
  datatype Job = FlashJob(binFile: string, port: string, appMode: bool) | EraseJob(port: string)

  /** What `esptool.main` does when the worker calls it: the chunks it writes to
      stdout/stderr, in order, and how it ends. */
  datatype EsptoolRun = EsptoolRun(chunks: seq<string>, outcome: Outcome)

  /** One callback queued for the UI thread. */
  datatype UiEvent =
    | AppendLog(text: string)             // `_update_log_area(text)`
    | ShowProgress(text: string)          // the progress message put into the notification text
    | ForgetNotification                  // `current_notification = None`
    | FlashDone(rc: int, logs: string)    // `_flash_complete(rc, logs)`
    | EraseDone(rc: int, logs: string)    // `_erase_complete(rc, logs)`

  predicate IsDone(e: UiEvent) { e.FlashDone? || e.EraseDone? }

  /** The number of completion callbacks among the events. */
  function DoneCount(events: seq<UiEvent>): nat {
    if events == [] then 0
    else DoneCount(events[..|events| - 1]) + (if IsDone(events[|events| - 1]) then 1 else 0)
  }

  /** The text the events append to the log, joined. */
  function LogText(events: seq<UiEvent>): string {
    if events == [] then []
    else LogText(events[..|events| - 1]) + (if events[|events| - 1].AppendLog? then events[|events| - 1].text else [])
  }

  /** The number of progress messages among the events. */
  function ProgressCount(events: seq<UiEvent>): nat {
    if events == [] then 0
    else ProgressCount(events[..|events| - 1]) + (if events[|events| - 1].ShowProgress? then 1 else 0)
  }

  /** Each of the three measures adds up over a concatenation of event runs. */
  lemma {:induction false} DoneCountAppend(a: seq<UiEvent>, b: seq<UiEvent>)
    ensures DoneCount(a + b) == DoneCount(a) + DoneCount(b)
    decreases |b|
  {
    if b == [] {
      assert a + b == a;
    } else {
      var b' := b[..|b| - 1];
      assert (a + b)[..|a + b| - 1] == a + b';
      DoneCountAppend(a, b');
    }
  }

  lemma {:induction false} LogTextAppend(a: seq<UiEvent>, b: seq<UiEvent>)
    ensures LogText(a + b) == LogText(a) + LogText(b)
    decreases |b|
  {
    if b == [] {
      assert a + b == a;
    } else {
      var b' := b[..|b| - 1];
      assert (a + b)[..|a + b| - 1] == a + b';
      LogTextAppend(a, b');
    }
  }

  lemma {:induction false} ProgressCountAppend(a: seq<UiEvent>, b: seq<UiEvent>)
    ensures ProgressCount(a + b) == ProgressCount(a) + ProgressCount(b)
    decreases |b|
  {
    if b == [] {
      assert a + b == a;
    } else {
      var b' := b[..|b| - 1];
      assert (a + b)[..|a + b| - 1] == a + b';
      ProgressCountAppend(a, b');
    }
  }

  /** The three measures of every concatenation at once. */
  lemma EventsAppend(a: seq<UiEvent>, b: seq<UiEvent>)
    ensures DoneCount(a + b) == DoneCount(a) + DoneCount(b)
    ensures LogText(a + b) == LogText(a) + LogText(b)
    ensures ProgressCount(a + b) == ProgressCount(a) + ProgressCount(b)
  {
    DoneCountAppend(a, b);
    LogTextAppend(a, b);
    ProgressCountAppend(a, b);
  }

  lemma EventsSingle(e: UiEvent)
    ensures DoneCount([e]) == (if IsDone(e) then 1 else 0)
    ensures LogText([e]) == (if e.AppendLog? then e.text else [])
    ensures ProgressCount([e]) == (if e.ShowProgress? then 1 else 0)
  {
    assert [e][..0] == [];
  }

  /** The completions of a queue with one more callback in front or at the end. */
  lemma DoneCountCons(e: UiEvent, rest: seq<UiEvent>)
    ensures DoneCount([e] + rest) == (if IsDone(e) then 1 else 0) + DoneCount(rest)
  {
    EventsAppend([e], rest);
    EventsSingle(e);
  }

  lemma DoneCountSnoc(q: seq<UiEvent>, e: UiEvent)
    ensures DoneCount(q + [e]) == DoneCount(q) + (if IsDone(e) then 1 else 0)
  {
    EventsAppend(q, [e]);
    EventsSingle(e);
  }

  /** `f"\nException during esptool.main: {e}\n"` as a queued log append, posted only
      when esptool raised an exception other than `SystemExit`. */
  function ExceptionEvents(o: Outcome): (r: seq<UiEvent>)
    ensures |r| == (if o.Raised? then 1 else 0)
    ensures forall k | 0 <= k < |r| :: r[k].AppendLog?
  {
    if o.Raised? then [AppendLog(ExceptionLines(o)[0])] else []
  }

  /** `f"\n{text}!\n"`: the line a completion queues on success. */
  function SuccessLine(text: string): string {
    "\n" + text + "!\n"
  }

  /** `f"Return Code: {rc}"` */
  function ReturnCodeText(rc: int): string {
    "Return Code: " + IntToDecimal(rc)
  }

  /** `f"\nError during {operation} (Return Code: {rc}). See details above.\n"` */
  function FailureLine(operation: string, rc: int): string {
    "\nError during " + operation + " (" + ReturnCodeText(rc) + "). See details above.\n"
  }

  /** A failure line names the return code. */
  lemma FailureLineNamesCode(operation: string, rc: int)
    ensures Contains(FailureLine(operation, rc), ReturnCodeText(rc))
  {
    ContainsInfix("\nError during " + operation + " (", ReturnCodeText(rc), "). See details above.\n");
  }
}
