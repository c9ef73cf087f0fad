/** kodeOS.py's `_StreamLogger`: the `io.StringIO` subclass the worker installs as
    stdout and stderr around `esptool.main`. Each `write` keeps the data in the
    buffer and queues, piece by piece of `data.splitlines(True)`, a log append and,
    for a piece in which the progress pattern matches, the progress message
    followed by the forgetting of the stored notification. The flash logger looks
    for progress; the erase logger only forwards text. */
module TkLogger {
  import opened Common
  import opened Text
  import opened Progress
  import opened Localization
  import opened Events

  /** What one piece queues. `template` is the `flashing_progress` text in the
      language of the moment, or None for the erase logger. */
  function PieceEvents(part: string, template: Option<string>): seq<UiEvent> {
    [AppendLog(part)] +
    (if template.Some? && Search(part).Some? then
       [ShowProgress(FormatPct(template.value, Search(part).value)), ForgetNotification]
     else [])
  }

  /** What a run of pieces queues, in order. */
  function PiecesEvents(parts: seq<string>, template: Option<string>): seq<UiEvent> {
    if parts == [] then []
    else PiecesEvents(parts[..|parts| - 1], template) + PieceEvents(parts[|parts| - 1], template)
  }

  /** What one `write(data)` queues. */
  function WriteEvents(data: string, template: Option<string>): seq<UiEvent> {
    PiecesEvents(SplitLines(data), template)
  }

  /** What a sequence of writes queues. */
  function ChunksEvents(chunks: seq<string>, template: Option<string>): seq<UiEvent> {
    if chunks == [] then []
    else ChunksEvents(chunks[..|chunks| - 1], template) + WriteEvents(chunks[|chunks| - 1], template)
  }

  /** The number of pieces in which the progress pattern matches. */
  function MatchCount(parts: seq<string>): nat {
    if parts == [] then 0
    else MatchCount(parts[..|parts| - 1]) + (if Search(parts[|parts| - 1]).Some? then 1 else 0)
  }

  class StreamLogger {
    /** The `StringIO` contents. */
    var buffer: string
    /** The callbacks this logger has queued for the UI thread. */
    var posted: seq<UiEvent>
    /** The progress message template, or None when no progress is parsed. */
    const template: Option<string>

    constructor(template: Option<string>)
      ensures buffer == [] && posted == [] && this.template == template
    {
      buffer := [];
      posted := [];
      this.template := template;
    }

    /** `write(data)` */
    method Write(data: string)
      modifies this
      ensures buffer == old(buffer) + data
      ensures posted == old(posted) + WriteEvents(data, template)
    {
      buffer := buffer + data;
      var queued := Pieces(SplitLines(data), template);
      posted := posted + queued;
    }
  }

  /** The loop of `write` over `data.splitlines(True)`. */
  method Pieces(parts: seq<string>, template: Option<string>) returns (queued: seq<UiEvent>)
    ensures queued == PiecesEvents(parts, template)
  {
    queued := [];
    var i := 0;
    while i < |parts|
      invariant 0 <= i <= |parts|
      invariant queued == PiecesEvents(parts[..i], template)
    {
      assert parts[..i + 1][..i] == parts[..i];
      queued := queued + PieceEvents(parts[i], template);
      i := i + 1;
    }
    assert parts[..|parts|] == parts;
  }

  /** The worker's redirection: a fresh logger installed as stdout and stderr receives
      esptool's writes in order; `output` is its `getvalue()` afterwards. */
  method Capture(chunks: seq<string>, template: Option<string>) returns (output: string, posted: seq<UiEvent>)
    ensures output == Concat(chunks)
    ensures posted == ChunksEvents(chunks, template)
  {
    var logger := new StreamLogger(template);
    var i := 0;
    while i < |chunks|
      invariant 0 <= i <= |chunks|
      invariant logger.template == template
      invariant logger.buffer == Concat(chunks[..i])
      invariant logger.posted == ChunksEvents(chunks[..i], template)
    {
      CaptureStep(chunks, i, template);
      logger.Write(chunks[i]);
      i := i + 1;
    }
    assert chunks[..|chunks|] == chunks;
    output := logger.buffer;
    posted := logger.posted;
  }

  /** One more write extends both the captured text and the queued events. */
  lemma CaptureStep(chunks: seq<string>, i: nat, template: Option<string>)
    requires i < |chunks|
    ensures Concat(chunks[..i + 1]) == Concat(chunks[..i]) + chunks[i]
    ensures ChunksEvents(chunks[..i + 1], template) == ChunksEvents(chunks[..i], template) + WriteEvents(chunks[i], template)
  {
    assert chunks[..i + 1] == chunks[..i] + [chunks[i]];
    ConcatSnoc(chunks[..i], chunks[i]);
    assert chunks[..i + 1][..i] == chunks[..i];
  }

  // ---------------------------------------------------------------------------
  // What the queued events amount to

  lemma PieceEventsMeasures(part: string, template: Option<string>)
    ensures LogText(PieceEvents(part, template)) == part
    ensures DoneCount(PieceEvents(part, template)) == 0
    ensures ProgressCount(PieceEvents(part, template)) == (if template.Some? && Search(part).Some? then 1 else 0)
  {
    var tail := if template.Some? && Search(part).Some? then
       [ShowProgress(FormatPct(template.value, Search(part).value)), ForgetNotification] else [];
    EventsSingle(AppendLog(part));
    EventsAppend([AppendLog(part)], tail);
    if tail != [] {
      EventsSingle(tail[0]);
      EventsSingle(tail[1]);
      assert tail == [tail[0]] + [tail[1]];
      EventsAppend([tail[0]], [tail[1]]);
    }
  }

  /** The pieces reach the log whole and in order; progress is reported once per matching
      piece when a template is given and never otherwise; no completion is queued. */
  lemma {:induction false} PiecesEventsMeasures(parts: seq<string>, template: Option<string>)
    ensures LogText(PiecesEvents(parts, template)) == Concat(parts)
    ensures DoneCount(PiecesEvents(parts, template)) == 0
    ensures ProgressCount(PiecesEvents(parts, template)) == (if template.Some? then MatchCount(parts) else 0)
    decreases |parts|
  {
    if parts != [] {
      var init := parts[..|parts| - 1];
      PiecesEventsMeasures(init, template);
      PieceEventsMeasures(parts[|parts| - 1], template);
      EventsAppend(PiecesEvents(init, template), PieceEvents(parts[|parts| - 1], template));
    }
  }

  /** One write loses nothing: the log receives exactly the written data. */
  lemma WriteEventsLossless(data: string, template: Option<string>)
    ensures LogText(WriteEvents(data, template)) == data
    ensures DoneCount(WriteEvents(data, template)) == 0
    ensures ProgressCount(WriteEvents(data, template)) == (if template.Some? then MatchCount(SplitLines(data)) else 0)
  {
    PiecesEventsMeasures(SplitLines(data), template);
    SplitLinesConcat(data);
  }

  /** Over a whole run, the log receives every written chunk in order, and the
      buffer (what `getvalue()` returns) holds the same text. */
  lemma {:induction false} ChunksEventsLossless(chunks: seq<string>, template: Option<string>)
    ensures LogText(ChunksEvents(chunks, template)) == Concat(chunks)
    ensures DoneCount(ChunksEvents(chunks, template)) == 0
    ensures template.None? ==> ProgressCount(ChunksEvents(chunks, template)) == 0
    decreases |chunks|
  {
    if chunks != [] {
      var init := chunks[..|chunks| - 1];
      ChunksEventsLossless(init, template);
      WriteEventsLossless(chunks[|chunks| - 1], template);
      EventsAppend(ChunksEvents(init, template), WriteEvents(chunks[|chunks| - 1], template));
    }
  }

  /** A chunk without a line break is one piece. */
  lemma SinglePieceWrite(data: string, template: Option<string>)
    requires data != [] && BreakFree(data)
    ensures WriteEvents(data, template) == PieceEvents(data, template)
  {
    SplitLinesBreakFree(data);
    assert PiecesEvents([data], template) == PiecesEvents([], template) + PieceEvents(data, template);
  }

  lemma HundredPercentPiece(template: string)
    ensures PieceEvents("(100%)", Some(template))
         == [AppendLog("(100%)"), ShowProgress(FormatPct(template, 100)), ForgetNotification]
  {
    HundredPercent();
  }

  /** A line reporting 100% is shown like any other percentage: nothing skips it. */
  lemma HundredPercentShown(template: string)
    ensures WriteEvents("(100%)", Some(template))
         == [AppendLog("(100%)"), ShowProgress(FormatPct(template, 100)), ForgetNotification]
  {
    assert BreakFree("(100%)");
    SinglePieceWrite("(100%)", Some(template));
    HundredPercentPiece(template);
  }

  /** A piece whose percentage has four digits queues only its log append. */
  lemma FourDigitsNotShown(template: string)
    ensures WriteEvents("(1234%)", Some(template)) == [AppendLog("(1234%)")]
  {
    FourDigitsNoProgress();
    SinglePieceWrite("(1234%)", Some(template));
  }
}
