/** kodeOS_flet.py's `_StreamLogger`. Each `write(data)` keeps the data in the
    buffer; when the logger handles progress it searches the progress pattern once
    in the raw data and queues the message of the first match; then it removes the
    ANSI control sequences, splits the result with `splitlines(True)` and queues a
    log append for every piece with a non-whitespace character, dropping the rest. */
module FletLogger {
  import opened Common
  import opened Text
  import opened Progress
  import opened Ansi
  import opened Localization
  import opened Events

  /** The progress message a write queues. `template` is the `flashing_progress` text,
      or None for a logger built with `handle_progress=False`. */
  function ProgressEvents(data: string, template: Option<string>): seq<UiEvent> {
    if template.Some? && Search(data).Some? then [ShowProgress(FormatPct(template.value, Search(data).value))] else []
  }

  /** The log appends for the cleaned pieces: only those with a non-whitespace character. */
  function Forwarded(parts: seq<string>): seq<UiEvent> {
    if parts == [] then []
    else Forwarded(parts[..|parts| - 1]) + (if HasNonSpace(parts[|parts| - 1]) then [AppendLog(parts[|parts| - 1])] else [])
  }

  /** What one `write(data)` queues. */
  function WriteEvents(data: string, template: Option<string>): seq<UiEvent> {
    ProgressEvents(data, template) + Forwarded(SplitLines(Strip(data)))
  }

  /** What a sequence of writes queues. */
  function ChunksEvents(chunks: seq<string>, template: Option<string>): seq<UiEvent> {
    if chunks == [] then []
    else ChunksEvents(chunks[..|chunks| - 1], template) + WriteEvents(chunks[|chunks| - 1], template)
  }

  /** The pieces that survive the whitespace filter, in order. */
  function KeptPieces(parts: seq<string>): seq<string> {
    if parts == [] then []
    else KeptPieces(parts[..|parts| - 1]) + (if HasNonSpace(parts[|parts| - 1]) then [parts[|parts| - 1]] else [])
  }

  class StreamLogger {
    /** The `StringIO` contents. */
    var buffer: string
    /** The callbacks this logger has queued for the UI thread. */
    var posted: seq<UiEvent>
    /** Some progress template iff `handle_progress`. */
    const template: Option<string>

    constructor(template: Option<string>)
      ensures buffer == [] && posted == [] && this.template == template
    {
      buffer := [];
      posted := [];
      this.template := template;
    }

    /** `write(data)` */
    method Write(data: string)
      modifies this
      ensures buffer == old(buffer) + data
      ensures posted == old(posted) + WriteEvents(data, template)
    {
      buffer := buffer + data;
      var progress := [];
      if template.Some? {
        var m := Search(data);
        if m.Some? {
          progress := [ShowProgress(FormatPct(template.value, m.value))];
        }
      }
      var logged := Forward(SplitLines(Strip(data)));
      posted := posted + (progress + logged);
    }
  }

  /** The forwarding loop of `write`: each cleaned piece with a non-whitespace character
      becomes a log append, in order. */
  method Forward(parts: seq<string>) returns (logged: seq<UiEvent>)
    ensures logged == Forwarded(parts)
  {
    logged := [];
    var i := 0;
    while i < |parts|
      invariant 0 <= i <= |parts|
      invariant logged == Forwarded(parts[..i])
    {
      assert parts[..i + 1][..i] == parts[..i];
      if HasNonSpace(parts[i]) {
        logged := logged + [AppendLog(parts[i])];
      }
      i := i + 1;
    }
    assert parts[..|parts|] == parts;
  }

  /** The worker's redirection: a fresh logger installed as stdout and stderr receives
      esptool's writes in order; `output` is its `getvalue()`, the raw uncleaned text. */
  method Capture(chunks: seq<string>, template: Option<string>) returns (output: string, posted: seq<UiEvent>)
    ensures output == Concat(chunks)
    ensures posted == ChunksEvents(chunks, template)
  {
    var logger := new StreamLogger(template);
    var i := 0;
    while i < |chunks|
      invariant 0 <= i <= |chunks|
      invariant logger.template == template
      invariant logger.buffer == Concat(chunks[..i])
      invariant logger.posted == ChunksEvents(chunks[..i], template)
    {
      CaptureStep(chunks, i, template);
      logger.Write(chunks[i]);
      i := i + 1;
    }
    assert chunks[..|chunks|] == chunks;
    output := logger.buffer;
    posted := logger.posted;
  }

  /** One more write extends both the captured text and the queued events. */
  lemma CaptureStep(chunks: seq<string>, i: nat, template: Option<string>)
    requires i < |chunks|
    ensures Concat(chunks[..i + 1]) == Concat(chunks[..i]) + chunks[i]
    ensures ChunksEvents(chunks[..i + 1], template) == ChunksEvents(chunks[..i], template) + WriteEvents(chunks[i], template)
  {
    assert chunks[..i + 1] == chunks[..i] + [chunks[i]];
    ConcatSnoc(chunks[..i], chunks[i]);
    assert chunks[..i + 1][..i] == chunks[..i];
  }

  // ---------------------------------------------------------------------------
  // What the queued events amount to

  /** The forwarded events are exactly the kept pieces as log appends: every one has a
      non-whitespace character, their order is kept, and nothing else is queued. */
  lemma {:induction false} ForwardedSpec(parts: seq<string>)
    ensures |Forwarded(parts)| == |KeptPieces(parts)| <= |parts|
    ensures forall k | 0 <= k < |Forwarded(parts)| :: Forwarded(parts)[k] == AppendLog(KeptPieces(parts)[k])
    ensures forall k | 0 <= k < |KeptPieces(parts)| :: HasNonSpace(KeptPieces(parts)[k])
    ensures LogText(Forwarded(parts)) == Concat(KeptPieces(parts))
    ensures DoneCount(Forwarded(parts)) == 0 && ProgressCount(Forwarded(parts)) == 0
    decreases |parts|
  {
    if parts != [] {
      var init := parts[..|parts| - 1];
      var p := parts[|parts| - 1];
      ForwardedSpec(init);
      if HasNonSpace(p) {
        EventsAppend(Forwarded(init), [AppendLog(p)]);
        EventsSingle(AppendLog(p));
        ConcatSnoc(KeptPieces(init), p);
      } else {
        assert Forwarded(parts) == Forwarded(init);
        assert KeptPieces(parts) == KeptPieces(init);
      }
    }
  }

  /** The filter drops only whitespace-only pieces: a run in which every piece has
      a non-whitespace character is kept whole. */
  lemma {:induction false} KeptPiecesAll(parts: seq<string>)
    requires forall k | 0 <= k < |parts| :: HasNonSpace(parts[k])
    ensures KeptPieces(parts) == parts
    decreases |parts|
  {
    if parts != [] {
      KeptPiecesAll(parts[..|parts| - 1]);
    }
  }

  lemma {:induction false} KeptPiecesAppend(a: seq<string>, b: seq<string>)
    ensures KeptPieces(a + b) == KeptPieces(a) + KeptPieces(b)
    decreases |b|
  {
    if b == [] {
      assert a + b == a;
    } else {
      assert (a + b)[..|a + b| - 1] == a + b[..|b| - 1];
      KeptPiecesAppend(a, b[..|b| - 1]);
    }
  }

  predicate AppendsHaveText(events: seq<UiEvent>) {
    forall k | 0 <= k < |events| && events[k].AppendLog? :: HasNonSpace(events[k].text)
  }

  lemma ProgressEventsSpec(data: string, template: Option<string>)
    ensures ProgressCount(ProgressEvents(data, template)) == (if template.Some? && Search(data).Some? then 1 else 0)
    ensures LogText(ProgressEvents(data, template)) == []
    ensures DoneCount(ProgressEvents(data, template)) == 0
    ensures AppendsHaveText(ProgressEvents(data, template))
  {
    if template.Some? && Search(data).Some? {
      EventsSingle(ProgressEvents(data, template)[0]);
    }
  }

  /** A write queues at most one progress message (the first match in the raw data),
      and one exactly when the logger handles progress and the pattern matches; the log
      receives the kept cleaned pieces; no completion is queued. */
  lemma WriteEventsSpec(data: string, template: Option<string>)
    ensures ProgressCount(WriteEvents(data, template)) == (if template.Some? && Search(data).Some? then 1 else 0)
    ensures template.Some? && Search(data).Some? ==>
      WriteEvents(data, template)[0] == ShowProgress(FormatPct(template.value, Search(data).value))
    ensures LogText(WriteEvents(data, template)) == Concat(KeptPieces(SplitLines(Strip(data))))
    ensures DoneCount(WriteEvents(data, template)) == 0
    ensures AppendsHaveText(WriteEvents(data, template))
  {
    var pe := ProgressEvents(data, template);
    var fw := Forwarded(SplitLines(Strip(data)));
    ForwardedSpec(SplitLines(Strip(data)));
    ProgressEventsSpec(data, template);
    EventsAppend(pe, fw);
    AppendsHaveTextAppend(pe, fw);
  }

  lemma AppendsHaveTextAppend(a: seq<UiEvent>, b: seq<UiEvent>)
    requires AppendsHaveText(a) && AppendsHaveText(b)
    ensures AppendsHaveText(a + b)
  {
    forall k | 0 <= k < |a + b| && (a + b)[k].AppendLog?
      ensures HasNonSpace((a + b)[k].text)
    {
      if k < |a| {
        assert (a + b)[k] == a[k];
      } else {
        assert (a + b)[k] == b[k - |a|];
      }
    }
  }

  /** Over a whole run, at most one progress message per write and none without a template. */
  lemma {:induction false} ChunksEventsSpec(chunks: seq<string>, template: Option<string>)
    ensures ProgressCount(ChunksEvents(chunks, template)) <= |chunks|
    ensures template.None? ==> ProgressCount(ChunksEvents(chunks, template)) == 0
    ensures DoneCount(ChunksEvents(chunks, template)) == 0
    decreases |chunks|
  {
    if chunks != [] {
      var init := chunks[..|chunks| - 1];
      ChunksEventsSpec(init, template);
      WriteEventsSpec(chunks[|chunks| - 1], template);
      EventsAppend(ChunksEvents(init, template), WriteEvents(chunks[|chunks| - 1], template));
    }
  }

  // ---------------------------------------------------------------------------
  // Whitespace-only output

  lemma {:induction false} SplitLinesAllSpace(s: string)
    requires AllSpace(s)
    ensures KeptPieces(SplitLines(s)) == []
    decreases |s|
  {
    if s != [] {
      var n := FirstLineLength(s);
      assert AllSpace(s[n..]);
      SplitLinesAllSpace(s[n..]);
      assert !HasNonSpace(s[..n]);
      KeptPiecesAppend([s[..n]], SplitLines(s[n..]));
      assert KeptPieces([s[..n]]) == KeptPieces([]) + [];
    }
  }

  lemma AllSpaceNoMatch(s: string)
    requires AllSpace(s)
    ensures Search(s) == None
  {
    SearchSpec(s);
    forall j | 0 <= j <= |s| ensures MatchAt(s, j).None? {
      if j < |s| {
        assert IsSpace(s[j]);
      }
    }
  }

  /** A chunk of whitespace only (a bare line ending, for instance) queues nothing. */
  lemma WhitespaceChunkDropped(data: string, template: Option<string>)
    requires AllSpace(data)
    ensures WriteEvents(data, template) == []
  {
    AllSpaceNoMatch(data);
    assert EscFree(data) by {
      forall k | 0 <= k < |data| ensures data[k] != Esc {
        assert IsSpace(data[k]);
      }
    }
    StripEscFree(data);
    SplitLinesAllSpace(data);
    ForwardedSpec(SplitLines(data));
  }

  // ---------------------------------------------------------------------------
  // Two concrete chunks

  lemma ClearLineSearch()
    ensures Search([Esc, '[', '2', 'K', '(', '6', '7', '%', ')']) == Some(67)
  {
    var s := [Esc, '[', '2', 'K', '(', '6', '7', '%', ')'];
    assert PatternAt(s, 4, 5, 7, 7, 8) by {
      assert s[5..7] == "67";
      assert s[5..5] == [] && s[7..7] == [] && s[8..8] == [];
    }
    MatchAtComplete(s, 4, 5, 7, 7, 8);
    assert DecimalValue(s[5..7]) == 67 by {
      assert s[5..7] == "67";
      assert "67"[..1] == "6";
    }
    assert s[0] != '(' && s[1] != '(' && s[2] != '(' && s[3] != '(';
    assert FirstMatchFrom(s, 3) == 4;
    assert FirstMatchFrom(s, 1) == 4;
    assert FirstMatchFrom(s, 0) == 4;
  }

  lemma ClearLineStrip()
    ensures Strip([Esc, '[', '2', 'K', '(', '6', '7', '%', ')']) == "(67%)"
  {
    var s := [Esc, '[', '2', 'K', '(', '6', '7', '%', ')'];
    assert SkipParams(s, 2) == 3;
    assert EscapeLength(s) == 4;
    assert s[4..] == "(67%)";
    assert EscFree("(67%)");
    StripEscFree("(67%)");
  }

  lemma PercentLinesOnePiece()
    ensures BreakFree("(67%)") && HasNonSpace("(67%)")
    ensures BreakFree("(50%)") && HasNonSpace("(50%)")
  {
    assert "(67%)"[0] == '(' && "(50%)"[0] == '(';
  }

  /** A chunk whose cleaned text is one piece with a non-whitespace character. */
  lemma OnePieceChunk(data: string, template: Option<string>, cleaned: string)
    requires Strip(data) == cleaned && cleaned != [] && BreakFree(cleaned) && HasNonSpace(cleaned)
    ensures WriteEvents(data, template) == ProgressEvents(data, template) + [AppendLog(cleaned)]
  {
    SplitLinesBreakFree(cleaned);
    assert Forwarded([cleaned]) == Forwarded([]) + [AppendLog(cleaned)];
  }

  lemma ClearLineProgress(template: string)
    ensures ProgressEvents([Esc, '[', '2', 'K', '(', '6', '7', '%', ')'], Some(template))
         == [ShowProgress(FormatPct(template, 67))]
  {
    ClearLineSearch();
  }

  /** esptool's "clear line" sequence in front of a percentage: the progress is read
      from the raw chunk and the log shows the chunk without the sequence. */
  lemma ClearLineChunk(template: string)
    ensures WriteEvents([Esc, '[', '2', 'K', '(', '6', '7', '%', ')'], Some(template))
         == [ShowProgress(FormatPct(template, 67)), AppendLog("(67%)")]
  {
    var s := [Esc, '[', '2', 'K', '(', '6', '7', '%', ')'];
    ClearLineProgress(template);
    ClearLineStrip();
    PercentLinesOnePiece();
    OnePieceChunk(s, Some(template), "(67%)");
  }

  lemma SplitPercentSearch()
    ensures Search(['(', Esc, '[', '0', 'm', '5', '0', '%', ')']) == None
  {
    var s := ['(', Esc, '[', '0', 'm', '5', '0', '%', ')'];
    SearchSpec(s);
    assert SkipSpaces(s, 1) == 1;
    assert SkipDigits(s, 1) == 1;
    assert MatchAt(s, 0) == None;
    forall j | 1 <= j <= |s|
      ensures MatchAt(s, j) == None
    {
      assert j == |s| || s[j] != '(';
    }
  }

  lemma SplitPercentStrip()
    ensures Strip(['(', Esc, '[', '0', 'm', '5', '0', '%', ')']) == "(50%)"
  {
    var s := ['(', Esc, '[', '0', 'm', '5', '0', '%', ')'];
    assert EscapeLength(s) == 0;
    var t := s[1..];
    assert SkipParams(t, 2) == 3;
    assert EscapeLength(t) == 4;
    assert t[4..] == "50%)";
    assert EscFree("50%)");
    StripEscFree("50%)");
    assert Strip(s) == [s[0]] + Strip(t);
  }

  /** Progress is looked for before cleaning: a sequence inside the parentheses hides
      the percentage from the pattern, although the cleaned log line shows it. */
  lemma SplitPercentChunk(template: string)
    ensures WriteEvents(['(', Esc, '[', '0', 'm', '5', '0', '%', ')'], Some(template)) == [AppendLog("(50%)")]
  {
    var s := ['(', Esc, '[', '0', 'm', '5', '0', '%', ')'];
    SplitPercentSearch();
    SplitPercentStrip();
    PercentLinesOnePiece();
    OnePieceChunk(s, Some(template), "(50%)");
  }
}
