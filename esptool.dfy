/** What both programs hand to `esptool.main` and how they read its end:
    the argument lists for flash and erase, the outcome of the call and the
    return code derived from it, and the log lines the worker writes around it. */
module Esptool {
  import opened Common
  import opened Text

  const Chip: string := "esp32s3"

  /** `BAUD_RATE` */
  const BaudRate: nat := 460800

  /** The part every command starts with: chip, port and `str(BAUD_RATE)`. */
  function BaseArgs(port: string): seq<string> {
    ["--chip", Chip, "--port", port, "--baud", NatToDecimal(BaudRate)]
  }

  /** The write command of the default image (offset 0x0, compressed). */
  function DefaultFlashTail(binFile: string): seq<string> {
    ["write_flash", "-z", "0x0", binFile]
  }

  /** The write command of the Kode OS application image at 0x400000. */
  function AppFlashTail(binFile: string): seq<string> {
    ["write_flash", "--flash-freq", "80m", "--flash-mode", "dio", "--flash-size", "32MB", "0x400000", binFile]
  }

  /** `base_args + flash_args` of `_flash_thread` (the same in both programs). */
  function FlashArgs(port: string, binFile: string, appMode: bool): seq<string> {
    BaseArgs(port) + (if appMode then AppFlashTail(binFile) else DefaultFlashTail(binFile))
  }

  /** The erase subcommand as kodeOS.py spells it. */
  const TkEraseCommand: string := "erase_flash"

  /** The erase subcommand as kodeOS_flet.py spells it. */
  const FletEraseCommand: string := "erase-flash"

  /** `args` of `_erase_thread`: the common prefix and the program's erase subcommand. */
  function EraseArgs(port: string, command: string): seq<string> {
    BaseArgs(port) + [command]
  }

  lemma BaudRateText()
    ensures NatToDecimal(BaudRate) == "460800"
  {
    assert NatToDecimal(4) == "4";
    assert NatToDecimal(46) == "46";
    assert NatToDecimal(460) == "460";
    assert NatToDecimal(4608) == "4608";
    assert NatToDecimal(46080) == "46080";
  }

  /** The literal prefix every command starts with. */
  function Prefix(port: string): seq<string> {
    ["--chip", "esp32s3", "--port", port, "--baud", "460800"]
  }

  /** Flash commands start with the six-element prefix, have 10 elements in default
      mode and 15 in app mode, and end with the firmware path. */
  lemma FlashArgsShape(port: string, binFile: string, appMode: bool)
    ensures var r := FlashArgs(port, binFile, appMode);
      && r[..6] == Prefix(port)
      && |r| == (if appMode then 15 else 10)
      && r[6] == "write_flash"
      && r[|r| - 1] == binFile
      && (appMode ==> r[7..14] == ["--flash-freq", "80m", "--flash-mode", "dio", "--flash-size", "32MB", "0x400000"])
      && (!appMode ==> r[7..9] == ["-z", "0x0"])
  {
    BaudRateText();
  }

  /** Erase commands are the prefix followed by the subcommand and nothing else:
      seven elements, no firmware path. */
  lemma EraseArgsShape(port: string, command: string)
    ensures EraseArgs(port, command) == Prefix(port) + [command]
    ensures |EraseArgs(port, command)| == 7
  {
    BaudRateText();
  }

  /** Reads a flash command back into its request; `FlashArgs` loses nothing. */
  function ParseFlashArgs(args: seq<string>): Option<(string, string, bool)> {
    if |args| == 10 && args[..6] == Prefix(args[3]) && args[6..9] == ["write_flash", "-z", "0x0"] then
      Some((args[3], args[9], false))
    else if |args| == 15 && args[..6] == Prefix(args[3]) && args[6..14] == AppFlashTail("")[..8] then
      Some((args[3], args[14], true))
    else None
  }

  lemma FlashArgsRoundTrip(port: string, binFile: string, appMode: bool)
    ensures ParseFlashArgs(FlashArgs(port, binFile, appMode)) == Some((port, binFile, appMode))
  {
    BaudRateText();
    var r := FlashArgs(port, binFile, appMode);
    assert r[..6] == Prefix(port);
    if appMode {
      assert r[6..14] == AppFlashTail("")[..8];
    } else {
      assert r[6..9] == ["write_flash", "-z", "0x0"];
    }
  }

  /** Flash and erase commands are never confused: they differ in length. */
  lemma FlashNotErase(port: string, binFile: string, appMode: bool, port': string, command: string)
    ensures FlashArgs(port, binFile, appMode) != EraseArgs(port', command)
  {
    FlashArgsShape(port, binFile, appMode);
    EraseArgsShape(port', command);
  }

  // ---------------------------------------------------------------------------
  // Outcome of esptool.main and its return code

  /** The `code` of a `SystemExit`: an integer (a bool counts as 0 or 1) or anything else (`None`, a string, ...). */
  datatype ExitCode = IntCode(code: int) | NonIntCode

  /** How `esptool.main(args)` ended. */
  datatype Outcome =
    | Returned                 // returned normally
    | Exited(exit: ExitCode)   // raised SystemExit
    | Raised(message: string)  // raised any other exception; `message` is `str(e)`

  /** The `try/except` of `_flash_thread` / `_erase_thread`. */
  function ReturnCode(o: Outcome): int {
    match o
    case Returned => 0
    case Exited(IntCode(c)) => c
    case Exited(NonIntCode) => 1
    case Raised(_) => 1
  }

  /** The operation is reported successful exactly when esptool returned normally or exited with code 0. */
  lemma ReturnCodeZeroIff(o: Outcome)
    ensures ReturnCode(o) == 0 <==> (o == Returned || o == Exited(IntCode(0)))
  {
  }

  /** Only an integer exit code can make the return code anything other than 0 or 1. */
  lemma ReturnCodeOther(o: Outcome)
    ensures ReturnCode(o) != 0 && ReturnCode(o) != 1 ==> o.Exited? && o.exit == IntCode(ReturnCode(o))
  {
  }

  /** `f"\nException during esptool.main: {e}\n"`, logged only when esptool raised a non-exit exception. */
  function ExceptionLines(o: Outcome): seq<string> {
    if o.Raised? then ["\nException during esptool.main: " + o.message + "\n"] else []
  }

  // ---------------------------------------------------------------------------
  // Python's repr, for `f"Executing esptool.main with args: {args}\n"`

  function HexDigit(d: nat): char
    requires d < 16
  {
    if d < 10 then DigitChar(d) else ('a' as int + d - 10) as char
  }

  /** One character inside a `repr` string literal quoted with q. */
  function EscapeChar(c: char, q: char): string {
    if c == '\\' then "\\\\"
    else if c == q then ['\\', q]
    else if c == '\t' then "\\t"
    else if c == '\n' then "\\n"
    else if c == '\r' then "\\r"
    else if c < ' ' || ('\U{7f}' <= c <= '\U{a0}') || c == '\U{ad}' then
      ['\\', 'x', HexDigit(c as int / 16), HexDigit(c as int % 16)]
    else [c]
  }

  function EscapeBody(s: string, q: char): string {
    if s == [] then [] else EscapeChar(s[0], q) + EscapeBody(s[1..], q)
  }

  /** `repr(s)`: single quotes unless the text has a single quote and no double quote. */
  function StrRepr(s: string): string {
    var q := if Contains(s, "'") && !Contains(s, "\"") then '"' else '\'';
    [q] + EscapeBody(s, q) + [q]
  }

  function JoinReprs(args: seq<string>): string {
    if args == [] then []
    else if |args| == 1 then StrRepr(args[0])
    else StrRepr(args[0]) + ", " + JoinReprs(args[1..])
  }

  /** `repr(args)` of a list of strings. */
  function ListRepr(args: seq<string>): string {
    "[" + JoinReprs(args) + "]"
  }

  /** The first line every worker logs. */
  function ExecLine(args: seq<string>): string {
    "Executing esptool.main with args: " + ListRepr(args) + "\n"
  }

  /** A printable Latin-1 character other than a quote or a backslash. */
  predicate PlainChar(c: char) {
    ' ' <= c <= '\U{ff}' && c != '\\' && c != '\'' && c != '"' && !('\U{7f}' <= c <= '\U{a0}') && c != '\U{ad}'
  }

  /** Printable Latin-1 text without quotes or backslashes is shown verbatim between single quotes. */
  lemma {:induction false} StrReprPlain(s: string)
    requires forall k | 0 <= k < |s| :: PlainChar(s[k])
    ensures EscapeBody(s, '\'') == s
    decreases |s|
  {
    if s != [] {
      StrReprPlain(s[1..]);
    }
  }

  // ---------------------------------------------------------------------------
  // Reading a `repr` literal back, as Python's parser does for the escapes `repr` writes

  function HexValue(c: char): (v: nat)
    ensures v < 16
  {
    if '0' <= c <= '9' then c as int - '0' as int
    else if 'a' <= c <= 'f' then c as int - 'a' as int + 10
    else 0
  }

  /** The text a literal body stands for: `\\`, `\t`, `\n`, `\r`, `\xNN` and an escaped quote are decoded. */
  function UnescapeBody(e: string): string
    decreases |e|
  {
    if e == [] then []
    else if e[0] == '\\' && |e| >= 4 && e[1] == 'x' then
      [(16 * HexValue(e[2]) + HexValue(e[3])) as char] + UnescapeBody(e[4..])
    else if e[0] == '\\' && |e| >= 2 then
      [if e[1] == 't' then '\t' else if e[1] == 'n' then '\n' else if e[1] == 'r' then '\r' else e[1]]
        + UnescapeBody(e[2..])
    else [e[0]] + UnescapeBody(e[1..])
  }

  lemma HexDigitValue(d: nat)
    requires d < 16
    ensures HexValue(HexDigit(d)) == d
  {
  }

  /** Decoding undoes one escaped character, whatever follows it. */
  lemma UnescapeChar(c: char, q: char, rest: string)
    requires q == '\'' || q == '"'
    ensures UnescapeBody(EscapeChar(c, q) + rest) == [c] + UnescapeBody(rest)
  {
    var e := EscapeChar(c, q) + rest;
    if c == '\\' || c == q || c == '\t' || c == '\n' || c == '\r' {
      assert e[2..] == rest;
    } else if c < ' ' || ('\U{7f}' <= c <= '\U{a0}') || c == '\U{ad}' {
      var hi, lo := c as int / 16, c as int % 16;
      HexDigitValue(hi);
      HexDigitValue(lo);
      assert e[4..] == rest;
      assert 16 * hi + lo == c as int;
    } else {
      assert e[1..] == rest;
    }
  }

  lemma {:induction false} UnescapeEscapeBody(s: string, q: char)
    requires q == '\'' || q == '"'
    ensures UnescapeBody(EscapeBody(s, q)) == s
    decreases |s|
  {
    if s != [] {
      UnescapeEscapeBody(s[1..], q);
      UnescapeChar(s[0], q, EscapeBody(s[1..], q));
      assert [s[0]] + s[1..] == s;
    }
  }

  /** `repr(s)` is a literal quoted the same at both ends that reads back as s. */
  lemma StrReprRoundTrip(s: string)
    ensures var r := StrRepr(s);
      && |r| >= 2 && r[0] == r[|r| - 1] && (r[0] == '\'' || r[0] == '"')
      && UnescapeBody(r[1..|r| - 1]) == s
  {
    var q := if Contains(s, "'") && !Contains(s, "\"") then '"' else '\'';
    var r := StrRepr(s);
    assert r[1..|r| - 1] == EscapeBody(s, q);
    UnescapeEscapeBody(s, q);
  }
}
