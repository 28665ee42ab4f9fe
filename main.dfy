/**
 * The magnetic-field replay controller: the console command handlers,
 * the interactive console loop and the output loop that turns dataset
 * rows into clamped voltages, writes them to the device and logs them.
 *
 * The output loop and the console run on two threads in the program.
 * Here each is a sequence of atomic steps on one `Controller`: a caller
 * interleaves `OutputStep` calls with `ProcessCommand` calls in whatever
 * order the threads' lock acquisitions happen. One pass of the output
 * loop is two steps: at the top the loop bound is checked and a pending
 * jump taken; at the row the stop and pause flags are read and the row
 * emitted. The pause wait is a step that polls and stays at the row; the
 * wait between rows is the number `WaitTime` returns, and sleeping it is
 * left to the caller.
 */
module FieldController {
  import opened Wrappers
  import opened Text
  import opened Dataset
  import opened AppConfig
  import opened AppState
  import opened LogManager
  import opened DaqController
  import CI = CommandInterface

  /** The controller's own output limit, which it uses instead of the configured one. */
  const MaxVoltage: real := 10.0

  /** The handlers the console can run. */
  datatype Command = Pause | Resume | SetInterval | Status | SaveConfig | Stop | Help | Jump

  /** The command names in registration order. */
  const RegisteredNames: seq<string> := [
    "pause", "resume", "set interval", "status", "save config", "stop", "help", "jump"]

  /** The command table after registration: name to handler and help text. */
  const Registry: map<string, CI.Entry<Command>> := map[]
    ["pause" := CI.Entry(Pause, "暫停輸出")]
    ["resume" := CI.Entry(Resume, "恢復輸出")]
    ["set interval" := CI.Entry(SetInterval, "設定輸出間隔，用法: set interval <秒>")]
    ["status" := CI.Entry(Status, "顯示目前狀態")]
    ["save config" := CI.Entry(SaveConfig, "保存當前設定")]
    ["stop" := CI.Entry(Stop, "停止程式")]
    ["help" := CI.Entry(Help, "顯示此幫助")]
    ["jump" := CI.Entry(Jump, "跳至指定行數，用法: jump <行數>")]

  /** One log record: the row index, the two time stamps, the field, the unhalved voltages, and whether the write completed. */
  datatype LogEntry = LogEntry(
    index: int, utcTime: string, localTime: string,
    bxNt: real, byNt: real, bzNt: real,
    vx: real, vy: real, vz: real,
    success: bool)

  /** What the environment does during one output-loop step: write, clock and file outcomes. */
  datatype Tick = Tick(
    writeOk: bool, elapsed: real, utcTime: string, localTime: string,
    flushOk: bool, zeroWriteOk: bool, closeOk: bool)

  /** Where the output loop is. */
  datatype Phase = NotStarted | AtTop | AtRow | Finished

  datatype StepOutcome = Exited | Advanced | Polled | Emitted(index: int, wait: real)

  /** The file outcomes a console command may meet. */
  datatype CommandIo = CommandIo(flushOk: bool, save: WriteOutcome)

  datatype ConsoleInput = Line(text: string, io: CommandIo) | Eof | Interrupt

  datatype StatusReport = StatusReport(
    paused: bool, currentRow: int, totalRows: nat, progress: real,
    interval: real, voltageLimit: real, bufferedEntries: nat)

  /** The analog-output channels, in the order the program lists them: ao3, ao2, ao1, ao0. */
  function Channels(deviceName: string): map<string, seq<string>> {
    map["ao" := [deviceName + "/ao3", deviceName + "/ao2", deviceName + "/ao1", deviceName + "/ao0"]]
  }

  /** The vector written to the device: half of each axis voltage, then a fixed 5 V on the fourth channel. */
  function OutputVector(vx: real, vy: real, vz: real): seq<real> {
    [vx / 2.0, vy / 2.0, vz / 2.0, 5.0]
  }

  function VectorFor(row: Sample, ntToVolt: real, limit: real): seq<real> {
    OutputVector(
      AxisVoltage(row.fieldX, ntToVolt, limit),
      AxisVoltage(row.fieldY, ntToVolt, limit),
      AxisVoltage(row.fieldZ, ntToVolt, limit))
  }

  function EntryFor(index: int, row: Sample, ntToVolt: real, limit: real, tick: Tick): LogEntry {
    LogEntry(
      index, tick.utcTime, tick.localTime,
      row.fieldX, row.fieldY, row.fieldZ,
      AxisVoltage(row.fieldX, ntToVolt, limit),
      AxisVoltage(row.fieldY, ntToVolt, limit),
      AxisVoltage(row.fieldZ, ntToVolt, limit),
      tick.writeOk)
  }

  /**
   * What one emitted row produces: the log holds the clamped voltages,
   * within the limit, and the device receives exactly half of each, with
   * 5 V on the fourth channel.
   */
  lemma EmissionAgreesWithLog(index: int, row: Sample, ntToVolt: real, limit: real, tick: Tick)
    requires limit >= 0.0
    ensures var e, v := EntryFor(index, row, ntToVolt, limit, tick), VectorFor(row, ntToVolt, limit);
      && |v| == 4 && v[0] * 2.0 == e.vx && v[1] * 2.0 == e.vy && v[2] * 2.0 == e.vz && v[3] == 5.0
      && -limit <= e.vx <= limit && -limit <= e.vy <= limit && -limit <= e.vz <= limit
      && e.index == index && e.bxNt == row.fieldX && e.byNt == row.fieldY && e.bzNt == row.fieldZ
  {
  }

  /** `max(0, interval - elapsed)`. */
  function WaitTime(interval: real, elapsed: real): (w: real)
    ensures w >= 0.0 && w >= interval - elapsed
    ensures w == 0.0 || w == interval - elapsed
    ensures elapsed >= 0.0 && interval >= 0.0 ==> w <= interval
  {
    if interval - elapsed > 0.0 then interval - elapsed else 0.0
  }

  /** The value `set interval` would store: three words and a number, else None. */
  function IntervalArgument(line: string): Option<real> {
    var parts := Tokens(line);
    if |parts| != 3 then None else ParseReal(parts[2])
  }

  /** The interval after `set interval`: the argument when it is positive, else the current one. */
  function IntervalAfter(current: real, line: string): (r: real)
    ensures r == current || r > 0.0
  {
    match IntervalArgument(line)
    case Some(v) => if v > 0.0 then v else current
    case None => current
  }

  /** The row `jump` would request: two words and an integer, else None. */
  function JumpArgument(line: string): Option<int> {
    var parts := Tokens(line);
    if |parts| != 2 then None else ParseInt(parts[1])
  }

  /** The pending jump after `jump`: the row when it lies in `[0, rows)`, else the current one. */
  function SkipAfter(current: Option<int>, line: string, rows: nat): (r: Option<int>)
    ensures r == current || (r.Some? && 0 <= r.value < rows)
  {
    match JumpArgument(line)
    case Some(n) => if 0 <= n < rows then Some(n) else current
    case None => current
  }

  /** `set interval` only ever stores a positive value that the line spelled out as its third word. */
  lemma IntervalAfterChanges(current: real, line: string)
    ensures var r := IntervalAfter(current, line);
      r != current ==> |Tokens(line)| == 3 && ParseReal(Tokens(line)[2]) == Some(r) && r > 0.0
    ensures current > 0.0 ==> IntervalAfter(current, line) > 0.0
  {
  }

  /** The three words of `set interval <n>` as the console splits them. */
  lemma TokensOfSetInterval(n: nat)
    ensures Tokens("set interval " + NatToString(n)) == ["set", "interval", NatToString(n)]
  {
    var number := NatToString(n);
    IntToStringIsWord(n);
    TokensOfTriple("set", "interval", number);
    assert "set" + " " + "interval" + " " + number == "set interval " + number;
  }

  /** `set interval <n>` stores `n` seconds when `n` is positive; `set interval 0` is rejected and changes nothing. */
  lemma SetIntervalWhole(current: real, n: nat)
    ensures IntervalAfter(current, "set interval " + NatToString(n)) == if n > 0 then n as real else current
  {
    TokensOfSetInterval(n);
    ParseIntOfIntToString(n);
    ParseRealAgreesWithParseInt(NatToString(n));
  }

  /** The two words of `jump <i>` as the console splits them. */
  lemma TokensOfJump(i: int)
    ensures Tokens("jump " + IntToString(i)) == ["jump", IntToString(i)]
  {
    var number := IntToString(i);
    IntToStringIsWord(i);
    TokensOfPair("jump", number);
    assert "jump" + " " + number == "jump " + number;
  }

  /** `jump <i>` requests row `i` exactly when `0 <= i < rows`; otherwise the pending jump is kept. */
  lemma JumpWhole(current: Option<int>, i: int, rows: nat)
    ensures SkipAfter(current, "jump " + IntToString(i), rows) == if 0 <= i < rows then Some(i) else current
  {
    TokensOfJump(i);
    ParseIntOfIntToString(i);
  }

  /** A jump outside `[0, rows)` leaves the pending jump alone; one inside replaces it. */
  lemma SkipAfterRange(current: Option<int>, line: string, rows: nat)
    ensures var r := SkipAfter(current, line, rows);
      r == current || (r.Some? && 0 <= r.value < rows && JumpArgument(line) == Some(r.value))
  {
  }

  /** The configuration `save config` writes: the record's fields with the live interval in place of the configured one. */
  function SaveConfigData(c: Config, interval: real): map<string, Value> {
    ToDict(c)["interval" := Num(interval)]
  }

  /** Reading the saved file back gives the running configuration with the live interval. */
  lemma SaveConfigRoundTrip(c: Config, interval: real)
    ensures SaveConfigData(c, interval).Keys == FieldSet
    ensures FromDict(SaveConfigData(c, interval)) == c.(interval := Num(interval))
  {
    FieldsDetermineConfig(FromDict(SaveConfigData(c, interval)), c.(interval := Num(interval)));
  }

  /**
   * config.json on disk: absent, holding a dictionary, or holding text
   * `json.load` rejects, which is what an interrupted write leaves.
   */
  datatype StoredConfig = Missing | Stored(data: map<string, Value>) | Unreadable

  /**
   * How a write of config.json goes. `open(..., 'w')` empties the file
   * before `json.dump` fills it, so a write that fails after the open
   * leaves an unreadable file, not the one that was there.
   */
  datatype WriteOutcome = Written | OpenFailed | DumpFailed

  /** The file after writing `data` over `before`. */
  function AfterWrite(before: StoredConfig, data: map<string, Value>, w: WriteOutcome): (r: StoredConfig)
    ensures r == before || w != OpenFailed
    ensures r.Stored? && r.data == data <==> w == Written || (w == OpenFailed && before == Stored(data))
  {
    match w
    case Written => Stored(data)
    case OpenFailed => before
    case DumpFailed => Unreadable
  }

  /**
   * `_load_config`: an existing file that reads cleanly is parsed with the
   * corrected `from_dict` (`FromDictOrDefault`: absent keys take their
   * defaults); an unreadable file, or one that cannot be read, gives the
   * default record. A missing file gives the default record and is
   * created holding it, as the write `create` allows. Returns the record
   * and the file left on disk.
   */
  function LoadConfig(file: StoredConfig, readOk: bool, create: WriteOutcome): (r: (Config, StoredConfig))
    ensures r.0 == if file.Stored? && readOk then FromDictOrDefault(file.data) else Default
    ensures r.1 == if file.Missing? then AfterWrite(Missing, ToDict(Default), create) else file
  {
    match file
    case Missing => (Default, AfterWrite(Missing, ToDict(Default), create))
    case Stored(m) => (if readOk then FromDictOrDefault(m) else Default, file)
    case Unreadable => (Default, file)
  }

  /** The file a first start creates reads back as the default record, and is left as it is. */
  lemma LoadConfigCreated(readOk: bool, create: WriteOutcome)
    ensures var file := LoadConfig(Missing, readOk, Written).1;
      LoadConfig(file, true, create) == (Default, file)
  {
    FromDictOrDefaultToDict(Default);
  }

  /** Starting again after a successful `save config` gives the saved record, live interval included. */
  lemma LoadSavedConfig(c: Config, interval: real, before: StoredConfig, create: WriteOutcome)
    ensures LoadConfig(AfterWrite(before, SaveConfigData(c, interval), Written), true, create).0 == c.(interval := Num(interval))
  {
    FieldsDetermineConfig(FromDictOrDefault(SaveConfigData(c, interval)), c.(interval := Num(interval)));
  }

  /**
   * A save that fails after the file was opened loses the configuration
   * that was there: every later start gets the default record, and the
   * broken file stays in place.
   */
  lemma LoadAfterInterruptedSave(before: StoredConfig, data: map<string, Value>, readOk: bool, create: WriteOutcome)
    ensures LoadConfig(AfterWrite(before, data, DumpFailed), readOk, create) == (Default, Unreadable)
  {
  }

  /** The handler `process_command` runs for `line` in the registered table, or `None` when it runs none. */
  function DispatchedCommand(line: string): (r: Option<Command>)
    ensures r.Some? <==> CI.Dispatch(RegisteredNames, Registry, line).Some?
  {
    RegistryKeys();
    match CI.Dispatch(RegisteredNames, Registry, line)
    case None => None
    case Some(name) => if name in Registry then Some(Registry[name].handler) else None
  }

  /** The `help` listing: one line per command, in registration order, with its help text. */
  function HelpListing(): (lines: seq<string>)
    ensures |lines| == |RegisteredNames|
    ensures forall i :: 0 <= i < |lines| ==> lines[i] == CI.HelpLine(RegisteredNames[i], Registry[RegisteredNames[i]].help)
  {
    RegistryKeys();
    seq(|RegisteredNames|, i requires 0 <= i < |RegisteredNames| => CI.HelpLine(RegisteredNames[i], Registry[RegisteredNames[i]].help))
  }

  /** A registered one-word command, typed as itself, runs its own handler. */
  lemma DispatchOneWord(w: string)
    requires w in Registry && IsWord(w) && NoUpper(w)
    ensures DispatchedCommand(w) == Some(Registry[w].handler)
  {
    StripTrimmed(w);
    TokensOfJoin([w]);
    LowerOfLowercase(w);
  }

  /** Typing `stop` ends the console, whatever the file outcomes. */
  lemma StopLineEndsConsole(io: CommandIo)
    ensures EndsConsole(Line("stop", io)) && StopsConsole(Line("stop", io))
  {
    DispatchOneWord("stop");
  }

  /** `set` alone is no command name. */
  lemma SetIsNoCommand()
    ensures "set" !in Registry
  {
  }

  lemma SetIntervalLowercase()
    ensures NoUpper("set interval ")
  {
  }

  lemma SetIntervalHandler()
    ensures RegisteredNames[2] in Registry && Registry[RegisteredNames[2]].handler == SetInterval
  {
  }

  lemma StatusHandler()
    ensures "status" in Registry && Registry["status"].handler == Status
  {
  }

  /** Of the registered names, the first that a line beginning `set interval` starts with is `set interval`. */
  lemma SetIntervalIsFirstPrefix(rest: string)
    ensures CI.FirstPrefix(RegisteredNames, "set interval" + rest) == 2
  {
    var line := "set interval" + rest;
    assert line[0] == 's';
    assert !("pause" <= line) && !("resume" <= line);
    assert "set interval" <= line;
    assert RegisteredNames[2] == "set interval";
  }

  /** `set interval <n>` splits into three words, the first being `set`, and starts with `set interval` in lower case. */
  lemma SetIntervalLine(n: nat)
    ensures var line := "set interval " + NatToString(n);
      && Tokens(Strip(line)) == ["set", "interval", NatToString(n)]
      && Lower(line) == "set interval" + (" " + NatToString(n))
  {
    SetIntervalTrimmed(n);
    TokensOfSetInterval(n);
    SetIntervalLineLower(n);
  }

  lemma SetIntervalTrimmed(n: nat)
    ensures Strip("set interval " + NatToString(n)) == "set interval " + NatToString(n)
  {
    var digits := NatToString(n);
    var line := "set interval " + digits;
    assert line[0] == 's';
    assert line[|line| - 1] == digits[|digits| - 1];
    StripTrimmed(line);
  }

  lemma SetIntervalLineLower(n: nat)
    ensures Lower("set interval " + NatToString(n)) == "set interval" + (" " + NatToString(n))
  {
    var digits := NatToString(n);
    SetIntervalLowercase();
    NoUpperAppend("set interval ", digits);
    LowerOfLowercase("set interval " + digits);
    assert "set interval " + digits == "set interval" + (" " + digits);
  }

  /** A line whose first word is no command runs the first registered command that the lower-cased line starts with. */
  lemma DispatchThroughPrefix(line: string, k: nat)
    requires Tokens(Strip(line)) != [] && Lower(Tokens(Strip(line))[0]) !in Registry
    requires k < |RegisteredNames| && CI.FirstPrefix(RegisteredNames, Lower(line)) == k
    ensures DispatchedCommand(line) == Some(Registry[RegisteredNames[k]].handler)
  {
    RegistryKeys();
  }

  /**
   * `set interval <n>` reaches its handler through the prefix lookup: its
   * first word `set` is no command, and `set interval` is the first
   * registered name the line starts with.
   */
  lemma DispatchSetInterval(n: nat)
    ensures DispatchedCommand("set interval " + NatToString(n)) == Some(SetInterval)
  {
    var line := "set interval " + NatToString(n);
    assert Tokens(Strip(line)) != [] && Lower(Tokens(Strip(line))[0]) !in Registry by {
      LowerOfLowercase("set");
      SetIsNoCommand();
      SetIntervalLine(n);
    }
    assert CI.FirstPrefix(RegisteredNames, Lower(line)) == 2 by {
      SetIntervalLine(n);
      SetIntervalIsFirstPrefix(" " + NatToString(n));
    }
    DispatchThroughPrefix(line, 2);
    SetIntervalHandler();
  }

  /** `jump <i>` reaches its handler by its first word. */
  lemma DispatchJump(i: int)
    ensures Strip("jump " + IntToString(i)) == "jump " + IntToString(i)
    ensures DispatchedCommand("jump " + IntToString(i)) == Some(Jump)
  {
    JumpTrimmed(i);
    JumpDispatched(i);
  }

  lemma JumpTrimmed(i: int)
    ensures Strip("jump " + IntToString(i)) == "jump " + IntToString(i)
  {
    var line := "jump " + IntToString(i);
    var number := IntToString(i);
    IntToStringIsWord(i);
    assert line[0] == 'j';
    assert line[|line| - 1] == number[|number| - 1];
    StripTrimmed(line);
  }

  lemma JumpDispatched(i: int)
    ensures DispatchedCommand("jump " + IntToString(i)) == Some(Jump)
  {
    var line := "jump " + IntToString(i);
    assert CI.Dispatch(RegisteredNames, Registry, line) == Some("jump") by {
      JumpTrimmed(i);
      TokensOfJump(i);
      JumpRegistered();
    }
    JumpRegistered();
  }

  lemma JumpRegistered()
    ensures Lower("jump") == "jump" && "jump" in Registry && Registry["jump"].handler == Jump
  {
    LowerOfLowercase("jump");
  }

  /**
   * Whether a console input ends the interactive loop with the program as
   * written. Two more handlers end it besides `stop`: `jump` is
   * registered as a handler of the line but takes no argument, and
   * `status` reads the voltage limit through an attribute that was never
   * set. Either raises out of `process_command`, and the loop's outer
   * exception handler ends the loop.
   */
  predicate EndsConsoleAsWritten(input: ConsoleInput) {
    !input.Line? || EndsAsWritten(DispatchedCommand(Strip(input.text)))
  }

  predicate EndsAsWritten(d: Option<Command>) {
    d == Some(Stop) || d == Some(Jump) || d == Some(Status)
  }

  /** A line running a handler other than `stop` ends the console as written exactly when that handler is `jump` or `status`. */
  lemma LineRunning(input: ConsoleInput, cmd: Command)
    requires input.Line? && DispatchedCommand(Strip(input.text)) == Some(cmd) && cmd != Stop
    ensures !EndsConsole(input)
    ensures EndsConsoleAsWritten(input) <==> cmd == Jump || cmd == Status
  {
    LineRunningGoesOn(input, cmd);
    LineRunningAsWritten(input, cmd);
  }

  lemma LineRunningGoesOn(input: ConsoleInput, cmd: Command)
    requires input.Line? && DispatchedCommand(Strip(input.text)) == Some(cmd) && cmd != Stop
    ensures !EndsConsole(input)
  {
  }

  /** A line running `jump` or `status` ends the console as written, and would not if handlers returned normally. */
  lemma EndsOnlyAsWritten(input: ConsoleInput, cmd: Command)
    requires input.Line? && DispatchedCommand(Strip(input.text)) == Some(cmd) && (cmd == Jump || cmd == Status)
    ensures EndsConsoleAsWritten(input) && !EndsConsole(input)
  {
  }

  lemma LineRunningAsWritten(input: ConsoleInput, cmd: Command)
    requires input.Line? && DispatchedCommand(Strip(input.text)) == Some(cmd)
    ensures EndsConsoleAsWritten(input) <==> cmd == Stop || cmd == Jump || cmd == Status
  {
    EndsAsWrittenOf(DispatchedCommand(Strip(input.text)), cmd);
  }

  lemma EndsAsWrittenOf(d: Option<Command>, cmd: Command)
    requires d == Some(cmd)
    ensures EndsAsWritten(d) <==> cmd == Stop || cmd == Jump || cmd == Status
  {
  }

  /** As written, any `jump <i>` ends the console, where the evident intent is to request row `i` and go on. */
  lemma JumpEndsConsoleAsWritten(input: ConsoleInput, i: int)
    requires input.Line? && input.text == "jump " + IntToString(i)
    ensures EndsConsoleAsWritten(input) && !EndsConsole(input)
  {
    assert DispatchedCommand(Strip(input.text)) == Some(Jump) by {
      DispatchJump(i);
    }
    EndsOnlyAsWritten(input, Jump);
  }

  /** As written, `status` ends the console, where the evident intent is to report and go on. */
  lemma StatusEndsConsoleAsWritten(input: ConsoleInput)
    requires input.Line? && input.text == "status"
    ensures EndsConsoleAsWritten(input) && !EndsConsole(input)
  {
    StatusDispatched(input.text);
    EndsOnlyAsWritten(input, Status);
  }

  lemma StatusDispatched(line: string)
    requires line == "status"
    ensures DispatchedCommand(Strip(line)) == Some(Status)
  {
    StatusTrimmed(line);
    StatusWord(line);
    DispatchOneWord(line);
  }

  lemma StatusTrimmed(line: string)
    requires line == "status"
    ensures Strip(line) == line
  {
    StripTrimmed(line);
  }

  lemma StatusWord(line: string)
    requires line == "status"
    ensures IsWord(line) && NoUpper(line) && line in Registry && Registry[line].handler == Status
  {
    StatusHandler();
  }

  /** Whether a console input is a line that runs `stop`. */
  predicate StopsConsole(input: ConsoleInput) {
    input.Line? && DispatchedCommand(Strip(input.text)) == Some(Stop)
  }

  /** Whether a console input ends the interactive loop: end of input, an interrupt, or a line that runs `stop`. */
  predicate EndsConsole(input: ConsoleInput) {
    !input.Line? || DispatchedCommand(Strip(input.text)) == Some(Stop)
  }

  /** The position of the first true flag, plus one; or the length when there is none. */
  function FirstEnd(ends: seq<bool>): (n: nat)
    ensures n <= |ends|
    ensures forall i :: 0 <= i < n - 1 ==> !ends[i]
    ensures n < |ends| ==> n > 0 && ends[n - 1]
    ensures (forall i :: 0 <= i < |ends| ==> !ends[i]) ==> n == |ends|
  {
    if ends == [] then 0
    else if ends[0] then 1
    else 1 + FirstEnd(ends[1..])
  }

  /** The first true flag, at index `k`, makes the count `k + 1`. */
  lemma FirstEndAt(ends: seq<bool>, k: nat)
    requires k < |ends| && ends[k] && forall i :: 0 <= i < k ==> !ends[i]
    ensures FirstEnd(ends) == k + 1
  {
  }

  /** No flag before position `k` is true. */
  predicate NoneBefore(ends: seq<bool>, k: nat)
    requires k <= |ends|
  {
    forall i :: 0 <= i < k ==> !ends[i]
  }

  lemma NoneBeforeStep(ends: seq<bool>, k: nat)
    requires k < |ends| && NoneBefore(ends, k) && !ends[k]
    ensures NoneBefore(ends, k + 1)
  {
  }

  /** With no true flag the count is the length. */
  lemma FirstEndNone(ends: seq<bool>)
    requires forall i :: 0 <= i < |ends| ==> !ends[i]
    ensures FirstEnd(ends) == |ends|
  {
  }

  /** Which console inputs would end the interactive loop. */
  function ConsoleEnds(inputs: seq<ConsoleInput>): (ends: seq<bool>)
    ensures |ends| == |inputs|
    ensures forall i :: 0 <= i < |inputs| ==> ends[i] == EndsConsole(inputs[i])
  {
    seq(|inputs|, i requires 0 <= i < |inputs| => EndsConsole(inputs[i]))
  }

  /** Where the output loop stands: its phase, the row index and the pending jump. */
  datatype Cursor = Cursor(phase: Phase, row: int, skipped: Option<int>)

  /** What one step of the output loop does. */
  datatype Move = Exit | Take | Poll | Emit(row: int)

  /**
   * One step of the output loop, given the pause and stop flags as it
   * reads them. At the top, past the last row it exits; otherwise it
   * takes the pending jump, if there is one, and moves to that row. At
   * the row, a stop exits, a pause polls and stays, and otherwise the row
   * is emitted and the loop returns to the top one row further on.
   */
  function Advance(c: Cursor, paused: bool, stop: bool, rows: nat): (r: (Cursor, Move))
    requires c.phase.AtTop? || c.phase.AtRow?
    ensures r.1.Exit? <==> r.0.phase.Finished?
    ensures r.1.Emit? ==> r.1.row == c.row && r.0.row == c.row + 1
  {
    if c.phase.AtTop? then
      if c.row >= rows then (c.(phase := Finished), Exit)
      else (Cursor(AtRow, if c.skipped.Some? then c.skipped.value else c.row, None), Take)
    else if stop then (c.(phase := Finished), Exit)
    else if paused then (c, Poll)
    else (Cursor(AtTop, c.row + 1, c.skipped), Emit(c.row))
  }

  /**
   * The bounds the loop keeps: the row index within the dataset, at a row
   * strictly inside it, and a pending jump inside it (or the initial 0).
   */
  predicate InRange(c: Cursor, rows: nat) {
    && 0 <= c.row <= rows
    && (c.skipped.Some? ==> 0 <= c.skipped.value && (c.skipped.value < rows || c.skipped.value == 0))
    && (c.phase.AtRow? ==> c.row < rows)
  }

  /** Every step keeps the bounds, and a row it emits is a row of the dataset. */
  lemma AdvanceInRange(c: Cursor, paused: bool, stop: bool, rows: nat)
    requires (c.phase.AtTop? || c.phase.AtRow?) && InRange(c, rows)
    ensures InRange(Advance(c, paused, stop, rows).0, rows)
    ensures Advance(c, paused, stop, rows).1.Emit? ==> 0 <= Advance(c, paused, stop, rows).1.row < rows
  {
  }

  /** The loop exits exactly on reaching `Finished`, and only at the top past the end or at a row on a stop. */
  lemma AdvanceExits(c: Cursor, paused: bool, stop: bool, rows: nat)
    requires c.phase.AtTop? || c.phase.AtRow?
    ensures var (next, move) := Advance(c, paused, stop, rows);
      (move.Exit? <==> next.phase.Finished?)
      && (move.Exit? <==> (c.phase.AtTop? && c.row >= rows) || (c.phase.AtRow? && stop))
  {
  }

  /** A stop is honoured within two steps, whatever the pause flag does meanwhile. */
  lemma StopHonoured(c: Cursor, paused1: bool, paused2: bool, rows: nat)
    requires c.phase.AtTop? || c.phase.AtRow?
    ensures var (next, move) := Advance(c, paused1, true, rows);
      move.Exit? || (next.phase.AtRow? && Advance(next, paused2, true, rows).1.Exit?)
  {
  }

  /** While paused and not stopped, the loop stays at its row and emits nothing. */
  lemma PauseHolds(c: Cursor, rows: nat)
    requires c.phase.AtRow?
    ensures Advance(c, true, false, rows) == (c, Poll)
  {
  }

  /** A pending jump is taken at the next top of the loop, unless the loop has run past the end. */
  lemma JumpTaken(c: Cursor, paused: bool, stop: bool, rows: nat)
    requires c.phase.AtTop? && c.skipped.Some? && c.row < rows
    ensures Advance(c, paused, stop, rows) == (Cursor(AtRow, c.skipped.value, None), Take)
  {
  }

  /** `n` steps with neither pause nor stop: where the loop ends up, and the rows it emits in order. */
  function Replay(c: Cursor, rows: nat, n: nat): (Cursor, seq<int>)
    requires c.phase != NotStarted
    decreases n
  {
    if n == 0 || c.phase.Finished? then (c, [])
    else
      var (next, move) := Advance(c, false, false, rows);
      var (last, emitted) := Replay(next, rows, n - 1);
      (last, (if move.Emit? then [move.row] else []) + emitted)
  }

  /** The rows `lo, lo + 1, ..., hi - 1`. */
  function Range(lo: int, hi: int): (r: seq<int>)
    ensures |r| == if lo <= hi then hi - lo else 0
    ensures forall i :: 0 <= i < |r| ==> r[i] == lo + i
  {
    if lo >= hi then [] else seq(hi - lo, i => lo + i)
  }

  /**
   * Left alone from the top of row `r` with no pending jump, the loop
   * emits every remaining row once, in order, and finishes after
   * `2 * (rows - r) + 1` steps.
   */
  lemma {:induction false} ReplayEmitsRemainingRows(r: int, rows: nat)
    requires 0 <= r <= rows
    ensures Replay(Cursor(AtTop, r, None), rows, 2 * (rows - r) + 1) == (Cursor(Finished, rows, None), Range(r, rows))
    decreases rows - r
  {
    if r == rows {
      ReplayPastEnd(rows);
    } else {
      var n := 2 * (rows - r) + 1;
      ReplayEmitsRemainingRows(r + 1, rows);
      ReplayRow(r, rows, n - 1);
      ReplayTop(Cursor(AtTop, r, None), r, rows, n);
      RangeCons(r, rows);
    }
  }

  lemma ReplayPastEnd(rows: nat)
    ensures Replay(Cursor(AtTop, rows, None), rows, 1) == (Cursor(Finished, rows, None), [])
  {
    assert Advance(Cursor(AtTop, rows, None), false, false, rows) == (Cursor(Finished, rows, None), Exit);
    assert Replay(Cursor(Finished, rows, None), rows, 0) == (Cursor(Finished, rows, None), []);
    var none: seq<int> := [];
    assert none + none == none;
  }

  /** From the top, with the row `j` to take (the pending jump or the current row), one step reaches that row and emits nothing. */
  lemma ReplayTop(c: Cursor, j: int, rows: nat, n: nat)
    requires c.phase.AtTop? && 0 <= c.row < rows && n >= 1
    requires j == if c.skipped.Some? then c.skipped.value else c.row
    ensures Replay(c, rows, n) == Replay(Cursor(AtRow, j, None), rows, n - 1)
  {
    var c1 := Cursor(AtRow, j, None);
    assert Advance(c, false, false, rows) == (c1, Take);
    assert [] + Replay(c1, rows, n - 1).1 == Replay(c1, rows, n - 1).1;
  }

  /** At row `r`, one step emits `r` and moves to the top of the next row. */
  lemma ReplayRow(r: int, rows: nat, n: nat)
    requires 0 <= r < rows && n >= 1
    ensures var rest := Replay(Cursor(AtTop, r + 1, None), rows, n - 1);
      Replay(Cursor(AtRow, r, None), rows, n) == (rest.0, [r] + rest.1)
  {
    assert Advance(Cursor(AtRow, r, None), false, false, rows) == (Cursor(AtTop, r + 1, None), Emit(r));
  }

  lemma RangeCons(r: int, rows: nat)
    requires r < rows
    ensures [r] + Range(r + 1, rows) == Range(r, rows)
  {
  }

  /** A pending jump to row `j` replays from `j` to the end, whatever row the loop was at. */
  lemma ReplayAfterJump(r: int, j: int, rows: nat)
    requires 0 <= r < rows && 0 <= j < rows
    ensures Replay(Cursor(AtTop, r, Some(j)), rows, 2 * (rows - j) + 1) == (Cursor(Finished, rows, None), Range(j, rows))
  {
    var n := 2 * (rows - j) + 1;
    ReplayEmitsRemainingRows(j + 1, rows);
    ReplayRow(j, rows, n - 1);
    ReplayTop(Cursor(AtTop, r, Some(j)), j, rows, n);
    RangeCons(j, rows);
  }

  /** Every registered name has an entry, and nothing else does. */
  lemma RegistryKeys()
    ensures Registry.Keys == set k | k in RegisteredNames
    ensures CI.Distinct(RegisteredNames)
  {
  }

  /** Every entry of `m` is the one `entries` holds under its name. */
  ghost predicate Within<H>(m: map<string, CI.Entry<H>>, entries: map<string, CI.Entry<H>>) {
    forall k :: k in m ==> k in entries && m[k] == entries[k]
  }

  /**
   * `_register_commands`: the eight commands, in order, into an empty table,
   * each with its handler and help text.
   */
  method RegisterCommands(table: CI.CommandInterface<Command>)
    requires table.Valid() && table.names == [] && table.commands == map[]
    modifies table
    ensures table.Valid() && table.names == RegisteredNames && table.commands == Registry
  {
    RegistryKeys();
    RegisterEach(table, RegisteredNames, Registry);
  }

  /** Registers `names` in order, each with its entry from `entries`, into an empty table. */
  method RegisterEach<H>(table: CI.CommandInterface<H>, names: seq<string>, entries: map<string, CI.Entry<H>>)
    requires table.Valid() && table.names == [] && table.commands == map[]
    requires CI.Distinct(names) && entries.Keys == set k | k in names
    modifies table
    ensures table.Valid() && table.names == names && table.commands == entries
  {
    for i := 0 to |names|
      invariant table.Valid() && table.names == names[..i]
      invariant Within(table.commands, entries)
    {
      var name := names[i];
      assert name !in names[..i];
      assert names[..i + 1] == names[..i] + [name];
      table.RegisterCommand(name, entries[name].handler, entries[name].help);
    }
    assert names[..|names|] == names;
    assert table.commands.Keys == entries.Keys;
  }

  class Controller {
    var config: Config
    const ntToVolt: real
    const deviceName: string
    /** The replayed rows, loaded once before anything runs. */
    const dataset: seq<Sample>
    const state: ControlState
    const log: LogBuffer<LogEntry>
    const commands: CI.CommandInterface<Command>
    /** The configuration file on disk. */
    var configFile: StoredConfig
    /** The device wrapper of the output loop, once it has started. */
    var daq: Daq?
    var phase: Phase
    /** Rows emitted since the output loop started, for the flush cadence. */
    var rowsProcessed: nat

    /**
     * The invariant both threads keep: the row index and any pending jump
     * lie in the dataset; `task_active` holds exactly while the output loop is
     * running, and while it runs the output task is open; once it has
     * finished the output task is closed.
     */
    ghost predicate Valid()
      reads this, state, log, commands, daq
    {
      && log.Valid() && log.flushInterval != 0
      && InRange(Position(), |dataset|)
      && (state.taskActive <==> phase.AtTop? || phase.AtRow?)
      && (phase.NotStarted? <==> daq == null)
      && (daq != null ==> (daq.aoTask <==> phase.AtTop? || phase.AtRow?))
      && (daq != null ==> daq.channels == Channels(deviceName))
    }

    /** The command table is the one registered at start-up; nothing changes it afterwards. */
    ghost predicate Registered()
      reads commands
    {
      commands.Valid() && commands.names == RegisteredNames && commands.commands == Registry
    }

    /** Start-up: the state, the log buffer and the command table, before either thread runs. */
    constructor (config: Config, dataset: seq<Sample>, ghost existingLog: CsvFile<LogEntry>, file: StoredConfig)
      requires WellTyped(config) && config.csvLog.Str? && config.logFlushInterval.i != 0
      requires Consistent(existingLog)
      ensures Valid() && Registered()
      ensures this.config == config && this.dataset == dataset
      ensures ntToVolt == AsReal(config.ntToVolt) && deviceName == config.deviceName.s
      ensures state.interval == AsReal(config.interval) && state.voltageLimit == MaxVoltage
      ensures !state.paused && !state.stop && state.currentRow == 0 && state.skippedRow == Some(0)
      ensures log.entries == [] && log.history == [] && log.file == existingLog
      ensures log.flushInterval == config.logFlushInterval.i
      ensures phase == NotStarted && configFile == file
    {
      this.config := config;
      this.ntToVolt := AsReal(config.ntToVolt);
      this.deviceName := config.deviceName.s;
      this.dataset := dataset;
      this.state := new ControlState(AsReal(config.interval), MaxVoltage);
      this.log := new LogBuffer(config.csvLog.s, existingLog, config.logFlushInterval.i);
      var table := new CI.CommandInterface<Command>();
      RegisterCommands(table);
      this.commands := table;
      this.configFile := file;
      this.daq := null;
      this.phase := NotStarted;
      this.rowsProcessed := 0;
    }

    /** The output loop's position as the shared state records it. */
    function Position(): Cursor
      reads this, state
    {
      Cursor(phase, state.currentRow, state.skippedRow)
    }

    /** `_cmd_pause`: the output loop holds at its next row; the console goes on. */
    method CmdPause() returns (cont: bool)
      requires Valid()
      modifies state`paused
      ensures Valid() && state.paused && cont
    {
      state.SetPaused(true);
      cont := true;
    }

    /** `_cmd_resume`: the output loop may emit again; the console goes on. */
    method CmdResume() returns (cont: bool)
      requires Valid()
      modifies state`paused
      ensures Valid() && !state.paused && cont
    {
      state.SetPaused(false);
      cont := true;
    }

    /**
     * `_cmd_set_interval`: a line of exactly three words whose third is a
     * positive number sets the interval; a wrong word count, a malformed
     * number or a value that is not positive leaves it unchanged.
     */
    method CmdSetInterval(line: string) returns (cont: bool)
      requires Valid()
      modifies state`interval
      ensures Valid() && cont
      ensures state.interval == IntervalAfter(old(state.interval), line)
    {
      var parts := Tokens(line);
      if |parts| == 3 {
        var value := ParseReal(parts[2]);
        if value.Some? && value.value > 0.0 {
          state.SetInterval(value.value);
        }
      }
      cont := true;
    }

    /** `_cmd_status`: the flags and settings, and how far through the dataset the output is, as a percentage. */
    method CmdStatus() returns (report: StatusReport, cont: bool)
      requires Valid()
      ensures cont
      ensures report.paused == state.paused && report.currentRow == state.currentRow
      ensures report.totalRows == |dataset| && report.bufferedEntries == log.EntryCount()
      ensures report.interval == state.interval && report.voltageLimit == state.voltageLimit
      ensures 0.0 <= report.progress <= 100.0
      ensures |dataset| > 0 ==> report.progress * (|dataset| as real) == (state.currentRow as real) * 100.0
      ensures |dataset| == 0 ==> report.progress == 0.0
    {
      var current := state.currentRow;
      var total := |dataset|;
      var progress := 0.0;
      if total > 0 {
        progress := (current as real / total as real) * 100.0;
        assert current as real / total as real <= 1.0;
      }
      report := StatusReport(state.paused, current, total, progress, state.interval, state.voltageLimit, log.EntryCount());
      cont := true;
    }

    /**
     * `save_config`: the configuration, with the live interval in place of
     * the configured one, replaces the configuration file. The result is
     * true exactly when the write completes; a file that could not be
     * opened is left as it was, and a write that fails after the open
     * leaves it unreadable.
     */
    method SaveConfig(w: WriteOutcome) returns (ok: bool)
      requires Valid()
      modifies this`configFile
      ensures Valid() && (ok <==> w == Written)
      ensures configFile == AfterWrite(old(configFile), SaveConfigData(config, state.interval), w)
    {
      ok := w == Written;
      match w
      case Written =>
        configFile := Stored(SaveConfigData(config, state.interval));
      case OpenFailed =>
      case DumpFailed =>
        configFile := Unreadable;
    }

    /** `safe_stop`: raise the stop flag, then write out whatever the log buffer holds. */
    method SafeStop(flushOk: bool)
      requires Valid()
      modifies state`stop, log`entries, log`file
      ensures Valid() && state.stop
      ensures old(log.entries) != [] && flushOk ==> log.entries == [] && log.file == Appended(old(log.file), old(log.entries))
      ensures !(old(log.entries) != [] && flushOk) ==> log.entries == old(log.entries) && log.file == old(log.file)
    {
      state.SetStop(true);
      var _ := log.Flush(flushOk);
    }

    /** `_cmd_stop`: stop safely, and end the console. */
    method CmdStop(flushOk: bool) returns (cont: bool)
      requires Valid()
      modifies state`stop, log`entries, log`file
      ensures Valid() && state.stop && !cont
      ensures old(log.entries) != [] && flushOk ==> log.entries == [] && log.file == Appended(old(log.file), old(log.entries))
      ensures !(old(log.entries) != [] && flushOk) ==> log.entries == old(log.entries) && log.file == old(log.file)
    {
      SafeStop(flushOk);
      cont := false;
    }

    /**
     * `_cmd_jump`: a line of exactly two words whose second is an integer
     * row inside the dataset becomes the pending jump; anything else
     * leaves the pending jump as it was.
     */
    method CmdJump(line: string) returns (cont: bool)
      requires Valid()
      modifies state`skippedRow
      ensures Valid() && cont
      ensures state.skippedRow == SkipAfter(old(state.skippedRow), line, |dataset|)
    {
      var parts := Tokens(line);
      if |parts| == 2 {
        var row := ParseInt(parts[1]);
        if row.Some? && 0 <= row.value < |dataset| {
          state.SetSkippedRow(Some(row.value));
        }
      }
      cont := true;
    }

    /** `show_help` on the registered table: the listing `HelpListing` gives; the console goes on. */
    method CmdHelp() returns (help: seq<string>, cont: bool)
      requires Registered()
      ensures help == HelpListing() && cont
    {
      help, cont := commands.ShowHelp();
      assert help == HelpListing();
    }

    /**
     * One registered handler run on `line`: what it changes, and whether
     * the console goes on afterwards. Besides the flags, `status` yields
     * its report and `help` its listing; `save config` and `stop` meet the
     * file outcomes in `io`.
     */
    method RunHandler(cmd: Command, line: string, io: CommandIo) returns (cont: bool, report: Option<StatusReport>, help: seq<string>)
      requires Valid() && Registered()
      modifies state`paused, state`interval, state`stop, state`skippedRow, log`entries, log`file, this`configFile
      ensures Valid()
      ensures cont <==> cmd != Stop
      ensures state.paused == (if cmd == Pause then true else if cmd == Resume then false else old(state.paused))
      ensures state.interval == (if cmd == SetInterval then IntervalAfter(old(state.interval), line) else old(state.interval))
      ensures state.skippedRow == (if cmd == Jump then SkipAfter(old(state.skippedRow), line, |dataset|) else old(state.skippedRow))
      ensures state.stop == (old(state.stop) || cmd == Stop)
      ensures configFile == (if cmd == Command.SaveConfig then AfterWrite(old(configFile), SaveConfigData(config, state.interval), io.save) else old(configFile))
      ensures report.Some? <==> cmd == Status
      ensures help == (if cmd == Help then HelpListing() else [])
      ensures var flushed := cmd == Stop && old(log.entries) != [] && io.flushOk;
        && (flushed ==> log.entries == [] && log.file == Appended(old(log.file), old(log.entries)))
        && (!flushed ==> log.entries == old(log.entries) && log.file == old(log.file))
    {
      report, help := None, [];
      match cmd
      case Pause => cont := CmdPause();
      case Resume => cont := CmdResume();
      case SetInterval => cont := CmdSetInterval(line);
      case Status =>
        var r;
        r, cont := CmdStatus();
        report := Some(r);
      case SaveConfig =>
        var _ := SaveConfig(io.save);
        cont := true;
      case Stop => cont := CmdStop(io.flushOk);
      case Help => help, cont := CmdHelp();
      case Jump => cont := CmdJump(line);
    }

    /**
     * `process_command` with the handlers registered at start-up: the
     * handler the line dispatches to runs with the line as its argument,
     * and its result says whether the console goes on. A blank line or an
     * unknown command changes nothing and the console goes on.
     */
    method ProcessCommand(line: string, io: CommandIo) returns (cont: bool, report: Option<StatusReport>, help: seq<string>)
      requires Valid() && Registered()
      modifies state`paused, state`interval, state`stop, state`skippedRow, log`entries, log`file, this`configFile
      ensures Valid()
      ensures var cmd := DispatchedCommand(line);
        && (cont <==> cmd != Some(Stop))
        && state.paused == (if cmd == Some(Pause) then true else if cmd == Some(Resume) then false else old(state.paused))
        && state.interval == (if cmd == Some(SetInterval) then IntervalAfter(old(state.interval), line) else old(state.interval))
        && state.skippedRow == (if cmd == Some(Jump) then SkipAfter(old(state.skippedRow), line, |dataset|) else old(state.skippedRow))
        && state.stop == (old(state.stop) || cmd == Some(Stop))
        && configFile == (if cmd == Some(Command.SaveConfig) then AfterWrite(old(configFile), SaveConfigData(config, state.interval), io.save) else old(configFile))
        && (report.Some? <==> cmd == Some(Status))
        && help == (if cmd == Some(Help) then HelpListing() else [])
      ensures var flushed := DispatchedCommand(line) == Some(Stop) && old(log.entries) != [] && io.flushOk;
        && (flushed ==> log.entries == [] && log.file == Appended(old(log.file), old(log.entries)))
        && (!flushed ==> log.entries == old(log.entries) && log.file == old(log.file))
    {
      var name := commands.FindCommand(line);
      if name.None? {
        assert DispatchedCommand(line) == None;
        return true, None, [];
      }
      var cmd := commands.commands[name.value].handler;
      assert DispatchedCommand(line) == Some(cmd);
      cont, report, help := RunHandler(cmd, line, io);
    }

    /**
     * `start_interactive_loop`: each input line is stripped and processed
     * until a command ends the console, input ends or an interrupt
     * arrives. Returns how many inputs were consumed; the stop flag is
     * raised only if the console ended on `stop`.
     */
    method RunConsole(inputs: seq<ConsoleInput>) returns (consumed: nat)
      requires Valid() && Registered()
      modifies state`paused, state`interval, state`stop, state`skippedRow, log`entries, log`file, this`configFile
      ensures Valid()
      ensures consumed == FirstEnd(ConsoleEnds(inputs))
      ensures state.stop <==> old(state.stop) || (0 < consumed && StopsConsole(inputs[consumed - 1]))
    {
      ghost var ends := ConsoleEnds(inputs);
      consumed := 0;
      while consumed < |inputs|
        invariant consumed <= |inputs|
        invariant Valid()
        invariant NoneBefore(ends, consumed)
        invariant state.stop == old(state.stop)
        invariant 0 < consumed ==> !StopsConsole(inputs[consumed - 1])
      {
        var last := ConsoleStep(inputs[consumed]);
        assert ends[consumed] == last;
        if last {
          FirstEndAt(ends, consumed);
          return consumed + 1;
        }
        NoneBeforeStep(ends, consumed);
        consumed := consumed + 1;
      }
      FirstEndNone(ends);
    }

    /** One pass of the interactive loop: an interrupt or the end of input ends it; a line is stripped and processed. */
    method ConsoleStep(input: ConsoleInput) returns (ends: bool)
      requires Valid() && Registered()
      modifies state`paused, state`interval, state`stop, state`skippedRow, log`entries, log`file, this`configFile
      ensures Valid()
      ensures ends <==> EndsConsole(input)
      ensures state.stop <==> old(state.stop) || StopsConsole(input)
      ensures !ends ==> !StopsConsole(input) && state.stop == old(state.stop)
    {
      if !input.Line? {
        return true;
      }
      var cont, _, _ := ProcessCommand(Strip(input.text), input.io);
      ends := !cont;
    }

    /**
     * The clean-up at the end of `run`: stop safely, then flush once more.
     * Once the stop flag is up the output loop adds no entry, so the
     * second flush writes what a failed first one left behind.
     */
    method Shutdown(firstFlushOk: bool, finalFlushOk: bool)
      requires Valid()
      modifies state`stop, log`entries, log`file
      ensures Valid() && state.stop
      ensures var flushed := old(log.entries) != [] && (firstFlushOk || finalFlushOk);
        && (flushed ==> log.entries == [] && log.file == Appended(old(log.file), old(log.entries)))
        && (!flushed ==> log.entries == old(log.entries) && log.file == old(log.file))
    {
      SafeStop(firstFlushOk);
      var _ := log.Flush(finalFlushOk);
    }

    /**
     * The start of `output_loop`: open the device with the four output
     * channels. Without an output task the loop ends at once, and closing
     * finds nothing to zero; otherwise `task_active` is raised and the loop
     * stands at the top of row 0. An output task created before a later
     * initialisation step failed still counts as open.
     */
    method OutputStart(devices: set<string>, fault: InitFault)
      requires Valid() && phase.NotStarted?
      modifies this`daq, this`phase, this`rowsProcessed, state`taskActive, state`currentRow
      ensures Valid() && daq != null && fresh(daq)
      ensures daq.trace == []
      ensures daq.aoTask <==> deviceName in devices && TasksCreated(fault) >= 1
      ensures phase == if daq.aoTask then AtTop else Finished
      ensures daq.aoTask ==> state.taskActive && state.currentRow == 0 && rowsProcessed == 0
      ensures !daq.aoTask ==> !state.taskActive && state.currentRow == old(state.currentRow)
    {
      var d := new Daq(deviceName, Channels(deviceName));
      var _ := d.Initialize(devices, fault);
      daq := d;
      if !d.aoTask {
        phase := Finished;
        return;
      }
      state.SetTaskActive(true);
      state.SetCurrentRow(0);
      rowsProcessed := 0;
      phase := AtTop;
    }

    /** The end of `output_loop`: lower `task_active`, then leave the device block, which zeroes and closes the output task. */
    method Finish(tick: Tick)
      requires Valid() && (phase.AtTop? || phase.AtRow?)
      modifies this`phase, state`taskActive, daq`aoTask, daq`trace
      ensures Valid() && phase == Finished && !state.taskActive
      ensures daq.trace == old(daq.trace) + [AoWrite(ZeroVector(Channels(deviceName)), tick.zeroWriteOk), AoClose(tick.closeOk)]
    {
      state.SetTaskActive(false);
      daq.Close(tick.zeroWriteOk, tick.closeOk);
      phase := Finished;
    }

    /**
     * The body of the output loop for the current row: clamp each axis to
     * the voltage limit, write half of each with 5 V on the fourth
     * channel, log the row with the unhalved voltages and the write's
     * outcome, move to the next row, and flush the log when the row
     * counter reaches the cadence. Returns the wait before the next row.
     */
    method Emit(tick: Tick) returns (index: int, wait: real)
      requires Valid() && phase.AtRow?
      modifies this`phase, this`rowsProcessed, state`currentRow, log`entries, log`history, log`file, daq`trace
      ensures Valid() && phase == AtTop
      ensures index == old(state.currentRow) && 0 <= index < |dataset|
      ensures state.currentRow == index + 1 && wait == WaitTime(state.interval, tick.elapsed)
      ensures rowsProcessed == old(rowsProcessed) + 1
      ensures daq.trace == old(daq.trace) + [AoWrite(VectorFor(dataset[index], ntToVolt, state.voltageLimit), tick.writeOk)]
      ensures var entry := EntryFor(index, dataset[index], ntToVolt, state.voltageLimit, tick);
        && log.history == old(log.history) + [entry]
        && (ShouldFlush(rowsProcessed, log.flushInterval) && tick.flushOk ==>
              log.entries == [] && log.file == Appended(old(log.file), old(log.entries) + [entry]))
        && (!(ShouldFlush(rowsProcessed, log.flushInterval) && tick.flushOk) ==>
              log.entries == old(log.entries) + [entry] && log.file == old(log.file))
    {
      index := state.currentRow;
      var row := dataset[index];
      var limit := state.voltageLimit;
      var vx := AxisVoltage(row.fieldX, ntToVolt, limit);
      var vy := AxisVoltage(row.fieldY, ntToVolt, limit);
      var vz := AxisVoltage(row.fieldZ, ntToVolt, limit);
      var ok := daq.WriteVoltages(OutputVector(vx, vy, vz), tick.writeOk);
      log.AddEntry(LogEntry(index, tick.utcTime, tick.localTime, row.fieldX, row.fieldY, row.fieldZ, vx, vy, vz, ok));
      state.SetCurrentRow(index + 1);
      rowsProcessed := rowsProcessed + 1;
      if ShouldFlush(rowsProcessed, log.flushInterval) {
        var _ := log.Flush(tick.flushOk);
      }
      wait := WaitTime(state.interval, tick.elapsed);
      phase := AtTop;
    }

    /** Moving from the top of the loop to its row: a pending jump, if any, becomes the row and is cleared. */
    method TakeRow()
      requires Valid() && phase.AtTop? && state.currentRow < |dataset|
      modifies this`phase, state`currentRow, state`skippedRow
      ensures Valid()
      ensures (Position(), Take) == Advance(old(Position()), state.paused, state.stop, |dataset|)
    {
      if state.skippedRow.Some? {
        state.SetCurrentRow(state.skippedRow.value);
        state.SetSkippedRow(None);
      }
      phase := AtRow;
    }

    /**
     * One step of `output_loop`, as `Advance` describes it: the new
     * position is the one `Advance` gives for the flags as they stood;
     * leaving the loop closes the device, emitting a row writes and logs
     * it, and taking a row or polling touches neither the device nor the
     * log.
     */
    method OutputStep(tick: Tick) returns (outcome: StepOutcome)
      requires Valid() && (phase.AtTop? || phase.AtRow?)
      modifies this`phase, this`rowsProcessed, state`currentRow, state`skippedRow, state`taskActive
      modifies log`entries, log`history, log`file, daq`aoTask, daq`trace
      ensures Valid()
      ensures var (next, move) := Advance(old(Position()), old(state.paused), old(state.stop), |dataset|);
        && Position() == next
        && outcome == match move
             case Exit => Exited
             case Take => Advanced
             case Poll => Polled
             case Emit(r) => Emitted(r, WaitTime(state.interval, tick.elapsed))
      ensures state.taskActive <==> !outcome.Exited?
      ensures outcome.Exited? ==>
        && daq.trace == old(daq.trace) + [AoWrite(ZeroVector(Channels(deviceName)), tick.zeroWriteOk), AoClose(tick.closeOk)]
        && log.entries == old(log.entries) && log.file == old(log.file) && log.history == old(log.history)
        && rowsProcessed == old(rowsProcessed)
      ensures outcome.Advanced? || outcome.Polled? ==>
        && daq.trace == old(daq.trace)
        && log.entries == old(log.entries) && log.file == old(log.file) && log.history == old(log.history)
        && rowsProcessed == old(rowsProcessed)
      ensures outcome.Emitted? ==>
        && 0 <= outcome.index < |dataset|
        && rowsProcessed == old(rowsProcessed) + 1
        && daq.trace == old(daq.trace) + [AoWrite(VectorFor(dataset[outcome.index], ntToVolt, state.voltageLimit), tick.writeOk)]
        && var entry := EntryFor(outcome.index, dataset[outcome.index], ntToVolt, state.voltageLimit, tick);
          && log.history == old(log.history) + [entry]
          && (ShouldFlush(rowsProcessed, log.flushInterval) && tick.flushOk ==>
                log.entries == [] && log.file == Appended(old(log.file), old(log.entries) + [entry]))
          && (!(ShouldFlush(rowsProcessed, log.flushInterval) && tick.flushOk) ==>
                log.entries == old(log.entries) + [entry] && log.file == old(log.file))
    {
      if phase.AtTop? {
        if state.currentRow >= |dataset| {
          Finish(tick);
          return Exited;
        }
        TakeRow();
        return Advanced;
      }
      if state.stop {
        Finish(tick);
        return Exited;
      }
      if state.paused {
        return Polled;
      }
      var index, wait := Emit(tick);
      outcome := Emitted(index, wait);
    }
  }
}
