/**
 * The earlier single-file controller: a shared state record, a console
 * loop that updates it through a chain of exact and prefix command
 * checks, a prefix completer over a fixed command list, and an output
 * loop that writes the clamped field of each row to three channels and
 * logs it.
 *
 * As in the newer controller, the two threads are interleaved atomic
 * steps on one `Session`. The sleeps are abstract: the pause wait is a
 * step that polls, and the wait after a row is the number of 0.1 s
 * slices `WaitSlices` gives.
 */
module RealTimeController {
  import opened Wrappers
  import opened Text
  import opened Dataset
  import CI = CommandInterface

  /** One volt per 10000 nT. */
  const NtToVolt: real := 1.0 / 10000.0
  const DefaultInterval: real := 60.0
  const DefaultVoltageLimit: real := 10.0

  /** The names the completer offers, in order. */
  const Commands: seq<string> := ["pause", "resume", "set interval", "set voltage limit", "status", "help", "stop"]

  /** The shared state dictionary. */
  datatype SharedState = SharedState(paused: bool, interval: real, voltageLimit: real, stop: bool)

  const InitialState: SharedState := SharedState(false, DefaultInterval, DefaultVoltageLimit, false)

  /** One log record: the write time and the field and voltages of the row. */
  datatype LogEntry = LogEntry(time: string, bxNt: real, byNt: real, bzNt: real, vx: real, vy: real, vz: real)

  datatype ConsoleInput = Line(text: string) | Eof | Interrupt

  /**
   * `set interval` and `set voltage limit` read the last of exactly
   * `count` words as a number; any other word count or a malformed number
   * is the error the handler catches.
   */
  function LastNumber(cmd: string, count: nat): Option<real>
    requires count > 0
  {
    var parts := Tokens(cmd);
    if |parts| != count then None else ParseReal(parts[count - 1])
  }

  /**
   * The state after one stripped console line, following the chain of
   * checks: exact `pause` and `resume`; lines starting with `set interval`
   * (three words, the value stored with no range check); lines starting
   * with `set voltage limit` (four words, likewise); exact `stop`. A
   * malformed setting and every other line leave the state alone.
   */
  function Apply(s: SharedState, cmd: string): (r: SharedState)
    ensures r.stop <==> s.stop || cmd == "stop"
    ensures r.paused <==> cmd == "pause" || (s.paused && cmd != "resume")
  {
    if cmd == "pause" then s.(paused := true)
    else if cmd == "resume" then s.(paused := false)
    else if "set interval" <= cmd then
      match LastNumber(cmd, 3)
      case Some(v) => s.(interval := v)
      case None => s
    else if "set voltage limit" <= cmd then
      match LastNumber(cmd, 4)
      case Some(v) => s.(voltageLimit := v)
      case None => s
    else if cmd == "stop" then s.(stop := true)
    else s
  }

  /** A command changes at most the field it names: pause and resume the flag, the settings their value, stop the stop flag. */
  lemma ApplyFrame(s: SharedState, cmd: string)
    ensures var r := Apply(s, cmd);
      && (r.paused != s.paused ==> cmd == "pause" || cmd == "resume")
      && (r.interval != s.interval ==> "set interval" <= cmd && LastNumber(cmd, 3) == Some(r.interval))
      && (r.voltageLimit != s.voltageLimit ==> "set voltage limit" <= cmd && LastNumber(cmd, 4) == Some(r.voltageLimit))
      && (r.stop <==> s.stop || cmd == "stop")
  {
  }

  /** `pause` sets the flag and `resume` clears it, and neither touches anything else. */
  lemma PauseResume(s: SharedState)
    ensures Apply(s, "pause") == s.(paused := true)
    ensures Apply(s, "resume") == s.(paused := false)
  {
  }

  /** A line that is no command and starts with neither setting leaves the state as it was. */
  lemma UnknownUnchanged(s: SharedState, cmd: string)
    requires cmd != "pause" && cmd != "resume" && cmd != "stop"
    requires !("set interval" <= cmd) && !("set voltage limit" <= cmd)
    ensures Apply(s, cmd) == s
  {
  }

  /** The words of `set interval <i>`. */
  lemma TokensOfSetIntervalTo(i: int)
    ensures Tokens("set interval " + IntToString(i)) == ["set", "interval", IntToString(i)]
  {
    IntToStringIsWord(i);
    TokensOfTriple("set", "interval", IntToString(i));
    assert "set" + " " + "interval" + " " + IntToString(i) == "set interval " + IntToString(i);
  }

  /**
   * Unlike the newer controller, `set interval <i>` stores any whole
   * number, zero and negative ones included.
   */
  lemma SetIntervalUnchecked(s: SharedState, i: int)
    ensures Apply(s, "set interval " + IntToString(i)) == s.(interval := i as real)
  {
    var cmd := "set interval " + IntToString(i);
    assert "set interval" <= cmd by {
      assert cmd == "set interval" + (" " + IntToString(i));
    }
    SetIntervalNumber(i);
    ApplyStoresInterval(s, cmd, i as real);
  }

  /** A line starting with `set interval` whose third word reads as `v` stores `v`. */
  lemma ApplyStoresInterval(s: SharedState, cmd: string, v: real)
    requires "set interval" <= cmd && LastNumber(cmd, 3) == Some(v)
    ensures Apply(s, cmd) == s.(interval := v)
  {
    assert cmd[0] == 's' && |cmd| > 6;
  }

  /** A line starting with `set voltage limit` whose fourth word reads as `v` stores `v` as the limit. */
  lemma ApplyStoresLimit(s: SharedState, cmd: string, v: real)
    requires "set voltage limit" <= cmd && LastNumber(cmd, 4) == Some(v)
    ensures Apply(s, cmd) == s.(voltageLimit := v)
  {
    assert cmd[0] == 's' && cmd[4] == 'v' && |cmd| > 6;
  }

  /** The number `set interval <i>` carries is `i`. */
  lemma SetIntervalNumber(i: int)
    ensures LastNumber("set interval " + IntToString(i), 3) == Some(i as real)
  {
    TokensOfSetIntervalTo(i);
    ParseIntOfIntToString(i);
    ParseRealAgreesWithParseInt(IntToString(i));
  }

  lemma JoinSetVoltageLimit(v: string)
    ensures Join(["set", "voltage", "limit", v]) == "set voltage limit " + v
  {
    JoinCons("limit", [v]);
    assert ["voltage", "limit", v] == ["voltage"] + ["limit", v];
    JoinCons("voltage", ["limit", v]);
    assert ["set", "voltage", "limit", v] == ["set"] + ["voltage", "limit", v];
    JoinCons("set", ["voltage", "limit", v]);
  }

  /** The words of `set voltage limit <i>`. */
  lemma TokensOfSetVoltageLimitTo(i: int)
    ensures Tokens("set voltage limit " + IntToString(i)) == ["set", "voltage", "limit", IntToString(i)]
  {
    IntToStringIsWord(i);
    TokensOfJoin(["set", "voltage", "limit", IntToString(i)]);
    JoinSetVoltageLimit(IntToString(i));
  }

  /** `set voltage limit <i>` stores any whole number as the limit, a negative one included. */
  lemma SetVoltageLimitUnchecked(s: SharedState, i: int)
    ensures Apply(s, "set voltage limit " + IntToString(i)) == s.(voltageLimit := i as real)
  {
    var cmd := "set voltage limit " + IntToString(i);
    assert "set voltage limit" <= cmd by {
      assert cmd == "set voltage limit" + (" " + IntToString(i));
    }
    SetVoltageLimitNumber(i);
    ApplyStoresLimit(s, cmd, i as real);
  }

  /** The number `set voltage limit <i>` carries is `i`. */
  lemma SetVoltageLimitNumber(i: int)
    ensures LastNumber("set voltage limit " + IntToString(i), 4) == Some(i as real)
  {
    TokensOfSetVoltageLimitTo(i);
    ParseIntOfIntToString(i);
    ParseRealAgreesWithParseInt(IntToString(i));
  }

  /** With a negative limit every output is pinned at the limit's magnitude, whatever the field. */
  lemma NegativeLimitPins(field: real, limit: real)
    requires limit < 0.0
    ensures AxisVoltage(field, NtToVolt, limit) == -limit
  {
  }

  /**
   * The console run over `inputs` from state `s`, as `command_loop` runs
   * it with `step` handling one line: before each input the stop flag is
   * checked; end of input or an interrupt raises it and ends the loop; a
   * line is handed to `step`. Returns the final state and how many inputs
   * were read.
   */
  function RunLoop(step: (SharedState, string) -> SharedState, s: SharedState, inputs: seq<ConsoleInput>): (r: (SharedState, nat))
    ensures r.1 <= |inputs|
    ensures r.0.stop || r.1 == |inputs|
    ensures s.stop || inputs == [] ==> r == (s, 0)
    decreases |inputs|
  {
    if s.stop || inputs == [] then (s, 0)
    else match inputs[0]
      case Line(text) =>
        var rest := RunLoop(step, step(s, text), inputs[1..]);
        (rest.0, rest.1 + 1)
      case _ => (s.(stop := true), 1)
  }

  /** A console line is stripped and goes through the chain of checks. */
  function HandleLine(s: SharedState, line: string): SharedState {
    Apply(s, Strip(line))
  }

  /** The console of this controller. */
  function RunCommands(s: SharedState, inputs: seq<ConsoleInput>): (SharedState, nat) {
    RunLoop(HandleLine, s, inputs)
  }

  /** One line read from a running console: handle it, then run the rest. */
  lemma RunLoopLine(step: (SharedState, string) -> SharedState, s: SharedState, line: string, more: seq<ConsoleInput>, t: SharedState)
    requires !s.stop && t == step(s, line)
    ensures var rest := RunLoop(step, t, more);
      RunLoop(step, s, [Line(line)] + more) == (rest.0, rest.1 + 1)
  {
    var inputs := [Line(line)] + more;
    assert inputs[0] == Line(line) && inputs[1..] == more;
  }

  /** End of input or an interrupt read from a running console raises the stop flag and ends it. */
  lemma RunLoopClosed(step: (SharedState, string) -> SharedState, s: SharedState, input: ConsoleInput, more: seq<ConsoleInput>)
    requires !s.stop && !input.Line?
    ensures RunLoop(step, s, [input] + more) == (s.(stop := true), 1)
  {
    assert ([input] + more)[0] == input;
  }

  /** The run from `s0` over `inputs` is the run from `s` over what follows the first `k` inputs, plus those `k`. */
  ghost predicate RunsFrom(step: (SharedState, string) -> SharedState, s0: SharedState, inputs: seq<ConsoleInput>,
                           s: SharedState, k: nat)
    requires k <= |inputs|
  {
    var rest := RunLoop(step, s, inputs[k..]);
    RunLoop(step, s0, inputs) == (rest.0, rest.1 + k)
  }

  /** Handling one more line from a running console keeps `RunsFrom`. */
  lemma RunsFromLine(step: (SharedState, string) -> SharedState, s0: SharedState, inputs: seq<ConsoleInput>,
                     s: SharedState, k: nat)
    requires k < |inputs| && inputs[k].Line? && !s.stop && RunsFrom(step, s0, inputs, s, k)
    ensures RunsFrom(step, s0, inputs, step(s, inputs[k].text), k + 1)
  {
    assert inputs[k..] == [inputs[k]] + inputs[k + 1..];
    RunLoopLine(step, s, inputs[k].text, inputs[k + 1..], step(s, inputs[k].text));
  }

  /** End of input or an interrupt read from a running console raises the stop flag, which ends the run. */
  lemma RunsFromClosed(step: (SharedState, string) -> SharedState, s0: SharedState, inputs: seq<ConsoleInput>,
                       s: SharedState, k: nat)
    requires k < |inputs| && !inputs[k].Line? && !s.stop && RunsFrom(step, s0, inputs, s, k)
    ensures RunsFrom(step, s0, inputs, s.(stop := true), k + 1)
  {
    assert inputs[k..] == [inputs[k]] + inputs[k + 1..];
    RunLoopClosed(step, s, inputs[k], inputs[k + 1..]);
  }

  /** Once the stop flag is up or the input is used up, the run is over: its result is the state and count reached. */
  lemma RunsFromDone(step: (SharedState, string) -> SharedState, s0: SharedState, inputs: seq<ConsoleInput>,
                     s: SharedState, k: nat)
    requires k <= |inputs| && RunsFrom(step, s0, inputs, s, k) && (s.stop || k == |inputs|)
    ensures RunLoop(step, s0, inputs) == (s, k)
  {
  }

  /** Whether an input ends the console: end of input, an interrupt, or a line `stops` accepts. */
  predicate EndsBy(stops: string -> bool, input: ConsoleInput) {
    !input.Line? || stops(input.text)
  }

  /**
   * When a running state is stopped by a line exactly when `stops`
   * accepts it, the console reads up to and including the first input
   * that ends it, and the stop flag is up afterwards exactly when there
   * was such an input.
   */
  lemma {:induction false} RunLoopEndsAtFirst(step: (SharedState, string) -> SharedState, stops: string -> bool,
                                               s: SharedState, inputs: seq<ConsoleInput>)
    requires !s.stop
    requires forall t: SharedState, line: string :: !t.stop ==> (step(t, line).stop <==> stops(line))
    ensures var r := RunLoop(step, s, inputs);
      && (forall i :: 0 <= i < r.1 - 1 ==> !EndsBy(stops, inputs[i]))
      && (r.0.stop ==> 1 <= r.1 && EndsBy(stops, inputs[r.1 - 1]))
      && (r.0.stop <==> exists i :: 0 <= i < |inputs| && EndsBy(stops, inputs[i]))
    decreases |inputs|
  {
    if inputs != [] && inputs[0].Line? {
      var t := step(s, inputs[0].text);
      if !t.stop {
        RunLoopEndsAtFirst(step, stops, t, inputs[1..]);
        assert inputs == [Line(inputs[0].text)] + inputs[1..];
        RunLoopLine(step, s, inputs[0].text, inputs[1..], t);
        ShiftEnds(inputs, input => EndsBy(stops, input), RunLoop(step, t, inputs[1..]).1);
      }
    }
  }

  /** The facts about the rest of a sequence, one index further on. */
  lemma ShiftEnds<T>(xs: seq<T>, ends: T -> bool, n: nat)
    requires xs != [] && !ends(xs[0]) && n <= |xs| - 1
    ensures (forall i :: 0 <= i < n - 1 ==> !ends(xs[1..][i])) ==> forall i :: 0 <= i < n ==> !ends(xs[i])
    ensures (1 <= n && ends(xs[1..][n - 1])) ==> ends(xs[n])
    ensures (exists i :: 0 <= i < |xs[1..]| && ends(xs[1..][i])) <==> exists i :: 0 <= i < |xs| && ends(xs[i])
  {
    assert forall i :: 1 <= i < |xs| ==> xs[i] == xs[1..][i - 1];
    if exists i :: 0 <= i < |xs| && ends(xs[i]) {
      var j :| 0 <= j < |xs| && ends(xs[j]);
      assert ends(xs[1..][j - 1]);
    }
  }

  /** A line that strips to `stop`. */
  predicate IsStop(line: string) {
    Strip(line) == "stop"
  }

  /**
   * This controller's console reads up to and including the first end of
   * input, interrupt or line that strips to `stop`, and the stop flag is up
   * afterwards exactly when there was one.
   */
  lemma RunCommandsEndsAtFirst(s: SharedState, inputs: seq<ConsoleInput>)
    requires !s.stop
    ensures var r := RunCommands(s, inputs);
      && (forall i :: 0 <= i < r.1 - 1 ==> !EndsBy(IsStop, inputs[i]))
      && (r.0.stop ==> 1 <= r.1 && EndsBy(IsStop, inputs[r.1 - 1]))
      && (r.0.stop <==> exists i :: 0 <= i < |inputs| && EndsBy(IsStop, inputs[i]))
  {
    forall t: SharedState, line: string | !t.stop
      ensures HandleLine(t, line).stop <==> IsStop(line)
    {
      ApplyFrame(t, Strip(line));
    }
    RunLoopEndsAtFirst(HandleLine, IsStop, s, inputs);
  }

  /** A line that strips to `stop`, the end of input or an interrupt ends the console right there. */
  lemma EndsOn(s: SharedState, input: ConsoleInput, rest: seq<ConsoleInput>)
    requires !s.stop
    requires !input.Line? || Strip(input.text) == "stop"
    ensures RunCommands(s, [input] + rest).0.stop && RunCommands(s, [input] + rest).1 == 1
  {
    assert ([input] + rest)[0] == input && ([input] + rest)[1..] == rest;
    if input.Line? {
      assert Apply(s, Strip(input.text)).stop;
    }
  }

  /** `completer`: the `state`-th command name that starts with `text`, or `None` past the last one. */
  function Complete(text: string, state: nat): (r: Option<string>)
    ensures r.Some? ==> r.value in Commands && text <= r.value
    ensures r.Some? <==> state < |CI.Matching(Commands, text)|
  {
    CI.Complete(Commands, text, state)
  }

  /** Of the command names, `set` starts exactly the two settings. */
  lemma MatchingSet()
    ensures CI.Matching(Commands, "set") == ["set interval", "set voltage limit"]
  {
    var head, settings, tail := ["pause", "resume"], ["set interval", "set voltage limit"], ["status", "help", "stop"];
    CommandsSplit(head, settings, tail);
    NotSetPrefixed(head);
    SetPrefixed(settings);
    NotSetPrefixed(tail);
    CI.MatchingAround(head, settings, tail, "set");
  }

  lemma CommandsSplit(head: seq<string>, settings: seq<string>, tail: seq<string>)
    requires head == ["pause", "resume"] && settings == ["set interval", "set voltage limit"]
    requires tail == ["status", "help", "stop"]
    ensures Commands == head + settings + tail
  {
  }

  lemma NotSetPrefixed(names: seq<string>)
    requires names == ["pause", "resume"] || names == ["status", "help", "stop"]
    ensures CI.Matching(names, "set") == []
  {
    assert "pause"[0] == 'p' && "resume"[1] == 'e' && "resume"[2] == 's';
    assert "status"[1] == 't' && "help"[0] == 'h' && "stop"[1] == 't';
    CI.MatchingNone(names, "set");
  }

  lemma SetPrefixed(settings: seq<string>)
    requires settings == ["set interval", "set voltage limit"]
    ensures CI.Matching(settings, "set") == settings
  {
    assert "set" <= "set interval" && "set" <= "set voltage limit";
    CI.MatchingAll(settings, "set");
  }

  /** Completing `set` offers the two settings, in the listed order, and nothing after them. */
  lemma CompleteSet()
    ensures Complete("set", 0) == Some("set interval")
    ensures Complete("set", 1) == Some("set voltage limit")
    ensures Complete("set", 2) == None
  {
    MatchingSet();
  }

  /** The wait after a row: `int(interval * 10)` slices of 0.1 s, none when that is not positive. */
  function WaitSlices(interval: real): (n: nat)
    ensures interval >= 0.0 ==> n as real <= interval * 10.0 < n as real + 1.0
    ensures interval * 10.0 < 1.0 ==> n == 0
  {
    if interval * 10.0 >= 0.0 then (interval * 10.0).Floor else 0
  }

  /** Where the output loop stands: at the top of row `row`, waiting out a pause before emitting `row`, or done. */
  datatype Position = At(row: int) | PausedAt(row: int) | Done

  /** What a step does: end the loop, wait out a pause, emit a row, or fail writing a row. */
  datatype Move = Finish | Poll | Emit(row: int) | Fail(row: int)

  /**
   * One step of the output loop for the flags as it reads them. At the
   * top: past the last row, or on a stop, the loop ends; on a pause it
   * waits; otherwise it emits. While waiting out a pause only the pause
   * flag is read, so a stop does not end the wait, and the row is emitted
   * once the pause is lifted.
   */
  function Advance(p: Position, paused: bool, stop: bool, rows: nat): (r: (Position, Move))
    requires !p.Done?
    ensures r.1.Finish? <==> r.0.Done?
    ensures r.1.Emit? ==> r.1.row == p.row && r.0 == At(p.row + 1)
  {
    match p
    case At(i) =>
      if i >= rows || stop then (Done, Finish)
      else if paused then (PausedAt(i), Poll)
      else (At(i + 1), Emit(i))
    case PausedAt(i) =>
      if paused then (p, Poll)
      else (At(i + 1), Emit(i))
  }

  /**
   * The step as it completes when the row's `task.write` succeeds or not.
   * The write is not inside a `try`, so a write that raises ends the
   * thread (the `with` block closes the task) before the row is logged.
   */
  function AdvanceWriting(p: Position, paused: bool, stop: bool, rows: nat, writeOk: bool): (Position, Move)
    requires !p.Done?
  {
    var (next, move) := Advance(p, paused, stop, rows);
    if move.Emit? && !writeOk then (Done, Fail(move.row)) else (next, move)
  }

  /**
   * A failed write emits nothing: the step either waits out a pause or
   * ends the loop, and it fails only on the row the loop was at. A
   * successful write is the step `Advance` describes.
   */
  lemma WriteFailureEnds(p: Position, paused: bool, stop: bool, rows: nat)
    requires !p.Done?
    ensures var (next, move) := AdvanceWriting(p, paused, stop, rows, false);
      !move.Emit? && (move.Poll? || next.Done?) && (move.Fail? ==> move.row == p.row)
    ensures AdvanceWriting(p, paused, stop, rows, true) == Advance(p, paused, stop, rows)
  {
  }

  /** While paused the loop emits nothing and does not react to a stop. */
  lemma PausedIgnoresStop(i: int, rows: nat)
    ensures Advance(PausedAt(i), true, true, rows) == (PausedAt(i), Poll)
  {
  }

  /** A stop raised during a pause still lets the paused row out once the pause is lifted. */
  lemma StopDuringPauseEmits(i: int, rows: nat)
    ensures Advance(PausedAt(i), false, true, rows) == (At(i + 1), Emit(i))
    ensures Advance(At(i + 1), false, true, rows) == (Done, Finish)
  {
  }

  /** A stop seen at the top of a row ends the loop with nothing written. */
  lemma StopAtTopEnds(i: int, paused: bool, rows: nat)
    ensures Advance(At(i), paused, true, rows) == (Done, Finish)
  {
  }

  /** The rows are emitted in order: every emitted row is in the dataset, and the loop moves to the next one. */
  lemma AdvanceInOrder(p: Position, paused: bool, stop: bool, rows: nat)
    requires !p.Done? && 0 <= p.row && (p.PausedAt? ==> p.row < rows)
    ensures var (next, move) := Advance(p, paused, stop, rows);
      move.Emit? ==> move.row == p.row && 0 <= move.row < rows && next == At(p.row + 1)
  {
  }

  /** The state both threads share, the dataset and what the output loop has done. */
  class Session {
    var state: SharedState
    const dataset: seq<Sample>
    var position: Position
    /** The voltage triples written to the output task, in order. */
    var written: seq<seq<real>>
    var log: seq<LogEntry>

    ghost predicate Valid()
      reads this
    {
      match position
      case At(i) => 0 <= i <= |dataset|
      case PausedAt(i) => 0 <= i < |dataset|
      case Done => true
    }

    constructor (dataset: seq<Sample>)
      ensures Valid()
      ensures state == InitialState && this.dataset == dataset
      ensures position == At(0) && written == [] && log == []
    {
      state := InitialState;
      this.dataset := dataset;
      position := At(0);
      written := [];
      log := [];
    }

    /** One pass of the chain of checks in `command_loop` for a stripped line; false when the loop breaks. */
    method HandleCommand(cmd: string) returns (cont: bool)
      modifies this`state
      ensures state == Apply(old(state), cmd)
      ensures cont <==> cmd != "stop"
      ensures state.stop <==> old(state.stop) || !cont
    {
      cont := true;
      if cmd == "pause" {
        state := state.(paused := true);
      } else if cmd == "resume" {
        state := state.(paused := false);
      } else if "set interval" <= cmd {
        var parts := Tokens(cmd);
        if |parts| == 3 {
          var value := ParseReal(parts[2]);
          if value.Some? {
            state := state.(interval := value.value);
          }
        }
      } else if "set voltage limit" <= cmd {
        var parts := Tokens(cmd);
        if |parts| == 4 {
          var value := ParseReal(parts[3]);
          if value.Some? {
            state := state.(voltageLimit := value.value);
          }
        }
      } else if cmd == "stop" {
        state := state.(stop := true);
        cont := false;
      }
    }

    /** `command_loop`: read and apply lines until the stop flag is up or input ends. */
    method CommandLoop(inputs: seq<ConsoleInput>) returns (consumed: nat)
      modifies this`state
      ensures (state, consumed) == RunCommands(old(state), inputs)
      ensures state.stop || consumed == |inputs|
    {
      consumed := 0;
      assert inputs[consumed..] == inputs;
      while !state.stop && consumed < |inputs|
        invariant consumed <= |inputs|
        invariant RunsFrom(HandleLine, old(state), inputs, state, consumed)
        decreases |inputs| - consumed
      {
        var input := inputs[consumed];
        if !input.Line? {
          RunsFromClosed(HandleLine, old(state), inputs, state, consumed);
          state := state.(stop := true);
          consumed := consumed + 1;
          break;
        }
        RunsFromLine(HandleLine, old(state), inputs, state, consumed);
        var cont := HandleCommand(Strip(input.text));
        consumed := consumed + 1;
        if !cont {
          break;
        }
      }
      RunsFromDone(HandleLine, old(state), inputs, state, consumed);
    }

    /**
     * One step of `output_loop`, as `AdvanceWriting` describes it, with
     * `writeOk` the outcome of the row's `task.write`. Emitting a row
     * writes its three clamped voltages, unhalved, with the limit of the
     * moment, and logs them with the time `now`; it returns the number of
     * wait slices that follow. A failed write ends the loop with nothing
     * written or logged.
     */
    method OutputStep(now: string, writeOk: bool) returns (move: Move, slices: nat)
      requires Valid() && !position.Done?
      modifies this`position, this`written, this`log
      ensures Valid()
      ensures (position, move) == AdvanceWriting(old(position), state.paused, state.stop, |dataset|, writeOk)
      ensures move.Emit? ==>
        var row, limit := dataset[move.row], state.voltageLimit;
        var vx, vy, vz := AxisVoltage(row.fieldX, NtToVolt, limit), AxisVoltage(row.fieldY, NtToVolt, limit), AxisVoltage(row.fieldZ, NtToVolt, limit);
        && written == old(written) + [[vx, vy, vz]]
        && log == old(log) + [LogEntry(now, row.fieldX, row.fieldY, row.fieldZ, vx, vy, vz)]
        && slices == WaitSlices(state.interval)
      ensures !move.Emit? ==> written == old(written) && log == old(log) && slices == 0
    {
      move, slices := Finish, 0;
      match position
      case At(i) =>
        if i >= |dataset| || state.stop {
          position := Done;
          return;
        }
        if state.paused {
          position, move := PausedAt(i), Poll;
          return;
        }
        if !writeOk {
          position, move := Done, Fail(i);
          return;
        }
        slices := EmitRow(i, now);
        move := Emit(i);
      case PausedAt(i) =>
        if state.paused {
          move := Poll;
          return;
        }
        if !writeOk {
          position, move := Done, Fail(i);
          return;
        }
        slices := EmitRow(i, now);
        move := Emit(i);
    }

    /** The body of the row loop for row `i`: clamp, write, log, and the wait that follows. */
    method EmitRow(i: int, now: string) returns (slices: nat)
      requires 0 <= i < |dataset|
      modifies this`position, this`written, this`log
      ensures position == At(i + 1)
      ensures var row, limit := dataset[i], state.voltageLimit;
        var vx, vy, vz := AxisVoltage(row.fieldX, NtToVolt, limit), AxisVoltage(row.fieldY, NtToVolt, limit), AxisVoltage(row.fieldZ, NtToVolt, limit);
        && written == old(written) + [[vx, vy, vz]]
        && log == old(log) + [LogEntry(now, row.fieldX, row.fieldY, row.fieldZ, vx, vy, vz)]
      ensures slices == WaitSlices(state.interval)
    {
      var row := dataset[i];
      var limit := state.voltageLimit;
      var vx := AxisVoltage(row.fieldX, NtToVolt, limit);
      var vy := AxisVoltage(row.fieldY, NtToVolt, limit);
      var vz := AxisVoltage(row.fieldZ, NtToVolt, limit);
      written := written + [[vx, vy, vz]];
      log := log + [LogEntry(now, row.fieldX, row.fieldY, row.fieldZ, vx, vy, vz)];
      position := At(i + 1);
      slices := WaitSlices(state.interval);
    }
  }
}
