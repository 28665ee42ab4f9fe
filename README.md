# Magnetic-field emulator controller, modelled in Dafny

MagFieldEmulator replays a recorded magnetic-field time series through a
data-acquisition device. Each row's three field components (in nT) are
converted to volts and clamped to a symmetric limit. They are written to
the analog outputs, logged, and followed by a wait of the configured
interval. An interactive console runs beside the output loop and can
pause, resume, change the interval, report status, save the
configuration, jump to a row and stop.

This project models the controller's core and proves properties of it:

- `text.dfy` (`Text`): the string operations the console relies on.
  These are `strip`, `split`, `lower`, `startswith`, and `int`/`float`
  on one token. The module proves round trips such as "splitting undoes
  joining" and `int(str(i)) == i`.
- `wrappers.dfy` (`Wrappers`): the `Option` datatype.
- `dataset.dfy` (`Dataset`): a dataset row and the clamp
  `max(min(v, limit), -limit)` that both controllers use.
- `app_config.dfy` (`AppConfig`): the configuration record with its
  dictionary conversions.
- `app_state.dfy` (`AppState`): the shared control state, as a class
  whose setters update its fields.
- `log_manager.dfy` (`LogManager`): the buffered CSV log.
  - It keeps a ghost model of the file on disk.
  - Its invariant says no entry is lost or reordered.
- `daq_controller.dfy` (`DaqController`): the device wrapper.
  - The device is abstract: each call that reaches it is recorded in a trace.
  - Whether a driver call raises is an input.
- `command_interface.dfy` (`CommandInterface`): the console's command
  table, covering registration, dispatch, completion and help.
- `main.dfy` (`FieldController`): the controller itself.
  - This covers the command handlers, the console loop, start-up and
    shutdown, and the output loop.
  - The two threads become interleaved atomic steps on one `Controller`.
  - One pass of the output loop is two steps, each specified by the pure
    function `Advance`.
  - Lemmas over `Advance` prove the following:
    - a stop is honoured within two steps;
    - a pause holds the loop at its row;
    - a pending jump is taken at the next pass;
    - left alone, the loop emits every remaining row once, in order.
- `real_time_controller.dfy` (`RealTimeController`): the earlier
  single-file controller. Its console is a pure fold over a chain of
  command checks, and its output loop is a class with an `Advance` of
  its own. The lemmas pin down where it differs from the newer
  controller:
  - it accepts any interval and any limit;
  - it ignores a stop while paused;
  - it writes the voltages unhalved.

## Model

| member | source | states |
|---|---|---|
| Text.StripLeading | command_interface.py:26 | the result is a suffix of the input that does not start with whitespace, and only whitespace was removed |
| Text.StripTrailing | command_interface.py:26 | the result is a prefix of the input that does not end with whitespace, and only whitespace was removed |
| Text.StripEmptyIff | command_interface.py:26-28 | a line strips to nothing exactly when it is all whitespace |
| Text.Strip | command_interface.py:26 | the stripped line is no longer than the line and neither starts nor ends with whitespace |
| Text.Tokens | command_interface.py:26 | every token `split()` yields is non-empty and holds no whitespace |
| Text.TokensOfJoin | command_interface.py:26 | splitting undoes joining words with single spaces |
| Text.TokensOfSpace | command_interface.py:26-28 | a whitespace-only line has no tokens |
| Text.TokensLeadingSpace | command_interface.py:26 | leading whitespace does not change the tokens |
| Text.TokensWordThen | command_interface.py:26 | a word followed by whitespace or by nothing is the first token, and the rest are the tokens of what follows |
| Text.TokensOfWord | command_interface.py:26 | a single word splits into itself |
| Text.TokensAppend | command_interface.py:26 | a non-empty run of whitespace separates tokens: the tokens of `a + sp + b` are those of `a` followed by those of `b` |
| Text.TokensOfPair | main.py:236 | two words joined by a space split back into the two |
| Text.TokensOfTriple | main.py:198 | three words joined by single spaces split back into the three |
| Text.Lower | command_interface.py:30 | lower-casing keeps the length and maps every character through the ASCII case map |
| Text.LowerIdempotent | command_interface.py:30-38 | lower-casing twice is lower-casing once |
| Text.ParseInt | main.py:238 | a token `int()` accepts ends in a digit, and only a leading minus sign gives a negative value |
| Text.ParseReal | main.py:200 | a token `float()` accepts is non-empty, and only a leading minus sign gives a negative value |
| Text.ParseIntOfIntToString | main.py:238 | `int(str(i)) == i` for every integer |
| Text.ParseRealAgreesWithParseInt | main.py:200 | every token `int()` accepts, `float()` accepts with the same value |
| Dataset.Clamp | main.py:135-137 | with a non-negative limit the result lies in [-limit, limit]; a value inside is unchanged; above saturates at limit, below at -limit; a negative limit always gives -limit |
| Dataset.ClampMonotone | main.py:135-137 | clamping preserves order |
| Dataset.ClampIdempotent | main.py:135-137 | clamping a clamped value changes nothing |
| Dataset.SaturationScenario | main.py:135-137 | 100000, 200000 and 500000 nT at 1 V per 10000 nT all come out at the 10 V limit |
| Dataset.AxisVoltage | main.py:134-136 | with a non-negative limit the axis voltage lies in [-limit, limit], and a converted value inside that range is output unchanged |
| AppConfig.FieldsDetermineConfig | app_config.py:4-13 | two records agreeing on all eight fields are equal |
| AppConfig.ToDict | app_config.py:19-20 | the dictionary has exactly the eight field names as keys, each holding that field's value |
| AppConfig.FromDict | app_config.py:15-17 | as written: a present key sets its field; a missing key leaves the dataclass field descriptor in the field |
| AppConfig.FromDictToDict | app_config.py:15-20 | `from_dict(to_dict(c)) == c` |
| AppConfig.ToDictFromDict | app_config.py:15-20 | a map holding every field name comes back from the round trip without its unknown keys |
| AppConfig.FromDictIgnoresUnknownKeys | app_config.py:17 | keys that are not field names do not affect the record |
| AppConfig.FromDictEmptyIsNotDefault | app_config.py:17 | as written, `from_dict({})` is not the default record |
| AppConfig.FromDictOrDefault | app_config.py:6-17 | corrected: a present key sets its field, a missing key gives the field's default |
| AppConfig.FromDictOrDefaultEmpty | app_config.py:6-17 | corrected `from_dict({})` is the default record |
| AppConfig.FromDictOrDefaultToDict | app_config.py:15-20 | the corrected reader still round-trips `to_dict` |
| AppState.ControlState.constructor | app_state.py:5-13 | not paused, not stopped, task inactive, row 0, pending jump 0, with the given interval and limit |
| AppState.ControlState.SetPaused | app_state.py:20-23 | sets the pause flag and nothing else |
| AppState.ControlState.SetInterval | app_state.py:30-33 | sets the interval and nothing else |
| AppState.ControlState.SetStop | app_state.py:45-48 | sets the stop flag and nothing else |
| AppState.ControlState.SetCurrentRow | app_state.py:55-58 | sets the row index and nothing else |
| AppState.ControlState.SetTaskActive | app_state.py:65-68 | sets the task-active flag and nothing else |
| AppState.ControlState.SetSkippedRow | app_state.py:75-78 | sets the pending jump and nothing else |
| AppState.WithLock | app_state.py:80-85 | the wrapper returns what the wrapped function returns, for every argument |
| LogManager.ShouldFlush | log_manager.py:38-39 | a flush is due exactly when the counter is a whole multiple of the cadence |
| LogManager.FlushCadence | log_manager.py:38-39 | with cadence n > 0, the counter k*n + j (0 <= j < n) triggers a flush exactly when j == 0 |
| LogManager.NegativeCadence | log_manager.py:38-39 | a negative cadence flushes on the same counters as its magnitude |
| LogManager.LogBuffer.constructor | log_manager.py:8-13 | an empty buffer over the existing file, with the given cadence |
| LogManager.LogBuffer.AddEntry | log_manager.py:20-22 | the entry goes last in the buffer, the count grows by one, and nothing is lost or reordered |
| LogManager.LogBuffer.Flush | log_manager.py:24-36 | an empty buffer touches nothing; otherwise the entries are appended in order, with a header only if the file is new, and the buffer is emptied; a failed write leaves file and buffer as they were |
| LogManager.LogBuffer.EntryCount | log_manager.py:41-44 | the number of entries added since the last successful flush: those logged but not yet in the file |
| DaqController.Daq.constructor | daq_controller.py:7-12 | no task held and nothing sent to the device |
| DaqController.Daq.Initialize | daq_controller.py:21-48 | success exactly when the device is present and nothing raises; a missing device creates no task; a fault keeps the tasks created before it |
| DaqController.Daq.WriteVoltages | daq_controller.py:50-60 | without an output task nothing reaches the device and the result is false; otherwise one write is recorded and the result is its outcome |
| DaqController.Daq.WriteDigital | daq_controller.py:62-71 | the same guard and outcome for the digital-output task |
| DaqController.Daq.ReadAnalog | daq_controller.py:73-82 | `None` without an input task or when the read raises, else the measured values |
| DaqController.Daq.Close | daq_controller.py:84-94 | with an output task: zero every output channel, close, drop the task even when a call raised; without one: nothing |
| DaqController.ZeroVectorAsWrittenMisses | daq_controller.py:88 | as written, four output channels in one group get a zero vector of length 1 |
| DaqController.ZeroVector | daq_controller.py:88 | corrected: one 0.0 per analog-output channel |
| DaqController.CloseTwice | daq_controller.py:84-94 | closing twice zeroes and closes the device once |
| CommandInterface.FirstPrefix | command_interface.py:37-39 | the first registered name that is a prefix of the line, with no earlier one |
| CommandInterface.FirstPrefixAt | command_interface.py:37-39 | the first prefix is at `i` when none before `i` is one and the name at `i` is |
| CommandInterface.Dispatch | command_interface.py:24-42 | whatever a line runs is a key of the table or a registered name |
| CommandInterface.DispatchBlank | command_interface.py:26-28 | a blank line runs nothing |
| CommandInterface.DispatchRegistered | command_interface.py:24-42 | whatever is dispatched is a registered command |
| CommandInterface.DispatchByPrefix | command_interface.py:36-42 | when the first word is no command, the earliest registered prefix of the lower-cased line runs, and nothing runs exactly when there is none |
| CommandInterface.Matching | command_interface.py:17-18 | the options are exactly the registered names that start with the text |
| CommandInterface.Complete | command_interface.py:17-19 | an option exists exactly for indices below the number of matches, and it is a registered name starting with the text |
| CommandInterface.MatchingAppend | command_interface.py:17-18 | the options of a concatenation are the options of each part, in order |
| CommandInterface.MatchingNone | command_interface.py:17-18 | no option when the text starts none of the names |
| CommandInterface.MatchingAll | command_interface.py:17-18 | every name is an option, in order, when the text starts all of them |
| CommandInterface.MatchingAround | command_interface.py:17-18 | names around a block that the text starts none of add no options |
| CommandInterface.CompleteInOrder | command_interface.py:17-19 | a name is offered at the index equal to the number of earlier matching names |
| CommandInterface.CommandInterface.constructor | command_interface.py:8-10 | an empty table |
| CommandInterface.CommandInterface.RegisterCommand | command_interface.py:12-14 | a new name goes last; an existing one keeps its place and takes the new handler and help |
| CommandInterface.CommandInterface.FindCommand | command_interface.py:24-42 | the command run is the one `Dispatch` names, and it is registered |
| CommandInterface.CommandInterface.ShowHelp | command_interface.py:44-49 | one help line per command in registration order; the console goes on |
| FieldController.EmissionAgreesWithLog | main.py:134-162 | the logged voltages are within the limit; the device gets exactly half of each, plus 5 V on the fourth channel; the log carries the row's index and field |
| FieldController.WaitTime | main.py:171-173 | the wait is never negative, is `interval - elapsed` or 0, and never exceeds the interval |
| FieldController.IntervalAfter | main.py:194-209 | the interval either stays or becomes a positive number |
| FieldController.IntervalAfterChanges | main.py:194-209 | `set interval` changes the interval only to a positive number given as the third of three words; a positive interval stays positive |
| FieldController.SetIntervalWhole | main.py:194-209 | `set interval n` stores n when positive and changes nothing for 0 |
| FieldController.JumpWhole | main.py:233-241 | `jump i` requests row i exactly when 0 <= i < rows, else changes nothing |
| FieldController.SkipAfter | main.py:233-249 | the pending jump either stays or becomes a row inside the dataset |
| FieldController.SkipAfterRange | main.py:236-241 | the pending jump either stays or becomes the requested row, inside the dataset |
| FieldController.SaveConfigRoundTrip | main.py:69-80 | the saved file has the eight field keys and reads back as the running record with the live interval |
| FieldController.AfterWrite | main.py:75-76 | a write leaves the old file only when the open fails, and the file holds the new data exactly when the write completes (or already held it) |
| FieldController.LoadConfig | main.py:50-67 | a readable file is read with the corrected reader; a missing, unreadable or failing file gives the default record; only a missing file is created, and a failed creation leaves it missing or unreadable |
| FieldController.LoadConfigCreated | main.py:50-67 | the file a first start creates reads back as the default record and stays as it is |
| FieldController.LoadSavedConfig | main.py:50-80 | starting after a completed `save config` gives the saved record with the live interval |
| FieldController.LoadAfterInterruptedSave | main.py:50-80 | a save that fails after the file is opened loses the earlier configuration: every later start gets the default record |
| FieldController.HelpListing | main.py:39-48 | one help line per command, in registration order |
| FieldController.DispatchedCommand | command_interface.py:24-42 | a handler runs exactly when the dispatcher names a command: every name it can return has one |
| FieldController.DispatchOneWord | command_interface.py:30-33 | a lower-case command name typed alone runs its own handler |
| FieldController.StopLineEndsConsole | main.py:230-232 | `stop` ends the console and raises the stop flag |
| FieldController.DispatchSetInterval | command_interface.py:36-42 | `set interval n` reaches the interval handler by prefix, since `set` is no command |
| FieldController.DispatchJump | command_interface.py:30-33 | `jump i` reaches the jump handler |
| FieldController.EndsOnlyAsWritten | command_interface.py:51-65 | a line running `jump` or `status` ends the console as written, and would not if the handler returned |
| FieldController.LineRunning | command_interface.py:51-65 | a line running a handler other than stop keeps the console going; as written it ends it exactly for jump and status |
| FieldController.JumpEndsConsoleAsWritten | main.py:233 | as written, `jump i` ends the console |
| FieldController.StatusEndsConsoleAsWritten | app_state.py:36-38 | as written, `status` ends the console |
| FieldController.FirstEnd | command_interface.py:51-65 | the loop reads up to and including the first input that ends it, or everything |
| FieldController.ConsoleEnds | command_interface.py:51-65 | one flag per input: end of input, an interrupt or `stop` |
| FieldController.Advance | main.py:117-164 | the loop exits exactly when it finishes; an emitted row is the current row, and the loop moves to the next |
| FieldController.AdvanceInRange | main.py:117-164 | every output step keeps row and pending jump within the dataset, and emits only dataset rows |
| FieldController.AdvanceExits | main.py:117-129 | the loop exits exactly at the top past the last row or at a row on a stop |
| FieldController.StopHonoured | main.py:122-129 | a raised stop ends the loop within two steps, paused or not |
| FieldController.PauseHolds | main.py:125-126 | while paused and not stopped the loop stays at its row and emits nothing |
| FieldController.JumpTaken | main.py:99-103 | a pending jump is taken at the next top of the loop |
| FieldController.ReplayEmitsRemainingRows | main.py:116-181 | left alone from row r, the loop emits rows r to rows - 1 once each, in order, then finishes |
| FieldController.ReplayAfterJump | main.py:100-120 | after a jump to row j, the loop emits rows j to rows - 1 in order, then finishes |
| FieldController.RegisterCommands | main.py:39-48 | the table holds the eight commands in order, each with its handler and help |
| FieldController.RegisterEach | main.py:39-48 | registering distinct names one by one into an empty table gives exactly those names, in order, with their entries |
| FieldController.Controller.constructor | main.py:19-27 | state from the configuration, the fixed 10 V limit, an empty log buffer with any non-zero cadence, the registered table, and the configuration file as start-up left it |
| FieldController.Controller.CmdPause | main.py:184-187 | raises the pause flag; the console goes on |
| FieldController.Controller.CmdResume | main.py:189-192 | clears the pause flag; the console goes on |
| FieldController.Controller.CmdSetInterval | main.py:194-209 | the interval becomes `IntervalAfter` of the line; the console goes on |
| FieldController.Controller.CmdStatus | main.py:211-221 | reports the live flags, interval, limit and buffer size, with progress in [0, 100] equal to row * 100 / total |
| FieldController.Controller.SaveConfig | main.py:69-80 | true exactly when the write completes, and the file then holds the record with the live interval; a failed open leaves the file alone; a failure after the open leaves it unreadable |
| FieldController.Controller.SafeStop | main.py:87-96 | raises the stop flag, then flushes the log |
| FieldController.Controller.CmdStop | main.py:230-232 | raises the stop flag, flushes the log, and ends the console |
| FieldController.Controller.CmdJump | main.py:233-252 | the pending jump becomes `SkipAfter` of the line; the console goes on |
| FieldController.Controller.CmdHelp | command_interface.py:44-49 | the listing is one line per registered command in registration order; the console goes on |
| FieldController.Controller.RunHandler | main.py:184-252 | each handler's effect on each piece of state, and that only stop ends the console |
| FieldController.Controller.ProcessCommand | command_interface.py:24-42 | runs the handler `DispatchedCommand` names, with its effects; a line running nothing continues |
| FieldController.Controller.ConsoleStep | command_interface.py:57-62 | an interrupt or end of input ends the loop; a line is stripped and processed, ending the loop exactly when it runs `stop`, which alone raises the stop flag |
| FieldController.Controller.RunConsole | command_interface.py:51-65 | reads up to the first ending input; the stop flag is raised exactly when that input was `stop` |
| FieldController.Controller.Shutdown | main.py:255-272 | the stop flag is up and the buffer is flushed if either flush succeeds |
| FieldController.Controller.OutputStart | main.py:107-116 | without an output task the loop finishes at once; otherwise `task_active` is raised and the loop starts at row 0 |
| FieldController.Controller.Finish | main.py:180-181 | `task_active` drops and the output task is zeroed and closed |
| FieldController.Controller.Emit | main.py:131-178 | writes half the clamped voltages and 5 V, logs the row, advances the row, flushes on cadence, and returns the wait |
| FieldController.Controller.TakeRow | main.py:99-103 | at the top of the loop a pending jump becomes the row and is cleared, as `Advance` says |
| FieldController.Controller.OutputStep | main.py:117-181 | the new position is `Advance` of the old position and flags, with each outcome's effect on device, log and state |
| RealTimeController.Apply | real_time_controller.py:103-135 | only `stop` raises the stop flag; `pause` sets the pause flag, `resume` clears it, and every other line keeps it |
| RealTimeController.ApplyFrame | real_time_controller.py:103-135 | a command changes at most the field it names, and only stop raises the stop flag |
| RealTimeController.PauseResume | real_time_controller.py:103-108 | `pause` sets the flag and `resume` clears it, nothing else |
| RealTimeController.UnknownUnchanged | real_time_controller.py:134-135 | an unknown line leaves the state unchanged |
| RealTimeController.ApplyStoresInterval | real_time_controller.py:109-115 | a line starting with `set interval` whose third word reads as v stores v |
| RealTimeController.SetIntervalUnchecked | real_time_controller.py:109-115 | `set interval i` stores any whole number, zero and negative included |
| RealTimeController.ApplyStoresLimit | real_time_controller.py:116-122 | a line starting with `set voltage limit` whose fourth word reads as v stores v as the limit |
| RealTimeController.SetVoltageLimitUnchecked | real_time_controller.py:116-122 | `set voltage limit i` stores any whole number, negative included |
| RealTimeController.NegativeLimitPins | real_time_controller.py:53-55 | with a negative limit every axis outputs minus the limit |
| RealTimeController.RunLoop | real_time_controller.py:94-101 | reads no more than the inputs; stops early only when the stop flag is up; does nothing once stopped |
| RealTimeController.RunLoopLine | real_time_controller.py:96-98 | a line is handled, then the rest is read from the new state |
| RealTimeController.RunLoopClosed | real_time_controller.py:99-101 | end of input or an interrupt raises the stop flag and ends the loop |
| RealTimeController.RunLoopEndsAtFirst | real_time_controller.py:94-101 | when a step raises the flag exactly on ending lines, the loop reads up to and including the first ending input, and the flag is up exactly when there was one |
| RealTimeController.RunCommandsEndsAtFirst | real_time_controller.py:94-135 | the loop reads up to and including the first ending input, and the flag is up exactly when there was one |
| RealTimeController.EndsOn | real_time_controller.py:94-133 | `stop`, end of input or an interrupt ends the loop at once |
| RealTimeController.Complete | real_time_controller.py:86-88 | offers only listed commands that start with the text, and exists exactly below the number of matches |
| RealTimeController.CompleteSet | real_time_controller.py:82-88 | completing `set` offers `set interval` then `set voltage limit`, then nothing |
| RealTimeController.WaitSlices | real_time_controller.py:75-77 | `int(interval * 10)` slices for a non-negative interval; none below 0.1 s |
| RealTimeController.Advance | real_time_controller.py:45-58 | the loop ends exactly when it finishes; an emitted row is the current row, and the loop moves to the next |
| RealTimeController.WriteFailureEnds | real_time_controller.py:58 | a failed write emits nothing and ends the loop on the row it was at; a successful one is the step `Advance` gives |
| RealTimeController.PausedIgnoresStop | real_time_controller.py:49-50 | while paused the loop keeps polling even when stop is raised |
| RealTimeController.StopDuringPauseEmits | real_time_controller.py:45-58 | a stop raised during a pause still lets the paused row out, and then ends the loop |
| RealTimeController.StopAtTopEnds | real_time_controller.py:45-47 | a stop at the top of a row ends the loop |
| RealTimeController.AdvanceInOrder | real_time_controller.py:45-58 | an emitted row is the current row, lies in the dataset, and the loop moves to the next |
| RealTimeController.Session.constructor | real_time_controller.py:19-26 | the default shared state at row 0, with nothing written or logged |
| RealTimeController.Session.HandleCommand | real_time_controller.py:103-135 | the new state is `Apply` of the command; only `stop` breaks the loop |
| RealTimeController.Session.CommandLoop | real_time_controller.py:94-135 | the final state and input count are those of `RunCommands` |
| RealTimeController.Session.OutputStep | real_time_controller.py:45-77 | the new position follows `AdvanceWriting`; an emitted row writes its three clamped voltages unhalved and logs them; a failed write ends the loop with nothing written or logged |
| RealTimeController.Session.EmitRow | real_time_controller.py:53-77 | writes and logs the clamped row, moves to the next row, and returns the wait slices |

## Left out

- Threads and locks. The two threads are interleaved atomic steps, and each lock-protected accessor is one step. Timing races inside a step are not modelled.
- Sleeping and the clock. The elapsed time and the time stamps are inputs, and the waits are returned as numbers. The waits ending early on a stop or pause (main.py:177, real_time_controller.py:76) are not separate steps.
- The NI-DAQmx driver. It is abstract: calls are recorded in a trace and failures are inputs. Channel ranges, terminal configuration and auto-start are not modelled.
- Loading the dataset with pandas. The dataset is a given sequence of rows, and data_loader.py is not part of this model. A failed load exits the program (main.py:32-33), which is not modelled.
- File I/O. The JSON configuration file is modelled as missing, holding a dictionary, or unreadable; the CSV log as the rows it holds. JSON and CSV text are not modelled. `_setup_log_directory` (log_manager.py:15-18) and the legacy final CSV write (real_time_controller.py:142-144) are not modelled.
- Signal handling (main.py:35-37, 82-85) and the process exit. The handler's effect is `SafeStop`.
- All printed output, apart from the help listing's lines.
- The readline key binding.
- Floating point. Values are real numbers, so rounding and `inf`/`nan` are not modelled.
- Case folding is ASCII only: `str.lower()` maps every Unicode letter, the model only `A`-`Z`. `float()` accepts plain decimal notation only, with no exponents.
- LogManager.ShouldFlush: a zero cadence, where the program raises ZeroDivisionError, is excluded by a precondition.
- FieldController.Controller.constructor: a zero `log_flush_interval` is excluded by a precondition. The program starts with it, and the first row's flush check (log_manager.py:39) raises ZeroDivisionError, which ends the output thread. A negative cadence is accepted.
- FieldController.LoadConfig: start-up reads the file with the corrected reader `FromDictOrDefault`, not `from_dict` as written (see the app_config.py:17 finding). As written, a file missing a key gives a record holding a dataclass field object; a later `save config` then fails inside `json.dump` and leaves the file unreadable.
- LogManager.LogBuffer.Flush: a write that raises part-way is modelled as leaving the file unchanged.
- FieldController.Controller.Shutdown: the join with its 3-second timeout is collapsed. The output thread is not run during shutdown.
- Latent defects modelled by their evident intent:
  - main.py:25 passes a list of channels where a dictionary keyed by `"ao"` is expected.
  - main.py:108 tests a `task` attribute the wrapper does not have; the model tests `ao_task`.
  - app_state.py:73 reads a misspelled `_skipped_rowi`; the model reads the pending jump.
  - main.py:235 calls a `get_command` the console does not have; the model reads the typed line.
  - app_state.py:38 reads `_voltage_limit`, which the constructor never sets (see Findings). Besides `status`, this breaks the clamp at main.py:134-136, which raises at the first row and ends the output thread. The model clamps with the fixed 10 V limit (`MaxVoltage`).
- The legacy output task is closed without writing zeros. The model accordingly records no write when the loop ends.

## Findings

| source | as written | input that shows it | evidently intended | confidence | as-written member | corrected member |
|---|---|---|---|---|---|---|
| app_config.py:17 | a key missing from the dictionary leaves the dataclass field object in the attribute, not the default | `{}` | missing keys take the field's default | not executed | AppConfig.FromDictEmptyIsNotDefault | AppConfig.FromDictOrDefault |
| daq_controller.py:88 | the zero vector has one element per channel group (`len(self.channels)`) | channels `{"ao": [ao3, ao2, ao1, ao0]}` | one 0.0 per analog-output channel | not executed | DaqController.ZeroVectorAsWrittenMisses | DaqController.Daq.Close |
| main.py:233 | `jump` is registered at main.py:48 as a handler of the typed line, but `_cmd_jump` takes no argument, so calling it raises and the console loop ends | `jump 3` | request row 3 and keep reading commands | not executed | FieldController.JumpEndsConsoleAsWritten | FieldController.Controller.CmdJump |
| app_state.py:38 | the getter reads `_voltage_limit`, but the constructor stores the name-mangled `__voltage_limit`, so `status` raises and ends the console loop | `status` | report the state and keep reading commands | not executed | FieldController.StatusEndsConsoleAsWritten | FieldController.Controller.CmdStatus |
