# Liquid-line test rig drivers in Dafny

This project models the three instrument drivers of the liquid-line test rig.

- **Modbus TCP driver of the Alicat mass-flow controller** (`drivers/alicat.py`):
  - the register codec that carries an IEEE-754 single as two 16-bit registers;
  - the one-block telemetry read;
  - the select-then-read PID exchange on command register 999 and result register 1000;
  - the PID write, which keeps only the gains whose write was not an error;
  - the key priority of `write`;
  - the `_cli`/`connected` state.
- **ASCII serial driver of the same controller** (`drivers/alicat_serial.py`):
  - `unit_id + cmd + "\r"` framing;
  - the 7-token status-line parser;
  - PID replies, where any failure zeroes all three gains;
  - the gas table;
  - a `set_pid` that stops at the first failure;
  - the four-level `write` priority;
  - the `_serial`/`connected` state, including `read` clearing `connected` on failure.
- **SCPI wrapper of the Rigol DP2301 power supply** (`drivers/rigol_dp2031.py`):
  - channel validation before any I/O;
  - the channel-addressed command strings;
  - the three-field measurement parser;
  - the output-state parser;
  - the `is_connected`/`instrument` guard of `write` and `query`.

Every driver is a class whose fields are the ones the Python object updates. The transport behind each driver is an oracle held by the class. It is a function from the history of everything sent so far to the device's reply to the last item. Each class logs that history in a field:

- `wire` for Modbus requests;
- `sent` for serial frames;
- `log` for SCPI messages.

This makes "nothing is sent" and "exactly these requests, in this order" statements about that field. Each state-changing operation is also stated as a function of the state it starts from. Those functions are what the lemmas reason about.

Two reference devices give the PID and output operations a partner:

- a controller with three gain registers (`ModbusReference`);
- a supply with three output switches (`PowerReference`).

Against them, the model proves that what is written is what is read back.

Layout:

- `common.dfy`: `Option`, `Result` and the error kinds.
- `text.dfy`: `str.strip`, `str.split()` and `str.split(',')`.
- `decimal.dfy`: `str(int)` and `int(str)`.
- `register_codec.dfy`: the register codec.
- `driver_contract.dfy`: the values, commands and acknowledgements both flow-controller drivers share.
- `modbus_driver.dfy` and `modbus_reference.dfy`: the Modbus driver and its reference controller.
- `serial_driver.dfy`: the serial driver.
- `power_supply.dfy` and `power_reference.dfy`: the power-supply wrapper and its reference supply.

## Model

| member | source | states |
|---|---|---|
| RegisterCodec.ToRegisters | drivers/alicat.py:39-42 | The two words rejoin to the pattern, and the pattern equals high·2^16 + low, so each word is below 2^16. |
| RegisterCodec.FromRegisters | drivers/alicat.py:33-36 | `(hi << 16) \| lo` is the number high·2^16 + low. |
| RegisterCodec.SplitJoin | drivers/alicat.py:33-42 | Splitting a joined pair gives back the same two registers. |
| DriverContract.Truncate | drivers/alicat.py:339 | `int()` of a float rounds toward zero: the result lies within 1 of x, on the zero side, for both signs. |
| DriverContract.AsFloat | drivers/alicat.py:265-268 | A number is used as a float; a string or None raises. |
| DriverContract.AsInt | drivers/alicat.py:339 | `int()`: an int is unchanged, a float is truncated, None raises. |
| DriverContract.GainPlan | drivers/alicat.py:337-368 | The gains set_pid acts on are exactly the non-None ones, each with its argument, in P, D, I order. |
| DriverContract.GivenGains | drivers/alicat_serial.py:283-298 | The result keys are exactly the gains given, each mapped to the argument as passed. |
| Text.TrimStart | drivers/alicat_serial.py:80 | Leading whitespace is gone, and nothing grows. |
| Text.TrimEnd | drivers/alicat_serial.py:80 | Trailing whitespace is gone, and nothing grows. |
| Text.Strip | drivers/alicat_serial.py:80 | Neither end of the result is whitespace; a string without whitespace at its ends is unchanged. |
| Text.StripPadded | drivers/rigol_dp2031.py:189-193 | `strip()` of a string padded with whitespace on both sides gives the string back, when the string has no whitespace at its ends. |
| Text.StripEmpty | drivers/alicat_serial.py:80-83 | A stripped reply is empty exactly when the line was all whitespace. |
| Text.Tokens | drivers/alicat_serial.py:93 | `split()` yields only non-empty tokens without whitespace. |
| Text.TokensEmpty | drivers/alicat_serial.py:93 | `split()` of the empty string has no tokens. |
| Text.TokensOfSolid | drivers/alicat_serial.py:93 | `split()` of one non-empty, whitespace-free string is that string alone. |
| Text.WordBeforeSpace | drivers/alicat_serial.py:93 | A token ends at the first whitespace character, whatever follows it. |
| Text.TokensSplitAtSpace | drivers/alicat_serial.py:93 | Any whitespace character separates tokens: `split()` of x, a whitespace character, then y is `split()` of x followed by `split()` of y. With the two rows above, this fixes `split()` on every string. |
| Text.TokensOfUnwords | drivers/alicat_serial.py:93 | `split()` of space-joined tokens gives back the tokens. |
| Text.SplitOn | drivers/rigol_dp2031.py:310 | `split(',')` gives one more field than there are commas; no field holds a comma; rejoining gives the string back. |
| Text.SplitOnJoinWith | drivers/rigol_dp2031.py:310 | `split(',')` of comma-free fields joined by commas gives back those fields. |
| Decimal.ShowInt | drivers/alicat_serial.py:286 | `str(n)` starts with '-' exactly when n is negative, and every later character is a digit. |
| Decimal.ParseInt | drivers/alicat_serial.py:210 | `int(s)`: a result exists only for a sign or digit first. After '-' it is minus the value of the digits that follow; after '+' it is their value; otherwise it is the value of the whole digit string. |
| Decimal.ParseIntAccepts | drivers/rigol_dp2031.py:361 | `int()` accepts exactly an optional sign followed by one or more ASCII digits. |
| Decimal.ParseShowInt | drivers/alicat_serial.py:210 | `int(str(n)) == n`. |
| Decimal.ShowIntInjective | drivers/rigol_dp2031.py:337 | Different numbers are written differently. |
| Decimal.DigitsValueDefined | drivers/alicat_serial.py:210 | A string of digits has a value exactly when every character is a digit. |
| ModbusDriver.UntilRaiseStops | drivers/alicat.py:287-314 | The requests sent are a prefix of those planned: all of them when none raises, else those up to and including the first that raises. |
| ModbusDriver.CalmAppend | drivers/alicat.py:287-314 | Two request lists sent one after the other raise nowhere iff neither does. |
| ModbusDriver.UntilRaiseAppend | drivers/alicat.py:287-314 | Sending two request lists one after the other: if the first raises, the second is never sent; otherwise the second follows it in full up to its own first exception. |
| ModbusDriver.DecodeBlock | drivers/alicat.py:216-227 | Each telemetry field is the pair at its register minus BLOCK_START (0, 2, 4, 10, 12, 14). |
| ModbusDriver.BlockAgreesWithPairReads | drivers/alicat.py:207-227 | On any register image, the block read gives the same six values as six single-pair reads of the fields' registers. |
| ModbusDriver.PairInWindow | drivers/alicat.py:136 | The pair at an offset of a block is what a pair read at that address returns. |
| ModbusDriver.SlotReadSends | drivers/alicat.py:287-294 | [14,k] to 999, then a read of 1000: an exception from either ends the step after that call. The step fails exactly when one is raised. Otherwise the gain is the register read, or 0 on an error response. |
| ModbusDriver.PidReadStopsAtP | drivers/alicat.py:287-294 | If the P exchange raises, read_pid raises and nothing after the raising call is sent. |
| ModbusDriver.PidReadStopsAtD | drivers/alicat.py:287-302 | If the D exchange is the first to raise, read_pid raises after sending the P exchange and the D calls up to the raising one. |
| ModbusDriver.PidReadReachesI | drivers/alicat.py:287-312 | If neither the P nor the D exchange raises, read_pid returns the three gains read, unless the I exchange raises. |
| ModbusDriver.PidReadSends | drivers/alicat.py:287-312 | read_pid sends its six requests in order, up to and including the first that raises. |
| ModbusDriver.PidReadResult | drivers/alicat.py:287-314 | read_pid returns exactly when none of its six calls raises. It then returns the registers read for P, D and I, with 0 for an error response; otherwise it raises the library's exception. |
| ModbusDriver.GainWritesCons | drivers/alicat.py:337-346 | The first write of a plan goes out. An exception from it ends the run. Otherwise the rest of the plan follows, and the gain is kept unless the response was an error. |
| ModbusDriver.GainWritesCalm | drivers/alicat.py:337-368 | When no gain write raises, every write of the plan is sent, in order, and set_pid returns. |
| ModbusDriver.GainWritesRaise | drivers/alicat.py:337-368 | When a gain write raises, the writes up to and including it are sent and set_pid raises the library's exception. |
| ModbusDriver.GainWritesSent | drivers/alicat.py:335-368 | When every given gain converts, set_pid sends one [8/9/10, int(v)] write to 999 per given gain, in order, up to and including the first that raises. It raises exactly when one of them does. |
| ModbusDriver.GainWritesKept | drivers/alicat.py:341-345 | A planned gain is in the results iff the reply to its own write was not an error; a kept gain carries its argument as given. |
| ModbusDriver.GainWritesUntouched | drivers/alicat.py:335-368 | A gain the plan does not name keeps whatever the results held for it. |
| ModbusDriver.GainWritesAppend | drivers/alicat.py:337-368 | Running two plans one after the other is running their concatenation; an error (a failed conversion or an exception) ends the run. |
| ModbusDriver.PidWritesFollowPlan | drivers/alicat.py:337-368 | The three `if X is not None` blocks run exactly the gain plan. |
| ModbusDriver.Route | drivers/alicat.py:381-391 | "setpoint" wins over P/D/I keys; otherwise any of P/D/I goes to set_pid with `.get` values; otherwise it is a no_op. |
| ModbusDriver.Alicat.constructor | drivers/alicat.py:77-79 | No client, not connected, nothing sent. |
| ModbusDriver.Alicat.Initialize | drivers/alicat.py:81-105 | Dummy mode: connected, with no client. A client that connected and whose connection is still live (`_cli.connected`): connected, with the client kept. Otherwise a new client: connected iff it connects, else ConnectionError, with `connected` left as it was. |
| ModbusDriver.Alicat.Close | drivers/alicat.py:107-113 | Always leaves no client and not connected; idempotent. |
| ModbusDriver.Alicat.ReadPair | drivers/alicat.py:115-159 | No client: "Not connected" before any request. Otherwise one 2-register read. An error response raises IOError, and an exception from the library passes through; else the pair is decoded. |
| ModbusDriver.Alicat.ReadSetpoint | drivers/alicat.py:235-237 | One holding-register pair read at REG_SETPOINT_F32: the decoded pair, IOError on an error response, or the library's exception. |
| ModbusDriver.Alicat.ReadInputValue | drivers/alicat.py:239-249 | One input-register pair read at the mass-flow, pressure or temperature register: the decoded pair, IOError on an error response, or the library's exception. |
| ModbusDriver.Alicat.Read | drivers/alicat.py:183-233 | Dummy: the fixed values, nothing sent. Otherwise exactly one read of 16 words at 1349. A failure raises with no partial telemetry; else the decoded block. If asked, the PID exchange follows, and an exception from it passes through. |
| ModbusDriver.Alicat.ReadSlot | drivers/alicat.py:287-294 | [14,k] to 999, then one read of 1000, as the step function states: an error response gives 0 for that gain only, and an exception ends the call. |
| ModbusDriver.Alicat.ReadPid | drivers/alicat.py:273-314 | Dummy: 50/120/0. No client: raises before any request. Otherwise it selects and reads slots 0, 1, 2 in order, as the read_pid function states, stopping at the first exception. |
| ModbusDriver.Alicat.SetFlowRate | drivers/alicat.py:251-271 | An out-of-range value is only flagged as warned. It is still written to REG_SETPOINT_F32 as [hi, lo]. An error response raises IOError and a library exception passes through; otherwise the acknowledgement carries the value as given. |
| ModbusDriver.Alicat.WriteIfGiven | drivers/alicat.py:337-346 | One gain block, as the block function it is proved against states: an exception from the write ends set_pid, an error response only drops the gain. |
| ModbusDriver.Alicat.SetPid | drivers/alicat.py:316-370 | Dummy: all three arguments echoed. No client: raises before any request. Otherwise the three blocks' writes and results, ended by the first exception. |
| ModbusDriver.Alicat.Write | drivers/alicat.py:373-391 | It dispatches by Route to set_flow_rate or set_pid; a no_op sends nothing. |
| ModbusReference.ControllerCalm | drivers/alicat.py:287-314 | Nothing sent to the reference controller raises, so every planned request goes out. |
| ModbusReference.ControllerPidGains | drivers/alicat.py:287-312 | The three registers read after the selects are the controller's P, D and I. |
| ModbusReference.SelectThenRead | drivers/alicat.py:287-294 | On the reference controller a select then read returns that slot's register. |
| ModbusReference.ReadPidReadsBack | drivers/alicat.py:287-314 | On the reference controller read_pid sends all six requests and returns the three gain registers, whatever was selected before. |
| ModbusReference.ThenWriteOnController | drivers/alicat.py:337-346 | A given in-range gain is accepted, kept in the results, and lands in its own register. |
| ModbusReference.PidWritesOnController | drivers/alicat.py:335-370 | set_pid's results are exactly the given gains, and only the given registers change. |
| ModbusReference.SetPidThenReadPid | drivers/alicat.py:316-370 | A read_pid after set_pid returns the given gains, and the others as they were. |
| SerialDriver.GasCode | drivers/alicat_serial.py:265 | A known name maps to its table number; an unknown one maps to 0. |
| SerialDriver.GasCodeZero | drivers/alicat_serial.py:22-27 | Gas 0 is sent exactly for "Air" and for unknown names. |
| SerialDriver.GasTableInjective | drivers/alicat_serial.py:22-27 | No two known names share a gas number. |
| SerialDriver.GainCommandRoundTrip | drivers/alicat_serial.py:286-296 | "W21=v", "W22=v" and "W23=v" read back as their register and value. |
| SerialDriver.GasCommandRoundTrip | drivers/alicat_serial.py:269 | "G" + str(n) reads back as n. |
| SerialDriver.ShowIntSolid | drivers/alicat_serial.py:210 | A number's text is one whitespace-free token. |
| SerialDriver.ParseStatus | drivers/alicat_serial.py:87-104 | Fewer than 7 tokens raises. A result exists iff tokens 1..5 all parse. Pressure, temperature, volumetric flow, mass flow, setpoint and gas are tokens 1..6, in that order. |
| SerialDriver.ParseStatusLine | drivers/alicat_serial.py:93-104 | A status line built from well-formed tokens parses back to its fields; tokens after the gas are ignored. |
| SerialDriver.GainToken | drivers/alicat_serial.py:210-212 | The gain is the second token as an int, or 0 when there is no second token. |
| SerialDriver.PidFromReplies | drivers/alicat_serial.py:204-216 | Any conversion failure gives P=D=I=0, not just for its own gain; otherwise each gain comes from its own reply. |
| SerialDriver.GainReplyRoundTrip | drivers/alicat_serial.py:208-210 | The reply "<unit> <v>" yields v. |
| SerialDriver.PidRepliesRoundTrip | drivers/alicat_serial.py:204-213 | Three replies carrying P, D and I read back as those gains. |
| SerialDriver.SerialRoute | drivers/alicat_serial.py:306-328 | The priority is setpoint, then pressure, then gas, then P/D/I; it is a no_op iff none of these keys is present. |
| SerialDriver.AlicatSerial.constructor | drivers/alicat_serial.py:56-58 | No port, not connected, nothing sent. |
| SerialDriver.AlicatSerial.FrameParts | drivers/alicat_serial.py:74 | A frame is unit id, command and "\r", in that order. |
| SerialDriver.AlicatSerial.FrameInjective | drivers/alicat_serial.py:74 | Different commands give different frames. |
| SerialDriver.AlicatSerial.Command | drivers/alicat_serial.py:60-85 | No port: "Not connected", nothing sent. Otherwise one frame is sent; an empty stripped reply is a timeout, else the stripped reply is returned. |
| SerialDriver.AlicatSerial.Initialize | drivers/alicat_serial.py:106-136 | Dummy: connected, no port. Otherwise connected iff the port opens and the empty probe gets a reply; on failure no port, not connected, and ConnectionError. |
| SerialDriver.AlicatSerial.Close | drivers/alicat_serial.py:138-146 | Always leaves no port and not connected; idempotent. |
| SerialDriver.AlicatSerial.PidQueryFrames | drivers/alicat_serial.py:201-216 | No port: nothing sent, zero gains. Otherwise R21, R22 and R23 go out in that order, up to and including the first whose stripped reply is empty (a timeout). Any timeout gives zero gains. With three non-empty replies, the gains are those the three replies give. |
| SerialDriver.AlicatSerial.ReadPidUnlocked | drivers/alicat_serial.py:201-216 | Never raises; the frames and gains are as the PID query states. |
| SerialDriver.AlicatSerial.ReadPid | drivers/alicat_serial.py:218-224 | Dummy: 50/120/0 with nothing sent; otherwise the unlocked PID read. |
| SerialDriver.AlicatSerial.Read | drivers/alicat_serial.py:154-199 | Dummy: the fixed values. Otherwise any failure clears `connected` and is passed on. On success, valve_drive is 0.0 and the status fields are returned, with PID if asked. |
| SerialDriver.AlicatSerial.SetFlowRate | drivers/alicat_serial.py:226-239 | "S" + value to 4 decimals, with no range check; the acknowledgement carries the value as given. |
| SerialDriver.AlicatSerial.SetPressure | drivers/alicat_serial.py:241-254 | "P" + value to 4 decimals; the acknowledgement carries the value as given. |
| SerialDriver.AlicatSerial.GasNumber | drivers/alicat_serial.py:264-267 | A string goes through the gas table (0 if unknown); anything else goes through `int()`. |
| SerialDriver.AlicatSerial.SetGas | drivers/alicat_serial.py:256-274 | It sends "G" + the gas number and acknowledges the argument as given. A failed conversion sends nothing. |
| SerialDriver.AlicatSerial.GainSendsStop | drivers/alicat_serial.py:283-304 | Once a gain write fails, no later gain is attempted. |
| SerialDriver.AlicatSerial.GainSendsSucceed | drivers/alicat_serial.py:283-300 | A successful run sent one "W2k=int(v)" frame per given gain, in order, and kept each gain. |
| SerialDriver.AlicatSerial.ThenSendSucceeds | drivers/alicat_serial.py:285-288 | A block that succeeds converted its gain, sent its frame and added the gain. |
| SerialDriver.AlicatSerial.PidSendsFollowPlan | drivers/alicat_serial.py:285-298 | The three `if X is not None` blocks run exactly the gain plan. |
| SerialDriver.AlicatSerial.PidSendsResult | drivers/alicat_serial.py:283-300 | A successful set_pid holds exactly the given gains, with their arguments. |
| SerialDriver.AlicatSerial.SendIfGiven | drivers/alicat_serial.py:285-288 | One gain block, as the block function it is proved against states. |
| SerialDriver.AlicatSerial.SetPid | drivers/alicat_serial.py:276-304 | Dummy: all three arguments echoed. Otherwise the three blocks, stopping at and passing on the first failure. |
| SerialDriver.AlicatSerial.Write | drivers/alicat_serial.py:306-328 | It dispatches by SerialRoute to the setter chosen; a no_op sends nothing. |
| PowerSupply.OutputCommandInjective | drivers/rigol_dp2031.py:336-337 | ":OUTP CH{n},ON/OFF" determines both its channel and its state. |
| PowerSupply.NoCommaInShowInt | drivers/rigol_dp2031.py:337 | The channel part of an output command holds no comma. |
| PowerSupply.ParseValue | drivers/rigol_dp2031.py:189-193 | `float(response.strip())`, or an error where float() raises. |
| PowerSupply.ValueRoundTrip | drivers/rigol_dp2031.py:189-193 | A number float() accepts, with any whitespace around it, reads back as that number. |
| PowerSupply.ParseMeasurements | drivers/rigol_dp2031.py:309-321 | Other than exactly 3 comma fields is an error. A result exists iff all three parse, and it is (voltage, current, power) in field order. |
| PowerSupply.MeasurementsRoundTrip | drivers/rigol_dp2031.py:310-318 | "v,c,p" reads back as the three values. |
| PowerSupply.MeasurementsNeedThreeFields | drivers/rigol_dp2031.py:310-312 | A reply of 1, 2, 4 or more comma-free fields is refused. |
| PowerSupply.ParseOutputState | drivers/rigol_dp2031.py:360-363 | Enabled iff `int(response.strip())` is nonzero; an error where int() raises. |
| PowerSupply.OutputStateOfShowInt | drivers/rigol_dp2031.py:361 | A reply str(n) reads as enabled exactly when n != 0. |
| PowerSupply.ValidChannel | drivers/rigol_dp2031.py:132-133 | A channel is valid exactly when it is the int 1, 2 or 3. |
| PowerSupply.InvalidChannelSendsNothing | drivers/rigol_dp2031.py:132-133 | A channel outside the ints 1..3 is refused before anything is sent, connected or not. |
| PowerSupply.RigolDP2301.constructor | drivers/rigol_dp2031.py:34-36 | No instrument, not connected, nothing sent. |
| PowerSupply.RigolDP2301.Write | drivers/rigol_dp2031.py:80-97 | Not connected or no instrument: "Not connected", nothing sent. Otherwise the command goes out, and an exception becomes a command failure. |
| PowerSupply.RigolDP2301.Query | drivers/rigol_dp2031.py:99-120 | The same guard; otherwise the answer, or a query failure. |
| PowerSupply.RigolDP2301.Connect | drivers/rigol_dp2031.py:41-67 | On success "*IDN?" then "*CLS", and both flags are set. Any failure leaves not connected, no instrument, and a connect error. |
| PowerSupply.RigolDP2301.Disconnect | drivers/rigol_dp2031.py:69-78 | Clears both flags when an instrument existed; otherwise changes nothing. |
| PowerSupply.RigolDP2301.SetVoltage | drivers/rigol_dp2031.py:135-151 | It validates the channel first. A value that is not a number then fails the `:.3f` format, with nothing sent. Otherwise it writes ":SOUR{n}:VOLT {v:.3f}". |
| PowerSupply.RigolDP2301.SetCurrentLimit | drivers/rigol_dp2031.py:153-169 | It validates the channel first. A value that is not a number then fails the `:.3f` format, with nothing sent. Otherwise it writes ":SOUR{n}:CURR {i:.3f}". |
| PowerSupply.RigolDP2301.ReadValue | drivers/rigol_dp2031.py:171-289 | Invalid channel: refused with nothing sent. Otherwise one query for the quantity, parsed as a float. |
| PowerSupply.RigolDP2301.ReadMeasurements | drivers/rigol_dp2031.py:291-321 | Invalid channel: refused with nothing sent. Otherwise one ":MEAS:ALL? CH{n}" query, parsed by the three-field parser. |
| PowerSupply.RigolDP2301.EnableOutput | drivers/rigol_dp2031.py:323-340 | It validates the channel, then writes ":OUTP CH{n},ON" or ",OFF". |
| PowerSupply.RigolDP2301.IsOutputEnabled | drivers/rigol_dp2031.py:342-363 | It validates the channel, then queries ":OUTP? CH{n}" and parses the output state. |
| PowerSupply.RigolDP2301.GetError | drivers/rigol_dp2031.py:366-376 | Never raises: the instrument's answer, or "Unable to query error" when the query fails (nothing is sent when not connected). |
| PowerReference.Switch | drivers/rigol_dp2031.py:336-337 | Switching a channel sets that channel and leaves the other two as they were. |
| PowerReference.DecodeOutputCommandOf | drivers/rigol_dp2031.py:336-337 | Every command enable_output sends decodes as the channel and state it was built from. |
| PowerReference.DecodeOutputQueryOf | drivers/rigol_dp2031.py:357 | Every query is_output_enabled sends decodes as its channel. |
| PowerReference.EnableThenReadBack | drivers/rigol_dp2031.py:323-363 | On a connected reference supply, enable_output switches that channel alone, and is_output_enabled then reports the state written. |

## Left out

- ModbusDriver.Device: a successful read is assumed to return exactly the number of registers asked for. The IndexError that a shorter response would raise at drivers/alicat.py:136, 217 and 294 is not modelled. ModbusDriver.Alicat.ReadPid, ModbusDriver.Alicat.Read and ModbusDriver.Alicat.ReadPair rely on this.
- DriverContract.Arg / DriverContract.AsInt: a caller's Python float is an exact real, so NaN and ±inf are not represented, and a float conversion cannot overflow. These behaviours are not modelled:
  - `int()` of NaN raises ValueError, and of ±inf raises OverflowError, in set_pid of both drivers (drivers/alicat.py:339, 350, 361; drivers/alicat_serial.py:286, 291, 296) and in set_gas (drivers/alicat_serial.py:267).
  - A NaN setpoint fails the range check at drivers/alicat.py:265-266 and is then written as NaN bits.
  - `:.3f`/`:.4f` of an int too large for a float raises OverflowError, whereas the `fixed3`/`fixed4` oracles are total.
- DriverContract.AsInt: the contract does not state the string case (`int(" 12 ")`). The body models it as `int()` on the stripped string, with an optional sign and ASCII digits.
- Python's `int()` also accepts underscores between digits and non-ASCII digits. These are not modelled.
- Python's `bool` is a subclass of `int`, so `True` would pass the channel check as channel 1. Booleans are not among the modelled argument values.
- Locks, `time.sleep` delays and logger calls are not modelled. Each public operation is atomic. For the setpoint range check, SetFlowRate returns a ghost `warned` flag in place of the log line.
- IEEE-754 reinterpretation is not modelled:
  - `struct.pack`/`unpack` work on bit patterns; `packF32` is an oracle that returns none on OverflowError.
  - `float()` parsing (`parseFloat`) and `:.3f`/`:.4f` formatting (`fixed3`, `fixed4`) are oracles.
  - Modbus telemetry is returned as bit patterns.
- pymodbus, pyserial and pyvisa are oracles over the history of what was attempted. A Modbus request during which pymodbus raised stays in `wire`, though it may never have reached the device:
  - Connection attempts appear as boolean parameters (`reachable`, `opens`). pymodbus's `connected` property of a client is the oracle `live`, a function of the requests attempted so far.
  - An exception raised by pymodbus is modelled as a reply of its own (`Raised`). It passes through the driver as `LinkFault`.
  - An exception raised by pyvisa is modelled as a reply of its own (`Raised`). The wrapper turns it into a command or query failure (`CommandFailed`).
  - Exceptions raised by pyserial are not modelled: `reset_input_buffer`, `write` and `read_until` always return. The only serial failure is a blank reply, which `_command` turns into a timeout (`NoResponse`).
  - Reconnect logic inside pymodbus and ASCII decode errors are not modelled.
- The `shutdown` method of the serial driver only takes the lock around `close`, so Close models it.
- The context-manager methods `__enter__`/`__exit__` of the power supply are `connect` and `disconnect`, which are modelled.
- The serial status parser's `"Unknown"` default for the gas field is dead code: fewer than 7 tokens already raises. The model has no such branch.
- The reference controller takes only gain values that fit one 16-bit register. Larger values are refused by the reference write.
- `read_setpoint`, `read_mass_flow`, `read_pressure` and `read_temperature` have no simulation-mode shortcut. In dummy mode they raise "Not connected", as the code does.
- The Modbus guard tests for a client object, not for `connected`. After a failed `initialize`, later operations still reach the transport, as in the code.
- `liquid_line_test.py` (orchestration, plotting, CSV output) is not part of this model.
