/**
 * The SCPI wrapper of the Rigol DP2301 three-channel power supply: channel
 * validation, the channel-addressed command strings, the parsers of the
 * numeric replies, and the connected/instrument state that gates every
 * write and query.
 *
 * The VISA instrument is an oracle: a function from the history of
 * messages handed to it to its reply to the last one, which is either an
 * answer line or an exception.
 */
module PowerSupply {
  import opened Common
  import opened Text
  import opened Decimal
  import opened DriverContract

  const MAX_CHANNELS: int := 3

  /** A message handed to the instrument: instrument.write(text) or instrument.query(text). */
  datatype Message = ScpiWrite(text: string) | ScpiQuery(text: string)

  /** What the instrument does with the last message of a history. */
  datatype Reply = Answer(text: string) | Raised

  type Instrument = seq<Message> -> Reply

  const IDN_QUERY: string := "*IDN?"
  const CLEAR_STATUS: string := "*CLS"
  const ERROR_QUERY: string := ":SYST:ERR?"
  const UNABLE_TO_QUERY: string := "Unable to query error"

  /** _validate_channel: an int from 1 to MAX_CHANNELS (a float, string or None is refused). */
  predicate ValidChannel(ch: Arg): (ok: bool)
    ensures ok <==> ch == Int(1) || ch == Int(2) || ch == Int(3)
  {
    ch.Int? && 1 <= ch.n <= MAX_CHANNELS
  }

  /** The value a channel query reads. */
  datatype Quantity = VoltageSetting | CurrentSetting | MeasuredVoltage | MeasuredCurrent | MeasuredPower

  /** ":SOUR{ch}:VOLT {v:.3f}" with the formatted value given. */
  function VoltageCommand(n: int, value: string): string {
    ":SOUR" + ShowInt(n) + ":VOLT " + value
  }

  /** ":SOUR{ch}:CURR {i:.3f}" with the formatted value given. */
  function CurrentCommand(n: int, value: string): string {
    ":SOUR" + ShowInt(n) + ":CURR " + value
  }

  /** The query each single-value getter sends for channel n. */
  function ValueQuery(q: Quantity, n: int): string {
    match q
    case VoltageSetting => ":SOUR" + ShowInt(n) + ":VOLT?"
    case CurrentSetting => ":SOUR" + ShowInt(n) + ":CURR?"
    case MeasuredVoltage => ":MEAS:VOLT? CH" + ShowInt(n)
    case MeasuredCurrent => ":MEAS:CURR? CH" + ShowInt(n)
    case MeasuredPower => ":MEAS:POW? CH" + ShowInt(n)
  }

  function MeasureAllQuery(n: int): string {
    ":MEAS:ALL? CH" + ShowInt(n)
  }

  /** ":OUTP CH{ch},ON" or ":OUTP CH{ch},OFF" */
  function OutputCommand(n: int, on: bool): string {
    ":OUTP CH" + ShowInt(n) + "," + (if on then "ON" else "OFF")
  }

  function OutputQuery(n: int): string {
    ":OUTP? CH" + ShowInt(n)
  }

  /** The output command names its channel and its state: different (channel, state) pairs give different commands. */
  lemma OutputCommandInjective(n1: int, on1: bool, n2: int, on2: bool)
    requires OutputCommand(n1, on1) == OutputCommand(n2, on2)
    ensures n1 == n2 && on1 == on2
  {
    var head1, head2 := ":OUTP CH" + ShowInt(n1), ":OUTP CH" + ShowInt(n2);
    var tail1, tail2 := (if on1 then "ON" else "OFF"), (if on2 then "ON" else "OFF");
    assert OutputCommand(n1, on1) == head1 + [','] + tail1;
    assert OutputCommand(n2, on2) == head2 + [','] + tail2;
    NoCommaInShowInt(n1);
    NoCommaInShowInt(n2);
    SplitOnField(head1, ',', tail1);
    SplitOnField(head2, ',', tail2);
    SplitOnNoSep(tail1, ',');
    SplitOnNoSep(tail2, ',');
    assert [head1, tail1] == [head2, tail2];
    assert ShowInt(n1) == head1[8..] == head2[8..] == ShowInt(n2);
    ShowIntInjective(n1, n2);
  }

  /** str(n) holds no comma, so a comma after it ends the number. */
  lemma NoCommaInShowInt(n: int)
    ensures ',' !in ":OUTP CH" + ShowInt(n)
  {
    var s := ShowInt(n);
    assert forall k :: 0 <= k < |s| ==> s[k] != ',' by {
      forall k | 0 <= k < |s| ensures s[k] != ',' {
        if k > 0 {
          assert IsDigit(s[k]);
        }
      }
    }
  }

  /** float(response.strip()) for the single-value getters; None where float() raises. */
  function ParseValue(parseFloat: string -> Option<real>, response: string): (r: Result<real>)
    ensures r.Ok? <==> parseFloat(Strip(response)).Some?
    ensures r.Ok? ==> r.value == parseFloat(Strip(response)).value
    ensures r.Err? ==> r.error == Malformed
  {
    match parseFloat(Strip(response))
    case Some(x) => Ok(x)
    case None => Err(Malformed)
  }

  /**
   * A reply that is a number float() accepts, with any whitespace around it (the
   * instrument's line terminator included), reads back as that number.
   */
  lemma ValueRoundTrip(parseFloat: string -> Option<real>, pre: string, t: string, post: string)
    requires forall i :: 0 <= i < |pre| ==> IsSpace(pre[i])
    requires forall i :: 0 <= i < |post| ==> IsSpace(post[i])
    requires t != [] && !IsSpace(t[0]) && !IsSpace(t[|t| - 1])
    requires parseFloat(t).Some?
    ensures ParseValue(parseFloat, pre + t + post) == Ok(parseFloat(t).value)
  {
    StripPadded(pre, t, post);
  }

  /**
   * read_measurements' parser: strip, split on ',', exactly three fields, each
   * through float(); (voltage, current, power) in field order.
   */
  function ParseMeasurements(parseFloat: string -> Option<real>, response: string): (r: Result<(real, real, real)>)
    ensures var fields := SplitOn(Strip(response), ',');
      && (|fields| != 3 ==> r == Err(Malformed))
      && (r.Ok? <==> |fields| == 3 && parseFloat(fields[0]).Some? && parseFloat(fields[1]).Some?
                                   && parseFloat(fields[2]).Some?)
      && (r.Ok? ==> r.value == (parseFloat(fields[0]).value, parseFloat(fields[1]).value, parseFloat(fields[2]).value))
    ensures r.Err? ==> r.error == Malformed
  {
    var fields := SplitOn(Strip(response), ',');
    if |fields| != 3 then Err(Malformed)
    else match (parseFloat(fields[0]), parseFloat(fields[1]), parseFloat(fields[2]))
      case (Some(v), Some(c), Some(p)) => Ok((v, c, p))
      case _ => Err(Malformed)
  }

  /**
   * A reply of three comma-separated numbers reads back as those numbers: fields
   * without commas, not starting or ending in whitespace, that float() accepts.
   */
  lemma {:induction false} MeasurementsRoundTrip(parseFloat: string -> Option<real>, v: string, c: string, p: string)
    requires ',' !in v && ',' !in c && ',' !in p
    requires v != [] && !IsSpace(v[0]) && p != [] && !IsSpace(p[|p| - 1])
    requires parseFloat(v).Some? && parseFloat(c).Some? && parseFloat(p).Some?
    ensures ParseMeasurements(parseFloat, v + "," + c + "," + p)
         == Ok((parseFloat(v).value, parseFloat(c).value, parseFloat(p).value))
  {
    var line := v + "," + c + "," + p;
    assert JoinWith([v, c, p], ',') == line by {
      assert JoinWith([p], ',') == p;
      assert JoinWith([c, p], ',') == c + "," + p;
    }
    SplitOnJoinWith([v, c, p], ',');
    assert line[0] == v[0] && line[|line| - 1] == p[|p| - 1];
    assert Strip(line) == line;
  }

  /** A reply with other than three fields is refused, whatever its fields are. */
  lemma {:induction false} MeasurementsNeedThreeFields(parseFloat: string -> Option<real>, parts: seq<string>)
    requires |parts| >= 1 && |parts| != 3
    requires forall k :: 0 <= k < |parts| ==> ',' !in parts[k]
    requires Strip(JoinWith(parts, ',')) == JoinWith(parts, ',')
    ensures ParseMeasurements(parseFloat, JoinWith(parts, ',')) == Err(Malformed)
  {
    SplitOnJoinWith(parts, ',');
  }

  /** bool(int(response.strip())): nonzero is on; None where int() raises. */
  function ParseOutputState(response: string): (r: Result<bool>)
    ensures r.Ok? <==> ParseInt(Strip(response)).Some?
    ensures r.Ok? ==> (r.value <==> ParseInt(Strip(response)).value != 0)
    ensures r.Err? ==> r.error == Malformed
  {
    match ParseInt(Strip(response))
    case Some(n) => Ok(n != 0)
    case None => Err(Malformed)
  }

  /** A reply holding str(n) reads as enabled exactly when n is nonzero. */
  lemma OutputStateOfShowInt(n: int)
    ensures ParseOutputState(ShowInt(n)) == Ok(n != 0)
  {
    var s := ShowInt(n);
    assert !IsSpace(s[0]) && !IsSpace(s[|s| - 1]) by {
      if |s| > 1 {
        assert IsDigit(s[|s| - 1]);
      }
    }
    assert Strip(s) == s;
    ParseShowInt(n);
  }

  /**
   * What write(text) or query(text) does from the guard state and history it
   * starts with: refused when not connected, otherwise the message is handed
   * to the instrument and its answer (or exception) comes back.
   */
  function Deliver(dev: Instrument, open: bool, w: seq<Message>, m: Message): (seq<Message>, Result<string>) {
    if !open then (w, Err(NotConnected))
    else
      var w' := w + [m];
      (w', match dev(w') case Answer(t) => Ok(t) case Raised => Err(CommandFailed))
  }

  /** A channel-addressed write: the channel is checked first, then the command goes out. */
  function ChannelWrite(dev: Instrument, open: bool, w: seq<Message>, ch: Arg, cmd: int -> string)
    : (seq<Message>, Result<()>)
  {
    if !ValidChannel(ch) then (w, Err(InvalidChannel))
    else
      var (w', r) := Deliver(dev, open, w, ScpiWrite(cmd(ch.n)));
      (w', if r.Err? then Err(r.error) else Ok(()))
  }

  /** enable_output(ch, on) from the guard state and history it starts with. */
  function EnableOutputEffect(dev: Instrument, open: bool, w: seq<Message>, ch: Arg, on: bool): (seq<Message>, Result<()>) {
    ChannelWrite(dev, open, w, ch, n => OutputCommand(n, on))
  }

  /** is_output_enabled(ch) from the guard state and history it starts with. */
  function OutputStateEffect(dev: Instrument, open: bool, w: seq<Message>, ch: Arg): (seq<Message>, Result<bool>) {
    if !ValidChannel(ch) then (w, Err(InvalidChannel))
    else
      var (w', r) := Deliver(dev, open, w, ScpiQuery(OutputQuery(ch.n)));
      (w', if r.Err? then Err(r.error) else ParseOutputState(r.value))
  }

  /** An invalid channel is refused before anything reaches the instrument, connected or not. */
  lemma InvalidChannelSendsNothing(dev: Instrument, open: bool, w: seq<Message>, ch: Arg, on: bool)
    requires !ValidChannel(ch)
    ensures EnableOutputEffect(dev, open, w, ch, on) == (w, Err(InvalidChannel))
    ensures OutputStateEffect(dev, open, w, ch) == (w, Err(InvalidChannel))
  {
  }

  class RigolDP2301 {
    /** The VISA resource behind the resource string, once opened. */
    const device: Instrument
    const parseFloat: string -> Option<real>
    /** f"{x:.3f}" */
    const fixed3: real -> string

    /** Whether `instrument` is not None. */
    var instrument: bool
    var isConnected: bool
    /** Every message handed to the instrument, oldest first. */
    var log: seq<Message>

    /** The connected flag is only ever set while an instrument is held. */
    ghost predicate Valid()
      reads this
    {
      isConnected ==> instrument
    }

    constructor (device: Instrument, parseFloat: string -> Option<real>, fixed3: real -> string)
      ensures Valid()
      ensures this.device == device && this.parseFloat == parseFloat && this.fixed3 == fixed3
      ensures !instrument && !isConnected && log == []
    {
      this.device := device;
      this.parseFloat := parseFloat;
      this.fixed3 := fixed3;
      instrument := false;
      isConnected := false;
      log := [];
    }

    /** The guard of write and query. */
    predicate Open()
      reads this
    {
      isConnected && instrument
    }

    /** write(command) */
    method Write(command: string) returns (r: Result<()>)
      modifies this`log
      ensures var (w', e) := Deliver(device, old(Open()), old(log), ScpiWrite(command));
        log == w' && r == (if e.Err? then Err(e.error) else Ok(()))
      ensures !Open() ==> r == Err(NotConnected) && log == old(log)
    {
      if !isConnected || !instrument {
        return Err(NotConnected);
      }
      log := log + [ScpiWrite(command)];
      if device(log).Raised? {
        return Err(CommandFailed);
      }
      r := Ok(());
    }

    /** query(command) */
    method Query(command: string) returns (r: Result<string>)
      modifies this`log
      ensures (log, r) == Deliver(device, old(Open()), old(log), ScpiQuery(command))
      ensures !Open() ==> r == Err(NotConnected) && log == old(log)
    {
      if !isConnected || !instrument {
        return Err(NotConnected);
      }
      log := log + [ScpiQuery(command)];
      match device(log)
      case Answer(t) => r := Ok(t);
      case Raised => r := Err(CommandFailed);
    }

    /**
     * connect(): `opens` is whether the resource manager opens the resource.
     * On success "*IDN?" was asked and "*CLS" written; on any failure
     * neither flag is left set.
     */
    method Connect(opens: bool) returns (r: Result<()>)
      requires Valid()
      modifies this`instrument, this`isConnected, this`log
      ensures Valid()
      ensures !opens ==> r == Err(ConnectFailed) && !instrument && !isConnected && log == old(log)
      ensures opens ==>
        var (w1, idn) := Deliver(device, true, old(log), ScpiQuery(IDN_QUERY));
        if idn.Err? then log == w1 && r == Err(ConnectFailed) && !instrument && !isConnected
        else
          var (w2, cls) := Deliver(device, true, w1, ScpiWrite(CLEAR_STATUS));
          && log == w2
          && (cls.Ok? ==> r == Ok(()) && instrument && isConnected)
          && (cls.Err? ==> r == Err(ConnectFailed) && !instrument && !isConnected)
      ensures r.Err? ==> !instrument && !isConnected
    {
      if !opens {
        isConnected := false;
        instrument := false;
        return Err(ConnectFailed);
      }
      instrument := true;
      isConnected := true;
      var idn := Query(IDN_QUERY);
      if idn.Err? {
        isConnected := false;
        instrument := false;
        return Err(ConnectFailed);
      }
      var cls := Write(CLEAR_STATUS);
      if cls.Err? {
        isConnected := false;
        instrument := false;
        return Err(ConnectFailed);
      }
      r := Ok(());
    }

    /** disconnect(): clears both flags when an instrument was held, and nothing otherwise. */
    method Disconnect()
      requires Valid()
      modifies this`instrument, this`isConnected
      ensures Valid()
      ensures !instrument && !isConnected
      ensures !old(instrument) ==> isConnected == old(isConnected) && instrument == old(instrument)
    {
      if instrument {
        instrument := false;
        isConnected := false;
      }
    }

    /** set_voltage(ch, v): a value that is not a number fails the :.3f format after the channel check. */
    method SetVoltage(ch: Arg, v: Arg) returns (r: Result<()>)
      modifies this`log
      ensures !ValidChannel(ch) ==> r == Err(InvalidChannel) && log == old(log)
      ensures ValidChannel(ch) && AsFloat(v).Err? ==> r == Err(WrongType) && log == old(log)
      ensures ValidChannel(ch) && AsFloat(v).Ok? ==>
        (log, r) == ChannelWrite(device, old(Open()), old(log), ch, n => VoltageCommand(n, fixed3(AsFloat(v).value)))
    {
      if !ValidChannel(ch) {
        return Err(InvalidChannel);
      }
      var x := AsFloat(v);
      if x.Err? {
        return Err(x.error);
      }
      r := Write(VoltageCommand(ch.n, fixed3(x.value)));
    }

    /** set_current_limit(ch, i): a value that is not a number fails the :.3f format after the channel check. */
    method SetCurrentLimit(ch: Arg, i: Arg) returns (r: Result<()>)
      modifies this`log
      ensures !ValidChannel(ch) ==> r == Err(InvalidChannel) && log == old(log)
      ensures ValidChannel(ch) && AsFloat(i).Err? ==> r == Err(WrongType) && log == old(log)
      ensures ValidChannel(ch) && AsFloat(i).Ok? ==>
        (log, r) == ChannelWrite(device, old(Open()), old(log), ch, n => CurrentCommand(n, fixed3(AsFloat(i).value)))
    {
      if !ValidChannel(ch) {
        return Err(InvalidChannel);
      }
      var x := AsFloat(i);
      if x.Err? {
        return Err(x.error);
      }
      r := Write(CurrentCommand(ch.n, fixed3(x.value)));
    }

    /** get_voltage_setting, get_current_setting, read_voltage, read_current and read_power. */
    method ReadValue(q: Quantity, ch: Arg) returns (r: Result<real>)
      modifies this`log
      ensures !ValidChannel(ch) ==> r == Err(InvalidChannel) && log == old(log)
      ensures ValidChannel(ch) ==>
        var (w', e) := Deliver(device, old(Open()), old(log), ScpiQuery(ValueQuery(q, ch.n)));
        log == w' && r == (if e.Err? then Err(e.error) else ParseValue(parseFloat, e.value))
    {
      if !ValidChannel(ch) {
        return Err(InvalidChannel);
      }
      var response := Query(ValueQuery(q, ch.n));
      if response.Err? {
        return Err(response.error);
      }
      r := ParseValue(parseFloat, response.value);
    }

    /** read_measurements(ch): (voltage, current, power) from one ":MEAS:ALL?" reply. */
    method ReadMeasurements(ch: Arg) returns (r: Result<(real, real, real)>)
      modifies this`log
      ensures !ValidChannel(ch) ==> r == Err(InvalidChannel) && log == old(log)
      ensures ValidChannel(ch) ==>
        var (w', e) := Deliver(device, old(Open()), old(log), ScpiQuery(MeasureAllQuery(ch.n)));
        log == w' && r == (if e.Err? then Err(e.error) else ParseMeasurements(parseFloat, e.value))
    {
      if !ValidChannel(ch) {
        return Err(InvalidChannel);
      }
      var response := Query(MeasureAllQuery(ch.n));
      if response.Err? {
        return Err(response.error);
      }
      r := ParseMeasurements(parseFloat, response.value);
    }

    /** enable_output(ch, on) */
    method EnableOutput(ch: Arg, on: bool) returns (r: Result<()>)
      modifies this`log
      ensures (log, r) == EnableOutputEffect(device, old(Open()), old(log), ch, on)
    {
      if !ValidChannel(ch) {
        return Err(InvalidChannel);
      }
      r := Write(OutputCommand(ch.n, on));
    }

    /** is_output_enabled(ch) */
    method IsOutputEnabled(ch: Arg) returns (r: Result<bool>)
      modifies this`log
      ensures (log, r) == OutputStateEffect(device, old(Open()), old(log), ch)
    {
      if !ValidChannel(ch) {
        return Err(InvalidChannel);
      }
      var response := Query(OutputQuery(ch.n));
      if response.Err? {
        return Err(response.error);
      }
      r := ParseOutputState(response.value);
    }

    /** get_error(): never raises; the instrument's answer, or a fixed text when the query fails. */
    method GetError() returns (text: string)
      modifies this`log
      ensures var (w', e) := Deliver(device, old(Open()), old(log), ScpiQuery(ERROR_QUERY));
        log == w' && text == (if e.Ok? then e.value else UNABLE_TO_QUERY)
      ensures !Open() ==> text == UNABLE_TO_QUERY && log == old(log)
    {
      var response := Query(ERROR_QUERY);
      text := if response.Ok? then response.value else UNABLE_TO_QUERY;
    }
  }
}
