/**
 * The ASCII serial driver of the mass-flow controller (drivers/alicat_serial.py).
 *
 * The serial port is replaced by an oracle: the line the device answers (up to
 * its carriage return, decoded) as a function of every frame written so far
 * (`sent`). float(token) is the oracle `parseFloat`, and `:.4f` formatting the
 * oracle `fixed4`.
 */
module SerialDriver {
  import opened Common
  import opened Text
  import opened Decimal
  import opened DriverContract

  /** The gas names the driver knows, with the controller's gas numbers. */
  const GAS_TABLE: map<string, int> := map[
    "Air" := 0, "Ar" := 1, "CH4" := 2, "CO" := 3, "CO2" := 4, "C2H6" := 5,
    "H2" := 6, "He" := 7, "N2" := 8, "N2O" := 9, "Ne" := 10, "O2" := 11,
    "C3H8" := 12, "SF6" := 13, "C4H10" := 14, "C2H2" := 15, "C2H4" := 16,
    "NH3" := 18, "Kr" := 20, "Xe" := 21, "CF4" := 25]

  /** GAS_TABLE.get(name, 0): an unknown name selects gas 0. */
  function GasCode(name: string): (code: int)
    ensures name in GAS_TABLE ==> code == GAS_TABLE[name]
    ensures name !in GAS_TABLE ==> code == 0
  {
    if name in GAS_TABLE then GAS_TABLE[name] else 0
  }

  /** Gas 0 is chosen exactly for "Air" and for every name the table does not know. */
  lemma GasCodeZero(name: string)
    ensures GasCode(name) == 0 <==> name == "Air" || name !in GAS_TABLE
  {
  }

  /** Two known names never share a gas number. */
  lemma GasTableInjective(a: string, b: string)
    requires a in GAS_TABLE && b in GAS_TABLE && GAS_TABLE[a] == GAS_TABLE[b]
    ensures a == b
  {
  }

  // ---------------------------------------------------------------- commands

  function SlotDigit(s: Slot): char {
    match s case P => '1' case D => '2' case I => '3'
  }

  /** "W21=v", "W22=v", "W23=v": write a PID register. */
  function GainCommand(s: Slot, v: int): string {
    "W2" + [SlotDigit(s)] + "=" + ShowInt(v)
  }

  /** The controller's reading of a register-write command. */
  function ParseGainCommand(cmd: string): Option<(Slot, int)> {
    if |cmd| >= 4 && cmd[..2] == "W2" && cmd[3] == '=' && cmd[2] in {'1', '2', '3'} then
      var slot := if cmd[2] == '1' then P else if cmd[2] == '2' then D else I;
      match ParseInt(cmd[4..])
      case Some(v) => Some((slot, v))
      case None => None
    else None
  }

  /** A gain command names its register and its value unambiguously. */
  lemma GainCommandRoundTrip(s: Slot, v: int)
    ensures ParseGainCommand(GainCommand(s, v)) == Some((s, v))
  {
    var cmd := GainCommand(s, v);
    assert cmd[..2] == "W2" && cmd[4..] == ShowInt(v);
    ParseShowInt(v);
  }

  /** "G<n>": select gas n. */
  function GasCommand(code: int): string {
    "G" + ShowInt(code)
  }

  lemma GasCommandRoundTrip(code: int)
    ensures GasCommand(code)[0] == 'G' && ParseInt(GasCommand(code)[1..]) == Some(code)
  {
    assert GasCommand(code)[1..] == ShowInt(code);
    ParseShowInt(code);
  }

  lemma ShowIntSolid(n: int)
    ensures Solid(ShowInt(n))
  {
    var s := ShowInt(n);
    if n >= 0 {
      assert s == ShowNat(n);
      assert IsDigit(s[0]);
    }
  }

  // ---------------------------------------------------------------- replies

  /** The fields of a status line "<unit> <pressure> <temperature> <vol flow> <mass flow> <setpoint> <gas> ...". */
  datatype Status = Status(pressure: real, temperature: real, volumetricFlow: real,
                           massFlow: real, setpoint: real, gas: string)

  /** _parse_status_response: fewer than 7 tokens, or a numeric field float() rejects, is a ValueError. */
  function ParseStatus(parseFloat: string -> Option<real>, line: string): (r: Result<Status>)
    ensures |Tokens(line)| < 7 ==> r == Err(Malformed)
    ensures r.Err? ==> r == Err(Malformed)
    ensures r.Ok? <==> |Tokens(line)| >= 7 && forall k :: 1 <= k <= 5 ==> parseFloat(Tokens(line)[k]).Some?
    ensures r.Ok? ==>
      var ts := Tokens(line);
      && Some(r.value.pressure) == parseFloat(ts[1])
      && Some(r.value.temperature) == parseFloat(ts[2])
      && Some(r.value.volumetricFlow) == parseFloat(ts[3])
      && Some(r.value.massFlow) == parseFloat(ts[4])
      && Some(r.value.setpoint) == parseFloat(ts[5])
      && r.value.gas == ts[6]
  {
    var ts := Tokens(line);
    if |ts| < 7 then Err(Malformed)
    else
      var fields := [parseFloat(ts[1]), parseFloat(ts[2]), parseFloat(ts[3]), parseFloat(ts[4]), parseFloat(ts[5])];
      if exists k :: 0 <= k < 5 && fields[k].None? then Err(Malformed)
      else
        assert forall k :: 1 <= k <= 5 ==> parseFloat(ts[k]) == fields[k - 1];
        Ok(Status(fields[0].value, fields[1].value, fields[2].value, fields[3].value, fields[4].value, ts[6]))
  }

  /** A status line assembled from well-formed tokens parses back to its fields; tokens after the gas are ignored. */
  lemma ParseStatusLine(parseFloat: string -> Option<real>, unit: string, fields: seq<string>, gas: string, extra: seq<string>)
    requires |fields| == 5 && Solid(unit) && Solid(gas)
    requires forall k :: 0 <= k < 5 ==> Solid(fields[k]) && parseFloat(fields[k]).Some?
    requires forall k :: 0 <= k < |extra| ==> Solid(extra[k])
    ensures ParseStatus(parseFloat, Unwords([unit] + fields + [gas] + extra)) ==
      Ok(Status(parseFloat(fields[0]).value, parseFloat(fields[1]).value, parseFloat(fields[2]).value,
                parseFloat(fields[3]).value, parseFloat(fields[4]).value, gas))
  {
    var ts := [unit] + fields + [gas] + extra;
    StatusTokensSolid(unit, fields, gas, extra);
    TokensOfUnwords(ts);
    assert ts[1..6] == fields && ts[6] == gas;
    ParseStatusOfTokens(parseFloat, Unwords(ts), ts, fields, gas);
  }

  lemma ParseStatusOfTokens(parseFloat: string -> Option<real>, line: string, ts: seq<string>, fields: seq<string>, gas: string)
    requires Tokens(line) == ts && |fields| == 5 && |ts| >= 7
    requires ts[1..6] == fields && ts[6] == gas
    requires forall k :: 0 <= k < 5 ==> parseFloat(fields[k]).Some?
    ensures ParseStatus(parseFloat, line) ==
      Ok(Status(parseFloat(fields[0]).value, parseFloat(fields[1]).value, parseFloat(fields[2]).value,
                parseFloat(fields[3]).value, parseFloat(fields[4]).value, gas))
  {
    assert forall k :: 1 <= k <= 5 ==> ts[k] == fields[k - 1];
  }

  lemma StatusTokensSolid(unit: string, fields: seq<string>, gas: string, extra: seq<string>)
    requires |fields| == 5 && Solid(unit) && Solid(gas)
    requires forall k :: 0 <= k < 5 ==> Solid(fields[k])
    requires forall k :: 0 <= k < |extra| ==> Solid(extra[k])
    ensures var ts := [unit] + fields + [gas] + extra;
      forall k :: 0 <= k < |ts| ==> Solid(ts[k])
  {
    var ts := [unit] + fields + [gas] + extra;
    forall k | 0 <= k < |ts| ensures Solid(ts[k]) {
      if k == 0 {
      } else if k <= 5 {
        assert ts[k] == fields[k - 1];
      } else if k == 6 {
      } else {
        assert ts[k] == extra[k - 7];
      }
    }
  }

  /** The gain in a reply "<unit> <value>": the second token as an int, or 0 when there is none. */
  function GainToken(reply: string): (r: Option<int>)
    ensures |Tokens(reply)| <= 1 ==> r == Some(0)
    ensures |Tokens(reply)| > 1 ==> r == ParseInt(Tokens(reply)[1])
  {
    var ts := Tokens(reply);
    if |ts| > 1 then ParseInt(ts[1]) else Some(0)
  }

  const ZERO_GAINS: Gains := Gains(0, 0, 0)

  /** The three replies of a PID read: any int() failure gives zero for all three gains, not just its own. */
  function PidFromReplies(rp: string, rd: string, ri: string): (g: Gains)
    ensures GainToken(rp).Some? && GainToken(rd).Some? && GainToken(ri).Some? ==>
      g == Gains(GainToken(rp).value, GainToken(rd).value, GainToken(ri).value)
    ensures GainToken(rp).None? || GainToken(rd).None? || GainToken(ri).None? ==> g == ZERO_GAINS
  {
    match (GainToken(rp), GainToken(rd), GainToken(ri))
    case (Some(p), Some(d), Some(i)) => Gains(p, d, i)
    case _ => ZERO_GAINS
  }

  /** The reply the controller gives to a register read, "<unit> <value>", yields that value. */
  lemma GainReplyRoundTrip(unit: string, v: int)
    requires Solid(unit)
    ensures GainToken(Unwords([unit, ShowInt(v)])) == Some(v)
  {
    ShowIntSolid(v);
    TokensOfUnwords([unit, ShowInt(v)]);
    ParseShowInt(v);
  }

  lemma PidRepliesRoundTrip(unit: string, g: Gains)
    requires Solid(unit)
    ensures PidFromReplies(Unwords([unit, ShowInt(g.p)]), Unwords([unit, ShowInt(g.d)]), Unwords([unit, ShowInt(g.i)])) == g
  {
    GainReplyRoundTrip(unit, g.p);
    GainReplyRoundTrip(unit, g.d);
    GainReplyRoundTrip(unit, g.i);
  }

  // ---------------------------------------------------------------- write()

  /** The key priority of write(): setpoint, then pressure, then gas, then any of P, D, I; otherwise nothing. */
  function SerialRoute(data: map<string, Arg>): (c: Command)
    ensures "setpoint" in data ==> c == SetSetpoint(data["setpoint"])
    ensures "setpoint" !in data && "pressure" in data ==> c == SetPressure(data["pressure"])
    ensures "setpoint" !in data && "pressure" !in data && "gas" in data ==> c == SetGas(data["gas"])
    ensures "setpoint" !in data && "pressure" !in data && "gas" !in data && HasGainKey(data) ==>
      c == SetPid(Lookup(data, "P"), Lookup(data, "D"), Lookup(data, "I"))
    ensures c == NoOp <==> "setpoint" !in data && "pressure" !in data && "gas" !in data && !HasGainKey(data)
  {
    if "setpoint" in data then SetSetpoint(data["setpoint"])
    else if "pressure" in data then SetPressure(data["pressure"])
    else if "gas" in data then SetGas(data["gas"])
    else if HasGainKey(data) then SetPid(Lookup(data, "P"), Lookup(data, "D"), Lookup(data, "I"))
    else NoOp
  }

  // ---------------------------------------------------------------- the driver

  datatype SerialReading = SerialReading(connected: bool, setpoint: real, pressure: real, temperature: real,
                                         volumetricFlow: real, massFlow: real, valveDrive: real,
                                         pid: Option<Gains>)

  const DUMMY_SERIAL_READING: SerialReading :=
    SerialReading(true, 22.0, 8.92, 23.5, 22.0, 23.0, 27.0, None)

  const DUMMY_SERIAL_GAINS: Gains := Gains(50, 120, 0)

  /** The telemetry of a status line; the valve drive is not part of it and is reported as 0.0. */
  function FromStatus(connected: bool, st: Status, pid: Option<Gains>): SerialReading {
    SerialReading(connected, st.setpoint, st.pressure, st.temperature, st.volumetricFlow, st.massFlow, 0.0, pid)
  }

  class AlicatSerial {
    const unitId: string
    /** Simulation mode: fixed values, no serial port. */
    const dummy: bool
    /** The line the device answers to the last frame of a history, up to its carriage return. */
    const device: seq<string> -> string
    const parseFloat: string -> Option<real>
    const fixed4: real -> string

    /** Whether `_serial` holds an open port. */
    var port: bool
    var connected: bool
    /** Every frame written to the port, oldest first. */
    var sent: seq<string>

    ghost predicate Valid()
      reads this
    {
      && (dummy ==> !port && sent == [])
      && (!dummy && connected ==> port)
    }

    constructor (unitId: string, dummy: bool, device: seq<string> -> string,
                 parseFloat: string -> Option<real>, fixed4: real -> string)
      ensures Valid()
      ensures this.unitId == unitId && this.dummy == dummy && this.device == device
      ensures this.parseFloat == parseFloat && this.fixed4 == fixed4
      ensures !port && !connected && sent == []
    {
      this.unitId := unitId;
      this.dummy := dummy;
      this.device := device;
      this.parseFloat := parseFloat;
      this.fixed4 := fixed4;
      port := false;
      connected := false;
      sent := [];
    }

    /** The bytes written for a command: unit id, command, carriage return. */
    function Frame(cmd: string): string {
      unitId + cmd + "\r"
    }

    /** A frame is the unit id, the command and a carriage return, so the command can be read back from it. */
    lemma FrameParts(cmd: string)
      ensures var f := Frame(cmd);
        && |f| == |unitId| + |cmd| + 1
        && f[..|unitId|] == unitId && f[|unitId|..|f| - 1] == cmd && f[|f| - 1] == '\r'
    {
    }

    lemma FrameInjective(c1: string, c2: string)
      requires Frame(c1) == Frame(c2)
      ensures c1 == c2
    {
      FrameParts(c1);
      FrameParts(c2);
    }

    /** What _command(cmd) does from the port state and history it starts with: the frame sent and the stripped reply. */
    function Ask(open: bool, w: seq<string>, cmd: string): (seq<string>, Result<string>) {
      if !open then (w, Err(NotConnected))
      else
        var w' := w + [Frame(cmd)];
        var reply := Strip(device(w'));
        (w', if reply == [] then Err(NoResponse) else Ok(reply))
    }

    /** _command(cmd) */
    method Command(cmd: string) returns (r: Result<string>)
      modifies this`sent
      ensures (sent, r) == Ask(port, old(sent), cmd)
    {
      if !port {
        return Err(NotConnected);
      }
      sent := sent + [Frame(cmd)];
      var reply := Strip(device(sent));
      if reply == [] {
        return Err(NoResponse);
      }
      r := Ok(reply);
    }

    /** initialize(): `opens` is whether the port can be opened. */
    method Initialize(opens: bool) returns (r: Result<()>)
      requires Valid()
      modifies this`port, this`connected, this`sent
      ensures Valid()
      ensures dummy ==> r == Ok(()) && connected && sent == old(sent) && !port
      ensures !dummy && !opens ==> r == Err(ConnectFailed) && !port && !connected && sent == old(sent)
      ensures !dummy && opens ==>
        && sent == old(sent) + [Frame("")]
        && (r.Ok? <==> Strip(device(sent)) != [])
        && (r.Ok? ==> r == Ok(()) && port && connected)
        && (r.Err? ==> r == Err(ConnectFailed) && !port && !connected)
    {
      if dummy {
        connected := true;
        return Ok(());
      }
      if !opens {
        Close();
        return Err(ConnectFailed);
      }
      port := true;
      var probe := Command("");
      if probe.Err? {
        Close();
        return Err(ConnectFailed);
      }
      connected := true;
      r := Ok(());
    }

    /** close(): no port and not connected; calling it again changes nothing. */
    method Close()
      requires Valid()
      modifies this`port, this`connected
      ensures Valid()
      ensures !port && !connected
    {
      port := false;
      connected := false;
    }

    /** What _read_pid_unlocked does from the port state and history it starts with. */
    function PidQueryEffect(open: bool, w: seq<string>): (seq<string>, Gains) {
      var (w1, rp) := Ask(open, w, "R21");
      if rp.Err? then (w1, ZERO_GAINS)
      else
        var (w2, rd) := Ask(open, w1, "R22");
        if rd.Err? then (w2, ZERO_GAINS)
        else
          var (w3, ri) := Ask(open, w2, "R23");
          if ri.Err? then (w3, ZERO_GAINS)
          else (w3, PidFromReplies(rp.value, rd.value, ri.value))
    }

    /** The frames of the PID query, in the order they are sent. */
    function PidFrames(): seq<string> {
      [Frame("R21"), Frame("R22"), Frame("R23")]
    }

    /** The stripped reply to query k (0, 1, 2) of the PID query, once queries 0..k have gone out after w. */
    function PidReply(w: seq<string>, k: nat): string
      requires k < 3
    {
      Strip(device(w + PidFrames()[..k + 1]))
    }

    /**
     * On an open port, R21, R22 and R23 go out in that order up to and including
     * the first whose stripped reply is empty (a timeout), and all three when none
     * is. A timeout means zero gains; otherwise the gains come from the three replies.
     */
    lemma PidQueryFrames(open: bool, w: seq<string>)
      ensures !open ==> PidQueryEffect(open, w) == (w, ZERO_GAINS)
      ensures open && PidReply(w, 0) == [] ==> PidQueryEffect(open, w) == (w + PidFrames()[..1], ZERO_GAINS)
      ensures open && PidReply(w, 0) != [] && PidReply(w, 1) == [] ==>
        PidQueryEffect(open, w) == (w + PidFrames()[..2], ZERO_GAINS)
      ensures open && PidReply(w, 0) != [] && PidReply(w, 1) != [] && PidReply(w, 2) == [] ==>
        PidQueryEffect(open, w) == (w + PidFrames(), ZERO_GAINS)
      ensures open && PidReply(w, 0) != [] && PidReply(w, 1) != [] && PidReply(w, 2) != [] ==>
        PidQueryEffect(open, w) == (w + PidFrames(), PidFromReplies(PidReply(w, 0), PidReply(w, 1), PidReply(w, 2)))
    {
      var fs := PidFrames();
      if open {
        var w1 := w + [Frame("R21")];
        var w2 := w1 + [Frame("R22")];
        var w3 := w2 + [Frame("R23")];
        assert w1 == w + fs[..1] && w2 == w + fs[..2] && w3 == w + fs && fs[..3] == fs;
      }
    }

    /** _read_pid_unlocked(): never fails; any error yields zero gains. */
    method ReadPidUnlocked() returns (g: Gains)
      modifies this`sent
      ensures (sent, g) == PidQueryEffect(port, old(sent))
    {
      var rp := Command("R21");
      if rp.Err? {
        return ZERO_GAINS;
      }
      var rd := Command("R22");
      if rd.Err? {
        return ZERO_GAINS;
      }
      var ri := Command("R23");
      if ri.Err? {
        return ZERO_GAINS;
      }
      g := PidFromReplies(rp.value, rd.value, ri.value);
    }

    /** read_pid() */
    method ReadPid() returns (g: Gains)
      requires Valid()
      modifies this`sent
      ensures Valid()
      ensures dummy ==> g == DUMMY_SERIAL_GAINS && sent == old(sent)
      ensures !dummy ==> (sent, g) == PidQueryEffect(port, old(sent))
    {
      if dummy {
        return DUMMY_SERIAL_GAINS;
      }
      g := ReadPidUnlocked();
    }

    /** read(include_pid): any failure clears `connected` and is passed on. */
    method Read(includePid: bool) returns (r: Result<SerialReading>)
      requires Valid()
      modifies this`sent, this`connected
      ensures Valid()
      ensures dummy ==> r == Ok(DUMMY_SERIAL_READING) && sent == old(sent) && connected == old(connected)
      ensures !dummy ==>
        var (w1, line) := Ask(port, old(sent), "");
        var status := if line.Ok? then ParseStatus(parseFloat, line.value) else Err(line.error);
        && (status.Err? ==> r == Err(status.error) && sent == w1 && !connected)
        && (status.Ok? && !includePid ==>
              r == Ok(FromStatus(old(connected), status.value, None)) && sent == w1 && connected == old(connected))
        && (status.Ok? && includePid ==>
              var (w2, g) := PidQueryEffect(port, w1);
              r == Ok(FromStatus(old(connected), status.value, Some(g))) && sent == w2 && connected == old(connected))
    {
      if dummy {
        return Ok(DUMMY_SERIAL_READING);
      }
      var line := Command("");
      if line.Err? {
        connected := false;
        return Err(line.error);
      }
      var status := ParseStatus(parseFloat, line.value);
      if status.Err? {
        connected := false;
        return Err(status.error);
      }
      if !includePid {
        return Ok(FromStatus(connected, status.value, None));
      }
      var g := ReadPidUnlocked();
      r := Ok(FromStatus(connected, status.value, Some(g)));
    }

    /** What a setter that sends prefix + value formatted with four decimals does (set_flow_rate, set_pressure). */
    function FixedSetEffect(open: bool, w: seq<string>, prefix: string, a: Arg): (seq<string>, Result<()>) {
      match AsFloat(a)
      case Err(e) => (w, Err(e))
      case Ok(x) =>
        var step := Ask(open, w, prefix + fixed4(x));
        (step.0, if step.1.Err? then Err(step.1.error) else Ok(()))
    }

    /** set_flow_rate(a): no range check; "S" and the value with four decimals. */
    method SetFlowRate(a: Arg) returns (r: Result<Ack>)
      requires Valid()
      modifies this`sent
      ensures Valid()
      ensures dummy ==> r == Ok(SetpointAck(a)) && sent == old(sent)
      ensures !dummy ==>
        var (w', e) := FixedSetEffect(port, old(sent), "S", a);
        sent == w' && r == (if e.Err? then Err(e.error) else Ok(SetpointAck(a)))
    {
      if dummy {
        return Ok(SetpointAck(a));
      }
      var x := AsFloat(a);
      if x.Err? {
        return Err(x.error);
      }
      var reply := Command("S" + fixed4(x.value));
      if reply.Err? {
        return Err(reply.error);
      }
      r := Ok(SetpointAck(a));
    }

    /** set_pressure(a): "P" and the value with four decimals. */
    method SetPressure(a: Arg) returns (r: Result<Ack>)
      requires Valid()
      modifies this`sent
      ensures Valid()
      ensures dummy ==> r == Ok(PressureAck(a)) && sent == old(sent)
      ensures !dummy ==>
        var (w', e) := FixedSetEffect(port, old(sent), "P", a);
        sent == w' && r == (if e.Err? then Err(e.error) else Ok(PressureAck(a)))
    {
      if dummy {
        return Ok(PressureAck(a));
      }
      var x := AsFloat(a);
      if x.Err? {
        return Err(x.error);
      }
      var reply := Command("P" + fixed4(x.value));
      if reply.Err? {
        return Err(reply.error);
      }
      r := Ok(PressureAck(a));
    }

    /** The gas number set_gas sends: a name through the table, anything else through int(). */
    function GasNumber(a: Arg): (r: Result<int>)
      ensures a.Str? ==> r == Ok(GasCode(a.s))
      ensures !a.Str? ==> r == AsInt(a)
    {
      if a.Str? then Ok(GasCode(a.s)) else AsInt(a)
    }

    /** set_gas(a): "G" and the gas number; the acknowledgement carries the argument as given. */
    method SetGas(a: Arg) returns (r: Result<Ack>)
      requires Valid()
      modifies this`sent
      ensures Valid()
      ensures dummy ==> r == Ok(GasAck(a)) && sent == old(sent)
      ensures !dummy && GasNumber(a).Err? ==> r == Err(GasNumber(a).error) && sent == old(sent)
      ensures !dummy && GasNumber(a).Ok? ==>
        var (w', e) := Ask(port, old(sent), GasCommand(GasNumber(a).value));
        sent == w' && r == (if e.Err? then Err(e.error) else Ok(GasAck(a)))
    {
      if dummy {
        return Ok(GasAck(a));
      }
      var code := GasNumber(a);
      if code.Err? {
        return Err(code.error);
      }
      var reply := Command(GasCommand(code.value));
      if reply.Err? {
        return Err(reply.error);
      }
      r := Ok(GasAck(a));
    }

    /** One `if X is not None` block of set_pid, after the blocks before it: a failure ends the call. */
    function ThenSend(open: bool, prev: (seq<string>, Result<map<Slot, Arg>>), s: Slot, a: Arg)
      : (seq<string>, Result<map<Slot, Arg>>)
    {
      if prev.1.Err? || a == Nil then prev
      else match AsInt(a)
        case Err(e) => (prev.0, Err(e))
        case Ok(v) =>
          var step := Ask(open, prev.0, GainCommand(s, v));
          (step.0, if step.1.Err? then Err(step.1.error) else Ok(prev.1.value[s := a]))
    }

    /** The three blocks of set_pid for P, D and I, in that order. */
    function PidSends(open: bool, w: seq<string>, p: Arg, d: Arg, i: Arg): (seq<string>, Result<map<Slot, Arg>>) {
      ThenSend(open, ThenSend(open, ThenSend(open, (w, Ok(map[])), P, p), D, d), I, i)
    }

    /** The gain writes of a plan one after the other, stopping at the first failure. */
    function GainSends(open: bool, w: seq<string>, plan: seq<(Slot, Arg)>, acc: map<Slot, Arg>)
      : (seq<string>, Result<map<Slot, Arg>>)
      decreases |plan|
    {
      if plan == [] then (w, Ok(acc))
      else
        var next := ThenSend(open, (w, Ok(acc)), plan[0].0, plan[0].1);
        if next.1.Err? then next else GainSends(open, next.0, plan[1..], next.1.value)
    }

    /** Once a gain write fails, the gains after it are not attempted. */
    lemma {:induction false} GainSendsStop(open: bool, w: seq<string>, plan1: seq<(Slot, Arg)>,
                                           plan2: seq<(Slot, Arg)>, acc: map<Slot, Arg>)
      decreases |plan1|
      ensures GainSends(open, w, plan1 + plan2, acc) ==
        var first := GainSends(open, w, plan1, acc);
        if first.1.Err? then first else GainSends(open, first.0, plan2, first.1.value)
    {
      if plan1 == [] {
        assert plan1 + plan2 == plan2;
      } else {
        assert (plan1 + plan2)[1..] == plan1[1..] + plan2;
        var next := ThenSend(open, (w, Ok(acc)), plan1[0].0, plan1[0].1);
        if next.1.Ok? {
          GainSendsStop(open, next.0, plan1[1..], plan2, next.1.value);
        }
      }
    }

    /** The frames of a plan whose gains all convert. */
    function PlanFrames(plan: seq<(Slot, Arg)>): (fs: seq<string>)
      requires Convertible(plan)
      ensures |fs| == |plan|
    {
      if plan == [] then [] else
        ConvertibleTail(plan);
        [Frame(GainCommand(plan[0].0, AsInt(plan[0].1).value))] + PlanFrames(plan[1..])
    }

    /** A set_pid run that succeeds sent one frame per planned gain, in order, and kept every one of them. */
    lemma {:induction false} GainSendsSucceed(open: bool, w: seq<string>, plan: seq<(Slot, Arg)>, acc: map<Slot, Arg>)
      requires forall k :: 0 <= k < |plan| ==> plan[k].1 != Nil
      decreases |plan|
      ensures var (w', r) := GainSends(open, w, plan, acc);
        r.Ok? ==> Convertible(plan) && w' == w + PlanFrames(plan) && r.value == Kept(acc, plan)
    {
      if plan != [] {
        var next := ThenSend(open, (w, Ok(acc)), plan[0].0, plan[0].1);
        ThenSendSucceeds(open, (w, Ok(acc)), plan[0].0, plan[0].1);
        if next.1.Ok? {
          var rest := plan[1..];
          assert forall k :: 0 <= k < |rest| ==> rest[k] == plan[k + 1];
          GainSendsSucceed(open, next.0, rest, next.1.value);
          var (w', r) := GainSends(open, next.0, rest, next.1.value);
          if r.Ok? {
            ConvertibleCons(plan);
            assert PlanFrames(plan) == [Frame(GainCommand(plan[0].0, AsInt(plan[0].1).value))] + PlanFrames(rest);
          }
        }
      }
    }

    /** A given gain whose block succeeds was converted, sent, and kept. */
    lemma ThenSendSucceeds(open: bool, prev: (seq<string>, Result<map<Slot, Arg>>), s: Slot, a: Arg)
      requires a != Nil && prev.1.Ok?
      ensures var next := ThenSend(open, prev, s, a);
        next.1.Ok? ==> AsInt(a).Ok? && next.0 == prev.0 + [Frame(GainCommand(s, AsInt(a).value))]
                       && next.1.value == prev.1.value[s := a]
    {
    }

    lemma ConvertibleCons(plan: seq<(Slot, Arg)>)
      requires plan != [] && AsInt(plan[0].1).Ok? && Convertible(plan[1..])
      ensures Convertible(plan)
    {
      forall k | 0 <= k < |plan| ensures AsInt(plan[k].1).Ok? {
        if k > 0 { assert plan[k] == plan[1..][k - 1]; }
      }
    }

    /** The results after a successful plan: each planned gain with its argument. */
    function Kept(acc: map<Slot, Arg>, plan: seq<(Slot, Arg)>): map<Slot, Arg>
      decreases |plan|
    {
      if plan == [] then acc else Kept(acc[plan[0].0 := plan[0].1], plan[1..])
    }

    lemma ThenSendExtends(open: bool, w: seq<string>, plan: seq<(Slot, Arg)>, s: Slot, a: Arg)
      ensures GainSends(open, w, plan + (if a != Nil then [(s, a)] else []), map[]) ==
              ThenSend(open, GainSends(open, w, plan, map[]), s, a)
    {
      var tail := if a != Nil then [(s, a)] else [];
      GainSendsStop(open, w, plan, tail, map[]);
      if a == Nil {
        assert plan + tail == plan;
      }
    }

    /** The three blocks of set_pid run the gain plan: only given gains, in P, D, I order. */
    lemma PidSendsFollowPlan(open: bool, w: seq<string>, p: Arg, d: Arg, i: Arg)
      ensures PidSends(open, w, p, d, i) == GainSends(open, w, GainPlan(p, d, i), map[])
    {
      var pP: seq<(Slot, Arg)> := if p != Nil then [(P, p)] else [];
      var pD: seq<(Slot, Arg)> := if d != Nil then [(D, d)] else [];
      ThenSendExtends(open, w, [], P, p);
      assert [] + pP == pP;
      ThenSendExtends(open, w, pP, D, d);
      ThenSendExtends(open, w, pP + pD, I, i);
    }

    /** A successful set_pid keeps exactly the given gains with their arguments. */
    lemma PidSendsResult(open: bool, w: seq<string>, p: Arg, d: Arg, i: Arg)
      ensures var r := PidSends(open, w, p, d, i).1;
        r.Ok? ==> r.value == GivenGains(p, d, i)
    {
      var s0 := (w, Result<map<Slot, Arg>>.Ok(map[]));
      ThenSendKeeps(open, s0, P, p);
      var s1 := ThenSend(open, s0, P, p);
      ThenSendKeeps(open, s1, D, d);
      var s2 := ThenSend(open, s1, D, d);
      ThenSendKeeps(open, s2, I, i);
    }

    /** A block that succeeds adds its gain, with its argument, to what the blocks before it kept. */
    lemma ThenSendKeeps(open: bool, prev: (seq<string>, Result<map<Slot, Arg>>), s: Slot, a: Arg)
      ensures var next := ThenSend(open, prev, s, a);
        next.1.Ok? ==> prev.1.Ok? && next.1.value == if a != Nil then prev.1.value[s := a] else prev.1.value
    {
    }

    /** set_pid(p, d, i): Nil stands for None. */
    method SetPid(p: Arg, d: Arg, i: Arg) returns (r: Result<Ack>)
      requires Valid()
      modifies this`sent
      ensures Valid()
      ensures dummy ==> r == Ok(PidAck(map[P := p, D := d, I := i])) && sent == old(sent)
      ensures !dummy ==>
        var (w', e) := PidSends(port, old(sent), p, d, i);
        sent == w' && r == (if e.Err? then Err(e.error) else Ok(PidAck(e.value)))
    {
      if dummy {
        return Ok(PidAck(map[P := p, D := d, I := i]));
      }
      var results := SendIfGiven(P, p, Ok(map[]));
      results := SendIfGiven(D, d, results);
      results := SendIfGiven(I, i, results);
      r := if results.Err? then Err(results.error) else Ok(PidAck(results.value));
    }

    /**
     * One `if X is not None` block of set_pid. A block after a raised
     * exception does nothing, so `prev` may be an error.
     */
    method SendIfGiven(s: Slot, a: Arg, prev: Result<map<Slot, Arg>>) returns (r: Result<map<Slot, Arg>>)
      modifies this`sent
      ensures (sent, r) == ThenSend(port, (old(sent), prev), s, a)
    {
      if prev.Err? || a == Nil {
        return prev;
      }
      var v := AsInt(a);
      if v.Err? {
        return Err(v.error);
      }
      ghost var w0 := sent;
      var reply := Command(GainCommand(s, v.value));
      ghost var step := Ask(port, w0, GainCommand(s, v.value));
      assert sent == step.0 && reply == step.1;
      if reply.Err? {
        return Err(reply.error);
      }
      r := Ok(prev.value[s := a]);
      assert ThenSend(port, (w0, prev), s, a) == (step.0, Ok(prev.value[s := a]));
    }

    /** write(data) */
    method Write(data: map<string, Arg>) returns (r: Result<Ack>)
      requires Valid()
      modifies this`sent
      ensures Valid()
      ensures SerialRoute(data).NoOp? ==> r == Ok(NoOpAck) && sent == old(sent)
      ensures SerialRoute(data).SetSetpoint? && !dummy ==>
        var (w', e) := FixedSetEffect(port, old(sent), "S", SerialRoute(data).value);
        sent == w' && r == (if e.Err? then Err(e.error) else Ok(SetpointAck(SerialRoute(data).value)))
      ensures SerialRoute(data).SetPressure? && !dummy ==>
        var (w', e) := FixedSetEffect(port, old(sent), "P", SerialRoute(data).value);
        sent == w' && r == (if e.Err? then Err(e.error) else Ok(PressureAck(SerialRoute(data).value)))
      ensures SerialRoute(data).SetGas? && !dummy ==>
        var a := SerialRoute(data).value;
        if GasNumber(a).Err? then r == Err(GasNumber(a).error) && sent == old(sent)
        else
          var (w', e) := Ask(port, old(sent), GasCommand(GasNumber(a).value));
          sent == w' && r == (if e.Err? then Err(e.error) else Ok(GasAck(a)))
      ensures SerialRoute(data).SetPid? && !dummy ==>
        var c := SerialRoute(data);
        var (w', e) := PidSends(port, old(sent), c.p, c.d, c.i);
        sent == w' && r == (if e.Err? then Err(e.error) else Ok(PidAck(e.value)))
      ensures dummy ==>
        var c := SerialRoute(data);
        && sent == old(sent)
        && (c.SetSetpoint? ==> r == Ok(SetpointAck(c.value)))
        && (c.SetPressure? ==> r == Ok(PressureAck(c.value)))
        && (c.SetGas? ==> r == Ok(GasAck(c.value)))
        && (c.SetPid? ==> r == Ok(PidAck(map[P := c.p, D := c.d, I := c.i])))
    {
      match SerialRoute(data)
      case SetSetpoint(a) =>
        r := SetFlowRate(a);
      case SetPressure(a) =>
        r := SetPressure(a);
      case SetGas(a) =>
        r := SetGas(a);
      case SetPid(p, d, i) =>
        r := SetPid(p, d, i);
      case NoOp =>
        r := Ok(NoOpAck);
    }
  }
}
