/**
 * The Modbus TCP driver of the mass-flow controller (drivers/alicat.py).
 *
 * The TCP client is replaced by an oracle: the device's reply to the latest request,
 * as a function of every request the driver has attempted so far (`wire`). Floats are
 * their IEEE-754 bit patterns; struct.pack('>f', x) is the oracle `packF32`.
 */
module ModbusDriver {
  import opened Common
  import opened RegisterCodec
  import opened DriverContract

  const REG_SETPOINT_F32: nat := 1349
  const REG_VALVEDRIVE_F32: nat := 1351
  const REG_PRESSURE_F32: nat := 1353
  const REG_TEMPERATURE_F32: nat := 1359
  const REG_VOL_FLOW_F32: nat := 1361
  const REG_MASS_FLOW_F32: nat := 1363
  const BLOCK_START: nat := 1349
  const BLOCK_LEN: nat := 16
  const SETPOINT_MIN: real := 0.0
  const SETPOINT_MAX: real := 1000.0
  const REG_PAIR_LEN: nat := 2

  /** The PID command register: [14, k] selects slot k, [8|9|10, v] sets P|D|I. */
  const PID_COMMAND_REG: nat := 999
  /** The register that holds the most recently selected PID slot. */
  const PID_RESULT_REG: nat := 1000
  const PID_SELECT: int := 14

  datatype Request =
    | ReadInput(address: nat, count: nat)           // FC4 read_input_registers
    | ReadHolding(address: nat, count: nat)         // FC3 read_holding_registers
    | WriteRegisters(address: nat, values: seq<int>)  // FC16 write_registers

  /** A register value as pymodbus hands it over: an int that fits 16 bits. */
  type Register = n: nat | n < 0x1_0000

  /**
   * The outcome of one client call: a response carrying the registers read (empty
   * for a write), a response for which isError() holds, or an exception raised by
   * the client library itself, which no code of the driver catches.
   */
  datatype Reply = Registers(words: seq<Register>) | ErrorReply | Raised

  /** The exception a failed pair or block read raises: IOError for an error response, else the library's own. */
  function Failure(rep: Reply): Error {
    if rep.Raised? then LinkFault else DeviceFault
  }

  /** A successful read returns exactly the number of registers asked for. */
  predicate Fits(w: seq<Request>, rep: Reply) {
    w != [] && rep.Registers? && !w[|w| - 1].WriteRegisters? ==> |rep.words| == w[|w| - 1].count
  }

  /** A device that answers every request with an error response: the type is inhabited. */
  function AlwaysError(w: seq<Request>): Reply {
    ErrorReply
  }

  /** The device behind the connection: its reply to the last of the requests it has been sent. */
  type Device = f: seq<Request> -> Reply | forall w :: Fits(w, f(w)) witness AlwaysError

  /** The connection object `_cli`: absent, or a client whose connect() did or did not succeed. */
  datatype Link = NoClient | Client(up: bool)

  /** Whether none of the requests rs, sent one after another after history w, raises. */
  predicate Calm(dev: seq<Request> -> Reply, w: seq<Request>, rs: seq<Request>)
    decreases |rs|
  {
    rs == [] || (!dev(w + [rs[0]]).Raised? && Calm(dev, w + [rs[0]], rs[1..]))
  }

  /**
   * The requests of rs that go out when they are sent one after another after
   * history w and an exception ends the run.
   */
  function UntilRaise(dev: seq<Request> -> Reply, w: seq<Request>, rs: seq<Request>): seq<Request>
    decreases |rs|
  {
    if rs == [] then []
    else if dev(w + [rs[0]]).Raised? then [rs[0]]
    else [rs[0]] + UntilRaise(dev, w + [rs[0]], rs[1..])
  }

  /**
   * What goes out is a prefix of rs: all of it when nothing raises, else the
   * requests up to and including the first that raises.
   */
  lemma {:induction false} UntilRaiseStops(dev: seq<Request> -> Reply, w: seq<Request>, rs: seq<Request>)
    decreases |rs|
    ensures var sent := UntilRaise(dev, w, rs);
      && |sent| <= |rs| && sent == rs[..|sent|]
      && (Calm(dev, w, rs) ==> sent == rs)
      && (!Calm(dev, w, rs) ==> sent != [] && dev(w + sent).Raised? && Calm(dev, w, sent[..|sent| - 1]))
  {
    if rs != [] {
      var w1 := w + [rs[0]];
      if !dev(w1).Raised? {
        UntilRaiseStops(dev, w1, rs[1..]);
        var rest := UntilRaise(dev, w1, rs[1..]);
        var sent := [rs[0]] + rest;
        assert w1 + rest == w + sent;
        assert rest != [] ==> sent[..|sent| - 1][0] == rs[0] && sent[..|sent| - 1][1..] == rest[..|rest| - 1];
      }
    }
  }

  /** The first request and the rest of a run. */
  lemma UntilRaiseCons(dev: seq<Request> -> Reply, w: seq<Request>, x: Request, rs: seq<Request>)
    ensures Calm(dev, w, [x] + rs) <==> !dev(w + [x]).Raised? && Calm(dev, w + [x], rs)
    ensures UntilRaise(dev, w, [x] + rs) ==
      if dev(w + [x]).Raised? then [x] else [x] + UntilRaise(dev, w + [x], rs)
  {
    assert ([x] + rs)[0] == x && ([x] + rs)[1..] == rs;
  }

  /** Two request lists sent one after the other raise nowhere iff neither does. */
  lemma {:induction false} CalmAppend(dev: seq<Request> -> Reply, w: seq<Request>, a: seq<Request>, b: seq<Request>)
    decreases |a|
    ensures Calm(dev, w, a + b) <==> Calm(dev, w, a) && Calm(dev, w + a, b)
  {
    if a == [] {
      assert a + b == b && w + a == w;
    } else {
      var w1 := w + [a[0]];
      assert a + b == [a[0]] + (a[1..] + b);
      UntilRaiseCons(dev, w, a[0], a[1..] + b);
      CalmAppend(dev, w1, a[1..], b);
      assert w1 + a[1..] == w + a;
    }
  }

  /** When the first list goes out without an exception, the second follows it. */
  lemma {:induction false} UntilRaiseAppendCalm(dev: seq<Request> -> Reply, w: seq<Request>, a: seq<Request>,
                                                b: seq<Request>)
    requires Calm(dev, w, a)
    decreases |a|
    ensures UntilRaise(dev, w, a + b) == a + UntilRaise(dev, w + a, b)
  {
    if a == [] {
      assert a + b == b && w + a == w;
    } else {
      var x, a' := a[0], a[1..];
      var w1 := w + [x];
      assert a + b == [x] + (a' + b);
      UntilRaiseCons(dev, w, x, a' + b);
      UntilRaiseAppendCalm(dev, w1, a', b);
      assert w1 + a' == w + a;
      var u := UntilRaise(dev, w + a, b);
      assert [x] + (a' + u) == a + u;
    }
  }

  /** When the first list raises, the second is never sent. */
  lemma {:induction false} UntilRaiseAppendRaises(dev: seq<Request> -> Reply, w: seq<Request>, a: seq<Request>,
                                                  b: seq<Request>)
    requires !Calm(dev, w, a)
    decreases |a|
    ensures UntilRaise(dev, w, a + b) == UntilRaise(dev, w, a)
  {
    var x, a' := a[0], a[1..];
    var w1 := w + [x];
    assert a + b == [x] + (a' + b);
    assert a == [x] + a';
    UntilRaiseCons(dev, w, x, a' + b);
    UntilRaiseCons(dev, w, x, a');
    if !dev(w1).Raised? {
      UntilRaiseAppendRaises(dev, w1, a', b);
    }
  }

  /** Sending two request lists one after the other: the second starts only if the first did not raise. */
  lemma UntilRaiseAppend(dev: seq<Request> -> Reply, w: seq<Request>, a: seq<Request>, b: seq<Request>)
    ensures UntilRaise(dev, w, a + b) ==
      if Calm(dev, w, a) then a + UntilRaise(dev, w + a, b) else UntilRaise(dev, w, a)
  {
    if Calm(dev, w, a) {
      UntilRaiseAppendCalm(dev, w, a, b);
    } else {
      UntilRaiseAppendRaises(dev, w, a, b);
    }
  }

  /** The one block read that covers all telemetry. */
  const BLOCK_READ: Request := ReadInput(BLOCK_START, BLOCK_LEN)
  /** The read of the PID result register. */
  const SLOT_READ: Request := ReadInput(PID_RESULT_REG, 1)

  function SelectSlot(k: nat): Request {
    WriteRegisters(PID_COMMAND_REG, [PID_SELECT, k])
  }

  function GainCode(s: Slot): int {
    match s case P => 8 case D => 9 case I => 10
  }

  function SetGainRequest(s: Slot, v: int): Request {
    WriteRegisters(PID_COMMAND_REG, [GainCode(s), v])
  }

  function SetpointWrite(raw: bv32): Request {
    var (hi, lo) := ToRegisters(raw);
    WriteRegisters(REG_SETPOINT_F32, [hi as int, lo as int])
  }

  // ---------------------------------------------------------------- telemetry

  /** The six telemetry fields of one block read, as bit patterns. */
  datatype Block = Block(setpoint: bv32, valveDrive: bv32, pressure: bv32,
                         temperature: bv32, volumetricFlow: bv32, massFlow: bv32)

  /** The float stored in the register pair starting at word idx. */
  function PairAt(r: seq<Register>, idx: nat): bv32
    requires idx + 1 < |r|
  {
    FromRegisters(r[idx] as Word, r[idx + 1] as Word)
  }

  /** read(): each field is the pair at offset 0, 2, 4, 10, 12, 14 of the block. */
  function DecodeBlock(r: seq<Register>): (b: Block)
    requires |r| == BLOCK_LEN
    ensures b.setpoint == PairAt(r, REG_SETPOINT_F32 - BLOCK_START)
    ensures b.valveDrive == PairAt(r, REG_VALVEDRIVE_F32 - BLOCK_START)
    ensures b.pressure == PairAt(r, REG_PRESSURE_F32 - BLOCK_START)
    ensures b.temperature == PairAt(r, REG_TEMPERATURE_F32 - BLOCK_START)
    ensures b.volumetricFlow == PairAt(r, REG_VOL_FLOW_F32 - BLOCK_START)
    ensures b.massFlow == PairAt(r, REG_MASS_FLOW_F32 - BLOCK_START)
  {
    Block(PairAt(r, 0), PairAt(r, 2), PairAt(r, 4), PairAt(r, 10), PairAt(r, 12), PairAt(r, 14))
  }

  /** The words a read of `count` registers from `start` returns on a device whose registers are `image`. */
  function Window(image: nat -> Register, start: nat, count: nat): (r: seq<Register>)
    ensures |r| == count && forall k :: 0 <= k < count ==> r[k] == image(start + k)
  {
    seq(count, k requires 0 <= k => image(start + k))
  }

  /** The float a single-pair read (_read_input_f32 / _read_holding_f32) decodes. */
  function PairValue(r: seq<Register>): bv32
    requires |r| == REG_PAIR_LEN
  {
    FromRegisters(r[0] as Word, r[1] as Word)
  }

  /** The block read decodes the same six values as six single-pair reads of the same register image. */
  lemma BlockAgreesWithPairReads(image: nat -> Register)
    ensures var b := DecodeBlock(Window(image, BLOCK_START, BLOCK_LEN));
      && b.setpoint == PairValue(Window(image, REG_SETPOINT_F32, REG_PAIR_LEN))
      && b.valveDrive == PairValue(Window(image, REG_VALVEDRIVE_F32, REG_PAIR_LEN))
      && b.pressure == PairValue(Window(image, REG_PRESSURE_F32, REG_PAIR_LEN))
      && b.temperature == PairValue(Window(image, REG_TEMPERATURE_F32, REG_PAIR_LEN))
      && b.volumetricFlow == PairValue(Window(image, REG_VOL_FLOW_F32, REG_PAIR_LEN))
      && b.massFlow == PairValue(Window(image, REG_MASS_FLOW_F32, REG_PAIR_LEN))
  {
    var block := Window(image, BLOCK_START, BLOCK_LEN);
    PairInWindow(image, BLOCK_START, BLOCK_LEN, REG_SETPOINT_F32 - BLOCK_START);
    PairInWindow(image, BLOCK_START, BLOCK_LEN, REG_VALVEDRIVE_F32 - BLOCK_START);
    PairInWindow(image, BLOCK_START, BLOCK_LEN, REG_PRESSURE_F32 - BLOCK_START);
    PairInWindow(image, BLOCK_START, BLOCK_LEN, REG_TEMPERATURE_F32 - BLOCK_START);
    PairInWindow(image, BLOCK_START, BLOCK_LEN, REG_VOL_FLOW_F32 - BLOCK_START);
    PairInWindow(image, BLOCK_START, BLOCK_LEN, REG_MASS_FLOW_F32 - BLOCK_START);
  }

  /** The pair at offset `off` of a window is what a pair read at `start + off` returns. */
  lemma PairInWindow(image: nat -> Register, start: nat, count: nat, off: nat)
    requires off + 1 < count
    ensures PairAt(Window(image, start, count), off) == PairValue(Window(image, start + off, REG_PAIR_LEN))
  {
    var big := Window(image, start, count);
    var pair := Window(image, start + off, REG_PAIR_LEN);
    assert big[off] == pair[0] && big[off + 1] == pair[1];
  }

  /** A telemetry value: decoded from registers, or a literal of the simulation mode. */
  datatype Sample = Pattern(bits: bv32) | Literal(x: real)

  datatype Reading = Reading(connected: bool, setpoint: Sample, valveDrive: Sample, pressure: Sample,
                             temperature: Sample, volumetricFlow: Sample, massFlow: Sample,
                             pid: Option<Gains>)

  function FromBlock(connected: bool, b: Block, pid: Option<Gains>): Reading {
    Reading(connected, Pattern(b.setpoint), Pattern(b.valveDrive), Pattern(b.pressure),
            Pattern(b.temperature), Pattern(b.volumetricFlow), Pattern(b.massFlow), pid)
  }

  const DUMMY_READING: Reading :=
    Reading(true, Literal(22.0), Literal(27.0), Literal(8.92), Literal(306.0), Literal(21.0), Literal(23.0), None)

  const DUMMY_GAINS: Gains := Gains(50, 120, 0)

  // ---------------------------------------------------------------- PID read

  /** The select-then-read exchange for slot k. */
  function SlotQueries(k: nat): seq<Request> {
    [SelectSlot(k), SLOT_READ]
  }

  /** The select-then-read exchange of read_pid, for P, D and I in that order. */
  function PidQueries(): seq<Request> {
    SlotQueries(0) + SlotQueries(1) + SlotQueries(2)
  }

  /**
   * The gain one select-then-read step yields: the register read, or 0 when the
   * response reported an error (a Device's read of one register returns one word).
   */
  function SlotGain(rep: Reply): int {
    if rep.Registers? && rep.words != [] then rep.words[0] else 0
  }

  /** The gains read_pid returns when none of its six calls raises. */
  function PidGains(dev: seq<Request> -> Reply, w: seq<Request>): Gains {
    var q := PidQueries();
    Gains(SlotGain(dev(w + q[..2])), SlotGain(dev(w + q[..4])), SlotGain(dev(w + q)))
  }

  /**
   * One select-then-read step of read_pid: the response to the select is not
   * inspected, but an exception from either call propagates.
   */
  function SlotRead(dev: seq<Request> -> Reply, w: seq<Request>, k: nat): (seq<Request>, Result<int>) {
    var w1 := w + [SelectSlot(k)];
    if dev(w1).Raised? then (w1, Err(LinkFault))
    else
      var w2 := w1 + [SLOT_READ];
      (w2, if dev(w2).Raised? then Err(LinkFault) else Ok(SlotGain(dev(w2))))
  }

  /** read_pid after history w: slots 0, 1 and 2 in turn, ended by the first exception. */
  function PidRead(dev: seq<Request> -> Reply, w: seq<Request>): (seq<Request>, Result<Gains>) {
    var (w1, p) := SlotRead(dev, w, 0);
    if p.Err? then (w1, Err(p.error))
    else
      var (w2, d) := SlotRead(dev, w1, 1);
      if d.Err? then (w2, Err(d.error))
      else
        var (w3, i) := SlotRead(dev, w2, 2);
        (w3, if i.Err? then Err(i.error) else Ok(Gains(p.value, d.value, i.value)))
  }

  /** One step sends its exchange up to the first exception, and fails exactly when one is raised. */
  lemma SlotReadSends(dev: seq<Request> -> Reply, w: seq<Request>, k: nat)
    ensures SlotRead(dev, w, k).0 == w + UntilRaise(dev, w, SlotQueries(k))
    ensures SlotRead(dev, w, k).1.Ok? <==> Calm(dev, w, SlotQueries(k))
    ensures SlotRead(dev, w, k).1.Ok? ==> SlotRead(dev, w, k).0 == w + SlotQueries(k)
    ensures SlotRead(dev, w, k).1.Err? ==> SlotRead(dev, w, k).1.error == LinkFault
    ensures SlotRead(dev, w, k).1.Ok? ==> SlotRead(dev, w, k).1.value == SlotGain(dev(w + SlotQueries(k)))
  {
    var w1 := w + [SelectSlot(k)];
    UntilRaiseCons(dev, w, SelectSlot(k), [SLOT_READ]);
    UntilRaiseCons(dev, w1, SLOT_READ, []);
    assert w1 + [SLOT_READ] == w + SlotQueries(k);
  }

  /** read_pid when the exchange for slot 0 raises. */
  lemma PidReadStopsAtP(dev: seq<Request> -> Reply, w: seq<Request>)
    requires !Calm(dev, w, SlotQueries(0))
    ensures PidRead(dev, w) == (w + UntilRaise(dev, w, SlotQueries(0)), Err(LinkFault))
    ensures PidRead(dev, w).0 == w + UntilRaise(dev, w, PidQueries())
  {
    SlotReadSends(dev, w, 0);
    assert PidQueries() == SlotQueries(0) + (SlotQueries(1) + SlotQueries(2));
    UntilRaiseAppendRaises(dev, w, SlotQueries(0), SlotQueries(1) + SlotQueries(2));
  }

  /** read_pid when the exchange for slot 1 is the first to raise. */
  lemma PidReadStopsAtD(dev: seq<Request> -> Reply, w: seq<Request>)
    requires Calm(dev, w, SlotQueries(0)) && !Calm(dev, w + SlotQueries(0), SlotQueries(1))
    ensures PidRead(dev, w) ==
      (w + SlotQueries(0) + UntilRaise(dev, w + SlotQueries(0), SlotQueries(1)), Err(LinkFault))
    ensures PidRead(dev, w).0 == w + UntilRaise(dev, w, PidQueries())
  {
    var q0, q1, q2 := SlotQueries(0), SlotQueries(1), SlotQueries(2);
    var w1 := w + q0;
    SlotReadSends(dev, w, 0);
    SlotReadSends(dev, w1, 1);
    assert PidQueries() == q0 + (q1 + q2);
    UntilRaiseAppendCalm(dev, w, q0, q1 + q2);
    UntilRaiseAppendRaises(dev, w1, q1, q2);
    var u := UntilRaise(dev, w1, q1);
    assert w1 + u == w + (q0 + u);
  }

  /** read_pid when the exchanges for slots 0 and 1 do not raise. */
  lemma PidReadReachesI(dev: seq<Request> -> Reply, w: seq<Request>)
    requires Calm(dev, w, SlotQueries(0)) && Calm(dev, w + SlotQueries(0), SlotQueries(1))
    ensures var w2 := w + SlotQueries(0) + SlotQueries(1);
      PidRead(dev, w) ==
        (w2 + UntilRaise(dev, w2, SlotQueries(2)),
         if Calm(dev, w2, SlotQueries(2)) then Ok(PidGains(dev, w)) else Err(LinkFault))
  {
    var w1 := w + SlotQueries(0);
    var w2 := w1 + SlotQueries(1);
    SlotReadSends(dev, w, 0);
    SlotReadSends(dev, w1, 1);
    SlotReadSends(dev, w2, 2);
    var q := PidQueries();
    assert w + q[..2] == w1 && w + q[..4] == w2 && w + q == w2 + SlotQueries(2);
  }

  /** The wire after read_pid when the exchanges for slots 0 and 1 do not raise. */
  lemma PidReadReachesISends(dev: seq<Request> -> Reply, w: seq<Request>)
    requires Calm(dev, w, SlotQueries(0)) && Calm(dev, w + SlotQueries(0), SlotQueries(1))
    ensures PidRead(dev, w).0 == w + UntilRaise(dev, w, PidQueries())
  {
    var q0, q1, q2 := SlotQueries(0), SlotQueries(1), SlotQueries(2);
    var w1 := w + q0;
    var w2 := w1 + q1;
    PidReadReachesI(dev, w);
    assert PidQueries() == q0 + (q1 + q2);
    UntilRaiseAppendCalm(dev, w, q0, q1 + q2);
    UntilRaiseAppendCalm(dev, w1, q1, q2);
    var u := UntilRaise(dev, w2, q2);
    assert w2 + u == w + (q0 + (q1 + u));
  }

  /** read_pid sends the six requests of its exchange up to and including the first that raises. */
  lemma PidReadSends(dev: seq<Request> -> Reply, w: seq<Request>)
    ensures PidRead(dev, w).0 == w + UntilRaise(dev, w, PidQueries())
  {
    if !Calm(dev, w, SlotQueries(0)) {
      PidReadStopsAtP(dev, w);
    } else if !Calm(dev, w + SlotQueries(0), SlotQueries(1)) {
      PidReadStopsAtD(dev, w);
    } else {
      PidReadReachesISends(dev, w);
    }
  }

  /** read_pid succeeds exactly when none of its six calls raises, and then returns the three gains read. */
  lemma PidReadResult(dev: seq<Request> -> Reply, w: seq<Request>)
    ensures PidRead(dev, w).1.Ok? <==> Calm(dev, w, PidQueries())
    ensures PidRead(dev, w).1.Err? ==> PidRead(dev, w).1.error == LinkFault
    ensures PidRead(dev, w).1.Ok? ==> PidRead(dev, w).1.value == PidGains(dev, w)
  {
    var q0, q1, q2 := SlotQueries(0), SlotQueries(1), SlotQueries(2);
    assert PidQueries() == q0 + (q1 + q2);
    CalmAppend(dev, w, q0, q1 + q2);
    var w1 := w + q0;
    if !Calm(dev, w, q0) {
      PidReadStopsAtP(dev, w);
    } else {
      CalmAppend(dev, w1, q1, q2);
      if !Calm(dev, w1, q1) {
        PidReadStopsAtD(dev, w);
      } else {
        PidReadReachesI(dev, w);
      }
    }
  }

  // ---------------------------------------------------------------- PID write

  /**
   * One gain write of set_pid: int(arg) (which may raise), [code, v] to the command
   * register (which may raise), and the gain kept in the results only if the
   * response is not an error.
   */
  function GainWrite(dev: seq<Request> -> Reply, w: seq<Request>, s: Slot, a: Arg, acc: map<Slot, Arg>)
    : (seq<Request>, Result<map<Slot, Arg>>)
  {
    match AsInt(a)
    case Err(e) => (w, Err(e))
    case Ok(v) =>
      var w' := w + [SetGainRequest(s, v)];
      (w', if dev(w').Raised? then Err(LinkFault) else Ok(if dev(w').ErrorReply? then acc else acc[s := a]))
  }

  /** The gain writes of set_pid, one after the other; a conversion error or an exception ends the call. */
  function GainWrites(dev: seq<Request> -> Reply, w: seq<Request>, plan: seq<(Slot, Arg)>, acc: map<Slot, Arg>)
    : (seq<Request>, Result<map<Slot, Arg>>)
    decreases |plan|
  {
    if plan == [] then (w, Ok(acc))
    else
      var (w1, r1) := GainWrite(dev, w, plan[0].0, plan[0].1, acc);
      if r1.Err? then (w1, r1) else GainWrites(dev, w1, plan[1..], r1.value)
  }

  /** Running two plans one after the other is running their concatenation; an error ends the run. */
  lemma {:induction false} GainWritesAppend(dev: seq<Request> -> Reply, w: seq<Request>, plan1: seq<(Slot, Arg)>,
                                            plan2: seq<(Slot, Arg)>, acc: map<Slot, Arg>)
    decreases |plan1|
    ensures GainWrites(dev, w, plan1 + plan2, acc) ==
      var (w1, r1) := GainWrites(dev, w, plan1, acc);
      if r1.Err? then (w1, r1) else GainWrites(dev, w1, plan2, r1.value)
  {
    if plan1 == [] {
      assert plan1 + plan2 == plan2;
    } else {
      assert (plan1 + plan2)[1..] == plan1[1..] + plan2;
      var (w1, r1) := GainWrite(dev, w, plan1[0].0, plan1[0].1, acc);
      if r1.Ok? {
        GainWritesAppend(dev, w1, plan1[1..], plan2, r1.value);
      }
    }
  }


  /** The write requests for a plan whose arguments all convert to int. */
  function PlanRequests(plan: seq<(Slot, Arg)>): (rs: seq<Request>)
    requires Convertible(plan)
    ensures |rs| == |plan|
  {
    if plan == [] then [] else [SetGainRequest(plan[0].0, AsInt(plan[0].1).value)] + PlanRequests(plan[1..])
  }

  /** The requests of a plan run from history w, up to and including its k-th write. */
  function SentUpTo(w: seq<Request>, plan: seq<(Slot, Arg)>, k: nat): seq<Request>
    requires Convertible(plan) && k < |plan|
  {
    w + PlanRequests(plan)[..k + 1]
  }

  /** The first write of a convertible plan: it is sent, and fails exactly when it raises. */
  lemma GainWritesStep(dev: seq<Request> -> Reply, w: seq<Request>, plan: seq<(Slot, Arg)>, acc: map<Slot, Arg>)
    requires Convertible(plan) && plan != []
    ensures Convertible(plan[1..])
    ensures PlanRequests(plan) == [SetGainRequest(plan[0].0, AsInt(plan[0].1).value)] + PlanRequests(plan[1..])
    ensures GainWrite(dev, w, plan[0].0, plan[0].1, acc).0 == w + [SetGainRequest(plan[0].0, AsInt(plan[0].1).value)]
    ensures GainWrite(dev, w, plan[0].0, plan[0].1, acc).1.Ok? <==>
      !dev(w + [SetGainRequest(plan[0].0, AsInt(plan[0].1).value)]).Raised?
  {
    ConvertibleTail(plan);
  }

  /**
   * Sending x and then rest extends the history as sending [x] + rest does. Stated
   * on its own, so that the gain-write proofs need not rederive it by extensionality.
   */
  lemma SendOneThenRest(w: seq<Request>, x: Request, rest: seq<Request>)
    ensures (w + [x]) + rest == w + ([x] + rest)
  {
  }

  /** A convertible plan's first write goes out; an exception from it ends the run, otherwise the rest follows. */
  lemma GainWritesCons(dev: seq<Request> -> Reply, w: seq<Request>, plan: seq<(Slot, Arg)>, acc: map<Slot, Arg>)
    requires Convertible(plan) && plan != []
    ensures Convertible(plan[1..])
    ensures PlanRequests(plan) == [SetGainRequest(plan[0].0, AsInt(plan[0].1).value)] + PlanRequests(plan[1..])
    ensures var w1 := w + [SetGainRequest(plan[0].0, AsInt(plan[0].1).value)];
      GainWrites(dev, w, plan, acc) ==
        if dev(w1).Raised? then (w1, Err(LinkFault))
        else GainWrites(dev, w1, plan[1..], if dev(w1).ErrorReply? then acc else acc[plan[0].0 := plan[0].1])
  {
    GainWritesStep(dev, w, plan, acc);
  }

  /** When no gain write raises, every write of a convertible plan is sent, in order. */
  lemma {:induction false} GainWritesCalm(dev: seq<Request> -> Reply, w: seq<Request>, plan: seq<(Slot, Arg)>,
                                          acc: map<Slot, Arg>)
    requires Convertible(plan) && Calm(dev, w, PlanRequests(plan))
    decreases |plan|
    ensures GainWrites(dev, w, plan, acc).0 == w + PlanRequests(plan)
    ensures GainWrites(dev, w, plan, acc).1.Ok?
  {
    if plan != [] {
      GainWritesCons(dev, w, plan, acc);
      var req := SetGainRequest(plan[0].0, AsInt(plan[0].1).value);
      var rest := PlanRequests(plan[1..]);
      var w1 := w + [req];
      assert !dev(w1).Raised? && Calm(dev, w1, rest) by {
        UntilRaiseCons(dev, w, req, rest);
      }
      var acc1 := if dev(w1).ErrorReply? then acc else acc[plan[0].0 := plan[0].1];
      GainWritesCalm(dev, w1, plan[1..], acc1);
      SendOneThenRest(w, req, rest);
    }
  }

  /** When a gain write raises, the writes up to and including it are sent and set_pid raises. */
  lemma {:induction false} GainWritesRaise(dev: seq<Request> -> Reply, w: seq<Request>, plan: seq<(Slot, Arg)>,
                                           acc: map<Slot, Arg>)
    requires Convertible(plan) && !Calm(dev, w, PlanRequests(plan))
    decreases |plan|
    ensures GainWrites(dev, w, plan, acc) == (w + UntilRaise(dev, w, PlanRequests(plan)), Err(LinkFault))
  {
    GainWritesCons(dev, w, plan, acc);
    var req := SetGainRequest(plan[0].0, AsInt(plan[0].1).value);
    var rest := PlanRequests(plan[1..]);
    var w1 := w + [req];
    UntilRaiseCons(dev, w, req, rest);
    if !dev(w1).Raised? {
      var acc1 := if dev(w1).ErrorReply? then acc else acc[plan[0].0 := plan[0].1];
      GainWritesRaise(dev, w1, plan[1..], acc1);
      SendOneThenRest(w, req, UntilRaise(dev, w1, rest));
    }
  }

  /**
   * When every given gain converts, set_pid sends one [code, int(v)] write per
   * given gain, in plan order, up to and including the first that raises; the
   * call raises exactly when one of them does.
   */
  lemma GainWritesSent(dev: seq<Request> -> Reply, w: seq<Request>, plan: seq<(Slot, Arg)>, acc: map<Slot, Arg>)
    requires Convertible(plan)
    ensures GainWrites(dev, w, plan, acc).0 == w + UntilRaise(dev, w, PlanRequests(plan))
    ensures GainWrites(dev, w, plan, acc).1.Ok? <==> Calm(dev, w, PlanRequests(plan))
    ensures GainWrites(dev, w, plan, acc).1.Err? ==> GainWrites(dev, w, plan, acc).1.error == LinkFault
  {
    if Calm(dev, w, PlanRequests(plan)) {
      GainWritesCalm(dev, w, plan, acc);
      UntilRaiseStops(dev, w, PlanRequests(plan));
    } else {
      GainWritesRaise(dev, w, plan, acc);
    }
  }

  /** A gain that the plan does not name keeps whatever the results held for it. */
  lemma {:induction false} GainWritesUntouched(dev: seq<Request> -> Reply, w: seq<Request>, plan: seq<(Slot, Arg)>,
                                               acc: map<Slot, Arg>, s: Slot)
    requires forall k :: 0 <= k < |plan| ==> plan[k].0 != s
    decreases |plan|
    ensures var r := GainWrites(dev, w, plan, acc).1;
      r.Ok? ==> (s in r.value <==> s in acc) && (s in acc ==> r.value[s] == acc[s])
  {
    if plan != [] {
      var (w1, r1) := GainWrite(dev, w, plan[0].0, plan[0].1, acc);
      if r1.Ok? {
        GainWritesUntouched(dev, w1, plan[1..], r1.value, s);
      }
    }
  }

  /**
   * When set_pid returns, a gain the plan names is in the results iff it was there
   * already or the response to its own write was not an error; a gain so kept
   * carries the argument as given.
   */
  lemma {:induction false} GainWritesKept(dev: seq<Request> -> Reply, w: seq<Request>, plan: seq<(Slot, Arg)>,
                                          acc: map<Slot, Arg>, k: nat)
    requires Convertible(plan) && k < |plan|
    requires forall i, j :: 0 <= i < j < |plan| ==> plan[i].0 != plan[j].0
    decreases |plan|
    ensures var r := GainWrites(dev, w, plan, acc).1;
      r.Ok? ==>
        && (plan[k].0 in r.value <==> plan[k].0 in acc || !dev(SentUpTo(w, plan, k)).ErrorReply?)
        && (!dev(SentUpTo(w, plan, k)).ErrorReply? ==> plan[k].0 in r.value && r.value[plan[k].0] == plan[k].1)
  {
    GainWritesStep(dev, w, plan, acc);
    var rest := plan[1..];
    var (w1, r1) := GainWrite(dev, w, plan[0].0, plan[0].1, acc);
    var reqs := PlanRequests(plan);
    if r1.Ok? {
      if k == 0 {
        assert w1 == SentUpTo(w, plan, 0);
        GainWritesUntouched(dev, w1, rest, r1.value, plan[0].0);
      } else {
        GainWritesKept(dev, w1, rest, r1.value, k - 1);
        assert rest[k - 1] == plan[k];
        var later := PlanRequests(rest);
        assert reqs[..k + 1] == [reqs[0]] + later[..k];
        assert w1 + later[..k] == w + reqs[..k + 1];
      }
    }
  }

  /** One `if X is not None` block of set_pid, after the blocks before it. */
  function ThenWrite(dev: seq<Request> -> Reply, prev: (seq<Request>, Result<map<Slot, Arg>>), s: Slot, a: Arg)
    : (seq<Request>, Result<map<Slot, Arg>>)
  {
    if prev.1.Err? || a == Nil then prev else GainWrite(dev, prev.0, s, a, prev.1.value)
  }

  /** The three blocks of set_pid for P, D and I, in that order. */
  function PidWrites(dev: seq<Request> -> Reply, w: seq<Request>, p: Arg, d: Arg, i: Arg): (seq<Request>, Result<map<Slot, Arg>>) {
    ThenWrite(dev, ThenWrite(dev, ThenWrite(dev, (w, Ok(map[])), P, p), D, d), I, i)
  }

  /** Adding one possibly-absent gain to a plan is one more block. */
  lemma ThenWriteExtends(dev: seq<Request> -> Reply, w: seq<Request>, plan: seq<(Slot, Arg)>, s: Slot, a: Arg)
    ensures GainWrites(dev, w, plan + (if a != Nil then [(s, a)] else []), map[]) ==
            ThenWrite(dev, GainWrites(dev, w, plan, map[]), s, a)
  {
    var tail := if a != Nil then [(s, a)] else [];
    GainWritesAppend(dev, w, plan, tail, map[]);
    if a == Nil {
      assert plan + tail == plan;
    }
  }

  /** The three blocks of set_pid run the gain plan: only given gains, in P, D, I order. */
  lemma PidWritesFollowPlan(dev: seq<Request> -> Reply, w: seq<Request>, p: Arg, d: Arg, i: Arg)
    ensures PidWrites(dev, w, p, d, i) == GainWrites(dev, w, GainPlan(p, d, i), map[])
  {
    var pP: seq<(Slot, Arg)> := if p != Nil then [(P, p)] else [];
    var pD: seq<(Slot, Arg)> := if d != Nil then [(D, d)] else [];
    var pI: seq<(Slot, Arg)> := if i != Nil then [(I, i)] else [];
    ThenWriteExtends(dev, w, [], P, p);
    assert [] + pP == pP;
    ThenWriteExtends(dev, w, pP, D, d);
    ThenWriteExtends(dev, w, pP + pD, I, i);
  }

  // ---------------------------------------------------------------- write()

  /** The key priority of write(): "setpoint" first, then any of "P", "D", "I"; otherwise nothing. */
  function Route(data: map<string, Arg>): (c: Command)
    ensures "setpoint" in data ==> c == SetSetpoint(data["setpoint"])
    ensures "setpoint" !in data && HasGainKey(data) ==>
      c == SetPid(Lookup(data, "P"), Lookup(data, "D"), Lookup(data, "I"))
    ensures "setpoint" !in data && !HasGainKey(data) ==> c == NoOp
    ensures !c.SetPressure? && !c.SetGas?
  {
    if "setpoint" in data then SetSetpoint(data["setpoint"])
    else if HasGainKey(data) then SetPid(Lookup(data, "P"), Lookup(data, "D"), Lookup(data, "I"))
    else NoOp
  }

  // ---------------------------------------------------------------- the driver

  class Alicat {
    /** Simulation mode: fixed values, no transport. */
    const dummy: bool
    const device: Device
    /** struct.pack('>f', x) read back as a big-endian pattern; None where Python raises OverflowError. */
    const packF32: real -> Option<bv32>
    /**
     * pymodbus's `connected` property of a client whose connect() succeeded, after
     * the requests sent so far: false once the library has lost the socket.
     */
    const live: seq<Request> -> bool

    /** `_cli` */
    var link: Link
    var connected: bool
    /**
     * Every request the driver has attempted, oldest first, including one during
     * which the library raised and which may never have reached the device.
     */
    var wire: seq<Request>

    /**
     * Simulation mode never makes a client, and `connected` is only ever set while a
     * client exists; that client may since have failed to reconnect, because a
     * failed initialize() leaves `connected` as it was.
     */
    ghost predicate Valid()
      reads this
    {
      && (dummy ==> link == NoClient && wire == [])
      && (!dummy && connected ==> link.Client?)
    }

    constructor (dummy: bool, device: Device, packF32: real -> Option<bv32>, live: seq<Request> -> bool)
      ensures Valid()
      ensures this.dummy == dummy && this.device == device && this.packF32 == packF32 && this.live == live
      ensures link == NoClient && !connected && wire == []
    {
      this.dummy := dummy;
      this.device := device;
      this.packF32 := packF32;
      this.live := live;
      link := NoClient;
      connected := false;
      wire := [];
    }

    /** Attempt one request and take its outcome: the device's reply, or the library's exception. */
    method Exchange(req: Request) returns (rep: Reply)
      modifies this`wire
      ensures wire == old(wire) + [req] && rep == device(wire)
      ensures Fits(wire, rep)
    {
      wire := wire + [req];
      rep := device(wire);
    }

    /**
     * initialize(): a client whose connection is still live is kept; otherwise a new
     * client is made, and `reachable` is whether its connect() succeeds.
     */
    method Initialize(reachable: bool) returns (r: Result<()>)
      requires Valid()
      modifies this`link, this`connected
      ensures Valid()
      ensures dummy ==> r == Ok(()) && connected && link == old(link)
      ensures !dummy && old(link) == Client(true) && live(wire) ==> r == Ok(()) && connected && link == old(link)
      ensures !dummy && !(old(link) == Client(true) && live(wire)) ==>
        && link == Client(reachable)
        && (reachable ==> r == Ok(()) && connected)
        && (!reachable ==> r == Err(ConnectFailed) && connected == old(connected))
    {
      if dummy {
        connected := true;
        return Ok(());
      }
      if link == Client(true) && live(wire) {
        connected := true;
        return Ok(());
      }
      link := Client(reachable);
      if !reachable {
        return Err(ConnectFailed);
      }
      connected := true;
      r := Ok(());
    }

    /** close(): drops the client; calling it again changes nothing. */
    method Close()
      requires Valid()
      modifies this`link, this`connected
      ensures Valid()
      ensures link == NoClient && !connected
    {
      link := NoClient;
      connected := false;
    }

    /** _read_input_f32 / _read_holding_f32: one two-register read. */
    method ReadPair(holding: bool, address: nat) returns (r: Result<bv32>)
      requires Valid()
      modifies this`wire
      ensures Valid()
      ensures link.NoClient? ==> r == Err(NotConnected) && wire == old(wire)
      ensures link.Client? ==>
        var req := if holding then ReadHolding(address, REG_PAIR_LEN) else ReadInput(address, REG_PAIR_LEN);
        && wire == old(wire) + [req]
        && (!device(wire).Registers? ==> r == Err(Failure(device(wire))))
        && (device(wire).Registers? ==> r == Ok(PairValue(device(wire).words)))
    {
      if link.NoClient? {
        return Err(NotConnected);
      }
      var req := if holding then ReadHolding(address, REG_PAIR_LEN) else ReadInput(address, REG_PAIR_LEN);
      var rep := Exchange(req);
      if !rep.Registers? {
        return Err(Failure(rep));
      }
      r := Ok(PairValue(rep.words));
    }

    /** read_setpoint(): the holding pair at REG_SETPOINT_F32 (no simulation shortcut). */
    method ReadSetpoint() returns (r: Result<bv32>)
      requires Valid()
      modifies this`wire
      ensures Valid()
      ensures link.NoClient? ==> r == Err(NotConnected) && wire == old(wire)
      ensures link.Client? ==>
        && wire == old(wire) + [ReadHolding(REG_SETPOINT_F32, REG_PAIR_LEN)]
        && r == (if device(wire).Registers? then Ok(PairValue(device(wire).words)) else Err(Failure(device(wire))))
    {
      r := ReadPair(true, REG_SETPOINT_F32);
    }

    /** read_mass_flow(), read_pressure(), read_temperature(): the input pair of that quantity. */
    method ReadInputValue(address: nat) returns (r: Result<bv32>)
      requires Valid()
      requires address in {REG_MASS_FLOW_F32, REG_PRESSURE_F32, REG_TEMPERATURE_F32}
      modifies this`wire
      ensures Valid()
      ensures link.NoClient? ==> r == Err(NotConnected) && wire == old(wire)
      ensures link.Client? ==>
        && wire == old(wire) + [ReadInput(address, REG_PAIR_LEN)]
        && r == (if device(wire).Registers? then Ok(PairValue(device(wire).words)) else Err(Failure(device(wire))))
    {
      r := ReadPair(false, address);
    }

    /** read(include_pid) */
    method Read(includePid: bool) returns (r: Result<Reading>)
      requires Valid()
      modifies this`wire
      ensures Valid()
      ensures dummy ==> r == Ok(DUMMY_READING) && wire == old(wire)
      ensures !dummy && link.NoClient? ==> r == Err(NotConnected) && wire == old(wire)
      ensures !dummy && link.Client? ==>
        var w1 := old(wire) + [BLOCK_READ];
        && (!device(w1).Registers? ==> r == Err(Failure(device(w1))) && wire == w1)
        && (device(w1).Registers? && !includePid ==>
              wire == w1 && r == Ok(FromBlock(connected, DecodeBlock(device(w1).words), None)))
        && (device(w1).Registers? && includePid ==>
              var (w2, g) := PidRead(device, w1);
              && wire == w2
              && r == (if g.Err? then Err(g.error)
                       else Ok(FromBlock(connected, DecodeBlock(device(w1).words), Some(g.value)))))
    {
      if dummy {
        return Ok(DUMMY_READING);
      }
      if link.NoClient? {
        return Err(NotConnected);
      }
      var rep := Exchange(BLOCK_READ);
      if !rep.Registers? {
        return Err(Failure(rep));
      }
      var block := DecodeBlock(rep.words);
      if !includePid {
        return Ok(FromBlock(connected, block, None));
      }
      var pid := ReadPid();
      r := if pid.Err? then Err(pid.error) else Ok(FromBlock(connected, block, Some(pid.value)));
    }

    /** One select-then-read step of read_pid. */
    method ReadSlot(k: nat) returns (r: Result<int>)
      modifies this`wire
      ensures (wire, r) == SlotRead(device, old(wire), k)
    {
      var sel := Exchange(SelectSlot(k));
      if sel.Raised? {
        return Err(LinkFault);
      }
      var rep := Exchange(SLOT_READ);
      r := if rep.Raised? then Err(LinkFault) else Ok(SlotGain(rep));
    }

    /** read_pid() */
    method ReadPid() returns (r: Result<Gains>)
      requires Valid()
      modifies this`wire
      ensures Valid()
      ensures dummy ==> r == Ok(DUMMY_GAINS) && wire == old(wire)
      ensures !dummy && link.NoClient? ==> r == Err(NotConnected) && wire == old(wire)
      ensures !dummy && link.Client? ==> (wire, r) == PidRead(device, old(wire))
    {
      if dummy {
        return Ok(DUMMY_GAINS);
      }
      if link.NoClient? {
        return Err(NotConnected);
      }
      var p := ReadSlot(0);
      if p.Err? {
        return Err(p.error);
      }
      var d := ReadSlot(1);
      if d.Err? {
        return Err(d.error);
      }
      var i := ReadSlot(2);
      r := if i.Err? then Err(i.error) else Ok(Gains(p.value, d.value, i.value));
    }

    /** What set_flow_rate(a) sends and returns, from the link and history it starts with. */
    function SetFlowRateEffect(link0: Link, w: seq<Request>, a: Arg): (seq<Request>, Result<Ack>) {
      if dummy then (w, Ok(SetpointAck(a)))
      else match AsFloat(a)
        case Err(e) => (w, Err(e))
        case Ok(x) =>
          if link0.NoClient? then (w, Err(NotConnected))
          else match packF32(x)
            case None => (w, Err(Overflow))
            case Some(raw) =>
              var w' := w + [SetpointWrite(raw)];
              (w', if device(w').Registers? then Ok(SetpointAck(a)) else Err(Failure(device(w'))))
    }

    /**
     * set_flow_rate(a): a value outside [SETPOINT_MIN, SETPOINT_MAX] is only
     * flagged in `warned` and still written.
     */
    method SetFlowRate(a: Arg) returns (r: Result<Ack>, ghost warned: bool)
      requires Valid()
      modifies this`wire
      ensures Valid()
      ensures (wire, r) == SetFlowRateEffect(link, old(wire), a)
      ensures warned <==> !dummy && AsFloat(a).Ok? && !(SETPOINT_MIN <= AsFloat(a).value <= SETPOINT_MAX)
    {
      warned := false;
      if dummy {
        return Ok(SetpointAck(a)), warned;
      }
      var x := AsFloat(a);
      if x.Err? {
        return Err(x.error), warned;
      }
      warned := !(SETPOINT_MIN <= x.value <= SETPOINT_MAX);
      if link.NoClient? {
        return Err(NotConnected), warned;
      }
      var raw := packF32(x.value);
      if raw.None? {
        return Err(Overflow), warned;
      }
      var rep := Exchange(SetpointWrite(raw.value));
      if !rep.Registers? {
        return Err(Failure(rep)), warned;
      }
      r := Ok(SetpointAck(a));
    }

    /** What set_pid(p, d, i) sends and returns, from the link and history it starts with. */
    function SetPidEffect(link0: Link, w: seq<Request>, p: Arg, d: Arg, i: Arg): (seq<Request>, Result<Ack>) {
      if dummy then (w, Ok(PidAck(map[P := p, D := d, I := i])))
      else if link0.NoClient? then (w, Err(NotConnected))
      else
        var (w', r) := PidWrites(device, w, p, d, i);
        (w', if r.Err? then Err(r.error) else Ok(PidAck(r.value)))
    }

    /**
     * One `if X is not None` block of set_pid; Nil stands for None. A block
     * after a raised exception does nothing, so `prev` may be an error.
     */
    method WriteIfGiven(s: Slot, a: Arg, prev: Result<map<Slot, Arg>>) returns (r: Result<map<Slot, Arg>>)
      modifies this`wire
      ensures (wire, r) == ThenWrite(device, (old(wire), prev), s, a)
    {
      if prev.Err? || a == Nil {
        return prev;
      }
      var v := AsInt(a);
      if v.Err? {
        return Err(v.error);
      }
      var rep := Exchange(SetGainRequest(s, v.value));
      r := if rep.Raised? then Err(LinkFault) else Ok(if rep.ErrorReply? then prev.value else prev.value[s := a]);
    }

    /** set_pid(p, d, i): Nil stands for None. */
    method SetPid(p: Arg, d: Arg, i: Arg) returns (r: Result<Ack>)
      requires Valid()
      modifies this`wire
      ensures Valid()
      ensures (wire, r) == SetPidEffect(link, old(wire), p, d, i)
    {
      if dummy {
        return Ok(PidAck(map[P := p, D := d, I := i]));
      }
      if link.NoClient? {
        return Err(NotConnected);
      }
      var results := WriteIfGiven(P, p, Ok(map[]));
      results := WriteIfGiven(D, d, results);
      results := WriteIfGiven(I, i, results);
      r := if results.Err? then Err(results.error) else Ok(PidAck(results.value));
    }

    /** write(data) */
    method Write(data: map<string, Arg>) returns (r: Result<Ack>)
      requires Valid()
      modifies this`wire
      ensures Valid()
      ensures Route(data).NoOp? ==> r == Ok(NoOpAck) && wire == old(wire)
      ensures Route(data).SetSetpoint? ==> (wire, r) == SetFlowRateEffect(link, old(wire), Route(data).value)
      ensures Route(data).SetPid? ==>
        (wire, r) == SetPidEffect(link, old(wire), Route(data).p, Route(data).d, Route(data).i)
    {
      match Route(data)
      case SetSetpoint(a) =>
        ghost var warned;
        r, warned := SetFlowRate(a);
      case SetPid(p, d, i) =>
        r := SetPid(p, d, i);
      case _ =>
        r := Ok(NoOpAck);
    }
  }
}
