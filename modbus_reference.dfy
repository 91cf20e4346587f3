/**
 * A reference device for the PID exchange of the Modbus driver: a controller
 * with three gain registers behind the command register 999 and the result
 * register 1000. Against it the driver's PID read and write are shown to
 * do what they are for: read_pid reads the selected slots back, and set_pid
 * changes exactly the gains it is given.
 */
module ModbusReference {
  import opened Common
  import opened DriverContract
  import opened ModbusDriver

  /** The controller's PID registers and the slot the last select command chose. */
  datatype PidRegs = PidRegs(p: Register, d: Register, i: Register, selected: Slot)

  function SlotOfIndex(k: int): Slot
    requires 0 <= k < 3
  {
    if k == 0 then P else if k == 1 then D else I
  }

  function SlotOfCode(c: int): Slot
    requires 8 <= c <= 10
  {
    if c == 8 then P else if c == 9 then D else I
  }

  function Get(s: PidRegs, slot: Slot): Register {
    match slot case P => s.p case D => s.d case I => s.i
  }

  function Put(s: PidRegs, slot: Slot, v: Register): PidRegs {
    match slot case P => s.(p := v) case D => s.(d := v) case I => s.(i := v)
  }

  /** Whether the controller accepts [c, v] written to the command register. */
  predicate Accepts(c: int, v: int) {
    (c == PID_SELECT && 0 <= v < 3) || (8 <= c <= 10 && 0 <= v < 0x1_0000)
  }

  /** The effect of one request on the controller. */
  function Apply(s: PidRegs, req: Request): PidRegs {
    match req
    case WriteRegisters(a, vs) =>
      if a == PID_COMMAND_REG && |vs| == 2 && Accepts(vs[0], vs[1]) then
        if vs[0] == PID_SELECT then s.(selected := SlotOfIndex(vs[1]))
        else Put(s, SlotOfCode(vs[0]), vs[1])
      else s
    case _ => s
  }

  /** The controller's registers after a history of requests. */
  function Replay(s0: PidRegs, w: seq<Request>): PidRegs
    decreases |w|
  {
    if w == [] then s0 else Apply(Replay(s0, w[..|w| - 1]), w[|w| - 1])
  }

  /** The controller's reply to the last request of a history: it never raises. */
  function ControllerReply(s0: PidRegs, w: seq<Request>): (rep: Reply)
    ensures Fits(w, rep)
    ensures !rep.Raised?
  {
    if w == [] then ErrorReply
    else
      var st := Replay(s0, w[..|w| - 1]);
      match w[|w| - 1]
      case ReadInput(a, n) =>
        if a == PID_RESULT_REG && n == 1 then Registers([Get(st, st.selected)])
        else Registers(seq(n, _ => 0))
      case ReadHolding(_, n) => Registers(seq(n, _ => 0))
      case WriteRegisters(a, vs) =>
        if a == PID_COMMAND_REG && |vs| == 2 && Accepts(vs[0], vs[1]) then Registers([]) else ErrorReply
  }

  function Controller(s0: PidRegs): Device {
    w => ControllerReply(s0, w)
  }

  lemma ReplaySnoc(s0: PidRegs, w: seq<Request>, req: Request)
    ensures Replay(s0, w + [req]) == Apply(Replay(s0, w), req)
  {
    assert (w + [req])[..|w|] == w;
  }

  /** No request list sent to the controller raises. */
  lemma {:induction false} ControllerCalm(s0: PidRegs, w: seq<Request>, rs: seq<Request>)
    decreases |rs|
    ensures Calm(Controller(s0), w, rs)
    ensures UntilRaise(Controller(s0), w, rs) == rs
  {
    if rs != [] {
      assert !Controller(s0)(w + [rs[0]]).Raised?;
      ControllerCalm(s0, w + [rs[0]], rs[1..]);
    }
  }

  function GainsOf(s: PidRegs): Gains {
    Gains(s.p, s.d, s.i)
  }

  /** One select-then-read step: the read returns the selected slot's register. */
  lemma SelectThenRead(s0: PidRegs, w: seq<Request>, k: int)
    requires 0 <= k < 3
    ensures Controller(s0)(w + [SelectSlot(k), SLOT_READ]) == Registers([Get(Replay(s0, w), SlotOfIndex(k))])
    ensures Replay(s0, w + [SelectSlot(k), SLOT_READ]) == Replay(s0, w).(selected := SlotOfIndex(k))
  {
    var w1 := w + [SelectSlot(k)];
    ReplaySnoc(s0, w, SelectSlot(k));
    assert w + [SelectSlot(k), SLOT_READ] == w1 + [SLOT_READ];
    ReplaySnoc(s0, w1, SLOT_READ);
    assert (w1 + [SLOT_READ])[..|w1|] == w1;
  }

  /** The gains the PID exchange reads from the controller are its three gain registers. */
  lemma ControllerPidGains(s0: PidRegs, w: seq<Request>)
    ensures PidGains(Controller(s0), w) == GainsOf(Replay(s0, w))
  {
    var q := PidQueries();
    var w1 := w + q[..2];
    var w2 := w + q[..4];
    assert w1 == w + [SelectSlot(0), SLOT_READ];
    assert w2 == w1 + [SelectSlot(1), SLOT_READ];
    assert w + q == w2 + [SelectSlot(2), SLOT_READ];
    SelectThenRead(s0, w, 0);
    SelectThenRead(s0, w1, 1);
    SelectThenRead(s0, w2, 2);
  }

  /**
   * read_pid on the controller sends its whole exchange and returns the three gain
   * registers, whatever slot was selected before.
   */
  lemma ReadPidReadsBack(s0: PidRegs, w: seq<Request>)
    ensures PidRead(Controller(s0), w) == (w + PidQueries(), Ok(GainsOf(Replay(s0, w))))
  {
    ControllerCalm(s0, w, PidQueries());
    PidReadSends(Controller(s0), w);
    PidReadResult(Controller(s0), w);
    ControllerPidGains(s0, w);
  }

  /** A gain argument the controller will take: absent, or an int() within one register. */
  predicate InRange(a: Arg) {
    a == Nil || (AsInt(a).Ok? && 0 <= AsInt(a).value < 0x1_0000)
  }

  /** The gain after a set_pid block for `slot`: the written value, or the old one when absent. */
  function Updated(current: Register, a: Arg): Register
    requires InRange(a)
  {
    if a == Nil then current else AsInt(a).value
  }

  /** One block of set_pid on the controller: the write is accepted and the slot takes the value. */
  lemma ThenWriteOnController(s0: PidRegs, w: seq<Request>, acc: map<Slot, Arg>, slot: Slot, a: Arg)
    requires InRange(a)
    ensures var (w', r) := ThenWrite(Controller(s0), (w, Ok(acc)), slot, a);
      && r == Ok(WithGiven(acc, slot, a))
      && Replay(s0, w') == (if a == Nil then Replay(s0, w) else Put(Replay(s0, w), slot, AsInt(a).value))
  {
    if a != Nil {
      var v := AsInt(a).value;
      var req := SetGainRequest(slot, v);
      var w' := w + [req];
      assert w'[..|w|] == w;
      assert Controller(s0)(w') == Registers([]);
      assert GainWrite(Controller(s0), w, slot, a, acc) == (w', Ok(acc[slot := a]));
      ReplaySnoc(s0, w, req);
    }
  }

  /** The controller's registers once the given gains are written. */
  function AfterWrites(s: PidRegs, p: Arg, d: Arg, i: Arg): PidRegs
    requires InRange(p) && InRange(d) && InRange(i)
  {
    PidRegs(Updated(s.p, p), Updated(s.d, d), Updated(s.i, i), s.selected)
  }

  /** set_pid's writes on the controller: every one is accepted and lands in its own slot. */
  lemma PidWritesOnController(s0: PidRegs, w: seq<Request>, p: Arg, d: Arg, i: Arg)
    requires InRange(p) && InRange(d) && InRange(i)
    ensures var (w', r) := PidWrites(Controller(s0), w, p, d, i);
      && r == Ok(GivenGains(p, d, i))
      && Replay(s0, w') == AfterWrites(Replay(s0, w), p, d, i)
  {
    var dev := Controller(s0);
    var g := Replay(s0, w);
    var st0 := (w, Result<map<Slot, Arg>>.Ok(map[]));
    ThenWriteOnController(s0, w, map[], P, p);
    var st1 := ThenWrite(dev, st0, P, p);
    assert Replay(s0, st1.0) == g.(p := Updated(g.p, p));
    ThenWriteOnController(s0, st1.0, st1.1.value, D, d);
    var st2 := ThenWrite(dev, st1, D, d);
    assert Replay(s0, st2.0) == g.(p := Updated(g.p, p), d := Updated(g.d, d));
    ThenWriteOnController(s0, st2.0, st2.1.value, I, i);
  }

  /**
   * set_pid on the controller keeps every given gain in its result, and a read_pid
   * after it returns the given gains and the untouched ones as they were.
   */
  lemma SetPidThenReadPid(s0: PidRegs, w: seq<Request>, p: Arg, d: Arg, i: Arg)
    requires InRange(p) && InRange(d) && InRange(i)
    ensures var (w', r) := PidWrites(Controller(s0), w, p, d, i);
      var g := Replay(s0, w);
      && r == Ok(GivenGains(p, d, i))
      && PidRead(Controller(s0), w').1 == Ok(Gains(Updated(g.p, p), Updated(g.d, d), Updated(g.i, i)))
  {
    PidWritesOnController(s0, w, p, d, i);
    ReadPidReadsBack(s0, PidWrites(Controller(s0), w, p, d, i).0);
  }
}
