/**
 * What the two mass-flow-controller drivers share: the Python values callers hand
 * them, the commands the keyed dispatcher `write` recognises, the PID gains and the
 * acknowledgement dictionaries the setters return.
 */
module DriverContract {
  import opened Common
  import opened Text
  import opened Decimal

  /**
   * A Python value as a caller passes it (a dict entry or a keyword argument). A
   * Python float is an exact real: NaN and the infinities are not represented.
   */
  datatype Arg = Real(x: real) | Int(n: int) | Str(s: string) | Nil

  /** One of the three PID gain slots. */
  datatype Slot = P | D | I

  datatype Gains = Gains(p: int, d: int, i: int)

  /** The caller intent `write` resolves a field dictionary to. */
  datatype Command =
    | SetSetpoint(value: Arg)
    | SetPressure(value: Arg)
    | SetGas(value: Arg)
    | SetPid(p: Arg, d: Arg, i: Arg)
    | NoOp

  /**
   * The dictionaries the setters return. Every variant but NoOpAck carries
   * status "ok"; NoOpAck is {"status": "no_op", "message": ...}.
   */
  datatype Ack =
    | SetpointAck(setpoint: Arg)
    | PressureAck(pressure: Arg)
    | GasAck(gas: Arg)
    | PidAck(gains: map<Slot, Arg>)
    | NoOpAck

  /** data.get(key): None (Nil) when the key is absent. */
  function Lookup(data: map<string, Arg>, key: string): Arg {
    if key in data then data[key] else Nil
  }

  predicate HasGainKey(data: map<string, Arg>) {
    "P" in data || "D" in data || "I" in data
  }

  /** int(x) for a float: truncation toward zero. */
  function Truncate(x: real): (n: int)
    ensures x >= 0.0 ==> 0 <= n && n as real <= x < n as real + 1.0
    ensures x < 0.0 ==> n <= 0 && n as real - 1.0 < x <= n as real
  {
    if x >= 0.0 then x.Floor else 0 - (0.0 - x).Floor
  }

  /**
   * The argument used as a float (compared with the range bounds, packed, or
   * formatted with a fixed number of decimals): a string or None raises.
   */
  function AsFloat(a: Arg): (r: Result<real>)
    ensures r.Err? <==> a.Str? || a.Nil?
    ensures a.Real? ==> r == Ok(a.x)
    ensures a.Int? ==> r == Ok(a.n as real)
  {
    match a
    case Real(x) => Ok(x)
    case Int(n) => Ok(n as real)
    case _ => Err(WrongType)
  }

  /** int(a): floats truncate, strings are parsed after stripping, None raises. */
  function AsInt(a: Arg): (r: Result<int>)
    ensures a.Nil? ==> r.Err?
    ensures a.Int? ==> r == Ok(a.n)
    ensures a.Real? ==> r == Ok(Truncate(a.x))
  {
    match a
    case Int(n) => Ok(n)
    case Real(x) => Ok(Truncate(x))
    case Str(s) => (match ParseInt(Strip(s)) case Some(n) => Ok(n) case None => Err(WrongType))
    case Nil => Err(WrongType)
  }

  function SlotRank(s: Slot): nat {
    match s case P => 0 case D => 1 case I => 2
  }

  /**
   * The gains set_pid acts on: those that are not None, in the order P, D, I,
   * each with the argument it was given.
   */
  function GainPlan(p: Arg, d: Arg, i: Arg): (plan: seq<(Slot, Arg)>)
    ensures forall k :: 0 <= k < |plan| ==> plan[k].1 != Nil
    ensures forall k, j :: 0 <= k < j < |plan| ==> SlotRank(plan[k].0) < SlotRank(plan[j].0)
    ensures (P, p) in plan <==> p != Nil
    ensures (D, d) in plan <==> d != Nil
    ensures (I, i) in plan <==> i != Nil
    ensures forall k :: 0 <= k < |plan| ==> plan[k] in {(P, p), (D, d), (I, i)}
  {
    (if p != Nil then [(P, p)] else [])
    + (if d != Nil then [(D, d)] else [])
    + (if i != Nil then [(I, i)] else [])
  }

  /** Every gain of the plan converts with int(). */
  predicate Convertible(plan: seq<(Slot, Arg)>) {
    forall k :: 0 <= k < |plan| ==> AsInt(plan[k].1).Ok?
  }

  lemma ConvertibleTail(plan: seq<(Slot, Arg)>)
    requires Convertible(plan) && plan != []
    ensures Convertible(plan[1..])
  {
    forall k | 0 <= k < |plan| - 1 ensures AsInt(plan[1..][k].1).Ok? { assert plan[1..][k] == plan[k + 1]; }
  }

  /** The gains that are given (not None), each with its argument, as a results dictionary. */
  function GivenGains(p: Arg, d: Arg, i: Arg): (m: map<Slot, Arg>)
    ensures (P in m <==> p != Nil) && (D in m <==> d != Nil) && (I in m <==> i != Nil)
    ensures P in m ==> m[P] == p
    ensures D in m ==> m[D] == d
    ensures I in m ==> m[I] == i
  {
    WithGiven(WithGiven(WithGiven(map[], P, p), D, d), I, i)
  }

  /** The results dictionary with `slot` set to `a` when `a` is given. */
  function WithGiven(m: map<Slot, Arg>, slot: Slot, a: Arg): map<Slot, Arg> {
    if a != Nil then m[slot := a] else m
  }
}
