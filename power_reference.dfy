/**
 * A reference instrument for the output switches of the power supply: three
 * channel outputs that ":OUTP CH{n},ON|OFF" sets and ":OUTP? CH{n}" reports
 * as "1" or "0". Against it enable_output and is_output_enabled are shown to
 * agree: the state written is the state read back, on that channel only.
 */
module PowerReference {
  import opened Common
  import opened Decimal
  import opened DriverContract
  import opened PowerSupply

  /** The output switch of each channel. */
  datatype Outputs = Outputs(ch1: bool, ch2: bool, ch3: bool)

  function IsOn(s: Outputs, n: int): bool
    requires 1 <= n <= MAX_CHANNELS
  {
    if n == 1 then s.ch1 else if n == 2 then s.ch2 else s.ch3
  }

  function Switch(s: Outputs, n: int, on: bool): (s': Outputs)
    requires 1 <= n <= MAX_CHANNELS
    ensures IsOn(s', n) == on
    ensures forall m :: 1 <= m <= MAX_CHANNELS && m != n ==> IsOn(s', m) == IsOn(s, m)
  {
    if n == 1 then s.(ch1 := on) else if n == 2 then s.(ch2 := on) else s.(ch3 := on)
  }

  /** The channel and state an output command names, if the text is one. */
  function DecodeOutputCommand(t: string): (r: Option<(int, bool)>)
    ensures r.Some? ==> 1 <= r.value.0 <= MAX_CHANNELS && t == OutputCommand(r.value.0, r.value.1)
  {
    if t == OutputCommand(1, true) then Some((1, true))
    else if t == OutputCommand(1, false) then Some((1, false))
    else if t == OutputCommand(2, true) then Some((2, true))
    else if t == OutputCommand(2, false) then Some((2, false))
    else if t == OutputCommand(3, true) then Some((3, true))
    else if t == OutputCommand(3, false) then Some((3, false))
    else None
  }

  /** The channel an output-state query names, if the text is one. */
  function DecodeOutputQuery(t: string): (r: Option<int>)
    ensures r.Some? ==> 1 <= r.value <= MAX_CHANNELS && t == OutputQuery(r.value)
  {
    if t == OutputQuery(1) then Some(1)
    else if t == OutputQuery(2) then Some(2)
    else if t == OutputQuery(3) then Some(3)
    else None
  }

  /** Every command enable_output sends is decoded as the channel and state it was built from. */
  lemma DecodeOutputCommandOf(n: int, on: bool)
    requires 1 <= n <= MAX_CHANNELS
    ensures DecodeOutputCommand(OutputCommand(n, on)) == Some((n, on))
  {
    var r := DecodeOutputCommand(OutputCommand(n, on));
    if r.Some? {
      OutputCommandInjective(r.value.0, r.value.1, n, on);
    }
  }

  /** Every query is_output_enabled sends is decoded as the channel it was built for. */
  lemma DecodeOutputQueryOf(n: int)
    requires 1 <= n <= MAX_CHANNELS
    ensures DecodeOutputQuery(OutputQuery(n)) == Some(n)
  {
    var r := DecodeOutputQuery(OutputQuery(n));
    if r.Some? {
      assert OutputQuery(r.value)[9..] == ShowInt(r.value);
      assert OutputQuery(n)[9..] == ShowInt(n);
      ShowIntInjective(r.value, n);
    }
  }

  /** The effect of one message: an output command switches its channel; anything else changes nothing. */
  function Apply(s: Outputs, m: Message): Outputs {
    match m
    case ScpiWrite(t) =>
      (match DecodeOutputCommand(t) case Some((n, on)) => Switch(s, n, on) case None => s)
    case ScpiQuery(_) => s
  }

  function Replay(s0: Outputs, w: seq<Message>): Outputs
    decreases |w|
  {
    if w == [] then s0 else Apply(Replay(s0, w[..|w| - 1]), w[|w| - 1])
  }

  /** The reference instrument's answer to the last message of a history: it never raises. */
  function ReferenceReply(s0: Outputs, w: seq<Message>): Reply {
    if w == [] then Answer("")
    else match w[|w| - 1]
      case ScpiQuery(t) =>
        (match DecodeOutputQuery(t)
         case Some(n) => Answer(ShowInt(if IsOn(Replay(s0, w[..|w| - 1]), n) then 1 else 0))
         case None => Answer(""))
      case ScpiWrite(_) => Answer("")
  }

  function Reference(s0: Outputs): Instrument {
    w => ReferenceReply(s0, w)
  }

  lemma ReplaySnoc(s0: Outputs, w: seq<Message>, m: Message)
    ensures Replay(s0, w + [m]) == Apply(Replay(s0, w), m)
  {
    assert (w + [m])[..|w|] == w;
  }

  /**
   * On a connected reference instrument, enable_output(ch, on) succeeds and switches
   * that channel alone; is_output_enabled(ch) afterwards reports `on`.
   */
  lemma EnableThenReadBack(s0: Outputs, w: seq<Message>, ch: Arg, on: bool)
    requires ValidChannel(ch)
    ensures var (w1, r1) := EnableOutputEffect(Reference(s0), true, w, ch, on);
      && r1 == Ok(())
      && Replay(s0, w1) == Switch(Replay(s0, w), ch.n, on)
      && OutputStateEffect(Reference(s0), true, w1, ch).1 == Ok(on)
  {
    var n := ch.n;
    var w1 := w + [ScpiWrite(OutputCommand(n, on))];
    assert EnableOutputEffect(Reference(s0), true, w, ch, on) == (w1, Ok(()));
    DecodeOutputCommandOf(n, on);
    ReplaySnoc(s0, w, ScpiWrite(OutputCommand(n, on)));
    var w2 := w1 + [ScpiQuery(OutputQuery(n))];
    DecodeOutputQueryOf(n);
    assert w2[..|w2| - 1] == w1;
    assert Reference(s0)(w2) == Answer(ShowInt(if on then 1 else 0));
    OutputStateOfShowInt(if on then 1 else 0);
  }
}
