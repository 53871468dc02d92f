/**
  The Go TM1638 driver (pkg/tm1638.go): bit-serial transport and command
  transactions, with the GPIO lines modelled as the trace of pin calls.
 */
module TM1638Go {
  import opened Wrappers
  import opened Bits
  import opened Gpio
  import opened TM1638Commands

  datatype DriverError = InvalidArgument

  /** One bit of `sendByte`: release DIO for a 1, drive it for a 0, then pulse CLK low and high. */
  function SendBit(bit: bool): seq<PinEvent> {
    [if bit then SetInput(Dio) else SetOutput(Dio), Write(Clk, false), Write(Clk, true)]
  }

  /** The bits `bits`, in order. */
  function SendBits(bits: seq<bool>): (t: seq<PinEvent>)
    ensures |t| == 3 * |bits|
  {
    if bits == [] then [] else SendBits(bits[..|bits| - 1]) + SendBit(bits[|bits| - 1])
  }

  /** `sendByte(v)`: the eight bits of `v`, least significant first, then DIO released. */
  function SendByteTrace(v: bv8): seq<PinEvent> {
    SendBits(LsbBits(v)) + [SetInput(Dio)]
  }

  function SendBytesTrace(bs: seq<bv8>): seq<PinEvent> {
    if bs == [] then [] else SendBytesTrace(bs[..|bs| - 1]) + SendByteTrace(bs[|bs| - 1])
  }

  lemma SendBytesSnoc(bs: seq<bv8>, b: bv8)
    ensures SendBytesTrace(bs + [b]) == SendBytesTrace(bs) + SendByteTrace(b)
  {
    assert (bs + [b])[..|bs|] == bs;
  }

  /** `readByte()` starting at sample `c`. */
  function ReadByteTrace(levels: nat -> bool, c: nat): seq<PinEvent> {
    [SetInput(Dio)] + ClockIn(levels, c, 8)
  }

  function ReadBytesTrace(levels: nat -> bool, c: nat, n: nat): seq<PinEvent> {
    if n == 0 then [] else ReadBytesTrace(levels, c, n - 1) + ReadByteTrace(levels, c + 8 * (n - 1))
  }

  lemma ReadBytesStep(levels: nat -> bool, c: nat, i: nat)
    ensures ReadBytesTrace(levels, c, i + 1) == ReadBytesTrace(levels, c, i) + ReadByteTrace(levels, c + 8 * i)
  {
  }

  /** `Initialize`: STROBE and CLK high and driven, DIO's output latch low and the pin released. */
  const InitTrace: seq<PinEvent> :=
    [Write(Strobe, true), Write(Clk, true), Write(Dio, false), SetOutput(Strobe), SetOutput(Clk), SetInput(Dio)]

  /** `ConfigureDisplay`: one transaction carrying the display-control byte. */
  function ConfigureTrace(enabled: bool, pulseWidth: nat): seq<PinEvent>
    requires pulseWidth < 8
  {
    Transaction(SendByteTrace(Encode(DisplayControl(enabled, pulseWidth))))
  }

  /** `InitWriteData`: one transaction carrying the write data command. */
  function InitWriteTrace(autoIncrement: bool): seq<PinEvent> {
    Transaction(SendByteTrace(Encode(WriteCommand(autoIncrement))))
  }

  /** `WriteData`: one transaction carrying the address byte, then each data byte in order. */
  function WriteDataTrace(address: nat, data: seq<bv8>): seq<PinEvent>
    requires address < 16
  {
    Transaction(SendByteTrace(Encode(AddressSet(address))) + SendBytesTrace(data))
  }

  /** `ReadScanningData`: one transaction carrying the read command, then n byte reads. */
  function ReadScanTrace(levels: nat -> bool, c: nat, n: nat): seq<PinEvent> {
    Transaction(SendByteTrace(Encode(ReadKeysCommand)) + ReadBytesTrace(levels, c, n))
  }

  /** Inside a transaction, between bits: STROBE low, CLK high, DIO's output latch low. */
  predicate Busy(l: Line) {
    l.strobeLow && l.clkHigh && !l.dioLatch
  }

  /** Between transactions: STROBE high, CLK high, DIO's output latch low. */
  predicate Idle(l: Line) {
    !l.strobeLow && l.clkHigh && !l.dioLatch
  }

  /** `Initialize` leaves the lines idle, whatever state they were in. */
  lemma InitIdle(l: Line)
    ensures Idle(After(InitTrace, l))
    ensures After(InitTrace, l).dioInput
  {
  }

  lemma SendBitDelivers(bit: bool, l: Line)
    requires Busy(l)
    ensures Latched(SendBit(bit), l) == [bit]
    ensures After(SendBit(bit), l) == l.(dioInput := bit)
  {
    var t := SendBit(bit);
    var l1 := l.(dioInput := bit);
    var l2 := l1.(clkHigh := false);
    assert t[1..] == [Write(Clk, false), Write(Clk, true)];
    assert t[1..][1..] == [Write(Clk, true)];
    assert Step(l, t[0]) == l1;
    LatchedSingle(Write(Clk, true), l2);
    assert Step(l2, Write(Clk, true)) == l1;
    assert Latched(t[1..], l1) == [bit] && After(t[1..], l1) == l1;
  }

  /** From the chip's side, sending `bits` delivers exactly `bits`. */
  lemma {:induction false} SendBitsDelivers(bits: seq<bool>, l: Line)
    requires Busy(l)
    ensures Latched(SendBits(bits), l) == bits
    ensures After(SendBits(bits), l) == if bits == [] then l else l.(dioInput := bits[|bits| - 1])
  {
    if bits != [] {
      var init := bits[..|bits| - 1];
      SendBitsDelivers(init, l);
      LatchedAppend(SendBits(init), SendBit(bits[|bits| - 1]), l);
      SendBitDelivers(bits[|bits| - 1], After(SendBits(init), l));
      assert bits == init + [bits[|bits| - 1]];
    }
  }

  /** From the chip's side, `sendByte(v)` delivers the bits of `v` least significant first and leaves DIO released. */
  lemma SendByteDelivers(v: bv8, l: Line)
    requires Busy(l)
    ensures Latched(SendByteTrace(v), l) == LsbBits(v)
    ensures After(SendByteTrace(v), l) == l.(dioInput := true)
  {
    SendBitsDelivers(LsbBits(v), l);
    LatchedAppend(SendBits(LsbBits(v)), [SetInput(Dio)], l);
    LatchedSingle(SetInput(Dio), After(SendBits(LsbBits(v)), l));
  }

  lemma {:induction false} SendBytesDelivers(bs: seq<bv8>, l: Line)
    requires Busy(l)
    ensures Latched(SendBytesTrace(bs), l) == WireBits(bs)
    ensures After(SendBytesTrace(bs), l) == if bs == [] then l else l.(dioInput := true)
  {
    if bs != [] {
      var init := bs[..|bs| - 1];
      SendBytesDelivers(init, l);
      LatchedAppend(SendBytesTrace(init), SendByteTrace(bs[|bs| - 1]), l);
      SendByteDelivers(bs[|bs| - 1], After(SendBytesTrace(init), l));
    }
  }

  /** Opening and closing STROBE around `body` latch nothing and leave STROBE high. */
  lemma FrameDelivers(body: seq<PinEvent>, l: Line)
    ensures Latched(Transaction(body), l) == Latched(body, l.(strobeLow := true))
    ensures After(Transaction(body), l) == After(body, l.(strobeLow := true)).(strobeLow := false)
  {
    var open, close := [Write(Strobe, false)], [Write(Strobe, true)];
    assert Transaction(body) == open + (body + close);
    LatchedAppend(open, body + close, l);
    LatchedSingle(Write(Strobe, false), l);
    var l1 := l.(strobeLow := true);
    LatchedAppend(body, close, l1);
    LatchedSingle(Write(Strobe, true), After(body, l1));
  }

  /**
    A transaction that sends the byte `b` and then the bytes `bs` from idle
    lines: the chip reassembles exactly `[b] + bs`, and the lines are idle
    again afterwards.
   */
  lemma TransactionDelivers(b: bv8, bs: seq<bv8>, l: Line)
    requires Idle(l)
    ensures Bytes(Latched(Transaction(SendByteTrace(b) + SendBytesTrace(bs)), l)) == [b] + bs
    ensures Idle(After(Transaction(SendByteTrace(b) + SendBytesTrace(bs)), l))
  {
    var l1 := l.(strobeLow := true);
    FrameDelivers(SendByteTrace(b) + SendBytesTrace(bs), l);
    LatchedAppend(SendByteTrace(b), SendBytesTrace(bs), l1);
    SendByteDelivers(b, l1);
    SendBytesDelivers(bs, l1.(dioInput := true));
    BytesCons(b, WireBits(bs));
    BytesOfWireBits(bs);
  }

  lemma SendBitShape(bit: bool)
    ensures ClockFalls(SendBit(bit)) == 1 && NoStrobe(SendBit(bit))
  {
    var t := SendBit(bit);
    assert ClockFalls(t[1..][1..]) == 0 by {
      assert t[1..][1..] == [Write(Clk, true)];
      assert t[1..][1..][1..] == [];
    }
    assert ClockFalls(t[1..]) == 1 by {
      assert t[1..] == [Write(Clk, false), Write(Clk, true)];
    }
  }

  lemma {:induction false} SendBitsShape(bits: seq<bool>)
    ensures ClockFalls(SendBits(bits)) == |bits| && NoStrobe(SendBits(bits))
    ensures forall k :: 0 <= k < |bits| ==> SendBits(bits)[3 * k..3 * k + 3] == SendBit(bits[k])
  {
    if bits != [] {
      var n := |bits|;
      var init := bits[..n - 1];
      var prefix, last := SendBits(init), SendBit(bits[n - 1]);
      SendBitsShape(init);
      SendBitShape(bits[n - 1]);
      ClockFallsAppend(prefix, last);
      NoStrobeAppend(prefix, last);
      forall k | 0 <= k < n ensures (prefix + last)[3 * k..3 * k + 3] == SendBit(bits[k]) {
        if k < n - 1 {
          assert (prefix + last)[3 * k..3 * k + 3] == prefix[3 * k..3 * k + 3];
          assert init[k] == bits[k];
        } else {
          assert (prefix + last)[3 * k..3 * k + 3] == last;
        }
      }
    }
  }

  /**
    `sendByte(v)`: 25 pin calls and exactly 8 falling CLK edges; for bit k
    (least significant first) DIO is released for a 1 and driven for a 0,
    then CLK goes low and high; DIO is released at the end. STROBE is not touched.
   */
  lemma SendByteShape(v: bv8)
    ensures |SendByteTrace(v)| == 25 && ClockFalls(SendByteTrace(v)) == 8 && NoStrobe(SendByteTrace(v))
    ensures forall k :: 0 <= k < 8 ==>
      && SendByteTrace(v)[3 * k] == (if Bit(v, k) then SetInput(Dio) else SetOutput(Dio))
      && SendByteTrace(v)[3 * k + 1] == Write(Clk, false)
      && SendByteTrace(v)[3 * k + 2] == Write(Clk, true)
    ensures SendByteTrace(v)[24] == SetInput(Dio)
  {
    var bits := LsbBits(v);
    var steps := SendBits(bits);
    SendBitsShape(bits);
    ClockFallsAppend(steps, [SetInput(Dio)]);
    NoStrobeAppend(steps, [SetInput(Dio)]);
    assert ClockFalls([SetInput(Dio)]) == 0 by {
      assert [SetInput(Dio)][1..] == [];
    }
    forall k | 0 <= k < 8
      ensures SendByteTrace(v)[3 * k] == (if Bit(v, k) then SetInput(Dio) else SetOutput(Dio))
      ensures SendByteTrace(v)[3 * k + 1] == Write(Clk, false)
      ensures SendByteTrace(v)[3 * k + 2] == Write(Clk, true)
    {
      var w := SendByteTrace(v)[3 * k..3 * k + 3];
      assert w == steps[3 * k..3 * k + 3] == SendBit(bits[k]);
      assert w[0] == SendByteTrace(v)[3 * k] && w[1] == SendByteTrace(v)[3 * k + 1] && w[2] == SendByteTrace(v)[3 * k + 2];
    }
  }

  lemma {:induction false} SendBytesShape(bs: seq<bv8>)
    ensures ClockFalls(SendBytesTrace(bs)) == 8 * |bs| && NoStrobe(SendBytesTrace(bs))
  {
    if bs != [] {
      var init := bs[..|bs| - 1];
      SendBytesShape(init);
      SendByteShape(bs[|bs| - 1]);
      ClockFallsAppend(SendBytesTrace(init), SendByteTrace(bs[|bs| - 1]));
      NoStrobeAppend(SendBytesTrace(init), SendByteTrace(bs[|bs| - 1]));
    }
  }

  /** `readByte()`: DIO released first, then exactly 8 falling CLK edges; STROBE is not touched. */
  lemma ReadByteShape(levels: nat -> bool, c: nat)
    ensures ReadByteTrace(levels, c)[0] == SetInput(Dio)
    ensures ClockFalls(ReadByteTrace(levels, c)) == 8 && NoStrobe(ReadByteTrace(levels, c))
  {
    ClockInShape(levels, c, 8);
    ClockFallsAppend([SetInput(Dio)], ClockIn(levels, c, 8));
    NoStrobeAppend([SetInput(Dio)], ClockIn(levels, c, 8));
    assert ClockFalls([SetInput(Dio)]) == 0 by {
      assert [SetInput(Dio)][1..] == [];
    }
  }

  lemma {:induction false} ReadBytesShape(levels: nat -> bool, c: nat, n: nat)
    ensures ClockFalls(ReadBytesTrace(levels, c, n)) == 8 * n && NoStrobe(ReadBytesTrace(levels, c, n))
  {
    if n > 0 {
      ReadBytesShape(levels, c, n - 1);
      ReadByteShape(levels, c + 8 * (n - 1));
      ClockFallsAppend(ReadBytesTrace(levels, c, n - 1), ReadByteTrace(levels, c + 8 * (n - 1)));
      NoStrobeAppend(ReadBytesTrace(levels, c, n - 1), ReadByteTrace(levels, c + 8 * (n - 1)));
    }
  }

  lemma TransactionClockFalls(body: seq<PinEvent>)
    ensures ClockFalls(Transaction(body)) == ClockFalls(body)
  {
    var open, close := [Write(Strobe, false)], [Write(Strobe, true)];
    assert Transaction(body) == open + (body + close);
    ClockFallsAppend(open, body + close);
    ClockFallsAppend(body, close);
    assert open[1..] == [] && close[1..] == [];
  }

  /** A transaction of `b` then `bs`: STROBE framed, with 8 falling CLK edges per byte. */
  lemma TransactionShape(b: bv8, bs: seq<bv8>)
    ensures StrobeFramed(Transaction(SendByteTrace(b) + SendBytesTrace(bs)))
    ensures ClockFalls(Transaction(SendByteTrace(b) + SendBytesTrace(bs))) == 8 * (|bs| + 1)
  {
    var body := SendByteTrace(b) + SendBytesTrace(bs);
    SendByteShape(b);
    SendBytesShape(bs);
    NoStrobeAppend(SendByteTrace(b), SendBytesTrace(bs));
    ClockFallsAppend(SendByteTrace(b), SendBytesTrace(bs));
    TransactionFramed(body);
    TransactionClockFalls(body);
  }

  /**
    `WriteData(address, data)` from idle lines: one STROBE-framed transaction
    with 8 falling CLK edges per byte, in which the chip receives
    `0xC0 | address` followed by the data bytes in order; the lines are idle again after it.
   */
  lemma WriteDataDelivers(address: nat, data: seq<bv8>, l: Line)
    requires address < 16 && Idle(l)
    ensures Bytes(Latched(WriteDataTrace(address, data), l)) == [0xC0 | address as bv8] + data
    ensures Idle(After(WriteDataTrace(address, data), l))
    ensures StrobeFramed(WriteDataTrace(address, data))
    ensures ClockFalls(WriteDataTrace(address, data)) == 8 * (|data| + 1)
  {
    FieldByteValue(address);
    TransactionDelivers(Encode(AddressSet(address)), data, l);
    TransactionShape(Encode(AddressSet(address)), data);
  }

  /** A transaction that carries the single byte `b`. */
  lemma SingleByteDelivers(b: bv8, l: Line)
    requires Idle(l)
    ensures Bytes(Latched(Transaction(SendByteTrace(b)), l)) == [b]
    ensures Idle(After(Transaction(SendByteTrace(b)), l))
    ensures StrobeFramed(Transaction(SendByteTrace(b)))
    ensures ClockFalls(Transaction(SendByteTrace(b))) == 8
  {
    assert SendByteTrace(b) + SendBytesTrace([]) == SendByteTrace(b);
    TransactionDelivers(b, [], l);
    TransactionShape(b, []);
  }

  /** `ConfigureDisplay(enabled, pulseWidth)` sends the single byte `0x80 | D << 3 | pulseWidth`. */
  lemma ConfigureDelivers(enabled: bool, pulseWidth: nat, l: Line)
    requires pulseWidth < 8 && Idle(l)
    ensures Bytes(Latched(ConfigureTrace(enabled, pulseWidth), l)) == [0x80 | (if enabled then 0x08 else 0) | pulseWidth as bv8]
    ensures Idle(After(ConfigureTrace(enabled, pulseWidth), l))
    ensures StrobeFramed(ConfigureTrace(enabled, pulseWidth))
    ensures ClockFalls(ConfigureTrace(enabled, pulseWidth)) == 8
  {
    FieldByteValue(pulseWidth);
    SingleByteDelivers(Encode(DisplayControl(enabled, pulseWidth)), l);
  }

  /** `InitWriteData(autoIncrement)` sends the single byte 0x40 (auto-increment) or 0x48 (fixed address). */
  lemma InitWriteDelivers(autoIncrement: bool, l: Line)
    requires Idle(l)
    ensures Bytes(Latched(InitWriteTrace(autoIncrement), l)) == [if autoIncrement then 0x40 else 0x48]
    ensures Idle(After(InitWriteTrace(autoIncrement), l))
    ensures StrobeFramed(InitWriteTrace(autoIncrement))
    ensures ClockFalls(InitWriteTrace(autoIncrement)) == 8
  {
    SingleByteDelivers(Encode(WriteCommand(autoIncrement)), l);
  }

  /**
    `ReadScanningData` with n bytes: one STROBE-framed transaction with
    8 + 8n falling CLK edges whose first eight latched bits carry the read command 0x42.
   */
  lemma ReadScanShape(levels: nat -> bool, c: nat, n: nat, l: Line)
    requires Idle(l)
    ensures StrobeFramed(ReadScanTrace(levels, c, n))
    ensures ClockFalls(ReadScanTrace(levels, c, n)) == 8 + 8 * n
    ensures |Latched(ReadScanTrace(levels, c, n), l)| >= 8
    ensures Bytes(Latched(ReadScanTrace(levels, c, n), l)[..8]) == [0x42]
  {
    var cmd: bv8 := 0x42;
    assert cmd == Encode(ReadKeysCommand);
    var command, input := SendByteTrace(cmd), ReadBytesTrace(levels, c, n);
    SendByteShape(cmd);
    ReadBytesShape(levels, c, n);
    NoStrobeAppend(command, input);
    ClockFallsAppend(command, input);
    TransactionFramed(command + input);
    TransactionClockFalls(command + input);
    var l1 := l.(strobeLow := true);
    FrameDelivers(command + input, l);
    LatchedAppend(command, input, l1);
    SendByteDelivers(cmd, l1);
    var latched := Latched(ReadScanTrace(levels, c, n), l);
    assert latched[..8] == LsbBits(cmd) + [];
    BytesCons(cmd, []);
  }

  class TM1638 {
    /** Every GPIO call made so far, in order. */
    var trace: seq<PinEvent>
    /** The level DIO reads as at the n-th sample (the chip's side of reads). */
    const dioLevels: nat -> bool
    /** How many DIO samples have been taken. */
    var samples: nat

    constructor (dioLevels: nat -> bool)
      ensures trace == InitTrace && samples == 0 && this.dioLevels == dioLevels
    {
      this.dioLevels := dioLevels;
      samples := 0;
      trace := InitTrace;
    }

    method SendByte(value: bv8)
      modifies this`trace
      ensures trace == old(trace) + SendByteTrace(value)
    {
      ghost var t0, bits := trace, LsbBits(value);
      var v := value;
      var i := 0;
      while i < 8
        invariant 0 <= i <= 8 && v == Shr(value, i)
        invariant trace == t0 + SendBits(bits[..i])
      {
        ghost var sent, e0 := SendBits(bits[..i]), SendBit(bits[i])[0];
        assert (v & 1 == 1) == bits[i] by {
          ShrLsb(value, i);
        }
        if v & 1 == 1 {
          trace := trace + [SetInput(Dio)];   // release the line: the pull-up makes it a 1
        } else {
          trace := trace + [SetOutput(Dio)];  // drive the line to 0
        }
        trace := trace + [Write(Clk, false)];
        v := v >> 1;
        trace := trace + [Write(Clk, true)];
        assert trace == t0 + SendBits(bits[..i + 1]) by {
          assert trace == t0 + sent + [e0] + [Write(Clk, false)] + [Write(Clk, true)];
          AppendStep(t0, sent, e0, Write(Clk, false), Write(Clk, true));
          assert bits[..i + 1][..i] == bits[..i];
        }
        i := i + 1;
      }
      assert bits[..8] == bits;
      trace := trace + [SetInput(Dio)];
    }

    method ReadByte() returns (r: bv8)
      modifies this`trace, this`samples
      ensures r == ShiftIn(dioLevels, old(samples), 8) && samples == old(samples) + 8
      ensures trace == old(trace) + ReadByteTrace(dioLevels, old(samples))
    {
      r := 0;
      trace := trace + [SetInput(Dio)];
      ghost var t0, c := trace, samples;
      var i := 0;
      while i < 8
        invariant 0 <= i <= 8 && samples == c + i
        invariant r == ShiftIn(dioLevels, c, i)
        invariant trace == t0 + ClockIn(dioLevels, c, i)
      {
        ghost var clocked := ClockIn(dioLevels, c, i);
        trace := trace + [Write(Clk, false)];
        r := r << 1;
        var high := dioLevels(samples);
        samples := samples + 1;
        trace := trace + [Read(Dio, high)];
        if high {
          r := r | 1;
        }
        trace := trace + [Write(Clk, true)];
        AppendStep(t0, clocked, Write(Clk, false), Read(Dio, high), Write(Clk, true));
        i := i + 1;
      }
      AppendAssoc(old(trace), [SetInput(Dio)], ClockIn(dioLevels, c, 8));
    }

    method ConfigureDisplay(enabled: bool, pulseWidth: nat) returns (err: Outcome<DriverError>)
      modifies this`trace
      ensures pulseWidth > 7 ==> err == Fail(InvalidArgument) && trace == old(trace)
      ensures pulseWidth <= 7 ==> err == Pass && trace == old(trace) + ConfigureTrace(enabled, pulseWidth)
    {
      if pulseWidth > 7 {
        return Fail(InvalidArgument);
      }
      var cmd: bv8 := 0x80;
      var pw := pulseWidth % 8;
      if enabled {
        cmd := cmd | 0x08;
      }
      cmd := cmd | pw as bv8;
      FieldByteValue(pw);
      assert cmd == Encode(DisplayControl(enabled, pulseWidth));
      trace := trace + [Write(Strobe, false)];
      SendByte(cmd);
      trace := trace + [Write(Strobe, true)];
      ghost var t0, body := old(trace), SendByteTrace(cmd);
      assert trace == t0 + [Write(Strobe, false)] + body + [Write(Strobe, true)];
      TransactionAppend(t0, body);
      assert ConfigureTrace(enabled, pulseWidth) == Transaction(body);
      return Pass;
    }

    /** The loop of `ReadScanningData`: `data[i] = readByte()` for each position in order. */
    method ReadInto(data: array<bv8>)
      modifies this`trace, this`samples, data
      ensures samples == old(samples) + 8 * data.Length
      ensures forall j :: 0 <= j < data.Length ==> data[j] == ShiftIn(dioLevels, old(samples) + 8 * j, 8)
      ensures trace == old(trace) + ReadBytesTrace(dioLevels, old(samples), data.Length)
    {
      ghost var t0, c := trace, samples;
      var i := 0;
      while i < data.Length
        invariant 0 <= i <= data.Length && samples == c + 8 * i
        invariant forall j :: 0 <= j < i ==> data[j] == ShiftIn(dioLevels, c + 8 * j, 8)
        invariant trace == t0 + ReadBytesTrace(dioLevels, c, i)
      {
        ghost var input := ReadBytesTrace(dioLevels, c, i);
        var v := ReadByte();
        AppendAssoc(t0, input, ReadByteTrace(dioLevels, c + 8 * i));
        ReadBytesStep(dioLevels, c, i);
        data[i] := v;
        i := i + 1;
      }
    }

    method ReadScanningData(data: array<bv8>) returns (err: Outcome<DriverError>)
      modifies this`trace, this`samples, data
      ensures !(1 <= data.Length <= 4) ==>
        err == Fail(InvalidArgument) && trace == old(trace) && samples == old(samples) && data[..] == old(data[..])
      ensures 1 <= data.Length <= 4 ==>
        && err == Pass
        && (forall j :: 0 <= j < data.Length ==> data[j] == ShiftIn(dioLevels, old(samples) + 8 * j, 8))
        && samples == old(samples) + 8 * data.Length
        && trace == old(trace) + ReadScanTrace(dioLevels, old(samples), data.Length)
    {
      if data.Length < 1 || data.Length > 4 {
        return Fail(InvalidArgument);
      }
      ghost var t0 := trace;
      trace := trace + [Write(Strobe, false)];
      var cmd: bv8 := 0x42;
      assert cmd == Encode(ReadKeysCommand);
      SendByte(cmd);
      ReadInto(data);
      ghost var command, input := SendByteTrace(cmd), ReadBytesTrace(dioLevels, old(samples), data.Length);
      trace := trace + [Write(Strobe, true)];
      TransactionAppend2(t0, command, input);
      assert ReadScanTrace(dioLevels, old(samples), data.Length) == Transaction(command + input);
      return Pass;
    }

    method InitWriteData(autoIncrement: bool) returns (err: Outcome<DriverError>)
      modifies this`trace
      ensures err == Pass && trace == old(trace) + InitWriteTrace(autoIncrement)
    {
      trace := trace + [Write(Strobe, false)];
      var cmd: bv8 := 0x40;
      if !autoIncrement {
        cmd := cmd | 0x08;
      }
      assert cmd == Encode(WriteCommand(autoIncrement));
      SendByte(cmd);
      trace := trace + [Write(Strobe, true)];
      ghost var t0, body := old(trace), SendByteTrace(cmd);
      assert trace == t0 + [Write(Strobe, false)] + body + [Write(Strobe, true)];
      TransactionAppend(t0, body);
      assert InitWriteTrace(autoIncrement) == Transaction(body);
      return Pass;
    }

    method WriteData(address: nat, data: seq<bv8>) returns (err: Outcome<DriverError>)
      modifies this`trace
      ensures (address > 15 || !(1 <= |data| <= 16)) ==> err == Fail(InvalidArgument) && trace == old(trace)
      ensures address <= 15 && 1 <= |data| <= 16 ==>
        err == Pass && trace == old(trace) + WriteDataTrace(address, data)
    {
      if address > 0x0F {
        return Fail(InvalidArgument);
      }
      if |data| < 1 || |data| > 16 {
        return Fail(InvalidArgument);
      }
      ghost var t0 := trace;
      trace := trace + [Write(Strobe, false)];
      var cmd := 0xC0 | address as bv8;
      FieldByteValue(address);
      assert cmd == Encode(AddressSet(address));
      SendByte(cmd);
      ghost var t1 := trace;
      var i := 0;
      while i < |data|
        invariant 0 <= i <= |data|
        invariant trace == t1 + SendBytesTrace(data[..i])
      {
        ghost var sent := SendBytesTrace(data[..i]);
        SendByte(data[i]);
        assert data[..i + 1] == data[..i] + [data[i]];
        SendBytesSnoc(data[..i], data[i]);
        AppendAssoc(t1, sent, SendByteTrace(data[i]));
        i := i + 1;
      }
      assert data[..|data|] == data;
      trace := trace + [Write(Strobe, true)];
      TransactionAppend2(t0, SendByteTrace(cmd), SendBytesTrace(data));
      return Pass;
    }
  }
}
