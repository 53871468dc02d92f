/**
  The CircuitPython TM1638 driver (cp_calc/tm1638.py). Same transactions as
  the Go driver, but DIO stays an output in open-drain mode: a bit is put on
  the line by writing its level, and reads first write a 1 (which releases
  the line). The Python driver validates nothing: the pulse width and the
  address are masked to their fields, and any number of bytes is read or
  written.
 */
module TM1638Py {
  import opened Bits
  import opened Gpio
  import opened TM1638Commands

  /** One bit of `send_byte`: DIO set to the bit, then CLK pulsed low and high. */
  function SendBit(bit: bool): seq<PinEvent> {
    [Write(Dio, bit), Write(Clk, false), Write(Clk, true)]
  }

  function SendBits(bits: seq<bool>): (t: seq<PinEvent>)
    ensures |t| == 3 * |bits|
  {
    if bits == [] then [] else SendBits(bits[..|bits| - 1]) + SendBit(bits[|bits| - 1])
  }

  /** `send_byte(v)`: the eight bits of `v`, least significant first; DIO keeps the last bit. */
  function SendByteTrace(v: bv8): seq<PinEvent> {
    SendBits(LsbBits(v))
  }

  function SendBytesTrace(bs: seq<bv8>): seq<PinEvent> {
    if bs == [] then [] else SendBytesTrace(bs[..|bs| - 1]) + SendByteTrace(bs[|bs| - 1])
  }

  lemma SendBytesSnoc(bs: seq<bv8>, b: bv8)
    ensures SendBytesTrace(bs + [b]) == SendBytesTrace(bs) + SendByteTrace(b)
  {
    assert (bs + [b])[..|bs|] == bs;
  }

  /** `read_byte()` starting at sample `c`: DIO written high (released), then eight clocked samples. */
  function ReadByteTrace(levels: nat -> bool, c: nat): seq<PinEvent> {
    [Write(Dio, true)] + ClockIn(levels, c, 8)
  }

  function ReadBytesTrace(levels: nat -> bool, c: nat, n: nat): seq<PinEvent> {
    if n == 0 then [] else ReadBytesTrace(levels, c, n - 1) + ReadByteTrace(levels, c + 8 * (n - 1))
  }

  lemma ReadBytesStep(levels: nat -> bool, c: nat, i: nat)
    ensures ReadBytesTrace(levels, c, i + 1) == ReadBytesTrace(levels, c, i) + ReadByteTrace(levels, c + 8 * i)
  {
  }

  /** `__init__`: each pin made an output and set high, STROBE, CLK, DIO in that order. */
  const InitTrace: seq<PinEvent> :=
    [SetOutput(Strobe), Write(Strobe, true), SetOutput(Clk), Write(Clk, true), SetOutput(Dio), Write(Dio, true)]

  /**
    `configure_display`: the pulse width is masked with `& 7`, which on
    Python's integers (negative ones included) is the Euclidean `% 8`.
   */
  function ConfigureTrace(enabled: bool, pulseWidth: int): seq<PinEvent> {
    Transaction(SendByteTrace(Encode(DisplayControl(enabled, pulseWidth % 8))))
  }

  function InitWriteTrace(autoIncrement: bool): seq<PinEvent> {
    Transaction(SendByteTrace(Encode(WriteCommand(autoIncrement))))
  }

  /** `write_data`: the address is masked with `& 0x0F`, the Euclidean `% 16`. */
  function WriteDataTrace(address: int, data: seq<bv8>): seq<PinEvent> {
    Transaction(SendByteTrace(Encode(AddressSet(address % 16))) + SendBytesTrace(data))
  }

  function ReadScanTrace(levels: nat -> bool, c: nat, n: nat): seq<PinEvent> {
    Transaction(SendByteTrace(Encode(ReadKeysCommand)) + ReadBytesTrace(levels, c, n))
  }

  /** Inside a transaction, between bits: STROBE low, CLK high, DIO an output (at any level). */
  predicate Busy(l: Line) {
    l.strobeLow && l.clkHigh && !l.dioInput
  }

  /** Between transactions: STROBE high, CLK high, DIO an output. */
  predicate Idle(l: Line) {
    !l.strobeLow && l.clkHigh && !l.dioInput
  }

  /** `__init__` leaves the lines idle with DIO released, whatever state they were in. */
  lemma InitIdle(l: Line)
    ensures Idle(After(InitTrace, l)) && DioLevel(After(InitTrace, l))
  {
    var strobe, clk, dio := [SetOutput(Strobe), Write(Strobe, true)], [SetOutput(Clk), Write(Clk, true)], [SetOutput(Dio), Write(Dio, true)];
    assert InitTrace == strobe + (clk + dio);
    LatchedAppend(strobe, clk + dio, l);
    var l1 := l.(strobeLow := false);
    AfterPair(SetOutput(Strobe), Write(Strobe, true), l);
    LatchedAppend(clk, dio, l1);
    AfterPair(SetOutput(Clk), Write(Clk, true), l1);
    AfterPair(SetOutput(Dio), Write(Dio, true), l1.(clkHigh := true));
  }

  lemma SendBitDelivers(bit: bool, l: Line)
    requires Busy(l)
    ensures Latched(SendBit(bit), l) == [bit]
    ensures After(SendBit(bit), l) == l.(dioLatch := bit)
  {
    var t := SendBit(bit);
    var l1 := l.(dioLatch := bit);
    var l2 := l1.(clkHigh := false);
    assert t[1..] == [Write(Clk, false), Write(Clk, true)];
    assert t[1..][1..] == [Write(Clk, true)];
    assert Step(l, t[0]) == l1;
    LatchedSingle(Write(Clk, true), l2);
    assert Step(l2, Write(Clk, true)) == l1;
    assert Latched(t[1..], l1) == [bit] && After(t[1..], l1) == l1;
  }

  /** From the chip's side, sending `bits` delivers exactly `bits`, and the lines stay busy. */
  lemma {:induction false} SendBitsDelivers(bits: seq<bool>, l: Line)
    requires Busy(l)
    ensures Latched(SendBits(bits), l) == bits
    ensures After(SendBits(bits), l) == if bits == [] then l else l.(dioLatch := bits[|bits| - 1])
  {
    if bits != [] {
      var init := bits[..|bits| - 1];
      SendBitsDelivers(init, l);
      LatchedAppend(SendBits(init), SendBit(bits[|bits| - 1]), l);
      SendBitDelivers(bits[|bits| - 1], After(SendBits(init), l));
      assert bits == init + [bits[|bits| - 1]];
    }
  }

  /** From the chip's side, `send_byte(v)` delivers the bits of `v` least significant first. */
  lemma SendByteDelivers(v: bv8, l: Line)
    requires Busy(l)
    ensures Latched(SendByteTrace(v), l) == LsbBits(v)
    ensures Busy(After(SendByteTrace(v), l))
  {
    SendBitsDelivers(LsbBits(v), l);
  }

  lemma {:induction false} SendBytesDelivers(bs: seq<bv8>, l: Line)
    requires Busy(l)
    ensures Latched(SendBytesTrace(bs), l) == WireBits(bs)
    ensures Busy(After(SendBytesTrace(bs), l))
  {
    if bs != [] {
      var init := bs[..|bs| - 1];
      SendBytesDelivers(init, l);
      LatchedAppend(SendBytesTrace(init), SendByteTrace(bs[|bs| - 1]), l);
      SendByteDelivers(bs[|bs| - 1], After(SendBytesTrace(init), l));
    }
  }

  lemma FrameDelivers(body: seq<PinEvent>, l: Line)
    ensures Latched(Transaction(body), l) == Latched(body, l.(strobeLow := true))
    ensures After(Transaction(body), l) == After(body, l.(strobeLow := true)).(strobeLow := false)
  {
    var open, close := [Write(Strobe, false)], [Write(Strobe, true)];
    assert Transaction(body) == open + (body + close);
    LatchedAppend(open, body + close, l);
    LatchedSingle(Write(Strobe, false), l);
    var l1 := l.(strobeLow := true);
    LatchedAppend(body, close, l1);
    LatchedSingle(Write(Strobe, true), After(body, l1));
  }

  /**
    A transaction that sends `b` and then `bs` from idle lines: the chip
    reassembles exactly `[b] + bs`, and the lines are idle again afterwards.
   */
  lemma TransactionDelivers(b: bv8, bs: seq<bv8>, l: Line)
    requires Idle(l)
    ensures Bytes(Latched(Transaction(SendByteTrace(b) + SendBytesTrace(bs)), l)) == [b] + bs
    ensures Idle(After(Transaction(SendByteTrace(b) + SendBytesTrace(bs)), l))
  {
    var l1 := l.(strobeLow := true);
    FrameDelivers(SendByteTrace(b) + SendBytesTrace(bs), l);
    LatchedAppend(SendByteTrace(b), SendBytesTrace(bs), l1);
    SendByteDelivers(b, l1);
    SendBytesDelivers(bs, After(SendByteTrace(b), l1));
    BytesCons(b, WireBits(bs));
    BytesOfWireBits(bs);
  }

  lemma SendBitShape(bit: bool)
    ensures ClockFalls(SendBit(bit)) == 1 && NoStrobe(SendBit(bit))
  {
    var t := SendBit(bit);
    assert ClockFalls(t[1..][1..]) == 0 by {
      assert t[1..][1..] == [Write(Clk, true)];
      assert t[1..][1..][1..] == [];
    }
    assert ClockFalls(t[1..]) == 1 by {
      assert t[1..] == [Write(Clk, false), Write(Clk, true)];
    }
  }

  lemma {:induction false} SendBitsShape(bits: seq<bool>)
    ensures ClockFalls(SendBits(bits)) == |bits| && NoStrobe(SendBits(bits))
    ensures forall k :: 0 <= k < |bits| ==> SendBits(bits)[3 * k..3 * k + 3] == SendBit(bits[k])
  {
    if bits != [] {
      var n := |bits|;
      var init := bits[..n - 1];
      var prefix, last := SendBits(init), SendBit(bits[n - 1]);
      SendBitsShape(init);
      SendBitShape(bits[n - 1]);
      ClockFallsAppend(prefix, last);
      NoStrobeAppend(prefix, last);
      forall k | 0 <= k < n ensures (prefix + last)[3 * k..3 * k + 3] == SendBit(bits[k]) {
        if k < n - 1 {
          assert (prefix + last)[3 * k..3 * k + 3] == prefix[3 * k..3 * k + 3];
          assert init[k] == bits[k];
        } else {
          assert (prefix + last)[3 * k..3 * k + 3] == last;
        }
      }
    }
  }

  /**
    `send_byte(v)`: 24 pin calls and exactly 8 falling CLK edges; for bit k
    (least significant first) DIO is set to that bit, then CLK goes low and
    high. STROBE is not touched.
   */
  lemma SendByteShape(v: bv8)
    ensures |SendByteTrace(v)| == 24 && ClockFalls(SendByteTrace(v)) == 8 && NoStrobe(SendByteTrace(v))
    ensures forall k :: 0 <= k < 8 ==>
      && SendByteTrace(v)[3 * k] == Write(Dio, Bit(v, k))
      && SendByteTrace(v)[3 * k + 1] == Write(Clk, false)
      && SendByteTrace(v)[3 * k + 2] == Write(Clk, true)
  {
    var bits := LsbBits(v);
    SendBitsShape(bits);
    forall k | 0 <= k < 8
      ensures SendByteTrace(v)[3 * k] == Write(Dio, Bit(v, k))
      ensures SendByteTrace(v)[3 * k + 1] == Write(Clk, false)
      ensures SendByteTrace(v)[3 * k + 2] == Write(Clk, true)
    {
      var w := SendByteTrace(v)[3 * k..3 * k + 3];
      assert w == SendBit(bits[k]);
      assert w[0] == SendByteTrace(v)[3 * k] && w[1] == SendByteTrace(v)[3 * k + 1] && w[2] == SendByteTrace(v)[3 * k + 2];
    }
  }

  lemma {:induction false} SendBytesShape(bs: seq<bv8>)
    ensures ClockFalls(SendBytesTrace(bs)) == 8 * |bs| && NoStrobe(SendBytesTrace(bs))
  {
    if bs != [] {
      var init := bs[..|bs| - 1];
      SendBytesShape(init);
      SendByteShape(bs[|bs| - 1]);
      ClockFallsAppend(SendBytesTrace(init), SendByteTrace(bs[|bs| - 1]));
      NoStrobeAppend(SendBytesTrace(init), SendByteTrace(bs[|bs| - 1]));
    }
  }

  /** `read_byte()`: DIO written high first, then exactly 8 falling CLK edges; STROBE is not touched. */
  lemma ReadByteShape(levels: nat -> bool, c: nat)
    ensures ReadByteTrace(levels, c)[0] == Write(Dio, true)
    ensures ClockFalls(ReadByteTrace(levels, c)) == 8 && NoStrobe(ReadByteTrace(levels, c))
  {
    ClockInShape(levels, c, 8);
    ClockFallsAppend([Write(Dio, true)], ClockIn(levels, c, 8));
    NoStrobeAppend([Write(Dio, true)], ClockIn(levels, c, 8));
    assert ClockFalls([Write(Dio, true)]) == 0 by {
      assert [Write(Dio, true)][1..] == [];
    }
  }

  lemma {:induction false} ReadBytesShape(levels: nat -> bool, c: nat, n: nat)
    ensures ClockFalls(ReadBytesTrace(levels, c, n)) == 8 * n && NoStrobe(ReadBytesTrace(levels, c, n))
  {
    if n > 0 {
      ReadBytesShape(levels, c, n - 1);
      ReadByteShape(levels, c + 8 * (n - 1));
      ClockFallsAppend(ReadBytesTrace(levels, c, n - 1), ReadByteTrace(levels, c + 8 * (n - 1)));
      NoStrobeAppend(ReadBytesTrace(levels, c, n - 1), ReadByteTrace(levels, c + 8 * (n - 1)));
    }
  }

  lemma TransactionClockFalls(body: seq<PinEvent>)
    ensures ClockFalls(Transaction(body)) == ClockFalls(body)
  {
    var open, close := [Write(Strobe, false)], [Write(Strobe, true)];
    assert Transaction(body) == open + (body + close);
    ClockFallsAppend(open, body + close);
    ClockFallsAppend(body, close);
    assert open[1..] == [] && close[1..] == [];
  }

  lemma TransactionShape(b: bv8, bs: seq<bv8>)
    ensures StrobeFramed(Transaction(SendByteTrace(b) + SendBytesTrace(bs)))
    ensures ClockFalls(Transaction(SendByteTrace(b) + SendBytesTrace(bs))) == 8 * (|bs| + 1)
  {
    var body := SendByteTrace(b) + SendBytesTrace(bs);
    SendByteShape(b);
    SendBytesShape(bs);
    NoStrobeAppend(SendByteTrace(b), SendBytesTrace(bs));
    ClockFallsAppend(SendByteTrace(b), SendBytesTrace(bs));
    TransactionFramed(body);
    TransactionClockFalls(body);
  }

  /**
    `write_data(address, data)` from idle lines, for any address and any
    number of bytes: the chip receives `0xC0 | (address & 0x0F)` followed by
    every data byte in order, in one STROBE-framed transaction.
   */
  lemma WriteDataDelivers(address: int, data: seq<bv8>, l: Line)
    requires Idle(l)
    ensures Bytes(Latched(WriteDataTrace(address, data), l)) == [0xC0 | (address % 16) as bv8] + data
    ensures Idle(After(WriteDataTrace(address, data), l))
    ensures StrobeFramed(WriteDataTrace(address, data))
    ensures ClockFalls(WriteDataTrace(address, data)) == 8 * (|data| + 1)
  {
    FieldByteValue(address % 16);
    TransactionDelivers(Encode(AddressSet(address % 16)), data, l);
    TransactionShape(Encode(AddressSet(address % 16)), data);
  }

  lemma SingleByteDelivers(b: bv8, l: Line)
    requires Idle(l)
    ensures Bytes(Latched(Transaction(SendByteTrace(b)), l)) == [b]
    ensures Idle(After(Transaction(SendByteTrace(b)), l))
    ensures StrobeFramed(Transaction(SendByteTrace(b)))
    ensures ClockFalls(Transaction(SendByteTrace(b))) == 8
  {
    assert SendByteTrace(b) + SendBytesTrace([]) == SendByteTrace(b);
    TransactionDelivers(b, [], l);
    TransactionShape(b, []);
  }

  /** `configure_display(enabled, pulse_width)` sends `0x80 | D << 3 | (pulse_width & 7)`, for any pulse width. */
  lemma ConfigureDelivers(enabled: bool, pulseWidth: int, l: Line)
    requires Idle(l)
    ensures Bytes(Latched(ConfigureTrace(enabled, pulseWidth), l)) == [0x80 | (if enabled then 0x08 else 0) | (pulseWidth % 8) as bv8]
    ensures Idle(After(ConfigureTrace(enabled, pulseWidth), l))
    ensures StrobeFramed(ConfigureTrace(enabled, pulseWidth))
    ensures ClockFalls(ConfigureTrace(enabled, pulseWidth)) == 8
  {
    FieldByteValue(pulseWidth % 8);
    SingleByteDelivers(Encode(DisplayControl(enabled, pulseWidth % 8)), l);
  }

  lemma InitWriteDelivers(autoIncrement: bool, l: Line)
    requires Idle(l)
    ensures Bytes(Latched(InitWriteTrace(autoIncrement), l)) == [if autoIncrement then 0x40 else 0x48]
    ensures Idle(After(InitWriteTrace(autoIncrement), l))
    ensures StrobeFramed(InitWriteTrace(autoIncrement))
    ensures ClockFalls(InitWriteTrace(autoIncrement)) == 8
  {
    SingleByteDelivers(Encode(WriteCommand(autoIncrement)), l);
  }

  /**
    `read_scanning_data` with a buffer of n entries (n may be 0): one
    STROBE-framed transaction with 8 + 8n falling CLK edges whose first
    eight latched bits carry the read command 0x42.
   */
  lemma ReadScanShape(levels: nat -> bool, c: nat, n: nat, l: Line)
    requires Idle(l)
    ensures StrobeFramed(ReadScanTrace(levels, c, n))
    ensures ClockFalls(ReadScanTrace(levels, c, n)) == 8 + 8 * n
    ensures |Latched(ReadScanTrace(levels, c, n), l)| >= 8
    ensures Bytes(Latched(ReadScanTrace(levels, c, n), l)[..8]) == [0x42]
  {
    var cmd: bv8 := 0x42;
    assert cmd == Encode(ReadKeysCommand);
    var command, input := SendByteTrace(cmd), ReadBytesTrace(levels, c, n);
    SendByteShape(cmd);
    ReadBytesShape(levels, c, n);
    NoStrobeAppend(command, input);
    ClockFallsAppend(command, input);
    TransactionFramed(command + input);
    TransactionClockFalls(command + input);
    var l1 := l.(strobeLow := true);
    FrameDelivers(command + input, l);
    LatchedAppend(command, input, l1);
    SendByteDelivers(cmd, l1);
    var latched := Latched(ReadScanTrace(levels, c, n), l);
    assert latched[..8] == LsbBits(cmd) + [];
    BytesCons(cmd, []);
  }

  class TM1638 {
    /** Every GPIO call made so far, in order. */
    var trace: seq<PinEvent>
    /** The level DIO reads as at the n-th sample (the chip's side of reads). */
    const dioLevels: nat -> bool
    /** How many DIO samples have been taken. */
    var samples: nat

    constructor (dioLevels: nat -> bool)
      ensures trace == InitTrace && samples == 0 && this.dioLevels == dioLevels
    {
      this.dioLevels := dioLevels;
      samples := 0;
      trace := InitTrace;
    }

    method SendByte(value: bv8)
      modifies this`trace
      ensures trace == old(trace) + SendByteTrace(value)
    {
      ghost var t0, bits := trace, LsbBits(value);
      var v := value;
      var i := 0;
      while i < 8
        invariant 0 <= i <= 8 && v == Shr(value, i)
        invariant trace == t0 + SendBits(bits[..i])
      {
        ghost var sent := SendBits(bits[..i]);
        ShrLsb(value, i);
        trace := trace + [Write(Dio, v & 1 == 1)];
        trace := trace + [Write(Clk, false)];
        trace := trace + [Write(Clk, true)];
        v := v >> 1;
        AppendStep(t0, sent, Write(Dio, bits[i]), Write(Clk, false), Write(Clk, true));
        assert bits[..i + 1][..i] == bits[..i];
        i := i + 1;
      }
      assert bits[..8] == bits;
    }

    method ReadByte() returns (r: bv8)
      modifies this`trace, this`samples
      ensures r == ShiftIn(dioLevels, old(samples), 8) && samples == old(samples) + 8
      ensures trace == old(trace) + ReadByteTrace(dioLevels, old(samples))
    {
      trace := trace + [Write(Dio, true)];
      ghost var t0, c := trace, samples;
      r := 0;
      var i := 0;
      while i < 8
        invariant 0 <= i <= 8 && samples == c + i
        invariant r == ShiftIn(dioLevels, c, i)
        invariant trace == t0 + ClockIn(dioLevels, c, i)
      {
        ghost var clocked := ClockIn(dioLevels, c, i);
        trace := trace + [Write(Clk, false)];
        r := r << 1;
        var high := dioLevels(samples);
        samples := samples + 1;
        trace := trace + [Read(Dio, high)];
        if high {
          r := r | 1;
        }
        trace := trace + [Write(Clk, true)];
        AppendStep(t0, clocked, Write(Clk, false), Read(Dio, high), Write(Clk, true));
        i := i + 1;
      }
      AppendAssoc(old(trace), [Write(Dio, true)], ClockIn(dioLevels, c, 8));
    }

    method ConfigureDisplay(enabled: bool, pulseWidth: int)
      modifies this`trace
      ensures trace == old(trace) + ConfigureTrace(enabled, pulseWidth)
    {
      var cmd: bv8 := 0x80;
      if enabled {
        cmd := cmd | 0x08;
      }
      var pw := pulseWidth % 8;
      cmd := cmd | pw as bv8;
      FieldByteValue(pw);
      assert cmd == Encode(DisplayControl(enabled, pw));
      trace := trace + [Write(Strobe, false)];
      SendByte(cmd);
      trace := trace + [Write(Strobe, true)];
      ghost var t0, body := old(trace), SendByteTrace(cmd);
      assert trace == t0 + [Write(Strobe, false)] + body + [Write(Strobe, true)];
      TransactionAppend(t0, body);
      assert ConfigureTrace(enabled, pulseWidth) == Transaction(body);
    }

    /** The loop of `read_scanning_data`: `buffer[i] = self.read_byte()` for each position in order. */
    method ReadInto(buffer: array<bv8>)
      modifies this`trace, this`samples, buffer
      ensures samples == old(samples) + 8 * buffer.Length
      ensures forall j :: 0 <= j < buffer.Length ==> buffer[j] == ShiftIn(dioLevels, old(samples) + 8 * j, 8)
      ensures trace == old(trace) + ReadBytesTrace(dioLevels, old(samples), buffer.Length)
    {
      ghost var t0, c := trace, samples;
      var i := 0;
      while i < buffer.Length
        invariant 0 <= i <= buffer.Length && samples == c + 8 * i
        invariant forall j :: 0 <= j < i ==> buffer[j] == ShiftIn(dioLevels, c + 8 * j, 8)
        invariant trace == t0 + ReadBytesTrace(dioLevels, c, i)
      {
        ghost var input := ReadBytesTrace(dioLevels, c, i);
        var v := ReadByte();
        AppendAssoc(t0, input, ReadByteTrace(dioLevels, c + 8 * i));
        ReadBytesStep(dioLevels, c, i);
        buffer[i] := v;
        i := i + 1;
      }
    }

    /** Fills every entry of `buffer`, whatever its length. */
    method ReadScanningData(buffer: array<bv8>)
      modifies this`trace, this`samples, buffer
      ensures forall j :: 0 <= j < buffer.Length ==> buffer[j] == ShiftIn(dioLevels, old(samples) + 8 * j, 8)
      ensures samples == old(samples) + 8 * buffer.Length
      ensures trace == old(trace) + ReadScanTrace(dioLevels, old(samples), buffer.Length)
    {
      ghost var t0 := trace;
      trace := trace + [Write(Strobe, false)];
      var cmd: bv8 := 0x42;
      assert cmd == Encode(ReadKeysCommand);
      SendByte(cmd);
      ReadInto(buffer);
      ghost var command, input := SendByteTrace(cmd), ReadBytesTrace(dioLevels, old(samples), buffer.Length);
      trace := trace + [Write(Strobe, true)];
      TransactionAppend2(t0, command, input);
      assert ReadScanTrace(dioLevels, old(samples), buffer.Length) == Transaction(command + input);
    }

    method InitWriteData(autoIncrement: bool := true)
      modifies this`trace
      ensures trace == old(trace) + InitWriteTrace(autoIncrement)
    {
      trace := trace + [Write(Strobe, false)];
      var cmd: bv8 := 0x40;
      if !autoIncrement {
        cmd := cmd | 0x08;
      }
      assert cmd == Encode(WriteCommand(autoIncrement));
      SendByte(cmd);
      trace := trace + [Write(Strobe, true)];
      ghost var t0, body := old(trace), SendByteTrace(cmd);
      assert trace == t0 + [Write(Strobe, false)] + body + [Write(Strobe, true)];
      TransactionAppend(t0, body);
      assert InitWriteTrace(autoIncrement) == Transaction(body);
    }

    method WriteData(address: int, data: seq<bv8>)
      modifies this`trace
      ensures trace == old(trace) + WriteDataTrace(address, data)
    {
      ghost var t0 := trace;
      trace := trace + [Write(Strobe, false)];
      var a := address % 16;
      var cmd := 0xC0 | a as bv8;
      FieldByteValue(a);
      assert cmd == Encode(AddressSet(a));
      SendByte(cmd);
      ghost var t1 := trace;
      var i := 0;
      while i < |data|
        invariant 0 <= i <= |data|
        invariant trace == t1 + SendBytesTrace(data[..i])
      {
        ghost var sent := SendBytesTrace(data[..i]);
        SendByte(data[i]);
        assert data[..i + 1] == data[..i] + [data[i]];
        SendBytesSnoc(data[..i], data[i]);
        AppendAssoc(t1, sent, SendByteTrace(data[i]));
        i := i + 1;
      }
      assert data[..|data|] == data;
      trace := trace + [Write(Strobe, true)];
      TransactionAppend2(t0, SendByteTrace(cmd), SendBytesTrace(data));
    }
  }
}
