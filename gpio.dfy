/**
  The three lines between host and TM1638 (STROBE, CLK, DIO) and the GPIO
  capability the drivers use on them: write a level, read a level, switch a
  pin to input or to output. Drivers are modelled by the sequence of these
  calls they make (their trace). This module also models what the chip
  observes on the lines, so that transactions can be checked from the chip's
  side: the chip latches DIO on each falling CLK edge while STROBE is low.
 */
module Gpio {
  import opened Bits

  datatype Pin = Strobe | Clk | Dio

  datatype PinEvent =
    | Write(pin: Pin, level: bool)
    | SetInput(pin: Pin)
    | SetOutput(pin: Pin)
    | Read(pin: Pin, level: bool)

  /** STROBE low, the body, STROBE high: the frame around every transaction. */
  function Transaction(body: seq<PinEvent>): (t: seq<PinEvent>)
  {
    [Write(Strobe, false)] + body + [Write(Strobe, true)]
  }

  lemma TransactionAppend(t0: seq<PinEvent>, body: seq<PinEvent>)
    ensures t0 + [Write(Strobe, false)] + body + [Write(Strobe, true)] == t0 + Transaction(body)
  {
  }

  lemma TransactionAppend2(t0: seq<PinEvent>, x: seq<PinEvent>, y: seq<PinEvent>)
    ensures t0 + [Write(Strobe, false)] + x + y + [Write(Strobe, true)] == t0 + Transaction(x + y)
  {
  }

  /** Three single calls appended one at a time are one three-call step. */
  lemma AppendStep(a: seq<PinEvent>, b: seq<PinEvent>, e0: PinEvent, e1: PinEvent, e2: PinEvent)
    ensures a + b + [e0] + [e1] + [e2] == a + (b + [e0, e1, e2])
  {
  }

  lemma AppendAssoc(a: seq<PinEvent>, b: seq<PinEvent>, c: seq<PinEvent>)
    ensures a + b + c == a + (b + c)
  {
  }

  predicate NoStrobe(t: seq<PinEvent>) {
    forall k :: 0 <= k < |t| ==> t[k].pin != Strobe
  }

  /** STROBE goes low first, high last, and nothing in between touches it. */
  predicate StrobeFramed(t: seq<PinEvent>) {
    && |t| >= 2
    && t[0] == Write(Strobe, false)
    && t[|t| - 1] == Write(Strobe, true)
    && NoStrobe(t[1..|t| - 1])
  }

  lemma TransactionFramed(body: seq<PinEvent>)
    requires NoStrobe(body)
    ensures StrobeFramed(Transaction(body))
  {
    assert Transaction(body)[1..|Transaction(body)| - 1] == body;
  }

  /** Number of times the host drives CLK low. */
  function ClockFalls(t: seq<PinEvent>): nat {
    if t == [] then 0
    else (if t[0] == Write(Clk, false) then 1 else 0) + ClockFalls(t[1..])
  }

  lemma {:induction false} ClockFallsAppend(a: seq<PinEvent>, b: seq<PinEvent>)
    ensures ClockFalls(a + b) == ClockFalls(a) + ClockFalls(b)
  {
    if a == [] {
      assert a + b == b;
    } else {
      assert (a + b)[0] == a[0];
      assert (a + b)[1..] == a[1..] + b;
      ClockFallsAppend(a[1..], b);
    }
  }

  lemma {:induction false} NoStrobeAppend(a: seq<PinEvent>, b: seq<PinEvent>)
    ensures NoStrobe(a + b) <==> NoStrobe(a) && NoStrobe(b)
  {
    if NoStrobe(a) && NoStrobe(b) {
      forall k | 0 <= k < |a + b| ensures (a + b)[k].pin != Strobe {
        if k >= |a| { assert (a + b)[k] == b[k - |a|]; }
      }
    }
    if NoStrobe(a + b) {
      forall k | 0 <= k < |a| ensures a[k].pin != Strobe {
        assert (a + b)[k] == a[k];
      }
      forall k | 0 <= k < |b| ensures b[k].pin != Strobe {
        assert (a + b)[|a| + k] == b[k];
      }
    }
  }

  /** The state of the lines as the chip sees them. */
  datatype Line = Line(strobeLow: bool, clkHigh: bool, dioInput: bool, dioLatch: bool)

  /**
    The level on DIO: a host pin in input mode does not drive the line, and the
    external pull-up holds it high; otherwise the pin drives its output latch.
   */
  function DioLevel(l: Line): bool {
    l.dioInput || l.dioLatch
  }

  function Step(l: Line, e: PinEvent): Line {
    match e
    case Write(Strobe, b) => l.(strobeLow := !b)
    case Write(Clk, b) => l.(clkHigh := b)
    case Write(Dio, b) => l.(dioLatch := b)
    case SetInput(Dio) => l.(dioInput := true)
    case SetOutput(Dio) => l.(dioInput := false)
    case _ => l
  }

  function After(t: seq<PinEvent>, l: Line): Line {
    if t == [] then l else After(t[1..], Step(l, t[0]))
  }

  /** Whether an event is a falling CLK edge inside a transaction. */
  predicate LatchEdge(l: Line, e: PinEvent) {
    e == Write(Clk, false) && l.clkHigh && l.strobeLow
  }

  /** The DIO levels the chip latches, in order, while the host runs `t` from `l`. */
  function Latched(t: seq<PinEvent>, l: Line): seq<bool> {
    if t == [] then []
    else (if LatchEdge(l, t[0]) then [DioLevel(l)] else []) + Latched(t[1..], Step(l, t[0]))
  }

  lemma LatchedSingle(e: PinEvent, l: Line)
    ensures Latched([e], l) == if LatchEdge(l, e) then [DioLevel(l)] else []
    ensures After([e], l) == Step(l, e)
  {
    assert [e][1..] == [];
  }

  lemma AfterPair(e0: PinEvent, e1: PinEvent, l: Line)
    ensures After([e0, e1], l) == Step(Step(l, e0), e1)
  {
    var t := [e0, e1];
    assert t[1..] == [e1] && t[1..][1..] == [];
    assert After(t[1..], Step(l, e0)) == After([], Step(Step(l, e0), e1));
  }

  lemma {:induction false} LatchedAppend(a: seq<PinEvent>, b: seq<PinEvent>, l: Line)
    ensures Latched(a + b, l) == Latched(a, l) + Latched(b, After(a, l))
    ensures After(a + b, l) == After(b, After(a, l))
  {
    if a == [] {
      assert a + b == b;
    } else {
      assert (a + b)[1..] == a[1..] + b;
      LatchedAppend(a[1..], b, Step(l, a[0]));
    }
  }

  /** The bits of a byte sequence in wire order: each byte least significant bit first. */
  function WireBits(bs: seq<bv8>): (bits: seq<bool>)
    ensures |bits| == 8 * |bs|
  {
    if bs == [] then [] else WireBits(bs[..|bs| - 1]) + LsbBits(bs[|bs| - 1])
  }

  /** How the chip groups latched bits into bytes: eight at a time, least significant first. */
  function Bytes(bits: seq<bool>): seq<bv8> {
    if |bits| < 8 then [] else [FromLsbBits(bits[..8])] + Bytes(bits[8..])
  }

  lemma {:induction false} BytesAppend(bits: seq<bool>, b: bv8)
    requires |bits| % 8 == 0
    ensures Bytes(bits + LsbBits(b)) == Bytes(bits) + [b]
  {
    if |bits| < 8 {
      assert bits == [];
      assert (bits + LsbBits(b))[..8] == LsbBits(b);
      assert (bits + LsbBits(b))[8..] == [];
      FromLsbBitsOfLsbBits(b);
    } else {
      assert (bits + LsbBits(b))[..8] == bits[..8];
      assert (bits + LsbBits(b))[8..] == bits[8..] + LsbBits(b);
      BytesAppend(bits[8..], b);
    }
  }

  lemma BytesCons(b: bv8, bits: seq<bool>)
    ensures Bytes(LsbBits(b) + bits) == [b] + Bytes(bits)
  {
    assert (LsbBits(b) + bits)[..8] == LsbBits(b);
    assert (LsbBits(b) + bits)[8..] == bits;
    FromLsbBitsOfLsbBits(b);
  }

  /** The chip reassembles exactly the bytes whose bits were put on the wire. */
  lemma {:induction false} BytesOfWireBits(bs: seq<bv8>)
    ensures Bytes(WireBits(bs)) == bs
  {
    if bs != [] {
      var init := bs[..|bs| - 1];
      BytesOfWireBits(init);
      BytesAppend(WireBits(init), bs[|bs| - 1]);
      assert init + [bs[|bs| - 1]] == bs;
    }
  }

  /** The host's side of n clocked reads: CLK low, sample DIO, CLK high, the j-th sample being `levels(c + j)`. */
  function ClockIn(levels: nat -> bool, c: nat, n: nat): (t: seq<PinEvent>)
    ensures |t| == 3 * n
  {
    if n == 0 then []
    else ClockIn(levels, c, n - 1) + [Write(Clk, false), Read(Dio, levels(c + n - 1)), Write(Clk, true)]
  }

  lemma {:induction false} ClockInShape(levels: nat -> bool, c: nat, n: nat)
    ensures ClockFalls(ClockIn(levels, c, n)) == n
    ensures NoStrobe(ClockIn(levels, c, n))
  {
    if n > 0 {
      var step := [Write(Clk, false), Read(Dio, levels(c + n - 1)), Write(Clk, true)];
      ClockInShape(levels, c, n - 1);
      ClockFallsAppend(ClockIn(levels, c, n - 1), step);
      NoStrobeAppend(ClockIn(levels, c, n - 1), step);
      assert ClockFalls([Write(Clk, true)]) == 0 by {
        assert [Write(Clk, true)][1..] == [];
      }
      assert ClockFalls([Read(Dio, levels(c + n - 1)), Write(Clk, true)]) == 0 by {
        assert [Read(Dio, levels(c + n - 1)), Write(Clk, true)][1..] == [Write(Clk, true)];
      }
      assert step[1..] == [Read(Dio, levels(c + n - 1)), Write(Clk, true)];
    }
  }
}
