/** Bit-level facts about the bytes (`bv8`) that flow between host and chip. */
module Bits {

  /** Bit `k` (0 = least significant) of `x` is set. */
  predicate Bit(x: bv8, k: nat)
    requires k < 8
  {
    (x >> k) & 1 == 1
  }

  function BitValue(b: bool): bv8 {
    if b then 1 else 0
  }

  /** Two bytes that agree on every bit are equal. */
  lemma BitsDetermine(x: bv8, y: bv8)
    requires forall k :: 0 <= k < 8 ==> (Bit(x, k) <==> Bit(y, k))
    ensures x == y
  {
    assert Bit(x, 0) == Bit(y, 0) && Bit(x, 1) == Bit(y, 1);
    assert Bit(x, 2) == Bit(y, 2) && Bit(x, 3) == Bit(y, 3);
    assert Bit(x, 4) == Bit(y, 4) && Bit(x, 5) == Bit(y, 5);
    assert Bit(x, 6) == Bit(y, 6) && Bit(x, 7) == Bit(y, 7);
  }

  lemma OrBit(x: bv8, y: bv8, k: nat)
    requires k < 8
    ensures Bit(x | y, k) <==> Bit(x, k) || Bit(y, k)
  {
  }

  /** `128 >> i` is the byte with only bit `7 - i` set. */
  lemma HighBit(i: nat, k: nat)
    requires i < 8 && k < 8
    ensures Bit(128 >> i, k) <==> i + k == 7
  {
  }

  /** `x` shifted right one place at a time, k times, the way a send loop consumes a byte. */
  function Shr(x: bv8, k: nat): bv8 {
    if k == 0 then x else Shr(x, k - 1) >> 1
  }

  lemma ShrValues(x: bv8)
    ensures Shr(x, 1) == x >> 1 && Shr(x, 2) == x >> 2 && Shr(x, 3) == x >> 3 && Shr(x, 4) == x >> 4
    ensures Shr(x, 5) == x >> 5 && Shr(x, 6) == x >> 6 && Shr(x, 7) == x >> 7
  {
    assert Shr(x, 1) == x >> 1;
    assert Shr(x, 2) == Shr(x, 1) >> 1;
    assert Shr(x, 3) == Shr(x, 2) >> 1;
    assert Shr(x, 4) == Shr(x, 3) >> 1;
    assert Shr(x, 5) == Shr(x, 4) >> 1;
    assert Shr(x, 6) == Shr(x, 5) >> 1;
    assert Shr(x, 7) == Shr(x, 6) >> 1;
  }

  /** After k single shifts, the low bit is bit k. */
  lemma ShrLsb(x: bv8, k: nat)
    requires k < 8
    ensures Shr(x, k) & 1 == 1 <==> LsbBits(x)[k]
  {
    ShrValues(x);
    var bits := LsbBits(x);
    match k
    case 0 => assert bits[0] == Bit(x, 0);
    case 1 => assert bits[1] == Bit(x, 1);
    case 2 => assert bits[2] == Bit(x, 2);
    case 3 => assert bits[3] == Bit(x, 3);
    case 4 => assert bits[4] == Bit(x, 4);
    case 5 => assert bits[5] == Bit(x, 5);
    case 6 => assert bits[6] == Bit(x, 6);
    case 7 => assert bits[7] == Bit(x, 7);
  }

  lemma ShiftInBit(x: bv8, b: bool, k: nat)
    requires k < 8
    ensures Bit((x << 1) | BitValue(b), k) <==> if k == 0 then b else Bit(x, k - 1)
  {
  }

  /** The eight bits of `x`, least significant first. */
  function LsbBits(x: bv8): (bits: seq<bool>)
    ensures |bits| == 8
    ensures forall k :: 0 <= k < 8 ==> bits[k] == Bit(x, k)
  {
    [Bit(x, 0), Bit(x, 1), Bit(x, 2), Bit(x, 3), Bit(x, 4), Bit(x, 5), Bit(x, 6), Bit(x, 7)]
  }

  /** The byte whose bits, least significant first, are `bits`. */
  function FromLsbBits(bits: seq<bool>): bv8
    requires |bits| == 8
  {
    BitValue(bits[0]) | (BitValue(bits[1]) << 1) | (BitValue(bits[2]) << 2) | (BitValue(bits[3]) << 3)
    | (BitValue(bits[4]) << 4) | (BitValue(bits[5]) << 5) | (BitValue(bits[6]) << 6) | (BitValue(bits[7]) << 7)
  }

  lemma FromLsbBitsBits(bits: seq<bool>)
    requires |bits| == 8
    ensures forall k :: 0 <= k < 8 ==> (Bit(FromLsbBits(bits), k) <==> bits[k])
  {
    var x := FromLsbBits(bits);
    assert Bit(x, 0) == bits[0] && Bit(x, 1) == bits[1] && Bit(x, 2) == bits[2] && Bit(x, 3) == bits[3];
    assert Bit(x, 4) == bits[4] && Bit(x, 5) == bits[5] && Bit(x, 6) == bits[6] && Bit(x, 7) == bits[7];
  }

  lemma FromLsbBitsOfLsbBits(x: bv8)
    ensures FromLsbBits(LsbBits(x)) == x
  {
  }

  /** The byte with the bits of `x` in the opposite order. */
  function Reverse(x: bv8): (r: bv8)
    ensures forall k :: 0 <= k < 8 ==> (Bit(r, 7 - k) <==> Bit(x, k))
  {
    ((x & 1) << 7) | ((x & 2) << 5) | ((x & 4) << 3) | ((x & 8) << 1)
    | ((x & 16) >> 1) | ((x & 32) >> 3) | ((x & 64) >> 5) | ((x & 128) >> 7)
  }

  /**
    The byte a host assembles by the shift-left-then-OR loop from the
    line levels `levels(c)`, ..., `levels(c + n - 1)`, sampled in that order.
   */
  function ShiftIn(levels: nat -> bool, c: nat, n: nat): bv8
    requires n <= 8
  {
    if n == 0 then 0 else (ShiftIn(levels, c, n - 1) << 1) | BitValue(levels(c + n - 1))
  }

  /** Of n samples, bit k holds the level sampled (n-1-k)-th; the bits above n stay clear. */
  lemma {:induction false} ShiftInBitsN(levels: nat -> bool, c: nat, n: nat)
    requires n <= 8
    ensures forall k :: 0 <= k < n ==> (Bit(ShiftIn(levels, c, n), k) <==> levels(c + n - 1 - k))
    ensures forall k :: n <= k < 8 ==> !Bit(ShiftIn(levels, c, n), k)
  {
    if n > 0 {
      ShiftInBitsN(levels, c, n - 1);
      var prev := ShiftIn(levels, c, n - 1);
      forall k | 0 <= k < 8
        ensures Bit(ShiftIn(levels, c, n), k) <==> if k == 0 then levels(c + n - 1) else Bit(prev, k - 1)
      {
        ShiftInBit(prev, levels(c + n - 1), k);
      }
    }
  }

  /**
    A whole byte read: bit k holds the level sampled (7-k)-th, so the level
    sampled first is the most significant bit.
   */
  lemma ShiftInBits(levels: nat -> bool, c: nat)
    ensures forall k :: 0 <= k < 8 ==> (Bit(ShiftIn(levels, c, 8), k) <==> levels(c + 7 - k))
  {
    ShiftInBitsN(levels, c, 8);
  }

  /**
    If the other end presents the bits of `b` least significant first, the
    shift-left-then-OR loop assembles `b` bit-reversed.
   */
  lemma ShiftInOfLsbFirst(levels: nat -> bool, c: nat, b: bv8)
    requires forall j :: 0 <= j < 8 ==> levels(c + j) == Bit(b, j)
    ensures ShiftIn(levels, c, 8) == Reverse(b)
  {
    ShiftInBits(levels, c);
    var r := ShiftIn(levels, c, 8);
    forall k | 0 <= k < 8 ensures Bit(r, k) <==> Bit(Reverse(b), k) {
      assert levels(c + (7 - k)) == Bit(b, 7 - k);
    }
    BitsDetermine(r, Reverse(b));
  }

  /** The number of set bits of `x`. */
  function Popcount(x: bv8): nat {
    (if Bit(x, 0) then 1 else 0) + (if Bit(x, 1) then 1 else 0)
    + (if Bit(x, 2) then 1 else 0) + (if Bit(x, 3) then 1 else 0)
    + (if Bit(x, 4) then 1 else 0) + (if Bit(x, 5) then 1 else 0)
    + (if Bit(x, 6) then 1 else 0) + (if Bit(x, 7) then 1 else 0)
  }
}
