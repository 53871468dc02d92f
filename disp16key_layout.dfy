/**
  The memory layout of the 16-key board, shared by the Go and the Python
  adapters. The board wires its eight seven-segment digits so that chip
  memory byte 2s holds segment s (a, b, c, d, e, f, g, then the point x) of
  all eight digits, bit 7 for the far-left digit down to bit 0 for the
  far-right one; the odd bytes are unused. A digit pattern, on the other
  hand, is one byte per digit, bit s for segment s. The adapters therefore
  transpose the eight digit patterns into eight segment planes.

  The four key-scan bytes carry the 16 buttons: rows 1 and 2 in bits 0x20
  and 0x02, rows 3 and 4 in bits 0x40 and 0x04.
 */
module Disp16KeyLayout {
  import opened Bits
  import opened TM1638Commands

  /** Segment plane `s`: bit `7 - i` is segment `s` of digit `i`. */
  function Plane(digits: seq<bv8>, s: nat): bv8
    requires |digits| == 8 && s < 8
  {
    FromLsbBits(seq(8, p requires 0 <= p < 8 => Bit(digits[7 - p], s)))
  }

  /** The eight segment planes of eight digit patterns, in chip order a..x. */
  function Planes(digits: seq<bv8>): (planes: seq<bv8>)
    requires |digits| == 8
    ensures |planes| == 8
  {
    seq(8, s requires 0 <= s < 8 => Plane(digits, s))
  }

  /** The transpose: bit `7 - i` of plane `s` is lit exactly when digit `i` has segment `s`. */
  lemma PlanesBits(digits: seq<bv8>)
    requires |digits| == 8
    ensures forall s, p :: 0 <= s < 8 && 0 <= p < 8 ==> (Bit(Planes(digits)[s], p) <==> Bit(digits[7 - p], s))
  {
    forall s | 0 <= s < 8
      ensures forall p :: 0 <= p < 8 ==> (Bit(Planes(digits)[s], p) <==> Bit(digits[7 - p], s))
    {
      FromLsbBitsBits(seq(8, p requires 0 <= p < 8 => Bit(digits[7 - p], s)));
    }
  }

  /** What the board shows for segment planes `planes`: digit `i` lights segment `s` when bit `7 - i` of plane `s` is set. */
  function Shown(planes: seq<bv8>): (digits: seq<bv8>)
    requires |planes| == 8
    ensures |digits| == 8
  {
    seq(8, i requires 0 <= i < 8 => FromLsbBits(seq(8, s requires 0 <= s < 8 => Bit(planes[s], 7 - i))))
  }

  lemma ShownBits(planes: seq<bv8>)
    requires |planes| == 8
    ensures forall i, s :: 0 <= i < 8 && 0 <= s < 8 ==> (Bit(Shown(planes)[i], s) <==> Bit(planes[s], 7 - i))
  {
    forall i | 0 <= i < 8
      ensures forall s :: 0 <= s < 8 ==> (Bit(Shown(planes)[i], s) <==> Bit(planes[s], 7 - i))
    {
      FromLsbBitsBits(seq(8, s requires 0 <= s < 8 => Bit(planes[s], 7 - i)));
    }
  }

  /** The board shows exactly the digits whose planes were written. */
  lemma ShownPlanes(digits: seq<bv8>)
    requires |digits| == 8
    ensures Shown(Planes(digits)) == digits
  {
    var shown := Shown(Planes(digits));
    PlanesBits(digits);
    ShownBits(Planes(digits));
    forall i | 0 <= i < 8 ensures shown[i] == digits[i] {
      forall s | 0 <= s < 8 ensures Bit(shown[i], s) <==> Bit(digits[i], s) {
        assert Bit(shown[i], s) <==> Bit(Planes(digits)[s], 7 - i);
      }
      BitsDetermine(shown[i], digits[i]);
    }
  }

  /** Every set of planes is reached: transposing what the planes show gives them back. */
  lemma PlanesShown(planes: seq<bv8>)
    requires |planes| == 8
    ensures Planes(Shown(planes)) == planes
  {
    var back := Planes(Shown(planes));
    PlanesBits(Shown(planes));
    ShownBits(planes);
    forall s | 0 <= s < 8 ensures back[s] == planes[s] {
      forall p | 0 <= p < 8 ensures Bit(back[s], p) <==> Bit(planes[s], p) {
        assert Bit(back[s], p) <==> Bit(Shown(planes)[7 - p], s);
      }
      BitsDetermine(back[s], planes[s]);
    }
  }

  /**
    The conversion loop after `n` digits: plane `s` has the bits of the
    digits 0 .. n-1 that light segment `s`, digit `j` as `128 >> j`.
   */
  function PlaneUpTo(digits: seq<bv8>, s: nat, n: nat): bv8
    requires |digits| == 8 && s < 8 && n <= 8
  {
    if n == 0 then 0
    else PlaneUpTo(digits, s, n - 1) | (if Bit(digits[n - 1], s) then 128 >> (n - 1) else 0)
  }

  lemma {:induction false} PlaneUpToBits(digits: seq<bv8>, s: nat, n: nat)
    requires |digits| == 8 && s < 8 && n <= 8
    ensures forall p :: 0 <= p < 8 ==> (Bit(PlaneUpTo(digits, s, n), p) <==> 7 - p < n && Bit(digits[7 - p], s))
  {
    if n > 0 {
      PlaneUpToBits(digits, s, n - 1);
      forall p | 0 <= p < 8
        ensures Bit(PlaneUpTo(digits, s, n), p) <==> 7 - p < n && Bit(digits[7 - p], s)
      {
        HighBit(n - 1, p);
        OrBit(PlaneUpTo(digits, s, n - 1), if Bit(digits[n - 1], s) then 128 >> (n - 1) else 0, p);
      }
    }
  }

  /** After all eight digits the loop has built the plane. */
  lemma PlaneUpToAll(digits: seq<bv8>, s: nat)
    requires |digits| == 8 && s < 8
    ensures PlaneUpTo(digits, s, 8) == Planes(digits)[s]
  {
    PlaneUpToBits(digits, s, 8);
    PlanesBits(digits);
    BitsDetermine(PlaneUpTo(digits, s, 8), Planes(digits)[s]);
  }

  /** The loop's one-bit mask after `k` left shifts of 1; the eighth shift pushes the bit out. */
  function Mask(k: nat): bv8 {
    if k == 0 then 1 else Mask(k - 1) << 1
  }

  lemma MaskValues()
    ensures Mask(0) == 1 && Mask(1) == 2 && Mask(2) == 4 && Mask(3) == 8
    ensures Mask(4) == 16 && Mask(5) == 32 && Mask(6) == 64 && Mask(7) == 128 && Mask(8) == 0
  {
    assert Mask(1) == Mask(0) << 1;
    assert Mask(2) == Mask(1) << 1;
    assert Mask(3) == Mask(2) << 1;
    assert Mask(4) == Mask(3) << 1;
    assert Mask(5) == Mask(4) << 1;
    assert Mask(6) == Mask(5) << 1;
    assert Mask(7) == Mask(6) << 1;
    assert Mask(8) == Mask(7) << 1;
  }

  /** `Mask(k) & x == Mask(k)` tests bit `k`, and the mask is zero only once all eight bits are done. */
  lemma MaskTest(x: bv8, k: nat)
    requires k <= 8
    ensures Mask(k) == 0 <==> k == 8
    ensures k < 8 ==> (Mask(k) & x == Mask(k) <==> Bit(x, k))
  {
    MaskValues();
  }

  /** The number of set bits in eight bytes. */
  function BitCount(bytes: seq<bv8>): nat
    requires |bytes| == 8
  {
    Popcount(bytes[0]) + Popcount(bytes[1]) + Popcount(bytes[2]) + Popcount(bytes[3])
    + Popcount(bytes[4]) + Popcount(bytes[5]) + Popcount(bytes[6]) + Popcount(bytes[7])
  }

  /** How many of the eight digits light segment `s`. */
  function SegmentUses(digits: seq<bv8>, s: nat): nat
    requires |digits| == 8 && s < 8
  {
    (if Bit(digits[0], s) then 1 else 0) + (if Bit(digits[1], s) then 1 else 0)
    + (if Bit(digits[2], s) then 1 else 0) + (if Bit(digits[3], s) then 1 else 0)
    + (if Bit(digits[4], s) then 1 else 0) + (if Bit(digits[5], s) then 1 else 0)
    + (if Bit(digits[6], s) then 1 else 0) + (if Bit(digits[7], s) then 1 else 0)
  }

  lemma PlanePopcount(digits: seq<bv8>, s: nat)
    requires |digits| == 8 && s < 8
    ensures Popcount(Planes(digits)[s]) == SegmentUses(digits, s)
  {
    PlanesBits(digits);
    var plane := Planes(digits)[s];
    assert Bit(plane, 0) == Bit(digits[7], s) && Bit(plane, 1) == Bit(digits[6], s);
    assert Bit(plane, 2) == Bit(digits[5], s) && Bit(plane, 3) == Bit(digits[4], s);
    assert Bit(plane, 4) == Bit(digits[3], s) && Bit(plane, 5) == Bit(digits[2], s);
    assert Bit(plane, 6) == Bit(digits[1], s) && Bit(plane, 7) == Bit(digits[0], s);
  }

  function Ind(b: bool): nat {
    if b then 1 else 0
  }

  /** How many of `m(i, 0)`, ..., `m(i, n - 1)` hold. */
  function RowCount(m: (nat, nat) -> bool, i: nat, n: nat): nat {
    if n == 0 then 0 else RowCount(m, i, n - 1) + Ind(m(i, n - 1))
  }

  /** How many of `m(0, j)`, ..., `m(n - 1, j)` hold. */
  function ColumnCount(m: (nat, nat) -> bool, j: nat, n: nat): nat {
    if n == 0 then 0 else ColumnCount(m, j, n - 1) + Ind(m(n - 1, j))
  }

  function CountByRows(m: (nat, nat) -> bool, rows: nat, cols: nat): nat {
    if rows == 0 then 0 else CountByRows(m, rows - 1, cols) + RowCount(m, rows - 1, cols)
  }

  function CountByColumns(m: (nat, nat) -> bool, rows: nat, cols: nat): nat {
    if cols == 0 then 0 else CountByColumns(m, rows, cols - 1) + ColumnCount(m, cols - 1, rows)
  }

  lemma {:induction false} CountByColumnsStep(m: (nat, nat) -> bool, rows: nat, cols: nat)
    ensures CountByColumns(m, rows + 1, cols) == CountByColumns(m, rows, cols) + RowCount(m, rows, cols)
  {
    if cols > 0 {
      CountByColumnsStep(m, rows, cols - 1);
      assert CountByColumns(m, rows + 1, cols) == CountByColumns(m, rows + 1, cols - 1) + ColumnCount(m, cols - 1, rows + 1);
      assert ColumnCount(m, cols - 1, rows + 1) == ColumnCount(m, cols - 1, rows) + Ind(m(rows, cols - 1));
      assert RowCount(m, rows, cols) == RowCount(m, rows, cols - 1) + Ind(m(rows, cols - 1));
    }
  }

  lemma {:induction false} CountByColumnsNoRows(m: (nat, nat) -> bool, cols: nat)
    ensures CountByColumns(m, 0, cols) == 0
  {
    if cols > 0 {
      CountByColumnsNoRows(m, cols - 1);
    }
  }

  /** Counting a boolean matrix row by row or column by column gives the same total. */
  lemma {:induction false} CountSwap(m: (nat, nat) -> bool, rows: nat, cols: nat)
    ensures CountByRows(m, rows, cols) == CountByColumns(m, rows, cols)
  {
    if rows == 0 {
      CountByColumnsNoRows(m, cols);
    } else {
      CountSwap(m, rows - 1, cols);
      CountByColumnsStep(m, rows - 1, cols);
    }
  }

  lemma EightRows(m: (nat, nat) -> bool)
    ensures CountByRows(m, 8, 8) == RowCount(m, 0, 8) + RowCount(m, 1, 8) + RowCount(m, 2, 8) + RowCount(m, 3, 8)
      + RowCount(m, 4, 8) + RowCount(m, 5, 8) + RowCount(m, 6, 8) + RowCount(m, 7, 8)
  {
    assert CountByRows(m, 1, 8) == RowCount(m, 0, 8);
    assert CountByRows(m, 2, 8) == CountByRows(m, 1, 8) + RowCount(m, 1, 8);
    assert CountByRows(m, 3, 8) == CountByRows(m, 2, 8) + RowCount(m, 2, 8);
    assert CountByRows(m, 4, 8) == CountByRows(m, 3, 8) + RowCount(m, 3, 8);
    assert CountByRows(m, 5, 8) == CountByRows(m, 4, 8) + RowCount(m, 4, 8);
    assert CountByRows(m, 6, 8) == CountByRows(m, 5, 8) + RowCount(m, 5, 8);
    assert CountByRows(m, 7, 8) == CountByRows(m, 6, 8) + RowCount(m, 6, 8);
  }

  lemma EightColumns(m: (nat, nat) -> bool)
    ensures CountByColumns(m, 8, 8) == ColumnCount(m, 0, 8) + ColumnCount(m, 1, 8) + ColumnCount(m, 2, 8) + ColumnCount(m, 3, 8)
      + ColumnCount(m, 4, 8) + ColumnCount(m, 5, 8) + ColumnCount(m, 6, 8) + ColumnCount(m, 7, 8)
  {
    assert CountByColumns(m, 8, 1) == ColumnCount(m, 0, 8);
    assert CountByColumns(m, 8, 2) == CountByColumns(m, 8, 1) + ColumnCount(m, 1, 8);
    assert CountByColumns(m, 8, 3) == CountByColumns(m, 8, 2) + ColumnCount(m, 2, 8);
    assert CountByColumns(m, 8, 4) == CountByColumns(m, 8, 3) + ColumnCount(m, 3, 8);
    assert CountByColumns(m, 8, 5) == CountByColumns(m, 8, 4) + ColumnCount(m, 4, 8);
    assert CountByColumns(m, 8, 6) == CountByColumns(m, 8, 5) + ColumnCount(m, 5, 8);
    assert CountByColumns(m, 8, 7) == CountByColumns(m, 8, 6) + ColumnCount(m, 6, 8);
  }

  /** Which digit lights which segment, as a boolean matrix. */
  function SegmentMatrix(digits: seq<bv8>): (nat, nat) -> bool
    requires |digits| == 8
  {
    (i: nat, s: nat) => i < 8 && s < 8 && Bit(digits[i], s)
  }

  /** Row i of the segment matrix counts the segments digit i lights. */
  lemma RowIsPopcount(digits: seq<bv8>, i: nat)
    requires |digits| == 8 && i < 8
    ensures RowCount(SegmentMatrix(digits), i, 8) == Popcount(digits[i])
  {
    var m := SegmentMatrix(digits);
    assert RowCount(m, i, 1) == Ind(m(i, 0));
    assert RowCount(m, i, 2) == RowCount(m, i, 1) + Ind(m(i, 1));
    assert RowCount(m, i, 3) == RowCount(m, i, 2) + Ind(m(i, 2));
    assert RowCount(m, i, 4) == RowCount(m, i, 3) + Ind(m(i, 3));
    assert RowCount(m, i, 5) == RowCount(m, i, 4) + Ind(m(i, 4));
    assert RowCount(m, i, 6) == RowCount(m, i, 5) + Ind(m(i, 5));
    assert RowCount(m, i, 7) == RowCount(m, i, 6) + Ind(m(i, 6));
    assert RowCount(m, i, 8) == RowCount(m, i, 7) + Ind(m(i, 7));
  }

  /** Column s of the segment matrix counts the digits that light segment s. */
  lemma ColumnIsUses(digits: seq<bv8>, s: nat)
    requires |digits| == 8 && s < 8
    ensures ColumnCount(SegmentMatrix(digits), s, 8) == SegmentUses(digits, s)
  {
    var m := SegmentMatrix(digits);
    assert ColumnCount(m, s, 1) == Ind(m(0, s));
    assert ColumnCount(m, s, 2) == ColumnCount(m, s, 1) + Ind(m(1, s));
    assert ColumnCount(m, s, 3) == ColumnCount(m, s, 2) + Ind(m(2, s));
    assert ColumnCount(m, s, 4) == ColumnCount(m, s, 3) + Ind(m(3, s));
    assert ColumnCount(m, s, 5) == ColumnCount(m, s, 4) + Ind(m(4, s));
    assert ColumnCount(m, s, 6) == ColumnCount(m, s, 5) + Ind(m(5, s));
    assert ColumnCount(m, s, 7) == ColumnCount(m, s, 6) + Ind(m(6, s));
    assert ColumnCount(m, s, 8) == ColumnCount(m, s, 7) + Ind(m(7, s));
  }

  lemma CountByDigits(digits: seq<bv8>)
    requires |digits| == 8
    ensures CountByRows(SegmentMatrix(digits), 8, 8) == BitCount(digits)
  {
    var m := SegmentMatrix(digits);
    RowIsPopcount(digits, 0);
    RowIsPopcount(digits, 1);
    RowIsPopcount(digits, 2);
    RowIsPopcount(digits, 3);
    RowIsPopcount(digits, 4);
    RowIsPopcount(digits, 5);
    RowIsPopcount(digits, 6);
    RowIsPopcount(digits, 7);
    EightRows(m);
  }

  lemma CountBySegments(digits: seq<bv8>)
    requires |digits| == 8
    ensures CountByColumns(SegmentMatrix(digits), 8, 8)
         == SegmentUses(digits, 0) + SegmentUses(digits, 1) + SegmentUses(digits, 2) + SegmentUses(digits, 3)
          + SegmentUses(digits, 4) + SegmentUses(digits, 5) + SegmentUses(digits, 6) + SegmentUses(digits, 7)
  {
    var m := SegmentMatrix(digits);
    ColumnIsUses(digits, 0);
    ColumnIsUses(digits, 1);
    ColumnIsUses(digits, 2);
    ColumnIsUses(digits, 3);
    ColumnIsUses(digits, 4);
    ColumnIsUses(digits, 5);
    ColumnIsUses(digits, 6);
    ColumnIsUses(digits, 7);
    EightColumns(m);
  }

  /** The transpose only moves bits: as many segments are lit before as after. */
  lemma PlanesKeepBitCount(digits: seq<bv8>)
    requires |digits| == 8
    ensures BitCount(Planes(digits)) == BitCount(digits)
  {
    var m := SegmentMatrix(digits);
    assert CountByColumns(m, 8, 8) == BitCount(digits) by {
      CountSwap(m, 8, 8);
      CountByDigits(digits);
    }
    CountBySegments(digits);
    PlanePopcount(digits, 0);
    PlanePopcount(digits, 1);
    PlanePopcount(digits, 2);
    PlanePopcount(digits, 3);
    PlanePopcount(digits, 4);
    PlanePopcount(digits, 5);
    PlanePopcount(digits, 6);
    PlanePopcount(digits, 7);
  }

  /** All segments of the far-left digit lit, the rest dark: every plane holds only bit 7. */
  lemma LeftDigitLit()
    ensures Planes([0xFF, 0, 0, 0, 0, 0, 0, 0]) == [0x80, 0x80, 0x80, 0x80, 0x80, 0x80, 0x80, 0x80]
  {
    var digits: seq<bv8> := [0xFF, 0, 0, 0, 0, 0, 0, 0];
    var planes := Planes(digits);
    PlanesBits(digits);
    forall s | 0 <= s < 8 ensures planes[s] == 0x80 {
      forall p | 0 <= p < 8 ensures Bit(planes[s], p) <==> Bit(0x80, p) {
        assert Bit(planes[s], p) <==> Bit(digits[7 - p], s);
      }
      BitsDetermine(planes[s], 0x80);
    }
  }

  lemma BlankDigits()
    ensures Planes([0, 0, 0, 0, 0, 0, 0, 0]) == [0, 0, 0, 0, 0, 0, 0, 0]
  {
    var digits: seq<bv8> := [0, 0, 0, 0, 0, 0, 0, 0];
    var planes := Planes(digits);
    PlanesBits(digits);
    forall s | 0 <= s < 8 ensures planes[s] == 0 {
      forall p | 0 <= p < 8 ensures Bit(planes[s], p) <==> Bit(0, p) {
        assert Bit(planes[s], p) <==> Bit(digits[7 - p], s);
      }
      BitsDetermine(planes[s], 0);
    }
  }

  /** The transaction bytes that write plane `s` alone: the address command for 2s, then the plane. */
  function PlaneFrame(planes: seq<bv8>, s: nat): seq<bv8>
    requires |planes| == 8 && s < 8
  {
    [Encode(AddressSet(2 * s)), planes[s]]
  }

  /** Chip display memory once it has handled the first `n` plane frames. */
  function AfterPlanes(mem: seq<bv8>, planes: seq<bv8>, n: nat): (m: seq<bv8>)
    requires |mem| == 16 && |planes| == 8 && n <= 8
    ensures |m| == 16
  {
    if n == 0 then mem else WriteFrame(AfterPlanes(mem, planes, n - 1), PlaneFrame(planes, n - 1))
  }

  /** Plane `s` sits at address 2s; odd addresses and those not yet reached keep their bytes. */
  lemma {:induction false} AfterPlanesBytes(mem: seq<bv8>, planes: seq<bv8>, n: nat)
    requires |mem| == 16 && |planes| == 8 && n <= 8
    ensures forall s :: 0 <= s < n ==> AfterPlanes(mem, planes, n)[2 * s] == planes[s]
    ensures forall s :: 0 <= s < 8 ==> AfterPlanes(mem, planes, n)[2 * s + 1] == mem[2 * s + 1]
    ensures forall k :: 2 * n <= k < 16 ==> AfterPlanes(mem, planes, n)[k] == mem[k]
  {
    if n > 0 {
      AfterPlanesBytes(mem, planes, n - 1);
      var prev := AfterPlanes(mem, planes, n - 1);
      var m := AfterPlanes(mem, planes, n);
      assert PlaneFrame(planes, n - 1) == [Encode(AddressSet(2 * (n - 1)))] + [planes[n - 1]];
      WriteFrameStores(prev, 2 * (n - 1), [planes[n - 1]]);
      assert m == Store(prev, 2 * (n - 1), [planes[n - 1]]);
      forall s | 0 <= s < n ensures m[2 * s] == planes[s] {
        if s < n - 1 {
          assert m[2 * s] == prev[2 * s];
        }
      }
      forall s | 0 <= s < 8 ensures m[2 * s + 1] == mem[2 * s + 1] {
        if s < n - 1 {
          assert 2 * s + 1 < 2 * (n - 1);
        } else {
          assert 2 * s + 1 > 2 * (n - 1);
        }
        assert m[2 * s + 1] == prev[2 * s + 1];
      }
      forall k | 2 * n <= k < 16 ensures m[k] == mem[k] {
        assert m[k] == prev[k];
      }
    }
  }

  lemma EvenBytes(mem: seq<bv8>, planes: seq<bv8>)
    requires |mem| == 16 && |planes| == 8
    ensures seq(8, s requires 0 <= s < 8 => AfterPlanes(mem, planes, 8)[2 * s]) == planes
  {
    AfterPlanesBytes(mem, planes, 8);
  }

  /** The digits the board shows from chip memory: the segment planes at the even addresses. */
  function Display(mem: seq<bv8>): (digits: seq<bv8>)
    requires |mem| == 16
    ensures |digits| == 8
  {
    Shown(seq(8, s requires 0 <= s < 8 => mem[2 * s]))
  }

  /**
    Writing the planes of `digits` to the even addresses makes the board
    show `digits`, whatever the memory held before (`AfterPlanesBytes`:
    the odd addresses keep their bytes).
   */
  lemma PlaneWritesShow(mem: seq<bv8>, digits: seq<bv8>)
    requires |mem| == 16 && |digits| == 8
    ensures Display(AfterPlanes(mem, Planes(digits), 8)) == digits
  {
    EvenBytes(mem, Planes(digits));
    ShownPlanes(digits);
  }

  /** The scan byte that carries button `k` (row-major, 4 buttons per row). */
  function ButtonByte(k: nat): nat
    requires k < 16
  {
    2 * (k / 4 % 2) + k % 4 / 2
  }

  /** The bit of that byte: 0x20 / 0x02 in rows 1 and 2, 0x40 / 0x04 in rows 3 and 4. */
  function ButtonMask(k: nat): bv8
    requires k < 16
  {
    if k / 8 == 0 then (if k % 2 == 0 then 0x20 else 0x02)
    else (if k % 2 == 0 then 0x40 else 0x04)
  }

  /** The buttons a four-byte scan reports, left to right and top to bottom. */
  function ButtonsOf(scan: seq<bv8>): (buttons: seq<bool>)
    requires |scan| == 4
    ensures |buttons| == 16
  {
    seq(16, k requires 0 <= k < 16 => scan[ButtonByte(k)] & ButtonMask(k) != 0)
  }

  /** The scan bytes read while only one button is held, row by row, as the board documents them. */
  const PressTable: seq<seq<bv8>> := [
    [0x20, 0, 0, 0], [0x02, 0, 0, 0], [0, 0x20, 0, 0], [0, 0x02, 0, 0],
    [0, 0, 0x20, 0], [0, 0, 0x02, 0], [0, 0, 0, 0x20], [0, 0, 0, 0x02],
    [0x40, 0, 0, 0], [0x04, 0, 0, 0], [0, 0x40, 0, 0], [0, 0x04, 0, 0],
    [0, 0, 0x40, 0], [0, 0, 0x04, 0], [0, 0, 0, 0x40], [0, 0, 0, 0x04]
  ]

  /** Each documented single-press scan decodes to exactly that one button. */
  lemma PressTableDecodes(k: nat)
    requires k < 16
    ensures |PressTable[k]| == 4
    ensures forall j :: 0 <= j < 16 ==> (ButtonsOf(PressTable[k])[j] <==> j == k)
  {
    PressTablePair(k - k % 2, k);
  }

  /** The same, for the two buttons from the even button `first` on. */
  lemma PressTablePair(first: nat, k: nat)
    requires first % 2 == 0 && first <= k < first + 2 && first + 2 <= 16
    ensures |PressTable[k]| == 4
    ensures forall j :: 0 <= j < 16 ==> (ButtonsOf(PressTable[k])[j] <==> j == k)
  {
  }

  /** Only the bits 0x66 of each scan byte carry buttons; the others are ignored. */
  function TableBits(scan: seq<bv8>): (t: seq<bv8>)
    requires |scan| == 4
    ensures |t| == 4
  {
    seq(4, i requires 0 <= i < 4 => scan[i] & 0x66)
  }

  lemma OtherBitsIgnored(scan: seq<bv8>)
    requires |scan| == 4
    ensures ButtonsOf(TableBits(scan)) == ButtonsOf(scan)
  {
    var t := TableBits(scan);
    forall k | 0 <= k < 16 ensures ButtonsOf(t)[k] == ButtonsOf(scan)[k] {
      var x := scan[ButtonByte(k)];
      assert t[ButtonByte(k)] == x & 0x66;
    }
  }

  function Sel(b: bool, mask: bv8): bv8 {
    if b then mask else 0
  }

  /** The scan a chip reports for button states `buttons`: only the table bits, each set for a held button. */
  function ScanOf(buttons: seq<bool>): (scan: seq<bv8>)
    requires |buttons| == 16
    ensures |scan| == 4
  {
    seq(4, i requires 0 <= i < 4 =>
      var k := 2 * i;
      Sel(buttons[k], 0x20) | Sel(buttons[k + 1], 0x02) | Sel(buttons[k + 8], 0x40) | Sel(buttons[k + 9], 0x04))
  }

  /** The four table bits of one scan byte, each read back from the byte built of them. */
  lemma SelBits(a: bool, b: bool, c: bool, d: bool)
    ensures var x := Sel(a, 0x20) | Sel(b, 0x02) | Sel(c, 0x40) | Sel(d, 0x04);
      && (x & 0x20 != 0 <==> a) && (x & 0x02 != 0 <==> b) && (x & 0x40 != 0 <==> c) && (x & 0x04 != 0 <==> d)
  {
  }

  /** A byte's table bits, rebuilt one at a time, are the byte masked with 0x66. */
  lemma SelOfBits(x: bv8, a: bool, b: bool, c: bool, d: bool)
    requires a == (x & 0x20 != 0) && b == (x & 0x02 != 0) && c == (x & 0x40 != 0) && d == (x & 0x04 != 0)
    ensures Sel(a, 0x20) | Sel(b, 0x02) | Sel(c, 0x40) | Sel(d, 0x04) == x & 0x66
  {
  }

  /** Every combination of held buttons is reported faithfully. */
  lemma ButtonsOfScan(buttons: seq<bool>)
    requires |buttons| == 16
    ensures ButtonsOf(ScanOf(buttons)) == buttons
  {
    var scan := ScanOf(buttons);
    forall k | 0 <= k < 16 ensures ButtonsOf(scan)[k] == buttons[k] {
      var i := ButtonByte(k);
      var base := 2 * i;
      SelBits(buttons[base], buttons[base + 1], buttons[base + 8], buttons[base + 9]);
      assert k == base || k == base + 1 || k == base + 8 || k == base + 9;
    }
  }

  /** A scan is determined by its buttons up to the bits outside the table. */
  lemma ScanOfButtons(scan: seq<bv8>)
    requires |scan| == 4
    ensures ScanOf(ButtonsOf(scan)) == TableBits(scan)
  {
    var buttons := ButtonsOf(scan);
    forall i | 0 <= i < 4 ensures ScanOf(buttons)[i] == TableBits(scan)[i] {
      ScanByteOfButtons(scan, i);
    }
  }

  /** Scan byte `i` carries buttons 2i and 2i + 1 of rows 1-2 and buttons 2i + 8 and 2i + 9 of rows 3-4. */
  lemma ButtonLayoutAt(i: nat)
    requires i < 4
    ensures ButtonByte(2 * i) == i && ButtonByte(2 * i + 1) == i && ButtonByte(2 * i + 8) == i && ButtonByte(2 * i + 9) == i
    ensures ButtonMask(2 * i) == 0x20 && ButtonMask(2 * i + 1) == 0x02 && ButtonMask(2 * i + 8) == 0x40 && ButtonMask(2 * i + 9) == 0x04
  {
    assert i == 0 || i == 1 || i == 2 || i == 3;
  }

  lemma ButtonsAt(scan: seq<bv8>, i: nat)
    requires |scan| == 4 && i < 4
    ensures ButtonsOf(scan)[2 * i] == (scan[i] & 0x20 != 0) && ButtonsOf(scan)[2 * i + 1] == (scan[i] & 0x02 != 0)
    ensures ButtonsOf(scan)[2 * i + 8] == (scan[i] & 0x40 != 0) && ButtonsOf(scan)[2 * i + 9] == (scan[i] & 0x04 != 0)
  {
    ButtonLayoutAt(i);
  }

  lemma ScanByteOfButtons(scan: seq<bv8>, i: nat)
    requires |scan| == 4 && i < 4
    ensures ScanOf(ButtonsOf(scan))[i] == scan[i] & 0x66
  {
    var b := ButtonsOf(scan);
    assert ScanOf(b)[i] == Sel(b[2 * i], 0x20) | Sel(b[2 * i + 1], 0x02) | Sel(b[2 * i + 8], 0x40) | Sel(b[2 * i + 9], 0x04);
    ButtonsAt(scan, i);
    SelOfBits(scan[i], b[2 * i], b[2 * i + 1], b[2 * i + 8], b[2 * i + 9]);
  }
}
