/**
  The CircuitPython adapter for the 16-key board (cp_calc/disp16key.py). The
  Python class extends the driver; here it holds one. It keeps an eight-byte
  digit buffer, which the conversion returns by reference, and a four-byte
  scan buffer that every key scan reuses.
 */
module Disp16KeyPy {
  import opened Wrappers
  import opened Bits
  import opened Gpio
  import opened TM1638Commands
  import opened Disp16KeyLayout
  import TM1638Py
  import SevenSegFontPy
  import SevenSegFontGo

  /**
    The conversion's `bit_mask` after `k` left shifts of 1. It is a Python
    integer, so the eighth shift gives 256 rather than losing the bit; sixteen
    bits hold every value it takes.
   */
  function WideMask(k: nat): bv16 {
    if k == 0 then 1 else WideMask(k - 1) << 1
  }

  /** `bit_mask < 256` holds for the eight bit positions, and `bit_mask & digit == bit_mask` tests bit `k`. */
  lemma WideMaskTest(x: bv8, k: nat)
    requires k <= 8
    ensures WideMask(k) < 256 <==> k < 8
    ensures k < 8 ==> (WideMask(k) & (x as bv16) == WideMask(k) <==> Bit(x, k))
  {
    assert WideMask(1) == WideMask(0) << 1;
    assert WideMask(2) == WideMask(1) << 1;
    assert WideMask(3) == WideMask(2) << 1;
    assert WideMask(4) == WideMask(3) << 1;
    assert WideMask(5) == WideMask(4) << 1;
    assert WideMask(6) == WideMask(5) << 1;
    assert WideMask(7) == WideMask(6) << 1;
    assert WideMask(8) == WideMask(7) << 1;
    if k < 8 {
      MaskTest(x, k);
      MaskValues();
    }
  }

  /** `write_string`'s padding and slice: the first eight digits, with zeros after the last. */
  function FitToEight(digits: seq<bv8>): seq<bv8> {
    if |digits| >= 8 then digits[..8] else digits + seq(8 - |digits|, _ => 0)
  }

  /** Eight digits come out: the built ones where there are any, then blanks. */
  lemma FitToEightDigits(digits: seq<bv8>)
    ensures |FitToEight(digits)| == 8
    ensures forall k :: 0 <= k < 8 ==> FitToEight(digits)[k] == if k < |digits| then digits[k] else 0
  {
  }

  /** A string of eight or fewer digits keeps them all, in order. */
  lemma FitToEightKeeps(digits: seq<bv8>)
    requires |digits| <= 8
    ensures FitToEight(digits)[..|digits|] == digits
  {
    FitToEightDigits(digits);
  }

  /**
    For a string of at most eight characters, none of them '.', all in the
    font, the Go adapter's digit buffer and the Python adapter's padded list
    are the same eight digits, so both write the same planes.
   */
  lemma AdaptersAgree(font: map<char, bv8>, chars: string, out: seq<bv8>)
    requires forall k :: 0 <= k < |chars| ==> chars[k] in font && chars[k] != '.'
    requires |chars| <= 8 && |out| == 8
    ensures SevenSegFontGo.GoBuild(font, chars, 8, out).outcome == Pass
    ensures SevenSegFontPy.PyBuild(font, chars).Success?
    ensures SevenSegFontGo.GoBuild(font, chars, 8, out).digits == FitToEight(SevenSegFontPy.PyBuild(font, chars).value)
  {
    SevenSegFontGo.NoDotsDigits(font, chars, 8, out);
    SevenSegFontPy.NoDotsLookup(font, chars);
    FitToEightDigits(SevenSegFontPy.PyBuild(font, chars).value);
  }

  /** The pin calls of writing planes 0 .. n-1, plane s alone at address 2s. */
  function PlanesTrace(planes: seq<bv8>, n: nat): seq<PinEvent>
    requires |planes| == 8 && n <= 8
  {
    if n == 0 then [] else PlanesTrace(planes, n - 1) + TM1638Py.WriteDataTrace((n - 1) * 2, [planes[n - 1]])
  }

  lemma PlanesTraceStep(t: seq<PinEvent>, planes: seq<bv8>, n: nat)
    requires |planes| == 8 && n < 8
    ensures t + PlanesTrace(planes, n) + TM1638Py.WriteDataTrace(n * 2, [planes[n]]) == t + PlanesTrace(planes, n + 1)
  {
    AppendAssoc(t, PlanesTrace(planes, n), TM1638Py.WriteDataTrace(n * 2, [planes[n]]));
  }

  /** One plane write from an idle line delivers that plane's frame and leaves the line idle. */
  lemma PlaneWriteDelivers(planes: seq<bv8>, s: nat, l: Line)
    requires |planes| == 8 && s < 8 && TM1638Py.Idle(l)
    ensures Bytes(Latched(TM1638Py.WriteDataTrace(s * 2, [planes[s]]), l)) == PlaneFrame(planes, s)
    ensures TM1638Py.Idle(After(TM1638Py.WriteDataTrace(s * 2, [planes[s]]), l))
  {
    TM1638Py.WriteDataDelivers(s * 2, [planes[s]], l);
    FieldByteValue(s * 2);
  }

  /** Plane writes leave an idle line idle. */
  lemma {:induction false} PlanesTraceIdle(planes: seq<bv8>, n: nat, l: Line)
    requires |planes| == 8 && n <= 8 && TM1638Py.Idle(l)
    ensures TM1638Py.Idle(After(PlanesTrace(planes, n), l))
  {
    if n > 0 {
      PlanesTraceIdle(planes, n - 1, l);
      PlaneWriteDelivers(planes, n - 1, After(PlanesTrace(planes, n - 1), l));
      LatchedAppend(PlanesTrace(planes, n - 1), TM1638Py.WriteDataTrace((n - 1) * 2, [planes[n - 1]]), l);
    }
  }

  /**
    From an idle line, the s-th of the plane writes delivers the frame that
    sets address 2s and stores plane s there: the same bytes as the Go adapter.
   */
  lemma PlanesTraceDelivers(planes: seq<bv8>, s: nat, l: Line)
    requires |planes| == 8 && s < 8 && TM1638Py.Idle(l)
    ensures Bytes(Latched(TM1638Py.WriteDataTrace(s * 2, [planes[s]]), After(PlanesTrace(planes, s), l))) == PlaneFrame(planes, s)
  {
    PlanesTraceIdle(planes, s, l);
    PlaneWriteDelivers(planes, s, After(PlanesTrace(planes, s), l));
  }

  /**
    Display memory once the chip has handled, from lines in state `l`, the
    frames that the first `n` plane writes deliver to it.
   */
  function DeliveredMemory(mem: seq<bv8>, planes: seq<bv8>, n: nat, l: Line): (m: seq<bv8>)
    requires |mem| == 16 && |planes| == 8 && n <= 8
    ensures |m| == 16
  {
    if n == 0 then mem
    else WriteFrame(DeliveredMemory(mem, planes, n - 1, l),
                    Bytes(Latched(TM1638Py.WriteDataTrace((n - 1) * 2, [planes[n - 1]]), After(PlanesTrace(planes, n - 1), l))))
  }

  /** From idle lines, the delivered frames store plane s at address 2s and nothing else. */
  lemma {:induction false} DeliveredIsAfterPlanes(mem: seq<bv8>, planes: seq<bv8>, n: nat, l: Line)
    requires |mem| == 16 && |planes| == 8 && n <= 8 && TM1638Py.Idle(l)
    ensures DeliveredMemory(mem, planes, n, l) == AfterPlanes(mem, planes, n)
  {
    if n > 0 {
      DeliveredIsAfterPlanes(mem, planes, n - 1, l);
      PlanesTraceDelivers(planes, n - 1, l);
    }
  }

  /**
    The plane writes of `WriteDigits`, sent from idle lines, leave a display
    memory that shows exactly `digits`, whatever it held before.
   */
  lemma WriteDigitsShows(mem: seq<bv8>, digits: seq<bv8>, l: Line)
    requires |mem| == 16 && |digits| == 8 && TM1638Py.Idle(l)
    ensures Display(DeliveredMemory(mem, Planes(digits), 8, l)) == digits
  {
    DeliveredIsAfterPlanes(mem, Planes(digits), 8, l);
    PlaneWritesShow(mem, digits);
  }

  class Disp16Key {
    const tm: TM1638Py.TM1638
    const font: SevenSegFontPy.SevenSegFont
    /** `_digit_buffer`: where the conversion builds the planes. */
    const digitBuffer: array<bv8>
    /** `_scan_buffer`: the four key-scan bytes of the latest scan. */
    const scanBuffer: array<bv8>

    ghost predicate Valid() {
      digitBuffer.Length == 8 && scanBuffer.Length == 4
    }

    /** `__init__`: the driver on fresh pins, the default font and zeroed buffers. */
    constructor (dioLevels: nat -> bool)
      ensures Valid() && fresh(tm) && fresh(font) && fresh(digitBuffer) && fresh(scanBuffer)
      ensures tm.trace == TM1638Py.InitTrace && tm.samples == 0 && tm.dioLevels == dioLevels
      ensures font.font == SevenSegFontPy.DefaultFont
      ensures digitBuffer[..] == [0, 0, 0, 0, 0, 0, 0, 0] && scanBuffer[..] == [0, 0, 0, 0]
    {
      tm := new TM1638Py.TM1638(dioLevels);
      font := new SevenSegFontPy.SevenSegFont();
      digitBuffer := new bv8[8](_ => 0);
      scanBuffer := new bv8[4](_ => 0);
      new;
      assert digitBuffer[..] == [0, 0, 0, 0, 0, 0, 0, 0];
      assert scanBuffer[..] == [0, 0, 0, 0];
    }

    /**
      `_convert_8_key_digits`: the segment planes of the first eight digits,
      built in `digitBuffer`, which is returned itself rather than a copy.
     */
    method ConvertEightKeyDigits(digits: seq<bv8>) returns (data: array<bv8>)
      requires Valid() && |digits| >= 8
      modifies digitBuffer
      ensures data == digitBuffer
      ensures digitBuffer[..] == Planes(digits[..8])
    {
      ghost var eight := digits[..8];
      data := digitBuffer;
      var i := 0;
      while i < 8
        invariant 0 <= i <= 8
        invariant forall j :: 0 <= j < i ==> data[j] == 0
      {
        data[i] := 0;
        i := i + 1;
      }
      i := 0;
      while i < 8
        invariant 0 <= i <= 8
        invariant forall s :: 0 <= s < 8 ==> digitBuffer[s] == PlaneUpTo(eight, s, i)
      {
        var digit := digits[i];
        var byteIndex := 0;
        var bitMask: bv16 := 1;
        assert WideMask(0) < 256;
        while bitMask < 256
          invariant 0 <= byteIndex <= 8 && bitMask == WideMask(byteIndex)
          invariant bitMask < 256 <==> byteIndex < 8
          invariant forall s :: 0 <= s < 8 ==> digitBuffer[s] == PlaneUpTo(eight, s, if s < byteIndex then i + 1 else i)
          decreases 8 - byteIndex
        {
          var lit := bitMask & (digit as bv16) == bitMask;
          assert lit == Bit(eight[i], byteIndex) by {
            WideMaskTest(digit, byteIndex);
          }
          if lit {
            digitBuffer[byteIndex] := digitBuffer[byteIndex] | (128 >> i);
          }
          assert digitBuffer[byteIndex] == PlaneUpTo(eight, byteIndex, i + 1);
          bitMask := bitMask << 1;
          byteIndex := byteIndex + 1;
          assert bitMask < 256 <==> byteIndex < 8 by {
            WideMaskTest(digit, byteIndex);
          }
        }
        i := i + 1;
      }
      forall s | 0 <= s < 8 ensures digitBuffer[s] == Planes(eight)[s] {
        PlaneUpToAll(eight, s);
      }
    }

    /**
      `write_digits`: plane s of the first eight digits written alone to
      address 2s, for s = 0 .. 7; the planes stay in `digitBuffer`.
     */
    method WriteDigits(digits: seq<bv8>)
      requires Valid() && |digits| >= 8
      modifies tm`trace, digitBuffer
      ensures tm.trace == old(tm.trace) + PlanesTrace(Planes(digits[..8]), 8)
      ensures digitBuffer[..] == Planes(digits[..8])
    {
      var dig2 := ConvertEightKeyDigits(digits);
      ghost var planes := dig2[..];
      label converted:
      for i := 0 to 8
        invariant unchanged@converted(dig2)
        invariant tm.trace == old(tm.trace) + PlanesTrace(planes, i)
      {
        ghost var before := tm.trace;
        ghost var one := [planes[i]];
        assert dig2[i..i + 1] == one;
        tm.WriteData(i * 2, dig2[i..i + 1]);
        assert tm.trace == old(tm.trace) + PlanesTrace(planes, i + 1) by {
          assert tm.trace == before + TM1638Py.WriteDataTrace(i * 2, one);
          PlanesTraceStep(old(tm.trace), planes, i);
        }
      }
    }

    /**
      `write_string`: `chars` built with the font, padded with blanks to eight
      digits, cut to eight and written. A character missing from the font
      raises `KeyError` before any pin activity.
     */
    method WriteString(chars: string) returns (r: Outcome<SevenSegFontPy.LookupError>)
      requires Valid()
      modifies tm`trace, digitBuffer
      ensures var b := SevenSegFontPy.PyBuild(font.font, chars);
        && (b.Failure? ==> r == Fail(b.error) && tm.trace == old(tm.trace) && digitBuffer[..] == old(digitBuffer[..]))
        && (b.Success? ==>
             && r == Pass
             && tm.trace == old(tm.trace) + PlanesTrace(Planes(FitToEight(b.value)), 8)
             && digitBuffer[..] == Planes(FitToEight(b.value)))
    {
      var built := font.BuildDigits(chars);
      if built.Failure? {
        return Fail(built.error);
      }
      var digits := built.value;
      while |digits| < 8
        invariant |digits| >= |built.value|
        invariant digits == built.value + seq(|digits| - |built.value|, _ => 0)
        decreases 8 - |digits|
      {
        digits := digits + [0];
      }
      digits := digits[0..8];
      assert digits == FitToEight(built.value);
      WriteDigits(digits);
      assert digits[..8] == digits;
      return Pass;
    }

    /**
      `read_buttons`: one four-byte key scan into `scanBuffer`, decoded into
      the first sixteen entries of `buttons` left to right and top to bottom.
     */
    method ReadButtons(buttons: array<bool>)
      requires Valid() && buttons.Length >= 16
      modifies tm`trace, tm`samples, scanBuffer, buttons
      ensures tm.samples == old(tm.samples) + 32
      ensures tm.trace == old(tm.trace) + TM1638Py.ReadScanTrace(tm.dioLevels, old(tm.samples), 4)
      ensures scanBuffer[..] == seq(4, j requires 0 <= j < 4 => ShiftIn(tm.dioLevels, old(tm.samples) + 8 * j, 8))
      ensures buttons[..16] == ButtonsOf(scanBuffer[..])
      ensures buttons[16..] == old(buttons[16..])
    {
      var data := scanBuffer;
      tm.ReadScanningData(data);
      // The sixteen assignments, button k from bit ButtonMask(k) of byte ButtonByte(k).
      forall k | 0 <= k < 16 {
        buttons[k] := data[ButtonByte(k)] & ButtonMask(k) > 0;
      }
      assert buttons[..16] == ButtonsOf(data[..]);
      assert data[..] == seq(4, j requires 0 <= j < 4 => ShiftIn(tm.dioLevels, old(tm.samples) + 8 * j, 8));
    }
  }
}
