/**
  The Go adapter for the 16-key board (pkg/disp16key.go): a TM1638 driver
  and a seven-segment font, plus an eight-byte digit buffer. Digits are
  transposed into segment planes and written one plane per even chip
  address; the four key-scan bytes are decoded into 16 button states.
 */
module Disp16KeyGo {
  import opened Wrappers
  import opened Bits
  import opened Gpio
  import opened TM1638Commands
  import opened Disp16KeyLayout
  import TM1638Go
  import SevenSegFontGo

  /** `convertEightKeyDigits`: the segment planes of eight digit patterns. */
  method ConvertEightKeyDigits(digits: seq<bv8>) returns (r: seq<bv8>)
    requires |digits| == 8
    ensures r == Planes(digits)
  {
    var outputDigits := new bv8[8](_ => 0);
    var i := 0;
    while i < 8
      invariant 0 <= i <= 8
      invariant forall s :: 0 <= s < 8 ==> outputDigits[s] == PlaneUpTo(digits, s, i)
    {
      var digit := digits[i];
      var byteIndex := 0;
      var bitMask: bv8 := 1;
      while bitMask > 0
        invariant 0 <= byteIndex <= 8 && bitMask == Mask(byteIndex)
        invariant forall s :: 0 <= s < 8 ==> outputDigits[s] == PlaneUpTo(digits, s, if s < byteIndex then i + 1 else i)
        decreases 8 - byteIndex
      {
        MaskTest(digit, byteIndex);
        if bitMask & digit == bitMask {
          outputDigits[byteIndex] := outputDigits[byteIndex] | (128 >> i);
        }
        assert outputDigits[byteIndex] == PlaneUpTo(digits, byteIndex, i + 1);
        bitMask := bitMask << 1;
        byteIndex := byteIndex + 1;
      }
      MaskTest(digit, byteIndex);
      i := i + 1;
    }
    forall s | 0 <= s < 8 ensures outputDigits[s] == Planes(digits)[s] {
      PlaneUpToAll(digits, s);
    }
    r := outputDigits[..];
  }

  /** The pin calls of writing planes 0 .. n-1, plane s alone at address 2s. */
  function PlanesTrace(planes: seq<bv8>, n: nat): seq<PinEvent>
    requires |planes| == 8 && n <= 8
  {
    if n == 0 then [] else PlanesTrace(planes, n - 1) + TM1638Go.WriteDataTrace(2 * (n - 1), [planes[n - 1]])
  }

  /** Writing plane n after planes 0 .. n-1 extends the trace by that one write. */
  lemma PlanesTraceStep(t: seq<PinEvent>, planes: seq<bv8>, n: nat)
    requires |planes| == 8 && n < 8
    ensures t + PlanesTrace(planes, n) + TM1638Go.WriteDataTrace(2 * n, [planes[n]]) == t + PlanesTrace(planes, n + 1)
  {
    AppendAssoc(t, PlanesTrace(planes, n), TM1638Go.WriteDataTrace(2 * n, [planes[n]]));
  }

  /** One plane write from an idle line delivers that plane's frame and leaves the line idle. */
  lemma PlaneWriteDelivers(planes: seq<bv8>, s: nat, l: Line)
    requires |planes| == 8 && s < 8 && TM1638Go.Idle(l)
    ensures Bytes(Latched(TM1638Go.WriteDataTrace(2 * s, [planes[s]]), l)) == PlaneFrame(planes, s)
    ensures TM1638Go.Idle(After(TM1638Go.WriteDataTrace(2 * s, [planes[s]]), l))
  {
    TM1638Go.WriteDataDelivers(2 * s, [planes[s]], l);
    FieldByteValue(2 * s);
  }

  /** Plane writes leave an idle line idle. */
  lemma {:induction false} PlanesTraceIdle(planes: seq<bv8>, n: nat, l: Line)
    requires |planes| == 8 && n <= 8 && TM1638Go.Idle(l)
    ensures TM1638Go.Idle(After(PlanesTrace(planes, n), l))
  {
    if n > 0 {
      PlanesTraceIdle(planes, n - 1, l);
      PlaneWriteDelivers(planes, n - 1, After(PlanesTrace(planes, n - 1), l));
      LatchedAppend(PlanesTrace(planes, n - 1), TM1638Go.WriteDataTrace(2 * (n - 1), [planes[n - 1]]), l);
    }
  }

  /**
    From an idle line, the s-th of the plane writes delivers the frame that
    sets address 2s and stores plane s there.
   */
  lemma PlanesTraceDelivers(planes: seq<bv8>, s: nat, l: Line)
    requires |planes| == 8 && s < 8 && TM1638Go.Idle(l)
    ensures Bytes(Latched(TM1638Go.WriteDataTrace(2 * s, [planes[s]]), After(PlanesTrace(planes, s), l))) == PlaneFrame(planes, s)
  {
    PlanesTraceIdle(planes, s, l);
    PlaneWriteDelivers(planes, s, After(PlanesTrace(planes, s), l));
  }

  /**
    Display memory once the chip has handled, from lines in state `l`, the
    frames that the first `n` plane writes deliver to it.
   */
  function DeliveredMemory(mem: seq<bv8>, planes: seq<bv8>, n: nat, l: Line): (m: seq<bv8>)
    requires |mem| == 16 && |planes| == 8 && n <= 8
    ensures |m| == 16
  {
    if n == 0 then mem
    else WriteFrame(DeliveredMemory(mem, planes, n - 1, l),
                    Bytes(Latched(TM1638Go.WriteDataTrace(2 * (n - 1), [planes[n - 1]]), After(PlanesTrace(planes, n - 1), l))))
  }

  /** From idle lines, the delivered frames store plane s at address 2s and nothing else. */
  lemma {:induction false} DeliveredIsAfterPlanes(mem: seq<bv8>, planes: seq<bv8>, n: nat, l: Line)
    requires |mem| == 16 && |planes| == 8 && n <= 8 && TM1638Go.Idle(l)
    ensures DeliveredMemory(mem, planes, n, l) == AfterPlanes(mem, planes, n)
  {
    if n > 0 {
      DeliveredIsAfterPlanes(mem, planes, n - 1, l);
      PlanesTraceDelivers(planes, n - 1, l);
    }
  }

  /**
    The plane writes of `WriteDigits`, sent from idle lines, leave a display
    memory that shows exactly `digits`, whatever it held before.
   */
  lemma WriteDigitsShows(mem: seq<bv8>, digits: seq<bv8>, l: Line)
    requires |mem| == 16 && |digits| == 8 && TM1638Go.Idle(l)
    ensures Display(DeliveredMemory(mem, Planes(digits), 8, l)) == digits
  {
    DeliveredIsAfterPlanes(mem, Planes(digits), 8, l);
    PlaneWritesShow(mem, digits);
  }

  class Disp16Key {
    const tm: TM1638Go.TM1638
    const font: SevenSegFontGo.SevenSegFont
    /** `digitBuffer`: the eight-byte array `WriteString` builds into. */
    const digitBuffer: array<bv8>

    ghost predicate Valid() {
      digitBuffer.Length == 8
    }

    /** `NewDISP16KEY`: a driver on fresh pins and the default font. */
    constructor (dioLevels: nat -> bool)
      ensures Valid() && fresh(tm) && fresh(font) && fresh(font.font) && fresh(digitBuffer)
      ensures tm.trace == TM1638Go.InitTrace && tm.samples == 0 && tm.dioLevels == dioLevels
      ensures font.font.entries == SevenSegFontGo.DefaultFont
      ensures digitBuffer[..] == [0, 0, 0, 0, 0, 0, 0, 0]
    {
      tm := new TM1638Go.TM1638(dioLevels);
      font := new SevenSegFontGo.SevenSegFont();
      digitBuffer := new bv8[8](_ => 0);
      new;
      font.ResetFont();
      assert digitBuffer[..] == [0, 0, 0, 0, 0, 0, 0, 0];
    }

    /**
      `WriteDigits`: plane s of `digits` written alone to address 2s, for
      s = 0 .. 7, through `digitBuffer[0]`; the driver's errors are not
      looked at, and none can occur.
     */
    method WriteDigits(digits: seq<bv8>) returns (err: Outcome<TM1638Go.DriverError>)
      requires Valid() && |digits| == 8
      modifies tm`trace, digitBuffer
      ensures err == Pass
      ensures tm.trace == old(tm.trace) + PlanesTrace(Planes(digits), 8)
      ensures digitBuffer[..] == old(digitBuffer[..])[0 := Planes(digits)[7]]
    {
      var converted := ConvertEightKeyDigits(digits);
      var i := 0;
      while i < 8
        invariant 0 <= i <= 8
        invariant tm.trace == old(tm.trace) + PlanesTrace(converted, i)
        invariant digitBuffer[1..] == old(digitBuffer[1..])
        invariant i > 0 ==> digitBuffer[0] == converted[i - 1]
      {
        digitBuffer[0] := converted[i];
        ghost var before := tm.trace;
        ghost var one := [converted[i]];
        assert digitBuffer[0..1] == one;
        var ignored := tm.WriteData(i * 2, digitBuffer[0..1]);
        assert tm.trace == old(tm.trace) + PlanesTrace(converted, i + 1) by {
          assert tm.trace == before + TM1638Go.WriteDataTrace(2 * i, one);
          PlanesTraceStep(old(tm.trace), converted, i);
        }
        i := i + 1;
      }
      assert digitBuffer[..] == old(digitBuffer[..])[0 := converted[7]];
      return Pass;
    }

    /**
      `WriteString`: `chars` built into `digitBuffer` with the font and eight
      digits, then written. A build error is returned before any pin activity.
     */
    method WriteString(chars: string) returns (err: Outcome<SevenSegFontGo.BuildError>)
      requires Valid()
      modifies tm`trace, digitBuffer
      ensures var b := SevenSegFontGo.GoBuild(font.font.entries, chars, 8, old(digitBuffer[..]));
        && err == b.outcome
        && (err.Fail? ==> tm.trace == old(tm.trace) && digitBuffer[..] == b.digits)
        && (err.Pass? ==>
             && tm.trace == old(tm.trace) + PlanesTrace(Planes(b.digits), 8)
             && digitBuffer[..] == b.digits[0 := Planes(b.digits)[7]])
    {
      err := font.BuildDigits(chars, 8, digitBuffer);
      if err.Fail? {
        return;
      }
      var ignored := WriteDigits(digitBuffer[..]);
    }

    /**
      `ReadButtons`: one four-byte key scan, decoded into `buttons` left to
      right and top to bottom. The driver's error is passed on unchanged, and
      none can occur for a four-byte buffer.
     */
    method ReadButtons(buttons: array<bool>) returns (err: Outcome<TM1638Go.DriverError>)
      requires Valid() && buttons.Length == 16
      modifies tm`trace, tm`samples, buttons
      ensures err == Pass
      ensures tm.samples == old(tm.samples) + 32
      ensures tm.trace == old(tm.trace) + TM1638Go.ReadScanTrace(tm.dioLevels, old(tm.samples), 4)
      ensures buttons[..] == ButtonsOf(seq(4, j requires 0 <= j < 4 => ShiftIn(tm.dioLevels, old(tm.samples) + 8 * j, 8)))
    {
      ghost var c, levels := tm.samples, tm.dioLevels;
      ghost var scan := seq(4, j requires 0 <= j < 4 => ShiftIn(levels, c + 8 * j, 8));
      var data := new bv8[4](_ => 0);
      err := tm.ReadScanningData(data);
      if err.Fail? {
        return;
      }
      assert data[..] == scan;
      // The sixteen assignments, button k from bit ButtonMask(k) of byte ButtonByte(k).
      forall k | 0 <= k < 16 {
        buttons[k] := data[ButtonByte(k)] & ButtonMask(k) > 0;
      }
      assert buttons[..] == ButtonsOf(scan);
    }
  }
}
