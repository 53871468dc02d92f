/**
  The Go seven-segment font (pkg/sevensegfont.go): a character-to-segments
  table that callers may edit through the map `GetMutableFont` hands out, and
  `BuildDigits`, which turns a string into one segment byte per digit and
  merges a '.' into the digit before it.

  Segment bytes are laid out `xgfedcba`: bit 7 is the decimal point.
 */
module SevenSegFontGo {
  import opened Wrappers

  /** The table `ResetFont` installs: 23 characters. */
  const DefaultFont: map<char, bv8> := map[
    ' ' := 0x00, '0' := 0x3F, '1' := 0x06, '2' := 0x5B, '3' := 0x4F,
    '4' := 0x66, '5' := 0x6D, '6' := 0x7D, '7' := 0x07, '8' := 0x7F,
    '9' := 0x6F, '.' := 0x80, '-' := 0x40,
    'A' := 0x77, 'B' := 0x7C, 'C' := 0x39, 'D' := 0x5E, 'E' := 0x79, 'F' := 0x71,
    'H' := 0x76, 'i' := 0x04, 'L' := 0x38, 'o' := 0x5C
  ]

  /** The characters of the default table, each once. */
  const FontChars: string := " 0123456789.-ABCDEFHiLo"

  /** The default table has exactly the 23 characters of `FontChars`. */
  lemma DefaultFontKeys()
    ensures |FontChars| == 23 && forall i, j :: 0 <= i < j < |FontChars| ==> FontChars[i] != FontChars[j]
    ensures forall c :: c in DefaultFont <==> c in FontChars
  {
  }

  /**
    The default table maps '.' to the decimal point alone, and every other
    character to a pattern with the decimal point clear.
   */
  lemma DefaultFontDecimalPoint()
    ensures '.' in DefaultFont && DefaultFont['.'] == 0x80
    ensures forall c :: c in DefaultFont && c != '.' ==> DefaultFont[c] & 0x80 == 0
  {
  }

  /**
    A Go `map[int]byte`: a reference, so every holder of it sees the edits
    made through any other holder.
   */
  class FontMap {
    var entries: map<char, bv8>

    constructor (entries: map<char, bv8>)
      ensures this.entries == entries
    {
      this.entries := entries;
    }

    /** `m[c] = v`. */
    method Put(c: char, v: bv8)
      modifies this
      ensures entries == old(entries)[c := v]
    {
      entries := entries[c := v];
    }

    /** `delete(m, c)`. */
    method Delete(c: char)
      modifies this
      ensures entries == old(entries) - {c}
    {
      entries := entries - {c};
    }
  }

  /** Why `BuildDigits` stopped: its two errors, and the index panic of a too-short `outDigits`. */
  datatype BuildError = NoFontMapping | TooManyDigits | IndexOutOfRange

  /** What `BuildDigits` leaves behind: its outcome and the contents of `outDigits`. */
  datatype Built = Built(outcome: Outcome<BuildError>, digits: seq<bv8>)

  /** The blanking loop: digits `j` up to `numDigits` set to 0. */
  function BlankFrom(out: seq<bv8>, j: nat, numDigits: int): Built
    decreases numDigits - j
  {
    if j >= numDigits then Built(Pass, out)
    else if j >= |out| then Built(Fail(IndexOutOfRange), out)
    else BlankFrom(out[j := 0], j + 1, numDigits)
  }

  /**
    The main loop from character `i` on, with `pos` the next digit to fill
    and `previous` the character index of the last digit stored, or -1.
   */
  function BuildFrom(font: map<char, bv8>, chars: string, numDigits: int,
                     i: nat, out: seq<bv8>, pos: nat, previous: int): Built
    requires i <= |chars|
    decreases |chars| - i
  {
    if i == |chars| then BlankFrom(out, pos, numDigits)
    else if chars[i] == '.' && previous >= 0 then
      if previous < |out| then BuildFrom(font, chars, numDigits, i + 1, out[previous := out[previous] | 0x80], pos, -1)
      else Built(Fail(IndexOutOfRange), out)
    else if chars[i] !in font then Built(Fail(NoFontMapping), out)
    else if i > numDigits then Built(Fail(TooManyDigits), out)
    else if pos >= |out| then Built(Fail(IndexOutOfRange), out)
    else BuildFrom(font, chars, numDigits, i + 1, out[pos := font[chars[i]]], pos + 1, if chars[i] == '.' then -1 else i)
  }

  /** `BuildDigits(chars, numDigits, outDigits)` run on `out` with the table `font`. */
  function GoBuild(font: map<char, bv8>, chars: string, numDigits: int, out: seq<bv8>): (b: Built)
    ensures |b.digits| == |out|
  {
    BuildFromLength(font, chars, numDigits, 0, out, 0, -1);
    BuildFrom(font, chars, numDigits, 0, out, 0, -1)
  }

  /** The loops never change the length of `outDigits`. */
  lemma {:induction false} BuildFromLength(font: map<char, bv8>, chars: string, numDigits: int,
                                           i: nat, out: seq<bv8>, pos: nat, previous: int)
    requires i <= |chars|
    ensures |BuildFrom(font, chars, numDigits, i, out, pos, previous).digits| == |out|
    decreases |chars| - i
  {
    if i == |chars| {
      BlankFromEffect(out, pos, numDigits);
    } else if chars[i] == '.' && previous >= 0 {
      if previous < |out| {
        BuildFromLength(font, chars, numDigits, i + 1, out[previous := out[previous] | 0x80], pos, -1);
      }
    } else if chars[i] in font && i <= numDigits && pos < |out| {
      BuildFromLength(font, chars, numDigits, i + 1, out[pos := font[chars[i]]], pos + 1, if chars[i] == '.' then -1 else i);
    }
  }

  /** `out` with the font patterns of `chars[i..j]` written at positions `i..j`. */
  function Written(font: map<char, bv8>, chars: string, out: seq<bv8>, i: nat, j: nat): (w: seq<bv8>)
    requires i <= j <= |chars| && j <= |out|
    requires forall k :: i <= k < j ==> chars[k] in font
    ensures |w| == |out|
  {
    seq(|out|, k requires 0 <= k < |out| => if i <= k < j then font[chars[k]] else out[k])
  }

  /** The blanking loop zeroes the digits from `j` below `numDigits`, and panics if `out` ends first. */
  lemma {:induction false} BlankFromEffect(out: seq<bv8>, j: nat, numDigits: int)
    ensures |BlankFrom(out, j, numDigits).digits| == |out|
    ensures BlankFrom(out, j, numDigits).outcome == if j < numDigits && |out| < numDigits then Fail(IndexOutOfRange) else Pass
    ensures forall k :: 0 <= k < |out| ==>
      BlankFrom(out, j, numDigits).digits[k] == (if j <= k < numDigits then 0 else out[k])
    decreases numDigits - j
  {
    if j < numDigits && j < |out| {
      BlankFromEffect(out[j := 0], j + 1, numDigits);
    }
  }

  /**
    Without decimal points, each character from `i` to `j` takes the next
    digit: the run stores their patterns at positions `i..j`, as long as the
    character index never exceeds `numDigits` and `out` is long enough.
   */
  lemma {:induction false} WriteRun(font: map<char, bv8>, chars: string, numDigits: int,
                                    i: nat, j: nat, out: seq<bv8>, previous: int)
    requires i <= j <= |chars| && j <= |out| && j <= numDigits + 1
    requires forall k :: i <= k < j ==> chars[k] in font && chars[k] != '.'
    ensures BuildFrom(font, chars, numDigits, i, out, i, previous)
         == BuildFrom(font, chars, numDigits, j, Written(font, chars, out, i, j), j, if i < j then j - 1 else previous)
    decreases j - i
  {
    if i == j {
      assert Written(font, chars, out, i, j) == out;
    } else {
      var out1 := out[i := font[chars[i]]];
      WriteRun(font, chars, numDigits, i + 1, j, out1, i);
      assert Written(font, chars, out1, i + 1, j) == Written(font, chars, out, i, j);
    }
  }

  /**
    A string with no '.' whose characters all have patterns and whose length
    is at most `numDigits + 1`: digit k gets the pattern of character k, the
    digits after the string up to `numDigits` are blanked, the rest is untouched.
   */
  lemma NoDotsDigits(font: map<char, bv8>, chars: string, numDigits: int, out: seq<bv8>)
    requires forall k :: 0 <= k < |chars| ==> chars[k] in font && chars[k] != '.'
    requires |chars| <= numDigits + 1 && |chars| <= |out| && numDigits <= |out|
    ensures GoBuild(font, chars, numDigits, out).outcome == Pass
    ensures |GoBuild(font, chars, numDigits, out).digits| == |out|
    ensures forall k :: 0 <= k < |out| ==>
      GoBuild(font, chars, numDigits, out).digits[k] == (if k < |chars| then font[chars[k]] else if k < numDigits then 0 else out[k])
  {
    var n := |chars|;
    WriteRun(font, chars, numDigits, 0, n, out, -1);
    BlankFromEffect(Written(font, chars, out, 0, n), n, numDigits);
  }

  /**
    The limit compares the character index, and only as `i > numDigits`:
    a string with no '.' that is longer than `numDigits + 1` fails with
    TooManyDigits after storing its first `numDigits + 1` characters, and nothing is blanked.
   */
  lemma TooManyDigitsStops(font: map<char, bv8>, chars: string, numDigits: int, out: seq<bv8>)
    requires 0 <= numDigits && numDigits + 1 < |chars| && numDigits < |out|
    requires forall k :: 0 <= k < |chars| ==> chars[k] in font && chars[k] != '.'
    ensures GoBuild(font, chars, numDigits, out)
         == Built(Fail(TooManyDigits), Written(font, chars, out, 0, numDigits + 1))
  {
    WriteRun(font, chars, numDigits, 0, numDigits + 1, out, -1);
  }

  /**
    With `outDigits` exactly `numDigits` long, as in `WriteString`, a string
    with no '.' and more than `numDigits` characters makes the store of
    character `numDigits` index past the end: a panic, not TooManyDigits.
   */
  lemma LimitOffByOne(font: map<char, bv8>, chars: string, numDigits: nat, out: seq<bv8>)
    requires |out| == numDigits < |chars|
    requires forall k :: 0 <= k < |chars| ==> chars[k] in font && chars[k] != '.'
    ensures GoBuild(font, chars, numDigits, out).outcome == Fail(IndexOutOfRange)
  {
    WriteRun(font, chars, numDigits, 0, numDigits, out, -1);
  }

  /**
    A character with no pattern stops the build at once with NoFontMapping:
    the digits stored before it stay written and nothing is blanked.
   */
  lemma UnmappedStops(font: map<char, bv8>, chars: string, numDigits: int, out: seq<bv8>, p: nat)
    requires p < |chars| && chars[p] !in font && chars[p] != '.'
    requires forall k :: 0 <= k < p ==> chars[k] in font && chars[k] != '.'
    requires p <= numDigits + 1 && p <= |out|
    ensures GoBuild(font, chars, numDigits, out) == Built(Fail(NoFontMapping), Written(font, chars, out, 0, p))
  {
    WriteRun(font, chars, numDigits, 0, p, out, -1);
  }

  /**
    A digit character followed by '.': the digit is stored at `pos`, and the
    point is then merged into `outDigits[i]`, the digit's CHARACTER index,
    which is the digit position only while no earlier point has been merged.
    When that index is past the end of `outDigits`, Go panics.
   */
  lemma DigitThenPoint(font: map<char, bv8>, chars: string, numDigits: int, i: nat, out: seq<bv8>, pos: nat, previous: int)
    requires i + 1 < |chars| && chars[i] != '.' && chars[i] in font && chars[i + 1] == '.'
    requires i <= numDigits && pos < |out|
    ensures var o := out[pos := font[chars[i]]];
      BuildFrom(font, chars, numDigits, i, out, pos, previous)
      == if i < |out| then BuildFrom(font, chars, numDigits, i + 2, o[i := o[i] | 0x80], pos + 1, -1)
         else Built(Fail(IndexOutOfRange), o)
  {
    var o := out[pos := font[chars[i]]];
    assert BuildFrom(font, chars, numDigits, i, out, pos, previous) == BuildFrom(font, chars, numDigits, i + 1, o, pos + 1, i);
  }

  /**
    A '.' right after a first character that has a pattern is merged into
    digit 0 and takes no digit of its own: the build goes on from
    character 2 with digit 1 next and nothing to merge into.
   */
  lemma DotMergesIntoFirst(font: map<char, bv8>, chars: string, numDigits: int, out: seq<bv8>)
    requires 2 <= |chars| && chars[0] != '.' && chars[0] in font && chars[1] == '.'
    requires 0 <= numDigits && 1 <= |out|
    ensures GoBuild(font, chars, numDigits, out)
         == BuildFrom(font, chars, numDigits, 2, out[0 := font[chars[0]] | 0x80], 1, -1)
  {
    var out1 := out[0 := font[chars[0]]];
    assert GoBuild(font, chars, numDigits, out) == BuildFrom(font, chars, numDigits, 1, out1, 1, 0);
    assert out1[0 := out1[0] | 0x80] == out[0 := font[chars[0]] | 0x80];
  }

  /**
    A leading '.' has nothing to merge into: it is looked up and stored as a
    digit of its own, and a '.' right after it gets its own digit as well.
   */
  lemma LeadingDotsOwnDigits(font: map<char, bv8>, chars: string, numDigits: int, out: seq<bv8>)
    requires 2 <= |chars| && chars[0] == '.' && chars[1] == '.' && '.' in font
    requires 1 <= numDigits && 2 <= |out|
    ensures GoBuild(font, chars, numDigits, out)
         == BuildFrom(font, chars, numDigits, 2, out[0 := font['.']][1 := font['.']], 2, -1)
  {
    assert GoBuild(font, chars, numDigits, out) == BuildFrom(font, chars, numDigits, 1, out[0 := font['.']], 1, -1);
  }

  /**
    At any point of the loop, an unmapped character that is not a '.' being
    merged stops the build with NoFontMapping, whatever came before it.
   */
  lemma UnmappedStep(font: map<char, bv8>, chars: string, numDigits: int, i: nat, out: seq<bv8>, pos: nat, previous: int)
    requires i < |chars| && chars[i] !in font && !(chars[i] == '.' && previous >= 0)
    ensures BuildFrom(font, chars, numDigits, i, out, pos, previous) == Built(Fail(NoFontMapping), out)
  {
  }

  /**
    At any point of the loop, a mapped character that is not merged fails
    with TooManyDigits once its CHARACTER index exceeds `numDigits`, however
    few digits have been filled (`pos`).
   */
  lemma LimitStep(font: map<char, bv8>, chars: string, numDigits: int, i: nat, out: seq<bv8>, pos: nat, previous: int)
    requires i < |chars| && chars[i] in font && !(chars[i] == '.' && previous >= 0) && i > numDigits
    ensures BuildFrom(font, chars, numDigits, i, out, pos, previous) == Built(Fail(TooManyDigits), out)
  {
  }

  /**
    At any point of the loop, a '.' with nothing to merge into (at the start,
    after a merged point or after a '.') takes digit `pos` of its own, and
    the next '.' again has nothing to merge into.
   */
  lemma UnmergedPointStep(font: map<char, bv8>, chars: string, numDigits: int, i: nat, out: seq<bv8>, pos: nat, previous: int)
    requires i < |chars| && chars[i] == '.' && previous < 0 && '.' in font
    requires i <= numDigits && pos < |out|
    ensures BuildFrom(font, chars, numDigits, i, out, pos, previous)
         == BuildFrom(font, chars, numDigits, i + 1, out[pos := font['.']], pos + 1, -1)
  {
  }

  /**
    At any point of the loop, a mapped character other than '.' within the
    limit takes digit `pos`, and a '.' right after it will be merged into
    `outDigits[i]`, its character index.
   */
  lemma StoreStep(font: map<char, bv8>, chars: string, numDigits: int, i: nat, out: seq<bv8>, pos: nat, previous: int)
    requires i < |chars| && chars[i] != '.' && chars[i] in font
    requires i <= numDigits && pos < |out|
    ensures BuildFrom(font, chars, numDigits, i, out, pos, previous)
         == BuildFrom(font, chars, numDigits, i + 1, out[pos := font[chars[i]]], pos + 1, i)
  {
  }

  /** "1.X": the unmapped 'X' after a merged point fails with digit 0 already written. */
  lemma ExampleUnmappedAfterPoint(out: seq<bv8>)
    requires |out| == 8
    ensures GoBuild(DefaultFont, "1.X", 8, out) == Built(Fail(NoFontMapping), out[0 := 0x86])
  {
    var s := "1.X";
    assert s[0] == '1' && s[1] == '.' && s[2] == 'X' && 'X' !in DefaultFont;
    DotMergesIntoFirst(DefaultFont, s, 8, out);
    UnmappedStep(DefaultFont, s, 8, 2, out[0 := 0x86], 1, -1);
  }

  /**
    "1..": the first point merges into digit 0, the second has nothing to
    merge into and takes digit 1 of its own.
   */
  lemma ExamplePointAfterMerge(out: seq<bv8>)
    requires |out| == 8
    ensures GoBuild(DefaultFont, "1..", 8, out) == Built(Pass, [0x86, 0x80, 0, 0, 0, 0, 0, 0])
  {
    var s := "1..";
    assert s[0] == '1' && s[1] == '.' && s[2] == '.';
    DotMergesIntoFirst(DefaultFont, s, 8, out);
    UnmergedPointStep(DefaultFont, s, 8, 2, out[0 := 0x86], 1, -1);
    var o := out[0 := 0x86][1 := 0x80];
    BlankFromEffect(o, 2, 8);
    assert BlankFrom(o, 2, 8).digits == [0x86, 0x80, 0, 0, 0, 0, 0, 0];
  }

  /**
    "1.2.3.4.56" needs six digits, but the limit counts characters: the "6"
    at character index 9 exceeds eight digits and the call fails.
   */
  lemma ExampleLimitCountsCharacters(out: seq<bv8>)
    requires |out| == 8
    ensures GoBuild(DefaultFont, "1.2.3.4.56", 8, out).outcome == Fail(TooManyDigits)
  {
    DefaultDigits();
    LimitCountsCharactersFrom(DefaultFont, 0, out);
  }

  /**
    From the digit-and-point pair of "1.2.3.4.56" at character index i, with
    digit i/2 next: the four pairs take digits 0 to 3, "5" takes digit 4, and
    "6" fails the character-index limit.
   */
  lemma {:induction false} LimitCountsCharactersFrom(f: map<char, bv8>, i: nat, out: seq<bv8>)
    requires |out| == 8 && i % 2 == 0 && i <= 8
    requires '1' in f && '2' in f && '3' in f && '4' in f && '5' in f && '6' in f
    ensures BuildFrom(f, "1.2.3.4.56", 8, i, out, i / 2, -1).outcome == Fail(TooManyDigits)
    decreases 8 - i
  {
    var s := "1.2.3.4.56";
    if i < 8 {
      assert s[i] in f && s[i] != '.' && s[i + 1] == '.' by {
        assert i == 0 || i == 2 || i == 4 || i == 6;
      }
      DigitThenPoint(f, s, 8, i, out, i / 2, -1);
      var o := out[i / 2 := f[s[i]]];
      LimitCountsCharactersFrom(f, i + 2, o[i := o[i] | 0x80]);
    } else {
      assert s[8] == '5' && s[9] == '6';
      StoreStep(f, s, 8, 8, out, 4, -1);
      LimitStep(f, s, 8, 9, out[4 := f['5']], 5, 8);
    }
  }

  /** The patterns of the default table that the examples below use. */
  lemma DefaultDigits()
    ensures '1' in DefaultFont && '2' in DefaultFont && '3' in DefaultFont && '4' in DefaultFont
    ensures '5' in DefaultFont && '6' in DefaultFont && '.' in DefaultFont
    ensures DefaultFont['1'] == 0x06 && DefaultFont['2'] == 0x5B && DefaultFont['3'] == 0x4F
    ensures DefaultFont['4'] == 0x66 && DefaultFont['5'] == 0x6D && DefaultFont['6'] == 0x7D
    ensures DefaultFont['.'] == 0x80
  {
  }

  /** "1.5": the point lands in digit 0, "5" in digit 1, the rest is blanked. */
  lemma ExampleOnePointFive(out: seq<bv8>)
    requires |out| == 8
    ensures GoBuild(DefaultFont, "1.5", 8, out) == Built(Pass, [0x86, 0x6D, 0, 0, 0, 0, 0, 0])
  {
    var s := "1.5";
    DefaultDigits();
    assert s[0] == '1' && s[1] == '.' && s[2] == '5';
    DotMergesIntoFirst(DefaultFont, s, 8, out);
    var out1 := out[0 := 0x86];
    var out2 := out1[1 := 0x6D];
    assert BuildFrom(DefaultFont, s, 8, 2, out1, 1, -1) == BlankFrom(out2, 2, 8);
    BlankFromEffect(out2, 2, 8);
  }

  /**
    "1.2.": `previous` holds the character index 2 of "2", which was stored
    in digit 1, so the second point is OR-ed into digit 2, and the blanking
    loop then clears digit 2: that point is lost.
   */
  lemma ExampleSecondPointLost(out: seq<bv8>)
    requires |out| == 8
    ensures GoBuild(DefaultFont, "1.2.", 8, out) == Built(Pass, [0x86, 0x5B, 0, 0, 0, 0, 0, 0])
  {
    DefaultDigits();
    SecondPointLost(DefaultFont, out);
  }

  lemma SecondPointLost(f: map<char, bv8>, out: seq<bv8>)
    requires |out| == 8 && '1' in f && '2' in f
    ensures GoBuild(f, "1.2.", 8, out).outcome == Pass
    ensures GoBuild(f, "1.2.", 8, out).digits == [f['1'] | 0x80, f['2'], 0, 0, 0, 0, 0, 0]
  {
    var s := "1.2.";
    var o1 := out[0 := f['1']];
    var o2 := o1[0 := o1[0] | 0x80];
    var o3 := o2[1 := f['2']];
    var o4 := o3[2 := o3[2] | 0x80];
    assert GoBuild(f, s, 8, out) == BlankFrom(o4, 2, 8) by {
      DigitThenPoint(f, s, 8, 0, out, 0, -1);
      DigitThenPoint(f, s, 8, 2, o2, 1, -1);
    }
    var d := BlankFrom(o4, 2, 8).digits;
    assert BlankFrom(o4, 2, 8).outcome == Pass && d == [f['1'] | 0x80, f['2'], 0, 0, 0, 0, 0, 0] by {
      BlankFromEffect(o4, 2, 8);
      assert d[0] == f['1'] | 0x80 && d[1] == f['2'];
    }
  }

  /**
    "1.2.3.4.5." needs five digits, but its last point is merged into
    `outDigits[8]`, the character index of "5": with eight digits, a panic.
   */
  lemma ExamplePointPastEnd(out: seq<bv8>)
    requires |out| == 8
    ensures GoBuild(DefaultFont, "1.2.3.4.5.", 8, out).outcome == Fail(IndexOutOfRange)
  {
    DefaultDigits();
    PointPastEnd(DefaultFont, out);
  }

  lemma PointPastEnd(f: map<char, bv8>, out: seq<bv8>)
    requires |out| == 8 && '1' in f && '2' in f && '3' in f && '4' in f && '5' in f
    ensures GoBuild(f, "1.2.3.4.5.", 8, out).outcome == Fail(IndexOutOfRange)
  {
    PointPastEndFrom(f, 0, out);
  }

  /**
    From the digit-and-point pair at character index i, with digit i/2 next:
    each pair stores one digit and merges its point at index i, so the pair
    at index 8 merges past the end.
   */
  lemma {:induction false} PointPastEndFrom(f: map<char, bv8>, i: nat, out: seq<bv8>)
    requires |out| == 8 && i % 2 == 0 && i <= 8
    requires '1' in f && '2' in f && '3' in f && '4' in f && '5' in f
    ensures BuildFrom(f, "1.2.3.4.5.", 8, i, out, i / 2, -1).outcome == Fail(IndexOutOfRange)
    decreases 8 - i
  {
    var s := "1.2.3.4.5.";
    assert s[i] in f && s[i] != '.' && s[i + 1] == '.' by {
      assert i == 0 || i == 2 || i == 4 || i == 6 || i == 8;
    }
    DigitThenPoint(f, s, 8, i, out, i / 2, -1);
    if i < 8 {
      var o := out[i / 2 := f[s[i]]];
      PointPastEndFrom(f, i + 2, o[i := o[i] | 0x80]);
    }
  }

  class SevenSegFont {
    var font: FontMap

    /** `NewSevenSegFont`. */
    constructor ()
      ensures fresh(font) && font.entries == DefaultFont
    {
      font := new FontMap(DefaultFont);
    }

    /** Installs a new map holding the default table; the old map is no longer the font. */
    method ResetFont()
      modifies this
      ensures fresh(font) && font.entries == DefaultFont
    {
      font := new FontMap(DefaultFont);
    }

    /** The font's own map, not a copy. */
    method GetMutableFont() returns (m: FontMap)
      ensures m == font
    {
      m := font;
    }

    method BuildDigits(chars: string, numDigits: int, outDigits: array<bv8>) returns (err: Outcome<BuildError>)
      modifies outDigits
      ensures Built(err, outDigits[..]) == GoBuild(font.entries, chars, numDigits, old(outDigits[..]))
    {
      ghost var goal := GoBuild(font.entries, chars, numDigits, outDigits[..]);
      var previous := -1;  // no previous digit yet
      var pos := 0;        // next digit to fill
      var i := 0;
      while i < |chars|
        invariant 0 <= pos <= i <= |chars| && previous < i
        invariant goal == BuildFrom(font.entries, chars, numDigits, i, outDigits[..], pos, previous)
      {
        if chars[i] == '.' {
          if previous >= 0 {
            if previous >= outDigits.Length {
              return Fail(IndexOutOfRange);
            }
            outDigits[previous] := outDigits[previous] | 0x80;
            previous := -1;
            i := i + 1;
            continue;
          }
        }
        if chars[i] !in font.entries {
          return Fail(NoFontMapping);
        }
        var value := font.entries[chars[i]];
        if i > numDigits {
          return Fail(TooManyDigits);
        }
        if pos >= outDigits.Length {
          return Fail(IndexOutOfRange);
        }
        outDigits[pos] := value;
        pos := pos + 1;
        previous := i;
        if chars[i] == '.' {
          previous := -1;  // a decimal point is not merged into a decimal point
        }
        i := i + 1;
      }
      var j := pos;
      while j < numDigits
        invariant pos <= j
        invariant goal == BlankFrom(outDigits[..], j, numDigits)
        decreases numDigits - j
      {
        if j >= outDigits.Length {
          return Fail(IndexOutOfRange);
        }
        outDigits[j] := 0;
        j := j + 1;
      }
      return Pass;
    }
  }

  /**
    A client of the font: an edit through the map from `GetMutableFont`
    shows in the font, and `ResetFont` discards it; the old map stays
    editable but is no longer the font.
   */
  method ResetDiscardsEdits() returns (editSeen: bool, seenAfterReset: bool)
    ensures editSeen && !seenAfterReset
  {
    var f := new SevenSegFont();
    var m := f.GetMutableFont();
    m.Put('X', 0x01);
    editSeen := 'X' in f.font.entries;
    f.ResetFont();
    m.Put('Y', 0x02);
    seenAfterReset := 'X' in f.font.entries || 'Y' in f.font.entries;
  }
}
