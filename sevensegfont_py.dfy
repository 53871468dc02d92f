/**
  The CircuitPython seven-segment font (cp_calc/sevensegfont.py): the same
  table as the Go font, held in the `font` dict field, and `build_digits`,
  which returns a fresh list with one segment byte per digit, merging a '.'
  into the element appended just before it. There is no digit limit and no
  padding; a character missing from the table raises KeyError.
 */
module SevenSegFontPy {
  import opened Wrappers
  import SevenSegFontGo

  const DefaultFont: map<char, bv8> := map[
    ' ' := 0x00, '0' := 0x3F, '1' := 0x06, '2' := 0x5B, '3' := 0x4F,
    '4' := 0x66, '5' := 0x6D, '6' := 0x7D, '7' := 0x07, '8' := 0x7F,
    '9' := 0x6F, '.' := 0x80, '-' := 0x40,
    'A' := 0x77, 'B' := 0x7C, 'C' := 0x39, 'D' := 0x5E, 'E' := 0x79, 'F' := 0x71,
    'H' := 0x76, 'i' := 0x04, 'L' := 0x38, 'o' := 0x5C
  ]

  /** The Python table is the Go table. */
  lemma DefaultFontsAgree()
    ensures DefaultFont == SevenSegFontGo.DefaultFont
  {
  }

  /** The exception `build_digits` raises for a character the table does not hold. */
  datatype LookupError = KeyError(key: char)

  /**
    The loop of `build_digits` from character `i` on, with `ret` the list so
    far and `previous` set when the last character appended a digit a '.' may merge into.
   */
  function PyFrom(font: map<char, bv8>, chars: string, i: nat, ret: seq<bv8>, previous: bool): Result<seq<bv8>, LookupError>
    requires i <= |chars| && (previous ==> |ret| > 0)
    decreases |chars| - i
  {
    if i == |chars| then Success(ret)
    else if chars[i] == '.' && previous then PyFrom(font, chars, i + 1, ret[|ret| - 1 := ret[|ret| - 1] | 0x80], false)
    else if chars[i] !in font then Failure(KeyError(chars[i]))
    else PyFrom(font, chars, i + 1, ret + [font[chars[i]]], chars[i] != '.')
  }

  /** `build_digits(chars)` with the table `font`. */
  function PyBuild(font: map<char, bv8>, chars: string): Result<seq<bv8>, LookupError> {
    PyFrom(font, chars, 0, [], false)
  }

  function Prepend(b: bv8, r: Result<seq<bv8>, LookupError>): Result<seq<bv8>, LookupError> {
    match r
    case Success(v) => Success([b] + v)
    case Failure(e) => Failure(e)
  }

  function Concat(ret: seq<bv8>, r: Result<seq<bv8>, LookupError>): Result<seq<bv8>, LookupError> {
    match r
    case Success(v) => Success(ret + v)
    case Failure(e) => Failure(e)
  }

  /**
    An independent reading of the same rule: the string is cut, left to
    right, into units; a character other than '.' followed by a '.' is one
    unit, shown as its pattern with the decimal point set; any other
    character is a unit of its own. The first unit whose character has no
    pattern is the error.
   */
  function Pairing(font: map<char, bv8>, s: string): Result<seq<bv8>, LookupError>
    decreases |s|
  {
    if s == [] then Success([])
    else if s[0] !in font then Failure(KeyError(s[0]))
    else if |s| >= 2 && s[0] != '.' && s[1] == '.' then Prepend(font[s[0]] | 0x80, Pairing(font, s[2..]))
    else Prepend(font[s[0]], Pairing(font, s[1..]))
  }

  lemma ConcatPrepend(ret: seq<bv8>, b: bv8, r: Result<seq<bv8>, LookupError>)
    ensures Concat(ret, Prepend(b, r)) == Concat(ret + [b], r)
  {
    if r.Success? {
      assert ret + ([b] + r.value) == ret + [b] + r.value;
    }
  }

  lemma {:induction false} PyFromPairing(font: map<char, bv8>, chars: string, i: nat, ret: seq<bv8>, previous: bool)
    requires i <= |chars| && (previous ==> |ret| > 0)
    requires previous ==> i > 0 && chars[i - 1] != '.' && chars[i - 1] in font && ret[|ret| - 1] == font[chars[i - 1]]
    ensures PyFrom(font, chars, i, ret, previous) ==
      if previous && i < |chars| && chars[i] == '.'
      then Concat(ret[..|ret| - 1] + [font[chars[i - 1]] | 0x80], Pairing(font, chars[i + 1..]))
      else Concat(ret, Pairing(font, chars[i..]))
    decreases |chars| - i
  {
    if i == |chars| {
      assert chars[i..] == [];
      assert ret + [] == ret;
    } else if chars[i] == '.' && previous {
      var ret1 := ret[|ret| - 1 := ret[|ret| - 1] | 0x80];
      assert ret1 == ret[..|ret| - 1] + [font[chars[i - 1]] | 0x80];
      PyFromPairing(font, chars, i + 1, ret1, false);
    } else if chars[i] !in font {
    } else {
      var c := chars[i];
      var rest := chars[i..];
      assert rest[0] == c;
      PyFromPairing(font, chars, i + 1, ret + [font[c]], c != '.');
      if c != '.' && i + 1 < |chars| && chars[i + 1] == '.' {
        assert rest[2..] == chars[i + 2..] && rest[1] == '.';
        ConcatPrepend(ret, font[c] | 0x80, Pairing(font, chars[i + 2..]));
        assert (ret + [font[c]])[..|ret|] == ret;
      } else {
        assert rest[1..] == chars[i + 1..];
        ConcatPrepend(ret, font[c], Pairing(font, chars[i + 1..]));
      }
    }
  }

  /** `build_digits` computes the unit reading of its input. */
  lemma PyBuildIsPairing(font: map<char, bv8>, chars: string)
    ensures PyBuild(font, chars) == Pairing(font, chars)
  {
    PyFromPairing(font, chars, 0, [], false);
    assert chars[0..] == chars;
    var r := Pairing(font, chars);
    if r.Success? {
      assert [] + r.value == r.value;
    }
  }

  /** The number of '.' that merge: those right after a character other than '.'. */
  function MergedDots(s: string): nat {
    if |s| < 2 then 0
    else MergedDots(s[..|s| - 1]) + (if s[|s| - 1] == '.' && s[|s| - 2] != '.' then 1 else 0)
  }

  lemma {:induction false} MergedDotsCons(a: char, t: string)
    ensures MergedDots([a] + t) == (if t != [] && a != '.' && t[0] == '.' then 1 else 0) + MergedDots(t)
    decreases |t|
  {
    if |t| >= 2 {
      var s := [a] + t;
      assert s[..|s| - 1] == [a] + t[..|t| - 1];
      MergedDotsCons(a, t[..|t| - 1]);
    } else if |t| == 1 {
      assert ([a] + t)[..1] == [a];
    }
  }

  lemma {:induction false} PairingLength(font: map<char, bv8>, s: string)
    requires Pairing(font, s).Success?
    ensures |Pairing(font, s).value| == |s| - MergedDots(s)
    decreases |s|
  {
    if s != [] {
      MergedDotsCons(s[0], s[1..]);
      assert [s[0]] + s[1..] == s;
      if |s| >= 2 && s[0] != '.' && s[1] == '.' {
        PairingLength(font, s[2..]);
        MergedDotsCons(s[1], s[2..]);
        assert [s[1]] + s[2..] == s[1..];
      } else {
        PairingLength(font, s[1..]);
      }
    }
  }

  /** The list has one element per character, less one per merged '.'. */
  lemma BuildLength(font: map<char, bv8>, chars: string)
    requires PyBuild(font, chars).Success?
    ensures |PyBuild(font, chars).value| == |chars| - MergedDots(chars)
  {
    PyBuildIsPairing(font, chars);
    PairingLength(font, chars);
  }

  /** Without '.', the list is the character-by-character lookup, whatever the length. */
  lemma {:induction false} NoDotsLookup(font: map<char, bv8>, chars: string)
    requires forall k :: 0 <= k < |chars| ==> chars[k] in font && chars[k] != '.'
    ensures PyBuild(font, chars).Success?
    ensures PyBuild(font, chars).value == seq(|chars|, k requires 0 <= k < |chars| => font[chars[k]])
  {
    PyBuildIsPairing(font, chars);
    NoDotsPairing(font, chars);
  }

  lemma {:induction false} NoDotsPairing(font: map<char, bv8>, s: string)
    requires forall k :: 0 <= k < |s| ==> s[k] in font && s[k] != '.'
    ensures Pairing(font, s).Success?
    ensures Pairing(font, s).value == seq(|s|, k requires 0 <= k < |s| => font[s[k]])
    decreases |s|
  {
    if s != [] {
      if |s| >= 2 {
        assert s[1] != '.';
      }
      NoDotsPairing(font, s[1..]);
      var rest := seq(|s| - 1, k requires 0 <= k < |s| - 1 => font[s[1..][k]]);
      var whole := seq(|s|, k requires 0 <= k < |s| => font[s[k]]);
      assert Pairing(font, s) == Prepend(font[s[0]], Pairing(font, s[1..]));
      assert forall k :: 0 <= k < |whole| ==> ([font[s[0]]] + rest)[k] == whole[k] by {
        forall k | 0 <= k < |whole| ensures ([font[s[0]]] + rest)[k] == whole[k] {
          if k > 0 { assert s[1..][k - 1] == s[k]; }
        }
      }
      assert [font[s[0]]] + rest == whole;
    }
  }

  /** Whether character `i` of `s` is a '.' that merges into the digit before it. */
  predicate MergedAt(s: string, i: nat) {
    0 < i < |s| && s[i] == '.' && s[i - 1] != '.'
  }

  /**
    `build_digits` raises KeyError exactly when some character that is not
    a merging '.' has no pattern: a merged '.' is never looked up.
   */
  lemma {:induction false} PairingFails(font: map<char, bv8>, s: string)
    ensures Pairing(font, s).Failure? <==> exists i :: 0 <= i < |s| && !MergedAt(s, i) && s[i] !in font
    decreases |s|
  {
    if s != [] {
      var paired := |s| >= 2 && s[0] != '.' && s[1] == '.';
      var skip := if paired then 2 else 1;
      var t := s[skip..];
      PairingFails(font, t);
      assert !MergedAt(s, 0);
      if paired {
        assert MergedAt(s, 1);
      }
      // the indices from `skip` on are those of `t`, shifted
      forall j | 0 <= j < |t| ensures MergedAt(t, j) <==> MergedAt(s, j + skip) {
        assert t[j] == s[j + skip];
        if j > 0 { assert t[j - 1] == s[j + skip - 1]; }
        else if paired { assert s[skip - 1] == '.'; }
        else { assert s[0] != '.' ==> s[1] != '.'; }
      }
      if exists i :: 0 <= i < |s| && !MergedAt(s, i) && s[i] !in font {
        var i :| 0 <= i < |s| && !MergedAt(s, i) && s[i] !in font;
        if s[0] in font {
          assert i >= skip;
          assert t[i - skip] == s[i] && !MergedAt(t, i - skip);
        }
      }
      if Pairing(font, t).Failure? && s[0] in font {
        var j :| 0 <= j < |t| && !MergedAt(t, j) && t[j] !in font;
        assert s[j + skip] == t[j];
      }
    }
  }

  lemma BuildFails(font: map<char, bv8>, chars: string)
    ensures PyBuild(font, chars).Failure? <==> exists i :: 0 <= i < |chars| && !MergedAt(chars, i) && chars[i] !in font
  {
    PyBuildIsPairing(font, chars);
    PairingFails(font, chars);
  }

  lemma DefaultDigits()
    ensures '.' in DefaultFont && '1' in DefaultFont && '2' in DefaultFont && '5' in DefaultFont
    ensures DefaultFont['.'] == 0x80 && DefaultFont['1'] == 0x06 && DefaultFont['2'] == 0x5B && DefaultFont['5'] == 0x6D
  {
  }

  /** ".5" and "..": a leading '.' and a '.' after a '.' take digits of their own. */
  lemma ExampleLeadingPoints()
    ensures PyBuild(DefaultFont, ".5").Success? && PyBuild(DefaultFont, ".5").value == [0x80, 0x6D]
    ensures PyBuild(DefaultFont, "..").Success? && PyBuild(DefaultFont, "..").value == [0x80, 0x80]
  {
    DefaultDigits();
    PyBuildIsPairing(DefaultFont, ".5");
    PyBuildIsPairing(DefaultFont, "..");
    assert ".5"[1..] == "5" && "5"[1..] == "";
    assert ".."[1..] == "." && "."[1..] == "";
    assert Pairing(DefaultFont, "5") == Prepend(0x6D, Pairing(DefaultFont, ""));
    assert Pairing(DefaultFont, ".5") == Prepend(0x80, Pairing(DefaultFont, "5"));
    assert Pairing(DefaultFont, ".") == Prepend(0x80, Pairing(DefaultFont, ""));
    assert Pairing(DefaultFont, "..") == Prepend(0x80, Pairing(DefaultFont, "."));
  }

  /** "1.2." and "1..": each point merges into the element appended just before it, if that was not a point. */
  lemma ExampleMergedPoints()
    ensures PyBuild(DefaultFont, "1.2.").Success? && PyBuild(DefaultFont, "1.2.").value == [0x86, 0xDB]
    ensures PyBuild(DefaultFont, "1..").Success? && PyBuild(DefaultFont, "1..").value == [0x86, 0x80]
  {
    DefaultDigits();
    PyBuildIsPairing(DefaultFont, "1.2.");
    PyBuildIsPairing(DefaultFont, "1..");
    assert "1.2."[2..] == "2." && "2."[2..] == "";
    assert "1.."[2..] == "." && "."[1..] == "";
    assert Pairing(DefaultFont, "2.") == Prepend(0x5B | 0x80, Pairing(DefaultFont, ""));
    assert Pairing(DefaultFont, "1.2.") == Prepend(0x06 | 0x80, Pairing(DefaultFont, "2."));
    assert Pairing(DefaultFont, ".") == Prepend(0x80, Pairing(DefaultFont, ""));
    assert Pairing(DefaultFont, "1..") == Prepend(0x06 | 0x80, Pairing(DefaultFont, "."));
  }

  /**
    On a string without '.', with all patterns present and at most
    `numDigits` characters, the Go digits and the Python list agree on the
    characters; the Go version also blanks the digits after them.
   */
  lemma NoDotsAgree(chars: string, numDigits: int, out: seq<bv8>)
    requires forall k :: 0 <= k < |chars| ==> chars[k] in DefaultFont && chars[k] != '.'
    requires |chars| <= numDigits <= |out|
    ensures PyBuild(DefaultFont, chars).Success?
    ensures |SevenSegFontGo.GoBuild(SevenSegFontGo.DefaultFont, chars, numDigits, out).digits| == |out|
    ensures SevenSegFontGo.GoBuild(SevenSegFontGo.DefaultFont, chars, numDigits, out).digits[..|chars|]
         == PyBuild(DefaultFont, chars).value
  {
    DefaultFontsAgree();
    NoDotsLookup(DefaultFont, chars);
    SevenSegFontGo.NoDotsDigits(DefaultFont, chars, numDigits, out);
  }

  /** On "1.2." the two versions differ: Python keeps the second point on "2", Go loses it. */
  lemma PointsDiverge(out: seq<bv8>)
    requires |out| == 8
    ensures PyBuild(DefaultFont, "1.2.").value == [0x86, 0xDB]
    ensures SevenSegFontGo.GoBuild(SevenSegFontGo.DefaultFont, "1.2.", 8, out).digits[..2] == [0x86, 0x5B]
  {
    ExampleMergedPoints();
    SevenSegFontGo.ExampleSecondPointLost(out);
  }

  class SevenSegFont {
    /** The character table; callers may edit it in place. */
    var font: map<char, bv8>

    constructor ()
      ensures font == DefaultFont
    {
      font := DefaultFont;
    }

    method BuildDigits(chars: string) returns (r: Result<seq<bv8>, LookupError>)
      ensures r == PyBuild(font, chars) && r == Pairing(font, chars)
    {
      var previous := false;
      var ret: seq<bv8> := [];
      var i := 0;
      while i < |chars|
        invariant 0 <= i <= |chars| && (previous ==> |ret| > 0)
        invariant PyBuild(font, chars) == PyFrom(font, chars, i, ret, previous)
      {
        if chars[i] == '.' {
          if previous {
            ret := ret[|ret| - 1 := ret[|ret| - 1] | 0x80];
            previous := false;
            i := i + 1;
            continue;
          }
        }
        if chars[i] !in font {
          PyBuildIsPairing(font, chars);
          return Failure(KeyError(chars[i]));
        }
        var value := font[chars[i]];
        ret := ret + [value];
        previous := true;
        if chars[i] == '.' {
          previous := false;  // a decimal point cannot be merged into a decimal point
        }
        i := i + 1;
      }
      PyBuildIsPairing(font, chars);
      return Success(ret);
    }
  }
}
