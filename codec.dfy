/**
 * Command framing of `Usc3._execute_command`: the opcode, then for a present value
 * a space and the text `str(val)[1:-1].replace(',', '')` in ASCII, then CR LF.
 */
module Codec {
  import opened Wrappers
  import opened Text

  /** The values the command methods pass: a single int or a list of ints. */
  datatype Param = Scalar(n: int) | Vector(xs: seq<int>)

  /** `str(val)`: the decimal text of an int, or `[a, b, c]` for a list. */
  function PyText(v: Param): string {
    match v
    case Scalar(n) => DecimalText(n)
    case Vector(xs) => "[" + Join(Numerals(xs), ", ") + "]"
  }

  /** Python's slice `s[1:-1]`: empty for texts of at most two characters. */
  function Inner(s: string): string {
    if |s| <= 2 then "" else s[1..|s| - 1]
  }

  /** The parameter text: `str(val)[1:-1].replace(',', '')`. */
  function ParamText(v: Param): string {
    Without(Inner(PyText(v)), ',')
  }

  /** A character that can occur in a parameter text. */
  predicate PayloadChar(c: char) { NumeralChar(c) || c == ' ' }

  /** `_dlm`, `_trm` and the response terminator `_end`. */
  const Space: byte := 32
  const CR: byte := 13
  const LF: byte := 10
  const Terminator: seq<byte> := [CR, LF]

  /** The bytes `to_write` that `_execute_command(data, val)` sends. */
  function Frame(opcode: seq<byte>, val: Option<Param>): seq<byte> {
    opcode
      + (if val.Some? then ParamTextChars(val.value); [Space] + Ascii(ParamText(val.value)) else [])
      + Terminator
  }

  /** A list is sent as its elements' decimal texts joined by single spaces. */
  lemma VectorText(xs: seq<int>)
    ensures ParamText(Vector(xs)) == Join(Numerals(xs), " ")
  {
    var j := Join(Numerals(xs), ", ");
    var s := "[" + j + "]";
    assert Inner(s) == j by {
      if |s| > 2 { assert s[1..|s| - 1] == j; }
    }
    forall k | 0 <= k < |xs| ensures ',' !in Numerals(xs)[k] {
      assert Numerals(xs)[k] == DecimalText(xs[k]);
    }
    WithoutCommasJoin(Numerals(xs));
  }

  /**
   * A scalar loses the first and last character of its decimal text: for `n >= 10`
   * that is its leading and its units digit, for `n <= -10` the sign and the units
   * digit, and every other value leaves nothing.
   */
  lemma ScalarText(n: int)
    ensures ParamText(Scalar(n)) ==
            if n >= 10 then Digits(n / 10)[1..]
            else if n <= -10 then Digits((-n) / 10)
            else ""
  {
    if n >= 10 {
      var d := Digits(n / 10);
      assert Digits(n) == d + [DigitChar(n % 10)];
      assert Inner(Digits(n)) == d[1..];
      WithoutAbsent(d[1..], ',');
    } else if n <= -10 {
      var d := Digits((-n) / 10);
      var s := "-" + Digits(-n);
      assert s == "-" + d + [DigitChar((-n) % 10)];
      assert Inner(s) == d;
      WithoutAbsent(d, ',');
    } else {
      assert |PyText(Scalar(n))| <= 2;
    }
  }

  /** Every scalar from -9 to 99 is sent as an empty parameter text. */
  lemma ShortScalarsVanish(n: int)
    requires -9 <= n <= 99
    ensures ParamText(Scalar(n)) == ""
  {
    ScalarText(n);
  }

  /** A parameter text holds only digits, minus signs and spaces. */
  lemma ParamTextChars(v: Param)
    ensures forall i :: 0 <= i < |ParamText(v)| ==> PayloadChar(ParamText(v)[i])
    ensures IsAscii(ParamText(v))
  {
    match v
    case Scalar(n) =>
      ScalarText(n);
    case Vector(xs) =>
      VectorText(xs);
      JoinedNumeralChars(Numerals(xs));
  }

  /** A list parameter splits on spaces and parses back to the list, unless it is empty. */
  lemma {:induction false} VectorRoundTrip(xs: seq<int>)
    requires |xs| > 0
    ensures ParseInts(ParamText(Vector(xs))) == Some(xs)
  {
    VectorText(xs);
    forall k | 0 <= k < |xs| ensures ' ' !in Numerals(xs)[k] {
      assert Numerals(xs)[k] == DecimalText(xs[k]);
    }
    SplitJoin(Numerals(xs), ' ');
    ParseAllNumerals(xs);
  }

  /** The empty list is sent as an empty text, which does not parse back. */
  lemma EmptyVectorLost()
    ensures ParamText(Vector([])) == "" && ParseInts(ParamText(Vector([]))) == None
  {
    assert Split("", ' ') == [""];
  }

  /** Without a value the frame is exactly the opcode and CR LF. */
  lemma BareFrame(opcode: seq<byte>)
    ensures Frame(opcode, None) == opcode + [13, 10]
  {
  }

  /**
   * Every frame ends in CR LF, and when the opcode has no LF the frame holds no
   * other LF: it is exactly one line.
   */
  lemma FrameIsOneLine(opcode: seq<byte>, val: Option<Param>)
    requires LF !in opcode
    ensures var f := Frame(opcode, val);
            |f| >= 2 && f[|f| - 2..] == Terminator && LF !in f[..|f| - 1]
  {
    var f := Frame(opcode, val);
    var mid := f[|opcode|..|f| - 2];
    assert f == opcode + mid + Terminator;
    if val.Some? {
      ParamTextChars(val.value);
      var text := ParamText(val.value);
      assert mid == [Space] + Ascii(text);
      forall i | 0 <= i < |mid| ensures mid[i] != LF {
        if i > 0 {
          assert mid[i] as int == text[i - 1] as int;
          assert PayloadChar(text[i - 1]);
        }
      }
    }
    assert f[..|f| - 1] == opcode + mid + [CR];
  }

  /**
   * Reads a list back from a frame sent with `opcode`: the bytes between the
   * opcode's space and the final CR LF, split on spaces and parsed.
   */
  function DecodeVectorFrame(opcode: seq<byte>, f: seq<byte>): Option<seq<int>> {
    if |f| >= |opcode| + 3 && f[..|opcode| + 1] == opcode + [Space] && f[|f| - 2..] == Terminator
    then ParseInts(Latin1(f[|opcode| + 1..|f| - 2]))
    else None
  }

  /** A non-empty list survives framing. */
  lemma FramedVectorRoundTrip(opcode: seq<byte>, xs: seq<int>)
    requires |xs| > 0
    ensures DecodeVectorFrame(opcode, Frame(opcode, Some(Vector(xs)))) == Some(xs)
  {
    ParamTextChars(Vector(xs));
    var text := ParamText(Vector(xs));
    var f := Frame(opcode, Some(Vector(xs)));
    assert f == opcode + [Space] + Ascii(text) + Terminator;
    assert f[..|opcode| + 1] == opcode + [Space];
    assert f[|opcode| + 1..|f| - 2] == Ascii(text);
    AsciiRoundTrip(text);
    VectorRoundTrip(xs);
  }
}
