/**
 * The pieces of Python's text and bytes handling the client relies on:
 * `bytes(s, 'Ascii')`, `str(n)` of an integer, `int(s)` on a decimal numeral,
 * `sep.join(parts)`, `s.split(sep)` and `s.replace(c, '')`.
 */
module Text {
  import opened Wrappers

  /** One element of a Python `bytes` value. */
  newtype byte = b: int | 0 <= b < 256

  predicate IsAscii(s: string) {
    forall i :: 0 <= i < |s| ==> s[i] as int < 128
  }

  /** `bytes(s, 'Ascii')`; Python raises on non-ASCII text, so it is required away. */
  function Ascii(s: string): (b: seq<byte>)
    requires IsAscii(s)
    ensures |b| == |s| && forall i :: 0 <= i < |s| ==> b[i] as int == s[i] as int
  {
    seq(|s|, i requires 0 <= i < |s| => s[i] as int as byte)
  }

  /** Bytes read back as text, one character per byte. */
  function Latin1(b: seq<byte>): (s: string)
    ensures |s| == |b| && forall i :: 0 <= i < |b| ==> s[i] as int == b[i] as int
  {
    seq(|b|, i requires 0 <= i < |b| => b[i] as int as char)
  }

  lemma AsciiRoundTrip(s: string)
    requires IsAscii(s)
    ensures Latin1(Ascii(s)) == s
  {
    var t := Latin1(Ascii(s));
    assert |t| == |s|;
    forall i | 0 <= i < |s| ensures t[i] == s[i] {
      assert t[i] as int == s[i] as int;
    }
  }

  /** Position of the first occurrence of `x` in `s`. */
  function IndexOf<T(==)>(s: seq<T>, x: T): (i: nat)
    requires x in s
    ensures i < |s| && s[i] == x && x !in s[..i]
  {
    if s[0] == x then 0
    else
      var j := IndexOf(s[1..], x);
      assert s[..j + 1] == [s[0]] + s[1..][..j];
      1 + j
  }

  predicate IsDigit(c: char) { '0' <= c <= '9' }

  /** A character that can occur in `str(n)` of an integer `n`. */
  predicate NumeralChar(c: char) { IsDigit(c) || c == '-' }

  function DigitChar(d: nat): (c: char)
    requires d < 10
    ensures IsDigit(c) && c as int - '0' as int == d
  {
    (d + '0' as int) as char
  }

  function DigitValue(c: char): (d: nat)
    requires IsDigit(c)
    ensures d < 10 && DigitChar(d) == c
  {
    c as int - '0' as int
  }

  /** Decimal digits of `n`, most significant first, without leading zeros. */
  function Digits(n: nat): (s: string)
    ensures |s| >= 1 && forall i :: 0 <= i < |s| ==> IsDigit(s[i])
    ensures |s| > 1 ==> s[0] != '0'
    ensures |s| == 1 <==> n < 10
  {
    if n < 10 then [DigitChar(n)] else Digits(n / 10) + [DigitChar(n % 10)]
  }

  /** `str(n)` for a Python int: an optional `-` followed by the digits of `|n|`. */
  function DecimalText(n: int): (s: string)
    ensures |s| >= 1 && forall i :: 0 <= i < |s| ==> NumeralChar(s[i])
  {
    if n < 0 then "-" + Digits(-n) else Digits(n)
  }

  predicate AllDigits(s: string) {
    |s| >= 1 && forall i :: 0 <= i < |s| ==> IsDigit(s[i])
  }

  function DigitsValue(s: string): nat
    requires AllDigits(s)
  {
    if |s| == 1 then DigitValue(s[0])
    else DigitsValue(s[..|s| - 1]) * 10 + DigitValue(s[|s| - 1])
  }

  /**
   * `int(s)` on a numeral made of an optional `-` and decimal digits; anything else
   * (Python's `ValueError`) is `None`. Python's tolerance of surrounding whitespace,
   * `+` and `_` is not part of this model.
   */
  function ParseDecimal(s: string): Option<int> {
    if |s| >= 1 && s[0] == '-' then
      if AllDigits(s[1..]) then var v: int := DigitsValue(s[1..]); Some(-v) else None
    else if AllDigits(s) then Some(DigitsValue(s))
    else None
  }

  lemma {:induction false} DigitsRoundTrip(n: nat)
    ensures DigitsValue(Digits(n)) == n
  {
    if n >= 10 {
      var s := Digits(n);
      assert s[..|s| - 1] == Digits(n / 10);
      DigitsRoundTrip(n / 10);
    }
  }

  /** `int(str(n)) == n` for every integer. */
  lemma DecimalRoundTrip(n: int)
    ensures ParseDecimal(DecimalText(n)) == Some(n)
  {
    if n < 0 {
      assert DecimalText(n)[1..] == Digits(-n);
      DigitsRoundTrip(-n);
    } else {
      DigitsRoundTrip(n);
    }
  }

  /** `sep.join(parts)`. */
  function Join(parts: seq<string>, sep: string): string {
    if |parts| == 0 then ""
    else if |parts| == 1 then parts[0]
    else parts[0] + sep + Join(parts[1..], sep)
  }

  /** `s.split(sep)` for a one-character separator: never empty, `"".split(c) == [""]`. */
  function Split(s: string, sep: char): (parts: seq<string>)
    ensures |parts| >= 1
    decreases |s|
  {
    if sep in s then
      var i := IndexOf(s, sep);
      [s[..i]] + Split(s[i + 1..], sep)
    else [s]
  }

  /** `s.replace(c, '')`. */
  function Without(s: string, c: char): string {
    if |s| == 0 then ""
    else (if s[0] == c then "" else [s[0]]) + Without(s[1..], c)
  }

  /** The texts `str(x)` of each element of `xs`. */
  function Numerals(xs: seq<int>): (ts: seq<string>)
    ensures |ts| == |xs| && forall i :: 0 <= i < |xs| ==> ts[i] == DecimalText(xs[i])
  {
    seq(|xs|, i requires 0 <= i < |xs| => DecimalText(xs[i]))
  }

  /** `[int(t) for t in parts]`, `None` when some part is not a numeral. */
  function ParseAll(parts: seq<string>): Option<seq<int>> {
    if |parts| == 0 then Some([])
    else
      match (ParseDecimal(parts[0]), ParseAll(parts[1..]))
      case (Some(x), Some(xs)) => Some([x] + xs)
      case _ => None
  }

  /** `[int(t) for t in s.split(' ')]`. */
  function ParseInts(s: string): Option<seq<int>> {
    ParseAll(Split(s, ' '))
  }

  // ---- lemmas about joining, splitting and removing characters ----

  lemma {:induction false} SplitJoin(parts: seq<string>, c: char)
    requires |parts| >= 1
    requires forall k :: 0 <= k < |parts| ==> c !in parts[k]
    ensures Split(Join(parts, [c]), c) == parts
  {
    if |parts| == 1 {
      assert Join(parts, [c]) == parts[0];
    } else {
      var p := parts[0];
      var rest := Join(parts[1..], [c]);
      var s := Join(parts, [c]);
      assert s == p + [c] + rest;
      assert s[|p|] == c;
      var i := IndexOf(s, c);
      assert forall j :: 0 <= j < |p| ==> s[j] == p[j];
      assert s[..i] == p;
      assert s[i + 1..] == rest;
      SplitJoin(parts[1..], c);
    }
  }

  lemma {:induction false} WithoutConcat(a: string, b: string, c: char)
    ensures Without(a + b, c) == Without(a, c) + Without(b, c)
  {
    if |a| > 0 {
      assert (a + b)[1..] == a[1..] + b;
      WithoutConcat(a[1..], b, c);
    } else {
      assert a + b == b;
    }
  }

  lemma {:induction false} WithoutAbsent(s: string, c: char)
    requires c !in s
    ensures Without(s, c) == s
  {
    if |s| > 0 {
      WithoutAbsent(s[1..], c);
    }
  }

  /** Removing the commas of `', '.join(parts)` leaves `' '.join(parts)`. */
  lemma {:induction false} WithoutCommasJoin(parts: seq<string>)
    requires forall k :: 0 <= k < |parts| ==> ',' !in parts[k]
    ensures Without(Join(parts, ", "), ',') == Join(parts, " ")
  {
    if |parts| == 1 {
      WithoutAbsent(parts[0], ',');
    } else if |parts| > 1 {
      var p := parts[0];
      var rest := Join(parts[1..], ", ");
      WithoutConcat(p + ", ", rest, ',');
      WithoutConcat(p, ", ", ',');
      WithoutAbsent(p, ',');
      WithoutCommasJoin(parts[1..]);
    }
  }

  lemma {:induction false} ParseAllNumerals(xs: seq<int>)
    ensures ParseAll(Numerals(xs)) == Some(xs)
  {
    if |xs| > 0 {
      DecimalRoundTrip(xs[0]);
      assert Numerals(xs)[1..] == Numerals(xs[1..]);
      ParseAllNumerals(xs[1..]);
      assert [xs[0]] + xs[1..] == xs;
    }
  }

  /** Every character of `' '.join` of integer texts is a digit, `-` or a space. */
  lemma {:induction false} JoinedNumeralChars(parts: seq<string>)
    requires forall k, i :: 0 <= k < |parts| && 0 <= i < |parts[k]| ==> NumeralChar(parts[k][i])
    ensures forall i :: 0 <= i < |Join(parts, " ")| ==> NumeralChar(Join(parts, " ")[i]) || Join(parts, " ")[i] == ' '
  {
    if |parts| > 1 {
      JoinedNumeralChars(parts[1..]);
      var s := Join(parts, " ");
      var rest := Join(parts[1..], " ");
      assert s == parts[0] + " " + rest;
      forall i | 0 <= i < |s| ensures NumeralChar(s[i]) || s[i] == ' ' {
        if i < |parts[0]| {
          assert s[i] == parts[0][i];
        } else if i > |parts[0]| {
          assert s[i] == rest[i - |parts[0]| - 1];
        }
      }
    }
  }
}
