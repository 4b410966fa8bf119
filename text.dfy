/** Character-level helpers: fixed-width decimal rendering (`%02d`-style
    padding), reading decimals back, Python's `str.split()` without
    arguments, and joining lines. */
module Text {

  predicate IsDigit(c: char) {
    '0' <= c <= '9'
  }

  predicate AllDigits(s: string) {
    forall i :: 0 <= i < |s| ==> IsDigit(s[i])
  }

  function DigitChar(d: nat): (c: char)
    requires d < 10
    ensures IsDigit(c)
  {
    ('0' as int + d) as char
  }

  function DigitValue(c: char): (d: nat)
    requires IsDigit(c)
    ensures d < 10 && DigitChar(d) == c
  {
    c as int - '0' as int
  }

  function Pow10(k: nat): (p: nat)
    ensures p >= 1
  {
    if k == 0 then 1 else 10 * Pow10(k - 1)
  }

  /** The decimal digits of `n`, padded on the left with zeros to at least
      `width` characters; `ZeroPad(7, 2) == "07"`, `ZeroPad(123, 2) == "123"`. */
  function ZeroPad(n: nat, width: nat): (s: string)
    ensures |s| >= 1 && |s| >= width && AllDigits(s)
    decreases n + width
  {
    if n < 10 && width <= 1 then [DigitChar(n)]
    else ZeroPad(n / 10, if width == 0 then 0 else width - 1) + [DigitChar(n % 10)]
  }

  /** The value of a string of decimal digits (the empty string reads as 0). */
  function DecimalValue(s: string): nat
    requires AllDigits(s)
  {
    if s == [] then 0 else DecimalValue(s[..|s| - 1]) * 10 + DigitValue(s[|s| - 1])
  }

  /** Reading back a padded rendering gives the number. */
  lemma {:induction false} ZeroPadRoundTrip(n: nat, width: nat)
    ensures DecimalValue(ZeroPad(n, width)) == n
    decreases n + width
  {
    if !(n < 10 && width <= 1) {
      var w := if width == 0 then 0 else width - 1;
      ZeroPadRoundTrip(n / 10, w);
      var s := ZeroPad(n, width);
      assert s[..|s| - 1] == ZeroPad(n / 10, w);
    }
  }

  /** A number below `10^width` renders in exactly `width` characters. */
  lemma {:induction false} ZeroPadWidth(n: nat, width: nat)
    requires width >= 1 && n < Pow10(width)
    ensures |ZeroPad(n, width)| == width
    decreases width
  {
    if !(n < 10 && width <= 1) {
      ZeroPadWidth(n / 10, width - 1);
    }
  }

  /** Python's `str(n)` for an integer. */
  function IntText(n: int): (s: string)
    ensures s != []
  {
    if n < 0 then "-" + ZeroPad(-n, 1) else ZeroPad(n, 1)
  }

  /** `IntText` is `n` in decimal: its digits read back as `n`, behind a
      minus sign when `n` is negative, and they start with `0` only in
      `"0"` itself. */
  lemma IntTextValue(n: int)
    ensures n >= 0 ==> AllDigits(IntText(n)) && DecimalValue(IntText(n)) == n
    ensures n < 0 ==> && IntText(n)[0] == '-' && AllDigits(IntText(n)[1..])
                      && DecimalValue(IntText(n)[1..]) == -n
    ensures var digits := if n < 0 then IntText(n)[1..] else IntText(n);
      digits != [] && (digits[0] == '0' <==> n == 0)
  {
    var m := if n < 0 then -n else n;
    ZeroPadRoundTrip(m, 1);
    LeadingDigit(m, 1);
    if n < 0 {
      assert IntText(n)[1..] == ZeroPad(-n, 1);
    }
  }

  /** Without padding beyond one digit, the rendering starts with `0` only
      for zero itself. */
  lemma {:induction false} LeadingDigit(n: nat, width: nat)
    requires width <= 1
    ensures ZeroPad(n, width)[0] == '0' <==> n == 0
    decreases n
  {
    if !(n < 10) {
      LeadingDigit(n / 10, 0);
      assert ZeroPad(n, width)[0] == ZeroPad(n / 10, 0)[0];
    }
  }

  /** The characters `str.split()` treats as separators, restricted to ASCII:
      space, tab, line feed, vertical tab, form feed, carriage return and the
      four information separators. */
  predicate IsSpace(c: char) {
    c == ' ' || (9 <= c as int <= 13) || (28 <= c as int <= 31)
  }

  predicate NoSpace(s: string) {
    forall i :: 0 <= i < |s| ==> !IsSpace(s[i])
  }

  /** `s` without its leading separators. */
  function SkipSpaces(s: string): (r: string)
    ensures |r| <= |s|
    ensures r == [] || !IsSpace(r[0])
  {
    if s != [] && IsSpace(s[0]) then SkipSpaces(s[1..]) else s
  }

  /** The length of the run of non-separators that starts `s`. */
  function WordLength(s: string): (k: nat)
    ensures k <= |s|
    ensures k < |s| ==> IsSpace(s[k])
  {
    if s == [] || IsSpace(s[0]) then 0 else 1 + WordLength(s[1..])
  }

  /** Python's `s.split()`: the maximal runs of non-separators, in order. */
  function Split(s: string): seq<string>
    decreases |s|
  {
    var t := SkipSpaces(s);
    if t == [] then []
    else
      var k := WordLength(t);
      [t[..k]] + Split(t[k..])
  }

  lemma {:induction false} WordLengthOfWord(w: string, rest: string)
    requires NoSpace(w)
    requires rest == [] || IsSpace(rest[0])
    ensures WordLength(w + rest) == |w|
  {
    if w != [] {
      assert (w + rest)[1..] == w[1..] + rest;
      WordLengthOfWord(w[1..], rest);
    }
  }

  lemma SplitWordThen(w: string, rest: string)
    requires w != [] && NoSpace(w)
    requires rest == [] || IsSpace(rest[0])
    ensures Split(w + rest) == [w] + Split(rest)
  {
    var s := w + rest;
    assert !IsSpace(s[0]);
    assert SkipSpaces(s) == s;
    WordLengthOfWord(w, rest);
    assert s[..|w|] == w;
    assert s[|w|..] == rest;
  }

  lemma SplitOneWord(w: string)
    requires w != [] && NoSpace(w)
    ensures Split(w) == [w]
  {
    assert w + [] == w;
    SplitWordThen(w, []);
    assert Split([]) == [];
  }

  lemma SplitLeadingSpace(w: string)
    ensures Split(" " + w) == Split(w)
  {
    var u := " " + w;
    assert u[0] == ' ' && u[1..] == w;
    assert SkipSpaces(u) == SkipSpaces(w);
  }

  /** Two words joined by one space split back into those two words. */
  lemma SplitTwoWords(a: string, b: string)
    requires a != [] && b != [] && NoSpace(a) && NoSpace(b)
    ensures Split(a + " " + b) == [a, b]
  {
    var u := " " + b;
    assert u[0] == ' ';
    assert a + " " + b == a + u;
    SplitWordThen(a, u);
    SplitLeadingSpace(b);
    SplitOneWord(b);
    calc {
      Split(a + " " + b);
      [a] + Split(u);
      [a] + [b];
    }
  }

  /** Lines joined end to end, as repeated `message += line` builds them. */
  function Concat(lines: seq<string>): string {
    if lines == [] then "" else Concat(lines[..|lines| - 1]) + lines[|lines| - 1]
  }

  lemma ConcatAppend(lines: seq<string>, line: string)
    ensures Concat(lines + [line]) == Concat(lines) + line
  {
    assert (lines + [line])[..|lines|] == lines;
  }
}
