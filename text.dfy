/** Text helpers shared by the display functions: decimal digits, Python's
    `int()` on a digit string, the `:.2f` price format, and `"\n".join`
    together with its inverse. */
module Text {

  predicate IsDigitChar(c: char) {
    '0' <= c <= '9'
  }

  /** Every character is an ASCII decimal digit (the empty string qualifies). */
  predicate AllDigits(s: string) {
    forall i :: 0 <= i < |s| ==> IsDigitChar(s[i])
  }

  /** Python's `str.isdigit()` restricted to ASCII: non-empty and all digits. */
  predicate IsDigits(s: string) {
    |s| > 0 && AllDigits(s)
  }

  function DigitChar(d: nat): (c: char)
    requires d < 10
    ensures IsDigitChar(c)
  {
    ('0' as int + d) as char
  }

  function DigitValue(c: char): (d: nat)
    requires IsDigitChar(c)
    ensures d < 10 && DigitChar(d) == c
  {
    c as int - '0' as int
  }

  /** Decimal rendering of a natural number, without leading zeros. */
  function NatToString(n: nat): (s: string)
    ensures IsDigits(s)
    ensures |s| > 1 ==> s[0] != '0'
    decreases n
  {
    if n < 10 then [DigitChar(n)] else NatToString(n / 10) + [DigitChar(n % 10)]
  }

  function Pow10(k: nat): (p: nat)
    ensures p >= 1
  {
    if k == 0 then 1 else 10 * Pow10(k - 1)
  }

  /** Python's `int(s)` on a string of decimal digits; leading zeros are allowed.
      A string of k digits denotes a number below 10^k, and at least 10^(k-1)
      when it does not start with a zero. */
  function ParseNat(s: string): (n: nat)
    requires AllDigits(s)
    ensures n < Pow10(|s|)
    ensures |s| > 0 && s[0] != '0' ==> Pow10(|s| - 1) <= n
  {
    if s == [] then 0 else ParseNat(s[..|s| - 1]) * 10 + DigitValue(s[|s| - 1])
  }

  lemma {:induction false} ParseNatOfNatToString(n: nat)
    ensures ParseNat(NatToString(n)) == n
    decreases n
  {
    var s := NatToString(n);
    if n >= 10 {
      assert s[..|s| - 1] == NatToString(n / 10);
      ParseNatOfNatToString(n / 10);
    }
  }

  /** A digit string without a leading zero is the rendering of its own
      value: rendering and parsing are inverse on such strings. */
  lemma {:induction false} DigitsCanonical(s: string)
    requires IsDigits(s) && (|s| == 1 || s[0] != '0')
    ensures NatToString(ParseNat(s)) == s
    decreases |s|
  {
    var n := ParseNat(s);
    var d := DigitValue(s[|s| - 1]);
    if |s| > 1 {
      var t := s[..|s| - 1];
      assert t[0] == s[0];
      DigitsCanonical(t);
      assert n == ParseNat(t) * 10 + d;
      assert n / 10 == ParseNat(t) && n % 10 == d;
      assert s == t + [s[|s| - 1]];
    }
  }

  /** A leading zero does not change the parsed value (`int("07") == 7`). */
  lemma {:induction false} ParseNatLeadingZero(s: string)
    requires AllDigits(s)
    ensures AllDigits("0" + s) && ParseNat("0" + s) == ParseNat(s)
    decreases |s|
  {
    if s != [] {
      assert ("0" + s)[..|s|] == "0" + s[..|s| - 1];
      ParseNatLeadingZero(s[..|s| - 1]);
    }
  }

  /** Appending two digits multiplies by a hundred and adds them. */
  lemma ParseNatTwoMore(t: string, a: char, b: char)
    requires AllDigits(t) && IsDigitChar(a) && IsDigitChar(b)
    ensures AllDigits(t + [a, b])
    ensures ParseNat(t + [a, b]) == ParseNat(t) * 100 + DigitValue(a) * 10 + DigitValue(b)
  {
    assert (t + [a, b])[..|t| + 1] == t + [a];
    assert (t + [a])[..|t|] == t;
  }

  // ---------------------------------------------------------------------
  // The `:.2f` format of a price

  /** The price in whole cents, rounding half up (the argument is non-negative). */
  function RoundCents(x: real): nat
    requires x >= 0.0
  {
    (x * 100.0 + 0.5).Floor
  }

  /** Whole part, a dot, and exactly two decimals. */
  function FormatCents(c: nat): string {
    NatToString(c / 100) + "." + [DigitChar(c % 100 / 10), DigitChar(c % 10)]
  }

  /** The `f"{p:.2f}"` rendering of a price; a negative price gets a leading
      minus sign. At least one digit, a dot and two decimals. */
  function FormatPrice(p: real): (s: string)
    ensures |s| >= 4
  {
    if p < 0.0 then "-" + FormatCents(RoundCents(-p)) else FormatCents(RoundCents(p))
  }

  /** Characters that can occur in a formatted price. */
  predicate IsPriceChar(c: char) {
    IsDigitChar(c) || c == '.' || c == '-'
  }

  /** The cent amount written by FormatCents is read back by removing the dot
      and parsing the digits. */
  lemma FormatCentsRoundTrip(c: nat)
    ensures var s := FormatCents(c);
      && |s| >= 4 && s[|s| - 3] == '.'
      && AllDigits(s[..|s| - 3]) && AllDigits(s[|s| - 2..])
      && ParseNat(s[..|s| - 3] + s[|s| - 2..]) == c
  {
    var s := FormatCents(c);
    var whole := NatToString(c / 100);
    var a, b := DigitChar(c % 100 / 10), DigitChar(c % 10);
    assert s == whole + "." + [a, b];
    assert s[..|s| - 3] == whole;
    assert s[|s| - 2..] == [a, b];
    ParseNatTwoMore(whole, a, b);
    ParseNatOfNatToString(c / 100);
    assert c / 100 * 100 + c % 100 / 10 * 10 + c % 10 == c;
  }

  /** A price given in exact cents is shown with exactly those cents. */
  lemma RoundCentsExact(k: nat)
    ensures RoundCents(k as real / 100.0) == k
  {
    assert (k as real / 100.0) * 100.0 + 0.5 == k as real + 0.5;
  }

  /** A price of a whole number of units below ten is shown as that digit and ".00". */
  lemma FormatPriceWholeUnits(d: nat)
    requires d < 10
    ensures FormatPrice(d as real) == [DigitChar(d)] + ".00"
  {
    assert FormatPrice(d as real) == FormatCents(d * 100) by {
      RoundCentsExact(d * 100);
      assert (d * 100) as real / 100.0 == d as real;
    }
    assert NatToString(d) == [DigitChar(d)];
    assert DigitChar(0) == '0';
  }

  /** The price text ends in a dot and two digits, and starts with a minus
      sign exactly when the price is negative. */
  lemma FormatPriceShape(p: real)
    ensures var s := FormatPrice(p);
      && s[|s| - 3] == '.' && AllDigits(s[|s| - 2..])
      && (p < 0.0 <==> s[0] == '-')
  {
  }

  lemma FormatPriceChars(p: real)
    ensures forall i :: 0 <= i < |FormatPrice(p)| ==> IsPriceChar(FormatPrice(p)[i])
  {
  }

  // ---------------------------------------------------------------------
  // Lines

  /** Python's `"\n".join(ls)`; no lines join to the empty text. */
  function Join(ls: seq<string>): (s: string)
    ensures |ls| == 0 ==> s == ""
  {
    if |ls| == 0 then ""
    else if |ls| == 1 then ls[0]
    else ls[0] + "\n" + Join(ls[1..])
  }

  /** A join begins with its first line and ends with its last one. */
  lemma {:induction false} JoinEnds(ls: seq<string>)
    requires |ls| > 0
    ensures ls[0] <= Join(ls)
    ensures var s := Join(ls); var last := ls[|ls| - 1];
      |last| <= |s| && s[|s| - |last|..] == last
    decreases |ls|
  {
    if |ls| > 1 {
      JoinEnds(ls[1..]);
      ConcatEnds(ls[0] + "\n", Join(ls[1..]));
      PrefixExtends(ls[0], ls[0] + "\n", Join(ls[1..]));
    }
  }

  /** A concatenation begins with its first part and ends with its second. */
  lemma ConcatEnds(a: string, b: string)
    ensures a <= a + b && (a + b)[|a|..] == b
  {
  }

  lemma PrefixExtends(p: string, a: string, b: string)
    requires p <= a
    ensures p <= a + b
  {
  }

  /** Index of the first newline of `s`. */
  function FirstNewline(s: string): (i: nat)
    requires '\n' in s
    ensures i < |s| && s[i] == '\n' && '\n' !in s[..i]
  {
    if s[0] == '\n' then 0
    else
      var j := FirstNewline(s[1..]);
      assert s[..j + 1] == [s[0]] + s[1..][..j];
      j + 1
  }

  /** Python's `s.split("\n")`: the pieces between newlines, always at least one. */
  function Split(s: string): (r: seq<string>)
    ensures |r| > 0
    decreases |s|
  {
    if '\n' !in s then [s]
    else
      var i := FirstNewline(s);
      [s[..i]] + Split(s[i + 1..])
  }

  predicate NoNewline(s: string) {
    '\n' !in s
  }

  /** Joining one more line adds a newline and that line. */
  lemma {:induction false} JoinAppend(ls: seq<string>, x: string)
    requires |ls| > 0
    ensures Join(ls + [x]) == Join(ls) + "\n" + x
    decreases |ls|
  {
    if |ls| > 1 {
      assert (ls + [x])[1..] == ls[1..] + [x];
      JoinAppend(ls[1..], x);
    }
  }

  /** Splitting a join of newline-free lines gives the lines back. */
  lemma {:induction false} SplitJoin(ls: seq<string>)
    requires |ls| > 0
    requires forall i :: 0 <= i < |ls| ==> NoNewline(ls[i])
    ensures Split(Join(ls)) == ls
    decreases |ls|
  {
    if |ls| > 1 {
      assert Join(ls) == ls[0] + "\n" + Join(ls[1..]);
      SplitFirstLine(ls[0], Join(ls[1..]));
      SplitJoin(ls[1..]);
    }
  }

  /** The first piece of a split is the text before the first newline. */
  lemma SplitFirstLine(a: string, rest: string)
    requires NoNewline(a)
    ensures Split(a + "\n" + rest) == [a] + Split(rest)
  {
    var s := a + "\n" + rest;
    var n := |a|;
    assert s[n] == '\n';
    assert FirstNewline(s) == n;
    assert s[..n] == a;
    assert s[n + 1..] == rest;
  }
}
