/** An optional value, for lookups and conversions that can fail. */
module Options {
  datatype Option<+T> = None | Some(value: T)
}

/** The string helpers the invoice form relies on: Python's whitespace
    stripping, single-character replacement, and decimal numerals as
    produced by str() on an integer. */
module Text {

  /** The characters Python's str.isspace() accepts; str.strip() with no
      argument removes exactly these from both ends. */
  predicate IsSpace(c: char) {
    c == ' ' || '\t' <= c <= '\r' || '\U{1C}' <= c <= '\U{1F}'
    || c == '\U{85}' || c == '\U{A0}' || c == '\U{1680}'
    || '\U{2000}' <= c <= '\U{200A}' || c == '\U{2028}' || c == '\U{2029}'
    || c == '\U{202F}' || c == '\U{205F}' || c == '\U{3000}'
  }

  predicate AllSpace(s: string) {
    forall k :: 0 <= k < |s| ==> IsSpace(s[k])
  }

  /** How many whitespace characters s starts with. */
  function LeadingSpace(s: string): (n: nat)
    ensures n <= |s| && AllSpace(s[..n])
    ensures n < |s| ==> !IsSpace(s[n])
  {
    if s == [] || !IsSpace(s[0]) then 0
    else
      var m := LeadingSpace(s[1..]);
      assert s[..m + 1] == [s[0]] + s[1..][..m];
      m + 1
  }

  /** How many whitespace characters s ends with. */
  function TrailingSpace(s: string): (n: nat)
    ensures n <= |s| && AllSpace(s[|s| - n..])
    ensures n < |s| ==> !IsSpace(s[|s| - n - 1])
  {
    if s == [] || !IsSpace(s[|s| - 1]) then 0
    else
      var init := s[..|s| - 1];
      var m := TrailingSpace(init);
      assert s[|s| - (m + 1)..] == init[|init| - m..] + [s[|s| - 1]];
      m + 1
  }

  /** Python's s.strip(): the longest middle part of s that neither starts
      nor ends with whitespace, everything around it being whitespace. */
  function Strip(s: string): (r: string)
    ensures var i := LeadingSpace(s);
      i + |r| <= |s| && r == s[i..i + |r|] && AllSpace(s[..i]) && AllSpace(s[i + |r|..])
    ensures r == [] || (!IsSpace(r[0]) && !IsSpace(r[|r| - 1]))
  {
    var i, j := LeadingSpace(s), TrailingSpace(s);
    if i == |s| then
      []
    else
      s[i..|s| - j]
  }

  /** Strip gives the empty string exactly when s is blank. */
  lemma StripEmptyIffBlank(s: string)
    ensures Strip(s) == [] <==> AllSpace(s)
  {
    var i := LeadingSpace(s);
    if Strip(s) == [] {
      assert i == |s| && s[..i] == s;
    } else {
      assert Strip(s)[0] == s[i];
    }
  }

  /** Stripping twice is stripping once. */
  lemma StripIdempotent(s: string)
    ensures Strip(Strip(s)) == Strip(s)
  {
    var r := Strip(s);
    if r != [] {
      assert LeadingSpace(r) == 0;
      assert TrailingSpace(r) == 0;
    }
  }

  /** Python's s.replace(x, y) for single characters x and y: every x
      becomes y and nothing else changes. */
  function Replace(s: string, x: char, y: char): (r: string)
    ensures |r| == |s|
    ensures forall k :: 0 <= k < |s| ==> r[k] == (if s[k] == x then y else s[k])
    ensures x != y ==> x !in r
  {
    if s == [] then [] else [if s[0] == x then y else s[0]] + Replace(s[1..], x, y)
  }

  predicate IsDigit(c: char) {
    '0' <= c <= '9'
  }

  predicate AllDigits(s: string) {
    forall k :: 0 <= k < |s| ==> IsDigit(s[k])
  }

  function DigitChar(d: nat): (c: char)
    requires d < 10
    ensures IsDigit(c) && DigitValue(c) == d
  {
    ('0' as int + d) as char
  }

  function DigitValue(c: char): (d: nat)
    requires IsDigit(c)
    ensures d < 10
  {
    c as int - '0' as int
  }

  function Pow10(n: nat): (p: nat)
    ensures p >= 1
  {
    if n == 0 then 1 else 10 * Pow10(n - 1)
  }

  /** Python's str(n) for a non-negative integer: decimal digits, with no
      leading zero except for zero itself. */
  function NatToString(n: nat): (r: string)
    ensures |r| >= 1 && AllDigits(r)
    ensures n > 0 ==> r[0] != '0'
  {
    if n < 10 then [DigitChar(n)] else NatToString(n / 10) + [DigitChar(n % 10)]
  }

  /** Python's str(i) for any integer. */
  function IntToString(i: int): (r: string)
    ensures i >= 0 ==> r == NatToString(i)
    ensures i < 0 ==> r == "-" + NatToString(-i)
  {
    if i >= 0 then NatToString(i) else "-" + NatToString(-i)
  }

  /** The number a string of decimal digits denotes; the empty string
      denotes 0. */
  function ParseNat(s: string): nat
    requires AllDigits(s)
  {
    if s == [] then 0 else 10 * ParseNat(s[..|s| - 1]) + DigitValue(s[|s| - 1])
  }

  lemma {:induction false} ParseNatOfNatToString(n: nat)
    ensures ParseNat(NatToString(n)) == n
  {
    if n >= 10 {
      var s := NatToString(n);
      assert s[..|s| - 1] == NatToString(n / 10);
      ParseNatOfNatToString(n / 10);
    }
  }

  lemma {:induction false} ParseNatAppend(a: string, b: string)
    requires AllDigits(a) && AllDigits(b)
    ensures ParseNat(a + b) == ParseNat(a) * Pow10(|b|) + ParseNat(b)
  {
    if b == [] {
      assert a + b == a;
    } else {
      var c := a + b;
      var init := b[..|b| - 1];
      var d := DigitValue(b[|b| - 1]);
      assert c[..|c| - 1] == a + init;
      assert c[|c| - 1] == b[|b| - 1];
      assert ParseNat(c) == 10 * ParseNat(a + init) + d;
      assert ParseNat(b) == 10 * ParseNat(init) + d;
      assert Pow10(|b|) == 10 * Pow10(|init|);
      ParseNatAppend(a, init);
      ShiftDigit(ParseNat(a), Pow10(|init|), ParseNat(init), d);
    }
  }

  lemma ShiftDigit(x: int, p: int, y: int, d: int)
    ensures 10 * (x * p + y) + d == x * (10 * p) + (10 * y + d)
  {
  }

  /** Leading zeros do not change the value of a numeral. */
  lemma {:induction false} ParseNatZeros(k: nat)
    ensures AllDigits(Zeros(k)) && ParseNat(Zeros(k)) == 0
  {
    if k > 0 {
      assert Zeros(k)[..k - 1] == Zeros(k - 1);
      ParseNatZeros(k - 1);
    }
  }

  /** The numeral of n fits in w digits exactly when n < 10^w. */
  lemma {:induction false} NatToStringFits(n: nat, w: nat)
    requires w >= 1
    ensures |NatToString(n)| <= w <==> n < Pow10(w)
  {
    if n >= 10 {
      if w == 1 {
        assert |NatToString(n)| == |NatToString(n / 10)| + 1;
        assert Pow10(1) == 10;
      } else {
        NatToStringFits(n / 10, w - 1);
      }
    } else {
      PowAtLeastTen(w);
    }
  }

  lemma {:induction false} PowAtLeastTen(w: nat)
    requires w >= 1
    ensures Pow10(w) >= 10
  {
    if w > 1 {
      PowAtLeastTen(w - 1);
    }
  }

  function Zeros(k: nat): (r: string)
    ensures |r| == k && forall j :: 0 <= j < k ==> r[j] == '0'
  {
    seq(k, _ => '0')
  }

  /** The numeral of n left-padded with zeros to at least w characters, as
      strftime's %Y, %m and %d print a date's fields. */
  function Pad(n: nat, w: nat): (r: string)
    ensures AllDigits(r) && |r| >= w
  {
    var s := NatToString(n);
    if |s| < w then Zeros(w - |s|) + s else s
  }

  /** A padded numeral reads back as the number, and is exactly w
      characters long when the number fits in w digits. */
  lemma PadRoundTrip(n: nat, w: nat)
    ensures ParseNat(Pad(n, w)) == n
    ensures w >= 1 && n < Pow10(w) ==> |Pad(n, w)| == w
  {
    var s := NatToString(n);
    ParseNatOfNatToString(n);
    if |s| < w {
      ParseNatZeros(w - |s|);
      ParseNatAppend(Zeros(w - |s|), s);
    }
    if w >= 1 && n < Pow10(w) {
      NatToStringFits(n, w);
    }
  }
}
