/** Money arithmetic of the invoice: the line amount (quantity times rate)
    and the grand total over a table's Amount column. Money is an exact
    real; the values a table cell may hold, and Python's float() conversion
    of them, are modelled so that the defensive paths of the source have
    something to skip. */
module Numeric {
  import opened Options
  import opened Text

  /** A table cell as float() sees it: a number, a string, or None. */
  datatype Value = Num(x: real) | Str(s: string) | Null

  /** The index of the first c in s, or |s| when there is none. */
  function FirstIndex(s: string, c: char): (i: nat)
    ensures i <= |s| && (i < |s| ==> s[i] == c)
    ensures forall k :: 0 <= k < i ==> s[k] != c
  {
    if s == [] then 0 else if s[0] == c then 0 else 1 + FirstIndex(s[1..], c)
  }

  /** An unsigned decimal numeral: digits, optionally a point and more
      digits, with at least one digit in all ("7", "7.", ".5", "7.25"). */
  function ParseUnsigned(t: string): (r: Option<real>)
    ensures r.Some? ==> r.value >= 0.0
  {
    var i := FirstIndex(t, '.');
    var whole := t[..i];
    var frac := if i < |t| then t[i + 1..] else "";
    if AllDigits(whole) && AllDigits(frac) && |whole| + |frac| > 0 then
      Some(ParseNat(whole) as real + Fraction(frac))
    else
      None
  }

  /** The strings ParseUnsigned accepts, described without FirstIndex: not
      empty and not a lone point, only digits and points, and at most one
      point. */
  predicate Numeral(t: string) {
    && t != [] && t != "."
    && (forall k :: 0 <= k < |t| ==> IsDigit(t[k]) || t[k] == '.')
    && (forall i, j :: 0 <= i < j < |t| && t[i] == '.' ==> t[j] != '.')
  }

  /** An unsigned numeral converts exactly when it is a Numeral: "7a",
      "abc", "7.2.5", "." and "" do not. */
  lemma UnsignedIffNumeral(t: string)
    ensures ParseUnsigned(t).Some? <==> Numeral(t)
  {
    var i := FirstIndex(t, '.');
    var whole := t[..i];
    var frac := if i < |t| then t[i + 1..] else "";
    if ParseUnsigned(t).Some? {
      assert AllDigits(whole) && AllDigits(frac) && |whole| + |frac| > 0;
      assert forall k :: 0 <= k < |t| && k != i ==> IsDigit(t[k]) by {
        forall k | 0 <= k < |t| && k != i
          ensures IsDigit(t[k])
        {
          if k < i {
            assert t[k] == whole[k];
          } else {
            assert t[k] == frac[k - i - 1];
          }
        }
      }
    }
    if Numeral(t) {
      NumeralParts(t);
    }
  }

  /** The two parts ParseUnsigned cuts a Numeral into are digits, and not
      both empty. */
  lemma NumeralParts(t: string)
    requires Numeral(t)
    ensures var i := FirstIndex(t, '.');
      && AllDigits(t[..i])
      && (i < |t| ==> AllDigits(t[i + 1..]))
      && (i < |t| ==> |t| > 1)
  {
    var i := FirstIndex(t, '.');
    forall k | 0 <= k < i
      ensures IsDigit(t[..i][k])
    {
      assert t[..i][k] == t[k] != '.';
    }
    if i < |t| {
      var frac := t[i + 1..];
      forall k | 0 <= k < |frac|
        ensures IsDigit(frac[k])
      {
        assert frac[k] == t[i + 1 + k];
        assert t[i] == '.';
      }
    }
  }

  /** The value of the digits after a decimal point: "25" is 0.25. */
  function Fraction(digits: string): (x: real)
    requires AllDigits(digits)
    ensures 0.0 <= x < 1.0
  {
    if digits == [] then 0.0 else (DigitValue(digits[0]) as real + Fraction(digits[1..])) / 10.0
  }

  /** x times the scale p. */
  function Scaled(x: real, p: nat): real {
    x * (p as real)
  }

  /** Digits after a point denote their numeral over a power of ten:
      "25" scaled by 100 is 25. */
  lemma {:induction false} FractionValue(d: string)
    requires AllDigits(d)
    ensures Scaled(Fraction(d), Pow10(|d|)) == ParseNat(d) as real
  {
    if d != [] {
      FractionValue(d[1..]);
      FractionUnfold(d);
      NumeralUnfold(d);
    } else {
      assert Fraction(d) == 0.0 && Pow10(|d|) == 1 && ParseNat(d) == 0;
    }
  }

  /** The first digit after the point carries a tenth of the scale. */
  lemma FractionUnfold(d: string)
    requires AllDigits(d) && d != []
    ensures Scaled(Fraction(d), Pow10(|d|))
      == Scaled(DigitValue(d[0]) as real, Pow10(|d[1..]|)) + Scaled(Fraction(d[1..]), Pow10(|d[1..]|))
  {
    assert Pow10(|d|) == 10 * Pow10(|d[1..]|);
    ScaledShift(Fraction(d), DigitValue(d[0]) as real, Fraction(d[1..]), Pow10(|d[1..]|));
  }

  /** The leading digit of a numeral counts Pow10 of the rest's length. */
  lemma NumeralUnfold(d: string)
    requires AllDigits(d) && d != []
    ensures ParseNat(d) as real
      == Scaled(DigitValue(d[0]) as real, Pow10(|d[1..]|)) + ParseNat(d[1..]) as real
  {
    var c, rest := d[0], d[1..];
    assert d == [c] + rest;
    assert ParseNat([c]) == DigitValue(c) by {
      assert [c][..0] == [];
    }
    ParseNatAppend([c], rest);
    CastScaled(DigitValue(c), Pow10(|rest|));
  }

  lemma ScaledShift(a: real, b: real, x: real, q: nat)
    requires a == (b + x) / 10.0
    ensures Scaled(a, 10 * q) == Scaled(b, q) + Scaled(x, q)
  {
  }

  lemma CastScaled(a: nat, q: nat)
    ensures (a * q) as real == Scaled(a as real, q)
  {
  }

  /** A numeral with a point, "w.f", is w plus the value of the digits f. */
  lemma PointedNumeral(w: string, f: string)
    requires AllDigits(w) && AllDigits(f) && |w| + |f| > 0
    ensures ParseUnsigned(w + "." + f) == Some(ParseNat(w) as real + Fraction(f))
  {
    PointSplits(w, f);
    UnsignedParts(w + "." + f, w, f);
  }

  /** The first point of w + "." + f is the one between w and f. */
  lemma PointSplits(w: string, f: string)
    requires AllDigits(w)
    ensures var t := w + "." + f;
      FirstIndex(t, '.') == |w| && t[..|w|] == w && t[|w| + 1..] == f
  {
    var t := w + "." + f;
    FirstIndexAt(w, '.', f);
    assert t[..|w|] == w && t[|w| + 1..] == f;
  }

  /** ParseUnsigned once the point's place is known. */
  lemma UnsignedParts(t: string, w: string, f: string)
    requires FirstIndex(t, '.') == |w| < |t| && t[..|w|] == w && t[|w| + 1..] == f
    requires AllDigits(w) && AllDigits(f) && |w| + |f| > 0
    ensures ParseUnsigned(t) == Some(ParseNat(w) as real + Fraction(f))
  {
  }

  lemma FirstIndexAt(w: string, c: char, f: string)
    requires forall k :: 0 <= k < |w| ==> w[k] != c
    ensures FirstIndex(w + [c] + f, c) == |w|
  {
    var t := w + [c] + f;
    assert t[|w|] == c;
  }

  /** float("7.25") is 7.25. */
  lemma SevenAndAQuarter()
    ensures ParseDecimal("7.25") == Some(7.25)
  {
    UnsignedSevenAndAQuarter();
    assert Strip("7.25") == "7.25" by {
      assert !IsSpace('7') && !IsSpace('5');
      assert LeadingSpace("7.25") == 0 && TrailingSpace("7.25") == 0;
    }
  }

  lemma UnsignedSevenAndAQuarter()
    ensures ParseUnsigned("7.25") == Some(7.25)
  {
    var w, f := "7", "25";
    assert ParseNat(w) == 7 by {
      assert w[..0] == [];
    }
    assert ParseNat(f) == 25 by {
      assert f[..1] == "2" && "2"[..0] == [];
    }
    assert Fraction(f) == 0.25 by {
      FractionValue(f);
      assert Pow10(|f|) == 100;
    }
    assert "7.25" == w + "." + f;
    PointedNumeral(w, f);
  }

  /** float(s) for a string: surrounding whitespace is ignored and one
      leading sign is allowed. It converts exactly when the stripped text is
      a Numeral, possibly behind one sign; the numeral gives the value, and
      a minus negates it. */
  function ParseDecimal(s: string): (r: Option<real>)
    ensures ParseUnsigned(Strip(s)).Some? ==> r == ParseUnsigned(Strip(s))
    ensures var t := Strip(s);
      |t| > 0 && IsSign(t[0]) && ParseUnsigned(t[1..]).Some? ==>
        r == Some(if t[0] == '-' then -ParseUnsigned(t[1..]).value else ParseUnsigned(t[1..]).value)
    ensures r.Some? <==> SignedNumeral(Strip(s))
    ensures r.Some? ==> Strip(s) != [] && (r.value < 0.0 ==> Strip(s)[0] == '-')
  {
    Signed(Strip(s))
  }

  predicate IsSign(c: char) {
    c == '-' || c == '+'
  }

  /** A Numeral, or one sign followed by a Numeral. */
  predicate SignedNumeral(t: string) {
    Numeral(t) || (|t| > 0 && IsSign(t[0]) && Numeral(t[1..]))
  }

  /** A numeral behind at most one sign. */
  function Signed(t: string): (r: Option<real>)
    ensures ParseUnsigned(t).Some? ==> r == ParseUnsigned(t)
    ensures |t| > 0 && IsSign(t[0]) && ParseUnsigned(t[1..]).Some? ==>
      r == Some(if t[0] == '-' then -ParseUnsigned(t[1..]).value else ParseUnsigned(t[1..]).value)
    ensures r.Some? <==> SignedNumeral(t)
    ensures r.Some? ==> t != [] && (r.value < 0.0 ==> t[0] == '-')
  {
    UnsignedIffNumeral(t);
    if |t| > 0 && IsSign(t[0]) then
      SignIsNotUnsigned(t);
      UnsignedIffNumeral(t[1..]);
      match ParseUnsigned(t[1..])
      case None => None
      case Some(x) => Some(if t[0] == '-' then -x else x)
    else
      ParseUnsigned(t)
  }

  /** Example: float("-7") is -7.0 and float("+7") is 7.0. */
  lemma SignedSeven()
    ensures ParseDecimal("-7") == Some(-7.0) && ParseDecimal("+7") == Some(7.0)
  {
    StripOfTrimmed("-7");
    StripOfTrimmed("+7");
    UnsignedOfDigits("7");
    assert ParseNat("7") == 7 by {
      assert "7"[..0] == [];
    }
    assert "-7"[1..] == "7" && "+7"[1..] == "7";
  }

  /** Example: "7a" and "abc" do not convert; the fallback loop skips
      such cells. */
  lemma NotNumerals()
    ensures ParseDecimal("7a").None? && ParseDecimal("abc").None?
  {
    StripOfTrimmed("7a");
    StripOfTrimmed("abc");
    assert !SignedNumeral("7a") by {
      assert !IsDigit("7a"[1]) && !IsSign("7a"[0]);
    }
    assert !SignedNumeral("abc") by {
      assert !IsDigit("abc"[0]) && !IsSign("abc"[0]);
    }
  }

  /** A numeral never starts with a sign. */
  lemma SignIsNotUnsigned(t: string)
    requires |t| > 0 && IsSign(t[0])
    ensures ParseUnsigned(t).None?
  {
    var i := FirstIndex(t, '.');
    if 0 < i {
      assert !IsDigit(t[..i][0]);
    }
  }

  /** Stripping first changes nothing: float() ignores the whitespace
      around a numeral. */
  lemma SurroundingSpaceIgnored(s: string)
    ensures ParseDecimal(Strip(s)) == ParseDecimal(s)
  {
    StripIdempotent(s);
  }

  /** float(v), or None where float() raises ValueError or TypeError: a
      number is itself, None raises, and a string is parsed. */
  function ToFloat(v: Value): (r: Option<real>)
    ensures v.Num? ==> r == Some(v.x)
    ensures v.Null? ==> r.None?
  {
    match v
    case Num(x) => Some(x)
    case Str(s) => ParseDecimal(s)
    case Null => None
  }

  /** calculate_amount: the product of the two converted values, or 0 when
      either conversion fails. */
  function CalculateAmount(quantity: Value, rate: Value): (a: real)
    ensures ToFloat(quantity).Some? && ToFloat(rate).Some? ==>
      a == ToFloat(quantity).value * ToFloat(rate).value
    ensures ToFloat(quantity).None? || ToFloat(rate).None? ==> a == 0.0
  {
    Product(ToFloat(quantity), ToFloat(rate))
  }

  /** The try block of calculate_amount on the converted values: their
      product, or 0 when a conversion raised. */
  function Product(q: Option<real>, r: Option<real>): (a: real)
    ensures q.Some? && r.Some? ==> a == q.value * r.value
    ensures q.None? || r.None? ==> a == 0.0
  {
    if q.Some? && r.Some? then q.value * r.value else 0.0
  }

  /** A numeral printed by str() on an integer converts back to it. */
  lemma NumeralIsNumeric(n: nat)
    ensures ParseDecimal(NatToString(n)) == Some(n as real)
  {
    var s := NatToString(n);
    StripOfDigits(s);
    UnsignedOfDigits(s);
    ParseNatOfNatToString(n);
  }

  lemma StripOfDigits(s: string)
    requires |s| > 0 && AllDigits(s)
    ensures Strip(s) == s
  {
    StripOfTrimmed(s);
  }

  /** A string that neither starts nor ends with whitespace is its own
      stripped form. */
  lemma StripOfTrimmed(s: string)
    requires |s| > 0 && !IsSpace(s[0]) && !IsSpace(s[|s| - 1])
    ensures Strip(s) == s
  {
    assert LeadingSpace(s) == 0 && TrailingSpace(s) == 0;
  }

  lemma UnsignedOfDigits(s: string)
    requires |s| > 0 && AllDigits(s)
    ensures ParseUnsigned(s) == Some(ParseNat(s) as real)
  {
    FirstIndexAbsent(s, '.');
    var i := FirstIndex(s, '.');
    assert i == |s|;
    var whole := s[..i];
    assert whole == s;
    var frac: string := "";
    assert AllDigits(whole) && AllDigits(frac);
    assert Fraction(frac) == 0.0;
  }

  lemma {:induction false} FirstIndexAbsent(s: string, c: char)
    requires forall k :: 0 <= k < |s| ==> s[k] != c
    ensures FirstIndex(s, c) == |s|
  {
    if s != [] {
      FirstIndexAbsent(s[1..], c);
    }
  }

  /** A blank string is not a number. */
  lemma BlankIsNotNumeric(s: string)
    requires AllSpace(s)
    ensures ParseDecimal(s) == None
  {
    StripEmptyIffBlank(s);
  }

  /** What a cell adds to the fallback sum: its value, or nothing. */
  function Contribution(v: Value): real {
    match ToFloat(v)
    case Some(x) => x
    case None => 0.0
  }

  /** The sum of the cells that convert, ignoring the others. */
  function SumNumeric(vs: seq<Value>): real {
    if vs == [] then 0.0 else SumNumeric(vs[..|vs| - 1]) + Contribution(vs[|vs| - 1])
  }

  predicate AllNumeric(vs: seq<Value>) {
    forall k :: 0 <= k < |vs| ==> ToFloat(vs[k]).Some?
  }

  /** astype(float) on a column whose every cell converts. */
  function Converted(vs: seq<Value>): (xs: seq<real>)
    requires AllNumeric(vs)
    ensures |xs| == |vs| && forall k :: 0 <= k < |vs| ==> xs[k] == ToFloat(vs[k]).value
  {
    seq(|vs|, k requires 0 <= k < |vs| => ToFloat(vs[k]).value)
  }

  function SumReals(xs: seq<real>): real {
    if xs == [] then 0.0 else SumReals(xs[..|xs| - 1]) + xs[|xs| - 1]
  }

  /** When every cell converts, the plain sum of the primary path and the
      skipping sum of the fallback path agree. */
  lemma {:induction false} AllNumericSum(vs: seq<Value>)
    requires AllNumeric(vs)
    ensures SumReals(Converted(vs)) == SumNumeric(vs)
  {
    if vs != [] {
      var init := vs[..|vs| - 1];
      assert Converted(vs)[..|vs| - 1] == Converted(init);
      AllNumericSum(init);
    }
  }

  lemma {:induction false} SumNumericAppend(a: seq<Value>, b: seq<Value>)
    ensures SumNumeric(a + b) == SumNumeric(a) + SumNumeric(b)
  {
    if b == [] {
      assert a + b == a;
    } else {
      var init := b[..|b| - 1];
      var last := Contribution(b[|b| - 1]);
      assert (a + b)[..|a + b| - 1] == a + init;
      assert (a + b)[|a + b| - 1] == b[|b| - 1];
      assert SumNumeric(a + b) == SumNumeric(a + init) + last;
      assert SumNumeric(b) == SumNumeric(init) + last;
      SumNumericAppend(a, init);
    }
  }

  /** A cell that does not convert contributes nothing, wherever it sits. */
  lemma SumSkipsNonNumeric(a: seq<Value>, v: Value, b: seq<Value>)
    requires ToFloat(v).None?
    ensures SumNumeric(a + [v] + b) == SumNumeric(a + b)
  {
    SumNumericAppend(a + [v], b);
    SumNumericAppend(a, [v]);
    SumNumericAppend(a, b);
    assert [v][..0] == [];
  }

  /** The total does not depend on the order of the rows. */
  lemma {:induction false} SumNumericPermutation(a: seq<Value>, b: seq<Value>)
    requires multiset(a) == multiset(b)
    ensures SumNumeric(a) == SumNumeric(b)
    decreases |a|
  {
    if a == [] {
      assert |b| == |multiset(b)| == 0;
    } else {
      var x := a[|a| - 1];
      var init := a[..|a| - 1];
      assert a == init + [x];
      assert x in multiset(b);
      var k :| 0 <= k < |b| && b[k] == x;
      var rest := b[..k] + b[k + 1..];
      MultisetWithout(init, x, b, k);
      SumNumericPermutation(init, rest);
      SumNumericAppend(init, [x]);
      SumNumericWithout(b, k);
    }
  }

  /** Taking the same element off both sides keeps two multisets equal. */
  lemma MultisetWithout(init: seq<Value>, x: Value, b: seq<Value>, k: nat)
    requires k < |b| && b[k] == x && multiset(init + [x]) == multiset(b)
    ensures multiset(init) == multiset(b[..k] + b[k + 1..])
  {
    var rest := b[..k] + b[k + 1..];
    assert b == b[..k] + [x] + b[k + 1..];
    calc {
      multiset(init) + multiset{x};
      multiset(init + [x]);
      multiset(b);
      multiset(b[..k]) + multiset{x} + multiset(b[k + 1..]);
      multiset(rest) + multiset{x};
    }
    assert multiset(init) == multiset(init) + multiset{x} - multiset{x};
    assert multiset(rest) == multiset(rest) + multiset{x} - multiset{x};
  }

  /** The sum is the sum without one cell plus that cell's contribution. */
  lemma SumNumericWithout(b: seq<Value>, k: nat)
    requires k < |b|
    ensures SumNumeric(b) == SumNumeric(b[..k] + b[k + 1..]) + Contribution(b[k])
  {
    var p, v, q := b[..k], b[k], b[k + 1..];
    SplitAt(b, k);
    SumNumericAppend(p + [v], q);
    SumNumericAppend(p, [v]);
    SumNumericAppend(p, q);
    SumNumericSingle(v);
  }

  lemma SplitAt(b: seq<Value>, k: nat)
    requires k < |b|
    ensures b == b[..k] + [b[k]] + b[k + 1..]
  {
  }

  lemma SumNumericSingle(v: Value)
    ensures SumNumeric([v]) == Contribution(v)
  {
    assert [v][..0] == [];
  }

  /** A table as calculate_grand_total sees it: a row count and the Amount
      column, which may be missing. */
  datatype Frame = Frame(rows: nat, amount: Option<seq<Value>>) {
    predicate WellFormed() {
      amount.Some? ==> |amount.value| == rows
    }

    /** df.get('Amount', []). */
    function AmountColumn(): seq<Value> {
      if amount.Some? then amount.value else []
    }
  }

  /** What calculate_grand_total returns for a table, None standing for a
      missing table: 0 when there are no rows, else the skipping sum. */
  function GrandTotal(frame: Option<Frame>): real {
    match frame
    case None => 0.0
    case Some(f) => if f.rows == 0 then 0.0 else SumNumeric(f.AmountColumn())
  }

  /** calculate_grand_total: the column's plain sum when every cell
      converts, otherwise a loop that adds the cells that convert. */
  method CalculateGrandTotal(frame: Option<Frame>) returns (total: real)
    requires frame.Some? ==> frame.value.WellFormed()
    ensures total == GrandTotal(frame)
    ensures frame.None? || frame.value.rows == 0 ==> total == 0.0
  {
    if frame.None? || frame.value.rows == 0 {
      return 0.0;
    }
    var f := frame.value;
    if f.amount.Some? && AllNumeric(f.amount.value) {
      AllNumericSum(f.amount.value);
      return SumReals(Converted(f.amount.value));
    }
    var column := f.AmountColumn();
    total := 0.0;
    for i := 0 to |column|
      invariant total == SumNumeric(column[..i])
    {
      assert column[..i + 1][..i] == column[..i];
      match ToFloat(column[i])
      case Some(x) =>
        total := total + x;
      case None =>
    }
    assert column[..|column|] == column;
  }
}
