/** Calendar dates and the two strftime layouts the invoice prints: %Y%m%d
    in the download file name and %Y-%m-%d on the document. The current date
    is not read here; callers pass it in. */
module Dates {
  import opened Text

  datatype Date = Date(year: int, month: int, day: int)

  predicate IsLeapYear(y: int) {
    (y % 4 == 0 && y % 100 != 0) || y % 400 == 0
  }

  function DaysInMonth(y: int, m: int): int
    requires 1 <= m <= 12
  {
    if m == 2 then (if IsLeapYear(y) then 29 else 28)
    else if m == 4 || m == 6 || m == 9 || m == 11 then 30
    else 31
  }

  /** The dates Python's datetime.date can hold. */
  predicate Valid(d: Date) {
    1 <= d.year <= 9999 && 1 <= d.month <= 12 && 1 <= d.day <= DaysInMonth(d.year, d.month)
  }

  /** strftime('%Y%m%d'): eight digits, year then month then day. */
  function Compact(d: Date): (r: string)
    requires Valid(d)
    ensures |r| == 8 && AllDigits(r)
  {
    FieldsFit(d);
    Pad(d.year, 4) + Pad(d.month, 2) + Pad(d.day, 2)
  }

  /** strftime('%Y-%m-%d'): four, two and two digits joined by dashes. */
  function Iso(d: Date): (r: string)
    requires Valid(d)
    ensures |r| == 10 && r[4] == '-' && r[7] == '-'
    ensures AllDigits(r[..4]) && AllDigits(r[5..7]) && AllDigits(r[8..])
  {
    FieldsFit(d);
    var r := Pad(d.year, 4) + "-" + Pad(d.month, 2) + "-" + Pad(d.day, 2);
    assert r[..4] == Pad(d.year, 4) && r[5..7] == Pad(d.month, 2) && r[8..] == Pad(d.day, 2);
    r
  }

  /** Reads an eight-digit %Y%m%d string back into a date. */
  function DecodeCompact(s: string): Date
    requires |s| == 8 && AllDigits(s)
  {
    Date(ParseNat(s[..4]), ParseNat(s[4..6]), ParseNat(s[6..]))
  }

  lemma FieldsFit(d: Date)
    requires Valid(d)
    ensures |Pad(d.year, 4)| == 4 && |Pad(d.month, 2)| == 2 && |Pad(d.day, 2)| == 2
  {
    assert Pow10(4) == 10000 && Pow10(2) == 100;
    PadRoundTrip(d.year, 4);
    PadRoundTrip(d.month, 2);
    PadRoundTrip(d.day, 2);
  }

  /** The compact layout loses nothing: it decodes to the date it came from. */
  lemma CompactRoundTrip(d: Date)
    requires Valid(d)
    ensures DecodeCompact(Compact(d)) == d
  {
    FieldsFit(d);
    var y, m, dd := Pad(d.year, 4), Pad(d.month, 2), Pad(d.day, 2);
    var s := Compact(d);
    assert s[..4] == y && s[4..6] == m && s[6..] == dd;
    PadRoundTrip(d.year, 4);
    PadRoundTrip(d.month, 2);
    PadRoundTrip(d.day, 2);
  }

  /** For one date, dropping the two dashes from the ISO layout gives the
      compact one. */
  lemma IsoWithoutDashesIsCompact(d: Date)
    requires Valid(d)
    ensures var r := Iso(d); r[..4] + r[5..7] + r[8..] == Compact(d)
  {
    FieldsFit(d);
    var r := Iso(d);
    assert r[..4] == Pad(d.year, 4) && r[5..7] == Pad(d.month, 2) && r[8..] == Pad(d.day, 2);
  }
}
