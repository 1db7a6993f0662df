/** The "Generate Invoice" step: when there are items, the document with
    the items' grand total, offered under a file name built from the date
    and the customer's name. */
module Download {
  import opened Options
  import opened Text
  import opened Dates
  import opened Numeric
  import opened Ledger
  import opened Render

  /** The customer part of the file name: the name stripped, its spaces
      turned into underscores, or "customer" when nothing is left. */
  function SafeCustomer(name: string): (r: string)
    ensures r != [] && ' ' !in r
    ensures AllSpace(name) ==> r == "customer"
    ensures !AllSpace(name) ==> Underscores(Strip(name), r)
  {
    var t := Strip(name);
    StripEmptyIffBlank(name);
    if t == [] then
      "customer"
    else
      Underscored(t);
      Replace(t, ' ', '_')
  }

  /** r is t with each space turned into an underscore, and neither starts
      nor ends with whitespace. */
  predicate Underscores(t: string, r: string) {
    && |r| == |t|
    && (forall k :: 0 <= k < |r| ==> r[k] == if t[k] == ' ' then '_' else t[k])
    && r != [] && !IsSpace(r[0]) && !IsSpace(r[|r| - 1])
  }

  /** Turning the spaces of a stripped, non-empty name into underscores
      keeps its first and last characters. */
  lemma Underscored(t: string)
    requires t != [] && !IsSpace(t[0]) && !IsSpace(t[|t| - 1])
    ensures Underscores(t, Replace(t, ' ', '_'))
  {
    var u := Replace(t, ' ', '_');
    assert t[0] != ' ' && t[|t| - 1] != ' ';
    assert u[0] == t[0] && u[|u| - 1] == t[|t| - 1];
  }

  const PREFIX := "invoice_"
  const EXTENSION := ".pdf"

  /** invoice_<%Y%m%d>_<safe customer>.pdf, which reads back: the fixed
      prefix, eight digits that decode to the date, an underscore, the
      customer part and the extension. */
  function Filename(today: Date, name: string): (f: string)
    requires Valid(today)
    ensures |f| == 21 + |SafeCustomer(name)|
    ensures f[..8] == PREFIX
    ensures AllDigits(f[8..16]) && DecodeCompact(f[8..16]) == today
    ensures f[16] == '_'
    ensures f[17..|f| - 4] == SafeCustomer(name)
    ensures f[|f| - 4..] == EXTENSION
  {
    Layout(PREFIX, Compact(today), SafeCustomer(name), EXTENSION);
    CompactRoundTrip(today);
    PREFIX + Compact(today) + "_" + SafeCustomer(name) + EXTENSION
  }

  /** Where the parts of p + d + "_" + c + e sit, stated over plain string
      variables so that the solver does not unfold the file name. */
  lemma Layout(p: string, d: string, c: string, e: string)
    requires |p| == 8 && |d| == 8 && |e| == 4
    ensures var f := p + d + "_" + c + e;
      && |f| == 21 + |c|
      && f[..8] == p && f[8..16] == d && f[16] == '_'
      && f[17..|f| - 4] == c && f[|f| - 4..] == e
  {
    var head := p + d + "_";
    var f := head + c + e;
    assert |head| == 17;
    assert f[..17] == head;
    assert head[..8] == p && head[8..16] == d && head[16] == '_';
    assert f[..8] == head[..8] && f[8..16] == head[8..16] && f[16] == head[16];
    assert f[17..|f| - 4] == c;
    assert f[|f| - 4..] == e;
  }

  /** The file name holds no space. */
  lemma FilenameHasNoSpace(today: Date, name: string)
    requires Valid(today)
    ensures ' ' !in Filename(today, name)
  {
    DigitsHaveNoSpace(Compact(today));
    assert ' ' !in PREFIX && ' ' !in "_" && ' ' !in EXTENSION;
  }

  lemma DigitsHaveNoSpace(d: string)
    requires AllDigits(d)
    ensures ' ' !in d
  {
    assert forall k :: 0 <= k < |d| ==> d[k] != ' ';
  }

  /** The document carries its date line. */
  lemma DatePrinted(s: Snapshot, date: string)
    ensures Caption("Date: " + date, Right) in Document(s, date)
  {
    DocumentFrame(s, date);
    var doc, n := Document(s, date), |CompanyLines(s.company)|;
    assert doc[n + 2] == doc[n..n + 3][2] == Masthead(date)[2];
  }

  /** The finished document and its download name. */
  datatype Invoice = Invoice(lines: seq<Line>, filename: string)

  /** Nothing to generate without items; otherwise the document of the
      parties, the items and their grand total, whose body rows are the
      items' rows and whose one total row carries the sum of the items'
      amounts, under the file name for the customer. The page's
      date and the file name's date are two readings of the clock. */
  function Generate(company: Party, customer: Party, bank: BankDetails, items: seq<Item>, printed: Date, stamped: Date): (r: Option<Invoice>)
    requires Valid(printed) && Valid(stamped)
    ensures items == [] <==> r.None?
    ensures r.Some? ==>
      && r.value.lines == Document(Snapshot(company, customer, bank, items, SumAmounts(items)), Iso(printed))
      && r.value.filename == Filename(stamped, customer.name)
      && Caption("Date: " + Iso(printed), Right) in r.value.lines
      && Select(r.value.lines, BodyRows) == TableBody(items)
      && Select(r.value.lines, Totals) == [TotalRow(TOTAL_LABEL, SumAmounts(items))]
  {
    if items == [] then
      None
    else
      var s := Snapshot(company, customer, bank, items, GrandTotal(FrameOf(items)));
      LedgerTotal(items);
      DocumentBodyRows(s, Iso(printed));
      DocumentTotalRow(s, Iso(printed));
      DatePrinted(s, Iso(printed));
      Some(Invoice(Document(s, Iso(printed)), Filename(stamped, customer.name)))
  }
}
