/** What create_invoice_pdf puts on the page, as a list of abstract lines:
    which detail lines appear and with which labels, the table's rows and
    their tints, the placeholder row, and the total row. Fonts, colours of
    text, cell geometry and page breaks are not part of a line. */
module Render {
  import opened Text
  import opened Ledger

  datatype Party = Party(name: string, address: string, phone: string, email: string, gstin: string)

  datatype BankDetails = BankDetails(bank: string, acNo: string, ifsc: string)

  datatype Rgb = Rgb(r: int, g: int, b: int)

  /** Fill of every even-indexed body row. */
  const ROW_TINT := Rgb(245, 255, 245)
  /** Fill of every odd-indexed body row. */
  const WHITE := Rgb(255, 255, 255)

  /** Horizontal alignment; multi_cell justifies unless told otherwise. */
  datatype Align = Left | Right | Center | Justified

  /** The detail fields a document can print. */
  datatype Field =
    | CompanyName | CompanyAddress | CompanyPhone | CompanyEmail | CompanyGstin
    | CustomerName | CustomerAddress | CustomerPhone | CustomerEmail | CustomerGstin
    | BankName | AccountNo | Ifsc

  datatype Line =
    | FieldLine(field: Field, text: string, align: Align, wrapped: bool)
    | Caption(text: string, align: Align)
    | Rule
    | HeaderRow(columns: seq<string>)
    | ItemRow(fill: Rgb, sr: string, description: string, quantity: string, rate: real, amount: real)
    | PlaceholderRow(text: string)
    | TotalRow(caption: string, total: real)

  const TITLE := "QUOTATION / BILL"
  const BILL_TO := "Bill To:"
  const BANK_HEADING := "Bank Details:"
  const CLOSING := "Thank you for your business!"
  const COLUMNS := ["Sr No.", "Description", "Qty", "Rate", "Amount"]
  const NO_ITEMS := "No items added"
  const TOTAL_LABEL := "Grand Total:"

  /** What the renderer is given: the details, the items and their total. */
  datatype Snapshot = Snapshot(company: Party, customer: Party, bank: BankDetails, items: seq<Item>, grandTotal: real)

  /** An optional detail line: printed, as its label followed by its value,
      only when the value is non-empty. */
  datatype Entry = Entry(field: Field, prefix: string, value: string, align: Align, wrapped: bool)

  function LineOf(e: Entry): Line {
    FieldLine(e.field, e.prefix + e.value, e.align, e.wrapped)
  }

  /** The declarative reading of the guards: the lines of the entries that
      have a value, in order. */
  function Present(es: seq<Entry>): seq<Line> {
    if es == [] then [] else Shown(es[0]) + Present(es[1..])
  }

  /** One entry's line, or nothing. */
  function Shown(e: Entry): seq<Line> {
    if e.value != "" then [LineOf(e)] else []
  }

  lemma PresentOne(e: Entry)
    ensures Present([e]) == Shown(e)
  {
    assert [e][1..] == [];
    assert Shown(e) + [] == Shown(e);
  }

  lemma PresentCons(e: Entry, rest: seq<Entry>)
    ensures Present([e] + rest) == Shown(e) + Present(rest)
  {
    assert ([e] + rest)[0] == e;
    assert ([e] + rest)[1..] == rest;
  }

  lemma Present3(a: Entry, b: Entry, c: Entry)
    ensures Present([a, b, c]) == Shown(a) + (Shown(b) + Shown(c))
  {
    assert [a, b, c] == [a] + [b, c];
    assert [b, c] == [b] + [c];
    PresentCons(a, [b, c]);
    PresentCons(b, [c]);
    PresentOne(c);
  }

  lemma Present4(a: Entry, b: Entry, c: Entry, d: Entry)
    ensures Present([a, b, c, d]) == Shown(a) + (Shown(b) + (Shown(c) + Shown(d)))
  {
    assert [a, b, c, d] == [a] + [b, c, d];
    PresentCons(a, [b, c, d]);
    Present3(b, c, d);
  }

  lemma Present5(a: Entry, b: Entry, c: Entry, d: Entry, e: Entry)
    ensures Present([a, b, c, d, e]) == Shown(a) + (Shown(b) + (Shown(c) + (Shown(d) + Shown(e))))
  {
    assert [a, b, c, d, e] == [a] + [b, c, d, e];
    PresentCons(a, [b, c, d, e]);
    Present4(b, c, d, e);
  }

  function CompanyEntries(c: Party): seq<Entry> {
    [ Entry(CompanyAddress, "", c.address, Right, true),
      Entry(CompanyPhone, "Phone: ", c.phone, Right, false),
      Entry(CompanyEmail, "Email: ", c.email, Right, false),
      Entry(CompanyGstin, "GSTIN: ", c.gstin, Right, false) ]
  }

  function CustomerEntries(c: Party): seq<Entry> {
    [ Entry(CustomerName, "", c.name, Left, false),
      Entry(CustomerAddress, "", c.address, Justified, true),
      Entry(CustomerPhone, "Phone: ", c.phone, Left, false),
      Entry(CustomerEmail, "Email: ", c.email, Left, false),
      Entry(CustomerGstin, "GSTIN: ", c.gstin, Left, false) ]
  }

  function BankEntries(b: BankDetails): seq<Entry> {
    [ Entry(BankName, "Bank Name: ", b.bank, Left, false),
      Entry(AccountNo, "Current A/C No.: ", b.acNo, Left, false),
      Entry(Ifsc, "IFSC: ", b.ifsc, Left, false) ]
  }

  /** The company block: the name always, right-aligned, then each other
      detail only when it is non-empty. */
  function CompanyLines(c: Party): (lines: seq<Line>)
    ensures lines == [FieldLine(CompanyName, c.name, Right, false)] + Present(CompanyEntries(c))
  {
    var address := Entry(CompanyAddress, "", c.address, Right, true);
    var phone := Entry(CompanyPhone, "Phone: ", c.phone, Right, false);
    var email := Entry(CompanyEmail, "Email: ", c.email, Right, false);
    var gstin := Entry(CompanyGstin, "GSTIN: ", c.gstin, Right, false);
    Present4(address, phone, email, gstin);
    [FieldLine(CompanyName, c.name, Right, false)] + (Shown(address) + (Shown(phone) + (Shown(email) + Shown(gstin))))
  }

  /** Title, rule and date, between the company and the customer: the
      centred title, the rule under it, and the right-aligned date line,
      which reads "Date: " followed by the date as printed. */
  function Masthead(date: string): (m: seq<Line>)
    ensures |m| == 3 && m[0] == Caption(TITLE, Center) && m[1] == Rule
    ensures m[2].Caption? && m[2].align == Right
      && |m[2].text| >= 6 && m[2].text[..6] == "Date: " && m[2].text[6..] == date
  {
    [Caption(TITLE, Center), Rule, Caption("Date: " + date, Right)]
  }

  /** The "Bill To:" block: every detail only when it is non-empty. */
  function CustomerLines(c: Party): (lines: seq<Line>)
    ensures lines == [Caption(BILL_TO, Left)] + Present(CustomerEntries(c))
  {
    var name := Entry(CustomerName, "", c.name, Left, false);
    var address := Entry(CustomerAddress, "", c.address, Justified, true);
    var phone := Entry(CustomerPhone, "Phone: ", c.phone, Left, false);
    var email := Entry(CustomerEmail, "Email: ", c.email, Left, false);
    var gstin := Entry(CustomerGstin, "GSTIN: ", c.gstin, Left, false);
    Present5(name, address, phone, email, gstin);
    [Caption(BILL_TO, Left)] + (Shown(name) + (Shown(address) + (Shown(phone) + (Shown(email) + Shown(gstin)))))
  }

  /** The "Bank Details:" block: every detail only when it is non-empty. */
  function BankLines(b: BankDetails): (lines: seq<Line>)
    ensures lines == [Caption(BANK_HEADING, Left)] + Present(BankEntries(b))
  {
    var bank := Entry(BankName, "Bank Name: ", b.bank, Left, false);
    var account := Entry(AccountNo, "Current A/C No.: ", b.acNo, Left, false);
    var ifsc := Entry(Ifsc, "IFSC: ", b.ifsc, Left, false);
    Present3(bank, account, ifsc);
    [Caption(BANK_HEADING, Left)] + (Shown(bank) + (Shown(account) + Shown(ifsc)))
  }

  /** The table row for the item at index k. */
  function BodyRow(k: nat, it: Item): Line {
    ItemRow(if k % 2 == 0 then ROW_TINT else WHITE, NatToString(it.srNo), it.description,
            IntToString(it.quantity), it.rate, it.amount)
  }

  /** The row loop, from index start on. */
  function Rows(items: seq<Item>, start: nat): (rows: seq<Line>)
    ensures |rows| == |items|
    ensures forall k :: 0 <= k < |items| ==> rows[k] == BodyRow(start + k, items[k])
  {
    if items == [] then [] else [BodyRow(start, items[0])] + Rows(items[1..], start + 1)
  }

  /** The table body: one row per item, in order, tinted on even indices and
      white on odd ones; a single placeholder row when there are no items. */
  function TableBody(items: seq<Item>): (rows: seq<Line>)
    ensures items == [] ==> rows == [PlaceholderRow(NO_ITEMS)]
    ensures items != [] ==> |rows| == |items| && forall k :: 0 <= k < |items| ==>
      && rows[k].ItemRow?
      && rows[k].fill == (if k % 2 == 0 then ROW_TINT else WHITE)
      && rows[k].sr == NatToString(items[k].srNo)
      && rows[k].description == items[k].description
      && rows[k].quantity == IntToString(items[k].quantity)
      && rows[k].rate == items[k].rate && rows[k].amount == items[k].amount
    ensures items != [] && Dense(items) ==> forall k :: 0 <= k < |items| ==> rows[k].sr == NatToString(k + 1)
  {
    if items == [] then [PlaceholderRow(NO_ITEMS)] else Rows(items, 0)
  }

  /** Header, body and total rows. */
  function Table(items: seq<Item>, total: real): seq<Line> {
    [HeaderRow(COLUMNS)] + TableBody(items) + [TotalRow(TOTAL_LABEL, total)]
  }

  /** The whole document, top to bottom, for the date as printed. */
  function Document(s: Snapshot, date: string): seq<Line> {
    CompanyLines(s.company) + Masthead(date) + CustomerLines(s.customer)
    + Table(s.items, s.grandTotal) + BankLines(s.bank) + [Caption(CLOSING, Center)]
  }

  /** The document opens with the company name, follows the company block
      with the masthead, and closes with the thanks. */
  lemma DocumentFrame(s: Snapshot, date: string)
    ensures var doc, n := Document(s, date), |CompanyLines(s.company)|;
      && n + 3 <= |doc|
      && doc[0] == FieldLine(CompanyName, s.company.name, Right, false)
      && doc[n..n + 3] == Masthead(date)
      && doc[|doc| - 1] == Caption(CLOSING, Center)
  {
    Frame(CompanyLines(s.company), Masthead(date), CustomerLines(s.customer), Table(s.items, s.grandTotal), BankLines(s.bank), Caption(CLOSING, Center));
  }

  /** Where the first two parts and the last line of a + b + c + d + e + [z]
      sit, stated over plain sequence variables so that the solver does not
      unfold the document. */
  lemma Frame(a: seq<Line>, b: seq<Line>, c: seq<Line>, d: seq<Line>, e: seq<Line>, z: Line)
    requires |a| > 0
    ensures var doc := a + b + c + d + e + [z];
      && |a| + |b| <= |doc| && doc[0] == a[0] && doc[|a|..|a| + |b|] == b && doc[|doc| - 1] == z
  {
    var doc := a + b + c + d + e + [z];
    assert doc == (a + b) + (c + d + e + [z]);
    assert (a + b)[|a|..] == b;
  }

  /** Kinds of line one can pick out of a document. */
  datatype Kind = OfField(f: Field) | BodyRows | Totals

  predicate Matches(line: Line, kind: Kind) {
    match kind
    case OfField(f) => line.FieldLine? && line.field == f
    case BodyRows => line.ItemRow? || line.PlaceholderRow?
    case Totals => line.TotalRow?
  }

  /** The lines of the given kind, in order. */
  function Select(lines: seq<Line>, kind: Kind): (r: seq<Line>)
    ensures |r| <= |lines|
    ensures forall k :: 0 <= k < |r| ==> Matches(r[k], kind)
  {
    if lines == [] then []
    else (if Matches(lines[0], kind) then [lines[0]] else []) + Select(lines[1..], kind)
  }

  lemma {:induction false} SelectAppend(a: seq<Line>, b: seq<Line>, kind: Kind)
    ensures Select(a + b, kind) == Select(a, kind) + Select(b, kind)
  {
    if a != [] {
      var head := if Matches(a[0], kind) then [a[0]] else [];
      assert (a + b)[0] == a[0];
      assert (a + b)[1..] == a[1..] + b;
      calc {
        Select(a + b, kind);
        head + Select(a[1..] + b, kind);
        { SelectAppend(a[1..], b, kind); }
        head + (Select(a[1..], kind) + Select(b, kind));
        (head + Select(a[1..], kind)) + Select(b, kind);
        Select(a, kind) + Select(b, kind);
      }
    } else {
      assert a + b == b;
    }
  }

  lemma {:induction false} PresentAppend(a: seq<Entry>, b: seq<Entry>)
    ensures Present(a + b) == Present(a) + Present(b)
  {
    if a != [] {
      var head := Shown(a[0]);
      assert (a + b)[0] == a[0];
      assert (a + b)[1..] == a[1..] + b;
      calc {
        Present(a + b);
        head + Present(a[1..] + b);
        { PresentAppend(a[1..], b); }
        head + (Present(a[1..]) + Present(b));
        (head + Present(a[1..])) + Present(b);
        Present(a) + Present(b);
      }
    } else {
      assert a + b == b;
    }
  }

  /** Entries whose fields differ lead to no line of another field. */
  lemma {:induction false} PresentWithout(es: seq<Entry>, f: Field)
    requires forall j :: 0 <= j < |es| ==> es[j].field != f
    ensures Select(Present(es), OfField(f)) == []
  {
    if es != [] {
      PresentWithout(es[1..], f);
      SelectAppend(Shown(es[0]), Present(es[1..]), OfField(f));
    }
  }

  /** An entry whose field is its own yields its line exactly when its
      value is non-empty. */
  lemma {:induction false} PresentField(es: seq<Entry>, k: nat)
    requires k < |es|
    requires forall j :: 0 <= j < |es| && j != k ==> es[j].field != es[k].field
    ensures Select(Present(es), OfField(es[k].field)) ==
      (if es[k].value != "" then [LineOf(es[k])] else [])
  {
    var f := es[k].field;
    SelectAppend(Shown(es[0]), Present(es[1..]), OfField(f));
    if k == 0 {
      PresentWithout(es[1..], f);
    } else {
      PresentField(es[1..], k - 1);
    }
  }

  /** Every optional detail of the three blocks. */
  function AllEntries(s: Snapshot): seq<Entry> {
    CompanyEntries(s.company) + CustomerEntries(s.customer) + BankEntries(s.bank)
  }

  lemma SelectSix(a: seq<Line>, b: seq<Line>, c: seq<Line>, d: seq<Line>, e: seq<Line>, f: seq<Line>, kind: Kind)
    ensures Select(a + b + c + d + e + f, kind) ==
      Select(a, kind) + Select(b, kind) + Select(c, kind) + Select(d, kind) + Select(e, kind) + Select(f, kind)
  {
    SelectAppend(a + b + c + d + e, f, kind);
    SelectAppend(a + b + c + d, e, kind);
    SelectAppend(a + b + c, d, kind);
    SelectAppend(a + b, c, kind);
    SelectAppend(a, b, kind);
  }

  /** Picking lines out of a document is picking them out of its parts. */
  lemma SelectDocument(s: Snapshot, date: string, kind: Kind)
    ensures Select(Document(s, date), kind) ==
      Select(CompanyLines(s.company), kind) + Select(Masthead(date), kind)
      + Select(CustomerLines(s.customer), kind) + Select(Table(s.items, s.grandTotal), kind)
      + Select(BankLines(s.bank), kind) + Select([Caption(CLOSING, Center)], kind)
  {
    SelectSix(CompanyLines(s.company), Masthead(date), CustomerLines(s.customer),
      Table(s.items, s.grandTotal), BankLines(s.bank), [Caption(CLOSING, Center)], kind);
  }

  /** The fixed lines print no detail field. */
  lemma FixedPartsHaveNoFields(date: string, f: Field)
    ensures Select(Masthead(date), OfField(f)) == []
    ensures Select([Caption(CLOSING, Center)], OfField(f)) == []
  {
    SelectNone(Masthead(date), OfField(f));
    SelectNone([Caption(CLOSING, Center)], OfField(f));
  }

  /** Nor does the table. */
  lemma TableHasNoFields(items: seq<Item>, total: real, f: Field)
    ensures Select(Table(items, total), OfField(f)) == []
  {
    var body := TableBody(items);
    BodyIsRows(items);
    SelectNone(body, OfField(f));
    SelectTable(items, total, OfField(f));
    assert Select([HeaderRow(COLUMNS)], OfField(f)) == [];
    assert Select([TotalRow(TOTAL_LABEL, total)], OfField(f)) == [];
    Middle(Select(Table(items, total), OfField(f)), [], Select(body, OfField(f)), []);
  }

  /** Every line of the table body is a body row. */
  lemma BodyIsRows(items: seq<Item>)
    ensures forall k :: 0 <= k < |TableBody(items)| ==> TableBody(items)[k].ItemRow? || TableBody(items)[k].PlaceholderRow?
  {
  }

  /** The table's body rows are its body, and its one total row is last. */
  lemma TableRows(items: seq<Item>, total: real)
    ensures Select(Table(items, total), BodyRows) == TableBody(items)
    ensures Select(Table(items, total), Totals) == [TotalRow(TOTAL_LABEL, total)]
  {
    var body := TableBody(items);
    BodyIsRows(items);
    SelectAll(body, BodyRows);
    SelectNone(body, Totals);
    SelectTable(items, total, BodyRows);
    SelectTable(items, total, Totals);
    assert Select([HeaderRow(COLUMNS)], BodyRows) == [];
    assert Select([TotalRow(TOTAL_LABEL, total)], BodyRows) == [];
    assert Select([HeaderRow(COLUMNS)], Totals) == [];
    assert Select([TotalRow(TOTAL_LABEL, total)], Totals) == [TotalRow(TOTAL_LABEL, total)];
    Middle(Select(Table(items, total), BodyRows), [], body, []);
    Middle(Select(Table(items, total), Totals), [], [], [TotalRow(TOTAL_LABEL, total)]);
  }

  /** The sequence algebra of dropping empty parts, stated over plain
      sequence variables so that the solver does not unfold the document. */
  lemma Middle<T>(x: seq<T>, h: seq<T>, m: seq<T>, t: seq<T>)
    requires x == h + m + t
    ensures h == [] && t == [] ==> x == m
    ensures h == [] && m == [] ==> x == t
  {
    if h == [] {
      assert h + m == m;
      assert m == [] ==> m + t == t;
      assert t == [] ==> m + t == m;
    }
  }

  lemma SelectTable(items: seq<Item>, total: real, kind: Kind)
    ensures Select(Table(items, total), kind) ==
      Select([HeaderRow(COLUMNS)], kind) + Select(TableBody(items), kind) + Select([TotalRow(TOTAL_LABEL, total)], kind)
  {
    SelectAppend([HeaderRow(COLUMNS)] + TableBody(items), [TotalRow(TOTAL_LABEL, total)], kind);
    SelectAppend([HeaderRow(COLUMNS)], TableBody(items), kind);
  }

  /** A block's detail lines of one field: the company name line, if that
      is the field, and the block's present entries of that field. */
  lemma BlockFields(s: Snapshot, f: Field)
    ensures Select(CompanyLines(s.company), OfField(f)) ==
      Select([FieldLine(CompanyName, s.company.name, Right, false)], OfField(f)) + Select(Present(CompanyEntries(s.company)), OfField(f))
    ensures Select(CustomerLines(s.customer), OfField(f)) == Select(Present(CustomerEntries(s.customer)), OfField(f))
    ensures Select(BankLines(s.bank), OfField(f)) == Select(Present(BankEntries(s.bank)), OfField(f))
  {
    SelectAppend([FieldLine(CompanyName, s.company.name, Right, false)], Present(CompanyEntries(s.company)), OfField(f));
    SelectAppend([Caption(BILL_TO, Left)], Present(CustomerEntries(s.customer)), OfField(f));
    SelectAppend([Caption(BANK_HEADING, Left)], Present(BankEntries(s.bank)), OfField(f));
  }

  /** Across the three blocks, the present entries in order. */
  lemma PresentAll(s: Snapshot, f: Field)
    ensures Select(Present(AllEntries(s)), OfField(f)) ==
      Select(Present(CompanyEntries(s.company)), OfField(f))
      + Select(Present(CustomerEntries(s.customer)), OfField(f))
      + Select(Present(BankEntries(s.bank)), OfField(f))
  {
    var ce, cue, be := CompanyEntries(s.company), CustomerEntries(s.customer), BankEntries(s.bank);
    PresentAppend(ce + cue, be);
    PresentAppend(ce, cue);
    SelectAppend(Present(ce) + Present(cue), Present(be), OfField(f));
    SelectAppend(Present(ce), Present(cue), OfField(f));
  }

  /** The lines of one field across the whole document. */
  lemma DocumentField(s: Snapshot, date: string, f: Field)
    ensures Select(Document(s, date), OfField(f)) ==
      Select([FieldLine(CompanyName, s.company.name, Right, false)], OfField(f)) + Select(Present(AllEntries(s)), OfField(f))
  {
    SelectDocument(s, date, OfField(f));
    FixedPartsHaveNoFields(date, f);
    TableHasNoFields(s.items, s.grandTotal, f);
    BlockFields(s, f);
    PresentAll(s, f);
    var kind := OfField(f);
    Regroup(Select(Document(s, date), kind),
      Select(CompanyLines(s.company), kind), Select(Masthead(date), kind),
      Select(CustomerLines(s.customer), kind), Select(Table(s.items, s.grandTotal), kind),
      Select(BankLines(s.bank), kind), Select([Caption(CLOSING, Center)], kind),
      Select([FieldLine(CompanyName, s.company.name, Right, false)], kind),
      Select(Present(CompanyEntries(s.company)), kind), Select(Present(CustomerEntries(s.customer)), kind),
      Select(Present(BankEntries(s.bank)), kind), Select(Present(AllEntries(s)), kind));
  }

  /** The sequence algebra DocumentField needs, stated over plain sequence
      variables so that the solver does not unfold the document. */
  lemma Regroup<T>(doc: seq<T>, c: seq<T>, m: seq<T>, cu: seq<T>, t: seq<T>, b: seq<T>, cl: seq<T>,
                   name: seq<T>, pc: seq<T>, pcu: seq<T>, pb: seq<T>, all: seq<T>)
    requires doc == c + m + cu + t + b + cl && m == [] && t == [] && cl == []
    requires c == name + pc && cu == pcu && b == pb && all == pc + pcu + pb
    ensures doc == name + all
  {
    calc {
      doc;
      c + [] + cu + [] + b + [];
      { assert c + [] == c && c + cu + [] == c + cu && c + cu + b + [] == c + cu + b; }
      c + cu + b;
      name + pc + pcu + pb;
      name + all;
    }
  }

  /** The fields of AllEntries, one per entry. */
  lemma AllEntriesDistinct(s: Snapshot, k: nat)
    requires k < |AllEntries(s)|
    ensures forall j :: 0 <= j < |AllEntries(s)| && j != k ==> AllEntries(s)[j].field != AllEntries(s)[k].field
  {
  }

  /** The company name is not among the optional details. */
  lemma NameIsNotOptional(s: Snapshot)
    ensures forall j :: 0 <= j < |AllEntries(s)| ==> AllEntries(s)[j].field != CompanyName
  {
  }

  /** Across the whole document, the company name is printed once. */
  lemma CompanyNameOnce(s: Snapshot, date: string)
    ensures Select(Document(s, date), OfField(CompanyName)) == [FieldLine(CompanyName, s.company.name, Right, false)]
  {
    var name, kind := [FieldLine(CompanyName, s.company.name, Right, false)], OfField(CompanyName);
    NameIsNotOptional(s);
    PresentWithout(AllEntries(s), CompanyName);
    SelectAll(name, kind);
    DocumentField(s, date, CompanyName);
    NothingAfter(Select(Document(s, date), kind), Select(name, kind), Select(Present(AllEntries(s)), kind), name);
  }

  /** A sequence made of n and nothing more is n, stated over plain sequence
      variables so that the solver does not unfold the document. */
  lemma NothingAfter<T>(d: seq<T>, a: seq<T>, b: seq<T>, n: seq<T>)
    requires d == a + b && a == n && b == []
    ensures d == n
  {
  }

  /** Across the whole document, an optional detail is printed once, as its
      label and value, when that value is non-empty, and not at all when it
      is empty. */
  lemma OptionalLineOnce(s: Snapshot, date: string, k: nat)
    requires k < |AllEntries(s)|
    ensures var e := AllEntries(s)[k];
      Select(Document(s, date), OfField(e.field)) == (if e.value != "" then [FieldLine(e.field, e.prefix + e.value, e.align, e.wrapped)] else [])
  {
    var es := AllEntries(s);
    var f := es[k].field;
    var name := [FieldLine(CompanyName, s.company.name, Right, false)];
    NameIsNotOptional(s);
    AllEntriesDistinct(s, k);
    DocumentField(s, date, f);
    SelectNone(name, OfField(f));
    PresentField(es, k);
    assert [] + Select(Present(es), OfField(f)) == Select(Present(es), OfField(f));
  }

  /** The lines of Present are detail lines. */
  lemma {:induction false} PresentIsFieldLines(es: seq<Entry>)
    ensures forall k :: 0 <= k < |Present(es)| ==> Present(es)[k].FieldLine?
  {
    if es != [] {
      PresentIsFieldLines(es[1..]);
    }
  }

  /** The company block holds no body row and no total row. */
  lemma CompanyHasNoRows(c: Party, kind: Kind)
    requires !kind.OfField?
    ensures Select(CompanyLines(c), kind) == []
  {
    PresentIsFieldLines(CompanyEntries(c));
    SelectNone(CompanyLines(c), kind);
  }

  /** The customer block holds no body row and no total row. */
  lemma CustomerHasNoRows(c: Party, kind: Kind)
    requires !kind.OfField?
    ensures Select(CustomerLines(c), kind) == []
  {
    PresentIsFieldLines(CustomerEntries(c));
    SelectNone(CustomerLines(c), kind);
  }

  /** The bank block holds no body row and no total row. */
  lemma BankHasNoRows(b: BankDetails, kind: Kind)
    requires !kind.OfField?
    ensures Select(BankLines(b), kind) == []
  {
    PresentIsFieldLines(BankEntries(b));
    SelectNone(BankLines(b), kind);
  }

  /** Neither do the masthead and the closing line. */
  lemma FixedPartsHaveNoRows(date: string, kind: Kind)
    requires !kind.OfField?
    ensures Select(Masthead(date), kind) == [] && Select([Caption(CLOSING, Center)], kind) == []
  {
    SelectNone(Masthead(date), kind);
    SelectNone([Caption(CLOSING, Center)], kind);
  }

  /** Picking rows out of a document is picking them out of its table. */
  lemma SelectRows(s: Snapshot, date: string, kind: Kind)
    requires !kind.OfField?
    ensures Select(Document(s, date), kind) == Select(Table(s.items, s.grandTotal), kind)
  {
    SelectDocument(s, date, kind);
    CompanyHasNoRows(s.company, kind);
    CustomerHasNoRows(s.customer, kind);
    BankHasNoRows(s.bank, kind);
    FixedPartsHaveNoRows(date, kind);
    OnlyFourth(Select(Document(s, date), kind),
      Select(CompanyLines(s.company), kind), Select(Masthead(date), kind),
      Select(CustomerLines(s.customer), kind), Select(Table(s.items, s.grandTotal), kind),
      Select(BankLines(s.bank), kind), Select([Caption(CLOSING, Center)], kind));
  }

  /** The sequence algebra SelectRows needs, stated over plain sequence
      variables so that the solver does not unfold the document. */
  lemma OnlyFourth<T>(doc: seq<T>, c: seq<T>, m: seq<T>, cu: seq<T>, t: seq<T>, b: seq<T>, cl: seq<T>)
    requires doc == c + m + cu + t + b + cl
    requires c == [] && m == [] && cu == [] && b == [] && cl == []
    ensures doc == t
  {
    assert [] + [] + [] + t == t;
  }

  /** The document's body rows are exactly the table body: the items' rows
      in order, or the one placeholder row when there are none. */
  lemma DocumentBodyRows(s: Snapshot, date: string)
    ensures Select(Document(s, date), BodyRows) == TableBody(s.items)
  {
    SelectRows(s, date, BodyRows);
    TableRows(s.items, s.grandTotal);
  }

  /** The document has exactly one total row, carrying the snapshot's total. */
  lemma DocumentTotalRow(s: Snapshot, date: string)
    ensures Select(Document(s, date), Totals) == [TotalRow(TOTAL_LABEL, s.grandTotal)]
  {
    SelectRows(s, date, Totals);
    TableRows(s.items, s.grandTotal);
  }

  lemma {:induction false} SelectNone(lines: seq<Line>, kind: Kind)
    requires forall k :: 0 <= k < |lines| ==> !Matches(lines[k], kind)
    ensures Select(lines, kind) == []
  {
    if lines != [] {
      SelectNone(lines[1..], kind);
    }
  }

  lemma {:induction false} SelectAll(lines: seq<Line>, kind: Kind)
    requires forall k :: 0 <= k < |lines| ==> Matches(lines[k], kind)
    ensures Select(lines, kind) == lines
  {
    if lines != [] {
      SelectAll(lines[1..], kind);
    }
  }
}
