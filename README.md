# Invoice generator: ledger, totals, document lines and file name

The model covers the non-UI logic of a small Streamlit invoicing form (`app.py`):

- the session list of line items and the handlers that add, delete and clear items;
- the renumbering loop that keeps serial numbers equal to positions;
- the line amount (`calculate_amount`) and the grand total (`calculate_grand_total`), with its fallback loop;
- the decisions `create_invoice_pdf` takes about which lines it prints:
  - the optional detail lines and their labels;
  - the tint of the body rows;
  - the "No items added" row;
  - the total row;
- the download file name.

Modules:

- `Options` and `Text` (`text.dfy`):
  - Python's `str.strip()`, with the whitespace set of `str.isspace()`;
  - single-character `str.replace`;
  - `str()` of integers;
  - zero-padded numerals.
- `Dates` (`dates.dfy`): the `%Y%m%d` and `%Y-%m-%d` layouts. The current date is a parameter.
- `Numeric` (`numeric.dfy`):
  - table cells as `float()` sees them: a number, a string or None;
  - `float()` on strings;
  - `calculate_amount`;
  - `calculate_grand_total`, as a method with the fallback loop, proved against the specification function `GrandTotal`.
- `Ledger` (`ledger.dfy`):
  - the item records;
  - the specification functions `Added`, `Deleted` and `Renumbered`;
  - the class `InvoiceItems`, whose methods change its `items` field;
  - the invariant that serial numbers are dense. Dense means `Sr No.` is the position plus 1.
- `Render` (`render.dfy`): the document as a list of abstract lines, and lemmas about which lines it holds. The document takes the date as the text it prints.
- `Download` (`download.dfy`): the file name and the "Generate Invoice" step.

Money is an exact `real`.

Two behaviours of the code are worth stating exactly:

- **Delete.** The delete button pops by list position, `pop(i)`. At its only call site (app.py:288-297) `i` is the frame's index, which is the position 0 to n - 1, so exactly that item goes. Ledger.PopIndex also covers the general rule of `list.pop`: a negative index counts from the end, and an index out of range raises `IndexError`, which the model shows as an unchanged list.
- **File name.** The file name strips the customer name and then replaces only the character `' '` with `_`, so a tab inside the name stays.

## Model

| member | source | states |
|---|---|---|
| Text.Strip | app.py:256 | the result is the middle of the input, everything cut off on either side is whitespace, and the result neither starts nor ends with whitespace |
| Text.StripEmptyIffBlank | app.py:256 | stripping gives the empty string exactly when the input is all whitespace |
| Text.StripIdempotent | app.py:256 | stripping twice is stripping once |
| Text.Replace | app.py:352 | same length; every x becomes y and every other character is kept, so no x is left when y differs |
| Text.NatToString | app.py:137 | str(n): at least one digit, all digits, no leading zero unless n is 0 |
| Text.IntToString | app.py:139 | str(i) of an integer: the numeral of i, behind a minus sign when i is negative |
| Text.ParseNatOfNatToString | app.py:137 | the numeral str(n) reads back as n |
| Text.PadRoundTrip | app.py:353 | a zero-padded field reads back as its number, and has exactly the width when the number fits |
| Dates.Compact | app.py:353 | %Y%m%d is eight digits |
| Dates.Iso | app.py:94 | %Y-%m-%d is ten characters: dashes at 4 and 7, digits elsewhere |
| Dates.CompactRoundTrip | app.py:353 | the %Y%m%d text decodes back to the date |
| Dates.IsoWithoutDashesIsCompact | app.py:94 | for one date, the %Y-%m-%d text with its two dashes removed is the %Y%m%d text |
| Numeric.ParseUnsigned | app.py:10 | a numeral without a sign never converts to a negative number |
| Numeric.UnsignedIffNumeral | app.py:10 | an unsigned string converts exactly when it is not empty, not a lone point, made only of digits and points, and holds at most one point |
| Numeric.FractionValue | app.py:10 | the digits after the point are worth their numeral divided by 10 to the number of digits |
| Numeric.PointedNumeral | app.py:10 | digits, a point and digits convert to the whole part plus the fraction, with either part allowed to be empty but not both |
| Numeric.SevenAndAQuarter | app.py:10 | example: float("7.25") is 7.25 |
| Numeric.ParseDecimal | app.py:8-28 | float() of a string converts exactly when the stripped text is a numeral, possibly behind one sign; an unsigned numeral keeps its value, a minus negates it and a plus keeps it, and a negative value comes only behind a minus |
| Numeric.SignedSeven | app.py:8-28 | example: float("-7") is -7.0 and float("+7") is 7.0 |
| Numeric.NotNumerals | app.py:25-27 | example: "7a" and "abc" do not convert, so the fallback loop skips them |
| Numeric.SurroundingSpaceIgnored | app.py:8-28 | whitespace around a numeral does not change what float() makes of it |
| Numeric.ToFloat | app.py:8-28 | a number converts to itself, None does not convert |
| Numeric.CalculateAmount | app.py:8-12 | the product of the two converted values when both convert, otherwise 0 |
| Numeric.NumeralIsNumeric | app.py:139-147 | float() of the quantity's printed numeral str(qty) reads back as the quantity |
| Numeric.BlankIsNotNumeric | app.py:10-12 | a blank string does not convert |
| Numeric.AllNumericSum | app.py:19-28 | when every cell converts, the primary path's plain sum equals the fallback loop's skipping sum |
| Numeric.SumSkipsNonNumeric | app.py:25-27 | a cell that does not convert adds nothing, wherever it sits |
| Numeric.SumNumericPermutation | app.py:22-28 | the total does not depend on the order of the rows |
| Numeric.CalculateGrandTotal | app.py:14-28 | 0 for a missing or empty table; otherwise the sum of the Amount cells that convert, with non-converting cells skipped, on both the primary and the fallback path |
| Ledger.FormDescription | app.py:253-258 | the chosen product when one is chosen; for "Other" the custom text stripped, which is empty exactly when the custom text is blank |
| Ledger.Accepts | app.py:268 | an accepted input has a non-empty description and a non-negative amount |
| Ledger.FrameOf | app.py:283 | the frame (built again at app.py:343) has one row per item; with no items it has no Amount column, otherwise its Amount column is the items' amounts in order |
| Ledger.DenseNumbers | app.py:271 | dense serial numbers are exactly 1 to the count, with no repeats |
| Ledger.Added | app.py:267-280 | a valid input appends one item, numbered count + 1, with amount quantity times rate, and keeps the earlier items; an invalid input leaves the list unchanged |
| Ledger.PopIndex | app.py:297 | the position list.pop(i) removes: i itself, or n + i for a negative i; none when i is outside -n to n - 1 |
| Ledger.Renumbered | app.py:299-300 | the result is dense, and each item keeps its description, quantity, rate and amount |
| Ledger.Deleted | app.py:297-300 | a failed pop leaves the list unchanged; otherwise exactly the popped item is gone, the others keep their order and line data, and the result is dense |
| Ledger.DeleteKeepsEarlier | app.py:297-300 | when the serial numbers were dense, the records before the deleted one are unchanged, serial numbers included |
| Ledger.RunKeepsDense | app.py:271 | starting dense, any sequence of add, delete and clear stays dense |
| Ledger.LedgerTotal | app.py:306 | the grand total of the items' table is the sum of their amounts |
| Ledger.InvoiceItems.constructor | app.py:246-247 | the session list starts empty, which is dense |
| Ledger.InvoiceItems.Add | app.py:267-280 | reports whether the input was valid; the new list is Added of the old one; the dense invariant is kept |
| Ledger.InvoiceItems.Delete | app.py:297-301 | reports whether pop succeeded; the new list is Deleted of the old one; after a successful pop the list is dense |
| Ledger.InvoiceItems.Renumber | app.py:299-300 | the loop leaves the list equal to Renumbered of the old list |
| Ledger.InvoiceItems.Clear | app.py:309-311 | the list is empty |
| Ledger.InvoiceItems.Total | app.py:306-314 | the total shown is the sum of the item amounts, and 0 with no items |
| Render.CompanyLines | app.py:60-75 | the company name line always, then each other company detail only when it is non-empty, behind its label |
| Render.Masthead | app.py:79-95 | the centred title, the rule under it, then a right-aligned line reading "Date: " followed by the date |
| Render.CustomerLines | app.py:101-113 | the "Bill To:" caption, then each customer detail only when non-empty, behind its label; the address is wrapped and justified |
| Render.BankLines | app.py:179-187 | the "Bank Details:" caption, then each bank detail only when non-empty, behind its label |
| Render.Rows | app.py:129-162 | one row per item, in order; row k has the fill of its index parity |
| Render.TableBody | app.py:128-165 | with no items, exactly one "No items added" row; otherwise one row per item: tinted at even indices and white at odd ones, carrying the item's serial number, description, quantity, rate and amount; with dense items, row k shows k + 1 |
| Render.PresentField | app.py:70-75 | an entry whose field appears once gives its line exactly when its value is non-empty |
| Render.DocumentFrame | app.py:31-196 | the document opens with the company name line, has the title, rule and date right after the company block, and ends with the thank-you line |
| Render.CompanyNameOnce | app.py:60 | the whole document prints the company name line exactly once |
| Render.OptionalLineOnce | app.py:64-187 | across the whole document, each optional detail appears once, as its label and value, when the value is non-empty, and not at all when it is empty |
| Render.DocumentBodyRows | app.py:128-165 | the document's body rows are the table body |
| Render.DocumentTotalRow | app.py:171-172 | the document has exactly one total row, carrying the snapshot's grand total |
| Download.SafeCustomer | app.py:352 | never empty and free of spaces; "customer" for a blank name; otherwise the stripped name with each space turned into an underscore |
| Download.Filename | app.py:352-353 | the file name is "invoice_", eight digits that decode to the date, "_", the safe customer name, ".pdf" |
| Download.FilenameHasNoSpace | app.py:352-353 | the file name holds no space |
| Download.DatePrinted | app.py:94-95 | the document carries the line "Date: " followed by the date it was given |
| Download.Generate | app.py:320-364 | nothing without items; otherwise the lines are the document of the parties, the items and the sum of their amounts, printed with the date read at app.py:94, so its body rows are the items' rows and its one total row is that sum; the file name is the one for the date read at app.py:353 and the customer |

## Left out

- Streamlit widgets, `st.experimental_rerun`, messages, and the session mechanics beyond the item list. These are UI plumbing.
- fpdf layout:
  - fonts, text and fill colours other than the body-row tints;
  - cell widths and positions, `multi_cell` wrapping, `set_xy`;
  - page breaks, the vertical gaps (`pdf.ln`), the drawn rule's coordinates;
  - the latin-1 encoding of the output.
  
  A line records only its field, text, alignment and whether it wraps.
- The background image: its `os.path.exists` check and the swallowed exception. This is file I/O.
- pandas: DataFrame construction, `iterrows`, `astype(float)`. Items are a sequence of records and the Amount column is a sequence of cells. The frame's index is the list position.
- Floating point. Sums and products are exact reals. `{:,.2f}` rounding and digit grouping of the rate, amount and totals are not modelled, so a row and the total row carry numbers, not their printed text.
- Numeric.ParseDecimal: accepts only an optional sign, digits and an optional fractional part. Python's `float()` also accepts exponents, `inf`, `nan`, underscores and non-ASCII digits; those strings are treated as not converting. Booleans and other cell types are not modelled.
- The row renderer's defensive fallbacks (app.py:136-147):
  - the `isinstance(row, dict)` branch;
  - a missing `Sr No.`;
  - a rate or amount that fails `float()`.
  
  Rows built from the ledger always hold numeric rates and amounts, so each row shows the item's own fields.
- `date.today()` is read twice, for the printed date (app.py:94) and for the file name (app.py:353). Download.Generate takes the two readings as two parameters, so a run across midnight, where they differ, is covered. Dates.Compact and Dates.Iso pad the year to four digits, which is what strftime prints for the years 1000 to 9999; strftime's padding of earlier years is platform-dependent and not modelled.
- The `try`/`except` around document generation and its error message (app.py:348-362). Generation of abstract lines cannot fail.
- Ledger.InvoiceItems.Add takes any integer quantity and real rate. The form's `number_input` bounds (quantity at least 0, rate at least 0.0) are widget settings; the handler's own check is modelled.
