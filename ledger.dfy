/** The invoice's line items: the session list of records the add, delete
    and clear handlers change, and the rule that keeps every record's serial
    number equal to its 1-based position. */
module Ledger {
  import opened Options
  import opened Text
  import opened Numeric

  /** One record {Sr No., Description, Quantity, Rate, Amount}. */
  datatype Item = Item(srNo: nat, description: string, quantity: int, rate: real, amount: real)

  /** Serial numbers are the 1-based positions: dense, no gaps, no repeats. */
  predicate Dense(items: seq<Item>) {
    forall k :: 0 <= k < |items| ==> items[k].srNo == k + 1
  }

  /** Two records for the same line, whatever their serial numbers. */
  predicate SameLine(a: Item, b: Item) {
    a.description == b.description && a.quantity == b.quantity
    && a.rate == b.rate && a.amount == b.amount
  }

  /** The serial numbers in use. */
  function SerialNumbers(items: seq<Item>): set<nat> {
    set k | 0 <= k < |items| :: items[k].srNo
  }

  /** Dense means the serial numbers are exactly 1 to the count, each once. */
  lemma DenseNumbers(items: seq<Item>)
    requires Dense(items)
    ensures forall n: int :: n in SerialNumbers(items) <==> 1 <= n <= |items|
    ensures forall j, k :: 0 <= j < k < |items| ==> items[j].srNo != items[k].srNo
  {
    forall n: int | 1 <= n <= |items|
      ensures n in SerialNumbers(items)
    {
      assert items[n - 1].srNo == n;
    }
  }

  /** The picklist entry that switches the form to free text. */
  const OTHER := "Other"

  /** The products the form offers besides OTHER. */
  const PRODUCTS: seq<string> := ["Product A", "Product B", "Product C", "Product D", "Product E"]

  /** The description the add form submits: the chosen product, or the
      free text stripped of surrounding whitespace when OTHER is chosen. */
  function FormDescription(choice: string, custom: string): (d: string)
    ensures choice != OTHER ==> d == choice
    ensures choice == OTHER ==> (d == "" <==> AllSpace(custom))
    ensures choice == OTHER && d != "" ==> !IsSpace(d[0]) && !IsSpace(d[|d| - 1])
    ensures choice == OTHER ==> d == Strip(custom)
  {
    if choice == OTHER then
      StripEmptyIffBlank(custom);
      Strip(custom)
    else
      choice
  }

  /** The add handler's validation: an accepted line has a description and
      a non-negative amount. */
  predicate Accepts(description: string, quantity: int, rate: real)
    ensures Accepts(description, quantity, rate) ==>
      description != "" && CalculateAmount(Num(quantity as real), Num(rate)) >= 0.0
  {
    description != "" && quantity > 0 && rate >= 0.0
  }

  /** The list after the add handler: one new record at the end when the
      input is valid, with the next serial number and quantity times rate
      as its amount; otherwise the list as it was. */
  function Added(items: seq<Item>, description: string, quantity: int, rate: real): (r: seq<Item>)
    ensures Accepts(description, quantity, rate) ==>
      |r| == |items| + 1 && r[..|items|] == items
      && r[|items|] == Item(|items| + 1, description, quantity, rate, quantity as real * rate)
    ensures !Accepts(description, quantity, rate) ==> r == items
  {
    if Accepts(description, quantity, rate) then
      var amount := CalculateAmount(Num(quantity as real), Num(rate));
      assert (items + [Item(|items| + 1, description, quantity, rate, amount)])[..|items|] == items;
      items + [Item(|items| + 1, description, quantity, rate, amount)]
    else
      items
  }

  /** The position list.pop(i) removes from a list of length n: i itself,
      or counted from the end when negative; None where pop raises
      IndexError. */
  function PopIndex(n: nat, i: int): (j: Option<nat>)
    ensures j.Some? <==> -(n as int) <= i < n
    ensures j.Some? ==> j.value < n && (i >= 0 ==> j.value == i) && (i < 0 ==> j.value == n + i)
  {
    if 0 <= i < n then Some(i) else if -(n as int) <= i < 0 then Some(n + i) else None
  }

  /** The list after the renumbering loop: only the serial numbers change,
      and they become the positions. */
  function Renumbered(items: seq<Item>): (r: seq<Item>)
    ensures |r| == |items| && Dense(r)
    ensures forall k :: 0 <= k < |r| ==> SameLine(r[k], items[k])
  {
    seq(|items|, k requires 0 <= k < |items| => items[k].(srNo := k + 1))
  }

  /** The list after the delete handler: the record at the popped position
      is gone, the others keep their order and are renumbered; an index pop
      rejects leaves the list as it was. */
  function Deleted(items: seq<Item>, i: int): (r: seq<Item>)
    ensures PopIndex(|items|, i).None? ==> r == items
    ensures PopIndex(|items|, i).Some? ==>
      var j := PopIndex(|items|, i).value;
      |r| == |items| - 1 && Dense(r)
      && (forall k :: 0 <= k < j ==> SameLine(r[k], items[k]))
      && (forall k :: j <= k < |r| ==> SameLine(r[k], items[k + 1]))
  {
    match PopIndex(|items|, i)
    case None => items
    case Some(j) => Renumbered(items[..j] + items[j + 1..])
  }

  /** Records before the deleted one are untouched when the serial numbers
      were dense to begin with. */
  lemma DeleteKeepsEarlier(items: seq<Item>, j: nat)
    requires Dense(items) && j < |items|
    ensures forall k :: 0 <= k < j ==> Deleted(items, j)[k] == items[k]
  {
  }

  /** The three handlers, as values. */
  datatype Op = AddOp(description: string, quantity: int, rate: real) | DeleteOp(index: int) | ClearOp

  function Step(items: seq<Item>, op: Op): seq<Item> {
    match op
    case AddOp(d, q, r) => Added(items, d, q, r)
    case DeleteOp(i) => Deleted(items, i)
    case ClearOp => []
  }

  function Run(items: seq<Item>, ops: seq<Op>): seq<Item>
    decreases |ops|
  {
    if ops == [] then items else Run(Step(items, ops[0]), ops[1..])
  }

  /** Dense serial numbers stay dense under any sequence of handlers. */
  lemma {:induction false} RunKeepsDense(items: seq<Item>, ops: seq<Op>)
    requires Dense(items)
    ensures Dense(Run(items, ops))
    decreases |ops|
  {
    if ops != [] {
      var next := Step(items, ops[0]);
      assert Dense(next);
      RunKeepsDense(next, ops[1..]);
    }
  }

  /** The Amount column of the table built from the records. */
  function AmountColumn(items: seq<Item>): (col: seq<Value>)
    ensures |col| == |items| && forall k :: 0 <= k < |items| ==> col[k] == Num(items[k].amount)
  {
    seq(|items|, k requires 0 <= k < |items| => Num(items[k].amount))
  }

  /** pd.DataFrame(items) if items else pd.DataFrame(): one row per record,
      and an Amount column holding the records' amounts, which the empty
      frame lacks. */
  function FrameOf(items: seq<Item>): (f: Option<Frame>)
    ensures f.Some? && f.value.WellFormed() && f.value.rows == |items|
    ensures items == [] ==> f.value.amount.None?
    ensures items != [] ==> f.value.AmountColumn() == AmountColumn(items)
  {
    Some(Frame(|items|, if items == [] then None else Some(AmountColumn(items))))
  }

  function SumAmounts(items: seq<Item>): real {
    if items == [] then 0.0 else SumAmounts(items[..|items| - 1]) + items[|items| - 1].amount
  }

  /** The grand total of the records' table is the sum of their amounts. */
  lemma LedgerTotal(items: seq<Item>)
    ensures GrandTotal(FrameOf(items)) == SumAmounts(items)
  {
    if items != [] {
      ColumnSum(items);
    }
  }

  lemma {:induction false} ColumnSum(items: seq<Item>)
    ensures SumNumeric(AmountColumn(items)) == SumAmounts(items)
  {
    if items != [] {
      var init := items[..|items| - 1];
      assert AmountColumn(items)[..|items| - 1] == AmountColumn(init);
      ColumnSum(init);
    }
  }

  /** st.session_state.invoice_items and its handlers. */
  class InvoiceItems {
    var items: seq<Item>

    ghost predicate Valid()
      reads this
    {
      Dense(items)
    }

    /** The session starts with no items. */
    constructor ()
      ensures items == [] && Valid()
    {
      items := [];
    }

    /** The "Add Item" handler. */
    method Add(description: string, quantity: int, rate: real) returns (added: bool)
      modifies this
      ensures added == Accepts(description, quantity, rate)
      ensures items == Added(old(items), description, quantity, rate)
      ensures old(Valid()) ==> Valid()
    {
      added := Accepts(description, quantity, rate);
      if added {
        var amount := CalculateAmount(Num(quantity as real), Num(rate));
        items := items + [Item(|items| + 1, description, quantity, rate, amount)];
      }
    }

    /** A delete button's handler: pop the record, then renumber. */
    method Delete(i: int) returns (removed: bool)
      modifies this
      ensures removed == PopIndex(|old(items)|, i).Some?
      ensures items == Deleted(old(items), i)
      ensures removed || old(Valid()) ==> Valid()
    {
      var j := PopIndex(|items|, i);
      if j.None? {
        return false;
      }
      items := items[..j.value] + items[j.value + 1..];
      Renumber();
      removed := true;
    }

    /** The loop that sets each record's serial number to its position + 1. */
    method Renumber()
      modifies this
      ensures items == Renumbered(old(items))
    {
      for k := 0 to |items|
        invariant |items| == |old(items)|
        invariant forall j :: 0 <= j < k ==> items[j] == old(items)[j].(srNo := j + 1)
        invariant forall j :: k <= j < |items| ==> items[j] == old(items)[j]
      {
        items := items[k := items[k].(srNo := k + 1)];
      }
    }

    /** The "Clear All Items" handler. */
    method Clear()
      modifies this
      ensures items == [] && Valid()
    {
      items := [];
    }

    /** The grand total the page shows: 0 with no items, else
      calculate_grand_total over the items' table. */
    method Total() returns (total: real)
      ensures total == SumAmounts(items)
      ensures items == [] ==> total == 0.0
    {
      if items == [] {
        return 0.0;
      }
      total := CalculateGrandTotal(FrameOf(items));
      LedgerTotal(items);
    }
  }
}
