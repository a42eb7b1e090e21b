/** The line-item editor (src/components/quotes/LineItemsEditor.tsx): editing one field of
    one row, appending a blank row, removing a row while at least one stays, and the
    totals shown under the rows. */
module LineItems {
  import opened Wrappers
  import opened Domain
  import Money

  /** The row `add` appends: no description, quantity 1, price 0. */
  const BlankItem: LineItem := LineItem("", 1.0, 0.0)

  /** An edit of one field: the description keeps the typed text, the numeric fields get
      the typed text converted by `Number`, which is a parameter of `Update`. */
  datatype FieldEdit = Description(text: string) | Quantity(text: string) | UnitPrice(text: string)

  function ApplyEdit(item: LineItem, e: FieldEdit, toNumber: string -> real): (r: LineItem)
    ensures e.Description? ==> r == item.(description := e.text)
    ensures e.Quantity? ==> r == item.(quantity := toNumber(e.text))
    ensures e.UnitPrice? ==> r == item.(unitPrice := toNumber(e.text))
  {
    match e
    case Description(t) => item.(description := t)
    case Quantity(t) => item.(quantity := toNumber(t))
    case UnitPrice(t) => item.(unitPrice := toNumber(t))
  }

  /** `update(i, field, value)`: `items.map((item, idx) => idx === i ? edited : item)`. */
  function Update(items: seq<LineItem>, i: int, e: FieldEdit, toNumber: string -> real): (r: seq<LineItem>)
    ensures |r| == |items|
    ensures forall j :: 0 <= j < |items| && j != i ==> r[j] == items[j]
    ensures 0 <= i < |items| ==> r[i] == ApplyEdit(items[i], e, toNumber)
  {
    seq(|items|, j requires 0 <= j < |items| => if j == i then ApplyEdit(items[j], e, toNumber) else items[j])
  }

  /** `add()`. */
  function Add(items: seq<LineItem>): (r: seq<LineItem>)
    ensures |r| == |items| + 1 && r[..|items|] == items && r[|items|] == BlankItem
  {
    items + [BlankItem]
  }

  /** `xs.filter((_, idx) => idx !== i)`. */
  function WithoutIndex<T>(xs: seq<T>, i: int): seq<T>
    decreases |xs|
  {
    if |xs| == 0 then [] else (if i == 0 then [] else [xs[0]]) + WithoutIndex(xs[1..], i - 1)
  }

  /** Filtering out index `i` deletes exactly that element when it exists and nothing
      otherwise; the rest keep their order. */
  lemma WithoutIndexSlices<T>(xs: seq<T>, i: int)
    ensures 0 <= i < |xs| ==> WithoutIndex(xs, i) == xs[..i] + xs[i + 1..]
    ensures !(0 <= i < |xs|) ==> WithoutIndex(xs, i) == xs
  {
    if 0 <= i < |xs| {
      WithoutIndexInRange(xs, i);
    } else {
      WithoutIndexOutOfRange(xs, i);
    }
  }

  lemma {:induction false} WithoutIndexInRange<T>(xs: seq<T>, i: int)
    requires 0 <= i < |xs|
    ensures WithoutIndex(xs, i) == xs[..i] + xs[i + 1..]
    decreases |xs|
  {
    var t := xs[1..];
    if i == 0 {
      WithoutIndexOutOfRange(t, -1);
      assert WithoutIndex(xs, i) == WithoutIndex(t, -1);
      assert xs[..i] + xs[i + 1..] == t;
    } else {
      WithoutIndexInRange(t, i - 1);
      assert WithoutIndex(xs, i) == [xs[0]] + WithoutIndex(t, i - 1);
      assert xs[..i] == [xs[0]] + t[..i - 1];
      assert xs[i + 1..] == t[i..];
    }
  }

  lemma {:induction false} WithoutIndexOutOfRange<T>(xs: seq<T>, i: int)
    requires !(0 <= i < |xs|)
    ensures WithoutIndex(xs, i) == xs
    decreases |xs|
  {
    if |xs| > 0 {
      WithoutIndexOutOfRange(xs[1..], i - 1);
      assert xs == [xs[0]] + xs[1..];
    }
  }

  /** `remove(i)`: nothing happens to a list of one row (or none). */
  function Remove(items: seq<LineItem>, i: int): (r: seq<LineItem>)
    ensures |items| <= 1 ==> r == items
    ensures |items| > 1 && 0 <= i < |items| ==> r == items[..i] + items[i + 1..]
    ensures |items| > 1 && !(0 <= i < |items|) ==> r == items
  {
    WithoutIndexSlices(items, i);
    if |items| <= 1 then items else WithoutIndex(items, i)
  }

  /** A user action in the editor. */
  datatype Action = EditRow(i: int, e: FieldEdit) | AddRow | RemoveRow(i: int)

  function Step(items: seq<LineItem>, a: Action, toNumber: string -> real): seq<LineItem> {
    match a
    case EditRow(i, e) => Update(items, i, e, toNumber)
    case AddRow => Add(items)
    case RemoveRow(i) => Remove(items, i)
  }

  function Steps(items: seq<LineItem>, acts: seq<Action>, toNumber: string -> real): seq<LineItem>
    decreases |acts|
  {
    if |acts| == 0 then items else Steps(Step(items, acts[0], toNumber), acts[1..], toNumber)
  }

  /** However the rows are edited, added and removed, a list that had a row keeps one. */
  lemma {:induction false} NeverEmpty(items: seq<LineItem>, acts: seq<Action>, toNumber: string -> real)
    requires |items| >= 1
    ensures |Steps(items, acts, toNumber)| >= 1
    decreases |acts|
  {
    if |acts| > 0 {
      NeverEmpty(Step(items, acts[0], toNumber), acts[1..], toNumber);
    }
  }

  /** The amount shown on a row. */
  function RowTotal(item: LineItem): (r: real)
    ensures r == item.quantity * item.unitPrice
  {
    Money.LineTotal(item)
  }

  /** The sum of the row amounts, added up from the last row (an independent reference
      for the left-to-right `reduce` of the totals). */
  function SumOfRows(items: seq<LineItem>): real
    decreases |items|
  {
    if |items| == 0 then 0.0 else RowTotal(items[0]) + SumOfRows(items[1..])
  }

  /** The footer's subtotal is the sum of the amounts shown on the rows. */
  lemma {:induction false} SubtotalIsSumOfRows(items: seq<LineItem>)
    ensures Money.Subtotal(items) == SumOfRows(items)
    decreases |items|
  {
    if |items| > 0 {
      SubtotalIsSumOfRows(items[1..]);
      Money.SubtotalConcat([items[0]], items[1..]);
      assert [items[0]] + items[1..] == items;
    }
  }

  /** Adding a row does not change the subtotal: the new row is worth nothing. */
  lemma AddKeepsSubtotal(items: seq<LineItem>)
    ensures Money.Subtotal(Add(items)) == Money.Subtotal(items)
  {
  }

  /** The subtotal splits around any row. */
  lemma SubtotalAround(items: seq<LineItem>, i: int)
    requires 0 <= i < |items|
    ensures Money.Subtotal(items) == Money.Subtotal(items[..i]) + RowTotal(items[i]) + Money.Subtotal(items[i + 1..])
  {
    var xb := [items[i]] + items[i + 1..];
    assert items == items[..i] + xb;
    Money.SubtotalConcat(items[..i], xb);
    Money.SubtotalConcat([items[i]], items[i + 1..]);
    Money.SubtotalSingle(items[i]);
  }

  /** Removing row `i` of several lowers the subtotal by exactly that row's amount. */
  lemma RemoveLowersSubtotal(items: seq<LineItem>, i: int)
    requires |items| > 1 && 0 <= i < |items|
    ensures Money.Subtotal(Remove(items, i)) == Money.Subtotal(items) - RowTotal(items[i])
  {
    SubtotalAround(items, i);
    Money.SubtotalConcat(items[..i], items[i + 1..]);
  }

  /** Editing a description changes no amount and so no total. */
  lemma {:induction false} DescriptionEditKeepsAmounts(items: seq<LineItem>, i: int, text: string, toNumber: string -> real)
    ensures SumOfRows(Update(items, i, Description(text), toNumber)) == SumOfRows(items)
    ensures Money.Subtotal(Update(items, i, Description(text), toNumber)) == Money.Subtotal(items)
    decreases |items|
  {
    var u := Update(items, i, Description(text), toNumber);
    if |items| > 0 {
      DescriptionEditKeepsAmounts(items[1..], i - 1, text, toNumber);
      assert u[1..] == Update(items[1..], i - 1, Description(text), toNumber);
      assert RowTotal(u[0]) == RowTotal(items[0]);
    }
    SubtotalIsSumOfRows(items);
    SubtotalIsSumOfRows(u);
  }

  /** The tax row of the footer: its label and its value (`None` for the dash). The rate
      appears as its decimal text. */
  function TaxRow(taxExempt: bool, rateText: string, taxAmount: real): (r: (string, Option<real>))
    ensures r.1.None? <==> taxExempt
    ensures r.1.Some? ==> r.1.value == taxAmount
    ensures taxExempt ==> r.0 == "GCT (Exempt)"
    ensures !taxExempt ==> r.0 == "GCT (" + rateText + "%)"
  {
    if taxExempt then ("GCT (Exempt)", None) else ("GCT (" + rateText + "%)", Some(taxAmount))
  }

  /** The footer under the rows: subtotal, tax row and total, taken from `calcTotals`. */
  datatype Footer = Footer(subtotal: real, taxLabel: string, taxShown: Option<real>, total: real)

  function FooterOf(items: seq<LineItem>, taxRate: real, rateText: string, taxExempt: bool): (r: Footer)
    ensures r.subtotal == SumOfRows(items)
    ensures r.total == r.subtotal + (if r.taxShown.Some? then r.taxShown.value else 0.0)
    ensures r.taxShown.None? <==> taxExempt
    ensures r.taxShown.Some? ==> r.taxShown.value == Money.CalcTotals(items, taxRate, taxExempt).taxAmount
  {
    SubtotalIsSumOfRows(items);
    var t := Money.CalcTotals(items, taxRate, taxExempt);
    var row := TaxRow(taxExempt, rateText, t.taxAmount);
    Footer(t.subtotal, row.0, row.1, t.total)
  }
}
