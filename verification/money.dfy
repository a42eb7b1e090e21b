/** Quote totals (`calcTotals` in src/lib/utils.ts): subtotal of the line items,
    tax rounded to cents unless the quote is tax exempt, and the grand total. */
module Money {
  import opened Domain

  /** The three figures shown under a quote's line items. */
  datatype Totals = Totals(subtotal: real, taxAmount: real, total: real)

  /** `quantity * unit_price`, the amount of one row. */
  function LineTotal(item: LineItem): real {
    item.quantity * item.unitPrice
  }

  /** `items.reduce((s, it) => s + it.quantity * it.unit_price, 0)`: a left fold. */
  function Subtotal(items: seq<LineItem>): real
    decreases |items|
  {
    if |items| == 0 then 0.0 else Subtotal(items[..|items| - 1]) + LineTotal(items[|items| - 1])
  }

  /** `Math.round(x)`: the nearest integer, halves rounded towards positive infinity. */
  function RoundHalfUp(x: real): (r: int)
    ensures x - 0.5 < r as real <= x + 0.5
  {
    (x + 0.5).Floor
  }

  /** The tax on `subtotal`: zero when exempt, else `subtotal * rate%` rounded to whole cents. */
  function TaxAmount(subtotal: real, taxRate: real, taxExempt: bool): (r: real)
    ensures taxExempt ==> r == 0.0
    ensures !taxExempt ==> -1.0 / 200.0 < r - subtotal * taxRate / 100.0 <= 1.0 / 200.0
    ensures (r * 100.0).Floor as real == r * 100.0
  {
    if taxExempt then 0.0
    else (RoundHalfUp(subtotal * (taxRate / 100.0) * 100.0) as real) / 100.0
  }

  /** `calcTotals(items, taxRate, taxExempt)`. */
  function CalcTotals(items: seq<LineItem>, taxRate: real, taxExempt: bool): (r: Totals)
    ensures r.subtotal == Subtotal(items)
    ensures r.taxAmount == TaxAmount(r.subtotal, taxRate, taxExempt)
    ensures (r.taxAmount * 100.0).Floor as real == r.taxAmount * 100.0
    ensures r.total == r.subtotal + r.taxAmount
    ensures taxExempt ==> r.taxAmount == 0.0 && r.total == r.subtotal
    ensures !taxExempt ==> -1.0 / 200.0 < r.taxAmount - r.subtotal * taxRate / 100.0 <= 1.0 / 200.0
  {
    var subtotal := Subtotal(items);
    var tax := TaxAmount(subtotal, taxRate, taxExempt);
    Totals(subtotal, tax, subtotal + tax)
  }

  /** No items: every figure is zero, whatever the rate. */
  lemma EmptyTotals(taxRate: real, taxExempt: bool)
    ensures CalcTotals([], taxRate, taxExempt) == Totals(0.0, 0.0, 0.0)
  {
  }

  /** The subtotal is additive: the items of two lists together sum to the two subtotals. */
  lemma {:induction false} SubtotalConcat(a: seq<LineItem>, b: seq<LineItem>)
    ensures Subtotal(a + b) == Subtotal(a) + Subtotal(b)
    decreases |b|
  {
    if |b| > 0 {
      var b' := b[..|b| - 1];
      assert (a + b)[..|a + b| - 1] == a + b';
      SubtotalConcat(a, b');
    } else {
      assert a + b == a;
    }
  }

  /** A single row's subtotal is its own amount. */
  lemma SubtotalSingle(item: LineItem)
    ensures Subtotal([item]) == LineTotal(item)
  {
  }

  /** With non-negative quantities and prices (what the inputs' `min` attributes ask for),
      the subtotal is non-negative. */
  lemma {:induction false} SubtotalNonNegative(items: seq<LineItem>)
    requires forall i :: 0 <= i < |items| ==> items[i].quantity >= 0.0 && items[i].unitPrice >= 0.0
    ensures Subtotal(items) >= 0.0
    decreases |items|
  {
    if |items| > 0 {
      SubtotalNonNegative(items[..|items| - 1]);
      var it := items[|items| - 1];
      assert it.quantity * it.unitPrice >= 0.0;
    }
  }

  /** Two rows (2 x 100 and 1 x 50) at 15%, not exempt: 250, 37.50, 287.50. */
  lemma ExampleTwoRows()
    ensures CalcTotals([LineItem("a", 2.0, 100.0), LineItem("b", 1.0, 50.0)], 15.0, false)
         == Totals(250.0, 37.5, 287.5)
  {
    var items := [LineItem("a", 2.0, 100.0), LineItem("b", 1.0, 50.0)];
    assert items[..1] == [LineItem("a", 2.0, 100.0)];
    assert [LineItem("a", 2.0, 100.0)][..0] == [];
    assert Subtotal(items[..1]) == 200.0;
    assert Subtotal(items) == 250.0;
    assert RoundHalfUp(250.0 * (15.0 / 100.0) * 100.0) == 3750;
  }

  /** A tax of 49.9995 rounds up to 50.00 (on exact decimals). */
  lemma ExampleRoundsToCents()
    ensures TaxAmount(333.33, 15.0, false) == 50.0
  {
  }
}
