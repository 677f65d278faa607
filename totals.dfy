/** `calculateTotal`: the totals summary derived from the draft and the coupon
    discount, recomputed on every render and never stored. Amounts are exact
    reals. */
module Totals {
  import opened Draft

  /** The two per-row amounts the component accumulates. */
  datatype Measure = LineValue | LineTax

  /** A row's contribution to one accumulation: `quantity * price`, or
      `quantity * price * tax / 100`, with blank fields counting as 0. */
  function Contribution(m: Measure, item: LineItem): real
  {
    match m
    case LineValue => Val(item.quantity) * Val(item.price)
    case LineTax => Val(item.quantity) * Val(item.price) * Val(item.tax) / 100.0
  }

  /** The reference sum of one measure over the rows, defined by structure. */
  function Sum(m: Measure, items: seq<LineItem>): real
  {
    if items == [] then 0.0 else Contribution(m, items[0]) + Sum(m, items[1..])
  }

  /** `items.reduce((acc, item) => acc + contribution, acc)`: the left fold the
      component runs. It always agrees with the reference sum. */
  function Reduce(m: Measure, acc: real, items: seq<LineItem>): (r: real)
    ensures r == acc + Sum(m, items)
    decreases |items|
  {
    if items == [] then acc else Reduce(m, acc + Contribution(m, items[0]), items[1..])
  }

  datatype TotalsSummary = TotalsSummary(
    subtotal: real,
    totalTax: real,
    discountAmount: real,
    totalDiscount: real,
    total: real)

  /** The totals of a draft with the given coupon discount. The total is not
      clamped: it is negative when the discounts exceed subtotal plus tax. */
  function CalculateTotal(d: InvoiceDetails, couponDiscount: real): (t: TotalsSummary)
    ensures t.subtotal == Sum(LineValue, d.items)
    ensures t.totalTax == Sum(LineTax, d.items)
    ensures t.discountAmount == t.subtotal * Val(d.discount) / 100.0
    ensures t.totalDiscount == t.discountAmount + couponDiscount
    ensures t.total == Sum(LineValue, d.items) * (1.0 - Val(d.discount) / 100.0)
                       + Sum(LineTax, d.items) - couponDiscount
  {
    var subtotal := Reduce(LineValue, 0.0, d.items);
    var totalTax := Reduce(LineTax, 0.0, d.items);
    var discountAmount := (subtotal * Val(d.discount)) / 100.0;
    var totalDiscount := discountAmount + couponDiscount;
    TotalsSummary(subtotal, totalTax, discountAmount, totalDiscount, subtotal + totalTax - totalDiscount)
  }

  /** The sum of a concatenation is the sum of the parts. */
  lemma {:induction false} SumAppend(m: Measure, a: seq<LineItem>, b: seq<LineItem>)
    ensures Sum(m, a + b) == Sum(m, a) + Sum(m, b)
  {
    if a == [] {
      assert a + b == b;
    } else {
      assert (a + b)[1..] == a[1..] + b;
      SumAppend(m, a[1..], b);
    }
  }

  /** Removing row `i` takes exactly its contribution off the sum. */
  lemma SumRemoveAt(m: Measure, items: seq<LineItem>, i: int)
    requires 0 <= i < |items|
    ensures Sum(m, RemoveAt(items, i)) == Sum(m, items) - Contribution(m, items[i])
  {
    assert items == items[..i] + ([items[i]] + items[i + 1..]);
    assert RemoveAt(items, i) == items[..i] + items[i + 1..];
    SumAppend(m, items[..i], [items[i]] + items[i + 1..]);
    SumAppend(m, items[..i], items[i + 1..]);
  }

  /** The sums do not depend on the order of the rows. */
  lemma {:induction false} SumPermutation(m: Measure, a: seq<LineItem>, b: seq<LineItem>)
    requires multiset(a) == multiset(b)
    ensures Sum(m, a) == Sum(m, b)
    decreases |a|
  {
    if a == [] {
      assert |b| == |multiset(b)| == 0;
    } else {
      var j := MatchFirst(a, b);
      var rest := RemoveAt(b, j);
      SumPermutation(m, a[1..], rest);
      SumRemoveAt(m, b, j);
    }
  }

  /** Where the first row of `a` sits in a permutation `b` of it, and that the
      remaining rows of both are again permutations of each other. */
  lemma MatchFirst(a: seq<LineItem>, b: seq<LineItem>) returns (j: int)
    requires a != [] && multiset(a) == multiset(b)
    ensures 0 <= j < |b| && b[j] == a[0]
    ensures multiset(a[1..]) == multiset(RemoveAt(b, j))
  {
    var x := a[0];
    assert a == [x] + a[1..];
    assert multiset(a[1..]) == multiset(a) - multiset{x};
    assert x in b by {
      assert x in multiset(b);
    }
    j :| 0 <= j < |b| && b[j] == x;
    var rest := RemoveAt(b, j);
    assert multiset(rest) == multiset(b) - multiset{x};
  }

  /** A row whose three numbers are all non-negative. */
  predicate NonNegative(item: LineItem)
  {
    Val(item.quantity) >= 0.0 && Val(item.price) >= 0.0 && Val(item.tax) >= 0.0
  }

  lemma {:induction false} SumNonNegative(m: Measure, items: seq<LineItem>)
    requires forall k :: 0 <= k < |items| ==> NonNegative(items[k])
    ensures Sum(m, items) >= 0.0
  {
    if items != [] {
      var it := items[0];
      assert NonNegative(it);
      var qp := Val(it.quantity) * Val(it.price);
      assert qp >= 0.0;
      assert qp * Val(it.tax) >= 0.0;
      SumNonNegative(m, items[1..]);
    }
  }

  /** With no negative quantity, price or tax, subtotal and tax are non-negative. */
  lemma SubtotalAndTaxNonNegative(d: InvoiceDetails, couponDiscount: real)
    requires forall k :: 0 <= k < |d.items| ==> NonNegative(d.items[k])
    ensures CalculateTotal(d, couponDiscount).subtotal >= 0.0
    ensures CalculateTotal(d, couponDiscount).totalTax >= 0.0
  {
    SumNonNegative(LineValue, d.items);
    SumNonNegative(LineTax, d.items);
  }

  /** Reordering the rows leaves every total unchanged. */
  lemma TotalsIgnoreOrder(d: InvoiceDetails, items: seq<LineItem>, couponDiscount: real)
    requires multiset(items) == multiset(d.items)
    ensures CalculateTotal(d.(items := items), couponDiscount) == CalculateTotal(d, couponDiscount)
  {
    SumPermutation(LineValue, items, d.items);
    SumPermutation(LineTax, items, d.items);
  }

  /** Appending a blank row ("Add New Line") leaves every total unchanged. */
  lemma AddItemKeepsTotals(d: InvoiceDetails, couponDiscount: real)
    ensures CalculateTotal(d.(items := d.items + [BlankItem]), couponDiscount)
            == CalculateTotal(d, couponDiscount)
  {
    SumAppend(LineValue, d.items, [BlankItem]);
    SumAppend(LineTax, d.items, [BlankItem]);
  }

  /** Removing row `i` lowers subtotal and tax by that row's amounts. */
  lemma RemoveItemTotals(d: InvoiceDetails, i: int, couponDiscount: real)
    requires 0 <= i < |d.items|
    ensures CalculateTotal(d.(items := RemoveAt(d.items, i)), couponDiscount).subtotal
            == CalculateTotal(d, couponDiscount).subtotal - Contribution(LineValue, d.items[i])
    ensures CalculateTotal(d.(items := RemoveAt(d.items, i)), couponDiscount).totalTax
            == CalculateTotal(d, couponDiscount).totalTax - Contribution(LineTax, d.items[i])
  {
    SumRemoveAt(LineValue, d.items, i);
    SumRemoveAt(LineTax, d.items, i);
  }

  /** Replacing row `i` by `x` changes a sum by the difference of the two rows. */
  lemma SumReplace(m: Measure, items: seq<LineItem>, i: int, x: LineItem)
    requires 0 <= i < |items|
    ensures Sum(m, items[i := x]) == Sum(m, items) - Contribution(m, items[i]) + Contribution(m, x)
  {
    assert items == items[..i] + ([items[i]] + items[i + 1..]);
    assert items[i := x] == items[..i] + ([x] + items[i + 1..]);
    SumAppend(m, items[..i], [items[i]] + items[i + 1..]);
    SumAppend(m, items[..i], [x] + items[i + 1..]);
  }

  /** Editing a row changes subtotal and tax by the difference that row makes;
      editing its description changes no total. */
  lemma ChangeItemTotals(d: InvoiceDetails, i: int, edit: ItemEdit, couponDiscount: real)
    requires 0 <= i < |d.items|
    ensures var after := CalculateTotal(d.(items := ChangeItem(d.items, i, edit).value), couponDiscount);
            var before := CalculateTotal(d, couponDiscount);
            var x := UpdateItem(d.items[i], edit);
            after.subtotal == before.subtotal - Contribution(LineValue, d.items[i]) + Contribution(LineValue, x) &&
            after.totalTax == before.totalTax - Contribution(LineTax, d.items[i]) + Contribution(LineTax, x)
    ensures edit.EditDescription? ==>
            CalculateTotal(d.(items := ChangeItem(d.items, i, edit).value), couponDiscount)
            == CalculateTotal(d, couponDiscount)
  {
    var x := UpdateItem(d.items[i], edit);
    SumReplace(LineValue, d.items, i, x);
    SumReplace(LineTax, d.items, i, x);
    if edit.EditDescription? {
      assert x == d.items[i].(description := edit.text);
      assert x.quantity == d.items[i].quantity && x.price == d.items[i].price && x.tax == d.items[i].tax;
      assert Contribution(LineValue, x) == Contribution(LineValue, d.items[i]);
      assert Contribution(LineTax, x) == Contribution(LineTax, d.items[i]);
    }
  }

  /** Editing a text field or the currency changes no total. */
  lemma TextEditKeepsTotals(d: InvoiceDetails, name: TextName, text: string, couponDiscount: real)
    ensures CalculateTotal(UpdateDetails(d, EditText(name, text)), couponDiscount)
            == CalculateTotal(d, couponDiscount)
  {
  }

  /** Editing the discount keeps subtotal and tax; the discount amount becomes
      the new percentage of the subtotal and the total moves by the difference. */
  lemma DiscountEditTotals(d: InvoiceDetails, v: Field, couponDiscount: real)
    ensures var after := CalculateTotal(UpdateDetails(d, EditDiscount(v)), couponDiscount);
            var before := CalculateTotal(d, couponDiscount);
            after.subtotal == before.subtotal && after.totalTax == before.totalTax &&
            after.discountAmount == before.subtotal * Val(v) / 100.0 &&
            after.total == before.total + before.discountAmount - after.discountAmount
  {
  }

  /** A coupon larger than subtotal plus tax drives the total below zero: with
      the initial draft and the 100 coupon the total is -100. */
  lemma TotalCanBeNegative()
    ensures CalculateTotal(InitialDetails, 100.0).total == -100.0
  {
  }

  /** One row {quantity 2, price 50, tax 10}. */
  const ScenarioItem: LineItem := LineItem("", Num(2.0), Num(50.0), Num(10.0))

  /** No discount, no coupon: subtotal 100, tax 10, total 110. */
  lemma ScenarioNoDiscount()
    ensures CalculateTotal(InitialDetails.(items := [ScenarioItem]), 0.0)
            == TotalsSummary(100.0, 10.0, 0.0, 0.0, 110.0)
  {
  }

  /** A 10 percent discount: discount 10, total 100; with the coupon on top the
      total discount is 110 and the total 0. */
  lemma ScenarioDiscountAndCoupon()
    ensures CalculateTotal(InitialDetails.(items := [ScenarioItem], discount := Num(10.0)), 0.0)
            == TotalsSummary(100.0, 10.0, 10.0, 10.0, 100.0)
    ensures CalculateTotal(InitialDetails.(items := [ScenarioItem], discount := Num(10.0)), 100.0)
            == TotalsSummary(100.0, 10.0, 10.0, 110.0, 0.0)
  {
  }

  /** A blank quantity contributes 0, not an error. */
  lemma ScenarioBlankQuantity()
    ensures CalculateTotal(InitialDetails.(items := [LineItem("", Blank, Num(20.0), Num(0.0))]), 0.0).subtotal == 0.0
  {
  }
}
