/** The state of the Invoice component and its event handlers. Each handler
    replaces the component state the way its setter call does; a handler's
    `modifies` frame names the only state it may change. */
module InvoiceComponent {
  import opened Draft
  import Totals
  import Coupon

  class Invoice {
    /** `invoiceDetails`: the draft. */
    var details: InvoiceDetails
    /** `coupon`: the text in the coupon input. */
    var coupon: string
    /** `couponDiscount`: the flat discount of the last accepted coupon. */
    var couponDiscount: real

    /** The coupon discount is 0 or 100. */
    ghost predicate Valid()
      reads this
    {
      Coupon.Reachable(couponDiscount)
    }

    /** The state the component is mounted with. */
    constructor ()
      ensures Valid()
      ensures details == InitialDetails && coupon == "" && couponDiscount == 0.0
    {
      details := InitialDetails;
      coupon := "";
      couponDiscount := 0.0;
    }

    /** `totals`: the summary derived from the current state. */
    function Summary(): (t: Totals.TotalsSummary)
      reads this
      ensures t.subtotal == Totals.Sum(Totals.LineValue, details.items)
      ensures t.totalTax == Totals.Sum(Totals.LineTax, details.items)
      ensures t.totalDiscount == t.subtotal * Val(details.discount) / 100.0 + couponDiscount
      ensures t.total == t.subtotal + t.totalTax - t.totalDiscount
    {
      Totals.CalculateTotal(details, couponDiscount)
    }

    /** `handleChange`: one top-level field takes the value of the input. */
    method HandleChange(edit: DraftEdit)
      requires Valid()
      modifies this`details
      ensures Valid()
      ensures details == UpdateDetails(old(details), edit)
    {
      details := UpdateDetails(details, edit);
    }

    /** `handleItemChange`: one field of row `index` takes the value of the input.
        An index naming no row throws before the state is set (`ok` is false). */
    method HandleItemChange(index: int, edit: ItemEdit) returns (ok: bool)
      requires Valid()
      modifies this`details
      ensures Valid()
      ensures ok <==> 0 <= index < |old(details.items)|
      ensures ok ==> details == old(details).(items := old(details.items)[index := UpdateItem(old(details.items)[index], edit)])
      ensures !ok ==> details == old(details)
    {
      match ChangeItem(details.items, index, edit)
      case Some(items) =>
        details := details.(items := items);
        ok := true;
      case None =>
        ok := false;
    }

    /** `addItem`: a blank row is appended after all existing rows. */
    method AddItem()
      requires Valid()
      modifies this`details
      ensures Valid()
      ensures details == old(details).(items := old(details.items) + [BlankItem])
    {
      details := details.(items := details.items + [BlankItem]);
    }

    /** `removeItem`: `splice(index, 1)` on the rows; every other field is kept. */
    method RemoveItem(index: int)
      requires Valid()
      modifies this`details
      ensures Valid()
      ensures details == old(details).(items := RemoveAt(old(details.items), index))
    {
      details := details.(items := RemoveAt(details.items, index));
    }

    /** The coupon input's `onChange`: the entered text is kept as typed. */
    method SetCoupon(code: string)
      requires Valid()
      modifies this`coupon
      ensures Valid()
      ensures coupon == code
    {
      coupon := code;
    }

    /** `handleApplyCoupon`: the entered code is resolved; on a match the coupon
        discount becomes 100, otherwise the rejection is reported and the
        discount is kept. */
    method HandleApplyCoupon() returns (rejected: bool)
      requires Valid()
      modifies this`couponDiscount
      ensures Valid()
      ensures rejected <==> coupon != Coupon.ValidCode
      ensures couponDiscount == Coupon.DiscountAfter(coupon, old(couponDiscount))
      ensures rejected ==> couponDiscount == old(couponDiscount)
    {
      match Coupon.Resolve(coupon)
      case Accepted(amount) =>
        couponDiscount := amount;
        rejected := false;
      case Rejected =>
        rejected := true;
    }
  }

  /** A session of the component: one 2 x 50 row at 10 percent tax, a
      10 percent discount, a rejected and then an accepted coupon, and a
      removal past the last row. */
  method Session()
  {
    var inv := new Invoice();
    var ok := inv.HandleItemChange(0, EditNumber(Quantity, Num(2.0)));
    ok := inv.HandleItemChange(0, EditNumber(Price, Num(50.0)));
    ok := inv.HandleItemChange(0, EditNumber(Tax, Num(10.0)));
    assert ok && inv.details.items == [LineItem("", Num(2.0), Num(50.0), Num(10.0))];
    assert inv.Summary() == Totals.TotalsSummary(100.0, 10.0, 0.0, 0.0, 110.0);

    inv.HandleChange(EditDiscount(Num(10.0)));
    assert inv.Summary().total == 100.0;

    inv.SetCoupon("WRONG");
    var rejected := inv.HandleApplyCoupon();
    assert rejected && inv.couponDiscount == 0.0;

    inv.SetCoupon("DISCOUNT100");
    rejected := inv.HandleApplyCoupon();
    assert !rejected && inv.Summary().totalDiscount == 110.0 && inv.Summary().total == 0.0;

    var before := inv.details.items;
    inv.RemoveItem(|before|);
    assert inv.details.items == before;

    ok := inv.HandleItemChange(1, EditDescription("late"));
    assert !ok && inv.details.items == before;
  }
}
