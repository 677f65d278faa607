/** The coupon rule of `handleApplyCoupon`: one code, matched exactly, resolves
    to a flat discount; any other code is rejected and changes nothing. */
module Coupon {

  const ValidCode: string := "DISCOUNT100"
  const CouponAmount: real := 100.0

  datatype Resolution = Accepted(amount: real) | Rejected

  /** The static lookup standing in for a coupon service. */
  function Resolve(code: string): (r: Resolution)
    ensures r.Accepted? <==> code == ValidCode
    ensures r.Accepted? ==> r.amount == CouponAmount
  {
    if code == ValidCode then Accepted(CouponAmount) else Rejected
  }

  /** The coupon discount after "Apply Coupon" with `code` entered, starting
      from `current`: the resolved amount, or `current` on rejection. */
  function DiscountAfter(code: string, current: real): (d: real)
    ensures code == ValidCode ==> d == CouponAmount
    ensures code != ValidCode ==> d == current
  {
    match Resolve(code)
    case Accepted(a) => a
    case Rejected => current
  }

  /** The values the coupon discount can take: the initial 0 or the coupon amount. */
  predicate Reachable(d: real)
  {
    d == 0.0 || d == CouponAmount
  }

  lemma DiscountAfterStaysReachable(code: string, current: real)
    requires Reachable(current)
    ensures Reachable(DiscountAfter(code, current))
  {
  }

  /** Applying the same code twice is the same as applying it once. */
  lemma DiscountAfterIdempotent(code: string, current: real)
    ensures DiscountAfter(code, DiscountAfter(code, current)) == DiscountAfter(code, current)
  {
  }

  /** The coupon discount after pressing "Apply Coupon" once for each entry of
      `codes`, in order. */
  function DiscountAfterAll(codes: seq<string>, current: real): real
  {
    if codes == [] then current else DiscountAfterAll(codes[1..], DiscountAfter(codes[0], current))
  }

  /** Starting from 0, the coupon discount is 100 exactly when the valid code was
      applied at least once, and 0 otherwise. */
  lemma {:induction false} DiscountAfterAllFromZero(codes: seq<string>)
    ensures DiscountAfterAll(codes, 0.0) == (if ValidCode in codes then CouponAmount else 0.0)
  {
    if codes != [] {
      if codes[0] == ValidCode {
        AppliedStaysApplied(codes[1..]);
      } else {
        assert ValidCode in codes <==> ValidCode in codes[1..] by {
          assert codes == [codes[0]] + codes[1..];
        }
        DiscountAfterAllFromZero(codes[1..]);
      }
    }
  }

  /** Once the coupon amount is applied, no later code removes it. */
  lemma {:induction false} AppliedStaysApplied(codes: seq<string>)
    ensures DiscountAfterAll(codes, CouponAmount) == CouponAmount
  {
    if codes != [] {
      AppliedStaysApplied(codes[1..]);
    }
  }
}
