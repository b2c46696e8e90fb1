/** CouponServiceImpl: creating, changing and deleting coupons, and the
    validity rule a coupon's own data must meet. */
module CouponService {
  import opened Common
  import opened Entities

  /** CouponRequest */
  datatype CouponRequest = CouponRequest(
    code: string,
    discountAmount: Option<int>,
    maxUsage: Option<int>,
    validUntil: Option<Day>)

  datatype CouponError = CouponNotFound(id: Uuid) | InvalidCouponData | CodeExists | NewCodeExists

  function CouponMessage(e: CouponError): string
  {
    match e
    case CouponNotFound(_) => "Coupon not found with id: "
    case InvalidCouponData => "Invalid coupon data"
    case CodeExists => "Coupon code already exists"
    case NewCodeExists => "New coupon code already exists"
  }

  /** isValidCoupon: a positive discount, a positive usage limit, and an
      expiry that is present and not before today. The usage count plays no
      part. */
  predicate IsValidCoupon(c: Coupon, today: Day)
  {
    && c.discountAmount.Some? && c.discountAmount.value > 0
    && c.maxUsage.Some? && c.maxUsage.value > 0
    && c.validUntil.Some? && !(c.validUntil.value < today)
  }

  /** Validity ignores the usage count and the id, and an expiry that is
      valid today stays valid until it passes. */
  lemma {:induction false} ValidityIgnoresUsage(c: Coupon, today: Day, usage: Option<int>, id: Option<Uuid>, earlier: Day)
    requires IsValidCoupon(c, today) && earlier <= today
    ensures IsValidCoupon(c.(usageCount := usage, id := id), today)
    ensures IsValidCoupon(c, earlier)
    ensures c.validUntil.value == today ==> IsValidCoupon(c, today) && !IsValidCoupon(c, today + 1)
  {
  }

  /** existsByCode */
  predicate CodeTaken(coupons: map<Uuid, Coupon>, code: string)
  {
    exists k :: k in coupons && coupons[k].code == code
  }

  class CouponService {
    var coupons: map<Uuid, Coupon>

    /** Coupons are filed under their ids and no two share a code. */
    ghost predicate Valid()
      reads this
    {
      (forall k :: k in coupons ==> coupons[k].id == Some(k)) && UniqueCodes(coupons)
    }

    constructor ()
      ensures Valid() && coupons == map[]
    {
      coupons := map[];
    }

    /** getCouponById */
    function GetCouponById(id: Uuid): (r: Result<Coupon, CouponError>)
      reads this
      ensures r.Ok? <==> id in coupons
      ensures r.Ok? ==> r.value == coupons[id]
      ensures r.Err? ==> r.error == CouponNotFound(id)
    {
      if id in coupons then Ok(coupons[id]) else Err(CouponNotFound(id))
    }

    /** createCoupon: a valid coupon with an unused code is stored with a
        usage count of zero; anything else is refused and nothing is
        stored. `freshId` is the builder's random id. */
    method Create(request: CouponRequest, freshId: Uuid, today: Day) returns (r: Result<Coupon, CouponError>)
      requires Valid() && freshId !in coupons
      modifies this
      ensures Valid()
      ensures var built := Coupon(Some(freshId), request.code, request.discountAmount, request.maxUsage, None, request.validUntil);
              && (!IsValidCoupon(built, today) ==> r == Err(InvalidCouponData))
              && (IsValidCoupon(built, today) && CodeTaken(old(coupons), request.code) ==> r == Err(CodeExists))
              && (r.Ok? <==> IsValidCoupon(built, today) && !CodeTaken(old(coupons), request.code))
              && (r.Ok? ==> r.value == built.(usageCount := Some(0)) && coupons == old(coupons)[freshId := r.value])
      ensures r.Err? ==> coupons == old(coupons)
    {
      var coupon := Coupon(Some(freshId), request.code, request.discountAmount, request.maxUsage, None, request.validUntil);
      if !IsValidCoupon(coupon, today) {
        return Err(InvalidCouponData);
      }
      if CodeTaken(coupons, coupon.code) {
        return Err(CodeExists);
      }
      coupon := coupon.(usageCount := Some(0));
      coupons := coupons[freshId := coupon];
      r := Ok(coupon);
    }

    /** updateCoupon: the code, discount, limit and expiry are overwritten;
        a changed code must be unused; the result must be valid, or nothing
        is stored. The id and the usage count are kept. */
    method Update(id: Uuid, request: CouponRequest, today: Day) returns (r: Result<Coupon, CouponError>)
      requires Valid()
      modifies this
      ensures Valid()
      ensures id !in old(coupons) ==> r == Err(CouponNotFound(id))
      ensures id in old(coupons) ==>
                var existing := old(coupons)[id];
                var updated := existing.(code := request.code, discountAmount := request.discountAmount,
                                         maxUsage := request.maxUsage, validUntil := request.validUntil);
                && (existing.code != request.code && CodeTaken(old(coupons), request.code) ==> r == Err(NewCodeExists))
                && (((existing.code == request.code || !CodeTaken(old(coupons), request.code))
                     && !IsValidCoupon(updated, today)) ==> r == Err(InvalidCouponData))
                && (r.Ok? <==> (existing.code == request.code || !CodeTaken(old(coupons), request.code))
                               && IsValidCoupon(updated, today))
                && (r.Ok? ==> r.value == updated && coupons == old(coupons)[id := updated])
      ensures r.Err? ==> coupons == old(coupons)
    {
      var found := GetCouponById(id);
      if found.Err? {
        return Err(found.error);
      }
      var existing := found.value;
      if existing.code != request.code && CodeTaken(coupons, request.code) {
        return Err(NewCodeExists);
      }
      var updated := existing.(code := request.code, discountAmount := request.discountAmount,
                               maxUsage := request.maxUsage, validUntil := request.validUntil);
      if !IsValidCoupon(updated, today) {
        return Err(InvalidCouponData);
      }
      coupons := coupons[id := updated];
      r := Ok(updated);
    }

    /** deleteCoupon: a missing id is refused and nothing is removed. */
    method Delete(id: Uuid) returns (r: Outcome<CouponError>)
      requires Valid()
      modifies this
      ensures Valid()
      ensures r.Pass? <==> id in old(coupons)
      ensures r.Pass? ==> coupons == old(coupons) - {id}
      ensures r.Fail? ==> r.error == CouponNotFound(id) && coupons == old(coupons)
    {
      var found := GetCouponById(id);
      if found.Err? {
        return Fail(found.error);
      }
      coupons := coupons - {id};
      r := Pass;
    }
  }
}
