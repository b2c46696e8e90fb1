/** CouponRepository: coupons kept in a list, saved by upsert on the id. */
module CouponRepositories {
  import opened Common
  import opened Entities
  import opened Filters

  function CouponHasId(id: Uuid): Coupon -> bool
  {
    (c: Coupon) => c.id == Some(id)
  }

  function CouponLacksId(id: Uuid): Coupon -> bool
  {
    (c: Coupon) => c.id != Some(id)
  }

  function CouponHasCode(code: string): Coupon -> bool
  {
    (c: Coupon) => c.code == code
  }

  /** findByValidUntilAfter's test: strictly after, and a missing expiry
      never passes. */
  function ValidAfter(date: Day): Coupon -> bool
  {
    (c: Coupon) => c.validUntil.Some? && c.validUntil.value > date
  }

  /** findByUsageCountLessThanMaxUsage's test: strictly below, and a missing
      count or limit never passes. */
  function UsageBelowMax(): Coupon -> bool
  {
    (c: Coupon) => c.usageCount.Some? && c.maxUsage.Some? && c.usageCount.value < c.maxUsage.value
  }

  /** A coupon whose count has reached its limit is not listed, and neither
      is one that expires on the given day. */
  lemma FiltersAreStrict(c: Coupon, date: Day)
    ensures c.usageCount.Some? && c.maxUsage.Some? && c.usageCount.value == c.maxUsage.value ==> !UsageBelowMax()(c)
    ensures c.validUntil == Some(date) ==> !ValidAfter(date)(c)
    ensures c.validUntil.None? ==> forall d :: !ValidAfter(d)(c)
  {
  }

  class CouponRepository {
    var couponData: seq<Coupon>

    /** Every stored coupon has an id and no two share one. */
    ghost predicate Valid()
      reads this
    {
      && (forall i :: 0 <= i < |couponData| ==> couponData[i].id.Some?)
      && (forall i, j :: 0 <= i < j < |couponData| ==> couponData[i].id != couponData[j].id)
    }

    constructor ()
      ensures Valid() && couponData == []
    {
      couponData := [];
    }

    /** An id no stored coupon carries. */
    predicate Unused(id: Uuid)
      reads this
    {
      forall i :: 0 <= i < |couponData| ==> couponData[i].id != Some(id)
    }

    /** findById: the first coupon with the id. */
    function FindById(id: Uuid): (r: Option<Coupon>)
      reads this
      ensures r.None? <==> Unused(id)
      ensures r.Some? ==> r.value in couponData && r.value.id == Some(id)
    {
      match FirstIndex(couponData, CouponHasId(id))
      case None => None
      case Some(k) => Some(couponData[k])
    }

    /** save: a missing id becomes `freshId`; the stored coupon with that id
        is replaced at its position, or else the coupon is appended. */
    method Save(coupon: Coupon, freshId: Uuid) returns (saved: Coupon)
      requires Valid()
      requires coupon.id.None? ==> Unused(freshId)
      modifies this
      ensures Valid()
      ensures saved == coupon.(id := Some(if coupon.id.Some? then coupon.id.value else freshId))
      ensures FindById(saved.id.value) == Some(saved)
      ensures old(FirstIndex(couponData, CouponHasId(saved.id.value))).None? ==> couponData == old(couponData) + [saved]
      ensures old(FirstIndex(couponData, CouponHasId(saved.id.value))).Some? ==>
                couponData == old(couponData)[old(FirstIndex(couponData, CouponHasId(saved.id.value))).value := saved]
    {
      saved := coupon;
      if saved.id.None? {
        saved := saved.(id := Some(freshId));
      }
      var existing := FirstIndex(couponData, CouponHasId(saved.id.value));
      var at := if existing.Some? then existing.value else |couponData|;
      if existing.Some? {
        couponData := couponData[at := saved];
      } else {
        couponData := couponData + [saved];
      }
      assert CouponHasId(saved.id.value)(couponData[at]);
    }

    /** deleteById: exactly the coupons with the id go. */
    method DeleteById(id: Uuid)
      requires Valid()
      modifies this
      ensures Valid()
      ensures couponData == Filter(old(couponData), CouponLacksId(id))
      ensures Unused(id)
      ensures forall c :: c in old(couponData) && c.id != Some(id) ==> c in couponData
    {
      couponData := Filter(couponData, CouponLacksId(id));
      var key := (c: Coupon) => c.id;
      assert DistinctKeys(old(couponData), key);
      FilterKeepsDistinct(old(couponData), CouponLacksId(id), key);
      forall i, j | 0 <= i < j < |couponData|
        ensures couponData[i].id != couponData[j].id
      {
        assert key(couponData[i]) != key(couponData[j]);
      }
    }

    /** findByValidUntilAfter */
    function FindByValidUntilAfter(date: Day): (r: seq<Coupon>)
      reads this
      ensures forall c :: c in r <==> c in couponData && c.validUntil.Some? && c.validUntil.value > date
    {
      Filter(couponData, ValidAfter(date))
    }

    /** findByUsageCountLessThanMaxUsage */
    function FindByUsageCountLessThanMaxUsage(): (r: seq<Coupon>)
      reads this
      ensures forall c :: c in r <==>
                c in couponData && c.usageCount.Some? && c.maxUsage.Some? && c.usageCount.value < c.maxUsage.value
    {
      Filter(couponData, UsageBelowMax())
    }

    /** existsByCode */
    function ExistsByCode(code: string): (b: bool)
      reads this
      ensures b <==> exists c :: c in couponData && c.code == code
    {
      var k := FirstIndex(couponData, CouponHasCode(code));
      assert k.None? ==> forall c :: c in couponData ==> c.code != code;
      k.Some?
    }
  }
}
