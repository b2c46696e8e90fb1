/** RepairOrderServiceImpl: placing, changing and withdrawing repair orders,
    and the coupon usage accounting that goes with them. Each operation is
    transactional, so a refused operation leaves both tables as they were. */
module RepairOrderService {
  import opened Common
  import opened Entities

  /** CreateAndUpdateRepairOrderRequest */
  datatype OrderRequest = OrderRequest(
    itemName: string,
    itemCondition: string,
    issueDescription: string,
    desiredServiceDate: Day,
    paymentMethodId: Uuid,
    couponCode: Option<string>)

  datatype OrderError =
    | NullArguments
    | TechnicianUnavailable
    | InvalidPaymentMethod
    | CouponNotFound
    | CouponExpired
    | CouponLimitReached
    | MalformedData
    | OrderNotFound
    | NotOwner
    | NotPending

  /** getAndValidateCoupon after the lookup: an expiry in the past, then a
      usage count that already reached the limit. A null expiry passes; a
      null count or limit is unboxed and throws. */
  function CheckCoupon(c: Coupon, today: Day): (r: Outcome<OrderError>)
    ensures r.Pass? <==> (c.validUntil.None? || c.validUntil.value >= today)
                         && c.usageCount.Some? && c.maxUsage.Some? && c.usageCount.value < c.maxUsage.value
    ensures c.validUntil.Some? && c.validUntil.value < today ==> r == Fail(CouponExpired)
    ensures r.Fail? ==> r.error in {CouponExpired, MalformedData, CouponLimitReached}
  {
    if c.validUntil.Some? && c.validUntil.value < today then Fail(CouponExpired)
    else if c.usageCount.None? || c.maxUsage.None? then Fail(MalformedData)
    else if c.usageCount.value >= c.maxUsage.value then Fail(CouponLimitReached)
    else Pass
  }

  /** The coupon check an update applies, as written: the requested coupon
      is checked in full even when the order already holds it, so `held`
      plays no part. */
  function UpdateCouponCheckAsWritten(held: Option<Uuid>, requested: Uuid, c: Coupon, today: Day): Outcome<OrderError>
  {
    CheckCoupon(c, today)
  }

  /** Whenever an order keeps an unexpired coupon whose uses are all taken
      (its own among them), the written check refuses the update and the
      intended one lets it through. */
  lemma KeepingAFullCouponIsRefused(key: Uuid, c: Coupon, today: Day)
    requires c.validUntil.None? || c.validUntil.value >= today
    requires c.usageCount.Some? && c.maxUsage.Some? && c.usageCount.value >= c.maxUsage.value
    ensures UpdateCouponCheckAsWritten(Some(key), key, c, today) == Fail(CouponLimitReached)
    ensures UpdateCouponCheck(Some(key), key, c, today) == Pass
  {
  }

  /** The two checks differ only on the coupon the order already holds, and
      there only by the written one also demanding a use to spare. */
  lemma AsWrittenDiffersOnlyOnHeldCoupon(held: Option<Uuid>, requested: Uuid, c: Coupon, today: Day)
    ensures held != Some(requested) ==>
              UpdateCouponCheckAsWritten(held, requested, c, today) == UpdateCouponCheck(held, requested, c, today)
    ensures UpdateCouponCheckAsWritten(held, requested, c, today).Pass? <==>
              UpdateCouponCheck(held, requested, c, today).Pass?
              && c.usageCount.Some? && c.maxUsage.Some? && c.usageCount.value < c.maxUsage.value
  {
  }

  /** The evidently intended check: the order's own coupon is already
      counted, so keeping it only re-checks the expiry; any other coupon
      is checked in full. */
  function UpdateCouponCheck(held: Option<Uuid>, requested: Uuid, c: Coupon, today: Day): (r: Outcome<OrderError>)
    ensures held != Some(requested) ==> r == CheckCoupon(c, today)
    ensures held == Some(requested) ==> (r.Pass? <==> c.validUntil.None? || c.validUntil.value >= today)
    ensures UpdateCouponCheckAsWritten(held, requested, c, today).Pass? ==> r.Pass?
  {
    if held == Some(requested) then
      if c.validUntil.Some? && c.validUntil.value < today then Fail(CouponExpired) else Pass
    else CheckCoupon(c, today)
  }

  /** The check applied to the coupon found for a code: the full check when
      an order is placed, the update check when an order is rewritten. */
  function CheckFor(coupons: map<Uuid, Coupon>, k: Uuid, held: Option<Uuid>, today: Day, fullCheck: bool): Outcome<OrderError>
    requires k in coupons
  {
    if fullCheck then CheckCoupon(coupons[k], today) else UpdateCouponCheck(held, k, coupons[k], today)
  }

  /** getAndValidateCoupon: findByCode, then the check. Codes are unique, so
      the coupon found is the one and only coupon with that code. */
  ghost function CouponLookup(coupons: map<Uuid, Coupon>, code: string, held: Option<Uuid>, today: Day,
                              fullCheck: bool): (r: Result<Uuid, OrderError>)
    requires UniqueCodes(coupons)
    ensures (forall k :: k in coupons ==> coupons[k].code != code) ==> r == Err(CouponNotFound)
    ensures forall k :: k in coupons && coupons[k].code == code ==>
              if CheckFor(coupons, k, held, today, fullCheck).Pass? then r == Ok(k)
              else r == Err(CheckFor(coupons, k, held, today, fullCheck).error)
  {
    if exists k :: k in coupons && coupons[k].code == code then
      var k :| k in coupons && coupons[k].code == code;
      var check := CheckFor(coupons, k, held, today, fullCheck);
      if check.Pass? then Ok(k) else Err(check.error)
    else Err(CouponNotFound)
  }

  /** Math.max(0, usage - 1): a detach never writes a negative count. */
  function Released(usage: int): (r: int)
    ensures r >= 0
    ensures usage >= 1 ==> r == usage - 1
    ensures usage <= 0 ==> r == 0
  {
    if usage - 1 > 0 then usage - 1 else 0
  }

  /** The orders that hold coupon `c`. */
  function Holders(orders: map<Uuid, RepairOrder>, c: Uuid): set<Uuid>
  {
    set o | o in orders && orders[o].couponId == Some(c)
  }

  /** Writing order `o` moves it out of the holders of its old coupon and
      into the holders of its new one; no other coupon's holders change. */
  lemma HoldersAfterPut(orders: map<Uuid, RepairOrder>, o: Uuid, x: RepairOrder, c: Uuid)
    ensures Holders(orders[o := x], c) ==
              (Holders(orders, c) - {o}) + (if x.couponId == Some(c) then {o} else {})
  {
  }

  lemma HoldersAfterRemove(orders: map<Uuid, RepairOrder>, o: Uuid, c: Uuid)
    ensures Holders(orders - {o}, c) == Holders(orders, c) - {o}
  {
  }

  /** A coupon whose usage count can be moved. */
  predicate Counted(coupons: map<Uuid, Coupon>, k: Option<Uuid>)
  {
    k.Some? ==> k.value in coupons && coupons[k.value].usageCount.Some?
  }

  /** Moving an order from coupon `from` to coupon `to`: nothing when they
      are the same; otherwise one more use of `to` and one fewer of `from`,
      never below zero. No other coupon and no other field changes. */
  function Reassign(coupons: map<Uuid, Coupon>, from: Option<Uuid>, to: Option<Uuid>): (r: map<Uuid, Coupon>)
    requires Counted(coupons, from) && Counted(coupons, to)
    ensures r.Keys == coupons.Keys
    ensures from == to ==> r == coupons
    ensures from != to && to.Some? ==> r[to.value] == coupons[to.value].(usageCount := Some(coupons[to.value].usageCount.value + 1))
    ensures from != to && from.Some? ==> r[from.value] == coupons[from.value].(usageCount := Some(Released(coupons[from.value].usageCount.value)))
    ensures forall c :: c in coupons && Some(c) != from && Some(c) != to ==> r[c] == coupons[c]
  {
    if from == to then coupons
    else
      var attached := if to.Some? then
                        coupons[to.value := coupons[to.value].(usageCount := Some(coupons[to.value].usageCount.value + 1))]
                      else coupons;
      if from.Some? then
        attached[from.value := attached[from.value].(usageCount := Some(Released(attached[from.value].usageCount.value)))]
      else attached
  }

  /** The table invariant: rows filed under their ids, unique coupon codes,
      an order's coupon exists, and each coupon's usage count is exactly the
      number of orders holding it. */
  ghost predicate Consistent(orders: map<Uuid, RepairOrder>, coupons: map<Uuid, Coupon>)
  {
    Filed(orders, coupons) && ExactCounts(orders, coupons) && UniqueCodes(coupons)
  }

  /** Orders are filed under their ids and reference stored coupons. */
  ghost predicate Filed(orders: map<Uuid, RepairOrder>, coupons: map<Uuid, Coupon>)
  {
    forall o :: o in orders ==>
      (orders[o].id == o && (orders[o].couponId.Some? ==> orders[o].couponId.value in coupons))
  }

  /** Coupons are filed under their ids and count exactly their holders. */
  ghost predicate ExactCounts(orders: map<Uuid, RepairOrder>, coupons: map<Uuid, Coupon>)
  {
    forall c :: c in coupons ==>
      (coupons[c].id == Some(c) && coupons[c].usageCount == Some(|Holders(orders, c)|))
  }


  /** One coupon's count after order `o` moves from `from` to `to`: the
      holders gain or lose `o` exactly when Reassign adds or takes a use. */
  lemma {:induction false} PutKeepsCount(orders: map<Uuid, RepairOrder>, o: Uuid, x: RepairOrder,
                                         from: Option<Uuid>, c: Uuid, before: Coupon, after: Coupon)
    requires from == (if o in orders then orders[o].couponId else None)
    requires before.usageCount == Some(|Holders(orders, c)|)
    requires from == x.couponId ==> after == before
    requires from != x.couponId && x.couponId == Some(c) ==> after == before.(usageCount := Some(before.usageCount.value + 1))
    requires from != x.couponId && from == Some(c) ==> after == before.(usageCount := Some(Released(before.usageCount.value)))
    requires Some(c) != from && Some(c) != x.couponId ==> after == before
    ensures after.usageCount == Some(|Holders(orders[o := x], c)|)
  {
    HoldersAfterPut(orders, o, x, c);
    var h := Holders(orders, c);
    assert o in h <==> from == Some(c);
    if from == Some(c) && x.couponId == Some(c) {
      assert Holders(orders[o := x], c) == h;
    } else if from == Some(c) {
      assert Holders(orders[o := x], c) == h - {o};
    } else if x.couponId == Some(c) {
      assert Holders(orders[o := x], c) == h + {o};
    } else {
      assert Holders(orders[o := x], c) == h;
    }
  }

  /** Every coupon's count stays exact when an order is written and its
      coupon usage is moved by Reassign. */
  lemma {:induction false} CountsAfterPut(orders: map<Uuid, RepairOrder>, coupons: map<Uuid, Coupon>,
                                          o: Uuid, x: RepairOrder)
    requires Consistent(orders, coupons)
    requires x.couponId.Some? ==> x.couponId.value in coupons
    ensures var from := if o in orders then orders[o].couponId else None;
            && Counted(coupons, from) && Counted(coupons, x.couponId)
            && ExactCounts(orders[o := x], Reassign(coupons, from, x.couponId))
  {
    var from := if o in orders then orders[o].couponId else None;
    var after := Reassign(coupons, from, x.couponId);
    forall c | c in after
      ensures after[c].id == Some(c) && after[c].usageCount == Some(|Holders(orders[o := x], c)|)
    {
      PutKeepsCount(orders, o, x, from, c, coupons[c], after[c]);
    }
  }

  /** Writing an order, with its coupon usage moved by Reassign, keeps the
      table invariant. */
  lemma {:induction false} PutKeepsAccounting(orders: map<Uuid, RepairOrder>, coupons: map<Uuid, Coupon>,
                                              o: Uuid, x: RepairOrder)
    requires Consistent(orders, coupons) && x.id == o
    requires x.couponId.Some? ==> x.couponId.value in coupons
    ensures var from := if o in orders then orders[o].couponId else None;
            Counted(coupons, from) && Counted(coupons, x.couponId)
            && Consistent(orders[o := x], Reassign(coupons, from, x.couponId))
  {
    CountsAfterPut(orders, coupons, o, x);
    var from := if o in orders then orders[o].couponId else None;
    var after := Reassign(coupons, from, x.couponId);
    assert UniqueCodes(after) by {
      assert forall a :: a in after ==> after[a].code == coupons[a].code;
    }
    assert Filed(orders[o := x], after);
  }

  /** Removing an order gives its coupon one use back and keeps the usage
      counts exact. */
  lemma {:induction false} RemoveKeepsAccounting(orders: map<Uuid, RepairOrder>, coupons: map<Uuid, Coupon>, o: Uuid)
    requires Consistent(orders, coupons) && o in orders
    ensures Counted(coupons, orders[o].couponId)
    ensures Consistent(orders - {o}, Reassign(coupons, orders[o].couponId, None))
  {
    var from := orders[o].couponId;
    var after := Reassign(coupons, from, None);
    forall c | c in after
      ensures after[c].id == Some(c) && after[c].usageCount == Some(|Holders(orders - {o}, c)|)
    {
      HoldersAfterRemove(orders, o, c);
      assert o in Holders(orders, c) <==> from == Some(c);
    }
  }

  class RepairOrderService {
    var orders: map<Uuid, RepairOrder>
    var coupons: map<Uuid, Coupon>
    var paymentMethods: set<Uuid>

    ghost predicate Valid()
      reads this
    {
      Consistent(orders, coupons)
    }

    /** A service over the coupons as created: none is held yet. */
    constructor (coupons: map<Uuid, Coupon>, paymentMethods: set<Uuid>)
      requires forall c :: c in coupons ==> coupons[c].id == Some(c) && coupons[c].usageCount == Some(0)
      requires forall a, b :: (a in coupons && b in coupons && coupons[a].code == coupons[b].code) ==> a == b
      ensures Valid() && orders == map[] && this.coupons == coupons && this.paymentMethods == paymentMethods
    {
      this.orders := map[];
      this.coupons := coupons;
      this.paymentMethods := paymentMethods;
      new;
      forall c | c in coupons
        ensures Holders(orders, c) == {}
      {
      }
    }

    /** couponRepository.findByCode: the coupon stored under that code. */
    ghost predicate HasCode(k: Uuid, code: string)
      reads this
    {
      k in coupons && coupons[k].code == code
    }

    /** getRepairOrderByIdAndValidateState: the order exists, belongs to the
        caller and still awaits confirmation. */
    function OwnedPendingOrder(orderId: Uuid, customer: Uuid): (r: Result<RepairOrder, OrderError>)
      reads this
      ensures r.Ok? <==> orderId in orders && orders[orderId].customerId == customer
                         && orders[orderId].status == PendingConfirmation
      ensures r.Ok? ==> r.value == orders[orderId]
      ensures orderId !in orders ==> r == Err(OrderNotFound)
      ensures orderId in orders && orders[orderId].customerId != customer ==> r == Err(NotOwner)
    {
      if orderId !in orders then Err(OrderNotFound)
      else if orders[orderId].customerId != customer then Err(NotOwner)
      else if orders[orderId].status != PendingConfirmation then Err(NotPending)
      else Ok(orders[orderId])
    }

    /** getAndValidateCoupon against the stored coupons. */
    method FindCoupon(code: string, held: Option<Uuid>, today: Day, fullCheck: bool) returns (r: Result<Uuid, OrderError>)
      requires Valid()
      ensures r == CouponLookup(coupons, code, held, today, fullCheck)
      ensures r.Ok? ==> HasCode(r.value, code) && CheckFor(coupons, r.value, held, today, fullCheck).Pass?
    {
      if !exists k :: k in coupons && coupons[k].code == code {
        return Err(CouponNotFound);
      }
      var k :| k in coupons && coupons[k].code == code;
      var check := CheckFor(coupons, k, held, today, fullCheck);
      if check.Fail? {
        return Err(check.error);
      }
      r := Ok(k);
    }

    /** createRepairOrder. `technician` is the random technician the user
        service returned, if any; `freshId` the generated order id. */
    method Create(request: Option<OrderRequest>, customer: Option<Uuid>, technician: Option<Uuid>,
                  freshId: Uuid, today: Day) returns (r: Result<RepairOrder, OrderError>)
      requires Valid() && freshId !in orders
      modifies this
      ensures Valid() && paymentMethods == old(paymentMethods)
      ensures request.None? || customer.None? ==> r == Err(NullArguments)
      ensures request.Some? && customer.Some? && technician.None? ==> r == Err(TechnicianUnavailable)
      ensures r.Ok? <==> request.Some? && customer.Some? && technician.Some?
                         && request.value.paymentMethodId in paymentMethods
                         && (request.value.couponCode.Some? ==>
                               CouponLookup(old(coupons), request.value.couponCode.value, None, today, true).Ok?)
      ensures request.Some? && customer.Some? && technician.Some? && request.value.paymentMethodId !in paymentMethods ==>
                  r == Err(InvalidPaymentMethod)
      ensures request.Some? && customer.Some? && technician.Some? && request.value.paymentMethodId in paymentMethods
                && request.value.couponCode.Some?
                && CouponLookup(old(coupons), request.value.couponCode.value, None, today, true).Err? ==>
                  r == Err(CouponLookup(old(coupons), request.value.couponCode.value, None, today, true).error)
      ensures r.Err? ==> orders == old(orders) && coupons == old(coupons)
      ensures r.Ok? ==>
                && request.Some? && customer.Some? && technician.Some?
                && request.value.paymentMethodId in paymentMethods
                && r.value == RepairOrder(freshId, customer.value, technician.value, request.value.itemName,
                                          request.value.itemCondition, request.value.issueDescription,
                                          request.value.desiredServiceDate, PendingConfirmation,
                                          request.value.paymentMethodId, r.value.couponId)
                && orders == old(orders)[freshId := r.value]
                && (request.value.couponCode.None? <==> r.value.couponId.None?)
                && Counted(old(coupons), r.value.couponId)
                && coupons == Reassign(old(coupons), None, r.value.couponId)
      ensures r.Ok? && request.value.couponCode.Some? ==>
                r.value.couponId == Some(CouponLookup(old(coupons), request.value.couponCode.value, None, today, true).value)
      ensures r.Ok? && r.value.couponId.Some? ==>
                old(HasCode(r.value.couponId.value, request.value.couponCode.value))
                && CheckCoupon(old(coupons)[r.value.couponId.value], today).Pass?
    {
      if request.None? || customer.None? {
        return Err(NullArguments);
      }
      if technician.None? {
        return Err(TechnicianUnavailable);
      }
      var req := request.value;
      if req.paymentMethodId !in paymentMethods {
        return Err(InvalidPaymentMethod);
      }
      var held: Option<Uuid> := None;
      if req.couponCode.Some? {
        var found := FindCoupon(req.couponCode.value, None, today, true);
        if found.Err? {
          return Err(found.error);
        }
        held := Some(found.value);
      }
      var order := RepairOrder(freshId, customer.value, technician.value, req.itemName, req.itemCondition,
                               req.issueDescription, req.desiredServiceDate, PendingConfirmation,
                               req.paymentMethodId, held);
      PutKeepsAccounting(orders, coupons, freshId, order);
      coupons := Reassign(coupons, None, held);
      orders := orders[freshId := order];
      r := Ok(order);
    }

    /** updateRepairOrder: the owner rewrites a pending order. Switching
        coupons adds one use to the new coupon and takes one from the old;
        dropping the coupon takes one from it; keeping it changes nothing. */
    method Update(orderId: Option<Uuid>, request: Option<OrderRequest>, customer: Option<Uuid>, today: Day)
      returns (r: Result<RepairOrder, OrderError>)
      requires Valid()
      modifies this
      ensures Valid() && paymentMethods == old(paymentMethods)
      ensures orderId.None? || request.None? || customer.None? ==> r == Err(NullArguments)
      ensures r.Ok? <==> orderId.Some? && request.Some? && customer.Some?
                         && old(OwnedPendingOrder(orderId.value, customer.value)).Ok?
                         && request.value.paymentMethodId in paymentMethods
                         && (request.value.couponCode.Some? ==>
                               CouponLookup(old(coupons), request.value.couponCode.value,
                                            old(orders)[orderId.value].couponId, today, false).Ok?)
      ensures orderId.Some? && request.Some? && customer.Some? && old(OwnedPendingOrder(orderId.value, customer.value)).Err? ==>
                  r == Err(old(OwnedPendingOrder(orderId.value, customer.value)).error)
      ensures orderId.Some? && request.Some? && customer.Some? && old(OwnedPendingOrder(orderId.value, customer.value)).Ok?
                && request.value.paymentMethodId !in paymentMethods ==>
                  r == Err(InvalidPaymentMethod)
      ensures orderId.Some? && request.Some? && customer.Some? && old(OwnedPendingOrder(orderId.value, customer.value)).Ok?
                && request.value.paymentMethodId in paymentMethods && request.value.couponCode.Some?
                && CouponLookup(old(coupons), request.value.couponCode.value,
                                old(orders)[orderId.value].couponId, today, false).Err? ==>
                  r == Err(CouponLookup(old(coupons), request.value.couponCode.value,
                                          old(orders)[orderId.value].couponId, today, false).error)
      ensures r.Err? ==> orders == old(orders) && coupons == old(coupons)
      ensures r.Ok? ==>
                && orderId.Some? && request.Some? && customer.Some?
                && old(OwnedPendingOrder(orderId.value, customer.value)).Ok?
                && request.value.paymentMethodId in paymentMethods
                && r.value == old(orders)[orderId.value].(itemName := request.value.itemName,
                                itemCondition := request.value.itemCondition,
                                issueDescription := request.value.issueDescription,
                                desiredServiceDate := request.value.desiredServiceDate,
                                paymentMethodId := request.value.paymentMethodId, couponId := r.value.couponId)
                && orders == old(orders)[orderId.value := r.value]
                && (request.value.couponCode.None? <==> r.value.couponId.None?)
                && Counted(old(coupons), old(orders)[orderId.value].couponId) && Counted(old(coupons), r.value.couponId)
                && coupons == Reassign(old(coupons), old(orders)[orderId.value].couponId, r.value.couponId)
      ensures r.Ok? && request.value.couponCode.Some? ==>
                r.value.couponId == Some(CouponLookup(old(coupons), request.value.couponCode.value,
                                                      old(orders)[orderId.value].couponId, today, false).value)
      ensures r.Ok? && r.value.couponId.Some? ==>
                old(HasCode(r.value.couponId.value, request.value.couponCode.value))
                && UpdateCouponCheck(old(orders)[orderId.value].couponId, r.value.couponId.value,
                                     old(coupons)[r.value.couponId.value], today).Pass?
    {
      if orderId.None? || request.None? || customer.None? {
        return Err(NullArguments);
      }
      var id := orderId.value;
      var req := request.value;
      var owned := OwnedPendingOrder(id, customer.value);
      if owned.Err? {
        return Err(owned.error);
      }
      if req.paymentMethodId !in paymentMethods {
        return Err(InvalidPaymentMethod);
      }
      var before := owned.value;
      var next: Option<Uuid> := None;
      if req.couponCode.Some? {
        var found := FindCoupon(req.couponCode.value, before.couponId, today, false);
        if found.Err? {
          return Err(found.error);
        }
        next := Some(found.value);
      }
      var after := before.(itemName := req.itemName, itemCondition := req.itemCondition,
                           issueDescription := req.issueDescription, desiredServiceDate := req.desiredServiceDate,
                           paymentMethodId := req.paymentMethodId, couponId := next);
      PutKeepsAccounting(orders, coupons, id, after);
      coupons := Reassign(coupons, before.couponId, next);
      orders := orders[id := after];
      r := Ok(after);
    }

    /** deleteRepairOrder: the owner withdraws a pending order, and its
        coupon gets one use back. */
    method Delete(orderId: Option<Uuid>, customer: Option<Uuid>) returns (r: Outcome<OrderError>)
      requires Valid()
      modifies this
      ensures Valid() && paymentMethods == old(paymentMethods)
      ensures orderId.None? || customer.None? ==> r == Fail(NullArguments)
      ensures r.Pass? <==> orderId.Some? && customer.Some? && old(OwnedPendingOrder(orderId.value, customer.value)).Ok?
      ensures orderId.Some? && customer.Some? && old(OwnedPendingOrder(orderId.value, customer.value)).Err? ==>
                r == Fail(old(OwnedPendingOrder(orderId.value, customer.value)).error)
      ensures r.Fail? ==> orders == old(orders) && coupons == old(coupons)
      ensures r.Pass? ==>
                && orders == old(orders) - {orderId.value}
                && Counted(old(coupons), old(orders)[orderId.value].couponId)
                && coupons == Reassign(old(coupons), old(orders)[orderId.value].couponId, None)
    {
      if orderId.None? || customer.None? {
        return Fail(NullArguments);
      }
      var id := orderId.value;
      var owned := OwnedPendingOrder(id, customer.value);
      if owned.Err? {
        return Fail(owned.error);
      }
      RemoveKeepsAccounting(orders, coupons, id);
      coupons := Reassign(coupons, owned.value.couponId, None);
      orders := orders - {id};
      r := Pass;
    }
  }

  /** Under the accounting invariant the floor at zero never engages: a
      coupon being released is held by the releasing order, so its count
      is at least one. */
  lemma {:induction false} ReleaseNeverClamps(orders: map<Uuid, RepairOrder>, coupons: map<Uuid, Coupon>, o: Uuid)
    requires Consistent(orders, coupons) && o in orders && orders[o].couponId.Some?
    ensures var k := orders[o].couponId.value;
            k in coupons && coupons[k].usageCount.Some? && coupons[k].usageCount.value >= 1
            && Released(coupons[k].usageCount.value) == coupons[k].usageCount.value - 1
  {
    var k := orders[o].couponId.value;
    assert o in Holders(orders, k);
  }
}
