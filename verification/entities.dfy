/** The persisted entities that several services share: coupons and repair
    orders. A repository stores them by value (a JPA save writes a row), so
    they are datatypes here and each service keeps its table as a map. */
module Entities {
  import opened Common

  /** Coupon: the discount, usage limit and usage count are nullable
      Integers, the expiry a nullable LocalDate. */
  datatype Coupon = Coupon(
    id: Option<Uuid>,
    code: string,
    discountAmount: Option<int>,
    maxUsage: Option<int>,
    usageCount: Option<int>,
    validUntil: Option<Day>)

  /** The repair-order statuses the core reads or writes. */
  datatype RepairOrderStatus = PendingConfirmation | OrderInProgress | OrderCompleted

  /** RepairOrder: its customer, its assigned technician, the item it is
      about, its status and the payment method and coupon it references. */
  datatype RepairOrder = RepairOrder(
    id: Uuid,
    customerId: Uuid,
    technicianId: Uuid,
    itemName: string,
    itemCondition: string,
    issueDescription: string,
    desiredServiceDate: Day,
    status: RepairOrderStatus,
    paymentMethodId: Uuid,
    couponId: Option<Uuid>)

  /** The unique constraint on the coupon code. */
  ghost predicate UniqueCodes(coupons: map<Uuid, Coupon>)
  {
    forall a, b :: (a in coupons && b in coupons && coupons[a].code == coupons[b].code) ==> a == b
  }
}
