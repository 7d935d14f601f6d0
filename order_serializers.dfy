// Order serializers: the order-status transition table (and its second copy in
// the status-update serializer), the order and order-line validators, the
// order update, and the stock-conserving order-line create and update.

module OrderSerializers {
  import opened Common
  import Orders
  import Inventory

  // ---------------------------------------------------------------------------
  // The status transition table
  // ---------------------------------------------------------------------------

  /** OrderSerializer's table: status text to the texts it may move to. */
  const ValidTransitions: map<string, seq<string>> := map[
    "pending" := ["accepted", "cancelled"],
    "accepted" := ["preparing", "cancelled"],
    "preparing" := ["ready_for_pickup", "cancelled"],
    "ready_for_pickup" := ["picked_up", "cancelled"],
    "picked_up" := ["delivered"],
    "delivered" := [],
    "cancelled" := [],
    "refunded" := []]

  /** The same table as written out a second time in OrderStatusUpdateSerializer. */
  const StatusUpdateTransitions: map<string, seq<string>> := map[
    "pending" := ["accepted", "cancelled"],
    "accepted" := ["preparing", "cancelled"],
    "preparing" := ["ready_for_pickup", "cancelled"],
    "ready_for_pickup" := ["picked_up", "cancelled"],
    "picked_up" := ["delivered"],
    "delivered" := [],
    "cancelled" := [],
    "refunded" := []]

  /** A lookup of the old status with an empty default, then list membership. */
  predicate InTable(table: map<string, seq<string>>, oldStatus: string, newStatus: string)
  {
    newStatus in (if oldStatus in table then table[oldStatus] else [])
  }

  /** OrderSerializer._is_valid_status_transition */
  predicate IsValidStatusTransition(oldStatus: string, newStatus: string)
  {
    InTable(ValidTransitions, oldStatus, newStatus)
  }

  /** OrderStatusUpdateSerializer._is_valid_status_transition */
  predicate IsValidStatusUpdateTransition(oldStatus: string, newStatus: string)
  {
    InTable(StatusUpdateTransitions, oldStatus, newStatus)
  }

  /** The two copies of the table accept exactly the same pairs. */
  lemma TransitionCopiesAgree(oldStatus: string, newStatus: string)
    ensures IsValidStatusTransition(oldStatus, newStatus) <==> IsValidStatusUpdateTransition(oldStatus, newStatus)
  {
  }

  /** The forward step of the delivery pipeline. */
  function Forward(s: Orders.OrderStatus): Option<Orders.OrderStatus>
  {
    match s
    case Pending => Some(Orders.Accepted)
    case Accepted => Some(Orders.Preparing)
    case Preparing => Some(Orders.ReadyForPickup)
    case ReadyForPickup => Some(Orders.PickedUp)
    case PickedUp => Some(Orders.Delivered)
    case _ => None
  }

  /** The intended relation: one step forward, or cancellation before pickup. */
  predicate TransitionAllowed(o: Orders.OrderStatus, n: Orders.OrderStatus)
  {
    Forward(o) == Some(n)
    || (n == Orders.Cancelled && (o == Orders.Pending || o == Orders.Accepted || o == Orders.Preparing || o == Orders.ReadyForPickup))
  }

  /** The table, read on status texts, is exactly the intended relation. */
  lemma TransitionTableMeaning(o: Orders.OrderStatus, n: Orders.OrderStatus)
    ensures IsValidStatusTransition(Orders.StatusName(o), Orders.StatusName(n)) <==> TransitionAllowed(o, n)
  {
    match o
    case Pending =>
    case Accepted =>
    case Preparing =>
    case ReadyForPickup =>
    case PickedUp =>
    case Delivered =>
    case Cancelled =>
    case Refunded =>
  }

  /** Only recognised status texts appear on either side of an accepted transition:
      an unknown old status has no successors. */
  lemma TransitionNeedsKnownStatuses(oldStatus: string, newStatus: string)
    requires IsValidStatusTransition(oldStatus, newStatus)
    ensures Orders.ParseStatus(oldStatus).Some? && Orders.ParseStatus(newStatus).Some?
  {
  }

  /** Delivered, cancelled and refunded orders go nowhere, a picked-up order can no
      longer be cancelled, and no status moves to itself. */
  lemma TerminalStatuses(n: Orders.OrderStatus)
    ensures !TransitionAllowed(Orders.Delivered, n) && !TransitionAllowed(Orders.Cancelled, n)
    ensures !TransitionAllowed(Orders.Refunded, n)
    ensures !TransitionAllowed(Orders.PickedUp, Orders.Cancelled)
    ensures !TransitionAllowed(n, n)
  {
  }

  /** The position of a status along the pipeline; cancellation and refund sit last. */
  function Rank(s: Orders.OrderStatus): nat
  {
    match s
    case Pending => 0
    case Accepted => 1
    case Preparing => 2
    case ReadyForPickup => 3
    case PickedUp => 4
    case Delivered => 5
    case Cancelled => 6
    case Refunded => 7
  }

  /** Every allowed transition moves strictly forward, so no sequence of status
      updates can revisit a status. */
  lemma TransitionsMoveForward(o: Orders.OrderStatus, n: Orders.OrderStatus)
    requires TransitionAllowed(o, n)
    ensures Rank(o) < Rank(n)
  {
  }

  /** The table lets a ready-for-pickup order be cancelled, but the model's own
      cancellation rule refuses it. */
  lemma ReadyForPickupCancellationDisagrees()
    ensures IsValidStatusTransition("ready_for_pickup", "cancelled")
    ensures !Orders.CanBeCancelled(Orders.ReadyForPickup)
  {
    TransitionTableMeaning(Orders.ReadyForPickup, Orders.Cancelled);
  }

  // ---------------------------------------------------------------------------
  // OrderSerializer.validate and update
  // ---------------------------------------------------------------------------

  datatype DeliveryType = Standard | Express | Scheduled

  /** The order fields the validator looks at; a missing key is None. `addressOwner`
      is the customer of the given delivery address. */
  datatype OrderAttrs = OrderAttrs(
    customer: Option<int>,
    addressOwner: Option<int>,
    deliveryType: Option<DeliveryType>,
    preferredDeliveryTime: Option<string>,
    lineItemIds: seq<int>)

  datatype OrderValidationError = AddressNotCustomers | PreferredTimeRequired | NoOrderLines | DuplicateItems

  /** OrderSerializer.validate, in the source's order of checks. */
  function ValidateOrder(a: OrderAttrs): (r: Outcome<OrderValidationError>)
    ensures r.Pass? <==> (a.customer.Some? && a.addressOwner.Some? ==> a.addressOwner.value == a.customer.value)
                         && (a.deliveryType == Some(Scheduled) ==> Truthy(a.preferredDeliveryTime))
                         && a.lineItemIds != [] && Distinct(a.lineItemIds)
  {
    SetOfSize(a.lineItemIds);
    if a.customer.Some? && a.addressOwner.Some? && a.addressOwner.value != a.customer.value then Fail(AddressNotCustomers)
    else if a.deliveryType == Some(Scheduled) && !Truthy(a.preferredDeliveryTime) then Fail(PreferredTimeRequired)
    else if a.lineItemIds == [] then Fail(NoOrderLines)
    else if |a.lineItemIds| != |SetOf(a.lineItemIds)| then Fail(DuplicateItems)
    else Pass
  }

  /** A repeated inventory item is refused wherever the repeat occurs. */
  lemma DuplicateItemRefused(a: OrderAttrs, i: int, j: int)
    requires 0 <= i < j < |a.lineItemIds| && a.lineItemIds[i] == a.lineItemIds[j]
    ensures ValidateOrder(a).Fail?
  {
  }

  /** The status and payment fields an update may carry; a missing key is None. */
  datatype OrderPatch = OrderPatch(
    status: Option<Orders.OrderStatus>,
    paymentStatus: Option<Orders.OrderPaymentStatus>,
    actualDelivery: Option<int>)

  datatype TransitionError = InvalidTransition(from: Orders.OrderStatus, to: Orders.OrderStatus)

  /** OrderSerializer.update on the validated data: a requested status must be a table
      transition, delivery stamps `now`, and a first payment of a pending order forces
      the status to accepted (overriding any requested status). */
  function PrepareOrderUpdate(current: Orders.OrderStatus, currentPayment: Orders.OrderPaymentStatus,
                              p: OrderPatch, now: int): (r: Result<OrderPatch, TransitionError>)
    ensures r.Err? <==> p.status.Some? && !TransitionAllowed(current, p.status.value)
    ensures r.Err? ==> r.error == InvalidTransition(current, p.status.value)
    ensures r.Ok? ==> r.value.paymentStatus == p.paymentStatus
    ensures r.Ok? ==> r.value.status == if p.paymentStatus == Some(Orders.Paid) && currentPayment != Orders.Paid
                                          && current == Orders.Pending
                                       then Some(Orders.Accepted) else p.status
    ensures r.Ok? ==> r.value.actualDelivery == if p.status == Some(Orders.Delivered) then Some(now) else p.actualDelivery
  {
    if p.status.Some? && !IsValidStatusTransition(Orders.StatusName(current), Orders.StatusName(p.status.value)) then
      TransitionTableMeaning(current, p.status.value);
      Err(InvalidTransition(current, p.status.value))
    else
      TransitionTableMeaning(current, if p.status.Some? then p.status.value else current);
      var p1 := if p.status == Some(Orders.Delivered) then p.(actualDelivery := Some(now)) else p;
      if p.paymentStatus == Some(Orders.Paid) && currentPayment != Orders.Paid && current == Orders.Pending
      then Ok(p1.(status := Some(Orders.Accepted)))
      else Ok(p1)
  }

  /** Whatever status an accepted update writes, including the one forced by a
      payment, is an allowed transition from the current status. */
  lemma UpdateWritesOnlyAllowedTransitions(current: Orders.OrderStatus, currentPayment: Orders.OrderPaymentStatus,
                                           p: OrderPatch, now: int)
    requires PrepareOrderUpdate(current, currentPayment, p, now).Ok?
    requires PrepareOrderUpdate(current, currentPayment, p, now).value.status.Some?
    ensures TransitionAllowed(current, PrepareOrderUpdate(current, currentPayment, p, now).value.status.value)
  {
  }

  /** Paying a pending order in the same update that cancels it leaves it accepted. */
  lemma PaymentOverridesCancellation(now: int)
    ensures PrepareOrderUpdate(Orders.Pending, Orders.Unpaid, OrderPatch(Some(Orders.Cancelled), Some(Orders.Paid), None), now)
            == Ok(OrderPatch(Some(Orders.Accepted), Some(Orders.Paid), None))
  {
  }

  /** Write the prepared data into the order: only the fields present change. */
  method ApplyOrderUpdate(order: Orders.Order, p: OrderPatch, now: int) returns (o: Outcome<TransitionError>)
    modifies order`status, order`paymentStatus, order`actualDelivery
    ensures var r := PrepareOrderUpdate(old(order.status), old(order.paymentStatus), p, now);
            && (o.Fail? <==> r.Err?)
            && (o.Fail? ==> o.error == r.error && unchanged(order))
            && (o.Pass? ==> order.status == (if r.value.status.Some? then r.value.status.value else old(order.status))
                            && order.paymentStatus == (if p.paymentStatus.Some? then p.paymentStatus.value else old(order.paymentStatus))
                            && order.actualDelivery == (if r.value.actualDelivery.Some? then r.value.actualDelivery else old(order.actualDelivery)))
  {
    var r := PrepareOrderUpdate(order.status, order.paymentStatus, p, now);
    if r.Err? {
      return Fail(r.error);
    }
    if r.value.status.Some? {
      order.status := r.value.status.value;
    }
    if r.value.paymentStatus.Some? {
      order.paymentStatus := r.value.paymentStatus.value;
    }
    if r.value.actualDelivery.Some? {
      order.actualDelivery := r.value.actualDelivery;
    }
    o := Pass;
  }

  // ---------------------------------------------------------------------------
  // OrderLineSerializer
  // ---------------------------------------------------------------------------

  datatype PrescriptionStatus = PrescriptionPending | PrescriptionApproved | PrescriptionRejected

  /** The line fields the validator fills in; a missing key is None. */
  datatype LineAttrs = LineAttrs(quantity: Option<int>, unitPrice: Option<real>, prescriptionStatus: Option<PrescriptionStatus>)

  /** attrs.get('quantity', 1) */
  function RequestedQuantity(a: LineAttrs): int
  {
    if a.quantity.Some? then a.quantity.value else 1
  }

  /** StockNotSaved stands for the IntegrityError of an item save that breaks the
      inventory table's check constraints. */
  datatype LineValidationError = ItemRequired | ItemUnavailable | NotEnoughStock(available: int) | StockNotSaved

  /** OrderLineSerializer.validate: the item must exist, be available and have enough
      stock; a prescription item gets a pending prescription status, and a missing or
      zero unit price becomes the item's current (sale) price. */
  function ValidateLine(item: Inventory.PharmacyInventory?, a: LineAttrs): (r: Result<LineAttrs, LineValidationError>)
    reads item
    ensures item == null ==> r == Err(ItemRequired)
    ensures r.Ok? <==> item != null && item.isAvailable && RequestedQuantity(a) <= item.stockQuantity
    ensures r.Ok? ==> r.value.quantity == a.quantity
    ensures r.Ok? ==> r.value.prescriptionStatus == if item.prescriptionRequired && a.prescriptionStatus.None?
                                                    then Some(PrescriptionPending) else a.prescriptionStatus
    ensures r.Ok? ==> r.value.unitPrice == if a.unitPrice.None? || a.unitPrice.value == 0.0
                                           then Some(item.CurrentPrice()) else a.unitPrice
  {
    if item == null then Err(ItemRequired)
    else if !item.isAvailable then Err(ItemUnavailable)
    else if RequestedQuantity(a) > item.stockQuantity then Err(NotEnoughStock(item.stockQuantity))
    else
      var a1 := if item.prescriptionRequired && a.prescriptionStatus.None? then a.(prescriptionStatus := Some(PrescriptionPending)) else a;
      if a1.unitPrice.None? || a1.unitPrice.value == 0.0 then Ok(a1.(unitPrice := Some(item.CurrentPrice()))) else Ok(a1)
  }

  /** The serializer's availability and stock check is the model-level line clean. */
  lemma ValidateLineAgreesWithClean(item: Inventory.PharmacyInventory, a: LineAttrs, l: Orders.OrderLine)
    requires l.quantity == RequestedQuantity(a)
    ensures ValidateLine(item, a).Ok? <==> Orders.CleanLine(l, item.isAvailable, item.stockQuantity).Pass?
  {
  }

  /** A validated line on a sale item never charges more than the list price. */
  lemma ValidatedPriceAtMostList(item: Inventory.PharmacyInventory, a: LineAttrs)
    requires item.Valid() && a.unitPrice.None?
    requires ValidateLine(item, a).Ok?
    ensures 0.0 <= ValidateLine(item, a).value.unitPrice.value <= item.price
  {
  }

  /** create: the line's total is unit price times quantity, and the quantity leaves
      the item's stock (refused when the stock is short). */
  method CreateLine(itemId: int, item: Inventory.PharmacyInventory, unitPrice: real, quantity: int)
    returns (r: Result<Orders.OrderLine, Inventory.InventoryError>)
    modifies item`stockQuantity, item`originalPrice, item`name, item`form, item`dosage, item`description,
             item`prescriptionRequired, item`category
    ensures r == Err(Inventory.InsufficientStock) <==> old(item.stockQuantity) < quantity
    ensures r == Err(Inventory.InsufficientStock) ==> unchanged(item)
    ensures r.Ok? <==> old(item.stockQuantity) >= quantity && item.Valid()
    ensures old(item.Valid()) ==> (r.Ok? <==> old(item.stockQuantity) >= quantity)
    ensures r.Ok? ==> item.Saved() && item.SaveKept()
    ensures r.Ok? ==> r.value == Orders.OrderLine(itemId, unitPrice, quantity, unitPrice * quantity as real)
    ensures r.Ok? ==> r.value.totalPrice == Orders.LineTotal(r.value)
    ensures r.Ok? ==> item.stockQuantity + r.value.quantity == old(item.stockQuantity)
  {
    var total := unitPrice * quantity as real;
    var o := item.UpdateStock(quantity, Inventory.Subtract);
    if o.Fail? {
      return Err(o.error);
    }
    r := Ok(Orders.OrderLine(itemId, unitPrice, quantity, total));
  }

  /** The quantity update requested, with the current quantity as default. */
  function NewQuantity(line: Orders.OrderLine, newQuantity: Option<int>): int
  {
    if newQuantity.Some? then newQuantity.value else line.quantity
  }

  /** update: the quantity difference moves between the line and the item's stock
      (an increase beyond the stock is refused), so stock plus line quantity is
      conserved; a changed price or quantity recomputes the total. */
  method UpdateLine(line: Orders.OrderLine, item: Inventory.PharmacyInventory,
                    newQuantity: Option<int>, newUnitPrice: Option<real>)
    returns (r: Result<Orders.OrderLine, LineValidationError>)
    modifies item`stockQuantity, item`originalPrice, item`name, item`form, item`dosage, item`description,
             item`prescriptionRequired, item`category
    ensures var diff := NewQuantity(line, newQuantity) - line.quantity;
            diff > 0 && diff > old(item.stockQuantity) ==> r == Err(NotEnoughStock(old(item.stockQuantity))) && unchanged(item)
    ensures r.Err? ==> r.error == StockNotSaved || r.error == NotEnoughStock(old(item.stockQuantity))
    ensures r == Err(StockNotSaved) <==> var diff := NewQuantity(line, newQuantity) - line.quantity;
                                       diff != 0 && !(diff > 0 && diff > old(item.stockQuantity)) && !item.Valid()
    ensures old(item.Valid()) ==> r != Err(StockNotSaved)
    ensures NewQuantity(line, newQuantity) == line.quantity ==> r.Ok? && unchanged(item)
    ensures r.Ok? && NewQuantity(line, newQuantity) != line.quantity ==> item.Saved() && item.SaveKept() && item.Valid()
    ensures r.Ok? ==> item.stockQuantity + r.value.quantity == old(item.stockQuantity) + line.quantity
    ensures r.Ok? ==> r.value.inventoryItemId == line.inventoryItemId && r.value.quantity == NewQuantity(line, newQuantity)
                      && r.value.unitPrice == (if newUnitPrice.Some? then newUnitPrice.value else line.unitPrice)
    ensures r.Ok? && (newQuantity.Some? || newUnitPrice.Some?) ==> r.value.totalPrice == Orders.LineTotal(r.value)
    ensures r.Ok? && newQuantity.None? && newUnitPrice.None? ==> r.value == line
    ensures r.Ok? && old(item.stockQuantity) >= 0 ==> item.stockQuantity >= 0
  {
    var q := NewQuantity(line, newQuantity);
    if q != line.quantity {
      var diff := q - line.quantity;
      if diff > 0 {
        if diff > item.stockQuantity {
          return Err(NotEnoughStock(item.stockQuantity));
        }
        var o := item.UpdateStock(diff, Inventory.Subtract);
        if o.Fail? {
          return Err(StockNotSaved);
        }
      } else {
        var o := item.UpdateStock(-diff, Inventory.Add);
        if o.Fail? {
          return Err(StockNotSaved);
        }
      }
    }
    var updated := line.(quantity := q, unitPrice := if newUnitPrice.Some? then newUnitPrice.value else line.unitPrice);
    if newUnitPrice.Some? || newQuantity.Some? {
      updated := updated.(totalPrice := updated.unitPrice * updated.quantity as real);
    }
    r := Ok(updated);
  }
}
