// The Order and OrderLine models: statuses, cancellability, totals arithmetic,
// status updates and the delivery-status synchronisation with rider assignments.

module Orders {
  import opened Common
  import Locations

  datatype OrderStatus =
    | Pending | Accepted | Preparing | ReadyForPickup | PickedUp
    | Delivered | Cancelled | Refunded

  /** The stored text of each status choice. */
  function StatusName(s: OrderStatus): (r: string)
    ensures r != []
  {
    match s
    case Pending => "pending"
    case Accepted => "accepted"
    case Preparing => "preparing"
    case ReadyForPickup => "ready_for_pickup"
    case PickedUp => "picked_up"
    case Delivered => "delivered"
    case Cancelled => "cancelled"
    case Refunded => "refunded"
  }

  /** Recognises a stored status text; anything else is not a status choice. */
  function ParseStatus(name: string): (r: Option<OrderStatus>)
    ensures r.Some? ==> StatusName(r.value) == name
  {
    if name == "pending" then Some(Pending)
    else if name == "accepted" then Some(Accepted)
    else if name == "preparing" then Some(Preparing)
    else if name == "ready_for_pickup" then Some(ReadyForPickup)
    else if name == "picked_up" then Some(PickedUp)
    else if name == "delivered" then Some(Delivered)
    else if name == "cancelled" then Some(Cancelled)
    else if name == "refunded" then Some(Refunded)
    else None
  }

  lemma ParseStatusName(s: OrderStatus)
    ensures ParseStatus(StatusName(s)) == Some(s)
  {
  }

  /** The order's own payment_status choices. */
  datatype OrderPaymentStatus = Unpaid | Paid | PaymentFailed | PaymentRefunded | PartiallyRefunded

  /** Rider-assignment statuses, as filtered by the order's helpers. */
  datatype AssignmentStatus = Assigned | AssignmentAccepted | AssignmentPickedUp | Delivering | Completed | AssignmentCancelled

  /** One link between the order and a rider assignment, with its stamps. */
  datatype RiderLink = RiderLink(riderUserId: int, status: AssignmentStatus, pickedUpAt: Option<int>, deliveredAt: Option<int>)

  predicate ActiveAssignment(a: AssignmentStatus)
  {
    a == Assigned || a == AssignmentAccepted || a == AssignmentPickedUp || a == Delivering
  }

  /** The first link whose assignment is still in progress, if any. */
  function CurrentRiderAssignment(links: seq<RiderLink>): (r: Option<RiderLink>)
    ensures r.None? <==> forall i :: 0 <= i < |links| ==> !ActiveAssignment(links[i].status)
    ensures r.Some? ==> exists i :: 0 <= i < |links| && links[i] == r.value && ActiveAssignment(r.value.status)
                          && forall j :: 0 <= j < i ==> !ActiveAssignment(links[j].status)
  {
    if links == [] then None
    else if ActiveAssignment(links[0].status) then Some(links[0])
    else
      var r := CurrentRiderAssignment(links[1..]);
      if r.Some? then
        ghost var i :| 0 < i + 1 <= |links| && 0 <= i < |links[1..]| && links[1..][i] == r.value && ActiveAssignment(r.value.status)
                       && forall j :: 0 <= j < i ==> !ActiveAssignment(links[1..][j].status);
        assert links[i + 1] == r.value;
        assert forall j :: 0 <= j < i + 1 ==> !ActiveAssignment(links[j].status) by {
          forall j | 0 <= j < i + 1 ensures !ActiveAssignment(links[j].status) {
            if j > 0 { assert links[j] == links[1..][j - 1]; }
          }
        }
        r
      else
        assert forall i :: 0 <= i < |links| ==> !ActiveAssignment(links[i].status) by {
          forall i | 0 <= i < |links| ensures !ActiveAssignment(links[i].status) {
            if i > 0 { assert links[i] == links[1..][i - 1]; }
          }
        }
        r
  }

  /** With no rider links, the relation as the source leaves it (no model defines
      it), there is no current assignment and a sync leaves every status as it is. */
  lemma WithoutRiderLinks(s: OrderStatus)
    ensures CurrentRiderAssignment([]).None?
    ensures SyncedStatus(s, CurrentRiderAssignment([])) == s
  {
  }

  predicate CanBeCancelled(s: OrderStatus)
  {
    s == Pending || s == Accepted || s == Preparing
  }

  /** Cancellation is allowed exactly in the three stages before the order is ready for pickup. */
  lemma CanBeCancelledExactly(s: OrderStatus)
    ensures CanBeCancelled(s) <==> s in {Pending, Accepted, Preparing}
    ensures s in {ReadyForPickup, PickedUp, Delivered, Cancelled, Refunded} ==> !CanBeCancelled(s)
  {
  }

  /** An order may join a batch when its address has coordinates, it is pending or
      accepted, and no rider assignment is in progress. */
  function CanBeBatched(address: Locations.AddressRecord, status: OrderStatus, links: seq<RiderLink>): (r: bool)
    ensures r <==> Locations.HasCoordinates(address.latitude, address.longitude)
                   && (status == Pending || status == Accepted)
                   && forall i :: 0 <= i < |links| ==> !ActiveAssignment(links[i].status)
  {
    if !Locations.HasCoordinates(address.latitude, address.longitude) then false
    else if !(status == Pending || status == Accepted) then false
    else if CurrentRiderAssignment(links).Some? then false
    else true
  }

  // ---------------------------------------------------------------------------
  // Order lines
  // ---------------------------------------------------------------------------

  datatype OrderLine = OrderLine(inventoryItemId: int, unitPrice: real, quantity: int, totalPrice: real)

  function LineTotal(l: OrderLine): real
  {
    l.unitPrice * l.quantity as real
  }

  /** OrderLine.save: an unset (zero) total is filled with unit price times quantity. */
  function SaveLine(l: OrderLine): (r: OrderLine)
    ensures r.inventoryItemId == l.inventoryItemId && r.unitPrice == l.unitPrice && r.quantity == l.quantity
    ensures l.totalPrice != 0.0 ==> r == l
    ensures l.totalPrice == 0.0 ==> r.totalPrice == LineTotal(l)
  {
    if l.totalPrice == 0.0 then l.(totalPrice := LineTotal(l)) else l
  }

  /** Saving a line a second time changes nothing. */
  lemma SaveLineIdempotent(l: OrderLine)
    ensures SaveLine(SaveLine(l)) == SaveLine(l)
  {
  }

  datatype LineError = ItemNotAvailable | InsufficientStock

  /** OrderLine.clean against the inventory item's availability and stock. */
  function CleanLine(l: OrderLine, itemAvailable: bool, itemStock: int): (r: Outcome<LineError>)
    ensures r == Pass <==> itemAvailable && l.quantity <= itemStock
    ensures !itemAvailable ==> r == Fail(ItemNotAvailable)
  {
    if !itemAvailable then Fail(ItemNotAvailable)
    else if l.quantity > itemStock then Fail(InsufficientStock)
    else Pass
  }

  /** Sum of unit price times quantity over the lines (0 when there are none). */
  function LinesSubtotal(lines: seq<OrderLine>): real
  {
    if lines == [] then 0.0 else LinesSubtotal(lines[..|lines| - 1]) + LineTotal(lines[|lines| - 1])
  }

  predicate NonNegativeLines(lines: seq<OrderLine>)
  {
    forall i :: 0 <= i < |lines| ==> lines[i].unitPrice >= 0.0 && lines[i].quantity >= 0
  }

  lemma {:induction false} LinesSubtotalNonNegative(lines: seq<OrderLine>)
    requires NonNegativeLines(lines)
    ensures LinesSubtotal(lines) >= 0.0
  {
    if lines != [] {
      var last := lines[|lines| - 1];
      assert last.unitPrice >= 0.0 && last.quantity >= 0;
      LinesSubtotalNonNegative(lines[..|lines| - 1]);
    }
  }

  /** The 12% VAT on a subtotal, as an exact rational. */
  const TaxRate: real := 12.0 / 100.0

  /** Total = subtotal + tax + delivery fee - discount. */
  function OrderTotal(subtotal: real, deliveryFee: real, discount: real): real
  {
    subtotal + subtotal * TaxRate + deliveryFee - discount
  }

  /** The check constraint total >= 0 holds whenever the discount does not exceed the
      subtotal and the delivery fee is not negative. */
  lemma TotalNonNegative(subtotal: real, deliveryFee: real, discount: real)
    requires subtotal >= 0.0 && deliveryFee >= 0.0 && discount <= subtotal
    ensures OrderTotal(subtotal, deliveryFee, discount) >= subtotal * TaxRate + deliveryFee
    ensures OrderTotal(subtotal, deliveryFee, discount) >= 0.0
  {
  }

  /** The text an f-string gives for the nullable notes field. */
  function NotesText(notes: Option<string>): string
  {
    match notes
    case None => "None"
    case Some(n) => n
  }

  datatype OrderError = DiscountExceedsSubtotal | CannotCancel

  /** The status sync_delivery_status leaves behind, given the current assignment. */
  function SyncedStatus(s: OrderStatus, cur: Option<RiderLink>): OrderStatus
  {
    var afterPickup := if cur.Some? && cur.value.pickedUpAt.Some? && s == ReadyForPickup then PickedUp else s;
    if cur.Some? && cur.value.deliveredAt.Some? && afterPickup == PickedUp then Delivered else afterPickup
  }

  /** Syncing twice against the same assignment is the same as syncing once, and only
      ready_for_pickup and picked_up orders are ever moved. */
  lemma SyncIdempotent(s: OrderStatus, cur: Option<RiderLink>)
    ensures SyncedStatus(SyncedStatus(s, cur), cur) == SyncedStatus(s, cur)
    ensures s != ReadyForPickup && s != PickedUp ==> SyncedStatus(s, cur) == s
    ensures cur.None? ==> SyncedStatus(s, cur) == s
  {
  }

  class Order {
    var status: OrderStatus
    var paymentStatus: OrderPaymentStatus
    var notes: Option<string>
    var lines: seq<OrderLine>
    var subtotal: real
    var taxAmount: real
    var deliveryFee: real
    var discountAmount: real
    var totalAmount: real
    var actualDelivery: Option<int>

    constructor (lines: seq<OrderLine>, deliveryFee: real)
      ensures this.lines == lines && this.deliveryFee == deliveryFee
      ensures status == Pending && paymentStatus == Unpaid && notes == None
      ensures subtotal == 0.0 && taxAmount == 0.0 && discountAmount == 0.0 && totalAmount == 0.0
      ensures actualDelivery == None
    {
      this.lines := lines;
      this.deliveryFee := deliveryFee;
      status := Pending;
      paymentStatus := Unpaid;
      notes := None;
      subtotal := 0.0;
      taxAmount := 0.0;
      discountAmount := 0.0;
      totalAmount := 0.0;
      actualDelivery := None;
    }

    predicate IsPaid() reads this { paymentStatus == Paid }
    predicate IsDelivered() reads this { status == Delivered }
    predicate IsCancelled() reads this { status == Cancelled }

    /** The stored totals agree with the lines, fee and discount. */
    predicate TotalsCurrent()
      reads this
    {
      subtotal == LinesSubtotal(lines)
      && taxAmount == subtotal * TaxRate
      && totalAmount == OrderTotal(subtotal, deliveryFee, discountAmount)
    }

    /** calculate_totals: recompute subtotal, tax and total from the lines. */
    method CalculateTotals() returns (total: real)
      modifies this
      ensures TotalsCurrent() && total == totalAmount
      ensures status == old(status) && paymentStatus == old(paymentStatus) && notes == old(notes)
      ensures lines == old(lines) && deliveryFee == old(deliveryFee) && discountAmount == old(discountAmount)
      ensures actualDelivery == old(actualDelivery)
      ensures NonNegativeLines(lines) && deliveryFee >= 0.0 && discountAmount <= subtotal ==> total >= 0.0
    {
      var s := LinesSubtotal(lines);
      var tax := s * TaxRate;
      total := s + tax + deliveryFee - discountAmount;
      subtotal := s;
      taxAmount := tax;
      totalAmount := total;
      if NonNegativeLines(lines) && deliveryFee >= 0.0 && discountAmount <= subtotal {
        LinesSubtotalNonNegative(lines);
        TotalNonNegative(s, deliveryFee, discountAmount);
      }
    }

    /** apply_discount: refused when it exceeds the stored subtotal; otherwise stored and
        the totals recomputed. With up-to-date totals the new total is never negative. */
    method ApplyDiscount(discount: real) returns (o: Outcome<OrderError>)
      modifies this
      ensures o.Fail? <==> discount > old(subtotal)
      ensures o.Fail? ==> o.error == DiscountExceedsSubtotal && unchanged(this)
      ensures o.Pass? ==> discountAmount == discount && TotalsCurrent()
                          && status == old(status) && notes == old(notes) && lines == old(lines)
                          && deliveryFee == old(deliveryFee) && paymentStatus == old(paymentStatus)
                          && actualDelivery == old(actualDelivery)
      ensures o.Pass? && old(subtotal) == LinesSubtotal(lines) && NonNegativeLines(lines) && deliveryFee >= 0.0
              ==> totalAmount >= 0.0
    {
      if discount > subtotal {
        return Fail(DiscountExceedsSubtotal);
      }
      discountAmount := discount;
      var _ := CalculateTotals();
      o := Pass;
    }

    /** cancel_order: refused unless cancellable; otherwise cancelled with a note. */
    method CancelOrder(reason: string) returns (o: Outcome<OrderError>)
      modifies this
      ensures o.Pass? <==> CanBeCancelled(old(status))
      ensures o.Fail? ==> o.error == CannotCancel && unchanged(this)
      ensures o.Pass? ==> status == Cancelled
                          && notes == Some(NotesText(old(notes)) + "\nOrder cancelled: " + reason)
      ensures o.Pass? ==> paymentStatus == old(paymentStatus) && lines == old(lines) && subtotal == old(subtotal)
                          && taxAmount == old(taxAmount) && deliveryFee == old(deliveryFee)
                          && discountAmount == old(discountAmount) && totalAmount == old(totalAmount)
                          && actualDelivery == old(actualDelivery)
    {
      if !CanBeCancelled(status) {
        return Fail(CannotCancel);
      }
      status := Cancelled;
      notes := Some(NotesText(notes) + "\nOrder cancelled: " + reason);
      o := Pass;
    }

    /** update_status: sets any status without consulting the transition table; a truthy
        note is appended and delivery stamps the time. */
    method UpdateStatus(newStatus: OrderStatus, note: Option<string>, now: int)
      modifies this
      ensures status == newStatus
      ensures Truthy(note) ==> notes == Some(NotesText(old(notes)) + "\nStatus changed from " + StatusName(old(status))
                                            + " to " + StatusName(newStatus) + ": " + note.value)
      ensures !Truthy(note) ==> notes == old(notes)
      ensures actualDelivery == if newStatus == Delivered then Some(now) else old(actualDelivery)
      ensures paymentStatus == old(paymentStatus) && lines == old(lines) && subtotal == old(subtotal)
      ensures taxAmount == old(taxAmount) && deliveryFee == old(deliveryFee)
      ensures discountAmount == old(discountAmount) && totalAmount == old(totalAmount)
    {
      var oldStatus := status;
      status := newStatus;
      if Truthy(note) {
        notes := Some(NotesText(notes) + "\nStatus changed from " + StatusName(oldStatus)
                      + " to " + StatusName(newStatus) + ": " + note.value);
      }
      if newStatus == Delivered {
        actualDelivery := Some(now);
      }
    }

    /** sync_delivery_status: follow the current assignment's pickup and delivery stamps.
        Both steps can happen in one call; nothing but the status changes. */
    method SyncDeliveryStatus(links: seq<RiderLink>)
      modifies this
      ensures status == SyncedStatus(old(status), CurrentRiderAssignment(links))
      ensures notes == old(notes) && paymentStatus == old(paymentStatus) && lines == old(lines)
      ensures subtotal == old(subtotal) && taxAmount == old(taxAmount) && deliveryFee == old(deliveryFee)
      ensures discountAmount == old(discountAmount) && totalAmount == old(totalAmount)
      ensures actualDelivery == old(actualDelivery)
    {
      var cur := CurrentRiderAssignment(links);
      if cur.None? {
        return;
      }
      if cur.value.pickedUpAt.Some? && status == ReadyForPickup {
        status := PickedUp;
      }
      if cur.value.deliveredAt.Some? && status == PickedUp {
        status := Delivered;
      }
    }

    /** update_delivery_status: set the status, stamp a delivery, then optionally sync. */
    method UpdateDeliveryStatus(newStatus: OrderStatus, syncWithAssignment: bool, links: seq<RiderLink>, now: int)
      returns (oldStatus: OrderStatus)
      modifies this
      ensures oldStatus == old(status)
      ensures !syncWithAssignment ==> status == newStatus
      ensures syncWithAssignment ==> status == SyncedStatus(newStatus, CurrentRiderAssignment(links))
      ensures actualDelivery == if newStatus == Delivered then Some(now) else old(actualDelivery)
      ensures notes == old(notes) && paymentStatus == old(paymentStatus) && lines == old(lines)
      ensures subtotal == old(subtotal) && taxAmount == old(taxAmount)
      ensures deliveryFee == old(deliveryFee) && discountAmount == old(discountAmount)
      ensures totalAmount == old(totalAmount)
    {
      oldStatus := status;
      status := newStatus;
      if newStatus == Delivered {
        actualDelivery := Some(now);
      }
      if syncWithAssignment {
        SyncDeliveryStatus(links);
      }
    }
  }

}
