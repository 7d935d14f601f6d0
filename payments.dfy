// Payment records and their guarded state machine: processing, completion, failure,
// refund and cancellation, each acting only from the statuses it accepts and
// mirroring the outcome on the order's own payment status.

module Payments {
  import opened Common
  import Orders

  datatype PaymentMethod = Cod | GCash | Card | BankTransfer | PayMaya | GrabPay | PayPal

  datatype PaymentStatus = Pending | Processing | Paid | Failed | Refunded | PartiallyRefunded | Cancelled

  datatype PaymentType = OrderPayment | DeliveryFeePayment | ServiceFeePayment | RefundPayment | TopUp

  /** is_refunded: fully or partially refunded. */
  predicate IsRefundedStatus(s: PaymentStatus)
  {
    s == Refunded || s == PartiallyRefunded
  }

  /** The status changes that the payment's own methods make. */
  predicate ModelAllows(from: PaymentStatus, to: PaymentStatus)
  {
    || (from == Pending && (to == Processing || to == Cancelled))
    || ((from == Pending || from == Processing) && (to == Paid || to == Failed))
    || (from == Paid && IsRefundedStatus(to))
  }

  /** A measure that every method-made status change increases. */
  function Stage(s: PaymentStatus): nat
  {
    match s
    case Pending => 0
    case Processing => 1
    case Paid => 2
    case Failed => 3
    case Cancelled => 3
    case Refunded => 4
    case PartiallyRefunded => 4
  }

  /** The methods never go back: each change moves to a later stage, so no status
      is ever re-entered and the machine has no cycles. */
  lemma ModelAllowsAdvances(from: PaymentStatus, to: PaymentStatus)
    requires ModelAllows(from, to)
    ensures Stage(from) < Stage(to)
  {
  }

  /** Failed, cancelled and refunded payments are final for the methods, and a refund
      can only follow a completed payment. */
  lemma ModelFinalStatuses(from: PaymentStatus, to: PaymentStatus)
    ensures from in {Failed, Cancelled, Refunded, PartiallyRefunded} ==> !ModelAllows(from, to)
    ensures ModelAllows(from, to) && IsRefundedStatus(to) ==> from == Paid
    ensures ModelAllows(from, to) ==> to != Pending
  {
  }

  datatype RefundError = NotPaid | RefundExceedsPaid

  /** refund_payment's two guards, in order: the payment must be paid, then the
      refund may not exceed the amount paid. */
  function RefundCheck(status: PaymentStatus, amountPaid: real, refund: real): (r: Outcome<RefundError>)
    ensures r.Pass? <==> status == Paid && refund <= amountPaid
    ensures status != Paid ==> r == Fail(NotPaid)
    ensures status == Paid && refund > amountPaid ==> r == Fail(RefundExceedsPaid)
  {
    if status != Paid then Fail(NotPaid)
    else if refund > amountPaid then Fail(RefundExceedsPaid)
    else Pass
  }

  datatype PaymentCleanError = NonPositiveAmount | CurrencyNotThreeLetters

  /** clean: a positive amount, then a currency code of exactly three characters. */
  function CleanPayment(amountPaid: real, currency: string): (r: Outcome<PaymentCleanError>)
    ensures r.Pass? <==> amountPaid > 0.0 && |currency| == 3
    ensures amountPaid <= 0.0 ==> r == Fail(NonPositiveAmount)
  {
    if amountPaid <= 0.0 then Fail(NonPositiveAmount)
    else if |currency| != 3 then Fail(CurrencyNotThreeLetters)
    else Pass
  }

  class Payment {
    const order: Orders.Order
    var paymentId: string
    var paymentMethod: PaymentMethod
    var paymentType: PaymentType
    var amountPaid: real
    var currency: string
    var transactionId: Option<string>
    var gatewayReference: Option<string>
    var receiptNumber: Option<string>
    var status: PaymentStatus
    var statusNotes: Option<string>
    var processedAt: Option<int>
    var paidAt: Option<int>
    var failedAt: Option<int>
    var refundedAt: Option<int>
    var processingFee: real
    var gatewayFee: real

    /** A new payment: pending, an order payment in PHP, without fees or stamps. */
    constructor (order: Orders.Order, paymentMethod: PaymentMethod, amountPaid: real)
      ensures this.order == order && this.paymentMethod == paymentMethod && this.amountPaid == amountPaid
      ensures paymentId == [] && paymentType == OrderPayment && currency == "PHP" && status == Pending
      ensures transactionId == None && gatewayReference == None && receiptNumber == None && statusNotes == None
      ensures processedAt == None && paidAt == None && failedAt == None && refundedAt == None
      ensures processingFee == 0.0 && gatewayFee == 0.0
    {
      this.order := order;
      this.paymentMethod := paymentMethod;
      this.amountPaid := amountPaid;
      paymentId := [];
      paymentType := OrderPayment;
      currency := "PHP";
      transactionId := None;
      gatewayReference := None;
      receiptNumber := None;
      status := Pending;
      statusNotes := None;
      processedAt := None;
      paidAt := None;
      failedAt := None;
      refundedAt := None;
      processingFee := 0.0;
      gatewayFee := 0.0;
    }

    // The status properties: each names one status, so at most one of them holds,
    // and none of them holds for a refunded payment.

    function IsPaid(): (r: bool)
      reads this
      ensures r <==> status == Paid
      ensures r ==> !IsPending() && !IsFailed() && !IsRefunded()
      ensures r && Stamped() ==> paidAt.Some?
    {
      status == Paid
    }

    function IsPending(): (r: bool)
      reads this
      ensures r <==> status == Pending
      ensures r ==> !IsFailed() && !IsRefunded()
    {
      status == Pending
    }

    function IsFailed(): (r: bool)
      reads this
      ensures r <==> status == Failed
      ensures r ==> !IsRefunded()
      ensures r && Stamped() ==> failedAt.Some?
    {
      status == Failed
    }

    function IsRefunded(): (r: bool)
      reads this
      ensures r <==> status == Refunded || status == PartiallyRefunded
    {
      IsRefundedStatus(status)
    }

    /** Each status the methods enter carries the stamp of the step that entered it. */
    predicate Stamped()
      reads this
    {
      && (status == Processing ==> processedAt.Some?)
      && (status == Paid ==> paidAt.Some?)
      && (status == Failed ==> failedAt.Some?)
      && (IsRefundedStatus(status) ==> refundedAt.Some?)
    }

    /** total_fees: the processing and gateway fees together; with fees that are not
        negative it is at least each of them. */
    function TotalFees(): (r: real)
      reads this
      ensures r - gatewayFee == processingFee
      ensures processingFee >= 0.0 && gatewayFee >= 0.0 ==> r >= processingFee && r >= gatewayFee
      ensures r == 0.0 && processingFee >= 0.0 && gatewayFee >= 0.0 ==> processingFee == 0.0 && gatewayFee == 0.0
    {
      processingFee + gatewayFee
    }

    /** net_amount: what is left of the amount once the fees are taken; with fees that
        are not negative it never exceeds the amount. */
    function NetAmount(): (r: real)
      reads this
      ensures r + TotalFees() == amountPaid
      ensures processingFee >= 0.0 && gatewayFee >= 0.0 ==> r <= amountPaid
      ensures r >= 0.0 <==> TotalFees() <= amountPaid
    {
      amountPaid - TotalFees()
    }

    function Clean(): (r: Outcome<PaymentCleanError>)
      reads this
      ensures r.Pass? <==> amountPaid > 0.0 && |currency| == 3
    {
      CleanPayment(amountPaid, currency)
    }

    /** process_payment: pending becomes processing, stamped, keeping any truthy
        transaction id and gateway reference; every other status is left alone. */
    method ProcessPayment(tid: Option<string>, gref: Option<string>, now: int)
      modifies this`status, this`processedAt, this`transactionId, this`gatewayReference
      ensures old(status) == Pending ==>
                && status == Processing && processedAt == Some(now)
                && transactionId == (if Truthy(tid) then tid else old(transactionId))
                && gatewayReference == (if Truthy(gref) then gref else old(gatewayReference))
      ensures old(status) != Pending ==> unchanged(this)
      ensures status == old(status) || ModelAllows(old(status), status)
      ensures old(Stamped()) ==> Stamped()
    {
      if status == Pending {
        status := Processing;
        processedAt := Some(now);
        if Truthy(tid) {
          transactionId := tid;
        }
        if Truthy(gref) {
          gatewayReference := gref;
        }
      }
    }

    /** complete_payment: pending or processing becomes paid, stamped, and the order is
        marked paid; every other status is left alone. */
    method CompletePayment(tid: Option<string>, receipt: Option<string>, now: int)
      modifies this`status, this`paidAt, this`transactionId, this`receiptNumber, order`paymentStatus
      ensures old(status) in {Pending, Processing} ==>
                && status == Paid && paidAt == Some(now) && order.paymentStatus == Orders.Paid
                && transactionId == (if Truthy(tid) then tid else old(transactionId))
                && receiptNumber == (if Truthy(receipt) then receipt else old(receiptNumber))
      ensures old(status) !in {Pending, Processing} ==> unchanged(this) && unchanged(order)
      ensures status == old(status) || ModelAllows(old(status), status)
      ensures old(Stamped()) ==> Stamped()
    {
      if status == Pending || status == Processing {
        status := Paid;
        paidAt := Some(now);
        if Truthy(tid) {
          transactionId := tid;
        }
        if Truthy(receipt) {
          receiptNumber := receipt;
        }
        order.paymentStatus := Orders.Paid;
      }
    }

    /** fail_payment: pending or processing becomes failed, stamped, with the reason
        noted, and the order is marked failed; every other status is left alone. */
    method FailPayment(reason: string, tid: Option<string>, now: int)
      modifies this`status, this`failedAt, this`statusNotes, this`transactionId, order`paymentStatus
      ensures old(status) in {Pending, Processing} ==>
                && status == Failed && failedAt == Some(now) && statusNotes == Some("Payment failed: " + reason)
                && transactionId == (if Truthy(tid) then tid else old(transactionId))
                && order.paymentStatus == Orders.PaymentFailed
      ensures old(status) !in {Pending, Processing} ==> unchanged(this) && unchanged(order)
      ensures status == old(status) || ModelAllows(old(status), status)
      ensures old(Stamped()) ==> Stamped()
    {
      if status == Pending || status == Processing {
        status := Failed;
        failedAt := Some(now);
        statusNotes := Some("Payment failed: " + reason);
        if Truthy(tid) {
          transactionId := tid;
        }
        order.paymentStatus := Orders.PaymentFailed;
      }
    }

    /** refund_payment: refused unless paid and within the amount paid; a partial
        refund leaves the order alone, a full one marks it refunded. Either way the
        payment is no longer paid, so it cannot be refunded twice. */
    method RefundPayment(amount: real, reason: string, partial: bool, now: int) returns (o: Outcome<RefundError>)
      modifies this`status, this`refundedAt, this`statusNotes, order`paymentStatus
      ensures o == RefundCheck(old(status), amountPaid, amount)
      ensures o.Fail? ==> unchanged(this) && unchanged(order)
      ensures o.Pass? ==>
                && status == (if partial then PartiallyRefunded else Refunded)
                && refundedAt == Some(now) && statusNotes == Some("Refunded: " + reason)
                && order.paymentStatus == (if partial then old(order.paymentStatus) else Orders.PaymentRefunded)
      ensures o.Pass? ==> RefundCheck(status, amountPaid, amount) == Fail(NotPaid)
      ensures status == old(status) || ModelAllows(old(status), status)
      ensures old(Stamped()) ==> Stamped()
    {
      if status != Paid {
        return Fail(NotPaid);
      }
      if amount > amountPaid {
        return Fail(RefundExceedsPaid);
      }
      status := if partial then PartiallyRefunded else Refunded;
      refundedAt := Some(now);
      statusNotes := Some("Refunded: " + reason);
      if !partial {
        order.paymentStatus := Orders.PaymentRefunded;
      }
      return Pass;
    }

    /** cancel_payment: only a pending payment is cancelled, with the reason noted. */
    method CancelPayment(reason: string)
      modifies this`status, this`statusNotes
      ensures old(status) == Pending ==> status == Cancelled && statusNotes == Some("Cancelled: " + reason)
      ensures old(status) != Pending ==> unchanged(this)
      ensures status == old(status) || ModelAllows(old(status), status)
      ensures old(Stamped()) ==> Stamped()
    {
      if status == Pending {
        status := Cancelled;
        statusNotes := Some("Cancelled: " + reason);
      }
    }

    /** save: a payment without an id gets "PAY" followed by the timestamp text. */
    method Save(stamp: string)
      modifies this`paymentId
      ensures paymentId == if old(paymentId) == [] then "PAY" + stamp else old(paymentId)
      ensures paymentId != []
    {
      if paymentId == [] {
        paymentId := "PAY" + stamp;
      }
    }
  }
}
