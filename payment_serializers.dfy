// Input checks on payments: field validators, creation against the order, the
// status-transition table applied to updates, refund requests, search bounds and
// the verification lookup.

module PaymentSerializers {
  import opened Common
  import opened Users
  import Orders
  import opened Payments

  // ---------------------------------------------------------------------------
  // Field validators
  // ---------------------------------------------------------------------------

  datatype FieldError = AmountNotPositive | CurrencyNotIsoLength | NegativeFee

  function ValidateAmountPaid(v: real): (r: Result<real, FieldError>)
    ensures r.Ok? <==> v > 0.0
    ensures r.Ok? ==> r.value == v
  {
    if v <= 0.0 then Err(AmountNotPositive) else Ok(v)
  }

  /** validate_currency: exactly three characters, returned upper-cased. */
  function ValidateCurrency(v: string): (r: Result<string, FieldError>)
    ensures r.Ok? <==> |v| == 3
    ensures r.Ok? ==> |r.value| == 3 && forall i :: 0 <= i < 3 ==> !IsLower(r.value[i]) && r.value[i] == ToUpperChar(v[i])
  {
    if |v| != 3 then Err(CurrencyNotIsoLength) else Ok(Upper(v))
  }

  /** The processing and gateway fee validators. */
  function ValidateFee(v: real): (r: Result<real, FieldError>)
    ensures r.Ok? <==> v >= 0.0
  {
    if v < 0.0 then Err(NegativeFee) else Ok(v)
  }

  /** What the field validators accept also passes the model's clean. */
  lemma FieldValidatorsImplyClean(amount: real, currency: string)
    requires ValidateAmountPaid(amount).Ok? && ValidateCurrency(currency).Ok?
    ensures CleanPayment(amount, ValidateCurrency(currency).value).Pass?
  {
  }

  // ---------------------------------------------------------------------------
  // Creation
  // ---------------------------------------------------------------------------

  datatype CreateError =
    | OrderAlreadyPaid
    | PaymentForCancelledOrder
    | AmountBelowOrderTotal
    | CodAmountMismatch
    | NoPaidPaymentToRefund
    | RefundExceedsOriginal

  /** validate_order as written: it compares the order's payment status with 'paid'
      and with 'cancelled', but 'cancelled' is not one of the order's payment
      statuses, so only a paid order is ever refused. */
  function ValidateOrderAsWritten(orderPayment: Orders.OrderPaymentStatus): (r: Outcome<CreateError>)
    ensures r.Fail? <==> orderPayment == Orders.Paid
  {
    if orderPayment == Orders.Paid then Fail(OrderAlreadyPaid) else Pass
  }

  /** The second comparison can never hold: a cancelled order passes validate_order
      as written. */
  lemma CancelledOrderPassesAsWritten(orderPayment: Orders.OrderPaymentStatus, orderStatus: Orders.OrderStatus)
    requires orderStatus == Orders.Cancelled && orderPayment != Orders.Paid
    ensures ValidateOrderAsWritten(orderPayment).Pass?
  {
  }

  datatype OrderCheckError = AlreadyPaid | OrderCancelled

  /** validate_order as its message intends: a paid order, or a cancelled order,
      cannot take a new payment. */
  function ValidateOrder(orderPayment: Orders.OrderPaymentStatus, orderStatus: Orders.OrderStatus): (r: Outcome<OrderCheckError>)
    ensures r.Pass? <==> orderPayment != Orders.Paid && orderStatus != Orders.Cancelled
    ensures orderPayment == Orders.Paid ==> r == Fail(AlreadyPaid)
  {
    if orderPayment == Orders.Paid then Fail(AlreadyPaid)
    else if orderStatus == Orders.Cancelled then Fail(OrderCancelled)
    else Pass
  }

  /** The intended check refuses every order the written one refuses, and also
      cancelled ones. */
  lemma ValidateOrderStrengthens(orderPayment: Orders.OrderPaymentStatus, orderStatus: Orders.OrderStatus)
    ensures ValidateOrder(orderPayment, orderStatus).Pass? ==> ValidateOrderAsWritten(orderPayment).Pass?
    ensures orderStatus == Orders.Cancelled ==> ValidateOrder(orderPayment, orderStatus).Fail?
  {
  }

  /** A creation request, with the order's total and payment status and, for
      refunds, the amount of the order's first paid order payment if there is one. */
  datatype CreateRequest = CreateRequest(
    orderPayment: Orders.OrderPaymentStatus,
    orderStatus: Orders.OrderStatus,
    orderTotal: real,
    paymentMethod: PaymentMethod,
    paymentType: PaymentType,
    amount: real,
    existingPaid: Option<real>)

  /** The field validators run first and all their errors are reported together;
      only when they pass does the cross-field validate run: COD must match the total
      exactly, and a refund needs an existing paid payment it does not exceed. The
      order check is validate_order as written, so the order's status plays no part. */
  function ValidateCreate(req: CreateRequest): (r: Outcome<seq<CreateError>>)
    ensures r.Pass? <==>
              && ValidateOrderAsWritten(req.orderPayment).Pass?
              && req.amount >= req.orderTotal
              && (req.paymentMethod == Cod ==> req.amount == req.orderTotal)
              && (req.paymentType == RefundPayment ==> req.existingPaid.Some? && req.amount <= req.existingPaid.value)
    ensures r.Fail? ==> r.error != []
  {
    CreateChecks(match ValidateOrderAsWritten(req.orderPayment)
                 case Pass => []
                 case Fail(e) => [e], req)
  }

  /** The creation checks with the order check as its message intends: a cancelled
      order is refused as well. */
  function ValidateCreateIntended(req: CreateRequest): (r: Outcome<seq<CreateError>>)
    ensures r.Pass? <==>
              && ValidateOrder(req.orderPayment, req.orderStatus).Pass?
              && req.amount >= req.orderTotal
              && (req.paymentMethod == Cod ==> req.amount == req.orderTotal)
              && (req.paymentType == RefundPayment ==> req.existingPaid.Some? && req.amount <= req.existingPaid.value)
    ensures r.Fail? ==> r.error != []
  {
    CreateChecks(match ValidateOrder(req.orderPayment, req.orderStatus)
                 case Pass => []
                 case Fail(AlreadyPaid) => [OrderAlreadyPaid]
                 case Fail(OrderCancelled) => [PaymentForCancelledOrder], req)
  }

  /** The rest of the creation checks, after the order check's errors. */
  function CreateChecks(orderErrors: seq<CreateError>, req: CreateRequest): Outcome<seq<CreateError>>
  {
    var fieldErrors := orderErrors + (if req.amount < req.orderTotal then [AmountBelowOrderTotal] else []);
    if fieldErrors != [] then Fail(fieldErrors)
    else if req.paymentMethod == Cod && req.amount != req.orderTotal then Fail([CodAmountMismatch])
    else if req.paymentType == RefundPayment && req.existingPaid.None? then Fail([NoPaidPaymentToRefund])
    else if req.paymentType == RefundPayment && req.amount > req.existingPaid.value then Fail([RefundExceedsOriginal])
    else Pass
  }

  /** As written, creation does not look at the order's status at all: a request for a
      cancelled order is decided exactly like the same request for any other order. */
  lemma CreateIgnoresOrderStatus(req: CreateRequest, status: Orders.OrderStatus)
    ensures ValidateCreate(req.(orderStatus := status)) == ValidateCreate(req)
  {
  }

  /** The intended creation checks accept exactly what the written ones accept for an
      order that is not cancelled. */
  lemma IntendedCreateIsWrittenMinusCancelled(req: CreateRequest)
    ensures ValidateCreateIntended(req).Pass? <==> ValidateCreate(req).Pass? && req.orderStatus != Orders.Cancelled
  {
  }

  /** An accepted refund-type payment is at least the order total and at most the
      original payment: a refund smaller than the order total cannot be created. */
  lemma RefundPaymentsCoverTheOrder(req: CreateRequest)
    requires ValidateCreate(req).Pass? && req.paymentType == RefundPayment
    ensures req.existingPaid.Some? && req.orderTotal <= req.amount <= req.existingPaid.value
  {
  }

  /** Cash on delivery is accepted only for exactly the order total. */
  lemma CodPaysExactly(req: CreateRequest, amount: real)
    requires req.paymentMethod == Cod && ValidateCreate(req).Pass?
    requires amount != req.orderTotal
    ensures ValidateCreate(req.(amount := amount)).Fail?
  {
  }

  // ---------------------------------------------------------------------------
  // Status updates
  // ---------------------------------------------------------------------------

  /** The transition table: the targets listed for each tabled status; statuses
      outside the table have no entry. */
  function TableTargets(s: PaymentStatus): Option<seq<PaymentStatus>>
  {
    match s
    case Pending => Some([Processing, Cancelled])
    case Processing => Some([Paid, Failed])
    case Paid => Some([Refunded, PartiallyRefunded])
    case Failed => Some([Pending])
    case _ => None
  }

  /** A move the table lets through: the current status has no entry, or the target
      is listed. */
  predicate TableAllows(from: PaymentStatus, to: PaymentStatus)
  {
    TableTargets(from).None? || to in TableTargets(from).value
  }

  datatype StatusError = InvalidTransition(from: PaymentStatus, to: PaymentStatus)

  /** validate_payment_status: without an instance any status is taken; otherwise
      the table decides. */
  function ValidatePaymentStatus(current: Option<PaymentStatus>, value: PaymentStatus): (r: Result<PaymentStatus, StatusError>)
    ensures r.Ok? <==> current.None? || TableAllows(current.value, value)
    ensures r.Ok? ==> r.value == value
    ensures r.Err? ==> r.error == InvalidTransition(current.value, value)
  {
    if current.Some? && !TableAllows(current.value, value) then Err(InvalidTransition(current.value, value))
    else Ok(value)
  }

  /** The tabled moves, listed out. */
  lemma TabledMoves(from: PaymentStatus, to: PaymentStatus)
    requires from in {Pending, Processing, Paid, Failed}
    ensures TableAllows(from, to) <==>
              || (from == Pending && to in {Processing, Cancelled})
              || (from == Processing && to in {Paid, Failed})
              || (from == Paid && to in {Refunded, PartiallyRefunded})
              || (from == Failed && to == Pending)
  {
  }

  /** Refunded, partially refunded and cancelled have no table entry, so an update may
      move them to any status at all, a cancelled payment back to paid included. */
  lemma TerminalStatusesUnchecked(from: PaymentStatus, to: PaymentStatus)
    requires from in {Refunded, PartiallyRefunded, Cancelled}
    ensures ValidatePaymentStatus(Some(from), to) == Ok(to)
  {
  }

  /** The model's methods and the update table disagree on exactly two moves: the
      methods complete or fail a payment straight from pending, which the table
      forbids. */
  lemma ModelAndTableDisagree(from: PaymentStatus, to: PaymentStatus)
    ensures ModelAllows(from, to) && !TableAllows(from, to) <==> from == Pending && (to == Paid || to == Failed)
  {
  }

  /** The one move the table has and the methods lack: failed back to pending. */
  lemma TableOnlyRetry(from: PaymentStatus, to: PaymentStatus)
    requires from in {Pending, Processing, Paid, Failed}
    ensures TableAllows(from, to) && !ModelAllows(from, to) <==> from == Failed && to == Pending
  {
  }

  /** complete_payment takes a pending payment to paid, which an update would refuse. */
  method CompletePendingDisagrees(p: Payment, now: int)
    requires p.status == Pending
    modifies p`status, p`paidAt, p`transactionId, p`receiptNumber, p.order`paymentStatus
    ensures p.status == Paid
    ensures ValidatePaymentStatus(Some(Pending), p.status).Err?
  {
    p.CompletePayment(None, None, now);
  }

  // ---------------------------------------------------------------------------
  // Refund requests
  // ---------------------------------------------------------------------------

  datatype RefundRequestError = BelowMinimumRefund | ExceedsPaidAmount | PaymentNotPaid

  const MinRefund: real := 1.0 / 100.0

  /** The refund request: more than one centavo, then, when the payment is known, no
      more than it paid and only for a paid payment. MinValueValidator(0.01) compares
      the Decimal amount with the binary float 0.01, which lies slightly above one
      centavo, so an amount of exactly 0.01 is refused: the bound is strict. */
  function ValidateRefundAmount(payment: Option<(PaymentStatus, real)>, value: real): (r: Outcome<RefundRequestError>)
    ensures r.Pass? <==> value > MinRefund && (payment.Some? ==> value <= payment.value.1 && payment.value.0 == Paid)
    ensures value > MinRefund && payment.Some? && value > payment.value.1 ==> r == Fail(ExceedsPaidAmount)
    ensures value == MinRefund ==> r == Fail(BelowMinimumRefund)
  {
    if value <= MinRefund then Fail(BelowMinimumRefund)
    else if payment.None? then Pass
    else if value > payment.value.1 then Fail(ExceedsPaidAmount)
    else if payment.value.0 != Paid then Fail(PaymentNotPaid)
    else Pass
  }

  /** A request the serializer accepts for a known payment passes refund_payment's
      own guards, and the refund is positive. */
  lemma AcceptedRefundRequestRefunds(status: PaymentStatus, amountPaid: real, value: real)
    requires ValidateRefundAmount(Some((status, amountPaid)), value).Pass?
    ensures RefundCheck(status, amountPaid, value).Pass? && value > 0.0
  {
  }

  // ---------------------------------------------------------------------------
  // Search
  // ---------------------------------------------------------------------------

  datatype SearchError = NegativeMinimum | NegativeMaximum | MinimumAboveMaximum | DatesReversed

  /** The search filters: bounds not negative, then the cross checks, each made only
      when both of its values are truthy (a zero amount is not). */
  function ValidateSearch(minAmount: Option<real>, maxAmount: Option<real>, dateFrom: Option<Date>, dateTo: Option<Date>): (r: Outcome<SearchError>)
    ensures r.Pass? <==>
              && (minAmount.Some? ==> minAmount.value >= 0.0)
              && (maxAmount.Some? ==> maxAmount.value >= 0.0)
              && !(minAmount.Some? && maxAmount.Some? && minAmount.value != 0.0 && maxAmount.value != 0.0
                   && minAmount.value > maxAmount.value)
              && !(dateFrom.Some? && dateTo.Some? && DateBefore(dateTo.value, dateFrom.value))
  {
    if minAmount.Some? && minAmount.value < 0.0 then Fail(NegativeMinimum)
    else if maxAmount.Some? && maxAmount.value < 0.0 then Fail(NegativeMaximum)
    else if minAmount.Some? && maxAmount.Some? && minAmount.value != 0.0 && maxAmount.value != 0.0
            && minAmount.value > maxAmount.value then Fail(MinimumAboveMaximum)
    else if dateFrom.Some? && dateTo.Some? && DateBefore(dateTo.value, dateFrom.value) then Fail(DatesReversed)
    else Pass
  }

  /** A zero maximum is falsy, so it switches the range check off: a positive minimum
      above it is accepted. */
  lemma ZeroMaximumSkipsRangeCheck(lo: real)
    requires lo > 0.0
    ensures ValidateSearch(Some(lo), Some(0.0), None, None).Pass?
  {
  }

  /** With both bounds positive the range check is the plain comparison. */
  lemma PositiveBoundsCompared(lo: real, hi: real)
    requires lo > 0.0 && hi > 0.0
    ensures ValidateSearch(Some(lo), Some(hi), None, None).Pass? <==> lo <= hi
  {
  }

  // ---------------------------------------------------------------------------
  // Verification
  // ---------------------------------------------------------------------------

  datatype VerificationError = PaymentNotFound | NotProcessing

  /** validate_payment_id: the payment must exist and be processing. */
  function ValidateVerification(found: Option<PaymentStatus>): (r: Outcome<VerificationError>)
    ensures r.Pass? <==> found == Some(Processing)
  {
    if found.None? then Fail(PaymentNotFound)
    else if found.value != Processing then Fail(NotProcessing)
    else Pass
  }

  /** A payment that may be verified can be completed or failed, and both moves are
      also in the update table. */
  lemma VerifiedPaymentMayFinish(found: Option<PaymentStatus>)
    requires ValidateVerification(found).Pass?
    ensures ModelAllows(found.value, Paid) && TableAllows(found.value, Paid)
    ensures ModelAllows(found.value, Failed) && TableAllows(found.value, Failed)
  {
  }
}
