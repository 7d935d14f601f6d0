# Pharmacy delivery backend: decision rules and state machines in Dafny

This project models the business core of a pharmacy-delivery backend (a Django
REST service in which customers order medicines from pharmacies and riders
deliver them), and proves properties of that model. One Dafny module stands for
one source file:

- **Orders** (`orders.dfy`, `order_serializers.dfy`, `order_permissions.dfy`):
  the order record and its totals, discount, cancellation and status updates;
  the status-transition table and the order-line validators, including the
  stock change an order line causes; who may view, modify and cancel an order.
- **Payments** (`payments.dfy`, `payment_serializers.dfy`): the payment
  state machine (process, complete, fail, refund, cancel), which mirrors its
  outcome on the order, and the serializer validators and transition table.
- **Delivery** (`delivery_serializers.dfy`): assignment and sequence status
  tables, batch-size rules, zone validation and the creation loop that numbers
  the pickup and delivery sequences.
- **Inventory** (`inventory.dfy`, `inventory_serializers.dfy`): pharmacy stock
  with prices, sales, stock updates and stock alerts, and its validators.
- **Chat** (`chat.dfy`, `chat_serializers.dfy`): rooms, participants and
  messages with their status flags, the reply-chain walk and the validators.
- **Notifications** (`notifications.dfy`): the notification validators.
- **Accounts** (`users.dfy`, `customer_profile.dfy`, `security.dfy`,
  `authentication.dfy`, `enhanced_permissions.dfy`): phone normalisation,
  password strength, verification, ages and senior discounts, failed-login
  lockout, the password validator, rate limiter and session manager, the two
  authentication backends and the object permissions.
- **Pharmacies** (`pharmacies.dfy`): the pharmacy serializer validators,
  including opening hours.
- **Locations** (`locations.dfy`, `location_serializers.dfy`): addresses,
  their formatting and coordinates, the one-default-address rule and the
  address validators.

State the source changes in place is a Dafny `class` whose methods name what
they modify; pure checks are functions; loops are methods proved against a
specification function. The current time and date are parameters (`now` in
seconds, `today` as a date); money is `real`; strings are `seq<char>` with
ASCII case and white space.

Several lemmas exhibit places where two parts of the code disagree with each
other, or with the repository's own test file `backend/api/users/test_phase4.py`:

- the password backend locks an account for 15 minutes, the account model for
  30 (`Authentication.LockoutLengthsDisagree`), and at the instant a lock ends
  they also disagree (`Authentication.LockEndInstantDisagrees`);
- a failed-login counter never goes past five, although the lockout test
  expects more (`Authentication.FailuresNeverExceedFive`);
- the phone login used by the tests, twelve digits starting with 63, is looked up
  as a username (`Authentication.TestPhoneLoginIsUsernameLookup`);
- the password called strong by the tests contains "123" and is rejected by
  the default validator (`Security.StrongPass123Rejected`);
- the order transition table lets ready_for_pickup be cancelled, while the order's
  own cancellation rule does not (`OrderSerializers.ReadyForPickupCancellationDisagrees`);
- the payment methods move pending straight to paid or failed, which the payment
  transition table forbids (`PaymentSerializers.ModelAndTableDisagree`).

These are stated about the code as written; the model does not pick a side.
Where a check is evidently mistaken (see "## Findings"), the operation that runs
it is modelled as written and the intended version is a separate member beside it.

## Model

| member | source | states |
|---|---|---|
| Common.StripEmptyIffAllSpace | backend/api/users/authentication.py:73 | stripping an identifier leaves nothing exactly when it is all white space |
| Common.StripTrimmed | backend/api/users/authentication.py:73 | a stripped identifier begins and ends with a non-space character |
| Common.StripIdempotent | backend/api/users/authentication.py:73 | stripping twice strips nothing more |
| Common.DigitsOf | backend/api/users/models.py:57 | removing the non-digits leaves only digits and never lengthens the number |
| Common.SetOfSize | backend/api/locations/serializers.py:163-168 | the set of a list is never larger than the list, and equally large exactly when the list has no repeats |
| Users.NormalizePhone | backend/api/users/models.py:52-65 | the normalised number is all digits and always starts with the country code 63 |
| Users.NormalizePhoneCases | backend/api/users/models.py:52-65 | on the digits of the input: a leading 0 is replaced by 63, a leading 63 is kept, anything else gets 63 prefixed |
| Users.NormalizePhoneIdempotent | backend/api/users/models.py:52-65 | normalising an already normalised number changes nothing |
| Users.User.constructor | backend/api/users/models.py:113-175 | a new account is a pending customer-or-given-role user, active, unverified, with no failed logins and no lock |
| Users.CleanUser | backend/api/users/models.py:211-225 | passes exactly when an email or a phone is given and, for pharmacy and rider accounts, the password is strong; no contact at all is the error reported |
| Users.IsStrongPassword | backend/api/users/models.py:227-242 | an empty password passes; otherwise strong exactly when it has at least 8 characters, an upper-case letter, a lower-case letter, a digit and a special character |
| Users.User.RecordFailedLogin | backend/api/users/models.py:266-275 | the counter goes up by one and is stamped; from the fifth failure the account is locked for thirty minutes and cannot log in during that window |
| Users.User.ResetFailedLoginAttempts | backend/api/users/models.py:277-281 | the counter is zero and the lock is lifted, so the user can log in at any time exactly when the account is active |
| Users.ValidID.constructor | backend/api/users/models.py:290-355 | an ID type record keeps its type and its possibly blank category |
| Users.ValidID.Save | backend/api/users/models.py:359-370 | a set category is kept; a blank one becomes primary exactly for the primary ID types and secondary otherwise |
| Users.AgeAtLeastIff | backend/api/users/models.py:643-652 | a person is at least n years old on a day exactly when that day is not before their n-th birthday |
| Users.AgeMonotone | backend/api/users/models.py:643-652 | the computed age never decreases as the day advances |
| Users.Customer.constructor | backend/api/users/models.py:546-591 | a new customer profile is not senior, not identity-verified, with no IDs uploaded |
| Users.Customer.Clean | backend/api/users/models.py:631-641 | with a birth date, the senior flag is set exactly when the customer is 60 or older today; without one the flag is untouched |
| Users.Customer.SeniorDiscountPercentage | backend/api/users/models.py:673-677 | the discount is 20 exactly for a senior whose identity is verified, and 0 otherwise |
| Users.Customer.MeetsVerificationRequirements | backend/api/users/models.py:679-684 | met exactly by one primary ID or at least two secondary IDs |
| Users.Pharmacy.constructor | backend/api/users/models.py:722-860 | a new pharmacy has no expiry dates and no documents uploaded |
| Users.Pharmacy.Clean | backend/api/users/models.py:914-924 | passes exactly when neither the permit nor the licence has expired; an expired permit is reported first |
| Users.Pharmacy.CanBeVerified | backend/api/users/models.py:964-970 | verifiable exactly when every document is uploaded, the owner account is verified and nothing has expired; such a pharmacy also passes clean |
| Users.Rider.constructor | backend/api/users/models.py:1017-1165 | a new rider has no documents uploaded, no deliveries, a zero rating and no earnings |
| Users.Rider.Clean | backend/api/users/models.py:1186-1197 | passes exactly when a known birth date gives age 18 or more and a motorcycle has a plate number |
| Users.Rider.MeetsVerificationRequirements | backend/api/users/models.py:1241-1252 | met exactly by the primary ID and PSA birth certificate, plus a driver's licence for a motorised vehicle |
| Users.Rider.CanBeVerified | backend/api/users/models.py:1254-1259 | true exactly for a rider meeting the requirements with a verified account who is 18 or older; with no birth date the age comparison raises an error |
| Users.VerifiedRiderIsAdult | backend/api/users/models.py:1254-1259 | a rider accepted for verification has a birth date and is an adult |
| Users.Rider.UpdatePerformanceMetrics | backend/api/users/models.py:1262-1274 | a rating adds one delivery and makes the new average the running mean including it; earnings are added; absent values change nothing |
| Users.RunningAverageBounded | backend/api/users/models.py:1262-1274 | a rating within a range keeps the running average within that range |
| Users.NoContactIsVerified | backend/api/users/models.py:248-254 | an account with neither email nor phone counts as verified, while clean refuses it for missing contact |
| Users.User.CanLogin | backend/api/users/models.py:256-264 | exactly an active account with no lock or a lock that has ended, and a lock not in force now is not in force later |
| Users.CanLoginFromLockEnd | backend/api/users/models.py:256-264 | an active locked account may log in exactly from the lock instant on, and once allowed stays allowed |
| CustomerProfiles.CustomerProfile.constructor | backend/api/users/customer.py:20-59 | a new profile keeps its names and birth date and is not senior |
| CustomerProfiles.CustomerProfile.FullName | backend/api/users/customer.py:125-128 | the full name is the first name, one space, then the last name; a first name without spaces is recovered by cutting at the first space |
| CustomerProfiles.FirstSpaceOfJoin | backend/api/users/customer.py:125-128 | in "first last" with a space-free first name, the first space sits right after the first name |
| CustomerProfiles.CustomerProfile.Age | backend/api/users/customer.py:130-139 | no age without a birth date; with one, the number of whole years lived by today |
| CustomerProfiles.CustomerProfile.IsEligibleForSeniorDiscount | backend/api/users/customer.py:141-146 | eligible exactly when the stored senior flag is set or the customer is 60 or older today |
| CustomerProfiles.CustomerProfile.Save | backend/api/users/customer.py:156-161 | a customer 60 or older becomes senior, the flag is never cleared, and afterwards the flag equals discount eligibility |
| Orders.StatusName | backend/api/orders/models.py:17-25 | every order status has a non-empty stored text |
| Orders.ParseStatus | backend/api/orders/models.py:17-25 | a recognised text is the stored text of the status it yields |
| Orders.ParseStatusName | backend/api/orders/models.py:17-25 | reading back a status's stored text gives that status (the choices round-trip) |
| Orders.CurrentRiderAssignment | backend/api/orders/models.py:352-361 | none exactly when no link is assigned/accepted/picked up/delivering; otherwise the first such link |
| Orders.CanBeCancelledExactly | backend/api/orders/models.py:248-255 | an order can be cancelled exactly while pending, accepted or preparing, never from ready_for_pickup on |
| Orders.CanBeBatched | backend/api/orders/models.py:477-493 | batchable iff the address has coordinates, the status is pending or accepted and no assignment is in progress |
| Orders.WithoutRiderLinks | backend/api/orders/models.py:352-361 | with the rider-assignment relation empty, as the source leaves it, there is no current assignment and a sync never moves the status |
| Orders.SaveLine | backend/api/orders/models.py:713-718 | a line without a total gets unit price times quantity; a line with one is kept as it is |
| Orders.SaveLineIdempotent | backend/api/orders/models.py:713-718 | saving a line twice is the same as saving it once |
| Orders.CleanLine | backend/api/orders/models.py:720-733 | a line passes iff its item is available and the quantity is within stock; an unavailable item is reported first |
| Orders.LinesSubtotalNonNegative | backend/api/orders/models.py:680-689 | lines with non-negative prices and quantities never give a negative subtotal |
| Orders.TotalNonNegative | backend/api/orders/models.py:218-228 | with a discount within the subtotal the total is at least tax plus delivery fee, so the total_amount >= 0 constraint holds |
| Orders.SyncIdempotent | backend/api/orders/models.py:495-509 | syncing twice equals syncing once; only ready_for_pickup and picked_up orders move, and nothing moves without a current assignment |
| Orders.Order.constructor | backend/api/orders/models.py:60-120 | a new order is pending and unpaid, with zero amounts and no notes |
| Orders.Order.CalculateTotals | backend/api/orders/models.py:271-300 | subtotal, 12% tax and total are brought up to date from the lines; with sane inputs the total is not negative; nothing else changes |
| Orders.Order.ApplyDiscount | backend/api/orders/models.py:318-324 | refused exactly when the discount exceeds the stored subtotal (state untouched); otherwise stored and the totals recomputed |
| Orders.Order.CancelOrder | backend/api/orders/models.py:326-333 | succeeds exactly when the order can be cancelled; then cancelled with the reason appended to the notes; otherwise unchanged |
| Orders.Order.UpdateStatus | backend/api/orders/models.py:302-316 | any status is set without a transition check; a truthy note is appended; delivery stamps the time; amounts untouched |
| Orders.Order.SyncDeliveryStatus | backend/api/orders/models.py:495-509 | the status becomes the synced status of the current assignment (pickup, then delivery, possibly both); nothing else changes |
| Orders.Order.UpdateDeliveryStatus | backend/api/orders/models.py:511-531 | returns the old status, sets the new one (stamping delivery) and, when asked, syncs it with the current assignment |
| OrderSerializers.TransitionCopiesAgree | backend/api/orders/serializers.py:362-375 | the status-update serializer's copy of the table accepts exactly the pairs the order serializer's table accepts |
| OrderSerializers.TransitionTableMeaning | backend/api/orders/serializers.py:271-284 | read on status texts, the table is exactly one step forward along the pipeline or cancellation before pickup |
| OrderSerializers.TransitionNeedsKnownStatuses | backend/api/orders/serializers.py:271-284 | an accepted transition names known statuses on both sides; an unknown old status has no successors |
| OrderSerializers.TerminalStatuses | backend/api/orders/serializers.py:279-282 | delivered, cancelled and refunded have no successors, picked_up cannot be cancelled, and no status moves to itself |
| OrderSerializers.TransitionsMoveForward | backend/api/orders/serializers.py:271-284 | every allowed transition strictly increases the pipeline rank, so no sequence of updates revisits a status |
| OrderSerializers.ReadyForPickupCancellationDisagrees | backend/api/orders/serializers.py:278 | the table allows ready_for_pickup to cancelled while the model's cancellation rule refuses it |
| OrderSerializers.ValidateOrder | backend/api/orders/serializers.py:183-210 | passes iff the address belongs to the customer (when both given), a scheduled delivery has a preferred time, and the line items are non-empty and distinct |
| OrderSerializers.DuplicateItemRefused | backend/api/orders/serializers.py:202-205 | any repeated inventory item, wherever it occurs, makes the order invalid |
| OrderSerializers.PrepareOrderUpdate | backend/api/orders/serializers.py:240-263 | refused iff a requested status is not a table transition; a payment that newly pays a pending order forces accepted; delivery stamps the time |
| OrderSerializers.UpdateWritesOnlyAllowedTransitions | backend/api/orders/serializers.py:240-263 | whatever status an accepted update writes, including the payment-forced one, is an allowed transition from the current status |
| OrderSerializers.PaymentOverridesCancellation | backend/api/orders/serializers.py:254-260 | paying a pending order in the update that cancels it leaves it accepted rather than cancelled |
| OrderSerializers.ApplyOrderUpdate | backend/api/orders/serializers.py:240-269 | the order's status, payment status and delivery stamp become the prepared values; a refused update leaves the order unchanged |
| OrderSerializers.ValidateLine | backend/api/orders/serializers.py:34-58 | accepted iff the item exists, is available and has the requested quantity (default 1) in stock; fills a pending prescription status and the current price |
| OrderSerializers.ValidateLineAgreesWithClean | backend/api/orders/serializers.py:42-48 | the serializer's availability and stock check accepts exactly the lines the model's line clean accepts |
| OrderSerializers.ValidatedPriceAtMostList | backend/api/orders/serializers.py:54-56 | a line priced from a consistent item never costs more than the list price and never less than zero |
| OrderSerializers.CreateLine | backend/api/orders/serializers.py:60-69 | the line total is unit price times quantity and item stock plus line quantity equals the old stock; short stock is refused with nothing changed; a save the item's constraints refuse fails the create, which never happens for an item that met them; on success the item's save keeps its original price and descriptive fields |
| OrderSerializers.UpdateLine | backend/api/orders/serializers.py:71-96 | stock plus line quantity is conserved, an increase beyond stock is refused with the item untouched, a stock save the item's constraints refuse fails the update (never for an item that met them), a changed price or quantity recomputes the total, an unchanged quantity leaves the item alone |
| OrderPermissions.NamesUser | backend/api/orders/permissions.py:115-119 | the early-return search over linked users succeeds iff some entry names the user |
| OrderPermissions.CanViewAnalytics | backend/api/orders/permissions.py:234-251 | analytics (and export) are allowed iff the requester is authenticated and is staff, a pharmacy owner or a rider |
| OrderPermissions.CanManagePrescriptionsRequest | backend/api/orders/permissions.py:195-208 | prescription management is allowed at request level iff the requester is authenticated staff or a pharmacy owner |
| OrderPermissions.CanViewOrder | backend/api/orders/permissions.py:96-121 | allowed iff the owner, staff, a pharmacy owner with an item on some line, or a rider named by some assignment; another customer, and a pharmacy or rider without such a link, is refused |
| OrderPermissions.CanCreateOrder | backend/api/orders/permissions.py:71-82 | allowed iff the requester is an authenticated customer, who then (unless staff) has no access to analytics |
| OrderPermissions.IsOrderOwner | backend/api/orders/permissions.py:6-20 | passes iff the requester is authenticated and is the order's customer, who may then also view and pay for it |
| OrderPermissions.IsPharmacyOrderManager | backend/api/orders/permissions.py:23-45 | passes iff the requester is a pharmacy owner with an item on some line of the order, who may then also view it and update its status |
| OrderPermissions.IsRiderOrderManager | backend/api/orders/permissions.py:48-67 | passes iff the requester is a rider named by some assignment of the order, who may then view it and update its status but, unless owner or staff, not cancel it |
| OrderPermissions.WithoutRiderLinks | backend/api/orders/permissions.py:61-67 | with no rider links, as the source leaves them, no rider passes the rider-manager check and only staff or a pharmacy owner of some line may update the status |
| OrderPermissions.CanUpdateOrderStatus | backend/api/orders/permissions.py:133-154 | allowed iff staff, a pharmacy owner of some line, or an assigned rider; owning the order is not enough |
| OrderPermissions.CanCancelOrder | backend/api/orders/permissions.py:166-187 | nobody may cancel an order that is past cancelling; before that exactly the owner, staff or a pharmacy owner of some line |
| OrderPermissions.CanProcessPayment | backend/api/orders/permissions.py:337-354 | allowed iff the owner, staff, or a pharmacy owner of some line |
| OrderPermissions.CanManagePrescription | backend/api/orders/permissions.py:210-226 | denied for every requester, staff included, on a line without a prescription; otherwise exactly staff or the item pharmacy's owner |
| OrderPermissions.CanManageOrderLine | backend/api/orders/permissions.py:298-314 | allowed iff the order's owner, staff, or the owner of the item's pharmacy |
| OrderPermissions.IsOrderInEditableState | backend/api/orders/permissions.py:322-325 | an order is editable iff it is pending or accepted |
| OrderPermissions.StaffCannotCancelLateOrders | backend/api/orders/permissions.py:166-169 | staff can still view but cannot cancel an order from ready_for_pickup on |
| OrderPermissions.AssignedRiderCannotCancel | backend/api/orders/permissions.py:171-187 | a rider who is neither owner nor staff can never cancel, assigned or not |
| OrderPermissions.EditableImpliesCancellable | backend/api/orders/permissions.py:322-325 | every editable order can still be cancelled |
| OrderPermissions.CancelImpliesView | backend/api/orders/permissions.py:166-187 | whoever may cancel an order may also view it |
| OrderPermissions.AnonymousRefused | backend/api/orders/permissions.py:96-121 | an anonymous request is refused by every object rule that names a user |
| OrderPermissions.PharmacyLineFound | backend/api/orders/permissions.py:105-111 | a pharmacy owner with a line anywhere in the order may view it |
| Payments.ModelAllowsAdvances | backend/api/payments/models.py:269-352 | every status change the payment's methods make moves to a strictly later stage, so the methods never cycle |
| Payments.ModelFinalStatuses | backend/api/payments/models.py:269-352 | failed, cancelled and refunded payments are final for the methods, a refund follows only a paid payment, and nothing returns to pending |
| Payments.RefundCheck | backend/api/payments/models.py:323-329 | a refund passes iff the payment is paid and the amount is within the amount paid; an unpaid payment is reported first |
| Payments.CleanPayment | backend/api/payments/models.py:400-410 | passes iff the amount is positive and the currency has exactly three characters; a non-positive amount is reported first |
| Payments.Payment.constructor | backend/api/payments/models.py:60-180 | a new payment is a pending order payment in PHP, with zero fees and no stamps |
| Payments.Payment.IsPaid | backend/api/payments/models.py:222-225 | true exactly for a paid payment, which is then neither pending, failed nor refunded, and carries its payment stamp when stamped |
| Payments.Payment.IsPending | backend/api/payments/models.py:227-230 | true exactly for a pending payment, which is then neither failed nor refunded |
| Payments.Payment.IsFailed | backend/api/payments/models.py:232-235 | true exactly for a failed payment, which is then not refunded, and carries its failure stamp when stamped |
| Payments.Payment.TotalFees | backend/api/payments/models.py:245-248 | the processing and gateway fees together; with fees that are not negative it is at least each of them, and zero only when both are |
| Payments.Payment.IsRefunded | backend/api/payments/models.py:237-243 | true exactly for refunded and partially refunded payments |
| Payments.Payment.NetAmount | backend/api/payments/models.py:245-253 | net amount plus total fees is the amount paid; with non-negative fees it never exceeds the amount, and it is non-negative iff the fees fit |
| Payments.Payment.Clean | backend/api/payments/models.py:400-410 | the payment's clean passes iff its amount is positive and its currency has three characters |
| Payments.Payment.ProcessPayment | backend/api/payments/models.py:269-283 | only pending becomes processing (stamped, truthy ids kept); any other status is a no-op; stamps stay consistent |
| Payments.Payment.CompletePayment | backend/api/payments/models.py:285-303 | pending or processing becomes paid and the order is marked paid; otherwise nothing changes |
| Payments.Payment.FailPayment | backend/api/payments/models.py:305-321 | pending or processing becomes failed with the reason noted and the order marked failed; otherwise nothing changes |
| Payments.Payment.RefundPayment | backend/api/payments/models.py:323-345 | refused unless paid and within the amount paid; a full refund marks the order refunded, a partial one leaves it; a refunded payment cannot be refunded again |
| Payments.Payment.CancelPayment | backend/api/payments/models.py:347-352 | only a pending payment is cancelled, with the reason noted; any other status is a no-op |
| Payments.Payment.Save | backend/api/payments/models.py:391-398 | a payment without an id gets "PAY" and the timestamp; an existing id is kept; afterwards the id is non-empty |
| PaymentSerializers.ValidateAmountPaid | backend/api/payments/serializers.py:78-82 | an amount is accepted iff it is positive, and is returned unchanged |
| PaymentSerializers.ValidateCurrency | backend/api/payments/serializers.py:84-88 | a currency is accepted iff it has three characters, and is returned upper-cased |
| PaymentSerializers.ValidateFee | backend/api/payments/serializers.py:90-100 | a processing or gateway fee is accepted iff it is not negative |
| PaymentSerializers.FieldValidatorsImplyClean | backend/api/payments/serializers.py:78-88 | an amount and currency accepted by the field validators pass the model's clean |
| PaymentSerializers.ValidateOrderAsWritten | backend/api/payments/serializers.py:114-122 | as written, only an order whose payment status is paid is refused |
| PaymentSerializers.CancelledOrderPassesAsWritten | backend/api/payments/serializers.py:118-119 | a cancelled, unpaid order passes the check as written, because it compares the payment status with 'cancelled' |
| PaymentSerializers.ValidateOrder | backend/api/payments/serializers.py:114-122 | as intended: an order accepts a new payment iff it is neither paid nor cancelled |
| PaymentSerializers.ValidateOrderStrengthens | backend/api/payments/serializers.py:114-122 | the intended check refuses everything the written one refuses, and every cancelled order besides |
| PaymentSerializers.ValidateCreate | backend/api/payments/serializers.py:114-173 | a new payment is accepted iff the order is not already paid (the order check as written), it covers the order total, COD pays it exactly, and a refund has a paid payment it does not exceed |
| PaymentSerializers.CreateIgnoresOrderStatus | backend/api/payments/serializers.py:114-122 | as written, creation decides a request for a cancelled order exactly as for any other order |
| PaymentSerializers.ValidateCreateIntended | backend/api/payments/serializers.py:114-173 | with the order check as intended, a new payment is accepted iff the order is neither paid nor cancelled and the other creation checks pass |
| PaymentSerializers.IntendedCreateIsWrittenMinusCancelled | backend/api/payments/serializers.py:114-122 | the intended creation checks accept exactly what the written ones accept for an order that is not cancelled |
| PaymentSerializers.RefundPaymentsCoverTheOrder | backend/api/payments/serializers.py:153-171 | an accepted refund-type payment lies between the order total and the original paid amount |
| PaymentSerializers.CodPaysExactly | backend/api/payments/serializers.py:145-151 | cash on delivery for any amount other than the order total is refused |
| PaymentSerializers.ValidatePaymentStatus | backend/api/payments/serializers.py:186-220 | without an instance any status is taken; otherwise accepted iff the transition table allows it, and the value is returned unchanged |
| PaymentSerializers.TabledMoves | backend/api/payments/serializers.py:193-208 | for tabled statuses the allowed moves are exactly pending to processing/cancelled, processing to paid/failed, paid to refunded/partially refunded, failed to pending |
| PaymentSerializers.TerminalStatusesUnchecked | backend/api/payments/serializers.py:210-212 | refunded, partially refunded and cancelled payments may be updated to any status |
| PaymentSerializers.ModelAndTableDisagree | backend/api/payments/serializers.py:193-208 | the methods make exactly two moves the table forbids: pending to paid and pending to failed |
| PaymentSerializers.TableOnlyRetry | backend/api/payments/serializers.py:206-208 | the only tabled move the methods never make is failed back to pending |
| PaymentSerializers.CompletePendingDisagrees | backend/api/payments/serializers.py:193-197 | completing a pending payment reaches paid, which the update validator would refuse from pending |
| PaymentSerializers.ValidateRefundAmount | backend/api/payments/serializers.py:226-263 | a refund request is accepted iff it is above 0.01 (the Decimal is compared with the float 0.01, so exactly 0.01 is refused) and, for a known payment, within its amount and the payment is paid; excess is reported first |
| PaymentSerializers.AcceptedRefundRequestRefunds | backend/api/payments/serializers.py:249-263 | a request accepted for a known payment passes refund_payment's own guards, with a positive amount |
| PaymentSerializers.ValidateSearch | backend/api/payments/serializers.py:323-353 | bounds must not be negative; min > max and from > to are refused only when both values are truthy |
| PaymentSerializers.ZeroMaximumSkipsRangeCheck | backend/api/payments/serializers.py:339-341 | a zero maximum is falsy, so any positive minimum is accepted against it |
| PaymentSerializers.PositiveBoundsCompared | backend/api/payments/serializers.py:339-341 | with both bounds positive the search is accepted iff min <= max |
| PaymentSerializers.ValidateVerification | backend/api/payments/serializers.py:408-420 | verification is accepted iff the payment exists and is processing |
| PaymentSerializers.VerifiedPaymentMayFinish | backend/api/payments/serializers.py:408-420 | a payment that may be verified can be completed or failed, both by the methods and by the table |
| DeliverySerializers.ValidateLatitude | backend/api/delivery/serializers.py:64-68 | a latitude is accepted iff it lies in [-90, 90] |
| DeliverySerializers.ValidateLongitude | backend/api/delivery/serializers.py:70-74 | a longitude is accepted iff it lies in [-180, 180] |
| DeliverySerializers.ValidateZoneRadius | backend/api/delivery/serializers.py:40-46 | a zone radius is accepted iff it lies in (0, 50]; a non-positive one is reported first |
| DeliverySerializers.ValidateSpeed | backend/api/delivery/serializers.py:76-80 | a speed is accepted iff it is absent or not negative |
| DeliverySerializers.ValidateSequence | backend/api/delivery/serializers.py:101-111 | a pickup or delivery sequence number is accepted iff it is at least 1 |
| DeliverySerializers.ValidateBatchSize | backend/api/delivery/serializers.py:159-165 | a batch size is accepted iff it lies in [1, 5] |
| DeliverySerializers.ValidateDeliveryFee | backend/api/delivery/serializers.py:167-171 | a total delivery fee is accepted iff it is not negative |
| DeliverySerializers.ValidateRiderEarnings | backend/api/delivery/serializers.py:173-177 | rider earnings are accepted iff not negative |
| DeliverySerializers.FirstOverlap | backend/api/delivery/serializers.py:320-330 | finds the first zone whose centre is closer than the two radii together, and none iff no zone overlaps |
| DeliverySerializers.ValidateZoneOverlap | backend/api/delivery/serializers.py:311-334 | with truthy centre and radius, accepted iff no active zone overlaps (the first overlap is reported); otherwise never checked |
| DeliverySerializers.EquatorZoneSkipsOverlap | backend/api/delivery/serializers.py:318 | a zone centred on latitude 0 has a falsy latitude, so it passes even on top of an existing zone |
| DeliverySerializers.ValidateCreateOrderIds | backend/api/delivery/serializers.py:197-212 | order ids are accepted iff non-empty, distinct, all existing, and none already assigned |
| DeliverySerializers.ValidateBatchOrderIds | backend/api/delivery/serializers.py:376-402 | a batch's ids are accepted iff 1 to 5 of them pass the creation checks and the batching service accepts them; more than 5 is reported first |
| DeliverySerializers.ValidateBatchingLimits | backend/api/delivery/serializers.py:404-414 | batching limits are accepted iff the maximum size is in [1, 5] and the maximum distance in (0.1, 10] km; 0.10 itself is refused, since the Decimal is compared with the float 0.1 |
| DeliverySerializers.ValidateAssignmentCreate | backend/api/delivery/serializers.py:214-231 | accepted iff the batch size (default the number of orders) equals the number of orders and agrees with the assignment type |
| DeliverySerializers.AcceptedAssignmentIsConsistent | backend/api/delivery/serializers.py:197-231 | an assignment that passes the creation checks has at least one order, all distinct, as many as a given batch size, one exactly when it is single and more than one exactly when it is a batch |
| DeliverySerializers.CreationAcceptsSevenOrders | backend/api/delivery/serializers.py:159-231 | the creation serializer accepts seven free orders on a batch of seven, although the other assignment serializer's batch-size check refuses seven |
| DeliverySerializers.CreateOrderLinks | backend/api/delivery/serializers.py:233-250 | the i-th order id gets a link with pickup and delivery sequence i, counting from 1 |
| DeliverySerializers.NumberingIsOneToN | backend/api/delivery/serializers.py:241-248 | the pickup sequences are 1..n, strictly increasing, pass the sequence validators, and equal the delivery sequences |
| DeliverySerializers.ValidateAssignmentStatus | backend/api/delivery/serializers.py:262-297 | without an instance any status is taken; otherwise accepted iff the transition table allows it |
| DeliverySerializers.TabledAssignmentMoves | backend/api/delivery/serializers.py:269-286 | from assigned, accepted, picked_up or delivering the table allows exactly the next step or cancellation |
| DeliverySerializers.AssignmentTerminalUnchecked | backend/api/delivery/serializers.py:288-289 | completed and cancelled assignments may be updated to any status |
| DeliverySerializers.AssignmentCycleAccepted | backend/api/delivery/serializers.py:262-297 | the validator admits a full cycle completed, assigned, accepted, picked_up, delivering, completed |
| DeliverySerializers.ValidateRiderId | backend/api/delivery/serializers.py:434-443 | a rider is accepted iff it exists and is approved |
| DeliverySerializers.FirstMismatch | backend/api/delivery/serializers.py:453-461 | finds the first batch whose size disagrees with the assignment type, and none iff all agree |
| DeliverySerializers.ValidateBulk | backend/api/delivery/serializers.py:445-462 | a bulk request is accepted iff it has batches and every batch agrees with the type; the first disagreeing batch is reported |
| DeliverySerializers.BulkBatchSizes | backend/api/delivery/serializers.py:376-462 | in an accepted bulk request a single assignment's batches have one order and a batch assignment's have two to five |
| Common.AllListedExistIff | backend/api/delivery/serializers.py:203-205 | a filter by the listed ids finds as many rows as ids iff the ids are distinct and all exist |
| Inventory.ClassifyStock | backend/api/inventory/pharmacy_inventory.py:300-310 | out of stock exactly at 0, low exactly when positive and at most the minimum, overstocked exactly when above the minimum and at least the maximum, otherwise strictly between |
| Inventory.StockAlertNeverOutOfStock | backend/api/inventory/pharmacy_inventory.py:353-367 | as written the low-stock test comes first, so an empty shelf is reported as low stock and the out-of-stock alert is never produced |
| Inventory.StockAlertCorrected | backend/api/inventory/pharmacy_inventory.py:353-367 | the corrected alert is out-of-stock exactly for an empty shelf, low-stock exactly when stock classification says low, none iff stock exceeds the minimum |
| Inventory.StockAlertCorrectionOnlyAtZero | backend/api/inventory/pharmacy_inventory.py:353-367 | the corrected and written alerts differ exactly on an empty shelf |
| Inventory.PharmacyInventory.constructor | backend/api/inventory/pharmacy_inventory.py:105-135 | a new item is available, not on sale, with minimum 10 and maximum 1000 stock levels |
| Inventory.PharmacyInventory.DiscountAmount | backend/api/inventory/pharmacy_inventory.py:286-291 | the discount is zero outside a sale with a truthy percentage, and within [0, price] for a consistent item |
| Inventory.PharmacyInventory.CurrentPrice | backend/api/inventory/pharmacy_inventory.py:278-284 | current price plus discount is the list price; a consistent item's current price lies in [0, price]; off sale it is the price |
| Inventory.PharmacyInventory.ProfitMargin | backend/api/inventory/pharmacy_inventory.py:293-298 | a margin exists iff the cost price is positive; it is the percentage gain over cost and non-negative iff price covers cost |
| Inventory.PharmacyInventory.DisplayName | backend/api/inventory/pharmacy_inventory.py:248-256 | the custom name if truthy, else the catalog's display name, else name, dosage and the form's choice label, the raw form when it has none |
| Inventory.PharmacyInventory.StockStatusOf | backend/api/inventory/pharmacy_inventory.py:300-310 | out of stock exactly on an empty shelf, low exactly when stocked at or below the minimum, overstocked exactly above the minimum and at or above the maximum, normal only strictly between them |
| Inventory.PharmacyInventory.UpdateStock | backend/api/inventory/pharmacy_inventory.py:340-351 | add, subtract and set change the stock as named; subtracting more than stock is refused with nothing changed; an unknown operation keeps the stock; the save succeeds iff the new row meets the check constraints, so for an item that met them exactly when the stock stays non-negative, and a subtraction within stock always succeeds; the save keeps a set original price and a non-inheriting item's descriptive fields |
| Inventory.PharmacyInventory.StartSale | backend/api/inventory/pharmacy_inventory.py:369-375 | sets all four sale fields; the save succeeds iff the row meets the check constraints, so for an item that met them exactly when the discount is at most 100, and the current price then lies in [0, price]; with a non-zero discount the current price is price less that percentage; the save keeps a set original price and a non-inheriting item's descriptive fields |
| Inventory.PharmacyInventory.EndSale | backend/api/inventory/pharmacy_inventory.py:377-383 | clears all four sale fields, after which the current price is the list price and the discount zero; the save succeeds iff price and stock are non-negative, so always for an item that met the constraints; the save keeps a set original price and a non-inheriting item's descriptive fields |
| Inventory.PharmacyInventory.Save | backend/api/inventory/pharmacy_inventory.py:413-427 | a falsy original price becomes the price; a catalog item without a custom name copies the six catalog fields, otherwise they are kept; the row is written iff it meets the table's check constraints (price and stock non-negative, discount unset or at most 100), else the save fails with the in-memory changes kept |
| Inventory.FilledOriginalPrice | backend/api/inventory/pharmacy_inventory.py:415-416 | the original price after a save is always set: the price when it was unset or zero, else unchanged |
| Inventory.SaveIdempotentOnPrice | backend/api/inventory/pharmacy_inventory.py:415-416 | filling the original price a second time changes nothing, whatever the price, zero included |
| Inventory.Clean | backend/api/inventory/pharmacy_inventory.py:385-411 | passes iff a custom product has name, form and dosage, a sale has an ordered window, and a truthy discount lies in [0, 100] |
| InventorySerializers.ValidateCategory | backend/api/inventory/serializers.py:32-44 | a category is accepted iff it has no parent, or the parent is not itself (when editing) and sits below level 2; self-parenting is reported first |
| InventorySerializers.ValidateCatalog | backend/api/inventory/serializers.py:83-96 | accepted iff truthy brand names are a list of non-blank strings; a controlled substance comes out needing a prescription; nothing else changes |
| InventorySerializers.ValidateCatalogIdempotent | backend/api/inventory/serializers.py:83-96 | validating the catalog validator's output again changes nothing |
| InventorySerializers.ValidateInventory | backend/api/inventory/serializers.py:137-173 | passes iff every rule holds (custom name, ordered sale dates, discount in [0, 100] unless zero, stock and prices not negative, price at least cost); a missing custom name is reported first |
| InventorySerializers.ValidatedSaleIsClean | backend/api/inventory/serializers.py:143-154 | a sale and discount the serializer accepts also pass the model's clean |
| InventorySerializers.PrepareCreate | backend/api/inventory/serializers.py:175-192 | a price without a truthy original price becomes the original price; a catalog item without a custom name takes the six catalog fields; nothing else changes |
| InventorySerializers.PrepareCreateIdempotent | backend/api/inventory/serializers.py:175-192 | preparing the data twice gives what preparing it once gives |
| InventorySerializers.PrepareUpdate | backend/api/inventory/serializers.py:194-218 | refused iff a negative stock is set; stock 0 makes the item unavailable, a refill from 0 makes it available; ending a sale clears discount and dates; nothing else changes |
| InventorySerializers.UpdateAvailabilityFollowsStock | backend/api/inventory/serializers.py:203-207 | when availability is rewritten it becomes false exactly when the stock classification says out of stock |
| InventorySerializers.PrepareUpdateIdempotent | backend/api/inventory/serializers.py:194-218 | applying the update rules to their own output changes nothing |
| InventorySerializers.ValidateBulkUpdate | backend/api/inventory/serializers.py:262-280 | accepted iff ids and updates are non-empty and every update key is one of the eight allowed fields; a refusal names exactly the other keys |
| InventorySerializers.BulkUpdateNeverRenames | backend/api/inventory/serializers.py:271-274 | a bulk update touching name, medicine or cost price is refused |
| Chat.AfterClose | backend/api/chat/models.py:146-152 | closing never leaves a room open, and changes the status exactly when the room was open |
| Chat.RoomNeverReopens | backend/api/chat/models.py:146-157 | closing is idempotent, an archived room stays archived, and a room that is not open is left as it is |
| Chat.ChatRoom.constructor | backend/api/chat/models.py:47-64 | a new room is open, without participants, for at most ten |
| Chat.ChatRoom.AddParticipant | backend/api/chat/models.py:125-135 | refused with nothing changed iff the room is full, even for an existing member; otherwise an existing member keeps their role and a new user joins with the role given; capacity is kept |
| Chat.ChatRoom.RemoveParticipant | backend/api/chat/models.py:137-144 | answers true iff the user was present, removes them, and the count drops by exactly that |
| Chat.ChatRoom.CloseRoom | backend/api/chat/models.py:146-152 | only an open room closes and is stamped; afterwards the room is never active |
| Chat.ChatRoom.ArchiveRoom | backend/api/chat/models.py:154-157 | any room becomes archived and inactive |
| Chat.ChatRoom.Save | backend/api/chat/models.py:179-186 | a room without an id gets "CHAT" and the timestamp; an existing id is kept |
| Chat.ChatParticipant.constructor | backend/api/chat/models.py:222-251 | a new participant is active, neither muted nor blocked, not left, seen now |
| Chat.ChatParticipant.IsOnline | backend/api/chat/models.py:286-294 | online exactly when last seen less than five minutes ago, so in particular when just seen |
| Chat.ChatParticipant.CanSendMessages | backend/api/chat/models.py:296-302 | exactly an active participant, neither muted nor blocked, in an open room; whoever may send may also receive |
| Chat.ChatParticipant.CanReceiveMessages | backend/api/chat/models.py:304-309 | exactly an active, unblocked participant in an open room; a closed or archived room reaches nobody |
| Chat.ChatParticipant.LeaveRoom | backend/api/chat/models.py:311-317 | the participant becomes inactive and can then neither send nor receive; only if it was active is it stamped and saved, which sets last seen to now so that it is online |
| Chat.ChatParticipant.RejoinRoom | backend/api/chat/models.py:319-324 | the participant becomes active; only if it was inactive does it lose the leave stamp and get saved, which sets last seen to now so that it is online |
| Chat.ChatParticipant.MuteParticipant | backend/api/chat/models.py:326-329 | a muted participant cannot send, and can receive exactly as before; the save sets last seen to now, so it is online |
| Chat.ChatParticipant.UnmuteParticipant | backend/api/chat/models.py:331-334 | once unmuted, sending is allowed exactly when receiving is; the save sets last seen to now, so it is online |
| Chat.ChatParticipant.BlockParticipant | backend/api/chat/models.py:336-340 | a blocked participant is inactive and can neither send nor receive; the save sets last seen to now, so it counts as online |
| Chat.ChatParticipant.UnblockParticipant | backend/api/chat/models.py:342-346 | an unblocked participant is active again, whether or not it had left, and receives exactly when the room is open; the save sets last seen to now, so it is online |
| Chat.ChatParticipant.UpdateLastSeen | backend/api/chat/models.py:348-350 | the last-seen time is now, so the participant is online |
| Chat.SendingIsReceivingUnmuted | backend/api/chat/models.py:296-309 | a participant can send exactly when it can receive and is not muted |
| Chat.LeaveThenUnblock | backend/api/chat/models.py:311-346 | unblocking a participant that left makes it active while the leave stamp stays |
| Chat.AfterDelivered | backend/api/chat/models.py:552-558 | marking delivered changes the status exactly when it was sent, and never leaves it sent |
| Chat.AfterRead | backend/api/chat/models.py:560-566 | marking read changes the status exactly when it was delivered, and never leaves it delivered |
| Chat.ReadOnlyAfterDelivery | backend/api/chat/models.py:552-571 | a sent message cannot be read before delivery; delivered-then-read reaches read; read and failed messages never move; the two marks commute except from sent |
| Chat.CleanMessage | backend/api/chat/models.py:633-646 | a blank text message and a media message without a file path are refused, each with its own error, and nothing else |
| Chat.ChatMessage.constructor | backend/api/chat/models.py:398-460 | a new message is sent, neither edited nor deleted, without delivery or read stamps |
| Chat.ChatMessage.Clean | backend/api/chat/models.py:633-646 | a message passes iff text has non-blank content and media has a file path |
| Chat.ChatMessage.MarkAsDelivered | backend/api/chat/models.py:552-558 | only a sent message becomes delivered, stamped; any other is left alone |
| Chat.ChatMessage.MarkAsRead | backend/api/chat/models.py:560-566 | only a delivered message becomes read, stamped; any other is left alone |
| Chat.ChatMessage.MarkAsFailed | backend/api/chat/models.py:568-571 | a message of any status becomes failed |
| Chat.ChatMessage.EditMessage | backend/api/chat/models.py:573-582 | refused with nothing changed iff the message may not be edited (deleted, not text, or system); otherwise the content is replaced and marked edited |
| Chat.ChatMessage.CanBeEdited | backend/api/chat/models.py:540-545 | exactly a live text message, and every editable message may also be deleted |
| Chat.ChatMessage.CanBeDeleted | backend/api/chat/models.py:547-550 | exactly a live message that is not a system message |
| Chat.ChatMessage.DeleteMessage | backend/api/chat/models.py:584-592 | a soft delete refused iff not deletable; afterwards it can be neither edited nor deleted again |
| Chat.ChatMessage.GetReplyChain | backend/api/chat/models.py:609-618 | returns the ancestors oldest first, excluding the message itself, starting at the root and ending at the message replied to |
| Chat.Reversed | backend/api/chat/models.py:618 | the reversal has the same length and the i-th element from the front is the i-th from the back |
| Chat.AncestrySuffix | backend/api/chat/models.py:613-615 | each ancestor's own ancestry is the part of the chain above it |
| Chat.AncestryUnique | backend/api/chat/models.py:613-615 | a message has at most one ancestry, so the reply chain is determined by the message |
| Chat.NotOwnAncestor | backend/api/chat/models.py:613-615 | a message with an ancestry is not among its own ancestors |
| Chat.SelfReplyHasNoAncestry | backend/api/chat/models.py:613-615 | a message that replies to itself has no finite ancestry, so the walk never ends |
| ChatSerializers.ValidateMaxParticipants | backend/api/chat/serializers.py:39-45 | a capacity is accepted, unchanged, iff it lies in [2, 50]; too few and too many are told apart |
| ChatSerializers.ValidateRoom | backend/api/chat/serializers.py:47-53 | refused exactly when a description is given without a title |
| ChatSerializers.ValidateRoomUpdate | backend/api/chat/serializers.py:85-91 | an update is refused exactly when the room exists and is not open |
| ChatSerializers.ClosedRoomsRefuseUpdates | backend/api/chat/serializers.py:85-91 | a closed or archived room can no longer be updated; only an open room can |
| ChatSerializers.LastMessagePreview | backend/api/chat/serializers.py:113-119 | no message gives the placeholder; content of at most 100 characters is shown whole; longer content gives its first 100 characters and "..." |
| ChatSerializers.PreviewIsBoundedPrefix | backend/api/chat/serializers.py:113-119 | a preview is at most 103 characters, starts with the content, and equals it iff the content is short or is already 100 characters plus "..." |
| ChatSerializers.ValidateContent | backend/api/chat/serializers.py:270-274 | missing or blank content is refused; accepted content is the stripped text, non-empty and trimmed at both ends |
| ChatSerializers.ValidateContentIdempotent | backend/api/chat/serializers.py:454-458 | content the validator accepted passes it again unchanged |
| ChatSerializers.ValidateFilePath | backend/api/chat/serializers.py:276-281 | refused exactly when the raw message type is image or file and no file path is given |
| ChatSerializers.ValidateMessage | backend/api/chat/serializers.py:283-293 | text without content and media without a file path are refused with their own errors; a message without a type is checked for neither |
| ChatSerializers.AcceptedMessageIsClean | backend/api/chat/serializers.py:270-293 | a message whose content and fields the serializer accepted passes the message model's clean |
| ChatSerializers.ValidateMessageCreate | backend/api/chat/serializers.py:308-321 | accepted iff the requester is a participant of the room who may send messages |
| ChatSerializers.SilencedSenderRefused | backend/api/chat/serializers.py:316-319 | a muted, blocked or departed participant, or one in a room that is not open, is refused |
| ChatSerializers.ValidateMessageUpdate | backend/api/chat/serializers.py:333-343 | accepted iff the message can be edited and the requester sent it; a non-editable message is reported first |
| ChatSerializers.DeletedMessagesAreFinal | backend/api/chat/serializers.py:333-343 | a deleted or non-text message cannot be updated, even by its sender |
| ChatSerializers.ValidateParticipant | backend/api/chat/serializers.py:177-189 | creating a row for a user already in the room is refused; updates are not checked |
| ChatSerializers.ParseRole | backend/api/chat/models.py:195-200 | a recognised role text is the stored text of the role it yields |
| ChatSerializers.RoleNamesRoundTrip | backend/api/chat/models.py:195-200 | every role reads back from its text, and a text is valid exactly when it is one of the five role texts |
| ChatSerializers.FirstBadParticipant | backend/api/chat/serializers.py:431-438 | finds the first participant lacking user_id or role or naming an unknown role, and none iff all are well formed |
| ChatSerializers.ValidateParticipants | backend/api/chat/serializers.py:428-440 | accepted iff absent or every participant has user_id and a valid role; a refusal points at a participant in the list |
| ChatSerializers.AcceptedParticipantsHaveRoles | backend/api/chat/serializers.py:428-440 | every accepted participant has a user id and a role text naming one of the five roles |
| ChatSerializers.ValidateSearch | backend/api/chat/serializers.py:490-498 | refused exactly when both dates are given and the start is after the end |
| Notifications.ParseMethod | backend/api/notifications/serializers.py:79-86 | a recognised channel text is the stored text of the channel it yields |
| Notifications.MethodNamesRoundTrip | backend/api/notifications/serializers.py:79-86 | every delivery channel reads back from its text, and only channel texts read as channels |
| Notifications.FirstInvalidMethod | backend/api/notifications/serializers.py:82-85 | finds the first listed name that is not a channel, and none iff every name is one |
| Notifications.ValidateDeliveryMethods | backend/api/notifications/serializers.py:79-86 | a missing or empty list becomes [in_app]; another list is accepted unchanged iff every name is a channel, else the first bad name is reported |
| Notifications.DeliveryMethodsIdempotent | backend/api/notifications/serializers.py:79-86 | the validated list passes validation again unchanged |
| Notifications.ValidateFutureTime | backend/api/notifications/serializers.py:42-52 | a given schedule or expiry time is refused iff it is not strictly after now |
| Notifications.ValidateSchedule | backend/api/notifications/serializers.py:54-63 | refused exactly when both times are given and the schedule is not strictly before the expiry |
| Notifications.AcceptedScheduleIsOrdered | backend/api/notifications/serializers.py:42-63 | a notification passing all three checks is scheduled after now and expires after its schedule |
| Notifications.ValidateUpdate | backend/api/notifications/serializers.py:101-107 | an update is refused exactly when the notification has been sent |
| Notifications.ValidateNotificationIds | backend/api/notifications/serializers.py:176-191 | accepted, unchanged, iff the ids are non-empty, distinct and all the user's own; an empty list is reported first |
| Notifications.RepeatedOwnIdRefused | backend/api/notifications/serializers.py:183-189 | one own id is accepted, but the same id listed twice is refused as not the user's |
| Notifications.ValidateFilter | backend/api/notifications/serializers.py:217-225 | refused exactly when both dates are given and the start is after the end |
| PharmacySerializers.Split | backend/api/pharmacies/serializers.py:122 | splitting on a separator always gives at least one piece |
| PharmacySerializers.SplitWithoutSeparator | backend/api/pharmacies/serializers.py:122 | a string without the separator splits into itself alone |
| PharmacySerializers.SplitAtFirst | backend/api/pharmacies/serializers.py:122 | the piece before the first separator comes off whole and the rest splits on its own |
| PharmacySerializers.TwoDigitsRead | backend/api/pharmacies/serializers.py:122 | a two-digit string reads as its decimal value |
| PharmacySerializers.OneDigitRead | backend/api/pharmacies/serializers.py:122 | a single digit reads as its value |
| PharmacySerializers.TimeProblem | backend/api/pharmacies/serializers.py:116-127 | a time passes iff it is a five-character string splitting on ':' into an hour in [0, 23] and a minute in [0, 59]; an out-of-range value is reported as such |
| PharmacySerializers.DigitChar | backend/api/pharmacies/serializers.py:116 | the character written for a digit reads back as that digit |
| PharmacySerializers.FormatClock | backend/api/pharmacies/serializers.py:116 | a time of day is written as two digits, ':', two digits |
| PharmacySerializers.CanonicalTimeRead | backend/api/pharmacies/serializers.py:122 | an HH:MM string reads as its hour and minute |
| PharmacySerializers.CanonicalTimes | backend/api/pharmacies/serializers.py:116-127 | an HH:MM string is accepted exactly when the hour is at most 23 and the minute at most 59 |
| PharmacySerializers.ClockRoundTrip | backend/api/pharmacies/serializers.py:116-127 | every time of day written as HH:MM is accepted and reads back as itself |
| PharmacySerializers.FormatClockDigits | backend/api/pharmacies/serializers.py:116 | the written digits are those of the hour and the minute |
| PharmacySerializers.PaddedDigitRead | backend/api/pharmacies/serializers.py:122 | a digit behind a space or a plus sign reads as the digit |
| PharmacySerializers.SeparatorKeptByInt | backend/api/pharmacies/serializers.py:122 | int() does not skip the separator \x1c, which strip() removes: "\x1c5" strips to "5" but is not a number |
| PharmacySerializers.LooseTimesRead | backend/api/pharmacies/serializers.py:122 | " 9:05" and "+9:05" read as nine hours and five minutes |
| PharmacySerializers.LooseTimesAccepted | backend/api/pharmacies/serializers.py:116-127 | such a padded time is accepted whenever its minute is in range, so the check is looser than HH:MM |
| PharmacySerializers.DayProblem | backend/api/pharmacies/serializers.py:102-127 | a day's entry has no problem iff it is present, an object with is_open, and when open has both times (and, in the full check, valid ones) |
| PharmacySerializers.FirstDayProblem | backend/api/pharmacies/serializers.py:101-127 | finds a weekday whose entry has a problem, and none iff every later weekday's entry is fine |
| PharmacySerializers.ValidateOperatingHours | backend/api/pharmacies/serializers.py:95-129 | accepted, unchanged, iff the value is an object whose seven weekday entries are all fine; a non-object is reported first |
| PharmacySerializers.FullCheckImpliesKeyCheck | backend/api/pharmacies/serializers.py:163-184 | whatever the create serializer accepts, the update and operating-hours serializers accept too |
| PharmacySerializers.KeyCheckIgnoresTimes | backend/api/pharmacies/serializers.py:252-273 | on a week open every day the key check accepts any times, while the full check accepts exactly when both times pass |
| PharmacySerializers.ImpossibleHourPassesKeyCheck | backend/api/pharmacies/serializers.py:163-184 | a week opening at 25:00 passes the update serializers and only the create serializer refuses it |
| PharmacySerializers.DocumentProblem | backend/api/pharmacies/serializers.py:140-146 | a document has no problem iff it is present and an object with file_url and expiry_date |
| PharmacySerializers.FirstDocumentProblem | backend/api/pharmacies/serializers.py:136-146 | finds a required document with a problem, and none iff all the remaining ones are fine |
| PharmacySerializers.ValidateBusinessDocuments | backend/api/pharmacies/serializers.py:131-148 | accepted, unchanged, iff the value is an object holding the three required documents, each well formed; a refusal names a required document |
| PharmacySerializers.ExtraDocumentsIgnored | backend/api/pharmacies/serializers.py:136-146 | adding any entry other than a required document keeps accepted documents accepted |
| PharmacySerializers.ValidateDeliveryRadius | backend/api/pharmacies/serializers.py:286-291 | a delivery radius is accepted, unchanged, iff it lies in [0.1, 100] km; too small is reported first |
| PharmacySerializers.ValidateMinimumOrder | backend/api/pharmacies/serializers.py:293-296 | a minimum order amount is accepted iff not negative |
| PharmacySerializers.ValidateDeliveryFee | backend/api/pharmacies/serializers.py:298-301 | a delivery fee is accepted iff not negative |
| PharmacySerializers.ValidateServiceFeePercentage | backend/api/pharmacies/serializers.py:303-308 | a service fee percentage is accepted iff it lies in [0, 50]; a negative one is reported first |
| PharmacySerializers.ServiceFeeAtMostHalf | backend/api/pharmacies/serializers.py:303-308 | an accepted service fee takes between nothing and half of an order's amount |
| PharmacySerializers.ValidateSearch | backend/api/pharmacies/serializers.py:210-241 | accepted iff the radius is in [0.1, 100], a rating in [0, 5], and latitude and longitude come together and in range |
| PharmacySerializers.LoneCoordinateRefused | backend/api/pharmacies/serializers.py:226-227 | a lone coordinate is refused as unpaired, and the search radius bounds are the delivery radius bounds |
| Security.PasswordValidator.constructor | backend/api/users/security.py:14-21 | a validator keeps the length bounds and the character-class switches it is given |
| Security.PasswordValidator.Validate | backend/api/users/security.py:23-66 | the error list is empty exactly when the password is acceptable, and each rule's error is in it exactly when that rule fails: length bounds, the required classes, the common list, sequences and repeats |
| Security.Select | backend/api/users/security.py:23-66 | the collected errors are exactly the failing rules' errors, in rule order |
| Security.SelectAppend | backend/api/users/security.py:23-66 | checking one more rule appends its error exactly when it fails |
| Security.SelectSkipsPrefix | backend/api/users/security.py:23-66 | rules that passed contribute nothing to the list |
| Security.ErrorListReportsEachRule | backend/api/users/security.py:23-66 | every failing rule is reported at once, not only the first |
| Security.ErrorListEmptyIff | backend/api/users/security.py:65-66 | validation raises exactly when some rule fails |
| Security.PasswordValidator.NoneFailedIffAcceptable | backend/api/users/security.py:23-66 | no rule fails exactly when the password meets every enabled requirement |
| Security.DefaultAcceptanceIsStrong | backend/api/users/security.py:14-66 | a password the default validator accepts is strong by the account model's rule |
| Security.Listed | backend/api/users/security.py:68-77 | a password is found exactly when it is in the weak-password list |
| Security.CommonPasswordsAtMostEleven | backend/api/users/security.py:72-76 | every weak password in the list has at most eleven characters |
| Security.NotListedWhenLonger | backend/api/users/security.py:68-77 | a password longer than every listed one is never reported as common |
| Security.PasswordValidator.HasSequentialChars | backend/api/users/security.py:79-99 | the loop reports a sequence exactly when some window of three letters or three digits ascends by one |
| Security.ContainsOneTwoThreeIsSequential | backend/api/users/security.py:79-99 | any password containing "123" fails the sequential rule |
| Security.PasswordValidator.HasRepeatedChars | backend/api/users/security.py:101-112 | the loop reports a repeat exactly when some character occurs four times in a row |
| Security.StrongPass123Failures | backend/api/users/test_phase4.py:250-254 | under the default rules the password in this test fails only the sequential rule |
| Security.OnlySequentialFailed | backend/api/users/security.py:59-66 | when only the sequential rule fails, the raised list holds that single error |
| Security.StrongPass123Rejected | backend/api/users/test_phase4.py:250-254 | the password this test calls strong is rejected by the default validator, with the sequential rule as the only error |
| Security.RateLimiter.constructor | backend/api/users/security.py:120-123 | a limiter keeps its prefix, maximum and window and reads its counts from the shared cache |
| Security.RateLimiter.IsAllowed | backend/api/users/security.py:125-137 | allowed exactly when the stored count for the prefixed action and identifier is below the maximum |
| Security.RateLimiter.Increment | backend/api/users/security.py:139-155 | the stored count goes up by one and is returned; no other key changes |
| Security.LimiterPerRequest | backend/api/users/jwt_views.py:23-24 | a limiter built later sees the attempt an earlier limiter counted in the shared cache, and is allowed exactly while that count is below ten |
| Security.RateLimiter.Reset | backend/api/users/security.py:157-162 | the key is dropped, so its count reads zero and the action is allowed again whenever the maximum is positive |
| Security.SessionManager.constructor | backend/api/users/security.py:170-172 | a manager keeps its cap and timeout and reads its counts and sessions from the shared cache |
| Security.SessionManager.CanCreateSession | backend/api/users/security.py:174-181 | a session may be created exactly when the user's count is below the cap |
| Security.SessionManager.AddSession | backend/api/users/security.py:183-203 | the session is stored with an expiry of the timeout in hours after now and the user's count goes up by one, without checking the cap |
| Security.SessionManager.RemoveSession | backend/api/users/security.py:205-217 | the session is forgotten and the user's count drops by one but never below zero; other users' counts are unchanged |
| Security.AfterRemove | backend/api/users/security.py:214-217 | the count after a removal is one less when positive and unchanged otherwise, so never negative |
| Security.AddThenRemove | backend/api/users/security.py:183-217 | adding then removing a session restores the count |
| Security.SessionManager.ActiveSessions | backend/api/users/security.py:219-233 | the count of active sessions, zero when none is stored, is never negative |
| Authentication.NormalizeIdentifier | backend/api/users/authentication.py:66-88 | an empty identifier gives nothing; a trimmed, lower-cased phone-shaped identifier becomes 63 followed by its last nine digits, which matches the login phone pattern; anything else is returned trimmed and lower-cased |
| Authentication.PhoneShapedNormalizes | backend/api/users/authentication.py:76-86 | a string of the form 0, 63 or +63 followed by nine digits normalises to 63 and those nine digits |
| Authentication.Classify | backend/api/users/authentication.py:29-34 | the lookup is by email exactly when the identifier has an '@', by phone exactly when it has none and matches the 63-plus-nine-digits pattern, and by username otherwise |
| Authentication.PhoneShapedLookedUpByPhone | backend/api/users/authentication.py:25-34 | every identifier that looks like a phone number is looked up by phone number after normalisation |
| Authentication.BackendsAgreeOnPhoneKeys | backend/api/users/authentication.py:188-201 | for a trimmed phone-shaped number the password backend and the phone backend look up the same key |
| Authentication.TwelveDigitPhoneIsUsername | backend/api/users/authentication.py:25-34 | 63 followed by ten digits is left as it is and looked up as a username, not as a phone number |
| Authentication.TestPhoneLoginIsUsernameLookup | backend/api/users/test_phase4.py:91-94 | the phone login used by this test is looked up as a username |
| Authentication.LookupFindsOwner | backend/api/users/authentication.py:27-34 | in a consistent user table a successful lookup returns the user whose email, phone or username equals the identifier, by the classified field |
| Authentication.ExpireLock | backend/api/users/authentication.py:90-105 | whether the account is locked is unchanged; a lock that has run out is cleared together with the failure counter; no lock means no change |
| Authentication.IsAccountLocked | backend/api/users/authentication.py:90-105 | locked exactly when a lock is set and now is not past it; otherwise an expired lock and the counter are cleared |
| Authentication.IncrementFailedAttempts | backend/api/users/authentication.py:107-122 | the counter goes up by one and is stamped; from the fifth failure the account is locked for fifteen minutes |
| Authentication.ResetFailedAttempts | backend/api/users/authentication.py:124-136 | a user with failures gets the counter, the stamp and the lock cleared; a user without failures is untouched |
| Authentication.LoginStep | backend/api/users/authentication.py:36-52 | the user is returned exactly when not locked, active and the password matches; success clears the counter and lock; a wrong password counts a failure and the fifth one locks |
| Authentication.CheckPassword | backend/api/users/authentication.py:36-52 | the account's lock state and the answer are exactly one login step |
| Authentication.Authenticate | backend/api/users/authentication.py:17-55 | missing credentials or an unknown identifier give nothing; otherwise the looked-up user goes through one login step and is returned exactly when that step succeeds |
| Authentication.LoginStepKeepsInv | backend/api/users/authentication.py:36-52 | a login step keeps the lock state well formed: a set lock comes with at least five failures |
| Authentication.ReplayKeepsInv | backend/api/users/authentication.py:17-55 | any run of logins keeps the lock state well formed |
| Authentication.LockoutHolds | backend/api/users/authentication.py:114-116 | after the fifth failure every login in the next fifteen minutes is refused, even with the right password |
| Authentication.FailuresNeverExceedFive | backend/api/users/test_phase4.py:207-216 | from a fresh account no run of logins records more than five failures, so this test's expectation of more than five cannot hold |
| Authentication.LockoutLengthsDisagree | backend/api/users/authentication.py:114-116 | the backend locks for fifteen minutes while the account model locks for thirty, so the backend lets a user in while the account model's lock still holds |
| Authentication.LockEndInstantDisagrees | backend/api/users/authentication.py:94-105 | at the very instant a lock ends the backend still refuses, while the account model's can_login already allows |
| Authentication.PhoneAuthenticate | backend/api/users/authentication.py:145-177 | a matching, unexpired code returns the user once, marks the phone verified and spends the code; anything else returns nothing and changes nothing |
| EnhancedPermissions.IsUserVerified | backend/api/users/enhanced_permissions.py:43-56 | a customer needs a verified email or phone, a pharmacy or rider both, and an admin nothing |
| EnhancedPermissions.HasPermission | backend/api/users/enhanced_permissions.py:96-205 | no rule admits an anonymous request; the admin rule admits exactly an active, fully verified staff admin; the pharmacy rule admits a pharmacy user, and for writes only a fully verified active one |
| EnhancedPermissions.VerifiedUserRequestIsVerification | backend/api/users/enhanced_permissions.py:218-230 | the verified-user rule's request check is exactly the role-based verification test |
| EnhancedPermissions.VerifiedOrAdminRefusesNonStaffAdmin | backend/api/users/enhanced_permissions.py:396-410 | an admin who is not staff counts as verified yet is refused by the verified-or-admin rule |
| EnhancedPermissions.RoleGateImpliesVerified | backend/api/users/enhanced_permissions.py:96-110 | a write the pharmacy, rider or customer rule admits comes from a verified, active account, so the object check's verification step never refuses it |
| EnhancedPermissions.HasObjectPermission | backend/api/users/enhanced_permissions.py:24-41 | staff always pass; an inactive user never does; a write by an unverified user is refused; otherwise the rule's own object check decides |
| EnhancedPermissions.InactiveRefusedEverywhere | backend/api/users/enhanced_permissions.py:28-34 | an inactive, non-staff user is refused by every rule on every object |
| EnhancedPermissions.OwnerOf | backend/api/users/enhanced_permissions.py:71-87 | the owner is the object's user link, else its customer's, pharmacy's or rider's user in that order, else the object itself |
| EnhancedPermissions.OwnerOrReadOnlyMeaning | backend/api/users/enhanced_permissions.py:65-87 | any active user may read; a write is allowed exactly to a verified active user who owns the object under the lookup order |
| EnhancedPermissions.UserLinkDecides | backend/api/users/enhanced_permissions.py:71-87 | an object's user link hides its customer, pharmacy and rider links: two objects with the same user link have the same owner |
| EnhancedPermissions.OrderAccessForRiders | backend/api/users/enhanced_permissions.py:492-512 | a rider reaches an order exactly when the order's rider assignment is theirs |
| EnhancedPermissions.RoleVerificationImpliesAccountVerified | backend/api/users/enhanced_permissions.py:49-52 | a pharmacy or rider passing the permissions' verification test is also verified by the account model's is_verified |
| Locations.NonEmpty | backend/api/locations/models.py:182 | the filtered parts are exactly the non-empty parts, in their order |
| Locations.FullAddress | backend/api/locations/models.py:160-182 | the loop builds the optional building, floor and unit parts, the four required parts and the optional postal code, and returns the non-empty ones joined by ", " |
| Locations.FullAddressRequiredOnly | backend/api/locations/models.py:160-182 | with only the required parts present the address reads street, barangay, city, province separated by ", " |
| Locations.FullAddressStartsWithBuilding | backend/api/locations/models.py:165-166 | a present building name always opens the formatted address |
| Locations.Coordinates | backend/api/locations/models.py:184-193 | the coordinate pair is given exactly when has_coordinates holds, and then neither value is zero |
| Locations.AddressBook.constructor | backend/api/locations/models.py:7-155 | a new address table is empty |
| Locations.AddressBook.Save | backend/api/locations/models.py:217-226 | the address is stored under its key; a default address clears the default flag on the customer's other addresses and nothing else changes, so at most one default per customer is kept |
| Locations.Clean | backend/api/locations/models.py:228-238 | refused exactly when the address is the default and has no coordinates |
| LocationSerializers.CheckRanges | backend/api/locations/serializers.py:23-33 | passes exactly when a given latitude lies in [-90, 90] and a given longitude in [-180, 180]; the latitude is checked first |
| LocationSerializers.ValidateAddress | backend/api/locations/serializers.py:17-40 | passes exactly when a street, city or postal code is given, the coordinates are in range and they are not both zero; a missing address field is reported first |
| LocationSerializers.ValidateAddressCreate | backend/api/locations/serializers.py:72-91 | passes exactly when some address field is given and the coordinates are in range |
| LocationSerializers.ValidateAddressUpdate | backend/api/locations/serializers.py:103-116 | passes exactly when the coordinates are in range |
| LocationSerializers.ValidatorsCompared | backend/api/locations/serializers.py:17-116 | the full validator is the create validator plus the (0, 0) refusal, and the create validator is the update validator plus the address-field check |
| LocationSerializers.ClearDefaults | backend/api/locations/serializers.py:48-50 | every default address of the user loses its flag; all other addresses and fields are unchanged |
| LocationSerializers.AddressStore.constructor | backend/api/locations/serializers.py:5-15 | a new address store is empty |
| LocationSerializers.AddressStore.Create | backend/api/locations/serializers.py:42-52 | the new address is default exactly when requested or when the user has no active address; a default clears the user's other defaults; other users are untouched and one default per user is kept |
| LocationSerializers.AddressStore.Update | backend/api/locations/serializers.py:54-59 | the given flag is stored; setting it clears the user's other defaults and otherwise nothing else changes, so one default per user is kept |
| LocationSerializers.BulkIdsAcceptedIff | backend/api/locations/serializers.py:151-172 | accepted exactly for 1 to 100 distinct ids that all belong to the user; a repeated id is refused even when it is the user's |
| LocationSerializers.ValidateSearch | backend/api/locations/serializers.py:175-204 | passes exactly when the radius is in [0.1, 100], latitude and longitude come together and both lie in their ranges |

## Left out

- Batching, clustering and rider selection: `OrderBatchingService`, `RiderAssignment` and `OrderRiderAssignment` are referenced but defined nowhere (`backend/api/delivery/models.py` defines only `DeliveryZone`), so the order's `rider_assignments` relation does not exist. The members that read it take the rider links as a parameter and are modelled as if the relation existed; the lines below say what each does as written.
- Orders.CurrentRiderAssignment: as written the bare `except` at `backend/api/orders/models.py:353-360` swallows the missing-relation error, so it always returns None; `Orders.WithoutRiderLinks` states that case.
- Orders.CanBeBatched: as written the import of `OrderBatchingService` at `backend/api/orders/models.py:479` raises ImportError before any check, so the method never returns; the model gives the checks that follow the import.
- Orders.Order.SyncDeliveryStatus: as written there is never a current assignment, so it returns without changing the status (`Orders.WithoutRiderLinks`).
- Orders.Order.UpdateDeliveryStatus: as written the sync step changes nothing, so the status is always the new one; the old status is returned and a delivery stamped as modelled.
- OrderPermissions.IsRiderOrderManager: as written `hasattr(obj, 'rider_assignments')` at `backend/api/orders/permissions.py:63` is false, so every rider is refused; `OrderPermissions.WithoutRiderLinks` states that case.
- OrderPermissions.CanViewOrder: as written the rider branch at `backend/api/orders/permissions.py:116` reads the missing relation and raises AttributeError, so a rider who is neither owner nor staff gets an error rather than a refusal or a grant.
- OrderPermissions.CanUpdateOrderStatus: as written the rider branch at `backend/api/orders/permissions.py:149` raises AttributeError in the same way.
- DeliverySerializers: `backend/api/delivery/serializers.py:6-9` imports `RiderAssignment`, `RiderLocation`, `OrderRiderAssignment` and `OrderBatchingService`, which the delivery models do not define, so as written the module fails on import and none of its validators runs; the model gives each validator's body as if the import succeeded.
- PharmacySerializers.ValidateBusinessDocuments, PharmacySerializers.ValidateOperatingHours (the create and update serializers' copy), PharmacySerializers.ValidateDeliveryRadius, PharmacySerializers.ValidateMinimumOrder, PharmacySerializers.ValidateDeliveryFee and PharmacySerializers.ValidateServiceFeePercentage: `PharmacyCreateSerializer`, `PharmacyUpdateSerializer` and `PharmacyDeliverySettingsSerializer` (`backend/api/pharmacies/serializers.py:76-82, 155-161, 280-284`) list `business_name`, `business_documents`, `delivery_radius_km`, `minimum_order_amount`, `delivery_fee` and other fields the Pharmacy model (`backend/api/users/models.py:691-900`) does not have, so as written those serializers fail on their field lists and these validators never run; the model gives their bodies, with the values as exact reals since the fields' types are not defined.
- Orders.Order.ApplyDiscount: it ends by calling `calculate_totals`, so it inherits the TypeError described under `Orders.Order.CalculateTotals` below (`backend/api/orders/models.py:324`); the model promises the recomputed totals that the exact 12/100 tax gives.
- Inventory.PharmacyInventory.DisplayName: the form's labels come from the catalog's `MedicineForm` choices, which are not part of this model, so the label table is a parameter.
- Locations.AddressBook.Save: the unique (customer, label) constraint of `backend/api/locations/models.py:141-144` is not enforced; a second address with the same label is stored where the database would raise IntegrityError.
- Great-circle (Haversine) distance, in `Address.get_distance_to` and the delivery serializers: floating-point trigonometry; distances are inputs where a rule needs one.
- Persistence: ORM querysets, `.save()` and `update_fields` are modelled as field updates on objects and maps; database constraints appear only where a method relies on them.
- Views, URL routing, middleware, signals, admin, JWT views and management commands: HTTP and framework plumbing.
- The cache time-to-live in `RateLimiter` and `SessionManager`: the shared cache (`Security.Cache`, handed to every limiter and manager) keeps entries without expiry; `cleanup_expired_sessions` only returns the active count, which `Security.SessionManager.ActiveSessions` covers.
- The cache's single key space: attempt counters, per-user session counts and session records are three maps of the one cache, so a limiter whose prefix made its keys collide with `user_sessions:` or `session:` keys would not disturb the session entries as it could in the source.
- The address serializers' field mismatch: `AddressSerializer`, `AddressCreateSerializer` and `AddressUpdateSerializer` list `user`, `state_province`, `country` and `is_active`, and `create`, `update` and the bulk-id check filter on `user` and `is_active`, while the Address model (`backend/api/locations/models.py:19-123`) has `customer` and `province` and no `country` or `is_active`. As written, those serializers fail on their field lists before any validator runs, and the filters fail on the unknown fields; the model follows the method bodies as if the fields existed.
- GetReplyChain: requires an acyclic reply chain; the source's walk (`backend/api/chat/models.py:609-618`) never ends on a cycle, such as a message replying to itself, which nothing in the source forbids (`Chat.SelfReplyHasNoAncestry` shows that such a message has no finite ancestry).
- `SecurityAuditLogger`: logging only.
- Password hashing: a stored password is compared as plain text; `check_password` is equality.
- Unicode: `strip`, `lower`, `upper`, `isdigit`, `isalpha` and the regular expressions are modelled on ASCII characters. On that range `strip` removes space, \t to \r and the separators \x1c to \x1f (`Common.IsSpace`), while `int()` skips only space and \t to \r (`Common.IsCSpace`); non-ASCII white space such as \x85 or \xa0 is kept by the model.
- Display strings, `__str__` methods, summaries and analytics or statistics serializers: formatting only.
- `get_user` of both authentication backends: a primary-key lookup.
- `CustomUserManager.create_user`/`create_superuser`, `UserDocument` and the profile-creation signals: account plumbing outside the decision rules.
- The validators of `OrderLineCreateSerializer`, `OrderCreateSerializer` and `PrescriptionVerificationSerializer`: they only query the database for existence, which other members already cover by parameters.
- The chat serializers' `validate_order` and `validate_order_id`: they read `Order.is_active`, a field the order model does not define.
- Chat metadata and the notification preference fields; `create_system_message`, `create_order_update_message` and `get_message_summary`: message construction and formatting.
- Chat room participants are a map from user to role rather than a many-to-many relation.
- `validate_user_id` and `PharmacyVerificationSerializer.update` in the pharmacy serializers: database lookups and an admin update outside the validators modelled.
- The notification delivery-method choices are taken from `.history/backend/api/notifications/models_20250817210324.py`, since `backend/api/notifications/models.py` is not part of this model.
- `Order.save` and `Payment.save`: the timestamp used to build an identifier is a string parameter.
- Orders.Order.CalculateTotals: tax is the exact rational 12/100 of the subtotal; the source multiplies a Decimal by the float 0.12, which raises a TypeError whenever the subtotal is a Decimal, and the later addition of a loaded Decimal delivery fee to the float tax does the same, so an order without lines fails too once its fee is read from the database.
- Users.Rider.UpdatePerformanceMetrics: the average rating is an exact real, not a two-place Decimal.

## Findings

| source | as written | input that shows it | evidently intended | confidence | as-written member | corrected member |
|---|---|---|---|---|---|---|
| backend/api/inventory/pharmacy_inventory.py:353-367 | the low-stock branch is checked before the out-of-stock branch, so an empty shelf yields a low-stock alert | stock_quantity 0 with a low-stock threshold of 0 or more | an empty shelf yields the out-of-stock alert | not executed | Inventory.StockAlertNeverOutOfStock | Inventory.StockAlertCorrectionOnlyAtZero |
| backend/api/payments/serializers.py:114-122 | the order is refused when its payment status is 'paid' or 'cancelled', but 'cancelled' is an order status, never a payment status | an order with status cancelled and payment status unpaid | a cancelled order is refused | not executed | PaymentSerializers.CancelledOrderPassesAsWritten | PaymentSerializers.ValidateOrderStrengthens |
