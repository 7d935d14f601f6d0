// Rider-assignment input checks: the assignment status table, batch size and type
// consistency, the order-id checks shared by assignment creation and batching, the
// 1-based pickup and delivery numbering made on creation, and the range checks on
// zones, locations and sequences.

module DeliverySerializers {
  import opened Common
  import opened Orders

  datatype AssignmentType = Single | Batch

  datatype RiderStatus = RiderPending | Approved | Rejected | RiderSuspended | RiderInactive

  // ---------------------------------------------------------------------------
  // Range validators
  // ---------------------------------------------------------------------------

  datatype RangeError = LatitudeOutOfRange | LongitudeOutOfRange | RadiusNotPositive | RadiusAbove50
                      | NegativeSpeed | SequenceBelowOne | BatchSizeBelowOne | BatchSizeAbove5
                      | NegativeDeliveryFee | NegativeEarnings

  function ValidateLatitude(v: real): (r: Outcome<RangeError>)
    ensures r.Pass? <==> -90.0 <= v <= 90.0
  {
    if v < -90.0 || v > 90.0 then Fail(LatitudeOutOfRange) else Pass
  }

  function ValidateLongitude(v: real): (r: Outcome<RangeError>)
    ensures r.Pass? <==> -180.0 <= v <= 180.0
  {
    if v < -180.0 || v > 180.0 then Fail(LongitudeOutOfRange) else Pass
  }

  /** A delivery zone's radius lies in (0, 50] kilometres. */
  function ValidateZoneRadius(v: real): (r: Outcome<RangeError>)
    ensures r.Pass? <==> 0.0 < v <= 50.0
    ensures v <= 0.0 ==> r == Fail(RadiusNotPositive)
  {
    if v <= 0.0 then Fail(RadiusNotPositive)
    else if v > 50.0 then Fail(RadiusAbove50)
    else Pass
  }

  /** A rider's speed may be absent, otherwise not negative. */
  function ValidateSpeed(v: Option<real>): (r: Outcome<RangeError>)
    ensures r.Pass? <==> v.None? || v.value >= 0.0
  {
    if v.Some? && v.value < 0.0 then Fail(NegativeSpeed) else Pass
  }

  /** Pickup and delivery sequence numbers start at 1. */
  function ValidateSequence(v: int): (r: Outcome<RangeError>)
    ensures r.Pass? <==> v >= 1
  {
    if v < 1 then Fail(SequenceBelowOne) else Pass
  }

  /** validate_batch_size: from 1 to 5 orders. */
  function ValidateBatchSize(v: int): (r: Outcome<RangeError>)
    ensures r.Pass? <==> 1 <= v <= 5
  {
    if v < 1 then Fail(BatchSizeBelowOne)
    else if v > 5 then Fail(BatchSizeAbove5)
    else Pass
  }

  function ValidateDeliveryFee(v: real): (r: Outcome<RangeError>)
    ensures r.Pass? <==> v >= 0.0
  {
    if v < 0.0 then Fail(NegativeDeliveryFee) else Pass
  }

  function ValidateRiderEarnings(v: real): (r: Outcome<RangeError>)
    ensures r.Pass? <==> v >= 0.0
  {
    if v < 0.0 then Fail(NegativeEarnings) else Pass
  }

  // ---------------------------------------------------------------------------
  // Zone overlap
  // ---------------------------------------------------------------------------

  /** An existing active zone as the overlap check sees it: the great-circle distance
      from the new centre to its centre, and its radius. */
  datatype NearbyZone = NearbyZone(distanceKm: real, radiusKm: real)

  datatype ZoneError = OverlapsZone(index: nat)

  /** The index of the first zone closer than the two radii together, if any. */
  function FirstOverlap(radius: real, zones: seq<NearbyZone>): (r: Option<nat>)
    ensures r.None? <==> forall i :: 0 <= i < |zones| ==> zones[i].distanceKm >= radius + zones[i].radiusKm
    ensures r.Some? ==> r.value < |zones| && zones[r.value].distanceKm < radius + zones[r.value].radiusKm
    ensures r.Some? ==> forall j :: 0 <= j < r.value ==> zones[j].distanceKm >= radius + zones[j].radiusKm
  {
    if zones == [] then None
    else if zones[0].distanceKm < radius + zones[0].radiusKm then Some(0)
    else
      var rest := FirstOverlap(radius, zones[1..]);
      if rest.None? then None else Some(rest.value + 1)
  }

  /** DeliveryZoneCreateSerializer.validate: the overlap check runs only when the
      centre's coordinates and the radius are all truthy, and then refuses the first
      overlapping zone. */
  function ValidateZoneOverlap(lat: Option<real>, lng: Option<real>, radius: Option<real>, zones: seq<NearbyZone>): (r: Outcome<ZoneError>)
    ensures !(lat.Some? && lat.value != 0.0 && lng.Some? && lng.value != 0.0 && radius.Some? && radius.value != 0.0) ==> r.Pass?
    ensures r.Fail? ==> r.error.index < |zones| && zones[r.error.index].distanceKm < radius.value + zones[r.error.index].radiusKm
    ensures lat.Some? && lat.value != 0.0 && lng.Some? && lng.value != 0.0 && radius.Some? && radius.value != 0.0 ==>
              (r.Pass? <==> forall i :: 0 <= i < |zones| ==> zones[i].distanceKm >= radius.value + zones[i].radiusKm)
  {
    if lat.Some? && lat.value != 0.0 && lng.Some? && lng.value != 0.0 && radius.Some? && radius.value != 0.0 then
      var k := FirstOverlap(radius.value, zones);
      if k.Some? then Fail(OverlapsZone(k.value)) else Pass
    else Pass
  }

  /** A zone centred on the equator has a falsy latitude, so it is never checked for
      overlap, even against a zone at the same spot. */
  lemma EquatorZoneSkipsOverlap(lng: real, radius: real)
    ensures ValidateZoneOverlap(Some(0.0), Some(lng), Some(radius), [NearbyZone(0.0, 10.0)]).Pass?
  {
  }

  // ---------------------------------------------------------------------------
  // Order ids
  // ---------------------------------------------------------------------------

  datatype OrderIdsError = NoOrders | TooManyOrders | OrdersMissing | OrdersAlreadyAssigned | OrdersNotBatchable

  /** validate_order_ids of assignment creation: some orders, all existing and
      distinct, none already assigned. */
  function ValidateCreateOrderIds(ids: seq<int>, existing: set<int>, taken: set<int>): (r: Outcome<OrderIdsError>)
    ensures r.Pass? <==> ids != [] && Distinct(ids) && SetOf(ids) <= existing && SetOf(ids) * taken == {}
  {
    AllListedExistIff(ids, existing);
    if ids == [] then Fail(NoOrders)
    else if !AllListedExist(ids, existing) then Fail(OrdersMissing)
    else if SetOf(ids) * existing * taken != {} then Fail(OrdersAlreadyAssigned)
    else Pass
  }

  /** validate_order_ids of a batching request: as for creation, at most five, and
      the batching service (outside this model) must accept the orders together. */
  function ValidateBatchOrderIds(ids: seq<int>, existing: set<int>, taken: set<int>, batchable: bool): (r: Outcome<OrderIdsError>)
    ensures r.Pass? <==> 1 <= |ids| <= 5 && ValidateCreateOrderIds(ids, existing, taken).Pass? && batchable
    ensures |ids| > 5 ==> r == Fail(TooManyOrders)
  {
    AllListedExistIff(ids, existing);
    if ids == [] then Fail(NoOrders)
    else if |ids| > 5 then Fail(TooManyOrders)
    else if !AllListedExist(ids, existing) then Fail(OrdersMissing)
    else if SetOf(ids) * existing * taken != {} then Fail(OrdersAlreadyAssigned)
    else if !batchable then Fail(OrdersNotBatchable)
    else Pass
  }

  datatype BatchingError = MaxBatchSizeOutOfRange | MaxDistanceOutOfRange

  /** The batching request's limits: a maximum batch size from 1 to 5, a maximum
      distance above 0.1 and at most 10 kilometres. The distance is a Decimal compared
      with the binary float 0.1, which lies slightly above one tenth, so 0.10 itself is
      refused; 10.0 is exact, so 10.00 passes. */
  function ValidateBatchingLimits(maxBatchSize: int, maxDistanceKm: real): (r: Outcome<BatchingError>)
    ensures r.Pass? <==> 1 <= maxBatchSize <= 5 && 1.0 / 10.0 < maxDistanceKm <= 10.0
    ensures 1 <= maxBatchSize <= 5 && maxDistanceKm == 1.0 / 10.0 ==> r == Fail(MaxDistanceOutOfRange)
  {
    if maxBatchSize < 1 || maxBatchSize > 5 then Fail(MaxBatchSizeOutOfRange)
    else if maxDistanceKm <= 1.0 / 10.0 || maxDistanceKm > 10.0 then Fail(MaxDistanceOutOfRange)
    else Pass
  }

  // ---------------------------------------------------------------------------
  // Assignment creation
  // ---------------------------------------------------------------------------

  datatype CreateError = SizeMismatch | BatchOfOne | SingleOfMany

  /** A type that disagrees with a batch size: several orders on a single
      assignment, or one order on a batch. */
  predicate TypeMismatch(t: AssignmentType, size: int)
  {
    (t == Single && size > 1) || (t == Batch && size == 1)
  }

  /** RiderAssignmentCreateSerializer.validate: the batch size (by default the number
      of orders) must equal the number of orders and agree with the type. */
  function ValidateAssignmentCreate(orderIds: seq<int>, assignmentType: Option<AssignmentType>, batchSize: Option<int>): (r: Outcome<CreateError>)
    ensures r.Pass? <==>
              var size := if batchSize.Some? then batchSize.value else |orderIds|;
              size == |orderIds| && !(assignmentType.Some? && TypeMismatch(assignmentType.value, size))
  {
    var size := if batchSize.Some? then batchSize.value else |orderIds|;
    if |orderIds| != size then Fail(SizeMismatch)
    else if assignmentType == Some(Batch) && size == 1 then Fail(BatchOfOne)
    else if assignmentType == Some(Single) && size > 1 then Fail(SingleOfMany)
    else Pass
  }

  /** An assignment that passes the creation checks carries at least one order, all
      distinct, as many as its batch size, and its type, when given, says exactly
      whether there is one. */
  lemma AcceptedAssignmentIsConsistent(orderIds: seq<int>, existing: set<int>, taken: set<int>,
                                       assignmentType: Option<AssignmentType>, batchSize: Option<int>)
    requires ValidateCreateOrderIds(orderIds, existing, taken).Pass?
    requires ValidateAssignmentCreate(orderIds, assignmentType, batchSize).Pass?
    ensures 1 <= |orderIds| && Distinct(orderIds)
    ensures batchSize.Some? ==> batchSize.value == |orderIds|
    ensures assignmentType == Some(Single) ==> |orderIds| == 1
    ensures assignmentType == Some(Batch) ==> |orderIds| > 1
  {
  }

  /** The creation serializer has no bound on the number of orders: the one-to-five
      batch-size check belongs to the other assignment serializer, so seven free
      orders on a batch of seven are accepted. */
  lemma CreationAcceptsSevenOrders()
    ensures var ids := [1, 2, 3, 4, 5, 6, 7];
            && ValidateCreateOrderIds(ids, {1, 2, 3, 4, 5, 6, 7}, {}).Pass?
            && ValidateAssignmentCreate(ids, Some(Batch), Some(7)).Pass?
            && ValidateBatchSize(7).Fail?
  {
    var ids := [1, 2, 3, 4, 5, 6, 7];
    assert Distinct(ids) by {
      forall i, j | 0 <= i < j < |ids| ensures ids[i] != ids[j] { }
    }
  }

  /** One order link made by create: the order and its two sequence numbers. */
  datatype OrderLink = OrderLink(orderId: int, pickupSequence: int, deliverySequence: int)

  /** The i-th order (counting from 0) is picked up and delivered i + 1-th. */
  predicate NumberedInOrder(orderIds: seq<int>, links: seq<OrderLink>)
  {
    |links| == |orderIds| && forall i :: 0 <= i < |links| ==> links[i] == OrderLink(orderIds[i], i + 1, i + 1)
  }

  /** create: one link per order id, numbered from 1 in list order. */
  method CreateOrderLinks(orderIds: seq<int>) returns (links: seq<OrderLink>)
    ensures NumberedInOrder(orderIds, links)
  {
    links := [];
    var i := 0;
    while i < |orderIds|
      invariant 0 <= i <= |orderIds|
      invariant NumberedInOrder(orderIds[..i], links)
    {
      links := links + [OrderLink(orderIds[i], i + 1, i + 1)];
      i := i + 1;
    }
    assert orderIds[..i] == orderIds;
  }

  /** The numbering uses each of 1..n exactly once for pickup, passes the sequence
      validators, and delivers in pickup order. */
  lemma NumberingIsOneToN(orderIds: seq<int>, links: seq<OrderLink>)
    requires NumberedInOrder(orderIds, links)
    ensures forall i :: 0 <= i < |links| ==> 1 <= links[i].pickupSequence <= |orderIds|
    ensures forall i, j :: 0 <= i < j < |links| ==> links[i].pickupSequence < links[j].pickupSequence
    ensures forall i :: 0 <= i < |links| ==>
              (ValidateSequence(links[i].pickupSequence).Pass? && links[i].deliverySequence == links[i].pickupSequence)
  {
  }

  // ---------------------------------------------------------------------------
  // Assignment status updates
  // ---------------------------------------------------------------------------

  /** The assignment table: each tabled status may go one step on, or be cancelled. */
  function AssignmentTargets(s: AssignmentStatus): Option<seq<AssignmentStatus>>
  {
    match s
    case Assigned => Some([AssignmentAccepted, AssignmentCancelled])
    case AssignmentAccepted => Some([AssignmentPickedUp, AssignmentCancelled])
    case AssignmentPickedUp => Some([Delivering, AssignmentCancelled])
    case Delivering => Some([Completed, AssignmentCancelled])
    case _ => None
  }

  predicate AssignmentTableAllows(from: AssignmentStatus, to: AssignmentStatus)
  {
    AssignmentTargets(from).None? || to in AssignmentTargets(from).value
  }

  datatype StatusError = InvalidTransition(from: AssignmentStatus, to: AssignmentStatus)

  /** validate_status: without an instance any status is taken; otherwise the table
      decides. */
  function ValidateAssignmentStatus(current: Option<AssignmentStatus>, value: AssignmentStatus): (r: Result<AssignmentStatus, StatusError>)
    ensures r.Ok? <==> current.None? || AssignmentTableAllows(current.value, value)
    ensures r.Ok? ==> r.value == value
  {
    if current.Some? && !AssignmentTableAllows(current.value, value) then Err(InvalidTransition(current.value, value))
    else Ok(value)
  }

  function Step(s: AssignmentStatus): nat
  {
    match s
    case Assigned => 0
    case AssignmentAccepted => 1
    case AssignmentPickedUp => 2
    case Delivering => 3
    case Completed => 4
    case AssignmentCancelled => 5
  }

  /** From a tabled status the table allows exactly the next step and cancellation. */
  lemma TabledAssignmentMoves(from: AssignmentStatus, to: AssignmentStatus)
    requires ActiveAssignment(from)
    ensures AssignmentTableAllows(from, to) <==> to == AssignmentCancelled || Step(to) == Step(from) + 1
  {
  }

  /** Completed and cancelled have no table entry: an update may move them anywhere,
      back to assigned included. */
  lemma AssignmentTerminalUnchecked(from: AssignmentStatus, to: AssignmentStatus)
    requires from == Completed || from == AssignmentCancelled
    ensures ValidateAssignmentStatus(Some(from), to) == Ok(to)
  {
  }

  /** Because of that gap the table admits a full cycle through every status. */
  lemma AssignmentCycleAccepted()
    ensures ValidateAssignmentStatus(Some(Completed), Assigned).Ok?
    ensures ValidateAssignmentStatus(Some(Assigned), AssignmentAccepted).Ok?
    ensures ValidateAssignmentStatus(Some(AssignmentAccepted), AssignmentPickedUp).Ok?
    ensures ValidateAssignmentStatus(Some(AssignmentPickedUp), Delivering).Ok?
    ensures ValidateAssignmentStatus(Some(Delivering), Completed).Ok?
  {
  }

  // ---------------------------------------------------------------------------
  // Bulk assignment
  // ---------------------------------------------------------------------------

  datatype BulkError = RiderNotApproved | RiderMissing | NoBatches | TypeMismatchInBatch(index: nat)

  /** validate_rider_id: the rider must exist and be approved. */
  function ValidateRiderId(status: Option<RiderStatus>): (r: Outcome<BulkError>)
    ensures r.Pass? <==> status == Some(Approved)
  {
    if status.None? then Fail(RiderMissing)
    else if status.value != Approved then Fail(RiderNotApproved)
    else Pass
  }

  /** The index of the first batch whose size disagrees with the type, if any. */
  function FirstMismatch(t: AssignmentType, batches: seq<seq<int>>): (r: Option<nat>)
    ensures r.None? <==> forall i :: 0 <= i < |batches| ==> !TypeMismatch(t, |batches[i]|)
    ensures r.Some? ==> r.value < |batches| && TypeMismatch(t, |batches[r.value]|)
    ensures r.Some? ==> forall j :: 0 <= j < r.value ==> !TypeMismatch(t, |batches[j]|)
  {
    if batches == [] then None
    else if TypeMismatch(t, |batches[0]|) then Some(0)
    else
      var rest := FirstMismatch(t, batches[1..]);
      if rest.None? then None else Some(rest.value + 1)
  }

  /** RiderAssignmentBulkSerializer.validate: some batches, and every batch agrees
      with the type; the first that does not is reported. */
  function ValidateBulk(t: AssignmentType, batches: seq<seq<int>>): (r: Outcome<BulkError>)
    ensures r.Pass? <==> batches != [] && forall i :: 0 <= i < |batches| ==> !TypeMismatch(t, |batches[i]|)
    ensures r.Fail? && r.error.TypeMismatchInBatch? ==>
              r.error.index < |batches| && TypeMismatch(t, |batches[r.error.index]|)
  {
    if batches == [] then Fail(NoBatches)
    else
      var k := FirstMismatch(t, batches);
      if k.Some? then Fail(TypeMismatchInBatch(k.value)) else Pass
  }

  /** With each batch also passing the batching request's own order-id check, a
      single-type bulk request holds one order per batch and a batch-type one two to
      five. */
  lemma BulkBatchSizes(t: AssignmentType, batches: seq<seq<int>>, existing: set<int>, taken: set<int>, batchable: bool, i: nat)
    requires ValidateBulk(t, batches).Pass?
    requires i < |batches| && ValidateBatchOrderIds(batches[i], existing, taken, batchable).Pass?
    ensures t == Single ==> |batches[i]| == 1
    ensures t == Batch ==> 2 <= |batches[i]| <= 5
  {
  }
}
