// Input validation for notifications: the delivery channels a notification may use,
// its schedule and expiry relative to the present and to each other, the lock on
// notifications already sent, bulk selections of the user's own notifications and
// the listing filter's date range.

module Notifications {
  import opened Common
  import Users

  datatype DeliveryMethod = InApp | Email | Sms | Push

  /** The name each delivery channel has in requests. */
  function MethodName(m: DeliveryMethod): string
  {
    match m
    case InApp => "in_app"
    case Email => "email"
    case Sms => "sms"
    case Push => "push"
  }

  function ParseMethod(s: string): (r: Option<DeliveryMethod>)
    ensures r.Some? ==> MethodName(r.value) == s
  {
    if s == "in_app" then Some(InApp)
    else if s == "email" then Some(Email)
    else if s == "sms" then Some(Sms)
    else if s == "push" then Some(Push)
    else None
  }

  /** Every channel parses back from its name, and only channel names parse. */
  lemma MethodNamesRoundTrip(m: DeliveryMethod, s: string)
    ensures ParseMethod(MethodName(m)) == Some(m)
    ensures ParseMethod(s).Some? <==> exists q :: MethodName(q) == s
  {
    if exists q :: MethodName(q) == s {
      var q :| MethodName(q) == s;
      assert ParseMethod(MethodName(q)) == Some(q);
    }
  }

  predicate ValidMethod(s: string)
  {
    ParseMethod(s).Some?
  }

  datatype NotificationError =
    | InvalidDeliveryMethod(name: string)
    | ScheduledNotInFuture
    | ExpiryNotInFuture
    | ScheduledNotBeforeExpiry
    | AlreadySent
    | NoNotificationIds
    | NotificationIdsNotOwned
    | DatesReversed

  /** The position of the first listed name, from `from` on, that is not a delivery
      channel. */
  function FirstInvalidMethod(methods: seq<string>, from: nat): (r: Option<nat>)
    requires from <= |methods|
    ensures r.None? <==> forall i :: from <= i < |methods| ==> ValidMethod(methods[i])
    ensures r.Some? ==> from <= r.value < |methods| && !ValidMethod(methods[r.value])
                        && forall i :: from <= i < r.value ==> ValidMethod(methods[i])
    decreases |methods| - from
  {
    if from == |methods| then None
    else if !ValidMethod(methods[from]) then Some(from)
    else FirstInvalidMethod(methods, from + 1)
  }

  /** validate_delivery_methods: a missing or empty list becomes in-app only; a list
      with a name that is not a channel is refused, naming the first such name; any
      other list is kept as it is. */
  function ValidateDeliveryMethods(value: Option<seq<string>>): (r: Result<seq<string>, NotificationError>)
    ensures (value.None? || value.value == []) ==> r == Ok(["in_app"])
    ensures value.Some? && value.value != [] ==>
              (r.Ok? <==> forall i :: 0 <= i < |value.value| ==> ValidMethod(value.value[i]))
    ensures value.Some? && value.value != [] && r.Ok? ==> r.value == value.value
    ensures r.Err? ==> r.error.InvalidDeliveryMethod? && r.error.name in value.value && !ValidMethod(r.error.name)
    ensures r.Ok? ==> r.value != [] && forall i :: 0 <= i < |r.value| ==> ValidMethod(r.value[i])
  {
    if value.None? || value.value == [] then
      assert ValidMethod("in_app") by { MethodNamesRoundTrip(InApp, "in_app"); }
      Ok(["in_app"])
    else
      match FirstInvalidMethod(value.value, 0)
      case Some(k) => Err(InvalidDeliveryMethod(value.value[k]))
      case None => Ok(value.value)
  }

  /** What validation hands back passes validation again unchanged. */
  lemma DeliveryMethodsIdempotent(value: Option<seq<string>>)
    requires ValidateDeliveryMethods(value).Ok?
    ensures ValidateDeliveryMethods(Some(ValidateDeliveryMethods(value).value)) == ValidateDeliveryMethods(value)
  {
  }

  /** validate_scheduled_for and validate_expires_at: a time that is given must lie
      strictly after now. */
  function ValidateFutureTime(value: Option<int>, now: int, error: NotificationError): (r: Result<Option<int>, NotificationError>)
    ensures r.Err? <==> value.Some? && value.value <= now
    ensures r.Err? ==> r.error == error
    ensures r.Ok? ==> r.value == value
  {
    if value.Some? && value.value <= now then Err(error) else Ok(value)
  }

  /** validate: when both are given, the schedule must come strictly before the
      expiry. */
  function ValidateSchedule(scheduledFor: Option<int>, expiresAt: Option<int>): (r: Outcome<NotificationError>)
    ensures r.Fail? <==> scheduledFor.Some? && expiresAt.Some? && scheduledFor.value >= expiresAt.value
    ensures r.Fail? ==> r.error == ScheduledNotBeforeExpiry
  {
    if scheduledFor.Some? && expiresAt.Some? && scheduledFor.value >= expiresAt.value then Fail(ScheduledNotBeforeExpiry)
    else Pass
  }

  /** The three time checks together: a notification that passes all of them is
      scheduled after now and expires after its schedule. */
  lemma AcceptedScheduleIsOrdered(scheduledFor: Option<int>, expiresAt: Option<int>, now: int)
    requires ValidateFutureTime(scheduledFor, now, ScheduledNotInFuture).Ok?
    requires ValidateFutureTime(expiresAt, now, ExpiryNotInFuture).Ok?
    requires ValidateSchedule(scheduledFor, expiresAt).Pass?
    ensures scheduledFor.Some? ==> now < scheduledFor.value
    ensures expiresAt.Some? ==> now < expiresAt.value
    ensures scheduledFor.Some? && expiresAt.Some? ==> now < scheduledFor.value < expiresAt.value
  {
  }

  /** The update validator: a notification that has been sent may not be changed;
      without an instance there is nothing to refuse. */
  function ValidateUpdate(instanceIsSent: Option<bool>): (r: Outcome<NotificationError>)
    ensures r.Fail? <==> instanceIsSent == Some(true)
    ensures r.Fail? ==> r.error == AlreadySent
  {
    if instanceIsSent == Some(true) then Fail(AlreadySent) else Pass
  }

  /** validate_notification_ids: at least one id, and the user's own notifications
      among them must number as many as the list has entries. */
  function ValidateNotificationIds(ids: seq<int>, owned: set<int>): (r: Result<seq<int>, NotificationError>)
    ensures r.Ok? <==> ids != [] && Distinct(ids) && SetOf(ids) <= owned
    ensures r.Ok? ==> r.value == ids
    ensures ids == [] ==> r == Err(NoNotificationIds)
  {
    AllListedExistIff(ids, owned);
    if ids == [] then Err(NoNotificationIds)
    else if !AllListedExist(ids, owned) then Err(NotificationIdsNotOwned)
    else Ok(ids)
  }

  /** Repeating one of the user's own ids is reported as an id that is invalid or not
      theirs. */
  lemma RepeatedOwnIdRefused(x: int, owned: set<int>)
    requires x in owned
    ensures ValidateNotificationIds([x], owned).Ok?
    ensures ValidateNotificationIds([x, x], owned) == Err(NotificationIdsNotOwned)
  {
    assert SetOf([x]) == {x};
    assert !Distinct([x, x]) by {
      assert [x, x][0] == [x, x][1];
    }
  }

  /** The filter validator: when both dates are given, the first may not be after
      the second. */
  function ValidateFilter(dateFrom: Option<Users.Date>, dateTo: Option<Users.Date>): (r: Outcome<NotificationError>)
    ensures r.Fail? <==> dateFrom.Some? && dateTo.Some? && Users.DateBefore(dateTo.value, dateFrom.value)
  {
    if dateFrom.Some? && dateTo.Some? && Users.DateBefore(dateTo.value, dateFrom.value) then Fail(DatesReversed) else Pass
  }
}
