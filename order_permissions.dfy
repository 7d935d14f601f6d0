// Object-level access rules for orders and order lines: who may view, update,
// cancel, pay for and manage an order, and when an order may still be edited.
// Each rule that looks at lines or rider assignments is an early-return search,
// modelled as a recursive existence search.

module OrderPermissions {
  import opened Common
  import opened Users
  import Orders

  /** What the rules read of an order: the owning customer's user id, the status,
      for each line the user owning the item's pharmacy (None when the item has
      none), and for each rider link the user of the assigned rider (None when the
      link has no assignment). */
  datatype OrderView = OrderView(
    ownerUser: int,
    status: Orders.OrderStatus,
    linePharmacyUsers: seq<Option<int>>,
    riderUsers: seq<Option<int>>)

  /** What the rules read of an order line. */
  datatype LineView = LineView(
    orderOwnerUser: int,
    prescriptionRequired: bool,
    pharmacyUser: Option<int>)

  predicate IsAuthenticated(req: Requester) { req.Authenticated? }

  /** request.user == some user id; an anonymous user equals nobody. */
  predicate IsUser(req: Requester, uid: int) { req.Authenticated? && req.user.id == uid }

  predicate IsStaff(req: Requester) { req.Authenticated? && req.user.isStaff }

  /** The request's user has the role (an anonymous user has no role at all). */
  predicate HasRole(req: Requester, role: UserRole) { req.Authenticated? && req.user.role == role }

  /** The loop over linked users: true on the first entry naming `uid`. */
  function NamesUser(users: seq<Option<int>>, uid: int): (r: bool)
    ensures r <==> exists i :: 0 <= i < |users| && users[i] == Some(uid)
  {
    if users == [] then false
    else if users[0] == Some(uid) then true
    else
      var rest := NamesUser(users[1..], uid);
      assert forall i :: 1 <= i < |users| ==> users[i] == users[1..][i - 1];
      rest
  }

  /** Some line of the order is an item of the requesting pharmacy owner's pharmacy. */
  predicate OwnsSomeLine(req: Requester, o: OrderView)
  {
    req.Authenticated? && NamesUser(o.linePharmacyUsers, req.user.id)
  }

  /** Some rider link of the order names the requesting rider. */
  predicate AssignedRider(req: Requester, o: OrderView)
  {
    req.Authenticated? && NamesUser(o.riderUsers, req.user.id)
  }

  // ---------------------------------------------------------------------------
  // Request-level checks
  // ---------------------------------------------------------------------------

  /** CanCreateOrder: authenticated customers only, so a customer who is not staff
      never also reaches the analytics. */
  function CanCreateOrder(req: Requester): (r: bool)
    ensures r <==> req.Authenticated? && req.user.role == CustomerRole
    ensures r && !IsStaff(req) ==> !CanViewAnalytics(req)
  {
    IsAuthenticated(req) && HasRole(req, CustomerRole)
  }

  /** Analytics and export: staff, pharmacy owners and riders. */
  function CanViewAnalytics(req: Requester): (r: bool)
    ensures r <==> req.Authenticated? && (req.user.isStaff || req.user.role == PharmacyRole || req.user.role == RiderRole)
  {
    if !IsAuthenticated(req) then false
    else if IsStaff(req) then true
    else if HasRole(req, PharmacyRole) then true
    else HasRole(req, RiderRole)
  }

  /** Prescription management, request level: staff and pharmacy owners. */
  function CanManagePrescriptionsRequest(req: Requester): (r: bool)
    ensures r <==> req.Authenticated? && (req.user.isStaff || req.user.role == PharmacyRole)
  {
    if !IsAuthenticated(req) then false
    else if IsStaff(req) then true
    else HasRole(req, PharmacyRole)
  }

  // ---------------------------------------------------------------------------
  // Object-level checks
  // ---------------------------------------------------------------------------

  // The three manager classes below are each the conjunction of their request check
  // (authenticated, and for two of them the role) and their object check.

  /** IsOrderOwner: an authenticated user who is the order's customer; whoever passes
      may also view the order and pay for it. */
  function IsOrderOwner(req: Requester, o: OrderView): (r: bool)
    ensures r <==> req.Authenticated? && req.user.id == o.ownerUser
    ensures r ==> CanViewOrder(req, o) && CanProcessPayment(req, o)
  {
    IsAuthenticated(req) && IsUser(req, o.ownerUser)
  }

  /** IsPharmacyOrderManager: a pharmacy owner with an item on some line of the order;
      whoever passes may also view the order and update its status. */
  function IsPharmacyOrderManager(req: Requester, o: OrderView): (r: bool)
    ensures r <==> req.Authenticated? && req.user.role == PharmacyRole
                   && exists i :: 0 <= i < |o.linePharmacyUsers| && o.linePharmacyUsers[i] == Some(req.user.id)
    ensures r ==> CanViewOrder(req, o) && CanUpdateOrderStatus(req, o)
  {
    HasRole(req, PharmacyRole) && OwnsSomeLine(req, o)
  }

  /** IsRiderOrderManager: a rider named by some rider link of the order; whoever
      passes may also view the order and update its status, but never cancel it
      unless they own it or are staff. */
  function IsRiderOrderManager(req: Requester, o: OrderView): (r: bool)
    ensures r <==> req.Authenticated? && req.user.role == RiderRole
                   && exists i :: 0 <= i < |o.riderUsers| && o.riderUsers[i] == Some(req.user.id)
    ensures r ==> CanViewOrder(req, o) && CanUpdateOrderStatus(req, o)
    ensures r && !IsStaff(req) && !IsUser(req, o.ownerUser) ==> !CanCancelOrder(req, o)
  {
    HasRole(req, RiderRole) && AssignedRider(req, o)
  }

  /** With no rider links, the relation as the source leaves it (no model defines
      it), no rider passes IsRiderOrderManager, and the status may be updated only
      by staff or a pharmacy owner of some line. */
  lemma WithoutRiderLinks(req: Requester, o: OrderView)
    requires o.riderUsers == []
    ensures !IsRiderOrderManager(req, o)
    ensures CanUpdateOrderStatus(req, o) <==> IsStaff(req) || (HasRole(req, PharmacyRole) && OwnsSomeLine(req, o))
  {
  }

  /** CanViewOrder: exactly the owner, staff, a pharmacy owner of some line, or an
      assigned rider; anyone else, another customer included, is refused. */
  function CanViewOrder(req: Requester, o: OrderView): (r: bool)
    ensures r <==> IsUser(req, o.ownerUser) || IsStaff(req)
                   || (HasRole(req, PharmacyRole) && OwnsSomeLine(req, o))
                   || (HasRole(req, RiderRole) && AssignedRider(req, o))
    ensures IsUser(req, o.ownerUser) || IsStaff(req) ==> r
    ensures r && req.Authenticated? && req.user.role == RiderRole && !req.user.isStaff && req.user.id != o.ownerUser
            ==> exists i :: 0 <= i < |o.riderUsers| && o.riderUsers[i] == Some(req.user.id)
    ensures r && req.Authenticated? && req.user.role == PharmacyRole && !req.user.isStaff && req.user.id != o.ownerUser
            ==> exists i :: 0 <= i < |o.linePharmacyUsers| && o.linePharmacyUsers[i] == Some(req.user.id)
    ensures req.Authenticated? && req.user.role == CustomerRole && !req.user.isStaff && req.user.id != o.ownerUser ==> !r
  {
    if IsUser(req, o.ownerUser) then true
    else if IsStaff(req) then true
    else if HasRole(req, PharmacyRole) && OwnsSomeLine(req, o) then true
    else if HasRole(req, RiderRole) && AssignedRider(req, o) then true
    else false
  }

  /** CanUpdateOrderStatus: staff, a pharmacy owner of some line, or an assigned rider;
      the owner alone is not enough. */
  function CanUpdateOrderStatus(req: Requester, o: OrderView): (r: bool)
    ensures r <==> IsStaff(req) || (HasRole(req, PharmacyRole) && OwnsSomeLine(req, o))
                   || (HasRole(req, RiderRole) && AssignedRider(req, o))
  {
    if IsStaff(req) then true
    else if HasRole(req, PharmacyRole) && OwnsSomeLine(req, o) then true
    else HasRole(req, RiderRole) && AssignedRider(req, o)
  }

  /** CanCancelOrder: nobody once the order is past cancelling; before that the owner,
      staff, or a pharmacy owner of some line. */
  function CanCancelOrder(req: Requester, o: OrderView): (r: bool)
    ensures !Orders.CanBeCancelled(o.status) ==> !r
    ensures Orders.CanBeCancelled(o.status) ==>
              (r <==> IsUser(req, o.ownerUser) || IsStaff(req) || (HasRole(req, PharmacyRole) && OwnsSomeLine(req, o)))
  {
    if !Orders.CanBeCancelled(o.status) then false
    else if IsUser(req, o.ownerUser) then true
    else if IsStaff(req) then true
    else HasRole(req, PharmacyRole) && OwnsSomeLine(req, o)
  }

  /** CanProcessPayment: the owner, staff, or a pharmacy owner of some line. */
  function CanProcessPayment(req: Requester, o: OrderView): (r: bool)
    ensures r <==> IsUser(req, o.ownerUser) || IsStaff(req) || (HasRole(req, PharmacyRole) && OwnsSomeLine(req, o))
  {
    if IsUser(req, o.ownerUser) then true
    else if IsStaff(req) then true
    else HasRole(req, PharmacyRole) && OwnsSomeLine(req, o)
  }

  /** CanManagePrescriptions on a line: only lines needing a prescription, and then
      staff or the owner of the item's pharmacy. */
  function CanManagePrescription(req: Requester, l: LineView): (r: bool)
    ensures !l.prescriptionRequired ==> !r
    ensures l.prescriptionRequired ==>
              (r <==> IsStaff(req) || (HasRole(req, PharmacyRole) && l.pharmacyUser.Some? && IsUser(req, l.pharmacyUser.value)))
  {
    if !l.prescriptionRequired then false
    else if IsStaff(req) then true
    else HasRole(req, PharmacyRole) && l.pharmacyUser.Some? && IsUser(req, l.pharmacyUser.value)
  }

  /** CanManageOrderLines: the order's owner, staff, or the owner of the item's pharmacy. */
  function CanManageOrderLine(req: Requester, l: LineView): (r: bool)
    ensures r <==> IsUser(req, l.orderOwnerUser) || IsStaff(req)
                   || (HasRole(req, PharmacyRole) && l.pharmacyUser.Some? && IsUser(req, l.pharmacyUser.value))
  {
    if IsUser(req, l.orderOwnerUser) then true
    else if IsStaff(req) then true
    else HasRole(req, PharmacyRole) && l.pharmacyUser.Some? && IsUser(req, l.pharmacyUser.value)
  }

  /** IsOrderInEditableState: pending or accepted. */
  function IsOrderInEditableState(o: OrderView): (r: bool)
    ensures r <==> o.status == Orders.Pending || o.status == Orders.Accepted
  {
    o.status in {Orders.Pending, Orders.Accepted}
  }

  // ---------------------------------------------------------------------------
  // Properties
  // ---------------------------------------------------------------------------

  /** Staff cannot cancel an order past preparing, however privileged. */
  lemma StaffCannotCancelLateOrders(req: Requester, o: OrderView)
    requires IsStaff(req)
    requires o.status in {Orders.ReadyForPickup, Orders.PickedUp, Orders.Delivered, Orders.Cancelled, Orders.Refunded}
    ensures !CanCancelOrder(req, o) && CanViewOrder(req, o)
  {
  }

  /** A rider may never cancel an order unless they are its owner or staff: riders are
      not in the cancel rule even when assigned. */
  lemma AssignedRiderCannotCancel(req: Requester, o: OrderView)
    requires HasRole(req, RiderRole) && !IsStaff(req) && !IsUser(req, o.ownerUser)
    ensures !CanCancelOrder(req, o)
  {
  }

  /** Every editable order is still cancellable, so whoever may cancel it may do so
      while it can be edited. */
  lemma EditableImpliesCancellable(o: OrderView)
    requires IsOrderInEditableState(o)
    ensures Orders.CanBeCancelled(o.status)
  {
  }

  /** Whoever may cancel an order may also view it. */
  lemma CancelImpliesView(req: Requester, o: OrderView)
    requires CanCancelOrder(req, o)
    ensures CanViewOrder(req, o)
  {
  }

  /** Anonymous requests are refused by every object rule that names a user. */
  lemma AnonymousRefused(o: OrderView, l: LineView)
    ensures !CanViewOrder(Anonymous, o) && !CanUpdateOrderStatus(Anonymous, o) && !CanCancelOrder(Anonymous, o)
    ensures !CanManagePrescription(Anonymous, l) && !CanManageOrderLine(Anonymous, l)
  {
  }

  /** Adding a line from the requester's pharmacy is enough for a pharmacy owner to
      view the order: the line search finds it wherever it sits. */
  lemma {:induction false} PharmacyLineFound(req: Requester, o: OrderView, pre: seq<Option<int>>, post: seq<Option<int>>)
    requires HasRole(req, PharmacyRole)
    requires o.linePharmacyUsers == pre + [Some(req.user.id)] + post
    ensures CanViewOrder(req, o)
  {
    var i := |pre|;
    assert o.linePharmacyUsers[i] == Some(req.user.id);
  }
}
