// Role- and verification-aware access rules. Every rule shares one object-level
// skeleton: staff pass, inactive users fail, writes need a verified user, and only
// then does the rule's own ownership check run.

module EnhancedPermissions {
  import opened Common
  import opened Users

  datatype HttpMethod = Get | Head | Options | Post | Put | Patch | Delete

  /** The methods that only read. */
  predicate Safe(m: HttpMethod) { m == Get || m == Head || m == Options }

  /** What the rules can find on an object: the user behind each owner link it has
      (None when it has no such attribute), the object's own id when it is itself a
      user, and for orders the rider assignment's user (None when the attribute is
      missing, Some(None) when it is empty). */
  datatype Obj = Obj(
    user: Option<int>,
    customer: Option<int>,
    pharmacy: Option<int>,
    rider: Option<int>,
    selfUser: Option<int>,
    riderAssignment: Option<Option<int>>)

  /** The permission classes. */
  datatype Rule =
    | OwnerOrReadOnly | PharmacyOwner | RiderOwner | CustomerOwner | AdminUser | VerifiedUser
    | PharmacyOrAdmin | RiderOrAdmin | CustomerOrAdmin | OwnerOrAdmin | VerifiedOrAdmin
    | PharmacyInventory | OrderAccess

  /** _is_user_verified: customers need one verified contact, pharmacies and riders
      both, admins none. */
  function IsUserVerified(u: Principal): (r: bool)
    ensures u.role == CustomerRole ==> (r <==> u.emailVerified || u.phoneVerified)
    ensures u.role == PharmacyRole || u.role == RiderRole ==> (r <==> u.emailVerified && u.phoneVerified)
    ensures u.role == AdminRole ==> r
  {
    match u.role
    case CustomerRole => u.emailVerified || u.phoneVerified
    case PharmacyRole => u.emailVerified && u.phoneVerified
    case RiderRole => u.emailVerified && u.phoneVerified
    case AdminRole => true
  }

  /** Both contacts verified and the account active: what writes by pharmacies and
      riders, and every admin request, demand. */
  predicate FullyVerifiedActive(u: Principal)
  {
    u.emailVerified && u.phoneVerified && u.status == Active
  }

  predicate StaffAdmin(u: Principal) { u.isStaff && u.role == AdminRole }

  /** The role-gated request check shared by the pharmacy, rider and customer rules:
      the role, and for writes the role's verification and an active account. */
  function RoleGate(u: Principal, role: UserRole, m: HttpMethod): bool
  {
    if u.role != role then false
    else if Safe(m) then true
    else if role == CustomerRole then (u.emailVerified || u.phoneVerified) && u.status == Active
    else FullyVerifiedActive(u)
  }

  /** has_permission of each rule. */
  function HasPermission(rule: Rule, req: Requester, m: HttpMethod): (r: bool)
    ensures r ==> req.Authenticated?
    ensures rule == AdminUser ==> (r <==> req.Authenticated? && StaffAdmin(req.user) && FullyVerifiedActive(req.user))
    ensures rule == PharmacyOwner ==>
              (r <==> req.Authenticated? && req.user.role == PharmacyRole && (!Safe(m) ==> FullyVerifiedActive(req.user)))
  {
    if req.Anonymous? then false
    else
      var u := req.user;
      match rule
      case OwnerOrReadOnly => true
      case OwnerOrAdmin => true
      case PharmacyOwner => RoleGate(u, PharmacyRole, m)
      case RiderOwner => RoleGate(u, RiderRole, m)
      case CustomerOwner => RoleGate(u, CustomerRole, m)
      case AdminUser => u.isStaff && u.role == AdminRole && FullyVerifiedActive(u)
      case VerifiedUser =>
        if u.role == CustomerRole then u.emailVerified || u.phoneVerified
        else if u.role == PharmacyRole || u.role == RiderRole then u.emailVerified && u.phoneVerified
        else u.role == AdminRole
      case PharmacyOrAdmin => StaffAdmin(u) || RoleGate(u, PharmacyRole, m)
      case RiderOrAdmin => StaffAdmin(u) || RoleGate(u, RiderRole, m)
      case CustomerOrAdmin => StaffAdmin(u) || RoleGate(u, CustomerRole, m)
      case PharmacyInventory => StaffAdmin(u) || RoleGate(u, PharmacyRole, m)
      case VerifiedOrAdmin =>
        if StaffAdmin(u) then true
        else if u.role == CustomerRole then u.emailVerified || u.phoneVerified
        else if u.role == PharmacyRole || u.role == RiderRole then u.emailVerified && u.phoneVerified
        else false
      case OrderAccess =>
        if StaffAdmin(u) then true
        else if u.role == CustomerRole then u.emailVerified || u.phoneVerified
        else if u.role == PharmacyRole || u.role == RiderRole then u.emailVerified && u.phoneVerified
        else false
  }

  /** The owner lookup: user, then customer, then pharmacy, then rider; an object
      with none of these is compared with the user itself. */
  function OwnerOf(obj: Obj): (r: Option<int>)
    ensures obj.user.Some? ==> r == obj.user
    ensures obj.user.None? && obj.customer.Some? ==> r == obj.customer
    ensures obj.user.None? && obj.customer.None? && obj.pharmacy.Some? ==> r == obj.pharmacy
    ensures obj.user.None? && obj.customer.None? && obj.pharmacy.None? && obj.rider.Some? ==> r == obj.rider
    ensures obj.user.None? && obj.customer.None? && obj.pharmacy.None? && obj.rider.None? ==> r == obj.selfUser
  {
    if obj.user.Some? then obj.user
    else if obj.customer.Some? then obj.customer
    else if obj.pharmacy.Some? then obj.pharmacy
    else if obj.rider.Some? then obj.rider
    else obj.selfUser
  }

  predicate Owns(u: Principal, obj: Obj)
  {
    OwnerOf(obj) == Some(u.id)
  }

  /** First present link of the two, compared with the user; false when neither is present. */
  predicate OwnsVia(u: Principal, first: Option<int>, second: Option<int>)
  {
    if first.Some? then first.value == u.id
    else second.Some? && second.value == u.id
  }

  /** _check_object_permission of each rule. */
  function CheckObject(rule: Rule, u: Principal, m: HttpMethod, obj: Obj): bool
  {
    match rule
    case OwnerOrReadOnly => Safe(m) || Owns(u, obj)
    case VerifiedUser => Owns(u, obj)
    case PharmacyOwner => OwnsVia(u, obj.user, obj.pharmacy)
    case RiderOwner => OwnsVia(u, obj.user, obj.rider)
    case CustomerOwner => OwnsVia(u, obj.user, obj.customer)
    case AdminUser => true
    case PharmacyOrAdmin => StaffAdmin(u) || (u.role == PharmacyRole && OwnsVia(u, obj.user, obj.pharmacy))
    case RiderOrAdmin => StaffAdmin(u) || (u.role == RiderRole && OwnsVia(u, obj.user, obj.rider))
    case CustomerOrAdmin => StaffAdmin(u) || (u.role == CustomerRole && OwnsVia(u, obj.user, obj.customer))
    case OwnerOrAdmin => StaffAdmin(u) || Owns(u, obj)
    case VerifiedOrAdmin => StaffAdmin(u) || Owns(u, obj)
    case PharmacyInventory => StaffAdmin(u) || (u.role == PharmacyRole && obj.pharmacy == Some(u.id))
    case OrderAccess =>
      if StaffAdmin(u) then true
      else if u.role == CustomerRole then obj.customer == Some(u.id)
      else if u.role == PharmacyRole then obj.pharmacy == Some(u.id)
      else if u.role == RiderRole then obj.riderAssignment.Some? && obj.riderAssignment.value == Some(u.id)
      else false
  }

  /** BaseObjectPermission.has_object_permission, for an authenticated user. */
  function HasObjectPermission(rule: Rule, u: Principal, m: HttpMethod, obj: Obj): (r: bool)
    ensures u.isStaff ==> r
    ensures !u.isStaff && !u.isActive ==> !r
    ensures !u.isStaff && !Safe(m) && !IsUserVerified(u) ==> !r
    ensures !u.isStaff && u.isActive && (Safe(m) || IsUserVerified(u)) ==> (r <==> CheckObject(rule, u, m, obj))
  {
    if u.isStaff then true
    else if !u.isActive then false
    else if !Safe(m) && !IsUserVerified(u) then false
    else CheckObject(rule, u, m, obj)
  }

  // ---------------------------------------------------------------------------
  // Properties
  // ---------------------------------------------------------------------------

  /** IsOwnerOrReadOnly lets any active user read, and lets a verified active user
      write exactly the objects it owns under the lookup order. */
  lemma OwnerOrReadOnlyMeaning(u: Principal, m: HttpMethod, obj: Obj)
    requires !u.isStaff && u.isActive
    ensures Safe(m) ==> HasObjectPermission(OwnerOrReadOnly, u, m, obj)
    ensures !Safe(m) ==> (HasObjectPermission(OwnerOrReadOnly, u, m, obj) <==> IsUserVerified(u) && OwnerOf(obj) == Some(u.id))
  {
  }

  /** A link earlier in the lookup order hides the later ones: an object with a user
      link is owned only by that user, whoever its customer, pharmacy or rider is. */
  lemma UserLinkDecides(u: Principal, obj: Obj, other: Obj)
    requires obj.user.Some? && other.user == obj.user
    ensures Owns(u, obj) <==> Owns(u, other)
  {
  }

  /** The request check of IsVerifiedUser is exactly _is_user_verified. */
  lemma VerifiedUserRequestIsVerification(u: Principal, m: HttpMethod)
    ensures HasPermission(VerifiedUser, Authenticated(u), m) == IsUserVerified(u)
  {
  }

  /** IsVerifiedOrAdmin refuses an admin who is not staff, although _is_user_verified
      accepts every admin. */
  lemma VerifiedOrAdminRefusesNonStaffAdmin(u: Principal, m: HttpMethod)
    requires u.role == AdminRole && !u.isStaff
    ensures IsUserVerified(u) && !HasPermission(VerifiedOrAdmin, Authenticated(u), m)
  {
  }

  /** A write allowed by a role rule's request check always passes the verification
      step of the object check: the request check asks for at least as much. */
  lemma RoleGateImpliesVerified(u: Principal, role: UserRole, m: HttpMethod)
    requires role != AdminRole
    requires RoleGate(u, role, m) && !Safe(m)
    ensures IsUserVerified(u) && u.status == Active
  {
  }

  /** An inactive, non-staff user is refused by every rule for every object. */
  lemma InactiveRefusedEverywhere(rule: Rule, u: Principal, m: HttpMethod, obj: Obj)
    requires !u.isStaff && !u.isActive
    ensures !HasObjectPermission(rule, u, m, obj)
  {
  }

  /** For a pharmacy or rider account the permissions' verification test asks for both
      flags, which is at least what the account model's is_verified asks for. */
  lemma RoleVerificationImpliesAccountVerified(u: User)
    requires u.role == PharmacyRole || u.role == RiderRole
    requires IsUserVerified(u.AsPrincipal())
    ensures u.IsVerified()
  {
  }

  /** The order rule lets a rider see an order only through its rider assignment. */
  lemma OrderAccessForRiders(u: Principal, m: HttpMethod, obj: Obj)
    requires u.role == RiderRole && !u.isStaff && u.isActive && (Safe(m) || IsUserVerified(u))
    ensures HasObjectPermission(OrderAccess, u, m, obj) <==> obj.riderAssignment == Some(Some(u.id))
  {
  }
}
