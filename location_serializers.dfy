// Address serializers: field and coordinate validation, default-address
// handling on create and update, bulk id checks and the search validator.

module LocationSerializers {
  import opened Common

  /** The submitted address fields; a missing key reads as None. */
  datatype AddressInput = AddressInput(
    streetAddress: Option<string>,
    city: Option<string>,
    postalCode: Option<string>,
    latitude: Option<real>,
    longitude: Option<real>)

  datatype AddressInputError = NoAddressField | LatitudeOutOfRange | LongitudeOutOfRange | ZeroCoordinates

  predicate InRange(x: Option<real>, bound: real)
  {
    x.None? || (-bound <= x.value <= bound)
  }

  predicate SomeAddressField(a: AddressInput)
  {
    Truthy(a.streetAddress) || Truthy(a.city) || Truthy(a.postalCode)
  }

  /** The coordinate range checks shared by all three address serializers. */
  function CheckRanges(a: AddressInput): (r: Outcome<AddressInputError>)
    ensures r.Pass? <==> InRange(a.latitude, 90.0) && InRange(a.longitude, 180.0)
    ensures !InRange(a.latitude, 90.0) ==> r == Fail(LatitudeOutOfRange)
  {
    if !InRange(a.latitude, 90.0) then Fail(LatitudeOutOfRange)
    else if !InRange(a.longitude, 180.0) then Fail(LongitudeOutOfRange)
    else Pass
  }

  /** AddressSerializer.validate: some address field, coordinates in range, and not (0, 0). */
  function ValidateAddress(a: AddressInput): (r: Outcome<AddressInputError>)
    ensures r.Pass? <==> SomeAddressField(a) && InRange(a.latitude, 90.0) && InRange(a.longitude, 180.0)
                         && !(a.latitude == Some(0.0) && a.longitude == Some(0.0))
    ensures !SomeAddressField(a) ==> r == Fail(NoAddressField)
  {
    if !SomeAddressField(a) then Fail(NoAddressField)
    else if CheckRanges(a).Fail? then CheckRanges(a)
    else if a.latitude.Some? && a.longitude.Some? && a.latitude.value == 0.0 && a.longitude.value == 0.0
    then Fail(ZeroCoordinates)
    else Pass
  }

  /** AddressCreateSerializer.validate: as above but without the (0, 0) check. */
  function ValidateAddressCreate(a: AddressInput): (r: Outcome<AddressInputError>)
    ensures r.Pass? <==> SomeAddressField(a) && InRange(a.latitude, 90.0) && InRange(a.longitude, 180.0)
  {
    if !SomeAddressField(a) then Fail(NoAddressField) else CheckRanges(a)
  }

  /** AddressUpdateSerializer.validate: only the coordinate ranges. */
  function ValidateAddressUpdate(a: AddressInput): (r: Outcome<AddressInputError>)
    ensures r.Pass? <==> InRange(a.latitude, 90.0) && InRange(a.longitude, 180.0)
  {
    CheckRanges(a)
  }

  /** The three validators differ only as stated: the full serializer additionally
      refuses (0, 0), and the update serializer drops the address-field check. */
  lemma ValidatorsCompared(a: AddressInput)
    ensures ValidateAddress(a).Pass? <==> ValidateAddressCreate(a).Pass? && !(a.latitude == Some(0.0) && a.longitude == Some(0.0))
    ensures ValidateAddressCreate(a).Pass? <==> ValidateAddressUpdate(a).Pass? && SomeAddressField(a)
    ensures SomeAddressField(a) && a.latitude == Some(0.0) && a.longitude == Some(0.0)
            ==> ValidateAddressCreate(a).Pass? && ValidateAddress(a) == Fail(ZeroCoordinates)
  {
  }

  // ---------------------------------------------------------------------------
  // Default address handling in create / update
  // ---------------------------------------------------------------------------

  datatype StoredAddress = StoredAddress(userId: int, isDefault: bool, isActive: bool)

  ghost predicate OneDefaultPerUser(m: map<int, StoredAddress>)
  {
    forall k1, k2 ::
      (k1 in m && k2 in m && m[k1].isDefault && m[k2].isDefault && m[k1].userId == m[k2].userId) ==> k1 == k2
  }

  predicate HasActiveAddress(m: map<int, StoredAddress>, user: int)
  {
    exists k :: k in m && m[k].userId == user && m[k].isActive
  }

  /** The map after every default address of `user` has been cleared. */
  function ClearDefaults(m: map<int, StoredAddress>, user: int): (r: map<int, StoredAddress>)
    ensures r.Keys == m.Keys
    ensures forall k :: k in r ==> r[k].userId == m[k].userId && r[k].isActive == m[k].isActive
    ensures forall k :: k in r ==> r[k].isDefault == (m[k].isDefault && m[k].userId != user)
  {
    map k | k in m :: if m[k].userId == user && m[k].isDefault then m[k].(isDefault := false) else m[k]
  }

  class AddressStore {
    var addresses: map<int, StoredAddress>

    constructor ()
      ensures addresses == map[]
    {
      addresses := map[];
    }

    /** create: a user's first active address becomes the default; a default clears the
        user's other defaults first. */
    method Create(pk: int, user: int, requestedDefault: bool, isActive: bool)
      requires pk !in addresses
      modifies this
      ensures addresses.Keys == old(addresses).Keys + {pk}
      ensures addresses[pk].userId == user && addresses[pk].isActive == isActive
      ensures addresses[pk].isDefault == (requestedDefault || !HasActiveAddress(old(addresses), user))
      ensures addresses[pk].isDefault ==> forall k :: k in old(addresses) && old(addresses)[k].userId == user ==> !addresses[k].isDefault
      ensures forall k :: k in old(addresses) && old(addresses)[k].userId != user ==> addresses[k] == old(addresses)[k]
      ensures OneDefaultPerUser(old(addresses)) ==> OneDefaultPerUser(addresses)
    {
      var makeDefault := requestedDefault;
      if !HasActiveAddress(addresses, user) {
        makeDefault := true;
      }
      if makeDefault {
        addresses := ClearDefaults(addresses, user);
      }
      addresses := addresses[pk := StoredAddress(user, makeDefault, isActive)];
    }

    /** update: setting is_default clears the user's defaults (this one included) and then
        stores the flag; an absent or false flag clears nothing. */
    method Update(pk: int, isDefault: Option<bool>)
      requires pk in addresses
      modifies this
      ensures addresses.Keys == old(addresses).Keys
      ensures addresses[pk].userId == old(addresses)[pk].userId && addresses[pk].isActive == old(addresses)[pk].isActive
      ensures addresses[pk].isDefault == if isDefault.Some? then isDefault.value else old(addresses)[pk].isDefault
      ensures isDefault == Some(true) ==> forall k :: k in addresses && k != pk && addresses[k].userId == addresses[pk].userId
                                                     ==> !addresses[k].isDefault
      ensures isDefault != Some(true) ==> forall k :: k in addresses && k != pk ==> addresses[k] == old(addresses)[k]
      ensures OneDefaultPerUser(old(addresses)) ==> OneDefaultPerUser(addresses)
    {
      var user := addresses[pk].userId;
      if isDefault == Some(true) {
        addresses := ClearDefaults(addresses, user);
      }
      if isDefault.Some? {
        addresses := addresses[pk := addresses[pk].(isDefault := isDefault.value)];
      }
    }
  }

  // ---------------------------------------------------------------------------
  // Bulk ids
  // ---------------------------------------------------------------------------

  datatype BulkError = TooFewIds | TooManyIds | IdsNotFound

  /** AddressBulkUpdateSerializer: 1 to 100 ids, and as many of the user's addresses
      among them as there are ids. */
  function ValidateBulkIds(ids: seq<int>, owned: set<int>): Outcome<BulkError>
  {
    if |ids| < 1 then Fail(TooFewIds)
    else if |ids| > 100 then Fail(TooManyIds)
    else if |SetOf(ids) * owned| != |ids| then Fail(IdsNotFound)
    else Pass
  }

  /** The bulk check accepts exactly 1 to 100 distinct ids that all belong to the user;
      a repeated id is refused even when it is the user's. */
  lemma BulkIdsAcceptedIff(ids: seq<int>, owned: set<int>)
    ensures ValidateBulkIds(ids, owned).Pass?
            <==> 1 <= |ids| <= 100 && Distinct(ids) && forall x :: x in ids ==> x in owned
  {
    SetOfSize(ids);
    var s := SetOf(ids);
    assert |s * owned| <= |s| by {
      assert s * owned <= s;
      SubsetCard(s * owned, s);
    }
    if |s * owned| == |ids| {
      assert |s * owned| == |s|;
      if exists x :: x in s && x !in owned {
        var x :| x in s && x !in owned;
        assert s * owned <= s - {x};
        SubsetCard(s * owned, s - {x});
      }
    }
    if Distinct(ids) && forall x :: x in ids ==> x in owned {
      assert s * owned == s;
    }
  }

  // ---------------------------------------------------------------------------
  // Search
  // ---------------------------------------------------------------------------

  datatype SearchError = RadiusOutOfRange | CoordinatesNotPaired | SearchLatitudeOutOfRange | SearchLongitudeOutOfRange

  /** AddressSearchSerializer: radius in [0.1, 100]; latitude and longitude come together
      and lie in their ranges. */
  function ValidateSearch(latitude: Option<real>, longitude: Option<real>, radiusKm: real): (r: Outcome<SearchError>)
    ensures r.Pass? <==> 0.1 <= radiusKm <= 100.0 && latitude.Some? == longitude.Some?
                         && InRange(latitude, 90.0) && InRange(longitude, 180.0)
    ensures latitude.Some? != longitude.Some? && 0.1 <= radiusKm <= 100.0 ==> r == Fail(CoordinatesNotPaired)
  {
    if !(0.1 <= radiusKm <= 100.0) then Fail(RadiusOutOfRange)
    else if latitude.Some? != longitude.Some? then Fail(CoordinatesNotPaired)
    else if latitude.Some? && !(-90.0 <= latitude.value <= 90.0) then Fail(SearchLatitudeOutOfRange)
    else if longitude.Some? && !(-180.0 <= longitude.value <= 180.0) then Fail(SearchLongitudeOutOfRange)
    else Pass
  }
}
