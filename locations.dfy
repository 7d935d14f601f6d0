// The Address model: coordinates, the formatted full address, the single
// default address per customer, and the model-level validation.

module Locations {
  import opened Common

  datatype AddressLabel = Home | Work | ParentHouse | Other

  datatype AddressRecord = AddressRecord(
    customerId: int,
    addressLabel: AddressLabel,
    isDefault: bool,
    streetAddress: string,
    barangay: string,
    city: string,
    province: string,
    postalCode: Option<string>,
    latitude: Option<real>,
    longitude: Option<real>,
    buildingName: Option<string>,
    floorNumber: Option<string>,
    unitNumber: Option<string>)

  /** Python truthiness of a nullable coordinate: present and non-zero. */
  predicate NonZero(x: Option<real>)
  {
    x.Some? && x.value != 0.0
  }

  /** has_coordinates: both coordinates present and truthy (0 counts as missing). */
  predicate HasCoordinates(latitude: Option<real>, longitude: Option<real>)
  {
    NonZero(latitude) && NonZero(longitude)
  }

  /** coordinates: the pair, exactly when has_coordinates holds. */
  function Coordinates(a: AddressRecord): (r: Option<(real, real)>)
    ensures r.Some? <==> HasCoordinates(a.latitude, a.longitude)
    ensures r.Some? ==> r.value == (a.latitude.value, a.longitude.value) && r.value.0 != 0.0 && r.value.1 != 0.0
  {
    if NonZero(a.latitude) && NonZero(a.longitude) then Some((a.latitude.value, a.longitude.value)) else None
  }

  /** The check constraints on the stored coordinates. */
  predicate ValidLatitude(x: Option<real>) { x.None? || (-90.0 <= x.value <= 90.0) }
  predicate ValidLongitude(x: Option<real>) { x.None? || (-180.0 <= x.value <= 180.0) }

  datatype AddressError = DefaultWithoutCoordinates

  /** clean: a default address must have coordinates. */
  function Clean(a: AddressRecord): (r: Outcome<AddressError>)
    ensures r.Fail? <==> a.isDefault && !HasCoordinates(a.latitude, a.longitude)
  {
    if !HasCoordinates(a.latitude, a.longitude) && a.isDefault then Fail(DefaultWithoutCoordinates) else Pass
  }

  // ---------------------------------------------------------------------------
  // full_address
  // ---------------------------------------------------------------------------

  /** ", ".join(parts) */
  function Join(sep: string, parts: seq<string>): string
  {
    if parts == [] then []
    else if |parts| == 1 then parts[0]
    else parts[0] + sep + Join(sep, parts[1..])
  }

  /** filter(None, parts): drop the empty strings, keep the order. */
  function NonEmpty(parts: seq<string>): (r: seq<string>)
    ensures |r| <= |parts|
    ensures forall i :: 0 <= i < |r| ==> r[i] != []
    ensures forall p :: p in r <==> p in parts && p != []
  {
    if parts == [] then []
    else if parts[0] == [] then NonEmpty(parts[1..])
    else [parts[0]] + NonEmpty(parts[1..])
  }

  function OptionalPart(prefix: string, v: Option<string>): seq<string>
  {
    if Truthy(v) then [prefix + v.value] else []
  }

  /** The candidate parts in display order: building, floor, unit, street, barangay,
      city, province, postal code; absent optional parts contribute nothing. */
  function AddressParts(a: AddressRecord): seq<string>
  {
    OptionalPart("", a.buildingName) + OptionalPart("Floor ", a.floorNumber) + OptionalPart("Unit ", a.unitNumber)
    + [a.streetAddress, a.barangay, a.city, a.province]
    + OptionalPart("", a.postalCode)
  }

  /** full_address, building its list of parts one append at a time. */
  method FullAddress(a: AddressRecord) returns (r: string)
    ensures r == Join(", ", NonEmpty(AddressParts(a)))
  {
    var parts: seq<string> := [];
    if Truthy(a.buildingName) {
      parts := parts + [a.buildingName.value];
      assert "" + a.buildingName.value == a.buildingName.value;
    }
    assert parts == OptionalPart("", a.buildingName);
    if Truthy(a.floorNumber) {
      parts := parts + ["Floor " + a.floorNumber.value];
    }
    if Truthy(a.unitNumber) {
      parts := parts + ["Unit " + a.unitNumber.value];
    }
    assert parts == OptionalPart("", a.buildingName) + OptionalPart("Floor ", a.floorNumber) + OptionalPart("Unit ", a.unitNumber);
    ghost var head := parts;
    parts := parts + [a.streetAddress];
    parts := parts + [a.barangay];
    parts := parts + [a.city];
    parts := parts + [a.province];
    assert parts == head + [a.streetAddress, a.barangay, a.city, a.province];
    if Truthy(a.postalCode) {
      parts := parts + [a.postalCode.value];
      assert "" + a.postalCode.value == a.postalCode.value;
    }
    assert parts == AddressParts(a);
    r := Join(", ", NonEmpty(parts));
  }

  /** An address with only the four required parts, all non-empty, reads
      "street, barangay, city, province". */
  lemma FullAddressRequiredOnly(a: AddressRecord)
    requires !Truthy(a.buildingName) && !Truthy(a.floorNumber) && !Truthy(a.unitNumber) && !Truthy(a.postalCode)
    requires a.streetAddress != [] && a.barangay != [] && a.city != [] && a.province != []
    ensures Join(", ", NonEmpty(AddressParts(a)))
            == a.streetAddress + ", " + a.barangay + ", " + a.city + ", " + a.province
  {
    var ps := [a.streetAddress, a.barangay, a.city, a.province];
    assert AddressParts(a) == ps;
    assert NonEmpty(ps[3..]) == [a.province];
    assert NonEmpty(ps[2..]) == [a.city, a.province];
    assert NonEmpty(ps[1..]) == [a.barangay, a.city, a.province];
    assert NonEmpty(ps) == ps;
    assert Join(", ", ps[3..]) == a.province;
    assert Join(", ", ps[2..]) == a.city + ", " + a.province;
    assert Join(", ", ps[1..]) == a.barangay + ", " + (a.city + ", " + a.province);
  }

  /** A present building name always opens the formatted address. */
  lemma {:induction false} FullAddressStartsWithBuilding(a: AddressRecord)
    requires Truthy(a.buildingName)
    ensures HasPrefix(Join(", ", NonEmpty(AddressParts(a))), a.buildingName.value)
  {
    var parts := AddressParts(a);
    assert parts[0] == a.buildingName.value;
    var kept := NonEmpty(parts);
    assert kept == [parts[0]] + NonEmpty(parts[1..]);
    JoinStartsWithFirst(", ", kept);
  }

  lemma JoinStartsWithFirst(sep: string, parts: seq<string>)
    requires parts != []
    ensures HasPrefix(Join(sep, parts), parts[0])
  {
    if |parts| > 1 {
      var j := Join(sep, parts);
      assert j == parts[0] + (sep + Join(sep, parts[1..]));
      assert j[..|parts[0]|] == parts[0];
    }
  }

  // ---------------------------------------------------------------------------
  // Single default address per customer
  // ---------------------------------------------------------------------------

  /** No customer has two default addresses. */
  ghost predicate AtMostOneDefault(book: map<int, AddressRecord>)
  {
    forall k1, k2 ::
      (k1 in book && k2 in book && book[k1].isDefault && book[k2].isDefault
       && book[k1].customerId == book[k2].customerId) ==> k1 == k2
  }

  /** The addresses held by the store, keyed by primary key. */
  class AddressBook {
    var addresses: map<int, AddressRecord>

    constructor ()
      ensures addresses == map[]
    {
      addresses := map[];
    }

    /** save: a default address first clears the default flag on the customer's
        other addresses, then is stored under its key. */
    method Save(pk: int, a: AddressRecord)
      modifies this
      ensures pk in addresses && addresses[pk] == a
      ensures addresses.Keys == old(addresses).Keys + {pk}
      ensures forall k :: k in old(addresses) && k != pk ==>
                addresses[k] == if a.isDefault && old(addresses)[k].customerId == a.customerId
                                then old(addresses)[k].(isDefault := false) else old(addresses)[k]
      ensures AtMostOneDefault(old(addresses)) ==> AtMostOneDefault(addresses)
      ensures a.isDefault ==> forall k ::
                (k in addresses && addresses[k].customerId == a.customerId && addresses[k].isDefault) ==> k == pk
    {
      if a.isDefault {
        var old_book := addresses;
        addresses := map k | k in old_book ::
          if k != pk && old_book[k].customerId == a.customerId && old_book[k].isDefault
          then old_book[k].(isDefault := false) else old_book[k];
      }
      addresses := addresses[pk := a];
    }
  }
}
