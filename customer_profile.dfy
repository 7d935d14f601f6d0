// The customer profile record: full name, age from the birth date, senior-discount
// eligibility, and the save hook that promotes a customer to senior at 60.

module CustomerProfiles {
  import opened Common
  import opened Users

  /** Index of the first space in s, or |s| when there is none. */
  function FirstSpace(s: string): (k: nat)
    ensures k <= |s|
    ensures forall i :: 0 <= i < k ==> s[i] != ' '
    ensures k < |s| ==> s[k] == ' '
  {
    if s == [] then 0
    else if s[0] == ' ' then 0
    else 1 + FirstSpace(s[1..])
  }

  class CustomerProfile {
    const user: User
    var firstName: string
    var lastName: string
    var dateOfBirth: Option<Date>
    var isSenior: bool

    constructor (user: User, firstName: string, lastName: string, dateOfBirth: Option<Date>)
      ensures this.user == user && this.firstName == firstName && this.lastName == lastName
      ensures this.dateOfBirth == dateOfBirth && !isSenior
    {
      this.user := user;
      this.firstName := firstName;
      this.lastName := lastName;
      this.dateOfBirth := dateOfBirth;
      isSenior := false;
    }

    /** full_name: first and last name joined by one space. A first name without
        spaces is recovered by splitting at the first space. */
    function FullName(): (r: string)
      reads this
      ensures |r| == |firstName| + 1 + |lastName|
      ensures r[..|firstName|] == firstName && r[|firstName|] == ' ' && r[|firstName| + 1..] == lastName
      ensures (forall i :: 0 <= i < |firstName| ==> firstName[i] != ' ') ==> r[..FirstSpace(r)] == firstName
    {
      var r := firstName + " " + lastName;
      assert r[..|firstName|] == firstName;
      assert r[|firstName| + 1..] == lastName;
      FirstSpaceOfJoin(firstName, lastName);
      r
    }

    /** age: None without a birth date, otherwise the age on `today`. */
    function Age(today: Date): (r: Option<int>)
      reads this
      ensures r.Some? <==> dateOfBirth.Some?
      ensures r.Some? ==> r.value == AgeOn(dateOfBirth.value, today)
    {
      if dateOfBirth.Some? then Some(AgeOn(dateOfBirth.value, today)) else None
    }

    /** is_eligible_for_senior_discount: a (truthy) age of 60 or more, or the stored flag. */
    function IsEligibleForSeniorDiscount(today: Date): (r: bool)
      reads this
      ensures r <==> isSenior || (dateOfBirth.Some? && AgeOn(dateOfBirth.value, today) >= 60)
    {
      var age := Age(today);
      if age.Some? && age.value != 0 && age.value >= 60 then true else isSenior
    }

    /** save: a customer with a birth date who is 60 or older becomes senior; the flag
        is never cleared. */
    method Save(today: Date)
      modifies this`isSenior
      ensures isSenior <==> old(isSenior) || (dateOfBirth.Some? && AgeOn(dateOfBirth.value, today) >= 60)
      ensures isSenior <==> IsEligibleForSeniorDiscount(today)
    {
      if dateOfBirth.Some? && !isSenior {
        var age := Age(today);
        if age.Some? && age.value != 0 && age.value >= 60 {
          isSenior := true;
        }
      }
    }
  }

  /** Splitting "first last" at its first space gives back a space-free first name. */
  lemma {:induction false} FirstSpaceOfJoin(first: string, last: string)
    ensures (forall i :: 0 <= i < |first| ==> first[i] != ' ') ==> FirstSpace(first + " " + last) == |first|
  {
    if first != [] && first[0] != ' ' {
      assert (first + " " + last)[1..] == first[1..] + " " + last;
      FirstSpaceOfJoin(first[1..], last);
    }
  }
}
