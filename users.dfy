// The account models: phone normalisation, password strength, verification and
// login state of a user, failed-login lockout, and the customer, pharmacy and
// rider profile rules (age, verification requirements, performance metrics).

module Users {
  import opened Common

  datatype UserRole = CustomerRole | PharmacyRole | RiderRole | AdminRole

  datatype UserStatus = PendingVerification | Active | Suspended | Banned

  // ---------------------------------------------------------------------------
  // Calendar dates and ages
  // ---------------------------------------------------------------------------

  datatype Date = Date(year: int, month: int, day: int)

  /** (a.month, a.day) < (b.month, b.day) as Python compares tuples. */
  predicate MonthDayBefore(a: Date, b: Date)
  {
    a.month < b.month || (a.month == b.month && a.day < b.day)
  }

  /** Calendar order of dates. */
  predicate DateBefore(a: Date, b: Date)
  {
    a.year < b.year || (a.year == b.year && MonthDayBefore(a, b))
  }

  /** The age on `today` of someone born on `dob`: the difference in years, less one
      while this year's birthday is still ahead. */
  function AgeOn(dob: Date, today: Date): int
  {
    today.year - dob.year - (if MonthDayBefore(today, dob) then 1 else 0)
  }

  /** Someone is at least n years old exactly from their n-th birthday on. */
  lemma AgeAtLeastIff(dob: Date, today: Date, n: int)
    ensures AgeOn(dob, today) >= n <==> !DateBefore(today, Date(dob.year + n, dob.month, dob.day))
  {
  }

  /** Ages never go down as time passes. */
  lemma AgeMonotone(dob: Date, d1: Date, d2: Date)
    requires !DateBefore(d2, d1)
    ensures AgeOn(dob, d1) <= AgeOn(dob, d2)
  {
  }

  // ---------------------------------------------------------------------------
  // Phone numbers and passwords
  // ---------------------------------------------------------------------------

  /** normalize_phone: keep the digits; a leading 0 becomes 63, and 63 is prefixed
      when missing. The result is all digits and starts with 63. */
  function NormalizePhone(p: string): (r: string)
    ensures AllDigits(r) && HasPrefix(r, "63")
  {
    var d := DigitsOf(p);
    if HasPrefix(d, "0") then "63" + d[1..]
    else if !HasPrefix(d, "63") then "63" + d
    else d
  }

  /** The three cases of normalisation, on the digits of the input. */
  lemma NormalizePhoneCases(p: string)
    ensures var d := DigitsOf(p);
            && (HasPrefix(d, "0") ==> NormalizePhone(p) == "63" + d[1..])
            && (HasPrefix(d, "63") ==> NormalizePhone(p) == d)
            && (!HasPrefix(d, "0") && !HasPrefix(d, "63") ==> NormalizePhone(p) == "63" + d)
  {
    var d := DigitsOf(p);
    if HasPrefix(d, "63") {
      assert d[0] == '6';
      assert !HasPrefix(d, "0");
    }
  }

  /** Normalising a normalised number changes nothing. */
  lemma NormalizePhoneIdempotent(p: string)
    ensures NormalizePhone(NormalizePhone(p)) == NormalizePhone(p)
  {
    var r := NormalizePhone(p);
    DigitsOfAllDigits(r);
    assert r[..1] == "6";
  }

  /** The characters the strength rules count as special. */
  const SpecialChars: string := "!@#$%^&*(),.?\":{}|<>"

  predicate HasUpper(s: string) { exists i :: 0 <= i < |s| && IsUpper(s[i]) }
  predicate HasLower(s: string) { exists i :: 0 <= i < |s| && IsLower(s[i]) }
  predicate HasDigit(s: string) { exists i :: 0 <= i < |s| && IsDigit(s[i]) }
  predicate HasSpecial(s: string) { exists i :: 0 <= i < |s| && s[i] in SpecialChars }

  /** _is_strong_password: an empty password passes; otherwise at least 8 characters
      with an upper-case letter, a lower-case letter, a digit and a special character. */
  function IsStrongPassword(pw: string): (r: bool)
    ensures pw == [] ==> r
    ensures pw != [] ==> (r <==> |pw| >= 8 && HasUpper(pw) && HasLower(pw) && HasDigit(pw) && HasSpecial(pw))
  {
    if pw == [] then true
    else if |pw| < 8 then false
    else HasUpper(pw) && HasLower(pw) && HasDigit(pw) && HasSpecial(pw)
  }

  // ---------------------------------------------------------------------------
  // Users
  // ---------------------------------------------------------------------------

  /** The lock window the model's record_failed_login applies, in seconds. */
  const ModelLockoutSeconds: int := 30 * 60

  /** The request's view of a user: what the permission rules look at. */
  datatype Principal = Principal(
    id: int,
    role: UserRole,
    status: UserStatus,
    isStaff: bool,
    isActive: bool,
    emailVerified: bool,
    phoneVerified: bool)

  /** The user behind a request: anonymous, or an authenticated principal. */
  datatype Requester = Anonymous | Authenticated(user: Principal)

  class User {
    const id: int
    var email: Option<string>
    var phoneNumber: Option<string>
    var username: Option<string>
    var password: string
    var role: UserRole
    var status: UserStatus
    var isActive: bool
    var isStaff: bool
    var isEmailVerified: bool
    var isPhoneVerified: bool
    var failedLoginAttempts: nat
    var lastFailedLogin: Option<int>
    var accountLockedUntil: Option<int>
    var phoneVerificationCode: Option<string>
    var phoneVerificationExpires: Option<int>

    constructor (id: int, email: Option<string>, phoneNumber: Option<string>, password: string, role: UserRole)
      ensures this.id == id && this.email == email && this.phoneNumber == phoneNumber
      ensures this.password == password && this.role == role && username == None
      ensures status == PendingVerification && isActive && !isStaff && !isEmailVerified && !isPhoneVerified
      ensures failedLoginAttempts == 0 && lastFailedLogin == None && accountLockedUntil == None
      ensures phoneVerificationCode == None && phoneVerificationExpires == None
    {
      this.id := id;
      this.email := email;
      this.phoneNumber := phoneNumber;
      this.password := password;
      this.role := role;
      username := None;
      status := PendingVerification;
      isActive := true;
      isStaff := false;
      isEmailVerified := false;
      isPhoneVerified := false;
      failedLoginAttempts := 0;
      lastFailedLogin := None;
      accountLockedUntil := None;
      phoneVerificationCode := None;
      phoneVerificationExpires := None;
    }

    function AsPrincipal(): (p: Principal)
      reads this
      ensures p.id == id && p.role == role && p.status == status && p.isStaff == isStaff && p.isActive == isActive
      ensures p.emailVerified == isEmailVerified && p.phoneVerified == isPhoneVerified
    {
      Principal(id, role, status, isStaff, isActive, isEmailVerified, isPhoneVerified)
    }

    /** is_verified: every contact the user gave (a truthy email or phone) is verified. */
    predicate IsVerified()
      reads this
    {
      (Truthy(email) ==> isEmailVerified) && (Truthy(phoneNumber) ==> isPhoneVerified)
    }

    /** A lock that has not yet run out at `now`. */
    predicate LockedAt(now: int)
      reads this
    {
      accountLockedUntil.Some? && now < accountLockedUntil.value
    }

    /** can_login: an active account that is not locked at `now`; a lock that is not in
        force now is not in force later either. */
    function CanLogin(now: int): (r: bool)
      reads this
      ensures r <==> status == Active && (accountLockedUntil.None? || accountLockedUntil.value <= now)
      ensures r ==> forall later :: now <= later ==> !LockedAt(later)
    {
      status == Active && !LockedAt(now)
    }

    /** record_failed_login: count the failure, stamp it, and from the fifth failure on
        lock the account for thirty minutes, so that it cannot log in right away. */
    method RecordFailedLogin(now: int)
      modifies this`failedLoginAttempts, this`lastFailedLogin, this`accountLockedUntil
      ensures failedLoginAttempts == old(failedLoginAttempts) + 1
      ensures lastFailedLogin == Some(now)
      ensures accountLockedUntil == if failedLoginAttempts >= 5 then Some(now + ModelLockoutSeconds) else old(accountLockedUntil)
      ensures failedLoginAttempts >= 5 ==> !CanLogin(now) && !CanLogin(now + ModelLockoutSeconds - 1)
    {
      failedLoginAttempts := failedLoginAttempts + 1;
      lastFailedLogin := Some(now);
      if failedLoginAttempts >= 5 {
        accountLockedUntil := Some(now + ModelLockoutSeconds);
      }
    }

    /** reset_failed_login_attempts: zero the counter and lift the lock; an active user
        can then log in at any time. */
    method ResetFailedLoginAttempts()
      modifies this`failedLoginAttempts, this`accountLockedUntil
      ensures failedLoginAttempts == 0 && accountLockedUntil == None
      ensures forall now :: CanLogin(now) <==> status == Active
    {
      failedLoginAttempts := 0;
      accountLockedUntil := None;
    }
  }

  datatype UserCleanError = NoContact | WeakPassword

  /** User.clean: an email or phone is required, and pharmacy and rider accounts with a
      password need a strong one. */
  function CleanUser(email: Option<string>, phoneNumber: Option<string>, role: UserRole, password: string): (r: Outcome<UserCleanError>)
    ensures r.Pass? <==> (Truthy(email) || Truthy(phoneNumber))
                         && (role == PharmacyRole || role == RiderRole ==> IsStrongPassword(password))
    ensures !Truthy(email) && !Truthy(phoneNumber) ==> r == Fail(NoContact)
  {
    if !Truthy(email) && !Truthy(phoneNumber) then Fail(NoContact)
    else if (role == PharmacyRole || role == RiderRole) && password != [] && !IsStrongPassword(password) then Fail(WeakPassword)
    else Pass
  }

  /** is_verified only asks about the contacts given: an account without any counts as
      verified, although clean refuses it. */
  lemma NoContactIsVerified(u: User)
    requires !Truthy(u.email) && !Truthy(u.phoneNumber)
    ensures u.IsVerified()
    ensures CleanUser(u.email, u.phoneNumber, u.role, u.password) == Fail(NoContact)
  {
  }

  /** For an active account, can_login answers exactly "has the lock instant been
      reached"; a lock only ever runs out, so once allowed the user stays allowed. */
  lemma CanLoginFromLockEnd(u: User, lockEnd: int, now: int, later: int)
    requires u.status == Active && u.accountLockedUntil == Some(lockEnd)
    requires now <= later
    ensures u.CanLogin(now) <==> lockEnd <= now
    ensures u.CanLogin(now) ==> u.CanLogin(later)
  {
  }

  // ---------------------------------------------------------------------------
  // Valid IDs
  // ---------------------------------------------------------------------------

  datatype IDType =
    | PhilsysId | Passport | DriversLicense | Umid | PrcId | PostalId | VotersId | SssId | PhilhealthId
    | GsisId | SeniorCitizenId | NbiClearance | PoliceClearance | SchoolId | BarangayId | TinId
    | PwdId | OwwaId | SeafarerId | CompanyId

  datatype IDCategory = Primary | Secondary

  const PrimaryIDTypes: set<IDType> :=
    {PhilsysId, Passport, DriversLicense, Umid, PrcId, PostalId, VotersId, SssId, PhilhealthId}

  class ValidID {
    var name: IDType
    var category: Option<IDCategory>

    constructor (name: IDType, category: Option<IDCategory>)
      ensures this.name == name && this.category == category
    {
      this.name := name;
      this.category := category;
    }

    /** save: a blank category is filled in from the ID type; a set one is kept. */
    method Save()
      modifies this`category
      ensures old(category).Some? ==> category == old(category)
      ensures old(category).None? ==> category == Some(if name in PrimaryIDTypes then Primary else Secondary)
      ensures category.Some? && (category == Some(Primary) <==> (old(category) == Some(Primary) || (old(category).None? && name in PrimaryIDTypes)))
    {
      if category.None? {
        if name in PrimaryIDTypes {
          category := Some(Primary);
        } else {
          category := Some(Secondary);
        }
      }
    }
  }

  // ---------------------------------------------------------------------------
  // Customer profile (accounts model)
  // ---------------------------------------------------------------------------

  class Customer {
    const user: User
    var dateOfBirth: Option<Date>
    var isSeniorCitizen: bool
    var isIdentityVerified: bool
    var primaryIdUploaded: bool
    var secondaryIdsUploaded: nat

    constructor (user: User, dateOfBirth: Option<Date>)
      ensures this.user == user && this.dateOfBirth == dateOfBirth
      ensures !isSeniorCitizen && !isIdentityVerified && !primaryIdUploaded && secondaryIdsUploaded == 0
    {
      this.user := user;
      this.dateOfBirth := dateOfBirth;
      isSeniorCitizen := false;
      isIdentityVerified := false;
      primaryIdUploaded := false;
      secondaryIdsUploaded := 0;
    }

    /** clean: with a birth date, senior status is set exactly when the customer is 60
        or older on `today`; without one it is left alone. */
    method Clean(today: Date)
      modifies this`isSeniorCitizen
      ensures dateOfBirth.Some? ==> (isSeniorCitizen <==> AgeOn(dateOfBirth.value, today) >= 60)
      ensures dateOfBirth.None? ==> isSeniorCitizen == old(isSeniorCitizen)
    {
      if dateOfBirth.Some? {
        var age := AgeOn(dateOfBirth.value, today);
        if age >= 60 {
          isSeniorCitizen := true;
        } else {
          isSeniorCitizen := false;
        }
      }
    }

    predicate IsEligibleForSeniorDiscount()
      reads this
    {
      isSeniorCitizen && isIdentityVerified
    }

    /** The senior discount under RA 9994: 20 percent for an eligible customer, else none. */
    function SeniorDiscountPercentage(): (r: nat)
      reads this
      ensures r == 20 <==> isSeniorCitizen && isIdentityVerified
      ensures r == 0 <==> !(isSeniorCitizen && isIdentityVerified)
    {
      if IsEligibleForSeniorDiscount() then 20 else 0
    }

    /** One primary ID, or at least two secondary IDs. */
    function MeetsVerificationRequirements(): (r: bool)
      reads this
      ensures r <==> primaryIdUploaded || secondaryIdsUploaded >= 2
    {
      if primaryIdUploaded then true else secondaryIdsUploaded >= 2
    }

    predicate CanBeVerified()
      reads this, user
    {
      MeetsVerificationRequirements() && user.IsVerified()
    }
  }

  // ---------------------------------------------------------------------------
  // Pharmacy profile
  // ---------------------------------------------------------------------------

  datatype PharmacyCleanError = BusinessPermitExpired | PharmacyLicenseExpired

  class Pharmacy {
    const user: User
    var businessPermitExpiry: Option<Date>
    var pharmacyLicenseExpiry: Option<Date>
    var ownerPrimaryIdUploaded: bool
    var businessPermitUploaded: bool
    var pharmacyLicenseUploaded: bool
    var storefrontImageUploaded: bool

    constructor (user: User)
      ensures this.user == user && businessPermitExpiry == None && pharmacyLicenseExpiry == None
      ensures !ownerPrimaryIdUploaded && !businessPermitUploaded && !pharmacyLicenseUploaded && !storefrontImageUploaded
    {
      this.user := user;
      businessPermitExpiry := None;
      pharmacyLicenseExpiry := None;
      ownerPrimaryIdUploaded := false;
      businessPermitUploaded := false;
      pharmacyLicenseUploaded := false;
      storefrontImageUploaded := false;
    }

    /** is_expired: a recorded permit or licence expiry lies before `today`. */
    predicate IsExpired(today: Date)
      reads this
    {
      (businessPermitExpiry.Some? && DateBefore(businessPermitExpiry.value, today))
      || (pharmacyLicenseExpiry.Some? && DateBefore(pharmacyLicenseExpiry.value, today))
    }

    /** clean: refuse an expired business permit, then an expired licence. It passes
        exactly when the pharmacy is not expired. */
    function Clean(today: Date): (r: Outcome<PharmacyCleanError>)
      reads this
      ensures r.Pass? <==> !IsExpired(today)
      ensures businessPermitExpiry.Some? && DateBefore(businessPermitExpiry.value, today) ==> r == Fail(BusinessPermitExpired)
    {
      if businessPermitExpiry.Some? && DateBefore(businessPermitExpiry.value, today) then Fail(BusinessPermitExpired)
      else if pharmacyLicenseExpiry.Some? && DateBefore(pharmacyLicenseExpiry.value, today) then Fail(PharmacyLicenseExpired)
      else Pass
    }

    /** All four uploads are required. */
    predicate MeetsVerificationRequirements()
      reads this
    {
      ownerPrimaryIdUploaded && businessPermitUploaded && pharmacyLicenseUploaded && storefrontImageUploaded
    }

    /** can_be_verified: all uploads, a verified owner account, and nothing expired. */
    function CanBeVerified(today: Date): (r: bool)
      reads this, user
      ensures r ==> Clean(today).Pass?
      ensures r <==> MeetsVerificationRequirements() && user.IsVerified() && !IsExpired(today)
    {
      MeetsVerificationRequirements() && user.IsVerified() && !IsExpired(today)
    }
  }

  // ---------------------------------------------------------------------------
  // Rider profile
  // ---------------------------------------------------------------------------

  datatype VehicleType = Motorcycle | Bicycle | Car | Scooter | OtherVehicle

  /** Motorised vehicles, for which a driver's licence is required. */
  predicate NeedsDriversLicense(v: VehicleType)
  {
    v == Motorcycle || v == Car || v == Scooter
  }

  datatype RiderError = Underage | PlateNumberRequired | AgeUnknown

  /** The running average after one more rating: (avg * n + rating) / (n + 1). */
  function RunningAverage(avg: real, n: nat, rating: real): real
  {
    (avg * n as real + rating) / (n as real + 1.0)
  }

  /** A rating inside a range keeps an average inside that range. */
  lemma RunningAverageBounded(avg: real, n: nat, rating: real, lo: real, hi: real)
    requires lo <= avg <= hi && lo <= rating <= hi
    ensures lo <= RunningAverage(avg, n, rating) <= hi
  {
    var k := n as real;
    assert avg * k <= hi * k && lo * k <= avg * k by {
      assert k >= 0.0;
    }
    assert lo * (k + 1.0) <= avg * k + rating <= hi * (k + 1.0);
  }

  class Rider {
    const user: User
    var dateOfBirth: Option<Date>
    var vehicleType: VehicleType
    var plateNumber: Option<string>
    var primaryIdUploaded: bool
    var driversLicenseUploaded: bool
    var psaBirthCertificateUploaded: bool
    var totalDeliveries: nat
    var averageRating: real
    var totalEarnings: real

    constructor (user: User, dateOfBirth: Option<Date>, vehicleType: VehicleType, plateNumber: Option<string>)
      ensures this.user == user && this.dateOfBirth == dateOfBirth && this.vehicleType == vehicleType
      ensures this.plateNumber == plateNumber
      ensures !primaryIdUploaded && !driversLicenseUploaded && !psaBirthCertificateUploaded
      ensures totalDeliveries == 0 && averageRating == 0.0 && totalEarnings == 0.0
    {
      this.user := user;
      this.dateOfBirth := dateOfBirth;
      this.vehicleType := vehicleType;
      this.plateNumber := plateNumber;
      primaryIdUploaded := false;
      driversLicenseUploaded := false;
      psaBirthCertificateUploaded := false;
      totalDeliveries := 0;
      averageRating := 0.0;
      totalEarnings := 0.0;
    }

    /** clean: a rider with a birth date must be 18 or older, and a motorcycle needs a
        plate number. */
    function Clean(today: Date): (r: Outcome<RiderError>)
      reads this
      ensures r.Pass? <==> (dateOfBirth.Some? ==> AgeOn(dateOfBirth.value, today) >= 18)
                           && (vehicleType == Motorcycle ==> Truthy(plateNumber))
      ensures r.Fail? ==> r.error != AgeUnknown
    {
      if dateOfBirth.Some? && AgeOn(dateOfBirth.value, today) < 18 then Fail(Underage)
      else if vehicleType == Motorcycle && !Truthy(plateNumber) then Fail(PlateNumberRequired)
      else Pass
    }

    /** The primary ID and PSA birth certificate, plus a driver's licence for a motorised vehicle. */
    function MeetsVerificationRequirements(): (r: bool)
      reads this
      ensures r <==> primaryIdUploaded && psaBirthCertificateUploaded
                     && (NeedsDriversLicense(vehicleType) ==> driversLicenseUploaded)
    {
      var base := primaryIdUploaded && psaBirthCertificateUploaded;
      if NeedsDriversLicense(vehicleType) then base && driversLicenseUploaded else base
    }

    /** can_be_verified: requirements, a verified account, and age 18 or more. Without a
        birth date the age comparison fails outright once the first two hold. */
    function CanBeVerified(today: Date): (r: Result<bool, RiderError>)
      reads this, user
      ensures r.Err? <==> MeetsVerificationRequirements() && user.IsVerified() && dateOfBirth.None?
      ensures r == Ok(true) <==> MeetsVerificationRequirements() && user.IsVerified()
                                 && dateOfBirth.Some? && AgeOn(dateOfBirth.value, today) >= 18
    {
      if !MeetsVerificationRequirements() then Ok(false)
      else if !user.IsVerified() then Ok(false)
      else if dateOfBirth.None? then Err(AgeUnknown)
      else Ok(AgeOn(dateOfBirth.value, today) >= 18)
    }

    /** update_performance_metrics: a rating is folded into the running average and
        counts one more delivery (the rating total grows by exactly that rating);
        earnings are added. */
    method UpdatePerformanceMetrics(rating: Option<real>, earnings: Option<real>)
      modifies this`totalDeliveries, this`averageRating, this`totalEarnings
      ensures rating.Some? ==> totalDeliveries == old(totalDeliveries) + 1
                               && averageRating == RunningAverage(old(averageRating), old(totalDeliveries), rating.value)
                               && averageRating * totalDeliveries as real
                                  == old(averageRating) * old(totalDeliveries) as real + rating.value
      ensures rating.None? ==> totalDeliveries == old(totalDeliveries) && averageRating == old(averageRating)
      ensures totalEarnings == old(totalEarnings) + (if earnings.Some? then earnings.value else 0.0)
    {
      if rating.Some? {
        var totalRating := averageRating * totalDeliveries as real + rating.value;
        totalDeliveries := totalDeliveries + 1;
        averageRating := totalRating / totalDeliveries as real;
      }
      if earnings.Some? {
        totalEarnings := totalEarnings + earnings.value;
      }
    }
  }

  /** A rider the verification rule accepts also passes the age part of clean. */
  lemma VerifiedRiderIsAdult(r: Rider, today: Date)
    requires r.CanBeVerified(today) == Ok(true)
    ensures r.dateOfBirth.Some? && AgeOn(r.dateOfBirth.value, today) >= 18
  {
  }
}
