// The two login backends. The password backend normalises the identifier, picks
// the lookup field from its shape, and keeps a failed-attempt counter that locks the
// account for fifteen minutes after the fifth failure; the phone backend accepts a
// one-shot verification code.

module Authentication {
  import opened Common
  import opened Users

  /** How long the password backend locks an account: fifteen minutes. */
  const AuthLockoutSeconds: int := 15 * 60

  /** The failure count at which the password backend locks the account. */
  const MaxFailedAttempts: nat := 5

  // ---------------------------------------------------------------------------
  // Identifiers
  // ---------------------------------------------------------------------------

  predicate DigitsN(s: string, n: nat) { |s| == n && AllDigits(s) }

  /** The login phone pattern: an optional '+', then 63, then exactly nine digits. */
  predicate IsLoginPhone(s: string)
  {
    (HasPrefix(s, "+63") && DigitsN(s[3..], 9)) || (HasPrefix(s, "63") && DigitsN(s[2..], 9))
  }

  /** The normalisation pattern: the login phone pattern, or 0 then nine digits. */
  predicate IsPhoneShaped(s: string)
  {
    IsLoginPhone(s) || (HasPrefix(s, "0") && DigitsN(s[1..], 9))
  }

  /** A phone-shaped string normalises to 63 followed by its last nine digits. */
  lemma PhoneShapedNormalizes(t: string)
    requires IsPhoneShaped(t)
    ensures |t| >= 9 && NormalizePhone(t) == "63" + t[|t| - 9..]
  {
    if HasPrefix(t, "+63") && DigitsN(t[3..], 9) {
      assert t[1..] == "63" + t[3..];
      assert AllDigits(t[1..]);
      DigitsOfAllDigits(t[1..]);
      assert DigitsOf(t) == DigitsOf(t[1..]);
      assert DigitsOf(t)[0] == '6';
    } else if HasPrefix(t, "63") && DigitsN(t[2..], 9) {
      assert t == "63" + t[2..];
      assert AllDigits(t);
      DigitsOfAllDigits(t);
      assert t[0] == '6';
    } else {
      assert t == "0" + t[1..];
      assert AllDigits(t);
      DigitsOfAllDigits(t);
    }
  }

  /** _normalize_identifier: None for an empty identifier; otherwise stripped and
      lower-cased, and a phone-shaped result becomes 63 followed by its nine digits,
      which is the login phone pattern. */
  function NormalizeIdentifier(s: string): (r: Option<string>)
    ensures r.None? <==> s == []
    ensures r.Some? && IsPhoneShaped(Lower(Strip(s))) ==>
              var t := Lower(Strip(s)); r.value == "63" + t[|t| - 9..] && IsLoginPhone(r.value) && AllDigits(r.value)
    ensures r.Some? && !IsPhoneShaped(Lower(Strip(s))) ==> r.value == Lower(Strip(s))
  {
    if s == [] then None
    else
      var t := Lower(Strip(s));
      if IsPhoneShaped(t) then
        PhoneShapedNormalizes(t);
        var p := NormalizePhone(t);
        assert p[2..] == t[|t| - 9..];
        Some(p)
      else Some(t)
  }

  datatype LookupField = ByEmail | ByPhone | ByUsername

  /** The lookup field: email when the identifier has an '@', phone when it matches
      the login phone pattern, username otherwise. */
  function Classify(id: string): (f: LookupField)
    ensures f == ByEmail <==> Contains(id, '@')
    ensures f == ByPhone <==> !Contains(id, '@') && IsLoginPhone(id)
    ensures f == ByUsername <==> !Contains(id, '@') && !IsLoginPhone(id)
  {
    if Contains(id, '@') then ByEmail
    else if IsLoginPhone(id) then ByPhone
    else ByUsername
  }

  lemma LowerKeepsNonUpper(s: string)
    requires forall i :: 0 <= i < |s| ==> !IsUpper(s[i])
    ensures Lower(s) == s
  {
  }

  lemma StripKeepsTrimmed(s: string)
    requires s != [] && !IsSpace(s[0]) && !IsSpace(s[|s| - 1])
    ensures Strip(s) == s
  {
  }

  /** Every identifier that looks like a phone number is looked up by phone number. */
  lemma PhoneShapedLookedUpByPhone(s: string)
    requires s != [] && IsPhoneShaped(Lower(Strip(s)))
    ensures Classify(NormalizeIdentifier(s).value) == ByPhone
  {
  }

  /** For a number that is already trimmed and phone-shaped, the password backend and
      the phone backend look up the same key. */
  lemma BackendsAgreeOnPhoneKeys(s: string)
    requires IsPhoneShaped(s)
    ensures NormalizeIdentifier(s) == Some(NormalizePhone(s))
  {
    assert s[0] == '+' || IsDigit(s[0]);
    assert IsDigit(s[|s| - 1]);
    StripKeepsTrimmed(s);
    assert forall i :: 0 <= i < |s| ==> s[i] == '+' || IsDigit(s[i]);
    LowerKeepsNonUpper(s);
  }

  /** 63 followed by ten digits is too long for the phone pattern: such a login name is
      looked up as a username, not as a phone number. */
  lemma TwelveDigitPhoneIsUsername(s: string)
    requires HasPrefix(s, "63") && DigitsN(s[2..], 10)
    ensures NormalizeIdentifier(s) == Some(s) && Classify(s) == ByUsername
  {
    assert s == "63" + s[2..];
    assert AllDigits(s);
    StripKeepsTrimmed(s);
    LowerKeepsNonUpper(s);
    assert s[0] != '+' && s[0] != '0';
  }

  /** The phone login of the backend test, 639123456789, goes to the username lookup. */
  lemma TestPhoneLoginIsUsernameLookup(s: string)
    requires s == "639123456789"
    ensures Classify(NormalizeIdentifier(s).value) == ByUsername
  {
    assert s[..2] == "63";
    assert AllDigits(s[2..]);
    TwelveDigitPhoneIsUsername(s);
  }

  // ---------------------------------------------------------------------------
  // User lookup
  // ---------------------------------------------------------------------------

  /** The user table as seen by the three unique lookups. */
  datatype Directory = Directory(byEmail: map<string, User>, byPhone: map<string, User>, byUsername: map<string, User>)

  /** Each key names the user whose field holds it. */
  predicate Consistent(dir: Directory)
    reads dir.byEmail.Values, dir.byPhone.Values, dir.byUsername.Values
  {
    && (forall k :: k in dir.byEmail ==> dir.byEmail[k].email == Some(k))
    && (forall k :: k in dir.byPhone ==> dir.byPhone[k].phoneNumber == Some(k))
    && (forall k :: k in dir.byUsername ==> dir.byUsername[k].username == Some(k))
  }

  /** User.objects.get on the field the identifier selects; None for DoesNotExist. */
  function Lookup(dir: Directory, id: string): Option<User>
  {
    match Classify(id)
    case ByEmail => if id in dir.byEmail then Some(dir.byEmail[id]) else None
    case ByPhone => if id in dir.byPhone then Some(dir.byPhone[id]) else None
    case ByUsername => if id in dir.byUsername then Some(dir.byUsername[id]) else None
  }

  /** In a consistent table a lookup finds the user whose field equals the identifier. */
  lemma LookupFindsOwner(dir: Directory, id: string)
    requires Consistent(dir) && Lookup(dir, id).Some?
    ensures var u := Lookup(dir, id).value;
            match Classify(id)
            case ByEmail => u.email == Some(id)
            case ByPhone => u.phoneNumber == Some(id)
            case ByUsername => u.username == Some(id)
  {
  }

  /** The user a login name selects, if any. */
  function Target(dir: Directory, username: Option<string>): Option<User>
  {
    if username.None? || username.value == [] then None
    else Lookup(dir, NormalizeIdentifier(username.value).value)
  }

  function Footprint(t: Option<User>): set<User>
  {
    if t.Some? then {t.value} else {}
  }

  // ---------------------------------------------------------------------------
  // The lockout counter
  // ---------------------------------------------------------------------------

  /** The fields the password backend keeps per user. */
  datatype LockState = LockState(attempts: nat, lastFailed: Option<int>, lockedUntil: Option<int>)

  function LockOf(u: User): LockState
    reads u
  {
    LockState(u.failedLoginAttempts, u.lastFailedLogin, u.accountLockedUntil)
  }

  /** _is_account_locked's answer: a lock whose end is not yet past; the end instant
      itself still counts as locked. */
  predicate LockedByBackend(s: LockState, now: int)
  {
    s.lockedUntil.Some? && now <= s.lockedUntil.value
  }

  /** _is_account_locked's side effect: a lock that has run out is cleared together
      with the counter. */
  function ExpireLock(s: LockState, now: int): (r: LockState)
    ensures LockedByBackend(r, now) <==> LockedByBackend(s, now)
    ensures LockedByBackend(s, now) ==> r == s
    ensures r.lastFailed == s.lastFailed
    ensures s.lockedUntil.Some? && !LockedByBackend(s, now) ==> r.attempts == 0 && r.lockedUntil.None?
    ensures s.lockedUntil.None? ==> r == s
  {
    if s.lockedUntil.Some? && now > s.lockedUntil.value then s.(attempts := 0, lockedUntil := None) else s
  }

  /** One password login against a user: the lock check, the active-account check,
      then a reset on the right password or a counted failure on the wrong one. The
      boolean is whether the user is returned. */
  function LoginStep(s: LockState, eligible: bool, matches: bool, now: int): (r: (LockState, bool))
    ensures r.1 <==> !LockedByBackend(s, now) && eligible && matches
    ensures LockedByBackend(s, now) ==> r.0 == s
    ensures !LockedByBackend(s, now) && !eligible ==> r.0 == ExpireLock(s, now)
    ensures r.1 ==> r.0.attempts == 0 && r.0.lockedUntil.None?
    ensures !LockedByBackend(s, now) && eligible && !matches ==>
              r.0.attempts == ExpireLock(s, now).attempts + 1 && r.0.lastFailed == Some(now)
    ensures !LockedByBackend(s, now) && eligible && !matches && r.0.attempts >= MaxFailedAttempts ==>
              r.0.lockedUntil == Some(now + AuthLockoutSeconds)
  {
    if LockedByBackend(s, now) then (s, false)
    else
      var s1 := ExpireLock(s, now);
      if !eligible then (s1, false)
      else if matches then
        (if s1.attempts > 0 then LockState(0, None, None) else s1, true)
      else
        var n := s1.attempts + 1;
        (LockState(n, Some(now), if n >= MaxFailedAttempts then Some(now + AuthLockoutSeconds) else s1.lockedUntil), false)
  }

  /** The counter never passes five: at five the account is locked, and a locked
      account is not counted. */
  predicate LockInv(s: LockState)
  {
    s.attempts < MaxFailedAttempts || (s.attempts == MaxFailedAttempts && s.lockedUntil.Some?)
  }

  lemma LoginStepKeepsInv(s: LockState, eligible: bool, matches: bool, now: int)
    requires LockInv(s)
    ensures LockInv(LoginStep(s, eligible, matches, now).0)
  {
  }

  /** Once locked after the fifth failure, every login in the next fifteen minutes is
      refused, even with the right password. */
  lemma LockoutHolds(s: LockState, matches: bool, now: int, eligible: bool, t: int, later: bool)
    requires !LockedByBackend(s, now) && !matches
    requires LoginStep(s, true, matches, now).0.attempts >= MaxFailedAttempts
    requires now <= t <= now + AuthLockoutSeconds
    ensures !LoginStep(LoginStep(s, true, matches, now).0, eligible, later, t).1
  {
  }

  datatype Attempt = Attempt(now: int, eligible: bool, matches: bool)

  /** A run of password logins against one user. */
  function Replay(s: LockState, attempts: seq<Attempt>): LockState
    decreases |attempts|
  {
    if attempts == [] then s
    else Replay(LoginStep(s, attempts[0].eligible, attempts[0].matches, attempts[0].now).0, attempts[1..])
  }

  lemma {:induction false} ReplayKeepsInv(s: LockState, attempts: seq<Attempt>)
    requires LockInv(s)
    ensures LockInv(Replay(s, attempts))
    decreases |attempts|
  {
    if attempts != [] {
      LoginStepKeepsInv(s, attempts[0].eligible, attempts[0].matches, attempts[0].now);
      ReplayKeepsInv(LoginStep(s, attempts[0].eligible, attempts[0].matches, attempts[0].now).0, attempts[1..]);
    }
  }

  const Fresh: LockState := LockState(0, None, None)

  /** From a fresh account no run of logins records more than five failures, so the
      lockout test's expectation of more than five cannot be met. */
  lemma FailuresNeverExceedFive(attempts: seq<Attempt>)
    ensures Replay(Fresh, attempts).attempts <= MaxFailedAttempts
  {
    ReplayKeepsInv(Fresh, attempts);
  }

  /** The two lockout lengths disagree: an account the backend locked at t accepts the
      right password at t + 15 minutes + 1 second, while a lock taken by
      User.record_failed_login at t still holds then. */
  lemma LockoutLengthsDisagree(t: int)
    ensures AuthLockoutSeconds < ModelLockoutSeconds
    ensures LoginStep(LockState(5, Some(t), Some(t + AuthLockoutSeconds)), true, true, t + AuthLockoutSeconds + 1).1
    ensures t + AuthLockoutSeconds + 1 < t + ModelLockoutSeconds
  {
  }

  /** At the very instant a lock ends the backend still refuses, while
      User.can_login already lets the user in. */
  lemma LockEndInstantDisagrees(u: User, t: int, matches: bool)
    requires u.accountLockedUntil == Some(t) && u.status == Active
    ensures u.CanLogin(t)
    ensures !LoginStep(LockOf(u), true, matches, t).1
  {
  }

  // ---------------------------------------------------------------------------
  // CustomAuthenticationBackend
  // ---------------------------------------------------------------------------

  predicate Eligible(u: User)
    reads u
  {
    u.isActive && u.status == Active
  }

  /** _is_account_locked */
  method IsAccountLocked(u: User, now: int) returns (locked: bool)
    modifies u`accountLockedUntil, u`failedLoginAttempts
    ensures locked <==> LockedByBackend(old(LockOf(u)), now)
    ensures LockOf(u) == if locked then old(LockOf(u)) else ExpireLock(old(LockOf(u)), now)
  {
    if u.accountLockedUntil.None? {
      return false;
    }
    if now > u.accountLockedUntil.value {
      u.accountLockedUntil := None;
      u.failedLoginAttempts := 0;
      return false;
    }
    return true;
  }

  /** _increment_failed_attempts */
  method IncrementFailedAttempts(u: User, now: int)
    modifies u`failedLoginAttempts, u`lastFailedLogin, u`accountLockedUntil
    ensures u.failedLoginAttempts == old(u.failedLoginAttempts) + 1 && u.lastFailedLogin == Some(now)
    ensures u.accountLockedUntil ==
              if u.failedLoginAttempts >= MaxFailedAttempts then Some(now + AuthLockoutSeconds) else old(u.accountLockedUntil)
  {
    u.failedLoginAttempts := u.failedLoginAttempts + 1;
    u.lastFailedLogin := Some(now);
    if u.failedLoginAttempts >= MaxFailedAttempts {
      u.accountLockedUntil := Some(now + AuthLockoutSeconds);
    }
  }

  /** _reset_failed_attempts: only a user with failures is touched. */
  method ResetFailedAttempts(u: User)
    modifies u`failedLoginAttempts, u`lastFailedLogin, u`accountLockedUntil
    ensures LockOf(u) == if old(u.failedLoginAttempts) > 0 then LockState(0, None, None) else old(LockOf(u))
  {
    if u.failedLoginAttempts > 0 {
      u.failedLoginAttempts := 0;
      u.lastFailedLogin := None;
      u.accountLockedUntil := None;
    }
  }

  /** The part of authenticate after the lookup. */
  method CheckPassword(u: User, password: string, now: int) returns (ok: bool)
    modifies u`failedLoginAttempts, u`lastFailedLogin, u`accountLockedUntil
    ensures (LockOf(u), ok) == LoginStep(old(LockOf(u)), Eligible(u), password == u.password, now)
  {
    var locked := IsAccountLocked(u, now);
    if locked {
      return false;
    }
    if !u.isActive || u.status != Active {
      return false;
    }
    if u.password == password {
      ResetFailedAttempts(u);
      return true;
    }
    IncrementFailedAttempts(u, now);
    return false;
  }

  /** authenticate: empty credentials and unknown identifiers give None; otherwise the
      selected user goes through the lockout counter, and only that user changes. */
  method Authenticate(dir: Directory, username: Option<string>, password: Option<string>, now: int)
    returns (r: Option<User>)
    modifies Footprint(Target(dir, username))`failedLoginAttempts, Footprint(Target(dir, username))`lastFailedLogin,
             Footprint(Target(dir, username))`accountLockedUntil
    ensures r.Some? ==> r == Target(dir, username)
    ensures !Truthy(username) || !Truthy(password) || Target(dir, username).None? ==> r.None?
    ensures Truthy(password) && Target(dir, username).Some? ==>
              var u := Target(dir, username).value;
              (LockOf(u), r.Some?) == LoginStep(old(LockOf(u)), Eligible(u), password.value == u.password, now)
  {
    if username.None? || username.value == [] || password.None? || password.value == [] {
      return None;
    }
    var id := NormalizeIdentifier(username.value).value;
    var found := Lookup(dir, id);
    if found.None? {
      return None;
    }
    var ok := CheckPassword(found.value, password.value, now);
    r := if ok then found else None;
  }

  // ---------------------------------------------------------------------------
  // PhoneAuthenticationBackend
  // ---------------------------------------------------------------------------

  /** The stored code equals the given one and has not yet expired. */
  predicate CodeAccepted(stored: Option<string>, expires: Option<int>, given: string, now: int)
  {
    stored == Some(given) && expires.Some? && now < expires.value
  }

  function PhoneTarget(byPhone: map<string, User>, phone: Option<string>): Option<User>
  {
    if phone.None? || phone.value == [] then None
    else
      var key := NormalizePhone(phone.value);
      if key in byPhone then Some(byPhone[key]) else None
  }

  /** authenticate by phone: a matching, unexpired code logs the user in once, marks
      the phone verified and is spent; anything else gives None and changes nothing. */
  method PhoneAuthenticate(byPhone: map<string, User>, phone: Option<string>, code: Option<string>, now: int)
    returns (r: Option<User>)
    modifies Footprint(PhoneTarget(byPhone, phone))`isPhoneVerified,
             Footprint(PhoneTarget(byPhone, phone))`phoneVerificationCode,
             Footprint(PhoneTarget(byPhone, phone))`phoneVerificationExpires
    ensures r.Some? ==> r == PhoneTarget(byPhone, phone)
    ensures r.Some? <==> Truthy(code) && PhoneTarget(byPhone, phone).Some? &&
                         var u := PhoneTarget(byPhone, phone).value;
                         CodeAccepted(old(u.phoneVerificationCode), old(u.phoneVerificationExpires), code.value, now)
    ensures r.Some? ==> r.value.isPhoneVerified && r.value.phoneVerificationCode.None? && r.value.phoneVerificationExpires.None?
    ensures r.Some? ==> forall t :: !CodeAccepted(r.value.phoneVerificationCode, r.value.phoneVerificationExpires, code.value, t)
    ensures r.None? ==> unchanged(Footprint(PhoneTarget(byPhone, phone)))
  {
    if phone.None? || phone.value == [] || code.None? || code.value == [] {
      return None;
    }
    var key := NormalizePhone(phone.value);
    if key !in byPhone {
      return None;
    }
    var u := byPhone[key];
    if u.phoneVerificationCode == code && u.phoneVerificationExpires.Some? && now < u.phoneVerificationExpires.value {
      u.isPhoneVerified := true;
      u.phoneVerificationCode := None;
      u.phoneVerificationExpires := None;
      return Some(u);
    }
    return None;
  }
}
