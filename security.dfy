// Security utilities: the configurable password validator with its weak-pattern
// checks, the attempt-counting rate limiter, and the per-user session counter.
// The process-wide cache is one Cache object that every limiter and session manager
// is handed, so what one instance stores the next one reads; entries do not expire.

module Security {
  import opened Common
  import Users

  datatype PasswordError =
    | TooShort(minLength: int)
    | TooLong(maxLength: int)
    | NoUppercase
    | NoLowercase
    | NoDigit
    | NoSpecial
    | TooCommon
    | SequentialChars
    | RepeatedChars

  /** The fixed list of weak passwords, compared after lower-casing. */
  const CommonPasswords: seq<string> := [
    "password", "123456", "123456789", "qwerty", "abc123",
    "password123", "admin", "letmein", "welcome", "monkey",
    "dragon", "master", "sunshine", "princess", "qwerty123"
  ]

  /** Membership in a list of strings, searched from the front. */
  function Listed(s: string, list: seq<string>): (r: bool)
    ensures r <==> s in list
  {
    if list == [] then false
    else if list[0] == s then true
    else
      var rest := Listed(s, list[1..]);
      assert forall t :: t in list <==> t == list[0] || t in list[1..];
      rest
  }

  predicate AllShorterThan(list: seq<string>, n: int)
  {
    forall i :: 0 <= i < |list| ==> |list[i]| < n
  }

  /** Every listed weak password has at most 11 characters. */
  lemma CommonPasswordsAtMostEleven()
    ensures AllShorterThan(CommonPasswords, 12)
  {
  }

  /** A string longer than every listed one is not listed. */
  lemma NotListedWhenLonger(s: string, list: seq<string>)
    requires AllShorterThan(list, |s|)
    ensures !Listed(s, list)
  {
  }

  /** Three characters from i on, all letters or all digits, each one code point
      above the one before. */
  predicate SequentialAt(pw: string, i: int)
    requires 0 <= i && i + 2 < |pw|
  {
    var a, b, c := pw[i], pw[i + 1], pw[i + 2];
    var ascending := b as int == a as int + 1 && c as int == b as int + 1;
    ((IsAlpha(a) && IsAlpha(b) && IsAlpha(c)) || (IsDigit(a) && IsDigit(b) && IsDigit(c))) && ascending
  }

  predicate HasSequential(pw: string)
  {
    exists i :: 0 <= i && i + 2 < |pw| && SequentialAt(pw, i)
  }

  /** Four equal characters from i on. */
  predicate RepeatedAt(pw: string, i: int)
    requires 0 <= i && i + 3 < |pw|
  {
    pw[i] == pw[i + 1] == pw[i + 2] == pw[i + 3]
  }

  predicate HasRepeated(pw: string)
  {
    exists i :: 0 <= i && i + 3 < |pw| && RepeatedAt(pw, i)
  }

  predicate IsCommonPassword(pw: string)
  {
    Listed(Lower(pw), CommonPasswords)
  }

  /** Which rules a password fails, one flag per rule in the order validate checks them. */
  datatype RuleFailures = RuleFailures(
    tooShort: bool, tooLong: bool, noUpper: bool, noLower: bool, noDigit: bool,
    noSpecial: bool, common: bool, sequential: bool, repeated: bool)

  predicate NoneFailed(f: RuleFailures)
  {
    !f.tooShort && !f.tooLong && !f.noUpper && !f.noLower && !f.noDigit
    && !f.noSpecial && !f.common && !f.sequential && !f.repeated
  }

  /** Whether the rule behind an error kind failed. */
  function Fails(f: RuleFailures, e: PasswordError): bool
  {
    match e
    case TooShort(_) => f.tooShort
    case TooLong(_) => f.tooLong
    case NoUppercase => f.noUpper
    case NoLowercase => f.noLower
    case NoDigit => f.noDigit
    case NoSpecial => f.noSpecial
    case TooCommon => f.common
    case SequentialChars => f.sequential
    case RepeatedChars => f.repeated
  }

  /** Every rule's error, in the order validate checks the rules. */
  function AllRules(minLength: int, maxLength: int): seq<PasswordError>
  {
    [TooShort(minLength), TooLong(maxLength), NoUppercase, NoLowercase, NoDigit, NoSpecial,
     TooCommon, SequentialChars, RepeatedChars]
  }

  /** The errors of the failing rules, order kept. */
  function Select(f: RuleFailures, rules: seq<PasswordError>): (r: seq<PasswordError>)
    ensures forall e :: e in r <==> e in rules && Fails(f, e)
  {
    if rules == [] then []
    else (if Fails(f, rules[0]) then [rules[0]] else []) + Select(f, rules[1..])
  }

  /** Selecting over a list with one more rule appends that rule's error if it failed. */
  lemma {:induction false} SelectAppend(f: RuleFailures, rules: seq<PasswordError>, e: PasswordError)
    ensures Select(f, rules + [e]) == Select(f, rules) + (if Fails(f, e) then [e] else [])
  {
    if rules != [] {
      assert (rules + [e])[1..] == rules[1..] + [e];
      SelectAppend(f, rules[1..], e);
    }
  }

  lemma SelectStep(f: RuleFailures, rules: seq<PasswordError>, k: int)
    requires 0 <= k < |rules|
    ensures Select(f, rules[..k + 1]) == Select(f, rules[..k]) + (if Fails(f, rules[k]) then [rules[k]] else [])
  {
    assert rules[..k + 1] == rules[..k] + [rules[k]];
    SelectAppend(f, rules[..k], rules[k]);
  }

  /** The error list for a set of failures: one error per failing rule, in order. */
  function ErrorList(f: RuleFailures, minLength: int, maxLength: int): seq<PasswordError>
  {
    Select(f, AllRules(minLength, maxLength))
  }

  /** Each rule's error appears in the list exactly when that rule fails: validate
      reports every failing rule at once. */
  lemma ErrorListReportsEachRule(f: RuleFailures, minLength: int, maxLength: int)
    ensures var r := ErrorList(f, minLength, maxLength);
            && (TooShort(minLength) in r <==> f.tooShort)
            && (TooLong(maxLength) in r <==> f.tooLong)
            && (NoUppercase in r <==> f.noUpper) && (NoLowercase in r <==> f.noLower)
            && (NoDigit in r <==> f.noDigit) && (NoSpecial in r <==> f.noSpecial)
            && (TooCommon in r <==> f.common) && (SequentialChars in r <==> f.sequential)
            && (RepeatedChars in r <==> f.repeated)
  {
    ReportsLengthRules(f, minLength, maxLength);
    ReportsClassRules(f, minLength, maxLength);
    ReportsPatternRules(f, minLength, maxLength);
  }

  lemma ReportsLengthRules(f: RuleFailures, minLength: int, maxLength: int)
    ensures var r := ErrorList(f, minLength, maxLength);
            && (TooShort(minLength) in r <==> f.tooShort)
            && (TooLong(maxLength) in r <==> f.tooLong)
  {
    var rules := AllRules(minLength, maxLength);
    assert rules[0] == TooShort(minLength) && rules[1] == TooLong(maxLength);
  }

  lemma ReportsClassRules(f: RuleFailures, minLength: int, maxLength: int)
    ensures var r := ErrorList(f, minLength, maxLength);
            && (NoUppercase in r <==> f.noUpper) && (NoLowercase in r <==> f.noLower)
            && (NoDigit in r <==> f.noDigit) && (NoSpecial in r <==> f.noSpecial)
  {
    var rules := AllRules(minLength, maxLength);
    assert rules[2] == NoUppercase && rules[3] == NoLowercase && rules[4] == NoDigit && rules[5] == NoSpecial;
  }

  lemma ReportsPatternRules(f: RuleFailures, minLength: int, maxLength: int)
    ensures var r := ErrorList(f, minLength, maxLength);
            && (TooCommon in r <==> f.common) && (SequentialChars in r <==> f.sequential)
            && (RepeatedChars in r <==> f.repeated)
  {
    var rules := AllRules(minLength, maxLength);
    assert rules[6] == TooCommon && rules[7] == SequentialChars && rules[8] == RepeatedChars;
  }

  /** The list is empty exactly when no rule failed: validate raises iff some rule fails. */
  lemma ErrorListEmptyIff(f: RuleFailures, minLength: int, maxLength: int)
    ensures ErrorList(f, minLength, maxLength) == [] <==> NoneFailed(f)
  {
    ErrorListReportsEachRule(f, minLength, maxLength);
    var r := ErrorList(f, minLength, maxLength);
    if r != [] {
      assert r[0] in r;
    }
  }

  class PasswordValidator {
    const minLength: int
    const maxLength: int
    const requireUppercase: bool
    const requireLowercase: bool
    const requireDigits: bool
    const requireSpecial: bool

    constructor (minLength: int, maxLength: int, requireUppercase: bool, requireLowercase: bool,
                 requireDigits: bool, requireSpecial: bool)
      ensures this.minLength == minLength && this.maxLength == maxLength
      ensures this.requireUppercase == requireUppercase && this.requireLowercase == requireLowercase
      ensures this.requireDigits == requireDigits && this.requireSpecial == requireSpecial
    {
      this.minLength := minLength;
      this.maxLength := maxLength;
      this.requireUppercase := requireUppercase;
      this.requireLowercase := requireLowercase;
      this.requireDigits := requireDigits;
      this.requireSpecial := requireSpecial;
    }

    /** The default configuration: 8 to 128 characters, every character class required. */
    predicate IsDefault()
    {
      minLength == 8 && maxLength == 128
      && requireUppercase && requireLowercase && requireDigits && requireSpecial
    }

    /** The rules the password fails under this configuration. */
    function Failures(pw: string): RuleFailures
    {
      RuleFailures(
        |pw| < minLength,
        |pw| > maxLength,
        requireUppercase && !Users.HasUpper(pw),
        requireLowercase && !Users.HasLower(pw),
        requireDigits && !Users.HasDigit(pw),
        requireSpecial && !Users.HasSpecial(pw),
        IsCommonPassword(pw),
        HasSequential(pw),
        HasRepeated(pw))
    }

    /** Every rule the password passes. */
    predicate Acceptable(pw: string)
    {
      minLength <= |pw| <= maxLength
      && (requireUppercase ==> Users.HasUpper(pw))
      && (requireLowercase ==> Users.HasLower(pw))
      && (requireDigits ==> Users.HasDigit(pw))
      && (requireSpecial ==> Users.HasSpecial(pw))
      && !IsCommonPassword(pw) && !HasSequential(pw) && !HasRepeated(pw)
    }

    /** _has_sequential_chars: the index loop over every window of three. */
    method HasSequentialChars(pw: string) returns (b: bool)
      ensures b <==> HasSequential(pw)
    {
      if |pw| < 3 {
        return false;
      }
      var i := 0;
      while i < |pw| - 2
        invariant 0 <= i <= |pw| - 2
        invariant forall j :: 0 <= j < i ==> !SequentialAt(pw, j)
      {
        var a, b1, c := pw[i], pw[i + 1], pw[i + 2];
        if IsAlpha(a) && IsAlpha(b1) && IsAlpha(c) {
          if b1 as int == a as int + 1 && c as int == b1 as int + 1 {
            assert SequentialAt(pw, i);
            return true;
          }
        }
        if IsDigit(a) && IsDigit(b1) && IsDigit(c) {
          if b1 as int == a as int + 1 && c as int == b1 as int + 1 {
            assert SequentialAt(pw, i);
            return true;
          }
        }
        i := i + 1;
      }
      return false;
    }

    /** _has_repeated_chars: the index loop over every window of four. */
    method HasRepeatedChars(pw: string) returns (b: bool)
      ensures b <==> HasRepeated(pw)
    {
      if |pw| < 4 {
        return false;
      }
      var i := 0;
      while i < |pw| - 3
        invariant 0 <= i <= |pw| - 3
        invariant forall j :: 0 <= j < i ==> !RepeatedAt(pw, j)
      {
        if pw[i] == pw[i + 1] && pw[i + 1] == pw[i + 2] && pw[i + 2] == pw[i + 3] {
          assert RepeatedAt(pw, i);
          return true;
        }
        i := i + 1;
      }
      return false;
    }

    /** validate: the error of every failing rule, in the order the rules are checked.
        It raises exactly when this list is not empty, that is when some rule fails,
        and the list names each failing rule. */
    function Validate(pw: string): (errors: seq<PasswordError>)
      ensures errors == [] <==> Acceptable(pw)
      ensures TooShort(minLength) in errors <==> |pw| < minLength
      ensures TooLong(maxLength) in errors <==> |pw| > maxLength
      ensures NoUppercase in errors <==> requireUppercase && !Users.HasUpper(pw)
      ensures NoLowercase in errors <==> requireLowercase && !Users.HasLower(pw)
      ensures NoDigit in errors <==> requireDigits && !Users.HasDigit(pw)
      ensures NoSpecial in errors <==> requireSpecial && !Users.HasSpecial(pw)
      ensures TooCommon in errors <==> IsCommonPassword(pw)
      ensures SequentialChars in errors <==> HasSequential(pw)
      ensures RepeatedChars in errors <==> HasRepeated(pw)
    {
      var f := Failures(pw);
      ErrorListReportsEachRule(f, minLength, maxLength);
      ErrorListEmptyIff(f, minLength, maxLength);
      NoneFailedIffAcceptable(pw);
      ErrorList(f, minLength, maxLength)
    }

    /** No rule fails exactly when the password is acceptable. */
    lemma NoneFailedIffAcceptable(pw: string)
      ensures NoneFailed(Failures(pw)) <==> Acceptable(pw)
    {
    }
  }

  /** The default validator accepts only passwords the account model calls strong. */
  lemma DefaultAcceptanceIsStrong(v: PasswordValidator, pw: string)
    requires v.IsDefault() && v.Acceptable(pw)
    ensures Users.IsStrongPassword(pw)
  {
  }

  /** Any password containing "123" fails the sequential rule. */
  lemma ContainsOneTwoThreeIsSequential(pw: string, i: int)
    requires 0 <= i && i + 2 < |pw| && pw[i] == '1' && pw[i + 1] == '2' && pw[i + 2] == '3'
    ensures HasSequential(pw)
  {
    assert SequentialAt(pw, i);
  }

  /** 'StrongPass123!' fails the default validator, with the sequential rule as the
      only complaint, although the users' test-suite expects it to pass. */
  lemma StrongPass123Rejected(v: PasswordValidator, pw: string)
    requires v.IsDefault() && pw == "StrongPass123!"
    ensures v.Validate(pw) == [SequentialChars]
  {
    var f := RuleFailures(false, false, false, false, false, false, false, true, false);
    StrongPass123Failures(v, pw);
    OnlySequentialFailed(f, 8, 128);
  }

  /** Of the default rules, 'StrongPass123!' fails only the sequential one ("123"). */
  lemma StrongPass123Failures(v: PasswordValidator, pw: string)
    requires v.IsDefault() && pw == "StrongPass123!"
    ensures v.Failures(pw) == RuleFailures(false, false, false, false, false, false, false, true, false)
  {
    StrongPass123Classes(pw);
    StrongPass123Patterns(pw);
  }

  lemma StrongPass123Classes(pw: string)
    requires pw == "StrongPass123!"
    ensures |pw| == 14
    ensures Users.HasUpper(pw) && Users.HasLower(pw) && Users.HasDigit(pw) && Users.HasSpecial(pw)
  {
    assert IsUpper(pw[0]) && IsLower(pw[1]) && IsDigit(pw[10]);
    assert pw[13] in Users.SpecialChars;
  }

  lemma StrongPass123Patterns(pw: string)
    requires pw == "StrongPass123!"
    ensures !IsCommonPassword(pw) && HasSequential(pw) && !HasRepeated(pw)
  {
    CommonPasswordsAtMostEleven();
    NotListedWhenLonger(Lower(pw), CommonPasswords);
    ContainsOneTwoThreeIsSequential(pw, 10);
    StrongPass123NoRepeats(pw);
  }

  lemma StrongPass123NoRepeats(pw: string)
    requires pw == "StrongPass123!"
    ensures !HasRepeated(pw)
  {
    forall i | 0 <= i && i + 3 < |pw|
      ensures !RepeatedAt(pw, i)
    {
    }
  }

  /** With only the sequential rule failing, the list holds that one error. */
  lemma OnlySequentialFailed(f: RuleFailures, minLength: int, maxLength: int)
    requires f == RuleFailures(false, false, false, false, false, false, false, true, false)
    ensures ErrorList(f, minLength, maxLength) == [SequentialChars]
  {
    var rules := AllRules(minLength, maxLength);
    var tail := [SequentialChars, RepeatedChars];
    assert Select(f, tail) == [SequentialChars] by {
      assert tail[1..] == [RepeatedChars];
      assert Select(f, [RepeatedChars]) == [] by {
        assert [RepeatedChars][1..] == [];
      }
    }
    SelectSkipsPrefix(f, rules[..7], tail);
    assert rules == rules[..7] + tail;
  }

  /** Rules that all passed contribute nothing in front of the rest. */
  lemma {:induction false} SelectSkipsPrefix(f: RuleFailures, passed: seq<PasswordError>, rest: seq<PasswordError>)
    requires forall i :: 0 <= i < |passed| ==> !Fails(f, passed[i])
    ensures Select(f, passed + rest) == Select(f, rest)
  {
    if passed == [] {
      assert passed + rest == rest;
    } else {
      assert (passed + rest)[0] == passed[0];
      assert (passed + rest)[1..] == passed[1..] + rest;
      SelectSkipsPrefix(f, passed[1..], rest);
    }
  }

  // ---------------------------------------------------------------------------
  // Rate limiting
  // ---------------------------------------------------------------------------

  /** The process-wide cache. Its three key families are kept apart: attempt counters
      under "prefix:action:identifier", per-user session counts under
      "user_sessions:<id>" (keyed here by the id), and session records under
      "session:<key>" (here the record's expiry). */
  class Cache {
    var attempts: map<string, int>
    var sessionCounts: map<int, int>
    var sessions: map<string, int>

    constructor ()
      ensures attempts == map[] && sessionCounts == map[] && sessions == map[]
    {
      attempts := map[];
      sessionCounts := map[];
      sessions := map[];
    }
  }

  class RateLimiter {
    const cache: Cache
    const keyPrefix: string
    const maxAttempts: int
    const windowMinutes: int

    /** A limiter only keeps its settings; the counts live in the shared cache. */
    constructor (cache: Cache, keyPrefix: string, maxAttempts: int, windowMinutes: int)
      ensures this.cache == cache && this.keyPrefix == keyPrefix && this.maxAttempts == maxAttempts
      ensures this.windowMinutes == windowMinutes
    {
      this.cache := cache;
      this.keyPrefix := keyPrefix;
      this.maxAttempts := maxAttempts;
      this.windowMinutes := windowMinutes;
    }

    /** The cache key "prefix:action:identifier". */
    function Key(identifier: string, action: string): string
    {
      keyPrefix + ":" + action + ":" + identifier
    }

    /** The stored count, 0 when absent. */
    function Count(key: string): int
      reads cache
    {
      if key in cache.attempts then cache.attempts[key] else 0
    }

    /** is_allowed: fewer attempts than the maximum. */
    function IsAllowed(identifier: string, action: string): (r: bool)
      reads cache
      ensures r <==> Count(Key(identifier, action)) < maxAttempts
    {
      !(Count(Key(identifier, action)) >= maxAttempts)
    }

    /** increment: store and return the count plus one; other keys are untouched. */
    method Increment(identifier: string, action: string) returns (n: int)
      modifies cache`attempts
      ensures n == old(Count(Key(identifier, action))) + 1
      ensures cache.attempts == old(cache.attempts)[Key(identifier, action) := n]
      ensures IsAllowed(identifier, action) <==> n < maxAttempts
    {
      var key := Key(identifier, action);
      var attempts := Count(key);
      cache.attempts := cache.attempts[key := attempts + 1];
      n := attempts + 1;
    }

    /** reset: drop the key, so the count reads 0 again. */
    method Reset(identifier: string, action: string)
      modifies cache`attempts
      ensures cache.attempts == old(cache.attempts) - {Key(identifier, action)}
      ensures Count(Key(identifier, action)) == 0
      ensures IsAllowed(identifier, action) <==> maxAttempts > 0
    {
      cache.attempts := cache.attempts - {Key(identifier, action)};
    }
  }

  /** Every JWT token manager builds its own "jwt_auth" limiter (ten attempts in fifteen
      minutes). Because the counts live in the shared cache, a limiter built later sees
      the attempt an earlier one counted, and refuses once the maximum is reached. */
  method LimiterPerRequest(cache: Cache, identifier: string, action: string) returns (allowed: bool)
    modifies cache`attempts
    ensures var key := "jwt_auth" + ":" + action + ":" + identifier;
            && cache.attempts == old(cache.attempts)[key := old(if key in cache.attempts then cache.attempts[key] else 0) + 1]
            && (allowed <==> cache.attempts[key] < 10)
  {
    var first := new RateLimiter(cache, "jwt_auth", 10, 15);
    var _ := first.Increment(identifier, action);
    var second := new RateLimiter(cache, "jwt_auth", 10, 15);
    allowed := second.IsAllowed(identifier, action);
  }

  // ---------------------------------------------------------------------------
  // Session counting
  // ---------------------------------------------------------------------------

  /** The session count after add_session. */
  function AfterAdd(count: int): int { count + 1 }

  /** The session count after remove_session: never below zero. */
  function AfterRemove(count: int): (r: int)
    ensures count >= 0 ==> r >= 0
    ensures count > 0 ==> r == count - 1
    ensures count <= 0 ==> r == count
  {
    if count > 0 then count - 1 else count
  }

  /** Adding then removing a session restores a non-negative count. */
  lemma AddThenRemove(count: int)
    requires count >= 0
    ensures AfterRemove(AfterAdd(count)) == count
  {
  }

  class SessionManager {
    const cache: Cache
    const maxSessionsPerUser: int
    const sessionTimeoutHours: int

    /** A manager only keeps its settings; counts and records live in the shared cache. */
    constructor (cache: Cache, maxSessionsPerUser: int, sessionTimeoutHours: int)
      ensures this.cache == cache
      ensures this.maxSessionsPerUser == maxSessionsPerUser && this.sessionTimeoutHours == sessionTimeoutHours
    {
      this.cache := cache;
      this.maxSessionsPerUser := maxSessionsPerUser;
      this.sessionTimeoutHours := sessionTimeoutHours;
    }

    /** Every stored count is non-negative. */
    predicate Valid()
      reads cache
    {
      forall u :: u in cache.sessionCounts ==> cache.sessionCounts[u] >= 0
    }

    /** get_active_sessions: the stored count, 0 when absent. */
    function ActiveSessions(userId: int): (r: int)
      reads cache
      ensures Valid() ==> r >= 0
    {
      if userId in cache.sessionCounts then cache.sessionCounts[userId] else 0
    }

    /** can_create_session: fewer sessions than the cap. */
    function CanCreateSession(userId: int): (r: bool)
      reads cache
      ensures r <==> ActiveSessions(userId) < maxSessionsPerUser
    {
      ActiveSessions(userId) < maxSessionsPerUser
    }

    /** add_session: record the session's expiry and count it, without checking the cap. */
    method AddSession(userId: int, sessionKey: string, now: int)
      requires Valid()
      modifies cache`sessionCounts, cache`sessions
      ensures Valid()
      ensures cache.sessions == old(cache.sessions)[sessionKey := now + sessionTimeoutHours * 3600]
      ensures cache.sessionCounts == old(cache.sessionCounts)[userId := AfterAdd(old(ActiveSessions(userId)))]
    {
      var current := ActiveSessions(userId);
      cache.sessions := cache.sessions[sessionKey := now + sessionTimeoutHours * 3600];
      cache.sessionCounts := cache.sessionCounts[userId := current + 1];
    }

    /** remove_session: forget the session and count one fewer, never below zero. */
    method RemoveSession(userId: int, sessionKey: string)
      requires Valid()
      modifies cache`sessionCounts, cache`sessions
      ensures Valid()
      ensures cache.sessions == old(cache.sessions) - {sessionKey}
      ensures ActiveSessions(userId) == AfterRemove(old(ActiveSessions(userId)))
      ensures forall u :: u != userId ==> ActiveSessions(u) == old(ActiveSessions(u))
    {
      var current := ActiveSessions(userId);
      cache.sessions := cache.sessions - {sessionKey};
      if current > 0 {
        cache.sessionCounts := cache.sessionCounts[userId := current - 1];
      }
    }
  }
}
