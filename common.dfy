// Shared vocabulary: optional values, validation outcomes, and the few
// Python string operations the backend relies on (restricted to ASCII).

module Common {

  datatype Option<T> = None | Some(value: T)

  /** A value accepted by a validator, or the reason it was refused. */
  datatype Result<T, E> = Ok(value: T) | Err(error: E)
  {
    predicate IsOk() { Ok? }
  }

  /** A check that either passes or fails with a reason. */
  datatype Outcome<E> = Pass | Fail(error: E)

  // ---------------------------------------------------------------------------
  // Characters (ASCII view of Python's str predicates)
  // ---------------------------------------------------------------------------

  /** Python's str.isspace on the ASCII range: \t, \n, \v, \f, \r, the four
      separators \x1c-\x1f, and space. This is the set str.strip() removes. */
  predicate IsSpace(c: char)
  {
    c == ' ' || '\t' <= c <= '\r' || '\U{001C}' <= c <= '\U{001F}'
  }

  /** The narrower set C's isspace recognises (no \x1c-\x1f); int() skips only
      these around a number. */
  predicate IsCSpace(c: char)
  {
    c == ' ' || '\t' <= c <= '\r'
  }

  predicate IsUpper(c: char) { 'A' <= c <= 'Z' }
  predicate IsLower(c: char) { 'a' <= c <= 'z' }
  predicate IsDigit(c: char) { '0' <= c <= '9' }
  predicate IsAlpha(c: char) { IsUpper(c) || IsLower(c) }

  function ToLowerChar(c: char): (r: char)
    ensures IsUpper(c) ==> IsLower(r)
    ensures !IsUpper(c) ==> r == c
  {
    if IsUpper(c) then (c as int + 32) as char else c
  }

  function ToUpperChar(c: char): (r: char)
    ensures IsLower(c) ==> IsUpper(r)
    ensures !IsLower(c) ==> r == c
  {
    if IsLower(c) then (c as int - 32) as char else c
  }

  /** str.lower() */
  function Lower(s: string): (r: string)
    ensures |r| == |s|
    ensures forall i :: 0 <= i < |s| ==> r[i] == ToLowerChar(s[i])
  {
    if s == [] then [] else [ToLowerChar(s[0])] + Lower(s[1..])
  }

  /** str.upper() */
  function Upper(s: string): (r: string)
    ensures |r| == |s|
    ensures forall i :: 0 <= i < |s| ==> r[i] == ToUpperChar(s[i])
  {
    if s == [] then [] else [ToUpperChar(s[0])] + Upper(s[1..])
  }

  // ---------------------------------------------------------------------------
  // Stripping
  // ---------------------------------------------------------------------------

  /** Drops the leading characters that `ws` classes as white space. */
  function StripLeftBy(s: string, ws: char -> bool): (r: string)
    ensures |r| <= |s|
  {
    if s != [] && ws(s[0]) then StripLeftBy(s[1..], ws) else s
  }

  /** Drops the trailing characters that `ws` classes as white space. */
  function StripRightBy(s: string, ws: char -> bool): (r: string)
    ensures |r| <= |s|
  {
    if s != [] && ws(s[|s| - 1]) then StripRightBy(s[..|s| - 1], ws) else s
  }

  /** StripLeftBy drops a run of leading white space and stops at a non-space. */
  lemma {:induction false} StripLeftShape(s: string, ws: char -> bool)
    ensures var r := StripLeftBy(s, ws);
            && r == s[|s| - |r|..] && (r == [] || !ws(r[0]))
            && forall i :: 0 <= i < |s| - |r| ==> ws(s[i])
  {
    if s != [] && ws(s[0]) {
      StripLeftShape(s[1..], ws);
    }
  }

  /** StripRightBy drops a run of trailing white space and stops at a non-space. */
  lemma {:induction false} StripRightShape(s: string, ws: char -> bool)
    ensures var r := StripRightBy(s, ws);
            && r == s[..|r|] && (r == [] || !ws(r[|r| - 1]))
            && forall i :: |r| <= i < |s| ==> ws(s[i])
  {
    if s != [] && ws(s[|s| - 1]) {
      StripRightShape(s[..|s| - 1], ws);
    }
  }

  /** Strips both ends with the white-space class `ws`. */
  function StripBy(s: string, ws: char -> bool): string
  {
    StripRightBy(StripLeftBy(s, ws), ws)
  }

  /** str.strip() */
  function Strip(s: string): string
  {
    StripBy(s, IsSpace)
  }

  /** The stripping int() does before reading a number. */
  function IntStrip(s: string): string
  {
    StripBy(s, IsCSpace)
  }

  predicate AllSpace(s: string)
  {
    forall i :: 0 <= i < |s| ==> IsSpace(s[i])
  }

  /** Stripping yields the empty string exactly when every character is white space. */
  lemma StripEmptyIffAllSpace(s: string)
    ensures Strip(s) == [] <==> AllSpace(s)
  {
    var l := StripLeftBy(s, IsSpace);
    StripLeftShape(s, IsSpace);
    StripRightShape(l, IsSpace);
    if Strip(s) == [] {
      assert l == [];
    } else {
      assert !IsSpace(Strip(s)[0]);
      assert Strip(s)[0] == l[0];
      assert l[0] == s[|s| - |l|];
    }
  }

  /** A stripped string begins and ends with a non-space character. */
  lemma StripTrimmed(s: string)
    ensures var r := Strip(s); r == [] || (!IsSpace(r[0]) && !IsSpace(r[|r| - 1]))
  {
    var l := StripLeftBy(s, IsSpace);
    var r := StripRightBy(l, IsSpace);
    StripLeftShape(s, IsSpace);
    StripRightShape(l, IsSpace);
    if r != [] {
      assert r[0] == l[0];
    }
  }

  /** Stripping twice strips nothing more. */
  lemma StripIdempotent(s: string)
    ensures Strip(Strip(s)) == Strip(s)
  {
    StripTrimmed(s);
    var r := Strip(s);
    if r != [] {
      assert StripLeftBy(r, IsSpace) == r;
      assert StripRightBy(r, IsSpace) == r;
    }
  }

  /** The characters of s kept by Python's ''.join(filter(str.isdigit, s)). */
  function DigitsOf(s: string): (r: string)
    ensures |r| <= |s|
    ensures forall i :: 0 <= i < |r| ==> IsDigit(r[i])
  {
    if s == [] then []
    else if IsDigit(s[0]) then [s[0]] + DigitsOf(s[1..])
    else DigitsOf(s[1..])
  }

  lemma {:induction false} DigitsOfAllDigits(s: string)
    requires forall i :: 0 <= i < |s| ==> IsDigit(s[i])
    ensures DigitsOf(s) == s
  {
    if s != [] {
      DigitsOfAllDigits(s[1..]);
    }
  }

  predicate AllDigits(s: string)
  {
    forall i :: 0 <= i < |s| ==> IsDigit(s[i])
  }

  /** The decimal value of a string of ASCII digits. */
  function DigitValue(s: string): (n: nat)
    requires AllDigits(s)
  {
    if s == [] then 0 else DigitValue(s[..|s| - 1]) * 10 + (s[|s| - 1] as int - '0' as int)
  }

  /** Whether character c occurs in s (Python's `c in s`). */
  predicate Contains(s: string, c: char)
  {
    exists i :: 0 <= i < |s| && s[i] == c
  }

  /** Python truthiness of a nullable string: present and non-empty. */
  predicate Truthy(s: Option<string>)
  {
    s.Some? && s.value != []
  }

  /** A non-empty set has a member (stated so that a `:|` choice can use it). */
  lemma NonEmptySetHasElement<T>(a: set<T>)
    requires a != {}
    ensures exists y :: y in a
  {
    if forall y :: y !in a {
      assert false;
    }
  }

  /** A subset is no larger than its superset. */
  lemma {:induction false} SubsetCard<T>(a: set<T>, b: set<T>)
    requires a <= b
    ensures |a| <= |b|
    decreases |a|
  {
    if a != {} {
      NonEmptySetHasElement(a);
      var x :| x in a;
      SubsetCard(a - {x}, b - {x});
    }
  }

  /** set(s): the distinct members of a list. */
  function SetOf(s: seq<int>): set<int>
  {
    set x | x in s
  }

  /** No member of the list occurs twice. */
  predicate Distinct(s: seq<int>)
  {
    forall i, j :: 0 <= i < j < |s| ==> s[i] != s[j]
  }

  /** len(set(s)) == len(s) is Python's test for a list without repeats. */
  lemma {:induction false} SetOfSize(s: seq<int>)
    ensures |SetOf(s)| <= |s|
    ensures |SetOf(s)| == |s| <==> Distinct(s)
  {
    if s != [] {
      var t := s[1..];
      SetOfSize(t);
      assert SetOf(s) == {s[0]} + SetOf(t);
      if s[0] in t {
        assert SetOf(s) == SetOf(t);
        var j :| 0 <= j < |t| && t[j] == s[0];
        assert s[0] == s[j + 1];
      } else {
        assert SetOf(s) == SetOf(t) + {s[0]};
        assert Distinct(s) <==> Distinct(t) by {
          if Distinct(t) {
            forall i, j | 0 <= i < j < |s| ensures s[i] != s[j] {
              if i == 0 { assert s[j] == t[j - 1]; } else { assert s[i] == t[i - 1] && s[j] == t[j - 1]; }
            }
          }
          if Distinct(s) {
            forall i, j | 0 <= i < j < |t| ensures t[i] != t[j] {
              assert t[i] == s[i + 1] && t[j] == s[j + 1];
            }
          }
        }
      }
    }
  }

  /** The existence test of the bulk validators: the distinct listed ids found among
      the existing ones number as many as the list has entries. */
  predicate AllListedExist(ids: seq<int>, existing: set<int>)
  {
    |SetOf(ids) * existing| == |ids|
  }

  /** The existence test holds exactly for a list without repeats all of whose ids
      exist: a repeated id fails it just as a missing one does. */
  lemma AllListedExistIff(ids: seq<int>, existing: set<int>)
    ensures AllListedExist(ids, existing) <==> Distinct(ids) && SetOf(ids) <= existing
  {
    var a := SetOf(ids);
    SetOfSize(ids);
    SubsetCard(a * existing, a);
    if |a * existing| == |ids| && !(a <= existing) {
      var x :| x in a && x !in existing;
      SubsetCard(a * existing, a - {x});
    }
    if a <= existing {
      assert a * existing == a;
    }
  }

  predicate HasPrefix(s: string, p: string)
  {
    |p| <= |s| && s[..|p|] == p
  }

  // ---------------------------------------------------------------------------
  // Request payloads (the JSON values a serializer receives)
  // ---------------------------------------------------------------------------

  datatype Json =
    | JNull
    | JBool(b: bool)
    | JInt(i: int)
    | JReal(r: real)
    | JStr(s: string)
    | JList(items: seq<Json>)
    | JObject(fields: map<string, Json>)

  /** Python truthiness of a decoded JSON value. */
  predicate JsonTruthy(j: Json)
  {
    match j
    case JNull => false
    case JBool(b) => b
    case JInt(i) => i != 0
    case JReal(r) => r != 0.0
    case JStr(s) => s != []
    case JList(items) => items != []
    case JObject(fields) => fields != map[]
  }
}
