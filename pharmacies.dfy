// Input validation for pharmacy profiles: the weekly operating hours with their
// "HH:MM" opening and closing times, the required business documents, the delivery
// settings' ranges and the search request's coordinates.

module PharmacySerializers {
  import opened Common

  // ---------------------------------------------------------------------------
  // Reading a time of day
  // ---------------------------------------------------------------------------

  /** str.split(c): the pieces between occurrences of c, always at least one. */
  function Split(s: string, c: char): (r: seq<string>)
    ensures |r| >= 1
  {
    if s == [] then [[]]
    else if s[0] == c then [[]] + Split(s[1..], c)
    else
      var t := Split(s[1..], c);
      [[s[0]] + t[0]] + t[1..]
  }

  /** A string without the separator splits into itself. */
  lemma {:induction false} SplitWithoutSeparator(s: string, c: char)
    requires forall i :: 0 <= i < |s| ==> s[i] != c
    ensures Split(s, c) == [s]
  {
    if s != [] {
      SplitWithoutSeparator(s[1..], c);
      assert [s[0]] + s[1..] == s;
    }
  }

  /** The piece before the first separator comes off whole. */
  lemma {:induction false} SplitAtFirst(a: string, b: string, c: char)
    requires forall i :: 0 <= i < |a| ==> a[i] != c
    ensures Split(a + [c] + b, c) == [a] + Split(b, c)
  {
    if a == [] {
      assert a + [c] + b == [c] + b;
      assert ([c] + b)[1..] == b;
    } else {
      var s := a + [c] + b;
      assert s[1..] == a[1..] + [c] + b;
      SplitAtFirst(a[1..], b, c);
      assert [a[0]] + a[1..] == a;
    }
  }

  /** The characters Python's int() accepts after the sign: digits, with single
      underscores allowed between them. */
  predicate DigitGroups(b: string)
  {
    && b != [] && IsDigit(b[0]) && IsDigit(b[|b| - 1])
    && (forall i :: 0 <= i < |b| ==> IsDigit(b[i]) || b[i] == '_')
    && (forall i :: 0 <= i < |b| - 1 ==> !(b[i] == '_' && b[i + 1] == '_'))
  }

  /** int(s) on a string: surrounding white space is ignored, one sign may lead, and
      the rest must be digits in underscore-separated groups. */
  function PyInt(s: string): (r: Option<int>)
  {
    var t := IntStrip(s);
    if t == [] then None
    else
      var body := if t[0] == '+' || t[0] == '-' then t[1..] else t;
      if !DigitGroups(body) then None
      else
        var n: int := DigitValue(DigitsOf(body));
        Some(if t[0] == '-' then -n else n)
  }

  /** The value of a decimal digit. */
  function Digit(c: char): int
  {
    c as int - '0' as int
  }

  /** int() of an unsigned run of digit groups, with nothing to strip, is its
      decimal value. */
  lemma UnsignedRead(t: string)
    requires DigitGroups(t) && t[0] != '+' && t[0] != '-'
    ensures PyInt(t) == Some(DigitValue(DigitsOf(t)))
  {
    assert !IsCSpace(t[0]) && !IsCSpace(t[|t| - 1]);
    assert IntStrip(t) == t;
  }

  /** Two digits have the decimal value of the pair. */
  lemma TwoDigitValue(a: char, b: char)
    requires IsDigit(a) && IsDigit(b)
    ensures AllDigits([a, b]) && DigitValue([a, b]) == Digit(a) * 10 + Digit(b)
  {
    assert [a, b][..1] == [a];
    assert [a][..0] == [];
    assert DigitValue([a]) == Digit(a);
  }

  /** A string of two digits reads as its decimal value. */
  lemma TwoDigitsRead(a: char, b: char)
    requires IsDigit(a) && IsDigit(b)
    ensures PyInt([a, b]) == Some(Digit(a) * 10 + Digit(b))
  {
    var s := [a, b];
    assert DigitGroups(s);
    UnsignedRead(s);
    DigitsOfAllDigits(s);
    TwoDigitValue(a, b);
  }

  /** `hour, minute = map(int, value.split(':'))`: two pieces, both integers. */
  function ParseClock(s: string): (r: Option<(int, int)>)
  {
    var pieces := Split(s, ':');
    if |pieces| != 2 then None
    else
      var h, m := PyInt(pieces[0]), PyInt(pieces[1]);
      if h.Some? && m.Some? then Some((h.value, m.value)) else None
  }

  datatype TimeError = TimeFormat | TimeValues

  /** The check applied to one opening or closing time: a five-character string that
      reads as an hour from 0 to 23 and a minute from 0 to 59. */
  function TimeProblem(j: Json): (r: Option<TimeError>)
    ensures r.None? <==> j.JStr? && |j.s| == 5 && ParseClock(j.s).Some?
                         && 0 <= ParseClock(j.s).value.0 <= 23 && 0 <= ParseClock(j.s).value.1 <= 59
    ensures r == Some(TimeValues) ==> j.JStr? && ParseClock(j.s).Some?
  {
    if !j.JStr? || |j.s| != 5 then Some(TimeFormat)
    else match ParseClock(j.s)
      case None => Some(TimeFormat)
      case Some((h, m)) => if 0 <= h <= 23 && 0 <= m <= 59 then None else Some(TimeValues)
  }

  predicate TimeOk(j: Json)
  {
    TimeProblem(j).None?
  }

  function DigitChar(n: int): (r: char)
    requires 0 <= n <= 9
    ensures IsDigit(r) && Digit(r) == n
  {
    ('0' as int + n) as char
  }

  /** A time of day written the canonical way, with two digits each for hour and
      minute. */
  function FormatClock(h: int, m: int): (r: string)
    requires 0 <= h <= 23 && 0 <= m <= 59
    ensures ClockShaped(r)
  {
    [DigitChar(h / 10), DigitChar(h % 10), ':', DigitChar(m / 10), DigitChar(m % 10)]
  }

  /** Two digits, a colon and two digits. */
  predicate ClockShaped(s: string)
  {
    |s| == 5 && IsDigit(s[0]) && IsDigit(s[1]) && s[2] == ':' && IsDigit(s[3]) && IsDigit(s[4])
  }

  /** A five-character string with its only colon in the middle splits there. */
  lemma SplitClock(s: string)
    requires |s| == 5 && s[2] == ':'
    requires s[0] != ':' && s[1] != ':' && s[3] != ':' && s[4] != ':'
    ensures Split(s, ':') == [s[..2], s[3..]]
  {
    assert s == s[..2] + [':'] + s[3..];
    SplitAtFirst(s[..2], s[3..], ':');
    SplitWithoutSeparator(s[3..], ':');
  }

  /** A time reads as the integers of its two pieces. */
  lemma ParseClockOfPieces(s: string, x: string, y: string, h: int, m: int)
    requires Split(s, ':') == [x, y]
    requires PyInt(x) == Some(h) && PyInt(y) == Some(m)
    ensures ParseClock(s) == Some((h, m))
  {
  }

  /** A string shaped DD:DD reads as its two two-digit numbers. */
  lemma CanonicalTimeRead(s: string)
    requires ClockShaped(s)
    ensures ParseClock(s) == Some((Digit(s[0]) * 10 + Digit(s[1]), Digit(s[3]) * 10 + Digit(s[4])))
  {
    var x, y := [s[0], s[1]], [s[3], s[4]];
    var h, m := Digit(s[0]) * 10 + Digit(s[1]), Digit(s[3]) * 10 + Digit(s[4]);
    assert Split(s, ':') == [x, y] by {
      SplitClock(s);
      assert s[..2] == x && s[3..] == y;
    }
    TwoDigitsRead(s[0], s[1]);
    TwoDigitsRead(s[3], s[4]);
    ParseClockOfPieces(s, x, y, h, m);
  }

  /** A string shaped DD:DD is accepted exactly when its hour is at most 23 and its
      minute at most 59. */
  lemma CanonicalTimes(s: string)
    requires ClockShaped(s)
    ensures TimeOk(JStr(s)) <==> Digit(s[0]) * 10 + Digit(s[1]) <= 23 && Digit(s[3]) * 10 + Digit(s[4]) <= 59
  {
    CanonicalTimeRead(s);
  }

  /** Every time of day written canonically is accepted and reads back as itself. */
  lemma ClockRoundTrip(h: int, m: int)
    requires 0 <= h <= 23 && 0 <= m <= 59
    ensures TimeOk(JStr(FormatClock(h, m)))
    ensures ParseClock(FormatClock(h, m)) == Some((h, m))
  {
    var s := FormatClock(h, m);
    FormatClockDigits(h, m);
    var hm := (Digit(s[0]) * 10 + Digit(s[1]), Digit(s[3]) * 10 + Digit(s[4]));
    assert hm == (h, m);
    CanonicalTimeRead(s);
    assert ParseClock(s) == Some(hm);
    CanonicalTimes(s);
  }

  /** The canonical form's digits are those of the hour and the minute. */
  lemma FormatClockDigits(h: int, m: int)
    requires 0 <= h <= 23 && 0 <= m <= 59
    ensures var s := FormatClock(h, m);
            Digit(s[0]) * 10 + Digit(s[1]) == h && Digit(s[3]) * 10 + Digit(s[4]) == m
  {
  }

  /** A single digit reads as its value. */
  lemma OneDigitRead(b: char)
    requires IsDigit(b)
    ensures DigitGroups([b]) && DigitValue(DigitsOf([b])) == Digit(b)
  {
    DigitsOfAllDigits([b]);
    assert [b][..0] == [];
  }

  /** int() does not skip the separator \x1c that str.strip() removes. */
  lemma SeparatorKeptByInt()
    ensures Strip(['\U{001C}', '5']) == ['5']
    ensures PyInt(['\U{001C}', '5']).None?
  {
    var s := ['\U{001C}', '5'];
    assert s[1..] == ['5'];
    assert StripLeftBy(s, IsSpace) == ['5'];
    assert IntStrip(s) == s;
  }

  /** A digit behind a space or a plus sign reads as the digit. */
  lemma PaddedDigitRead(lead: char, b: char)
    requires lead == ' ' || lead == '+'
    requires IsDigit(b)
    ensures PyInt([lead, b]) == Some(Digit(b))
  {
    OneDigitRead(b);
    var s := [lead, b];
    if lead == ' ' {
      assert s[1..] == [b];
      assert StripLeftBy(s, IsCSpace) == [b];
      assert IntStrip(s) == [b];
      UnsignedRead([b]);
    } else {
      assert IntStrip(s) == s;
      assert s[1..] == [b];
    }
  }

  /** The check is looser than "HH:MM": a space or a plus sign may stand in for the
      hour's leading zero, as in " 9:05" or "+9:05". */
  lemma LooseTimesRead(lead: char, b: char, c: char, d: char)
    requires lead == ' ' || lead == '+'
    requires IsDigit(b) && IsDigit(c) && IsDigit(d)
    ensures ParseClock([lead, b, ':', c, d]) == Some((Digit(b), Digit(c) * 10 + Digit(d)))
  {
    var s := [lead, b, ':', c, d];
    var x, y := [lead, b], [c, d];
    var h, m := Digit(b), Digit(c) * 10 + Digit(d);
    assert Split(s, ':') == [x, y] by {
      SplitClock(s);
      assert s[..2] == x && s[3..] == y;
    }
    PaddedDigitRead(lead, b);
    TwoDigitsRead(c, d);
    ParseClockOfPieces(s, x, y, h, m);
  }

  /** Such a time is accepted whenever its minute is in range. */
  lemma LooseTimesAccepted(lead: char, b: char, c: char, d: char)
    requires lead == ' ' || lead == '+'
    requires IsDigit(b) && IsDigit(c) && IsDigit(d)
    ensures TimeOk(JStr([lead, b, ':', c, d])) <==> Digit(c) * 10 + Digit(d) <= 59
  {
    LooseTimesRead(lead, b, c, d);
  }

  // ---------------------------------------------------------------------------
  // Operating hours
  // ---------------------------------------------------------------------------

  const Days: seq<string> := ["monday", "tuesday", "wednesday", "thursday", "friday", "saturday", "sunday"]

  datatype DayFault =
    | MissingDay
    | DayNotAnObject
    | MissingIsOpen
    | MissingTimes
    | BadTime(field: string, problem: TimeError)

  datatype HoursError = HoursNotAnObject | DayError(day: string, fault: DayFault)

  /** What one day's entry must hold: an object with is_open, and when that is truthy
      both an opening and a closing time, which the full check also reads. */
  predicate DayOk(fields: map<string, Json>, day: string, checkTimes: bool)
  {
    && day in fields && fields[day].JObject?
    && var h := fields[day].fields;
    && "is_open" in h
    && (JsonTruthy(h["is_open"]) ==>
          && "open_time" in h && "close_time" in h
          && (checkTimes ==> TimeOk(h["open_time"]) && TimeOk(h["close_time"])))
  }

  /** The first problem with one day's entry, in the order the checks are made. */
  function DayProblem(fields: map<string, Json>, day: string, checkTimes: bool): (r: Option<HoursError>)
    ensures r.None? <==> DayOk(fields, day, checkTimes)
    ensures r.Some? ==> r.value.DayError? && r.value.day == day
  {
    if day !in fields then Some(DayError(day, MissingDay))
    else if !fields[day].JObject? then Some(DayError(day, DayNotAnObject))
    else
      var h := fields[day].fields;
      if "is_open" !in h then Some(DayError(day, MissingIsOpen))
      else if !JsonTruthy(h["is_open"]) then None
      else if "open_time" !in h || "close_time" !in h then Some(DayError(day, MissingTimes))
      else if checkTimes && TimeProblem(h["open_time"]).Some? then Some(DayError(day, BadTime("open_time", TimeProblem(h["open_time"]).value)))
      else if checkTimes && TimeProblem(h["close_time"]).Some? then Some(DayError(day, BadTime("close_time", TimeProblem(h["close_time"]).value)))
      else None
  }

  /** The first day, from position `from` of the week on, whose entry has a problem. */
  function FirstDayProblem(fields: map<string, Json>, from: nat, checkTimes: bool): (r: Option<HoursError>)
    requires from <= |Days|
    ensures r.None? <==> forall i :: from <= i < |Days| ==> DayOk(fields, Days[i], checkTimes)
    ensures r.Some? ==> r.value.DayError? && exists i :: from <= i < |Days| && r.value.day == Days[i] && !DayOk(fields, Days[i], checkTimes)
    decreases |Days| - from
  {
    if from == |Days| then None
    else if DayProblem(fields, Days[from], checkTimes).Some? then DayProblem(fields, Days[from], checkTimes)
    else FirstDayProblem(fields, from + 1, checkTimes)
  }

  /** validate_operating_hours. The create serializer also reads every time
      (checkTimes); the update and operating-hours serializers stop at the keys. */
  function ValidateOperatingHours(value: Json, checkTimes: bool): (r: Result<Json, HoursError>)
    ensures r.Ok? <==> value.JObject? && forall d :: d in Days ==> DayOk(value.fields, d, checkTimes)
    ensures r.Ok? ==> r.value == value
    ensures !value.JObject? ==> r == Err(HoursNotAnObject)
  {
    if !value.JObject? then Err(HoursNotAnObject)
    else
      var p := FirstDayProblem(value.fields, 0, checkTimes);
      assert p.None? <==> forall d :: d in Days ==> DayOk(value.fields, d, checkTimes) by {
        if p.None? {
          forall d | d in Days ensures DayOk(value.fields, d, checkTimes) {
            var i :| 0 <= i < |Days| && Days[i] == d;
          }
        }
      }
      if p.Some? then Err(p.value) else Ok(value)
  }

  /** Whatever the create serializer accepts, the other two accept as well. */
  lemma FullCheckImpliesKeyCheck(value: Json)
    requires ValidateOperatingHours(value, true).Ok?
    ensures ValidateOperatingHours(value, false).Ok?
  {
  }

  /** A full week, every day open from the given opening to the given closing time. */
  function EveryDay(open: Json, close: Json): map<string, Json>
  {
    var h := JObject(map["is_open" := JBool(true), "open_time" := open, "close_time" := close]);
    map["monday" := h, "tuesday" := h, "wednesday" := h, "thursday" := h, "friday" := h, "saturday" := h, "sunday" := h]
  }

  /** On a week open every day, the key check accepts whatever times are given, while
      the full check accepts exactly when both times pass. */
  lemma KeyCheckIgnoresTimes(open: Json, close: Json)
    ensures ValidateOperatingHours(JObject(EveryDay(open, close)), false).Ok?
    ensures ValidateOperatingHours(JObject(EveryDay(open, close)), true).Ok? <==> TimeOk(open) && TimeOk(close)
  {
    var w := EveryDay(open, close);
    assert forall d :: d in Days ==> d in w && w[d] == w["monday"];
    assert "monday" in Days;
  }

  /** So a week open from 25:00 passes the update serializers and only the create
      serializer refuses it. */
  lemma ImpossibleHourPassesKeyCheck(close: Json)
    ensures ValidateOperatingHours(JObject(EveryDay(JStr("25:00"), close)), false).Ok?
    ensures ValidateOperatingHours(JObject(EveryDay(JStr("25:00"), close)), true).Err?
  {
    assert "25:00" == ['2', '5', ':', '0', '0'];
    CanonicalTimes("25:00");
    KeyCheckIgnoresTimes(JStr("25:00"), close);
  }

  // ---------------------------------------------------------------------------
  // Business documents
  // ---------------------------------------------------------------------------

  const RequiredDocuments: seq<string> := ["business_license", "pharmacy_license", "tax_id"]

  datatype DocumentFault = MissingDocument | DocumentNotAnObject | MissingFileOrExpiry

  datatype DocumentError = DocumentsNotAnObject | DocumentFaultIn(doc: string, fault: DocumentFault)

  /** A required document is present as an object with a file URL and an expiry date. */
  predicate DocumentOk(fields: map<string, Json>, doc: string)
  {
    doc in fields && fields[doc].JObject? && "file_url" in fields[doc].fields && "expiry_date" in fields[doc].fields
  }

  function DocumentProblem(fields: map<string, Json>, doc: string): (r: Option<DocumentError>)
    ensures r.None? <==> DocumentOk(fields, doc)
    ensures r.Some? ==> r.value.DocumentFaultIn? && r.value.doc == doc
  {
    if doc !in fields then Some(DocumentFaultIn(doc, MissingDocument))
    else if !fields[doc].JObject? then Some(DocumentFaultIn(doc, DocumentNotAnObject))
    else if "file_url" !in fields[doc].fields || "expiry_date" !in fields[doc].fields then Some(DocumentFaultIn(doc, MissingFileOrExpiry))
    else None
  }

  function FirstDocumentProblem(fields: map<string, Json>, from: nat): (r: Option<DocumentError>)
    requires from <= |RequiredDocuments|
    ensures r.None? <==> forall i :: from <= i < |RequiredDocuments| ==> DocumentOk(fields, RequiredDocuments[i])
    ensures r.Some? ==> r.value.DocumentFaultIn? && exists i :: from <= i < |RequiredDocuments| && r.value.doc == RequiredDocuments[i]
    decreases |RequiredDocuments| - from
  {
    if from == |RequiredDocuments| then None
    else if DocumentProblem(fields, RequiredDocuments[from]).Some? then DocumentProblem(fields, RequiredDocuments[from])
    else FirstDocumentProblem(fields, from + 1)
  }

  /** validate_business_documents: an object holding each required document, each an
      object with a file URL and an expiry date; anything else in it is ignored. */
  function ValidateBusinessDocuments(value: Json): (r: Result<Json, DocumentError>)
    ensures r.Ok? <==> value.JObject? && forall d :: d in RequiredDocuments ==> DocumentOk(value.fields, d)
    ensures r.Ok? ==> r.value == value
    ensures r.Err? && r.error.DocumentFaultIn? ==> r.error.doc in RequiredDocuments
  {
    if !value.JObject? then Err(DocumentsNotAnObject)
    else
      var p := FirstDocumentProblem(value.fields, 0);
      assert p.None? <==> forall d :: d in RequiredDocuments ==> DocumentOk(value.fields, d) by {
        if p.None? {
          forall d | d in RequiredDocuments ensures DocumentOk(value.fields, d) {
            var i :| 0 <= i < |RequiredDocuments| && RequiredDocuments[i] == d;
          }
        }
      }
      if p.Some? then Err(p.value) else Ok(value)
  }

  /** Adding any entry other than a required document keeps accepted documents
      accepted. */
  lemma ExtraDocumentsIgnored(fields: map<string, Json>, k: string, v: Json)
    requires ValidateBusinessDocuments(JObject(fields)).Ok?
    requires k !in RequiredDocuments
    ensures ValidateBusinessDocuments(JObject(fields[k := v])).Ok?
  {
    forall d | d in RequiredDocuments
      ensures DocumentOk(fields[k := v], d)
    {
      assert DocumentOk(fields, d);
      assert d != k;
    }
  }

  // ---------------------------------------------------------------------------
  // Delivery settings
  // ---------------------------------------------------------------------------

  datatype SettingsError =
    | RadiusTooSmall
    | RadiusTooLarge
    | NegativeMinimumOrder
    | NegativeDeliveryFee
    | NegativeServiceFee
    | ServiceFeeTooHigh

  const MinRadiusKm: real := 1.0 / 10.0
  const MaxRadiusKm: real := 100.0
  const MaxServiceFeePercentage: real := 50.0

  /** validate_delivery_radius_km: between 0.1 and 100 km. */
  function ValidateDeliveryRadius(value: real): (r: Result<real, SettingsError>)
    ensures r.Ok? <==> MinRadiusKm <= value <= MaxRadiusKm
    ensures r.Ok? ==> r.value == value
    ensures value < MinRadiusKm ==> r == Err(RadiusTooSmall)
  {
    if value < MinRadiusKm then Err(RadiusTooSmall)
    else if value > MaxRadiusKm then Err(RadiusTooLarge)
    else Ok(value)
  }

  /** validate_minimum_order_amount */
  function ValidateMinimumOrder(value: real): (r: Result<real, SettingsError>)
    ensures r.Ok? <==> value >= 0.0
    ensures r.Ok? ==> r.value == value
  {
    if value < 0.0 then Err(NegativeMinimumOrder) else Ok(value)
  }

  /** validate_delivery_fee */
  function ValidateDeliveryFee(value: real): (r: Result<real, SettingsError>)
    ensures r.Ok? <==> value >= 0.0
    ensures r.Ok? ==> r.value == value
  {
    if value < 0.0 then Err(NegativeDeliveryFee) else Ok(value)
  }

  /** validate_service_fee_percentage: between 0 and 50 percent. */
  function ValidateServiceFeePercentage(value: real): (r: Result<real, SettingsError>)
    ensures r.Ok? <==> 0.0 <= value <= MaxServiceFeePercentage
    ensures r.Ok? ==> r.value == value
    ensures value < 0.0 ==> r == Err(NegativeServiceFee)
  {
    if value < 0.0 then Err(NegativeServiceFee)
    else if value > MaxServiceFeePercentage then Err(ServiceFeeTooHigh)
    else Ok(value)
  }

  /** An accepted service fee never takes more than half of an order's amount, and
      never less than nothing. */
  lemma ServiceFeeAtMostHalf(pct: real, amount: real)
    requires ValidateServiceFeePercentage(pct).Ok? && amount >= 0.0
    ensures 0.0 <= amount * pct / 100.0 <= amount / 2.0
  {
    assert amount * pct <= amount * 50.0;
  }

  // ---------------------------------------------------------------------------
  // Search
  // ---------------------------------------------------------------------------

  datatype SearchError =
    | SearchRadiusOutOfRange
    | MinRatingOutOfRange
    | CoordinatesNotPaired
    | LatitudeOutOfRange
    | LongitudeOutOfRange

  /** The search request: the radius (10 km unless given) within 0.1 to 100 km and a
      minimum rating within 0 to 5, as the fields declare; then latitude and
      longitude given together or not at all, and in range when given. */
  function ValidateSearch(latitude: Option<real>, longitude: Option<real>, radiusKm: real, minRating: Option<real>): (r: Outcome<SearchError>)
    ensures r.Pass? <==>
              && MinRadiusKm <= radiusKm <= MaxRadiusKm
              && (minRating.Some? ==> 0.0 <= minRating.value <= 5.0)
              && (latitude.Some? <==> longitude.Some?)
              && (latitude.Some? ==> -90.0 <= latitude.value <= 90.0)
              && (longitude.Some? ==> -180.0 <= longitude.value <= 180.0)
    ensures latitude.Some? != longitude.Some? && r.Fail? ==> r.error in {SearchRadiusOutOfRange, MinRatingOutOfRange, CoordinatesNotPaired}
  {
    if !(MinRadiusKm <= radiusKm <= MaxRadiusKm) then Fail(SearchRadiusOutOfRange)
    else if minRating.Some? && !(0.0 <= minRating.value <= 5.0) then Fail(MinRatingOutOfRange)
    else if latitude.Some? != longitude.Some? then Fail(CoordinatesNotPaired)
    else if latitude.Some? && !(-90.0 <= latitude.value <= 90.0) then Fail(LatitudeOutOfRange)
    else if longitude.Some? && !(-180.0 <= longitude.value <= 180.0) then Fail(LongitudeOutOfRange)
    else Pass
  }

  /** With the default radius and no rating, a lone coordinate is refused for being
      unpaired, and the search radius and the delivery radius share their bounds. */
  lemma LoneCoordinateRefused(lat: real)
    ensures ValidateSearch(Some(lat), None, 10.0, None) == Fail(CoordinatesNotPaired)
    ensures ValidateSearch(None, None, 10.0, None).Pass?
    ensures forall k: real :: ValidateSearch(None, None, k, None).Pass? <==> ValidateDeliveryRadius(k).Ok?
  {
  }
}
