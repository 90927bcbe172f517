/**
 * Parameter handling of the events controller: the whitelist and the
 * normalisation that turn a submitted event form into the attributes that
 * are saved, the defaults of the new-event form, and the alert shown when an
 * update fails.
 *
 * Parameters arrive as two maps: the top-level request parameters, and the
 * nested `event` form when the request carries one as a hash.
 */
module Events {
  import opened Common

  /** A parameter or attribute value as the controller sees it. */
  datatype Value =
    | Nil
    | Text(s: string)
    | Number(n: int)
    | Flag(b: bool)
    | List(items: seq<string>)
    | Time(seconds: int)  // a UTC instant, in seconds since the epoch

  type Params = map<string, Value>

  /** The ways the handled code raises. */
  datatype Failure =
    | NoEventHash      // params[:event] is missing or not a hash, so `merge` is called on nil
    | UnknownTimeZone  // the time-zone database rejects params['start_time_tz']
    | NotAString       // an operand of the date/time string concatenation is not a string
    | Unparsable       // the date/time parser rejects the joined text
    | ProjectNotFound  // the friendly finder finds no project for params[:project]

  /** The stored event loaded before `edit` and `update`; only its creator is read here. */
  datatype EventRecord = EventRecord(creatorId: Option<int>)

  /**
   * The date and time-zone library, left abstract: whether a zone identifier
   * exists, the UTC offset (seconds) in force in a zone at a UTC instant, and
   * the parser that reads a "date time" text as a UTC wall-clock instant.
   */
  datatype Clock = Clock(
    zoneExists: string -> bool,
    utcOffset: (string, int) -> int,
    parse: string -> Option<int>)

  /** `params[k]`: a missing key reads as nil. */
  function Get(m: Params, k: string): Value {
    if k in m then m[k] else Nil
  }

  /** The Unicode white-space characters, which `blank?` ignores in a string. */
  predicate IsSpace(c: char) {
    || c == ' ' || '\t' <= c <= '\r' || c == '\U{0085}' || c == '\U{00A0}' || c == '\U{1680}'
    || '\U{2000}' <= c <= '\U{200A}' || c == '\U{2028}' || c == '\U{2029}' || c == '\U{202F}'
    || c == '\U{205F}' || c == '\U{3000}'
  }

  /** `blank?`: nil, false, an empty array or a string of white space only. */
  predicate Blank(v: Value) {
    match v
    case Nil => true
    case Text(s) => forall i :: 0 <= i < |s| ==> IsSpace(s[i])
    case Number(_) => false
    case Flag(b) => !b
    case List(items) => items == []
    case Time(_) => false
  }

  /** `present?` */
  predicate Present(v: Value) {
    !Blank(v)
  }

  /** Ruby truthiness: everything but nil and false, the empty string included. */
  predicate Truthy(v: Value) {
    !(v.Nil? || v == Flag(false))
  }

  function Quoted(items: seq<string>): seq<string> {
    seq(|items|, i requires 0 <= i < |items| => "\"" + items[i] + "\"")
  }

  /** `to_s`, as string interpolation applies it. */
  function Render(v: Value): string {
    match v
    case Nil => ""
    case Text(s) => s
    case Number(n) => IntToString(n)
    case Flag(b) => if b then "true" else "false"
    case List(items) => "[" + Join(Quoted(items), ", ") + "]"
    case Time(t) => IntToString(t)
  }

  // ---------------------------------------------------------------------
  // The whitelist

  /** The scalar attributes an event form may set. */
  const Permitted: set<string> := {
    "name", "category", "for", "project_id", "description", "duration", "repeats",
    "repeats_every_n_weeks", "repeat_ends_string", "time_zone", "creator_id",
    "start_datetime", "repeat_ends", "repeat_ends_on", "modifier_id", "creator_attendance"
  }

  /** The one array attribute an event form may set. */
  const DaysKey: string := "repeats_weekly_each_days_of_the_week"

  /** The keys the transformation writes itself. */
  const Rewritten: set<string> := {
    "start_datetime", "repeat_ends", "repeat_ends_on", "repeats_every_n_weeks", "creator_id", "modifier_id"
  }

  /**
   * Whether s is the suffix of a multi-parameter attribute key: decimal digits,
   * optionally followed by the type letter `i` or `f`, in parentheses, as in
   * `start_datetime(1i)`.
   */
  predicate MultiParameterSuffix(s: string) {
    && |s| >= 3 && s[0] == '(' && s[|s| - 1] == ')'
    && var inner := s[1..|s| - 1];
       var digits := if inner[|inner| - 1] == 'i' || inner[|inner| - 1] == 'f' then inner[..|inner| - 1] else inner;
       |digits| >= 1 && AllDigits(digits)
  }

  /** Whether k is a multi-parameter key of attribute a. */
  predicate MultiParameterOf(k: string, a: string) {
    |a| < |k| && k[..|a|] == a && MultiParameterSuffix(k[|a|..])
  }

  /** Whether `permit` with the scalar attributes `allowed` admits key k: an attribute itself or one of its multi-parameter keys. */
  predicate PermittedKey(allowed: set<string>, k: string) {
    k in allowed || exists a :: a in allowed && MultiParameterOf(k, a)
  }

  /** `permit` admits the multi-parameter keys of every allowed attribute, with or without a type letter. */
  lemma MultiParameterKeysPermitted(allowed: set<string>, a: string, digits: string, letter: string)
    requires a in allowed && |digits| >= 1 && AllDigits(digits)
    requires letter == "" || letter == "i" || letter == "f"
    ensures PermittedKey(allowed, a + "(" + digits + letter + ")")
  {
    var k := a + "(" + digits + letter + ")";
    var suffix := "(" + digits + letter + ")";
    assert k[..|a|] == a && k[|a|..] == suffix;
    assert suffix[1..|suffix| - 1] == digits + letter;
    if letter != "" {
      assert (digits + letter)[..|digits|] == digits;
    }
    assert MultiParameterOf(k, a);
  }

  /** A key without a parenthesis is admitted exactly when it is an allowed attribute. */
  lemma PlainKeyPermitted(allowed: set<string>, k: string)
    requires forall i :: 0 <= i < |k| ==> k[i] != '('
    ensures PermittedKey(allowed, k) <==> k in allowed
  {
    forall a | a in allowed ensures !MultiParameterOf(k, a) {
      if |a| < |k| {
        assert k[|a|..][0] == k[|a|];
      }
    }
  }

  /**
   * Whether `permit(Permitted, DaysKey: [])` keeps key k of m: a permitted key
   * or one of its multi-parameter keys holding a scalar, or the day list
   * holding an array.
   */
  predicate Kept(m: Params, k: string) {
    k in m && ((PermittedKey(Permitted, k) && !m[k].List?) || (k == DaysKey && m[k].List?))
  }

  /** Whether m holds v under key k. */
  predicate Maps(m: Params, k: string, v: Value) {
    k in m && m[k] == v
  }

  /** A key of the submitted form that reaches the result unchanged, or is absent from both. */
  predicate PassesThrough(r: Params, form: Params, k: string) {
    && (k in r <==> Kept(form, k))
    && (k in r ==> r[k] == form[k])
  }

  /** Whether the stored event already names its creator. */
  predicate HasCreator(event: Option<EventRecord>) {
    event.Some? && event.value.creatorId.Some?
  }

  /** The actor stamp merged into the form: the current user as modifier of an event that has a creator, else as creator. */
  function ActionInitiator(event: Option<EventRecord>, user: int): (stamp: Params)
    ensures stamp.Keys == {if HasCreator(event) then "modifier_id" else "creator_id"}
    ensures forall k :: k in stamp ==> stamp[k] == Number(user)
  {
    if HasCreator(event) then map["modifier_id" := Number(user)] else map["creator_id" := Number(user)]
  }

  /** The event form merged with the actor stamp, restricted to the whitelist. */
  function WhitelistEventParams(form: Option<Params>, stamp: Params): (r: Result<Params, Failure>)
    ensures r.Err? <==> form.None?
    ensures r.Err? ==> r.error == NoEventHash
    ensures r.Ok? ==> forall k :: k in r.value ==> k == DaysKey || PermittedKey(Permitted, k)
    ensures r.Ok? ==> forall k :: k in stamp && !stamp[k].List? ==> k in Permitted ==> k in r.value && r.value[k] == stamp[k]
    ensures r.Ok? ==> forall k :: k !in stamp ==> PassesThrough(r.value, form.value, k)
  {
    if form.None? then Err(NoEventHash)
    else
      var merged := form.value + stamp;
      Ok(map k | k in merged && Kept(merged, k) :: merged[k])
  }

  // ---------------------------------------------------------------------
  // The start instant

  /** Whether both a start date and a start time were submitted. */
  predicate DateAndTimePresent(params: Params)
    ensures DateAndTimePresent(params) ==> "start_date" in params && "start_time" in params
    ensures DateAndTimePresent(params) ==> Truthy(params["start_date"]) && Truthy(params["start_time"])
    ensures Get(params, "start_date") == Text("") || Get(params, "start_time") == Text("") ==> !DateAndTimePresent(params)
  {
    Present(Get(params, "start_date")) && Present(Get(params, "start_time"))
  }

  /** The parser applied to `date + ' ' + time`; the concatenation raises unless both are strings. */
  function WallClock(date: Value, time: Value, clock: Clock): (r: Result<int, Failure>)
    ensures r.Ok? <==> date.Text? && time.Text? && clock.parse(date.s + " " + time.s).Some?
    ensures r.Ok? ==> r.value == clock.parse(date.s + " " + time.s).value
  {
    if !date.Text? || !time.Text? then Err(NotAString)
    else match clock.parse(date.s + " " + time.s)
      case None => Err(Unparsable)
      case Some(t) => Ok(t)
  }

  /** The UTC offset of the zone at the next occurrence's date and the start time, read as a UTC instant. */
  function NextDateOffset(params: Params, zone: string, clock: Clock): (r: Result<int, Failure>)
    ensures r.Ok? <==> WallClock(Get(params, "next_date"), Get(params, "start_time"), clock).Ok?
    ensures r.Ok? ==> r.value == clock.utcOffset(zone, WallClock(Get(params, "next_date"), Get(params, "start_time"), clock).value)
  {
    match WallClock(Get(params, "next_date"), Get(params, "start_time"), clock)
    case Err(e) => Err(e)
    case Ok(next) => Ok(clock.utcOffset(zone, next))
  }

  /** The zone named by the start-time zone parameter, when the database knows it. */
  predicate KnownZone(params: Params, clock: Clock) {
    Get(params, "start_time_tz").Text? && clock.zoneExists(Get(params, "start_time_tz").s)
  }

  /**
   * The submitted start date and time converted to UTC with the offset in
   * force at the next occurrence, not at the start date itself.
   */
  function StartDateTime(params: Params, clock: Clock): (r: Result<int, Failure>)
    ensures r.Ok? <==>
      && KnownZone(params, clock)
      && WallClock(Get(params, "next_date"), Get(params, "start_time"), clock).Ok?
      && WallClock(Get(params, "start_date"), Get(params, "start_time"), clock).Ok?
    ensures r.Ok? ==>
      r.value == WallClock(Get(params, "start_date"), Get(params, "start_time"), clock).value
                 - clock.utcOffset(Get(params, "start_time_tz").s,
                                   WallClock(Get(params, "next_date"), Get(params, "start_time"), clock).value)
  {
    if !KnownZone(params, clock) then Err(UnknownTimeZone)
    else match NextDateOffset(params, Get(params, "start_time_tz").s, clock)
      case Err(e) => Err(e)
      case Ok(offset) =>
        match WallClock(Get(params, "start_date"), Get(params, "start_time"), clock)
        case Err(e) => Err(e)
        case Ok(local) => Ok(local - offset)
  }

  /**
   * Reading the stored instant back in the zone gives the submitted wall
   * clock shifted by the difference between the offset at that instant and the
   * offset at the next occurrence: exact when the two agree, off by the
   * daylight-saving delta when they straddle a transition.
   */
  lemma StoredStartReadsBack(params: Params, clock: Clock)
    requires StartDateTime(params, clock).Ok?
    ensures var zone := Get(params, "start_time_tz").s;
      var stored := StartDateTime(params, clock).value;
      var local := WallClock(Get(params, "start_date"), Get(params, "start_time"), clock).value;
      var next := WallClock(Get(params, "next_date"), Get(params, "start_time"), clock).value;
      && stored + clock.utcOffset(zone, stored) - local == clock.utcOffset(zone, stored) - clock.utcOffset(zone, next)
      && (stored + clock.utcOffset(zone, stored) == local <==> clock.utcOffset(zone, stored) == clock.utcOffset(zone, next))
  {
  }

  /** A zone five hours behind UTC that moves to four hours behind at 07:00 UTC on 13 March 2016. */
  function EasternOffset(zone: string, t: int): int {
    if t < 1457852400 then -18000 else -14400
  }

  /** A parser that knows 10:00 on 1 and on 15 March 2016. */
  function MarchParser(text: string): Option<int> {
    if text == "2016-03-01 10:00" then Some(1456826400)
    else if text == "2016-03-15 10:00" then Some(1458036000)
    else None
  }

  /**
   * A start date before the daylight-saving change with a next occurrence
   * after it: the stored start reads back one hour early in the zone.
   */
  lemma HourBackAcrossDaylightSaving()
    ensures var clock := Clock(z => z == "America/New_York", EasternOffset, MarchParser);
      var params := map[
        "start_date" := Text("2016-03-01"), "start_time" := Text("10:00"),
        "next_date" := Text("2016-03-15"), "start_time_tz" := Text("America/New_York")];
      && StartDateTime(params, clock) == Ok(1456826400 + 14400)
      && 1456826400 + 14400 + EasternOffset("America/New_York", 1456826400 + 14400) == 1456826400 - 3600
  {
    var clock := Clock(z => z == "America/New_York", EasternOffset, MarchParser);
    var params := map[
      "start_date" := Text("2016-03-01"), "start_time" := Text("10:00"),
      "next_date" := Text("2016-03-15"), "start_time_tz" := Text("America/New_York")];
    assert "2016-03-15" + " " + "10:00" == "2016-03-15 10:00";
    assert "2016-03-01" + " " + "10:00" == "2016-03-01 10:00";
    assert WallClock(Get(params, "next_date"), Get(params, "start_time"), clock) == Ok(1458036000);
    assert WallClock(Get(params, "start_date"), Get(params, "start_time"), clock) == Ok(1456826400);
  }

  // ---------------------------------------------------------------------
  // The whole transformation

  /** The flag, end date and interval rewrites that follow the start instant. */
  function Normalised(eventParams: Params, params: Params): (r: Params)
    ensures r.Keys == eventParams.Keys + {"repeat_ends", "repeat_ends_on"}
      + (if Get(eventParams, "repeats") == Text("biweekly") then {"repeats_every_n_weeks"} else {})
    ensures r["repeat_ends"] == Flag(Get(eventParams, "repeat_ends_string") == Text("on"))
    ensures r["repeat_ends_on"] ==
      Text(if Present(Get(params, "repeat_ends_on")) then Render(Get(params, "repeat_ends_on")) + " UTC" else "")
    ensures Get(eventParams, "repeats") == Text("biweekly") ==> r["repeats_every_n_weeks"] == Number(2)
    ensures forall k :: k in eventParams && k != "repeat_ends" && k != "repeat_ends_on" ==>
      (k == "repeats_every_n_weeks" && Get(eventParams, "repeats") == Text("biweekly")) || r[k] == eventParams[k]
  {
    var endsOn := Get(params, "repeat_ends_on");
    var flagged := eventParams["repeat_ends" := Flag(Get(eventParams, "repeat_ends_string") == Text("on"))]
                              ["repeat_ends_on" := Text(if Present(endsOn) then Render(endsOn) + " UTC" else "")];
    if Get(eventParams, "repeats") == Text("biweekly") then flagged["repeats_every_n_weeks" := Number(2)] else flagged
  }

  /** The attributes saved for a submitted event form. */
  function Transformed(params: Params, form: Option<Params>, event: Option<EventRecord>, user: int, clock: Clock)
    : (r: Result<Params, Failure>)
    ensures form.None? ==> r == Err(NoEventHash)
    ensures r.Ok? <==> form.Some? && (DateAndTimePresent(params) ==> StartDateTime(params, clock).Ok?)
    ensures r.Err? && form.Some? ==> r == Err(StartDateTime(params, clock).error)
    ensures r.Ok? ==> forall k :: k in r.value ==> k == DaysKey || PermittedKey(Permitted, k)
  {
    match WhitelistEventParams(form, ActionInitiator(event, user))
    case Err(e) => Err(e)
    case Ok(whitelisted) =>
      if !DateAndTimePresent(params) then Ok(Normalised(whitelisted, params))
      else match StartDateTime(params, clock)
        case Err(e) => Err(e)
        case Ok(t) => Ok(Normalised(whitelisted["start_datetime" := Time(t)], params))
  }

  /** The whitelisted form, with the start instant when one is recomputed, before the rewrites. */
  function Stamped(params: Params, form: Params, event: Option<EventRecord>, user: int, clock: Clock): Params
    requires DateAndTimePresent(params) ==> StartDateTime(params, clock).Ok?
  {
    var whitelisted := WhitelistEventParams(Some(form), ActionInitiator(event, user)).value;
    if DateAndTimePresent(params) then whitelisted["start_datetime" := Time(StartDateTime(params, clock).value)]
    else whitelisted
  }

  lemma StampedPassesThrough(params: Params, form: Params, event: Option<EventRecord>, user: int, clock: Clock, k: string)
    requires DateAndTimePresent(params) ==> StartDateTime(params, clock).Ok?
    requires k != "start_datetime" && k != "creator_id" && k != "modifier_id"
    ensures PassesThrough(Stamped(params, form, event, user, clock), form, k)
  {
  }

  lemma TransformedIsNormalisedStamp(params: Params, form: Params, event: Option<EventRecord>, user: int, clock: Clock)
    requires DateAndTimePresent(params) ==> StartDateTime(params, clock).Ok?
    ensures Transformed(params, Some(form), event, user, clock).value
            == Normalised(Stamped(params, form, event, user, clock), params)
  {
  }

  /** repeat_ends is true exactly when the toggle string is "on", whatever was submitted for it. */
  lemma RepeatEndsFromToggle(params: Params, form: Params, event: Option<EventRecord>, user: int, clock: Clock)
    requires DateAndTimePresent(params) ==> StartDateTime(params, clock).Ok?
    ensures Maps(Transformed(params, Some(form), event, user, clock).value,
                 "repeat_ends", Flag(Get(form, "repeat_ends_string") == Text("on")))
  {
    TransformedIsNormalisedStamp(params, form, event, user, clock);
    StampedPassesThrough(params, form, event, user, clock, "repeat_ends_string");
  }

  /** repeat_ends_on is the top-level value followed by " UTC" when present, else empty. */
  lemma RepeatEndsOnMarked(params: Params, form: Params, event: Option<EventRecord>, user: int, clock: Clock)
    requires DateAndTimePresent(params) ==> StartDateTime(params, clock).Ok?
    ensures var endsOn := Get(params, "repeat_ends_on");
      Maps(Transformed(params, Some(form), event, user, clock).value,
           "repeat_ends_on", Text(if Present(endsOn) then Render(endsOn) + " UTC" else ""))
  {
    TransformedIsNormalisedStamp(params, form, event, user, clock);
  }

  /** A biweekly event repeats every two weeks; otherwise the submitted interval is kept. */
  lemma BiweeklyEveryTwoWeeks(params: Params, form: Params, event: Option<EventRecord>, user: int, clock: Clock)
    requires DateAndTimePresent(params) ==> StartDateTime(params, clock).Ok?
    ensures var r := Transformed(params, Some(form), event, user, clock).value;
      if Get(form, "repeats") == Text("biweekly") then Maps(r, "repeats_every_n_weeks", Number(2))
      else PassesThrough(r, form, "repeats_every_n_weeks")
  {
    TransformedIsNormalisedStamp(params, form, event, user, clock);
    StampedPassesThrough(params, form, event, user, clock, "repeats");
    StampedPassesThrough(params, form, event, user, clock, "repeats_every_n_weeks");
  }

  /**
   * The current user is stamped as modifier of an event that has a creator,
   * leaving the creator to the submission, and as creator otherwise.
   */
  lemma InitiatorStamped(params: Params, form: Params, event: Option<EventRecord>, user: int, clock: Clock)
    requires DateAndTimePresent(params) ==> StartDateTime(params, clock).Ok?
    ensures var r := Transformed(params, Some(form), event, user, clock).value;
      if HasCreator(event) then Maps(r, "modifier_id", Number(user)) && PassesThrough(r, form, "creator_id")
      else Maps(r, "creator_id", Number(user)) && PassesThrough(r, form, "modifier_id")
  {
    TransformedIsNormalisedStamp(params, form, event, user, clock);
  }

  /**
   * The start instant is recomputed only when a start date and time are both
   * present; otherwise the whitelisted value, if any, passes through.
   */
  lemma StartInstantRecomputed(params: Params, form: Params, event: Option<EventRecord>, user: int, clock: Clock)
    requires DateAndTimePresent(params) ==> StartDateTime(params, clock).Ok?
    ensures var r := Transformed(params, Some(form), event, user, clock).value;
      if DateAndTimePresent(params) then Maps(r, "start_datetime", Time(StartDateTime(params, clock).value))
      else PassesThrough(r, form, "start_datetime")
  {
    TransformedIsNormalisedStamp(params, form, event, user, clock);
  }

  /** Every key the transformation does not write itself is the whitelisted submission. */
  lemma OtherKeysWhitelisted(params: Params, form: Params, event: Option<EventRecord>, user: int, clock: Clock, k: string)
    requires DateAndTimePresent(params) ==> StartDateTime(params, clock).Ok?
    requires k !in Rewritten
    ensures PassesThrough(Transformed(params, Some(form), event, user, clock).value, form, k)
  {
    TransformedIsNormalisedStamp(params, form, event, user, clock);
  }

  /**
   * A multi-parameter part of a permitted attribute, such as the year of the
   * start instant, reaches the saved attributes as submitted, beside a
   * recomputed start instant.
   */
  lemma MultiParameterPartKept(params: Params, form: Params, event: Option<EventRecord>, user: int, clock: Clock, year: Value)
    requires DateAndTimePresent(params) ==> StartDateTime(params, clock).Ok?
    requires Maps(form, "start_datetime(1i)", year) && !year.List?
    ensures Maps(Transformed(params, Some(form), event, user, clock).value, "start_datetime(1i)", year)
  {
    MultiParameterKeysPermitted(Permitted, "start_datetime", "1", "i");
    assert "start_datetime" + "(" + "1" + "i" + ")" == "start_datetime(1i)";
    OtherKeysWhitelisted(params, form, event, user, clock, "start_datetime(1i)");
  }

  // ---------------------------------------------------------------------
  // The update alert

  /** An element of an array being joined: a string, a nested array of strings, or nil. */
  datatype JoinPart = Piece(s: string) | Pieces(items: seq<string>) | Absent

  function PartText(part: JoinPart, sep: string): string {
    match part
    case Piece(s) => s
    case Pieces(items) => Join(items, sep)
    case Absent => ""
  }

  /** Array#join: nested arrays are joined with the same separator and nil reads as the empty string. */
  function JoinParts(parts: seq<JoinPart>, sep: string): string {
    Join(seq(|parts|, i requires 0 <= i < |parts| => PartText(parts[i], sep)), sep)
  }

  /**
   * The alert of a failed update: the heading, the validation messages and,
   * when the attempt raised, the generic note. A separator is written for
   * every element, so an attempt that did not raise leaves a trailing space.
   */
  function UpdateAlert(messages: seq<string>, raised: bool): (alert: string)
    ensures alert == "Failed to update event: " + Join(messages, " ") + " " + (if raised then "attributes invalid" else "")
  {
    var parts := [Piece("Failed to update event:"), Pieces(messages), if raised then Piece("attributes invalid") else Absent];
    var texts := seq(|parts|, i requires 0 <= i < |parts| => PartText(parts[i], " "));
    var last := if raised then "attributes invalid" else "";
    assert texts == ["Failed to update event:", Join(messages, " "), last];
    assert texts[1..][1..] == [last];
    assert Join(texts[1..], " ") == Join(messages, " ") + " " + last;
    JoinParts(parts, " ")
  }

  /** What `update_attributes` did with the attributes. */
  datatype UpdateAttempt = Saved | Rejected | Raised

  datatype UpdateResponse = RedirectToEvent | RenderEdit(alert: string)

  // ---------------------------------------------------------------------
  // The controller

  /**
   * One request to the events controller: its parameters, which `new` updates
   * in place, the stored event when the action loads one, and the signed-in user.
   */
  class EventsController {
    var params: Params
    const form: Option<Params>
    const event: Option<EventRecord>
    const currentUser: int

    constructor (params: Params, form: Option<Params>, event: Option<EventRecord>, currentUser: int)
      ensures this.params == params && this.form == form && this.event == event
      ensures this.currentUser == currentUser
    {
      this.params := params;
      this.form := form;
      this.event := event;
      this.currentUser := currentUser;
    }

    /** Sets the start instant of the event attributes when a start date and time were submitted. */
    method CreateStartDateTime(eventParams: Params, clock: Clock) returns (r: Result<Params, Failure>)
      ensures !DateAndTimePresent(params) ==> r == Ok(eventParams)
      ensures DateAndTimePresent(params) ==>
        match StartDateTime(params, clock)
        case Err(e) => r == Err(e)
        case Ok(t) => r == Ok(eventParams["start_datetime" := Time(t)])
    {
      if !DateAndTimePresent(params) {
        return Ok(eventParams);
      }
      var tz := Get(params, "start_time_tz");
      if !(tz.Text? && clock.zoneExists(tz.s)) {
        return Err(UnknownTimeZone);
      }
      var offset := NextDateOffset(params, tz.s, clock);
      if offset.Err? {
        return Err(offset.error);
      }
      var local := WallClock(Get(params, "start_date"), Get(params, "start_time"), clock);
      if local.Err? {
        return Err(local.error);
      }
      r := Ok(eventParams["start_datetime" := Time(local.value - offset.value)]);
    }

    /** The whitelisted form rewritten step by step into the attributes to save. */
    method TransformParams(clock: Clock) returns (r: Result<Params, Failure>)
      ensures r == Transformed(params, form, event, currentUser, clock)
    {
      var whitelisted := WhitelistEventParams(form, ActionInitiator(event, currentUser));
      if whitelisted.Err? {
        return Err(whitelisted.error);
      }
      var eventParams := whitelisted.value;
      var withStart := CreateStartDateTime(eventParams, clock);
      if withStart.Err? {
        return Err(withStart.error);
      }
      eventParams := withStart.value;
      eventParams := eventParams["repeat_ends" := Flag(Get(eventParams, "repeat_ends_string") == Text("on"))];
      var endsOn := Get(params, "repeat_ends_on");
      eventParams := eventParams["repeat_ends_on" := Text(if Present(endsOn) then Render(endsOn) + " UTC" else "")];
      if Get(eventParams, "repeats") == Text("biweekly") {
        eventParams := eventParams["repeats_every_n_weeks" := Number(2)];
      }
      r := Ok(eventParams);
    }

    /**
     * Saves the transformed attributes; a raise anywhere in the attempt,
     * the transformation included, is caught and noted in the alert.
     */
    method Update(clock: Clock, persist: Params -> UpdateAttempt, messages: seq<string>) returns (response: UpdateResponse)
      ensures var attributes := Transformed(params, form, event, currentUser, clock);
        response == RedirectToEvent <==> attributes.Ok? && persist(attributes.value) == Saved
      ensures var attributes := Transformed(params, form, event, currentUser, clock);
        response.RenderEdit? ==>
          response.alert == UpdateAlert(messages, attributes.Err? || persist(attributes.value) == Raised)
    {
      var updated := false;
      var raised := false;
      var attributes := TransformParams(clock);
      if attributes.Err? {
        raised := true;
      } else {
        match persist(attributes.value)
        case Saved => updated := true;
        case Rejected =>
        case Raised => raised := true;
      }
      if updated {
        response := RedirectToEvent;
      } else {
        response := RenderEdit(UpdateAlert(messages, raised));
      }
    }

    /**
     * The defaults of the new-event form. The project id is resolved in place
     * in the parameters: from the project slug when one is given, else the
     * submitted id, else the id of the fallback project, which may be nil.
     */
    method NewParams(finder: map<string, int>, fallback: Option<int>, now: int) returns (r: Result<Params, Failure>)
      modifies this`params
      ensures var project := Get(old(params), "project");
        Truthy(project) ==>
          match FriendlyFind(finder, project)
          case None => r == Err(ProjectNotFound) && params == old(params)
          case Some(id) => params == old(params)["project_id" := Text(IntToString(id))]
      ensures !Truthy(Get(old(params), "project")) && Truthy(Get(old(params), "project_id")) ==>
        params == old(params)
      ensures !Truthy(Get(old(params), "project")) && !Truthy(Get(old(params), "project_id")) ==>
        params == old(params)["project_id" := if fallback.Some? then Number(fallback.value) else Nil]
      ensures r.Ok? <==> !(Truthy(Get(old(params), "project")) && FriendlyFind(finder, Get(old(params), "project")).None?)
      ensures r.Err? ==> r == Err(ProjectNotFound)
      ensures r.Ok? ==> {"start_datetime", "duration", "repeat_ends"} <= r.value.Keys
      ensures r.Ok? ==>
        && r.value["start_datetime"] == Time(now)
        && r.value["duration"] == Number(30)
        && r.value["repeat_ends"] == Flag(true)
      ensures r.Ok? ==> forall k :: k !in {"start_datetime", "duration", "repeat_ends"} ==>
        && (k in r.value <==> k in params && PermittedKey(NewFormKeys, k) && !params[k].List?)
        && (k in r.value ==> r.value[k] == params[k])
    {
      var project := Get(params, "project");
      if Truthy(project) {
        var found := FriendlyFind(finder, project);
        if found.None? {
          return Err(ProjectNotFound);
        }
        params := params["project_id" := Text(IntToString(found.value))];
      }
      if !Truthy(Get(params, "project_id")) {
        params := params["project_id" := if fallback.Some? then Number(fallback.value) else Nil];
      }
      var permitted := map k | k in params && PermittedKey(NewFormKeys, k) && !params[k].List? :: params[k];
      r := Ok(permitted + map["start_datetime" := Time(now), "duration" := Number(30), "repeat_ends" := Flag(true)]);
    }
  }

  /** The parameters the new-event form takes from the request. */
  const NewFormKeys: set<string> := {"name", "category", "for", "project_id"}

  /**
   * The friendly finder, given as the project ids it resolves by slug or
   * numeric id; any other parameter finds nothing.
   */
  function FriendlyFind(finder: map<string, int>, key: Value): Option<int> {
    match key
    case Text(s) => if s in finder then Some(finder[s]) else None
    case Number(n) => if IntToString(n) in finder then Some(finder[IntToString(n)]) else None
    case _ => None
  }
}
