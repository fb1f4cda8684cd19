/**
 * The event conversions of `GoogleCalendarService` (`backend/core/google_calendar.py`). An
 * assistant event is a flat dict whose values are strings or null; a Google event is JSON
 * with `start`/`end` objects holding either a `dateTime` (timed) or a `date` (all day, the
 * end date exclusive).
 */
module GoogleCalendar {
  import opened Wrappers
  import opened Text
  import opened Json
  import opened Dates

  /** A flat dict: an absent key is missing, `None` is a null value. */
  type Fields = map<string, Option<string>>

  /** `d.get(key, default)` */
  function GetOr(d: Fields, key: string, default: Option<string>): (r: Option<string>)
    ensures key in d ==> r == d[key]
    ensures key !in d ==> r == default
  {
    if key in d then d[key] else default
  }

  /** Python truthiness of an optional string. */
  predicate Truthy(s: Option<string>) {
    s.Some? && s.value != []
  }

  /** How an f-string prints a string or `None`. */
  function Show(s: Option<string>): string {
    match s
    case Some(v) => v
    case None => "None"
  }

  function OptJson(s: Option<string>): (r: Json)
    ensures s.Some? <==> r.JStr?
    ensures s.Some? ==> r == JStr(s.value)
  {
    match s
    case Some(v) => JStr(v)
    case None => JNull
  }

  const TimeZone: string := "America/New_York"
  const NoTitle: string := "No Title"

  /** `f"{date}T{time}:00"` */
  function DateTime(date: Option<string>, time: Option<string>): string {
    Show(date) + "T" + Show(time) + ":00"
  }

  const NotAString: string := "strptime() argument 1 must be str, not None"
  const YearOverflow: string := "date value out of range"

  /**
   * `_convert_to_google_format`: timed when both times are truthy, with each end given as
   * date, "T", time and ":00" in New York time; otherwise all day from the date to the next
   * day. A missing or null date, a date `strptime` refuses, and the day after 9999-12-31
   * raise; the start keeps the date as given, the end is written in canonical form.
   */
  function ToGoogle(m: Fields): (r: Result<Json, string>)
    ensures r.Ok? ==> r.value.JObj? && r.value.fields.Keys == {"summary", "description", "start", "end"}
    ensures r.Ok? ==> r.value.fields["summary"] == OptJson(GetOr(m, "subject", Some(NoTitle)))
    ensures r.Ok? ==> r.value.fields["description"] == OptJson(GetOr(m, "details", Some("")))
    ensures Truthy(GetOr(m, "start_time", None)) && Truthy(GetOr(m, "end_time", None)) ==> r.Ok?
    ensures !(Truthy(GetOr(m, "start_time", None)) && Truthy(GetOr(m, "end_time", None))) ==>
      (r.Ok? <==> GetOr(m, "date", None).Some? && Strptime(GetOr(m, "date", None).value).Ok? &&
                  Strptime(GetOr(m, "date", None).value).value != Date(9999, 12, 31))
    ensures !(Truthy(GetOr(m, "start_time", None)) && Truthy(GetOr(m, "end_time", None))) ==>
      (GetOr(m, "date", None).None? ==> r == Err(NotAString)) &&
      (GetOr(m, "date", None).Some? && Strptime(GetOr(m, "date", None).value).Err? ==>
         r == Err(Strptime(GetOr(m, "date", None).value).error))
  {
    var summary := OptJson(GetOr(m, "subject", Some(NoTitle)));
    var description := OptJson(GetOr(m, "details", Some("")));
    var date := GetOr(m, "date", None);
    var startTime := GetOr(m, "start_time", None);
    var endTime := GetOr(m, "end_time", None);
    if Truthy(startTime) && Truthy(endTime) then
      Ok(JObj(map[
        "summary" := summary, "description" := description,
        "start" := JObj(map["dateTime" := JStr(DateTime(date, startTime)), "timeZone" := JStr(TimeZone)]),
        "end" := JObj(map["dateTime" := JStr(DateTime(date, endTime)), "timeZone" := JStr(TimeZone)])]))
    else if date.None? then Err(NotAString)
    else
      match Strptime(date.value)
      case Err(e) => Err(e)
      case Ok(d) =>
        if d == Date(9999, 12, 31) then Err(YearOverflow)
        else
          var next := NextDay(d);
          Ok(JObj(map[
            "summary" := summary, "description" := description,
            "start" := JObj(map["date" := JStr(date.value)]),
            "end" := JObj(map["date" := JStr(Format(next))])]))
  }

  /** Both sides of a timed event carry the date and their time to the minute. */
  lemma TimedEnds(m: Fields)
    requires Truthy(GetOr(m, "start_time", None)) && Truthy(GetOr(m, "end_time", None))
    ensures var g := ToGoogle(m).value.fields;
      Get(g["start"], "dateTime") == Some(JStr(Show(GetOr(m, "date", None)) + "T" + GetOr(m, "start_time", None).value + ":00")) &&
      Get(g["end"], "dateTime") == Some(JStr(Show(GetOr(m, "date", None)) + "T" + GetOr(m, "end_time", None).value + ":00")) &&
      Get(g["start"], "timeZone") == Some(JStr(TimeZone)) && Get(g["end"], "timeZone") == Some(JStr(TimeZone))
  {
  }

  /** An all-day event ends on the following calendar day, rolling over month and year. */
  lemma AllDayEnd(m: Fields, d: Date)
    requires !(Truthy(GetOr(m, "start_time", None)) && Truthy(GetOr(m, "end_time", None)))
    requires Valid(d) && 1 <= d.year <= 9999 && d != Date(9999, 12, 31)
    requires GetOr(m, "date", None) == Some(Format(d))
    ensures ToGoogle(m) == Ok(JObj(map[
      "summary" := OptJson(GetOr(m, "subject", Some(NoTitle))),
      "description" := OptJson(GetOr(m, "details", Some(""))),
      "start" := JObj(map["date" := JStr(Format(d))]),
      "end" := JObj(map["date" := JStr(Format(NextDay(d)))])]))
    ensures DayNumber(NextDay(d)) == DayNumber(d) + 1
  {
    StrptimeFormat(d);
  }

  /** A date written with one-digit month and day is kept as given at the start, and the end is canonical. */
  lemma AllDayShortDate(m: Fields)
    requires !(Truthy(GetOr(m, "start_time", None)) && Truthy(GetOr(m, "end_time", None)))
    requires GetOr(m, "date", None) == Some("2024-1-5")
    ensures ToGoogle(m).Ok?
    ensures Get(ToGoogle(m).value.fields["start"], "date") == Some(JStr("2024-1-5"))
    ensures Get(ToGoogle(m).value.fields["end"], "date") == Some(JStr(Format(Date(2024, 1, 6))))
  {
    StrptimeShortFields();
  }

  // ---------------------------------------------------------------------------------------
  // Back from Google
  // ---------------------------------------------------------------------------------------

  const BadIso: string := "Invalid isoformat string"

  predicate TwoDigits(s: string) {
    |s| == 2 && AllDigits(s)
  }

  /** The tail `fromisoformat` accepts after `HH:MM` in this model: seconds and an offset. */
  predicate IsoTail(t: string) {
    t == [] ||
    (|t| >= 3 && t[0] == ':' && TwoDigits(t[1..3]) &&
      (t[3..] == [] || t[3..] == "Z" ||
       (|t[3..]| == 6 && (t[3] == '+' || t[3] == '-') && ParseTime(t[4..]).Some?)))
  }

  /**
   * `fromisoformat(s.replace('Z', '+00:00')).strftime('%H:%M')` for a date, "T", `HH:MM`,
   * optional seconds and an optional offset; any other string raises.
   */
  function IsoTime(s: string): (r: Result<string, string>)
    ensures r.Ok? ==> |s| >= 16 && r.value == s[11..16] && ParseTime(r.value).Some?
  {
    if |s| >= 16 && Parse(s[..10]).Some? && s[10] == 'T' && ParseTime(s[11..16]).Some? && IsoTail(s[16..]) then
      Ok(s[11..16])
    else Err(BadIso)
  }

  /** The part before the first 'T' (`s.split('T')[0]`). */
  function BeforeT(s: string): (r: string)
    ensures r <= s && !ContainsChar(r, 'T')
    ensures |r| < |s| ==> s[|r|] == 'T'
  {
    if s == [] || s[0] == 'T' then [] else [s[0]] + BeforeT(s[1..])
  }

  /** A string value of a Google object, or `None`. */
  function StrAt(j: Json, key: string): Option<string> {
    GetStr(j, key)
  }

  /** `google_event.get(key, default)` for a string field. */
  function FieldOr(g: Json, key: string, default: string): (r: Option<string>)
    ensures Get(g, key).None? ==> r == Some(default)
    ensures Get(g, key).Some? && Get(g, key).value.JStr? ==> r == Some(Get(g, key).value.s)
  {
    if Get(g, key).None? then Some(default) else GetStr(g, key)
  }

  /** `start.get('date') or start.get('dateTime', '').split('T')[0]` */
  function EventDate(start: Json): (r: string)
    ensures Truthy(StrAt(start, "date")) ==> r == StrAt(start, "date").value
    ensures !Truthy(StrAt(start, "date")) ==> r == BeforeT(StrAt(start, "dateTime").GetOr(""))
  {
    var d := StrAt(start, "date");
    if Truthy(d) then d.value else BeforeT(StrAt(start, "dateTime").GetOr(""))
  }

  /** The `HH:MM` of a side with a truthy `dateTime`, else null. */
  function SideTime(side: Json): (r: Result<Option<string>, string>)
    ensures !Truthy(StrAt(side, "dateTime")) ==> r == Ok(None)
    ensures Truthy(StrAt(side, "dateTime")) ==>
      (r.Ok? <==> IsoTime(StrAt(side, "dateTime").value).Ok?)
  {
    var dt := StrAt(side, "dateTime");
    if !Truthy(dt) then Ok(None)
    else match IsoTime(dt.value)
      case Ok(t) => Ok(Some(t))
      case Err(e) => Err(e)
  }

  function ObjOr(g: Json, key: string): Json {
    match Get(g, key)
    case Some(v) => v
    case None => JObj(map[])
  }

  /**
   * `_convert_to_mimir_format`: the date from `start.date`, else from the date part of
   * `start.dateTime`; each time `HH:MM` when its side has a `dateTime`, else null; a missing
   * summary is "No Title", missing details are ""; the source is always "google".
   */
  function ToMimir(g: Json): (r: Result<Fields, string>)
    ensures r.Ok? <==> SideTime(ObjOr(g, "start")).Ok? && SideTime(ObjOr(g, "end")).Ok?
    ensures r.Ok? ==> r.value.Keys == {"id", "subject", "date", "start_time", "end_time", "details", "source"}
    ensures r.Ok? ==> r.value["source"] == Some("google") && r.value["id"] == StrAt(g, "id")
    ensures r.Ok? ==> r.value["subject"] == FieldOr(g, "summary", NoTitle) && r.value["details"] == FieldOr(g, "description", "")
    ensures r.Ok? ==> r.value["date"] == Some(EventDate(ObjOr(g, "start")))
    ensures r.Ok? ==> r.value["start_time"] == SideTime(ObjOr(g, "start")).value &&
                      r.value["end_time"] == SideTime(ObjOr(g, "end")).value
  {
    var start := ObjOr(g, "start");
    var end := ObjOr(g, "end");
    match SideTime(start)
    case Err(e) => Err(e)
    case Ok(startTime) =>
      match SideTime(end)
      case Err(e) => Err(e)
      case Ok(endTime) =>
        Ok(map[
          "id" := StrAt(g, "id"),
          "subject" := FieldOr(g, "summary", NoTitle),
          "date" := Some(EventDate(start)),
          "start_time" := startTime,
          "end_time" := endTime,
          "details" := FieldOr(g, "description", ""),
          "source" := Some("google")])
  }

  /** An assistant event with the fields a round trip can keep. */
  predicate Convertible(m: Fields) {
    "subject" in m && m["subject"].Some? && "details" in m && m["details"].Some? &&
    "date" in m && m["date"].Some? && Parse(m["date"].value).Some?
  }

  /**
   * A timed event with `HH:MM` times, sent to Google and read back, keeps its subject,
   * details, date and times.
   */
  lemma TimedRoundTrip(m: Fields, startTime: Time, endTime: Time)
    requires Convertible(m) && ValidTime(startTime) && ValidTime(endTime)
    requires GetOr(m, "start_time", None) == Some(FormatTime(startTime))
    requires GetOr(m, "end_time", None) == Some(FormatTime(endTime))
    ensures ToGoogle(m).Ok? && ToMimir(ToGoogle(m).value).Ok?
    ensures var back := ToMimir(ToGoogle(m).value).value;
      back["subject"] == m["subject"] && back["details"] == m["details"] && back["date"] == m["date"] &&
      back["start_time"] == Some(FormatTime(startTime)) && back["end_time"] == Some(FormatTime(endTime))
  {
    var date := m["date"].value;
    var s := DateTime(Some(date), Some(FormatTime(startTime)));
    var e := DateTime(Some(date), Some(FormatTime(endTime)));
    var summary := OptJson(m["subject"]);
    var description := OptJson(m["details"]);
    assert ToGoogle(m) == Ok(TimedJson(summary, description, s, e));
    ParseFormatTime(startTime);
    ParseFormatTime(endTime);
    IsoOfTimed(date, FormatTime(startTime));
    IsoOfTimed(date, FormatTime(endTime));
    BeforeTOfTimed(date, FormatTime(startTime));
    MimirOfTimed(summary, description, s, e);
  }

  function TimedJson(summary: Json, description: Json, s: string, e: string): Json {
    JObj(map[
      "summary" := summary, "description" := description,
      "start" := JObj(map["dateTime" := JStr(s), "timeZone" := JStr(TimeZone)]),
      "end" := JObj(map["dateTime" := JStr(e), "timeZone" := JStr(TimeZone)])])
  }

  lemma MimirOfTimed(summary: Json, description: Json, s: string, e: string)
    requires IsoTime(s).Ok? && IsoTime(e).Ok?
    ensures var back := ToMimir(TimedJson(summary, description, s, e));
      back.Ok? &&
      back.value["subject"] == (if summary.JStr? then Some(summary.s) else None) &&
      back.value["details"] == (if description.JStr? then Some(description.s) else None) &&
      back.value["date"] == Some(BeforeT(s)) &&
      back.value["start_time"] == Some(IsoTime(s).value) && back.value["end_time"] == Some(IsoTime(e).value)
  {
    var g := TimedJson(summary, description, s, e);
    TimedFields(summary, description, s, e);
    TimedSide(s);
    TimedSide(e);
    assert SideTime(ObjOr(g, "start")) == Ok(Some(IsoTime(s).value));
    assert SideTime(ObjOr(g, "end")) == Ok(Some(IsoTime(e).value));
    assert EventDate(ObjOr(g, "start")) == BeforeT(s);
  }

  lemma TimedFields(summary: Json, description: Json, s: string, e: string)
    ensures var g := TimedJson(summary, description, s, e);
      ObjOr(g, "start") == JObj(map["dateTime" := JStr(s), "timeZone" := JStr(TimeZone)]) &&
      ObjOr(g, "end") == JObj(map["dateTime" := JStr(e), "timeZone" := JStr(TimeZone)]) &&
      Get(g, "summary") == Some(summary) && Get(g, "description") == Some(description)
  {
    assert |"summary"| == 7 && |"description"| == 11 && |"start"| == 5 && |"end"| == 3;
  }

  lemma TimedSide(s: string)
    requires IsoTime(s).Ok?
    ensures var side := JObj(map["dateTime" := JStr(s), "timeZone" := JStr(TimeZone)]);
      SideTime(side) == Ok(Some(IsoTime(s).value)) && EventDate(side) == BeforeT(s)
  {
    var side := JObj(map["dateTime" := JStr(s), "timeZone" := JStr(TimeZone)]);
    assert "date" != "dateTime" by { assert |"date"| != |"dateTime"|; }
    assert "date" != "timeZone" by { assert |"date"| != |"timeZone"|; }
    assert side.fields.Keys == {"dateTime", "timeZone"};
    assert StrAt(side, "dateTime") == Some(s) && StrAt(side, "date") == None;
    DateTimeSide(side, s);
  }

  /** A side with a well-formed `dateTime` and no `date` gives that time and its date part. */
  lemma DateTimeSide(side: Json, s: string)
    requires StrAt(side, "dateTime") == Some(s) && StrAt(side, "date") == None && IsoTime(s).Ok?
    ensures SideTime(side) == Ok(Some(IsoTime(s).value)) && EventDate(side) == BeforeT(s)
  {
  }

  lemma IsoOfTimed(date: string, time: string)
    requires Parse(date).Some? && ParseTime(time).Some?
    ensures IsoTime(date + "T" + time + ":00") == Ok(time)
  {
    FormatParse(date);
    FormatParseTime(time);
    var s := date + "T" + time + ":00";
    assert s[..10] == date && s[10] == 'T' && s[11..16] == time && s[16..] == ":00";
    assert TwoDigits(s[16..][1..3]);
  }

  lemma BeforeTOfTimed(date: string, time: string)
    requires Parse(date).Some?
    ensures BeforeT(date + "T" + time + ":00") == date
  {
    FormatParse(date);
    assert forall k | 0 <= k < |date| :: date[k] != 'T';
    BeforeTPrefix(date, "T" + time + ":00");
    assert date + "T" + time + ":00" == date + ("T" + time + ":00");
  }

  lemma {:induction false} BeforeTPrefix(a: string, b: string)
    requires forall k | 0 <= k < |a| :: a[k] != 'T'
    requires b != [] && b[0] == 'T'
    ensures BeforeT(a + b) == a
  {
    if a == [] {
      assert a + b == b;
    } else {
      assert (a + b)[1..] == a[1..] + b;
      BeforeTPrefix(a[1..], b);
      assert a == [a[0]] + a[1..];
    }
  }

  /**
   * An all-day event read back keeps its subject, details and date, as written, and has no
   * times; this holds for every date `strptime` accepts, canonical or not.
   */
  lemma AllDayRoundTrip(m: Fields)
    requires "subject" in m && m["subject"].Some? && "details" in m && m["details"].Some?
    requires "date" in m && m["date"].Some? && Strptime(m["date"].value).Ok?
    requires Strptime(m["date"].value).value != Date(9999, 12, 31)
    requires !(Truthy(GetOr(m, "start_time", None)) && Truthy(GetOr(m, "end_time", None)))
    ensures ToGoogle(m).Ok? && ToMimir(ToGoogle(m).value).Ok?
    ensures var back := ToMimir(ToGoogle(m).value).value;
      back["subject"] == m["subject"] && back["details"] == m["details"] && back["date"] == m["date"] &&
      back["start_time"] == None && back["end_time"] == None
  {
    var date := m["date"].value;
    var g := ToGoogle(m).value;
    var start := JObj(map["date" := JStr(date)]);
    var end := g.fields["end"];
    assert ObjOr(g, "start") == start && ObjOr(g, "end") == end;
    assert StrAt(start, "date") == Some(date) && StrAt(start, "dateTime") == None;
    assert StrAt(end, "dateTime") == None;
    assert SideTime(start) == Ok(None) && SideTime(end) == Ok(None);
    assert Get(g, "summary") == Some(OptJson(m["subject"])) && Get(g, "description") == Some(OptJson(m["details"]));
  }
}
