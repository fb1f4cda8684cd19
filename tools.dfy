/**
 * The assistant's tools (`backend/core/tools.py`) that carry logic of their own: the
 * time-stamped result cache, the weather tool's cache hit and daily forecast aggregation,
 * and the two cooking tools. Network results and the clock are parameters.
 */
module Tools {
  import opened Wrappers
  import opened Text
  import opened Json
  import opened Sorting
  import ChatPage

  // ---------------------------------------------------------------------------------------
  // Result cache
  // ---------------------------------------------------------------------------------------

  /** Microseconds in a minute: `datetime` differences are compared at microsecond precision. */
  const MinuteMicros: int := 60_000_000

  datatype Entry = Entry(value: Json, storedAt: int)

  /** An entry is fresh when its age is strictly below the limit. */
  predicate Fresh(e: Entry, maxAgeMinutes: int, now: int) {
    now - e.storedAt < maxAgeMinutes * MinuteMicros
  }

  /** The module-level `_cache` dictionary. */
  class ToolCache {
    var entries: map<string, Entry>

    constructor ()
      ensures entries == map[]
    {
      entries := map[];
    }

    /** `_get_cache`: the stored value iff the key is present and fresh. */
    function Get(key: string, maxAgeMinutes: int, now: int): (r: Option<Json>)
      reads this
      ensures r.Some? <==> key in entries && Fresh(entries[key], maxAgeMinutes, now)
      ensures r.Some? ==> r.value == entries[key].value
    {
      if key in entries && Fresh(entries[key], maxAgeMinutes, now) then Some(entries[key].value) else None
    }

    /** `_set_cache`: overwrite the entry, stamped with the current time. */
    method Set(key: string, value: Json, now: int)
      modifies this
      ensures entries == old(entries)[key := Entry(value, now)]
      ensures forall maxAge | maxAge > 0 :: Get(key, maxAge, now) == Some(value)
    {
      entries := entries[key := Entry(value, now)];
    }
  }

  // ---------------------------------------------------------------------------------------
  // Weather
  // ---------------------------------------------------------------------------------------

  /** Python's `str()` of an optional argument: `None` prints as "None". */
  function ShowOpt(s: Option<string>): string {
    match s
    case Some(v) => v
    case None => "None"
  }

  /** `f"weather_{location}_{lat}_{lon}"`, with the coordinates already rendered as text. */
  function WeatherKey(location: Option<string>, lat: Option<string>, lon: Option<string>): string {
    "weather_" + ShowOpt(location) + "_" + ShowOpt(lat) + "_" + ShowOpt(lon)
  }

  /** One three-hourly forecast reading, its date already taken from its timestamp. */
  datatype Reading = Reading(date: string, temp: int, conditions: string)

  datatype DayForecast = DayForecast(date: string, high: int, low: int, conditions: string)

  /** The readings for `date`, in order. */
  function ReadingsOn(readings: seq<Reading>, date: string): seq<Reading> {
    if readings == [] then []
    else
      var last := readings[|readings| - 1];
      ReadingsOn(readings[..|readings| - 1], date) + (if last.date == date then [last] else [])
  }

  function MaxTemp(rs: seq<Reading>): int
    requires rs != []
  {
    if |rs| == 1 then rs[0].temp
    else var m := MaxTemp(rs[..|rs| - 1]); if rs[|rs| - 1].temp > m then rs[|rs| - 1].temp else m
  }

  function MinTemp(rs: seq<Reading>): int
    requires rs != []
  {
    if |rs| == 1 then rs[0].temp
    else var m := MinTemp(rs[..|rs| - 1]); if rs[|rs| - 1].temp < m then rs[|rs| - 1].temp else m
  }

  /** The day's summary: highest and lowest temperature, and the first reading's conditions. */
  function Summary(rs: seq<Reading>, date: string): DayForecast
    requires rs != []
  {
    DayForecast(date, MaxTemp(rs), MinTemp(rs), rs[0].conditions)
  }

  /** The distinct dates of the readings, in first-seen order (the dict's key order). */
  function DatesSeen(readings: seq<Reading>): (r: seq<string>)
    ensures forall d :: d in r <==> exists k | 0 <= k < |readings| :: readings[k].date == d
    ensures forall i, j | 0 <= i < j < |r| :: r[i] != r[j]
  {
    if readings == [] then []
    else
      var init := DatesSeen(readings[..|readings| - 1]);
      var d := readings[|readings| - 1].date;
      assert forall k | 0 <= k < |readings| - 1 :: readings[..|readings| - 1][k] == readings[k];
      if d in init then init else init + [d]
  }

  lemma {:induction false} ReadingsOnNonEmpty(readings: seq<Reading>, date: string)
    requires date in DatesSeen(readings)
    ensures ReadingsOn(readings, date) != []
  {
    var init := readings[..|readings| - 1];
    if readings[|readings| - 1].date != date {
      assert date in DatesSeen(init);
      ReadingsOnNonEmpty(init, date);
    }
  }

  /** Every day's low is at most its high. */
  lemma {:induction false} LowNotAboveHigh(rs: seq<Reading>)
    requires rs != []
    ensures MinTemp(rs) <= MaxTemp(rs)
  {
    if |rs| > 1 {
      LowNotAboveHigh(rs[..|rs| - 1]);
    }
  }

  /** The day's low and high bound every one of its readings, and both are attained. */
  lemma {:induction false} TempsBound(rs: seq<Reading>)
    requires rs != []
    ensures forall k | 0 <= k < |rs| :: MinTemp(rs) <= rs[k].temp <= MaxTemp(rs)
    ensures exists k | 0 <= k < |rs| :: rs[k].temp == MaxTemp(rs)
    ensures exists k | 0 <= k < |rs| :: rs[k].temp == MinTemp(rs)
  {
    if |rs| == 1 {
      assert rs[0].temp == MaxTemp(rs) == MinTemp(rs);
    } else {
      var init := rs[..|rs| - 1];
      var last := |rs| - 1;
      TempsBound(init);
      assert forall k | 0 <= k < |init| :: init[k] == rs[k];
      var a :| 0 <= a < |init| && init[a].temp == MaxTemp(init);
      var b :| 0 <= b < |init| && init[b].temp == MinTemp(init);
      if rs[last].temp > MaxTemp(init) {
        assert rs[last].temp == MaxTemp(rs);
      } else {
        assert rs[a].temp == MaxTemp(rs);
      }
      if rs[last].temp < MinTemp(init) {
        assert rs[last].temp == MinTemp(rs);
      } else {
        assert rs[b].temp == MinTemp(rs);
      }
    }
  }

  /** The `daily_forecast` dictionary after the readings, one reading at a time. */
  function Aggregate(readings: seq<Reading>): map<string, DayForecast> {
    if readings == [] then map[]
    else
      var days := Aggregate(readings[..|readings| - 1]);
      var item := readings[|readings| - 1];
      if item.date !in days then days[item.date := DayForecast(item.date, item.temp, item.temp, item.conditions)]
      else
        var day := days[item.date];
        days[item.date := day.(high := if item.temp > day.high then item.temp else day.high,
                               low := if item.temp < day.low then item.temp else day.low)]
  }

  /**
   * The dictionary has exactly the dates of the readings, and each date's entry is the
   * summary of that date's readings: highest, lowest, and the first reading's conditions.
   */
  lemma {:induction false} AggregateKeys(readings: seq<Reading>)
    ensures forall d :: d in Aggregate(readings) <==> d in DatesSeen(readings)
  {
    if readings != [] {
      AggregateKeys(readings[..|readings| - 1]);
    }
  }

  lemma {:induction false} AggregateSummarises(readings: seq<Reading>)
    ensures forall d | d in Aggregate(readings) :: Aggregate(readings)[d] == DaySummary(readings, d)
  {
    if readings != [] {
      var init := readings[..|readings| - 1];
      AggregateSummarises(init);
      AggregateKeys(init);
      forall d | d in Aggregate(readings)
        ensures Aggregate(readings)[d] == DaySummary(readings, d)
      {
        SummaryAfterLast(readings, d);
      }
    }
  }

  /** One more reading updates its date's summary as the dictionary update does. */
  lemma SummaryAfterLast(readings: seq<Reading>, d: string)
    requires readings != [] && d in Aggregate(readings)
    requires var init := readings[..|readings| - 1];
      (d in Aggregate(init) <==> d in DatesSeen(init))
      && (d in Aggregate(init) ==> Aggregate(init)[d] == DaySummary(init, d))
    ensures Aggregate(readings)[d] == DaySummary(readings, d)
  {
    var init := readings[..|readings| - 1];
    var item := readings[|readings| - 1];
    var before := ReadingsOn(init, d);
    if d in DatesSeen(init) {
      ReadingsOnNonEmpty(init, d);
    } else if before != [] {
      OnlySeenDatesHaveReadings(init, d);
    }
    if d != item.date {
      assert ReadingsOn(readings, d) == before;
    } else if before == [] {
      assert ReadingsOn(readings, d) == [item];
    } else {
      assert ReadingsOn(readings, d) == before + [item];
      assert (before + [item])[..|before|] == before;
    }
  }

  /**
   * The aggregation loop over the forecast readings: the first reading of a date sets high,
   * low and conditions; later ones only raise the high or lower the low.
   */
  method AggregateForecast(readings: seq<Reading>) returns (order: seq<string>, days: map<string, DayForecast>)
    ensures order == DatesSeen(readings)
    ensures days == Aggregate(readings)
  {
    order := [];
    days := map[];
    var i := 0;
    while i < |readings|
      invariant 0 <= i <= |readings|
      invariant order == DatesSeen(readings[..i])
      invariant days == Aggregate(readings[..i])
    {
      var item := readings[i];
      GroupingStep(readings, i);
      if item.date !in days {
        days := days[item.date := DayForecast(item.date, item.temp, item.temp, item.conditions)];
        order := order + [item.date];
      } else {
        var day := days[item.date];
        var high := if item.temp > day.high then item.temp else day.high;
        var low := if item.temp < day.low then item.temp else day.low;
        days := days[item.date := day.(high := high, low := low)];
      }
      i := i + 1;
    }
    assert readings[..i] == readings;
  }

  /** One more turn of the grouping loop, on the key order and on the dictionary. */
  lemma GroupingStep(readings: seq<Reading>, i: nat)
    requires i < |readings|
    ensures var item, days := readings[i], Aggregate(readings[..i]);
      && DatesSeen(readings[..i + 1]) == DatesSeen(readings[..i]) + (if item.date in days then [] else [item.date])
      && Aggregate(readings[..i + 1]) == (
        if item.date !in days then days[item.date := DayForecast(item.date, item.temp, item.temp, item.conditions)]
        else days[item.date := days[item.date].(high := if item.temp > days[item.date].high then item.temp else days[item.date].high,
                                                low := if item.temp < days[item.date].low then item.temp else days[item.date].low)])
  {
    var next := readings[..i + 1];
    assert next[..|next| - 1] == readings[..i] && next[|next| - 1] == readings[i];
    AggregateKeys(readings[..i]);
  }

  lemma {:induction false} OnlySeenDatesHaveReadings(readings: seq<Reading>, date: string)
    requires ReadingsOn(readings, date) != []
    ensures date in DatesSeen(readings)
  {
    var init := readings[..|readings| - 1];
    if readings[|readings| - 1].date != date {
      OnlySeenDatesHaveReadings(init, date);
    } else {
      assert readings[|readings| - 1].date == date;
    }
  }

  /** A date's summary, from the readings for it (a date with none never reaches the forecast). */
  function DaySummary(readings: seq<Reading>, date: string): DayForecast {
    var rs := ReadingsOn(readings, date);
    if rs == [] then DayForecast(date, 0, 0, []) else Summary(rs, date)
  }

  /** `sorted(daily_forecast.keys())`. */
  function SortedDates(readings: seq<Reading>): (r: seq<string>)
    ensures SortedBy(r, StrOrder())
    ensures multiset(r) == multiset(DatesSeen(readings))
  {
    StrOrderIsTotal();
    SortBy(DatesSeen(readings), StrOrder())
  }

  /** The forecast list: the summaries of the first five dates in sorted order. */
  function Forecast(readings: seq<Reading>): seq<DayForecast> {
    var dates := SortedDates(readings);
    var n := if |dates| < 5 then |dates| else 5;
    seq(n, k requires 0 <= k < n => DaySummary(readings, dates[k]))
  }

  /** Entry `k` of the forecast summarises the `k`-th sorted date. */
  lemma ForecastAt(readings: seq<Reading>)
    ensures |Forecast(readings)| == if |SortedDates(readings)| < 5 then |SortedDates(readings)| else 5
    ensures forall k | 0 <= k < |Forecast(readings)| :: Forecast(readings)[k] == DaySummary(readings, SortedDates(readings)[k])
  {
  }

  /** The sorted dates are the distinct dates of the readings. */
  lemma SortedDatesDistinct(readings: seq<Reading>)
    ensures forall d :: d in SortedDates(readings) <==> d in DatesSeen(readings)
    ensures forall i, j | 0 <= i < j < |SortedDates(readings)| :: SortedDates(readings)[i] != SortedDates(readings)[j]
  {
    var dates := DatesSeen(readings);
    var sorted := SortedDates(readings);
    forall d
      ensures d in sorted <==> d in dates
    {
      assert d in sorted <==> d in multiset(sorted);
      assert d in dates <==> d in multiset(dates);
    }
    DistinctAfterSort(dates, sorted);
  }

  /** Every sorted date has its summary in the dictionary. */
  lemma LookupSortedDate(readings: seq<Reading>, d: string)
    requires d in SortedDates(readings)
    ensures d in Aggregate(readings) && Aggregate(readings)[d] == DaySummary(readings, d)
  {
    SortedDatesDistinct(readings);
    AggregateKeys(readings);
    AggregateSummarises(readings);
  }

  /** Entry `k` of the forecast is the dictionary's entry for the `k`-th sorted date. */
  lemma ForecastFromDictionary(readings: seq<Reading>)
    ensures |Forecast(readings)| == if |SortedDates(readings)| < 5 then |SortedDates(readings)| else 5
    ensures forall k | 0 <= k < |Forecast(readings)| ::
      SortedDates(readings)[k] in Aggregate(readings) && Aggregate(readings)[SortedDates(readings)[k]] == Forecast(readings)[k]
  {
    ForecastAt(readings);
    forall k | 0 <= k < |Forecast(readings)|
      ensures SortedDates(readings)[k] in Aggregate(readings)
      ensures Aggregate(readings)[SortedDates(readings)[k]] == Forecast(readings)[k]
    {
      LookupSortedDate(readings, SortedDates(readings)[k]);
    }
  }

  /** The aggregation loop followed by the loop over the first five sorted dates. */
  method WeatherForecast(readings: seq<Reading>) returns (forecast: seq<DayForecast>)
    ensures forecast == Forecast(readings)
  {
    var order, days := AggregateForecast(readings);
    var sorted := SortedDates(readings);
    ForecastFromDictionary(readings);
    forecast := FirstFive(days, sorted);
  }

  /** The loop over the sorted dates: the entries of the first five, in order. */
  method FirstFive(days: map<string, DayForecast>, sorted: seq<string>) returns (forecast: seq<DayForecast>)
    requires forall k | 0 <= k < |sorted| && k < 5 :: sorted[k] in days
    ensures |forecast| == if |sorted| < 5 then |sorted| else 5
    ensures forall k | 0 <= k < |forecast| :: forecast[k] == days[sorted[k]]
  {
    var n := if |sorted| < 5 then |sorted| else 5;
    forecast := [];
    var i := 0;
    while i < n
      invariant 0 <= i <= n && |forecast| == i
      invariant forall k | 0 <= k < i :: forecast[k] == days[sorted[k]]
    {
      forecast := forecast + [days[sorted[i]]];
      i := i + 1;
    }
  }

  /** At most five days, in strictly ascending date order, each a date some reading has. */
  lemma ForecastOrdered(readings: seq<Reading>)
    ensures |Forecast(readings)| == if |DatesSeen(readings)| < 5 then |DatesSeen(readings)| else 5
    ensures forall i, j | 0 <= i < j < |Forecast(readings)| ::
      StrLe(Forecast(readings)[i].date, Forecast(readings)[j].date) && Forecast(readings)[i].date != Forecast(readings)[j].date
    ensures forall i | 0 <= i < |Forecast(readings)| :: Forecast(readings)[i].date in DatesSeen(readings)
  {
    var sorted := SortedDates(readings);
    ForecastAt(readings);
    SortedDatesDistinct(readings);
    assert |sorted| == |multiset(sorted)| == |multiset(DatesSeen(readings))| == |DatesSeen(readings)|;
    assert forall i | 0 <= i < |Forecast(readings)| :: Forecast(readings)[i].date == sorted[i];
  }

  /** No date left out of the forecast is earlier than a date kept. */
  lemma ForecastEarliest(readings: seq<Reading>, d: string)
    requires d in DatesSeen(readings)
    requires forall i | 0 <= i < |Forecast(readings)| :: Forecast(readings)[i].date != d
    ensures forall i | 0 <= i < |Forecast(readings)| :: StrLe(Forecast(readings)[i].date, d)
  {
    var f := Forecast(readings);
    var sorted := SortedDates(readings);
    ForecastAt(readings);
    SortedDatesDistinct(readings);
    var m :| 0 <= m < |sorted| && sorted[m] == d;
    assert forall i | 0 <= i < |f| :: f[i].date == sorted[i];
    assert |f| <= m;
  }

  /** Each forecast day bounds its readings and keeps the conditions of its first reading. */
  lemma ForecastDaysSummarise(readings: seq<Reading>, i: int)
    requires 0 <= i < |Forecast(readings)|
    ensures var day := Forecast(readings)[i];
      var rs := ReadingsOn(readings, day.date);
      rs != [] && day.low <= day.high && day.conditions == rs[0].conditions &&
      (forall k | 0 <= k < |rs| :: day.low <= rs[k].temp <= day.high)
  {
    var sorted := SortedDates(readings);
    assert sorted[i] in multiset(DatesSeen(readings));
    ReadingsOnNonEmpty(readings, sorted[i]);
    TempsBound(ReadingsOn(readings, sorted[i]));
  }

  lemma DistinctAfterSort(order: seq<string>, sorted: seq<string>)
    requires forall i, j | 0 <= i < j < |order| :: order[i] != order[j]
    requires multiset(sorted) == multiset(order)
    ensures forall i, j | 0 <= i < j < |sorted| :: sorted[i] != sorted[j]
  {
    forall i, j | 0 <= i < j < |sorted|
      ensures sorted[i] != sorted[j]
    {
      DistinctCount(order, sorted[i]);
      SingleOccurrence(sorted, i, j);
    }
  }

  /** An element occurring at most once cannot sit at two positions. */
  lemma SingleOccurrence(s: seq<string>, i: int, j: int)
    requires 0 <= i < j < |s| && multiset(s)[s[i]] <= 1
    ensures s[i] != s[j]
  {
    assert s == s[..i] + [s[i]] + s[i + 1..j] + [s[j]] + s[j + 1..];
  }

  lemma {:induction false} DistinctCount(s: seq<string>, x: string)
    requires forall i, j | 0 <= i < j < |s| :: s[i] != s[j]
    ensures multiset(s)[x] <= 1
  {
    if s != [] {
      var init := s[..|s| - 1];
      DistinctCount(init, x);
      assert s == init + [s[|s| - 1]];
      if s[|s| - 1] == x {
        assert x !in init;
      }
    }
  }

  // ---------------------------------------------------------------------------------------
  // The weather tool
  // ---------------------------------------------------------------------------------------

  /** How long a weather result stays fresh. */
  const WeatherMaxAge: int := 30

  /** What the geocoding, current-weather and forecast requests come back with. */
  datatype WeatherFetch =
    | NotFound
    | FetchFailed(message: string)
    | Fetched(locationName: string, current: Json, readings: seq<Reading>)

  function ErrorJson(message: string): Json {
    JObj(map["error" := JStr(message)])
  }

  function DayJson(day: DayForecast): Json {
    JObj(map["date" := JStr(day.date), "high" := JInt(day.high), "low" := JInt(day.low), "conditions" := JStr(day.conditions)])
  }

  function WeatherJson(locationName: string, current: Json, forecast: seq<DayForecast>): (r: Json)
    ensures PyTruthy(r)
  {
    var days := seq(|forecast|, k requires 0 <= k < |forecast| => DayJson(forecast[k]));
    var fields := map["location" := JStr(locationName), "current" := current, "forecast" := JArr(days)];
    assert "location" in fields;
    JObj(fields)
  }

  /**
   * `get_weather`: a truthy fresh cache entry is returned as it is and nothing is fetched;
   * otherwise an unknown location or a failed request gives an error object and leaves the
   * cache alone, and a successful fetch is summarised, cached under the key and returned.
   */
  method GetWeather(cache: ToolCache, location: Option<string>, lat: Option<string>, lon: Option<string>,
                    fetched: WeatherFetch, now: int) returns (r: Json)
    modifies cache
    ensures var key := WeatherKey(location, lat, lon);
      var hit := old(cache.Get(key, WeatherMaxAge, now));
      if hit.Some? && PyTruthy(hit.value) then r == hit.value && cache.entries == old(cache.entries)
      else match fetched
        case NotFound => r == ErrorJson("Location '" + ShowOpt(location) + "' not found") && cache.entries == old(cache.entries)
        case FetchFailed(message) => r == ErrorJson(message) && cache.entries == old(cache.entries)
        case Fetched(name, current, readings) =>
          r == WeatherJson(name, current, Forecast(readings)) && cache.entries == old(cache.entries)[key := Entry(r, now)] &&
          cache.Get(key, WeatherMaxAge, now) == Some(r) && PyTruthy(r)
  {
    var key := WeatherKey(location, lat, lon);
    var cached := cache.Get(key, WeatherMaxAge, now);
    if cached.Some? && PyTruthy(cached.value) {
      return cached.value;
    }
    match fetched {
      case NotFound =>
        r := ErrorJson("Location '" + ShowOpt(location) + "' not found");
      case FetchFailed(message) =>
        r := ErrorJson(message);
      case Fetched(name, current, readings) =>
        var forecast := WeatherForecast(readings);
        r := WeatherJson(name, current, forecast);
        cache.Set(key, r, now);
    }
  }

  // ---------------------------------------------------------------------------------------
  // Cooking tools
  // ---------------------------------------------------------------------------------------

  const MissingSteps: Json := JObj(map[
    "status" := JStr("error"),
    "error" := JStr("MISSING STEPS PARAMETER"),
    "message" := JStr("The 'steps' parameter is REQUIRED and cannot be empty. You must provide a list of cooking steps. Example: steps=['Step 1 description', 'Step 2 description', 'Step 3 description']. Please call start_cooking again with ALL recipe steps included in the steps parameter.")])

  const MissingIngredients: Json := JObj(map[
    "status" := JStr("error"),
    "error" := JStr("MISSING INGREDIENTS PARAMETER"),
    "message" := JStr("The 'ingredients' parameter is REQUIRED and cannot be empty. Please provide a list of ingredients with quantities.")])

  function RecipeJson(title: Json, ingredients: seq<string>, steps: seq<string>): Json {
    JObj(map["title" := title, "ingredients" := JArr(Strs(ingredients)), "steps" := JArr(Strs(steps))])
  }

  /**
   * `start_cooking`: a session starts iff both lists are non-empty; missing steps are
   * reported first, then missing ingredients; a started session echoes the recipe.
   */
  function StartCooking(title: Json, ingredients: seq<string>, steps: seq<string>): (r: Json)
    ensures GetStr(r, "status") == Some("started") <==> steps != [] && ingredients != []
    ensures steps == [] ==> r == MissingSteps
    ensures steps != [] && ingredients == [] ==> r == MissingIngredients
    ensures GetStr(r, "status") == Some("started") ==> Get(r, "recipe") == Some(RecipeJson(title, ingredients, steps))
  {
    if steps == [] then MissingSteps
    else if ingredients == [] then MissingIngredients
    else JObj(map["status" := JStr("started"), "recipe" := RecipeJson(title, ingredients, steps)])
  }

  /** `cooking_navigation`: status "navigating", echoing the action and the step index. */
  function CookingNavigation(action: Json, stepIndex: Json): (r: Json)
    ensures GetStr(r, "status") == Some("navigating")
    ensures Get(r, "action") == Some(action) && Get(r, "step_index") == Some(stepIndex)
  {
    JObj(map["status" := JStr("navigating"), "action" := action, "step_index" := stepIndex])
  }

  /** The recipe a started session echoes lets the page step through exactly its steps. */
  lemma StartedRecipeNavigable(title: Json, ingredients: seq<string>, steps: seq<string>)
    requires steps != [] && ingredients != []
    ensures var r := StartCooking(title, ingredients, steps);
      Get(r, "recipe").Some? && ChatPage.NavLimit(Get(r, "recipe")) == |steps| - 1
  {
  }
}
