/** The two provider adapters, `OpenWeatherMapAPI` and `WeatherStackAPI`:
    how each builds its request URL and how `collect_temperature` turns the
    decoded payload into exactly one collector update. */
module Providers {
  import opened Python
  import opened Json
  import opened Collector

  /** The adapter classes `main` can list in `apis`. */
  datatype Provider = OpenWeatherMap | WeatherStack

  /** The API keys `os.getenv` yields at start-up (`None` when unset). */
  datatype Env = Env(openWeatherKey: Option<string>, weatherstackKey: Option<string>)

  const OPEN_WEATHER_BASE_URL: string := "https://api.openweathermap.org/data/2.5/weather?"
  const WEATHERSTACK_BASE_URL: string := "http://api.weatherstack.com/current?"

  /** An adapter object: the city it asks about and its configuration. */
  datatype Adapter =
    | OpenWeatherMapAPI(city: string, units: string, apiKey: Option<string>)
    | WeatherStackAPI(city: string, apiKey: Option<string>)

  /** `OpenWeatherMapAPI(city, collector, units)`: `units or "Metric"`, so a
      missing or empty `units` becomes "Metric". */
  function NewOpenWeatherMap(city: string, units: Option<string>, env: Env): (a: Adapter)
    ensures a.OpenWeatherMapAPI? && a.city == city && a.apiKey == env.openWeatherKey
    ensures a.units == "Metric" <==> units.None? || units.value in {"", "Metric"}
    ensures a.units != "Metric" ==> units == Some(a.units)
  {
    OpenWeatherMapAPI(city, if units.None? || units.value == "" then "Metric" else units.value, env.openWeatherKey)
  }

  /** The adapter `main` builds for one task: `api(city, data_collector=collector)`. */
  function NewAdapter(p: Provider, city: string, env: Env): (a: Adapter)
    ensures a.city == city
    ensures p.OpenWeatherMap? <==> a.OpenWeatherMapAPI?
  {
    match p
    case OpenWeatherMap => NewOpenWeatherMap(city, None, env)
    case WeatherStack => WeatherStackAPI(city, env.weatherstackKey)
  }

  /** `get_url(q)`: the request URL, with the key, the city, the units
      (OpenWeatherMap only) and `q` rendered by an f-string. */
  function GetUrl(a: Adapter, q: Option<string>): string {
    match a
    case OpenWeatherMapAPI(city, units, key) =>
      OPEN_WEATHER_BASE_URL + "appid=" + Str(key) + "&q=" + city + "&units=" + units + "&" + Str(q)
    case WeatherStackAPI(city, key) =>
      WEATHERSTACK_BASE_URL + "access_key=" + Str(key) + "&query=" + city + "&" + Str(q)
  }

  /** The pieces of `s` between occurrences of `sep`, as a URL query is read. */
  function Split(s: string, sep: char): (parts: seq<string>)
    ensures |parts| >= 1
    decreases |s|
  {
    if s == [] then [""]
    else
      var rest := Split(s[1..], sep);
      if s[0] == sep then [""] + rest else [[s[0]] + rest[0]] + rest[1..]
  }

  lemma {:induction false} SplitJoin(a: string, b: string, sep: char)
    requires sep !in a
    ensures Split(a + [sep] + b, sep) == [a] + Split(b, sep)
    decreases |a|
  {
    var s := a + [sep] + b;
    if a == [] {
      assert s[1..] == b;
    } else {
      assert s[1..] == a[1..] + [sep] + b;
      SplitJoin(a[1..], b, sep);
      assert [a[0]] + a[1..] == a;
    }
  }

  lemma {:induction false} SplitNone(a: string, sep: char)
    requires sep !in a
    ensures Split(a, sep) == [a]
    decreases |a|
  {
    if a != [] {
      SplitNone(a[1..], sep);
      assert [a[0]] + a[1..] == a;
    }
  }

  /** Fields without the separator, joined by it, split back into themselves. */
  lemma {:induction false} SplitFields(fields: seq<string>, tail: string, sep: char)
    requires forall i :: 0 <= i < |fields| ==> sep !in fields[i]
    ensures Split(JoinThen(fields, tail, sep), sep) == fields + Split(tail, sep)
    decreases |fields|
  {
    if fields != [] {
      var rest := fields[1..];
      assert forall i :: 0 <= i < |rest| ==> sep !in rest[i] by {
        forall i | 0 <= i < |rest| ensures sep !in rest[i] { assert rest[i] == fields[i + 1]; }
      }
      SplitFields(rest, tail, sep);
      var joined := JoinThen(rest, tail, sep);
      assert JoinThen(fields, tail, sep) == fields[0] + [sep] + joined;
      assert sep !in fields[0];
      SplitJoin(fields[0], joined, sep);
      assert fields == [fields[0]] + rest;
    }
  }

  /** Each field followed by `sep`, then `tail`. */
  function JoinThen(fields: seq<string>, tail: string, sep: char): string
    decreases |fields|
  {
    if fields == [] then tail else fields[0] + [sep] + JoinThen(fields[1..], tail, sep)
  }

  /** An OpenWeatherMap URL is the base URL followed by a query whose
      `&`-separated fields are the key, the city, the units and then `q`,
      provided none of the first three contains `&`. */
  lemma OpenWeatherMapUrlFields(a: Adapter, q: Option<string>)
    requires a.OpenWeatherMapAPI?
    requires '&' !in Str(a.apiKey) && '&' !in a.city && '&' !in a.units
    ensures var url := GetUrl(a, q);
      && |OPEN_WEATHER_BASE_URL| <= |url|
      && url[..|OPEN_WEATHER_BASE_URL|] == OPEN_WEATHER_BASE_URL
      && Split(url[|OPEN_WEATHER_BASE_URL|..], '&')
         == ["appid=" + Str(a.apiKey), "q=" + a.city, "units=" + a.units] + Split(Str(q), '&')
  {
    var key, tail := Str(a.apiKey), Str(q);
    var fields := ["appid=" + key, "q=" + a.city, "units=" + a.units];
    OpenWeatherMapQuery(key, a.city, a.units, tail);
    var url := GetUrl(a, q);
    var query := "appid=" + key + "&q=" + a.city + "&units=" + a.units + "&" + tail;
    assert url == OPEN_WEATHER_BASE_URL + "appid=" + key + "&q=" + a.city + "&units=" + a.units + "&" + tail;
    PrefixThen(OPEN_WEATHER_BASE_URL, "appid=" + key + "&q=" + a.city + "&units=" + a.units + "&", tail);
    PrefixThen(OPEN_WEATHER_BASE_URL, "appid=" + key + "&q=" + a.city + "&units=" + a.units, "&");
    PrefixThen(OPEN_WEATHER_BASE_URL, "appid=" + key + "&q=" + a.city + "&units=", a.units);
    PrefixThen(OPEN_WEATHER_BASE_URL, "appid=" + key + "&q=" + a.city, "&units=");
    PrefixThen(OPEN_WEATHER_BASE_URL, "appid=" + key + "&q=", a.city);
    PrefixThen(OPEN_WEATHER_BASE_URL, "appid=" + key, "&q=");
    PrefixThen(OPEN_WEATHER_BASE_URL, "appid=", key);
    assert url == OPEN_WEATHER_BASE_URL + query;
    assert url[|OPEN_WEATHER_BASE_URL|..] == JoinThen(fields, tail, '&');
    SplitFields(fields, tail, '&');
  }

  lemma PrefixThen(base: string, x: string, y: string)
    ensures base + x + y == base + (x + y)
  {
  }

  /** The query part of an OpenWeatherMap URL, as fields joined by `&`. */
  lemma OpenWeatherMapQuery(key: string, city: string, units: string, tail: string)
    ensures JoinThen(["appid=" + key, "q=" + city, "units=" + units], tail, '&')
      == "appid=" + key + "&q=" + city + "&units=" + units + "&" + tail
  {
    var fields := ["appid=" + key, "q=" + city, "units=" + units];
    assert JoinThen(fields[2..], tail, '&') == fields[2] + "&" + tail;
    assert JoinThen(fields[1..], tail, '&') == fields[1] + "&" + fields[2] + "&" + tail;
  }

  /** A WeatherStack URL is the base URL followed by a query whose fields
      are the key, the city and then `q`. */
  lemma WeatherStackUrlFields(a: Adapter, q: Option<string>)
    requires a.WeatherStackAPI?
    requires '&' !in Str(a.apiKey) && '&' !in a.city
    ensures var url := GetUrl(a, q);
      && |WEATHERSTACK_BASE_URL| <= |url|
      && url[..|WEATHERSTACK_BASE_URL|] == WEATHERSTACK_BASE_URL
      && Split(url[|WEATHERSTACK_BASE_URL|..], '&')
         == ["access_key=" + Str(a.apiKey), "query=" + a.city] + Split(Str(q), '&')
  {
    var fields := ["access_key=" + Str(a.apiKey), "query=" + a.city];
    var query := JoinThen(fields, Str(q), '&');
    assert query == fields[0] + "&" + fields[1] + "&" + Str(q) by {
      assert JoinThen(fields[1..], Str(q), '&') == fields[1] + "&" + Str(q);
    }
    assert GetUrl(a, q) == WEATHERSTACK_BASE_URL + query;
    SplitFields(fields, Str(q), '&');
  }

  /** The URL `get_response` requests for an OpenWeatherMap task in `main`:
      default units "Metric", and `q` left at `None`. */
  lemma DefaultOpenWeatherMapUrl(city: string, env: Env)
    requires '&' !in Str(env.openWeatherKey) && '&' !in city
    ensures var url := GetUrl(NewAdapter(OpenWeatherMap, city, env), None);
      && url[..|OPEN_WEATHER_BASE_URL|] == OPEN_WEATHER_BASE_URL
      && Split(url[|OPEN_WEATHER_BASE_URL|..], '&')
         == ["appid=" + Str(env.openWeatherKey), "q=" + city, "units=Metric", "None"]
  {
    var a := NewAdapter(OpenWeatherMap, city, env);
    assert a.units == "Metric";
    assert "units=" + a.units == "units=Metric";
    OpenWeatherMapUrlFields(a, None);
    SplitNone(Str(None), '&');
  }

  /** The URL `get_response` requests for a WeatherStack task in `main`. */
  lemma DefaultWeatherStackUrl(city: string, env: Env)
    requires '&' !in Str(env.weatherstackKey) && '&' !in city
    ensures var url := GetUrl(NewAdapter(WeatherStack, city, env), None);
      && url[..|WEATHERSTACK_BASE_URL|] == WEATHERSTACK_BASE_URL
      && Split(url[|WEATHERSTACK_BASE_URL|..], '&')
         == ["access_key=" + Str(env.weatherstackKey), "query=" + city, "None"]
  {
    WeatherStackUrlFields(NewAdapter(WeatherStack, city, env), None);
    SplitNone("None", '&');
  }

  /** The key of the nested object holding the reading: "main" or "current". */
  function OuterKey(a: Adapter): string {
    if a.OpenWeatherMapAPI? then "main" else "current"
  }

  /** The key of the reading inside it: "temp" or "temperature". */
  function InnerKey(a: Adapter): string {
    if a.OpenWeatherMapAPI? then "temp" else "temperature"
  }

  /** The payload is an object whose `OuterKey` entry is an object as well. */
  predicate Navigable(payload: Json, outer: string) {
    payload.JObject? && outer in payload.members && payload.members[outer].JObject?
  }

  /** `collect_temperature` after the response arrived:
      `payload.get(outer).get(inner)` is appended, and an `AttributeError`
      anywhere on that path records the city as failed. The reading is
      appended whatever it is; a missing inner key appends `None`. */
  function Extract(a: Adapter, payload: Json): (u: Update)
    ensures u.Append? <==> Navigable(payload, OuterKey(a))
    ensures u.Append? ==>
      var inner := payload.members[OuterKey(a)].members;
      u.temp == if InnerKey(a) in inner then inner[InnerKey(a)] else JNull
    ensures u.Failure? ==> u.city == a.city
  {
    match Get(payload, OuterKey(a))
    case Raise(_) => Failure(a.city)
    case Ok(outer) =>
      match Get(outer, InnerKey(a))
      case Raise(_) => Failure(a.city)
      case Ok(temp) => Append(temp)
  }

  /** What `collect_temperature` evidently intends: only a numeric reading
      is appended; a missing, null or non-numeric reading is a failure. */
  function ExtractStrict(a: Adapter, payload: Json): (u: Update)
    ensures u.Append? ==> u.temp.JNumber?
    ensures u.Append? <==>
      && Navigable(payload, OuterKey(a))
      && InnerKey(a) in payload.members[OuterKey(a)].members
      && payload.members[OuterKey(a)].members[InnerKey(a)].JNumber?
    ensures u.Append? ==> u == Extract(a, payload)
    ensures u.Failure? ==> u.city == a.city
  {
    match Extract(a, payload)
    case Append(t) => if t.JNumber? then Append(t) else Failure(a.city)
    case Failure(c) => Failure(c)
  }

  /** An OpenWeatherMap payload whose "main" object has no "temp": the code
      appends `None` rather than recording a failure. */
  lemma MissingTempIsAppendedAsNone(city: string, env: Env)
    ensures Extract(NewAdapter(OpenWeatherMap, city, env), JObject(map["main" := JObject(map[])]))
      == Append(JNull)
    ensures ExtractStrict(NewAdapter(OpenWeatherMap, city, env), JObject(map["main" := JObject(map[])]))
      == Failure(city)
  {
  }
}
