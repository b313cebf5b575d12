/** `data_pipeline/weather_fetcher.py`: the OpenWeatherMap fetcher. */
module Weather {
  import opened Wrappers
  import opened Json
  import opened DateTimes
  import opened Effects
  import Config
  import Helpers

  /** The keys every parsed record has, in insertion order. */
  const BaseRecordKeys: seq<string> :=
    ["timestamp", "temp", "feels_like", "humidity", "pressure",
     "description", "wind_speed", "clouds", "visibility"]

  /** The keys of a parsed record: the base keys, then `rain_1h` and
      `snow_1h` when the document has `rain` and `snow`. */
  function RecordKeys(rain: bool, snow: bool): seq<string> {
    BaseRecordKeys + (if rain then ["rain_1h"] else []) + (if snow then ["snow_1h"] else [])
  }

  /** `d.get(k, {})` is a dict, so `.get` can be called on it. */
  predicate DictOrAbsent(m: Object, k: string) {
    !HasKey(m, k) || GetOr(m, k, EmptyObject).JObject?
  }

  /** The documents `parse_weather_data` gets through without raising:
      `main`, `wind`, `clouds`, `rain` and `snow` are dicts or absent, and
      `weather` is absent or a non-empty list starting with a dict. */
  predicate Navigable(m: Object) {
    && DictOrAbsent(m, "main")
    && WeatherListOk(m)
    && DictOrAbsent(m, "wind")
    && DictOrAbsent(m, "clouds")
    && DictOrAbsent(m, "rain")
    && DictOrAbsent(m, "snow")
  }

  /** `d.get('weather', [{}])[0]` is a dict. */
  predicate WeatherListOk(m: Object) {
    var w := GetOr(m, "weather", JArray([EmptyObject]));
    w.JArray? && w.items != [] && w.items[0].JObject?
  }

  /** `current.get('weather', [{}])[0].get('description', '')`. */
  function Description(m: Object): (r: Result<Json, Fault>)
    ensures r.Success? <==> WeatherListOk(m)
    ensures r.Success? ==>
              r.value == GetOr(GetOr(m, "weather", JArray([EmptyObject])).items[0].members,
                               "description", JString(""))
  {
    var first :- Index0(GetOr(m, "weather", JArray([EmptyObject])));
    AttrGet(first, "description", JString(""))
  }

  /** The dict literal of `parse_weather_data`, field by field in source
      order (the first lookup that raises decides the exception). Each
      field re-evaluates `current.get('main', {})` and the like; the value
      is the same every time, so it is looked up once here. */
  function Conditions(doc: Json, timestamp: string): (r: Result<Object, Fault>)
    ensures r.Success? <==>
              doc.JObject? && DictOrAbsent(doc.members, "main") && WeatherListOk(doc.members)
              && DictOrAbsent(doc.members, "wind") && DictOrAbsent(doc.members, "clouds")
    ensures r.Success? ==> Keys(r.value) == BaseRecordKeys
  {
    var main :- AttrGet(doc, "main", EmptyObject);
    var temp :- AttrGet(main, "temp", JNull);
    var description :- Description(doc.members);
    var windSpeed :- AttrGet(GetOr(doc.members, "wind", EmptyObject), "speed", JNull);
    var cloudCover :- AttrGet(GetOr(doc.members, "clouds", EmptyObject), "all", JNull);
    var data := Zip(BaseRecordKeys,
                    [JString(timestamp), temp,
                     GetOr(main.members, "feels_like", JNull),
                     GetOr(main.members, "humidity", JNull),
                     GetOr(main.members, "pressure", JNull),
                     description, windSpeed, cloudCover,
                     GetOr(doc.members, "visibility", JNull)]);
    Success(data)
  }

  /** The values of the dict literal, field by field. */
  lemma ConditionsFields(doc: Json, timestamp: string)
    requires Conditions(doc, timestamp).Success?
    ensures doc.JObject? && DictOrAbsent(doc.members, "main") && WeatherListOk(doc.members)
    ensures DictOrAbsent(doc.members, "wind") && DictOrAbsent(doc.members, "clouds")
    ensures var rec := Conditions(doc, timestamp).value;
            var m := doc.members;
            && Lookup(rec, "timestamp") == Some(JString(timestamp))
            && Lookup(rec, "temp") == Some(GetOr(GetOr(m, "main", EmptyObject).members, "temp", JNull))
            && Lookup(rec, "feels_like") == Some(GetOr(GetOr(m, "main", EmptyObject).members, "feels_like", JNull))
            && Lookup(rec, "humidity") == Some(GetOr(GetOr(m, "main", EmptyObject).members, "humidity", JNull))
            && Lookup(rec, "pressure") == Some(GetOr(GetOr(m, "main", EmptyObject).members, "pressure", JNull))
            && Lookup(rec, "description") ==
                 Some(GetOr(GetOr(m, "weather", JArray([EmptyObject])).items[0].members,
                            "description", JString("")))
            && Lookup(rec, "wind_speed") == Some(GetOr(GetOr(m, "wind", EmptyObject).members, "speed", JNull))
            && Lookup(rec, "clouds") == Some(GetOr(GetOr(m, "clouds", EmptyObject).members, "all", JNull))
            && Lookup(rec, "visibility") == Some(GetOr(m, "visibility", JNull))
  {
    var rec := Conditions(doc, timestamp).value;
    ConditionsRecord(doc, timestamp);
    BaseRecordKeysUnique();
    LookupKeyAt(rec, 0);
    LookupKeyAt(rec, 1);
    LookupKeyAt(rec, 2);
    LookupKeyAt(rec, 3);
    LookupKeyAt(rec, 4);
    LookupKeyAt(rec, 5);
    LookupKeyAt(rec, 6);
    LookupKeyAt(rec, 7);
    LookupKeyAt(rec, 8);
  }

  /** The members of the dict literal, by position. */
  lemma ConditionsRecord(doc: Json, timestamp: string)
    requires Conditions(doc, timestamp).Success?
    ensures doc.JObject? && WeatherListOk(doc.members)
    ensures var m := doc.members;
            var main := GetOr(m, "main", EmptyObject).members;
            Conditions(doc, timestamp).value ==
              Zip(BaseRecordKeys,
                  [JString(timestamp), GetOr(main, "temp", JNull),
                   GetOr(main, "feels_like", JNull),
                   GetOr(main, "humidity", JNull),
                   GetOr(main, "pressure", JNull),
                   Description(m).value,
                   GetOr(GetOr(m, "wind", EmptyObject).members, "speed", JNull),
                   GetOr(GetOr(m, "clouds", EmptyObject).members, "all", JNull),
                   GetOr(m, "visibility", JNull)])
  {
  }

  lemma BaseRecordKeysUnique()
    ensures UniqueKeys(BaseRecordKeys)
  {
  }

  /** The member `field: source['1h']` (0 when `1h` is absent), or nothing
      when the document has no `source`. */
  function Precipitation(doc: Object, source: string, field: string): (member: Object)
    requires DictOrAbsent(doc, source)
    ensures |member| <= 1
    ensures member != [] <==> HasKey(doc, source)
    ensures member != [] ==> member[0].0 == field
  {
    if HasKey(doc, source)
    then [(field, GetOr(GetOr(doc, source, EmptyObject).members, "1h", JInt(0)))]
    else []
  }

  /** The `data['rain_1h'] = ...` / `data['snow_1h'] = ...` step: added only
      when `source` is a key of the document, defaulting to 0. */
  function AddPrecipitation(data: Object, doc: Object, source: string, field: string)
    : (r: Result<Object, Fault>)
    ensures r.Success? <==> DictOrAbsent(doc, source)
    ensures r.Success? ==> r.value == data + Precipitation(doc, source, field)
  {
    if !HasKey(doc, source) then Success(data)
    else
      var amount :- AttrGet(GetOr(doc, source, EmptyObject), "1h", JInt(0));
      Success(data + [(field, amount)])
  }

  class WeatherFetcher {
    const apiKey: Option<string>
    const baseUrl: string
    const saveDir: string

    constructor (env: Config.Environment)
      ensures apiKey == env.openWeatherApiKey
      ensures baseUrl == Config.WeatherApiBase
      ensures saveDir == Join(Config.RawDataDir(env), "weather")
    {
      apiKey := env.openWeatherApiKey;
      baseUrl := Config.WeatherApiBase;
      saveDir := Join(Config.RawDataDir(env), "weather");
    }

    /** `bool(self.api_key)`: set and not empty. */
    predicate HasApiKey() {
      apiKey.Some? && apiKey.value != ""
    }

    /** The parameters both requests carry. */
    function CommonParams(): Object
      requires HasApiKey()
    {
      [("lat", JFloat(Config.NycLat)), ("lon", JFloat(Config.NycLon)),
       ("appid", JString(apiKey.value)), ("units", JString("imperial"))]
    }

    /** The request `fetch_current_weather` issues; none without a key. */
    function CurrentWeatherRequest(): (req: Option<Request>)
      ensures req.None? <==> !HasApiKey()
    {
      if !HasApiKey() then None
      else Some(Request(baseUrl + "/weather", CommonParams(), 10))
    }

    /** The request `fetch_forecast(hours)` issues; none without a key. Its
        `cnt` is `hours // 3`, the number of whole 3-hour blocks (Dafny's
        `/` by a positive divisor rounds down, like Python's `//`). */
    function ForecastRequest(hours: int): (req: Option<Request>)
      ensures req.None? <==> !HasApiKey()
      ensures req.Some? ==> |req.value.params| == 5 && req.value.params[4].0 == "cnt"
                            && req.value.params[4].1.JInt?
                            && 3 * req.value.params[4].1.i <= hours < 3 * req.value.params[4].1.i + 3
    {
      if !HasApiKey() then None
      else Some(Request(baseUrl + "/forecast", CommonParams() + [("cnt", JInt(hours / 3))], 10))
    }

    /** Both requests carry `lat`, `lon`, `appid` (the key) and
        `units = 'imperial'`, in that order; only the forecast adds `cnt`,
        which is 8 for the default 24 hours. */
    lemma RequestParamsSpec(hours: int)
      requires HasApiKey()
      ensures var current := CurrentWeatherRequest().value;
              var forecast := ForecastRequest(hours).value;
              && Keys(current.params) == ["lat", "lon", "appid", "units"]
              && Keys(forecast.params) == ["lat", "lon", "appid", "units", "cnt"]
              && forecast.params[..4] == current.params
              && Lookup(current.params, "appid") == Some(JString(apiKey.value))
              && Lookup(current.params, "units") == Some(JString("imperial"))
              && !HasKey(current.params, "cnt")
              && Lookup(forecast.params, "cnt") == Some(JInt(hours / 3))
              && (hours == 24 ==> Lookup(forecast.params, "cnt") == Some(JInt(8)))
    {
      var current := CurrentWeatherRequest().value.params;
      var forecast := ForecastRequest(hours).value.params;
      assert Keys(current) == ["lat", "lon", "appid", "units"];
      assert Keys(forecast) == ["lat", "lon", "appid", "units", "cnt"];
      assert forall i :: 0 <= i < 4 ==> Keys(current)[i][0] != 'c';
      assert "lat"[1] == 'a' && "lon"[1] == 'o' && "appid"[0] == 'a' && "units"[0] == 'u' && "cnt"[0] == 'c';
      LookupAt(current, 2);
      LookupAt(current, 3);
      LookupAt(forecast, 4);
    }

    /** `fetch_current_weather()` when the network would answer `response`
        (`None` for a `RequestException`). */
    function FetchCurrentWeather(response: Option<Json>): (x: Exchange<Json>)
      ensures !HasApiKey() ==> x == Exchange(None, None)
      ensures HasApiKey() ==> x.issued.Some? && x.result == response
    {
      Perform(CurrentWeatherRequest(), response)
    }

    /** `fetch_forecast(hours)` when the network would answer `response`. */
    function FetchForecast(hours: int, response: Option<Json>): (x: Exchange<Json>)
      ensures !HasApiKey() ==> x == Exchange(None, None)
      ensures HasApiKey() ==> x.issued.Some? && x.result == response
    {
      Perform(ForecastRequest(hours), response)
    }

    /** `parse_weather_data(current, forecast)` at wall-clock time `now`.
        `Success(None)` is the `None` return, `Failure` an exception. */
    function ParseWeatherData(current: Option<Json>, forecast: Option<Json>, now: DateTime)
      : (r: Result<Option<Object>, Fault>)
      requires now.Valid()
      ensures !PyTruthy(current) ==> r == Success(None)
      ensures PyTruthy(current) && !current.value.JObject? ==> r == Failure(AttributeError)
      ensures PyTruthy(current) ==>
                (r.Success? <==> current.value.JObject? && Navigable(current.value.members))
      ensures PyTruthy(current) && r.Success? ==> r.value.Some?
    {
      if !PyTruthy(current) then Success(None)
      else
        var doc := current.value;
        var data :- Conditions(doc, IsoFormat(now));
        var withRain :- AddPrecipitation(data, doc.members, "rain", "rain_1h");
        var withSnow :- AddPrecipitation(withRain, doc.members, "snow", "snow_1h");
        Success(Some(withSnow))
    }

    /** The same record whatever the forecast: the argument is not read. */
    lemma ParseIgnoresForecast(current: Option<Json>, f1: Option<Json>, f2: Option<Json>, now: DateTime)
      requires now.Valid()
      ensures ParseWeatherData(current, f1, now) == ParseWeatherData(current, f2, now)
    {
    }

    /** A parsed record is the dict literal followed by the optional
        precipitation members. */
    lemma ParseShape(current: Option<Json>, forecast: Option<Json>, now: DateTime)
      requires now.Valid() && PyTruthy(current)
      requires ParseWeatherData(current, forecast, now).Success?
      ensures current.value.JObject? && Navigable(current.value.members)
      ensures Conditions(current.value, IsoFormat(now)).Success?
      ensures ParseWeatherData(current, forecast, now).value ==
                Some(Conditions(current.value, IsoFormat(now)).value
                     + Precipitation(current.value.members, "rain", "rain_1h")
                     + Precipitation(current.value.members, "snow", "snow_1h"))
    {
    }

    /** A parsed record has exactly the base keys, in order, then
        `rain_1h` if the document has `rain`, then `snow_1h` if it has
        `snow`. */
    lemma ParseKeys(current: Option<Json>, forecast: Option<Json>, now: DateTime)
      requires now.Valid() && PyTruthy(current)
      requires ParseWeatherData(current, forecast, now).Success?
      ensures current.value.JObject? && ParseWeatherData(current, forecast, now).value.Some?
      ensures Keys(ParseWeatherData(current, forecast, now).value.value)
              == RecordKeys(HasKey(current.value.members, "rain"), HasKey(current.value.members, "snow"))
    {
      ParseShape(current, forecast, now);
      var m := current.value.members;
      var data := Conditions(current.value, IsoFormat(now)).value;
      var rain := Precipitation(m, "rain", "rain_1h");
      var snow := Precipitation(m, "snow", "snow_1h");
      KeysAppend(data, rain);
      KeysAppend(data + rain, snow);
    }

    /** The values of a parsed record: the wall-clock time, the nested
        fields of `main`, `weather[0]`, `wind` and `clouds`, and
        `visibility`. */
    lemma ParseWeatherDataFields(current: Option<Json>, forecast: Option<Json>, now: DateTime)
      requires now.Valid() && PyTruthy(current)
      requires ParseWeatherData(current, forecast, now).Success?
      ensures current.value.JObject? && ParseWeatherData(current, forecast, now).value.Some?
      ensures var rec := ParseWeatherData(current, forecast, now).value.value;
              var m := current.value.members;
              && Lookup(rec, "timestamp") == Some(JString(IsoFormat(now)))
              && Lookup(rec, "temp") == Some(GetOr(GetOr(m, "main", EmptyObject).members, "temp", JNull))
              && Lookup(rec, "feels_like") == Some(GetOr(GetOr(m, "main", EmptyObject).members, "feels_like", JNull))
              && Lookup(rec, "humidity") == Some(GetOr(GetOr(m, "main", EmptyObject).members, "humidity", JNull))
              && Lookup(rec, "pressure") == Some(GetOr(GetOr(m, "main", EmptyObject).members, "pressure", JNull))
              && Lookup(rec, "description") ==
                   Some(GetOr(GetOr(m, "weather", JArray([EmptyObject])).items[0].members,
                              "description", JString("")))
              && Lookup(rec, "wind_speed") == Some(GetOr(GetOr(m, "wind", EmptyObject).members, "speed", JNull))
              && Lookup(rec, "clouds") == Some(GetOr(GetOr(m, "clouds", EmptyObject).members, "all", JNull))
              && Lookup(rec, "visibility") == Some(GetOr(m, "visibility", JNull))
    {
      ParseShape(current, forecast, now);
      var m := current.value.members;
      var data := Conditions(current.value, IsoFormat(now)).value;
      var tail := Precipitation(m, "rain", "rain_1h") + Precipitation(m, "snow", "snow_1h");
      assert ParseWeatherData(current, forecast, now).value.value == data + tail;
      ConditionsFields(current.value, IsoFormat(now));
      LookupPrefix(data, tail, "timestamp");
      LookupPrefix(data, tail, "temp");
      LookupPrefix(data, tail, "feels_like");
      LookupPrefix(data, tail, "humidity");
      LookupPrefix(data, tail, "pressure");
      LookupPrefix(data, tail, "description");
      LookupPrefix(data, tail, "wind_speed");
      LookupPrefix(data, tail, "clouds");
      LookupPrefix(data, tail, "visibility");
    }

    /** `rain_1h` / `snow_1h` are present exactly when the document has
        `rain` / `snow`, and hold its `1h` (0 when absent). */
    lemma ParsePrecipitation(current: Option<Json>, forecast: Option<Json>, now: DateTime)
      requires now.Valid() && PyTruthy(current)
      requires ParseWeatherData(current, forecast, now).Success?
      ensures current.value.JObject? && ParseWeatherData(current, forecast, now).value.Some?
      ensures var rec := ParseWeatherData(current, forecast, now).value.value;
              var m := current.value.members;
              && (HasKey(rec, "rain_1h") <==> HasKey(m, "rain"))
              && (HasKey(rec, "snow_1h") <==> HasKey(m, "snow"))
              && (HasKey(m, "rain") ==>
                    Lookup(rec, "rain_1h") == Some(GetOr(GetOr(m, "rain", EmptyObject).members, "1h", JInt(0))))
              && (HasKey(m, "snow") ==>
                    Lookup(rec, "snow_1h") == Some(GetOr(GetOr(m, "snow", EmptyObject).members, "1h", JInt(0))))
    {
      ParseShape(current, forecast, now);
      var m := current.value.members;
      var data := Conditions(current.value, IsoFormat(now)).value;
      RecordLookups(data, Precipitation(m, "rain", "rain_1h"), Precipitation(m, "snow", "snow_1h"));
    }

    /** Lookups in `data + rain + snow` where `data` has the base keys and
        `rain`, `snow` hold at most `rain_1h`, `snow_1h`. */
    lemma RecordLookups(data: Object, rain: Object, snow: Object)
      requires Keys(data) == BaseRecordKeys
      requires Keys(rain) == [] || Keys(rain) == ["rain_1h"]
      requires Keys(snow) == [] || Keys(snow) == ["snow_1h"]
      ensures forall k :: HasKey(data, k) ==> Lookup(data + rain + snow, k) == Lookup(data, k)
      ensures HasKey(data + rain + snow, "rain_1h") <==> rain != []
      ensures HasKey(data + rain + snow, "snow_1h") <==> snow != []
      ensures rain != [] ==> Lookup(data + rain + snow, "rain_1h") == Some(rain[0].1)
      ensures snow != [] ==> Lookup(data + rain + snow, "snow_1h") == Some(snow[0].1)
    {
      KeysAppend(data, rain);
      KeysAppend(data + rain, snow);
      assert data + rain + snow == data + (rain + snow);
      forall k | HasKey(data, k) ensures Lookup(data + rain + snow, k) == Lookup(data, k) {
        LookupPrefix(data, rain + snow, k);
      }
      if rain != [] {
        assert rain == [("rain_1h", rain[0].1)];
        LookupLast(data, "rain_1h", rain[0].1);
        LookupPrefix(data + rain, snow, "rain_1h");
      }
      if snow != [] {
        assert snow == [("snow_1h", snow[0].1)];
        LookupLast(data + rain, "snow_1h", snow[0].1);
      }
    }

    /** A document without `main` gives null temperatures and pressure; one
        without `weather` gives an empty description. */
    lemma ParseWeatherDataDefaults(current: Option<Json>, forecast: Option<Json>, now: DateTime)
      requires now.Valid() && PyTruthy(current)
      requires ParseWeatherData(current, forecast, now).Success?
      ensures current.value.JObject? && ParseWeatherData(current, forecast, now).value.Some?
      ensures var rec := ParseWeatherData(current, forecast, now).value.value;
              var m := current.value.members;
              && (!HasKey(m, "main") ==>
                    && Lookup(rec, "temp") == Some(JNull) && Lookup(rec, "feels_like") == Some(JNull)
                    && Lookup(rec, "humidity") == Some(JNull) && Lookup(rec, "pressure") == Some(JNull))
              && (!HasKey(m, "weather") ==> Lookup(rec, "description") == Some(JString("")))
              && (!HasKey(m, "wind") ==> Lookup(rec, "wind_speed") == Some(JNull))
              && (!HasKey(m, "clouds") ==> Lookup(rec, "clouds") == Some(JNull))
              && (!HasKey(m, "visibility") ==> Lookup(rec, "visibility") == Some(JNull))
    {
      ParseWeatherDataFields(current, forecast, now);
    }

    /** `current_<ts>.json` and the like in the weather directory. */
    function ArtifactPath(kind: string, timestamp: string): string {
      Join(saveDir, kind + "_" + timestamp + ".json")
    }

    /** The kinds of file `fetch_and_save` writes, in order, once it gets
        past the `current` check. */
    function SaveKinds(withForecast: bool): seq<string> {
      ["current"] + (if withForecast then ["forecast"] else []) + ["parsed"]
    }

    /** The files written after the fetches: nothing unless `current` is
        truthy and parsing returned a record; then the raw current document,
        the raw forecast if truthy, and the parsed record, all under one
        timestamp. */
    function SavePlan(current: Option<Json>, forecast: Option<Json>,
                      parsed: Result<Option<Object>, Fault>, timestamp: string): (plan: seq<Artifact>)
      ensures plan == [] <==> !PyTruthy(current) || parsed.Failure? || parsed.value.None?
      ensures plan != [] ==>
                && |plan| == |SaveKinds(PyTruthy(forecast))|
                && (forall i :: 0 <= i < |plan| ==>
                      plan[i].path == ArtifactPath(SaveKinds(PyTruthy(forecast))[i], timestamp))
                && plan[0].content == JsonText(current.value)
                && plan[|plan| - 1].content == JsonText(JObject(parsed.value.value))
    {
      if PyTruthy(current) && parsed.Success? && parsed.value.Some? then
        [Artifact(ArtifactPath("current", timestamp), JsonText(current.value))]
        + (if PyTruthy(forecast)
           then [Artifact(ArtifactPath("forecast", timestamp), JsonText(forecast.value))] else [])
        + [Artifact(ArtifactPath("parsed", timestamp), JsonText(JObject(parsed.value.value)))]
      else []
    }

    lemma ArtifactPathKind(kind: string, timestamp: string)
      requires kind != []
      ensures |ArtifactPath(kind, timestamp)| > |saveDir| + 1
      ensures ArtifactPath(kind, timestamp)[|saveDir| + 1] == kind[0]
    {
    }

    /** A forecast file is among the writes exactly when something is
        written and the forecast is truthy. */
    lemma SavePlanForecast(current: Option<Json>, forecast: Option<Json>,
                           parsed: Result<Option<Object>, Fault>, timestamp: string)
      ensures var plan := SavePlan(current, forecast, parsed, timestamp);
              (exists i :: 0 <= i < |plan| && plan[i].path == ArtifactPath("forecast", timestamp))
              <==> plan != [] && PyTruthy(forecast)
    {
      var plan := SavePlan(current, forecast, parsed, timestamp);
      var f := ArtifactPath("forecast", timestamp);
      ArtifactPathKind("forecast", timestamp);
      ArtifactPathKind("current", timestamp);
      ArtifactPathKind("parsed", timestamp);
      assert ArtifactPath("current", timestamp) != f;
      assert ArtifactPath("parsed", timestamp) != f;
      if plan != [] && PyTruthy(forecast) {
        assert plan[1].path == f;
      }
    }

    /** With the real parser, a truthy `current` is written exactly when it
        parses without raising. */
    lemma SavePlanParsed(current: Option<Json>, forecast: Option<Json>, now: DateTime, timestamp: string)
      requires now.Valid()
      ensures var parsed := ParseWeatherData(current, forecast, now);
              SavePlan(current, forecast, parsed, timestamp) == [] <==> !PyTruthy(current) || parsed.Failure?
    {
    }

    /** `fetch_and_save()`. `currentHttp(i)` and `forecastHttp(i)` are what
        the network would answer to the i-th request of each kind;
        `parseNow` is the clock reading inside `parse_weather_data`,
        `saveNow` the one behind the file timestamp. Both fetches run, once
        each, before `current` is looked at. */
    method FetchAndSave(currentHttp: nat -> Option<Json>, forecastHttp: nat -> Option<Json>,
                        parseNow: DateTime, saveNow: DateTime)
      returns (r: Result<Option<Object>, Fault>, requests: seq<Request>, writes: seq<Artifact>)
      requires parseNow.Valid() && saveNow.Valid()
      ensures requests == Issued(FetchCurrentWeather(currentHttp(0)))
                          + Issued(FetchForecast(24, forecastHttp(0)))
      ensures r == ParseWeatherData(FetchCurrentWeather(currentHttp(0)).result,
                                    FetchForecast(24, forecastHttp(0)).result, parseNow)
      ensures writes == SavePlan(FetchCurrentWeather(currentHttp(0)).result,
                                 FetchForecast(24, forecastHttp(0)).result, r, Helpers.TimestampNow(saveNow))
    {
      var current, cRequests := Helpers.RetriedFetch((i: nat) => FetchCurrentWeather(currentHttp(i)));
      var forecast, fRequests := Helpers.RetriedFetch((i: nat) => FetchForecast(24, forecastHttp(i)));
      requests := cRequests + fRequests;

      writes := [];
      if !PyTruthy(current) {
        r := Success(None);
        return;
      }
      r := ParseWeatherData(current, forecast, parseNow);
      if r.Failure? {
        return;
      }
      ParseKeys(current, forecast, parseNow);
      writes := SaveArtifacts(current, forecast, r.value, Helpers.TimestampNow(saveNow));
    }

    /** The three `if` blocks that write the raw documents and the parsed
        record under one timestamp. They are reached only with a truthy
        `current` and a parsed (hence non-empty) record, so the first and
        the last always write. */
    method SaveArtifacts(current: Option<Json>, forecast: Option<Json>,
                         weatherData: Option<Object>, timestamp: string)
      returns (writes: seq<Artifact>)
      requires PyTruthy(current) && weatherData.Some? && weatherData.value != []
      ensures writes == SavePlan(current, forecast, Success(weatherData), timestamp)
    {
      writes := [];
      if PyTruthy(current) {
        writes := writes + [Artifact(ArtifactPath("current", timestamp), JsonText(current.value))];
      }
      if PyTruthy(forecast) {
        writes := writes + [Artifact(ArtifactPath("forecast", timestamp), JsonText(forecast.value))];
      }
      if weatherData.Some? && weatherData.value != [] {
        writes := writes + [Artifact(ArtifactPath("parsed", timestamp), JsonText(JObject(weatherData.value)))];
      }
    }
  }

  /** A typical current-conditions answer for a clear sky: temperature,
      description, wind, clouds and visibility, and no precipitation. */
  const ClearSkyDocument: Json := JObject([
    ("main", JObject([("temp", JFloat(72.5)), ("feels_like", JFloat(70.1)),
                      ("humidity", JInt(40)), ("pressure", JInt(1013))])),
    ("weather", JArray([JObject([("description", JString("clear sky"))])])),
    ("wind", JObject([("speed", JInt(5))])),
    ("clouds", JObject([("all", JInt(10))])),
    ("visibility", JInt(10000))])

  /** Parsing it gives `temp = 72.5`, `description = 'clear sky'` and
      neither `rain_1h` nor `snow_1h`. */
  lemma ClearSkyParse(fetcher: WeatherFetcher, now: DateTime)
    requires now.Valid()
    ensures var r := fetcher.ParseWeatherData(Some(ClearSkyDocument), None, now);
            && r.Success? && r.value.Some?
            && Lookup(r.value.value, "temp") == Some(JFloat(72.5))
            && Lookup(r.value.value, "description") == Some(JString("clear sky"))
            && !HasKey(r.value.value, "rain_1h") && !HasKey(r.value.value, "snow_1h")
  {
    ClearSkyNavigable();
    var rec := fetcher.ParseWeatherData(Some(ClearSkyDocument), None, now);
    fetcher.ParseWeatherDataFields(Some(ClearSkyDocument), None, now);
    fetcher.ParsePrecipitation(Some(ClearSkyDocument), None, now);
  }

  /** The clear-sky document's members are found where they stand, and it
      has neither `rain` nor `snow`. */
  lemma ClearSkyNavigable()
    ensures var m := ClearSkyDocument.members;
            && !HasKey(m, "rain") && !HasKey(m, "snow")
            && GetOr(GetOr(m, "main", EmptyObject).members, "temp", JNull) == JFloat(72.5)
            && GetOr(GetOr(m, "weather", JArray([EmptyObject])).items[0].members,
                     "description", JString("")) == JString("clear sky")
            && Navigable(m)
  {
    var m := ClearSkyDocument.members;
    ClearSkyMembers();
    LookupAt(m[0].1.members, 0);
    LookupAt(m[1].1.items[0].members, 0);
  }

  lemma ClearSkyMembers()
    ensures var m := ClearSkyDocument.members;
            && GetOr(m, "main", EmptyObject) == m[0].1
            && GetOr(m, "weather", JArray([EmptyObject])) == m[1].1
            && GetOr(m, "wind", EmptyObject) == m[2].1
            && GetOr(m, "clouds", EmptyObject) == m[3].1
            && !HasKey(m, "rain") && !HasKey(m, "snow")
  {
    var m := ClearSkyDocument.members;
    ClearSkyKeys();
    ClearSkyNoPrecipitation();
    assert Keys(m)[0][0] == 'm' && Keys(m)[1][1] == 'e' && Keys(m)[2][1] == 'i' && Keys(m)[3][0] == 'c';
    LookupAt(m, 0);
    LookupAt(m, 1);
    LookupAt(m, 2);
    LookupAt(m, 3);
  }

  lemma ClearSkyNoPrecipitation()
    ensures !HasKey(ClearSkyDocument.members, "rain") && !HasKey(ClearSkyDocument.members, "snow")
  {
    var m := ClearSkyDocument.members;
    ClearSkyKeys();
    assert forall i :: 0 <= i < |m| ==> Keys(m)[i][0] != 'r' && Keys(m)[i][0] != 's';
    assert "rain"[0] == 'r' && "snow"[0] == 's';
  }

  lemma ClearSkyKeys()
    ensures Keys(ClearSkyDocument.members) == ["main", "weather", "wind", "clouds", "visibility"]
  {
  }
}
