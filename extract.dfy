/**
 * extract_weather (dags/weatherstack_etl_v2.py:38-90): one request per
 * configured city, validation of the decoded response, and mapping of the
 * accepted ones into records, kept in city order.
 *
 * The HTTP call with its JSON decoding, the date parser, `time.mktime` and
 * `float(...)` are outside the model; they enter as the functions of an `Env`,
 * each returning None when the Python call would raise.
 */
module Extraction {
  import opened Wrappers
  import opened Json
  import opened WeatherRecord

  const BaseUrl: string := "http://api.weatherstack.com/current"

  /** The query parameters of one GET to the current-weather endpoint. */
  datatype Request = Request(url: string, accessKey: string, query: Json, units: string)

  /** The exception that ends the whole extraction; no per-city handler catches any of them. */
  datatype Fault =
    | KeyError(key: string)          // `d[key]` on a dict without that key
    | AttributeError(holder: string) // `.get` on a value that is not a dict
    | TypeError(key: string)         // parsing a non-string, or indexing a value that is neither list, string nor dict
    | IndexError(key: string)        // `[0]` on an empty list or string
    | TransportError                 // `requests.get` or `response.json()` raised
    | TimeParseError                 // the date parser rejected the string
    | OverflowError                  // `time.mktime` rejected the parsed time
    | FloatError(key: string)        // `float(...)` rejected the value

  /** The outside world as the task sees it. */
  datatype Env = Env(
    fetch: Request -> Option<Json>,
    parseTime: string -> Option<DateTime>,
    mktime: DateTime -> Option<int>,
    toFloat: Json -> Option<real>)

  /** Why a city was passed over with a log line. */
  datatype SkipReason = ApiError(info: Json) | InvalidResponse(data: Json)

  /** What one iteration of the loop does with one city. */
  datatype Step = Emit(record: Record) | Skip(reason: SkipReason) | Abort(fault: Fault)

  /**
   * The `params` dict of lines 43-47. `city['name']` is evaluated as the
   * default argument of `.get` even when `lat_long` is present, so a city
   * without a name raises either way.
   */
  function BuildRequest(city: Json, accessKey: string): (r: Result<Request, Fault>)
    ensures r.Success? <==> city.JObj? && "name" in city.fields
    ensures !city.JObj? ==> r == Failure(AttributeError("city"))
    ensures r.Success? ==> r.value.url == BaseUrl && r.value.accessKey == accessKey && r.value.units == "m"
    ensures r.Success? && "lat_long" in city.fields ==> r.value.query == city.fields["lat_long"]
    ensures r.Success? && "lat_long" !in city.fields ==> r.value.query == city.fields["name"]
  {
    match city
    case JObj(f) =>
      if "name" !in f then Failure(KeyError("name"))
      else Success(Request(BaseUrl, accessKey, if "lat_long" in f then f["lat_long"] else f["name"], "m"))
    case _ => Failure(AttributeError("city"))
  }

  /** With `lat_long` present the city's name never reaches the request, whatever it is. */
  lemma LatLongOverridesName(city: map<string, Json>, otherName: Json, accessKey: string)
    requires "name" in city && "lat_long" in city
    ensures BuildRequest(JObj(city), accessKey) == BuildRequest(JObj(city["name" := otherName]), accessKey)
    ensures BuildRequest(JObj(city), accessKey).value.query == city["lat_long"]
  {
  }

  /**
   * `current.get(key, [None])[0]` (lines 76-77): None when the key is absent,
   * otherwise the first element of the stored list (the first character of a
   * stored string); an empty list raises instead of giving None.
   */
  function FirstOf(current: map<string, Json>, key: string): (r: Result<Json, Fault>)
    ensures key !in current ==> r == Success(JNull)
    ensures key in current && current[key].JArr? ==>
              (r.Success? <==> |current[key].items| > 0) &&
              (r.Success? ==> r.value == current[key].items[0] && r.value in current[key].items)
    ensures key in current && current[key].JStr? ==> (r.Success? <==> |current[key].s| > 0)
    ensures key in current && current[key].JStr? && |current[key].s| > 0 ==> r == Success(JStr([current[key].s[0]]))
    ensures key in current && current[key].JObj? ==> r == Failure(KeyError("0"))
    ensures key in current && (current[key].JNull? || current[key].JNum? || current[key].JBool?) ==>
              r == Failure(TypeError(key))
    ensures r.Success? && key in current ==> current[key].JArr? || current[key].JStr?
  {
    if key !in current then Success(JNull)
    else match current[key]
      case JArr(items) => if |items| == 0 then Failure(IndexError(key)) else Success(items[0])
      case JStr(s) => if |s| == 0 then Failure(IndexError(key)) else Success(JStr([s[0]]))
      case JObj(_) => Failure(KeyError("0"))
      case _ => Failure(TypeError(key))
  }

  /**
   * Lines 62-71 raise nothing: `localtime` is a string the parser accepts,
   * `mktime` accepts the parsed time, and both coordinates convert to floats.
   */
  predicate LocationConverts(loc: map<string, Json>, env: Env) {
    var lt := Get(loc, "localtime");
    && lt.JStr?
    && env.parseTime(lt.s).Some?
    && env.mktime(env.parseTime(lt.s).value).Some?
    && env.toFloat(Get(loc, "lat")).Some?
    && env.toFloat(Get(loc, "lon")).Some?
  }

  /** Lines 76-77 raise nothing: both list fields are absent or have a first element. */
  predicate ConditionsIndex(cur: map<string, Json>) {
    FirstOf(cur, "weather_descriptions").Success? && FirstOf(cur, "weather_icons").Success?
  }

  /**
   * The body of the loop after validation (lines 58-86): parse `localtime`,
   * derive the epoch from the same parsed time, and copy the named fields of
   * `location` and `current` into a record, in the order Python evaluates them.
   */
  function MapRecord(location: Json, current: Json, env: Env): (r: Result<Record, Fault>)
    ensures r.Success? <==>
              location.JObj? && current.JObj? &&
              LocationConverts(location.fields, env) && ConditionsIndex(current.fields)
    ensures r.Success? ==>
              var loc := location.fields;
              env.parseTime(Get(loc, "localtime").s) == Some(r.value.localTime) &&
              env.mktime(r.value.localTime) == Some(r.value.lastUpdatedEpoch)
    ensures !location.JObj? ==> r == Failure(AttributeError("location"))
    ensures location.JObj? && !Get(location.fields, "localtime").JStr? ==> r == Failure(TypeError("localtime"))
    ensures (location.JObj? && Get(location.fields, "localtime").JStr? &&
             env.parseTime(Get(location.fields, "localtime").s).None?) ==> r == Failure(TimeParseError)
    ensures (location.JObj? && Get(location.fields, "localtime").JStr? &&
             env.parseTime(Get(location.fields, "localtime").s).Some? &&
             env.mktime(env.parseTime(Get(location.fields, "localtime").s).value).None?) ==> r == Failure(OverflowError)
    ensures (location.JObj? && Get(location.fields, "localtime").JStr? &&
             env.parseTime(Get(location.fields, "localtime").s).Some? &&
             env.mktime(env.parseTime(Get(location.fields, "localtime").s).value).Some? &&
             env.toFloat(Get(location.fields, "lat")).None?) ==> r == Failure(FloatError("lat"))
    ensures (location.JObj? && Get(location.fields, "localtime").JStr? &&
             env.parseTime(Get(location.fields, "localtime").s).Some? &&
             env.mktime(env.parseTime(Get(location.fields, "localtime").s).value).Some? &&
             env.toFloat(Get(location.fields, "lat")).Some? &&
             env.toFloat(Get(location.fields, "lon")).None?) ==> r == Failure(FloatError("lon"))
    ensures (location.JObj? && LocationConverts(location.fields, env) && !current.JObj?) ==>
              r == Failure(AttributeError("current"))
    ensures (location.JObj? && LocationConverts(location.fields, env) && current.JObj? &&
             FirstOf(current.fields, "weather_descriptions").Failure?) ==>
              r == Failure(FirstOf(current.fields, "weather_descriptions").error)
    ensures (location.JObj? && LocationConverts(location.fields, env) && current.JObj? &&
             FirstOf(current.fields, "weather_descriptions").Success? &&
             FirstOf(current.fields, "weather_icons").Failure?) ==>
              r == Failure(FirstOf(current.fields, "weather_icons").error)
    ensures r.Success? ==>
              var loc := location.fields;
              r.value.name == Get(loc, "name") && r.value.region == Get(loc, "region") &&
              r.value.country == Get(loc, "country") && r.value.timezone == Get(loc, "timezone_id") &&
              env.toFloat(Get(loc, "lat")) == Some(r.value.lat) &&
              env.toFloat(Get(loc, "lon")) == Some(r.value.long)
    ensures r.Success? ==>
              var cur := current.fields;
              r.value.tempC == Get(cur, "temperature") && r.value.feelslikeC == Get(cur, "feelslike") &&
              FirstOf(cur, "weather_descriptions") == Success(r.value.condition) &&
              FirstOf(cur, "weather_icons") == Success(r.value.conditionIcon) &&
              r.value.windKph == Get(cur, "wind_speed") && r.value.pressureMb == Get(cur, "pressure") &&
              r.value.precipitationMm == Get(cur, "precip") && r.value.humidity == Get(cur, "humidity") &&
              r.value.cloud == Get(cur, "cloudcover") && r.value.uvIndex == Get(cur, "uv_index") &&
              r.value.visibilityKm == Get(cur, "visibility")
  {
    if !location.JObj? then Failure(AttributeError("location"))
    else
      var loc := location.fields;
      var localtime := Get(loc, "localtime");
      if !localtime.JStr? then Failure(TypeError("localtime"))
      else
        var dt :- env.parseTime(localtime.s).OrFail(TimeParseError);
        var epoch :- env.mktime(dt).OrFail(OverflowError);
        var lat :- env.toFloat(Get(loc, "lat")).OrFail(FloatError("lat"));
        var long :- env.toFloat(Get(loc, "lon")).OrFail(FloatError("lon"));
        if !current.JObj? then Failure(AttributeError("current"))
        else
          var cur := current.fields;
          var condition :- FirstOf(cur, "weather_descriptions");
          var icon :- FirstOf(cur, "weather_icons");
          Success(Record(
            Get(loc, "name"), Get(loc, "region"), Get(loc, "country"), lat, long,
            Get(loc, "timezone_id"), dt,
            Get(cur, "temperature"), Get(cur, "feelslike"), condition, icon,
            Get(cur, "wind_speed"), Get(cur, "pressure"), Get(cur, "precip"),
            Get(cur, "humidity"), Get(cur, "cloudcover"), Get(cur, "uv_index"),
            Get(cur, "visibility"), epoch))
  }

  /**
   * Lines 50-59: the two validation checks on the decoded response, then the
   * mapping. The log line of the first check reads `data['error'].get('info')`,
   * so a `success: false` response without an `error` dict raises.
   */
  function Classify(data: Json, env: Env): (s: Step)
    ensures !data.JObj? ==> s == Abort(AttributeError("response"))
    ensures s.Emit? ==>
              data.JObj? && Get(data.fields, "success") != JBool(false) &&
              "location" in data.fields && "current" in data.fields
    ensures data.JObj? && Get(data.fields, "success") == JBool(false) ==> !s.Emit?
  {
    if !data.JObj? then Abort(AttributeError("response"))
    else
      var d := data.fields;
      if Get(d, "success") == JBool(false) then
        if "error" !in d then Abort(KeyError("error"))
        else if !d["error"].JObj? then Abort(AttributeError("error"))
        else Skip(ApiError(Get(d["error"].fields, "info")))
      else if "location" !in d || "current" !in d then Skip(InvalidResponse(data))
      else match MapRecord(d["location"], d["current"], env)
        case Failure(f) => Abort(f)
        case Success(r) => Emit(r)
  }

  /** One iteration of the loop of lines 42-88 for one city. */
  function CityStep(city: Json, accessKey: string, env: Env): (s: Step)
    ensures BuildRequest(city, accessKey).Failure? ==> s == Abort(BuildRequest(city, accessKey).error)
    ensures BuildRequest(city, accessKey).Success? && env.fetch(BuildRequest(city, accessKey).value).None? ==>
              s == Abort(TransportError)
    ensures !s.Abort? ==> BuildRequest(city, accessKey).Success? && env.fetch(BuildRequest(city, accessKey).value).Some?
  {
    match BuildRequest(city, accessKey)
    case Failure(f) => Abort(f)
    case Success(req) =>
      match env.fetch(req)
      case None => Abort(TransportError)
      case Some(data) => Classify(data, env)
  }

  /** The decoded response the city's request gets, if fetching it does not raise. */
  function Response(city: Json, accessKey: string, env: Env): Option<Json>
    requires BuildRequest(city, accessKey).Success?
  {
    env.fetch(BuildRequest(city, accessKey).value)
  }

  /**
   * A response whose `success` is exactly `false` produces no record; the city is
   * skipped when the response also carries an `error` dict, otherwise the log line raises.
   */
  lemma ApiErrorSkips(city: Json, accessKey: string, env: Env)
    requires BuildRequest(city, accessKey).Success?
    requires Response(city, accessKey, env).Some?
    requires Response(city, accessKey, env).value.JObj?
    requires Get(Response(city, accessKey, env).value.fields, "success") == JBool(false)
    ensures !CityStep(city, accessKey, env).Emit?
    ensures CityStep(city, accessKey, env).Skip? <==>
              var d := Response(city, accessKey, env).value.fields;
              "error" in d && d["error"].JObj?
  {
  }

  /**
   * A city is skipped as an API error exactly when its response is a dict whose
   * `success` is `false` (not a missing or `true` flag) and whose `error` is a dict.
   */
  lemma ApiErrorSkipExactly(city: Json, accessKey: string, env: Env)
    ensures CityStep(city, accessKey, env).Skip? && CityStep(city, accessKey, env).reason.ApiError? <==>
              BuildRequest(city, accessKey).Success? &&
              var resp := Response(city, accessKey, env);
              resp.Some? && resp.value.JObj? &&
              Get(resp.value.fields, "success") == JBool(false) &&
              "error" in resp.value.fields && resp.value.fields["error"].JObj?
  {
  }

  /**
   * A response that is not an API error and lacks `location` or `current` is
   * skipped as invalid; conversely an invalid-response skip always lacks one of them.
   */
  lemma MissingSectionSkips(city: Json, accessKey: string, env: Env)
    ensures CityStep(city, accessKey, env).Skip? && CityStep(city, accessKey, env).reason.InvalidResponse? <==>
              BuildRequest(city, accessKey).Success? &&
              var resp := Response(city, accessKey, env);
              resp.Some? && resp.value.JObj? &&
              Get(resp.value.fields, "success") != JBool(false) &&
              ("location" !in resp.value.fields || "current" !in resp.value.fields)
  {
  }

  /**
   * A record is emitted only from a dict response that is not flagged as failed
   * and carries both sections; its times come from parsing the response's own
   * `localtime`, and its epoch is mktime of that same parsed time.
   */
  lemma EmittedRecordOrigin(city: Json, accessKey: string, env: Env)
    requires CityStep(city, accessKey, env).Emit?
    ensures BuildRequest(city, accessKey).Success?
    ensures var resp := Response(city, accessKey, env);
            resp.Some? && resp.value.JObj? &&
            Get(resp.value.fields, "success") != JBool(false) &&
            "location" in resp.value.fields && "current" in resp.value.fields &&
            MapRecord(resp.value.fields["location"], resp.value.fields["current"], env)
              == Success(CityStep(city, accessKey, env).record)
    ensures var rec := CityStep(city, accessKey, env).record;
            env.mktime(rec.localTime) == Some(rec.lastUpdatedEpoch)
  {
  }

  /**
   * Conversely, a dict response not flagged as failed, with both sections as
   * dicts and fields that convert, yields a record rather than an exception.
   */
  lemma WellFormedEmits(city: Json, accessKey: string, env: Env)
    requires BuildRequest(city, accessKey).Success?
    requires var resp := Response(city, accessKey, env);
             resp.Some? && resp.value.JObj? && Get(resp.value.fields, "success") != JBool(false) &&
             "location" in resp.value.fields && "current" in resp.value.fields &&
             resp.value.fields["location"].JObj? && resp.value.fields["current"].JObj? &&
             LocationConverts(resp.value.fields["location"].fields, env) &&
             ConditionsIndex(resp.value.fields["current"].fields)
    ensures CityStep(city, accessKey, env).Emit?
  {
  }

  /**
   * The run's result: the records of the cities that passed both checks, in
   * city order, or the first exception raised by any city.
   */
  function Extract(cities: seq<Json>, accessKey: string, env: Env): (r: Result<seq<Record>, Fault>)
    ensures r.Success? ==> |r.value| <= |cities|
    decreases |cities|
  {
    if cities == [] then Success([])
    else
      match Extract(cities[..|cities| - 1], accessKey, env)
      case Failure(f) => Failure(f)
      case Success(acc) =>
        match CityStep(cities[|cities| - 1], accessKey, env)
        case Abort(f) => Failure(f)
        case Skip(_) => Success(acc)
        case Emit(r) => Success(acc + [r])
  }

  /** Once an exception is raised for some prefix of the cities, the run ends with it. */
  lemma {:induction false} FailureSticks(cities: seq<Json>, i: nat, accessKey: string, env: Env, f: Fault)
    requires i <= |cities|
    requires Extract(cities[..i], accessKey, env) == Failure(f)
    ensures Extract(cities, accessKey, env) == Failure(f)
    decreases |cities| - i
  {
    if i < |cities| {
      assert cities[..i + 1][..i] == cities[..i];
      FailureSticks(cities, i + 1, accessKey, env, f);
    } else {
      assert cities[..i] == cities;
    }
  }

  /** The positions, in increasing order, of the cities whose iteration appends a record. */
  function Emitters(cities: seq<Json>, accessKey: string, env: Env): seq<nat>
    decreases |cities|
  {
    if cities == [] then []
    else
      Emitters(cities[..|cities| - 1], accessKey, env) +
      (if CityStep(cities[|cities| - 1], accessKey, env).Emit? then [|cities| - 1] else [])
  }

  /** How many cities are passed over with a log line. */
  function SkipCount(cities: seq<Json>, accessKey: string, env: Env): nat
    decreases |cities|
  {
    if cities == [] then 0
    else
      SkipCount(cities[..|cities| - 1], accessKey, env) +
      (if CityStep(cities[|cities| - 1], accessKey, env).Skip? then 1 else 0)
  }

  /** Each emitting position is a valid index of an emitting city. */
  lemma {:induction false} EmittersValid(cities: seq<Json>, accessKey: string, env: Env)
    ensures var e := Emitters(cities, accessKey, env);
            |e| <= |cities| &&
            forall j :: 0 <= j < |e| ==> e[j] < |cities| && CityStep(cities[e[j]], accessKey, env).Emit?
    decreases |cities|
  {
    if cities != [] {
      var n := |cities| - 1;
      var prefix := cities[..n];
      EmittersValid(prefix, accessKey, env);
      var ep := Emitters(prefix, accessKey, env);
      var e := Emitters(cities, accessKey, env);
      assert e == ep + (if CityStep(cities[n], accessKey, env).Emit? then [n] else []);
      forall j | 0 <= j < |e|
        ensures e[j] < |cities| && CityStep(cities[e[j]], accessKey, env).Emit?
      {
        if j < |ep| {
          assert e[j] == ep[j] && prefix[ep[j]] == cities[ep[j]];
        }
      }
    }
  }

  /** The emitting positions are strictly increasing. */
  lemma {:induction false} EmittersIncreasing(cities: seq<Json>, accessKey: string, env: Env)
    ensures var e := Emitters(cities, accessKey, env);
            forall j, k :: 0 <= j < k < |e| ==> e[j] < e[k]
    decreases |cities|
  {
    if cities != [] {
      var n := |cities| - 1;
      EmittersValid(cities[..n], accessKey, env);
      EmittersIncreasing(cities[..n], accessKey, env);
    }
  }

  /** Every emitting city's position is among the emitting positions. */
  lemma {:induction false} EmittersComplete(cities: seq<Json>, accessKey: string, env: Env)
    ensures var e := Emitters(cities, accessKey, env);
            forall i :: 0 <= i < |cities| && CityStep(cities[i], accessKey, env).Emit? ==> i in e
    decreases |cities|
  {
    if cities != [] {
      var n := |cities| - 1;
      var prefix := cities[..n];
      EmittersComplete(prefix, accessKey, env);
      var ep := Emitters(prefix, accessKey, env);
      var e := Emitters(cities, accessKey, env);
      assert e == ep + (if CityStep(cities[n], accessKey, env).Emit? then [n] else []);
      forall i | 0 <= i < |cities| && CityStep(cities[i], accessKey, env).Emit?
        ensures i in e
      {
        if i < n {
          assert prefix[i] == cities[i];
          assert i in ep;
        }
      }
    }
  }

  /**
   * The emitting positions are valid, strictly increasing, each names an
   * emitting city, and every emitting city is among them.
   */
  lemma EmittersExact(cities: seq<Json>, accessKey: string, env: Env)
    ensures var e := Emitters(cities, accessKey, env);
            |e| <= |cities| &&
            (forall j :: 0 <= j < |e| ==> e[j] < |cities| && CityStep(cities[e[j]], accessKey, env).Emit?) &&
            (forall j, k :: 0 <= j < k < |e| ==> e[j] < e[k]) &&
            (forall i :: 0 <= i < |cities| && CityStep(cities[i], accessKey, env).Emit? ==> i in e)
  {
    EmittersValid(cities, accessKey, env);
    EmittersIncreasing(cities, accessKey, env);
    EmittersComplete(cities, accessKey, env);
  }

  /** A run that completes raised for no city. */
  lemma {:induction false} CompletedRunHasNoAbort(cities: seq<Json>, accessKey: string, env: Env)
    requires Extract(cities, accessKey, env).Success?
    ensures forall i :: 0 <= i < |cities| ==> !CityStep(cities[i], accessKey, env).Abort?
    decreases |cities|
  {
    if cities != [] {
      var n := |cities| - 1;
      var prefix := cities[..n];
      CompletedRunHasNoAbort(prefix, accessKey, env);
      assert forall i :: 0 <= i < n ==> prefix[i] == cities[i];
    }
  }

  /** The j-th record of a completed run is the record of the j-th emitting city. */
  lemma {:induction false} RecordsFollowEmitters(cities: seq<Json>, accessKey: string, env: Env, records: seq<Record>)
    requires Extract(cities, accessKey, env) == Success(records)
    ensures var e := Emitters(cities, accessKey, env);
            |records| == |e| &&
            forall j :: 0 <= j < |e| ==> e[j] < |cities| && CityStep(cities[e[j]], accessKey, env) == Emit(records[j])
    decreases |cities|
  {
    if cities != [] {
      var n := |cities| - 1;
      var prefix := cities[..n];
      var acc := Extract(prefix, accessKey, env).value;
      RecordsFollowEmitters(prefix, accessKey, env, acc);
      var e0 := Emitters(prefix, accessKey, env);
      var e := Emitters(cities, accessKey, env);
      match CityStep(cities[n], accessKey, env)
      case Emit(r) =>
        assert records == acc + [r] && e == e0 + [n];
        forall j | 0 <= j < |e|
          ensures e[j] < |cities| && CityStep(cities[e[j]], accessKey, env) == Emit(records[j])
        {
          if j < |e0| {
            assert e[j] == e0[j] && records[j] == acc[j] && cities[e0[j]] == prefix[e0[j]];
          }
        }
      case Skip(_) =>
        assert records == acc && e == e0;
        forall j | 0 <= j < |e|
          ensures e[j] < |cities| && CityStep(cities[e[j]], accessKey, env) == Emit(records[j])
        {
          assert cities[e0[j]] == prefix[e0[j]];
        }
    }
  }

  /**
   * A run that completes raised for no city, and its records are exactly those
   * of the emitting cities: the j-th record comes from the j-th emitting city, so
   * the order of the cities is kept and no city contributes twice.
   */
  lemma ExtractSelectsEmitters(cities: seq<Json>, accessKey: string, env: Env, records: seq<Record>)
    requires Extract(cities, accessKey, env) == Success(records)
    ensures var e := Emitters(cities, accessKey, env);
            |records| == |e| <= |cities| &&
            (forall j :: 0 <= j < |e| ==> e[j] < |cities| && CityStep(cities[e[j]], accessKey, env) == Emit(records[j])) &&
            (forall j, k :: 0 <= j < k < |e| ==> e[j] < e[k])
    ensures forall i :: 0 <= i < |cities| ==> !CityStep(cities[i], accessKey, env).Abort?
    ensures forall i :: 0 <= i < |cities| && CityStep(cities[i], accessKey, env).Emit? ==>
              i in Emitters(cities, accessKey, env)
  {
    EmittersExact(cities, accessKey, env);
    CompletedRunHasNoAbort(cities, accessKey, env);
    RecordsFollowEmitters(cities, accessKey, env, records);
  }

  /** The number of records is the number of cities minus those skipped for an API error or a malformed response. */
  lemma {:induction false} ExtractLength(cities: seq<Json>, accessKey: string, env: Env, records: seq<Record>)
    requires Extract(cities, accessKey, env) == Success(records)
    ensures |records| + SkipCount(cities, accessKey, env) == |cities|
    ensures |records| <= |cities|
    decreases |cities|
  {
    if cities != [] {
      var prefix := cities[..|cities| - 1];
      ExtractLength(prefix, accessKey, env, Extract(prefix, accessKey, env).value);
    }
  }

  /** When no city raises, the run completes. */
  lemma {:induction false} NoAbortSucceeds(cities: seq<Json>, accessKey: string, env: Env)
    requires forall i :: 0 <= i < |cities| ==> !CityStep(cities[i], accessKey, env).Abort?
    ensures Extract(cities, accessKey, env).Success?
    decreases |cities|
  {
    if cities != [] {
      var prefix := cities[..|cities| - 1];
      assert forall i :: 0 <= i < |prefix| ==> prefix[i] == cities[i];
      NoAbortSucceeds(prefix, accessKey, env);
    }
  }

  /** The first city that raises ends the run with its exception, whatever the later cities would do. */
  lemma FirstAbortFails(cities: seq<Json>, i: nat, accessKey: string, env: Env)
    requires i < |cities|
    requires CityStep(cities[i], accessKey, env).Abort?
    requires forall k :: 0 <= k < i ==> !CityStep(cities[k], accessKey, env).Abort?
    ensures Extract(cities, accessKey, env) == Failure(CityStep(cities[i], accessKey, env).fault)
  {
    var prefix := cities[..i];
    assert forall k :: 0 <= k < i ==> prefix[k] == cities[k];
    NoAbortSucceeds(prefix, accessKey, env);
    assert cities[..i + 1][..i] == prefix;
    FailureSticks(cities, i + 1, accessKey, env, CityStep(cities[i], accessKey, env).fault);
  }

  /** A run that raises does so with the exception of its first raising city. */
  lemma {:induction false} FailureHasFirstAbort(cities: seq<Json>, accessKey: string, env: Env, f: Fault)
    requires Extract(cities, accessKey, env) == Failure(f)
    ensures exists i :: 0 <= i < |cities| && CityStep(cities[i], accessKey, env) == Abort(f) &&
                        forall k :: 0 <= k < i ==> !CityStep(cities[k], accessKey, env).Abort?
    decreases |cities|
  {
    var n := |cities| - 1;
    var prefix := cities[..n];
    assert forall k :: 0 <= k < n ==> prefix[k] == cities[k];
    match Extract(prefix, accessKey, env)
    case Failure(g) =>
      FailureHasFirstAbort(prefix, accessKey, env, f);
      var i :| 0 <= i < |prefix| && CityStep(prefix[i], accessKey, env) == Abort(f) &&
               forall k :: 0 <= k < i ==> !CityStep(prefix[k], accessKey, env).Abort?;
      assert CityStep(cities[i], accessKey, env) == Abort(f);
    case Success(acc) =>
      CompletedRunHasNoAbort(prefix, accessKey, env);
      assert CityStep(cities[n], accessKey, env) == Abort(f);
  }

  /** Running over two lists of cities one after the other is running over their concatenation. */
  lemma {:induction false} ExtractConcat(xs: seq<Json>, ys: seq<Json>, accessKey: string, env: Env)
    ensures Extract(xs + ys, accessKey, env) ==
              match Extract(xs, accessKey, env)
              case Failure(f) => Failure(f)
              case Success(a) =>
                match Extract(ys, accessKey, env)
                case Failure(f) => Failure(f)
                case Success(b) => Success(a + b)
    decreases |ys|
  {
    if ys == [] {
      assert xs + ys == xs;
      match Extract(xs, accessKey, env)
      case Failure(f) =>
      case Success(a) => assert a + [] == a;
    } else {
      var n := |ys| - 1;
      assert (xs + ys)[..|xs + ys| - 1] == xs + ys[..n];
      assert (xs + ys)[|xs + ys| - 1] == ys[n];
      ExtractConcat(xs, ys[..n], accessKey, env);
      match Extract(xs, accessKey, env)
      case Failure(f) =>
      case Success(a) =>
        match Extract(ys[..n], accessKey, env)
        case Failure(f) =>
        case Success(b) =>
          match CityStep(ys[n], accessKey, env)
          case Abort(f) =>
          case Skip(_) =>
          case Emit(r) => assert (a + b) + [r] == a + (b + [r]);
    }
  }

  /** A skipped city leaves no trace in the result: the run is as if it were not configured. */
  lemma SkippedCityInvisible(xs: seq<Json>, city: Json, ys: seq<Json>, accessKey: string, env: Env)
    requires CityStep(city, accessKey, env).Skip?
    ensures Extract(xs + [city] + ys, accessKey, env) == Extract(xs + ys, accessKey, env)
  {
    assert [city][..0] == [];
    assert Extract([city], accessKey, env) == Success([]);
    ExtractConcat(xs, [city], accessKey, env);
    ExtractConcat(xs + [city], ys, accessKey, env);
    ExtractConcat(xs, ys, accessKey, env);
  }

  /**
   * A city that passes both checks but whose `localtime` is missing, not a string
   * or not parseable ends the whole run with that exception; the city is not skipped.
   */
  lemma BadLocalTimeAbortsRun(cities: seq<Json>, i: nat, accessKey: string, env: Env)
    requires i < |cities|
    requires forall k :: 0 <= k < i ==> !CityStep(cities[k], accessKey, env).Abort?
    requires BuildRequest(cities[i], accessKey).Success?
    requires var resp := Response(cities[i], accessKey, env);
             resp.Some? && resp.value.JObj? && Get(resp.value.fields, "success") != JBool(false) &&
             "location" in resp.value.fields && "current" in resp.value.fields &&
             resp.value.fields["location"].JObj?
    requires var lt := Get(Response(cities[i], accessKey, env).value.fields["location"].fields, "localtime");
             !lt.JStr? || env.parseTime(lt.s).None?
    ensures var lt := Get(Response(cities[i], accessKey, env).value.fields["location"].fields, "localtime");
            Extract(cities, accessKey, env) == Failure(if lt.JStr? then TimeParseError else TypeError("localtime"))
  {
    FirstAbortFails(cities, i, accessKey, env);
  }

  /** The loop of lines 40-90. */
  method ExtractWeather(cities: seq<Json>, accessKey: string, env: Env) returns (result: Result<seq<Record>, Fault>)
    ensures result == Extract(cities, accessKey, env)
  {
    var allData: seq<Record> := [];
    for i := 0 to |cities|
      invariant Extract(cities[..i], accessKey, env) == Success(allData)
    {
      assert cities[..i + 1][..i] == cities[..i];
      var city := cities[i];
      var params := BuildRequest(city, accessKey);
      if params.Failure? {
        FailureSticks(cities, i + 1, accessKey, env, params.error);
        return Failure(params.error);
      }
      var response := env.fetch(params.value);
      if response.None? {
        FailureSticks(cities, i + 1, accessKey, env, TransportError);
        return Failure(TransportError);
      }
      var data := response.value;
      if !data.JObj? {
        FailureSticks(cities, i + 1, accessKey, env, AttributeError("response"));
        return Failure(AttributeError("response"));
      }
      if Get(data.fields, "success") == JBool(false) {
        if "error" !in data.fields {
          FailureSticks(cities, i + 1, accessKey, env, KeyError("error"));
          return Failure(KeyError("error"));
        }
        if !data.fields["error"].JObj? {
          FailureSticks(cities, i + 1, accessKey, env, AttributeError("error"));
          return Failure(AttributeError("error"));
        }
        continue;
      }
      if "location" !in data.fields || "current" !in data.fields {
        continue;
      }
      var row := MapRecord(data.fields["location"], data.fields["current"], env);
      if row.Failure? {
        FailureSticks(cities, i + 1, accessKey, env, row.error);
        return Failure(row.error);
      }
      allData := allData + [row.value];
    }
    assert cities[..|cities|] == cities;
    result := Success(allData);
  }
}
