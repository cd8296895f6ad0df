/**
 * The two tasks chained as the DAG chains them (dags/weatherstack_etl_v2.py:120-121):
 * the records extracted are the records handed to the loader.
 */
module Pipeline {
  import opened Wrappers
  import opened Json
  import opened WeatherRecord
  import opened Extraction
  import opened Load

  /**
   * Two configured cities, the first answered with a well-formed payload and the
   * second with an API error: one record is extracted, and the one bulk insert
   * (when the loader gets that far) carries exactly one row, built from it.
   */
  lemma OneValidOneRejected(valid: Json, rejected: Json, accessKey: string, env: Env,
                            conn: ConnParams, createQuery: string, insertQuery: string, failing: set<Call>)
    requires CityStep(valid, accessKey, env).Emit?
    requires CityStep(rejected, accessKey, env).Skip?
    ensures Extract([valid, rejected], accessKey, env) == Success([CityStep(valid, accessKey, env).record])
    ensures var t := LoadTrace([CityStep(valid, accessKey, env).record], conn, createQuery, insertQuery, failing);
            forall e :: e in t.events && e.ExecuteMany? ==>
              e.rows == [ToRow(CityStep(valid, accessKey, env).record)]
  {
    var rec := CityStep(valid, accessKey, env).record;
    assert [valid][..|[valid]| - 1] == [];
    assert Extract([valid][..|[valid]| - 1], accessKey, env) == Success([]);
    assert [] + [rec] == [rec];
    assert Extract([valid], accessKey, env) == Success([rec]);
    assert [valid, rejected][..|[valid, rejected]| - 1] == [valid];
    assert Rows([rec]) == [ToRow(rec)];
  }

  /** The payload the API sends for a rejected key. */
  const InvalidKeyResponse: Json :=
    JObj(map["success" := JBool(false), "error" := JObj(map["info" := JStr("invalid access key")])])

  /** A well-formed payload without a region or weather icons. */
  const ValidResponse: Json :=
    JObj(map[
      "location" := JObj(map[
        "name" := JStr("Ankara"), "lat" := JNum(39.93), "lon" := JNum(32.85),
        "localtime" := JStr("2025-05-04 12:00")]),
      "current" := JObj(map["temperature" := JNum(21.0), "weather_descriptions" := JArr([JStr("Sunny")])])])

  const Coordinates: Json := JStr("39.93,32.85")
  const Ankara: Json := JObj(map["name" := JStr("Ankara"), "lat_long" := Coordinates])
  const Paris: Json := JObj(map["name" := JStr("Paris")])

  /**
   * A small outside world. The API knows the query `39.93,32.85` and answers
   * `Paris` with the key error; any other query fails to fetch. The parser
   * accepts only the one timestamp used, and mktime maps it to its epoch on a
   * host set to Turkey time (UTC+3). `float` converts numbers and booleans as
   * Python does and refuses None, lists and dicts; strings are refused too,
   * since no payload here carries one.
   */
  function SampleEnv(): Env {
    Env(
      (req: Request) =>
        if req.query == Coordinates then Some(ValidResponse)
        else if req.query == JStr("Paris") then Some(InvalidKeyResponse)
        else None,
      (s: string) => if s == "2025-05-04 12:00" then Some(DateTime(2025, 5, 4, 12, 0, 0)) else None,
      (dt: DateTime) => if dt == DateTime(2025, 5, 4, 12, 0, 0) then Some(1746349200) else None,
      (j: Json) =>
        match j
        case JNum(n) => Some(n)
        case JBool(b) => Some(if b then 1.0 else 0.0)
        case _ => None)
  }

  /** The city without coordinates is queried by its name, gets the key error, and is skipped with the API's message. */
  lemma SampleRejected()
    ensures BuildRequest(Paris, "key").value.query == JStr("Paris")
    ensures Response(Paris, "key", SampleEnv()) == Some(InvalidKeyResponse)
    ensures CityStep(Paris, "key", SampleEnv()) == Skip(ApiError(JStr("invalid access key")))
  {
    assert JStr("Paris") != Coordinates by { assert "Paris"[0] != "39.93,32.85"[0]; }
  }

  /** The city with coordinates is queried by them and yields a record copied from the payload. */
  lemma SampleAccepted()
    ensures BuildRequest(Ankara, "key").value.query == Coordinates
    ensures var s := CityStep(Ankara, "key", SampleEnv());
            s.Emit? && s.record.name == JStr("Ankara") && s.record.lat == 39.93 && s.record.long == 32.85 &&
            s.record.condition == JStr("Sunny") && s.record.conditionIcon == JNull &&
            s.record.region == JNull && s.record.tempC == JNum(21.0) &&
            s.record.localTime == DateTime(2025, 5, 4, 12, 0, 0) && s.record.lastUpdatedEpoch == 1746349200
  {
    var d := ValidResponse.fields;
    assert "success" !in d by { assert "success" != "location" && "success" != "current"; }
    assert "location" in d && "current" in d;
    var loc := d["location"].fields;
    assert Get(loc, "localtime") == JStr("2025-05-04 12:00");
    assert Get(loc, "lat") == JNum(39.93) && Get(loc, "lon") == JNum(32.85);
    assert Get(loc, "name") == JStr("Ankara");
    assert "region" !in loc by { assert "region"[0] != "name"[0] && "region"[0] != "lat"[0] && "region"[0] != "localtime"[0]; }
    var cur := d["current"].fields;
    assert Get(cur, "temperature") == JNum(21.0);
    assert FirstOf(cur, "weather_descriptions") == Success(JStr("Sunny"));
    assert "weather_icons" !in cur by {
      assert "weather_icons"[0] != "temperature"[0];
      assert "weather_icons"[8] != "weather_descriptions"[8];
    }
  }

  /** The scenario on concrete values: one record extracted, from the city with coordinates. */
  lemma SampleRun()
    ensures var r := Extract([Ankara, Paris], "key", SampleEnv());
            r.Success? && |r.value| == 1 && r.value[0].name == JStr("Ankara") && r.value[0].lat == 39.93 &&
            r.value[0].condition == JStr("Sunny") && r.value[0].lastUpdatedEpoch == 1746349200
  {
    SampleRejected();
    SampleAccepted();
    OneValidOneRejected(Ankara, Paris, "key", SampleEnv(), ConnParams("", "", "", ""), "", "", {});
  }
}
