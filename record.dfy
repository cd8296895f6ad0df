/**
 * The flat weather record that extract_weather builds for one city, and its
 * conversion into the 19-value tuple that load_weather_to_postgres inserts.
 */
module WeatherRecord {
  import opened Wrappers
  import opened Json

  /** The naive date and time that the time parser returns for a `localtime` string. */
  datatype DateTime = DateTime(year: int, month: int, day: int, hour: int, minute: int, second: int)

  /**
   * The `row` dict built at dags/weatherstack_etl_v2.py:66-86, one field per key.
   * Fields copied with `.get` are Json (JNull when the API left them out); `lat`
   * and `long` went through `float(...)`, `localTime` through the parser and
   * `lastUpdatedEpoch` through `int(time.mktime(...))`.
   */
  datatype Record = Record(
    name: Json,
    region: Json,
    country: Json,
    lat: real,
    long: real,
    timezone: Json,
    localTime: DateTime,
    tempC: Json,
    feelslikeC: Json,
    condition: Json,
    conditionIcon: Json,
    windKph: Json,
    pressureMb: Json,
    precipitationMm: Json,
    humidity: Json,
    cloud: Json,
    uvIndex: Json,
    visibilityKm: Json,
    lastUpdatedEpoch: int)

  /** One positional value handed to the insert statement. */
  datatype Cell = JsonCell(json: Json) | FloatCell(x: real) | TimeCell(time: DateTime) | IntCell(i: int)

  type Row = seq<Cell>

  /** The insert's column order. */
  const Columns: seq<string> := [
    "name", "region", "country", "lat", "long", "timezone", "local_time",
    "temp_c", "feelslike_c", "condition", "condition_icon", "wind_kph",
    "pressure_mb", "precipitation_mm", "humidity", "cloud",
    "uv_index", "visibility_km", "last_updated_epoch"]

  /** `record[col]`: the value stored under a dict key, or None (a KeyError) for an unknown key. */
  function Field(r: Record, col: string): (v: Option<Cell>)
    ensures v.Some? <==> col in Columns
  {
    match col
    case "name" => Some(JsonCell(r.name))
    case "region" => Some(JsonCell(r.region))
    case "country" => Some(JsonCell(r.country))
    case "lat" => Some(FloatCell(r.lat))
    case "long" => Some(FloatCell(r.long))
    case "timezone" => Some(JsonCell(r.timezone))
    case "local_time" => Some(TimeCell(r.localTime))
    case "temp_c" => Some(JsonCell(r.tempC))
    case "feelslike_c" => Some(JsonCell(r.feelslikeC))
    case "condition" => Some(JsonCell(r.condition))
    case "condition_icon" => Some(JsonCell(r.conditionIcon))
    case "wind_kph" => Some(JsonCell(r.windKph))
    case "pressure_mb" => Some(JsonCell(r.pressureMb))
    case "precipitation_mm" => Some(JsonCell(r.precipitationMm))
    case "humidity" => Some(JsonCell(r.humidity))
    case "cloud" => Some(JsonCell(r.cloud))
    case "uv_index" => Some(JsonCell(r.uvIndex))
    case "visibility_km" => Some(JsonCell(r.visibilityKm))
    case "last_updated_epoch" => Some(IntCell(r.lastUpdatedEpoch))
    case _ => None
  }

  /**
   * `tuple(record[col] for col in columns)`: every column is a key of the
   * record, so the conversion never raises, and position i holds the value
   * stored under the i-th column name.
   */
  function ToRow(r: Record): (row: Row)
    ensures |row| == |Columns| == 19
    ensures forall i :: 0 <= i < |Columns| ==> Field(r, Columns[i]) == Some(row[i])
  {
    [JsonCell(r.name), JsonCell(r.region), JsonCell(r.country),
     FloatCell(r.lat), FloatCell(r.long), JsonCell(r.timezone),
     TimeCell(r.localTime), JsonCell(r.tempC), JsonCell(r.feelslikeC),
     JsonCell(r.condition), JsonCell(r.conditionIcon), JsonCell(r.windKph),
     JsonCell(r.pressureMb), JsonCell(r.precipitationMm), JsonCell(r.humidity),
     JsonCell(r.cloud), JsonCell(r.uvIndex), JsonCell(r.visibilityKm),
     IntCell(r.lastUpdatedEpoch)]
  }

  /** The list comprehension at dags/weatherstack_etl_v2.py:108. */
  function Rows(records: seq<Record>): (rows: seq<Row>)
    ensures |rows| == |records|
    ensures forall i :: 0 <= i < |records| ==> |rows[i]| == 19
  {
    seq(|records|, i requires 0 <= i < |records| => ToRow(records[i]))
  }

  /** Reads a record back from a row in column order, if every cell has the column's kind. */
  function FromRow(row: Row): Option<Record> {
    if |row| != 19 then None
    else if !(row[0].JsonCell? && row[1].JsonCell? && row[2].JsonCell? && row[3].FloatCell?
              && row[4].FloatCell? && row[5].JsonCell? && row[6].TimeCell? && row[7].JsonCell?
              && row[8].JsonCell? && row[9].JsonCell? && row[10].JsonCell? && row[11].JsonCell?
              && row[12].JsonCell? && row[13].JsonCell? && row[14].JsonCell? && row[15].JsonCell?
              && row[16].JsonCell? && row[17].JsonCell? && row[18].IntCell?) then None
    else Some(Record(
      row[0].json, row[1].json, row[2].json, row[3].x, row[4].x, row[5].json,
      row[6].time, row[7].json, row[8].json, row[9].json, row[10].json, row[11].json,
      row[12].json, row[13].json, row[14].json, row[15].json, row[16].json, row[17].json,
      row[18].i))
  }

  /** No information is lost in the tuple: the record can be read back from its row. */
  lemma RowRoundTrip(r: Record)
    ensures FromRow(ToRow(r)) == Some(r)
  {
  }

  /** Every row of the batch reads back as the record at the same position. */
  lemma RowsReadBack(records: seq<Record>)
    ensures forall i :: 0 <= i < |records| ==> FromRow(Rows(records)[i]) == Some(records[i])
  {
    forall i | 0 <= i < |records| ensures FromRow(Rows(records)[i]) == Some(records[i]) {
      RowRoundTrip(records[i]);
    }
  }

  /** Distinct records give distinct rows, so the insert sees every record as it was built. */
  lemma {:induction false} RowsInjective(a: seq<Record>, b: seq<Record>)
    requires Rows(a) == Rows(b)
    ensures a == b
  {
    assert |a| == |Rows(a)| == |Rows(b)| == |b|;
    forall i | 0 <= i < |a| ensures a[i] == b[i] {
      RowRoundTrip(a[i]);
      RowRoundTrip(b[i]);
      assert ToRow(a[i]) == Rows(a)[i] == Rows(b)[i] == ToRow(b[i]);
    }
  }
}
