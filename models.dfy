/** The `WeatherData` table: one row per current-weather reading, its
    column constraints, its dictionary form, and the newest-first view of
    the history log. */
module Models {
  import opened Values

  /** A stored row. `location` and `description` are NOT NULL strings,
      `temperature` and `humidity` NOT NULL floats (passed through unchanged,
      so any number type serves), `icon` is nullable. `timestamp` is the
      store's clock value at insertion. */
  datatype WeatherRecord = WeatherRecord(
    id: nat,
    location: string,
    temperature: real,
    humidity: real,
    description: string,
    icon: Option<string>,
    timestamp: nat)

  const LocationMax: nat := 100
  const DescriptionMax: nat := 200
  const IconMax: nat := 10

  /** The declared column widths: String(100), String(200), String(10). */
  predicate FitsColumns(location: string, description: string, icon: Option<string>)
  {
    && |location| <= LocationMax
    && |description| <= DescriptionMax
    && (icon.Some? ==> |icon.value| <= IconMax)
  }

  predicate WithinColumnWidths(r: WeatherRecord)
  {
    FitsColumns(r.location, r.description, r.icon)
  }

  /** A value of the dictionary `to_dict` returns (and of JSON responses). */
  datatype DictValue =
    | IntV(i: int)
    | RealV(x: real)
    | StrV(s: string)
    | NullV
    | TimeV(t: nat)   // the timestamp's ISO-8601 rendering, kept abstract

  type Dict = map<string, DictValue>

  const DictKeys: set<string> :=
    {"id", "location", "temperature", "humidity", "description", "icon", "timestamp"}

  /** Reads a record back from its dictionary form; the partner of ToDict. */
  function FromDict(d: Dict): Option<WeatherRecord>
  {
    if DictKeys <= d.Keys
       && d["id"].IntV? && d["id"].i >= 0
       && d["location"].StrV?
       && d["temperature"].RealV?
       && d["humidity"].RealV?
       && d["description"].StrV?
       && (d["icon"].StrV? || d["icon"].NullV?)
       && d["timestamp"].TimeV?
    then Some(WeatherRecord(
      d["id"].i,
      d["location"].s,
      d["temperature"].x,
      d["humidity"].x,
      d["description"].s,
      if d["icon"].StrV? then Some(d["icon"].s) else None,
      d["timestamp"].t))
    else None
  }

  /** `to_dict`: the seven columns under their own names, values unchanged. */
  function ToDict(r: WeatherRecord): (d: Dict)
    ensures d.Keys == DictKeys
    ensures FromDict(d) == Some(r)
  {
    map[
      "id" := IntV(r.id),
      "location" := StrV(r.location),
      "temperature" := RealV(r.temperature),
      "humidity" := RealV(r.humidity),
      "description" := StrV(r.description),
      "icon" := (if r.icon.Some? then StrV(r.icon.value) else NullV),
      "timestamp" := TimeV(r.timestamp)]
  }

  /** Two different rows never have the same dictionary form. */
  lemma ToDictInjective(a: WeatherRecord, b: WeatherRecord)
    requires ToDict(a) == ToDict(b)
    ensures a == b
  {
  }

  predicate StampsIncreasing(rs: seq<WeatherRecord>)
  {
    forall i, j :: 0 <= i < j < |rs| ==> rs[i].timestamp < rs[j].timestamp
  }

  /** The last `limit` rows of an append-only log, latest first. */
  function Newest(rs: seq<WeatherRecord>, limit: nat): (r: seq<WeatherRecord>)
    ensures |r| == Min(limit, |rs|)
    ensures forall i :: 0 <= i < |r| ==> r[i] == rs[|rs| - 1 - i]
  {
    if limit == 0 || rs == [] then []
    else [rs[|rs| - 1]] + Newest(rs[..|rs| - 1], limit - 1)
  }

  /** The rows Newest returns are exactly the log's last ones. */
  lemma NewestHoldsTail(rs: seq<WeatherRecord>, limit: nat)
    ensures forall k :: |rs| - |Newest(rs, limit)| <= k < |rs| ==> rs[k] in Newest(rs, limit)
  {
    var r := Newest(rs, limit);
    forall k | |rs| - |r| <= k < |rs|
      ensures rs[k] in r
    {
      assert r[|rs| - 1 - k] == rs[k];
    }
  }

  lemma NewestDescending(rs: seq<WeatherRecord>, limit: nat)
    requires StampsIncreasing(rs)
    ensures forall i, j :: 0 <= i < j < |Newest(rs, limit)| ==>
              Newest(rs, limit)[i].timestamp > Newest(rs, limit)[j].timestamp
  {
    var r := Newest(rs, limit);
    forall i, j | 0 <= i < j < |r|
      ensures r[i].timestamp > r[j].timestamp
    {
      assert r[i] == rs[|rs| - 1 - i] && r[j] == rs[|rs| - 1 - j];
    }
  }

  lemma NewestFromLog(rs: seq<WeatherRecord>, limit: nat)
    ensures forall x :: x in Newest(rs, limit) ==> x in rs
  {
    var r := Newest(rs, limit);
    forall x | x in r
      ensures x in rs
    {
      var b :| 0 <= b < |r| && r[b] == x;
      assert rs[|rs| - 1 - b] == x;
    }
  }

  lemma OlderAt(rs: seq<WeatherRecord>, a: int, c: int)
    requires StampsIncreasing(rs)
    requires 0 <= a < c < |rs|
    ensures rs[a].timestamp < rs[c].timestamp
  {
  }

  lemma NewestOmitsOlder(rs: seq<WeatherRecord>, limit: nat)
    requires StampsIncreasing(rs)
    ensures forall x, y :: x in rs && x !in Newest(rs, limit) && y in Newest(rs, limit) ==>
              x.timestamp < y.timestamp
  {
    var r := Newest(rs, limit);
    var n := |rs|;
    NewestHoldsTail(rs, limit);
    forall x, y | x in rs && x !in r && y in r
      ensures x.timestamp < y.timestamp
    {
      var a :| 0 <= a < n && rs[a] == x;
      var b :| 0 <= b < |r| && r[b] == y;
      OlderAt(rs, a, n - 1 - b);
    }
  }

  /** On a log whose timestamps increase, Newest is `ORDER BY timestamp DESC
      LIMIT limit`: timestamps strictly decrease, every row comes from the log,
      and every row left out is older than every row returned. */
  lemma NewestIsLatestByTimestamp(rs: seq<WeatherRecord>, limit: nat)
    requires StampsIncreasing(rs)
    ensures var r := Newest(rs, limit);
            && |r| == Min(limit, |rs|)
            && (forall i, j :: 0 <= i < j < |r| ==> r[i].timestamp > r[j].timestamp)
            && (forall x :: x in r ==> x in rs)
            && (forall x, y :: x in rs && x !in r && y in r ==> x.timestamp < y.timestamp)
  {
    NewestDescending(rs, limit);
    NewestFromLog(rs, limit);
    NewestOmitsOlder(rs, limit);
  }

  /** The row appended last is the first row of the history. */
  lemma NewestStartsWithLatest(rs: seq<WeatherRecord>, rec: WeatherRecord, limit: nat)
    requires limit > 0
    ensures Newest(rs + [rec], limit)[0] == rec
    ensures Newest(rs + [rec], limit)[1..] == Newest(rs, limit - 1)
  {
  }
}
