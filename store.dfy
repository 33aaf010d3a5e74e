/** The database session seen by `_save_weather_data`: an append-only table
    of weather rows, a clock that stamps each new row, and the id sequence. */
module Store {
  import opened Values
  import opened Models
  import opened Provider

  /** The draft's strings fit their VARCHAR columns (the width test a strict
      backend applies at commit; the NOT NULL test is separate, in `Commit`).
      A draft has no id or stamp yet, so the test is on its three strings. */
  predicate DraftFits(d: Draft)
  {
    FitsColumns(d.location, d.description, d.icon)
  }

  function Commit(d: Draft, strictLengths: bool, id: nat, stamp: nat): (r: Option<WeatherRecord>)
    ensures r.Some? <==> d.temperature.Some? && d.humidity.Some? && (strictLengths ==> DraftFits(d))
    ensures r.Some? ==> r.value.id == id && r.value.timestamp == stamp
    ensures r.Some? ==> (strictLengths ==> WithinColumnWidths(r.value))
    ensures r.Some? ==> && r.value.location == d.location
                        && Some(r.value.temperature) == d.temperature
                        && Some(r.value.humidity) == d.humidity
                        && r.value.description == d.description
                        && r.value.icon == d.icon
  {
    if d.temperature.None? || d.humidity.None? then None
    else
      var rec := WeatherRecord(id, d.location, d.temperature.value, d.humidity.value,
                               d.description, d.icon, stamp);
      if strictLengths && !WithinColumnWidths(rec) then None else Some(rec)
  }

  /** The same width test, read off a well-formed reply directly. */
  predicate PayloadFits(p: Payload)
    requires WellFormed(p)
  {
    FitsColumns(PayloadLocation(p), DescriptionOf(p.weather.v[0]), IconOf(p.weather.v[0]))
  }

  /** The row a save adds, or None when it adds nothing. A row is added exactly
      for a well-formed reply with temperature and humidity (whose strings fit
      their columns, on a backend that checks widths), and it then holds the
      reply's values, the next id and the current clock. */
  function SaveResult(p: Payload, strictLengths: bool, id: nat, stamp: nat): (r: Option<WeatherRecord>)
    ensures r.Some? <==> && WellFormed(p)
                         && p.main.v.temp.Val? && p.main.v.humidity.Val?
                         && (strictLengths ==> PayloadFits(p))
    ensures r.Some? ==>
              r.value == WeatherRecord(id, PayloadLocation(p), p.main.v.temp.v, p.main.v.humidity.v,
                                       DescriptionOf(p.weather.v[0]), IconOf(p.weather.v[0]), stamp)
    ensures r.Some? ==> r.value.location != ", "
  {
    DraftOfWellFormed(p);
    match BuildDraft(p)
    case Err(_) => None
    case Ok(d) => Commit(d, strictLengths, id, stamp)
  }

  /** A reply missing either block, with an empty first condition or an empty
      `main`, or missing temperature or humidity, is never saved. */
  lemma MalformedNeverSaved(p: Payload, strictLengths: bool, id: nat, stamp: nat)
    ensures LacksBlocks(p) || NoFirstCondition(p) ==> SaveResult(p, strictLengths, id, stamp).None?
    ensures p.weather.Val? && p.weather.v != [] && EmptyBlocks(p) ==>
              SaveResult(p, strictLengths, id, stamp).None?
    ensures p.main.Val? && (p.main.v.temp.Val? ==> !p.main.v.humidity.Val?) ==>
              SaveResult(p, strictLengths, id, stamp).None?
  {
  }

  function Appended(rs: seq<WeatherRecord>, r: Option<WeatherRecord>): seq<WeatherRecord>
  {
    if r.Some? then rs + [r.value] else rs
  }

  class WeatherStore {
    var records: seq<WeatherRecord>
    var clock: nat
    var nextId: nat
    /** True for a backend that rejects strings longer than their column. */
    const strictLengths: bool

    ghost predicate Valid()
      reads this
    {
      && (forall i :: 0 <= i < |records| ==>
            records[i].id < nextId && records[i].timestamp < clock
            && (strictLengths ==> WithinColumnWidths(records[i])))
      && (forall i, j :: 0 <= i < j < |records| ==> records[i].id < records[j].id)
      && StampsIncreasing(records)
      && nextId == (if records == [] then 1 else records[|records| - 1].id + 1)
    }

    constructor (strictLengths: bool)
      ensures Valid()
      ensures records == [] && this.strictLengths == strictLengths
    {
      records := [];
      clock := 0;
      nextId := 1;
      this.strictLengths := strictLengths;
    }

    /** `_save_weather_data`: add one row built from the reply and commit, or
        roll back and add nothing. Earlier rows are never touched. */
    method SaveWeatherData(p: Payload) returns (r: Option<WeatherRecord>)
      requires Valid()
      modifies this
      ensures Valid()
      ensures r == SaveResult(p, strictLengths, old(nextId), old(clock))
      ensures records == Appended(old(records), r)
      ensures r.Some? ==> nextId == old(nextId) + 1 && clock > old(clock)
      ensures r.None? ==> nextId == old(nextId) && clock == old(clock)
    {
      var draft := BuildDraft(p);
      if draft.Err? {
        return None;
      }
      r := Commit(draft.value, strictLengths, nextId, clock);
      if r.Some? {
        records := records + [r.value];
        nextId := nextId + 1;
        clock := clock + 1;
      }
    }
  }
}
