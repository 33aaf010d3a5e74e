/** `WeatherService`: the API-key check, the provider query for a city or a
    ZIP code, and fetch-then-save with the HTTP exchange abstracted. */
module Service {
  import opened Values
  import opened Models
  import opened Provider
  import opened Store
  import Text

  datatype WeatherService = WeatherService(apiKey: string)

  const MissingKeyMessage: string :=
    "OpenWeatherMap API key is required. Please set OPENWEATHER_API_KEY in your .env file"

  /** The constructor: the explicit key, or when that is missing or empty the
      `OPENWEATHER_API_KEY` environment value; a missing or empty key raises
      `ValueError`. */
  function NewWeatherService(apiKey: Option<string>, env: Option<string>): (r: Result<WeatherService, string>)
    ensures r.Ok? <==> (apiKey.Some? && apiKey.value != "") || (env.Some? && env.value != "")
    ensures r.Ok? ==> r.value.apiKey != ""
    ensures r.Ok? && apiKey.Some? && apiKey.value != "" ==> r.value.apiKey == apiKey.value
    ensures r.Ok? && !(apiKey.Some? && apiKey.value != "") ==> r.value.apiKey == env.value
    ensures r.Err? ==> r.error == MissingKeyMessage
  {
    var key := if apiKey.Some? && apiKey.value != "" then apiKey else env;
    if key.None? || key.value == "" then Err(MissingKeyMessage)
    else Ok(WeatherService(key.value))
  }

  /** Which query parameter carries the location: `q` or `zip`. */
  datatype LocationKey = CityName | ZipCode

  /** The provider request's parameters. */
  datatype Params = Params(key: LocationKey, location: string, appid: string, units: string)

  /** Parameters plus the description the service logs them under. */
  datatype Query = Query(params: Params, description: string)

  const Units: string := "imperial"

  /** `get_weather_by_city`'s request: "city,country", or the city alone when
      the country is empty. */
  function CityQuery(svc: WeatherService, city: string, country: string): (q: Query)
    ensures q.params.key == CityName && q.params.appid == svc.apiKey && q.params.units == Units
    ensures |q.params.location| >= |city| && q.params.location[..|city|] == city
    ensures q.params.location[|city|..] == if country != "" then "," + country else ""
    ensures q.description == "city: " + city + ", country: " + country
  {
    var location := if country != "" then city + "," + country else city;
    Query(Params(CityName, location, svc.apiKey, Units), "city: " + city + ", country: " + country)
  }

  /** For a city name without a comma, the provider can split the location
      back into the city and the (possibly empty) country it was built from. */
  lemma CityQueryRoundTrip(svc: WeatherService, city: string, country: string)
    requires ',' !in city
    ensures Text.SplitAtFirstComma(CityQuery(svc, city, country).params.location) == (city, country)
    ensures country == "" ==> CityQuery(svc, city, country).params.location == city
  {
    if country != "" {
      Text.SplitJoined(city, country);
    } else {
      Text.SplitNoComma(city);
    }
  }

  /** `get_weather_by_zip`'s request: the digits of the ZIP code, a comma and
      the country; nothing when the ZIP code holds no digit. */
  function ZipQuery(svc: WeatherService, zip: string, country: string): (r: Option<Query>)
    ensures r.None? <==> Text.Digits(zip) == []
    ensures r.Some? ==> r.value.params.key == ZipCode && r.value.params.appid == svc.apiKey
                        && r.value.params.units == Units
  {
    var clean := Text.Digits(zip);
    if clean == [] then None
    else Some(Query(Params(ZipCode, clean + "," + country, svc.apiKey, Units),
                    "ZIP: " + clean + ", country: " + country))
  }

  /** The ZIP location always splits back into the digits-only ZIP code (the
      input's digits, in order) and the country. */
  lemma ZipQueryRoundTrip(svc: WeatherService, zip: string, country: string)
    requires ZipQuery(svc, zip, country).Some?
    ensures var (z, c) := Text.SplitAtFirstComma(ZipQuery(svc, zip, country).value.params.location);
            && z == Text.Digits(zip) && Text.AllDigits(z) && z != [] && c == country
            && ZipQuery(svc, zip, country).value.params.location == z + "," + c
  {
    Text.DigitsHaveNoComma(zip);
    Text.SplitJoined(Text.Digits(zip), country);
  }

  /** The row a fetch adds: none when the exchange fails, otherwise what the
      save makes of the reply. */
  function FetchOutcome(t: Transport, strictLengths: bool, id: nat, stamp: nat): (r: Option<WeatherRecord>)
    ensures t.TransportFailure? ==> r.None?
    ensures r.Some? ==> t.Delivered? && WellFormed(t.payload) && r.value.id == id && r.value.timestamp == stamp
  {
    if t.Delivered? then SaveResult(t.payload, strictLengths, id, stamp) else None
  }

  function DictOf(r: Option<WeatherRecord>): (d: Option<Dict>)
    ensures d.Some? <==> r.Some?
    ensures d.Some? ==> FromDict(d.value) == r
  {
    if r.Some? then Some(ToDict(r.value)) else None
  }

  /** `_fetch_weather`: send the request built from `q`, save the reply, return
      the new row as a dictionary; any failure yields None and leaves the store
      as it was. `sent` is the request issued. */
  method FetchWeather(store: WeatherStore, q: Query, t: Transport) returns (r: Option<Dict>, sent: Option<Params>)
    requires store.Valid()
    modifies store
    ensures store.Valid()
    ensures sent == Some(q.params)
    ensures r.None? ==> store.nextId == old(store.nextId) && store.records == old(store.records)
    ensures r == DictOf(FetchOutcome(t, store.strictLengths, old(store.nextId), old(store.clock)))
    ensures store.records
            == Appended(old(store.records), FetchOutcome(t, store.strictLengths, old(store.nextId), old(store.clock)))
  {
    sent := Some(q.params);
    if t.TransportFailure? {
      return None, sent;
    }
    var saved := store.SaveWeatherData(t.payload);
    if saved.Some? {
      r := Some(ToDict(saved.value));
    } else {
      r := None;
    }
  }

  /** `get_weather_by_city`. `sent` is the request issued to the provider. */
  method GetWeatherByCity(svc: WeatherService, store: WeatherStore, city: string, country: string, t: Transport)
    returns (r: Option<Dict>, sent: Option<Params>)
    requires store.Valid()
    modifies store
    ensures store.Valid()
    ensures sent == Some(CityQuery(svc, city, country).params)
    ensures r == DictOf(FetchOutcome(t, store.strictLengths, old(store.nextId), old(store.clock)))
    ensures store.records
            == Appended(old(store.records), FetchOutcome(t, store.strictLengths, old(store.nextId), old(store.clock)))
  {
    var q := CityQuery(svc, city, country);
    r, sent := FetchWeather(store, q, t);
  }

  /** `get_weather_by_zip`: a ZIP code without digits is refused before any
      request is made. */
  method GetWeatherByZip(svc: WeatherService, store: WeatherStore, zip: string, country: string, t: Transport)
    returns (r: Option<Dict>, sent: Option<Params>)
    requires store.Valid()
    modifies store
    ensures store.Valid()
    ensures ZipQuery(svc, zip, country).None? ==>
              r.None? && sent.None? && unchanged(store)
    ensures ZipQuery(svc, zip, country).Some? ==>
              && sent == Some(ZipQuery(svc, zip, country).value.params)
              && r == DictOf(FetchOutcome(t, store.strictLengths, old(store.nextId), old(store.clock)))
              && store.records
                 == Appended(old(store.records), FetchOutcome(t, store.strictLengths, old(store.nextId), old(store.clock)))
  {
    var q := ZipQuery(svc, zip, country);
    if q.None? {
      return None, None;
    }
    r, sent := FetchWeather(store, q.value, t);
  }
}
