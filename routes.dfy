/** The `/api/weather` and `/api/weather/history` endpoints: argument
    defaulting, the choice between ZIP and city lookup, the response's location text,
    the status codes, and the newest-first history view. */
module Routes {
  import opened Values
  import opened Models
  import opened Provider
  import opened Store
  import opened Service

  /** The query-string arguments the endpoint reads; None when not given. */
  datatype RequestArgs = RequestArgs(city: Option<string>, zip: Option<string>, country: Option<string>)

  /** Python truthiness of an optional argument: given and non-empty. */
  predicate Given(o: Option<string>)
  {
    o.Some? && o.value != ""
  }

  datatype Lookup = ByZip(zip: string, country: string) | ByCity(city: string, country: string)

  /** The lookup to perform and the location text the response carries. */
  datatype Plan = Plan(lookup: Lookup, display: string)

  const DefaultCountry: string := "US"

  function CountryOf(a: RequestArgs): (c: string)
    ensures a.country.None? ==> c == DefaultCountry
    ensures a.country.Some? ==> c == a.country.value
  {
    if a.country.Some? then a.country.value else DefaultCountry
  }

  function ZipLabel(zip: string, country: string): string
  {
    "ZIP: " + zip + ", Country: " + country
  }

  function CityLabel(city: string, country: string): string
  {
    "City: " + city + ", Country: " + country
  }

  /** The decision `get_weather` makes before calling the service: no plan
      when neither `city` nor `zip` is given; a ZIP lookup whenever `zip` is
      given, even alongside `city`; a city lookup otherwise. */
  function Dispatch(a: RequestArgs): (r: Option<Plan>)
    ensures r.None? <==> !Given(a.city) && !Given(a.zip)
    ensures r.Some? && Given(a.zip) ==>
              r.value == Plan(ByZip(a.zip.value, CountryOf(a)), ZipLabel(a.zip.value, CountryOf(a)))
    ensures r.Some? && !Given(a.zip) ==>
              r.value == Plan(ByCity(a.city.value, CountryOf(a)), CityLabel(a.city.value, CountryOf(a)))
  {
    if !(Given(a.city) || Given(a.zip)) then None
    else
      var country := CountryOf(a);
      if Given(a.zip) then Some(Plan(ByZip(a.zip.value, country), ZipLabel(a.zip.value, country)))
      else Some(Plan(ByCity(a.city.value, country), CityLabel(a.city.value, country)))
  }

  /** The location text tells the two lookups apart: it starts with "ZIP: " exactly
      for a ZIP lookup. */
  lemma LabelNamesLookup(a: RequestArgs)
    requires Dispatch(a).Some?
    ensures var p := Dispatch(a).value;
            p.lookup.ByZip? <==> |p.display| >= 5 && p.display[..5] == "ZIP: "
  {
    var p := Dispatch(a).value;
    if p.lookup.ByCity? {
      assert p.display[0] == 'C';
    } else {
      assert p.display[..5] == "ZIP: ";
    }
  }

  datatype Body =
    | WeatherFound(data: Dict, location: string)
    | HistoryFound(items: seq<Dict>)
    | MissingLocation(message: string, requested: RequestArgs)
    | NoData(message: string, requestedLocation: string, suggestion: string)
    | Failure(message: string, details: string)

  datatype Response = Response(status: nat, body: Body)

  const MissingLocationMessage: string := "Either 'city' or 'zip' parameter is required"
  const NoDataSuggestion: string := "Please check the location and try again."
  const UnexpectedMessage: string := "An unexpected error occurred"

  /** The response for a service result: the data with the location text, or 404. */
  function Respond(display: string, data: Option<Dict>): (resp: Response)
    ensures resp.status == 200 <==> data.Some?
    ensures resp.status != 200 ==> resp.status == 404
    ensures data.Some? ==> resp.body == WeatherFound(data.value, display)
    ensures data.None? ==> && resp.body.NoData? && resp.body.requestedLocation == display
                           && resp.body.message == "No weather data found for " + display
                           && resp.body.suggestion == NoDataSuggestion
  {
    if data.Some? then Response(200, WeatherFound(data.value, display))
    else Response(404, NoData("No weather data found for " + display, display, NoDataSuggestion))
  }

  /** The request the service sends for a lookup, if any. */
  function LookupRequest(svc: WeatherService, l: Lookup): (r: Option<Params>)
    ensures l.ByCity? ==> r.Some? && r.value.key == CityName
    ensures l.ByZip? ==> (r.None? <==> ZipQuery(svc, l.zip, l.country).None?)
  {
    match l
    case ByCity(city, country) => Some(CityQuery(svc, city, country).params)
    case ByZip(zip, country) =>
      var q := ZipQuery(svc, zip, country);
      if q.Some? then Some(q.value.params) else None
  }

  /** The row a lookup adds: none when no request is sent, otherwise the fetch's. */
  function LookupOutcome(svc: WeatherService, l: Lookup, t: Transport, strictLengths: bool, id: nat, stamp: nat)
    : (r: Option<WeatherRecord>)
    ensures LookupRequest(svc, l).None? ==> r.None?
    ensures r.Some? ==> t.Delivered? && WellFormed(t.payload)
  {
    if LookupRequest(svc, l).Some? then FetchOutcome(t, strictLengths, id, stamp) else None
  }

  /** `get_weather`. `env` is the `OPENWEATHER_API_KEY` setting, `t` the
      provider's answer to whatever request is sent, `sent` that request. */
  method GetWeather(store: WeatherStore, args: RequestArgs, env: Option<string>, t: Transport)
    returns (resp: Response, sent: Option<Params>)
    requires store.Valid()
    modifies store
    ensures store.Valid()
    ensures resp.status in {200, 400, 404, 500}
    ensures Dispatch(args).None? ==>
              resp == Response(400, MissingLocation(MissingLocationMessage, args))
              && sent.None? && unchanged(store)
    ensures Dispatch(args).Some? && NewWeatherService(None, env).Err? ==>
              resp == Response(500, Failure(UnexpectedMessage, MissingKeyMessage))
              && sent.None? && unchanged(store)
    ensures Dispatch(args).Some? && NewWeatherService(None, env).Ok? ==>
              var svc := NewWeatherService(None, env).value;
              var plan := Dispatch(args).value;
              var added := LookupOutcome(svc, plan.lookup, t, store.strictLengths, old(store.nextId), old(store.clock));
              && sent == LookupRequest(svc, plan.lookup)
              && resp == Respond(plan.display, DictOf(added))
              && store.records == Appended(old(store.records), added)
  {
    var plan := Dispatch(args);
    if plan.None? {
      return Response(400, MissingLocation(MissingLocationMessage, args)), None;
    }
    var svc := NewWeatherService(None, env);
    if svc.Err? {
      return Response(500, Failure(UnexpectedMessage, svc.error)), None;
    }
    var data: Option<Dict>;
    match plan.value.lookup {
      case ByZip(zip, country) =>
        data, sent := GetWeatherByZip(svc.value, store, zip, country, t);
      case ByCity(city, country) =>
        data, sent := GetWeatherByCity(svc.value, store, city, country, t);
    }
    resp := Respond(plan.value.display, data);
  }

  /** A successful response means exactly one row was added, carrying the
      returned data; any other response leaves the history as it was. */
  lemma SuccessAddsOneRow(svc: WeatherService, plan: Plan, t: Transport, rs: seq<WeatherRecord>,
                          strictLengths: bool, id: nat, stamp: nat)
    ensures var added := LookupOutcome(svc, plan.lookup, t, strictLengths, id, stamp);
            var resp := Respond(plan.display, DictOf(added));
            && (resp.status == 200 <==> |Appended(rs, added)| == |rs| + 1)
            && (resp.status == 200 ==>
                  && Appended(rs, added)[..|rs|] == rs
                  && FromDict(resp.body.data) == Some(Appended(rs, added)[|rs|])
                  && Appended(rs, added)[|rs|].id == id)
            && (resp.status != 200 ==> Appended(rs, added) == rs)
  {
  }

  const HistoryLimit: nat := 10

  function DictsOf(rs: seq<WeatherRecord>): (ds: seq<Dict>)
    ensures |ds| == |rs|
    ensures forall i :: 0 <= i < |rs| ==> FromDict(ds[i]) == Some(rs[i])
  {
    if rs == [] then [] else [ToDict(rs[0])] + DictsOf(rs[1..])
  }

  /** `get_weather_history`: the ten latest rows, latest first, as dictionaries. */
  method GetWeatherHistory(store: WeatherStore) returns (resp: Response)
    requires store.Valid()
    ensures var h := Newest(store.records, HistoryLimit);
            && resp == Response(200, HistoryFound(DictsOf(h)))
            && |h| == Min(HistoryLimit, |store.records|)
            && (forall i :: 0 <= i < |h| ==> FromDict(resp.body.items[i]) == Some(h[i]))
            && (forall i, j :: 0 <= i < j < |h| ==> h[i].timestamp > h[j].timestamp)
            && (forall x :: x in h ==> x in store.records)
            && (forall x, y :: x in store.records && x !in h && y in h ==> x.timestamp < y.timestamp)
  {
    var latest := Newest(store.records, HistoryLimit);
    NewestIsLatestByTimestamp(store.records, HistoryLimit);
    resp := Response(200, HistoryFound(DictsOf(latest)));
  }
}
