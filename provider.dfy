/** The current-weather provider's JSON reply and how the service turns it
    into the fields of a new row (everything `_save_weather_data` does before
    it touches the session). */
module Provider {
  import opened Values
  import Text

  /** One entry of the reply's `weather` list. `hasOtherKeys` records members
      the service never reads (`id`, `main`, ...), which still make the entry
      a non-empty dict. */
  datatype Condition = Condition(description: Field<string>, icon: Field<string>, hasOtherKeys: bool)
  {
    predicate IsEmpty() { description.Absent? && icon.Absent? && !hasOtherKeys }
  }

  /** The reply's `main` block. */
  datatype MainBlock = MainBlock(temp: Field<real>, humidity: Field<real>, hasOtherKeys: bool)
  {
    predicate IsEmpty() { temp.Absent? && humidity.Absent? && !hasOtherKeys }
  }

  /** The reply's `sys` block. */
  datatype SysBlock = SysBlock(country: Field<string>, hasOtherKeys: bool)

  /** The decoded JSON object of a current-weather reply. */
  datatype Payload = Payload(
    weather: Field<seq<Condition>>,
    main: Field<MainBlock>,
    name: Field<string>,
    sys: Field<SysBlock>,
    hasOtherKeys: bool)
  {
    predicate IsEmpty()
    {
      weather.Absent? && main.Absent? && name.Absent? && sys.Absent? && !hasOtherKeys
    }
  }

  /** What the HTTP call yields once abstracted: a decoded reply, or a
      failure (connection error, timeout, HTTP error status, undecodable body). */
  datatype Transport = TransportFailure | Delivered(payload: Payload)

  /** The fields of a row about to be added; temperature and humidity may
      still be missing, which only the commit detects. */
  datatype Draft = Draft(
    location: string,
    temperature: Option<real>,
    humidity: Option<real>,
    description: string,
    icon: Option<string>)

  /** Why no row was built. The first three are early returns; `Raised` is an
      exception (indexing an empty or null list, reading a member of `null`,
      capitalising `null`) caught by the handler that rolls back. */
  datatype SaveError = InvalidResponse | MissingData | NoLocation | Raised

  /** How an f-string renders an optional member: missing and null both print `None`. */
  function Render(f: Field<string>): (r: string)
    ensures f.Val? ==> r == f.v
    ensures !f.Val? ==> r == "None"
    ensures r == "" <==> f == Val("")
  {
    if f.Val? then f.v else "None"
  }

  /** `sys.get('country')` when `sys` is absent or an object. */
  function CountryField(sys: Field<SysBlock>): Field<string>
  {
    if sys.Val? then sys.v.country else Absent
  }

  function Location(name: Field<string>, country: Field<string>): string
  {
    Render(name) + ", " + Render(country)
  }

  /** The location the service derives from a reply: "name, country". */
  function PayloadLocation(p: Payload): string
  {
    Location(p.name, CountryField(p.sys))
  }

  /** The stored description: the entry's description ('' when missing), capitalised. */
  function DescriptionOf(w: Condition): string
  {
    Text.Capitalize(if w.description.Val? then w.description.v else "")
  }

  /** The stored icon: '' when missing, NULL when null, the value otherwise. */
  function IconOf(w: Condition): Option<string>
  {
    if w.icon.Absent? then Some("") else FieldToOption(w.icon)
  }

  /** The only location the service rejects is ", ": both members present
      and empty. A missing name or country is accepted and rendered as `None`. */
  lemma LocationRejectedIff(name: Field<string>, country: Field<string>)
    ensures Location(name, country) == ", " <==> name == Val("") && country == Val("")
  {
  }

  /** Entries of the early checks: the reply is empty or lacks `weather` or `main`. */
  predicate LacksBlocks(p: Payload)
  {
    p.IsEmpty() || p.weather.Absent? || p.main.Absent?
  }

  /** `weather[0]` raises: the list is null or empty. */
  predicate NoFirstCondition(p: Payload)
  {
    p.weather.Null? || (p.weather.Val? && p.weather.v == [])
  }

  /** The first condition entry or the `main` block is empty (or `main` is null). */
  predicate EmptyBlocks(p: Payload)
    requires p.weather.Val? && p.weather.v != []
  {
    p.weather.v[0].IsEmpty() || p.main.Null? || (p.main.Val? && p.main.v.IsEmpty())
  }

  /** The steps of `_save_weather_data` up to building the row, in their order. */
  function BuildDraft(p: Payload): (r: Result<Draft, SaveError>)
    ensures LacksBlocks(p) ==> r == Err(InvalidResponse)
    ensures !LacksBlocks(p) && NoFirstCondition(p) ==> r == Err(Raised)
    ensures r.Ok? ==> p.weather.Val? && p.weather.v != [] && !EmptyBlocks(p) && p.main.Val?
    ensures r.Ok? ==> r.value.location != ", "
  {
    if LacksBlocks(p) then Err(InvalidResponse)
    else if p.weather.Null? || p.weather.v == [] then Err(Raised)
    else
      var w := p.weather.v[0];
      if w.IsEmpty() || p.main.Null? || p.main.v.IsEmpty() then Err(MissingData)
      else if p.sys.Null? then Err(Raised)
      else
        var location := PayloadLocation(p);
        if location == ", " then Err(NoLocation)
        else if w.description.Null? then Err(Raised)
        else
          Ok(Draft(location, FieldToOption(p.main.v.temp), FieldToOption(p.main.v.humidity),
                   DescriptionOf(w), IconOf(w)))
  }

  /** A well-formed reply: both blocks present and non-empty, a first
      condition entry, a readable `sys`, a location other than ", ", and a
      description that is not null. */
  predicate WellFormed(p: Payload)
  {
    && !p.IsEmpty()
    && p.weather.Val? && p.weather.v != [] && !p.weather.v[0].IsEmpty()
    && p.main.Val? && !p.main.v.IsEmpty()
    && !p.sys.Null?
    && !(p.name == Val("") && CountryField(p.sys) == Val(""))
    && !p.weather.v[0].description.Null?
  }

  /** A draft is built exactly from the well-formed replies, and then carries
      the reply's values: the location "name, country", the capitalised
      description (empty when missing), the icon (empty when missing, NULL
      when null), temperature and humidity as given. */
  lemma DraftOfWellFormed(p: Payload)
    ensures BuildDraft(p).Ok? <==> WellFormed(p)
    ensures WellFormed(p) ==>
      var w := p.weather.v[0];
      var d := BuildDraft(p).value;
      && d.location == Render(p.name) + ", " + Render(CountryField(p.sys))
      && d.description == Text.Capitalize(if w.description.Val? then w.description.v else "")
      && (w.icon.Absent? ==> d.icon == Some(""))
      && (w.icon.Null? ==> d.icon == None)
      && (w.icon.Val? ==> d.icon == Some(w.icon.v))
      && d.temperature == FieldToOption(p.main.v.temp)
      && d.humidity == FieldToOption(p.main.v.humidity)
  {
  }
}
