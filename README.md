# Weather dashboard backend: current-weather lookup and history log, in Dafny

This project models the current-weather path of a small Flask backend.

- **Request handling.** `GET /api/weather` reads `city`, `zip` and `country` from the query string, with `country` defaulting to `US`. It refuses a request that has neither `city` nor `zip`. When a ZIP code is given, it looks the location up by ZIP code, even if a city is also given. Otherwise it looks it up by city name.
- **Queries.** The service turns the lookup into a provider query. A city becomes `city,country`, or the city alone when the country is empty. A ZIP code is reduced to its digits and becomes `digits,country`. A ZIP code without digits is refused before any request is made.
- **Saving.** The service validates the provider's JSON reply and builds a `WeatherData` row from it, with the location `"name, country"` and the capitalised description. It appends exactly one row to the history table and returns the row as a dictionary. If anything fails, it rolls back and returns nothing.
- **History.** `GET /api/weather/history` returns the ten latest rows, latest first.

The location string of weather_service.py:137 is built by `Provider.Location`, `Provider.PayloadLocation` and `Provider.CountryField`. Their behaviour is stated through `Provider.Render`, `Provider.LocationRejectedIff`, `Provider.DraftOfWellFormed` and `Store.SaveResult`.

The modules follow the source files:

- `Text` holds the string operations: digit filtering, `str.capitalize`, and splitting at the first comma.
- `Models` holds the row, its column widths, `to_dict`, and the newest-first view.
- `Provider` holds the reply shape and the pure part of `_save_weather_data`.
- `Store` holds the session as a class: an append-only `seq` of rows, an id counter and a clock.
- `Service` holds `WeatherService`.
- `Routes` holds the two endpoints.

The HTTP exchange with the provider is a parameter of type `Transport`: either a decoded reply or a failure. Methods that may send a request return it as `sent`, so "no request was made" can be stated. The `OPENWEATHER_API_KEY` environment value is also a parameter.

JSON members are `Field<T> = Absent | Null | Val(v)`. This keeps Python's behaviour explicit in three places:

- `dict.get` defaults, for example a missing icon becomes `''`;
- the f-string rendering of a missing or null member as `None`;
- the exceptions raised on `null` or on an empty list, which the save's handler turns into a rollback.

## Model

| member | source | states |
|---|---|---|
| `Text.Digits` | app/services/weather_service.py:54 | the cleaned ZIP code holds only digits and is no longer than the input |
| `Text.DigitsAppend` | app/services/weather_service.py:54 | cleaning distributes over concatenation, so the digits keep their original order |
| `Text.DigitsCount` | app/services/weather_service.py:54 | each digit is kept as many times as it occurs in the input, and no other character is kept |
| `Text.DigitsOfDigits` | app/services/weather_service.py:54 | a string of digits is left unchanged |
| `Text.DigitsIdempotent` | app/services/weather_service.py:54 | cleaning an already cleaned ZIP code changes nothing |
| `Text.DigitsEmptyIff` | app/services/weather_service.py:54-57 | the cleaned ZIP code is empty exactly when the input has no digit (the case that returns None) |
| `Text.DigitsExample` | app/services/weather_service.py:54-57 | "9-0-2-1-0" cleans to "90210"; "abc" and "" clean to the empty string |
| `Text.Capitalize` | app/services/weather_service.py:146 | same length, first character upper case, every later character lower case |
| `Text.CapitalizeSameLetters` | app/services/weather_service.py:146 | capitalising changes only letter case: lower-casing gives the same text before and after |
| `Text.CapitalizeIdempotent` | app/services/weather_service.py:146 | capitalising a capitalised description changes nothing |
| `Models.ToDict` | app/models.py:15-24 | the dictionary has exactly the seven column keys, and reading it back gives the same row |
| `Models.ToDictInjective` | app/models.py:15-24 | two different rows never give the same dictionary |
| `Models.Newest` | app/routes.py:132 | at most `limit` rows, the i-th being the i-th latest appended |
| `Models.NewestIsLatestByTimestamp` | app/routes.py:132 | on a log with increasing timestamps: timestamps strictly decrease, every row comes from the log, and every row left out is older than every row returned (ORDER BY timestamp DESC LIMIT) |
| `Models.NewestStartsWithLatest` | app/routes.py:132 | the row appended last heads the history, followed by the older history |
| `Provider.Render` | app/services/weather_service.py:137 | a present member renders as its value and a missing or null one as `None`, so a rendering is empty only when the member is present and empty |
| `Provider.LocationRejectedIff` | app/services/weather_service.py:137-140 | the location is ", " exactly when name and country are both present and empty; a missing part does not cause a rejection |
| `Provider.BuildDraft` | app/services/weather_service.py:126-149 | a reply that is empty or lacks `weather` or `main` is an invalid response; a null or empty `weather` list raises; a built row has a first condition, non-empty blocks, and a location other than ", " |
| `Provider.DraftOfWellFormed` | app/services/weather_service.py:126-149 | a row is built exactly from well-formed replies; it then has the location "name, country", the capitalised description ('' when missing), the icon ('' when missing, NULL when null), and the reply's temperature and humidity (NULL when missing) |
| `Store.Commit` | app/models.py:8-12 | the insert succeeds exactly when temperature and humidity are non-null and, on a backend that checks column widths, the strings fit; the row keeps the draft's values, the given id and the given timestamp |
| `Store.SaveResult` | app/services/weather_service.py:123-158 | a row is saved exactly for a well-formed reply with temperature and humidity whose strings fit (on a width-checking backend); the row holds "name, country", the reply's temperature and humidity, the capitalised description, the icon ('' when missing), the next id and the current clock |
| `Store.MalformedNeverSaved` | app/services/weather_service.py:126-135 | nothing is saved when a block is missing, the first condition or `main` is empty, or temperature or humidity is missing |
| `Store.WeatherStore.constructor` | app/models.py:6-13 | a new table is empty, its next id is 1, and it satisfies the table invariant |
| `Store.WeatherStore.SaveWeatherData` | app/services/weather_service.py:123-158 | appends exactly the row `SaveResult` describes, or nothing; earlier rows are untouched; ids and timestamps stay strictly increasing; the next id is always one more than the last row's id, so a success advances it by exactly 1; a failure leaves table, ids and clock as they were |
| `Service.NewWeatherService` | app/services/weather_service.py:14-20 | a service exists exactly when the explicit key or the environment key is non-empty; the explicit key wins; otherwise it raises the missing-key error |
| `Service.CityQuery` | app/services/weather_service.py:33-39 | for every city, the `q` value is the city followed by "," and the country, or by nothing when the country is empty; the request carries the service's key and imperial units, and is logged as "city: ..., country: ..." |
| `Service.CityQueryRoundTrip` | app/services/weather_service.py:33 | for a city without a comma, the query splits back into the city and country it was built from; with an empty country it is the city alone |
| `Service.ZipQuery` | app/services/weather_service.py:52-67 | there is no request exactly when the ZIP code has no digit; otherwise it uses `zip`, the service's key and imperial units |
| `Service.ZipQueryRoundTrip` | app/services/weather_service.py:54-63 | the ZIP query is exactly the non-empty cleaned ZIP code, a comma and the country (the comma is kept when the country is empty), and splits back into those two parts |
| `Service.FetchOutcome` | app/services/weather_service.py:88-121 | a transport failure adds no row; a row is added only from a delivered, well-formed reply |
| `Service.DictOf` | app/services/weather_service.py:98-104 | a dictionary is returned exactly when a row was saved, and it reads back as that row |
| `Service.FetchWeather` | app/services/weather_service.py:73-121 | sends the query's request; returns the dictionary of the row that the fetch and save add, or None, and the table grows by exactly that row; a None leaves the table and the next id as they were |
| `Service.GetWeatherByCity` | app/services/weather_service.py:22-39 | sends the city query, then behaves as the fetch |
| `Service.GetWeatherByZip` | app/services/weather_service.py:41-71 | with no digits: returns None, sends nothing and leaves the store unchanged; otherwise sends the ZIP query and behaves as the fetch |
| `Routes.CountryOf` | app/routes.py:47 | the country is `US` when absent and the given value otherwise, even when that value is empty |
| `Routes.Dispatch` | app/routes.py:45-73 | no lookup exactly when neither city nor zip is given; a ZIP lookup whenever zip is given; a city lookup otherwise; the location text is "ZIP: z, Country: c" or "City: x, Country: c" |
| `Routes.LabelNamesLookup` | app/routes.py:60 | the location text starts with "ZIP: " exactly for a ZIP lookup |
| `Routes.Respond` | app/routes.py:75-90 | status 200 with the data and location text exactly when the service returned data, otherwise 404 with the message "No weather data found for " followed by the location text, that text as the requested location, and the fixed suggestion |
| `Routes.LookupRequest` | app/routes.py:66-73 | a city lookup always sends a `q` request; a ZIP lookup sends one exactly when the ZIP code has a digit |
| `Routes.LookupOutcome` | app/routes.py:66-73 | no row is added when no request is sent; an added row comes from a delivered, well-formed reply |
| `Routes.GetWeather` | app/routes.py:41-109 | 400 with nothing sent and the store unchanged when neither argument is given; 500 with nothing sent when the API key is missing; otherwise sends the lookup's request, answers as `Respond` does, and appends at most the one saved row |
| `Routes.SuccessAddsOneRow` | app/routes.py:75-90 | a 200 response means exactly one row was appended, with the returned data and the next id; any other response means no row was appended |
| `Routes.DictsOf` | app/routes.py:135 | one dictionary per row, in order, each reading back as its row |
| `Routes.GetWeatherHistory` | app/routes.py:127-136 | status 200 with at most ten rows: the latest ones, in strictly decreasing timestamp order, each from the table, and newer than every row left out |

## Left out

- The HTTP request, its 10-second timeout, the status check and JSON decoding (app/services/weather_service.py:89-95) are one `Transport` value: a decoded reply or a failure.
- Logging is left out everywhere. The service's location description is kept only as a field of the query.
- `datetime.utcnow()` is the store's clock, which advances by one with each committed row. The real clock is not modelled: it runs independently and can repeat a value. `isoformat()` is left abstract (`TimeV`).
- Forecasts: `migrate.py:2` imports a `ForecastData` that `app/models.py` does not define. There is no forecast code to model.
- Store.WeatherStore: SQLite does not enforce `String(n)` widths, so the widths are checked only when `strictLengths` is true, which stands for a backend that rejects strings longer than their column. The model also keeps the id counter unchanged after a failed commit, which is what SQLite does. A backend with a sequence usually consumes an id even when the INSERT fails, and that gap in the ids is not modelled.
- Service.CityQuery, Service.ZipQuery, Service.GetWeatherByCity, Service.GetWeatherByZip: the default arguments `country_code=''` (app/services/weather_service.py:22) and `country_code='US'` (app/services/weather_service.py:41) are not modelled. The country is always passed explicitly, as the only caller does (app/routes.py:69, app/routes.py:73).
- Text.Digits: `str.isdigit` also accepts non-ASCII digits. The model keeps only '0' to '9'.
- Text.Capitalize: Unicode case mapping is not modelled. Only ASCII letters change case.
- Provider.BuildDraft: replies whose top-level JSON is not an object are not modelled, and neither are a `weather` that is not a list, a `main` or `sys` that is not an object, or `weather` entries that are not objects or null. Non-string `name`, `country`, `description` or `icon` values are not modelled either, and neither is a non-number temperature or humidity.
- Routes.GetWeather: the inner handler that returns 500 (app/routes.py:92-100) is not modelled, because no exception reaches it. `get_weather_by_zip` has its own handler (app/services/weather_service.py:69-71). `get_weather_by_city` has none. Its own statements only format strings, which cannot raise on string arguments, and the rest runs inside `_fetch_weather`, whose handlers (app/services/weather_service.py:106-121) catch every exception. The `except` clauses at app/routes.py:111-125 follow a catch-all and can never run. The 400 body records only the three arguments that are read, not every query-string argument.
- Routes.GetWeatherHistory: the 500 for a failing database query (app/routes.py:137-142) is not modelled, because the in-memory table cannot fail. Ordering by timestamp assumes strictly increasing timestamps, which the model's clock guarantees.
- `health_check`, `index` and `about` (app/routes.py:12-39) are left out. They are a database probe and template rendering.
- The tide service, the browser script, application wiring and the setup scripts are not part of this model. They are a pass-through client, DOM code with floating-point conversion, and configuration.
- Concurrent requests and session sharing are not modelled. Each operation runs alone.
