# meteo-frontend: view-state controller and icon classifier

A Dafny model of the two pieces of logic in the Meteo single-page weather
application:

- the root component `AppComponent` (`src/app/app.component.ts`).
  - It resolves the start-up language from the URL, the stored preference and the default `de`.
  - It reads `city` and `country` from the query string.
  - It runs the two-step refresh: current weather first, and the forecast only after the current weather has arrived.
  - It reports failures.
  - It keeps the `city`, `country` and `lang` query parameters in step with what is shown.
  - It switches the display language.
- the icon classifier `mapIcon` (`src/app/icon-map.ts`). It maps OpenWeather icon codes to asset names.

Files and modules:

| file | module | contents |
|---|---|---|
| `wrappers.dfy` | `Wrappers` | `Option`: JavaScript's `null`/`undefined` are `None` |
| `strings.dfy` | `Strings` | `trim` with JavaScript's white-space set; ASCII `toLowerCase`/`toUpperCase`; `slice(0, n)`; `startsWith` |
| `url_query.dfy` | `UrlQuery` | the query as a list of name/value pairs; `get`, `getAll` and `set` of `URLSearchParams` per section 6.2 of the WHATWG URL Standard; a `SearchParams` object updated in place |
| `locale.dfy` | `Locale` | `normalizeLang`, and the start-up language order |
| `icons.dfy` | `Icons` | `mapIcon` and `getIconPath` |
| `app.dfy` | `App` | the `AppComponent` class, its event methods, and the queries `updateUrl` and `changeLang` produce |

The component is a class whose fields are those of the source:
`city`, `country`, `selectedLang`, `loading`, `error`, `current` and `forecast`.
Three more fields stand for browser and library state:
- `activeLang` is the translation service's current language.
- `storedLang` is the `lang` entry of local storage.
- `query` is the page's query string.

The weather gateway is asynchronous.
- Each request the component issues is appended to the field `sent`.
- An answer arrives later as one of the event methods `OnCurrentOk`, `OnCurrentErr`, `OnForecastOk` or `OnForecastErr`.
- Each event carries the request it answers, which must be in `sent`.

The ghost field `succeeded` lists the current-weather requests answered with data.

The class invariant `Valid` states three things:
- the selector shows a supported language;
- the translation service uses that same language;
- the gateway log is consistent (`GatewayLog`): every issued request has a trimmed city; every forecast request repeats a current-weather request that is in `succeeded` and comes *earlier* in the log; and every request in `succeeded` is a current-weather request that was issued.

The last point is the property "forecast only after current succeeds", as `ForecastAfterCurrent` states it:
- Every forecast request in the log has a current-weather twin, issued before it.
- That twin went through `OnCurrentOk`: it is in `succeeded`.
- A log that holds a forecast before its twin is not consistent (`ForecastFirstRejected`).
- Only `OnCurrentOk` adds to `succeeded`, and it issues the forecast request in the same step.
- `OnCurrentErr` issues no request and leaves `succeeded` alone: its frame is `error` and `loading`.

Requests are values, and nothing stops the same request from being answered twice. So a current-weather request that was answered with an error and then, later, with data does count as succeeded (see "## Left out").

The model follows the code:
- An empty city is sent to the gateway. It is not rejected.
- `current` keeps its new value even when the forecast then fails. The pair is not committed atomically, and there is no "latest request wins" check.
- On forecast success, `updateUrl` receives the city captured when the refresh started. It receives the `country` field as it is *at completion time*, not the captured country filter. `OnForecastOk` states exactly that.
- The guard of `changeLang` always holds, because `normalizeLang` only returns supported languages. The model keeps the test, and its `else` branch can never run.

## Model

| member | source | states |
|---|---|---|
| Strings.LeadingSpaces | src/app/app.component.ts:65 | the count of leading white space is at most the length, and the first character after it is not white space |
| Strings.LeadingSpacesAll | src/app/app.component.ts:65 | every character the leading count covers is white space |
| Strings.TrailingSpaces | src/app/app.component.ts:65 | the count of trailing white space is at most the length, and the last character before it is not white space |
| Strings.TrailingSpacesAll | src/app/app.component.ts:65 | every character the trailing count covers is white space |
| Strings.Trim | src/app/app.component.ts:65-66 | the result has no white space at either end and is no longer than the input |
| Strings.TrimSlice | src/app/app.component.ts:99 | the trimmed string is a slice of the input with only white space before and after it |
| Strings.TrimEmptyIff | src/app/app.component.ts:65-66 | trimming yields the empty string exactly when every character is white space (the falsy test `c?.trim()`) |
| Strings.TrimFixed | src/app/app.component.ts:99 | a string with no white space at either end is its own trim |
| Strings.TrimIdempotent | src/app/app.component.ts:125 | trimming an already trimmed city changes nothing |
| Strings.LowerChar | src/app/icon-map.ts:4 | a lower-cased character is never a capital, and only an ASCII capital changes, into a small letter |
| Strings.UpperChar | src/app/app.component.ts:66 | an upper-cased character is never a small letter, and only an ASCII small letter changes, into a capital |
| Strings.Lower | src/app/icon-map.ts:4 | `toLowerCase` keeps the length; `LowerChars` gives it character by character |
| Strings.Upper | src/app/app.component.ts:66 | `toUpperCase` keeps the length; `UpperChars` gives it character by character |
| Strings.LowerChars | src/app/icon-map.ts:4 | `toLowerCase` maps each character on its own: ASCII capitals to small letters, everything else kept |
| Strings.UpperChars | src/app/app.component.ts:66 | `toUpperCase` maps each character on its own: ASCII small letters to capitals, everything else kept |
| Strings.LowerFixed | src/app/icon-map.ts:4 | a string without capitals is its own lower-case form |
| Strings.LowerIdempotent | src/app/icon-map.ts:4 | lower-casing twice is lower-casing once |
| Strings.Take | src/app/app.component.ts:155 | `slice(0, n)` is the prefix of length `min(n, length)` |
| Strings.LowerTake | src/app/app.component.ts:155 | lower-casing then slicing is slicing then lower-casing |
| Strings.StartsWith | src/app/icon-map.ts:15-27 | `startsWith`: the string is at least as long as the prefix and begins with it; `StartsWithChars` gives it character by character |
| Strings.StartsWithChars | src/app/icon-map.ts:15-27 | `startsWith` holds exactly when the prefix matches character by character |
| UrlQuery.GetAll | src/app/app.component.ts:62-64 | `getAll` returns at most as many values as there are pairs |
| UrlQuery.GetParam | src/app/app.component.ts:51 | `get` is the first value `getAll` returns, or `null` when there is none |
| UrlQuery.Without | src/app/app.component.ts:124-130 | the pairs whose name is outside a set, in order; never longer than the query |
| UrlQuery.SetParam | src/app/app.component.ts:83-86 | `set` adds at most one pair; what it does is given by `SetParamGetAll`, `SetParamOther`, `SetParamKeepsOthers`, `SetParamPosition` and `SetParamAppends` |
| UrlQuery.GetAllAppend | src/app/app.component.ts:124-130 | the values of a name in a joined list are those of the two parts, in order |
| UrlQuery.GetAllWithout | src/app/app.component.ts:124-130 | dropping a set of names hides exactly their values |
| UrlQuery.WithoutAbsent | src/app/app.component.ts:124-130 | dropping a name that no pair carries changes nothing |
| UrlQuery.SetParamGetAll | src/app/app.component.ts:83 | after `set(name, v)` the name has exactly the one value `v` |
| UrlQuery.SetParamOther | src/app/app.component.ts:83-86 | `set` leaves the values of every other name unchanged |
| UrlQuery.SetParamKeepsOthers | src/app/app.component.ts:124-130 | `set` leaves every pair of other names in place and in order |
| UrlQuery.SetParamFixed | src/app/app.component.ts:125 | `set` with the one value a name already has changes nothing |
| UrlQuery.SetParamIdempotent | src/app/app.component.ts:125 | `set` twice equals `set` once |
| UrlQuery.SetParamPosition | src/app/app.component.ts:83 | when the name occurs, the first such pair takes the value, earlier pairs are kept and later pairs of that name are removed |
| UrlQuery.SetParamAppends | src/app/app.component.ts:130 | when the name does not occur, `set` appends the pair at the end |
| UrlQuery.SearchParams.constructor | src/app/app.component.ts:50 | a new `URLSearchParams` holds the pairs of the query it was built from |
| UrlQuery.SearchParams.Get | src/app/app.component.ts:63-64 | the object's `get` is `GetParam` of its pairs: the first value of the name, or `null` |
| UrlQuery.SearchParams.Set | src/app/app.component.ts:125-130 | the object's pairs become `set` applied to its old pairs |
| Locale.NormalizeLang | src/app/app.component.ts:153-157 | the result is always one of `en`, `de`, `fr`, `it`, `hu` |
| Locale.NormalizeLangPrefix | src/app/app.component.ts:155-156 | the lower-cased first two characters are the result when supported, and otherwise `de` |
| Locale.NormalizeLangChooses | src/app/app.component.ts:155-156 | a supported language other than `de` is returned exactly when the tag starts with it in any letter case |
| Locale.NormalizeLangSupported | src/app/app.component.ts:39 | every supported language is its own normal form |
| Locale.NormalizeLangIdempotent | src/app/app.component.ts:153-157 | normalising twice is normalising once |
| Locale.NormalizeLangRegion | src/app/app.component.ts:153 | `"de-CH"` gives `de` and `"IT_it"` gives `it` |
| Locale.NormalizeLangFallback | src/app/app.component.ts:155-156 | an unsupported tag (`"es-ES"`), a one-letter tag and the empty tag give `de` |
| Locale.InitialLang | src/app/app.component.ts:56 | the start-up language is supported |
| Locale.InitialLangOrder | src/app/app.component.ts:49-56 | JavaScript's `fromUrl \|\| stored \|\| 'de'` (the helper `OrElse`): a non-empty URL value decides; otherwise a non-empty stored value decides; otherwise `de`; `null` and `""` both fall through |
| Locale.InitialLangFromSupportedUrl | src/app/app.component.ts:51-56 | a supported `lang` parameter wins whatever is stored |
| Locale.InitialLangFromUnsupportedUrl | src/app/app.component.ts:56 | a non-empty unsupported `lang` parameter gives `de` even when a language is stored |
| Icons.MapIcon | src/app/icon-map.ts:3-31 | the result is one of the nine asset names |
| Icons.Classify | src/app/icon-map.ts:7-30 | the rule chain on a lower-cased code yields one of the nine asset names |
| Icons.ExactCodeShape | src/app/icon-map.ts:7-12 | each exactly matched code has three characters `0`, `1`–`3`, then `d` or `n` |
| Icons.MapIconCaseInsensitive | src/app/icon-map.ts:4 | a code and its lower-case form show the same asset |
| Icons.MapIconMissing | src/app/icon-map.ts:4 | a null, undefined or empty code shows `cloud` |
| Icons.MapIconLowerCase | src/app/icon-map.ts:4-30 | a code without capitals goes through the rule chain as it stands |
| Icons.MapIconExact | src/app/icon-map.ts:7-12 | `01d`→`sun`, `01n`→`moon`, `02d`/`03d`→`partly-cloudy-day`, `02n`/`03n`→`partly-cloudy-night` |
| Icons.MapIconExactOnly | src/app/icon-map.ts:7-12 | the matches are exact: any other code starting `01`, `02` or `03` (such as `02x`) shows `cloud` |
| Icons.MapIconPrefix | src/app/icon-map.ts:15-27 | `04`→`cloud`, `09`/`10`→`rain`, `11`→`thunder`, `13`→`snow`, `50`→`fog`, whatever the suffix |
| Icons.MapIconClear | src/app/icon-map.ts:7-8 | `sun` is shown exactly for `01d`, and `moon` exactly for `01n`, in any letter case |
| Icons.MapIconRain | src/app/icon-map.ts:18 | `rain` is shown exactly for codes starting `09` or `10` |
| Icons.MapIconCloud | src/app/icon-map.ts:15-30 | `cloud` is shown exactly for codes that are not exact matches and carry no other group prefix (unknown codes fall back to `cloud`) |
| Icons.IconPath | src/app/app.component.ts:119-121 | the path is `assets/weather-icons/`, the asset name of the code, then `.svg` |
| App.Iso2 | src/app/app.component.ts:100 | the country filter is absent exactly when the trimmed country is empty, and otherwise it is the trimmed, upper-cased country |
| App.RefreshRequest | src/app/app.component.ts:99-102 | a refresh first asks for the current weather of a trimmed city |
| App.ReconciledQuery | src/app/app.component.ts:123-131 | the query `updateUrl` leaves: `set` of the trimmed `city`, then of the trimmed, upper-cased `country` when it is not empty, then of the normalised active language; its meaning is given by `ReconciledQueryParams` |
| App.ReconciledQueryParams | src/app/app.component.ts:123-131 | after `updateUrl` there is one `city` pair, holding the trimmed city. There is one `lang` pair, holding the normalised active language. `country` holds the trimmed, upper-cased country when that is non-empty, and otherwise keeps its old values. The pairs of every other name are unchanged and in order |
| App.ReconciledQueryKeepsPairs | src/app/app.component.ts:125-130 | apart from the names `updateUrl` writes (`city`, `lang`, and `country` only when it is not empty), every pair stays in place and in order; so an empty country leaves the `country` pairs where they were |
| App.ReconciledQueryTrimmed | src/app/app.component.ts:123-130 | for an already trimmed city and a supported language, the rewritten query names exactly that city and that language |
| App.ReconciledQueryIdempotent | src/app/app.component.ts:123-131 | running `updateUrl` twice gives the same query as running it once |
| App.LangQuery | src/app/app.component.ts:82-86 | the query `changeLang` leaves: `set` of `lang`, then of the trimmed `city` and the trimmed, upper-cased `country` when each is not empty; its meaning is given by `LangQueryParams` |
| App.LangQueryParams | src/app/app.component.ts:82-86 | after `changeLang` there is one `lang` pair, holding the language. `city` and `country` are rewritten only when they are non-empty after trimming, and otherwise keep their old values. The pairs of every other name are unchanged and in order |
| App.LangQueryKeepsPairs | src/app/app.component.ts:83-86 | apart from the names `changeLang` writes (`lang`, and `city` and `country` only when not empty), every pair stays in place and in order; so an empty city or country leaves its pairs where they were |
| App.LangQueryIdempotent | src/app/app.component.ts:82-86 | changing to the same language twice gives the same query as doing it once |
| App.WellFormedLogAppend | src/app/app.component.ts:102-106 | issuing a well-formed request keeps the request log well formed, provided a forecast's current-weather twin is already in the log |
| App.WellFormedLogAt | src/app/app.component.ts:102-106 | every request of a well-formed log is well formed, and a forecast request comes after its current-weather twin |
| App.WellFormedLogGrow | src/app/app.component.ts:103-106 | a log stays well formed when more current-weather requests have succeeded |
| App.WellFormedLogMember | src/app/app.component.ts:102-106 | a request found in a well-formed log is well formed |
| App.IssuedIn | src/app/app.component.ts:102-106 | `Issued` is membership in the log |
| App.AllIssuedAppend | src/app/app.component.ts:103-104 | answering an issued current-weather request keeps every answered request issued |
| App.AllIssuedGrow | src/app/app.component.ts:102-106 | issuing another request keeps every answered request issued |
| App.AllIssuedAt | src/app/app.component.ts:102-104 | every answered request asked for current weather and was issued |
| App.GatewayLog | src/app/app.component.ts:95-117 | the log is well formed (each forecast after its answered current-weather twin) and every answered request was issued (the gateway half of the class invariant) |
| App.IssueCurrent | src/app/app.component.ts:99-102 | issuing a current-weather request for a trimmed city keeps the gateway log consistent |
| App.AnswerCurrent | src/app/app.component.ts:102-106 | answering an issued current-weather request with data and then requesting the forecast for the same city and filter keeps the gateway log consistent |
| App.ForecastAfterCurrent | src/app/app.component.ts:102-116 | every forecast request of a consistent log repeats a current-weather request that was answered with data and issued before it |
| App.ForecastFirstRejected | src/app/app.component.ts:102-106 | a log holding a forecast for Bern before the current-weather request for Bern is not consistent |
| App.AppComponent.Valid | src/app/app.component.ts:31-58 | the class invariant: a supported language is selected and active, and the gateway log is consistent |
| App.AppComponent.SentWellFormed | src/app/app.component.ts:99-106 | in a valid state, every issued request has a trimmed city, and every forecast request repeats a current-weather request that succeeded |
| App.AppComponent.constructor | src/app/app.component.ts:28-58 | the initial state has city `Wohlen`, an empty country, no data, no error and no loading; the selector and the active language both hold the start-up language; nothing is sent; the state is valid |
| App.AppComponent.NgOnInit | src/app/app.component.ts:61-69 | a non-empty trimmed `city` parameter replaces the city, and otherwise the city is kept. A non-empty trimmed `country` parameter replaces the country, upper-cased, and otherwise the country is kept. Then a refresh starts: the error is cleared, loading is raised, and one current-weather request is issued for the new city and country |
| App.AppComponent.ReadLocation | src/app/app.component.ts:62-66 | a non-empty trimmed `city` parameter replaces the city, and a non-empty trimmed `country` parameter replaces the country, upper-cased; otherwise each is kept |
| App.AppComponent.EditCity | src/app/app.component.ts:28 | the input writes the city field |
| App.AppComponent.EditCountry | src/app/app.component.ts:29 | the input writes the country field |
| App.AppComponent.ChangeLang | src/app/app.component.ts:72-93 | the selector and the active language become the normalised language. The stored preference becomes that language when storage accepts the write, and is otherwise unchanged. The query becomes `LangQuery` of the old query. Nothing else changes: no request is issued, and loading, error, current and forecast keep their values |
| App.AppComponent.KeepLangInUrl | src/app/app.component.ts:82-91 | the `URLSearchParams` updated in place by `changeLang` ends as `LangQuery` of the old query. Only the query changes |
| App.AppComponent.StartRefresh | src/app/app.component.ts:95-102 | the error is cleared and loading is raised. Exactly one request is issued: current weather for the trimmed city and the country filter. The state stays valid |
| App.AppComponent.OnCurrentOk | src/app/app.component.ts:103-106 | the data is stored in `current` before the forecast for the same city and country filter is requested. The request joins the succeeded ones. Nothing else changes |
| App.AppComponent.OnCurrentErr | src/app/app.component.ts:115 | the error is shown and loading is lowered. No forecast is requested. `current` and `forecast` are unchanged |
| App.AppComponent.OnForecastOk | src/app/app.component.ts:107-110 | the forecast is stored and loading is lowered. The query is rewritten with the request's city, the country field and the active language |
| App.AppComponent.ShowForecast | src/app/app.component.ts:107-110 | the forecast is stored, loading is lowered, and the query becomes `ReconciledQuery` for the given city, the country field and the active language |
| App.AppComponent.OnForecastErr | src/app/app.component.ts:112 | the error is shown and loading is lowered. `current` keeps the data already received. `forecast` is unchanged |
| App.AppComponent.Send | src/app/app.component.ts:102-106 | exactly the one request is appended to the gateway log |
| App.AppComponent.UpdateUrl | src/app/app.component.ts:123-137 | the query becomes `ReconciledQuery` of the old query. Only the query changes |
| App.AppComponent.Fail | src/app/app.component.ts:139-142 | the error becomes the message and loading is lowered. Nothing else changes |

## Left out

- src/app/services/weather.service.ts is not part of this model. The gateway is the request log `sent` together with the completion events, which carry the returned data or the error message.
- The error text: `fail` turns the error into text (`e instanceof Error ? e.message : String(e)`). The event methods take that text as a string.
- Duplicate and late answers are not excluded. An event's only precondition is that its request was sent. The source has no "latest request wins" check, and neither does the model. As a consequence, a request answered with an error and later with data is counted as succeeded, and its forecast may be requested then.
- `toLocalTime` (src/app/app.component.ts:144-151) uses `Date` and locale formatting.
- Serialising the query to text and percent-encoding it are not modelled, and neither are `history.replaceState`, `location.pathname` and `location.hash`. The model keeps only the list of name/value pairs. The address path and the fragment are carried through unchanged.
- Local storage:
  - Missing local storage is a `None` stored value.
  - A write that throws is the parameter `storageWritable` of `ChangeLang`.
  - App.AppComponent.constructor: reading storage at start-up (src/app/app.component.ts:52-53) can throw a `SecurityError`, which aborts the constructor. The model has no failing constructor, so it always builds a component.
- The translation service:
  - `translate.use` sets `activeLang` at once; the loading of translation files is not modelled.
  - App.AppComponent.Valid: with ngx-translate, `currentLang` changes only once the new language's file has loaded, except on first use. Until then `updateUrl` (src/app/app.component.ts:129) writes the previous language into the URL. In the model `activeLang == selectedLang` always holds, so `OnForecastOk` always writes the selected language. That is true only under this abstraction.
  - `addLangs` and `setDefaultLang` configure the library only and are not modelled.
  - src/main.ts and src/app/app.translate.module.ts are bootstrap and configuration code, and are not part of this model.
- Angular signals, dependency injection and the HTML template are not modelled. `loading` and `error` are plain fields, and the template's two-way binding of the inputs is `EditCity` and `EditCountry`.
- Strings.Lower: only ASCII letters change case. Every supported language tag and every icon code is ASCII, so lower-casing ASCII letters gives the same `normalizeLang` and `mapIcon` results as full Unicode lower-casing.
- Strings.Upper: only ASCII letters change case, because the country is meant to be an ISO 3166 two-letter code, which is ASCII. The `country` field is free text, though. JavaScript's `toUpperCase` turns `ß` into `SS` (changing the length) and `é` into `É`. The model leaves every non-ASCII character as it is, so for such a country the gateway filter and the URL value differ from the source's.
- Strings.UpperChar: upper-cases only ASCII small letters; this is the per-character source of the `Strings.Upper` gap above.
- Strings.UpperChars: states the ASCII-only upper-casing described in the two lines above.
- Data: the weather data records are carried as opaque values, and the controller never inspects them.
