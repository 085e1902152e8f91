# Weather client core, modelled in Dafny

This project models the core of a small Vue weather client that talks to the
OpenWeatherMap API. It has three parts:

- **The store** (`weather_store.dfy`, module `WeatherStore`). This is the Pinia store `weather`. It holds the current
  weather, the forecast, the alerts, the loading flag, the last error and the
  list of favorite locations. It is the class `Store`, whose fields are that
  state plus `storage`, a map that stands in for the browser's local storage.
  Favorites are an idempotent insert keyed on `id` and a removal by filtering.
  Every change to them is written through to the single key
  `weatherFavorites`, and `LoadFavorites` reads that key back.
- **The API access layer** (`weather_service.dfy`, module `WeatherService`). Each network operation first checks
  the API key against the placeholder `YOUR_API_KEY` and the empty string. It
  then builds one GET request: fixed base URL, 10000 ms timeout, the defaults
  `appid` and `units=metric`, and the call's own parameters. Each operation is
  a pure function returning `Result<Request, ServiceError>`. Sending the
  request is left to the transport. The icon URL template is modelled exactly.
- **Locale selection** (`locale.dfy`, module `Locale`). `getBrowserLocale` is a pure function of the two navigator
  strings. It returns one of `ar`, `en`, `de`.

`wrappers.dfy` holds the `Option`, `Result` and `Outcome` datatypes.

Weather, forecast, alert, error and location payloads are opaque type
parameters. Stored values are the datatype `Blob`: an encoded favorites list,
the empty string, or text that `JSON.parse` rejects. So the map stores the
parsed view of each entry rather than its text. The operations keep the code's names
(`getCurrentWeather`, `getForecast`, `getWeatherIcon`). `GetWeatherById` takes its id
as a string (`Text`).

## Model

| member | source | states |
|---|---|---|
| WeatherStore.SomeHasId | src/stores/weather.js:28 | the `some` scan is true exactly when some entry has the identifier |
| WeatherStore.Filtered | src/stores/weather.js:37 | no entry of the result has the identifier, every entry without it appears in the result, and every entry of the result comes from the input |
| WeatherStore.FilteredMultiset | src/stores/weather.js:37 | the result holds no copy of an entry with the identifier and exactly as many copies of every other entry as the input |
| WeatherStore.FilteredUnmatched | src/stores/weather.js:37 | removing an identifier no entry has leaves the list equal |
| WeatherStore.FilteredAppend | src/stores/weather.js:37 | the filter distributes over concatenation, so kept entries stay in their original relative order |
| WeatherStore.FilteredKeepsDistinct | src/stores/weather.js:37 | distinct identifiers stay distinct after removal |
| WeatherStore.AppendKeepsDistinct | src/stores/weather.js:28-30 | appending a location with a new identifier keeps identifiers distinct |
| WeatherStore.AddThenRemove | src/stores/weather.js:26-40 | removing the identifier of a freshly appended location restores the list before the append |
| WeatherStore.Store.constructor | src/stores/weather.js:4-11 | initial state: no weather, no forecast, no alerts, no favorites, not loading, no error; storage as the browser holds it |
| WeatherStore.Store.SetCurrentWeather | src/stores/weather.js:14-16 | overwrites the current weather; every other field and storage are unchanged |
| WeatherStore.Store.SetForecast | src/stores/weather.js:18-20 | overwrites the forecast; every other field and storage are unchanged |
| WeatherStore.Store.SetAlerts | src/stores/weather.js:22-24 | overwrites the alerts; every other field and storage are unchanged |
| WeatherStore.Store.SetLoading | src/stores/weather.js:55-57 | overwrites the loading flag; every other field and storage are unchanged |
| WeatherStore.Store.SetError | src/stores/weather.js:59-61 | overwrites the error; every other field and storage are unchanged |
| WeatherStore.Store.IsFavorite | src/stores/weather.js:73-75 | true exactly when some favorite has the identifier |
| WeatherStore.Store.AddFavorite | src/stores/weather.js:26-34 | an identifier already present changes nothing and writes nothing; otherwise the location is appended last, existing entries keep their order, and storage is written with the new list; afterwards the identifier is a favorite; distinct identifiers and the write-through invariant are preserved |
| WeatherStore.Store.RemoveFavorite | src/stores/weather.js:36-40 | favorites become the original entries without the identifier, in order; storage is always written; afterwards the identifier is not a favorite; distinct identifiers are preserved and storage equals the in-memory list |
| WeatherStore.Store.LoadFavorites | src/stores/weather.js:43-48 | an encoded stored list replaces the favorites; an absent or empty stored value leaves them unchanged; a corrupt one fails with PersistenceCorrupt and leaves them unchanged; nothing else changes |
| WeatherStore.Store.SaveFavorites | src/stores/weather.js:51-53 | overwrites the single key `weatherFavorites` with the whole list and changes no other state |
| WeatherStore.SaveThenReload | src/stores/weather.js:43-53 | saving a list and loading it in a fresh store over the same storage gives the same list back, without error |
| WeatherService.Configured | src/services/weatherService.js:30 | the key fails the guard exactly when it is the placeholder or empty |
| WeatherService.ApiClient | src/services/weatherService.js:12-19 | the client's base URL is the provider's, its timeout 10000, and its default parameters exactly `appid` equal to the key and `units=metric` |
| WeatherService.ClientGet | src/services/weatherService.js:34-38 | a GET keeps the client's base URL and timeout, targets the given path, and carries the defaults merged with the call's parameters, the call's winning on a shared name |
| WeatherService.Guarded | src/services/weatherService.js:30-38 | rejects with the not-configured message exactly when the guard fails; otherwise the GET through the client built from the key |
| WeatherService.ApiKey | src/services/weatherService.js:4 | an absent or empty environment key becomes the non-empty placeholder; the key counts as configured exactly when the environment gives a non-empty key other than the placeholder |
| WeatherService.GetCurrentWeather | src/services/weatherService.js:28-39 | rejects with the not-configured message exactly when the key is the placeholder or empty; otherwise a GET of `/weather` at the base URL with timeout 10000 and parameters `appid`, `units=metric`, `q` |
| WeatherService.GetCurrentWeatherByCoords | src/services/weatherService.js:42-54 | same guard; otherwise a GET of `/weather` with `appid`, `units`, `lat`, `lon` |
| WeatherService.GetForecast | src/services/weatherService.js:57-68 | same guard; otherwise a GET of `/forecast` with `appid`, `units`, `q` |
| WeatherService.GetForecastByCoords | src/services/weatherService.js:71-83 | same guard; otherwise a GET of `/forecast` with `appid`, `units`, `lat`, `lon` |
| WeatherService.GetWeatherById | src/services/weatherService.js:86-97 | same guard; otherwise a GET of `/weather` with `appid`, `units`, `id` |
| WeatherService.GuardRejectsEveryCall | src/services/weatherService.js:30-31 | with the placeholder or an empty key every operation rejects with the same error and builds no request |
| WeatherService.UnsetKeyRejectsEveryCall | src/services/weatherService.js:4 | with no key in the environment every operation rejects |
| WeatherService.EveryRequestCarriesDefaults | src/services/weatherService.js:12-19 | with a configured key every operation builds a request with the base URL, timeout 10000, `appid` equal to the key and `units=metric` |
| WeatherService.CallOfIssue | src/services/weatherService.js:28-97 | the operation and its arguments can be read back from the request it builds |
| WeatherService.RequestDeterminesCall | src/services/weatherService.js:28-97 | two operations that build the same request are the same operation with the same arguments |
| WeatherService.GetWeatherIcon | src/services/weatherService.js:100-102 | the URL is the icon host, the code, `@`, the size and `.png`, in that order; size defaults to `2x` |
| WeatherService.IconUrlDeterminesInputs | src/services/weatherService.js:100-102 | for codes without `@`, the URL determines code and size |
| WeatherService.IconExamples | src/services/weatherService.js:100-102 | `01d` gives the `@2x` URL and `01d` with `4x` the `@4x` URL |
| Locale.Truthy | src/plugins/i18n.js:14 | an optional string is falsy exactly when it is absent or empty |
| Locale.PreferredTag | src/plugins/i18n.js:14 | the tag is `language` when truthy, else `userLanguage` when truthy, else `en`; it is never empty |
| Locale.LanguageCode | src/plugins/i18n.js:16 | the code is the lowercased part of the tag before its first `-`, or of the whole tag when it has none |
| Locale.BeforeDash | src/plugins/i18n.js:16 | the result is the prefix of the tag before its first `-`, or the whole tag when it has none |
| Locale.Lower | src/plugins/i18n.js:16 | ASCII lowercasing, character by character, same length |
| Locale.GetBrowserLocale | src/plugins/i18n.js:13-20 | the result is always `ar`, `en` or `de`; a supported lowercased prefix is returned as is; any other prefix gives `en` |
| Locale.BeforeDashNoDash | src/plugins/i18n.js:16 | a tag without `-` is its own prefix |
| Locale.BeforeDashIgnoresSuffix | src/plugins/i18n.js:16 | the prefix of `lang-region` is `lang` |
| Locale.LowerIdempotent | src/plugins/i18n.js:16 | lowercasing twice equals lowercasing once |
| Locale.BeforeDashLower | src/plugins/i18n.js:16 | taking the prefix commutes with lowercasing |
| Locale.EnglishUnitedStates | src/plugins/i18n.js:15-16 | `en-US` gives `en` |
| Locale.NothingReported | src/plugins/i18n.js:14 | with both navigator strings absent the result is `en` |
| Locale.RegionIgnored | src/plugins/i18n.js:16-19 | `lang-region` and `lang` give the same locale for any non-empty `lang` without `-` |
| Locale.CaseIgnored | src/plugins/i18n.js:16-19 | a tag and its lowercased form give the same locale |
| Locale.UserLanguageWhenLanguageMissing | src/plugins/i18n.js:14 | when `language` is absent or empty, the result is what `userLanguage` alone gives |
| Locale.LanguageTakesPrecedence | src/plugins/i18n.js:14 | when `language` is present and non-empty, `userLanguage` does not affect the result |
| Locale.Idempotent | src/plugins/i18n.js:19 | feeding the chosen locale back as the language gives the same locale |

## Left out

- Sending requests: the HTTP client, promises, async completion, the real timeout and provider errors are the transport's behaviour. The model stops at the request value that would be sent. Merging default and call parameters is modelled as a map union in which the call's parameters win.
- The console output at module load (the key, the environment, the warning when no key is set). It only produces logs.
- Reading the environment and `navigator`: both are parameters (`ApiKey`'s argument, `GetBrowserLocale`'s two arguments).
- JSON text: storage holds the parsed view of each entry (`Blob`), so `JSON.stringify` followed by `JSON.parse` is taken to give the list back exactly. Payloads that do not survive JSON, and stored text that parses to something other than a list, are not modelled.
- The getters `getCurrentWeather`, `getForecast`, `getAlerts`, `getFavorites`, `getIsLoading` and `getError` each return one state field. Dafny code reads the field of `Store` directly.
- Pinia reactivity, `defineStore`, `createI18n` and the message catalogs. These belong to the framework libraries.
- Aliasing: `push` mutates the favorites array shared with anyone holding it. The model reassigns a `seq`, so a caller holding the old array no longer sees the change.
- Identifiers: JavaScript `===` between a number and a string id is false. The model has a single id type (`string`).
- `Lower`: only ASCII letters are lowercased; Unicode case mapping in `toLowerCase` is not modelled.
- Coordinates are `real` values passed through unchanged; JavaScript floating point is not modelled.
