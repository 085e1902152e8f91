/**
 * The OpenWeatherMap access layer (src/services/weatherService.js): a
 * credential guard, the default configuration of the HTTP client, the request
 * each operation would send, and the icon URL template. Sending the request is
 * the transport's business; each operation here yields the request value, or
 * the rejection the promise would carry.
 */
module WeatherService {
  import opened Wrappers

  /** The placeholder used when no key is configured. */
  const Sentinel: string := "YOUR_API_KEY"
  const BaseUrl: string := "https://api.openweathermap.org/data/2.5"
  const TimeoutMs: nat := 10000
  const Units: string := "metric"
  const NotConfigured: string :=
    "API key not configured. Please add your FREE OpenWeatherMap API key to your .env file. Get it at https://openweathermap.org/api - no credit card required."
  const IconBase: string := "https://openweathermap.org/img/wn/"

  /** A query parameter value: text, or a JavaScript number passed through unchanged. */
  datatype ParamValue = Text(text: string) | Number(value: real)

  /** A GET request as the transport would issue it. */
  datatype Request = Get(baseUrl: string, path: string, timeoutMs: nat, params: map<string, ParamValue>)

  /** The defaults an HTTP client instance applies to every request. */
  datatype ClientConfig = ClientConfig(baseUrl: string, timeoutMs: nat, params: map<string, ParamValue>)

  datatype ServiceError = CredentialMissing(message: string)

  /** The API key the module uses: the environment's, or the placeholder when that is absent or empty. */
  function ApiKey(env: Option<string>): (key: string)
    ensures key != ""
    ensures Configured(key) <==> env.Some? && env.value != "" && env.value != Sentinel
    ensures Configured(key) ==> key == env.value
  {
    if env.Some? && env.value != "" then env.value else Sentinel
  }

  /** The guard every network operation applies before building a request: neither placeholder nor empty. */
  predicate Configured(key: string): (ok: bool)
    ensures !ok <==> key == Sentinel || |key| == 0
  {
    key != Sentinel && key != ""
  }

  /** The client instance: fixed base URL and timeout, `appid` and `units` by default. */
  function ApiClient(key: string): (client: ClientConfig)
    ensures client.baseUrl == BaseUrl && client.timeoutMs == TimeoutMs
    ensures client.params.Keys == {"appid", "units"}
    ensures client.params["appid"] == Text(key) && client.params["units"] == Text(Units)
  {
    ClientConfig(BaseUrl, TimeoutMs, map["appid" := Text(key), "units" := Text(Units)])
  }

  /** A GET through a client: call parameters are merged over the defaults, and win on a clash. */
  function ClientGet(client: ClientConfig, path: string, params: map<string, ParamValue>): (r: Request)
    ensures r.baseUrl == client.baseUrl && r.path == path && r.timeoutMs == client.timeoutMs
    ensures r.params.Keys == client.params.Keys + params.Keys
    ensures forall k :: k in params ==> r.params[k] == params[k]
    ensures forall k :: k in client.params && k !in params ==> r.params[k] == client.params[k]
  {
    Get(client.baseUrl, path, client.timeoutMs, client.params + params)
  }

  /** The guard followed by one request construction, which is the shape of every operation. */
  function Guarded(key: string, path: string, params: map<string, ParamValue>): (r: Result<Request, ServiceError>)
    ensures r.Failure? <==> !Configured(key)
    ensures r.Failure? ==> r.error == CredentialMissing(NotConfigured)
    ensures r.Success? ==> r.value == ClientGet(ApiClient(key), path, params)
  {
    if !Configured(key) then Failure(CredentialMissing(NotConfigured))
    else Success(ClientGet(ApiClient(key), path, params))
  }

  function GetCurrentWeather(key: string, city: string): (r: Result<Request, ServiceError>)
    ensures r.Failure? <==> !Configured(key)
    ensures r.Failure? ==> r.error == CredentialMissing(NotConfigured)
    ensures r.Success? ==>
      r.value == Get(BaseUrl, "/weather", TimeoutMs, map["appid" := Text(key), "units" := Text(Units), "q" := Text(city)])
  {
    Guarded(key, "/weather", map["q" := Text(city)])
  }

  function GetCurrentWeatherByCoords(key: string, lat: real, lon: real): (r: Result<Request, ServiceError>)
    ensures r.Failure? <==> !Configured(key)
    ensures r.Failure? ==> r.error == CredentialMissing(NotConfigured)
    ensures r.Success? ==>
      r.value == Get(BaseUrl, "/weather", TimeoutMs,
                     map["appid" := Text(key), "units" := Text(Units), "lat" := Number(lat), "lon" := Number(lon)])
  {
    Guarded(key, "/weather", map["lat" := Number(lat), "lon" := Number(lon)])
  }

  function GetForecast(key: string, city: string): (r: Result<Request, ServiceError>)
    ensures r.Failure? <==> !Configured(key)
    ensures r.Failure? ==> r.error == CredentialMissing(NotConfigured)
    ensures r.Success? ==>
      r.value == Get(BaseUrl, "/forecast", TimeoutMs, map["appid" := Text(key), "units" := Text(Units), "q" := Text(city)])
  {
    Guarded(key, "/forecast", map["q" := Text(city)])
  }

  function GetForecastByCoords(key: string, lat: real, lon: real): (r: Result<Request, ServiceError>)
    ensures r.Failure? <==> !Configured(key)
    ensures r.Failure? ==> r.error == CredentialMissing(NotConfigured)
    ensures r.Success? ==>
      r.value == Get(BaseUrl, "/forecast", TimeoutMs,
                     map["appid" := Text(key), "units" := Text(Units), "lat" := Number(lat), "lon" := Number(lon)])
  {
    Guarded(key, "/forecast", map["lat" := Number(lat), "lon" := Number(lon)])
  }

  function GetWeatherById(key: string, id: string): (r: Result<Request, ServiceError>)
    ensures r.Failure? <==> !Configured(key)
    ensures r.Failure? ==> r.error == CredentialMissing(NotConfigured)
    ensures r.Success? ==>
      r.value == Get(BaseUrl, "/weather", TimeoutMs, map["appid" := Text(key), "units" := Text(Units), "id" := Text(id)])
  {
    Guarded(key, "/weather", map["id" := Text(id)])
  }

  /** The five network operations, as data, so that properties can quantify over them. */
  datatype Call =
    | CurrentWeather(city: string)
    | CurrentWeatherByCoords(lat: real, lon: real)
    | Forecast(city: string)
    | ForecastByCoords(lat: real, lon: real)
    | WeatherById(id: string)

  function Issue(key: string, call: Call): Result<Request, ServiceError> {
    match call
    case CurrentWeather(city) => GetCurrentWeather(key, city)
    case CurrentWeatherByCoords(lat, lon) => GetCurrentWeatherByCoords(key, lat, lon)
    case Forecast(city) => GetForecast(key, city)
    case ForecastByCoords(lat, lon) => GetForecastByCoords(key, lat, lon)
    case WeatherById(id) => GetWeatherById(key, id)
  }

  /** With the placeholder or an empty key, every operation rejects and no request is built. */
  lemma GuardRejectsEveryCall(key: string, call: Call)
    requires !Configured(key)
    ensures Issue(key, call) == Failure(CredentialMissing(NotConfigured))
  {
  }

  /** With no key in the environment, the guard always fires. */
  lemma UnsetKeyRejectsEveryCall(env: Option<string>, call: Call)
    requires env == None || env == Some("")
    ensures Issue(ApiKey(env), call) == Failure(CredentialMissing(NotConfigured))
  {
    GuardRejectsEveryCall(ApiKey(env), call);
  }

  /** With a real key, every request goes to the fixed base URL with the fixed timeout and the defaults. */
  lemma EveryRequestCarriesDefaults(key: string, call: Call)
    requires Configured(key)
    ensures Issue(key, call).Success?
    ensures Issue(key, call).value.baseUrl == BaseUrl
    ensures Issue(key, call).value.timeoutMs == TimeoutMs
    ensures "appid" in Issue(key, call).value.params && Issue(key, call).value.params["appid"] == Text(key)
    ensures "units" in Issue(key, call).value.params && Issue(key, call).value.params["units"] == Text(Units)
  {
  }

  /** Reads back, from a request, the operation and arguments that built it. */
  function CallOf(r: Request): Option<Call> {
    var p := r.params;
    if "q" in p && p["q"].Text? then
      if r.path == "/weather" then Some(CurrentWeather(p["q"].text))
      else if r.path == "/forecast" then Some(Forecast(p["q"].text))
      else None
    else if "id" in p && p["id"].Text? then
      if r.path == "/weather" then Some(WeatherById(p["id"].text)) else None
    else if "lat" in p && p["lat"].Number? && "lon" in p && p["lon"].Number? then
      if r.path == "/weather" then Some(CurrentWeatherByCoords(p["lat"].value, p["lon"].value))
      else if r.path == "/forecast" then Some(ForecastByCoords(p["lat"].value, p["lon"].value))
      else None
    else None
  }

  /** Every request an operation builds can be read back as that operation. */
  lemma CallOfIssue(key: string, call: Call)
    requires Configured(key)
    ensures CallOf(Issue(key, call).value) == Some(call)
  {
  }

  /** The request sent determines the operation and its arguments: no two calls are confused. */
  lemma RequestDeterminesCall(key: string, c1: Call, c2: Call)
    requires Configured(key)
    requires Issue(key, c1) == Issue(key, c2)
    ensures c1 == c2
  {
    CallOfIssue(key, c1);
    CallOfIssue(key, c2);
  }

  /**
   * The icon URL `<IconBase><iconCode>@<size>.png`, laid out piece by piece.
   * It needs no key and never fails.
   */
  function GetWeatherIcon(iconCode: string, size: string := "2x"): (url: string)
    ensures |url| == |IconBase| + |iconCode| + 1 + |size| + 4
    ensures url[..|IconBase|] == IconBase
    ensures url[|IconBase|..|IconBase| + |iconCode|] == iconCode
    ensures url[|IconBase| + |iconCode|] == '@'
    ensures url[|IconBase| + |iconCode| + 1..|url| - 4] == size
    ensures url[|url| - 4..] == ".png"
  {
    IconBase + iconCode + "@" + size + ".png"
  }

  /** When the icon code has no `@`, the URL determines both the code and the size. */
  lemma {:induction false} IconUrlDeterminesInputs(code1: string, size1: string, code2: string, size2: string)
    requires '@' !in code1 && '@' !in code2
    requires GetWeatherIcon(code1, size1) == GetWeatherIcon(code2, size2)
    ensures code1 == code2 && size1 == size2
  {
  }

  /** The default size and an explicit one. */
  lemma IconExamples()
    ensures GetWeatherIcon("01d") == "https://openweathermap.org/img/wn/01d@2x.png"
    ensures GetWeatherIcon("01d", "4x") == "https://openweathermap.org/img/wn/01d@4x.png"
  {
  }
}
