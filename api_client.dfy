/**
 * The main process's API client: its configuration (read from the settings
 * store, merged with partial updates and written back), the URL and body of
 * each request, the reading of an HTTP answer, the fixed endpoints of the
 * convenience channels and the health check. HTTP answers are inputs.
 */
module ApiClient {
  import opened Wrappers
  import Text
  import NumberFormat

  /** A JSON value as the settings store keeps it; numbers, booleans, arrays and null are not told apart. */
  datatype Json = JString(s: string) | JObject(fields: map<string, Json>) | JOther

  const DefaultDenchokunUrl: string := "http://localhost:8080"
  const DefaultPreviewUrl: string := "http://localhost:8081"

  /** The client's configuration. */
  datatype ApiConfig = ApiConfig(denchokunServerUrl: string, previewServerUrl: string, currentPeriod: string)

  /** A `Partial<ApiConfig>`: `None` for each key the update leaves out. */
  datatype ConfigUpdate = ConfigUpdate(
    denchokunServerUrl: Option<string>,
    previewServerUrl: Option<string>,
    currentPeriod: Option<string>)

  /** `settings.<key>` as an object, or no fields when it is absent or not an object. */
  function Section(settings: map<string, Json>, key: string): map<string, Json> {
    if key in settings && settings[key].JObject? then settings[key].fields else map[]
  }

  /** `obj?.<key>` as a string, '' when it is absent or not a string. */
  function TextField(obj: map<string, Json>, key: string): string {
    if key in obj && obj[key].JString? then obj[key].s else ""
  }

  /** `value || fallback` for a string. */
  function OrElse(value: string, fallback: string): (r: string)
    ensures r != "" <==> value != "" || fallback != ""
    ensures value != "" ==> r == value
  {
    if value != "" then value else fallback
  }

  /**
   * The configuration the constructor reads from the stored settings: each
   * server URL when it is stored and non-empty, else its localhost default;
   * the current period when stored, else ''.
   */
  function InitialConfig(settings: map<string, Json>): (r: ApiConfig)
    ensures var api := Section(settings, "apiServer");
      && (TextField(api, "url") != "" ==> r.denchokunServerUrl == TextField(api, "url"))
      && (TextField(api, "url") == "" ==> r.denchokunServerUrl == DefaultDenchokunUrl)
      && r.currentPeriod == TextField(api, "currentPeriod")
    ensures var preview := Section(settings, "previewServer");
      && (TextField(preview, "url") != "" ==> r.previewServerUrl == TextField(preview, "url"))
      && (TextField(preview, "url") == "" ==> r.previewServerUrl == DefaultPreviewUrl)
    ensures settings == map[] ==> r == ApiConfig(DefaultDenchokunUrl, DefaultPreviewUrl, "")
  {
    var api := Section(settings, "apiServer");
    var preview := Section(settings, "previewServer");
    ApiConfig(
      OrElse(TextField(api, "url"), DefaultDenchokunUrl),
      OrElse(TextField(preview, "url"), DefaultPreviewUrl),
      OrElse(TextField(api, "currentPeriod"), ""))
  }

  /** `{ ...config, ...update }`: each key the update carries replaces the old value; the rest is kept. */
  function Merge(config: ApiConfig, update: ConfigUpdate): (r: ApiConfig)
    ensures r.denchokunServerUrl == (if update.denchokunServerUrl.Some? then update.denchokunServerUrl.value
                                     else config.denchokunServerUrl)
    ensures r.previewServerUrl == (if update.previewServerUrl.Some? then update.previewServerUrl.value
                                   else config.previewServerUrl)
    ensures r.currentPeriod == (if update.currentPeriod.Some? then update.currentPeriod.value
                                else config.currentPeriod)
  {
    ApiConfig(
      match update.denchokunServerUrl case Some(u) => u case None => config.denchokunServerUrl,
      match update.previewServerUrl case Some(u) => u case None => config.previewServerUrl,
      match update.currentPeriod case Some(p) => p case None => config.currentPeriod)
  }

  /** An update that carries no key changes nothing. */
  lemma MergeNothing(config: ApiConfig)
    ensures Merge(config, ConfigUpdate(None, None, None)) == config
  {
  }

  /** Applying the same update twice is applying it once. */
  lemma MergeIdempotent(config: ApiConfig, update: ConfigUpdate)
    ensures Merge(Merge(config, update), update) == Merge(config, update)
  {
  }

  /** A later update wins over an earlier one on every key it carries. */
  lemma MergeLaterWins(config: ApiConfig, first: ConfigUpdate, second: ConfigUpdate)
    ensures Merge(Merge(config, first), second).denchokunServerUrl ==
      (if second.denchokunServerUrl.Some? then second.denchokunServerUrl.value
       else Merge(config, first).denchokunServerUrl)
    ensures second.denchokunServerUrl.Some? && second.previewServerUrl.Some? && second.currentPeriod.Some? ==>
      Merge(Merge(config, first), second) == Merge(config, second)
  {
  }

  /**
   * The settings `api-config-set` writes back: the URL and current period
   * of the API server and the URL of the preview server are set; every other
   * key, inside those two sections or beside them, keeps its value.
   */
  function PersistedSettings(settings: map<string, Json>, config: ApiConfig): (r: map<string, Json>)
    ensures r.Keys == settings.Keys + {"apiServer", "previewServer"}
    ensures forall k :: k in settings && k != "apiServer" && k != "previewServer" ==> r[k] == settings[k]
    ensures r["apiServer"].JObject? && r["previewServer"].JObject?
    ensures "url" in r["apiServer"].fields && "currentPeriod" in r["apiServer"].fields
    ensures "url" in r["previewServer"].fields
    ensures r["apiServer"].fields["url"] == JString(config.denchokunServerUrl)
    ensures r["apiServer"].fields["currentPeriod"] == JString(config.currentPeriod)
    ensures r["previewServer"].fields["url"] == JString(config.previewServerUrl)
    ensures forall k :: k in Section(settings, "apiServer") && k != "url" && k != "currentPeriod" ==>
      k in r["apiServer"].fields && r["apiServer"].fields[k] == Section(settings, "apiServer")[k]
    ensures forall k :: k in Section(settings, "previewServer") && k != "url" ==>
      k in r["previewServer"].fields && r["previewServer"].fields[k] == Section(settings, "previewServer")[k]
  {
    var api := Section(settings, "apiServer");
    var preview := Section(settings, "previewServer");
    settings["apiServer" := JObject(api["url" := JString(config.denchokunServerUrl)]
                                       ["currentPeriod" := JString(OrElse(config.currentPeriod, ""))])]
            ["previewServer" := JObject(preview["url" := JString(config.previewServerUrl)])]
  }

  /** A client started on the settings just written reads the same configuration, URLs being non-empty. */
  lemma PersistedConfigRoundTrip(settings: map<string, Json>, config: ApiConfig)
    requires config.denchokunServerUrl != "" && config.previewServerUrl != ""
    ensures InitialConfig(PersistedSettings(settings, config)) == config
  {
    var r := PersistedSettings(settings, config);
    assert Section(r, "apiServer") == r["apiServer"].fields;
    assert Section(r, "previewServer") == r["previewServer"].fields;
  }

  /**
   * An update that leaves out the preview URL writes back the client's own
   * preview URL, whatever the stored settings held there: a preview URL the
   * renderer stored just before the call is replaced, while every key of the
   * stored settings outside the client's three values is kept.
   */
  lemma PersistKeepsCachedPreviewUrl(stored: map<string, Json>, config: ApiConfig, update: ConfigUpdate)
    requires update.previewServerUrl.None?
    ensures var written := PersistedSettings(stored, Merge(config, update));
      && TextField(Section(written, "previewServer"), "url") == config.previewServerUrl
      && InitialConfig(written).previewServerUrl == OrElse(config.previewServerUrl, DefaultPreviewUrl)
      && (forall k :: k in stored && k != "apiServer" && k != "previewServer" ==> written[k] == stored[k])
  {
    var written := PersistedSettings(stored, Merge(config, update));
    assert Section(written, "previewServer") == written["previewServer"].fields;
  }

  /**
   * The client: its cached configuration, and the `settings` entry it last
   * wrote to the settings store. Other windows write that entry too, so each
   * `api-config-set` is given the entry as it is at the time of the call.
   */
  class Client {
    var config: ApiConfig
    var settings: map<string, Json>

    /** The constructor: the stored settings ('{}' when there are none) decide the configuration. */
    constructor (stored: map<string, Json>)
      ensures settings == stored
      ensures config == InitialConfig(stored)
    {
      settings := stored;
      config := InitialConfig(stored);
    }

    /** `api-config-get`: the cached configuration, which `ConfigSet` last returned. */
    function ConfigGet(): (r: ApiConfig)
      reads this`config
      ensures r == config
    {
      config
    }

    /**
     * `api-config-set`: the update is merged into the cached configuration,
     * and the settings entry the store holds now (`stored`, re-read for
     * this call) is written back with the configuration's three values.
     */
    method ConfigSet(update: ConfigUpdate, stored: map<string, Json>) returns (result: ApiConfig)
      modifies this`config, this`settings
      ensures config == Merge(old(config), update)
      ensures settings == PersistedSettings(stored, config)
      ensures result == config
    {
      config := Merge(config, update);
      var current := stored;
      settings := PersistedSettings(current, config);
      result := config;
    }
  }

  /** The method of a request. */
  datatype HttpMethod = Get | Post | Put | Delete

  /** The base URL of a server: the API server's exactly for 'denchokun', the preview server's for anything else. */
  function BaseUrl(config: ApiConfig, server: string): (r: string)
    ensures server == "denchokun" ==> r == config.denchokunServerUrl
    ensures server != "denchokun" ==> r == config.previewServerUrl
  {
    if server == "denchokun" then config.denchokunServerUrl else config.previewServerUrl
  }

  /** The options of an `api-request` call; `data` is `None` when absent (or falsy). */
  datatype RequestOptions = RequestOptions(
    server: string,
    endpoint: string,
    httpMethod: Option<HttpMethod>,
    data: Option<Json>,
    isMultipart: bool)

  /** How a request travels. */
  datatype Transport = Multipart | JsonFetch

  /** The request sent: its URL, method, transport and the JSON body, if any. */
  datatype Outgoing = Outgoing(url: string, httpMethod: HttpMethod, transport: Transport, body: Option<Json>)

  /**
   * `api-request`: the URL is the server's base URL followed by the
   * endpoint, the method defaults to GET, the multipart path is taken only
   * with both the flag and data, and a JSON body goes only with data.
   */
  function PlanRequest(config: ApiConfig, options: RequestOptions): (r: Outgoing)
    ensures r.url == BaseUrl(config, options.server) + options.endpoint
    ensures r.httpMethod == (if options.httpMethod.Some? then options.httpMethod.value else Get)
    ensures r.transport == Multipart <==> options.isMultipart && options.data.Some?
    ensures r.transport == JsonFetch ==> r.body == options.data
  {
    var baseUrl := BaseUrl(config, options.server);
    var url := baseUrl + options.endpoint;
    var httpMethod := match options.httpMethod case Some(m) => m case None => Get;
    if options.isMultipart && options.data.Some? then Outgoing(url, httpMethod, Multipart, options.data)
    else Outgoing(url, httpMethod, JsonFetch, options.data)
  }

  /** `apiRequest`, the helper of the other channels: always a JSON fetch, GET unless told otherwise. */
  function ApiRequest(config: ApiConfig, server: string, endpoint: string,
                      httpMethod: HttpMethod, data: Option<Json>): (r: Outgoing)
    ensures r == PlanRequest(config, RequestOptions(server, endpoint, Some(httpMethod), data, false))
  {
    Outgoing(BaseUrl(config, server) + endpoint, httpMethod, JsonFetch, data)
  }

  /** What `fetch` gave: it threw with a message, or an answer with status, content type ('' when absent) and text. */
  datatype FetchResult =
    | NetworkError(message: string)
    | Response(ok: bool, status: int, statusText: string, contentType: string, text: string)

  /** What a JSON fetch returns: an error, the parsed JSON (kept as its text), or the raw text. */
  datatype Outcome = Failed(message: string) | JsonBody(text: string) | TextBody(text: string)

  function HttpErrorMessage(status: int, statusText: string): string {
    "HTTP " + NumberFormat.IntToString(status) + ": " + statusText
  }

  /**
   * Reading an answer: a network error or a non-OK status fails; otherwise
   * the body is JSON exactly when the content type mentions 'application/json',
   * and text otherwise.
   */
  function Dispatch(result: FetchResult): (r: Outcome)
    ensures r.Failed? <==> result.NetworkError? || !result.ok
    ensures result.Response? && !result.ok ==> r == Failed(HttpErrorMessage(result.status, result.statusText))
    ensures result.Response? && result.ok ==>
      (r.JsonBody? <==> Text.Contains(result.contentType, "application/json"))
    ensures !r.Failed? ==> r.text == result.text
  {
    match result
    case NetworkError(message) => Failed(message)
    case Response(ok, status, statusText, contentType, text) =>
      if !ok then Failed(HttpErrorMessage(status, statusText))
      else if contentType != "" && Text.Contains(contentType, "application/json") then JsonBody(text)
      else TextBody(text)
  }

  /** The health check's answer. */
  datatype Health = HealthOk(data: Outcome) | HealthError(error: string)

  const HealthEndpoint: string := "/v1/api/health"

  /** `api-health-check`: 'ok' with the result when the request succeeds, 'error' with the message when it fails. */
  function HealthCheck(result: FetchResult): (r: Health)
    ensures r.HealthOk? <==> result.Response? && result.ok
    ensures r.HealthOk? ==> r.data == Dispatch(result)
    ensures r.HealthError? ==> r.error == Dispatch(result).message
  {
    match Dispatch(result)
    case Failed(message) => HealthError(message)
    case other => HealthOk(other)
  }

  /** The request a health check sends: a GET of the health endpoint of the chosen server. */
  function HealthRequest(config: ApiConfig, server: string): (r: Outgoing)
    ensures r.url == BaseUrl(config, server) + HealthEndpoint && r.httpMethod == Get && r.body.None?
  {
    ApiRequest(config, server, HealthEndpoint, Get, None)
  }

  const TransactionsEndpoint: string := "/v1/api/transactions"

  /** `api-transactions-list`: the period is appended as a query only when one is given. */
  function TransactionsListEndpoint(periodId: string): (r: string)
    ensures periodId == "" ==> r == TransactionsEndpoint
    ensures periodId != "" ==> r == TransactionsEndpoint + "?period=" + periodId
    ensures Text.StartsWith(r, TransactionsEndpoint)
  {
    TransactionsEndpoint + (if periodId != "" then "?period=" + periodId else "")
  }

  /** A given period can be read back from the list endpoint as the text after its '='. */
  lemma TransactionsListPeriod(periodId: string)
    requires periodId != "" && '=' !in periodId
    ensures Text.AfterLast(TransactionsListEndpoint(periodId), '=') == periodId
  {
    Text.AfterLastOfJoin(TransactionsEndpoint + "?period", '=', periodId);
    assert TransactionsEndpoint + "?period=" + periodId == TransactionsEndpoint + "?period" + ['='] + periodId;
  }

  /** `api-transactions-update` and `api-transactions-delete`: the transaction's id follows the list endpoint. */
  function TransactionEndpoint(id: int): (r: string)
    ensures Text.StartsWith(r, TransactionsEndpoint + "/")
  {
    TransactionsEndpoint + "/" + NumberFormat.IntToString(id)
  }

  /** The id is the text after the last '/', and `parseInt` of it gives the id back. */
  lemma TransactionEndpointId(id: int)
    ensures Text.AfterLast(TransactionEndpoint(id), '/') == NumberFormat.IntToString(id)
    ensures NumberFormat.ParseInt(Text.AfterLast(TransactionEndpoint(id), '/')) == Some(id)
  {
    var digits := NumberFormat.IntToString(id);
    assert '/' !in digits by {
      var n: nat := if id < 0 then -id else id;
      assert NumberFormat.AllDigits(NumberFormat.Decimal(n));
      assert id < 0 ==> digits == "-" + NumberFormat.Decimal(n);
    }
    Text.AfterLastOfJoin(TransactionsEndpoint, '/', digits);
    assert TransactionEndpoint(id) == TransactionsEndpoint + ['/'] + digits;
    NumberFormat.ParseIntOfToString(id);
  }

  /** The convenience channels and the request each makes through `apiRequest`. */
  datatype Channel =
    | TransactionsList(periodId: string)
    | TransactionsCreate(data: Option<Json>)
    | TransactionsUpdate(id: int, data: Option<Json>)
    | TransactionsDelete(id: int)
    | PeriodsList
    | PeriodsCreate(data: Option<Json>)
    | PartnersList
    | PartnersCreate(data: Option<Json>)
    | DocTypesList
    | FileUpload(filePath: string, metadata: Option<Json>)
    | PreviewGenerate(fileId: string)

  /**
   * The JSON body of `api-file-upload`: `{filePath, metadata}`, where an absent
   * metadata is left out, as `JSON.stringify` drops an undefined field.
   */
  function UploadBody(filePath: string, metadata: Option<Json>): (r: Json)
    ensures r.JObject? && "filePath" in r.fields && r.fields["filePath"] == JString(filePath)
    ensures "metadata" in r.fields <==> metadata.Some?
    ensures metadata.Some? ==> r.fields["metadata"] == metadata.value
    ensures r.fields.Keys <= {"filePath", "metadata"}
  {
    var fields := map["filePath" := JString(filePath)];
    match metadata
    case Some(m) => JObject(fields["metadata" := m])
    case None => JObject(fields)
  }

  /** The request behind a channel: the preview server only for previews, the API server for everything else. */
  function ChannelRequest(config: ApiConfig, channel: Channel): (r: Outgoing)
    ensures channel.PreviewGenerate? ==> Text.StartsWith(r.url, config.previewServerUrl)
    ensures !channel.PreviewGenerate? ==> Text.StartsWith(r.url, config.denchokunServerUrl)
    ensures r.transport == JsonFetch
    ensures channel.FileUpload? ==> r.body == Some(UploadBody(channel.filePath, channel.metadata))
    ensures r.httpMethod == Get <==>
      channel.TransactionsList? || channel.PeriodsList? || channel.PartnersList?
      || channel.DocTypesList? || channel.PreviewGenerate?
  {
    match channel
    case TransactionsList(periodId) =>
      ApiRequest(config, "denchokun", TransactionsListEndpoint(periodId), Get, None)
    case TransactionsCreate(data) => ApiRequest(config, "denchokun", TransactionsEndpoint, Post, data)
    case TransactionsUpdate(id, data) => ApiRequest(config, "denchokun", TransactionEndpoint(id), Put, data)
    case TransactionsDelete(id) => ApiRequest(config, "denchokun", TransactionEndpoint(id), Delete, None)
    case PeriodsList => ApiRequest(config, "denchokun", "/v1/api/periods", Get, None)
    case PeriodsCreate(data) => ApiRequest(config, "denchokun", "/v1/api/periods", Post, data)
    case PartnersList => ApiRequest(config, "denchokun", "/v1/api/partners", Get, None)
    case PartnersCreate(data) => ApiRequest(config, "denchokun", "/v1/api/partners", Post, data)
    case DocTypesList => ApiRequest(config, "denchokun", "/v1/api/doc-types", Get, None)
    case FileUpload(filePath, metadata) =>
      ApiRequest(config, "denchokun", "/v1/api/files/upload", Post, Some(UploadBody(filePath, metadata)))
    case PreviewGenerate(fileId) => ApiRequest(config, "preview", "/api/preview/" + fileId, Get, None)
  }
}
