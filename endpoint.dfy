/**
 * The catalogue of remote operations of the RevenueCat developer API and
 * the pure accessors that turn one operation into the parts of an HTTP
 * request: base URL, path, verb, parameters, parameter encoding, headers.
 *
 * The process-wide bearer token is passed to `Headers` as an explicit
 * `Option<string>`; the serialised request dictionaries (`request.dict`)
 * are opaque parameter maps and a chart's name is an opaque string.
 */
module Endpoints {
  import opened Wrappers

  /** One value of a parameter dictionary. */
  datatype ParamValue = BoolParam(b: bool) | IntParam(i: int) | StringParam(s: string)

  type Parameters = map<string, ParamValue>

  /** A chart request: the raw value of the chart's name and its serialised dictionary. */
  datatype ChartRequest = ChartRequest(name: string, dict: Parameters)

  /** The fifteen remote operations, each with the data its request needs. */
  datatype Endpoint =
    | Login(request: Parameters)
    | Logout
    | Me
    | Projects
    | ProjectDetail(id: string)
    | Overview
    | Charts(chart: ChartRequest)
    | Transactions(request: Parameters)
    | TransactionDetail(projectId: string, subscriberId: string)
    | TransactionDetailActivity(projectId: string, subscriberId: string)
    | Webhooks(projectId: string)
    | CreateWebhook(projectId: string, request: Parameters)
    | UpdateWebhook(projectId: string, webhookId: string, request: Parameters)
    | DeleteWebhook(projectId: string, webhookId: string)
    | TestWebhook(projectId: string, webhookId: string)

  datatype HttpMethod = Get | Post | Put | Delete

  /**
   * Parameters go either into a JSON body or are URL-encoded (into the query
   * string for the GETs that carry parameters here).
   */
  datatype ParameterEncoding = JsonEncoding | UrlEncoding

  datatype Header = Header(name: string, value: string)

  const PublicRoot: string := "https://api.revenuecat.com/v1/developers"
  const InternalRoot: string := "https://api.revenuecat.com/internal/v1/developers"

  /** The literal parameter map `sandbox_mode: false`. */
  const SandboxOff: Parameters := map["sandbox_mode" := BoolParam(false)]

  const RequestedWith: Header := Header("X-Requested-With", "XMLHttpRequest")
  const JsonContentType: Header := Header("Content-Type", "application/json")

  /** The `Authorization` header of a bearer token (section 2.1 of RFC 6750). */
  function BearerAuthorization(token: string): Header {
    Header("Authorization", "Bearer " + token)
  }

  /** The five operations on a project's webhook integrations. */
  predicate IsWebhookOperation(e: Endpoint) {
    e.Webhooks? || e.CreateWebhook? || e.UpdateWebhook? || e.DeleteWebhook? || e.TestWebhook?
  }

  /** The operations without a body that still announce a JSON content type. */
  predicate SendsJsonContentType(e: Endpoint) {
    e.Logout? || e.DeleteWebhook? || e.TestWebhook?
  }

  /** The collection path of a project's webhooks. */
  function WebhooksPath(projectId: string): string {
    "me/projects/" + projectId + "/integrations/webhooks"
  }

  /** The two API roots are different strings, so the root is observable in every URL. */
  function BaseUrl(e: Endpoint): (url: string)
    ensures url == InternalRoot <==>
      e.Projects? || e.ProjectDetail? || e.TransactionDetailActivity? || IsWebhookOperation(e)
    ensures url == PublicRoot <==> !(url == InternalRoot)
  {
    match e
    case Projects | ProjectDetail(_) | TransactionDetailActivity(_, _)
      | Webhooks(_) | CreateWebhook(_, _) | UpdateWebhook(_, _, _)
      | DeleteWebhook(_, _) | TestWebhook(_, _) =>
      InternalRoot
    case _ => PublicRoot
  }

  /**
   * The path below the root. It is relative (never empty, no leading
   * slash), and every operation other than login and logout addresses a
   * resource under `me`.
   */
  function Path(e: Endpoint): (p: string)
    ensures |p| > 0 && p[0] != '/'
    ensures !(e.Login? || e.Logout?) ==> |p| >= 2 && p[..2] == "me"
  {
    match e
    case Login(_) => "login"
    case Logout => "logout"
    case Me => "me"
    case Projects => "me/projects"
    case ProjectDetail(id) => "me/projects/" + id
    case Overview => "me/overview"
    case Charts(chart) => "me/charts_v2/" + chart.name
    case Transactions(_) => "me/transactions"
    case TransactionDetail(projectId, subscriberId) =>
      "me/apps/" + projectId + "/subscribers/" + subscriberId
    case TransactionDetailActivity(projectId, subscriberId) =>
      "me/apps/" + projectId + "/subscribers/" + subscriberId + "/activity"
    case Webhooks(projectId) => "me/projects/" + projectId + "/integrations/webhooks"
    case CreateWebhook(projectId, _) => "me/projects/" + projectId + "/integrations/webhooks"
    case UpdateWebhook(projectId, webhookId, _) =>
      "me/projects/" + projectId + "/integrations/webhooks/" + webhookId
    case DeleteWebhook(projectId, webhookId) =>
      "me/projects/" + projectId + "/integrations/webhooks/" + webhookId
    case TestWebhook(projectId, webhookId) =>
      "me/projects/" + projectId + "/integrations/webhooks/" + webhookId + "/test_webhook"
  }

  /** The full URL: the base URL, a slash, and the path. */
  function UrlString(e: Endpoint): (url: string)
    ensures PublicRoot + "/" <= url || InternalRoot + "/" <= url
    ensures |url| == |BaseUrl(e)| + 1 + |Path(e)|
    ensures url[..|BaseUrl(e)|] == BaseUrl(e) && url[|BaseUrl(e)|] == '/'
    ensures url[|BaseUrl(e)| + 1..] == Path(e)
  {
    BaseUrl(e) + "/" + Path(e)
  }

  function Method(e: Endpoint): (m: HttpMethod)
    ensures m == Post <==> e.Login? || e.Logout? || e.CreateWebhook? || e.TestWebhook?
    ensures m == Put <==> e.UpdateWebhook?
    ensures m == Delete <==> e.DeleteWebhook?
  {
    match e
    case Login(_) | Logout | CreateWebhook(_, _) | TestWebhook(_, _) => Post
    case UpdateWebhook(_, _, _) => Put
    case DeleteWebhook(_, _) => Delete
    case _ => Get
  }

  /** The request's parameters; `None` is Swift's `nil`. */
  function RequestParameters(e: Endpoint): (p: Option<Parameters>)
    ensures e.Overview? || e.TransactionDetail? || e.TransactionDetailActivity? ==> p == Some(SandboxOff)
    ensures e.Login? || e.Transactions? || e.CreateWebhook? || e.UpdateWebhook? ==> p == Some(e.request)
    ensures e.Charts? ==> p == Some(e.chart.dict)
    ensures p.None? <==>
      e.Logout? || e.Me? || e.Projects? || e.ProjectDetail? || e.Webhooks? || e.DeleteWebhook? || e.TestWebhook?
  {
    match e
    case Login(request) => Some(request)
    case Overview => Some(SandboxOff)
    case Charts(chart) => Some(chart.dict)
    case Transactions(request) => Some(request)
    case TransactionDetail(_, _) => Some(SandboxOff)
    case TransactionDetailActivity(_, _) => Some(SandboxOff)
    case CreateWebhook(_, request) => Some(request)
    case UpdateWebhook(_, _, request) => Some(request)
    case _ => None
  }

  function Encoding(e: Endpoint): (enc: ParameterEncoding)
    ensures enc == JsonEncoding <==> e.Login? || e.CreateWebhook? || e.UpdateWebhook?
  {
    match e
    case Login(_) | CreateWebhook(_, _) | UpdateWebhook(_, _, _) => JsonEncoding
    case _ => UrlEncoding
  }

  /** The value of the first header called `name`, if there is one. */
  function HeaderValue(headers: seq<Header>, name: string): (v: Option<string>)
    ensures v.Some? <==> exists i :: 0 <= i < |headers| && headers[i].name == name
    ensures v.Some? ==> exists i :: 0 <= i < |headers| && headers[i] == Header(name, v.value)
  {
    if headers == [] then None
    else if headers[0].name == name then Some(headers[0].value)
    else HeaderValue(headers[1..], name)
  }

  /**
   * The request headers: the anti-CSRF marker first, the bearer
   * authorisation when a token is set, and a JSON content type for the
   * three body-less operations that the API still expects it on.
   */
  function Headers(e: Endpoint, authToken: Option<string>): (hs: seq<Header>)
    ensures |hs| == 1 + (if authToken.Some? then 1 else 0) + (if SendsJsonContentType(e) then 1 else 0)
    ensures hs[0] == RequestedWith
    ensures HeaderValue(hs, "Authorization") ==
      if authToken.Some? then Some("Bearer " + authToken.value) else None
    ensures HeaderValue(hs, "Content-Type") ==
      if SendsJsonContentType(e) then Some("application/json") else None
  {
    var withAuth := [RequestedWith] + if authToken.Some? then [BearerAuthorization(authToken.value)] else [];
    match e
    case Logout | DeleteWebhook(_, _) | TestWebhook(_, _) =>
      HeaderValueAppend(withAuth, [JsonContentType], "Content-Type");
      HeaderValueAppend(withAuth, [JsonContentType], "Authorization");
      withAuth + [JsonContentType]
    case _ => withAuth
  }

  /** Looking a name up in two header lists in a row: the first list wins. */
  lemma {:induction false} HeaderValueAppend(first: seq<Header>, second: seq<Header>, name: string)
    ensures HeaderValue(first + second, name) ==
      if HeaderValue(first, name).Some? then HeaderValue(first, name) else HeaderValue(second, name)
  {
    if first == [] {
      assert first + second == second;
    } else {
      var both := first + second;
      assert both[0] == first[0];
      assert both[1..] == first[1..] + second;
      if first[0].name != name {
        HeaderValueAppend(first[1..], second, name);
      }
    }
  }

  // ---------------------------------------------------------------------
  // Properties relating the accessors to each other
  // ---------------------------------------------------------------------

  /** Every JSON-encoded operation has parameters to encode and a verb that carries a body. */
  lemma JsonEncodingCarriesBody(e: Endpoint)
    ensures Encoding(e) == JsonEncoding ==> RequestParameters(e).Some? && (Method(e) == Post || Method(e) == Put)
  {
  }

  /** A GET never sends a JSON body; its parameters, if any, go into the query string. */
  lemma ReadsUseQueryString(e: Endpoint)
    ensures Method(e) == Get ==> Encoding(e) == UrlEncoding
  {
  }

  /**
   * The three operations that inject `sandbox_mode: false` are reads, so
   * the flag travels in the query string.
   */
  lemma SandboxFlagIsQueryParameter(e: Endpoint)
    requires e.Overview? || e.TransactionDetail? || e.TransactionDetailActivity?
    ensures RequestParameters(e) == Some(SandboxOff)
    ensures Method(e) == Get && Encoding(e) == UrlEncoding
  {
  }

  /** The operations sending a JSON content type have no parameters at all. */
  lemma ContentTypeWithoutBody(e: Endpoint)
    ensures SendsJsonContentType(e) ==> RequestParameters(e).None? && Method(e) != Get
  {
  }

  /** The webhook operations share the collection path and extend it with the webhook id. */
  lemma WebhookPaths(projectId: string, webhookId: string, request: Parameters)
    ensures Path(Webhooks(projectId)) == Path(CreateWebhook(projectId, request)) == WebhooksPath(projectId)
    ensures Path(UpdateWebhook(projectId, webhookId, request)) == Path(DeleteWebhook(projectId, webhookId))
    ensures Path(DeleteWebhook(projectId, webhookId)) == WebhooksPath(projectId) + "/" + webhookId
    ensures Path(TestWebhook(projectId, webhookId)) == Path(DeleteWebhook(projectId, webhookId)) + "/test_webhook"
  {
  }

  /** The wire paths of the operations that take no identifier. */
  lemma FixedPaths(request: Parameters)
    ensures Path(Login(request)) == "login"
    ensures Path(Logout) == "logout"
    ensures Path(Me) == "me"
    ensures Path(Projects) == "me/projects"
    ensures Path(Overview) == "me/overview"
    ensures Path(Transactions(request)) == "me/transactions"
  {
  }

  /**
   * The identifiers go into the path: a project's detail sits below the
   * project list, and a subscriber's transactions below the app.
   */
  lemma DetailPaths(id: string, projectId: string, subscriberId: string)
    ensures Path(ProjectDetail(id)) == Path(Projects) + "/" + id
    ensures Path(TransactionDetail(projectId, subscriberId)) == "me/apps/" + projectId + "/subscribers/" + subscriberId
    ensures Path(TransactionDetailActivity(projectId, subscriberId)) ==
      "me/apps/" + projectId + "/subscribers/" + subscriberId + "/activity"
  {
  }

  /** Every webhook operation addresses a path under its project's webhook collection. */
  lemma WebhookPathsUnderCollection(e: Endpoint)
    requires IsWebhookOperation(e)
    ensures WebhooksPath(e.projectId) <= Path(e)
  {
    match e
    case Webhooks(p) => UnderCollection(p, "");
    case CreateWebhook(p, _) => UnderCollection(p, "");
    case UpdateWebhook(p, w, _) => UnderCollection(p, "/" + w);
    case DeleteWebhook(p, w) => UnderCollection(p, "/" + w);
    case TestWebhook(p, w) => UnderCollection(p, "/" + w + "/test_webhook");
  }

  /** The webhook collection path of a project is a prefix of any path that extends it. */
  lemma UnderCollection(projectId: string, rest: string)
    ensures WebhooksPath(projectId) <= WebhooksPath(projectId) + rest
    ensures WebhooksPath(projectId) + rest == "me/projects/" + projectId + "/integrations/webhooks" + rest
  {
  }

  /**
   * The activity path extends the detail path, yet the activity URL does
   * not extend the detail URL: detail goes to the public root, activity to
   * the internal one.
   */
  lemma ActivityExtendsDetail(projectId: string, subscriberId: string)
    ensures Path(TransactionDetailActivity(projectId, subscriberId)) ==
      Path(TransactionDetail(projectId, subscriberId)) + "/activity"
    ensures BaseUrl(TransactionDetail(projectId, subscriberId)) == PublicRoot
    ensures BaseUrl(TransactionDetailActivity(projectId, subscriberId)) == InternalRoot
    ensures !(UrlString(TransactionDetail(projectId, subscriberId)) <=
              UrlString(TransactionDetailActivity(projectId, subscriberId)))
  {
    var detail := UrlString(TransactionDetail(projectId, subscriberId));
    var activity := UrlString(TransactionDetailActivity(projectId, subscriberId));
    assert detail[27] == 'v';
    assert activity[27] == 'i';
  }

  /** A chart request resolves to a GET on the public root under `me/charts_v2/`. */
  lemma ChartsRequest(name: string, dict: Parameters)
    ensures UrlString(Charts(ChartRequest(name, dict))) == PublicRoot + "/" + ("me/charts_v2/" + name)
    ensures Method(Charts(ChartRequest(name, dict))) == Get
    ensures Encoding(Charts(ChartRequest(name, dict))) == UrlEncoding
    ensures RequestParameters(Charts(ChartRequest(name, dict))) == Some(dict)
  {
  }

  /** Deleting webhook `w1` of project `p1`: the wire request, with a content type and no body. */
  lemma DeleteWebhookRequest(authToken: Option<string>)
    ensures UrlString(DeleteWebhook("p1", "w1")) == InternalRoot + "/" + (WebhooksPath("p1") + "/w1")
    ensures Method(DeleteWebhook("p1", "w1")) == Delete
    ensures RequestParameters(DeleteWebhook("p1", "w1")) == None
    ensures HeaderValue(Headers(DeleteWebhook("p1", "w1"), authToken), "Content-Type") == Some("application/json")
  {
    assert SendsJsonContentType(DeleteWebhook("p1", "w1"));
    assert Path(DeleteWebhook("p1", "w1")) == WebhooksPath("p1") + "/w1";
  }
}
