/** The transport and the resource clients (src/lib/api.ts): the request
    every client function builds (`fetchWithCSRF`), the rule that turns a
    response into a result or an error (`handleResponse`), and the table of
    endpoint paths and methods. The `fetch` call itself is not modelled: a
    client function is `ApiRequest` followed, once the server answers, by
    `HandleResponse`. */
module Api {
  import opened Wrappers
  import opened Text

  const ApiBase := "/api/friendforce"

  /** A JSON value as `response.json()` produces it. Numbers are integers
      here. */
  datatype Json =
    | JNull
    | JBool(b: bool)
    | JNum(n: int)
    | JStr(s: string)
    | JArr(items: seq<Json>)
    | JObj(fields: map<string, Json>)

  /** JavaScript truthiness of a parsed JSON value. */
  predicate JsTruthy(j: Json) {
    match j
    case JNull => false
    case JBool(b) => b
    case JNum(n) => n != 0
    case JStr(s) => s != ""
    case JArr(_) => true
    case JObj(_) => true
  }

  /** `String(j)`, which is what `new Error(j)` keeps as its message. An
      array joins its elements with commas, a null element as nothing. */
  function JsString(j: Json): string
    decreases j
  {
    match j
    case JNull => "null"
    case JBool(b) => if b then "true" else "false"
    case JNum(n) => IntToString(n)
    case JStr(s) => s
    case JArr(items) =>
      Join(seq(|items|, i requires 0 <= i < |items| =>
        if items[i].JNull? then "" else JsString(items[i])), ',')
    case JObj(_) => "[object Object]"
  }

  // ---------------------------------------------------------------------
  // handleResponse

  /** What the client sees of a response: `ok`, `status`, and what
      `response.json()` resolves to (`None` when it rejects because the body
      is not JSON). */
  datatype Response = Response(ok: bool, status: nat, body: Option<Json>)

  datatype Failure =
    | RequestError(message: string)  // the `Error` thrown for a non-ok response
    | DetailOfNull                   // the `TypeError` of reading `.detail` of a `null` body
    | BodyNotJson                    // the rejection of `response.json()` on an ok response

  datatype Outcome =
    | ReturnedUndefined
    | Returned(value: Json)
    | Threw(failure: Failure)

  /** The truthy `detail` of an error body, if any. A body that fails to
      parse stands for `{}`. Only a `null` body has no such property to
      read; callers rule that case out first. */
  function ErrorDetail(body: Option<Json>): (d: Option<Json>)
    ensures d.Some? <==> (body.Some? && body.value.JObj? && "detail" in body.value.fields
                          && JsTruthy(body.value.fields["detail"]))
    ensures d.Some? ==> d.value == body.value.fields["detail"]
  {
    match body
    case Some(JObj(fields)) =>
      if "detail" in fields && JsTruthy(fields["detail"]) then Some(fields["detail"]) else None
    case _ => None
  }

  /** `Request failed: ${status}`. */
  function GenericMessage(status: nat): string {
    "Request failed: " + NatToString(status)
  }

  /** `handleResponse(response)`. */
  function HandleResponse(resp: Response): (r: Outcome)
    ensures !resp.ok ==> r.Threw?
    ensures !resp.ok ==> (r == Threw(DetailOfNull) <==> resp.body == Some(JNull))
    ensures !resp.ok && resp.body != Some(JNull) ==>
      r == Threw(RequestError(
        if ErrorDetail(resp.body).Some? then JsString(ErrorDetail(resp.body).value)
        else GenericMessage(resp.status)))
    ensures resp.ok && resp.status == 204 ==> r == ReturnedUndefined
    ensures resp.ok && resp.status != 204 ==>
      r == if resp.body.Some? then Returned(resp.body.value) else Threw(BodyNotJson)
  {
    if !resp.ok then
      var error := resp.body.GetOr(JObj(map[]));
      if error.JNull? then Threw(DetailOfNull)
      else if error.JObj? && "detail" in error.fields && JsTruthy(error.fields["detail"]) then
        Threw(RequestError(JsString(error.fields["detail"])))
      else Threw(RequestError(GenericMessage(resp.status)))
    else if resp.status == 204 then ReturnedUndefined
    else if resp.body.None? then Threw(BodyNotJson)
    else Returned(resp.body.value)
  }

  /** A non-empty string `detail` is the error message as it is. */
  lemma DetailStringIsMessage(status: nat, fields: map<string, Json>, detail: string)
    requires "detail" in fields && fields["detail"] == JStr(detail) && detail != ""
    ensures HandleResponse(Response(false, status, Some(JObj(fields)))) == Threw(RequestError(detail))
  {
  }

  /** The generic message names the status, so two different statuses never
      produce the same message. */
  lemma GenericMessageIdentifiesStatus(s: nat, t: nat)
    ensures GenericMessage(s) == GenericMessage(t) <==> s == t
  {
    var prefix := "Request failed: ";
    if GenericMessage(s) == GenericMessage(t) {
      assert NatToString(s) == GenericMessage(s)[|prefix|..];
      assert NatToString(t) == GenericMessage(t)[|prefix|..];
      NatToStringInjective(s, t);
    }
  }

  // ---------------------------------------------------------------------
  // fetchWithCSRF

  /** The `options` a client function passes; `headers` is a plain object
      of header names to values. */
  datatype RequestInit = RequestInit(
    httpMethod: Option<string>,
    body: Option<Json>,
    credentials: Option<string>,
    headers: Option<map<string, string>>)

  /** The arguments `fetch` receives. */
  datatype FetchRequest = FetchRequest(
    url: string,
    httpMethod: Option<string>,
    body: Option<Json>,
    credentials: string,
    headers: map<string, string>)

  /** The method `fetch` uses: GET when none is given. */
  function EffectiveMethod(req: FetchRequest): string {
    req.httpMethod.GetOr("GET")
  }

  /** A token from the cookie that is present and non-empty, as
      `csrfToken && ...` tests it. */
  predicate HasToken(csrfToken: Option<string>) {
    csrfToken.Some? && Truthy(csrfToken.value)
  }

  /** `fetchWithCSRF(url, options)`, with the value `getCSRFToken()`
      returns as a parameter. */
  function FetchWithCsrf(url: string, options: RequestInit, csrfToken: Option<string>): (r: FetchRequest)
    ensures r.url == url && r.httpMethod == options.httpMethod && r.body == options.body
    ensures r.credentials == "include"
    ensures r.headers.Keys == {"Content-Type"} + (if HasToken(csrfToken) then {"X-CSRFToken"} else {})
                              + options.headers.GetOr(map[]).Keys
    ensures forall k :: k in options.headers.GetOr(map[]) ==> r.headers[k] == options.headers.GetOr(map[])[k]
    ensures "Content-Type" !in options.headers.GetOr(map[]) ==> r.headers["Content-Type"] == "application/json"
    ensures HasToken(csrfToken) && "X-CSRFToken" !in options.headers.GetOr(map[]) ==>
      r.headers["X-CSRFToken"] == csrfToken.value
  {
    var defaults := map["Content-Type" := "application/json"];
    var withToken := if HasToken(csrfToken) then defaults["X-CSRFToken" := csrfToken.value] else defaults;
    FetchRequest(url, options.httpMethod, options.body, "include", withToken + options.headers.GetOr(map[]))
  }

  // ---------------------------------------------------------------------
  // the endpoint table

  datatype HttpMethod = Get | Post | Patch | Delete

  function MethodName(m: HttpMethod): string {
    match m
    case Get => "GET"
    case Post => "POST"
    case Patch => "PATCH"
    case Delete => "DELETE"
  }

  /** One operation of `contactsApi`, `remindersApi` or `dashboardApi`. */
  datatype Endpoint =
    | ListContacts | GetContact(id: string) | CreateContact | UpdateContact(id: string)
    | DeleteContact(id: string) | LogInteraction(id: string)
    | ListReminders | GetReminder(id: string) | CreateReminder | UpdateReminder(id: string)
    | DeleteReminder(id: string) | UpcomingReminders | CompleteReminder(id: string)
    | DashboardStats | StaleContacts | RecentContacts

  /** `${API_BASE}/<resource>/` */
  function CollectionUrl(resource: string): string {
    ApiBase + "/" + resource + "/"
  }

  /** `${API_BASE}/<resource>/${id}/` */
  function ItemUrl(resource: string, id: string): string {
    ApiBase + "/" + resource + "/" + id + "/"
  }

  /** `${API_BASE}/<resource>/${id}/<action>/` */
  function ItemActionUrl(resource: string, id: string, action: string): string {
    ApiBase + "/" + resource + "/" + id + "/" + action + "/"
  }

  /** The URL each client function fetches. */
  function Path(e: Endpoint): string {
    match e
    case ListContacts => CollectionUrl("contacts")
    case GetContact(id) => ItemUrl("contacts", id)
    case CreateContact => CollectionUrl("contacts")
    case UpdateContact(id) => ItemUrl("contacts", id)
    case DeleteContact(id) => ItemUrl("contacts", id)
    case LogInteraction(id) => ItemActionUrl("contacts", id, "log-interaction")
    case ListReminders => CollectionUrl("reminders")
    case GetReminder(id) => ItemUrl("reminders", id)
    case CreateReminder => CollectionUrl("reminders")
    case UpdateReminder(id) => ItemUrl("reminders", id)
    case DeleteReminder(id) => ItemUrl("reminders", id)
    case UpcomingReminders => ItemUrl("reminders", "upcoming")
    case CompleteReminder(id) => ItemActionUrl("reminders", id, "complete")
    case DashboardStats => CollectionUrl("dashboard")
    case StaleContacts => ItemUrl("dashboard", "stale")
    case RecentContacts => ItemUrl("dashboard", "recent")
  }

  /** The HTTP method of each operation. */
  function Method(e: Endpoint): HttpMethod {
    match e
    case ListContacts | GetContact(_) | ListReminders | GetReminder(_) | UpcomingReminders
      | DashboardStats | StaleContacts | RecentContacts => Get
    case CreateContact | CreateReminder | LogInteraction(_) | CompleteReminder(_) => Post
    case UpdateContact(_) | UpdateReminder(_) => Patch
    case DeleteContact(_) | DeleteReminder(_) => Delete
  }

  predicate SendsBody(e: Endpoint) {
    e.CreateContact? || e.UpdateContact? || e.CreateReminder? || e.UpdateReminder?
  }

  /** The `options` each client function passes: none for a read, a method
      and the JSON body for create and update, only a method otherwise. */
  function Options(e: Endpoint, payload: Json): (r: RequestInit)
    ensures r.httpMethod.None? <==> Method(e) == Get
    ensures r.httpMethod.Some? ==> r.httpMethod.value == MethodName(Method(e))
    ensures r.body.Some? <==> SendsBody(e)
    ensures r.body.Some? ==> r.body.value == payload
    ensures r.credentials.None? && r.headers.None?
  {
    match e
    case ListContacts | GetContact(_) | ListReminders | GetReminder(_) | UpcomingReminders
      | DashboardStats | StaleContacts | RecentContacts => RequestInit(None, None, None, None)
    case CreateContact | CreateReminder => RequestInit(Some("POST"), Some(payload), None, None)
    case UpdateContact(_) | UpdateReminder(_) => RequestInit(Some("PATCH"), Some(payload), None, None)
    case DeleteContact(_) | DeleteReminder(_) => RequestInit(Some("DELETE"), None, None, None)
    case LogInteraction(_) | CompleteReminder(_) => RequestInit(Some("POST"), None, None, None)
  }

  /** The request a client function hands to `fetch`. */
  function ApiRequest(e: Endpoint, payload: Json, csrfToken: Option<string>): (r: FetchRequest)
    ensures r.url == Path(e)
    ensures EffectiveMethod(r) == MethodName(Method(e))
    ensures r.body.Some? <==> SendsBody(e)
    ensures SendsBody(e) ==> r.body == Some(payload)
    ensures r.credentials == "include"
    ensures ("X-CSRFToken" in r.headers <==> HasToken(csrfToken))
    ensures "Content-Type" in r.headers && r.headers["Content-Type"] == "application/json"
  {
    FetchWithCsrf(Path(e), Options(e, payload), csrfToken)
  }

  /** The path segments after the base: the resource, then the id, then the
      action, where the operation has them. */
  function Segments(e: Endpoint): seq<string> {
    match e
    case ListContacts | CreateContact => ["contacts"]
    case GetContact(id) => ["contacts", id]
    case UpdateContact(id) => ["contacts", id]
    case DeleteContact(id) => ["contacts", id]
    case LogInteraction(id) => ["contacts", id, "log-interaction"]
    case ListReminders | CreateReminder => ["reminders"]
    case GetReminder(id) => ["reminders", id]
    case UpdateReminder(id) => ["reminders", id]
    case DeleteReminder(id) => ["reminders", id]
    case UpcomingReminders => ["reminders", "upcoming"]
    case CompleteReminder(id) => ["reminders", id, "complete"]
    case DashboardStats => ["dashboard"]
    case StaleContacts => ["dashboard", "stale"]
    case RecentContacts => ["dashboard", "recent"]
  }

  lemma CollectionUrlIsJoin(s: seq<string>)
    requires |s| == 1
    ensures CollectionUrl(s[0]) == ApiBase + "/" + Join(s + [""], '/')
  {
    var t := s + [""];
    assert t[1..] == [""];
  }

  lemma ItemUrlIsJoin(s: seq<string>)
    requires |s| == 2
    ensures ItemUrl(s[0], s[1]) == ApiBase + "/" + Join(s + [""], '/')
  {
    var t := s + [""];
    assert t[1..] == [s[1], ""];
    assert t[1..][1..] == [""];
    assert Join(t[1..], '/') == s[1] + "/";
  }

  lemma ItemActionUrlIsJoin(s: seq<string>)
    requires |s| == 3
    ensures ItemActionUrl(s[0], s[1], s[2]) == ApiBase + "/" + Join(s + [""], '/')
  {
    var t := s + [""];
    assert t[1..] == [s[1], s[2], ""];
    assert t[1..][1..] == [s[2], ""];
    assert t[1..][1..][1..] == [""];
    assert Join(t[1..][1..], '/') == s[2] + "/";
  }

  /** Every path is the base, then each segment followed by "/". */
  lemma PathIsSegments(e: Endpoint)
    ensures Path(e) == ApiBase + "/" + Join(Segments(e) + [""], '/')
  {
    var s := Segments(e);
    if |s| == 1 {
      CollectionUrlIsJoin(s);
    } else if |s| == 2 {
      ItemUrlIsJoin(s);
    } else {
      ItemActionUrlIsJoin(s);
    }
  }

  /** Ids that fit in one path segment. */
  predicate ValidId(id: string) {
    id != "" && '/' !in id
  }

  /** An operation whose path can be read back: each id is one non-empty
      segment without a slash, so `Route` can split the path and recover
      it. The one path two operations share is `GET /reminders/upcoming/`,
      so a reminder read must not use the id "upcoming". */
  predicate WellFormed(e: Endpoint) {
    match e
    case GetContact(id) => ValidId(id)
    case UpdateContact(id) => ValidId(id)
    case DeleteContact(id) => ValidId(id)
    case LogInteraction(id) => ValidId(id)
    case GetReminder(id) => ValidId(id) && id != "upcoming"
    case UpdateReminder(id) => ValidId(id)
    case DeleteReminder(id) => ValidId(id)
    case CompleteReminder(id) => ValidId(id)
    case _ => true
  }

  /** The reverse of the table: which operation answers a method and the
      path segments after the base. */
  function RouteSegments(m: HttpMethod, parts: seq<string>): Option<Endpoint> {
    if |parts| == 2 && parts[1] == "" then
      if parts[0] == "contacts" && m == Get then Some(ListContacts)
      else if parts[0] == "contacts" && m == Post then Some(CreateContact)
      else if parts[0] == "reminders" && m == Get then Some(ListReminders)
      else if parts[0] == "reminders" && m == Post then Some(CreateReminder)
      else if parts[0] == "dashboard" && m == Get then Some(DashboardStats)
      else None
    else if |parts| == 3 && parts[2] == "" then
      var x := parts[1];
      if parts[0] == "dashboard" && x == "stale" && m == Get then Some(StaleContacts)
      else if parts[0] == "dashboard" && x == "recent" && m == Get then Some(RecentContacts)
      else if parts[0] == "reminders" && x == "upcoming" && m == Get then Some(UpcomingReminders)
      else if x == "" then None
      else if parts[0] == "contacts" then
        match m
        case Get => Some(GetContact(x))
        case Patch => Some(UpdateContact(x))
        case Delete => Some(DeleteContact(x))
        case Post => None
      else if parts[0] == "reminders" then
        match m
        case Get => Some(GetReminder(x))
        case Patch => Some(UpdateReminder(x))
        case Delete => Some(DeleteReminder(x))
        case Post => None
      else None
    else if |parts| == 4 && parts[3] == "" && parts[1] != "" && m == Post then
      if parts[0] == "contacts" && parts[2] == "log-interaction" then Some(LogInteraction(parts[1]))
      else if parts[0] == "reminders" && parts[2] == "complete" then Some(CompleteReminder(parts[1]))
      else None
    else None
  }

  /** Which operation a method and a URL stand for. */
  function Route(m: HttpMethod, path: string): Option<Endpoint> {
    var prefix := ApiBase + "/";
    if IsPrefix(prefix, path) then RouteSegments(m, Split(path[|prefix|..], '/')) else None
  }

  /** Routing the method and path of a well-formed operation finds that
      operation again. */
  lemma RouteInvertsTable(e: Endpoint)
    requires WellFormed(e)
    ensures Route(Method(e), Path(e)) == Some(e)
  {
    var prefix := ApiBase + "/";
    var parts := Segments(e) + [""];
    PathIsSegments(e);
    var rest := Join(parts, '/');
    assert Path(e) == prefix + rest;
    assert Path(e)[..|prefix|] == prefix;
    assert Path(e)[|prefix|..] == rest;
    forall i | 0 <= i < |parts| ensures '/' !in parts[i] {
    }
    SplitJoin(parts, '/');
    RouteSegmentsOfTable(e);
  }

  /** The segment table of a well-formed operation routes back to it. */
  lemma RouteSegmentsOfTable(e: Endpoint)
    requires WellFormed(e)
    ensures RouteSegments(Method(e), Segments(e) + [""]) == Some(e)
  {
  }

  /** No two well-formed operations share both method and path. */
  lemma TableIsInjective(e: Endpoint, f: Endpoint)
    requires WellFormed(e) && WellFormed(f)
    requires Method(e) == Method(f) && Path(e) == Path(f)
    ensures e == f
  {
    RouteInvertsTable(e);
    RouteInvertsTable(f);
  }

  /** Why a reminder read may not use the id "upcoming". */
  lemma UpcomingIdCollides()
    ensures Method(GetReminder("upcoming")) == Method(UpcomingReminders)
    ensures Path(GetReminder("upcoming")) == Path(UpcomingReminders)
  {
  }
}
