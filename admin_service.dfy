/** The admin service: one request helper that every call goes through
    (headers, then the answer turned into a value or an error), the
    request each of its eighteen calls sends, and a status-to-colour
    helper. The network round trip itself is not modelled: the answer is
    an input. */
module AdminService {
  import opened JsValues
  import opened ApiUrl
  import AuthToken

  const ContentType := "Content-Type"
  const Authorization := "Authorization"
  const JsonType := "application/json"
  const GenericFailure := "Something went wrong"

  /** The headers `makeRequest` sends: `Content-Type: application/json`,
      then the caller's headers on top, then `Authorization` when the stored
      token is truthy. `storedToken` is what `localStorage.getItem` gave. */
  method BuildHeaders(callerHeaders: map<string, string>, storedToken: Option<string>)
    returns (headers: map<string, string>)
    ensures ContentType in headers
    ensures headers[ContentType] == (if ContentType in callerHeaders then callerHeaders[ContentType] else JsonType)
    ensures Authorization in headers <==> AuthToken.Present(storedToken) || Authorization in callerHeaders
    ensures AuthToken.Present(storedToken) ==> headers[Authorization] == "Bearer " + storedToken.value
    ensures !AuthToken.Present(storedToken) && Authorization in callerHeaders ==>
              headers[Authorization] == callerHeaders[Authorization]
    ensures forall k :: k in callerHeaders && k != Authorization ==> k in headers && headers[k] == callerHeaders[k]
    ensures forall k :: k in headers ==> k in callerHeaders || k == ContentType || k == Authorization
  {
    headers := map[ContentType := JsonType] + callerHeaders;
    if AuthToken.Present(storedToken) {
      headers := headers[Authorization := "Bearer " + storedToken.value];
    }
  }

  /** What `makeRequest` does with a parsed answer. */
  datatype Settled<T> = Returned(data: T) | Thrown(message: string)

  /** A non-ok status throws an error carrying the body's `message`, or a
      generic text when there is none; an ok status returns the body as it
      is. */
  function Settle<T>(ok: bool, body: T, message: JsStr): (r: Settled<T>)
    ensures r.Returned? <==> ok
    ensures ok ==> r.data == body
    ensures !ok ==> r.message != ""
    ensures !ok && Truthy(message) ==> r.message == message.value
  {
    if ok then Returned(body) else Thrown(OrElse(message, GenericFailure))
  }

  /** `new URLSearchParams(filters).toString()`: each pair encoded as
      `name=value`, joined with `&`. The form encoding of names and values
      is the parameter `encode`. */
  function QueryString(params: seq<(string, string)>, encode: string -> string): (q: string)
    ensures q == "" <==> params == []
    ensures params != [] ==> |q| > |encode(params[0].0)| && q[..|encode(params[0].0)| + 1] == encode(params[0].0) + "="
  {
    if params == [] then ""
    else
      var pair := encode(params[0].0) + "=" + encode(params[0].1);
      assert pair[..|encode(params[0].0)| + 1] == encode(params[0].0) + "=";
      if |params| == 1 then pair
      else
        var q := pair + "&" + QueryString(params[1..], encode);
        assert q[..|pair|] == pair;
        q
  }

  /** `query ? url + '?' + query : url`. */
  function WithQuery(url: string, query: string): (r: string)
    ensures query == "" ==> r == url
    ensures query != "" ==> r == url + "?" + query
    ensures |r| >= |url| && r[..|url|] == url
  {
    if query != "" then url + "?" + query else url
  }

  datatype HttpMethod = Get | Post

  /** A request body: none, a JSON object of string fields (a field whose
      value is undefined is left out when serialised), or a payload the
      caller supplies. */
  datatype Body = NoBody | Fields(fields: seq<(string, JsStr)>) | Payload(json: string)

  datatype Request = Request(url: string, verb: HttpMethod, body: Body)

  /** The service's calls with their arguments. A parameter with a default
      value is a `JsStr`, so that a missing argument can be told apart. */
  datatype AdminCall =
    | GetPendingQuizzes
    | ApproveQuiz(quizId: string, feedback: JsStr)
    | RejectQuiz(quizId: string, reason: JsStr)
    | GetAllQuizzes(filters: seq<(string, string)>)
    | GetQuizDetails(quizId: string)
    | GetDashboardStats
    | GetUserAnalytics(period: JsStr)
    | GetQuizAnalytics(period: JsStr)
    | GetRevenueAnalytics(period: JsStr)
    | GetTransactions(filters: seq<(string, string)>)
    | ApproveWithdrawal(transactionId: string)
    | RejectWithdrawal(transactionId: string, reason: JsStr)
    | ProcessRefund(refundData: string)
    | GetUserDetails(userId: string)
    | SuspendUser(userId: string, reason: JsStr)
    | UnsuspendUser(userId: string)
    | GetSystemHealth
    | GetActivityLogs(filters: seq<(string, string)>)
  {
    /** The calls that change something on the server. */
    predicate IsAction() {
      ApproveQuiz? || RejectQuiz? || ApproveWithdrawal? || RejectWithdrawal?
      || ProcessRefund? || SuspendUser? || UnsuspendUser?
    }
  }

  const DefaultPeriod := "30d"

  /** `${url}?period=${period}` with `period = '30d'`. */
  function PeriodUrl(url: string, period: JsStr): (r: string)
    ensures period == Undefined ==> r == url + "?period=30d"
    ensures period.Str? ==> r == url + "?period=" + period.value
    ensures |r| >= |url| && r[..|url|] == url
  {
    url + "?period=" + Stringify(WithDefault(period, DefaultPeriod))
  }

  /** A fixed admin endpoint's URL, with its `/admin/` prefix. */
  function AdminFixedUrl(base: string, e: FixedEndpoint): (u: string)
    requires IsAdmin(e)
    ensures u == FixedUrl(base, e)
    ensures |u| >= |base| + 7 && u[..|base| + 7] == base + "/admin/"
  {
    AdminUrlsUnderAdmin(base, e, IdEndpoint.UserDetails, "");
    FixedUrl(base, e)
  }

  /** An admin id endpoint's URL, with its `/admin/` prefix. */
  function AdminIdUrl(base: string, b: IdEndpoint, id: string): (u: string)
    requires IsAdminBuilder(b)
    ensures u == IdUrl(base, b, id)
    ensures |u| >= |base| + 7 && u[..|base| + 7] == base + "/admin/"
  {
    AdminUrlsUnderAdmin(base, FixedEndpoint.Login, b, id);
    IdUrl(base, b, id)
  }

  /** The URL a call requests, for a given `BASE_URL`: always under
      `BASE_URL/admin/`. */
  function UrlFor(base: string, call: AdminCall, encode: string -> string): (u: string)
    ensures |u| >= |base| + 7 && u[..|base| + 7] == base + "/admin/"
  {
    match call
    case GetPendingQuizzes => AdminFixedUrl(base, PendingQuizzes)
    case ApproveQuiz(id, _) => AdminIdUrl(base, IdEndpoint.ApproveQuiz, id)
    case RejectQuiz(id, _) => AdminIdUrl(base, IdEndpoint.RejectQuiz, id)
    case GetAllQuizzes(filters) => WithQuery(AdminFixedUrl(base, AllQuizzes), QueryString(filters, encode))
    case GetQuizDetails(id) => AdminIdUrl(base, QuizDetails, id)
    case GetDashboardStats => AdminFixedUrl(base, DashboardStats)
    case GetUserAnalytics(period) => PeriodUrl(AdminFixedUrl(base, UserAnalytics), period)
    case GetQuizAnalytics(period) => PeriodUrl(AdminFixedUrl(base, QuizAnalytics), period)
    case GetRevenueAnalytics(period) => PeriodUrl(AdminFixedUrl(base, RevenueAnalytics), period)
    case GetTransactions(filters) => WithQuery(AdminFixedUrl(base, Transactions), QueryString(filters, encode))
    case ApproveWithdrawal(id) => AdminIdUrl(base, IdEndpoint.ApproveWithdrawal, id)
    case RejectWithdrawal(id, _) => AdminIdUrl(base, IdEndpoint.RejectWithdrawal, id)
    case ProcessRefund(_) => AdminFixedUrl(base, FixedEndpoint.ProcessRefund)
    case GetUserDetails(id) => AdminIdUrl(base, UserDetails, id)
    case SuspendUser(id, _) => AdminIdUrl(base, IdEndpoint.SuspendUser, id)
    case UnsuspendUser(id) => AdminIdUrl(base, IdEndpoint.UnsuspendUser, id)
    case GetSystemHealth => AdminFixedUrl(base, SystemHealth)
    case GetActivityLogs(filters) => WithQuery(AdminFixedUrl(base, ActivityLogs), QueryString(filters, encode))
  }

  /** The body a call sends: `{feedback}` with `feedback = ''` for an
      approval, `{reason}` for the rejections and the suspension, the refund
      data as given, and nothing otherwise. */
  function BodyFor(call: AdminCall): (b: Body)
    ensures b != NoBody ==> call.IsAction()
    ensures call.ApproveQuiz? ==> b == Fields([("feedback", WithDefault(call.feedback, ""))])
  {
    match call
    case ApproveQuiz(_, feedback) => Fields([("feedback", WithDefault(feedback, ""))])
    case RejectQuiz(_, reason) => Fields([("reason", reason)])
    case RejectWithdrawal(_, reason) => Fields([("reason", reason)])
    case SuspendUser(_, reason) => Fields([("reason", reason)])
    case ProcessRefund(data) => Payload(data)
    case _ => NoBody
  }

  /** The request a call sends: actions are POSTs, everything else uses
      `fetch`'s default GET. */
  function RequestFor(base: string, call: AdminCall, encode: string -> string): (r: Request)
    ensures |r.url| >= |base| + 7 && r.url[..|base| + 7] == base + "/admin/"
    ensures r.verb == Post <==> call.IsAction()
    ensures r.body != NoBody <==> call.IsAction() && !call.ApproveWithdrawal? && !call.UnsuspendUser?
  {
    Request(UrlFor(base, call, encode), if call.IsAction() then Post else Get, BodyFor(call))
  }

  /** The three list calls add `?query` only when there are filters. */
  lemma QueryOnlyWithFilters(base: string, filters: seq<(string, string)>, encode: string -> string)
    ensures UrlFor(base, GetAllQuizzes(filters), encode) == WithQuery(FixedUrl(base, AllQuizzes), QueryString(filters, encode))
    ensures UrlFor(base, GetTransactions(filters), encode) == WithQuery(FixedUrl(base, Transactions), QueryString(filters, encode))
    ensures UrlFor(base, GetActivityLogs(filters), encode) == WithQuery(FixedUrl(base, ActivityLogs), QueryString(filters, encode))
    ensures filters == [] ==> UrlFor(base, GetAllQuizzes(filters), encode) == FixedUrl(base, AllQuizzes)
    ensures filters != [] ==>
              UrlFor(base, GetAllQuizzes(filters), encode) == FixedUrl(base, AllQuizzes) + "?" + QueryString(filters, encode)
  {
    ListUrl(base, GetAllQuizzes(filters), encode);
    ListUrl(base, GetTransactions(filters), encode);
    ListUrl(base, GetActivityLogs(filters), encode);
  }

  /** One list call's URL, unfolded. */
  lemma ListUrl(base: string, call: AdminCall, encode: string -> string)
    requires call.GetAllQuizzes? || call.GetTransactions? || call.GetActivityLogs?
    ensures call.GetAllQuizzes? ==> UrlFor(base, call, encode) == WithQuery(FixedUrl(base, AllQuizzes), QueryString(call.filters, encode))
    ensures call.GetTransactions? ==> UrlFor(base, call, encode) == WithQuery(FixedUrl(base, Transactions), QueryString(call.filters, encode))
    ensures call.GetActivityLogs? ==> UrlFor(base, call, encode) == WithQuery(FixedUrl(base, ActivityLogs), QueryString(call.filters, encode))
  {
  }

  /** A missing period asks for the last 30 days; an explicit null is sent
      as the text "null". */
  lemma PeriodDefaults(base: string, encode: string -> string)
    ensures UrlFor(base, GetUserAnalytics(Undefined), encode) == FixedUrl(base, UserAnalytics) + "?period=30d"
    ensures UrlFor(base, GetQuizAnalytics(Undefined), encode) == FixedUrl(base, QuizAnalytics) + "?period=30d"
    ensures UrlFor(base, GetRevenueAnalytics(Undefined), encode) == FixedUrl(base, RevenueAnalytics) + "?period=30d"
    ensures UrlFor(base, GetUserAnalytics(Null), encode) == FixedUrl(base, UserAnalytics) + "?period=null"
  {
    assert UrlFor(base, GetUserAnalytics(Undefined), encode) == PeriodUrl(AdminFixedUrl(base, UserAnalytics), Undefined);
    assert UrlFor(base, GetQuizAnalytics(Undefined), encode) == PeriodUrl(AdminFixedUrl(base, QuizAnalytics), Undefined);
    assert UrlFor(base, GetRevenueAnalytics(Undefined), encode) == PeriodUrl(AdminFixedUrl(base, RevenueAnalytics), Undefined);
    assert Stringify(WithDefault(Null, DefaultPeriod)) == "null";
    assert UrlFor(base, GetUserAnalytics(Null), encode) == PeriodUrl(AdminFixedUrl(base, UserAnalytics), Null);
  }

  /** `getStatusColor`'s table, in source order. */
  const StatusColors := [
    ("approved", "green"), ("pending", "yellow"), ("rejected", "red"),
    ("active", "green"), ("suspended", "red"), ("completed", "green"), ("failed", "red")
  ]

  /** `colors[status] || 'gray'` as written: a status that names a member
      of `Object.prototype` reads that member, which is not a colour. */
  function StatusColorAsWritten(status: string): (r: Value)
    ensures r.Member? <==> status in InheritedNames
  {
    assert forall i :: 0 <= i < |StatusColors| ==> StatusColors[i].0 !in InheritedNames;
    ReadPropertyOr(StatusColors, status, "gray")
  }

  /** The status "constructor" yields the `Object` constructor itself. */
  lemma StatusColorAsWrittenLeaksPrototype()
    ensures StatusColorAsWritten("constructor") == Member("constructor")
    ensures StatusColorAsWritten("toString") == Member("toString")
  {
  }

  /** `getStatusColor`, reading only the table's own entries: the colour
      listed for a known status, gray for every other string. */
  function StatusColor(status: string): (r: string)
    ensures r == "green" || r == "yellow" || r == "red" || r == "gray"
    ensures forall i :: 0 <= i < |StatusColors| && StatusColors[i].0 == status ==> r == StatusColors[i].1
    ensures r == "gray" <==> forall i :: 0 <= i < |StatusColors| ==> StatusColors[i].0 != status
  {
    OwnPropertyOr(StatusColors, status, "gray")
  }

  /** Away from the prototype names the corrected colour is the one the
      code as written produces. */
  lemma StatusColorMatchesAsWritten(status: string)
    requires status !in InheritedNames
    ensures StatusColorAsWritten(status) == Text(StatusColor(status))
  {
    ReadsAgreeOffPrototype(StatusColors, status, "gray");
  }
}
