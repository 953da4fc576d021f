/** The endpoint table: every URL the dashboard calls is the base URL
    followed by a fixed path, or by a prefix, an id and a suffix. Ids are
    inserted as they are, without escaping. */
module ApiUrl {
  import opened JsValues

  const DefaultBaseUrl := "http://localhost:5000/dashboard/v1"

  /** `BASE_URL`: the configured API URL when it is a non-empty string,
      otherwise the local development server. */
  function BaseUrl(viteApiUrl: JsStr): (r: string)
    ensures Truthy(viteApiUrl) ==> r == viteApiUrl.value
    ensures !Truthy(viteApiUrl) ==> r == DefaultBaseUrl
    ensures r != ""
  {
    OrElse(viteApiUrl, DefaultBaseUrl)
  }

  /** The endpoints that take no id. */
  datatype FixedEndpoint =
    | Login | SignUp
    | UserList | DashboardUserList
    | ContactList
    | PendingQuizzes | AllQuizzes
    | DashboardStats | UserAnalytics | QuizAnalytics | RevenueAnalytics
    | Transactions | ProcessRefund
    | SystemHealth | ActivityLogs

  /** The endpoints built from an id. */
  datatype IdEndpoint =
    | UpdateStatus
    | ApproveQuiz | RejectQuiz | QuizDetails
    | ApproveWithdrawal | RejectWithdrawal
    | UserDetails | SuspendUser | UnsuspendUser

  predicate IsAdmin(e: FixedEndpoint) {
    !(e.Login? || e.SignUp? || e.UserList? || e.DashboardUserList? || e.ContactList?)
  }

  predicate IsAdminBuilder(b: IdEndpoint) {
    !b.UpdateStatus?
  }

  /** What a fixed endpoint appends to the base URL. */
  function FixedPath(e: FixedEndpoint): (p: string)
    ensures IsAdmin(e) ==> |p| > 7 && p[..7] == "/admin/"
    ensures !IsAdmin(e) ==> |p| > 1 && p[0] == '/' && p[1] != 'a'
  {
    match e
    case Login => "/users/login"
    case SignUp => "/users/signup"
    case UserList => "/users/userlist"
    case DashboardUserList => "/users/dashboarduserlist"
    case ContactList => "/contact"
    case PendingQuizzes => "/admin/quizzes/pending"
    case AllQuizzes => "/admin/quizzes"
    case DashboardStats => "/admin/stats"
    case UserAnalytics => "/admin/analytics/users"
    case QuizAnalytics => "/admin/analytics/quizzes"
    case RevenueAnalytics => "/admin/analytics/revenue"
    case Transactions => "/admin/transactions"
    case ProcessRefund => "/admin/transactions/refund"
    case SystemHealth => "/admin/system/health"
    case ActivityLogs => "/admin/system/logs"
  }

  /** What an id endpoint puts between the base URL and the id. */
  function Prefix(b: IdEndpoint): (p: string)
    ensures IsAdminBuilder(b) ==> |p| > 7 && p[..7] == "/admin/"
    ensures |p| > 0 && p[|p| - 1] == '/'
  {
    match b
    case UpdateStatus => "/contact/"
    case ApproveQuiz => "/admin/quizzes/"
    case RejectQuiz => "/admin/quizzes/"
    case QuizDetails => "/admin/quizzes/"
    case ApproveWithdrawal => "/admin/transactions/"
    case RejectWithdrawal => "/admin/transactions/"
    case UserDetails => "/admin/users/"
    case SuspendUser => "/admin/users/"
    case UnsuspendUser => "/admin/users/"
  }

  /** What an id endpoint appends after the id. */
  function Suffix(b: IdEndpoint): string {
    match b
    case UpdateStatus => "/status"
    case ApproveQuiz => "/approve"
    case RejectQuiz => "/reject"
    case QuizDetails => "/review"
    case ApproveWithdrawal => "/approve"
    case RejectWithdrawal => "/reject"
    case UserDetails => ""
    case SuspendUser => "/suspend"
    case UnsuspendUser => "/unsuspend"
  }

  /** The URL of a fixed endpoint: it starts with the base URL. */
  function FixedUrl(base: string, e: FixedEndpoint): (r: string)
    ensures |r| > |base| && r[..|base|] == base
    ensures IsAdmin(e) <==> |r| >= |base| + 7 && r[|base|..|base| + 7] == "/admin/"
  {
    var r := base + FixedPath(e);
    assert r[|base|..] == FixedPath(e);
    assert !IsAdmin(e) && |r| >= |base| + 7 ==> r[|base|..|base| + 7][1] != "/admin/"[1];
    r
  }

  /** The URL of an id endpoint: the base URL, the prefix, the id verbatim,
      then the suffix. */
  function IdUrl(base: string, b: IdEndpoint, id: string): (r: string)
    ensures |r| == |base| + |Prefix(b)| + |id| + |Suffix(b)|
    ensures r[..|base|] == base
    ensures r[|base|..|base| + |Prefix(b)|] == Prefix(b)
    ensures r[|base| + |Prefix(b)|..|r| - |Suffix(b)|] == id
    ensures r[|r| - |Suffix(b)|..] == Suffix(b)
  {
    base + Prefix(b) + id + Suffix(b)
  }

  /** Every admin endpoint, fixed or built, starts with `BASE_URL/admin/`. */
  lemma AdminUrlsUnderAdmin(base: string, e: FixedEndpoint, b: IdEndpoint, id: string)
    ensures IsAdmin(e) ==> FixedUrl(base, e)[..|base| + 7] == base + "/admin/"
    ensures IsAdminBuilder(b) ==> IdUrl(base, b, id)[..|base| + 7] == base + "/admin/"
  {
    if IsAdmin(e) {
      var r := FixedUrl(base, e);
      assert r[..|base| + 7] == r[..|base|] + r[|base|..|base| + 7];
    }
    if IsAdminBuilder(b) {
      var r := IdUrl(base, b, id);
      assert r[|base|..|base| + 7] == Prefix(b)[..7];
      assert r[..|base| + 7] == r[..|base|] + r[|base|..|base| + 7];
    }
  }

  /** `UPDATE_STATUS(id)` is the contact list URL, a slash, the id and
      `/status`. */
  lemma UpdateStatusExtendsContactList(base: string, id: string)
    ensures IdUrl(base, UpdateStatus, id) == FixedUrl(base, ContactList) + "/" + id + "/status"
  {
  }

  /** Approving and rejecting a quiz share `BASE_URL/admin/quizzes/<id>/`
      and differ only in the last segment. */
  lemma ApproveAndRejectDifferInLastSegment(base: string, id: string)
    ensures IdUrl(base, ApproveQuiz, id) == base + "/admin/quizzes/" + id + "/approve"
    ensures IdUrl(base, RejectQuiz, id) == base + "/admin/quizzes/" + id + "/reject"
    ensures IdUrl(base, ApproveQuiz, id) != IdUrl(base, RejectQuiz, id)
  {
    var a := IdUrl(base, ApproveQuiz, id);
    var r := IdUrl(base, RejectQuiz, id);
    assert a[|a| - 1] == 'e' && r[|r| - 1] == 't';
  }

  /** For one builder, different ids give different URLs. */
  lemma IdUrlInjective(base: string, b: IdEndpoint, id1: string, id2: string)
    requires IdUrl(base, b, id1) == IdUrl(base, b, id2)
    ensures id1 == id2
  {
    var u := IdUrl(base, b, id1);
    var v := IdUrl(base, b, id2);
    assert |id1| == |id2|;
    assert u[|base| + |Prefix(b)|..|u| - |Suffix(b)|] == id1;
    assert v[|base| + |Prefix(b)|..|v| - |Suffix(b)|] == id2;
  }

  /** Ids are not escaped: a user id that ends in `/suspend` makes the
      user-details URL the suspend URL of another id. */
  lemma IdsAreNotEscaped(base: string, id: string)
    ensures IdUrl(base, UserDetails, id + "/suspend") == IdUrl(base, SuspendUser, id)
  {
    assert base + "/admin/users/" + (id + "/suspend") + ""
        == base + "/admin/users/" + id + "/suspend";
  }
}
