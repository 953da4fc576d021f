/** The dashboard-users page: one fetch, a search box over names and
    emails, and a table showing each user's status and role. */
module DashboardUserListPage {
  import opened JsValues
  import opened Strings
  import opened Lists
  import opened Records

  const FetchFailed := "Failed to fetch dashboard users"

  type ListResponse = Envelope<seq<User>>

  /** The search test: the term occurs, ignoring case, in the name or the
      email. */
  predicate UserMatches(term: string, u: User) {
    IncludesFolded(u.name, term) || IncludesFolded(u.email, term)
  }

  /** `filteredUsers`: exactly the matching users, in list order. */
  function FilteredUsers(users: seq<User>, term: string): (r: seq<User>)
    ensures forall i :: 0 <= i < |r| ==> r[i] in users && UserMatches(term, r[i])
    ensures forall i :: 0 <= i < |users| && UserMatches(term, users[i]) ==> users[i] in r
    ensures IsSubsequence(r, users)
    ensures forall x :: multiset(r)[x] == if UserMatches(term, x) then multiset(users)[x] else 0
  {
    var keep := (u: User) => UserMatches(term, u);
    FilterMembers(users, keep);
    FilterIsSubsequence(users, keep);
    FilterCounts(users, keep);
    Filter(users, keep)
  }

  /** An empty search box shows every user. */
  lemma EmptyTermKeepsAll(users: seq<User>)
    ensures FilteredUsers(users, "") == users
  {
    forall i | 0 <= i < |users|
      ensures UserMatches("", users[i])
    {
      EmptyNeedleMatches(users[i].name);
    }
    FilterKeepsAll(users, (u: User) => UserMatches("", u));
  }

  /** Typing more of a name never brings back a user the shorter term had
      hidden: a user matching `term + more` also matches `term`. */
  lemma LongerTermNarrows(users: seq<User>, term: string, more: string)
    ensures forall i :: 0 <= i < |FilteredUsers(users, term + more)| ==>
              FilteredUsers(users, term + more)[i] in FilteredUsers(users, term)
  {
    forall i | 0 <= i < |FilteredUsers(users, term + more)|
      ensures FilteredUsers(users, term + more)[i] in FilteredUsers(users, term)
    {
      var u := FilteredUsers(users, term + more)[i];
      var j :| 0 <= j < |users| && users[j] == u;
      if IncludesFolded(u.name, term + more) {
        PrefixOfMatchMatches(u.name, term, more);
      } else {
        PrefixOfMatchMatches(u.email, term, more);
      }
    }
  }

  /** A field that contains `term + more` contains `term`. */
  lemma PrefixOfMatchMatches(field: string, term: string, more: string)
    requires IncludesFolded(field, term + more)
    ensures IncludesFolded(field, term)
  {
    var h := Lower(field);
    var n := Lower(term + more);
    var k :| 0 <= k <= |h| - |n| && OccursAt(h, n, k);
    LowerOfSlice(term + more, 0, |term|);
    assert (term + more)[..|term|] == term;
    assert Lower(term) == n[..|term|];
    assert |Lower(term)| == |term| <= |n|;
    assert h[k..k + |n|] == n;
    assert h[k..k + |term|] == h[k..k + |n|][..|term|];
    assert OccursAt(h, Lower(term), k);
  }

  /** `user.role || 'User'`. */
  function RoleLabel(role: JsStr): (r: string)
    ensures Truthy(role) ==> r == role.value
    ensures !Truthy(role) ==> r == "User"
    ensures r != ""
  {
    OrElse(role, "User")
  }

  /** `user.active ? 'Active' : 'Inactive'`. */
  function StatusLabel(active: bool): (r: string)
    ensures r == "Active" <==> active
    ensures r == "Inactive" <==> !active
  {
    if active then "Active" else "Inactive"
  }

  class DashboardUserList {
    var dashboardUsers: seq<User>
    var loading: bool
    var error: JsStr
    var searchTerm: string

    constructor()
      ensures dashboardUsers == [] && loading && error == Null && searchTerm == ""
    {
      dashboardUsers := [];
      loading := true;
      error := Null;
      searchTerm := "";
    }

    /** The rows the table shows. */
    function Visible(): (r: seq<User>)
      reads this
      ensures IsSubsequence(r, dashboardUsers)
      ensures searchTerm == "" ==> r == dashboardUsers
    {
      if searchTerm == "" then EmptyTermKeepsAll(dashboardUsers); FilteredUsers(dashboardUsers, searchTerm)
      else FilteredUsers(dashboardUsers, searchTerm)
    }

    function Shown(): (p: Panel)
      reads this
      ensures p == Content ==> !loading && !Truthy(error)
    {
      PanelFor(loading, error)
    }

    method SetSearchTerm(term: string)
      modifies this
      ensures searchTerm == term
      ensures dashboardUsers == old(dashboardUsers) && loading == old(loading) && error == old(error)
    {
      searchTerm := term;
    }

    /** `fetchDashboardUsers` before its `await`. */
    method BeginFetch()
      modifies this
      ensures loading && error == Null
      ensures dashboardUsers == old(dashboardUsers) && searchTerm == old(searchTerm)
    {
      loading := true;
      error := Null;
    }

    /** `fetchDashboardUsers` after its `await`: success replaces the list,
        a refusal stores the server's message and keeps the list, a
        rejected call stores a fixed message. Loading ends in every case. */
    method CompleteFetch(outcome: Outcome<ListResponse>)
      modifies this
      ensures !loading
      ensures dashboardUsers == (if outcome.Resolved? && outcome.value.success then outcome.value.data else old(dashboardUsers))
      ensures error == (match outcome
                        case Rejected => Str(FetchFailed)
                        case Resolved(response) => if response.success then old(error) else response.message)
      ensures searchTerm == old(searchTerm)
    {
      match outcome {
        case Rejected =>
          error := Str(FetchFailed);
        case Resolved(response) =>
          if response.success {
            dashboardUsers := response.data;
          } else {
            error := response.message;
          }
      }
      loading := false;
    }

    /** The whole fetch, settling before anything else happens. */
    method Fetch(outcome: Outcome<ListResponse>)
      modifies this
      ensures !loading
      ensures dashboardUsers == (if outcome.Resolved? && outcome.value.success then outcome.value.data else old(dashboardUsers))
      ensures error == (match outcome
                        case Rejected => Str(FetchFailed)
                        case Resolved(response) => if response.success then Null else response.message)
      ensures outcome.Resolved? && outcome.value.success ==> Shown() == Content
      ensures outcome.Resolved? && !outcome.value.success ==>
                Shown() == (if Truthy(outcome.value.message) then ErrorPanel(outcome.value.message.value) else Content)
      ensures outcome.Rejected? ==> Shown() == ErrorPanel(FetchFailed)
      ensures searchTerm == old(searchTerm)
    {
      BeginFetch();
      CompleteFetch(outcome);
    }
  }
}
