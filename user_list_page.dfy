/** The users page with two tabs, "all" and "dashboard". Each tab has its
    own list; the page refetches whenever the tab changes, and the fetch
    writes the list of the tab that was active when it started. */
module UserListPage {
  import opened JsValues
  import opened Records

  const AllTab := "all"
  const DashboardTab := "dashboard"
  const FetchFailed := "Failed to fetch users"

  type ListResponse = Envelope<seq<User>>

  /** Which list a tab shows: `users` for "all", `dashboardUsers` for any
      other value. */
  function ListFor(tab: string, users: seq<User>, dashboardUsers: seq<User>): (r: seq<User>)
    ensures tab == AllTab ==> r == users
    ensures tab != AllTab ==> r == dashboardUsers
  {
    if tab == AllTab then users else dashboardUsers
  }

  class UserList {
    var users: seq<User>
    var dashboardUsers: seq<User>
    var loading: bool
    var error: JsStr
    var activeTab: string

    constructor()
      ensures users == [] && dashboardUsers == [] && loading && error == Null
      ensures activeTab == AllTab
    {
      users := [];
      dashboardUsers := [];
      loading := true;
      error := Null;
      activeTab := AllTab;
    }

    /** The list rendered under the tabs. */
    function Displayed(): (r: seq<User>)
      reads this
      ensures activeTab == AllTab ==> r == users
      ensures activeTab != AllTab ==> r == dashboardUsers
    {
      ListFor(activeTab, users, dashboardUsers)
    }

    function Shown(): (p: Panel)
      reads this
      ensures p == Content ==> !loading && !Truthy(error)
    {
      PanelFor(loading, error)
    }

    /** A tab button: sets the tab; the effect keyed on `activeTab` refetches
        only when the value actually changed. */
    method SelectTab(tab: string) returns (refetch: bool)
      modifies this
      ensures activeTab == tab
      ensures refetch <==> tab != old(activeTab)
      ensures users == old(users) && dashboardUsers == old(dashboardUsers)
      ensures loading == old(loading) && error == old(error)
    {
      refetch := tab != activeTab;
      activeTab := tab;
    }

    /** `fetchUsers` before its `await`; returns the tab its closure saw,
        which decides the endpoint and the list the answer goes to. */
    method BeginFetch() returns (tab: string)
      modifies this
      ensures tab == activeTab == old(activeTab)
      ensures loading && error == Null
      ensures users == old(users) && dashboardUsers == old(dashboardUsers)
    {
      tab := activeTab;
      loading := true;
      error := Null;
    }

    /** `fetchUsers` after its `await`, for a fetch started on `tab`:
        success writes that tab's list and only that one; a refusal stores
        the server's message; a rejected call stores a fixed message.
        Loading ends in every case. */
    method CompleteFetch(tab: string, outcome: Outcome<ListResponse>)
      modifies this
      ensures !loading
      ensures var ok := outcome.Resolved? && outcome.value.success;
              users == (if ok && tab == AllTab then outcome.value.data else old(users))
              && dashboardUsers == (if ok && tab != AllTab then outcome.value.data else old(dashboardUsers))
      ensures error == (match outcome
                        case Rejected => Str(FetchFailed)
                        case Resolved(response) => if response.success then old(error) else response.message)
      ensures activeTab == old(activeTab)
    {
      match outcome {
        case Rejected =>
          error := Str(FetchFailed);
        case Resolved(response) =>
          if tab == AllTab {
            if response.success {
              users := response.data;
            } else {
              error := response.message;
            }
          } else {
            if response.success {
              dashboardUsers := response.data;
            } else {
              error := response.message;
            }
          }
      }
      loading := false;
    }

    /** The whole fetch, settling before the tab changes again: a success
        is what the current tab then displays. */
    method Fetch(outcome: Outcome<ListResponse>)
      modifies this
      ensures !loading && activeTab == old(activeTab)
      ensures outcome.Resolved? && outcome.value.success ==>
                Displayed() == outcome.value.data && Shown() == Content
      ensures outcome.Resolved? && outcome.value.success ==>
                ListFor(if activeTab == AllTab then DashboardTab else AllTab, users, dashboardUsers)
                == ListFor(if activeTab == AllTab then DashboardTab else AllTab, old(users), old(dashboardUsers))
      ensures !(outcome.Resolved? && outcome.value.success) ==>
                users == old(users) && dashboardUsers == old(dashboardUsers)
      ensures outcome.Resolved? && !outcome.value.success ==>
                Shown() == (if Truthy(outcome.value.message) then ErrorPanel(outcome.value.message.value) else Content)
      ensures outcome.Rejected? ==> Shown() == ErrorPanel(FetchFailed)
    {
      var tab := BeginFetch();
      CompleteFetch(tab, outcome);
    }
  }
}
