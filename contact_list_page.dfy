/** The contact-requests page: it fetches the list once, lets the admin set
    each request's status, and narrows the table with a search box. The
    async handlers are split at their `await`; a settled service call is
    given as an `Outcome`. */
module ContactListPage {
  import opened JsValues
  import opened Strings
  import opened Lists
  import opened Records

  const FetchFailed := "Failed to fetch contact requests"

  /** What the list endpoint answers with. */
  type ListResponse = Envelope<seq<Contact>>

  /** What the status endpoint answers with; its `data` is not read. */
  type StatusResponse = Envelope<()>

  /** `contacts.map(c => c._id === id ? {...c, status} : c)`: the contacts
      with that id get the new status; every other contact, and every other
      field, stays as it was. */
  function WithStatus(contacts: seq<Contact>, id: string, status: string): (r: seq<Contact>)
    ensures |r| == |contacts|
    ensures forall i :: 0 <= i < |r| && contacts[i].id != id ==> r[i] == contacts[i]
    ensures forall i :: 0 <= i < |r| && contacts[i].id == id ==>
              r[i].status == status && r[i].(status := contacts[i].status) == contacts[i]
    ensures forall i :: 0 <= i < |r| ==> r[i].id == contacts[i].id
  {
    seq(|contacts|, i requires 0 <= i < |contacts| =>
      if contacts[i].id == id then contacts[i].(status := status) else contacts[i])
  }

  /** Setting a status twice keeps the second one. */
  lemma LastStatusWins(contacts: seq<Contact>, id: string, first: string, second: string)
    ensures WithStatus(WithStatus(contacts, id, first), id, second) == WithStatus(contacts, id, second)
  {
  }

  /** Status updates of two different requests can land in either order. */
  lemma UpdatesOfDistinctIdsCommute(contacts: seq<Contact>, id1: string, s1: string, id2: string, s2: string)
    requires id1 != id2
    ensures WithStatus(WithStatus(contacts, id1, s1), id2, s2)
         == WithStatus(WithStatus(contacts, id2, s2), id1, s1)
  {
  }

  /** An id that names no contact changes nothing. */
  lemma UnknownIdChangesNothing(contacts: seq<Contact>, id: string, status: string)
    requires forall i :: 0 <= i < |contacts| ==> contacts[i].id != id
    ensures WithStatus(contacts, id, status) == contacts
  {
  }

  /** The search test: the term occurs, ignoring case, in the name, the
      email or the subject. */
  predicate ContactMatches(term: string, c: Contact) {
    IncludesFolded(c.name, term) || IncludesFolded(c.email, term) || IncludesFolded(c.subject, term)
  }

  /** `filteredContacts`: exactly the matching contacts, in list order. */
  function FilteredContacts(contacts: seq<Contact>, term: string): (r: seq<Contact>)
    ensures forall i :: 0 <= i < |r| ==> r[i] in contacts && ContactMatches(term, r[i])
    ensures forall i :: 0 <= i < |contacts| && ContactMatches(term, contacts[i]) ==> contacts[i] in r
    ensures IsSubsequence(r, contacts)
    ensures forall x :: multiset(r)[x] == if ContactMatches(term, x) then multiset(contacts)[x] else 0
  {
    var keep := (c: Contact) => ContactMatches(term, c);
    FilterMembers(contacts, keep);
    FilterIsSubsequence(contacts, keep);
    FilterCounts(contacts, keep);
    Filter(contacts, keep)
  }

  /** An empty search box shows every contact. */
  lemma EmptyTermKeepsAll(contacts: seq<Contact>)
    ensures FilteredContacts(contacts, "") == contacts
  {
    forall i | 0 <= i < |contacts|
      ensures ContactMatches("", contacts[i])
    {
      EmptyNeedleMatches(contacts[i].name);
    }
    FilterKeepsAll(contacts, (c: Contact) => ContactMatches("", c));
  }

  /** The request statuses the page knows, in the order of its switch. */
  const KnownStatuses := ["pending", "in-progress", "resolved"]
  const BadgeColors := [
    "bg-gradient-to-r from-yellow-400 to-orange-500 text-white",
    "bg-gradient-to-r from-blue-400 to-cyan-500 text-white",
    "bg-gradient-to-r from-green-400 to-emerald-500 text-white"
  ]
  const DefaultBadgeColor := "bg-gradient-to-r from-gray-400 to-gray-500 text-white"

  /** `getStatusBadgeColor`: the colour listed for a known status, the gray
      default for anything else. */
  function StatusBadgeColor(status: string): (r: string)
    ensures forall k :: 0 <= k < |KnownStatuses| && status == KnownStatuses[k] ==> r == BadgeColors[k]
    ensures r == DefaultBadgeColor <==> status !in KnownStatuses
  {
    if status == "pending" then "bg-gradient-to-r from-yellow-400 to-orange-500 text-white"
    else if status == "in-progress" then "bg-gradient-to-r from-blue-400 to-cyan-500 text-white"
    else if status == "resolved" then "bg-gradient-to-r from-green-400 to-emerald-500 text-white"
    else "bg-gradient-to-r from-gray-400 to-gray-500 text-white"
  }

  /** Different known statuses get different badges. */
  lemma BadgeColorsDistinct(s: string, t: string)
    requires s in KnownStatuses && t in KnownStatuses && s != t
    ensures StatusBadgeColor(s) != StatusBadgeColor(t)
  {
    var k :| 0 <= k < |KnownStatuses| && KnownStatuses[k] == s;
    var m :| 0 <= m < |KnownStatuses| && KnownStatuses[m] == t;
  }

  const AvatarGradients := [
    "from-blue-500 to-cyan-500",
    "from-purple-500 to-pink-500",
    "from-green-500 to-emerald-500",
    "from-orange-500 to-red-500"
  ]

  /** The avatar colour of the row at `index`: one of four, by `index % 4`. */
  function AvatarGradient(index: nat): (r: string)
    ensures r == AvatarGradients[index % 4]
  {
    if index % 4 == 0 then "from-blue-500 to-cyan-500"
    else if index % 4 == 1 then "from-purple-500 to-pink-500"
    else if index % 4 == 2 then "from-green-500 to-emerald-500"
    else "from-orange-500 to-red-500"
  }

  /** The colours cycle with period four, and neighbouring rows differ. */
  lemma AvatarGradientCycles(index: nat)
    ensures AvatarGradient(index + 4) == AvatarGradient(index)
    ensures AvatarGradient(index + 1) != AvatarGradient(index)
  {
  }

  class ContactList {
    var contacts: seq<Contact>
    var loading: bool
    var error: JsStr
    var searchTerm: string

    /** The first render: no contacts, loading, no error, empty search. */
    constructor()
      ensures contacts == [] && loading && error == Null && searchTerm == ""
    {
      contacts := [];
      loading := true;
      error := Null;
      searchTerm := "";
    }

    /** The rows the table shows. */
    function Visible(): (r: seq<Contact>)
      reads this
      ensures IsSubsequence(r, contacts)
      ensures searchTerm == "" ==> r == contacts
    {
      if searchTerm == "" then EmptyTermKeepsAll(contacts); FilteredContacts(contacts, searchTerm)
      else FilteredContacts(contacts, searchTerm)
    }

    /** Spinner, error panel or table. */
    function Shown(): (p: Panel)
      reads this
      ensures p == Content ==> !loading && !Truthy(error)
    {
      PanelFor(loading, error)
    }

    method SetSearchTerm(term: string)
      modifies this
      ensures searchTerm == term
      ensures contacts == old(contacts) && loading == old(loading) && error == old(error)
    {
      searchTerm := term;
    }

    /** `fetchContacts` before its `await`. */
    method BeginFetch()
      modifies this
      ensures loading && error == Null
      ensures contacts == old(contacts) && searchTerm == old(searchTerm)
    {
      loading := true;
      error := Null;
    }

    /** `fetchContacts` after its `await`: success replaces the list;
        a refusal stores the server's message as it is (an absent message
        leaves no error to show); a rejected call stores a fixed message.
        Loading ends in every case. */
    method CompleteFetch(outcome: Outcome<ListResponse>)
      modifies this
      ensures !loading
      ensures contacts == (if outcome.Resolved? && outcome.value.success then outcome.value.data else old(contacts))
      ensures error == (match outcome
                        case Rejected => Str(FetchFailed)
                        case Resolved(response) => if response.success then old(error) else response.message)
      ensures searchTerm == old(searchTerm)
    {
      match outcome {
        case Rejected =>
          error := Str(FetchFailed);
        case Resolved(response) =>
          if response.success {
            contacts := response.data;
          } else {
            error := response.message;
          }
      }
      loading := false;
    }

    /** The whole fetch, settling before anything else happens. */
    method Fetch(outcome: Outcome<ListResponse>)
      modifies this
      ensures !loading
      ensures contacts == (if outcome.Resolved? && outcome.value.success then outcome.value.data else old(contacts))
      ensures error == (match outcome
                        case Rejected => Str(FetchFailed)
                        case Resolved(response) => if response.success then Null else response.message)
      ensures outcome.Resolved? && outcome.value.success ==> Shown() == Content
      ensures outcome.Resolved? && !outcome.value.success ==>
                Shown() == (if Truthy(outcome.value.message) then ErrorPanel(outcome.value.message.value) else Content)
      ensures outcome.Rejected? ==> Shown() == ErrorPanel(FetchFailed)
      ensures searchTerm == old(searchTerm)
    {
      BeginFetch();
      CompleteFetch(outcome);
    }

    /** `handleStatusUpdate(id, status)` once the call settles: only a
        successful answer changes the list, and then only the status of the
        contacts with that id. */
    method HandleStatusUpdate(id: string, status: string, outcome: Outcome<StatusResponse>)
      modifies this
      ensures contacts == (if outcome.Resolved? && outcome.value.success
                           then WithStatus(old(contacts), id, status) else old(contacts))
      ensures |contacts| == |old(contacts)|
      ensures loading == old(loading) && error == old(error) && searchTerm == old(searchTerm)
    {
      if outcome.Resolved? && outcome.value.success {
        contacts := WithStatus(contacts, id, status);
      }
    }
  }
}
