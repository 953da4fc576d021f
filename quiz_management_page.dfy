/** The quiz-moderation page: a status filter that picks the list to fetch,
    a search box, a review modal with a short questions preview, and
    approve/reject actions, the rejection needing a reason of at least ten
    characters once trimmed. The async handlers are split at their `await`;
    each `Begin` method returns the service call it starts, and a settled
    call is given as an `Outcome`. */
module QuizManagementPage {
  import opened JsValues
  import opened Strings
  import opened Lists
  import opened Records
  import AdminService

  const PendingFilter := "pending"

  /** The filter buttons, in display order. */
  const FilterChoices := ["pending", "approved", "rejected", "all"]

  const MinReasonLength := 10
  const PreviewLength := 3

  /** The call `fetchQuizzes` makes: the pending list for the "pending"
      filter, otherwise the full list with `status` set to the filter
      (including the value "all"). */
  function ListCall(filter: string): (c: AdminService.AdminCall)
    ensures c == AdminService.GetPendingQuizzes <==> filter == PendingFilter
    ensures filter != PendingFilter ==> c == AdminService.GetAllQuizzes([("status", filter)])
  {
    if filter == PendingFilter then AdminService.GetPendingQuizzes
    else AdminService.GetAllQuizzes([("status", filter)])
  }

  /** What `fetchQuizzes` reads from an answer: `data` is None when it is
      missing, otherwise `data.quizzes`, None when that is missing. */
  type ListResponse = Option<Option<seq<Quiz>>>

  /** What `openQuizModal` reads: None when `data` is missing, otherwise
      `data.quiz`, None when that is missing. */
  type DetailsResponse = Option<Option<Quiz>>

  /** `quiz.field?.toLowerCase().includes(term.toLowerCase())`: a missing
      field never matches. */
  predicate FieldMatches(field: JsStr, term: string) {
    field.Str? && IncludesFolded(field.value, term)
  }

  /** The search test over title, creator name and category. */
  predicate QuizMatches(term: string, q: Quiz) {
    FieldMatches(q.title, term) || FieldMatches(q.creatorName, term) || FieldMatches(q.category, term)
  }

  /** `filteredQuizzes`: exactly the matching quizzes, in list order. */
  function FilteredQuizzes(quizzes: seq<Quiz>, term: string): (r: seq<Quiz>)
    ensures forall i :: 0 <= i < |r| ==> r[i] in quizzes && QuizMatches(term, r[i])
    ensures forall i :: 0 <= i < |quizzes| && QuizMatches(term, quizzes[i]) ==> quizzes[i] in r
    ensures IsSubsequence(r, quizzes)
    ensures forall x :: multiset(r)[x] == if QuizMatches(term, x) then multiset(quizzes)[x] else 0
  {
    var keep := (q: Quiz) => QuizMatches(term, q);
    FilterMembers(quizzes, keep);
    FilterIsSubsequence(quizzes, keep);
    FilterCounts(quizzes, keep);
    Filter(quizzes, keep)
  }

  /** With an empty search box a quiz is listed exactly when at least one
      of its three searchable fields is a string: a quiz lacking all three
      is never listed. */
  lemma EmptyTermNeedsAField(q: Quiz)
    ensures QuizMatches("", q) <==> q.title.Str? || q.creatorName.Str? || q.category.Str?
  {
    if q.title.Str? {
      EmptyNeedleMatches(q.title.value);
    }
    if q.creatorName.Str? {
      EmptyNeedleMatches(q.creatorName.value);
    }
    if q.category.Str? {
      EmptyNeedleMatches(q.category.value);
    }
  }

  /** `getStatusColor`'s table, in source order. */
  const StatusColors := [
    ("pending", "bg-yellow-100 text-yellow-800"),
    ("approved", "bg-green-100 text-green-800"),
    ("rejected", "bg-red-100 text-red-800"),
    ("draft", "bg-gray-100 text-gray-800")
  ]
  const DefaultStatusColor := "bg-gray-100 text-gray-800"

  /** `colors[status] || 'bg-gray-100 text-gray-800'` as written. */
  function StatusColorAsWritten(status: string): (r: Value)
    ensures r.Member? <==> status in InheritedNames
  {
    assert forall i :: 0 <= i < |StatusColors| ==> StatusColors[i].0 !in InheritedNames;
    ReadPropertyOr(StatusColors, status, DefaultStatusColor)
  }

  /** The status "valueOf" yields a function in place of a class list. */
  lemma StatusColorAsWrittenLeaksPrototype()
    ensures StatusColorAsWritten("valueOf") == Member("valueOf")
  {
  }

  /** `getStatusColor`, reading only the table's own entries: the class
      listed for a known status, the gray one for any other string. */
  function StatusColor(status: string): (r: string)
    ensures forall i :: 0 <= i < |StatusColors| && StatusColors[i].0 == status ==> r == StatusColors[i].1
    ensures (forall i :: 0 <= i < |StatusColors| ==> StatusColors[i].0 != status) ==> r == DefaultStatusColor
  {
    OwnPropertyOr(StatusColors, status, DefaultStatusColor)
  }

  /** Away from the prototype names the corrected colour is the one the
      code as written produces. */
  lemma StatusColorMatchesAsWritten(status: string)
    requires status !in InheritedNames
    ensures StatusColorAsWritten(status) == Text(StatusColor(status))
  {
    ReadsAgreeOffPrototype(StatusColors, status, DefaultStatusColor);
  }

  /** `quiz.questions?.length || 0`. */
  function QuestionCount(questions: Option<seq<Question>>): (n: nat)
    ensures questions.None? ==> n == 0
    ensures questions.Some? ==> n == |questions.value|
  {
    match questions
    case None => 0
    case Some(qs) => |qs|
  }

  /** `questions?.slice(0, 3)`: the first three questions, or all of them
      when there are fewer. */
  function Preview(questions: Option<seq<Question>>): (shown: seq<Question>)
    ensures |shown| <= PreviewLength && |shown| <= QuestionCount(questions)
    ensures questions.Some? ==> shown == questions.value[..|shown|]
    ensures |shown| < PreviewLength ==> |shown| == QuestionCount(questions)
  {
    match questions
    case None => []
    case Some(qs) => if |qs| <= PreviewLength then qs else qs[..PreviewLength]
  }

  /** The "... and N more questions" line: present only when there are
      more than three questions. */
  function MoreQuestions(questions: Option<seq<Question>>): (more: Option<nat>)
    ensures more.Some? <==> QuestionCount(questions) > PreviewLength
  {
    if QuestionCount(questions) > PreviewLength then Some(QuestionCount(questions) - PreviewLength) else None
  }

  /** The preview and the "more" line together account for every question. */
  lemma PreviewAccountsForAll(questions: Option<seq<Question>>)
    ensures |Preview(questions)| + MoreQuestions(questions).GetOr(0) == QuestionCount(questions)
  {
  }

  /** The confirm guard, `reason.trim().length >= 10`: the trimmed reason
      has at least ten UTF-16 code units. */
  predicate ReasonAccepted(reason: string) {
    Utf16Length(Trim(reason)) >= MinReasonLength
  }

  /** The length is counted in code units, not characters: five characters
      outside the Basic Multilingual Plane make an accepted reason. */
  lemma AstralReasonAccepted()
    ensures var reason := "\U{1F600}\U{1F600}\U{1F600}\U{1F600}\U{1F600}";
            |Trim(reason)| == 5 && ReasonAccepted(reason)
  {
    var reason := "\U{1F600}\U{1F600}\U{1F600}\U{1F600}\U{1F600}";
    assert LeadingBlanks(reason) == 0;
    assert TrailingBlanks(reason) == 0;
    assert Trim(reason) == reason;
  }

  /** `!reason.trim()`: the guard of the reject handler. */
  predicate ReasonBlank(reason: string) {
    Trim(reason) == ""
  }

  /** A reason the confirm button accepts always passes the handler's own
      check, so that check never fires from the modal; a blank reason is one
      made only of whitespace. */
  lemma AcceptedReasonIsNotBlank(reason: string)
    ensures ReasonAccepted(reason) ==> !ReasonBlank(reason)
    ensures ReasonBlank(reason) <==> AllWhitespace(reason)
  {
    TrimEmptyIffBlank(reason);
  }

  /** The confirm button is disabled while an action runs or while the
      reason is too short. */
  function ConfirmDisabled(actionLoading: bool, reason: string): (disabled: bool)
    ensures !disabled <==> !actionLoading && ReasonAccepted(reason)
  {
    actionLoading || Utf16Length(Trim(reason)) < MinReasonLength
  }

  /** The buttons a table row offers. */
  datatype RowActions = RowActions(review: bool, approve: bool, reject: bool)

  /** Every row can be reviewed; Approve and Reject appear only on a
      pending quiz. The row's Reject opens the review modal. */
  function ActionsFor(q: Quiz): (a: RowActions)
    ensures a.review
    ensures a.approve <==> q.status == PendingFilter
    ensures a.reject <==> q.status == PendingFilter
  {
    var pending := q.status == PendingFilter;
    RowActions(true, pending, pending)
  }

  /** The review modal offers Approve Quiz and Reject Quiz only for a
      pending quiz, and shows the rejection reason only for a rejected quiz
      that has one. */
  function ModalOffersModeration(q: Quiz): (offered: bool)
    ensures offered <==> ActionsFor(q).approve
  {
    q.status == PendingFilter
  }

  function ShowsRejectionReason(q: Quiz): (shown: bool)
    ensures shown <==> q.status == "rejected" && Truthy(q.rejectionReason)
    ensures shown ==> !ModalOffersModeration(q)
  {
    q.status == "rejected" && Truthy(q.rejectionReason)
  }

  /** The page's nine pieces of hook state, read together so that a handler
      can say which of them it sets and that the rest stay as they were. */
  datatype PageState = PageState(
    quizzes: seq<Quiz>, loading: bool, filter: string, searchTerm: string,
    selectedQuiz: Option<Quiz>, showQuizModal: bool, showRejectModal: bool,
    rejectionReason: string, actionLoading: bool)

  class QuizManagement {
    var quizzes: seq<Quiz>
    var loading: bool
    var filter: string
    var searchTerm: string
    var selectedQuiz: Option<Quiz>
    var showQuizModal: bool
    var showRejectModal: bool
    var rejectionReason: string
    var actionLoading: bool

    /** The first render: the pending filter, loading, nothing selected. */
    constructor()
      ensures quizzes == [] && loading && filter == PendingFilter && searchTerm == ""
      ensures selectedQuiz == None && !showQuizModal && !showRejectModal
      ensures rejectionReason == "" && !actionLoading
    {
      quizzes := [];
      loading := true;
      filter := PendingFilter;
      searchTerm := "";
      selectedQuiz := None;
      showQuizModal := false;
      showRejectModal := false;
      rejectionReason := "";
      actionLoading := false;
    }

    function State(): PageState
      reads this
    {
      PageState(quizzes, loading, filter, searchTerm, selectedQuiz,
                showQuizModal, showRejectModal, rejectionReason, actionLoading)
    }

    /** The rows of the table. */
    function Visible(): (r: seq<Quiz>)
      reads this
      ensures IsSubsequence(r, quizzes)
      ensures forall i :: 0 <= i < |r| ==> QuizMatches(searchTerm, r[i])
    {
      FilteredQuizzes(quizzes, searchTerm)
    }

    /** The review modal renders only with a quiz selected. */
    predicate QuizModalShown()
      reads this
    {
      showQuizModal && selectedQuiz.Some?
    }

    predicate RejectModalShown()
      reads this
    {
      showRejectModal && selectedQuiz.Some?
    }

    /** A filter button: the effect keyed on `filter` refetches only when
        the value changed. */
    method SetFilter(choice: string) returns (refetch: bool)
      modifies this
      ensures refetch <==> choice != old(filter)
      ensures State() == old(State()).(filter := choice)
    {
      refetch := choice != filter;
      filter := choice;
    }

    method SetSearchTerm(term: string)
      modifies this
      ensures State() == old(State()).(searchTerm := term)
    {
      searchTerm := term;
    }

    /** `fetchQuizzes` before its `await`: show the spinner and start the
        call the current filter selects. */
    method BeginFetch() returns (call: AdminService.AdminCall)
      modifies this
      ensures call == ListCall(old(filter))
      ensures State() == old(State()).(loading := true)
    {
      loading := true;
      call := ListCall(filter);
    }

    /** `fetchQuizzes` after its `await`: store `data.quizzes`, or the
        empty list when that is missing. A missing `data` throws and, like a
        rejected call, leaves the list as it was. Loading ends in every case. */
    method CompleteFetch(outcome: Outcome<ListResponse>)
      modifies this
      ensures State() == old(State()).(
                loading := false,
                quizzes := if outcome.Resolved? && outcome.value.Some?
                           then outcome.value.value.GetOr([]) else old(quizzes))
    {
      match outcome {
        case Rejected =>
        case Resolved(data) =>
          match data {
            case None =>
            case Some(list) =>
              quizzes := list.GetOr([]);
          }
      }
      loading := false;
    }

    /** `handleApproveQuiz(id)` before its `await`: the feedback takes its
        default, the empty string. */
    method BeginApprove(quizId: string) returns (call: AdminService.AdminCall)
      modifies this
      ensures call == AdminService.ApproveQuiz(quizId, Str(""))
      ensures State() == old(State()).(actionLoading := true)
    {
      actionLoading := true;
      call := AdminService.ApproveQuiz(quizId, Str(""));
    }

    /** An Approve button, in a table row or in the review modal. Both are
        disabled while an action runs, and then a click does nothing. */
    method ApproveClick(quizId: string) returns (call: Option<AdminService.AdminCall>)
      modifies this
      ensures call.Some? <==> !old(actionLoading)
      ensures call.Some? ==> call.value == AdminService.ApproveQuiz(quizId, Str(""))
      ensures State() == if old(actionLoading) then old(State()) else old(State()).(actionLoading := true)
    {
      if actionLoading {
        return None;
      }
      var c := BeginApprove(quizId);
      call := Some(c);
    }

    /** `handleRejectQuiz(id, reason)` before its `await`: a blank reason
        returns at once, changing nothing and calling nothing; otherwise the
        untrimmed reason is sent. */
    method BeginReject(quizId: string, reason: string) returns (call: Option<AdminService.AdminCall>)
      modifies this
      ensures call.Some? <==> !ReasonBlank(reason)
      ensures call.Some? ==> call.value == AdminService.RejectQuiz(quizId, Str(reason))
      ensures State() == if call.Some? then old(State()).(actionLoading := true) else old(State())
    {
      if ReasonBlank(reason) {
        return None;
      }
      actionLoading := true;
      call := Some(AdminService.RejectQuiz(quizId, Str(reason)));
    }

    /** Approve or reject after its `await`: on success the list is fetched
        again (not awaited: only its first step runs here) and the review
        modal closes; on failure only the action flag changes. The action
        flag is cleared either way. */
    method CompleteModeration(outcome: Outcome<()>) returns (refetch: Option<AdminService.AdminCall>)
      modifies this
      ensures refetch.Some? <==> outcome.Resolved?
      ensures outcome.Resolved? ==>
                refetch.value == ListCall(old(filter))
                && State() == old(State()).(loading := true, showQuizModal := false, actionLoading := false)
      ensures outcome.Rejected? ==> State() == old(State()).(actionLoading := false)
    {
      refetch := None;
      if outcome.Resolved? {
        var call := BeginFetch();
        refetch := Some(call);
        showQuizModal := false;
      }
      actionLoading := false;
    }

    /** `openQuizModal(quiz)` after its `await`: the answer's `data.quiz`
        becomes the selection (possibly none) and the modal opens; a missing
        `data` or a rejected call changes nothing. */
    method CompleteOpenQuizModal(outcome: Outcome<DetailsResponse>)
      modifies this
      ensures State() == if outcome.Resolved? && outcome.value.Some?
                         then old(State()).(selectedQuiz := outcome.value.value, showQuizModal := true)
                         else old(State())
    {
      if outcome.Resolved? && outcome.value.Some? {
        selectedQuiz := outcome.value.value;
        showQuizModal := true;
      }
    }

    /** The modal's close button. */
    method CloseQuizModal()
      modifies this
      ensures State() == old(State()).(showQuizModal := false)
    {
      showQuizModal := false;
    }

    /** Reject Quiz in the review modal opens the reason dialog. The
        button is disabled while an action runs, so a click then does
        nothing. */
    method OpenRejectModal()
      modifies this
      ensures State() == if old(actionLoading) then old(State()) else old(State()).(showRejectModal := true)
    {
      if !actionLoading {
        showRejectModal := true;
      }
    }

    method SetRejectionReason(reason: string)
      modifies this
      ensures State() == old(State()).(rejectionReason := reason)
    {
      rejectionReason := reason;
    }

    /** The dialog's close button, which is never disabled: hide the
        dialog and forget the reason. */
    method CloseRejectModal()
      modifies this
      ensures State() == old(State()).(showRejectModal := false, rejectionReason := "")
    {
      showRejectModal := false;
      rejectionReason := "";
    }

    /** Cancel: the same as the close button, but disabled while an action
        runs, when a click does nothing. */
    method CancelRejection()
      modifies this
      ensures State() == if old(actionLoading) then old(State())
                         else old(State()).(showRejectModal := false, rejectionReason := "")
    {
      if !actionLoading {
        CloseRejectModal();
      }
    }

    /** Confirm Rejection, pressed in the shown dialog. The button is
        disabled while an action runs or while the reason is too short, and
        then a click does nothing. Otherwise it starts the rejection of the
        selected quiz with the reason as typed, closes the dialog and clears
        the reason. */
    method ConfirmRejection() returns (call: Option<AdminService.AdminCall>)
      requires RejectModalShown()
      modifies this
      ensures call.Some? <==> !ConfirmDisabled(old(actionLoading), old(rejectionReason))
      ensures call.Some? ==>
                call.value == AdminService.RejectQuiz(old(selectedQuiz).value.id, Str(old(rejectionReason)))
                && State() == old(State()).(actionLoading := true, showRejectModal := false, rejectionReason := "")
      ensures call.None? ==> State() == old(State())
    {
      if ConfirmDisabled(actionLoading, rejectionReason) {
        return None;
      }
      AcceptedReasonIsNotBlank(rejectionReason);
      call := BeginReject(selectedQuiz.value.id, rejectionReason);
      showRejectModal := false;
      rejectionReason := "";
    }
  }
}
