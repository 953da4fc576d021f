/** The records the pages fetch, the `{success, message, data}` envelope
    every endpoint answers with, and the result of awaiting a service call. */
module Records {
  import opened JsValues

  /** A contact request (ContactList). */
  datatype Contact = Contact(
    id: string,
    name: string,
    email: string,
    subject: string,
    message: string,
    status: string,
    createdAt: string,
    updatedAt: string)

  /** A user row (UserList, DashboardUserList). */
  datatype User = User(id: string, name: string, email: string, active: bool, role: JsStr)

  datatype Question = Question(text: string, options: seq<string>, correctAnswer: int)

  /** A quiz under review (QuizManagement). `creatorName` is
      `quiz.creator?.name`: Undefined when the creator or its name is
      missing. `questions` is None when the field is missing. */
  datatype Quiz = Quiz(
    id: string,
    title: JsStr,
    creatorName: JsStr,
    category: JsStr,
    status: string,
    questions: Option<seq<Question>>,
    rejectionReason: JsStr)

  /** `{success, message, data}`. */
  datatype Envelope<T> = Envelope(success: bool, message: JsStr, data: T)

  /** What an `await` on a service call produces: the parsed body, or a
      rejection (network failure, unparsable body, or an error the service
      threw). */
  datatype Outcome<T> = Resolved(value: T) | Rejected

  /** What a list page shows: `loading ? spinner : error ? panel : table`. */
  datatype Panel = Spinner | ErrorPanel(text: string) | Content

  function PanelFor(loading: bool, error: JsStr): (p: Panel)
    ensures p == Spinner <==> loading
    ensures p.ErrorPanel? <==> !loading && Truthy(error)
    ensures p.ErrorPanel? ==> p.text == error.value
    ensures p == Content <==> !loading && !Truthy(error)
  {
    if loading then Spinner
    else if Truthy(error) then ErrorPanel(error.value)
    else Content
  }
}
