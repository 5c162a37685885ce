/**
 * The SubmissionsList page: the list loaded on mount, the "Nueva entrega" form
 * that posts a submission for a typed assignment id, and the table with each
 * submission's grade and status.
 */
module SubmissionsView {
  import opened Wrappers
  import opened Fetch
  import Numeric
  import Session

  /** A submission as the backend returns it; `grade` is `None` until graded. */
  datatype Submission = Submission(
    id: int,
    assignmentId: int,
    userId: int,
    submittedAt: int,
    grade: Option<real>)

  /** The body of the POST: `assignmentId` is `None` when `parseInt` gives `NaN`. */
  datatype NewSubmission = NewSubmission(
    userId: int,
    assignmentId: Option<int>,
    submittedAt: int,
    grade: Option<real>)

  /** The component's state: the list, the assignment-id input, the success
      message and the error ("" for none), and the two flags. */
  datatype View = View(
    submissions: seq<Submission>,
    assignmentId: string,
    message: string,
    error: string,
    isLoading: bool,
    isSubmitting: bool)

  const LoadFailedMessage: string := "Error al obtener entregas"
  const InvalidIdMessage: string := "Por favor introduce un ID de tarea válido"
  const SubmitFailedMessage: string := "Error al entregar tarea"
  const SubmittedMessage: string := "Tarea entregada con éxito"

  /** The state on mount: empty list and input, no messages, loading, not submitting. */
  function Initial(): (v: View)
    ensures v.isLoading && !v.isSubmitting
    ensures v.submissions == [] && v.assignmentId == "" && v.message == "" && v.error == ""
  {
    View([], "", "", "", true, false)
  }

  /** The end of the mount-time GET; loading stops either way. */
  function LoadSettled(v: View, o: Outcome<seq<Submission>>): (r: View)
    ensures !r.isLoading
    ensures o.Ok? ==> r.submissions == o.body && r.error == v.error
    ensures o.NotOk? ==> r.submissions == v.submissions && r.error == LoadFailedMessage
    ensures o.Failed? ==> r.submissions == v.submissions && r.error == o.message
    ensures r.assignmentId == v.assignmentId && r.message == v.message && r.isSubmitting == v.isSubmitting
  {
    match o
    case Ok(data) => v.(submissions := data, isLoading := false)
    case _ => v.(error := CaughtMessage(o, LoadFailedMessage), isLoading := false)
  }

  /** Typing in the assignment-id field. */
  function EditAssignmentId(v: View, text: string): (r: View)
    ensures r.assignmentId == text
    ensures r.(assignmentId := v.assignmentId) == v
  {
    v.(assignmentId := text)
  }

  /** What pressing "Entregar tarea" does before the response: the new state,
      and the request sent, if any. */
  datatype Submitted = Submitted(view: View, request: Option<NewSubmission>)

  /** `handleSubmit` up to the POST: clear both messages, reject an empty or
      non-numeric id, otherwise post an ungraded submission by the current
      user, stamped `now`, and stay submitting until the response. */
  function Submit(v: View, now: int): (r: Submitted)
    ensures r.view.message == ""
    ensures r.view.submissions == v.submissions && r.view.assignmentId == v.assignmentId
    ensures r.view.isLoading == v.isLoading
    ensures r.request.None? <==> !Numeric.IsIntegerText(v.assignmentId)
    ensures r.request.None? ==> r.view.error == InvalidIdMessage && !r.view.isSubmitting
    ensures r.request.Some? ==>
      && r.view.error == ""
      && r.view.isSubmitting
      && r.request.value.grade.None?
      && r.request.value.userId == Session.CurrentUserId
      && r.request.value.assignmentId == Some(Numeric.IntegerValue(v.assignmentId))
      && r.request.value.submittedAt == now
  {
    var cleared := v.(isSubmitting := true, message := "", error := "");
    if v.assignmentId == "" || !Numeric.IsIntegerText(v.assignmentId) then
      Submitted(cleared.(error := InvalidIdMessage, isSubmitting := false), None)
    else
      var request := NewSubmission(
        userId := Session.CurrentUserId,
        assignmentId := Numeric.ParseInt(v.assignmentId),
        submittedAt := now,
        grade := None);
      Submitted(cleared, Some(request))
  }

  /** The end of the POST: on success append the created record, clear the
      input and report success; otherwise keep the list and report the
      caught message. Submitting stops either way (the `finally`). */
  function SubmitSettled(v: View, o: Outcome<Submission>): (r: View)
    ensures !r.isSubmitting
    ensures r.isLoading == v.isLoading
    ensures o.Ok? ==>
      && |r.submissions| == |v.submissions| + 1
      && r.submissions[..|v.submissions|] == v.submissions
      && r.submissions[|v.submissions|] == o.body
      && r.assignmentId == ""
      && r.message == SubmittedMessage
      && r.error == v.error
    ensures !o.Ok? ==>
      && r.submissions == v.submissions
      && r.assignmentId == v.assignmentId
      && r.message == v.message
      && r.error == (if o.NotOk? then SubmitFailedMessage else o.message)
  {
    match o
    case Ok(created) =>
      v.(message := SubmittedMessage, assignmentId := "", submissions := v.submissions + [created], isSubmitting := false)
    case _ =>
      v.(error := CaughtMessage(o, SubmitFailedMessage), isSubmitting := false)
  }

  /** A submit that passes validation and then fails leaves the list as it was
      and ends with the button enabled again. */
  lemma FailedSubmitKeepsList(v: View, now: int, o: Outcome<Submission>)
    requires Submit(v, now).request.Some? && !o.Ok?
    ensures SubmitSettled(Submit(v, now).view, o).submissions == v.submissions
    ensures !SubmitSettled(Submit(v, now).view, o).isSubmitting
    ensures SubmitSettled(Submit(v, now).view, o).error != "" || (o.Failed? && o.message == "")
  {
  }

  /** A successful submit of a rendered id records the id typed, by the current
      user, ungraded, as the last row. */
  lemma SubmitThenSucceed(v: View, id: int, now: int, created: Submission)
    ensures
      var s := Submit(EditAssignmentId(v, Numeric.ShowInt(id)), now);
      && s.request == Some(NewSubmission(Session.CurrentUserId, Some(id), now, None))
      && var r := SubmitSettled(s.view, Ok(created));
      && r.submissions == v.submissions + [created]
      && r.message == SubmittedMessage && r.error == "" && !r.isSubmitting
  {
    Numeric.ParseShowInt(id);
  }

  /** The grade column: the grade, or "Sin calificar". */
  datatype GradeCell = GradeShown(grade: real) | Ungraded

  /** One table row: assignment id, submission time, grade cell, and the status
      badge's text and colours. */
  datatype Row = Row(assignmentId: int, submittedAt: int, grade: GradeCell, status: string, statusStyle: string)

  function GradeCellOf(s: Submission): GradeCell {
    if s.grade.Some? then GradeShown(s.grade.value) else Ungraded
  }

  function StatusOf(s: Submission): string {
    if s.grade.Some? then "Calificado" else "Pendiente"
  }

  function StatusStyleOf(s: Submission): string {
    if s.grade.Some? then "bg-green-100 text-green-800" else "bg-yellow-100 text-yellow-800"
  }

  /** A row's grade cell and status badge decide on the same test: a grade is
      present. The status is exactly one of two, and a shown grade is the
      submission's own. */
  function RowOf(s: Submission): (row: Row)
    ensures row.status == "Calificado" <==> s.grade.Some?
    ensures row.status == "Pendiente" <==> s.grade.None?
    ensures row.grade.GradeShown? <==> row.status == "Calificado"
    ensures row.grade.GradeShown? ==> Some(row.grade.grade) == s.grade
    ensures row.statusStyle == "bg-green-100 text-green-800" <==> row.status == "Calificado"
    ensures row.statusStyle == "bg-yellow-100 text-yellow-800" <==> row.status == "Pendiente"
    ensures row.assignmentId == s.assignmentId && row.submittedAt == s.submittedAt
  {
    Row(s.assignmentId, s.submittedAt, GradeCellOf(s), StatusOf(s), StatusStyleOf(s))
  }

  datatype Body = EmptyNotice | Table(rows: seq<Row>)

  /** The spinner while loading; otherwise the count, the two banners when
      their texts are set, the submit button (disabled and reading
      "Enviando..." while submitting), and the notice or the table. */
  datatype Screen =
    | Spinner
    | Page(
        count: nat,
        successBanner: Option<string>,
        errorBanner: Option<string>,
        buttonText: string,
        buttonDisabled: bool,
        body: Body)

  function Render(v: View): (s: Screen)
    ensures s.Spinner? <==> v.isLoading
    ensures s.Page? ==>
      && s.count == |v.submissions|
      && (s.successBanner.Some? <==> v.message != "")
      && (s.successBanner.Some? ==> s.successBanner.value == v.message)
      && (s.errorBanner.Some? <==> v.error != "")
      && (s.errorBanner.Some? ==> s.errorBanner.value == v.error)
      && (s.buttonDisabled <==> v.isSubmitting)
      && (s.buttonText == "Enviando..." <==> v.isSubmitting)
      && (!v.isSubmitting ==> s.buttonText == "Entregar tarea")
      && (s.body.EmptyNotice? <==> |v.submissions| == 0)
    ensures s.Page? && s.body.Table? ==>
      |s.body.rows| == |v.submissions| &&
      forall i :: 0 <= i < |v.submissions| ==> s.body.rows[i] == RowOf(v.submissions[i])
  {
    if v.isLoading then Spinner
    else
      Page(
        count := |v.submissions|,
        successBanner := if v.message != "" then Some(v.message) else None,
        errorBanner := if v.error != "" then Some(v.error) else None,
        buttonText := if v.isSubmitting then "Enviando..." else "Entregar tarea",
        buttonDisabled := v.isSubmitting,
        body := if |v.submissions| == 0 then EmptyNotice
                else Table(seq(|v.submissions|, i requires 0 <= i < |v.submissions| => RowOf(v.submissions[i]))))
  }

  /** The mounted page shows the spinner; after any load outcome it shows the
      page with the submit button enabled. */
  lemma LoadEndsSpinner(o: Outcome<seq<Submission>>)
    ensures Render(Initial()).Spinner?
    ensures Render(LoadSettled(Initial(), o)).Page?
    ensures !Render(LoadSettled(Initial(), o)).buttonDisabled
  {
  }

  /** On a loaded page, the button is disabled and reads "Enviando..." exactly
      when the submit sent a request, and is enabled again after any outcome. */
  lemma SubmitButtonFollowsRequest(v: View, now: int, o: Outcome<Submission>)
    requires !v.isLoading
    ensures
      var sub := Submit(v, now);
      && Render(sub.view).Page?
      && (Render(sub.view).buttonDisabled <==> sub.request.Some?)
      && (Render(sub.view).buttonText == "Enviando..." <==> sub.request.Some?)
      && !Render(SubmitSettled(sub.view, o)).buttonDisabled
      && Render(SubmitSettled(sub.view, o)).buttonText == "Entregar tarea"
  {
  }
}
