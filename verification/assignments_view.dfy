/**
 * The AssignmentsList page: the list loaded once on mount, and the screen it
 * renders, one card per assignment styled by its deadline.
 */
module AssignmentsView {
  import opened Wrappers
  import opened Fetch
  import Deadline

  datatype Assignment = Assignment(id: int, title: string, dueDate: int, subjectId: int)

  /** The component's state: the list, the error text ("" for none), and the
      loading flag. */
  datatype View = View(assignments: seq<Assignment>, error: string, isLoading: bool)

  const LoadFailedMessage: string := "Error al obtener las tareas"

  /** The state on mount: nothing loaded, no error, loading. */
  function Initial(): (v: View)
    ensures v.isLoading && v.assignments == [] && v.error == ""
  {
    View([], "", true)
  }

  /** The end of the mount-time GET: the list on success, the caught message
      otherwise; loading stops either way. */
  function LoadSettled(v: View, o: Outcome<seq<Assignment>>): (r: View)
    ensures !r.isLoading
    ensures o.Ok? ==> r.assignments == o.body && r.error == v.error
    ensures o.NotOk? ==> r.assignments == v.assignments && r.error == LoadFailedMessage
    ensures o.Failed? ==> r.assignments == v.assignments && r.error == o.message
  {
    match o
    case Ok(data) => v.(assignments := data, isLoading := false)
    case _ => v.(error := CaughtMessage(o, LoadFailedMessage), isLoading := false)
  }

  datatype CardView = CardView(title: string, subjectId: int, style: Deadline.CardStyle)

  datatype Body = EmptyNotice | Cards(cards: seq<CardView>)

  /** The spinner while loading; otherwise the count badge, the error banner
      when there is an error, and either the empty notice or the cards. */
  datatype Screen =
    | Spinner
    | Page(count: nat, errorBanner: Option<string>, body: Body)

  function CardOf(a: Assignment, now: int): CardView {
    CardView(a.title, a.subjectId, Deadline.Card(a.dueDate, now))
  }

  function Render(v: View, now: int): (s: Screen)
    ensures s.Spinner? <==> v.isLoading
    ensures s.Page? ==> s.count == |v.assignments|
    ensures s.Page? ==> (s.errorBanner.Some? <==> v.error != "")
    ensures s.Page? && s.errorBanner.Some? ==> s.errorBanner.value == v.error
    ensures s.Page? ==> (s.body.EmptyNotice? <==> |v.assignments| == 0 && v.error == "")
    ensures s.Page? && s.body.Cards? ==>
      |s.body.cards| == |v.assignments| &&
      forall i :: 0 <= i < |v.assignments| ==>
        s.body.cards[i] == CardOf(v.assignments[i], now) &&
        s.body.cards[i].title == v.assignments[i].title &&
        s.body.cards[i].subjectId == v.assignments[i].subjectId &&
        s.body.cards[i].style == Deadline.Palette(Deadline.Classify(v.assignments[i].dueDate, now))
  {
    if v.isLoading then Spinner
    else
      var banner := if v.error != "" then Some(v.error) else None;
      var body :=
        if |v.assignments| == 0 && v.error == "" then EmptyNotice
        else Cards(seq(|v.assignments|, i requires 0 <= i < |v.assignments| => CardOf(v.assignments[i], now)));
      Page(|v.assignments|, banner, body)
  }

  /** The empty notice and the error banner are never shown together: with an
      error set, the banner replaces the notice. */
  lemma EmptyNoticeExcludesError(v: View, now: int)
    requires Render(v, now).Page?
    ensures Render(v, now).body.EmptyNotice? ==> Render(v, now).errorBanner.None?
    ensures v.error != "" ==> Render(v, now).errorBanner == Some(v.error) && !Render(v, now).body.EmptyNotice?
  {
  }

  /** Mount, then any outcome of the load: the spinner is gone. */
  lemma LoadEndsSpinner(o: Outcome<seq<Assignment>>, now: int)
    ensures Render(Initial(), now).Spinner?
    ensures !Render(LoadSettled(Initial(), o), now).Spinner?
  {
  }
}
