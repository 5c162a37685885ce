# Laredu CRM frontend decision logic, in Dafny

Laredu CRM is a small educational management application: a Laravel REST
backend and a React single-page frontend. The backend is route wiring over
resource controllers. The frontend list views fetch JSON and render it. Three
frontend components hold the only logic that can be stated exactly, and this
project models those three:

- **AssignmentsList**. It classifies each assignment's deadline against the
  current time as overdue ("Vencida"), approaching ("Próxima a vencer") or on
  track ("En plazo"). Each card's border, top stripe, badge and due-date text
  follow from that classification. The page shows a spinner, an error banner,
  an empty notice or the cards.
- **SubmissionsList**. It validates the typed assignment id and posts an
  ungraded submission by the current user. On success it appends the created
  record. It resets its flags on success and on failure. Each row shows
  "Calificado" or "Pendiente" depending on whether a grade is present.
- **MessageList**. It requires both form fields and prepends the reply on
  success. On success it clears only the content field. It decides which rows
  are "mine" (sender id 2), which carry the "Nuevo" badge, and how the
  notification banner looks.

Each component is a module. Its React state is an immutable `View` record.
Every event handler is a transition function. The network result is an input
value: `Fetch.Outcome` for the two components that check the HTTP status, and
`MessagesView.Reply` for the one that does not. A form submit has two steps.
`Submit`/`Send` give the new state and the request body, if one is sent.
`SubmitSettled`/`SendSettled` apply the response. Timestamps are integer
milliseconds, and "now" is a parameter. The current user id is the literal 2,
as in the source, defined once as `Session.CurrentUserId`.

Modules: `Wrappers` (Option), `Numeric` (decimal integer text in both
directions), `Session`, `Fetch`, `Deadline`, `AssignmentsView`,
`SubmissionsView`, `MessagesView`.

Three behaviours of the code are worth stating up front:

- The created record is added only after the server answers, never before.
- `isApproachingDeadline` also holds up to one day late, and the label hides
  this only because the overdue test runs first.
- The current user id is the literal 2; it is not read from the session.

## Model

| member | source | states |
|---|---|---|
| Deadline.DiffDays | frontend/src/components/AssignmentsList.tsx:41-42 | The day count is the least whole number of days covering `due - now`, so `DayMs*(days-1) < due-now <= DayMs*days` |
| Deadline.IsPastDeadline | frontend/src/components/AssignmentsList.tsx:47-51 | A deadline is past exactly when it lies strictly before now, so one at exactly now is not; a past deadline is at most zero rounded-up days away |
| Deadline.IsApproachingDeadline | frontend/src/components/AssignmentsList.tsx:38-44 | The rounded-up day count is in 0..3 exactly when `-1 day < due - now <= 3 days`, which includes deadlines missed by less than a day |
| Deadline.Classify | frontend/src/components/AssignmentsList.tsx:100-131 | With overdue first: overdue iff `due < now` (strict), approaching iff `0 <= due-now <= 3 days`, on track iff `due-now > 3 days`; the three are exclusive and exhaustive |
| Deadline.Card | frontend/src/components/AssignmentsList.tsx:106-140 | The border, stripe, badge colours, badge text and date-text style, each computed by its own conditional, always equal the one palette of the classified status; the badge reads "Vencida", "Próxima a vencer" or "En plazo" under the same three conditions, and the date text is red exactly when overdue |
| Deadline.DueNowIsApproaching | frontend/src/components/AssignmentsList.tsx:43-50 | A deadline equal to now is not overdue and is labelled "Próxima a vencer" |
| Deadline.LateByLessThanADay | frontend/src/components/AssignmentsList.tsx:38-51 | A deadline missed by less than a day satisfies `isApproachingDeadline`, yet the card says "Vencida" |
| Deadline.LateByADayOrMore | frontend/src/components/AssignmentsList.tsx:38-44 | A deadline missed by a full day or more is not approaching |
| Deadline.ClassifyMonotone | frontend/src/components/AssignmentsList.tsx:100-131 | For a fixed now, a later deadline never gets an earlier status (overdue < approaching < on track) |
| Deadline.ClassifyExamples | frontend/src/components/AssignmentsList.tsx:127-131 | Two days ahead is "Próxima a vencer", one hour ago is "Vencida", ten days ahead is "En plazo" |
| AssignmentsView.Initial | frontend/src/components/AssignmentsList.tsx:11-13 | On mount the list is empty, there is no error, and the page is loading |
| AssignmentsView.LoadSettled | frontend/src/components/AssignmentsList.tsx:15-35 | Loading stops on every outcome; success stores the list; a non-2xx status stores "Error al obtener las tareas"; a thrown error stores its message and keeps the list |
| AssignmentsView.Render | frontend/src/components/AssignmentsList.tsx:65-158 | Spinner iff loading; the count equals the list length; error banner iff the error is non-empty; empty notice iff the list is empty and there is no error; otherwise one card per assignment, in order, showing that assignment's title and subject id and styled by its status |
| AssignmentsView.EmptyNoticeExcludesError | frontend/src/components/AssignmentsList.tsx:82-97 | The empty notice and the error banner never appear together; with an error, the banner is shown and the notice is not |
| AssignmentsView.LoadEndsSpinner | frontend/src/components/AssignmentsList.tsx:13-71 | The mounted page shows the spinner, and after any load outcome it no longer does |
| SubmissionsView.Initial | frontend/src/components/SubmissionsList.tsx:12-17 | On mount: empty list and input, no message or error, loading, not submitting |
| SubmissionsView.LoadSettled | frontend/src/components/SubmissionsList.tsx:19-39 | Loading stops on every outcome; success stores the list; a non-2xx status stores "Error al obtener entregas"; a thrown error stores its message; the form state is untouched |
| SubmissionsView.EditAssignmentId | frontend/src/components/SubmissionsList.tsx:140 | Typing replaces the input text and changes nothing else |
| SubmissionsView.Submit | frontend/src/components/SubmissionsList.tsx:41-66 | Every submit clears the success message. An empty or non-numeric id sets "Por favor introduce un ID de tarea válido", sends nothing and ends not submitting. Otherwise the error is cleared, the form is submitting, and the posted record has user id 2, the parsed assignment id, the current time and no grade. The list and the input are unchanged |
| SubmissionsView.SubmitSettled | frontend/src/components/SubmissionsList.tsx:67-84 | Submitting ends on every outcome. Success appends the created record: earlier entries keep their order, the length grows by one, the input is cleared, and the success message is set. Failure keeps the list and input, and the error holds "Error al entregar tarea" for a non-2xx status or the thrown message |
| SubmissionsView.FailedSubmitKeepsList | frontend/src/components/SubmissionsList.tsx:67-84 | A valid submit followed by a failure leaves the list as before and the button enabled |
| SubmissionsView.SubmitThenSucceed | frontend/src/components/SubmissionsList.tsx:48-78 | Typing an id and submitting posts exactly that id, by user 2, ungraded; on success the list is the old list plus the created record, and the success message shows with no error |
| SubmissionsView.RowOf | frontend/src/components/SubmissionsList.tsx:189-208 | The assignment-id and date cells are the submission's own; the status reads "Calificado" iff a grade is present and "Pendiente" otherwise; the grade cell shows the grade by the same test, or "Sin calificar"; the badge is green exactly when graded and yellow exactly when pending |
| SubmissionsView.LoadEndsSpinner | frontend/src/components/SubmissionsList.tsx:16-93 | The mounted page shows the spinner; after any load outcome it shows the page with the button enabled |
| SubmissionsView.SubmitButtonFollowsRequest | frontend/src/components/SubmissionsList.tsx:43-84 | On a loaded page the button is disabled and reads "Enviando..." exactly when the submit sent a request, and is enabled and reads "Entregar tarea" again after any outcome |
| SubmissionsView.Render | frontend/src/components/SubmissionsList.tsx:87-215 | Spinner iff loading; the success and error banners appear iff their texts are non-empty and show those texts; the button is disabled and reads "Enviando..." iff submitting, and reads "Entregar tarea" otherwise; empty notice iff the list is empty, even when an error is shown; otherwise one row per submission, in order |
| MessagesView.Initial | frontend/src/components/MessageList.tsx:13-20 | On mount: empty list and inputs, no notification, loading |
| MessagesView.LoadSettled | frontend/src/components/MessageList.tsx:19-37 | Loading stops on every outcome; a reply becomes the list; a failure sets the error notification "Error al obtener mensajes" and keeps the list; the inputs are untouched |
| MessagesView.EditReceiverId | frontend/src/components/MessageList.tsx:134 | Typing replaces the receiver text and changes nothing else |
| MessagesView.EditContent | frontend/src/components/MessageList.tsx:148 | Typing replaces the content text and changes nothing else |
| MessagesView.Send | frontend/src/components/MessageList.tsx:40-63 | An empty receiver or content sets the error notification "Por favor complete todos los campos" and posts nothing. Otherwise the notification is cleared before the request, which carries the content and the parsed receiver id. Nothing else changes |
| MessagesView.SendSettledAsWritten | frontend/src/components/MessageList.tsx:64-83 | As the code is written, a reply is put in front of the list captured when the form was sent; content is cleared and the success notification set; a failure changes only the notification |
| MessagesView.SendSettled | frontend/src/components/MessageList.tsx:64-83 | On success the head is the reply and the tail is the previous list unchanged; content is cleared but the receiver is kept; the notification becomes the success "Mensaje enviado con éxito". On failure only the notification changes, to "Error al enviar mensaje" |
| MessagesView.ClearNotification | frontend/src/components/MessageList.tsx:74-76 | The timer's callback empties the notification and changes nothing else |
| MessagesView.SettleAllKeepsEveryReply | frontend/src/components/MessageList.tsx:66 | With the corrected update, replies to several sends leave every reply, newest first, in front of the earlier list |
| MessagesView.SettleAllAsWrittenKeepsLastOnly | frontend/src/components/MessageList.tsx:66 | As written, after several sends made from the same list, only the last reply is left in front of that list |
| MessagesView.DoubleSendLosesFirstReply | frontend/src/components/MessageList.tsx:40-83 | Two valid sends before any reply: as written, the first reply disappears from the list; the corrected update shows both |
| MessagesView.IsFromMe | frontend/src/components/MessageList.tsx:183 | A message is the user's own exactly when its sender id is 2, equivalently when the sender id's text is "2" |
| MessagesView.SenderName | frontend/src/components/MessageList.tsx:183-193 | The sender reads "Yo" iff the sender id is 2; otherwise it is "Usuario " followed by the sender id's canonical decimal text, which reads back as the sender id |
| MessagesView.AvatarText | frontend/src/components/MessageList.tsx:188-189 | The avatar reads "Yo" iff the message is mine; otherwise it is the first character of the sender id's text |
| MessagesView.ShowsNewBadge | frontend/src/components/MessageList.tsx:203-207 | "Nuevo" appears iff the message is unread and its sender is not user 2 |
| MessagesView.RowOf | frontend/src/components/MessageList.tsx:182-207 | A row is highlighted and signed "Yo" exactly for messages from user 2; otherwise its sender reads "Usuario " followed by the sender id's text and its avatar is that text's first character; it carries "Nuevo" exactly when unread and not highlighted; content and time are the message's own |
| MessagesView.OwnMessagesNeverNew | frontend/src/components/MessageList.tsx:183-207 | The user's own messages never carry "Nuevo", read or unread |
| MessagesView.Banner | frontend/src/components/MessageList.tsx:101-107 | The banner renders iff its text is non-empty, in success style iff its kind is "success", and in error style for every other kind |
| MessagesView.Render | frontend/src/components/MessageList.tsx:92-214 | The count equals the list length; the banner is the notification's banner (present iff its text is non-empty, green iff its kind is "success") and shows the notification's text; the history shows the spinner iff loading, the empty notice iff loaded and empty, and otherwise one row per message, in order |
| MessagesView.SendBanner | frontend/src/components/MessageList.tsx:43-51 | An incomplete form shows the error banner; a complete one hides the banner until the reply |
| MessagesView.SuccessBannerUntilCleared | frontend/src/components/MessageList.tsx:66-76 | After a successful send the success banner shows, and the timer's clear removes it |
| Numeric.ShowInt | frontend/src/components/MessageList.tsx:193 | An id's decimal text is integer text whose value is the id, in the canonical form `toString` prints for safe integers: no leading zero except "0" itself, and a minus sign only before a non-zero digit run |
| MessagesView.FailedLoadShowsError | frontend/src/components/MessageList.tsx:31-36 | A failed initial load shows the red banner with "Error al obtener mensajes" and the empty history notice, with no spinner |
| MessagesView.AsWrittenAgreesWhenCurrent | frontend/src/components/MessageList.tsx:66 | With one send at a time the captured list is the current one, and the update as written equals the corrected update |
| MessagesView.SendDuringLoadDropsInbox | frontend/src/components/MessageList.tsx:19-66 | A send made while the inbox loads: as written, its reply replaces the whole loaded inbox; the corrected update keeps the inbox behind the reply |
| Numeric.ParseInt | frontend/src/components/MessageList.tsx:60 | `parseInt` of the receiver text gives a number exactly for integer text, with that text's value (exact for safe integers); otherwise `NaN`, which is posted as null |
| Numeric.ShowIntInjective | frontend/src/components/MessageList.tsx:183-193 | Distinct ids never render to the same text |
| Numeric.ParseShowInt | frontend/src/components/MessageList.tsx:193 | Reading back an id's rendered text gives the id |

## Findings

| source | as written | input that shows it | evidently intended | confidence | as-written member | corrected member |
|---|---|---|---|---|---|---|
| frontend/src/components/MessageList.tsx:66 | The send handler's success callback puts the reply in front of the `messages` list the handler captured when the form was sent. The form stays enabled while a send is in flight | Press "Enviar" twice before the first reply arrives. Replies a, then b, leave the list as b followed by the captured list: a is gone from the screen (`MessagesView.DoubleSendLosesFirstReply`, `MessagesView.SettleAllAsWrittenKeepsLastOnly`). A send made while the inbox is still loading: its reply replaces the whole loaded inbox (`MessagesView.SendDuringLoadDropsInbox`) | Prepend to the list current when the reply arrives, a functional state update, which keeps every reply (`MessagesView.SettleAllKeepsEveryReply`) | medium; not executed | MessagesView.SendSettledAsWritten | MessagesView.SendSettled |

## Left out

- The backend (route wiring, the bearer-token middleware, the controllers and
  the ORM) is not part of this model. Its behaviour lives in framework code
  and controllers that are not available. Submissions have no DELETE route,
  so there is no submission delete to model.
- CoursesList, SubjectsList, Navbar, Dashboard and LogoutButton are out of
  scope. CoursesList checks for a stored token first: without one it shows
  "No token found. Please log in." and never fetches, and on an error it
  replaces the whole page with the message rather than showing a banner. The
  nav bar highlights the link equal to the current path.
- All I/O is left out: `fetch`, the `localStorage` token, HTTP status codes
  and React's render scheduling. Each request's result is an input value.
  Each handler's state updates are applied together.
- Date parsing and locale formatting are left out (`new Date(string)`,
  `toLocaleDateString`, the two date formatters). Timestamps are integer
  milliseconds, and a row carries the timestamp, not its formatted text.
- The submission grade is a `real`. Its rendering as text is not modelled.
- Deadline.DiffDays: the source divides in double-precision floating point
  before `Math.ceil`. The model uses exact integer ceiling division, which
  agrees with the source for realistic date ranges.
- Deadline.IsApproachingDeadline: the source calls `new Date()` separately in
  each classifier. The model uses one `now` for both, so it does not cover a
  clock tick between the two calls.
- SubmissionsView.Submit: `Number()` and `parseInt` are narrowed to an
  optionally signed run of decimal digits. The source also accepts
  fractions, exponents and surrounding blanks: it would post `"1.5"` as
  assignment 1, where the model rejects the text as not numeric. The posted
  id also carries the safe-integer limit stated under `Numeric.ParseInt`.
- Numeric.ParseInt: `Number()` and `parseInt` are narrowed to an optionally
  signed run of decimal digits; fractions, exponents, hexadecimal, a plus
  sign and surrounding blanks are treated as not numeric, and `parseInt`'s
  reading of a leading integer from longer text is not modelled.
  The model's ids are unbounded integers, while the source's numbers are
  doubles: the two agree only for safe integers (|id| <= 2^53 - 1). Beyond
  that `parseInt` rounds the digit run to the nearest double, where the model
  keeps the exact value.
- Numeric.ShowInt: ids are unbounded integers, and the model prints every
  one as a plain digit run. The source's `toString` agrees only for safe
  integers (|id| <= 2^53 - 1); beyond that the id is itself a rounded double, and
  from 10^21 up it switches to exponent notation (`1e+21`).
- MessagesView.Send: the receiver id is parsed with the same narrowing.
  Other texts post a null receiver, where the source's `parseInt` would read a
  leading integer. The safe-integer limit under `Numeric.ParseInt` applies too.
- MessagesView.LoadSettled: the component never checks the HTTP status, so
  any parsed body counts as a reply. The model types every reply as a message
  list. A non-list error body, which would break the source's render, is not
  modelled.
- MessagesView.SendSettled: for the same reason, a parsed error body from a
  rejected POST is treated as the sent message. The model types every reply
  as a message.
- MessagesView.SendSettled: the corrected update fixes only the send side.
  A reply that arrives before the initial load settles is still overwritten
  by the load, under both the code as written and the corrected update.
- MessagesView.ClearNotification: the three-second timer is an explicit
  event. Its timing is not modelled, including the case where it clears a
  later notification.
- SubmissionsView.SubmitSettled appends to the current list, not to the list
  the handler captured. The two are the same in the source: the form renders
  only after loading, and its button is disabled while a submit is in flight.
- Backend behaviour (create/get round trip, rejection of unauthenticated
  requests, idempotent mark-as-read, not-found on delete) is not modelled.
