/**
 * The MessageList page: the inbox loaded on mount, the "Nuevo Mensaje" form,
 * the notification banner, and the history rows with their "from me" and
 * "Nuevo" marks.
 */
module MessagesView {
  import opened Wrappers
  import Numeric
  import Session

  datatype Message = Message(
    id: int,
    senderId: int,
    receiverId: int,
    content: string,
    isRead: bool,
    createdAt: int)

  /** The banner's text and kind; the empty text means no banner. */
  datatype Notification = Notification(message: string, kind: string)

  const Cleared: Notification := Notification("", "")
  const LoadFailed: Notification := Notification("Error al obtener mensajes", "error")
  const FieldsMissing: Notification := Notification("Por favor complete todos los campos", "error")
  const SendFailed: Notification := Notification("Error al enviar mensaje", "error")
  const SendSucceeded: Notification := Notification("Mensaje enviado con éxito", "success")

  /** The component's state: the list, the two inputs, the notification and
      the loading flag. */
  datatype View = View(
    messages: seq<Message>,
    receiverId: string,
    content: string,
    notification: Notification,
    isLoading: bool)

  /** How a request of this component ends. The component never looks at the
      HTTP status: any body that parses is `Delivered`; a thrown error is
      `Failed`, whose message the component ignores. */
  datatype Reply<T> = Delivered(body: T) | Failed

  /** The body of the POST: `receiverId` is `None` when `parseInt` gives `NaN`. */
  datatype OutgoingMessage = OutgoingMessage(receiverId: Option<int>, content: string)

  /** The state on mount: nothing loaded, empty inputs, no notification, loading. */
  function Initial(): (v: View)
    ensures v.isLoading && v.messages == [] && v.notification == Cleared
    ensures v.receiverId == "" && v.content == ""
  {
    View([], "", "", Cleared, true)
  }

  /** The end of the mount-time GET: the list, or an error notification with
      the list left as it was; loading stops either way. */
  function LoadSettled(v: View, r: Reply<seq<Message>>): (w: View)
    ensures !w.isLoading
    ensures r.Delivered? ==> w.messages == r.body && w.notification == v.notification
    ensures r.Failed? ==> w.messages == v.messages && w.notification == LoadFailed
    ensures w.receiverId == v.receiverId && w.content == v.content
  {
    match r
    case Delivered(data) => v.(messages := data, isLoading := false)
    case Failed => v.(notification := LoadFailed, isLoading := false)
  }

  function EditReceiverId(v: View, text: string): (w: View)
    ensures w.receiverId == text
    ensures w.(receiverId := v.receiverId) == v
  {
    v.(receiverId := text)
  }

  function EditContent(v: View, text: string): (w: View)
    ensures w.content == text
    ensures w.(content := v.content) == v
  {
    v.(content := text)
  }

  /** What pressing "Enviar" does before the response: the new state, and the
      request sent, if any. */
  datatype Sent = Sent(view: View, request: Option<OutgoingMessage>)

  /** `handleSendMessage` up to the POST: both fields are required; a valid
      form clears the notification and posts the typed content. Nothing else
      of the state changes. */
  function Send(v: View): (s: Sent)
    ensures s.request.None? <==> v.receiverId == "" || v.content == ""
    ensures s.request.None? ==> s.view == v.(notification := FieldsMissing)
    ensures s.request.Some? ==> s.view == v.(notification := Cleared)
    ensures s.request.Some? ==>
      && s.request.value.content == v.content
      && (s.request.value.receiverId.Some? <==> Numeric.IsIntegerText(v.receiverId))
      && (s.request.value.receiverId.Some? ==>
            s.request.value.receiverId.value == Numeric.IntegerValue(v.receiverId))
  {
    if v.receiverId == "" || v.content == "" then
      Sent(v.(notification := FieldsMissing), None)
    else
      Sent(v.(notification := Cleared), Some(OutgoingMessage(Numeric.ParseInt(v.receiverId), v.content)))
  }

  /** The end of the POST as the component writes it: the reply is put in
      front of `captured`, the list the handler saw when the form was sent,
      not the list current when the reply arrives. */
  function SendSettledAsWritten(v: View, captured: seq<Message>, r: Reply<Message>): (w: View)
    ensures r.Delivered? ==> w.messages == [r.body] + captured
    ensures r.Delivered? ==> w.content == "" && w.notification == SendSucceeded
    ensures r.Failed? ==> w == v.(notification := SendFailed)
    ensures w.receiverId == v.receiverId && w.isLoading == v.isLoading
  {
    match r
    case Delivered(data) => v.(messages := [data] + captured, content := "", notification := SendSucceeded)
    case Failed => v.(notification := SendFailed)
  }

  /** The end of the POST, prepending to the current list. On success the
      head is the reply and the tail the list unchanged; content is cleared,
      the receiver kept. On failure only the notification changes. */
  function SendSettled(v: View, r: Reply<Message>): (w: View)
    ensures r.Delivered? ==> |w.messages| == |v.messages| + 1 && w.messages[0] == r.body && w.messages[1..] == v.messages
    ensures r.Delivered? ==> w.content == "" && w.notification == SendSucceeded
    ensures r.Failed? ==> w == v.(notification := SendFailed)
    ensures w.receiverId == v.receiverId && w.isLoading == v.isLoading
  {
    match r
    case Delivered(data) => v.(messages := [data] + v.messages, content := "", notification := SendSucceeded)
    case Failed => v.(notification := SendFailed)
  }

  /** The timer that fires three seconds after a successful send. */
  function ClearNotification(v: View): (w: View)
    ensures w.notification == Cleared
    ensures w.(notification := v.notification) == v
  {
    v.(notification := Cleared)
  }

  function Reverse<T>(s: seq<T>): (r: seq<T>)
    ensures |r| == |s|
    ensures forall i :: 0 <= i < |s| ==> r[i] == s[|s| - 1 - i]
  {
    if s == [] then [] else Reverse(s[1..]) + [s[0]]
  }

  /** Replies to several sends arriving in order, each applied with
      `SendSettled`. */
  function SettleAll(v: View, replies: seq<Message>): View
    decreases |replies|
  {
    if replies == [] then v else SettleAll(SendSettled(v, Delivered(replies[0])), replies[1..])
  }

  /** The same replies applied as the component writes it, every handler having
      captured the list of the moment all the sends were made. */
  function SettleAllAsWritten(v: View, captured: seq<Message>, replies: seq<Message>): View
    decreases |replies|
  {
    if replies == [] then v
    else SettleAllAsWritten(SendSettledAsWritten(v, captured, Delivered(replies[0])), captured, replies[1..])
  }

  /** Prepending to the current list keeps every reply, newest first, in
      front of the list as it was. */
  lemma {:induction false} SettleAllKeepsEveryReply(v: View, replies: seq<Message>)
    ensures SettleAll(v, replies).messages == Reverse(replies) + v.messages
    decreases |replies|
  {
    if replies != [] {
      var v' := SendSettled(v, Delivered(replies[0]));
      SettleAllKeepsEveryReply(v', replies[1..]);
      assert v'.messages == [replies[0]] + v.messages;
      calc {
        SettleAll(v, replies).messages;
        Reverse(replies[1..]) + v'.messages;
        Reverse(replies[1..]) + ([replies[0]] + v.messages);
        (Reverse(replies[1..]) + [replies[0]]) + v.messages;
        Reverse(replies) + v.messages;
      }
    }
  }

  /** As written, only the last reply survives in front of the captured list. */
  lemma {:induction false} SettleAllAsWrittenKeepsLastOnly(v: View, captured: seq<Message>, replies: seq<Message>)
    requires replies != []
    ensures SettleAllAsWritten(v, captured, replies).messages == [replies[|replies| - 1]] + captured
    decreases |replies|
  {
    var v' := SendSettledAsWritten(v, captured, Delivered(replies[0]));
    if |replies| > 1 {
      SettleAllAsWrittenKeepsLastOnly(v', captured, replies[1..]);
      assert replies[1..][|replies[1..]| - 1] == replies[|replies| - 1];
    }
  }

  /** Two sends made before either reply arrives, the message list not loaded
      yet or empty: as written, the first reply vanishes from the list; the
      corrected update shows both, newest first. */
  lemma DoubleSendLosesFirstReply(a: Message, b: Message)
    requires a != b
    ensures
      var v := EditContent(EditReceiverId(LoadSettled(Initial(), Delivered([])), "3"), "hola");
      var first := Send(v);
      var second := Send(first.view);
      && first.request.Some? && second.request.Some?
      && var asWritten := SendSettledAsWritten(
           SendSettledAsWritten(second.view, v.messages, Delivered(a)), first.view.messages, Delivered(b));
      && var corrected := SendSettled(SendSettled(second.view, Delivered(a)), Delivered(b));
      && asWritten.messages == [b] && a !in asWritten.messages
      && corrected.messages == [b, a]
  {
  }

  /** Whether the row's sender is the signed-in user: the sender id is 2, and
      equally, the sender id's text is "2". */
  function IsFromMe(m: Message): (fromMe: bool)
    ensures fromMe <==> m.senderId == Session.CurrentUserId
    ensures fromMe <==> Numeric.ShowInt(m.senderId) == "2"
  {
    assert Numeric.ShowInt(Session.CurrentUserId) == "2";
    Numeric.ShowIntInjective(m.senderId, Session.CurrentUserId);
    m.senderId == Session.CurrentUserId
  }

  /** One history row: highlighted (row and avatar background) when the
      message is mine, the avatar and
      sender name ("Yo" for mine), content, time, and the "Nuevo" badge. */
  datatype Row = Row(
    highlighted: bool,
    avatar: string,
    sender: string,
    content: string,
    createdAt: int,
    newBadge: bool)

  /** The sender as written in the row. A name other than "Yo" is
      "Usuario " followed by text that reads back as the sender id. */
  function SenderName(m: Message): (name: string)
    ensures name == "Yo" <==> IsFromMe(m)
    ensures !IsFromMe(m) ==>
      && |name| > 8 && name[..8] == "Usuario "
      && name[8..] == Numeric.ShowInt(m.senderId)
      && Numeric.ParseInt(name[8..]) == Some(m.senderId)
  {
    if IsFromMe(m) then "Yo"
    else
      var id := Numeric.ShowInt(m.senderId);
      assert ("Usuario " + id)[8..] == id;
      Numeric.ParseShowInt(m.senderId);
      "Usuario " + id
  }

  /** The avatar: "Yo", or the first character of the sender id. */
  function AvatarText(m: Message): (avatar: string)
    ensures avatar == "Yo" <==> IsFromMe(m)
    ensures !IsFromMe(m) ==> |avatar| == 1 && avatar[0] == Numeric.ShowInt(m.senderId)[0]
  {
    if IsFromMe(m) then "Yo" else [Numeric.ShowInt(m.senderId)[0]]
  }

  function ShowsNewBadge(m: Message): (badge: bool)
    ensures badge <==> !m.isRead && m.senderId != Session.CurrentUserId
  {
    !m.isRead && !IsFromMe(m)
  }

  /** A row is highlighted and signed "Yo" exactly for the user's own
      messages, and only another user's unread message carries "Nuevo". */
  function RowOf(m: Message): (row: Row)
    ensures row.highlighted <==> m.senderId == Session.CurrentUserId
    ensures row.sender == "Yo" <==> row.highlighted
    ensures row.avatar == "Yo" <==> row.highlighted
    ensures row.sender == SenderName(m) && row.avatar == AvatarText(m)
    ensures row.newBadge <==> !m.isRead && !row.highlighted
    ensures row.content == m.content && row.createdAt == m.createdAt
  {
    Row(IsFromMe(m), AvatarText(m), SenderName(m), m.content, m.createdAt, ShowsNewBadge(m))
  }

  /** The user's own messages never carry "Nuevo", read or not. */
  lemma OwnMessagesNeverNew(m: Message)
    requires m.senderId == Session.CurrentUserId
    ensures !RowOf(m).newBadge && RowOf(m).sender == "Yo"
  {
  }

  datatype BannerStyle = SuccessBanner | ErrorBanner

  /** The notification banner: shown iff its text is non-empty, green iff its
      kind is "success", red for every other kind. */
  function Banner(n: Notification): (b: Option<BannerStyle>)
    ensures b.Some? <==> n.message != ""
    ensures b == Some(SuccessBanner) <==> n.message != "" && n.kind == "success"
    ensures b == Some(ErrorBanner) <==> n.message != "" && n.kind != "success"
  {
    if n.message == "" then None
    else if n.kind == "success" then Some(SuccessBanner)
    else Some(ErrorBanner)
  }

  datatype History = Spinner | EmptyNotice | Rows(rows: seq<Row>)

  /** The page: the count, the banner, and the history section, which alone
      shows the spinner (the form is usable while loading). */
  datatype Screen = Screen(count: nat, banner: Option<BannerStyle>, bannerText: string, history: History)

  function Render(v: View): (s: Screen)
    ensures s.count == |v.messages|
    ensures s.banner == Banner(v.notification)
    ensures s.banner.Some? <==> v.notification.message != ""
    ensures s.bannerText == v.notification.message
    ensures s.history.Spinner? <==> v.isLoading
    ensures s.history.EmptyNotice? <==> !v.isLoading && |v.messages| == 0
    ensures s.history.Rows? ==>
      |s.history.rows| == |v.messages| &&
      forall i :: 0 <= i < |v.messages| ==> s.history.rows[i] == RowOf(v.messages[i])
  {
    var history :=
      if v.isLoading then Spinner
      else if |v.messages| == 0 then EmptyNotice
      else Rows(seq(|v.messages|, i requires 0 <= i < |v.messages| => RowOf(v.messages[i])));
    Screen(|v.messages|, Banner(v.notification), v.notification.message, history)
  }

  /** An incomplete form shows the red banner and posts nothing; a complete one
      hides the banner until the reply. */
  lemma SendBanner(v: View)
    ensures Send(v).request.None? ==> Render(Send(v).view).banner == Some(ErrorBanner)
    ensures Send(v).request.Some? ==> Render(Send(v).view).banner.None?
  {
  }

  /** After a successful send the green banner shows until the timer clears it. */
  lemma SuccessBannerUntilCleared(v: View, m: Message)
    ensures Render(SendSettled(v, Delivered(m))).banner == Some(SuccessBanner)
    ensures Render(ClearNotification(SendSettled(v, Delivered(m)))).banner.None?
  {
  }

  /** A failed initial load: loading ends, the red banner shows "Error al
      obtener mensajes", and the history shows the empty notice. */
  lemma FailedLoadShowsError()
    ensures
      var r := Render(LoadSettled(Initial(), Failed));
      && r.banner == Some(ErrorBanner)
      && r.bannerText == "Error al obtener mensajes"
      && r.history == EmptyNotice
  {
  }

  /** With one send at a time the captured list is the current list, and the
      code as written and the corrected update agree. */
  lemma AsWrittenAgreesWhenCurrent(v: View, r: Reply<Message>)
    ensures SendSettledAsWritten(v, v.messages, r) == SendSettled(v, r)
  {
  }

  /** A send made while the inbox is loading: as written, the reply replaces
      the whole loaded inbox; the corrected update keeps it behind the reply. */
  lemma SendDuringLoadDropsInbox(inbox: seq<Message>, a: Message)
    ensures
      var v := EditContent(EditReceiverId(Initial(), "3"), "hola");
      var sent := Send(v);
      var loaded := LoadSettled(sent.view, Delivered(inbox));
      && sent.request.Some?
      && SendSettledAsWritten(loaded, v.messages, Delivered(a)).messages == [a]
      && SendSettled(loaded, Delivered(a)).messages == [a] + inbox
  {
  }
}
