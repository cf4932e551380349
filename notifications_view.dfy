/** The rendering rules of the notifications page (app/notifications/page.tsx):
    the title chosen from the type tag, the detail line taken from the
    notification's data, and the "Mark as Read" button on unread items. */
module NotificationsView {
  import opened Js
  import Notifications

  const DefaultTitle: string := "🔔 New notification"

  /** The tags the page gives a title of its own. */
  const TitledKinds: set<string> := {"like", "comment", "follow_request", "follow_accepted"}

  /** `(notif.data as {actorName?: string})?.actorName` */
  function ActorName(data: Value): Value {
    Get(data, "actorName")
  }

  /** `${actorName || "Someone"}` */
  function ActorText(actorName: Value): string {
    ToJsString(Or(actorName, Str("Someone")))
  }

  function RenderTitle(kind: string, actorName: Value): (title: string)
    ensures title == DefaultTitle <==> kind !in TitledKinds
    ensures kind == "like" ==> title == "❤️ " + ActorText(actorName) + " liked your post"
    ensures kind == "comment" ==> title == "💬 " + ActorText(actorName) + " commented on your post"
    ensures kind == "follow_request" ==> title == "👤 " + ActorText(actorName) + " sent you a follow request"
    ensures kind == "follow_accepted" ==> title == "✅ " + ActorText(actorName) + " accepted your follow request"
  {
    var who := ActorText(actorName);
    if kind == "like" then
      assert ("❤️ " + who + " liked your post")[0] != DefaultTitle[0];
      "❤️ " + who + " liked your post"
    else if kind == "comment" then
      assert ("💬 " + who + " commented on your post")[0] != DefaultTitle[0];
      "💬 " + who + " commented on your post"
    else if kind == "follow_request" then
      assert ("👤 " + who + " sent you a follow request")[0] != DefaultTitle[0];
      "👤 " + who + " sent you a follow request"
    else if kind == "follow_accepted" then
      assert ("✅ " + who + " accepted your follow request")[0] != DefaultTitle[0];
      "✅ " + who + " accepted your follow request"
    else DefaultTitle
  }

  /** A missing or empty actor name reads as "Someone". */
  lemma FalsyActorIsSomeone(kind: string, actorName: Value)
    requires !Truthy(actorName)
    ensures RenderTitle(kind, actorName) == RenderTitle(kind, Str("Someone"))
  {
  }

  /** The hook tags follow requests "follow-request" while the page matches
      "follow_request": a follow request pushed through the hook gets the
      generic title, whoever sent it. */
  lemma HookFollowRequestGetsDefaultTitle(n: Notifications.Notification)
    requires n.kind == Notifications.FollowRequestKind
    ensures RenderTitle(n.kind, ActorName(n.data)) == DefaultTitle
  {
    assert Notifications.FollowRequestKind != "follow_request";
  }

  /** The detail line: the data itself when it is a string, its `message`
      field when it is an object that has one, and `null` otherwise. */
  function Detail(data: Value): (d: Value)
    ensures data.Str? ==> d == data
    ensures data.Obj? && "message" in data.fields ==> d == data.fields["message"]
    ensures !data.Str? && !(data.Obj? && "message" in data.fields) ==> d == Null
  {
    if data.Str? then data
    else if data.Obj? && "message" in data.fields then data.fields["message"]
    else Null
  }

  /** The detail line is rendered only when it is truthy. */
  predicate ShowsDetail(data: Value) {
    Truthy(Detail(data))
  }

  predicate ShowsMarkButton(n: Notifications.Notification) {
    !n.read
  }

  /** After the server accepts marking `id`, no item with that id offers the
      button any more, and every other item offers it exactly as before. */
  lemma MarkHidesButton(b: Notifications.Inbox, id: string, i: int)
    requires 0 <= i < |b.items|
    ensures |Notifications.AfterMarkRead(b, id).items| == |b.items|
    ensures var after := Notifications.AfterMarkRead(b, id).items[i];
            (b.items[i].id == id ==> !ShowsMarkButton(after))
            && (b.items[i].id != id ==> ShowsMarkButton(after) == ShowsMarkButton(b.items[i]))
  {
    Notifications.MarkedReadAt(b.items, id, i);
  }
}
