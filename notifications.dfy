/** The notification hook (app/hooks/useNotifications.ts). One socket per page
    session is created by the first activation that finds a token; that
    activation registers the push handlers, bound to its own hook instance.
    Each pushed notification is prepended to the hook's list, bumps the unread
    counter when unread, and a follow request also raises
    "follow-requests:increment". `markAsRead` flips the read flag of the
    matching items once the server accepts, and lowers the counter by one,
    never below zero. */
module Notifications {
  import opened Js
  import opened Browser

  datatype Notification = Notification(
    id: string, userId: string, actorId: string, kind: string,
    data: Value, read: bool, createdAt: string)

  /** The hook's spelling of the follow-request tag. */
  const FollowRequestKind: string := "follow-request"

  /** The broadcast event every client listens to. */
  const GlobalChannel: string := "notification"

  /** The hook's state: notifications, most recent first, and the unread counter. */
  datatype Inbox = Inbox(items: seq<Notification>, unread: int)

  /** The counter is a count: never negative and never above the list's length. */
  predicate Consistent(b: Inbox) {
    0 <= b.unread <= |b.items|
  }

  /** The reduction both channel handlers apply to one pushed notification. */
  function Received(b: Inbox, n: Notification): Inbox {
    Inbox([n] + b.items, if n.read then b.unread else b.unread + 1)
  }

  /** The window events one push dispatches. */
  function PushSignals(n: Notification): (signals: seq<Signal>)
    ensures signals == [FollowRequestsIncrement] <==> n.kind == FollowRequestKind
    ensures signals == [] <==> n.kind != FollowRequestKind
  {
    if n.kind == FollowRequestKind then [FollowRequestsIncrement] else []
  }

  /** `prev.map(n => n.id === id ? {...n, read: true} : n)` */
  function MarkedRead(items: seq<Notification>, id: string): seq<Notification> {
    if items == [] then []
    else [if items[0].id == id then items[0].(read := true) else items[0]] + MarkedRead(items[1..], id)
  }

  function Max0(x: int): int {
    if x < 0 then 0 else x
  }

  /** The state after the server accepted marking `id` as read. */
  function AfterMarkRead(b: Inbox, id: string): Inbox {
    Inbox(MarkedRead(b.items, id), Max0(b.unread - 1))
  }

  function CountUnread(items: seq<Notification>): nat {
    if items == [] then 0 else (if items[0].read then 0 else 1) + CountUnread(items[1..])
  }

  /** The number of unread items carrying `id`. */
  function UnreadWithId(items: seq<Notification>, id: string): nat {
    if items == [] then 0
    else (if !items[0].read && items[0].id == id then 1 else 0) + UnreadWithId(items[1..], id)
  }

  predicate HasId(items: seq<Notification>, id: string) {
    exists i :: 0 <= i < |items| && items[i].id == id
  }

  /** A push prepends exactly one item and bumps the counter iff it is unread. */
  lemma ReceivedPrepends(b: Inbox, n: Notification)
    ensures |Received(b, n).items| == |b.items| + 1
    ensures Received(b, n).items[0] == n && Received(b, n).items[1..] == b.items
    ensures Received(b, n).unread == b.unread + 1 <==> !n.read
    ensures Received(b, n).unread == b.unread <==> n.read
  {
    assert ([n] + b.items)[1..] == b.items;
  }

  /** Marking maps the list item by item: only items with the id change, and
      they only become read. */
  lemma {:induction false} MarkedReadAt(items: seq<Notification>, id: string, i: int)
    requires 0 <= i < |items|
    ensures |MarkedRead(items, id)| == |items|
    ensures MarkedRead(items, id)[i] == if items[i].id == id then items[i].(read := true) else items[i]
  {
    if i == 0 {
      MarkedReadLength(items[1..], id);
    } else {
      MarkedReadAt(items[1..], id, i - 1);
    }
  }

  lemma {:induction false} MarkedReadLength(items: seq<Notification>, id: string)
    ensures |MarkedRead(items, id)| == |items|
  {
    if items != [] {
      MarkedReadLength(items[1..], id);
    }
  }

  /** Marking the same id again changes nothing in the list. */
  lemma {:induction false} MarkedReadIdempotent(items: seq<Notification>, id: string)
    ensures MarkedRead(MarkedRead(items, id), id) == MarkedRead(items, id)
  {
    if items != [] {
      MarkedReadIdempotent(items[1..], id);
      MarkedReadLength(items[1..], id);
      var m := MarkedRead(items, id);
      assert m[1..] == MarkedRead(items[1..], id);
    }
  }

  /** Marking an id that no item carries leaves the list as it is. */
  lemma {:induction false} MarkedReadAbsent(items: seq<Notification>, id: string)
    requires !HasId(items, id)
    ensures MarkedRead(items, id) == items
  {
    if items != [] {
      MarkedReadAbsent(items[1..], id);
    }
  }

  /** Marking lowers the number of unread items by exactly those carrying the id. */
  lemma {:induction false} MarkedReadUnread(items: seq<Notification>, id: string)
    ensures CountUnread(MarkedRead(items, id)) == CountUnread(items) - UnreadWithId(items, id)
    ensures UnreadWithId(items, id) <= CountUnread(items)
  {
    if items != [] {
      MarkedReadUnread(items[1..], id);
      var m := MarkedRead(items, id);
      MarkedReadLength(items[1..], id);
      assert m[1..] == MarkedRead(items[1..], id);
    }
  }

  /** Both transitions keep the counter a count. */
  lemma ReceivedConsistent(b: Inbox, n: Notification)
    requires Consistent(b)
    ensures Consistent(Received(b, n))
  {
  }

  lemma MarkReadConsistent(b: Inbox, id: string)
    requires Consistent(b)
    ensures Consistent(AfterMarkRead(b, id))
  {
    MarkedReadLength(b.items, id);
  }

  /** Marking a freshly pushed unread notification as read restores the
      counter; the item stays in the list, now read. */
  lemma MarkReadUndoesReceive(b: Inbox, n: Notification)
    requires Consistent(b) && !n.read && !HasId(b.items, n.id)
    ensures AfterMarkRead(Received(b, n), n.id) == Inbox([n.(read := true)] + b.items, b.unread)
  {
    MarkedReadAbsent(b.items, n.id);
    assert ([n] + b.items)[1..] == b.items;
  }

  /** The counter equals the number of unread items after a push whenever it
      did before, and after a mark exactly when one unread item carries the id
      (or none does and the counter is already zero). */
  lemma ExactCounterAfterPush(b: Inbox, n: Notification)
    requires b.unread == CountUnread(b.items)
    ensures Received(b, n).unread == CountUnread(Received(b, n).items)
  {
    assert ([n] + b.items)[1..] == b.items;
  }

  lemma ExactCounterAfterMark(b: Inbox, id: string)
    requires b.unread == CountUnread(b.items)
    ensures AfterMarkRead(b, id).unread == CountUnread(AfterMarkRead(b, id).items)
            <==> UnreadWithId(b.items, id) == 1 || (UnreadWithId(b.items, id) == 0 && b.unread == 0)
  {
    MarkedReadUnread(b.items, id);
  }

  /** The same notification delivered on both channels, then marked read once:
      no unread item is left, yet the counter stays at one. */
  lemma DuplicateDeliveryLeavesCounterHigh(n: Notification)
    requires !n.read
    ensures var b := AfterMarkRead(Received(Received(Inbox([], 0), n), n), n.id);
            b.unread == 1 && CountUnread(b.items) == 0
  {
    var two := Received(Received(Inbox([], 0), n), n);
    assert two.items == [n, n] && two.items[1..] == [n] && [n][1..] == [];
    assert CountUnread([n]) == 1 && UnreadWithId([n], n.id) == 1;
    assert CountUnread(two.items) == 2 && UnreadWithId(two.items, n.id) == 2;
    MarkedReadUnread(two.items, n.id);
  }

  /** Three unread pushes tagged like, comment and follow-request, in that
      order: the list holds them newest first, the counter is three, and
      exactly one increment signal is raised. */
  lemma ThreePushes(like: Notification, comment: Notification, request: Notification)
    requires like.kind == "like" && comment.kind == "comment" && request.kind == FollowRequestKind
    requires !like.read && !comment.read && !request.read
    ensures var b := Received(Received(Received(Inbox([], 0), like), comment), request);
            b.items == [request, comment, like] && b.unread == 3
            && PushSignals(like) + PushSignals(comment) + PushSignals(request) == [FollowRequestsIncrement]
  {
    assert [request] + ([comment] + ([like] + [])) == [request, comment, like];
  }

  /** `userId` before the socket is set up: the stored user's `id` when the
      stored user parses and has a truthy id, otherwise the legacy "userId"
      key. A stored user that does not parse makes the lookup give up,
      without consulting the legacy key. */
  function ResolveUserId(storage: map<string, string>, parse: Parser): (r: Value)
    ensures Truthy(r) || r == Undefined
    ensures HasItem(storage, "user") && parse(storage["user"]).None? ==> r == Undefined
    ensures (HasItem(storage, "user") && parse(storage["user"]).Some?
             && Truthy(Get(parse(storage["user"]).value, "id"))) ==> r == Get(parse(storage["user"]).value, "id")
    ensures Truthy(r) && r != Str(Item(storage, "userId").GetOr("")) ==>
              HasItem(storage, "user") && parse(storage["user"]).Some? && r == Get(parse(storage["user"]).value, "id")
    ensures (!HasItem(storage, "user")
             || (parse(storage["user"]).Some? && !Truthy(Get(parse(storage["user"]).value, "id")))) ==>
              r == (if HasItem(storage, "userId") then Str(storage["userId"]) else Undefined)
  {
    var legacy := if HasItem(storage, "userId") then Str(storage["userId"]) else Undefined;
    if HasItem(storage, "user") then
      match parse(storage["user"])
      case None => Undefined
      case Some(u) => if Truthy(Get(u, "id")) then Get(u, "id") else legacy
    else legacy
  }

  /** The per-user event name, when a user id resolves. */
  function UserChannel(storage: map<string, string>, parse: Parser): (c: Option<string>)
    ensures c.Some? <==> Truthy(ResolveUserId(storage, parse))
    ensures c.Some? ==> c.value == "user:" + ToJsString(ResolveUserId(storage, parse))
  {
    var uid := ResolveUserId(storage, parse);
    if Truthy(uid) then Some("user:" + ToJsString(uid)) else None
  }

  function MarkReadUrl(id: string): string {
    DefaultBase + "/api/notifications/" + id + "/read"
  }

  class NotificationsHook {
    var notifications: seq<Notification>
    var unreadCount: int

    function State(): Inbox
      reads this
    {
      Inbox(notifications, unreadCount)
    }

    constructor ()
      ensures State() == Inbox([], 0)
    {
      notifications, unreadCount := [], 0;
    }

    /** The mount effect. Without a token nothing happens; otherwise the
        socket is created and the handlers bound to this hook, unless an
        earlier activation already did so. The hook's own list and counter
        are never touched here. */
    method Activate(socket: Socket, win: Window, parse: Parser)
      requires socket.Valid()
      modifies socket
      ensures socket.Valid()
      ensures !HasItem(win.storage, "token") || old(socket.initialized) ==>
                socket.initialized == old(socket.initialized) && socket.subscriber == old(socket.subscriber)
                && socket.userChannel == old(socket.userChannel) && socket.token == old(socket.token)
      ensures HasItem(win.storage, "token") && !old(socket.initialized) ==>
                socket.initialized && socket.subscriber == this
                && socket.userChannel == UserChannel(win.storage, parse)
                && socket.token == win.storage["token"]
    {
      if !HasItem(win.storage, "token") {
        return;
      }
      var channel := UserChannel(win.storage, parse);
      if !socket.initialized {
        socket.initialized := true;
        socket.token := win.storage["token"];
        socket.subscriber := this;
        socket.userChannel := channel;
      }
    }

    /** One pushed notification, through either channel's handler. */
    method Receive(win: Window, n: Notification)
      modifies this, win
      ensures State() == Received(old(State()), n)
      ensures win.signals == old(win.signals) + PushSignals(n)
      ensures win.storage == old(win.storage) && win.sent == old(win.sent) && win.route == old(win.route)
    {
      notifications := [n] + notifications;
      if !n.read {
        unreadCount := unreadCount + 1;
      }
      if n.kind == FollowRequestKind {
        win.Dispatch(FollowRequestsIncrement);
      }
    }

    /** `markAsRead(id)` answered by `outcome`. Without a token no request is
        made; a rejected request or a response that is not ok changes nothing. */
    method MarkAsRead(win: Window, id: string, outcome: FetchOutcome)
      modifies this, win
      ensures !HasItem(old(win.storage), "token") ==> State() == old(State()) && win.sent == old(win.sent)
      ensures HasItem(old(win.storage), "token") ==>
                win.sent == old(win.sent) + [Request("POST", MarkReadUrl(id), Undefined)]
                && State() == (if FetchOk(outcome) then AfterMarkRead(old(State()), id) else old(State()))
      ensures win.storage == old(win.storage) && win.signals == old(win.signals) && win.route == old(win.route)
    {
      if !HasItem(win.storage, "token") {
        return;
      }
      win.Send(Request("POST", MarkReadUrl(id), Undefined));
      if FetchOk(outcome) {
        notifications := MarkedRead(notifications, id);
        unreadCount := Max0(unreadCount - 1);
      }
    }
  }

  /** The module-level `socketInstance` with the handlers registered on it. */
  class Socket {
    var initialized: bool
    /** The hook instance whose state the registered handlers update. */
    var subscriber: NotificationsHook?
    /** The per-user event name the handlers listen on, if any. */
    var userChannel: Option<string>
    /** The token the connection authenticates with. */
    var token: string

    ghost predicate Valid()
      reads this
    {
      (initialized <==> subscriber != null) && (userChannel.Some? ==> initialized)
    }

    constructor ()
      ensures Valid() && !initialized
    {
      initialized, subscriber, userChannel, token := false, null, None, "";
    }

    predicate Listens(channel: string)
      reads this
    {
      initialized && (channel == GlobalChannel || userChannel == Some(channel))
    }

    /** The server emits `n` on `channel`. */
    method Deliver(win: Window, channel: string, n: Notification)
      requires Valid()
      modifies subscriber, win
      ensures Listens(channel) ==>
                subscriber.State() == Received(old(subscriber.State()), n)
                && win.signals == old(win.signals) + PushSignals(n)
      ensures !Listens(channel) ==> win.signals == old(win.signals)
      ensures !Listens(channel) && subscriber != null ==> subscriber.State() == old(subscriber.State())
      ensures win.storage == old(win.storage) && win.sent == old(win.sent) && win.route == old(win.route)
    {
      if Listens(channel) {
        subscriber.Receive(win, n);
      }
    }

    /** The connection comes up: "socket:connected", once the handlers exist. */
    method Connect(win: Window)
      modifies win
      ensures win.signals == old(win.signals) + (if initialized then [SocketConnected] else [])
      ensures win.storage == old(win.storage) && win.sent == old(win.sent) && win.route == old(win.route)
    {
      if initialized {
        win.Dispatch(SocketConnected);
      }
    }

    /** The connection drops: "socket:disconnected", once the handlers exist. */
    method Disconnect(win: Window)
      modifies win
      ensures win.signals == old(win.signals) + (if initialized then [SocketDisconnected] else [])
      ensures win.storage == old(win.storage) && win.sent == old(win.sent) && win.route == old(win.route)
    {
      if initialized {
        win.Dispatch(SocketDisconnected);
      }
    }
  }
}
