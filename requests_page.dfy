/** The follow-requests page (app/follow/requests/page.tsx): it loads the
    pending requests, and accepts or rejects one by id, dropping it from the
    list, telling the counter to refresh and, on accept, notifying the
    requester. Handlers run to completion with the answers their requests
    get passed in; `apiFetch` never rejects, so the page's catch around the
    load is never reached. */
module RequestsPage {
  import opened Js
  import opened Browser
  import Api
  import Lists
  import Toasts
  import NotificationsView

  const PendingPath: string := "/api/follow/requests/pending"
  const NotificationsPath: string := "/api/notifications"

  /** `getCurrentUsername()`: the stored user's `username`, or `undefined`
      when no user is stored or the stored text does not parse. */
  function GetCurrentUsername(storage: map<string, string>, parse: Parser): (name: Value)
    ensures !HasItem(storage, "user") ==> name == Undefined
    ensures HasItem(storage, "user") && parse(storage["user"]).None? ==> name == Undefined
    ensures HasItem(storage, "user") && parse(storage["user"]).Some? ==> name == Get(parse(storage["user"]).value, "username")
  {
    if !HasItem(storage, "user") then Undefined
    else match parse(storage["user"])
      case None => Undefined
      case Some(v) => Get(v, "username")
  }

  /** `typeof data === "string" ? data : res.statusText` */
  function FailureDetail(r: Api.ApiResult): string {
    if r.data.Str? then r.data.s else r.res.statusText
  }

  /** The toast `loadRequests` shows for a response, if any. */
  function LoadToast(r: Api.ApiResult): Option<string> {
    if r.res.ok && r.data.Arr? then None
    else if r.res.status == 401 then Some("Please login to view follow requests.")
    else if r.res.status == 403 then Some("Not authorized to view follow requests.")
    else
      var detail := FailureDetail(r);
      Some("Failed to load requests (" + (if detail != "" then detail else NumberText(r.res.status)) + ")")
  }

  /** A load either lists the requests or explains why not, never both. For
      statuses other than 401 and 403 the explanation names the body when it
      is a non-empty string, else the status text when it is non-empty, else
      the numeric status. */
  lemma LoadToastCases(t: Api.Transport)
    ensures var r := Api.Normalize(t);
            (LoadToast(r).None? <==> r.res.ok && r.data.Arr?)
            && (!(r.res.ok && r.data.Arr?) && r.res.status != 401 && r.res.status != 403 ==>
                  LoadToast(r) == Some("Failed to load requests ("
                    + (if r.data.Str? && r.data.s != "" then r.data.s
                       else if !r.data.Str? && r.res.statusText != "" then r.res.statusText
                       else NumberText(r.res.status)) + ")"))
            && (t.Failed? && t.response.None? ==> LoadToast(r) == Some("Failed to load requests (network error)"))
  {
    if t.Failed? && t.response.None? {
      assert "Failed to load requests (" + "network error" + ")" == "Failed to load requests (network error)";
    }
  }

  /** `r.id`, the key the handlers filter on. */
  function RequestId(request: Value): Value {
    Get(request, "id")
  }

  /** `requests.find((r) => r.id === id)` */
  function Find(requests: seq<Value>, id: string): (found: Option<Value>)
    ensures found.Some? ==> found.value in requests && RequestId(found.value) == Str(id)
    ensures found.None? ==> Lists.NoKey(requests, RequestId, Str(id))
    ensures found.Some? ==> exists k :: 0 <= k < |requests| && requests[k] == found.value
                                        && Lists.NoKey(requests[..k], RequestId, Str(id))
  {
    if requests == [] then None
    else if RequestId(requests[0]) == Str(id) then Some(requests[0])
    else
      var found := Find(requests[1..], id);
      assert found.Some? ==> exists k :: 0 <= k < |requests| && requests[k] == found.value
                                          && Lists.NoKey(requests[..k], RequestId, Str(id)) by {
        if found.Some? {
          var k :| 0 <= k < |requests[1..]| && requests[1..][k] == found.value
                   && Lists.NoKey(requests[1..][..k], RequestId, Str(id));
          NoKeyBeforeShift(requests, id, k);
        }
      }
      found
  }

  /** A request without the id, followed by a prefix without it, is a
      longer prefix without it. */
  lemma NoKeyBeforeShift(requests: seq<Value>, id: string, k: nat)
    requires k < |requests| - 1 && RequestId(requests[0]) != Str(id)
    requires Lists.NoKey(requests[1..][..k], RequestId, Str(id))
    ensures requests[k + 1] == requests[1..][k]
    ensures Lists.NoKey(requests[..k + 1], RequestId, Str(id))
  {
    assert requests[..k + 1] == [requests[0]] + requests[1..][..k];
  }

  /** The message of the error an accept or reject throws on a non-ok
      response: the detail, or the fallback when the detail is empty. */
  function ThrownMessage(r: Api.ApiResult, fallback: string): string {
    var detail := FailureDetail(r);
    if detail != "" then detail else fallback
  }

  /** The body `notifyRequester` posts, after the JSON round trip `apiFetch`
      applies to it; `None` when the request has no `fromUser.id`, in which
      case nothing is posted. An `undefined` actor name is dropped by
      JSON.stringify. */
  function NotifyBody(request: Value, actorName: Value): (body: Option<Value>)
    ensures body.Some? <==> Truthy(Get(Get(request, "fromUser"), "id"))
  {
    var target := Get(Get(request, "fromUser"), "id");
    if !Truthy(target) then None
    else
      var message := Str(ToJsString(Or(actorName, Str("Your follow request"))) + " was accepted");
      var data := map["message" := message, "requestId" := RequestId(request)]
                  + (if actorName.Undefined? then map[] else map["actorName" := actorName]);
      Some(Obj(map["type" := Str("follow_accepted"), "targetUserId" := target, "data" := Obj(data)]))
  }

  /** With no username to hand, the requester reads the fallback sentence. */
  lemma NotifyFallsBackWithoutName(request: Value, actorName: Value)
    requires Truthy(Get(Get(request, "fromUser"), "id")) && !Truthy(actorName)
    ensures var body := NotifyBody(request, actorName).value;
            Get(Get(body, "data"), "message") == Str("Your follow request was accepted")
  {
  }

  /** What the page posts is what the notifications page renders: a
      "follow_accepted" notification carrying this data gets the
      acceptance title with the username, and its message as the detail. */
  lemma NotificationRendersAsAccepted(request: Value, name: string)
    requires Truthy(Get(Get(request, "fromUser"), "id")) && name != ""
    ensures var body := NotifyBody(request, Str(name)).value;
            var data := Get(body, "data");
            Get(body, "type") == Str("follow_accepted")
            && NotificationsView.RenderTitle("follow_accepted", NotificationsView.ActorName(data))
               == "✅ " + name + " accepted your follow request"
            && NotificationsView.Detail(data) == Str(name + " was accepted")
            && NotificationsView.ShowsDetail(data)
  {
    var data := Get(NotifyBody(request, Str(name)).value, "data");
    assert NotificationsView.ActorName(data) == Str(name);
  }

  class FollowRequestsPage {
    var requests: seq<Value>
    var loading: bool

    constructor ()
      ensures requests == [] && !loading
    {
      requests, loading := [], false;
    }

    /** `loadRequests()` answered by `t`. */
    method LoadRequests(win: Window, toasts: Toasts.ToastProvider, t: Api.Transport)
      requires toasts.Valid()
      modifies this, win, toasts
      ensures toasts.Valid() && !loading
      ensures var r := Api.Normalize(t);
              requests == (if r.res.ok && r.data.Arr? then r.data.items else old(requests))
              && toasts.toasts == old(toasts.toasts)
                   + (if LoadToast(r).Some? then [Toasts.Toast(old(toasts.nextId), LoadToast(r).value, Toasts.Error)] else [])
      ensures win.sent == old(win.sent) + [Request("GET", Api.ResolveUrl(PendingPath), Undefined)]
      ensures win.signals == old(win.signals) + Api.Raised(t) && win.route == old(win.route)
      ensures win.storage == if Api.ClearsToken(t) then old(win.storage) - {"token"} else old(win.storage)
    {
      loading := true;
      var r := Api.Fetch(win, PendingPath, None, Undefined, t);
      if r.res.ok && r.data.Arr? {
        requests := r.data.items;
      } else {
        var _ := toasts.Show(LoadToast(r).value, Some(Toasts.Error));
      }
      loading := false;
    }

    /** `notifyRequester(request)`: posts the acceptance notification when
        the request names its sender; its answer `t` is otherwise ignored. */
    method NotifyRequester(win: Window, parse: Parser, request: Value, t: Api.Transport)
      modifies win
      ensures var body := NotifyBody(request, GetCurrentUsername(old(win.storage), parse));
              win.sent == old(win.sent) + (if body.Some? then [Request("POST", Api.ResolveUrl(NotificationsPath), body.value)] else [])
              && win.signals == old(win.signals) + (if body.Some? then Api.Raised(t) else [])
              && win.storage == (if body.Some? && Api.ClearsToken(t) then old(win.storage) - {"token"} else old(win.storage))
      ensures win.route == old(win.route)
    {
      var body := NotifyBody(request, GetCurrentUsername(win.storage, parse));
      if body.Some? {
        var _ := Api.Fetch(win, NotificationsPath, Some("POST"), body.value, t);
      }
    }

    /** `acceptRequest(id)`: the server answers `t`; the notification to
        the requester, if one is posted, is answered `notifyT`. The refresh
        signal is dispatched before that answer can raise any signal. */
    method AcceptRequest(win: Window, toasts: Toasts.ToastProvider, parse: Parser, id: string,
                         t: Api.Transport, notifyT: Api.Transport)
      requires toasts.Valid()
      modifies this, win, toasts
      ensures toasts.Valid() && loading == old(loading)
      ensures var r := Api.Normalize(t);
              var request := Find(old(requests), id);
              var body := if request.Some? then NotifyBody(request.value, GetCurrentUsername(old(win.storage), parse)) else None;
              if r.res.ok then
                requests == Lists.Without(old(requests), RequestId, Str(id))
                && toasts.toasts == old(toasts.toasts) + [Toasts.Toast(old(toasts.nextId), "Follow request accepted", Toasts.Success)]
                && win.sent == old(win.sent) + [Request("POST", Api.ResolveUrl("/api/follow/requests/" + id + "/accept"), Undefined)]
                                 + (if body.Some? then [Request("POST", Api.ResolveUrl(NotificationsPath), body.value)] else [])
                && win.signals == old(win.signals) + [FollowRequestsRefresh] + (if body.Some? then Api.Raised(notifyT) else [])
              else
                requests == old(requests)
                && toasts.toasts == old(toasts.toasts)
                     + [Toasts.Toast(old(toasts.nextId), "Failed to accept request (" + ThrownMessage(r, "Accept failed") + ")", Toasts.Error)]
                && win.sent == old(win.sent) + [Request("POST", Api.ResolveUrl("/api/follow/requests/" + id + "/accept"), Undefined)]
                && win.signals == old(win.signals) + Api.Raised(t)
      ensures var body := if Find(old(requests), id).Some?
                          then NotifyBody(Find(old(requests), id).value, GetCurrentUsername(old(win.storage), parse)) else None;
              win.storage == (if Api.ClearsToken(t) || (Api.Normalize(t).res.ok && body.Some? && Api.ClearsToken(notifyT))
                              then old(win.storage) - {"token"} else old(win.storage))
      ensures win.route == old(win.route)
    {
      var request := Find(requests, id);
      var r := Api.Fetch(win, "/api/follow/requests/" + id + "/accept", Some("POST"), Undefined, t);
      if !r.res.ok {
        var _ := toasts.Show("Failed to accept request (" + ThrownMessage(r, "Accept failed") + ")", Some(Toasts.Error));
      } else {
        requests := Lists.Without(requests, RequestId, Str(id));
        var _ := toasts.Show("Follow request accepted", Some(Toasts.Success));
        win.Dispatch(FollowRequestsRefresh);
        if request.Some? {
          NotifyRequester(win, parse, request.value, notifyT);
        }
      }
    }

    /** `rejectRequest(id)` answered by `t`. */
    method RejectRequest(win: Window, toasts: Toasts.ToastProvider, id: string, t: Api.Transport)
      requires toasts.Valid()
      modifies this, win, toasts
      ensures toasts.Valid() && loading == old(loading)
      ensures win.sent == old(win.sent) + [Request("POST", Api.ResolveUrl("/api/follow/requests/" + id + "/reject"), Undefined)]
      ensures var r := Api.Normalize(t);
              if r.res.ok then
                requests == Lists.Without(old(requests), RequestId, Str(id))
                && toasts.toasts == old(toasts.toasts) + [Toasts.Toast(old(toasts.nextId), "Follow request rejected", Toasts.Info)]
                && win.signals == old(win.signals) + [FollowRequestsRefresh]
              else
                requests == old(requests)
                && toasts.toasts == old(toasts.toasts)
                     + [Toasts.Toast(old(toasts.nextId), "Failed to reject request (" + ThrownMessage(r, "Reject failed") + ")", Toasts.Error)]
                && win.signals == old(win.signals) + Api.Raised(t)
      ensures win.storage == if Api.ClearsToken(t) then old(win.storage) - {"token"} else old(win.storage)
      ensures win.route == old(win.route)
    {
      var r := Api.Fetch(win, "/api/follow/requests/" + id + "/reject", Some("POST"), Undefined, t);
      if !r.res.ok {
        var _ := toasts.Show("Failed to reject request (" + ThrownMessage(r, "Reject failed") + ")", Some(Toasts.Error));
      } else {
        requests := Lists.Without(requests, RequestId, Str(id));
        var _ := toasts.Show("Follow request rejected", Some(Toasts.Info));
        win.Dispatch(FollowRequestsRefresh);
      }
    }
  }

  /** A successful accept or reject removes exactly the requests with that
      id and keeps every other one, in order, once. */
  lemma HandledRequestIsGone(requests: seq<Value>, id: string, x: Value)
    ensures Lists.NoKey(Lists.Without(requests, RequestId, Str(id)), RequestId, Str(id))
    ensures x in Lists.Without(requests, RequestId, Str(id)) <==> x in requests && RequestId(x) != Str(id)
    ensures Find(Lists.Without(requests, RequestId, Str(id)), id).None?
  {
    Lists.WithoutRemovesKey(requests, RequestId, Str(id));
    Lists.WithoutKeeps(requests, RequestId, Str(id), x);
    FindAbsent(Lists.Without(requests, RequestId, Str(id)), id);
  }

  lemma {:induction false} FindAbsent(requests: seq<Value>, id: string)
    requires Lists.NoKey(requests, RequestId, Str(id))
    ensures Find(requests, id).None?
  {
    if requests != [] {
      FindAbsent(requests[1..], id);
    }
  }
}
