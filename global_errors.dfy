/** The global error handler (app/hooks/useGlobalErrorHandler.ts): while
    mounted it listens for the "api:error:401" and "api:error:403" signals
    `apiFetch` raises. A 401 ends the session: both session keys go, a toast
    says so and the router goes to /login. A 403 only shows a toast. */
module GlobalErrors {
  import opened Js
  import opened Browser
  import Api
  import Auth
  import Toasts

  const SessionExpired: string := "Session expired. Please login again."
  const ForbiddenDefault: string := "Not authorized or not friends to view this."

  /** `event.detail?.status === 401`, and likewise for 403. */
  predicate Acts(detail: Value, status: int) {
    Get(detail, "status") == Num(status)
  }

  /** The toast text `handle403` shows: the detail's message, or the default. */
  function ForbiddenText(detail: Value): string {
    ToJsString(Or(Get(detail, "message"), Str(ForbiddenDefault)))
  }

  /** Every signal `apiFetch` raises is one this handler acts on: the 401
      signal carries status 401, and the 403 signal carries status 403 and
      the response's message, which becomes the toast unless it is empty. */
  lemma RaisedSignalsAreHandled(t: Api.Transport)
    ensures Api.ClearsToken(t) ==> Api.Raised(t)[0].ApiError401? && Acts(Api.Raised(t)[0].detail, 401)
    ensures Api.ErrorStatus(t) == Some(403) ==>
              Api.Raised(t)[0].ApiError403? && Acts(Api.Raised(t)[0].detail, 403)
              && ForbiddenText(Api.Raised(t)[0].detail)
                 == ToJsString(Or(Get(t.response.value.data, "message"), Str(ForbiddenDefault)))
  {
  }

  /** Once `apiFetch` has dropped the token on a 401 and this handler has
      run, storage is exactly as after a logout. */
  lemma ExpiryMatchesLogout(storage: map<string, string>)
    ensures Auth.SignedOut(storage - {"token"}) == Auth.SignedOut(storage)
    ensures "token" !in Auth.SignedOut(storage) && "user" !in Auth.SignedOut(storage)
  {
  }

  class GlobalErrorHandler {
    /** Whether the two listeners are registered. */
    var listening: bool

    /** The effect registers both listeners. */
    constructor ()
      ensures listening
    {
      listening := true;
    }

    /** The effect's cleanup removes both listeners. */
    method Unmount()
      modifies this
      ensures !listening
    {
      listening := false;
    }

    /** A window signal reaches the listeners. */
    method Deliver(win: Window, toasts: Toasts.ToastProvider, s: Signal)
      requires toasts.Valid()
      modifies win, toasts
      ensures toasts.Valid()
      ensures var expired := listening && s.ApiError401? && Acts(s.detail, 401);
              var forbidden := listening && s.ApiError403? && Acts(s.detail, 403);
              win.storage == (if expired then Auth.SignedOut(old(win.storage)) else old(win.storage))
              && win.route == old(win.route) + (if expired then ["/login"] else [])
              && toasts.toasts == old(toasts.toasts)
                   + (if expired then [Toasts.Toast(old(toasts.nextId), SessionExpired, Toasts.Error)]
                      else if forbidden then [Toasts.Toast(old(toasts.nextId), ForbiddenText(s.detail), Toasts.Error)]
                      else [])
      ensures win.sent == old(win.sent) && win.signals == old(win.signals)
    {
      if listening {
        if s.ApiError401? && Acts(s.detail, 401) {
          win.RemoveItem("token");
          win.RemoveItem("user");
          var _ := toasts.Show(SessionExpired, Some(Toasts.Error));
          win.Navigate("/login");
        } else if s.ApiError403? && Acts(s.detail, 403) {
          var _ := toasts.Show(ForbiddenText(s.detail), Some(Toasts.Error));
        }
      }
    }
  }

  /** An `apiFetch` call answered by a 401 while the handler is mounted:
      `apiFetch` drops the token and dispatches "api:error:401", whose
      listener runs at once and ends the session. The storage that results
      is exactly a logout's, and the user lands on /login with one toast. */
  method UnauthorizedRequest(win: Window, handler: GlobalErrorHandler, toasts: Toasts.ToastProvider,
                             input: string, verb: Option<string>, body: Value, t: Api.Transport)
    returns (r: Api.ApiResult)
    requires Api.ClearsToken(t) && toasts.Valid()
    modifies win, toasts
    ensures toasts.Valid()
    ensures r == Api.Normalize(t) && !r.res.ok && r.res.status == 401
    ensures win.storage == (if handler.listening then Auth.SignedOut(old(win.storage)) else old(win.storage) - {"token"})
    ensures win.route == old(win.route) + (if handler.listening then ["/login"] else [])
    ensures toasts.toasts == old(toasts.toasts)
              + (if handler.listening then [Toasts.Toast(old(toasts.nextId), SessionExpired, Toasts.Error)] else [])
    ensures win.sent == old(win.sent) + [Request(Api.MethodOrGet(verb), Api.ResolveUrl(input), body)]
    ensures win.signals == old(win.signals) + Api.Raised(t)
  {
    r := Api.Fetch(win, input, verb, body, t);
    RaisedSignalsAreHandled(t);
    ExpiryMatchesLogout(old(win.storage));
    handler.Deliver(win, toasts, Api.Raised(t)[0]);
  }
}
