/** The session store (app/context/AuthContext.tsx): `token`, `user` and
    `loading`, loaded from `localStorage` on mount, written by a successful
    login or registration and cleared by logout. The requests go through the
    shared axios instance, whose answer each handler receives as an
    `Api.Transport`. */
module Auth {
  import opened Js
  import opened Browser
  import Api

  const LoginPath: string := "/api/auth/login"
  const RegisterPath: string := "/api/auth/register"
  const MePath: string := "/api/auth/me"
  const LoginTooMany: string := "Too many login attempts. Please try again in a few minutes."
  const RegisterTooMany: string := "Too many registration attempts. Please try again in a few minutes."
  const OutsideProvider: string := "useAuth must be used within an AuthProvider"

  /** What `login` and `register` resolve to: `{ ok: true }`, or `{ ok: false, message }`. */
  datatype Outcome = Outcome(ok: bool, message: Value)

  /** The two session fields of the provider's state. */
  datatype Session = Session(token: Value, user: Value)

  /** `a || b || …`: the first truthy value, or `last` when none is. */
  function FirstTruthy(vs: seq<Value>, last: Value): Value {
    if vs == [] then last
    else if Truthy(vs[0]) then vs[0]
    else FirstTruthy(vs[1..], last)
  }

  /** The message of the TypeError the engine throws for `v.key` on a
      nullish `v` (V8's wording). */
  function ReadError(v: Value, key: string): string {
    "Cannot read properties of " + (if v.Null? then "null" else "undefined") + " (reading '" + key + "')"
  }

  function TypeError(v: Value, key: string): Api.Thrown {
    Api.Thrown(Str(ReadError(v, key)), "TypeError: " + ReadError(v, key))
  }

  /** The catch block's message once 429 is ruled out: `errorData?.message ||
      errorData?.error || (errorData?.errors ? JSON.stringify(errorData.errors)
      : undefined) || errorObj?.message || String(err)`, then `|| "Network error"`. */
  function FailureMessage(errorData: Value, err: Api.Thrown, stringify: Stringifier): (m: Value)
    ensures Truthy(m)
  {
    var errors := Get(errorData, "errors");
    var msg := Or(Or(Or(Or(Get(errorData, "message"), Get(errorData, "error")),
                        if Truthy(errors) then Str(stringify(errors)) else Undefined),
                     err.message),
                  Str(err.text));
    Or(msg, Str("Network error"))
  }

  /** The chain takes the first truthy candidate in its written order. */
  lemma FailureMessageIsFirstTruthy(errorData: Value, err: Api.Thrown, stringify: Stringifier)
    ensures var errors := Get(errorData, "errors");
            FailureMessage(errorData, err, stringify)
            == FirstTruthy([Get(errorData, "message"), Get(errorData, "error"),
                            if Truthy(errors) then Str(stringify(errors)) else Undefined,
                            err.message, Str(err.text)],
                           Str("Network error"))
  {
    var errors := Get(errorData, "errors");
    var a, b, c, d, e := Get(errorData, "message"), Get(errorData, "error"),
                         if Truthy(errors) then Str(stringify(errors)) else Undefined,
                         err.message, Str(err.text);
    var last := Str("Network error");
    FirstTruthyCons(e, [], last);
    FirstTruthyCons(d, [e], last);
    FirstTruthyCons(c, [d, e], last);
    FirstTruthyCons(b, [c, d, e], last);
    FirstTruthyCons(a, [b, c, d, e], last);
    assert [a] + [b, c, d, e] == [a, b, c, d, e];
  }

  lemma FirstTruthyCons(v: Value, rest: seq<Value>, last: Value)
    ensures FirstTruthy([v] + rest, last) == Or(v, FirstTruthy(rest, last))
  {
    assert ([v] + rest)[1..] == rest;
  }

  /** What the catch block returns for a rejection. */
  function CaughtOutcome(response: Option<Api.ErrorResponse>, err: Api.Thrown, stringify: Stringifier, tooMany: string): Outcome {
    if response.Some? && response.value.status == Some(429) then Outcome(false, Str(tooMany))
    else Outcome(false, FailureMessage(if response.Some? then response.value.data else Undefined, err, stringify))
  }

  /** Whether the answer opens a session: a 2xx status and a truthy `data.token`. */
  predicate Accepted(t: Api.Transport) {
    t.Responded? && InSuccessRange(t.status) && Truthy(Get(t.data, "token"))
  }

  /** What `login` or `register` resolves to for the answer `t`. A nullish
      body makes `data.token` (on a 2xx answer) or `data.message` (otherwise)
      throw, which lands in the catch block. */
  function AuthResult(t: Api.Transport, stringify: Stringifier, tooMany: string): Outcome {
    match t
    case Responded(status, _, data) =>
      if InSuccessRange(status) && Nullish(data) then CaughtOutcome(None, TypeError(data, "token"), stringify, tooMany)
      else if InSuccessRange(status) && Truthy(Get(data, "token")) then Outcome(true, Undefined)
      else if Nullish(data) then CaughtOutcome(None, TypeError(data, "message"), stringify, tooMany)
      else Outcome(false, Or(Get(data, "message"), Get(data, "error")))
    case Failed(response, err) => CaughtOutcome(response, err, stringify, tooMany)
  }

  /** Login succeeds iff the status is 2xx and the body carries a truthy
      token. A rejected request always explains itself with a non-empty
      message, and a 429 always with the fixed one. */
  lemma ResultCases(t: Api.Transport, stringify: Stringifier, tooMany: string)
    requires tooMany == LoginTooMany || tooMany == RegisterTooMany
    ensures AuthResult(t, stringify, tooMany).ok <==> Accepted(t)
    ensures AuthResult(t, stringify, tooMany).ok ==> AuthResult(t, stringify, tooMany).message == Undefined
    ensures t.Failed? ==> Truthy(AuthResult(t, stringify, tooMany).message)
    ensures Api.ErrorStatus(t) == Some(429) ==> AuthResult(t, stringify, tooMany) == Outcome(false, Str(tooMany))
    ensures t.Responded? && !Nullish(t.data) && !Accepted(t) ==>
              AuthResult(t, stringify, tooMany).message == Or(Get(t.data, "message"), Get(t.data, "error"))
  {
  }

  /** The storage after the answer `t`: on success the token, as a string,
      and the user, serialised, when there is one. */
  function StorageAfter(storage: map<string, string>, t: Api.Transport, stringify: Stringifier): map<string, string> {
    if !Accepted(t) then storage
    else
      var withToken := storage["token" := ToJsString(Get(t.data, "token"))];
      if Truthy(Get(t.data, "user")) then withToken["user" := stringify(Get(t.data, "user"))] else withToken
  }

  function SessionAfter(s: Session, t: Api.Transport): Session {
    if !Accepted(t) then s
    else Session(Get(t.data, "token"), if Truthy(Get(t.data, "user")) then Get(t.data, "user") else s.user)
  }

  /** The mount effect: a stored token is taken as is; a stored user is
      parsed, and text that does not parse gives `null`. */
  function Restored(storage: map<string, string>, parse: Parser, s: Session): (r: Session)
    ensures HasItem(storage, "token") ==> r.token == Str(storage["token"])
    ensures !HasItem(storage, "token") ==> r.token == s.token
    ensures !HasItem(storage, "user") ==> r.user == s.user
    ensures HasItem(storage, "user") ==> r.user == parse(storage["user"]).GetOr(Null)
  {
    Session(if HasItem(storage, "token") then Str(storage["token"]) else s.token,
            if HasItem(storage, "user") then parse(storage["user"]).GetOr(Null) else s.user)
  }

  /** Both session keys gone, everything else as it was. */
  function SignedOut(storage: map<string, string>): map<string, string> {
    storage - {"token", "user"}
  }

  /** Logging out after logging in leaves storage as logging out alone
      would: the login's writes are exactly the two session keys. */
  lemma LogoutUndoesLogin(storage: map<string, string>, t: Api.Transport, stringify: Stringifier)
    ensures SignedOut(StorageAfter(storage, t, stringify)) == SignedOut(storage)
  {
  }

  /** A session survives a reload: after a login whose token is a string and
      whose user serialises and parses back, the mount effect restores the
      same token and user from storage. */
  lemma SessionSurvivesReload(storage: map<string, string>, t: Api.Transport, stringify: Stringifier,
                              parse: Parser, s: Session, reloaded: Session)
    requires Accepted(t) && Get(t.data, "token").Str?
    requires Truthy(Get(t.data, "user")) && parse(stringify(Get(t.data, "user"))) == Some(Get(t.data, "user"))
    requires stringify(Get(t.data, "user")) != ""
    ensures Restored(StorageAfter(storage, t, stringify), parse, reloaded) == SessionAfter(s, t)
  {
  }

  /** `useAuth()`: the context's value, or the error it throws outside a provider. */
  function UseAuth(ctx: Option<AuthProvider>): (r: Js.Result<AuthProvider>)
    ensures r.Ok? <==> ctx.Some?
    ensures r.Ok? ==> r.value == ctx.value
    ensures r.Err? ==> r.message == OutsideProvider
  {
    if ctx.Some? then Ok(ctx.value) else Err(OutsideProvider)
  }

  class AuthProvider {
    var token: Value
    var user: Value
    var loading: bool

    function State(): Session
      reads this
    {
      Session(token, user)
    }

    constructor ()
      ensures token == Null && user == Null && loading
    {
      token, user, loading := Null, Null, true;
    }

    /** The mount effect. */
    method Init(win: Window, parse: Parser)
      modifies this
      ensures State() == Restored(win.storage, parse, old(State()))
      ensures !loading
    {
      var t := Item(win.storage, "token");
      var u := Item(win.storage, "user");
      if t.Some? && t.value != "" {
        token := Str(t.value);
      }
      if u.Some? && u.value != "" {
        user := parse(u.value).GetOr(Null);
      }
      loading := false;
    }

    /** The body `login` and `register` share: post `payload` to `path` and
        act on the answer `t`. */
    method Authenticate(win: Window, stringify: Stringifier, path: string, payload: Value,
                        t: Api.Transport, tooMany: string) returns (r: Outcome)
      modifies this, win
      ensures r == AuthResult(t, stringify, tooMany)
      ensures State() == SessionAfter(old(State()), t) && loading == old(loading)
      ensures win.storage == StorageAfter(old(win.storage), t, stringify)
      ensures win.sent == old(win.sent) + [Request("POST", DefaultBase + path, payload)]
      ensures win.signals == old(win.signals) && win.route == old(win.route)
    {
      win.Send(Request("POST", DefaultBase + path, payload));
      match t {
        case Responded(status, _, data) =>
          if InSuccessRange(status) && Nullish(data) {
            r := CaughtOutcome(None, TypeError(data, "token"), stringify, tooMany);
          } else if InSuccessRange(status) && Truthy(Get(data, "token")) {
            win.SetItem("token", ToJsString(Get(data, "token")));
            token := Get(data, "token");
            if Truthy(Get(data, "user")) {
              win.SetItem("user", stringify(Get(data, "user")));
              user := Get(data, "user");
            }
            r := Outcome(true, Undefined);
          } else if Nullish(data) {
            r := CaughtOutcome(None, TypeError(data, "message"), stringify, tooMany);
          } else {
            r := Outcome(false, Or(Get(data, "message"), Get(data, "error")));
          }
        case Failed(response, err) =>
          r := CaughtOutcome(response, err, stringify, tooMany);
      }
    }

    /** `login(email, password)` answered by `t`. */
    method Login(win: Window, stringify: Stringifier, email: string, password: string, t: Api.Transport)
      returns (r: Outcome)
      modifies this, win
      ensures r == AuthResult(t, stringify, LoginTooMany)
      ensures State() == SessionAfter(old(State()), t) && loading == old(loading)
      ensures win.storage == StorageAfter(old(win.storage), t, stringify)
      ensures win.sent == old(win.sent)
                + [Request("POST", DefaultBase + LoginPath, Obj(map["email" := Str(email), "password" := Str(password)]))]
      ensures win.signals == old(win.signals) && win.route == old(win.route)
    {
      r := Authenticate(win, stringify, LoginPath, Obj(map["email" := Str(email), "password" := Str(password)]), t, LoginTooMany);
    }

    /** `register(payload)` answered by `t`. */
    method Register(win: Window, stringify: Stringifier, payload: Value, t: Api.Transport) returns (r: Outcome)
      modifies this, win
      ensures r == AuthResult(t, stringify, RegisterTooMany)
      ensures State() == SessionAfter(old(State()), t) && loading == old(loading)
      ensures win.storage == StorageAfter(old(win.storage), t, stringify)
      ensures win.sent == old(win.sent) + [Request("POST", DefaultBase + RegisterPath, payload)]
      ensures win.signals == old(win.signals) && win.route == old(win.route)
    {
      r := Authenticate(win, stringify, RegisterPath, payload, t, RegisterTooMany);
    }

    /** `refresh()`: the current user from `/api/auth/me`, or `null` when the
        request fails. */
    method Refresh(win: Window, t: Api.Transport)
      modifies this, win
      ensures user == (if t.Responded? && !Nullish(t.data) then t.data else Null)
      ensures token == old(token) && loading == old(loading)
      ensures win.sent == old(win.sent) + [Request("GET", DefaultBase + MePath, Undefined)]
      ensures win.storage == old(win.storage) && win.signals == old(win.signals) && win.route == old(win.route)
    {
      win.Send(Request("GET", DefaultBase + MePath, Undefined));
      if t.Responded? && !Nullish(t.data) {
        user := t.data;
      } else {
        user := Null;
      }
    }

    /** `logout()` */
    method Logout(win: Window)
      modifies this, win
      ensures token == Null && user == Null && loading == old(loading)
      ensures win.storage == SignedOut(old(win.storage))
      ensures win.route == old(win.route) + ["/login"]
      ensures win.sent == old(win.sent) && win.signals == old(win.signals)
    {
      win.RemoveItem("token");
      win.RemoveItem("user");
      token, user := Null, Null;
      win.Navigate("/login");
    }
  }
}
