/** `apiFetch` (lib/api.ts): resolves the URL, issues the request through the
    axios instance and normalises whatever comes back into `{res, data}` with
    `res = {ok, status, statusText}`. An error response with status 401 also
    drops the stored token and raises "api:error:401"; one with status 403
    raises "api:error:403". `apiFetch` itself never rejects. */
module Api {
  import opened Js
  import opened Browser

  /** The `response` of an axios error; each field may be missing. */
  datatype ErrorResponse = ErrorResponse(status: Option<int>, statusText: Option<string>, data: Value)

  /** The thrown error itself: its `message` property and `String(err)`. */
  datatype Thrown = Thrown(message: Value, text: string)

  /** What the axios request yields: a resolved response, or a rejection that
      may carry a response. */
  datatype Transport =
    | Responded(status: int, statusText: string, data: Value)
    | Failed(response: Option<ErrorResponse>, error: Thrown)

  datatype ApiRes = ApiRes(ok: bool, status: int, statusText: string)
  datatype ApiResult = ApiResult(res: ApiRes, data: Value)

  const NetworkErrorResult: ApiResult := ApiResult(ApiRes(false, 0, "network error"), Null)

  /** An input that starts with "http" is used as is; anything else is a path
      under the base URL. */
  function ResolveUrl(input: string): (url: string)
    ensures StartsWith(input, "http") ==> url == input
    ensures !StartsWith(input, "http") ==> url == DefaultBase + input
  {
    if StartsWith(input, "http") then input else DefaultBase + input
  }

  /** Resolving is idempotent: a resolved URL is absolute, so it resolves to itself. */
  lemma ResolveUrlIdempotent(input: string)
    ensures StartsWith(ResolveUrl(input), "http")
    ensures ResolveUrl(ResolveUrl(input)) == ResolveUrl(input)
  {
    if !StartsWith(input, "http") {
      assert DefaultBase[..4] == "http";
      StartsWithAppend(DefaultBase, input, "http");
    }
  }

  /** `opts.method || "GET"` */
  function MethodOrGet(m: Option<string>): (verb: string)
    ensures verb != ""
    ensures m.Some? && m.value != "" ==> verb == m.value
    ensures m.None? || m.value == "" ==> verb == "GET"
  {
    if m.Some? && m.value != "" then m.value else "GET"
  }

  /** The status an error response reports as its status code, if it has one. */
  function ErrorStatus(t: Transport): Option<int> {
    if t.Failed? && t.response.Some? then t.response.value.status else None
  }

  /** The `{res, data}` that `apiFetch` resolves to. */
  function Normalize(t: Transport): (r: ApiResult)
    ensures r.res.ok <==> t.Responded? && InSuccessRange(t.status)
    ensures r.res.ok ==> InSuccessRange(r.res.status)
    ensures t.Responded? ==> r.res.status == t.status && r.res.statusText == t.statusText && r.data == t.data
    ensures t.Failed? && t.response.Some? ==>
              r.res.status == t.response.value.status.GetOr(0)
              && r.res.statusText == t.response.value.statusText.GetOr("")
              && r.data == t.response.value.data
    ensures t.Failed? && t.response.None? ==> r == NetworkErrorResult
  {
    match t
    case Responded(status, statusText, data) =>
      ApiResult(ApiRes(InSuccessRange(status), status, statusText), data)
    case Failed(Some(resp), _) =>
      ApiResult(ApiRes(false, resp.status.GetOr(0), resp.statusText.GetOr("")), resp.data)
    case Failed(None, _) =>
      NetworkErrorResult
  }

  /** Whether this outcome ends the session: only an error response with status 401. */
  predicate ClearsToken(t: Transport) {
    ErrorStatus(t) == Some(401)
  }

  /** The window events `apiFetch` dispatches for an outcome. */
  function Raised(t: Transport): (signals: seq<Signal>)
    ensures |signals| <= 1
    ensures signals != [] <==> ErrorStatus(t) == Some(401) || ErrorStatus(t) == Some(403)
  {
    if ErrorStatus(t) == Some(401) then
      [ApiError401(Obj(map["status" := Num(401)]))]
    else if ErrorStatus(t) == Some(403) then
      [ApiError403(Obj(map["status" := Num(403), "message" := Get(t.response.value.data, "message")]))]
    else
      []
  }

  /** `apiFetch(input, {method, body})` answered by `t`. */
  method Fetch(win: Window, input: string, verb: Option<string>, body: Value, t: Transport) returns (r: ApiResult)
    modifies win
    ensures r == Normalize(t)
    ensures win.sent == old(win.sent) + [Request(MethodOrGet(verb), ResolveUrl(input), body)]
    ensures win.storage == if ClearsToken(t) then old(win.storage) - {"token"} else old(win.storage)
    ensures win.signals == old(win.signals) + Raised(t)
    ensures win.route == old(win.route)
  {
    win.Send(Request(MethodOrGet(verb), ResolveUrl(input), body));
    if t.Failed? && t.response.Some? {
      var resp := t.response.value;
      if resp.status == Some(401) {
        win.RemoveItem("token");
        win.Dispatch(ApiError401(Obj(map["status" := Num(401)])));
      } else if resp.status == Some(403) {
        win.Dispatch(ApiError403(Obj(map["status" := Num(403), "message" := Get(resp.data, "message")])));
      }
    }
    r := Normalize(t);
  }
}
