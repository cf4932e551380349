/** The browser as the application sees it: `localStorage` as a string map,
    the window events it dispatches (in order), the HTTP requests it issues
    (in order) and the routes the router is pushed to. */
module Browser {
  import opened Js

  /** The application's base URL when no environment override is set. */
  const DefaultBase: string := "http://localhost:5000"

  /** The same-process CustomEvents the code dispatches on `window`. */
  datatype Signal =
    | FollowRequestsIncrement            // "follow-requests:increment"
    | FollowRequestsRefresh              // "follow-requests:refresh"
    | SocketConnected                    // "socket:connected"
    | SocketDisconnected                 // "socket:disconnected"
    | ApiError401(detail: Value)         // "api:error:401"
    | ApiError403(detail: Value)         // "api:error:403"

  datatype Request = Request(verb: string, url: string, body: Value)

  /** What `fetch` yields: a response whose body `res.json()` parses (`None`
      when it does not), or a rejection. */
  datatype FetchOutcome =
    | Response(status: int, body: Option<Value>)
    | NetworkError

  /** `Response.ok` */
  predicate InSuccessRange(status: int) {
    200 <= status < 300
  }

  predicate FetchOk(o: FetchOutcome) {
    o.Response? && InSuccessRange(o.status)
  }

  /** `if (localStorage.getItem(key))`: the key is present with a non-empty value. */
  predicate HasItem(storage: map<string, string>, key: string) {
    key in storage && storage[key] != ""
  }

  function Item(storage: map<string, string>, key: string): Option<string> {
    if key in storage then Some(storage[key]) else None
  }

  class Window {
    var storage: map<string, string>
    var signals: seq<Signal>
    var sent: seq<Request>
    var route: seq<string>

    constructor (storage: map<string, string>)
      ensures this.storage == storage && signals == [] && sent == [] && route == []
    {
      this.storage := storage;
      signals, sent, route := [], [], [];
    }

    method RemoveItem(key: string)
      modifies this
      ensures storage == old(storage) - {key}
      ensures signals == old(signals) && sent == old(sent) && route == old(route)
    {
      storage := storage - {key};
    }

    method SetItem(key: string, value: string)
      modifies this
      ensures storage == old(storage)[key := value]
      ensures signals == old(signals) && sent == old(sent) && route == old(route)
    {
      storage := storage[key := value];
    }

    method Dispatch(s: Signal)
      modifies this
      ensures signals == old(signals) + [s]
      ensures storage == old(storage) && sent == old(sent) && route == old(route)
    {
      signals := signals + [s];
    }

    method Send(r: Request)
      modifies this
      ensures sent == old(sent) + [r]
      ensures storage == old(storage) && signals == old(signals) && route == old(route)
    {
      sent := sent + [r];
    }

    /** `router.push(path)` */
    method Navigate(path: string)
      modifies this
      ensures route == old(route) + [path]
      ensures storage == old(storage) && signals == old(signals) && sent == old(sent)
    {
      route := route + [path];
    }
  }
}
