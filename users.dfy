/** The user search page (app/users/page.tsx): it lists users matching a
    query, remembers whom the stored user follows, and toggles following.
    Its requests go through `apiFetch`. */
module Users {
  import opened Js
  import opened Browser
  import Api
  import Lists

  const FollowBase: string := "http://localhost:5000/api/follow"

  /** `encodeURIComponent`, foreign code. */
  type Encoder = string -> string

  function UsersPath(q: string, encode: Encoder): string {
    "/api/auth/users?q=" + encode(q)
  }

  /** `(data as User[]).map((u) => u.id.toString())`, or `None` when it
      throws: the data is not an array, or an entry has no `id`. */
  function FollowingIds(data: Value): (ids: Option<seq<string>>)
    ensures ids.Some? <==> data.Arr? && forall i :: 0 <= i < |data.items| ==> !Nullish(Get(data.items[i], "id"))
    ensures ids.Some? ==> |ids.value| == |data.items|
                          && forall i :: 0 <= i < |data.items| ==> ids.value[i] == ToJsString(Get(data.items[i], "id"))
  {
    if data.Arr? && forall i :: 0 <= i < |data.items| ==> !Nullish(Get(data.items[i], "id")) then
      Some(seq(|data.items|, i requires 0 <= i < |data.items| => ToJsString(Get(data.items[i], "id"))))
    else None
  }

  /** `following` after `fetchFollowing()` got `r`: the returned ids when
      the response is ok with truthy data that maps without throwing. */
  function FollowingAfter(following: seq<string>, r: Api.ApiResult): seq<string> {
    if r.res.ok && Truthy(r.data) && FollowingIds(r.data).Some? then FollowingIds(r.data).value else following
  }

  function FollowingPath(userId: string): string {
    "/api/follow/" + userId + "/following"
  }

  /** The method `toggleFollow(id)` uses. */
  function ToggleVerb(following: seq<string>, id: string): string {
    if id in following then "DELETE" else "POST"
  }

  /** The button shown for a user whose `id.toString()` is `uid`: none for
      the stored user's own id, otherwise "Unfollow" or "Follow". */
  function FollowButton(storage: map<string, string>, following: seq<string>, uid: string): Option<string> {
    if Item(storage, "userId") == Some(uid) then None
    else Some(if uid in following then "Unfollow" else "Follow")
  }

  /** The button and the toggle agree: it reads "Unfollow" exactly when
      clicking it unfollows, and only the stored user's own id has none. */
  lemma ButtonMatchesToggle(storage: map<string, string>, following: seq<string>, uid: string)
    ensures FollowButton(storage, following, uid).None? <==> "userId" in storage && storage["userId"] == uid
    ensures FollowButton(storage, following, uid) == Some("Unfollow") ==> ToggleVerb(following, uid) == "DELETE"
    ensures FollowButton(storage, following, uid) == Some("Follow") ==> ToggleVerb(following, uid) == "POST"
  {
  }

  /** The list the server holds once a toggle of `id` has taken effect:
      without `id` after an unfollow, with it appended after a follow. */
  function Toggled(following: seq<string>, id: string): seq<string> {
    if id in following then Lists.Without(following, (s: string) => s, id) else following + [id]
  }

  /** When the refetch answers with the list the toggle produced, the page
      adopts it, and the next toggle of the same user goes the other way;
      two such toggles restore whether the user is followed. */
  lemma ToggleFlips(following: seq<string>, id: string, r: Api.ApiResult)
    requires r.res.ok && Truthy(r.data) && FollowingIds(r.data) == Some(Toggled(following, id))
    ensures FollowingAfter(following, r) == Toggled(following, id)
    ensures ToggleVerb(FollowingAfter(following, r), id) != ToggleVerb(following, id)
    ensures id in Toggled(Toggled(following, id), id) <==> id in following
  {
    Lists.WithoutKeeps(following, (s: string) => s, id, id);
    var once := Toggled(following, id);
    if id !in following {
      assert id in once by { assert once[|following|] == id; }
      Lists.WithoutKeeps(once, (s: string) => s, id, id);
    }
  }

  class UsersPage {
    var search: string
    var users: Value
    var following: seq<string>

    constructor ()
      ensures search == "" && users == Arr([]) && following == []
    {
      search, users, following := "", Arr([]), [];
    }

    /** `fetchUsers(q)` answered by `t`: the list is replaced only by an ok
        response with truthy data. */
    method FetchUsers(win: Window, encode: Encoder, q: string, t: Api.Transport)
      modifies this, win
      ensures var r := Api.Normalize(t);
              users == (if r.res.ok && Truthy(r.data) then r.data else old(users))
      ensures following == old(following) && search == old(search)
      ensures win.sent == old(win.sent) + [Request("GET", Api.ResolveUrl(UsersPath(q, encode)), Undefined)]
      ensures win.signals == old(win.signals) + Api.Raised(t) && win.route == old(win.route)
      ensures win.storage == if Api.ClearsToken(t) then old(win.storage) - {"token"} else old(win.storage)
    {
      var r := Api.Fetch(win, UsersPath(q, encode), None, Undefined, t);
      if r.res.ok && Truthy(r.data) {
        users := r.data;
      }
    }

    /** Typing in the search box: `setSearch` and `fetchUsers` with the new text. */
    method Search(win: Window, encode: Encoder, q: string, t: Api.Transport)
      modifies this, win
      ensures search == q && following == old(following)
      ensures var r := Api.Normalize(t);
              users == (if r.res.ok && Truthy(r.data) then r.data else old(users))
      ensures win.sent == old(win.sent) + [Request("GET", Api.ResolveUrl(UsersPath(q, encode)), Undefined)]
      ensures win.signals == old(win.signals) + Api.Raised(t) && win.route == old(win.route)
      ensures win.storage == if Api.ClearsToken(t) then old(win.storage) - {"token"} else old(win.storage)
    {
      search := q;
      FetchUsers(win, encode, q, t);
    }

    /** `fetchFollowing()` answered by `t`. Without a stored "userId" no
        request is made. */
    method FetchFollowing(win: Window, t: Api.Transport)
      modifies this, win
      ensures !HasItem(old(win.storage), "userId") ==> following == old(following) && win.sent == old(win.sent)
      ensures HasItem(old(win.storage), "userId") ==>
                var r := Api.Normalize(t);
                win.sent == old(win.sent) + [Request("GET", Api.ResolveUrl(FollowingPath(old(win.storage)["userId"])), Undefined)]
                && following == FollowingAfter(old(following), r)
      ensures users == old(users) && search == old(search)
      ensures win.storage == (if HasItem(old(win.storage), "userId") && Api.ClearsToken(t) then old(win.storage) - {"token"} else old(win.storage))
      ensures win.signals == old(win.signals) + (if HasItem(old(win.storage), "userId") then Api.Raised(t) else [])
      ensures win.route == old(win.route)
    {
      var userId := Item(win.storage, "userId");
      if userId.None? || userId.value == "" {
        return;
      }
      var r := Api.Fetch(win, FollowingPath(userId.value), None, Undefined, t);
      if r.res.ok && Truthy(r.data) {
        var ids := FollowingIds(r.data);
        if ids.Some? {
          following := ids.value;
        }
      }
    }

    /** `toggleFollow(id)` answered by `t`, then the refetch answered by `reload`. */
    method ToggleFollow(win: Window, id: string, t: Api.Transport, reload: Api.Transport)
      modifies this, win
      ensures var refetch := HasItem(old(win.storage), "userId");
              win.sent == old(win.sent) + [Request(ToggleVerb(old(following), id), FollowBase + "/" + id, Undefined)]
                            + (if refetch then [Request("GET", Api.ResolveUrl(FollowingPath(old(win.storage)["userId"])), Undefined)] else [])
              && following == (if refetch then FollowingAfter(old(following), Api.Normalize(reload)) else old(following))
      ensures users == old(users) && search == old(search)
      ensures var refetch := HasItem(old(win.storage), "userId");
              win.storage == (if Api.ClearsToken(t) || (refetch && Api.ClearsToken(reload)) then old(win.storage) - {"token"} else old(win.storage))
              && win.signals == old(win.signals) + Api.Raised(t) + (if refetch then Api.Raised(reload) else [])
      ensures win.route == old(win.route)
    {
      assert StartsWith(FollowBase + "/" + id, "http") by {
        assert FollowBase[..4] == "http";
        StartsWithAppend(FollowBase, "/" + id, "http");
        assert FollowBase + "/" + id == FollowBase + ("/" + id);
      }
      var verb := ToggleVerb(following, id);
      var _ := Api.Fetch(win, FollowBase + "/" + id, Some(verb), Undefined, t);
      FetchFollowing(win, reload);
    }
  }
}
