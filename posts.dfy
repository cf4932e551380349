/** The "My Posts" page (app/posts/page.tsx): it loads the posts once on
    mount when a token is stored, and deletes a post by id, dropping it from
    the list it already holds. */
module Posts {
  import opened Js
  import opened Browser
  import Lists

  const PostsUrl: string := "http://localhost:5000/api/posts"
  const NotLoggedIn: string := "You must be logged in to view posts."
  const LoadFailed: string := "Failed to load posts."

  /** `p.id`, the key the delete filters on. */
  function PostId(p: Value): Value {
    Get(p, "id")
  }

  /** `posts.filter((p) => p.id !== id)`, kept only when it completes: on a
      value that is not an array, or an array with a `null` or `undefined`
      entry, the call throws inside the handler's try and `posts` stays. */
  function Filtered(posts: Value, id: string): (r: Value)
    ensures r == posts || (posts.Arr? && r == Arr(Lists.Without(posts.items, PostId, Str(id))))
  {
    if posts.Arr? && forall i :: 0 <= i < |posts.items| ==> !Nullish(posts.items[i])
    then Arr(Lists.Without(posts.items, PostId, Str(id)))
    else posts
  }

  /** On a list of posts, deleting removes exactly the posts with that id,
      keeps the rest in order, and deleting again changes nothing. */
  lemma DeleteRemovesExactly(items: seq<Value>, id: string, x: Value)
    requires forall i :: 0 <= i < |items| ==> !Nullish(items[i])
    ensures Filtered(Arr(items), id).Arr?
    ensures x in Filtered(Arr(items), id).items <==> x in items && PostId(x) != Str(id)
    ensures Filtered(Filtered(Arr(items), id), id) == Filtered(Arr(items), id)
  {
    Lists.WithoutKeeps(items, PostId, Str(id), x);
    var kept := Lists.Without(items, PostId, Str(id));
    forall i | 0 <= i < |kept|
      ensures !Nullish(kept[i])
    {
      Lists.WithoutKeeps(items, PostId, Str(id), kept[i]);
    }
    Lists.WithoutIdempotent(items, PostId, Str(id));
  }

  class PostsPage {
    var posts: Value
    var loading: bool
    var message: string

    constructor ()
      ensures posts == Arr([]) && loading && message == ""
    {
      posts, loading, message := Arr([]), true, "";
    }

    /** The mount effect's `fetchPosts()` answered by `o`. Without a token
        it returns before the try, so `loading` stays true. */
    method FetchPosts(win: Window, o: FetchOutcome)
      modifies this, win
      ensures !HasItem(old(win.storage), "token") ==>
                message == NotLoggedIn && loading == old(loading) && posts == old(posts) && win.sent == old(win.sent)
      ensures HasItem(old(win.storage), "token") ==>
                !loading
                && win.sent == old(win.sent) + [Request("GET", PostsUrl, Undefined)]
                && (o.Response? && o.body.Some? ==> posts == o.body.value && message == old(message))
                && (!(o.Response? && o.body.Some?) ==> posts == old(posts) && message == LoadFailed)
      ensures win.storage == old(win.storage) && win.signals == old(win.signals) && win.route == old(win.route)
    {
      if !HasItem(win.storage, "token") {
        message := NotLoggedIn;
        return;
      }
      win.Send(Request("GET", PostsUrl, Undefined));
      if o.Response? && o.body.Some? {
        posts := o.body.value;
      } else {
        message := LoadFailed;
      }
      loading := false;
    }

    /** `handleDelete(id)` answered by `o`: whatever the status, the post is
        dropped from the list; a rejected request leaves the list alone. */
    method HandleDelete(win: Window, id: string, o: FetchOutcome)
      modifies this, win
      ensures posts == (if o.NetworkError? then old(posts) else Filtered(old(posts), id))
      ensures loading == old(loading) && message == old(message)
      ensures win.sent == old(win.sent) + [Request("DELETE", PostsUrl + "/" + id, Undefined)]
      ensures win.storage == old(win.storage) && win.signals == old(win.signals) && win.route == old(win.route)
    {
      win.Send(Request("DELETE", PostsUrl + "/" + id, Undefined));
      if !o.NetworkError? {
        posts := Filtered(posts, id);
      }
    }
  }
}
