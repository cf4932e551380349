/** The feed page (app/feed/page.tsx): one form both creates posts and edits
    them. While `editingId` is set, submitting updates that post; otherwise
    it creates one. The page talks to the posts endpoint with `fetch`
    directly, and the token it sends is the one in storage. A reload
    `fetchPosts()` the handlers start without awaiting runs to completion
    inside them with its own answer. */
module Feed {
  import opened Js
  import opened Browser

  const PostsUrl: string := "http://localhost:5000/api/posts"
  const NotLoggedIn: string := "You must be logged in to post."
  const SaveFailed: string := "Failed to save post"

  /** The form's state. */
  datatype Form = Form(content: string, editingId: Option<string>, message: string)

  /** `editingId ? …`: a non-empty id selects edit mode. */
  predicate Editing(f: Form) {
    f.editingId.Some? && f.editingId.value != ""
  }

  /** The request a submit sends: PUT to the post's URL in edit mode, POST
      to the collection otherwise, with the content as the JSON body. */
  function SubmitRequest(f: Form): (r: Request)
    ensures r.verb == "PUT" <==> Editing(f)
    ensures r.verb == "POST" <==> !Editing(f)
    ensures r.url == (if Editing(f) then PostsUrl + "/" + f.editingId.value else PostsUrl)
    ensures r.body == Obj(map["content" := Str(f.content)])
  {
    if Editing(f) then Request("PUT", PostsUrl + "/" + f.editingId.value, Obj(map["content" := Str(f.content)]))
    else Request("POST", PostsUrl, Obj(map["content" := Str(f.content)]))
  }

  /** The form after a submit with a token present, answered by `o`. The
      message reports the mode the submit was made in. */
  function Submitted(f: Form, o: FetchOutcome): Form {
    if FetchOk(o) then Form("", None, if Editing(f) then "Post updated!" else "Post created!")
    else f.(message := SaveFailed)
  }

  /** `handleEdit(id, content)` */
  function Edited(f: Form, id: string, content: string): Form {
    f.(editingId := Some(id), content := content)
  }

  /** After a successful save the form is back in create mode and empty;
      after a failed one it still holds the same request, ready to retry. */
  lemma SaveOutcome(f: Form, o: FetchOutcome)
    ensures FetchOk(o) ==> SubmitRequest(Submitted(f, o)) == Request("POST", PostsUrl, Obj(map["content" := Str("")]))
    ensures !FetchOk(o) ==> SubmitRequest(Submitted(f, o)) == SubmitRequest(f)
    ensures FetchOk(o) ==> (Submitted(f, o).message == "Post updated!" <==> Editing(f))
  {
  }

  /** Editing a post and submitting sends that post's new content to its URL. */
  lemma EditThenSubmitUpdates(f: Form, id: string, content: string)
    requires id != ""
    ensures SubmitRequest(Edited(f, id, content)) == Request("PUT", PostsUrl + "/" + id, Obj(map["content" := Str(content)]))
  {
  }

  /** What `fetchPosts()` leaves in `posts`: the parsed body of any response,
      whatever its status; the old value when the request or the parse fails. */
  function PostsAfter(posts: Value, o: FetchOutcome): Value {
    if o.Response? && o.body.Some? then o.body.value else posts
  }

  class FeedPage {
    var posts: Value
    var content: string
    var editingId: Option<string>
    var message: string

    function State(): Form
      reads this
    {
      Form(content, editingId, message)
    }

    constructor ()
      ensures posts == Arr([]) && State() == Form("", None, "")
    {
      posts, content, editingId, message := Arr([]), "", None, "";
    }

    /** `fetchPosts()` answered by `o`. */
    method FetchPosts(win: Window, o: FetchOutcome)
      modifies this, win
      ensures posts == PostsAfter(old(posts), o) && State() == old(State())
      ensures win.sent == old(win.sent) + [Request("GET", PostsUrl, Undefined)]
      ensures win.storage == old(win.storage) && win.signals == old(win.signals) && win.route == old(win.route)
    {
      win.Send(Request("GET", PostsUrl, Undefined));
      if o.Response? && o.body.Some? {
        posts := o.body.value;
      }
    }

    /** `handleSubmit` answered by `o`; after a successful save the reload
        is answered by `reload`. Without a token nothing is sent. */
    method HandleSubmit(win: Window, o: FetchOutcome, reload: FetchOutcome)
      modifies this, win
      ensures !HasItem(old(win.storage), "token") ==>
                State() == old(State()).(message := NotLoggedIn) && posts == old(posts) && win.sent == old(win.sent)
      ensures HasItem(old(win.storage), "token") ==>
                State() == Submitted(old(State()), o)
                && win.sent == old(win.sent) + [SubmitRequest(old(State()))]
                             + (if FetchOk(o) then [Request("GET", PostsUrl, Undefined)] else [])
                && posts == (if FetchOk(o) then PostsAfter(old(posts), reload) else old(posts))
      ensures win.storage == old(win.storage) && win.signals == old(win.signals) && win.route == old(win.route)
    {
      if !HasItem(win.storage, "token") {
        message := NotLoggedIn;
        return;
      }
      var editing := editingId.Some? && editingId.value != "";
      win.Send(SubmitRequest(State()));
      if !FetchOk(o) {
        message := SaveFailed;
        return;
      }
      content := "";
      editingId := None;
      message := if editing then "Post updated!" else "Post created!";
      FetchPosts(win, reload);
    }

    /** `handleEdit(id, content)` */
    method HandleEdit(id: string, newContent: string)
      modifies this
      ensures State() == Edited(old(State()), id, newContent) && posts == old(posts)
    {
      editingId := Some(id);
      content := newContent;
    }

    /** `handleDelete(id)`: any response, whatever its status, counts as
        deleted and reloads (answered by `reload`); only a rejected request
        reports the failure. */
    method HandleDelete(win: Window, id: string, o: FetchOutcome, reload: FetchOutcome)
      modifies this, win
      ensures message == (if o.NetworkError? then "Failed to delete post" else "Post deleted!")
      ensures content == old(content) && editingId == old(editingId)
      ensures posts == (if o.NetworkError? then old(posts) else PostsAfter(old(posts), reload))
      ensures win.sent == old(win.sent) + [Request("DELETE", PostsUrl + "/" + id, Undefined)]
                           + (if o.NetworkError? then [] else [Request("GET", PostsUrl, Undefined)])
      ensures win.storage == old(win.storage) && win.signals == old(win.signals) && win.route == old(win.route)
    {
      win.Send(Request("DELETE", PostsUrl + "/" + id, Undefined));
      if o.NetworkError? {
        message := "Failed to delete post";
      } else {
        message := "Post deleted!";
        FetchPosts(win, reload);
      }
    }
  }
}
