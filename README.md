# friend_blog client core in Dafny

A model of the client-side core of friend_blog, a Next.js social blog. It covers:

- The API helper `apiFetch` (lib/api.ts), which normalises every answer into `{res, data}` and raises window events on 401 and 403.
- The session store (AuthContext).
- The global 401/403 handler.
- The toast queue.
- The notification hook with its socket handlers.
- The follow-request counter with its backoff polling.
- The follow-requests, notifications, feed, posts and users pages.

The browser is one object, `Browser.Window`. It holds:

- `localStorage`, as a map from keys to strings;
- the window events dispatched so far, as a sequence of `Signal`s;
- the requests sent, each recorded as a verb, a URL and the JSON value of its body;
- the routes pushed.

Each page or hook is a class whose fields are its React state. Each handler is a method that runs to completion. The answers its requests receive are parameters:

- `Api.Transport` for what the axios instance yields;
- `Browser.FetchOutcome` for `fetch`.

Follow-up requests that a handler starts without awaiting (reloads, the acceptance notification) also run inside the handler, with their own answer parameter. Each method's contract ties its new state to pure functions. The properties the program relies on are proved about those functions as lemmas.

JavaScript's value semantics live in module `Js`:

- truthiness, `?.`, `||` and `String(v)`;
- `JSON.parse` and `JSON.stringify`, passed in as functions.

The polling effect of `useFollowRequestsCount` leaks timers as written. Module `PollEffect` models the effect as written, React effect re-runs included, and exhibits the leak. Module `FollowRequests` models the evidently intended poller, and the counter class uses it (see Findings).

Where the specification of the system and the code disagree, the model follows the code:

- Type tags are not normalised. The hook tags follow requests "follow-request", while the notifications page matches "follow_request".
- Notifications are not loaded in bulk; the list holds only pushed ones.
- The unread counter is incremental, not exact. It can drift from the number of unread items: the same notification delivered on both channels is counted twice. Marking read lowers the counter by one even when the id is absent or already read, where the specification calls that a no-op.

## Model

| member | source | states |
|---|---|---|
| Api.ResolveUrl | friend_blog/lib/api.ts:23 | an input starting with "http" is used as is; any other input is appended to the base URL |
| Api.ResolveUrlIdempotent | friend_blog/lib/api.ts:23 | a resolved URL is absolute and resolves to itself |
| Api.MethodOrGet | friend_blog/lib/api.ts:28 | the request method is the given one when non-empty, else GET |
| Api.Normalize | friend_blog/lib/api.ts:35-76 | `ok` holds iff the request resolved with a 2xx status; a resolved answer keeps status, text and data; an error response keeps its status (default 0), status text (default "") and data; no response gives the fixed network-error result |
| Api.Raised | friend_blog/lib/api.ts:50-61 | at most one event is raised, and one is raised exactly for an error response with status 401 or 403 |
| Api.Fetch | friend_blog/lib/api.ts:19-78 | returns the normalised result; appends exactly the one request; removes the token exactly on a 401; dispatches exactly the raised events; leaves the route alone |
| Toasts.ExpireUndoesShow | friend_blog/app/components/ToastProvider.tsx:24-28 | the timed removal of a freshly added toast gives back the queue as it was before `showToast` |
| Toasts.ExpireOldest | friend_blog/app/components/ToastProvider.tsx:26-28 | with distinct ascending ids, filtering out the oldest id drops exactly the oldest toast and keeps the rest in order |
| Toasts.UseToast | friend_blog/app/components/ToastProvider.tsx:56-59 | yields the context inside a provider, and otherwise the error with its fixed message |
| Toasts.ToastProvider.constructor | friend_blog/app/components/ToastProvider.tsx:20 | the queue starts empty with no timers |
| Toasts.ToastProvider.Show | friend_blog/app/components/ToastProvider.tsx:23-29 | appends one toast under a fresh id with the given kind (default info) and starts its timer; keeps every pending toast timed |
| Toasts.ToastProvider.Expire | friend_blog/app/components/ToastProvider.tsx:26-28 | the oldest timer removes exactly its own toast |
| Lists.WithoutAppend | friend_blog/app/follow/requests/page.tsx:96 | filtering distributes over concatenation |
| Lists.WithoutRemovesKey | friend_blog/app/follow/requests/page.tsx:96 | no element with the removed key survives |
| Lists.WithoutKeeps | friend_blog/app/posts/page.tsx:47 | an element survives iff it was present and has a different key |
| Lists.WithoutAbsent | friend_blog/app/components/ToastProvider.tsx:27 | removing an absent key changes nothing |
| Lists.WithoutIdempotent | friend_blog/app/posts/page.tsx:47 | removing a key twice is removing it once |
| Lists.WithoutHead | friend_blog/app/components/ToastProvider.tsx:27 | a key only the first element carries removes exactly that element |
| Auth.FailureMessage | friend_blog/app/context/AuthContext.tsx:111-118 | the catch block's message is always truthy |
| Auth.FailureMessageIsFirstTruthy | friend_blog/app/context/AuthContext.tsx:112-118 | the message is the first truthy of message, error, serialised errors, the error's message and `String(err)`, else "Network error" |
| Auth.FirstTruthyCons | friend_blog/app/context/AuthContext.tsx:112-117 | a chain of `\|\|` unfolds one operand at a time |
| Auth.ResultCases | friend_blog/app/context/AuthContext.tsx:67-120 | login succeeds iff the status is 2xx and the body carries a truthy token; a rejection always carries a truthy message; a 429 gives the fixed rate-limit text; any other answer gives `message \|\| error` |
| Auth.Restored | friend_blog/app/context/AuthContext.tsx:52-65 | a stored token is restored as is; a stored user is parsed, and text that does not parse gives null; absent keys keep the state |
| Auth.LogoutUndoesLogin | friend_blog/app/context/AuthContext.tsx:72-79 | a login writes only the two session keys, so logging out afterwards equals logging out alone |
| Auth.SessionSurvivesReload | friend_blog/app/context/AuthContext.tsx:52-79 | after a successful login, the mount effect restores the same token and user from storage |
| Auth.UseAuth | friend_blog/app/context/AuthContext.tsx:198-202 | yields the context inside a provider, and otherwise the error with its fixed message |
| Auth.AuthProvider.constructor | friend_blog/app/context/AuthContext.tsx:38-40 | no token, no user, loading |
| Auth.AuthProvider.Init | friend_blog/app/context/AuthContext.tsx:52-65 | the session is the restored one and loading ends |
| Auth.AuthProvider.Authenticate | friend_blog/app/context/AuthContext.tsx:67-179 | the shared login/register body: result, session and storage as the answer dictates, one POST sent |
| Auth.AuthProvider.Login | friend_blog/app/context/AuthContext.tsx:67-120 | posts email and password to the login path and resolves as `ResultCases` describes |
| Auth.AuthProvider.Register | friend_blog/app/context/AuthContext.tsx:122-179 | posts the payload to the register path with its own rate-limit text |
| Auth.AuthProvider.Refresh | friend_blog/app/context/AuthContext.tsx:42-50 | the user becomes the answer's data, or null when it is nullish or the request fails |
| Auth.AuthProvider.Logout | friend_blog/app/context/AuthContext.tsx:181-187 | both session keys removed, token and user null, route /login |
| GlobalErrors.RaisedSignalsAreHandled | friend_blog/app/hooks/useGlobalErrorHandler.ts:13-33 | every event `apiFetch` raises carries the status the handler checks; a 403 toast shows the response's message or the default |
| GlobalErrors.UnauthorizedRequest | friend_blog/app/hooks/useGlobalErrorHandler.ts:13-22 | an `apiFetch` call answered by a 401, with its event delivered to the mounted handler, ends with storage exactly as after a logout, the route at /login and one "Session expired" toast; unmounted, only the token goes |
| GlobalErrors.GlobalErrorHandler.constructor | friend_blog/app/hooks/useGlobalErrorHandler.ts:36-37 | the listeners are registered on mount |
| GlobalErrors.GlobalErrorHandler.Unmount | friend_blog/app/hooks/useGlobalErrorHandler.ts:41-44 | the cleanup removes the listeners |
| GlobalErrors.GlobalErrorHandler.Deliver | friend_blog/app/hooks/useGlobalErrorHandler.ts:13-45 | a 401 signs out, shows "Session expired" and routes to /login; a 403 shows only a toast; anything else, or an unmounted handler, changes nothing |
| Notifications.PushSignals | friend_blog/app/hooks/useNotifications.ts:59-64 | a push raises the increment event iff it is tagged "follow-request" |
| Notifications.ReceivedPrepends | friend_blog/app/hooks/useNotifications.ts:54-58 | a push prepends exactly that item and bumps the counter iff it is unread |
| Notifications.MarkedReadAt | friend_blog/app/hooks/useNotifications.ts:124-126 | marking maps item by item: only items with the id change, and only their read flag |
| Notifications.MarkedReadLength | friend_blog/app/hooks/useNotifications.ts:125 | marking keeps the list's length |
| Notifications.MarkedReadIdempotent | friend_blog/app/hooks/useNotifications.ts:124-126 | marking the same id twice is marking it once |
| Notifications.MarkedReadAbsent | friend_blog/app/hooks/useNotifications.ts:124-126 | marking an id no item carries leaves the list unchanged |
| Notifications.MarkedReadUnread | friend_blog/app/hooks/useNotifications.ts:124-126 | the number of unread items drops by exactly the unread items carrying the id |
| Notifications.ReceivedConsistent | friend_blog/app/hooks/useNotifications.ts:54-58 | a push keeps the counter between 0 and the list's length |
| Notifications.MarkReadConsistent | friend_blog/app/hooks/useNotifications.ts:123-128 | marking read keeps the counter between 0 and the list's length |
| Notifications.MarkReadUndoesReceive | friend_blog/app/hooks/useNotifications.ts:54-58 | marking a freshly pushed unread item restores the counter and leaves the item in place, now read |
| Notifications.ExactCounterAfterPush | friend_blog/app/hooks/useNotifications.ts:55-58 | a push keeps the counter exact if it was |
| Notifications.ExactCounterAfterMark | friend_blog/app/hooks/useNotifications.ts:123-128 | after a mark the counter stays exact iff exactly one unread item carried the id, or none did and the counter was 0 |
| Notifications.DuplicateDeliveryLeavesCounterHigh | friend_blog/app/hooks/useNotifications.ts:54-81 | one notification delivered on both channels and marked read once leaves the counter at 1 with no unread item |
| Notifications.ThreePushes | friend_blog/app/hooks/useNotifications.ts:54-65 | like, comment and follow-request pushes give the list newest first, a counter of 3 and one increment event |
| Notifications.ResolveUserId | friend_blog/app/hooks/useNotifications.ts:28-41 | the stored user's truthy id, else the legacy key; a stored user that does not parse gives undefined without trying the legacy key |
| Notifications.UserChannel | friend_blog/app/hooks/useNotifications.ts:68-69 | the per-user channel exists iff a user id resolves, and is "user:" followed by it |
| Notifications.NotificationsHook.constructor | friend_blog/app/hooks/useNotifications.ts:19-20 | empty list, counter 0 |
| Notifications.NotificationsHook.Activate | friend_blog/app/hooks/useNotifications.ts:22-102 | without a token nothing happens; the first activation with a token creates the socket bound to this hook, with the token and the resolved user channel; later ones change nothing |
| Notifications.NotificationsHook.Receive | friend_blog/app/hooks/useNotifications.ts:54-81 | state is the pushed reduction; events as `PushSignals` |
| Notifications.NotificationsHook.MarkAsRead | friend_blog/app/hooks/useNotifications.ts:104-132 | without a token nothing is sent; otherwise one POST, and only an ok answer marks the items and lowers the counter (floored at 0) |
| Notifications.Socket.constructor | friend_blog/app/hooks/useNotifications.ts:16 | no socket yet |
| Notifications.Socket.Deliver | friend_blog/app/hooks/useNotifications.ts:54-81 | a push on the broadcast or the registered user channel reaches the bound hook; any other is ignored |
| Notifications.Socket.Connect | friend_blog/app/hooks/useNotifications.ts:84-89 | raises "socket:connected" once the handlers exist |
| Notifications.Socket.Disconnect | friend_blog/app/hooks/useNotifications.ts:91-96 | raises "socket:disconnected" once the handlers exist |
| NotificationsView.RenderTitle | friend_blog/app/notifications/page.tsx:9-18 | the four known tags get their own sentence with the actor; any other tag gets the generic title, and only those do |
| NotificationsView.FalsyActorIsSomeone | friend_blog/app/notifications/page.tsx:9-18 | a missing or empty actor name reads as "Someone" |
| NotificationsView.HookFollowRequestGetsDefaultTitle | friend_blog/app/notifications/page.tsx:13 | a follow request tagged by the hook never gets the follow-request title |
| NotificationsView.Detail | friend_blog/app/notifications/page.tsx:47-57 | a string is its own detail; an object's `message` field is; anything else gives null |
| NotificationsView.MarkHidesButton | friend_blog/app/notifications/page.tsx:68 | after an accepted mark no item with that id shows the button, and every other item shows it as before |
| RequestsPage.GetCurrentUsername | friend_blog/app/follow/requests/page.tsx:24-33 | the stored user's `username`, or undefined when no user is stored or it does not parse |
| RequestsPage.LoadToastCases | friend_blog/app/follow/requests/page.tsx:35-55 | a load either lists the requests or shows one error toast, never both; 401 and 403 have fixed texts; otherwise the text names the body, else the status text, else the numeric status |
| RequestsPage.Find | friend_blog/app/follow/requests/page.tsx:83 | the request found is the first in the list with that id; none found means no request has it |
| RequestsPage.NotifyBody | friend_blog/app/follow/requests/page.tsx:61-80 | a notification is posted iff the request names its sender |
| RequestsPage.NotifyFallsBackWithoutName | friend_blog/app/follow/requests/page.tsx:71 | without a username the message reads "Your follow request was accepted" |
| RequestsPage.NotificationRendersAsAccepted | friend_blog/app/follow/requests/page.tsx:61-80 | the posted notification renders with the acceptance title naming the user, and its message as the detail |
| RequestsPage.FollowRequestsPage.constructor | friend_blog/app/follow/requests/page.tsx:20-21 | no requests, not loading |
| RequestsPage.FollowRequestsPage.LoadRequests | friend_blog/app/follow/requests/page.tsx:35-55 | an ok array answer replaces the list; any other answer adds exactly the `LoadToast` toast; loading ends; a 401 drops the stored token, and the raised events are appended |
| RequestsPage.FollowRequestsPage.NotifyRequester | friend_blog/app/follow/requests/page.tsx:61-80 | posts `NotifyBody` when there is one, and nothing otherwise |
| RequestsPage.FollowRequestsPage.AcceptRequest | friend_blog/app/follow/requests/page.tsx:82-108 | on ok: the request is dropped, a success toast is shown, the refresh event is raised, then the requester is notified; otherwise: list unchanged, an error toast with the detail or "Accept failed"; a 401 on the accept or on the notification drops the stored token |
| RequestsPage.FollowRequestsPage.RejectRequest | friend_blog/app/follow/requests/page.tsx:110-132 | on ok: the request is dropped, an info toast is shown, the refresh event is raised; otherwise an error toast with the detail or "Reject failed"; a 401 drops the stored token |
| RequestsPage.HandledRequestIsGone | friend_blog/app/follow/requests/page.tsx:96 | after an accept or reject no request with the id remains, every other one does, and it can no longer be found |
| RequestsPage.FindAbsent | friend_blog/app/follow/requests/page.tsx:83 | in a list without the id, nothing is found |
| Backoff.NextDelay | friend_blog/app/hooks/useFollowRequests.ts:67 | the next delay never exceeds the cap; stays in range and does not shrink; doubles below half the cap |
| Backoff.DelayAfterClosedForm | friend_blog/app/hooks/useFollowRequests.ts:53-67 | after n polls the delay is min(120000, 15000 * 2^n) |
| Backoff.DelayAfterInRange | friend_blog/app/hooks/useFollowRequests.ts:53-67 | every delay lies between 15000 and 120000 |
| Backoff.DelayAfterMonotone | friend_blog/app/hooks/useFollowRequests.ts:67 | the schedule never shrinks |
| Backoff.DelaySchedule | friend_blog/app/hooks/useFollowRequests.ts:53-67 | the schedule is 15000, 30000, 60000, then 120000 for good |
| PollEffect.Start | friend_blog/app/hooks/useFollowRequests.ts:73-77 | a run starts at the base delay and arms a timer iff disconnected |
| PollEffect.Rerun | friend_blog/app/hooks/useFollowRequests.ts:79-84 | a re-run cleans the current run and appends a new run; earlier runs are untouched |
| PollEffect.Cleaned | friend_blog/app/hooks/useFollowRequests.ts:79-83 | the cleanup leaves no pending timer but cannot stop a fired one |
| PollEffect.SetDisconnected | friend_blog/app/hooks/useFollowRequests.ts:31-32 | the connectivity flag takes the new value and loading is kept; the effect re-runs exactly when the value changes |
| PollEffect.SetLoading | friend_blog/app/hooks/useFollowRequests.ts:12 | the loading flag takes the new value and connectivity is kept; the effect re-runs exactly when the value changes, which is what makes every poll re-run it |
| PollEffect.RerunWellFormed | friend_blog/app/hooks/useFollowRequests.ts:50-84 | re-running keeps every delay in range and timers only in disconnected runs |
| PollEffect.SetDisconnectedWellFormed | friend_blog/app/hooks/useFollowRequests.ts:31-32 | a connectivity change keeps the effect well formed |
| PollEffect.SetLoadingWellFormed | friend_blog/app/hooks/useFollowRequests.ts:12-21 | a loading change keeps the effect well formed |
| PollEffect.FireWellFormed | friend_blog/app/hooks/useFollowRequests.ts:60-70 | a timer firing keeps the effect well formed |
| PollEffect.SettleWellFormed | friend_blog/app/hooks/useFollowRequests.ts:65-69 | a poll settling keeps the effect well formed |
| PollEffect.PollSurvivesReconnect | friend_blog/app/hooks/useFollowRequests.ts:50-84 | as written: disconnect, one poll, reconnect leaves a timer pending while connected (two were pending at once before); it later polls while connected |
| PollEffect.QuickReconnectNeverPolls | friend_blog/app/hooks/useFollowRequests.ts:79-83 | reconnecting before the first tick clears the only timer |
| FollowRequests.RefreshKeepsCountUnlessListed | friend_blog/app/hooks/useFollowRequests.ts:11-23 | the count becomes the list's length only on an ok array answer; any failure keeps it; it never goes negative |
| FollowRequests.StepPreservesValid | friend_blog/app/hooks/useFollowRequests.ts:50-84 | every event keeps the delay in range and a pending timer only while mounted and disconnected |
| FollowRequests.NoTimerWhileConnected | friend_blog/app/hooks/useFollowRequests.ts:57-59 | after any sequence of events, no timer is pending while connected |
| FollowRequests.ConnectedStopsPolling | friend_blog/app/hooks/useFollowRequests.ts:79-83 | the connected event clears the pending timer, so no tick can fire, even with a poll in flight |
| FollowRequests.DisconnectResetsDelay | friend_blog/app/hooks/useFollowRequests.ts:73-77 | disconnecting resets the delay to 15000 and arms a fresh timer, superseding a poll in flight |
| FollowRequests.RedisconnectDuringPollRestartsSchedule | friend_blog/app/hooks/useFollowRequests.ts:73-77 | a disconnect that arrives while a poll is in flight leaves the next timer at 15000 ms, and the superseded poll's answer does not change it |
| FollowRequests.TickRefreshesOnlyWhenIdle | friend_blog/app/hooks/useFollowRequests.ts:61-69 | a tick refreshes only when not loading; otherwise it doubles the delay and re-arms |
| FollowRequests.PollCyclesFollowSchedule | friend_blog/app/hooks/useFollowRequests.ts:57-71 | each poll while disconnected moves the delay one step along the schedule |
| FollowRequests.DisconnectedSchedule | friend_blog/app/hooks/useFollowRequests.ts:53-77 | a disconnect followed by n polls leaves the delay at min(120000, 15000 * 2^n) |
| FollowRequests.ReconnectLeavesNoTimer | friend_blog/app/hooks/useFollowRequests.ts:50-84 | the sequence that leaks in the code as written leaves no timer here |
| FollowRequests.UnmountStopsPolling | friend_blog/app/hooks/useFollowRequests.ts:79-83 | unmounting clears a pending timer, and a poll in flight does not re-arm |
| FollowRequests.FollowRequestsCounter.constructor | friend_blog/app/hooks/useFollowRequests.ts:7-9 | count 0, connected, the mount refresh in flight |
| FollowRequests.FollowRequestsCounter.Apply | friend_blog/app/hooks/useFollowRequests.ts:50-84 | the polling state follows `Step` and stays valid |
| FollowRequests.FollowRequestsCounter.Deliver | friend_blog/app/hooks/useFollowRequests.ts:25-47 | an increment event adds exactly one; refresh and connectivity events drive the poller, and a poll superseded by a disconnect settles as an ordinary refresh; after unmount nothing changes |
| FollowRequests.FollowRequestsCounter.RefreshSettled | friend_blog/app/hooks/useFollowRequests.ts:11-23 | a refresh sends one GET, sets the count as `CountAfter` and ends loading; a 401 drops the stored token; the route is unchanged |
| FollowRequests.FollowRequestsCounter.Tick | friend_blog/app/hooks/useFollowRequests.ts:60-64 | the pending timer fires as `Step` says |
| FollowRequests.FollowRequestsCounter.PollSettled | friend_blog/app/hooks/useFollowRequests.ts:65-69 | a poll's refresh settles and sets the count as `CountAfter`; the timer is re-armed iff mounted and still disconnected; a 401 drops the stored token |
| FollowRequests.FollowRequestsCounter.Unmount | friend_blog/app/hooks/useFollowRequests.ts:39-46 | listeners gone and no timer pending |
| Feed.SubmitRequest | friend_blog/app/feed/page.tsx:46-76 | PUT to the post's URL iff editing, else POST to the collection, with the content as body |
| Feed.SaveOutcome | friend_blog/app/feed/page.tsx:46-76 | a successful save returns the form to create mode and empty, and reports the mode used; a failed one keeps the same request for a retry |
| Feed.EditThenSubmitUpdates | friend_blog/app/feed/page.tsx:79-82 | editing a post and submitting sends the new content to that post's URL |
| Feed.FeedPage.constructor | friend_blog/app/feed/page.tsx:19-22 | no posts, empty form |
| Feed.FeedPage.FetchPosts | friend_blog/app/feed/page.tsx:29-39 | any parsed body, whatever the status, replaces the posts |
| Feed.FeedPage.HandleSubmit | friend_blog/app/feed/page.tsx:46-76 | without a token only the message changes; otherwise `SubmitRequest` is sent, the form becomes `Submitted`, and a success reloads |
| Feed.FeedPage.HandleEdit | friend_blog/app/feed/page.tsx:79-82 | the form enters edit mode with the post's content |
| Feed.FeedPage.HandleDelete | friend_blog/app/feed/page.tsx:85-97 | any answer counts as deleted and reloads; only a rejected request reports failure |
| Posts.Filtered | friend_blog/app/posts/page.tsx:47 | the posts either stay or become the list without that id |
| Posts.DeleteRemovesExactly | friend_blog/app/posts/page.tsx:40-51 | deleting removes exactly the posts with that id, keeps the rest, and a second delete changes nothing |
| Posts.PostsPage.constructor | friend_blog/app/posts/page.tsx:11-14 | no posts, loading, no message |
| Posts.PostsPage.FetchPosts | friend_blog/app/posts/page.tsx:16-35 | without a token only the message is set and loading stays; otherwise a parsed body replaces the posts and a failure sets the message |
| Posts.PostsPage.HandleDelete | friend_blog/app/posts/page.tsx:40-51 | any answer drops the post; a rejected request keeps the list |
| Users.FollowingIds | friend_blog/app/users/page.tsx:27-35 | the ids are defined iff the data is an array whose entries all have an id, and are their string forms in order |
| Users.ButtonMatchesToggle | friend_blog/app/users/page.tsx:78-89 | only the user's own entry lacks a button; "Unfollow" means the click sends DELETE, "Follow" means POST |
| Users.ToggleFlips | friend_blog/app/users/page.tsx:37-46 | when the refetch answers with the list the toggle produced, the page adopts it, the next toggle goes the other way, and two toggles restore whether the user is followed |
| Users.UsersPage.constructor | friend_blog/app/users/page.tsx:13-16 | empty search, no users, no follows |
| Users.UsersPage.FetchUsers | friend_blog/app/users/page.tsx:20-25 | an ok answer with truthy data replaces the users; one GET sent; a 401 drops the stored token |
| Users.UsersPage.Search | friend_blog/app/users/page.tsx:61-64 | the search text is set and the users are fetched for it, with the same window effects as `FetchUsers` |
| Users.UsersPage.FetchFollowing | friend_blog/app/users/page.tsx:27-35 | without a stored user id nothing is sent; otherwise the follows become `FollowingAfter` the answer, and the answer's events and token removal apply |
| Users.UsersPage.ToggleFollow | friend_blog/app/users/page.tsx:37-46 | DELETE if followed else POST, then the follows are refetched; either answer's 401 drops the stored token and both answers' events are appended in order |
| Browser.Window.RemoveItem | friend_blog/lib/api.ts:51 | removes exactly that key |
| Browser.Window.SetItem | friend_blog/app/context/AuthContext.tsx:73 | sets exactly that key |
| Browser.Window.Dispatch | friend_blog/lib/api.ts:52-54 | appends exactly that event |

## Left out

- socket.io: the connection, its reconnection policy and its transport are not modelled. The server's pushes and the connection's ups and downs are method calls on `Notifications.Socket`.
- Timers and durations: toast and poll timers are events the caller fires. Toast timers all last 3200 ms, so they fire oldest first; the real clock is not modelled.
- `crypto.randomUUID` is replaced by a counter, which gives the same freshness.
- `NEXT_PUBLIC_API_URL` is not read; the base URL is the default "http://localhost:5000".
- Request headers are not recorded: the Authorization header, and the axios instance's interceptor that adds it. app/utils/axios.ts is not part of this model.
- The `typeof window` guards are not modelled: the model always runs in a browser.
- Console logging is not modelled.
- `JSON.parse`, `JSON.stringify` and `encodeURIComponent` are foreign functions passed in as parameters.
- Numbers are integers; JavaScript's floating point is not modelled.
- Interleavings are not modelled. Each handler, with any follow-up it starts, runs to completion atomically. Stale closures captured by concurrent handlers and `setState` after unmount are not modelled.
- Window events are recorded in `Browser.Window` and delivered by the caller after the handler that raised them, through `GlobalErrorHandler.Deliver` and `FollowRequestsCounter.Deliver`. In the browser, `dispatchEvent` runs the listeners at once, inside the handler. The order of toasts between a page and the global handler is therefore not captured: on a 401 in `loadRequests`, the browser shows "Session expired" before the page's own toast. `GlobalErrors.UnauthorizedRequest` composes the two in the browser's order for a single request.
- Api.Fetch: takes the parsed request body. A body that does not parse as JSON would make `apiFetch` resolve to the network-error result; no caller in the model passes one. Other axios options are not modelled.
- The catch blocks of `loadRequests` (friend_blog/app/follow/requests/page.tsx:49-51) and `notifyRequester` (:77-79) are not modelled: `apiFetch` never rejects, so they are unreachable. The catches of `acceptRequest` and `rejectRequest` are reached by the error those handlers throw on a non-ok answer, and are modelled as the failure toasts.
- RequestsPage.RequestId: a `null` entry in the pending list is treated as a request without an id. In the code, `find` at friend_blog/app/follow/requests/page.tsx:83 would throw outside the handler's try. The declared `PendingRequest[]` type excludes such entries.
- Auth.ReadError: uses V8's wording for the TypeError thrown by reading a property of null or undefined.
- GlobalErrors.ForbiddenText: shows a non-string message through `String(v)`, as React would render it.
- JSX rendering is not modelled beyond the title, detail and button rules of the notifications page, the follow buttons of the users page, and the toast queue. Date formatting is not modelled either.
- FollowRequests.FollowRequestsCounter: follows the corrected poller, not the leaking code. The code as written is `PollEffect` (see Findings). In the corrected poller, a disconnect during a poll in flight arms a fresh 15000 ms timer, as the effect's re-run does. The superseded poll settles as an ordinary refresh, without doubling the delay or arming a second timer.

## Findings

| source | as written | input that shows it | evidently intended | confidence | as-written member | corrected member |
|---|---|---|---|---|---|---|
| friend_blog/app/hooks/useFollowRequests.ts:50-84 | the effect depends on `loading`, which every `refresh()` toggles; the cleanup clears only a timer that has not fired, so the fired run's `finally` re-arms a timer no cleanup ever clears | socket disconnects, the first 15 s poll fires and settles, socket reconnects: a timer is still pending while connected, and two were pending before the reconnect | at most one poll timer, none while connected, the delay doubling from 15 s to 2 min | not executed | PollEffect.PollSurvivesReconnect | FollowRequests.NoTimerWhileConnected |
