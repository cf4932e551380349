/** The follow-request counter (app/hooks/useFollowRequests.ts):
    `useFollowRequestsCount` keeps `count`, `loading` and `socketDisconnected`,
    sets the count from the length of the pending-request list, bumps it on
    "follow-requests:increment", refreshes on "follow-requests:refresh", and
    while the socket is disconnected polls with a delay that doubles from
    15 s up to 2 min.

    The polling here is the evidently intended one: at most one timer,
    none while connected, and a poll in flight is not followed by another
    once the socket is back. The code as written leaks timers instead; that
    behaviour is in module PollEffect. */
module FollowRequests {
  import opened Js
  import opened Browser
  import opened Backoff
  import Api

  const RequestsPath: string := "/api/follow/requests"

  /** The count after `refresh()` got `{res, data}`: the list's length when
      the response is ok and an array, the old count otherwise. */
  function CountAfter(count: int, r: Api.ApiResult): int {
    if r.res.ok && r.data.Arr? then |r.data.items| else count
  }

  /** A refresh changes the count only on an ok response carrying an array;
      a failed one, whatever the status, keeps the previous count. */
  lemma RefreshKeepsCountUnlessListed(count: int, t: Api.Transport)
    ensures var c := CountAfter(count, Api.Normalize(t));
            (t.Responded? && InSuccessRange(t.status) && t.data.Arr? ==> c == |t.data.items|)
            && (!(t.Responded? && InSuccessRange(t.status) && t.data.Arr?) ==> c == count)
            && (count >= 0 ==> c >= 0)
  {
  }

  /** Where the polling timer stands: none, pending, or fired with its
      refresh in flight. */
  datatype Phase = Idle | Armed | Polling

  /** The polling state of the hook. */
  datatype Poller = Poller(disconnected: bool, loading: bool, delay: int, phase: Phase, mounted: bool)

  /** The hook right after mounting: connected, with the mount's refresh running. */
  const Mounted: Poller := Poller(false, true, BaseDelay, Idle, true)

  /** A pending timer only while mounted and disconnected; the delay within
      [baseDelay, maxDelay]. */
  ghost predicate Valid(p: Poller) {
    InRange(p.delay) && (p.phase == Armed ==> p.disconnected && p.mounted)
  }

  datatype Event =
    | Connected      // "socket:connected"
    | Disconnected   // "socket:disconnected"
    | RefreshStarted // `refresh()` begins outside polling: `setLoading(true)`
    | RefreshDone    // that refresh settles: `setLoading(false)`
    | TimerFired     // the pending timer fires
    | PollDone       // the refresh a poll started settles
    | Unmounted      // the effects' cleanups run

  /** A timer fires only if one is pending; a poll settles only if one is in flight. */
  predicate Enabled(p: Poller, e: Event) {
    match e
    case TimerFired => p.phase == Armed
    case PollDone => p.phase == Polling
    case _ => true
  }

  /** `setSocketDisconnected(b)` while mounted. Going from connected to
      disconnected resets the delay to the base and arms a fresh timer, as
      the effect's re-run does. A poll still in flight is superseded: its
      refresh settles as an ordinary one (`RefreshDone`), without doubling
      the delay or arming a second timer. Going back clears a pending timer. */
  function SetDisconnected(p: Poller, b: bool): Poller {
    if b == p.disconnected then p
    else if b then p.(disconnected := true, delay := BaseDelay, phase := Armed)
    else p.(disconnected := false, phase := if p.phase == Armed then Idle else p.phase)
  }

  function Step(p: Poller, e: Event): Poller
    requires Enabled(p, e)
  {
    match e
    case Connected => if p.mounted then SetDisconnected(p, false) else p
    case Disconnected => if p.mounted then SetDisconnected(p, true) else p
    case RefreshStarted => p.(loading := true)
    case RefreshDone => p.(loading := false)
    case TimerFired =>
      // `if (!loading) await refresh()`, then double the delay and reschedule
      if !p.loading then p.(loading := true, phase := Polling)
      else p.(delay := NextDelay(p.delay))
    case PollDone =>
      p.(loading := false, delay := NextDelay(p.delay),
         phase := if p.disconnected && p.mounted then Armed else Idle)
    case Unmounted => p.(mounted := false, phase := if p.phase == Armed then Idle else p.phase)
  }

  /** Runs a sequence of events; None if one of them was not enabled. */
  function Run(p: Poller, es: seq<Event>): Option<Poller>
    decreases |es|
  {
    if es == [] then Some(p)
    else if !Enabled(p, es[0]) then None
    else Run(Step(p, es[0]), es[1..])
  }

  /** Every event keeps a pending timer tied to a disconnected socket, and
      the delay within its bounds. */
  lemma StepPreservesValid(p: Poller, e: Event)
    requires Valid(p) && Enabled(p, e)
    ensures Valid(Step(p, e))
  {
  }

  /** No poll is ever pending while the socket is connected, in any state
      reachable by any sequence of events. */
  lemma {:induction false} NoTimerWhileConnected(p: Poller, es: seq<Event>)
    requires Valid(p)
    requires Run(p, es).Some?
    ensures Valid(Run(p, es).value)
    ensures Run(p, es).value.phase == Armed ==> Run(p, es).value.disconnected
    decreases |es|
  {
    if es != [] {
      StepPreservesValid(p, es[0]);
      NoTimerWhileConnected(Step(p, es[0]), es[1..]);
    }
  }

  /** A connected signal clears the pending timer; after it no tick can fire. */
  lemma ConnectedStopsPolling(p: Poller)
    requires Valid(p) && p.mounted
    ensures !Step(p, Connected).disconnected
    ensures !Enabled(Step(p, Connected), TimerFired)
  {
  }

  /** Entering the disconnected state resets the delay to 15000 and arms
      the timer, whether or not a poll was in flight. */
  lemma DisconnectResetsDelay(p: Poller)
    requires p.mounted && !p.disconnected
    ensures Step(p, Disconnected).disconnected
    ensures Step(p, Disconnected).delay == BaseDelay
    ensures Step(p, Disconnected).phase == Armed
  {
  }

  /** The socket drops, a poll starts, the socket comes back and drops again
      before the poll settles: the next timer runs at 15000 ms, and the
      superseded poll's answer, settling as an ordinary refresh, leaves it so. */
  lemma RedisconnectDuringPollRestartsSchedule()
    ensures var p := Poller(false, false, BaseDelay, Idle, true);
            var r := Run(p, [Disconnected, TimerFired, Connected, Disconnected, RefreshDone]);
            r.Some? && r.value.phase == Armed && r.value.delay == BaseDelay
            && !Enabled(Run(p, [Disconnected, TimerFired, Connected, Disconnected]).value, PollDone)
  {
    var p := Poller(false, false, BaseDelay, Idle, true);
    var es := [Disconnected, TimerFired, Connected, Disconnected, RefreshDone];
    assert es[1..] == [TimerFired, Connected, Disconnected, RefreshDone];
    assert es[1..][1..] == [Connected, Disconnected, RefreshDone];
    assert es[1..][1..][1..] == [Disconnected, RefreshDone];
    assert es[1..][1..][1..][1..] == [RefreshDone];
    var fs := [Disconnected, TimerFired, Connected, Disconnected];
    assert fs[1..] == [TimerFired, Connected, Disconnected];
    assert fs[1..][1..] == [Connected, Disconnected];
    assert fs[1..][1..][1..] == [Disconnected];
  }

  /** A tick refreshes only when not already loading; either way the delay
      is doubled (up to the cap) and a timer is armed again after it. */
  lemma TickRefreshesOnlyWhenIdle(p: Poller)
    requires Valid(p) && p.phase == Armed
    ensures var q := Step(p, TimerFired);
            (!p.loading ==> q.loading && q.phase == Polling && q.delay == p.delay)
            && (p.loading ==> q.phase == Armed && q.delay == NextDelay(p.delay))
  {
  }

  /** `n` polls in a row: the timer fires, and the refresh it started settles. */
  function PollCycles(n: nat): seq<Event> {
    if n == 0 then [] else [TimerFired, PollDone] + PollCycles(n - 1)
  }

  /** While the socket stays down and nothing else is loading, each poll
      moves the delay one step along 15000, 30000, 60000, 120000, 120000, … */
  lemma {:induction false} PollCyclesFollowSchedule(p: Poller, k: nat, n: nat)
    requires p.mounted && p.disconnected && p.phase == Armed && !p.loading
    requires p.delay == DelayAfter(k)
    ensures Run(p, PollCycles(n)) == Some(p.(delay := DelayAfter(k + n)))
    decreases n
  {
    if n > 0 {
      var es := PollCycles(n);
      var q := Step(p, TimerFired);
      var r := Step(q, PollDone);
      assert es[0] == TimerFired && es[1..][0] == PollDone && es[1..][1..] == PollCycles(n - 1);
      assert r == p.(delay := DelayAfter(k + 1));
      PollCyclesFollowSchedule(r, k + 1, n - 1);
      assert Run(p, es) == Run(r, PollCycles(n - 1));
    }
  }

  /** From connected and quiet, a disconnect followed by `n` polls leaves
      the delay at `min(120000, 15000 * 2^n)`. */
  lemma DisconnectedSchedule(p: Poller, n: nat)
    requires p.mounted && !p.disconnected && p.phase == Idle && !p.loading
    ensures Run(p, [Disconnected] + PollCycles(n))
            == Some(p.(disconnected := true, phase := Armed, delay := Min(MaxDelay, BaseDelay * Pow2(n))))
  {
    var q := Step(p, Disconnected);
    assert ([Disconnected] + PollCycles(n))[1..] == PollCycles(n);
    PollCyclesFollowSchedule(q, 0, n);
    DelayAfterClosedForm(n);
  }

  /** The sequence that leaks a timer in the code as written (the socket
      drops, one poll, the socket comes back) leaves no timer here. */
  lemma ReconnectLeavesNoTimer()
    ensures var p := Poller(false, false, BaseDelay, Idle, true);
            var r := Run(p, [Disconnected, TimerFired, PollDone, Connected]);
            r.Some? && !r.value.disconnected && r.value.phase == Idle
            && !Enabled(r.value, TimerFired)
  {
    var p := Poller(false, false, BaseDelay, Idle, true);
    var es := [Disconnected, TimerFired, PollDone, Connected];
    assert es[1..] == [TimerFired, PollDone, Connected];
    assert es[1..][1..] == [PollDone, Connected];
    assert es[1..][1..][1..] == [Connected];
  }

  /** Unmounting clears a pending timer, and a poll still in flight does not
      arm another one when it settles. */
  lemma UnmountStopsPolling(p: Poller)
    ensures Step(p, Unmounted).phase != Armed
    ensures Step(p, Unmounted).phase == Polling ==> Step(Step(p, Unmounted), PollDone).phase == Idle
  {
  }

  /** The window signals the hook listens to, and the polling event each one is. */
  function SignalEvent(s: Signal): Option<Event> {
    match s
    case SocketConnected => Some(Connected)
    case SocketDisconnected => Some(Disconnected)
    case FollowRequestsRefresh => Some(RefreshStarted)
    case _ => None
  }

  /** `useFollowRequestsCount()` */
  class FollowRequestsCounter {
    var count: int
    var loading: bool
    var socketDisconnected: bool
    /** The polling effect's `delay` and whether its `timeoutId` is pending. */
    var delay: int
    var phase: Phase
    /** Whether the listeners are registered. */
    var mounted: bool
    /** Refreshes whose response is still to come and that are not the
        current poll: those started outside polling, and polls superseded by
        a disconnect. */
    ghost var pendingRefreshes: nat

    function Poll(): Poller
      reads this
    {
      Poller(socketDisconnected, loading, delay, phase, mounted)
    }

    ghost predicate Inv()
      reads this
    {
      Valid(Poll()) && count >= 0
    }

    /** Mounting: the state starts at 0 / false / false and the first effect
        calls `refresh()`. */
    constructor ()
      ensures Inv()
      ensures Poll() == Mounted && count == 0 && pendingRefreshes == 1
    {
      count, loading, socketDisconnected := 0, true, false;
      delay, phase, mounted := BaseDelay, Idle, true;
      pendingRefreshes := 1;
    }

    method Apply(e: Event)
      requires Inv() && Enabled(Poll(), e)
      modifies this
      ensures Inv()
      ensures Poll() == Step(old(Poll()), e)
      ensures count == old(count) && pendingRefreshes == old(pendingRefreshes)
    {
      StepPreservesValid(Poll(), e);
      var p := Step(Poll(), e);
      socketDisconnected, loading, delay, phase, mounted := p.disconnected, p.loading, p.delay, p.phase, p.mounted;
    }

    /** A window event reaches the listeners: an increment adds exactly one,
        a refresh signal starts a refresh, and the connectivity signals set
        `socketDisconnected`. After unmounting nothing listens. */
    method Deliver(s: Signal)
      requires Inv()
      modifies this
      ensures Inv()
      ensures count == if mounted && s == FollowRequestsIncrement then old(count) + 1 else old(count)
      ensures Poll() == if old(mounted) && SignalEvent(s).Some? then Step(old(Poll()), SignalEvent(s).value) else old(Poll())
      ensures pendingRefreshes ==
                if old(mounted) && (s == FollowRequestsRefresh
                                    || (s == SocketDisconnected && !old(socketDisconnected) && old(phase) == Polling))
                then old(pendingRefreshes) + 1 else old(pendingRefreshes)
    {
      if mounted {
        if s == FollowRequestsIncrement {
          count := count + 1;
        } else if SignalEvent(s).Some? {
          if s == FollowRequestsRefresh || (s == SocketDisconnected && !socketDisconnected && phase == Polling) {
            pendingRefreshes := pendingRefreshes + 1;
          }
          Apply(SignalEvent(s).value);
        }
      }
    }

    /** A refresh started outside polling settles with the answer `t`. */
    method RefreshSettled(win: Window, t: Api.Transport)
      requires Inv() && pendingRefreshes > 0
      modifies this, win
      ensures Inv()
      ensures count == CountAfter(old(count), Api.Normalize(t))
      ensures Poll() == Step(old(Poll()), RefreshDone)
      ensures pendingRefreshes == old(pendingRefreshes) - 1
      ensures win.sent == old(win.sent) + [Request("GET", Api.ResolveUrl(RequestsPath), Undefined)]
      ensures win.signals == old(win.signals) + Api.Raised(t)
      ensures win.storage == (if Api.ClearsToken(t) then old(win.storage) - {"token"} else old(win.storage))
              && win.route == old(win.route)
    {
      var r := Api.Fetch(win, RequestsPath, None, Undefined, t);
      count := CountAfter(count, r);
      pendingRefreshes := pendingRefreshes - 1;
      Apply(RefreshDone);
    }

    /** The pending timer fires. */
    method Tick()
      requires Inv() && phase == Armed
      modifies this
      ensures Inv()
      ensures Poll() == Step(old(Poll()), TimerFired)
      ensures count == old(count)
    {
      Apply(TimerFired);
    }

    /** The refresh a poll started settles with the answer `t`; the timer is
        armed again only while mounted and disconnected. */
    method PollSettled(win: Window, t: Api.Transport)
      requires Inv() && phase == Polling
      modifies this, win
      ensures Inv()
      ensures count == CountAfter(old(count), Api.Normalize(t))
      ensures Poll() == Step(old(Poll()), PollDone)
      ensures phase == Armed <==> socketDisconnected && mounted
      ensures win.sent == old(win.sent) + [Request("GET", Api.ResolveUrl(RequestsPath), Undefined)]
      ensures win.signals == old(win.signals) + Api.Raised(t)
      ensures win.storage == (if Api.ClearsToken(t) then old(win.storage) - {"token"} else old(win.storage))
              && win.route == old(win.route)
    {
      var r := Api.Fetch(win, RequestsPath, None, Undefined, t);
      count := CountAfter(count, r);
      Apply(PollDone);
    }

    /** The cleanups: listeners removed, pending timer cleared. */
    method Unmount()
      requires Inv()
      modifies this
      ensures Inv() && !mounted && phase != Armed
      ensures Poll() == Step(old(Poll()), Unmounted)
      ensures count == old(count)
    {
      Apply(Unmounted);
    }
  }
}
