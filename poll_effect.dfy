/** The polling effect of `useFollowRequestsCount`
    (app/hooks/useFollowRequests.ts:50-84) as written, with React's effect
    semantics spelled out.

    Every time one of its dependencies `[socketDisconnected, refresh, loading]`
    changes, React runs the previous run's cleanup and then the effect again.
    Each run has its own `delay` and `timeoutId` and captures the values of
    `socketDisconnected` and `loading` it was created with. The cleanup clears
    the run's `timeoutId`, but only a timer that has not fired yet can be
    cleared: a run whose timer fired and is awaiting `refresh()` goes on, and
    its `finally` schedules a new timer that no cleanup will ever clear.
    Because `refresh()` itself toggles `loading`, every poll re-runs the
    effect, so this happens on the very first poll. */
module PollEffect {
  import opened Backoff

  /** Where one run's timer stands: none pending, one pending, or fired and
      awaiting the `refresh()` it started. */
  datatype Phase = Idle | Armed | Awaiting

  /** One run of the effect: the values it captured, and its own `delay`. */
  datatype Run = Run(disconnected: bool, loading: bool, delay: int, phase: Phase)

  /** The hook's two state variables the effect reads, and every run so far;
      the last run is the current one. */
  datatype Hook = Hook(disconnected: bool, loading: bool, runs: seq<Run>)

  /** A run of the effect body: `delay = baseDelay; schedule()` when disconnected. */
  function Start(disconnected: bool, loading: bool): (r: Run)
    ensures r.delay == BaseDelay
    ensures r.phase == Armed <==> disconnected
  {
    Run(disconnected, loading, BaseDelay, if disconnected then Armed else Idle)
  }

  /** The first render: connected and not loading. */
  function Mounted(): Hook {
    Hook(false, false, [Start(false, false)])
  }

  /** The effect re-runs: the current run's cleanup clears its pending timer
      (a timer that already fired is not affected), then a new run starts
      from the current state. */
  function Rerun(h: Hook): (h': Hook)
    requires h.runs != []
    ensures h'.disconnected == h.disconnected && h'.loading == h.loading
    ensures |h'.runs| == |h.runs| + 1
    ensures h'.runs[|h.runs|] == Start(h.disconnected, h.loading)
    ensures forall i :: 0 <= i < |h.runs| - 1 ==> h'.runs[i] == h.runs[i]
    ensures h'.runs[|h.runs| - 1] == Cleaned(h.runs[|h.runs| - 1])
  {
    var n := |h.runs|;
    Hook(h.disconnected, h.loading, h.runs[..n - 1] + [Cleaned(h.runs[n - 1]), Start(h.disconnected, h.loading)])
  }

  /** `if (timeoutId) window.clearTimeout(timeoutId)` */
  function Cleaned(r: Run): (c: Run)
    ensures c.phase != Armed
    ensures r.phase == Awaiting ==> c == r
  {
    if r.phase == Armed then r.(phase := Idle) else r
  }

  /** `setSocketDisconnected(b)`: the effect re-runs only if the value changed. */
  function SetDisconnected(h: Hook, b: bool): (h': Hook)
    requires h.runs != []
    ensures h'.disconnected == b && h'.loading == h.loading
    ensures b == h.disconnected ==> h' == h
    ensures b != h.disconnected ==> h' == Rerun(h.(disconnected := b))
  {
    if b == h.disconnected then h else Rerun(h.(disconnected := b))
  }

  /** `setLoading(b)`: the effect re-runs only if the value changed. */
  function SetLoading(h: Hook, b: bool): (h': Hook)
    requires h.runs != []
    ensures h'.loading == b && h'.disconnected == h.disconnected
    ensures b == h.loading ==> h' == h
    ensures b != h.loading ==> h' == Rerun(h.(loading := b))
  {
    if b == h.loading then h else Rerun(h.(loading := b))
  }

  /** The finally block: `delay = Math.min(maxDelay, delay * 2); schedule()`,
      where `schedule` arms a timer only if the captured `socketDisconnected`
      is true. */
  function Rescheduled(r: Run): Run {
    r.(delay := NextDelay(r.delay), phase := if r.disconnected then Armed else Idle)
  }

  /** Run `i`'s timer fires. With the captured `loading` false it calls
      `refresh()`, whose first act is `setLoading(true)`; otherwise it goes
      straight to the finally block. */
  function Fire(h: Hook, i: nat): Hook
    requires i < |h.runs| && h.runs[i].phase == Armed
  {
    var r := h.runs[i];
    if !r.loading then SetLoading(h.(runs := h.runs[i := r.(phase := Awaiting)]), true)
    else h.(runs := h.runs[i := Rescheduled(r)])
  }

  /** The `refresh()` awaited by run `i` settles: its `finally` sets `loading`
      to false, then run `i`'s own finally block reschedules. */
  function Settle(h: Hook, i: nat): Hook
    requires i < |h.runs| && h.runs[i].phase == Awaiting
  {
    var h1 := SetLoading(h, false);
    h1.(runs := h1.runs[i := Rescheduled(h1.runs[i])])
  }

  /** What the code evidently keeps: every run's delay within
      [baseDelay, maxDelay], and a pending timer only in a run that saw the
      socket disconnected. */
  ghost predicate WellFormed(h: Hook) {
    h.runs != []
    && (forall i :: 0 <= i < |h.runs| ==> InRange(h.runs[i].delay))
    && (forall i :: 0 <= i < |h.runs| && h.runs[i].phase == Armed ==> h.runs[i].disconnected)
  }

  /** How many timers are pending at once. */
  function ArmedCount(runs: seq<Run>): (k: nat)
    ensures k <= |runs|
  {
    if runs == [] then 0
    else (if runs[0].phase == Armed then 1 else 0) + ArmedCount(runs[1..])
  }

  lemma {:induction false} RerunWellFormed(h: Hook)
    requires WellFormed(h)
    ensures WellFormed(Rerun(h))
  {
    var h' := Rerun(h);
    forall i | 0 <= i < |h'.runs|
      ensures InRange(h'.runs[i].delay)
      ensures h'.runs[i].phase == Armed ==> h'.runs[i].disconnected
    {
      if i < |h.runs| - 1 {
        assert h'.runs[i] == h.runs[i];
      } else if i == |h.runs| - 1 {
        assert h'.runs[i].delay == h.runs[i].delay;
      }
    }
  }

  lemma SetDisconnectedWellFormed(h: Hook, b: bool)
    requires WellFormed(h)
    ensures WellFormed(SetDisconnected(h, b))
  {
    if b != h.disconnected {
      RerunWellFormed(h.(disconnected := b));
    }
  }

  lemma SetLoadingWellFormed(h: Hook, b: bool)
    requires WellFormed(h)
    ensures WellFormed(SetLoading(h, b))
  {
    if b != h.loading {
      RerunWellFormed(h.(loading := b));
    }
  }

  /** The effect as written keeps its delays in range and arms timers only in
      runs that saw a disconnect, whatever happens. */
  lemma FireWellFormed(h: Hook, i: nat)
    requires WellFormed(h) && i < |h.runs| && h.runs[i].phase == Armed
    ensures WellFormed(Fire(h, i))
  {
    var r := h.runs[i];
    if !r.loading {
      var h0 := h.(runs := h.runs[i := r.(phase := Awaiting)]);
      assert WellFormed(h0) by {
        forall j | 0 <= j < |h0.runs|
          ensures InRange(h0.runs[j].delay)
        {
          if j != i {
            assert h0.runs[j] == h.runs[j];
          }
        }
      }
      SetLoadingWellFormed(h0, true);
    } else {
      var h0 := h.(runs := h.runs[i := Rescheduled(r)]);
      assert WellFormed(h0) by {
        forall j | 0 <= j < |h0.runs|
          ensures InRange(h0.runs[j].delay)
        {
          if j != i {
            assert h0.runs[j] == h.runs[j];
          }
        }
      }
    }
  }

  lemma SettleWellFormed(h: Hook, i: nat)
    requires WellFormed(h) && i < |h.runs| && h.runs[i].phase == Awaiting
    ensures WellFormed(Settle(h, i))
  {
    var h1 := SetLoading(h, false);
    SetLoadingWellFormed(h, false);
    var h2 := h1.(runs := h1.runs[i := Rescheduled(h1.runs[i])]);
    assert WellFormed(h2) by {
      forall j | 0 <= j < |h2.runs|
        ensures InRange(h2.runs[j].delay)
      {
        if j != i {
          assert h2.runs[j] == h1.runs[j];
        }
      }
    }
  }

  /** The defect: the socket drops, the first poll fires, its refresh
      settles, and the socket comes back. The socket is connected again, yet
      run 1 still has a timer pending, and that timer will start a refresh
      while connected and then arm itself again at the doubled delay,
      for ever. Before the reconnect two timers were pending at once. */
  lemma {:induction false} PollSurvivesReconnect()
    ensures var h1 := SetDisconnected(Mounted(), true);
            var h2 := Fire(h1, 1);
            var h3 := Settle(h2, 1);
            var h4 := SetDisconnected(h3, false);
            ArmedCount(h3.runs) == 2
            && !h4.disconnected
            && |h4.runs| == 5
            && h4.runs[1].phase == Armed
            && h4.runs[1].delay == DelayAfter(1)
            && var h5 := Fire(h4, 1);
               !h5.disconnected && h5.loading && h5.runs[1].phase == Awaiting
  {
    var h0 := Mounted();
    var h1 := SetDisconnected(h0, true);
    assert h1.runs == [Run(false, false, BaseDelay, Idle), Run(true, false, BaseDelay, Armed)];
    var h2 := Fire(h1, 1);
    assert h2.runs == [Run(false, false, BaseDelay, Idle), Run(true, false, BaseDelay, Awaiting), Run(true, true, BaseDelay, Armed)];
    assert h2.loading;
    var h3 := Settle(h2, 1);
    assert h3.runs == [Run(false, false, BaseDelay, Idle), Run(true, false, DelayAfter(1), Armed),
                       Run(true, true, BaseDelay, Idle), Run(true, false, BaseDelay, Armed)];
    assert ArmedCount(h3.runs) == 2 by {
      var rs := h3.runs;
      assert rs[1..][1..][1..][1..] == [];
      assert ArmedCount(rs[1..][1..][1..]) == 1;
      assert ArmedCount(rs[1..][1..]) == 1;
      assert ArmedCount(rs[1..]) == 2;
    }
    var h4 := SetDisconnected(h3, false);
    assert h4.runs == [Run(false, false, BaseDelay, Idle), Run(true, false, DelayAfter(1), Armed),
                       Run(true, true, BaseDelay, Idle), Run(true, false, BaseDelay, Idle),
                       Run(false, false, BaseDelay, Idle)];
    var h5 := Fire(h4, 1);
    assert h5.loading && h5.runs[1].phase == Awaiting;
  }

  /** Reconnecting before the first tick: the reconnect's cleanup clears the
      one pending timer, so no poll is ever made. */
  lemma QuickReconnectNeverPolls()
    ensures ArmedCount(SetDisconnected(SetDisconnected(Mounted(), true), false).runs) == 0
  {
    var h := SetDisconnected(SetDisconnected(Mounted(), true), false);
    assert h.runs == [Run(false, false, BaseDelay, Idle), Run(true, false, BaseDelay, Idle), Run(false, false, BaseDelay, Idle)];
    assert h.runs[1..][1..][1..] == [];
  }
}
