/** The toast queue (app/components/ToastProvider.tsx). `showToast` appends a
    toast under a fresh id and starts a 3200 ms timer that later removes that
    id. Ids come from a counter, which gives the freshness `crypto.randomUUID`
    provides. Every timer has the same duration, so timers fire in the order
    they were started: a tick fires the oldest pending one. */
module Toasts {
  import opened Js
  import Lists

  datatype ToastKind = Success | Error | Info

  datatype Toast = Toast(id: nat, message: string, kind: ToastKind)

  /** How long a toast stays, in milliseconds. */
  const Lifetime: nat := 3200

  const OutsideProvider: string := "useToast must be used within ToastProvider"

  /** The `type` parameter's default. */
  function KindOrInfo(kind: Option<ToastKind>): ToastKind {
    kind.GetOr(Info)
  }

  function ToastId(t: Toast): nat {
    t.id
  }

  function Ids(ts: seq<Toast>): (ids: seq<nat>)
    ensures |ids| == |ts| && forall i :: 0 <= i < |ts| ==> ids[i] == ts[i].id
  {
    seq(|ts|, i requires 0 <= i < |ts| => ts[i].id)
  }

  /** Ids strictly increase along the queue and are all below `bound`. */
  ghost predicate IdsAscendingBelow(ts: seq<Toast>, bound: nat) {
    (forall i, j :: 0 <= i < j < |ts| ==> ts[i].id < ts[j].id)
    && (forall i :: 0 <= i < |ts| ==> ts[i].id < bound)
  }

  /** The timed removal undoes the append: removing the id of a toast that was
      just appended under a fresh id gives back the queue as it was. */
  lemma ExpireUndoesShow(ts: seq<Toast>, t: Toast)
    requires forall i :: 0 <= i < |ts| ==> ts[i].id != t.id
    ensures Lists.Without(ts + [t], ToastId, t.id) == ts
  {
    Lists.WithoutAppend(ts, [t], ToastId, t.id);
    Lists.WithoutAbsent(ts, ToastId, t.id);
    assert Lists.Without([t], ToastId, t.id) == [];
  }

  /** In a queue with distinct ascending ids, the removal keyed by the oldest
      id drops exactly the oldest toast and keeps the rest in order. */
  lemma ExpireOldest(ts: seq<Toast>, bound: nat)
    requires ts != [] && IdsAscendingBelow(ts, bound)
    ensures Lists.Without(ts, ToastId, ts[0].id) == ts[1..]
  {
    assert Lists.NoKey(ts[1..], ToastId, ts[0].id) by {
      forall i | 0 <= i < |ts[1..]|
        ensures ToastId(ts[1..][i]) != ts[0].id
      {
        assert ts[1..][i] == ts[i + 1];
      }
    }
    Lists.WithoutHead(ts, ToastId, ts[0].id);
  }

  /** `useToast()`: the context's value, or the error it throws outside a provider. */
  function UseToast(ctx: Option<ToastProvider>): (r: Result<ToastProvider>)
    ensures r.Ok? <==> ctx.Some?
    ensures r.Ok? ==> r.value == ctx.value
    ensures r.Err? ==> r.message == OutsideProvider
  {
    match ctx
    case Some(p) => Ok(p)
    case None => Err(OutsideProvider)
  }

  class ToastProvider {
    /** The toasts on screen, oldest first. */
    var toasts: seq<Toast>
    /** Ids whose removal timer is pending, oldest first. */
    var timers: seq<nat>
    /** The next fresh id. */
    var nextId: nat

    /** Exactly the toasts on screen have a pending timer, in the same order. */
    ghost predicate Valid()
      reads this
    {
      timers == Ids(toasts) && IdsAscendingBelow(toasts, nextId)
    }

    constructor ()
      ensures Valid() && toasts == [] && timers == []
    {
      toasts, timers, nextId := [], [], 0;
    }

    /** `showToast(message, type)` */
    method Show(message: string, kind: Option<ToastKind>) returns (id: nat)
      requires Valid()
      modifies this
      ensures Valid()
      ensures id == old(nextId) && nextId == old(nextId) + 1
      ensures toasts == old(toasts) + [Toast(id, message, KindOrInfo(kind))]
      ensures timers == old(timers) + [id]
    {
      id := nextId;
      toasts := toasts + [Toast(id, message, KindOrInfo(kind))];
      timers := timers + [id];
      nextId := nextId + 1;
    }

    /** The oldest pending timer fires and removes its toast: `prev.filter(t => t.id !== id)`. */
    method Expire()
      requires Valid()
      modifies this
      ensures Valid() && nextId == old(nextId)
      ensures toasts == if old(toasts) == [] then [] else old(toasts)[1..]
      ensures timers == if old(timers) == [] then [] else old(timers)[1..]
    {
      if timers != [] {
        var id := timers[0];
        timers := timers[1..];
        ExpireOldest(toasts, nextId);
        toasts := Lists.Without(toasts, ToastId, id);
      }
    }
  }
}
