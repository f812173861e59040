/**
 * The toast queue of src/ui/toast.tsx: the module-level `toasts`,
 * `nextId` and `listeners`, the `showToast` that appends and broadcasts,
 * the expiry that removes by id, and the subscription of the toast
 * container.
 *
 * Listeners are React state setters compared by identity; they are
 * modelled by numbers, and every call `fn(toasts)` is recorded in
 * `deliveries`. A `setTimeout` is recorded in `timers` and fires through
 * `FireTimer`, so the time that passes in between is not modelled.
 */
module Toast {
  import opened Wrappers

  const DefaultDuration := 3000

  /** `{ id, message, duration }` */
  datatype Toast = Toast(id: nat, message: string, duration: int)

  /** A listener called with the toast list it was given. */
  datatype Delivery = Delivery(listener: nat, toasts: seq<Toast>)

  /** A pending `setTimeout` that will expire the toast with `toastId` after `delay` milliseconds. */
  datatype Timer = Timer(toastId: nat, delay: int)

  /** Ids increase from the oldest toast to the newest (so no two toasts share an id). */
  predicate IdsIncreasing(ts: seq<Toast>) {
    forall i, j :: 0 <= i < j < |ts| ==> ts[i].id < ts[j].id
  }

  /** `ts.filter(t => t.id !== id)` */
  function WithoutId(ts: seq<Toast>, id: nat): (r: seq<Toast>)
    ensures |r| <= |ts|
    ensures forall t :: t in r <==> t in ts && t.id != id
  {
    if ts == [] then []
    else
      var rest := WithoutId(ts[1..], id);
      assert forall t :: t in ts <==> t == ts[0] || t in ts[1..];
      if ts[0].id != id then [ts[0]] + rest else rest
  }

  /** Removing by id keeps the remaining toasts in their order. */
  lemma {:induction false} WithoutIdKeepsOrder(ts: seq<Toast>, id: nat)
    requires IdsIncreasing(ts)
    ensures IdsIncreasing(WithoutId(ts, id))
  {
    if ts != [] {
      assert IdsIncreasing(ts[1..]);
      WithoutIdKeepsOrder(ts[1..], id);
      var rest := WithoutId(ts[1..], id);
      if ts[0].id != id {
        forall t | t in rest ensures ts[0].id < t.id {
          var j :| 0 <= j < |ts[1..]| && ts[1..][j] == t;
          assert ts[j + 1] == t;
        }
      }
    }
  }

  /** With increasing ids, expiring an id that is present removes exactly one toast, and an absent id removes none. */
  lemma {:induction false} WithoutIdRemovesOne(ts: seq<Toast>, id: nat)
    requires IdsIncreasing(ts)
    ensures (exists k :: 0 <= k < |ts| && ts[k].id == id) ==> |WithoutId(ts, id)| == |ts| - 1
    ensures (forall k :: 0 <= k < |ts| ==> ts[k].id != id) ==> WithoutId(ts, id) == ts
  {
    if ts != [] {
      assert IdsIncreasing(ts[1..]);
      WithoutIdRemovesOne(ts[1..], id);
      if ts[0].id == id {
        assert forall k :: 0 <= k < |ts[1..]| ==> ts[1..][k].id != id by {
          forall k | 0 <= k < |ts[1..]| ensures ts[1..][k].id != id {
            assert ts[0].id < ts[k + 1].id;
          }
        }
      } else {
        if exists k :: 0 <= k < |ts| && ts[k].id == id {
          var k :| 0 <= k < |ts| && ts[k].id == id;
          assert ts[1..][k - 1].id == id;
        } else {
          assert forall k :: 0 <= k < |ts[1..]| ==> ts[1..][k] == ts[k + 1];
        }
      }
    }
  }

  /** `listeners.filter(fn => fn !== l)` */
  function WithoutListener(ls: seq<nat>, l: nat): (r: seq<nat>)
    ensures |r| <= |ls|
    ensures forall x :: x in r <==> x in ls && x != l
  {
    if ls == [] then []
    else
      var rest := WithoutListener(ls[1..], l);
      assert forall x :: x in ls <==> x == ls[0] || x in ls[1..];
      if ls[0] != l then [ls[0]] + rest else rest
  }

  /**
   * Removing a listener keeps the others in registration order: the
   * filter of a concatenation is the concatenation of the filters.
   */
  lemma {:induction false} WithoutListenerAppend(a: seq<nat>, b: seq<nat>, l: nat)
    ensures WithoutListener(a + b, l) == WithoutListener(a, l) + WithoutListener(b, l)
  {
    if a == [] {
      assert a + b == b;
    } else {
      assert (a + b)[0] == a[0] && (a + b)[1..] == a[1..] + b;
      WithoutListenerAppend(a[1..], b, l);
    }
  }

  /** `listeners.forEach(fn => fn(toasts))`: one delivery per listener, in registration order. */
  function Broadcast(ls: seq<nat>, ts: seq<Toast>): (r: seq<Delivery>)
    ensures |r| == |ls|
    ensures forall i :: 0 <= i < |ls| ==> r[i] == Delivery(ls[i], ts)
  {
    seq(|ls|, i requires 0 <= i < |ls| => Delivery(ls[i], ts))
  }

  class ToastQueue {
    var toasts: seq<Toast>
    var nextId: nat
    var listeners: seq<nat>
    var deliveries: seq<Delivery>
    var timers: seq<Timer>

    /** Ids increase along the list and are all below `nextId`. */
    predicate Valid()
      reads this
    {
      nextId >= 1 && IdsIncreasing(toasts) && forall i :: 0 <= i < |toasts| ==> toasts[i].id < nextId
    }

    /** The module's initial state: no toasts, no listeners, `nextId = 1`. */
    constructor()
      ensures Valid()
      ensures toasts == [] && nextId == 1 && listeners == [] && deliveries == [] && timers == []
    {
      toasts := [];
      nextId := 1;
      listeners := [];
      deliveries := [];
      timers := [];
    }

    /** Calls every listener with the current list, in order. */
    method Notify()
      modifies this
      ensures deliveries == old(deliveries) + Broadcast(listeners, toasts)
      ensures toasts == old(toasts) && nextId == old(nextId) && listeners == old(listeners) && timers == old(timers)
    {
      var i := 0;
      while i < |listeners|
        invariant 0 <= i <= |listeners|
        invariant deliveries == old(deliveries) + Broadcast(listeners[..i], toasts)
        invariant toasts == old(toasts) && nextId == old(nextId) && listeners == old(listeners) && timers == old(timers)
      {
        assert Broadcast(listeners[..i + 1], toasts) == Broadcast(listeners[..i], toasts) + [Delivery(listeners[i], toasts)];
        deliveries := deliveries + [Delivery(listeners[i], toasts)];
        i := i + 1;
      }
      assert listeners[..i] == listeners;
    }

    /**
     * `showToast(message, duration = 3000)`: appends one toast with a fresh
     * id, tells every listener, and schedules its expiry.
     */
    method ShowToast(message: string, duration: Option<int>) returns (id: nat)
      requires Valid()
      modifies this
      ensures Valid()
      ensures id == old(nextId) && nextId == old(nextId) + 1
      ensures forall i :: 0 <= i < |old(toasts)| ==> old(toasts)[i].id < id
      ensures toasts == old(toasts) + [Toast(id, message, duration.GetOr(DefaultDuration))]
      ensures deliveries == old(deliveries) + Broadcast(listeners, toasts)
      ensures timers == old(timers) + [Timer(id, duration.GetOr(DefaultDuration))]
      ensures listeners == old(listeners)
    {
      id := nextId;
      nextId := nextId + 1;
      toasts := toasts + [Toast(id, message, duration.GetOr(DefaultDuration))];
      Notify();
      timers := timers + [Timer(id, duration.GetOr(DefaultDuration))];
    }

    /** The `k`-th pending timer fires: its toast leaves the list and every listener is told. */
    method FireTimer(k: nat)
      requires Valid()
      requires k < |timers|
      modifies this
      ensures Valid()
      ensures toasts == WithoutId(old(toasts), old(timers)[k].toastId)
      ensures timers == old(timers)[..k] + old(timers)[k + 1..]
      ensures deliveries == old(deliveries) + Broadcast(listeners, toasts)
      ensures nextId == old(nextId) && listeners == old(listeners)
    {
      var id := timers[k].toastId;
      WithoutIdKeepsOrder(toasts, id);
      toasts := WithoutId(toasts, id);
      timers := timers[..k] + timers[k + 1..];
      Notify();
    }

    /** The container mounts: its setter joins the listeners and receives the current list at once. */
    method Subscribe(l: nat)
      modifies this
      ensures listeners == old(listeners) + [l]
      ensures deliveries == old(deliveries) + [Delivery(l, toasts)]
      ensures toasts == old(toasts) && nextId == old(nextId) && timers == old(timers)
    {
      listeners := listeners + [l];
      deliveries := deliveries + [Delivery(l, toasts)];
    }

    /** The container unmounts: its setter, and only it, leaves the listeners. */
    method Unsubscribe(l: nat)
      modifies this
      ensures listeners == WithoutListener(old(listeners), l)
      ensures toasts == old(toasts) && nextId == old(nextId) && timers == old(timers) && deliveries == old(deliveries)
    {
      listeners := WithoutListener(listeners, l);
    }
  }
}
