/**
 * ZooKeeper watchers as seen by the client: the watcher slot of the connection
 * state holds either a user watcher or the temporary, latch-releasing watcher
 * that the bounded connection wait installs in front of it.
 */
module Watchers {
  import opened Wrappers

  /** A session event delivered by ZooKeeper (only its identity matters here). */
  datatype Event = Event(kind: nat)

  /**
   * `User(id)` is a watcher supplied by the application.
   * `Temp(previous, latch)` is the anonymous watcher of the connection wait: it
   * remembers the watcher it displaced (possibly null) and owns one latch.
   */
  datatype Watcher = User(id: nat) | Temp(previous: Option<Watcher>, latch: nat)

  /** What handling one event does that someone outside the watcher can observe. */
  datatype Effect = Delivered(watcher: nat, event: Event) | LatchReleased(latch: nat)

  /** The user-visible part of an effect trace: the deliveries, in order. */
  function Deliveries(fx: seq<Effect>): (ds: seq<Effect>)
    ensures |ds| <= |fx|
    ensures forall k :: 0 <= k < |ds| ==> ds[k].Delivered?
  {
    if fx == [] then []
    else (if fx[0].Delivered? then [fx[0]] else []) + Deliveries(fx[1..])
  }

  lemma {:induction false} DeliveriesAppend(a: seq<Effect>, b: seq<Effect>)
    ensures Deliveries(a + b) == Deliveries(a) + Deliveries(b)
    decreases |a|
  {
    if a == [] {
      assert a + b == b;
    } else {
      assert (a + b)[1..] == a[1..] + b;
      DeliveriesAppend(a[1..], b);
    }
  }

  /**
   * `w.process(event)`: a user watcher receives the event; a temporary watcher
   * first forwards it to the watcher it displaced when that one is non-null,
   * and only then releases its latch.
   */
  function Process(w: Watcher, e: Event): (fx: seq<Effect>)
    ensures w.User? ==> fx == [Delivered(w.id, e)]
    ensures w.Temp? ==> |fx| >= 1 && fx[|fx| - 1] == LatchReleased(w.latch)
    ensures |Deliveries(fx)| <= 1
    ensures Deliveries(fx) == Broadcast(Target(Some(w)), [e])
    decreases w
  {
    match w
    case User(id) => [Delivered(id, e)]
    case Temp(previous, latch) =>
      match previous
      case None => [LatchReleased(latch)]
      case Some(p) =>
        var forwarded := Process(p, e);
        DeliveriesAppend(forwarded, [LatchReleased(latch)]);
        forwarded + [LatchReleased(latch)]
  }

  /** Delivery of one event to whatever the slot holds; an empty slot ignores it. */
  function Dispatch(slot: Option<Watcher>, e: Event): seq<Effect>
  {
    match slot
    case None => []
    case Some(w) => Process(w, e)
  }

  /** Delivery of a sequence of events, in order, to a slot that does not change meanwhile. */
  function DispatchAll(slot: Option<Watcher>, es: seq<Event>): seq<Effect>
  {
    if es == [] then [] else Dispatch(slot, es[0]) + DispatchAll(slot, es[1..])
  }

  /** The user watcher an event put into the slot finally reaches, if any. */
  function Target(slot: Option<Watcher>): Option<nat>
  {
    match slot
    case None => None
    case Some(User(id)) => Some(id)
    case Some(Temp(previous, _)) => Target(previous)
  }

  /** What the user watcher `target` (if any) receives when `es` arrive. */
  function Broadcast(target: Option<nat>, es: seq<Event>): (ds: seq<Effect>)
    ensures target.None? ==> ds == []
    ensures target.Some? ==> |ds| == |es|
    ensures target.Some? ==> forall k :: 0 <= k < |es| ==> ds[k] == Delivered(target.value, es[k])
  {
    if es == [] || target.None? then []
    else [Delivered(target.value, es[0])] + Broadcast(target, es[1..])
  }

  lemma BroadcastAppend(target: Option<nat>, a: seq<Event>, b: seq<Event>)
    ensures Broadcast(target, a + b) == Broadcast(target, a) + Broadcast(target, b)
  {
  }

  /**
   * However many temporary watchers are stacked in the slot, an event reaches
   * exactly the user watcher at the bottom of the chain, once, and nobody else.
   */
  lemma DispatchReachesTarget(slot: Option<Watcher>, e: Event)
    ensures Deliveries(Dispatch(slot, e)) == Broadcast(Target(slot), [e])
  {
  }

  /** The sequence version of `DispatchReachesTarget`. */
  lemma {:induction false} DispatchAllReachesTarget(slot: Option<Watcher>, es: seq<Event>)
    ensures Deliveries(DispatchAll(slot, es)) == Broadcast(Target(slot), es)
    decreases |es|
  {
    if es != [] {
      DispatchReachesTarget(slot, es[0]);
      DispatchAllReachesTarget(slot, es[1..]);
      DeliveriesAppend(Dispatch(slot, es[0]), DispatchAll(slot, es[1..]));
      assert es == [es[0]] + es[1..];
      BroadcastAppend(Target(slot), [es[0]], es[1..]);
    }
  }

  /**
   * Installing a temporary watcher in front of the slot's watcher is invisible
   * to the user watchers: they receive exactly what they would have received
   * without it.
   */
  lemma TempIsTransparent(slot: Option<Watcher>, latch: nat, es: seq<Event>)
    ensures Deliveries(DispatchAll(Some(Temp(slot, latch)), es)) == Deliveries(DispatchAll(slot, es))
  {
    DispatchAllReachesTarget(Some(Temp(slot, latch)), es);
    DispatchAllReachesTarget(slot, es);
  }
}
