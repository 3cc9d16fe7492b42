/**
 * The bounded connection wait of the client
 * (`internalBlockUntilConnectedOrTimedOut`): while not connected and the
 * budget is positive, install a temporary watcher, wait, restore the previous
 * watcher, and charge the elapsed time, at least 1 ms, to the budget.
 *
 * The clock, the latch wait and the connection status are not computed here:
 * they are readings supplied by a `Session`.
 */
module ConnectionWait {
  import opened Wrappers
  import opened Watchers

  const MinInt32: int := -0x8000_0000
  const MaxInt32: int := 0x7fff_ffff
  const MinLong: int := -0x8000_0000_0000_0000
  const MaxLong: int := 0x7fff_ffff_ffff_ffff

  /** Java `int`. */
  type Int32 = x: int | MinInt32 <= x <= MaxInt32
  /** Java `long`. */
  type Long = x: int | MinLong <= x <= MaxLong

  /**
   * How one latch wait ended: it returned and the clock moved by `ms`
   * (`currentTimeMillis()` after minus before, any `long`, negative if the
   * clock went back), or the waiting thread was interrupted.
   */
  datatype WaitOutcome = Elapsed(ms: Long) | Interrupted

  /**
   * The environment of the loop, as readings:
   * `connected(k)` is the answer of the k-th call of `isConnected()`,
   * `events(i)` the events ZooKeeper delivers during the i-th wait,
   * `wait(i)` how the i-th wait ends.
   */
  datatype Session = Session(
    connected: nat -> bool,
    events: nat -> seq<Event>,
    wait: nat -> WaitOutcome)

  /** How the loop ended: after `iterations` completed waits, with `budget` left, or interrupted in the next wait. */
  datatype Exit = Exit(iterations: nat, budget: int, interrupted: bool)

  /** Everything the loop leaves behind, including the watcher slot and what the watchers did. */
  datatype WaitRun = WaitRun(exit: Exit, slot: Option<Watcher>, effects: seq<Effect>)

  /** `Math.max(1, elapsed)`: the amount charged to the budget for one wait. */
  function Charge(elapsed: int): (c: int)
    ensures c >= 1 && c >= elapsed
    ensures c == 1 || c == elapsed
  {
    if elapsed < 1 then 1 else elapsed
  }

  /**
   * Reference definition of the loop, from iteration `i` with `budget` left.
   * Termination is the point of the 1 ms minimum charge.
   */
  function Spin(s: Session, budget: int, i: nat): Exit
    decreases budget
  {
    if s.connected(i) || budget <= 0 then Exit(i, budget, false)
    else match s.wait(i)
      case Interrupted => Exit(i, budget, true)
      case Elapsed(ms) => Spin(s, budget - Charge(ms), i + 1)
  }

  /** Number of waits that were started: the completed ones plus an interrupted one. */
  function Waits(e: Exit): nat
  {
    if e.interrupted then e.iterations + 1 else e.iterations
  }

  /** All events delivered during the first `n` waits, in order. */
  function EventsDuring(s: Session, n: nat): seq<Event>
  {
    if n == 0 then [] else EventsDuring(s, n - 1) + s.events(n - 1)
  }

  /**
   * Each iteration costs at least 1 ms of budget, so the loop started from
   * iteration `i` with `budget` runs at most `max(0, budget)` more iterations
   * and ends with at most `budget` minus that number left.
   */
  lemma {:induction false} SpinBound(s: Session, budget: int, i: nat)
    ensures var e := Spin(s, budget, i);
      i <= e.iterations &&
      e.iterations - i <= (if budget <= 0 then 0 else budget) &&
      e.budget <= budget - (e.iterations - i)
    decreases budget
  {
    if !(s.connected(i) || budget <= 0) && s.wait(i).Elapsed? {
      SpinBound(s, budget - Charge(s.wait(i).ms), i + 1);
    }
  }

  /** The loop stops exactly when connected or out of budget (or interrupted). */
  lemma {:induction false} SpinStops(s: Session, budget: int, i: nat)
    ensures var e := Spin(s, budget, i);
      (forall k :: i <= k < e.iterations ==> !s.connected(k)) &&
      (e.interrupted ==> !s.connected(e.iterations) && e.budget > 0 && s.wait(e.iterations).Interrupted?) &&
      (!e.interrupted ==> s.connected(e.iterations) || e.budget <= 0)
    decreases budget
  {
    if !(s.connected(i) || budget <= 0) && s.wait(i).Elapsed? {
      SpinStops(s, budget - Charge(s.wait(i).ms), i + 1);
    }
  }

  /** Already connected, or no positive timeout: the loop body never runs. */
  lemma NoWaitWhenConnectedOrNoBudget(s: Session, timeoutMs: int)
    requires s.connected(0) || timeoutMs <= 0
    ensures Spin(s, timeoutMs, 0) == Exit(0, timeoutMs, false)
  {
  }

  /**
   * The effects of one wait, with a temporary watcher installed in front of
   * `parent`, extend the deliveries to `parent`'s user watcher by the events
   * of that wait.
   */
  lemma OneWaitDelivers(parent: Option<Watcher>, s: Session, i: nat, effects: seq<Effect>)
    requires Deliveries(effects) == Broadcast(Target(parent), EventsDuring(s, i))
    ensures Deliveries(effects + DispatchAll(Some(Temp(parent, i)), s.events(i)))
         == Broadcast(Target(parent), EventsDuring(s, i + 1))
  {
    var during := DispatchAll(Some(Temp(parent, i)), s.events(i));
    TempIsTransparent(parent, i, s.events(i));
    DispatchAllReachesTarget(parent, s.events(i));
    DeliveriesAppend(effects, during);
    BroadcastAppend(Target(parent), EventsDuring(s, i), s.events(i));
  }

  /**
   * The loop itself, with the watcher slot of the connection state as a local
   * variable threaded through. Each iteration installs a temporary watcher in
   * front of the current one, lets the events of the wait reach it, restores
   * the displaced watcher whether the wait returned or was interrupted, and
   * then charges the elapsed time or propagates the interruption.
   */
  method InternalBlockUntilConnectedOrTimedOut(connectionTimeoutMs: Int32, parent: Option<Watcher>, s: Session)
    returns (run: WaitRun)
    ensures run.exit == Spin(s, connectionTimeoutMs, 0)
    ensures run.exit.iterations <= (if connectionTimeoutMs <= 0 then 0 else connectionTimeoutMs)
    ensures run.exit.budget <= connectionTimeoutMs - run.exit.iterations
    ensures MinLong < run.exit.budget
    ensures forall k :: 0 <= k < run.exit.iterations ==> !s.connected(k)
    ensures !run.exit.interrupted ==> s.connected(run.exit.iterations) || run.exit.budget <= 0
    ensures (s.connected(0) || connectionTimeoutMs <= 0) ==> Waits(run.exit) == 0 && run.effects == []
    ensures run.slot == parent
    ensures Deliveries(run.effects) == Broadcast(Target(parent), EventsDuring(s, Waits(run.exit)))
  {
    var waitTimeMs: int := connectionTimeoutMs;
    var i: nat := 0;
    var slot := parent;
    var effects: seq<Effect> := [];
    while !s.connected(i) && waitTimeMs > 0
      invariant Spin(s, waitTimeMs, i) == Spin(s, connectionTimeoutMs, 0)
      invariant waitTimeMs <= connectionTimeoutMs - i
      invariant i <= (if connectionTimeoutMs <= 0 then 0 else connectionTimeoutMs)
      invariant i == 0 ==> effects == []
      invariant MinLong < waitTimeMs
      invariant forall k :: 0 <= k < i ==> !s.connected(k)
      invariant slot == parent
      invariant Deliveries(effects) == Broadcast(Target(parent), EventsDuring(s, i))
      decreases waitTimeMs
    {
      // substituteParentWatcher(tempWatcher) returns the watcher it displaces
      var previous := slot;
      slot := Some(Temp(previous, i));
      var during := DispatchAll(slot, s.events(i));
      OneWaitDelivers(parent, s, i, effects);
      effects := effects + during;
      // finally: substituteParentWatcher(previousWatcher.get())
      slot := previous;
      match s.wait(i)
      case Interrupted =>
        assert Spin(s, waitTimeMs, i) == Exit(i, waitTimeMs, true);
        run := WaitRun(Exit(i, waitTimeMs, true), slot, effects);
        return;
      case Elapsed(ms) =>
        assert Spin(s, waitTimeMs, i) == Spin(s, waitTimeMs - Charge(ms), i + 1);
        waitTimeMs := waitTimeMs - Charge(ms);
        i := i + 1;
    }
    run := WaitRun(Exit(i, waitTimeMs, false), slot, effects);
  }
}
