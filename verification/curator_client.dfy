/**
 * The client facade `CuratorZookeeperClient`: its started flag, its retry
 * policy slot, the watcher slot of its connection state, and the calls it
 * makes on that connection state. The client is an immutable value; each
 * operation returns the next client together with how the call ended.
 */
module CuratorClient {
  import opened Wrappers
  import opened Watchers
  import opened ConnectionWait

  /** A `RetryPolicy` object; only its identity matters to the client. */
  datatype RetryPolicy = RetryPolicy(name: string)

  /** An `EnsembleProvider` object (the source of the connect string). */
  datatype EnsembleProvider = EnsembleProvider(connectString: string)

  /** A call the client made on its `ConnectionState`. */
  datatype StateCall = StateStart | StateClose

  /** The exceptions the client throws. */
  datatype Error =
    | NullArgument        // NullPointerException from Preconditions.checkNotNull
    | AlreadyStarted      // IllegalStateException from a second start()
    | NotStarted          // IllegalArgumentException from Preconditions.checkArgument(started)
    | SessionStartFailed  // whatever ConnectionState.start() threw
    | WaitInterrupted     // InterruptedException from the latch wait

  /** A `RetryLoop`, holding the policy it was created with. */
  datatype RetryLoop = RetryLoop(policy: RetryPolicy)

  /**
   * The client's state. `retryPolicy` is never null: its type has no null.
   * `parentWatcher` is the watcher slot of the connection state; `stateCalls`
   * records every `start()`/`close()` passed on to the connection state.
   */
  datatype Client = Client(
    started: bool,
    retryPolicy: RetryPolicy,
    connectionTimeoutMs: Int32,
    sessionTimeoutMs: Int32,
    ensemble: EnsembleProvider,
    parentWatcher: Option<Watcher>,
    stateCalls: seq<StateCall>)

  /** Number of occurrences of `x` in `log`. */
  function Count(log: seq<StateCall>, x: StateCall): nat
  {
    if log == [] then 0
    else Count(log[..|log| - 1], x) + (if log[|log| - 1] == x then 1 else 0)
  }

  /** The connection state was never started twice without a close in between. */
  ghost predicate NoRestart(log: seq<StateCall>)
  {
    forall k :: 0 <= k < |log| - 1 ==> !(log[k] == StateStart && log[k + 1] == StateStart)
  }

  /**
   * The lifecycle invariant: the client is started exactly when its last call
   * on the connection state was a start, and it never started it twice in a row.
   */
  ghost predicate Valid(c: Client)
  {
    (c.started <==> |c.stateCalls| > 0 && c.stateCalls[|c.stateCalls| - 1] == StateStart) &&
    NoRestart(c.stateCalls)
  }

  /**
   * The constructor: a null retry policy, then a null ensemble provider, is
   * rejected; otherwise the client is created not started, holding the policy.
   */
  function New(ensemble: Option<EnsembleProvider>, sessionTimeoutMs: Int32, connectionTimeoutMs: Int32,
               watcher: Option<Watcher>, retryPolicy: Option<RetryPolicy>): (r: Result<Client, Error>)
    ensures r.Success? <==> retryPolicy.Some? && ensemble.Some?
    ensures r.Failure? ==> r.error == NullArgument
    ensures r.Success? ==> Valid(r.value) && !r.value.started && r.value.stateCalls == []
    ensures r.Success? ==> r.value.retryPolicy == retryPolicy.value && r.value.parentWatcher == watcher
    ensures r.Success? ==> r.value.connectionTimeoutMs == connectionTimeoutMs
  {
    if retryPolicy.None? then Failure(NullArgument)
    else if ensemble.None? then Failure(NullArgument)
    else Success(Client(false, retryPolicy.value, connectionTimeoutMs, sessionTimeoutMs,
                        ensemble.value, watcher, []))
  }

  /**
   * `start()`: only a client that is not started starts, and only then is the
   * connection state started; a started client throws and stays as it was.
   * If the connection state throws, the flag stays set and the error propagates.
   */
  function Start(c: Client, stateStartThrows: bool): (r: (Client, Outcome<Error>))
    ensures c.started ==> r == (c, Fail(AlreadyStarted))
    ensures !c.started ==> r.0.started && r.0.stateCalls == c.stateCalls + [StateStart]
    ensures !c.started ==> r.0 == c.(started := true, stateCalls := r.0.stateCalls)
    ensures !c.started ==> (r.1 == Pass <==> !stateStartThrows)
    ensures !c.started && stateStartThrows ==> r.1 == Fail(SessionStartFailed)
    ensures Valid(c) ==> Valid(r.0)
  {
    if c.started then (c, Fail(AlreadyStarted))
    else
      var c' := c.(started := true, stateCalls := c.stateCalls + [StateStart]);
      (c', if stateStartThrows then Fail(SessionStartFailed) else Pass)
  }

  /**
   * `close()`: clears the flag whatever it was and closes the connection
   * state; an IOException from that close is logged and swallowed.
   */
  function Close(c: Client, stateCloseThrows: bool): (r: (Client, Outcome<Error>))
    ensures !r.0.started
    ensures r.0.stateCalls == c.stateCalls + [StateClose]
    ensures r.0 == c.(started := false, stateCalls := r.0.stateCalls)
    ensures r.1 == Pass
    ensures Valid(c) ==> Valid(r.0)
  {
    (c.(started := false, stateCalls := c.stateCalls + [StateClose]), Pass)
  }

  /** `setRetryPolicy(policy)`: null is rejected and changes nothing. */
  function SetRetryPolicy(c: Client, policy: Option<RetryPolicy>): (r: (Client, Outcome<Error>))
    ensures policy.None? ==> r == (c, Fail(NullArgument))
    ensures policy.Some? ==> r == (c.(retryPolicy := policy.value), Pass)
  {
    if policy.None? then (c, Fail(NullArgument)) else (c.(retryPolicy := policy.value), Pass)
  }

  /**
   * `getRetryPolicy()`: the policy the client holds, so that setting it back
   * is a successful call that changes nothing.
   */
  function GetRetryPolicy(c: Client): (p: RetryPolicy)
    ensures SetRetryPolicy(c, Some(p)) == (c, Pass)
  {
    c.retryPolicy
  }

  /** `newRetryLoop()`: a loop over the policy current at this moment. */
  function NewRetryLoop(c: Client): (loop: RetryLoop)
    ensures loop.policy == GetRetryPolicy(c)
  {
    RetryLoop(c.retryPolicy)
  }

  /** After closing, whatever the state was and whatever the close threw, a start succeeds again. */
  lemma CloseThenStart(c: Client, closeThrows: bool)
    ensures var (c', o) := Start(Close(c, closeThrows).0, false);
      c'.started && o == Pass && c'.stateCalls == c.stateCalls + [StateClose, StateStart]
  {
  }

  /** `getRetryPolicy()` returns what the last successful `setRetryPolicy` stored. */
  lemma GetReturnsLastSet(c: Client, p: RetryPolicy, q: Option<RetryPolicy>)
    ensures GetRetryPolicy(SetRetryPolicy(c, Some(p)).0) == p
    ensures GetRetryPolicy(SetRetryPolicy(SetRetryPolicy(c, Some(p)).0, q).0)
         == (if q.Some? then q.value else p)
  {
  }

  /**
   * A retry loop keeps the policy it was created with: changing the policy
   * afterwards affects only loops created later.
   */
  lemma RetryLoopSnapshot(c: Client, p: RetryPolicy)
    ensures var loop := NewRetryLoop(c);
      var c' := SetRetryPolicy(c, Some(p)).0;
      loop.policy == GetRetryPolicy(c) && NewRetryLoop(c').policy == p
  {
  }

  /**
   * `blockUntilConnectedOrTimedOut()`: refused unless started; otherwise runs
   * the bounded wait on the connection state's watcher slot and answers with
   * `isConnected()` read after the wait. The client, its watcher slot
   * included, is the same afterwards, and the user watcher received every
   * event delivered during the wait.
   */
  method BlockUntilConnectedOrTimedOut(c: Client, s: Session)
    returns (next: Client, r: Result<bool, Error>, effects: seq<Effect>)
    ensures next == c
    ensures !c.started ==> r == Failure(NotStarted) && effects == []
    ensures c.started ==> var e := Spin(s, c.connectionTimeoutMs, 0);
      (e.interrupted ==> r == Failure(WaitInterrupted)) &&
      (!e.interrupted ==> r == Success(s.connected(e.iterations + 1))) &&
      Deliveries(effects) == Broadcast(Target(c.parentWatcher), EventsDuring(s, Waits(e)))
  {
    if !c.started {
      return c, Failure(NotStarted), [];
    }
    var run := InternalBlockUntilConnectedOrTimedOut(c.connectionTimeoutMs, c.parentWatcher, s);
    next := c.(parentWatcher := run.slot);
    effects := run.effects;
    if run.exit.interrupted {
      r := Failure(WaitInterrupted);
    } else {
      r := Success(s.connected(run.exit.iterations + 1));
    }
  }

  /** The lifecycle and policy calls, for reasoning about sequences of them. */
  datatype Op = StartOp(stateThrows: bool) | CloseOp(stateThrows: bool) | SetRetryPolicyOp(policy: Option<RetryPolicy>)

  function Apply(c: Client, op: Op): (Client, Outcome<Error>)
  {
    match op
    case StartOp(t) => Start(c, t)
    case CloseOp(t) => Close(c, t)
    case SetRetryPolicyOp(p) => SetRetryPolicy(c, p)
  }

  /** The client after performing `ops` in order. */
  function Run(c: Client, ops: seq<Op>): Client
    decreases |ops|
  {
    if ops == [] then c else Run(Apply(c, ops[0]).0, ops[1..])
  }

  function Closes(ops: seq<Op>): nat
  {
    if ops == [] then 0 else (if ops[0].CloseOp? then 1 else 0) + Closes(ops[1..])
  }

  /** The retry policy after `ops`: the last non-null one set, or `current` if none was. */
  function LastPolicySet(ops: seq<Op>, current: RetryPolicy): RetryPolicy
    decreases |ops|
  {
    if ops == [] then current
    else
      var next := if ops[0].SetRetryPolicyOp? && ops[0].policy.Some? then ops[0].policy.value else current;
      LastPolicySet(ops[1..], next)
  }

  lemma CountAppend(log: seq<StateCall>, y: StateCall, x: StateCall)
    ensures Count(log + [y], x) == Count(log, x) + (if y == x then 1 else 0)
  {
    assert (log + [y])[..|log|] == log;
  }

  /** Every sequence of lifecycle and policy calls keeps the lifecycle invariant. */
  lemma {:induction false} RunValid(c: Client, ops: seq<Op>)
    requires Valid(c)
    ensures Valid(Run(c, ops))
    decreases |ops|
  {
    if ops != [] {
      RunValid(Apply(c, ops[0]).0, ops[1..]);
    }
  }

  /**
   * Exactly-once start: across any sequence of calls the connection state is
   * started at most once more than the client is closed (and not even that
   * once if the client was already started).
   */
  lemma {:induction false} StartsBoundedByCloses(c: Client, ops: seq<Op>)
    ensures Count(Run(c, ops).stateCalls, StateStart)
         <= Count(c.stateCalls, StateStart) + Closes(ops) + (if c.started then 0 else 1)
    decreases |ops|
  {
    if ops != [] {
      var c' := Apply(c, ops[0]).0;
      StartsBoundedByCloses(c', ops[1..]);
      match ops[0]
      case StartOp(t) =>
        if !c.started {
          CountAppend(c.stateCalls, StateStart, StateStart);
        }
      case CloseOp(t) =>
        CountAppend(c.stateCalls, StateClose, StateStart);
      case SetRetryPolicyOp(p) =>
    }
  }

  /** The retry policy is always the last non-null policy set, whatever else happened. */
  lemma {:induction false} PolicyIsLastSet(c: Client, ops: seq<Op>)
    ensures GetRetryPolicy(Run(c, ops)) == LastPolicySet(ops, GetRetryPolicy(c))
    decreases |ops|
  {
    if ops != [] {
      PolicyIsLastSet(Apply(c, ops[0]).0, ops[1..]);
    }
  }
}
