# CuratorZookeeperClient: a verified model of its lifecycle, policy slot and bounded connection wait

`CuratorZookeeperClient` wraps a ZooKeeper session. On top of it, the class adds a small amount of sequential logic, which this project models in Dafny and proves properties of:

- **Lifecycle.** A `started` flag is set by `start()` only when it is clear. A second `start()` throws `IllegalStateException`. `close()` clears the flag unconditionally and swallows the `IOException` of the connection state's close.
- **Retry-policy slot.** The slot is never null. The constructor and `setRetryPolicy` reject null. `getRetryPolicy` returns the last policy set. `newRetryLoop` captures the policy current when it is called.
- **Bounded connection wait.** `internalBlockUntilConnectedOrTimedOut` starts with a budget of `connectionTimeoutMs`. While the client is not connected and the budget is positive, each iteration does the following:
  - it puts a temporary watcher into the connection state's watcher slot; that watcher forwards each event to the displaced watcher, then releases a latch;
  - it waits on the latch;
  - in a `finally`, it restores the displaced watcher;
  - it charges `max(1, elapsed)` ms to the budget.

  `blockUntilConnectedOrTimedOut` requires the started state. It returns `isConnected()` as read after the loop.

Files:
- `wrappers.dfy`: `Option`, `Result` and `Outcome`. These stand for Java's null and for its exceptions.
- `watchers.dfy`: watchers, the temporary watcher's `process`, and the proof that an event put into the slot reaches exactly the user watcher at the bottom of the chain.
- `connection_wait.dfy`: the wait loop as a method with loop invariants, and `Spin`, a recursive reference definition of the same loop.
- `curator_client.dfy`: the client as an immutable value, its operations, and lemmas about arbitrary sequences of lifecycle and policy calls.

The environment is modelled as readings supplied in a `Session`:
- `connected(k)` is the k-th answer of `isConnected()`;
- `events(i)` is the list of events ZooKeeper delivers during the i-th wait;
- `wait(i)` says whether the i-th wait returned, and with what clock difference (any Java `long`), or was interrupted.

The clock, the latch and the connection state are not modelled beyond these readings.

Three behaviours of the code are worth noting, and the model keeps them:
- `close()` only clears the flag, so a later `start()` succeeds again (`CloseThenStart`).
- A wait before start throws `IllegalArgumentException` from `Preconditions.checkArgument`. The model returns it as the `NotStarted` error value rather than as a precondition.
- If `ConnectionState.start()` throws, the flag stays set. The failed start still counts as the one start, and only `close()` clears it.

## Model

| member | source | states |
|---|---|---|
| Watchers.Process | curator-client/src/main/java/com/netflix/curator/CuratorZookeeperClient.java:272-284 | A user watcher receives the event once. The temporary watcher forwards to the displaced watcher when it is non-null (never when null): the event reaches exactly the user watcher at the bottom of the chain, or nobody. When forwarding returns normally, releasing its own latch is the last thing it does. At most one user delivery per event. |
| Watchers.DispatchReachesTarget | curator-client/src/main/java/com/netflix/curator/CuratorZookeeperClient.java:275-283 | However many temporary watchers are stacked, an event reaches exactly the user watcher at the bottom of the chain, once; with a null at the bottom, it reaches nobody. |
| Watchers.DispatchAllReachesTarget | curator-client/src/main/java/com/netflix/curator/CuratorZookeeperClient.java:275-283 | The same for a sequence of events: the bottom user watcher receives all of them, in order, and nothing else. |
| Watchers.TempIsTransparent | curator-client/src/main/java/com/netflix/curator/CuratorZookeeperClient.java:270-286 | Putting the temporary watcher in front of the slot's watcher changes nothing that user watchers observe. |
| ConnectionWait.Charge | curator-client/src/main/java/com/netflix/curator/CuratorZookeeperClient.java:296 | The charge per wait is at least 1 and at least the measured elapsed time, and it is one of the two, even for zero or negative clock differences. |
| ConnectionWait.SpinBound | curator-client/src/main/java/com/netflix/curator/CuratorZookeeperClient.java:267-298 | Each iteration lowers the budget by at least 1. The loop therefore runs at most `max(0, connectionTimeoutMs)` iterations. |
| ConnectionWait.SpinStops | curator-client/src/main/java/com/netflix/curator/CuratorZookeeperClient.java:268-298 | Every completed iteration began unconnected. The loop ends connected or with budget ≤ 0, or at an interrupted wait that began unconnected with positive budget. |
| ConnectionWait.NoWaitWhenConnectedOrNoBudget | curator-client/src/main/java/com/netflix/curator/CuratorZookeeperClient.java:267-268 | When already connected, or when `connectionTimeoutMs ≤ 0`, the loop body never runs and the budget is untouched. |
| ConnectionWait.OneWaitDelivers | curator-client/src/main/java/com/netflix/curator/CuratorZookeeperClient.java:286-295 | One wait with the temporary watcher installed extends the original watcher's deliveries by exactly the events of that wait. |
| ConnectionWait.InternalBlockUntilConnectedOrTimedOut | curator-client/src/main/java/com/netflix/curator/CuratorZookeeperClient.java:265-299 | The imperative loop agrees with the reference `Spin` and runs at most `max(0, connectionTimeoutMs)` iterations. The remaining budget is at most the timeout minus the iterations and never wraps below the `long` range. It stops only when connected or out of budget, unless interrupted. The watcher slot ends holding its original watcher, interrupted or not. The original user watcher received every event of every wait, in order. |
| CuratorClient.New | curator-client/src/main/java/com/netflix/curator/CuratorZookeeperClient.java:89-97 | A null retry policy or null ensemble provider is rejected with a null-argument error, and nothing else is. A new client is not started, holds the given policy and watcher, has made no connection-state calls, and satisfies the lifecycle invariant. |
| CuratorClient.Start | curator-client/src/main/java/com/netflix/curator/CuratorZookeeperClient.java:181-193 | When started, the call fails with `AlreadyStarted` and the client is unchanged (no connection-state start). Otherwise the flag is set, the connection state is started once, and nothing else changes. The call succeeds exactly when that start does not throw, and it preserves the lifecycle invariant. |
| CuratorClient.Close | curator-client/src/main/java/com/netflix/curator/CuratorZookeeperClient.java:198-211 | Always leaves the client not started and records one connection-state close. It returns normally even when that close throws an `IOException`. Nothing else changes, and the lifecycle invariant is preserved. |
| CuratorClient.GetRetryPolicy | curator-client/src/main/java/com/netflix/curator/CuratorZookeeperClient.java:230-233 | Returns the policy the client holds: setting the returned policy back succeeds and changes nothing. |
| CuratorClient.NewRetryLoop | curator-client/src/main/java/com/netflix/curator/CuratorZookeeperClient.java:137-140 | A new retry loop holds the policy `getRetryPolicy()` returns at the moment of creation. |
| CuratorClient.SetRetryPolicy | curator-client/src/main/java/com/netflix/curator/CuratorZookeeperClient.java:218-223 | Null is rejected and leaves the client unchanged. A non-null policy replaces the old one and nothing else changes. |
| CuratorClient.CloseThenStart | curator-client/src/main/java/com/netflix/curator/CuratorZookeeperClient.java:185-211 | After `close()`, from any state and whether or not the close threw, `start()` succeeds again. |
| CuratorClient.GetReturnsLastSet | curator-client/src/main/java/com/netflix/curator/CuratorZookeeperClient.java:218-233 | `getRetryPolicy()` returns the policy passed to the last successful `setRetryPolicy`. A rejected null does not disturb it. |
| CuratorClient.RetryLoopSnapshot | curator-client/src/main/java/com/netflix/curator/CuratorZookeeperClient.java:137-140 | A new retry loop holds the policy current at creation. A later `setRetryPolicy` affects only loops created afterwards. |
| CuratorClient.BlockUntilConnectedOrTimedOut | curator-client/src/main/java/com/netflix/curator/CuratorZookeeperClient.java:159-174 | Before start, it fails with `NotStarted` and runs no wait. After start, it propagates an interruption, or otherwise returns the `isConnected()` reading taken after the loop. The client, including its watcher slot, is the same afterwards, and the user watcher saw every event of the wait. |
| CuratorClient.RunValid | curator-client/src/main/java/com/netflix/curator/CuratorZookeeperClient.java:181-211 | Every sequence of start, close and policy calls preserves the lifecycle invariant. The client is started exactly when its last connection-state call was a start, and it never starts the connection state twice without a close in between. |
| CuratorClient.StartsBoundedByCloses | curator-client/src/main/java/com/netflix/curator/CuratorZookeeperClient.java:185-192 | Exactly-once start: over any call sequence, the connection state is started at most once more than the client is closed, and not even that once if the client was already started. |
| CuratorClient.PolicyIsLastSet | curator-client/src/main/java/com/netflix/curator/CuratorZookeeperClient.java:218-233 | Over any call sequence, the retry policy is the last non-null one set, or the original if none was set. It is never null. |

## Left out

- Concurrency. The atomic flag and references are modelled as sequential updates. One race in the code is not modelled: an event that arrives between `substituteParentWatcher(tempWatcher)` and `previousWatcher.set(...)` sees a null previous watcher, so it is not forwarded.
- The latch wait with its 1-second cap, and `System.currentTimeMillis`. Each wait is an abstract reading: a clock difference or an interruption. No wall-clock bound on the total wait is stated.
- Connection status. `isConnected()` is a reading per call; the connection state's internals are not part of this model.
- The tracer: `startTracer`, `getTracerDriver`, `setTracerDriver`, and the `TimeTrace` commit in `blockUntilConnectedOrTimedOut`. These are pass-throughs to code that is not part of this model.
- Logging.
- `getZooKeeper`, `getSessionState`, `isConnected`, and the two shorter constructors. These only delegate to the connection state or to the main constructor.
- `setSessionState`: rejects a null handler with a `NullPointerException`, then delegates. Session-state handlers are not part of this model.
- Watchers.Process: user watchers never throw in the model. In the code the temporary watcher has no `finally`, so if the displaced watcher's `process` throws, the latch is not released and the exception goes to ZooKeeper's event thread; the wait then ends by its 1-second cap instead.
- CuratorClient.Close: only an `IOException` from `ConnectionState.close()` is modelled, and it is swallowed. Any unchecked exception from that close would propagate from `close()` after the flag has been cleared; that path is not modelled.
- CuratorClient.New: does not model an `IOException` from the `ConnectionState` constructor, which is not part of this model.
- `ConnectionState.start()`/`close()`: modelled only as "called" plus "may throw". Their effect on the session is not modelled.
- Sequences of calls (`Run`): these cover `start`, `close` and `setRetryPolicy`. `blockUntilConnectedOrTimedOut` is left out of them because it is proved to return the client unchanged.
