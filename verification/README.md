# Cache-empty single-flight coordinator, modelled in Dafny

Centrifugo can notify an application backend when a channel's history
cache turns out to be empty. The backend answers with a `populated` flag,
saying whether it has refilled the cache. When many subscribers hit the same
empty channel at once, `CacheEmptyHandler` lets one caller per channel (the
leader) make the backend call. Concurrent callers on that channel (followers)
wait for the leader's `(response, error)` pair. A follower stops waiting early
if its own context ends, or if a lock timeout elapses. After a timeout the
follower makes an independent call of its own.

This project models that coordinator as a sequential state machine over
explicit events and proves its properties for every registry of proxies,
every Go map iteration order, every timeout and every backend behaviour.

Modules, in dependency order:

- `Wrappers`: `Option`.
- `Proxy`: the data model. It holds requests, responses, errors and contexts. A
  `CacheEmptyProxy` is a record whose `call` is the backend call, a function of
  the caller's context and the request. The registry maps names to optional
  proxies, where `None` is a nil entry.
- `Dispatch`: `handleCacheEmpty`, a recursive function over the registry's
  entries in one iteration order.
- `LockTable`: `getOrCreateLock` and the leader's cleanup over a lock table. The
  table is `sync.Map` from channel to lock id plus a heap of lock records.
  Followers keep their `*channelLock` after the key is deleted, so a lock needs
  an identity that outlives its key.
- `Handler`: `NewCacheEmptyHandler` and the machine. Each caller is in one of
  three phases: `Leading`, `Waiting` or `Returned`. Events:
  - `Arrive`: `handle` is entered.
  - `LeaderFinish`: the leader's dispatch returns. It stores the pair, deletes
    the key and closes `done`.
  - `WakeOnDone`, `WakeOnTimer`, `WakeOnCancel`: the three `select` cases.
  - `CancelContext`: a context ends.
  - `Tick`: time passes.

  `Step` gives `None` when an event cannot happen in the current state. `Run`
  folds `Step` over a trace.
- `Invariants`: an invariant over the lock table, the callers' phases and the
  dispatch log. Every step preserves it, and the reachable-state theorems
  follow from it.
- `Ownership`: a companion invariant that says who answers for each pending
  key and each fallback dispatch. It yields single flight for every
  interleaving without timer wakes.
- `Scenarios`: the handler's test scenarios, as traces that hold for every
  registry, order and timeout.

## Model

| member | source | states |
|---|---|---|
| Dispatch.HandleCacheEmpty | internal/proxy/cache_empty_handler.go:115-131 | No proxy is called exactly when every entry is nil, and then the reply is a non-nil response with a zero-valued result and no error. Otherwise the entry called is the first non-nil one and the reply is that call's outcome |
| Dispatch.FirstProxyDecides | internal/proxy/cache_empty_handler.go:120-127 | The first non-nil proxy decides the outcome. An error becomes `(nil, err)` and a response becomes `(resp, nil)`, with no failover |
| Dispatch.LaterEntriesIgnored | internal/proxy/cache_empty_handler.go:116-127 | Once a usable entry exists, appending any further entries changes neither the reply nor which entry is called |
| Dispatch.EntriesInOrder | internal/proxy/cache_empty_handler.go:116 | Ranging over the registry visits the names in the given order, each with the proxy registered under it; for an iteration order every key of the registry is visited exactly once |
| Dispatch.OrderIrrelevant | internal/proxy/cache_empty_handler.go:116-130 | With at most one non-nil proxy registered, every iteration order gives the same reply and calls the same named proxy |
| Handler.NewCacheEmptyHandler | internal/proxy/cache_empty_handler.go:47-57 | The effective lock timeout is never 0. A configured 0 becomes 5 seconds, any other value is kept, and the proxies pass through |
| Handler.EffectiveTimeoutIsFixpoint | internal/proxy/cache_empty_handler.go:48-51 | Building a handler from an already-built handler's settings keeps its timeout |
| Handler.Invoke | internal/proxy/cache_empty_handler.go:115-131 | A dispatch for a channel over the registry calls a non-nil proxy exactly when one exists. The proxy called is the first non-nil one in the iteration order, and the dispatch returns that proxy's outcome for a request carrying the channel. Otherwise it returns the empty default |
| LockTable.GetOrCreateLock | internal/proxy/cache_empty_handler.go:101-113 | A caller is first exactly when the channel has no lock. A first caller gets a new id mapped to a fresh, pending lock. Any other caller gets the stored lock and the table is unchanged |
| LockTable.Release | internal/proxy/cache_empty_handler.go:63-68 | The leader's cleanup removes only its own channel key. It marks its lock done holding exactly the given pair and leaves every other lock record alone |
| LockTable.AcquirePreservesValid | internal/proxy/cache_empty_handler.go:101-113 | Load-or-store keeps the table well formed: indexed locks are pending and fresh, distinct channels have distinct locks, and ids are below the next id |
| LockTable.ReleasePreservesValid | internal/proxy/cache_empty_handler.go:63-68 | The leader's cleanup keeps the table well formed |
| LockTable.SecondArrivalJoins | internal/proxy/cache_empty_handler.go:108-112 | A second arrival on a channel gets the same lock as the first and does not change the table |
| LockTable.ArrivalAfterReleaseIsFresh | internal/proxy/cache_empty_handler.go:63-68 | After cleanup the next arrival is first again. It gets a different, pending lock while the old lock keeps the old pair: there is no cached completed state |
| Handler.ArriveStep | internal/proxy/cache_empty_handler.go:59-80 | An arriving caller leads exactly when its channel had no lock, on a new fresh lock; only that key and that lock record are added. Otherwise it waits on the existing lock from now, the table stays as it was, and nothing is dispatched |
| Handler.LeaderStep | internal/proxy/cache_empty_handler.go:63-75 | The leader returns the dispatch's exact pair, and its lock ends done holding that pair. Only its channel key is deleted, and every other lock record and the next lock id are unchanged. The log gains one record with a request for the channel, naming the proxy the dispatch called, which is there exactly when one is non-nil |
| Handler.WakeDoneStep | internal/proxy/cache_empty_handler.go:82-84 | A follower woken by `done` returns the leader's stored response and error unmodified. The table and the dispatch log stay unchanged |
| Handler.WakeTimerStep | internal/proxy/cache_empty_handler.go:85-95 | A follower woken by the timer leaves the lock table untouched, makes one fresh dispatch for the same channel, logged with the proxy it called, and returns that call's outcome. It never returns `ErrLockTimeout` unless a proxy itself fails with it |
| Handler.WakeCancelStep | internal/proxy/cache_empty_handler.go:96-97 | A follower woken by its context returns no response and the context's error, with no dispatch and no table change |
| Invariants.StepPreservesInv | internal/proxy/cache_empty_handler.go:59-113 | Every event keeps the invariant: leaders own their channel's key; there is one leader per channel; followers hold real locks; returned followers hold their lock's pair; leader calls have done, distinct locks; and, when no proxy fails with `ErrLockTimeout`, no caller returns it |
| Invariants.ReachableInv | internal/proxy/cache_empty_handler.go:59-113 | Every state reachable from the empty handler satisfies the invariant |
| Invariants.OneLeaderPerChannel | internal/proxy/cache_empty_handler.go:101-113 | In any reachable state, two callers leading on the same channel are the same caller |
| Invariants.FollowersGetLeaderPair | internal/proxy/cache_empty_handler.go:63-84 | Every caller that returned through a given lock (its leader, or a follower woken by `done`) returned the same pair, the one stored in that lock |
| Invariants.OneLeaderDispatchPerLock | internal/proxy/cache_empty_handler.go:63-75 | No two leader dispatches in the log belong to the same lock: each lock's leader calls the backend once |
| Invariants.LockTimeoutNeverReturned | internal/proxy/cache_empty_handler.go:25-28 | `ErrLockTimeout` is declared but never produced. No caller ever returns it unless a proxy itself fails with that error |
| Invariants.KeysIsolated | internal/proxy/cache_empty_handler.go:59-113 | An event on one channel leaves another channel's key, its lock record, its callers' phases and its dispatches as they were |
| Ownership.StepKeepsOwned | internal/proxy/cache_empty_handler.go:59-99 | Every event keeps two facts. Each pending key is held by a caller still leading on exactly that lock, since a key is stored only by the caller that becomes its leader and deleted only by that leader. Each fallback dispatch was made by a caller that returned because its timer fired on that lock |
| Ownership.PendingKeyHasLeader | internal/proxy/cache_empty_handler.go:63-68 | In every reachable state a channel's pending lock belongs to a caller still leading on it, so no key is left with nobody to delete it |
| Ownership.OneDispatchPerLockWithoutTimeout | internal/proxy/cache_empty_handler.go:59-99 | In every reachable state, unless some follower's timer fired on a lock, at most one dispatch belongs to that lock, and it is its leader's |
| Scenarios.SameChannelOneDispatch | internal/proxy/cache_empty_handler_test.go:78-135 | n ≥ 1 callers on one channel whose followers are released by the leader cause exactly one dispatch. Every caller returns the leader's pair, and the channel is free afterwards |
| Scenarios.TenCallersOneDispatch | internal/proxy/cache_empty_handler_test.go:115-134 | Ten concurrent callers on "test:channel" cause one backend call |
| Scenarios.DistinctChannelsOneDispatchEach | internal/proxy/cache_empty_handler_test.go:206-269 | Callers on k distinct channels each lead and cause exactly k dispatches, the i-th for the i-th channel |
| Scenarios.ThreeChannelsThreeDispatches | internal/proxy/cache_empty_handler_test.go:243-262 | "channel1", "channel2" and "channel3" cause three dispatches, the first carrying "channel1", the second "channel2" and the third "channel3" |
| Scenarios.TimerFiresOnlyAfterTimeout | internal/proxy/cache_empty_handler.go:78-85 | A waiting follower's timer can fire exactly when the lock timeout has elapsed since it began waiting |
| Scenarios.TimedOutFollowerCallsAgain | internal/proxy/cache_empty_handler_test.go:137-204 | A follower that outwaits the timeout makes its own call for the same channel, and the hung leader then completes its call. Both reach a backend whenever a proxy is configured, so there are two calls, and each caller returns its own call's outcome |
| Scenarios.CancelledFollowerMakesNoCall | internal/proxy/cache_empty_handler.go:96-97 | A follower cancelled while waiting returns no response and the context's error. The leader's call is the only dispatch |
| Scenarios.ArrivalAfterFinishLeadsAgain | internal/proxy/cache_empty_handler.go:63-68 | A caller that arrives after a leader finished leads again on a new lock and makes a second dispatch, rather than reusing the earlier result |

## Left out

- HTTP and gRPC bindings (`cache_empty_http.go`, `cache_empty_grpc.go`): the backend is the abstract `call` of a proxy. `Protocol`, `UseBase64` and `IncludeMeta` are carried as plain fields that nothing in the coordinator reads.
- Logging (the zerolog calls in `handle` and `handleCacheEmpty`): no effect on results.
- Goroutines, `sync.Map` atomicity, `time.Timer` and context deadlines: they become events in a sequential trace. A `select` with several ready cases is modelled by allowing whichever wake event the trace chooses. No real-time bound is claimed.
- The backend is a pure function of the caller's context and the request. A backend whose answer changes between calls with the same context is not modelled. Each context carries an id, so two callers' calls may still differ.
- A proxy that panics is not modelled. The deferred cleanup is modelled as always running, on both the success and the error path.
- The leader's key deletion and `close(lock.done)` form one event. In the source, a caller arriving between the two becomes a new leader, and the model allows that same interleaving, because the new arrival sees no key either way.
- `time.Duration` is an unbounded integer of nanoseconds: its 64-bit range is not modelled, and the clock never wraps.
- Handler.WakeTimerStep: its `ErrLockTimeout` clause holds only under `NeverFailsWith(h.proxies, ErrLockTimeout)`, because the fallback passes a proxy's error through unchanged.
- Invariants.LockTimeoutNeverReturned: holds only for registries whose proxies never fail with the same error value, because the handler passes proxy errors through unchanged.
- Sentinel errors are compared by value: any `Failure` with the message of `ErrLockTimeout` counts as that error. Go compares `errors.New` values by identity, so the model's condition on the proxies is the stricter of the two.
- A backend call is one event, taken at the moment the call returns. The dispatch log therefore holds completed calls in completion order, and a call in flight is not in it. In the lock-timeout scenario, the leader's call reaches the backend first but is logged second, after the fallback call that completed before it. The start of a call and a backend's view of concurrent calls are not modelled.
- The CORS middleware tests and the wall-clock details of the handler tests (sleeps, call counters, HTTP servers): the middleware is not part of this model, and the handler tests appear here only as the traces in `Scenarios`.
