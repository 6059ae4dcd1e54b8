/**
 The handler's test scenarios, stated as traces of events over every
 registry, iteration order and timeout: concurrent callers on one channel
 share one dispatch, distinct channels get one dispatch each, a timed-out
 follower makes its own call, a cancelled follower makes none, and a caller
 arriving after completion leads afresh.
 */
module Scenarios {
  import opened Wrappers
  import opened Proxy
  import opened Dispatch
  import opened LockTable
  import opened Handler

  /** Running two traces one after the other is running their concatenation. */
  lemma {:induction false} RunAppend(h: CacheEmptyHandler, m: Machine, a: seq<Event>, b: seq<Event>)
    ensures Run(h, m, a + b) == if Run(h, m, a).Some? then Run(h, Run(h, m, a).value, b) else None
    decreases |a|
  {
    if |a| > 0 {
      assert (a + b)[0] == a[0];
      assert (a + b)[1..] == a[1..] + b;
      match Step(h, m, a[0])
      case None =>
      case Some(m') => RunAppend(h, m', a[1..], b);
    } else {
      assert a + b == b;
    }
  }

  /** A trace of one event is one step. */
  lemma RunOne(h: CacheEmptyHandler, m: Machine, e: Event)
    ensures Run(h, m, [e]) == Step(h, m, e)
  {
    assert [e][1..] == [];
  }

  /** Extending a trace by one event takes one more step. */
  lemma RunSnoc(h: CacheEmptyHandler, m: Machine, events: seq<Event>, e: Event)
    ensures Run(h, m, events + [e]) == if Run(h, m, events).Some? then Step(h, Run(h, m, events).value, e) else None
  {
    RunAppend(h, m, events, [e]);
    if Run(h, m, events).Some? {
      RunOne(h, Run(h, m, events).value, e);
    }
  }

  /** Callers `0 .. n-1` arrive on `channel`, each with its own live context. */
  function Arrivals(channel: string, n: nat): (es: seq<Event>)
    ensures |es| == n
  {
    if n == 0 then [] else Arrivals(channel, n - 1) + [Arrive(n - 1, channel, Context(n - 1, None))]
  }

  /** Callers `1 .. n-1` each return through the lock's `done`. */
  function WakeAll(n: nat): (es: seq<Event>)
    ensures |es| == if n == 0 then 0 else n - 1
  {
    if n <= 1 then [] else WakeAll(n - 1) + [WakeOnDone(n - 1)]
  }

  /** After `k >= 1` arrivals on `channel`: caller 0 leads on lock 0, the others wait on it. */
  ghost predicate AllArrived(m: Machine, channel: string, k: nat) {
    && m.table == Table(map[channel := 0], map[0 := FreshLock], 1)
    && m.now == 0
    && m.dispatches == []
    && (forall c: nat :: c in m.callers <==> c < k)
    && (forall c | c in m.callers ::
          m.callers[c] == Caller(Context(c, None), if c == 0 then Leading(channel, 0) else Waiting(channel, 0, 0)))
  }

  /** One more arrival on the same channel: the new caller waits on lock 0. */
  lemma ArriveOneStep(h: CacheEmptyHandler, m: Machine, channel: string, k: nat)
    requires k >= 2
    requires AllArrived(m, channel, k - 1)
    ensures Step(h, m, Arrive(k - 1, channel, Context(k - 1, None))).Some?
    ensures AllArrived(Step(h, m, Arrive(k - 1, channel, Context(k - 1, None))).value, channel, k)
  {
    assert Step(h, m, Arrive(k - 1, channel, Context(k - 1, None)))
        == Some(ArriveStep(m, k - 1, channel, Context(k - 1, None)));
  }

  lemma {:induction false} ArrivalsReach(h: CacheEmptyHandler, channel: string, k: nat)
    requires k >= 1
    ensures Run(h, Init, Arrivals(channel, k)).Some?
    ensures AllArrived(Run(h, Init, Arrivals(channel, k)).value, channel, k)
  {
    var e := Arrive(k - 1, channel, Context(k - 1, None));
    RunSnoc(h, Init, Arrivals(channel, k - 1), e);
    if k == 1 {
      assert Step(h, Init, e) == Some(ArriveStep(Init, 0, channel, Context(0, None)));
    } else {
      ArrivalsReach(h, channel, k - 1);
      ArriveOneStep(h, Run(h, Init, Arrivals(channel, k - 1)).value, channel, k);
    }
  }

  /** After the leader finished with `reply` and callers `1 .. k-1` woke on `done`. */
  ghost predicate WokenUpTo(m: Machine, channel: string, n: nat, k: nat, reply: Reply) {
    && 0 in m.table.heap && m.table.heap[0].done && m.table.heap[0].Pair() == reply
    && channel !in m.table.index
    && |m.dispatches| == 1
    && m.dispatches[0].request == NotifyRequest(channel)
    && (forall c: nat :: c in m.callers <==> c < n)
    && (forall c | c in m.callers && c < k :: m.callers[c].phase.Returned? && m.callers[c].phase.reply == reply)
    && (forall c | c in m.callers && k <= c :: m.callers[c].phase == Waiting(channel, 0, 0))
  }

  /** One more follower wakes on `done` and returns the stored pair. */
  lemma WakeOneStep(h: CacheEmptyHandler, m: Machine, channel: string, n: nat, k: nat, reply: Reply)
    requires 2 <= k <= n
    requires WokenUpTo(m, channel, n, k - 1, reply)
    ensures Step(h, m, WakeOnDone(k - 1)).Some?
    ensures WokenUpTo(Step(h, m, WakeOnDone(k - 1)).value, channel, n, k, reply)
  {
    assert Step(h, m, WakeOnDone(k - 1)) == Some(WakeDoneStep(m, k - 1));
  }

  lemma {:induction false} WakeAllReach(h: CacheEmptyHandler, m: Machine, channel: string, n: nat, k: nat, reply: Reply)
    requires 1 <= k <= n
    requires WokenUpTo(m, channel, n, 1, reply)
    ensures Run(h, m, WakeAll(k)).Some?
    ensures WokenUpTo(Run(h, m, WakeAll(k)).value, channel, n, k, reply)
  {
    if k == 1 {
      assert WakeAll(1) == [];
    } else {
      WakeAllReach(h, m, channel, n, k - 1, reply);
      RunSnoc(h, m, WakeAll(k - 1), WakeOnDone(k - 1));
      WakeOneStep(h, Run(h, m, WakeAll(k - 1)).value, channel, n, k, reply);
    }
  }

  /** The leader of `n` same-channel arrivals finishes: one dispatch, the channel is free again. */
  lemma LeaderFinishesFirst(h: CacheEmptyHandler, m: Machine, channel: string, n: nat, order: seq<string>)
    requires n >= 1
    requires IsIterationOrder(order, h.proxies)
    requires AllArrived(m, channel, n)
    ensures Step(h, m, LeaderFinish(0, order)).Some?
    ensures WokenUpTo(Step(h, m, LeaderFinish(0, order)).value, channel, n, 1,
                      Invoke(h, Context(0, None), channel, order).reply)
  {
    assert Step(h, m, LeaderFinish(0, order)) == Some(LeaderStep(h, m, 0, order));
  }

  /** The trace of the concurrency test: `n` arrivals, the leader's finish, every follower woken by `done`. */
  function SameChannelTrace(channel: string, n: nat, order: seq<string>): seq<Event> {
    Arrivals(channel, n) + [LeaderFinish(0, order)] + WakeAll(n)
  }

  /**
   Deduplication: `n >= 1` callers on one channel whose followers are all
   released by the leader's completion cause exactly one dispatch, and every
   caller returns the identical pair, the leader's; the channel is free again
   afterwards.
   */
  lemma SameChannelOneDispatch(h: CacheEmptyHandler, channel: string, n: nat, order: seq<string>)
    requires n >= 1
    requires IsIterationOrder(order, h.proxies)
    ensures Run(h, Init, SameChannelTrace(channel, n, order)).Some?
    ensures var m := Run(h, Init, SameChannelTrace(channel, n, order)).value;
            var d := Invoke(h, Context(0, None), channel, order);
            && |m.dispatches| == 1
            && m.dispatches[0].request == NotifyRequest(channel)
            && (forall c: nat :: c in m.callers <==> c < n)
            && (forall c | c in m.callers :: m.callers[c].phase.Returned? && m.callers[c].phase.reply == d.reply)
            && channel !in m.table.index
  {
    var d := Invoke(h, Context(0, None), channel, order);
    ArrivalsReach(h, channel, n);
    RunSnoc(h, Init, Arrivals(channel, n), LeaderFinish(0, order));
    var m1 := Run(h, Init, Arrivals(channel, n)).value;
    LeaderFinishesFirst(h, m1, channel, n, order);
    var m2 := Step(h, m1, LeaderFinish(0, order)).value;
    WakeAllReach(h, m2, channel, n, n, d.reply);
    RunAppend(h, Init, Arrivals(channel, n) + [LeaderFinish(0, order)], WakeAll(n));
  }

  /** The test's ten concurrent callers on "test:channel" produce one dispatch. */
  lemma TenCallersOneDispatch(h: CacheEmptyHandler, order: seq<string>)
    requires IsIterationOrder(order, h.proxies)
    ensures Run(h, Init, SameChannelTrace("test:channel", 10, order)).Some?
    ensures |Run(h, Init, SameChannelTrace("test:channel", 10, order)).value.dispatches| == 1
  {
    SameChannelOneDispatch(h, "test:channel", 10, order);
  }

  /** Caller `i` arrives on `channels[i]`, for each `i < k`. */
  function DistinctArrivals(channels: seq<string>, k: nat): (es: seq<Event>)
    requires k <= |channels|
    ensures |es| == k
  {
    if k == 0 then [] else DistinctArrivals(channels, k - 1) + [Arrive(k - 1, channels[k - 1], Context(k - 1, None))]
  }

  /** Callers `0 .. k-1` finish their dispatch, in that order. */
  function Finishes(k: nat, order: seq<string>): (es: seq<Event>)
    ensures |es| == k
  {
    if k == 0 then [] else Finishes(k - 1, order) + [LeaderFinish(k - 1, order)]
  }

  /** After the first `k` distinct-channel arrivals: caller `i` leads on lock `i` for `channels[i]`. */
  ghost predicate DistinctArrived(m: Machine, channels: seq<string>, k: nat)
    requires k <= |channels|
  {
    && m.table.next == k
    && (forall ch | ch in m.table.index :: m.table.index[ch] < k && channels[m.table.index[ch]] == ch)
    && (forall c: nat :: c in m.callers <==> c < k)
    && (forall c | c in m.callers :: c < |channels| && m.callers[c].phase == Leading(channels[c], c))
    && m.dispatches == []
  }

  /** One more distinct-channel arrival: the new caller leads on a fresh lock. */
  lemma DistinctArriveStep(h: CacheEmptyHandler, m: Machine, channels: seq<string>, k: nat)
    requires 1 <= k <= |channels|
    requires forall i, j | 0 <= i < j < |channels| :: channels[i] != channels[j]
    requires DistinctArrived(m, channels, k - 1)
    ensures Step(h, m, Arrive(k - 1, channels[k - 1], Context(k - 1, None))).Some?
    ensures DistinctArrived(Step(h, m, Arrive(k - 1, channels[k - 1], Context(k - 1, None))).value, channels, k)
  {
    var ch := channels[k - 1];
    var r := ArriveStep(m, k - 1, ch, Context(k - 1, None));
    assert r.table.index == m.table.index[ch := k - 1];
    assert Step(h, m, Arrive(k - 1, ch, Context(k - 1, None))) == Some(r);
  }

  lemma {:induction false} DistinctArrivalsReach(h: CacheEmptyHandler, channels: seq<string>, k: nat)
    requires k <= |channels|
    requires forall i, j | 0 <= i < j < |channels| :: channels[i] != channels[j]
    ensures Run(h, Init, DistinctArrivals(channels, k)).Some?
    ensures DistinctArrived(Run(h, Init, DistinctArrivals(channels, k)).value, channels, k)
  {
    if k > 0 {
      DistinctArrivalsReach(h, channels, k - 1);
      RunSnoc(h, Init, DistinctArrivals(channels, k - 1), Arrive(k - 1, channels[k - 1], Context(k - 1, None)));
      DistinctArriveStep(h, Run(h, Init, DistinctArrivals(channels, k - 1)).value, channels, k);
    }
  }

  /** After callers `0 .. j-1` finished: dispatch `i` was made by caller `i` for `channels[i]`. */
  ghost predicate DistinctFinished(m: Machine, channels: seq<string>, j: nat) {
    && j <= |channels|
    && (forall c: nat :: c in m.callers <==> c < |channels|)
    && (forall c | c in m.callers && c < j :: m.callers[c].phase.Returned? && m.callers[c].phase.via == AsLeader(c))
    && (forall c | c in m.callers && j <= c :: c < |channels| && m.callers[c].phase == Leading(channels[c], c))
    && |m.dispatches| == j
    && (forall i | 0 <= i < j ::
          m.dispatches[i].request == NotifyRequest(channels[i]) && m.dispatches[i].reason == LeaderCall(i))
  }

  /** One more leader finishes: dispatch `j-1` is its, for its own channel. */
  lemma FinishStep(h: CacheEmptyHandler, m: Machine, channels: seq<string>, j: nat, order: seq<string>)
    requires 1 <= j <= |channels|
    requires IsIterationOrder(order, h.proxies)
    requires DistinctFinished(m, channels, j - 1)
    ensures Step(h, m, LeaderFinish(j - 1, order)).Some?
    ensures DistinctFinished(Step(h, m, LeaderFinish(j - 1, order)).value, channels, j)
  {
    var r := LeaderStep(h, m, j - 1, order);
    assert Step(h, m, LeaderFinish(j - 1, order)) == Some(r);
    forall i | 0 <= i < j
      ensures r.dispatches[i].request == NotifyRequest(channels[i]) && r.dispatches[i].reason == LeaderCall(i)
    {
      if i < j - 1 {
        assert r.dispatches[i] == m.dispatches[i];
      }
    }
  }

  lemma {:induction false} FinishesReach(h: CacheEmptyHandler, m: Machine, channels: seq<string>, j: nat, order: seq<string>)
    requires j <= |channels|
    requires IsIterationOrder(order, h.proxies)
    requires DistinctFinished(m, channels, 0)
    ensures Run(h, m, Finishes(j, order)).Some?
    ensures DistinctFinished(Run(h, m, Finishes(j, order)).value, channels, j)
  {
    if j == 0 {
      assert Finishes(0, order) == [];
    } else {
      FinishesReach(h, m, channels, j - 1, order);
      RunSnoc(h, m, Finishes(j - 1, order), LeaderFinish(j - 1, order));
      FinishStep(h, Run(h, m, Finishes(j - 1, order)).value, channels, j, order);
    }
  }

  /**
   Isolation: callers on `k` distinct channels all lead, and their finishes
   cause exactly `k` dispatches, the `i`-th carrying the `i`-th channel.
   */
  lemma DistinctChannelsOneDispatchEach(h: CacheEmptyHandler, channels: seq<string>, order: seq<string>)
    requires forall i, j | 0 <= i < j < |channels| :: channels[i] != channels[j]
    requires IsIterationOrder(order, h.proxies)
    ensures Run(h, Init, DistinctArrivals(channels, |channels|) + Finishes(|channels|, order)).Some?
    ensures var m := Run(h, Init, DistinctArrivals(channels, |channels|) + Finishes(|channels|, order)).value;
            && |m.dispatches| == |channels|
            && (forall i | 0 <= i < |channels| :: m.dispatches[i].request == NotifyRequest(channels[i]))
            && (forall c | c in m.callers :: m.callers[c].phase.Returned? && m.callers[c].phase.via.AsLeader?)
  {
    DistinctArrivalsReach(h, channels, |channels|);
    var m := Run(h, Init, DistinctArrivals(channels, |channels|)).value;
    assert DistinctFinished(m, channels, 0);
    FinishesReach(h, m, channels, |channels|, order);
    RunAppend(h, Init, DistinctArrivals(channels, |channels|), Finishes(|channels|, order));
  }

  /** The test's three channels produce three dispatches, one per channel. */
  lemma ThreeChannelsThreeDispatches(h: CacheEmptyHandler, order: seq<string>)
    requires IsIterationOrder(order, h.proxies)
    ensures var channels := ["channel1", "channel2", "channel3"];
            var trace := DistinctArrivals(channels, 3) + Finishes(3, order);
            && Run(h, Init, trace).Some?
            && |Run(h, Init, trace).value.dispatches| == 3
            && Run(h, Init, trace).value.dispatches[0].request == NotifyRequest("channel1")
            && Run(h, Init, trace).value.dispatches[1].request == NotifyRequest("channel2")
            && Run(h, Init, trace).value.dispatches[2].request == NotifyRequest("channel3")
  {
    var channels := ["channel1", "channel2", "channel3"];
    DistinctChannelsOneDispatchEach(h, channels, order);
  }

  /** Some proxy of the registry is non-nil, so a dispatch reaches a backend. */
  ghost predicate HasLiveProxy(h: CacheEmptyHandler) {
    exists name | name in h.proxies :: h.proxies[name].Some?
  }

  /** The lock-timeout test up to the follower's timer: a leader and a follower arrive, `elapsed` passes, the timer fires. */
  function TimeoutTrace(channel: string, elapsed: nat, order: seq<string>): seq<Event> {
    Arrivals(channel, 2) + [Tick(elapsed)] + [WakeOnTimer(1, order)]
  }

  /** Two arrivals followed by `elapsed` time: the state the follower's timer is raced in. */
  lemma TwoArrivedAfter(h: CacheEmptyHandler, channel: string, elapsed: nat)
    ensures Run(h, Init, Arrivals(channel, 2) + [Tick(elapsed)]).Some?
    ensures var m := Run(h, Init, Arrivals(channel, 2) + [Tick(elapsed)]).value;
            && m.table == Table(map[channel := 0], map[0 := FreshLock], 1)
            && m.now == elapsed
            && m.dispatches == []
            && m.callers == map[0 := Caller(Context(0, None), Leading(channel, 0)),
                                1 := Caller(Context(1, None), Waiting(channel, 0, 0))]
  {
    ArrivalsReach(h, channel, 2);
    RunSnoc(h, Init, Arrivals(channel, 2), Tick(elapsed));
    var m := Run(h, Init, Arrivals(channel, 2)).value;
    assert m.callers == map[0 := Caller(Context(0, None), Leading(channel, 0)),
                            1 := Caller(Context(1, None), Waiting(channel, 0, 0))];
  }

  /** A follower's timer can win the select exactly when the lock timeout has passed since it began waiting. */
  lemma TimerFiresOnlyAfterTimeout(h: CacheEmptyHandler, channel: string, elapsed: nat, order: seq<string>)
    requires IsIterationOrder(order, h.proxies)
    ensures Run(h, Init, TimeoutTrace(channel, elapsed, order)).Some? <==> elapsed >= h.lockTimeout
  {
    TwoArrivedAfter(h, channel, elapsed);
    RunSnoc(h, Init, Arrivals(channel, 2) + [Tick(elapsed)], WakeOnTimer(1, order));
  }

  /**
   The state right after the follower's timer fired and its fallback call
   returned: that call is logged, while the leader, whose call is still in
   flight, still leads.
   */
  lemma TimerFired(h: CacheEmptyHandler, channel: string, elapsed: nat, order: seq<string>)
    requires IsIterationOrder(order, h.proxies)
    requires elapsed >= h.lockTimeout
    ensures Run(h, Init, TimeoutTrace(channel, elapsed, order)).Some?
    ensures var m := Run(h, Init, TimeoutTrace(channel, elapsed, order)).value;
            && m.table == Table(map[channel := 0], map[0 := FreshLock], 1)
            && |m.dispatches| == 1
            && m.dispatches[0].caller == 1 && m.dispatches[0].reason == FallbackCall(0)
            && m.dispatches[0].request == NotifyRequest(channel)
            && (m.dispatches[0].proxyCalled.Some? <==> HasLiveProxy(h))
            && m.callers.Keys == {0, 1}
            && m.callers[0] == Caller(Context(0, None), Leading(channel, 0))
            && m.callers[1].phase == Returned(channel, Invoke(h, Context(1, None), channel, order).reply, OnTimeout(0))
  {
    TwoArrivedAfter(h, channel, elapsed);
    var m2 := Run(h, Init, Arrivals(channel, 2) + [Tick(elapsed)]).value;
    RunSnoc(h, Init, Arrivals(channel, 2) + [Tick(elapsed)], WakeOnTimer(1, order));
    assert Step(h, m2, WakeOnTimer(1, order)) == Some(WakeTimerStep(h, m2, 1, order));
  }

  /**
   The lock-timeout test: the leader's call hangs, and a follower whose wait
   outlasts the lock timeout makes an independent call for the same channel
   while the leader's lock is still pending. The fallback completes first and
   the leader's call completes afterwards, so the log holds two calls, and
   both reach a backend whenever the registry holds a live proxy. Each caller
   returns its own call's outcome and the channel is free afterwards.
   */
  lemma TimedOutFollowerCallsAgain(h: CacheEmptyHandler, channel: string, elapsed: nat, order: seq<string>)
    requires IsIterationOrder(order, h.proxies)
    requires elapsed >= h.lockTimeout
    ensures Run(h, Init, TimeoutTrace(channel, elapsed, order) + [LeaderFinish(0, order)]).Some?
    ensures var m := Run(h, Init, TimeoutTrace(channel, elapsed, order) + [LeaderFinish(0, order)]).value;
            && |m.dispatches| == 2
            && m.dispatches[0].caller == 1 && m.dispatches[0].reason == FallbackCall(0)
            && m.dispatches[1].caller == 0 && m.dispatches[1].reason == LeaderCall(0)
            && m.dispatches[0].request == m.dispatches[1].request == NotifyRequest(channel)
            && (m.dispatches[0].proxyCalled.Some? <==> HasLiveProxy(h))
            && (m.dispatches[1].proxyCalled.Some? <==> HasLiveProxy(h))
            && m.callers.Keys == {0, 1}
            && m.callers[1].phase == Returned(channel, Invoke(h, Context(1, None), channel, order).reply, OnTimeout(0))
            && m.callers[0].phase == Returned(channel, Invoke(h, Context(0, None), channel, order).reply, AsLeader(0))
            && channel !in m.table.index
  {
    TimerFired(h, channel, elapsed, order);
    var m3 := Run(h, Init, TimeoutTrace(channel, elapsed, order)).value;
    RunSnoc(h, Init, TimeoutTrace(channel, elapsed, order), LeaderFinish(0, order));
    assert Step(h, m3, LeaderFinish(0, order)) == Some(LeaderStep(h, m3, 0, order));
  }

  /** A follower's context is cancelled while it waits: it wakes on `ctx.Done()`, then the leader finishes. */
  function CancelTrace(channel: string, cause: CtxCause, order: seq<string>): seq<Event> {
    Arrivals(channel, 2) + [CancelContext(1, cause)] + [WakeOnCancel(1)] + [LeaderFinish(0, order)]
  }

  /** The state right after the cancelled follower returned: nothing dispatched, the leader still leads. */
  lemma FollowerCancelled(h: CacheEmptyHandler, channel: string, cause: CtxCause)
    ensures Run(h, Init, Arrivals(channel, 2) + [CancelContext(1, cause)] + [WakeOnCancel(1)]).Some?
    ensures var m := Run(h, Init, Arrivals(channel, 2) + [CancelContext(1, cause)] + [WakeOnCancel(1)]).value;
            && m.table == Table(map[channel := 0], map[0 := FreshLock], 1)
            && m.dispatches == []
            && m.callers.Keys == {0, 1}
            && m.callers[0] == Caller(Context(0, None), Leading(channel, 0))
            && m.callers[1].phase == Returned(channel, Reply(None, Some(ContextError(cause))), OnCancel(0))
  {
    ArrivalsReach(h, channel, 2);
    var m1 := Run(h, Init, Arrivals(channel, 2)).value;
    RunSnoc(h, Init, Arrivals(channel, 2), CancelContext(1, cause));
    assert Step(h, m1, CancelContext(1, cause)) == Some(CancelStep(m1, 1, cause));
    var m2 := CancelStep(m1, 1, cause);
    RunSnoc(h, Init, Arrivals(channel, 2) + [CancelContext(1, cause)], WakeOnCancel(1));
    assert Step(h, m2, WakeOnCancel(1)) == Some(WakeCancelStep(m2, 1));
  }

  /**
   Cancellation: a waiting follower whose context ends returns no response
   and the context's error without dispatching; the leader's call is the only
   one and its outcome is its own.
   */
  lemma CancelledFollowerMakesNoCall(h: CacheEmptyHandler, channel: string, cause: CtxCause, order: seq<string>)
    requires IsIterationOrder(order, h.proxies)
    ensures Run(h, Init, CancelTrace(channel, cause, order)).Some?
    ensures var m := Run(h, Init, CancelTrace(channel, cause, order)).value;
            && |m.dispatches| == 1
            && m.dispatches[0].caller == 0 && m.dispatches[0].reason == LeaderCall(0)
            && m.callers.Keys == {0, 1}
            && m.callers[1].phase == Returned(channel, Reply(None, Some(ContextError(cause))), OnCancel(0))
            && m.callers[0].phase == Returned(channel, Invoke(h, Context(0, None), channel, order).reply, AsLeader(0))
            && channel !in m.table.index
  {
    FollowerCancelled(h, channel, cause);
    var m3 := Run(h, Init, Arrivals(channel, 2) + [CancelContext(1, cause)] + [WakeOnCancel(1)]).value;
    RunSnoc(h, Init, Arrivals(channel, 2) + [CancelContext(1, cause)] + [WakeOnCancel(1)], LeaderFinish(0, order));
    assert Step(h, m3, LeaderFinish(0, order)) == Some(LeaderStep(h, m3, 0, order));
  }

  /** One caller leads and finishes, then a second caller arrives on the same channel and finishes. */
  function CleanupTrace(channel: string, order: seq<string>): seq<Event> {
    Arrivals(channel, 1) + [LeaderFinish(0, order)] + [Arrive(1, channel, Context(1, None))] + [LeaderFinish(1, order)]
  }

  /** The state right after a lone leader finished: its lock is done and the channel has no key. */
  lemma FirstCallFinished(h: CacheEmptyHandler, channel: string, order: seq<string>)
    requires IsIterationOrder(order, h.proxies)
    ensures Run(h, Init, Arrivals(channel, 1) + [LeaderFinish(0, order)]).Some?
    ensures var m := Run(h, Init, Arrivals(channel, 1) + [LeaderFinish(0, order)]).value;
            && m.table.index == map[]
            && m.table.next == 1
            && m.table.heap.Keys == {0}
            && |m.dispatches| == 1
            && m.dispatches[0].reason == LeaderCall(0)
            && m.dispatches[0].request == NotifyRequest(channel)
            && m.callers.Keys == {0}
  {
    ArrivalsReach(h, channel, 1);
    var m1 := Run(h, Init, Arrivals(channel, 1)).value;
    RunSnoc(h, Init, Arrivals(channel, 1), LeaderFinish(0, order));
    assert Step(h, m1, LeaderFinish(0, order)) == Some(LeaderStep(h, m1, 0, order));
    var m2 := LeaderStep(h, m1, 0, order);
    assert m2.table.index.Keys == {};
  }

  /**
   Cleanup: once a leader has finished, its key is gone, so the next caller
   on the channel leads with a new lock and dispatches again rather than
   reusing the earlier outcome.
   */
  lemma ArrivalAfterFinishLeadsAgain(h: CacheEmptyHandler, channel: string, order: seq<string>)
    requires IsIterationOrder(order, h.proxies)
    ensures Run(h, Init, CleanupTrace(channel, order)).Some?
    ensures var m := Run(h, Init, CleanupTrace(channel, order)).value;
            && |m.dispatches| == 2
            && m.dispatches[0].reason == LeaderCall(0)
            && m.dispatches[1].reason == LeaderCall(1)
            && m.dispatches[0].request == m.dispatches[1].request == NotifyRequest(channel)
            && m.callers.Keys == {0, 1}
            && m.callers[1].phase == Returned(channel, Invoke(h, Context(1, None), channel, order).reply, AsLeader(1))
            && channel !in m.table.index
  {
    FirstCallFinished(h, channel, order);
    var m2 := Run(h, Init, Arrivals(channel, 1) + [LeaderFinish(0, order)]).value;
    RunSnoc(h, Init, Arrivals(channel, 1) + [LeaderFinish(0, order)], Arrive(1, channel, Context(1, None)));
    assert Step(h, m2, Arrive(1, channel, Context(1, None))) == Some(ArriveStep(m2, 1, channel, Context(1, None)));
    var m3 := ArriveStep(m2, 1, channel, Context(1, None));
    RunSnoc(h, Init, Arrivals(channel, 1) + [LeaderFinish(0, order)] + [Arrive(1, channel, Context(1, None))],
            LeaderFinish(1, order));
    assert Step(h, m3, LeaderFinish(1, order)) == Some(LeaderStep(h, m3, 1, order));
  }
}
