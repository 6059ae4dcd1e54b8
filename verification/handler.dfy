/**
 `CacheEmptyHandler` as a sequential state machine. Each caller of `handle`
 is a record whose phase says where it is in the Go function: leading (inside
 `handleCacheEmpty`), waiting (blocked in the `select`), or returned. The
 goroutine scheduler, the timer and the caller's context become explicit
 events; Go map iteration order is an argument of every dispatch event.
 */
module Handler {
  import opened Wrappers
  import opened Proxy
  import opened Dispatch
  import opened LockTable

  /** `time.Second`, in the nanoseconds of a `time.Duration`. */
  const Second: int := 1_000_000_000

  /** The wait bound used when the configuration leaves `LockTimeout` at zero. */
  const DefaultLockTimeout: int := 5 * Second

  /** `CacheEmptyHandlerConfig`. */
  datatype Config = Config(proxies: Registry, lockTimeout: int)

  /** The immutable part of a `CacheEmptyHandler`: its proxies and its effective wait bound. */
  datatype CacheEmptyHandler = CacheEmptyHandler(proxies: Registry, lockTimeout: int)

  /**
   `NewCacheEmptyHandler`: keeps the proxies and the configured timeout,
   replacing only a zero timeout by five seconds (a negative one is kept).
   */
  function NewCacheEmptyHandler(config: Config): (h: CacheEmptyHandler)
    ensures h.lockTimeout != 0
    ensures config.lockTimeout != 0 ==> h.lockTimeout == config.lockTimeout
    ensures config.lockTimeout == 0 ==> h.lockTimeout == 5 * Second
    ensures h.proxies == config.proxies
  {
    var lockTimeout := if config.lockTimeout == 0 then DefaultLockTimeout else config.lockTimeout;
    CacheEmptyHandler(config.proxies, lockTimeout)
  }

  /** Configuring a handler with its own effective timeout changes nothing. */
  lemma EffectiveTimeoutIsFixpoint(config: Config)
    ensures var h := NewCacheEmptyHandler(config);
            NewCacheEmptyHandler(Config(h.proxies, h.lockTimeout)).lockTimeout == h.lockTimeout
  {
  }

  type CallerId = nat

  /** How a returned caller got its reply. */
  datatype Resolution =
    | AsLeader(lock: LockId)     // it ran the dispatch itself
    | OnLockDone(lock: LockId)   // the leader's `done` fired
    | OnTimeout(lock: LockId)    // the timer fired; it dispatched on its own
    | OnCancel(lock: LockId)     // its context was done

  datatype Phase =
    | Leading(channel: string, lock: LockId)
    | Waiting(channel: string, lock: LockId, since: int)
    | Returned(channel: string, reply: Reply, via: Resolution)

  datatype Caller = Caller(ctx: Context, phase: Phase)

  /** Why a dispatch was made. */
  datatype Reason = LeaderCall(lock: LockId) | FallbackCall(lock: LockId)

  /** One call of `handleCacheEmpty`, and the registry name of the proxy it called (if any). */
  datatype DispatchRecord = DispatchRecord(caller: CallerId, request: NotifyRequest, reason: Reason, proxyCalled: Option<string>)

  /**
   The handler's mutable state, its callers, the clock, and the log of
   dispatches. A dispatch is one event at the moment its call returns, so the
   log holds completed calls in the order they completed; a call still in
   flight is not in it.
   */
  datatype Machine = Machine(table: Table, callers: map<CallerId, Caller>, now: int, dispatches: seq<DispatchRecord>)

  /** A newly created handler: no locks, no callers, no dispatches. */
  const Init: Machine := Machine(EmptyTable, map[], 0, [])

  datatype Event =
    | Arrive(caller: CallerId, channel: string, ctx: Context)      // `handle(ctx, channel)` is called
    | CancelContext(caller: CallerId, cause: CtxCause)             // the caller's context becomes done
    | Tick(elapsed: nat)                                          // time passes
    | LeaderFinish(caller: CallerId, order: seq<string>)          // the leader's dispatch returns
    | WakeOnDone(caller: CallerId)                                // `<-lock.done` wins the select
    | WakeOnTimer(caller: CallerId, order: seq<string>)           // `<-timer.C` wins the select
    | WakeOnCancel(caller: CallerId)                              // `<-ctx.Done()` wins the select

  /** One call of `handleCacheEmpty` for `channel` with a fresh request, in iteration order `order`. */
  function Invoke(h: CacheEmptyHandler, ctx: Context, channel: string, order: seq<string>): (d: Dispatched)
    requires IsIterationOrder(order, h.proxies)
    ensures d.called.Some? ==> d.called.value < |order| && h.proxies[order[d.called.value]].Some?
    ensures d.called.Some? ==> forall j | 0 <= j < d.called.value :: h.proxies[order[j]].None?
    ensures d.called.Some? ==>
              d.reply == ToReply(h.proxies[order[d.called.value]].value.call(ctx, NotifyRequest(channel)))
    ensures d.called.None? <==> (forall name | name in h.proxies :: h.proxies[name].None?)
    ensures d.called.None? ==> d.reply == DefaultReply
  {
    var d := HandleCacheEmpty(ctx, NotifyRequest(channel), EntriesInOrder(h.proxies, order));
    assert d.called.None? ==> forall name | name in h.proxies :: h.proxies[name].None? by {
      if d.called.None? {
        forall name | name in h.proxies ensures h.proxies[name].None? {
          var i :| 0 <= i < |order| && order[i] == name;
          assert EntriesInOrder(h.proxies, order)[i].proxy == h.proxies[name];
        }
      }
    }
    d
  }

  /** The record of a dispatch made by `caller` for `channel`. */
  function Record(caller: CallerId, channel: string, reason: Reason, d: Dispatched, order: seq<string>): DispatchRecord
    requires d.called.Some? ==> d.called.value < |order|
  {
    DispatchRecord(caller, NotifyRequest(channel), reason, if d.called.Some? then Some(order[d.called.value]) else None)
  }

  /**
   A caller enters `handle`: `getOrCreateLock` decides whether it leads (the
   channel had no lock) or waits on the existing lock, starting its timer now.
   */
  function ArriveStep(m: Machine, caller: CallerId, channel: string, ctx: Context): (r: Machine)
    requires caller !in m.callers
    ensures caller in r.callers && r.callers[caller].ctx == ctx
    ensures r.callers[caller].phase.Leading? <==> channel !in m.table.index
    ensures r.callers[caller].phase.Waiting? <==> channel in m.table.index
    ensures r.callers[caller].phase.Waiting? ==>
              && r.table == m.table
              && r.callers[caller].phase == Waiting(channel, m.table.index[channel], m.now)
    ensures r.callers[caller].phase.Leading? ==>
              && r.callers[caller].phase.channel == channel
              && channel in r.table.index
              && r.table.index[channel] == r.callers[caller].phase.lock
              && r.callers[caller].phase.lock in r.table.heap
              && r.table.heap[r.callers[caller].phase.lock] == FreshLock
              && r.callers[caller].phase.lock == m.table.next
              && r.table.index == m.table.index[channel := m.table.next]
              && r.table.heap == m.table.heap[m.table.next := FreshLock]
              && r.table.next == m.table.next + 1
    ensures caller in r.callers && r.callers == m.callers[caller := r.callers[caller]]
    ensures r.dispatches == m.dispatches && r.now == m.now
  {
    var acq := GetOrCreateLock(m.table, channel);
    var phase := if acq.isFirstCall then Leading(channel, acq.lock) else Waiting(channel, acq.lock, m.now);
    m.(table := acq.table, callers := m.callers[caller := Caller(ctx, phase)])
  }

  /** The caller's context is cancelled or reaches its deadline. */
  function CancelStep(m: Machine, caller: CallerId, cause: CtxCause): (r: Machine)
    requires caller in m.callers
  {
    var c := m.callers[caller];
    m.(callers := m.callers[caller := c.(ctx := c.ctx.(cause := Some(cause)))])
  }

  /**
   The leader's dispatch returns. Its outcome is stored in its lock, the
   channel key (and only it) is deleted and `done` is closed, on the error
   path as on the success path; the leader returns the stored pair.
   */
  function LeaderStep(h: CacheEmptyHandler, m: Machine, caller: CallerId, order: seq<string>): (r: Machine)
    requires caller in m.callers && m.callers[caller].phase.Leading?
    requires IsIterationOrder(order, h.proxies)
    ensures var Leading(channel, lock) := m.callers[caller].phase;
            var d := Invoke(h, m.callers[caller].ctx, channel, order);
            && caller in r.callers
            && r.callers[caller].phase == Returned(channel, d.reply, AsLeader(lock))
            && lock in r.table.heap
            && r.table.heap[lock].done
            && r.table.heap[lock].Pair() == d.reply
            && channel !in r.table.index
            && (forall ch | ch != channel :: (ch in r.table.index <==> ch in m.table.index))
            && (forall ch | ch != channel && ch in m.table.index :: r.table.index[ch] == m.table.index[ch])
            && |r.dispatches| == |m.dispatches| + 1
            && r.dispatches[..|m.dispatches|] == m.dispatches
            && r.dispatches[|m.dispatches|].request == NotifyRequest(channel)
            && r.dispatches[|m.dispatches|].reason == LeaderCall(lock)
            && r.dispatches[|m.dispatches|].caller == caller
            && (r.dispatches[|m.dispatches|].proxyCalled.Some? <==>
                  exists name | name in h.proxies :: h.proxies[name].Some?)
            && (d.called.Some? ==> r.dispatches[|m.dispatches|].proxyCalled == Some(order[d.called.value]))
            && r.table.next == m.table.next
            && (forall id | id != lock :: (id in r.table.heap <==> id in m.table.heap))
            && (forall id | id != lock && id in m.table.heap :: r.table.heap[id] == m.table.heap[id])
    ensures caller in r.callers && r.callers == m.callers[caller := r.callers[caller]]
    ensures r.now == m.now
  {
    var c := m.callers[caller];
    var Leading(channel, lock) := c.phase;
    var d := Invoke(h, c.ctx, channel, order);
    var table := Release(m.table, channel, lock, d.reply);
    var rec := Record(caller, channel, LeaderCall(lock), d, order);
    assert (m.dispatches + [rec])[..|m.dispatches|] == m.dispatches;
    m.(table := table,
       callers := m.callers[caller := c.(phase := Returned(channel, d.reply, AsLeader(lock)))],
       dispatches := m.dispatches + [rec])
  }

  /** The leader's `done` was closed first: the follower returns the leader's stored pair as is. */
  function WakeDoneStep(m: Machine, caller: CallerId): (r: Machine)
    requires caller in m.callers && m.callers[caller].phase.Waiting?
    requires m.callers[caller].phase.lock in m.table.heap
    requires m.table.heap[m.callers[caller].phase.lock].done
    ensures var Waiting(channel, lock, _) := m.callers[caller].phase;
            && caller in r.callers
            && r.callers[caller].phase == Returned(channel, m.table.heap[lock].Pair(), OnLockDone(lock))
            && r.callers[caller].phase.reply.response == m.table.heap[lock].result
            && r.callers[caller].phase.reply.error == m.table.heap[lock].err
    ensures r.table == m.table && r.dispatches == m.dispatches && r.now == m.now
    ensures caller in r.callers && r.callers == m.callers[caller := r.callers[caller]]
  {
    var c := m.callers[caller];
    var Waiting(channel, lock, _) := c.phase;
    m.(callers := m.callers[caller := c.(phase := Returned(channel, m.table.heap[lock].Pair(), OnLockDone(lock)))])
  }

  /**
   The wait bound elapsed first: the follower dispatches on its own with a
   fresh request for the same channel and returns that outcome. The lock
   table, and with it the leader's lock, is left untouched.
   */
  function WakeTimerStep(h: CacheEmptyHandler, m: Machine, caller: CallerId, order: seq<string>): (r: Machine)
    requires caller in m.callers && m.callers[caller].phase.Waiting?
    requires m.now - m.callers[caller].phase.since >= h.lockTimeout
    requires IsIterationOrder(order, h.proxies)
    ensures r.table == m.table
    ensures var Waiting(channel, lock, _) := m.callers[caller].phase;
            var d := Invoke(h, m.callers[caller].ctx, channel, order);
            && caller in r.callers
            && r.callers[caller].phase == Returned(channel, d.reply, OnTimeout(lock))
            && r.dispatches == m.dispatches + [Record(caller, channel, FallbackCall(lock), d, order)]
            && r.dispatches[|m.dispatches|].request.channel == channel
            && r.dispatches[|m.dispatches|].caller == caller
            && (r.dispatches[|m.dispatches|].proxyCalled.Some? <==>
                  exists name | name in h.proxies :: h.proxies[name].Some?)
            && (d.called.Some? ==> r.dispatches[|m.dispatches|].proxyCalled == Some(order[d.called.value]))
    ensures NeverFailsWith(h.proxies, ErrLockTimeout) ==>
              caller in r.callers && r.callers[caller].phase.Returned? &&
              r.callers[caller].phase.reply.error != Some(ErrLockTimeout)
    ensures caller in r.callers && r.callers == m.callers[caller := r.callers[caller]]
    ensures r.now == m.now
  {
    var c := m.callers[caller];
    var Waiting(channel, lock, _) := c.phase;
    var d := Invoke(h, c.ctx, channel, order);
    m.(callers := m.callers[caller := c.(phase := Returned(channel, d.reply, OnTimeout(lock)))],
       dispatches := m.dispatches + [Record(caller, channel, FallbackCall(lock), d, order)])
  }

  /** The follower's own context was done first: it returns `(nil, ctx.Err())` and dispatches nothing. */
  function WakeCancelStep(m: Machine, caller: CallerId): (r: Machine)
    requires caller in m.callers && m.callers[caller].phase.Waiting?
    requires m.callers[caller].ctx.cause.Some?
    ensures var Waiting(channel, lock, _) := m.callers[caller].phase;
            && caller in r.callers
            && r.callers[caller].phase.Returned?
            && r.callers[caller].phase.via == OnCancel(lock)
            && r.callers[caller].phase.reply.response.None?
            && r.callers[caller].phase.reply.error == Some(ContextError(m.callers[caller].ctx.cause.value))
    ensures r.table == m.table && r.dispatches == m.dispatches && r.now == m.now
    ensures caller in r.callers && r.callers == m.callers[caller := r.callers[caller]]
  {
    var c := m.callers[caller];
    var Waiting(channel, lock, _) := c.phase;
    m.(callers := m.callers[caller := c.(phase := Returned(channel, Reply(None, c.ctx.Err()), OnCancel(lock)))])
  }

  /** One event, or `None` when the event cannot happen in state `m`. */
  function Step(h: CacheEmptyHandler, m: Machine, e: Event): Option<Machine> {
    match e
    case Arrive(caller, channel, ctx) =>
      if caller !in m.callers then Some(ArriveStep(m, caller, channel, ctx)) else None
    case CancelContext(caller, cause) =>
      if caller in m.callers && m.callers[caller].ctx.cause.None? then Some(CancelStep(m, caller, cause)) else None
    case Tick(elapsed) =>
      Some(m.(now := m.now + elapsed))
    case LeaderFinish(caller, order) =>
      if caller in m.callers && m.callers[caller].phase.Leading? && IsIterationOrder(order, h.proxies)
      then Some(LeaderStep(h, m, caller, order)) else None
    case WakeOnDone(caller) =>
      if caller in m.callers && m.callers[caller].phase.Waiting?
         && m.callers[caller].phase.lock in m.table.heap && m.table.heap[m.callers[caller].phase.lock].done
      then Some(WakeDoneStep(m, caller)) else None
    case WakeOnTimer(caller, order) =>
      if caller in m.callers && m.callers[caller].phase.Waiting?
         && m.now - m.callers[caller].phase.since >= h.lockTimeout && IsIterationOrder(order, h.proxies)
      then Some(WakeTimerStep(h, m, caller, order)) else None
    case WakeOnCancel(caller) =>
      if caller in m.callers && m.callers[caller].phase.Waiting? && m.callers[caller].ctx.cause.Some?
      then Some(WakeCancelStep(m, caller)) else None
  }

  /** Runs a trace of events; `None` if some event cannot happen when it comes. */
  function Run(h: CacheEmptyHandler, m: Machine, events: seq<Event>): Option<Machine>
    decreases |events|
  {
    if |events| == 0 then Some(m)
    else
      match Step(h, m, events[0])
      case None => None
      case Some(m') => Run(h, m', events[1..])
  }
}
