/**
 Invariants of every state the handler can reach, and the single-flight
 guarantees that follow from them: one leader per channel, followers see
 exactly the leader's pair, one leader dispatch per lock, keys are isolated,
 and `ErrLockTimeout` is never handed to a caller.

 The invariants look only at the lock table, the phase of each caller and
 the dispatch log; a caller's context does not enter them.
 */
module Invariants {
  import opened Wrappers
  import opened Proxy
  import opened Dispatch
  import opened LockTable
  import opened Handler

  /** Where each caller is, without its context. */
  function Phases(callers: map<CallerId, Caller>): (p: map<CallerId, Phase>)
    ensures p.Keys == callers.Keys
    ensures forall c | c in callers :: p[c] == callers[c].phase
  {
    map c | c in callers :: callers[c].phase
  }

  /** Replacing one caller replaces its phase. */
  lemma PhasesUpdate(callers: map<CallerId, Caller>, caller: CallerId, x: Caller)
    ensures Phases(callers[caller := x]) == Phases(callers)[caller := x.phase]
  {
  }

  /** Every leading caller's channel maps to the leader's own lock. */
  ghost predicate LeadersOwnKeys(t: Table, p: map<CallerId, Phase>) {
    forall c | c in p && p[c].Leading? :: p[c].channel in t.index && t.index[p[c].channel] == p[c].lock
  }

  /** No two leading callers share a lock. */
  ghost predicate LeadersUnique(p: map<CallerId, Phase>) {
    forall a, b | a in p && b in p && p[a].Leading? && p[b].Leading? && p[a].lock == p[b].lock :: a == b
  }

  /** Every waiting caller holds a lock that exists. */
  ghost predicate FollowersHoldLocks(t: Table, p: map<CallerId, Phase>) {
    forall c | c in p && p[c].Waiting? :: p[c].lock in t.heap
  }

  /** The caller returned the pair of `lock`, as its leader or through `done`. */
  predicate ReadsLock(ph: Phase, lock: LockId) {
    ph.Returned? && (ph.via == AsLeader(lock) || ph.via == OnLockDone(lock))
  }

  /** A caller that returned through a lock returned exactly that lock's final pair. */
  ghost predicate ReturnedPairsMatch(t: Table, p: map<CallerId, Phase>) {
    forall c, lock | c in p && ReadsLock(p[c], lock) ::
      lock in t.heap && t.heap[lock].done && p[c].reply == t.heap[lock].Pair()
  }

  /** Every leader dispatch belongs to a lock that is done. */
  ghost predicate LeaderCallsDone(t: Table, d: seq<DispatchRecord>) {
    forall i | 0 <= i < |d| && d[i].reason.LeaderCall? :: d[i].reason.lock in t.heap && t.heap[d[i].reason.lock].done
  }

  /** No lock has two leader dispatches. */
  ghost predicate LeaderCallsDistinct(d: seq<DispatchRecord>) {
    forall i, j | 0 <= i < j < |d| && d[i].reason.LeaderCall? && d[j].reason.LeaderCall? ::
      d[i].reason.lock != d[j].reason.lock
  }

  /** No returned reply and no stored pair carries `ErrLockTimeout`. */
  ghost predicate NoLockTimeoutError(t: Table, p: map<CallerId, Phase>) {
    && (forall c | c in p && p[c].Returned? :: p[c].reply.error != Some(ErrLockTimeout))
    && (forall id | id in t.heap :: t.heap[id].err != Some(ErrLockTimeout))
  }

  ghost predicate InvOn(h: CacheEmptyHandler, t: Table, p: map<CallerId, Phase>, d: seq<DispatchRecord>) {
    && Valid(t)
    && LeadersOwnKeys(t, p)
    && LeadersUnique(p)
    && FollowersHoldLocks(t, p)
    && ReturnedPairsMatch(t, p)
    && LeaderCallsDone(t, d)
    && LeaderCallsDistinct(d)
    && (NeverFailsWith(h.proxies, ErrLockTimeout) ==> NoLockTimeoutError(t, p))
  }

  ghost predicate Inv(h: CacheEmptyHandler, m: Machine) {
    InvOn(h, m.table, Phases(m.callers), m.dispatches)
  }

  lemma InitInv(h: CacheEmptyHandler)
    ensures Inv(h, Init)
  {
    assert Phases(Init.callers) == map[];
  }

  /** A caller joining an existing lock keeps the invariant. */
  lemma JoinKeepsInv(h: CacheEmptyHandler, t: Table, p: map<CallerId, Phase>, d: seq<DispatchRecord>,
                     caller: CallerId, channel: string, now: int)
    requires InvOn(h, t, p, d) && caller !in p && channel in t.index
    ensures InvOn(h, t, p[caller := Waiting(channel, t.index[channel], now)], d)
  {
  }

  /** A caller installing a fresh lock keeps the invariant. */
  lemma LeadKeepsInv(h: CacheEmptyHandler, t: Table, p: map<CallerId, Phase>, d: seq<DispatchRecord>,
                     caller: CallerId, channel: string)
    requires InvOn(h, t, p, d) && caller !in p && channel !in t.index
    ensures InvOn(h, GetOrCreateLock(t, channel).table, p[caller := Leading(channel, t.next)], d)
  {
    var p' := p[caller := Leading(channel, t.next)];
    AcquirePreservesValid(t, channel);
    assert t.next !in t.heap;
    forall c | c in p' && p'[c].Leading? && c != caller
      ensures p'[c].lock != t.next
    {
      assert p[c].lock in t.heap;
    }
  }

  lemma ArrivePreservesInv(h: CacheEmptyHandler, m: Machine, caller: CallerId, channel: string, ctx: Context)
    requires Inv(h, m) && caller !in m.callers
    ensures Inv(h, ArriveStep(m, caller, channel, ctx))
  {
    var r := ArriveStep(m, caller, channel, ctx);
    var p := Phases(m.callers);
    PhasesUpdate(m.callers, caller, r.callers[caller]);
    if channel in m.table.index {
      JoinKeepsInv(h, m.table, p, m.dispatches, caller, channel, m.now);
    } else {
      assert r.table == GetOrCreateLock(m.table, channel).table;
      LeadKeepsInv(h, m.table, p, m.dispatches, caller, channel);
    }
  }

  /** A caller's context becoming done changes no phase, so it keeps the invariant. */
  lemma CancelPreservesInv(h: CacheEmptyHandler, m: Machine, caller: CallerId, cause: CtxCause)
    requires Inv(h, m) && caller in m.callers
    ensures Inv(h, CancelStep(m, caller, cause))
  {
    var r := CancelStep(m, caller, cause);
    PhasesUpdate(m.callers, caller, r.callers[caller]);
    assert Phases(m.callers)[caller := m.callers[caller].phase] == Phases(m.callers);
  }

  /** Logging the leader's call and marking its lock done keeps the dispatch log consistent. */
  lemma ReleaseKeepsCalls(t: Table, d: seq<DispatchRecord>, channel: string, lock: LockId, reply: Reply, rec: DispatchRecord)
    requires LeaderCallsDone(t, d) && LeaderCallsDistinct(d)
    requires lock in t.heap && !t.heap[lock].done
    requires rec.reason == LeaderCall(lock)
    ensures LeaderCallsDone(Release(t, channel, lock, reply), d + [rec])
    ensures LeaderCallsDistinct(d + [rec])
  {
    var t' := Release(t, channel, lock, reply);
    var d' := d + [rec];
    forall i | 0 <= i < |d'| && d'[i].reason.LeaderCall?
      ensures d'[i].reason.lock in t'.heap && t'.heap[d'[i].reason.lock].done
    {
      if i < |d| {
        assert d'[i] == d[i];
      }
    }
    forall i, j | 0 <= i < j < |d'| && d'[i].reason.LeaderCall? && d'[j].reason.LeaderCall?
      ensures d'[i].reason.lock != d'[j].reason.lock
    {
      assert d'[i] == d[i];
      if j < |d| {
        assert d'[j] == d[j];
      }
    }
  }

  /**
   The leader storing `reply` in its pending lock, deleting its key and
   logging its dispatch keeps the invariant.
   */
  lemma ReleaseKeepsInv(h: CacheEmptyHandler, t: Table, p: map<CallerId, Phase>, d: seq<DispatchRecord>,
                        caller: CallerId, reply: Reply, rec: DispatchRecord)
    requires InvOn(h, t, p, d)
    requires caller in p && p[caller].Leading?
    requires rec.reason == LeaderCall(p[caller].lock)
    requires NeverFailsWith(h.proxies, ErrLockTimeout) ==> reply.error != Some(ErrLockTimeout)
    ensures var Leading(channel, lock) := p[caller];
            InvOn(h, Release(t, channel, lock, reply), p[caller := Returned(channel, reply, AsLeader(lock))], d + [rec])
  {
    var Leading(channel, lock) := p[caller];
    var t' := Release(t, channel, lock, reply);
    var p' := p[caller := Returned(channel, reply, AsLeader(lock))];
    var d' := d + [rec];
    ReleasePreservesValid(t, channel, reply);
    assert lock in t.heap && !t.heap[lock].done;
    forall c | c in p' && p'[c].Leading?
      ensures p'[c].channel in t'.index && t'.index[p'[c].channel] == p'[c].lock
    {
      assert c != caller;
      assert p[c].lock != lock;
    }
    forall c, l | c in p' && ReadsLock(p'[c], l)
      ensures l in t'.heap && t'.heap[l].done && p'[c].reply == t'.heap[l].Pair()
    {
      if c != caller {
        assert ReadsLock(p[c], l);
        assert l != lock;
      }
    }
    ReleaseKeepsCalls(t, d, channel, lock, reply, rec);
  }

  lemma LeaderPreservesInv(h: CacheEmptyHandler, m: Machine, caller: CallerId, order: seq<string>)
    requires Inv(h, m)
    requires caller in m.callers && m.callers[caller].phase.Leading?
    requires IsIterationOrder(order, h.proxies)
    ensures Inv(h, LeaderStep(h, m, caller, order))
  {
    var r := LeaderStep(h, m, caller, order);
    var Leading(channel, lock) := m.callers[caller].phase;
    var d := Invoke(h, m.callers[caller].ctx, channel, order);
    var p := Phases(m.callers);
    PhasesUpdate(m.callers, caller, r.callers[caller]);
    assert r.table == Release(m.table, channel, lock, d.reply);
    var rec := r.dispatches[|m.dispatches|];
    assert r.dispatches == m.dispatches + [rec];
    ReleaseKeepsInv(h, m.table, p, m.dispatches, caller, d.reply, rec);
  }

  /**
   A waiting caller returning, with the table untouched and only fallback
   dispatches appended, keeps the invariant, provided a reply read through a
   lock is that lock's final pair.
   */
  lemma ResolveKeepsInv(h: CacheEmptyHandler, t: Table, p: map<CallerId, Phase>, d: seq<DispatchRecord>,
                        caller: CallerId, ph: Phase, extra: seq<DispatchRecord>)
    requires InvOn(h, t, p, d)
    requires caller in p && p[caller].Waiting? && ph.Returned?
    requires forall l | ReadsLock(ph, l) :: l in t.heap && t.heap[l].done && ph.reply == t.heap[l].Pair()
    requires forall i | 0 <= i < |extra| :: extra[i].reason.FallbackCall?
    requires NeverFailsWith(h.proxies, ErrLockTimeout) ==> ph.reply.error != Some(ErrLockTimeout)
    ensures InvOn(h, t, p[caller := ph], d + extra)
  {
    var p' := p[caller := ph];
    var d' := d + extra;
    forall c, l | c in p' && ReadsLock(p'[c], l)
      ensures l in t.heap && t.heap[l].done && p'[c].reply == t.heap[l].Pair()
    {
      if c != caller {
        assert ReadsLock(p[c], l);
      }
    }
    forall i | 0 <= i < |d'| && d'[i].reason.LeaderCall?
      ensures d'[i].reason.lock in t.heap && t.heap[d'[i].reason.lock].done
    {
      assert d'[i] == d[i];
    }
    forall i, j | 0 <= i < j < |d'| && d'[i].reason.LeaderCall? && d'[j].reason.LeaderCall?
      ensures d'[i].reason.lock != d'[j].reason.lock
    {
      assert d'[i] == d[i] && d'[j] == d[j];
    }
  }

  lemma WakeDonePreservesInv(h: CacheEmptyHandler, m: Machine, caller: CallerId)
    requires Inv(h, m)
    requires caller in m.callers && m.callers[caller].phase.Waiting?
    requires m.callers[caller].phase.lock in m.table.heap
    requires m.table.heap[m.callers[caller].phase.lock].done
    ensures Inv(h, WakeDoneStep(m, caller))
  {
    var r := WakeDoneStep(m, caller);
    var ph := r.callers[caller].phase;
    PhasesUpdate(m.callers, caller, r.callers[caller]);
    assert r.dispatches == m.dispatches + [];
    ResolveKeepsInv(h, m.table, Phases(m.callers), m.dispatches, caller, ph, []);
  }

  lemma WakeTimerPreservesInv(h: CacheEmptyHandler, m: Machine, caller: CallerId, order: seq<string>)
    requires Inv(h, m)
    requires caller in m.callers && m.callers[caller].phase.Waiting?
    requires m.now - m.callers[caller].phase.since >= h.lockTimeout
    requires IsIterationOrder(order, h.proxies)
    ensures Inv(h, WakeTimerStep(h, m, caller, order))
  {
    var r := WakeTimerStep(h, m, caller, order);
    var ph := r.callers[caller].phase;
    PhasesUpdate(m.callers, caller, r.callers[caller]);
    var rec := r.dispatches[|m.dispatches|];
    ResolveKeepsInv(h, m.table, Phases(m.callers), m.dispatches, caller, ph, [rec]);
  }

  lemma WakeCancelPreservesInv(h: CacheEmptyHandler, m: Machine, caller: CallerId)
    requires Inv(h, m)
    requires caller in m.callers && m.callers[caller].phase.Waiting?
    requires m.callers[caller].ctx.cause.Some?
    ensures Inv(h, WakeCancelStep(m, caller))
  {
    var r := WakeCancelStep(m, caller);
    var ph := r.callers[caller].phase;
    PhasesUpdate(m.callers, caller, r.callers[caller]);
    assert r.dispatches == m.dispatches + [];
    ResolveKeepsInv(h, m.table, Phases(m.callers), m.dispatches, caller, ph, []);
  }

  /** Every event keeps the invariant. */
  lemma StepPreservesInv(h: CacheEmptyHandler, m: Machine, e: Event)
    requires Inv(h, m) && Step(h, m, e).Some?
    ensures Inv(h, Step(h, m, e).value)
  {
    match e
    case Arrive(caller, channel, ctx) => ArrivePreservesInv(h, m, caller, channel, ctx);
    case CancelContext(caller, cause) => CancelPreservesInv(h, m, caller, cause);
    case Tick(_) =>
    case LeaderFinish(caller, order) => LeaderPreservesInv(h, m, caller, order);
    case WakeOnDone(caller) => WakeDonePreservesInv(h, m, caller);
    case WakeOnTimer(caller, order) => WakeTimerPreservesInv(h, m, caller, order);
    case WakeOnCancel(caller) => WakeCancelPreservesInv(h, m, caller);
  }

  /** Every trace keeps the invariant. */
  lemma {:induction false} RunPreservesInv(h: CacheEmptyHandler, m: Machine, events: seq<Event>)
    requires Inv(h, m) && Run(h, m, events).Some?
    ensures Inv(h, Run(h, m, events).value)
    decreases |events|
  {
    if |events| > 0 {
      StepPreservesInv(h, m, events[0]);
      RunPreservesInv(h, Step(h, m, events[0]).value, events[1..]);
    }
  }

  /** Every state reached from a new handler satisfies the invariant. */
  lemma ReachableInv(h: CacheEmptyHandler, events: seq<Event>)
    requires Run(h, Init, events).Some?
    ensures Inv(h, Run(h, Init, events).value)
  {
    InitInv(h);
    RunPreservesInv(h, Init, events);
  }

  /** In every reachable state, at most one caller leads on any channel. */
  lemma OneLeaderPerChannel(h: CacheEmptyHandler, events: seq<Event>, a: CallerId, b: CallerId)
    requires Run(h, Init, events).Some?
    requires var m := Run(h, Init, events).value;
             && a in m.callers && b in m.callers
             && m.callers[a].phase.Leading? && m.callers[b].phase.Leading?
             && m.callers[a].phase.channel == m.callers[b].phase.channel
    ensures a == b
  {
    ReachableInv(h, events);
  }

  /**
   In every reachable state, a leader and all callers that returned through
   its lock's `done` hold the identical `(response, error)` pair, which is the
   one stored in the lock.
   */
  lemma FollowersGetLeaderPair(h: CacheEmptyHandler, events: seq<Event>, a: CallerId, b: CallerId, lock: LockId)
    requires Run(h, Init, events).Some?
    requires var m := Run(h, Init, events).value;
             && a in m.callers && b in m.callers
             && ReadsLock(m.callers[a].phase, lock) && ReadsLock(m.callers[b].phase, lock)
    ensures var m := Run(h, Init, events).value;
            && m.callers[a].phase.reply == m.callers[b].phase.reply
            && lock in m.table.heap
            && m.callers[a].phase.reply == m.table.heap[lock].Pair()
  {
    ReachableInv(h, events);
    var m := Run(h, Init, events).value;
    assert m.callers[a].phase.reply == m.table.heap[lock].Pair();
    assert m.callers[b].phase.reply == m.table.heap[lock].Pair();
  }

  /** In every reachable state, no lock was dispatched for by two leaders. */
  lemma OneLeaderDispatchPerLock(h: CacheEmptyHandler, events: seq<Event>, i: nat, j: nat)
    requires Run(h, Init, events).Some?
    requires var m := Run(h, Init, events).value;
             && i < |m.dispatches| && j < |m.dispatches| && i != j
             && m.dispatches[i].reason.LeaderCall? && m.dispatches[j].reason.LeaderCall?
    ensures var m := Run(h, Init, events).value;
            m.dispatches[i].reason.lock != m.dispatches[j].reason.lock
  {
    ReachableInv(h, events);
    var m := Run(h, Init, events).value;
    if j < i {
      assert m.dispatches[j].reason.lock != m.dispatches[i].reason.lock;
    }
  }

  /**
   Unless a proxy itself fails with it, `ErrLockTimeout` is never returned:
   a timed-out follower returns its own dispatch's outcome instead.
   */
  lemma LockTimeoutNeverReturned(h: CacheEmptyHandler, events: seq<Event>, c: CallerId)
    requires NeverFailsWith(h.proxies, ErrLockTimeout)
    requires Run(h, Init, events).Some?
    requires var m := Run(h, Init, events).value;
             c in m.callers && m.callers[c].phase.Returned?
    ensures Run(h, Init, events).value.callers[c].phase.reply.error != Some(ErrLockTimeout)
  {
    ReachableInv(h, events);
  }

  /** The channel an event acts on, if any: the arriving channel, or the channel of the caller it moves. */
  function EventChannel(m: Machine, e: Event): Option<string> {
    match e
    case Arrive(_, channel, _) => Some(channel)
    case Tick(_) => None
    case CancelContext(caller, _) => if caller in m.callers then Some(m.callers[caller].phase.channel) else None
    case LeaderFinish(caller, _) => if caller in m.callers then Some(m.callers[caller].phase.channel) else None
    case WakeOnDone(caller) => if caller in m.callers then Some(m.callers[caller].phase.channel) else None
    case WakeOnTimer(caller, _) => if caller in m.callers then Some(m.callers[caller].phase.channel) else None
    case WakeOnCancel(caller) => if caller in m.callers then Some(m.callers[caller].phase.channel) else None
  }

  /**
   Nothing about channel `other` differs between `m` and `r`: its table
   entry, its lock record, its callers' phases, and no new dispatch is for it.
   */
  ghost predicate Untouched(m: Machine, r: Machine, other: string) {
    && (other in r.table.index <==> other in m.table.index)
    && (other in m.table.index ==>
          && r.table.index[other] == m.table.index[other]
          && m.table.index[other] in m.table.heap
          && m.table.index[other] in r.table.heap
          && r.table.heap[m.table.index[other]] == m.table.heap[m.table.index[other]])
    && (forall c | c in m.callers && m.callers[c].phase.channel == other ::
          c in r.callers && r.callers[c].phase == m.callers[c].phase)
    && |m.dispatches| <= |r.dispatches|
    && (forall i | |m.dispatches| <= i < |r.dispatches| :: r.dispatches[i].request.channel != other)
  }

  /** A step that moves one caller of another channel and leaves the table alone touches nothing of `other`. */
  lemma OneCallerMoved(m: Machine, r: Machine, caller: CallerId, other: string)
    requires Valid(m.table)
    requires caller in m.callers && m.callers[caller].phase.channel != other
    requires r.table == m.table
    requires caller in r.callers && r.callers == m.callers[caller := r.callers[caller]]
    requires |m.dispatches| <= |r.dispatches|
    requires forall i | |m.dispatches| <= i < |r.dispatches| :: r.dispatches[i].request.channel == m.callers[caller].phase.channel
    ensures Untouched(m, r, other)
  {
  }

  lemma ArriveIsolated(m: Machine, caller: CallerId, channel: string, ctx: Context, other: string)
    requires Valid(m.table) && caller !in m.callers && channel != other
    ensures Untouched(m, ArriveStep(m, caller, channel, ctx), other)
  {
    var r := ArriveStep(m, caller, channel, ctx);
    if other in m.table.index {
      assert m.table.index[other] in m.table.heap;
      assert m.table.index[other] != m.table.next;
    }
  }

  lemma LeaderIsolated(h: CacheEmptyHandler, m: Machine, caller: CallerId, order: seq<string>, other: string)
    requires Valid(m.table) && LeadersOwnKeys(m.table, Phases(m.callers))
    requires caller in m.callers && m.callers[caller].phase.Leading? && m.callers[caller].phase.channel != other
    requires IsIterationOrder(order, h.proxies)
    ensures Untouched(m, LeaderStep(h, m, caller, order), other)
  {
    var Leading(channel, lock) := m.callers[caller].phase;
    assert Phases(m.callers)[caller] == m.callers[caller].phase;
    if other in m.table.index {
      assert m.table.index[other] != lock;
    }
  }

  lemma CancelIsolated(m: Machine, caller: CallerId, cause: CtxCause, other: string)
    requires Valid(m.table) && caller in m.callers && m.callers[caller].phase.channel != other
    ensures Untouched(m, CancelStep(m, caller, cause), other)
  {
    var r := CancelStep(m, caller, cause);
    assert r.callers == m.callers[caller := r.callers[caller]];
    OneCallerMoved(m, r, caller, other);
  }

  lemma WakeDoneIsolated(m: Machine, caller: CallerId, other: string)
    requires Valid(m.table) && caller in m.callers && m.callers[caller].phase.channel != other
    requires m.callers[caller].phase.Waiting?
    requires m.callers[caller].phase.lock in m.table.heap && m.table.heap[m.callers[caller].phase.lock].done
    ensures Untouched(m, WakeDoneStep(m, caller), other)
  {
    OneCallerMoved(m, WakeDoneStep(m, caller), caller, other);
  }

  lemma WakeTimerIsolated(h: CacheEmptyHandler, m: Machine, caller: CallerId, order: seq<string>, other: string)
    requires Valid(m.table) && caller in m.callers && m.callers[caller].phase.channel != other
    requires m.callers[caller].phase.Waiting?
    requires m.now - m.callers[caller].phase.since >= h.lockTimeout
    requires IsIterationOrder(order, h.proxies)
    ensures Untouched(m, WakeTimerStep(h, m, caller, order), other)
  {
    OneCallerMoved(m, WakeTimerStep(h, m, caller, order), caller, other);
  }

  lemma WakeCancelIsolated(m: Machine, caller: CallerId, other: string)
    requires Valid(m.table) && caller in m.callers && m.callers[caller].phase.channel != other
    requires m.callers[caller].phase.Waiting? && m.callers[caller].ctx.cause.Some?
    ensures Untouched(m, WakeCancelStep(m, caller), other)
  {
    OneCallerMoved(m, WakeCancelStep(m, caller), caller, other);
  }

  /**
   Keys are isolated: an event on one channel leaves another channel's table
   entry, its lock record, its callers, and its dispatches as they were.
   */
  lemma KeysIsolated(h: CacheEmptyHandler, m: Machine, e: Event, other: string)
    requires Valid(m.table) && LeadersOwnKeys(m.table, Phases(m.callers))
    requires Step(h, m, e).Some?
    requires EventChannel(m, e) != Some(other)
    ensures Untouched(m, Step(h, m, e).value, other)
  {
    match e
    case Arrive(caller, channel, ctx) =>
      ArriveIsolated(m, caller, channel, ctx, other);
    case LeaderFinish(caller, order) =>
      LeaderIsolated(h, m, caller, order, other);
    case Tick(_) =>
    case CancelContext(caller, cause) => CancelIsolated(m, caller, cause, other);
    case WakeOnDone(caller) => WakeDoneIsolated(m, caller, other);
    case WakeOnTimer(caller, order) => WakeTimerIsolated(h, m, caller, order, other);
    case WakeOnCancel(caller) => WakeCancelIsolated(m, caller, other);
  }
}
