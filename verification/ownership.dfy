/**
 Who answers for each lock and each dispatch, in every reachable state: a
 pending key always has a leader that will release it, and every fallback
 dispatch was made by a follower whose timer fired on that lock. Together with
 the single-flight invariant this shows that, without timer wakes, a lock
 sees exactly one dispatch, its leader's.
 */
module Ownership {
  import opened Wrappers
  import opened Proxy
  import opened Dispatch
  import opened LockTable
  import opened Handler
  import opened Invariants

  /** Every pending key is held by a caller still leading on exactly that lock. */
  ghost predicate KeysHaveLeaders(t: Table, p: map<CallerId, Phase>) {
    forall ch | ch in t.index :: exists c | c in p :: p[c] == Leading(ch, t.index[ch])
  }

  /** Every fallback dispatch was made by a caller that returned because its timer on that lock fired. */
  ghost predicate FallbacksTimedOut(p: map<CallerId, Phase>, d: seq<DispatchRecord>) {
    forall i | 0 <= i < |d| && d[i].reason.FallbackCall? ::
      d[i].caller in p && p[d[i].caller].Returned? && p[d[i].caller].via == OnTimeout(d[i].reason.lock)
  }

  ghost predicate Owned(m: Machine) {
    KeysHaveLeaders(m.table, Phases(m.callers)) && FallbacksTimedOut(Phases(m.callers), m.dispatches)
  }

  lemma InitOwned()
    ensures Owned(Init)
  {
    assert Phases(Init.callers) == map[];
  }

  /** A new caller takes no existing key and made no earlier dispatch; a leader adds its own key. */
  lemma ArriveKeepsOwned(m: Machine, caller: CallerId, channel: string, ctx: Context)
    requires Owned(m) && caller !in m.callers
    ensures Owned(ArriveStep(m, caller, channel, ctx))
  {
    var r := ArriveStep(m, caller, channel, ctx);
    var p := Phases(m.callers);
    PhasesUpdate(m.callers, caller, r.callers[caller]);
    var p' := Phases(r.callers);
    forall ch | ch in r.table.index
      ensures exists c | c in p' :: p'[c] == Leading(ch, r.table.index[ch])
    {
      if channel !in m.table.index && ch == channel {
        assert p'[caller] == Leading(ch, r.table.index[ch]);
      } else {
        var c :| c in p && p[c] == Leading(ch, m.table.index[ch]);
        assert p'[c] == p[c];
      }
    }
  }

  /** A context ending changes no phase. */
  lemma CancelKeepsOwned(m: Machine, caller: CallerId, cause: CtxCause)
    requires Owned(m) && caller in m.callers
    ensures Owned(CancelStep(m, caller, cause))
  {
    var r := CancelStep(m, caller, cause);
    PhasesUpdate(m.callers, caller, r.callers[caller]);
    assert Phases(m.callers)[caller := m.callers[caller].phase] == Phases(m.callers);
  }

  /** The leader gives up only its own key, and its dispatch is a leader call. */
  lemma LeaderKeepsOwned(h: CacheEmptyHandler, m: Machine, caller: CallerId, order: seq<string>)
    requires Owned(m)
    requires caller in m.callers && m.callers[caller].phase.Leading?
    requires IsIterationOrder(order, h.proxies)
    ensures Owned(LeaderStep(h, m, caller, order))
  {
    var r := LeaderStep(h, m, caller, order);
    var channel := m.callers[caller].phase.channel;
    var p := Phases(m.callers);
    PhasesUpdate(m.callers, caller, r.callers[caller]);
    var p' := Phases(r.callers);
    forall ch | ch in r.table.index
      ensures exists c | c in p' :: p'[c] == Leading(ch, r.table.index[ch])
    {
      assert ch != channel;
      var c :| c in p && p[c] == Leading(ch, m.table.index[ch]);
      assert p'[c] == p[c];
    }
    forall i | 0 <= i < |r.dispatches| && r.dispatches[i].reason.FallbackCall?
      ensures r.dispatches[i].caller in p' && p'[r.dispatches[i].caller].Returned?
      ensures p'[r.dispatches[i].caller].via == OnTimeout(r.dispatches[i].reason.lock)
    {
      assert r.dispatches[i] == r.dispatches[..|m.dispatches|][i] == m.dispatches[i];
    }
  }

  /**
   A waiting caller returns without touching the table; any dispatch it adds
   is a fallback on the lock its timer fired on.
   */
  lemma WakeKeepsOwned(m: Machine, r: Machine, caller: CallerId)
    requires Owned(m)
    requires caller in m.callers && m.callers[caller].phase.Waiting?
    requires r.table == m.table
    requires caller in r.callers && r.callers == m.callers[caller := r.callers[caller]]
    requires r.callers[caller].phase.Returned?
    requires |m.dispatches| <= |r.dispatches| && r.dispatches[..|m.dispatches|] == m.dispatches
    requires forall i | |m.dispatches| <= i < |r.dispatches| && r.dispatches[i].reason.FallbackCall? ::
               r.dispatches[i].caller == caller && r.callers[caller].phase.via == OnTimeout(r.dispatches[i].reason.lock)
    ensures Owned(r)
  {
    var p := Phases(m.callers);
    PhasesUpdate(m.callers, caller, r.callers[caller]);
    var p' := Phases(r.callers);
    forall ch | ch in r.table.index
      ensures exists c | c in p' :: p'[c] == Leading(ch, r.table.index[ch])
    {
      var c :| c in p && p[c] == Leading(ch, m.table.index[ch]);
      assert p'[c] == p[c];
    }
    forall i | 0 <= i < |m.dispatches| && r.dispatches[i].reason.FallbackCall?
      ensures r.dispatches[i].caller in p' && p'[r.dispatches[i].caller].Returned?
      ensures p'[r.dispatches[i].caller].via == OnTimeout(r.dispatches[i].reason.lock)
    {
      assert r.dispatches[i] == r.dispatches[..|m.dispatches|][i] == m.dispatches[i];
    }
  }

  lemma WakeDoneKeepsOwned(m: Machine, caller: CallerId)
    requires Owned(m)
    requires caller in m.callers && m.callers[caller].phase.Waiting?
    requires m.callers[caller].phase.lock in m.table.heap && m.table.heap[m.callers[caller].phase.lock].done
    ensures Owned(WakeDoneStep(m, caller))
  {
    WakeKeepsOwned(m, WakeDoneStep(m, caller), caller);
  }

  lemma WakeTimerKeepsOwned(h: CacheEmptyHandler, m: Machine, caller: CallerId, order: seq<string>)
    requires Owned(m)
    requires caller in m.callers && m.callers[caller].phase.Waiting?
    requires m.now - m.callers[caller].phase.since >= h.lockTimeout
    requires IsIterationOrder(order, h.proxies)
    ensures Owned(WakeTimerStep(h, m, caller, order))
  {
    var r := WakeTimerStep(h, m, caller, order);
    assert r.dispatches[..|m.dispatches|] == m.dispatches;
    WakeKeepsOwned(m, r, caller);
  }

  lemma WakeCancelKeepsOwned(m: Machine, caller: CallerId)
    requires Owned(m)
    requires caller in m.callers && m.callers[caller].phase.Waiting? && m.callers[caller].ctx.cause.Some?
    ensures Owned(WakeCancelStep(m, caller))
  {
    WakeKeepsOwned(m, WakeCancelStep(m, caller), caller);
  }

  /** Every event keeps ownership. */
  lemma StepKeepsOwned(h: CacheEmptyHandler, m: Machine, e: Event)
    requires Owned(m) && Step(h, m, e).Some?
    ensures Owned(Step(h, m, e).value)
  {
    match e
    case Arrive(caller, channel, ctx) => ArriveKeepsOwned(m, caller, channel, ctx);
    case CancelContext(caller, cause) => CancelKeepsOwned(m, caller, cause);
    case Tick(_) =>
    case LeaderFinish(caller, order) => LeaderKeepsOwned(h, m, caller, order);
    case WakeOnDone(caller) => WakeDoneKeepsOwned(m, caller);
    case WakeOnTimer(caller, order) => WakeTimerKeepsOwned(h, m, caller, order);
    case WakeOnCancel(caller) => WakeCancelKeepsOwned(m, caller);
  }

  lemma {:induction false} RunKeepsOwned(h: CacheEmptyHandler, m: Machine, events: seq<Event>)
    requires Owned(m) && Run(h, m, events).Some?
    ensures Owned(Run(h, m, events).value)
    decreases |events|
  {
    if |events| > 0 {
      StepKeepsOwned(h, m, events[0]);
      RunKeepsOwned(h, Step(h, m, events[0]).value, events[1..]);
    }
  }

  /** Every state reached from a new handler satisfies ownership. */
  lemma ReachableOwned(h: CacheEmptyHandler, events: seq<Event>)
    requires Run(h, Init, events).Some?
    ensures Owned(Run(h, Init, events).value)
  {
    InitOwned();
    RunKeepsOwned(h, Init, events);
  }

  /**
   No key is left pending with nobody to release it: in every reachable state
   a channel's lock belongs to a caller still leading on it.
   */
  lemma PendingKeyHasLeader(h: CacheEmptyHandler, events: seq<Event>, channel: string)
    requires Run(h, Init, events).Some?
    requires channel in Run(h, Init, events).value.table.index
    ensures var m := Run(h, Init, events).value;
            exists c | c in m.callers :: m.callers[c].phase == Leading(channel, m.table.index[channel])
  {
    ReachableOwned(h, events);
    var m := Run(h, Init, events).value;
    var c :| c in Phases(m.callers) && Phases(m.callers)[c] == Leading(channel, m.table.index[channel]);
    assert m.callers[c].phase == Leading(channel, m.table.index[channel]);
  }

  /**
   Single flight in every interleaving: unless some follower's timer fired on
   `lock`, at most one dispatch in the log belongs to it, its leader's.
   */
  lemma OneDispatchPerLockWithoutTimeout(h: CacheEmptyHandler, events: seq<Event>, lock: LockId, i: nat, j: nat)
    requires Run(h, Init, events).Some?
    requires var m := Run(h, Init, events).value;
             forall c | c in m.callers && m.callers[c].phase.Returned? :: m.callers[c].phase.via != OnTimeout(lock)
    requires var m := Run(h, Init, events).value;
             && i < |m.dispatches| && j < |m.dispatches|
             && m.dispatches[i].reason.lock == lock && m.dispatches[j].reason.lock == lock
    ensures i == j
    ensures Run(h, Init, events).value.dispatches[i].reason == LeaderCall(lock)
  {
    ReachableOwned(h, events);
    ReachableInv(h, events);
    var m := Run(h, Init, events).value;
    assert LeaderCallsDistinct(m.dispatches);
  }
}
