/**
 The per-channel lock table. `index` plays the role of the `sync.Map` from
 channel to `*channelLock`; `heap` holds the lock records themselves, which
 followers keep reading after the leader has removed the key.
 */
module LockTable {
  import opened Wrappers
  import opened Proxy

  /** The identity of one `*channelLock` allocation. */
  type LockId = nat

  /** A lock record: the leader's result and error, and whether `done` is closed. */
  datatype ChannelLock = ChannelLock(result: Option<NotifyResponse>, err: Option<Error>, done: bool) {
    /** The `(result, err)` pair a follower reads once `done` is closed. */
    function Pair(): Reply {
      Reply(result, err)
    }
  }

  /** A freshly made lock: nil result, nil error, `done` open. */
  const FreshLock: ChannelLock := ChannelLock(None, None, false)

  datatype Table = Table(index: map<string, LockId>, heap: map<LockId, ChannelLock>, next: LockId)

  /** The table of a newly created handler: no channel has a lock. */
  const EmptyTable: Table := Table(map[], map[], 0)

  /** What `getOrCreateLock` returns, with the table it leaves behind. */
  datatype Acquired = Acquired(table: Table, lock: LockId, isFirstCall: bool)

  /**
   Well-formedness: every indexed lock exists and is still pending, distinct
   channels own distinct locks, pending locks are still zero-valued, and the
   next allocation is fresh.
   */
  ghost predicate Valid(t: Table) {
    && (forall ch | ch in t.index :: t.index[ch] in t.heap && !t.heap[t.index[ch]].done)
    && (forall a, b | a in t.index && b in t.index && t.index[a] == t.index[b] :: a == b)
    && (forall id | id in t.heap && !t.heap[id].done :: t.heap[id] == FreshLock)
    && (forall id | id in t.heap :: id < t.next)
  }

  /**
   `LoadOrStore` of a fresh lock. With no entry for the channel, a fresh
   pending lock is installed and the caller is first; otherwise the existing
   lock is returned, the caller is not first, and the table is unchanged.
   Either way the channel afterwards maps to the returned lock.
   */
  function GetOrCreateLock(t: Table, channel: string): (r: Acquired)
    ensures r.isFirstCall <==> channel !in t.index
    ensures channel in r.table.index && r.table.index[channel] == r.lock
    ensures !r.isFirstCall ==> r.table == t
    ensures r.isFirstCall ==> r.lock == t.next && r.table.next == t.next + 1
    ensures Valid(t) && r.isFirstCall ==> r.lock !in t.heap
    ensures r.isFirstCall ==> r.table.heap == t.heap[r.lock := FreshLock]
    ensures r.isFirstCall ==> r.table.index == t.index[channel := r.lock]
  {
    if channel in t.index then
      Acquired(t, t.index[channel], false)
    else
      var id := t.next;
      Acquired(Table(t.index[channel := id], t.heap[id := FreshLock], t.next + 1), id, true)
  }

  /**
   The leader's exit: store `(result, err)` in its lock, delete the channel
   key, close `done`. No other key and no other lock record changes.
   */
  function Release(t: Table, channel: string, lock: LockId, outcome: Reply): (r: Table)
    ensures channel !in r.index
    ensures forall ch | ch != channel :: (ch in r.index <==> ch in t.index)
    ensures forall ch | ch != channel && ch in t.index :: r.index[ch] == t.index[ch]
    ensures lock in r.heap && r.heap[lock].done && r.heap[lock].Pair() == outcome
    ensures forall id | id != lock :: (id in r.heap <==> id in t.heap)
    ensures forall id | id != lock && id in t.heap :: r.heap[id] == t.heap[id]
  {
    Table(t.index - {channel}, t.heap[lock := ChannelLock(outcome.response, outcome.error, true)], t.next)
  }

  /** Acquiring a lock keeps the table well-formed, and a first caller's lock is pending. */
  lemma AcquirePreservesValid(t: Table, channel: string)
    requires Valid(t)
    ensures Valid(GetOrCreateLock(t, channel).table)
    ensures var r := GetOrCreateLock(t, channel); !r.table.heap[r.lock].done
  {
  }

  /** Releasing the lock a channel maps to keeps the table well-formed. */
  lemma ReleasePreservesValid(t: Table, channel: string, outcome: Reply)
    requires Valid(t) && channel in t.index
    ensures Valid(Release(t, channel, t.index[channel], outcome))
  {
    var id := t.index[channel];
    var r := Release(t, channel, id, outcome);
    forall ch | ch in r.index
      ensures r.index[ch] in r.heap && !r.heap[r.index[ch]].done
    {
      assert t.index[ch] != id;
    }
  }

  /**
   A second arrival on the same channel joins the first one's lock: there is
   never more than one lock per channel.
   */
  lemma SecondArrivalJoins(t: Table, channel: string)
    ensures var first := GetOrCreateLock(t, channel);
            var second := GetOrCreateLock(first.table, channel);
            && !second.isFirstCall
            && second.lock == first.lock
            && second.table == first.table
  {
  }

  /**
   After the leader releases, the next arrival on the channel is a new first
   caller with a different, pending lock: the old result is never reused.
   */
  lemma ArrivalAfterReleaseIsFresh(t: Table, channel: string, outcome: Reply)
    requires Valid(t) && channel in t.index
    ensures var old_lock := t.index[channel];
            var r := GetOrCreateLock(Release(t, channel, old_lock, outcome), channel);
            && r.isFirstCall
            && r.lock != old_lock
            && r.table.heap[r.lock] == FreshLock
            && r.table.heap[old_lock].Pair() == outcome
  {
    ReleasePreservesValid(t, channel, outcome);
  }
}
