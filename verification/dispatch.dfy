/**
 `handleCacheEmpty`: one pass over the registered proxies in Go's (unspecified)
 map iteration order. Nil entries are skipped, the first non-nil proxy decides
 the reply, and an empty or all-nil registry yields a default empty result.
 */
module Dispatch {
  import opened Wrappers
  import opened Proxy

  /** One step of the `range` loop: a registry key and its (possibly nil) proxy. */
  datatype Entry = Entry(name: string, proxy: Option<CacheEmptyProxy>)

  /** The reply of one dispatch, and the index of the entry it called (if any). */
  datatype Dispatched = Dispatched(reply: Reply, called: Option<nat>)

  /** The reply returned when no usable proxy exists: a non-nil, zero-valued result and a nil error. */
  const DefaultReply: Reply := Reply(Some(EmptyResponse), None)

  /** Go's `if err != nil { return nil, err }; return resp, nil`. */
  function ToReply(c: CallResult): Reply {
    match c
    case Failed(e) => Reply(None, Some(e))
    case Answered(resp) => Reply(resp, None)
  }

  /** No entry holds a non-nil proxy. */
  predicate NoUsable(entries: seq<Entry>) {
    forall i | 0 <= i < |entries| :: entries[i].proxy.None?
  }

  /** `i` is the first entry holding a non-nil proxy. */
  predicate FirstUsableAt(entries: seq<Entry>, i: nat) {
    && i < |entries|
    && entries[i].proxy.Some?
    && forall j | 0 <= j < i :: entries[j].proxy.None?
  }

  /**
   Calls the first non-nil proxy and returns its outcome at once (no failover
   to later entries); with no usable proxy, calls nothing and returns the
   default reply.
   */
  function HandleCacheEmpty(ctx: Context, req: NotifyRequest, entries: seq<Entry>): (r: Dispatched)
    ensures r.called.None? <==> NoUsable(entries)
    ensures r.called.None? ==> r.reply == DefaultReply
    ensures r.called.Some? ==> FirstUsableAt(entries, r.called.value)
    ensures r.called.Some? ==>
              r.reply == ToReply(entries[r.called.value].proxy.value.call(ctx, req))
    decreases |entries|
  {
    if |entries| == 0 then
      Dispatched(DefaultReply, None)
    else
      match entries[0].proxy
      case Some(p) => Dispatched(ToReply(p.call(ctx, req)), Some(0))
      case None =>
        var rest := HandleCacheEmpty(ctx, req, entries[1..]);
        Dispatched(rest.reply, if rest.called.Some? then Some(rest.called.value + 1) else None)
  }

  /** The first usable entry is unique. */
  lemma FirstUsableUnique(entries: seq<Entry>, i: nat, j: nat)
    requires FirstUsableAt(entries, i) && FirstUsableAt(entries, j)
    ensures i == j
  {
  }

  /**
   The outcome of the first usable proxy is passed through unchanged: an
   error comes back as `(nil, err)`, a response as `(resp, nil)`.
   */
  lemma FirstProxyDecides(ctx: Context, req: NotifyRequest, entries: seq<Entry>, i: nat)
    requires FirstUsableAt(entries, i)
    ensures HandleCacheEmpty(ctx, req, entries).called == Some(i)
    ensures entries[i].proxy.value.call(ctx, req).Failed? ==>
              HandleCacheEmpty(ctx, req, entries).reply
                == Reply(None, Some(entries[i].proxy.value.call(ctx, req).error))
    ensures entries[i].proxy.value.call(ctx, req).Answered? ==>
              HandleCacheEmpty(ctx, req, entries).reply
                == Reply(entries[i].proxy.value.call(ctx, req).response, None)
  {
    var r := HandleCacheEmpty(ctx, req, entries);
    assert !NoUsable(entries) by { assert entries[i].proxy.Some?; }
    FirstUsableUnique(entries, r.called.value, i);
  }

  /**
   Entries after the first usable one are never consulted: appending any
   entries leaves the dispatch unchanged, whatever they hold.
   */
  lemma LaterEntriesIgnored(ctx: Context, req: NotifyRequest, entries: seq<Entry>, later: seq<Entry>)
    requires !NoUsable(entries)
    ensures HandleCacheEmpty(ctx, req, entries + later) == HandleCacheEmpty(ctx, req, entries)
  {
    var r := HandleCacheEmpty(ctx, req, entries);
    var i := r.called.value;
    var all := entries + later;
    assert FirstUsableAt(all, i) by {
      assert all[i] == entries[i];
      forall j | 0 <= j < i ensures all[j].proxy.None? {
        assert all[j] == entries[j];
      }
    }
    FirstProxyDecides(ctx, req, all, i);
    assert all[i] == entries[i];
  }

  /** `order` lists every key of `registry` exactly once: one possible Go iteration order. */
  predicate IsIterationOrder(order: seq<string>, registry: Registry) {
    && (forall i, j | 0 <= i < j < |order| :: order[i] != order[j])
    && (forall name | name in order :: name in registry)
    && (forall name | name in registry :: name in order)
  }

  /**
   The entries a `range` over `registry` visits, in the given order: each
   visited name comes with the proxy registered under it, and when `order` is
   an iteration order every key is visited exactly once.
   */
  function EntriesInOrder(registry: Registry, order: seq<string>): (entries: seq<Entry>)
    requires forall name | name in order :: name in registry
    ensures |entries| == |order|
    ensures forall i | 0 <= i < |order| :: entries[i].name == order[i]
    ensures forall i | 0 <= i < |entries| :: entries[i].name in registry && entries[i].proxy == registry[entries[i].name]
    ensures IsIterationOrder(order, registry) ==>
              forall name | name in registry ::
                exists i | 0 <= i < |entries| :: entries[i].name == name && entries[i].proxy == registry[name]
    ensures IsIterationOrder(order, registry) ==>
              forall i, j | 0 <= i < j < |entries| :: entries[i].name != entries[j].name
  {
    seq(|order|, i requires 0 <= i < |order| => Entry(order[i], registry[order[i]]))
  }

  /** At most one registered proxy is non-nil: the configuration the source expects in practice. */
  ghost predicate AtMostOneLive(registry: Registry) {
    forall a, b | a in registry && b in registry && registry[a].Some? && registry[b].Some? :: a == b
  }

  /**
   With at most one non-nil proxy registered, every iteration order gives the
   same reply and calls the same proxy (by name): the unspecified map order
   cannot be observed.
   */
  lemma OrderIrrelevant(ctx: Context, req: NotifyRequest, registry: Registry, o1: seq<string>, o2: seq<string>)
    requires IsIterationOrder(o1, registry) && IsIterationOrder(o2, registry)
    requires AtMostOneLive(registry)
    ensures HandleCacheEmpty(ctx, req, EntriesInOrder(registry, o1)).reply
         == HandleCacheEmpty(ctx, req, EntriesInOrder(registry, o2)).reply
    ensures HandleCacheEmpty(ctx, req, EntriesInOrder(registry, o1)).called.Some?
         <==> HandleCacheEmpty(ctx, req, EntriesInOrder(registry, o2)).called.Some?
    ensures HandleCacheEmpty(ctx, req, EntriesInOrder(registry, o1)).called.Some? ==>
              (o1[HandleCacheEmpty(ctx, req, EntriesInOrder(registry, o1)).called.value]
               == o2[HandleCacheEmpty(ctx, req, EntriesInOrder(registry, o2)).called.value])
  {
    var e1, e2 := EntriesInOrder(registry, o1), EntriesInOrder(registry, o2);
    var r1, r2 := HandleCacheEmpty(ctx, req, e1), HandleCacheEmpty(ctx, req, e2);
    if r1.called.Some? {
      var i := r1.called.value;
      var name := o1[i];
      assert name in o2;
      var k :| 0 <= k < |o2| && o2[k] == name;
      assert e2[k].proxy.Some?;
      assert !NoUsable(e2);
      var j := r2.called.value;
      assert registry[o2[j]].Some?;
      assert o2[j] == name;
    }
  }
}
