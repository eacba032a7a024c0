/** Reassembly of catalog and record responses that arrive in fragments. */
module FragmentBuffers {
  import opened Wrappers
  import opened FragmentKeys

  const U32_MAX: nat := 0xffff_ffff
  const TTL: nat := 60

  datatype Item = Item(key: string, body: nat)

  datatype TransferId = TransferId(tenant: nat, device: string, sn: string)

  /** A fragment's items by key; of two items with one key the later stays. */
  function Batch(items: seq<Item>): map<string, Item> {
    if items == [] then map[]
    else var last := items[|items| - 1]; Batch(items[..|items| - 1])[last.key := last]
  }

  /** The last item with key `k` is the one at `i`. */
  ghost predicate LastOf(items: seq<Item>, i: nat, k: string) {
    i < |items| && items[i].key == k && forall j | i < j < |items| :: items[j].key != k
  }

  ghost predicate Occurs(items: seq<Item>, k: string) { exists i :: 0 <= i < |items| && items[i].key == k }

  /** A batch holds exactly the keys that occur, each with its last item. */
  ghost predicate HoldsLast(items: seq<Item>, batch: map<string, Item>) {
    && (forall k :: k in batch <==> Occurs(items, k))
    && (forall i: nat, k | LastOf(items, i, k) :: k in batch && batch[k] == items[i])
  }

  lemma {:induction false} BatchHoldsLast(items: seq<Item>)
    ensures HoldsLast(items, Batch(items))
  {
    if items != [] {
      var init, last := items[..|items| - 1], items[|items| - 1];
      BatchHoldsLast(init);
      forall k ensures Occurs(items, k) <==> Occurs(init, k) || last.key == k {
        if Occurs(init, k) {
          var i :| 0 <= i < |init| && init[i].key == k;
          assert items[i].key == k;
        }
      }
      forall i: nat, k | LastOf(items, i, k) && i < |init| ensures LastOf(init, i, k) && k != last.key {
      }
    }
  }

  datatype Partial = Partial(
    items: map<string, Item>,
    expected: nat,
    fragments: map<string, nat>,
    lastSeen: nat)

  // ---------------------------------------------------------------- sums

  ghost function Sum<K>(m: map<K, nat>, keys: set<K>): nat
    requires keys <= m.Keys
  {
    if keys == {} then 0 else var k :| k in keys; m[k] + Sum(m, keys - {k})
  }

  lemma {:induction false} SumTake<K>(m: map<K, nat>, keys: set<K>, k: K)
    requires keys <= m.Keys && k in keys
    ensures Sum(m, keys) == m[k] + Sum(m, keys - {k})
    decreases |keys|
  {
    var j :| j in keys && Sum(m, keys) == m[j] + Sum(m, keys - {j});
    if j != k {
      SumTake(m, keys - {j}, k);
      SumTake(m, keys - {k}, j);
      assert keys - {j} - {k} == keys - {k} - {j};
    }
  }

  lemma {:induction false} SumSame<K>(m: map<K, nat>, n: map<K, nat>, keys: set<K>)
    requires keys <= m.Keys && keys <= n.Keys && forall k | k in keys :: m[k] == n[k]
    ensures Sum(m, keys) == Sum(n, keys)
    decreases |keys|
  {
    if keys != {} {
      var k :| k in keys;
      SumTake(m, keys, k);
      SumTake(n, keys, k);
      SumSame(m, n, keys - {k});
    }
  }

  /** Leaving out a positive term makes a sum smaller. */
  lemma {:induction false} SumPart<K>(m: map<K, nat>, part: set<K>, all: set<K>)
    requires part <= all <= m.Keys && forall k | k in all :: m[k] > 0
    ensures Sum(m, part) <= Sum(m, all) && (part != all ==> Sum(m, part) < Sum(m, all))
    decreases |all - part|
  {
    if part != all {
      var k :| k in all && k !in part;
      SumPart(m, part + {k}, all);
      SumTake(m, part + {k}, k);
      assert part + {k} - {k} == part;
    }
  }

  function Capped(n: nat): nat { if n <= U32_MAX then n else U32_MAX }

  /** `received_num`: the saturating sum does not depend on the order of the values. */
  method ReceivedNum(fragments: map<string, nat>) returns (acc: nat)
    ensures acc == Capped(Sum(fragments, fragments.Keys))
  {
    acc := 0;
    var rest := fragments.Keys;
    while rest != {}
      invariant rest <= fragments.Keys
      invariant acc == Capped(Sum(fragments, fragments.Keys - rest))
      decreases |rest|
    {
      var k :| k in rest;
      assert fragments.Keys - (rest - {k}) - {k} == fragments.Keys - rest;
      SumTake(fragments, fragments.Keys - (rest - {k}), k);
      acc := Capped(acc + fragments[k]);
      rest := rest - {k};
    }
    assert fragments.Keys - rest == fragments.Keys;
  }

  // ---------------------------------------------------------------- the buffer

  ghost predicate Complete(p: Partial) {
    |p.items| >= p.expected || Capped(Sum(p.fragments, p.fragments.Keys)) == p.expected
  }

  /** A new transfer's first fragment, called `name`. */
  function First(expected: nat, name: string, num: nat, batch: map<string, Item>, now: nat): Partial {
    Partial(batch, expected, if num > 0 || batch != map[] then map[name := num] else map[], now)
  }

  function Merge(p: Partial, name: string, num: nat, batch: map<string, Item>, now: nat): Partial {
    var most := if name in p.fragments && p.fragments[name] > num then p.fragments[name] else num;
    Partial(p.items + batch, p.expected, p.fragments[name := most], now)
  }

  /** What a fragment called `name` does to the transfer it belongs to, and what it makes the buffer
      emit. */
  ghost function Absorb(p: Option<Partial>, room: bool, limit: nat, expected: nat, name: string, num: nat,
                        batch: map<string, Item>, now: nat): (Option<Partial>, Option<map<string, Item>>)
  {
    if expected == 0 then (p, Some(batch))
    else if expected > limit || (p.None? && !room) then (p, None)
    else if p.None? then
      if |batch| > limit then (p, None) else Settle(First(expected, name, num, batch, now))
    else if |p.value.items.Keys + batch.Keys| > limit then (None, None)
    else Settle(Merge(p.value, name, num, batch, now))
  }

  /** The fragment is not taken in: it declares too much, finds no room or begins with too many items. */
  predicate Ignored(p: Option<Partial>, room: bool, limit: nat, expected: nat, batch: map<string, Item>) {
    expected > limit || (p.None? && (!room || |batch| > limit))
  }

  predicate Overflows(p: Option<Partial>, limit: nat, batch: map<string, Item>) {
    p.Some? && |p.value.items.Keys + batch.Keys| > limit
  }

  /** A response that declares nothing is emitted at once; one that is ignored changes nothing; one item too
      many ends a transfer without a result. */
  lemma NotTakenIn(p: Option<Partial>, room: bool, limit: nat, expected: nat, name: string, num: nat,
                   batch: map<string, Item>, now: nat)
    ensures
      var r := Absorb(p, room, limit, expected, name, num, batch, now);
      && (expected == 0 ==> r == (p, Some(batch)))
      && (expected > 0 && Ignored(p, room, limit, expected, batch) ==> r == (p, None))
      && (expected > 0 && !Ignored(p, room, limit, expected, batch) && Overflows(p, limit, batch) ==> r == (None, None))
  {
  }

  /** Any other fragment adds its items to the transfer, which is then emitted and forgotten, or kept and
      dated anew; it is emitted if it has as many items as it first declared. */
  lemma TakenIn(p: Option<Partial>, room: bool, limit: nat, expected: nat, name: string, num: nat,
                batch: map<string, Item>, now: nat)
    requires expected > 0 && !Ignored(p, room, limit, expected, batch) && !Overflows(p, limit, batch)
    ensures
      var (q, emitted) := Absorb(p, room, limit, expected, name, num, batch, now);
      var items := if p.Some? then p.value.items + batch else batch;
      var declared := if p.Some? then p.value.expected else expected;
      && (emitted.Some? <==> q.None?)
      && (emitted.Some? ==> emitted.value == items)
      && (q.Some? ==> q.value.items == items && q.value.lastSeen == now && q.value.expected == declared)
      && (|items| >= declared ==> emitted.Some?)
  {
    if p.None? {
      SettleMeans(First(expected, name, num, batch, now));
    } else {
      SettleMeans(Merge(p.value, name, num, batch, now));
    }
  }

  lemma SettleMeans(p: Partial)
    ensures Settle(p) == (None, Some(p.items)) || (Settle(p) == (Some(p), None) && |p.items| < p.expected)
  {
  }

  ghost function Settle(p: Partial): (Option<Partial>, Option<map<string, Item>>) {
    if Complete(p) then (None, Some(p.items)) else (Some(p), None)
  }

  function Put(entries: map<TransferId, Partial>, id: TransferId, p: Option<Partial>): map<TransferId, Partial> {
    match p
    case None => entries - {id}
    case Some(q) => entries[id := q]
  }

  ghost predicate Waiting(p: Partial, limit: nat) { !Complete(p) && |p.items| < p.expected <= limit }

  /** Both limits hold, and whatever is kept is still waiting for something. */
  ghost predicate Bounded(entries: map<TransferId, Partial>, maxEntries: nat, maxItems: nat) {
    && |entries| <= maxEntries
    && forall id | id in entries :: Waiting(entries[id], maxItems)
  }

  lemma PutBounded(entries: map<TransferId, Partial>, id: TransferId, p: Option<Partial>, maxEntries: nat,
                   maxItems: nat)
    requires Bounded(entries, maxEntries, maxItems)
    requires p.Some? ==> Waiting(p.value, maxItems) && (id in entries || |entries| < maxEntries)
    ensures Bounded(Put(entries, id, p), maxEntries, maxItems)
  {
    if p.Some? {
      assert Put(entries, id, p).Keys == entries.Keys + {id};
    } else {
      assert Put(entries, id, p).Keys == entries.Keys - {id};
      SubsetSize(entries.Keys - {id}, entries.Keys);
    }
  }

  /** Repeated items within a fragment count once, and the last one stays. */
  method Deduplicate(items: seq<Item>) returns (batch: map<string, Item>)
    ensures HoldsLast(items, batch) && batch == Batch(items)
  {
    BatchHoldsLast(items);
    batch := map[];
    for i := 0 to |items|
      invariant batch == Batch(items[..i])
    {
      batch := batch[items[i].key := items[i]];
      assert items[..i + 1][..i] == items[..i];
    }
    assert items[..|items|] == items;
  }

  lemma UnionSize(a: set<string>, b: set<string>)
    ensures |a + b| == |a| + |b - a|
  {
    assert a + b == a + (b - a);
  }

  class FragmentBuffer {
    var entries: map<TransferId, Partial>
    const maxEntries: nat
    const maxItems: nat

    constructor (maxEntries: nat, maxItems: nat)
      ensures this.maxEntries == maxEntries && this.maxItems == maxItems && entries == map[] && Valid()
    {
      this.maxEntries, this.maxItems, entries := maxEntries, maxItems, map[];
    }

    ghost predicate Valid()
      reads this
    {
      Bounded(entries, maxEntries, maxItems)
    }

    ghost function Entry(id: TransferId): Option<Partial>
      reads this
    {
      if id in entries then Some(entries[id]) else None
    }

    method IsComplete(p: Partial) returns (b: bool)
      ensures b == Complete(p)
    {
      if |p.items| >= p.expected {
        return true;
      }
      var received := ReceivedNum(p.fragments);
      b := received == p.expected;
    }

    /** `accumulate`: the transfer named `id` absorbs the fragment and no other transfer notices. */
    method Accumulate(id: TransferId, expected: nat, num: nat, items: seq<Item>, now: nat)
      returns (r: Option<map<string, Item>>)
      requires Valid()
      modifies this
      ensures Valid()
      ensures
        var batch := Batch(items);
        var (p, emitted) := Absorb(old(Entry(id)), old(|entries| < maxEntries), maxItems,
                                   expected, KeyOf(batch.Keys), num, batch, now);
        r == emitted && entries == Put(old(entries), id, p)
    {
      var batch := Deduplicate(items);
      var name := FragmentKey(batch.Keys);
      r := AccumulateBatch(id, expected, name, num, batch, now);
    }

    method AccumulateBatch(id: TransferId, expected: nat, name: string, num: nat, batch: map<string, Item>, now: nat)
      returns (r: Option<map<string, Item>>)
      requires Valid()
      modifies this
      ensures Valid()
      ensures
        var (p, emitted) := Absorb(old(Entry(id)), old(|entries| < maxEntries), maxItems,
                                   expected, name, num, batch, now);
        r == emitted && entries == Put(old(entries), id, p)
    {
      SameEntry(entries, id);
      if expected == 0 {
        return Some(batch);
      }
      if expected > maxItems || (id !in entries && |entries| >= maxEntries) {
        return None;
      }
      if id !in entries {
        if |batch| > maxItems {
          return None;
        }
        r := Keep(id, First(expected, name, num, batch, now));
        return;
      }
      r := Extend(id, name, num, batch, now);
    }

    /** One more fragment of a transfer that has begun; one item too many ends it. */
    method Extend(id: TransferId, name: string, num: nat, batch: map<string, Item>, now: nat)
      returns (r: Option<map<string, Item>>)
      requires Valid() && id in entries
      modifies this
      ensures Valid()
      ensures
        var p := old(entries[id]);
        if |p.items.Keys + batch.Keys| > maxItems then r == None && entries == Put(old(entries), id, None)
        else
          var (q, emitted) := Settle(Merge(p, name, num, batch, now));
          r == emitted && entries == Put(old(entries), id, q)
    {
      var partial := entries[id];
      var novel := batch.Keys - partial.items.Keys;
      UnionSize(partial.items.Keys, batch.Keys);
      if |partial.items| + |novel| > maxItems {
        PutBounded(entries, id, None, maxEntries, maxItems);
        entries := entries - {id};
        return None;
      }
      r := Keep(id, Merge(partial, name, num, batch, now));
    }

    /** Emits the transfer if it is complete and keeps it otherwise. */
    method Keep(id: TransferId, p: Partial) returns (r: Option<map<string, Item>>)
      requires Valid() && p.expected <= maxItems && (id in entries || |entries| < maxEntries)
      modifies this
      ensures Valid() && r == Settle(p).1 && entries == Put(old(entries), id, Settle(p).0)
    {
      var complete := IsComplete(p);
      if complete {
        PutBounded(entries, id, None, maxEntries, maxItems);
        entries := entries - {id};
        return Some(p.items);
      }
      PutBounded(entries, id, Some(p), maxEntries, maxItems);
      entries := entries[id := p];
      r := None;
    }

    /** `evict`: transfers not touched for longer than the time to live are forgotten. */
    method Evict(now: nat)
      requires Valid()
      modifies this
      ensures Valid()
      ensures entries == map id | id in old(entries) && now - old(entries)[id].lastSeen <= TTL :: old(entries)[id]
    {
      ghost var before := entries;
      entries := map id | id in entries && now - entries[id].lastSeen <= TTL :: entries[id];
      SubsetSize(entries.Keys, before.Keys);
    }
  }

  lemma SameEntry(entries: map<TransferId, Partial>, id: TransferId)
    ensures Put(entries, id, if id in entries then Some(entries[id]) else None) == entries
  {
  }
}
