/** Reassembly does not depend on the order of the fragments, nor on how often each arrives. */
module Reassembly {
  import opened Wrappers
  import opened FragmentKeys
  import opened FragmentBuffers

  ghost predicate Contains(items: map<string, Item>, part: map<string, Item>) {
    forall k | k in part :: k in items && items[k] == part[k]
  }

  lemma AddAgain(items: map<string, Item>, part: map<string, Item>)
    requires Contains(items, part)
    ensures items + part == items
  {
  }

  lemma AddKeeps(items: map<string, Item>, part: map<string, Item>, other: map<string, Item>)
    requires Contains(items, other) && part.Keys !! other.Keys
    ensures Contains(items + part, other)
  {
  }

  lemma AddContains(items: map<string, Item>, part: map<string, Item>)
    ensures Contains(items + part, part) && (items + part).Keys == items.Keys + part.Keys
  {
  }

  type Parts = map<nat, map<string, Item>>

  ghost predicate Owned(parts: Parts, k: string, got: set<nat>)
    requires got <= parts.Keys
  {
    exists i :: i in got && k in parts[i]
  }

  /** Exactly the items of the parts in `got`. */
  ghost predicate Union(parts: Parts, items: map<string, Item>, got: set<nat>)
    requires got <= parts.Keys
  {
    && (forall i | i in got :: Contains(items, parts[i]))
    && (forall k | k in items :: Owned(parts, k, got))
  }

  ghost predicate Disjoint(parts: Parts) {
    forall i, j | i in parts && j in parts && i != j :: parts[i].Keys !! parts[j].Keys
  }

  lemma UnionGrows(parts: Parts, items: map<string, Item>, got: set<nat>, i: nat)
    requires got <= parts.Keys && Union(parts, items, got) && Disjoint(parts) && i in parts && i !in got
    ensures Union(parts, items + parts[i], got + {i})
    ensures |items + parts[i]| == |items| + |parts[i]|
  {
    AddContains(items, parts[i]);
    forall j | j in got ensures Contains(items + parts[i], parts[j]) {
      AddKeeps(items, parts[i], parts[j]);
    }
    forall k | k in items ensures k !in parts[i] && Owned(parts, k, got + {i}) {
      var j :| j in got && k in parts[j];
      assert j in got + {i} && parts[i].Keys !! parts[j].Keys;
    }
    forall k | k in parts[i] ensures Owned(parts, k, got + {i}) {
      assert i in got + {i};
    }
    assert items.Keys !! parts[i].Keys;
  }

  lemma Only(got: set<nat>, i: nat)
    requires got == {}
    ensures got + {i} == {i}
  {
  }

  lemma Again(got: set<nat>, i: nat)
    requires i in got
    ensures got + {i} == got
  {
  }

  /** A part seen before changes nothing, a new one adds its own items. */
  lemma UnionStep(parts: Parts, items: map<string, Item>, got: set<nat>, i: nat)
    requires got <= parts.Keys && Union(parts, items, got) && Disjoint(parts) && i in parts
    ensures Union(parts, items + parts[i], got + {i})
    ensures if i in got then items + parts[i] == items else |items + parts[i]| == |items| + |parts[i]|
  {
    if i in got {
      Again(got, i);
      AddAgain(items, parts[i]);
    } else {
      UnionGrows(parts, items, got, i);
    }
  }

  ghost predicate Named(names: map<nat, string>, name: string, got: set<nat>)
    requires got <= names.Keys
  {
    exists i :: i in got && name == names[i]
  }

  ghost predicate Distinct(names: map<nat, string>) {
    forall i, j | i in names && j in names && i != j :: names[i] != names[j]
  }

  /** Exactly the declared counts of the parts in `got`. */
  ghost predicate Counts(names: map<nat, string>, nums: map<nat, nat>, fragments: map<string, nat>, got: set<nat>)
    requires got <= names.Keys == nums.Keys
  {
    && (forall i | i in got :: names[i] in fragments && fragments[names[i]] == nums[i])
    && (forall name | name in fragments :: Named(names, name, got))
    && Sum(fragments, fragments.Keys) == Sum(nums, got)
  }

  lemma CountsGrow(names: map<nat, string>, nums: map<nat, nat>, fragments: map<string, nat>, got: set<nat>, i: nat)
    requires got <= names.Keys == nums.Keys && Counts(names, nums, fragments, got) && Distinct(names)
    requires i in names && i !in got
    ensures names[i] !in fragments && Counts(names, nums, fragments[names[i] := nums[i]], got + {i})
  {
    assert forall j | j in got :: names[j] != names[i];
    assert !Named(names, names[i], got);
    var more := fragments[names[i] := nums[i]];
    forall name | name in more ensures Named(names, name, got + {i}) {
      if name in fragments {
        var j :| j in got && name == names[j];
        assert j in got + {i};
      } else {
        assert i in got + {i};
      }
    }
    SumGrows(nums, fragments, got, names[i], i);
  }

  function Most(fragments: map<string, nat>, name: string, num: nat): nat {
    if name in fragments && fragments[name] > num then fragments[name] else num
  }

  lemma CountsStep(names: map<nat, string>, nums: map<nat, nat>, fragments: map<string, nat>, got: set<nat>, i: nat)
    requires got <= names.Keys == nums.Keys && Counts(names, nums, fragments, got) && Distinct(names) && i in names
    ensures Counts(names, nums, fragments[names[i] := Most(fragments, names[i], nums[i])], got + {i})
    ensures Sum(nums, got + {i}) == Sum(nums, got) + if i in got then 0 else nums[i]
  {
    if i in got {
      Again(got, i);
      assert fragments[names[i] := nums[i]] == fragments;
    } else {
      CountsGrow(names, nums, fragments, got, i);
      SumGrows(nums, fragments, got, names[i], i);
    }
  }

  lemma SumGrows(nums: map<nat, nat>, fragments: map<string, nat>, got: set<nat>, name: string, i: nat)
    requires got <= nums.Keys && i in nums && i !in got && name !in fragments
    requires Sum(fragments, fragments.Keys) == Sum(nums, got)
    ensures Sum(nums, got + {i}) == nums[i] + Sum(nums, got)
    ensures
      var more := fragments[name := nums[i]];
      Sum(more, more.Keys) == Sum(nums, got + {i})
  {
    var more := fragments[name := nums[i]];
    SumTake(nums, got + {i}, i);
    assert got + {i} - {i} == got;
    SumTake(more, more.Keys, name);
    assert more.Keys - {name} == fragments.Keys;
    SumSame(more, fragments, fragments.Keys);
  }

  /** A response cut into parts, with the count each part declares and the name it goes by. */
  datatype Transfer = Transfer(
    parts: Parts, nums: map<nat, nat>, names: map<nat, string>, expected: nat, limit: nat)
  {
    /** Disjoint, non-empty parts, each declaring at least as many items as it has, whose counts add
        up to the total declared. */
    ghost predicate Shaped() {
      && nums.Keys == parts.Keys == names.Keys && expected == Sum(nums, nums.Keys)
      && 0 < expected <= limit && expected <= U32_MAX
      && (forall i | i in parts :: 0 < |parts[i]| <= nums[i])
      && Disjoint(parts)
    }

    ghost predicate Proper() {
      && nums.Keys == parts.Keys == names.Keys && expected == Sum(nums, nums.Keys)
      && 0 < expected <= limit && expected <= U32_MAX
      && (forall i | i in nums :: nums[i] > 0)
      && Disjoint(parts) && Distinct(names)
    }

    /** The names are the ones the buffer gives, and no key has a comma in it. */
    ghost predicate Genuine() {
      && names.Keys == parts.Keys
      && (forall i | i in parts :: names[i] == KeyOf(parts[i].Keys))
      && (forall i, k | i in parts && k in parts[i] :: Plain(k))
    }
  }

  /** Without commas the parts go by different names. */
  lemma GenuineIsProper(c: Transfer)
    requires c.Shaped() && c.Genuine()
    ensures c.Proper()
  {
    forall i, j | i in c.names && j in c.names && i != j ensures c.names[i] != c.names[j] {
      PartsDiffer(c.parts[i].Keys, c.parts[j].Keys);
    }
  }

  lemma PartsDiffer(a: set<string>, b: set<string>)
    requires a != {} && b != {} && a !! b && (forall k | k in a :: Plain(k)) && (forall k | k in b :: Plain(k))
    ensures KeyOf(a) != KeyOf(b)
  {
    if KeyOf(a) == KeyOf(b) {
      PlainKeysTellApart(a, b);
    }
  }

  /** The stored transfer after the parts in `got`. */
  ghost predicate Holds(c: Transfer, p: Partial, got: set<nat>)
    requires c.Proper() && got <= c.parts.Keys
  {
    && p.expected == c.expected
    && Union(c.parts, p.items, got) && |p.items| <= Sum(c.nums, got)
    && Counts(c.names, c.nums, p.fragments, got)
  }

  lemma FirstHolds(c: Transfer, i: nat, now: nat)
    requires c.Proper() && i in c.parts && |c.parts[i]| <= c.nums[i]
    ensures Holds(c, First(c.expected, c.names[i], c.nums[i], c.parts[i], now), {i})
  {
    UnionOfOne(c.parts, i);
    CountsGrow(c.names, c.nums, map[], {}, i);
    Only({}, i);
    SumGrows(c.nums, map[], {}, c.names[i], i);
  }

  lemma UnionOfOne(parts: Parts, i: nat)
    requires i in parts
    ensures Union(parts, parts[i], {i})
  {
    forall k | k in parts[i] ensures Owned(parts, k, {i}) {
      assert i in {i};
    }
  }

  lemma MergeHolds(c: Transfer, p: Partial, got: set<nat>, i: nat, now: nat)
    requires c.Proper() && got <= c.parts.Keys && Holds(c, p, got) && i in c.parts && |c.parts[i]| <= c.nums[i]
    ensures Holds(c, Merge(p, c.names[i], c.nums[i], c.parts[i], now), got + {i})
  {
    UnionStep(c.parts, p.items, got, i);
    CountsStep(c.names, c.nums, p.fragments, got, i);
  }

  /** Complete exactly when nothing is missing. */
  lemma CompleteIffAll(c: Transfer, p: Partial, got: set<nat>)
    requires c.Proper() && got <= c.parts.Keys && Holds(c, p, got)
    ensures Complete(p) <==> got == c.parts.Keys
    ensures |p.items| <= c.limit
  {
    SumPart(c.nums, got, c.parts.Keys);
  }

  // ---------------------------------------------------------------- arrivals

  datatype Arrival = Arrival(part: nat, at: nat)

  ghost function Seen(ds: seq<Arrival>): set<nat> { set k | 0 <= k < |ds| :: ds[k].part }

  lemma SeenGrows(ds: seq<Arrival>)
    requires ds != []
    ensures Seen(ds) == Seen(ds[..|ds| - 1]) + {ds[|ds| - 1].part}
  {
    var init := ds[..|ds| - 1];
    forall i | i in Seen(ds) ensures i in Seen(init) + {ds[|ds| - 1].part} {
      var k :| 0 <= k < |ds| && ds[k].part == i;
      assert k < |init| ==> init[k] == ds[k];
    }
    forall i | i in Seen(init) ensures i in Seen(ds) {
      var k :| 0 <= k < |init| && init[k].part == i;
      assert ds[k] == init[k];
    }
  }

  /** What the buffer stores for the transfer after `ds`, and what the last arrival made it emit. */
  ghost function Fed(c: Transfer, ds: seq<Arrival>): (Option<Partial>, Option<map<string, Item>>)
    requires c.nums.Keys == c.parts.Keys == c.names.Keys && forall k | 0 <= k < |ds| :: ds[k].part in c.parts
  {
    if ds == [] then (None, None)
    else
      var d := ds[|ds| - 1];
      Absorb(Fed(c, ds[..|ds| - 1]).0, true, c.limit, c.expected,
             c.names[d.part], c.nums[d.part], c.parts[d.part], d.at)
  }

  /** What settling a transfer that holds `got` does. */
  ghost predicate Settled(c: Transfer, r: (Option<Partial>, Option<map<string, Item>>), got: set<nat>)
    requires c.Proper() && got <= c.parts.Keys
  {
    if got == c.parts.Keys then r.0.None? && r.1.Some? && Union(c.parts, r.1.value, got)
    else r.1.None? && r.0.Some? && Holds(c, r.0.value, got)
  }

  lemma FirstSettles(c: Transfer, i: nat, now: nat)
    requires c.Proper() && i in c.parts && |c.parts[i]| <= c.nums[i]
    ensures Settled(c, Settle(First(c.expected, c.names[i], c.nums[i], c.parts[i], now)), {i})
    ensures |c.parts[i]| <= c.limit
  {
    FirstHolds(c, i, now);
    CompleteIffAll(c, First(c.expected, c.names[i], c.nums[i], c.parts[i], now), {i});
  }

  lemma MergeSettles(c: Transfer, p: Partial, got: set<nat>, i: nat, now: nat)
    requires c.Proper() && got <= c.parts.Keys && Holds(c, p, got) && i in c.parts && |c.parts[i]| <= c.nums[i]
    ensures Settled(c, Settle(Merge(p, c.names[i], c.nums[i], c.parts[i], now)), got + {i})
    ensures |p.items.Keys + c.parts[i].Keys| <= c.limit
  {
    MergeHolds(c, p, got, i, now);
    CompleteIffAll(c, Merge(p, c.names[i], c.nums[i], c.parts[i], now), got + {i});
    AddContains(p.items, c.parts[i]);
  }

  /** What the next arrival does to what is stored. */
  ghost function Next(c: Transfer, stored: Option<Partial>, d: Arrival): (Option<Partial>, Option<map<string, Item>>)
    requires c.Proper() && d.part in c.parts
  {
    Absorb(stored, true, c.limit, c.expected, c.names[d.part], c.nums[d.part], c.parts[d.part], d.at)
  }

  lemma FirstArrival(c: Transfer, d: Arrival)
    requires c.Proper() && d.part in c.parts && |c.parts[d.part]| <= c.nums[d.part]
    ensures Settled(c, Next(c, None, d), {d.part})
  {
    FirstSettles(c, d.part, d.at);
  }

  lemma LaterArrival(c: Transfer, p: Partial, got: set<nat>, d: Arrival)
    requires c.Proper() && got <= c.parts.Keys && d.part in c.parts && |c.parts[d.part]| <= c.nums[d.part]
    requires Holds(c, p, got)
    ensures Settled(c, Next(c, Some(p), d), got + {d.part})
  {
    MergeSettles(c, p, got, d.part, d.at);
  }

  lemma OneMore(c: Transfer, stored: Option<Partial>, got: set<nat>, d: Arrival)
    requires c.Proper() && got <= c.parts.Keys && d.part in c.parts && |c.parts[d.part]| <= c.nums[d.part]
    requires stored.None? ==> got == {}
    requires stored.Some? ==> Holds(c, stored.value, got)
    ensures Settled(c, Next(c, stored, d), got + {d.part})
  {
    if stored.None? {
      FirstArrival(c, d);
      assert got + {d.part} == {d.part};
    } else {
      LaterArrival(c, stored.value, got, d);
    }
  }

  /** Arrivals of parts of the transfer, none of them larger than it declares. */
  ghost predicate Fits(c: Transfer, ds: seq<Arrival>)
    requires c.Proper()
  {
    forall k | 0 <= k < |ds| :: ds[k].part in c.parts && |c.parts[ds[k].part]| <= c.nums[ds[k].part]
  }

  lemma {:induction false} Stored(c: Transfer, ds: seq<Arrival>)
    requires c.Proper() && Fits(c, ds) && Seen(ds) != c.parts.Keys
    ensures Seen(ds) <= c.parts.Keys
    ensures Fed(c, ds).1.None?
    ensures if Seen(ds) == {} then Fed(c, ds).0.None?
            else Fed(c, ds).0.Some? && Holds(c, Fed(c, ds).0.value, Seen(ds))
  {
    if ds != [] {
      var init, d := ds[..|ds| - 1], ds[|ds| - 1];
      SeenGrows(ds);
      Stored(c, init);
      OneMore(c, Fed(c, init).0, Seen(init), d);
    }
  }

  lemma NextIsDated(c: Transfer, stored: Option<Partial>, d: Arrival)
    requires c.Proper() && d.part in c.parts && |c.parts[d.part]| <= c.nums[d.part]
    ensures Next(c, stored, d).0.Some? ==> Next(c, stored, d).0.value.lastSeen == d.at
  {
    FirstSettles(c, d.part, d.at);
  }

  /** A transfer that is kept is dated by its last arrival. */
  lemma LastArrivalDates(c: Transfer, ds: seq<Arrival>)
    requires c.Shaped() && c.Genuine() && (forall k | 0 <= k < |ds| :: ds[k].part in c.parts)
    requires ds != [] && Seen(ds) != c.parts.Keys
    ensures Fed(c, ds).0.Some? && Fed(c, ds).0.value.lastSeen == ds[|ds| - 1].at
  {
    GenuineIsProper(c);
    Stored(c, ds);
    SeenGrows(ds);
    NextIsDated(c, Fed(c, ds[..|ds| - 1]).0, ds[|ds| - 1]);
  }

  /** Until the last missing part arrives nothing is emitted, whatever arrives how often. */
  lemma SilentUntilLast(c: Transfer, ds: seq<Arrival>)
    requires c.Shaped() && c.Genuine() && (forall k | 0 <= k < |ds| :: ds[k].part in c.parts)
    requires Seen(ds) != c.parts.Keys
    ensures Fed(c, ds).1.None?
  {
    GenuineIsProper(c);
    Stored(c, ds);
  }

  /** The arrival that completes the set emits exactly the union, and the transfer is forgotten. */
  lemma LastEmitsUnion(c: Transfer, ds: seq<Arrival>)
    requires c.Shaped() && c.Genuine() && (forall k | 0 <= k < |ds| :: ds[k].part in c.parts)
    requires ds != [] && Seen(ds) == c.parts.Keys && Seen(ds[..|ds| - 1]) != c.parts.Keys
    ensures Fed(c, ds).0.None? && Fed(c, ds).1.Some? && Union(c.parts, Fed(c, ds).1.value, c.parts.Keys)
  {
    GenuineIsProper(c);
    Last(c, ds);
  }

  lemma Last(c: Transfer, ds: seq<Arrival>)
    requires c.Proper() && Fits(c, ds) && ds != []
    requires Seen(ds) == c.parts.Keys && Seen(ds[..|ds| - 1]) != c.parts.Keys
    ensures Fed(c, ds).0.None? && Fed(c, ds).1.Some? && Union(c.parts, Fed(c, ds).1.value, c.parts.Keys)
  {
    var init, d := ds[..|ds| - 1], ds[|ds| - 1];
    SeenGrows(ds);
    Stored(c, init);
    OneMore(c, Fed(c, init).0, Seen(init), d);
  }
}
