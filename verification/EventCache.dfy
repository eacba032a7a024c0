/** The bounded cache behind the event stream, and a consumer that reads it by cursor. */
module EventCaches {
  import opened Wrappers

  const U64_MAX: nat := 0xffff_ffff_ffff_ffff

  datatype Event = Event(tenant: nat, device: Option<nat>, kind: nat)

  datatype Cached = Cached(cursor: nat, event: Event)

  datatype Filter = Filter(tenant: Option<nat>, device: Option<nat>, kind: Option<nat>) {
    predicate Accepts(e: Event) {
      && (tenant.Some? ==> e.tenant == tenant.value)
      && (device.Some? ==> e.device == device)
      && (kind.Some? ==> e.kind == kind.value)
    }
  }

  /** The events pushed so far that are still cached: the last `capacity`, or all. The event pushed
      as the n-th has cursor n. */
  function Cut(pushed: seq<Event>, capacity: nat): nat {
    if |pushed| <= capacity then 0 else |pushed| - capacity
  }

  function Slice(pushed: seq<Event>, lo: nat): seq<Cached>
    requires lo <= |pushed|
  {
    seq(|pushed| - lo, i requires 0 <= i < |pushed| - lo => Cached(lo + i + 1, pushed[lo + i]))
  }

  function Window(pushed: seq<Event>, capacity: nat): seq<Cached> { Slice(pushed, Cut(pushed, capacity)) }

  /** What `events_after` keeps of a buffer. */
  function Select(buffer: seq<Cached>, after: nat, f: Filter): seq<Cached> {
    if buffer == [] then []
    else
      var last := buffer[|buffer| - 1];
      Select(buffer[..|buffer| - 1], after, f) + if last.cursor > after && f.Accepts(last.event) then [last] else []
  }

  lemma {:induction false} SelectHolds(buffer: seq<Cached>, after: nat, f: Filter)
    ensures forall c :: c in Select(buffer, after, f) <==> c in buffer && c.cursor > after && f.Accepts(c.event)
  {
    if buffer != [] {
      var init, last := buffer[..|buffer| - 1], buffer[|buffer| - 1];
      SelectHolds(init, after, f);
      assert buffer == init + [last];
    }
  }

  class EventCache {
    const capacity: nat
    var nextCursor: nat
    var buffer: seq<Cached>
    /** Every event pushed since the cursors last started from 1. */
    ghost var pushed: seq<Event>

    constructor (capacity: nat)
      ensures Valid() && this.capacity == capacity && pushed == []
    {
      this.capacity, nextCursor, buffer, pushed := capacity, 1, [], [];
    }

    /** The buffer is exactly the last pushes with consecutive cursors. */
    ghost predicate Valid()
      reads this
    {
      && nextCursor == |pushed| + 1 <= U64_MAX
      && buffer == Window(pushed, capacity)
    }

    /** `push`; an envelope that cannot be decoded changes nothing. When the cursors are used up the
        cache starts over. */
    method Push(decoded: Option<Event>) returns (r: Option<nat>)
      requires Valid()
      modifies this
      ensures Valid()
      ensures decoded.None? ==> r.None? && pushed == old(pushed)
      ensures decoded.Some? ==>
        && r == Some(|pushed|)
        && pushed == if old(nextCursor) < U64_MAX then old(pushed) + [decoded.value] else [decoded.value]
    {
      if decoded.None? {
        return None;
      }
      var cursor := nextCursor;
      if cursor == U64_MAX {
        buffer, cursor, pushed := [], 1, [];
      }
      nextCursor := cursor + 1;
      ghost var all := pushed + [decoded.value];
      var kept := buffer + [Cached(cursor, decoded.value)];
      while |kept| > capacity
        invariant |kept| <= |all| && (|kept| >= capacity || kept == Slice(all, 0))
        invariant kept == Slice(all, |all| - |kept|)
      {
        kept := kept[1..];
      }
      buffer, pushed := kept, all;
      r := Some(cursor);
    }

    method EventsAfter(after: nat, f: Filter) returns (r: seq<Cached>)
      ensures r == Select(buffer, after, f)
      ensures forall c :: c in r <==>
        && c in buffer && c.cursor > after
        && (f.tenant.Some? ==> c.event.tenant == f.tenant.value)
        && (f.device.Some? ==> c.event.device == f.device)
        && (f.kind.Some? ==> c.event.kind == f.kind.value)
    {
      SelectHolds(buffer, after, f);
      r := [];
      for i := 0 to |buffer|
        invariant r == Select(buffer[..i], after, f)
      {
        assert buffer[..i + 1][..i] == buffer[..i];
        if buffer[i].cursor > after && f.Accepts(buffer[i].event) {
          r := r + [buffer[i]];
        }
      }
      assert buffer[..|buffer|] == buffer;
    }
  }

  // ---------------------------------------------------------------- a consumer

  /** The accepted events pushed after the first `from`, in order. */
  function Matching(pushed: seq<Event>, from: nat, f: Filter): seq<Cached> {
    if |pushed| <= from then []
    else
      var last := pushed[|pushed| - 1];
      Matching(pushed[..|pushed| - 1], from, f) + if f.Accepts(last) then [Cached(|pushed|, last)] else []
  }

  function Max(a: nat, b: nat): nat { if a >= b then a else b }

  lemma {:induction false} SelectIsMatching(pushed: seq<Event>, lo: nat, after: nat, f: Filter)
    requires lo <= |pushed|
    ensures Select(Slice(pushed, lo), after, f) == Matching(pushed, Max(lo, after), f)
  {
    if lo < |pushed| {
      var init := pushed[..|pushed| - 1];
      SelectIsMatching(init, lo, after, f);
      assert Slice(pushed, lo)[..|pushed| - 1 - lo] == Slice(init, lo);
    }
  }

  /** Matching splits at any point. */
  lemma {:induction false} MatchingSplits(pushed: seq<Event>, from: nat, mid: nat, f: Filter)
    requires from <= mid <= |pushed|
    ensures Matching(pushed, from, f) == Matching(pushed[..mid], from, f) + Matching(pushed, mid, f)
  {
    if mid == |pushed| {
      assert pushed[..mid] == pushed;
    } else {
      var init := pushed[..|pushed| - 1];
      MatchingSplits(init, from, mid, f);
      assert init[..mid] == pushed[..mid];
    }
  }

  /** Every event of `Matching` lies after `from`, and nothing accepted lies after the last one. */
  lemma {:induction false} MatchingEnds(pushed: seq<Event>, from: nat, f: Filter)
    ensures
      var m := Matching(pushed, from, f);
      m != [] ==>
        var c := m[|m| - 1].cursor;
        from < c <= |pushed| && Matching(pushed, c, f) == []
  {
    if |pushed| > from {
      MatchingEnds(pushed[..|pushed| - 1], from, f);
    }
  }

  /** The producer pushes; the consumer polls when it starts, and again whenever it is woken. */
  datatype Op = PushEvent(event: Event) | Poll | Wake

  /** `origin`: the cursor this consumer is reading from; `got`: what it was sent; `lost`: accepted
      events that left the cache unseen. */
  datatype Consumer = Consumer(pushed: seq<Event>, origin: nat, last: nat, got: seq<Cached>, lost: nat)

  function Starting(pushed: seq<Event>, start: nat): Consumer { Consumer(pushed, start, start, [], 0) }

  function Polled(c: Consumer, capacity: nat, f: Filter): Consumer {
    var events := Select(Window(c.pushed, capacity), c.last, f);
    var cut := Cut(c.pushed, capacity);
    c.(last := if events == [] then c.last else events[|events| - 1].cursor,
       got := c.got + events,
       lost := if events == [] then c.lost else c.lost + |Matching(c.pushed[..cut], c.last, f)|)
  }

  /** The latest cursor lies behind the one the consumer waits at: it begins again. */
  predicate Ahead(c: Consumer) { 0 < |c.pushed| < c.last }

  function Rewound(c: Consumer): Consumer { if Ahead(c) then c.(origin := 0, last := 0) else c }

  function Act(c: Consumer, op: Op, capacity: nat, f: Filter): Consumer {
    match op
    case PushEvent(e) => c.(pushed := c.pushed + [e])
    case Poll => Polled(c, capacity, f)
    case Wake => Polled(Rewound(c), capacity, f)
  }

  function Watch(c: Consumer, ops: seq<Op>, capacity: nat, f: Filter): Consumer {
    if ops == [] then c else Act(Watch(c, ops[..|ops| - 1], capacity, f), ops[|ops| - 1], capacity, f)
  }

  ghost predicate Increasing(got: seq<Cached>) {
    forall i, j | 0 <= i < j < |got| :: got[i].cursor < got[j].cursor
  }

  lemma {:induction false} MatchingIncreases(pushed: seq<Event>, from: nat, f: Filter)
    ensures
      var m := Matching(pushed, from, f);
      Increasing(m) && forall i | 0 <= i < |m| :: from < m[i].cursor <= |pushed|
  {
    if |pushed| > from {
      MatchingIncreases(pushed[..|pushed| - 1], from, f);
    }
  }

  /** Everything accepted between the origin and `last` was either sent, in order and once, or lost; a
      consumer that waits beyond the last push has been sent nothing. */
  ghost predicate Inv(c: Consumer, f: Filter) {
    if c.last > |c.pushed| then c.got == [] && c.lost == 0 && c.origin == c.last
    else
      && c.origin <= c.last
      && Balanced(c.got, c.lost, Matching(c.pushed[..c.last], c.origin, f))
      && Increasing(c.got) && forall i | 0 <= i < |c.got| :: c.got[i].cursor <= c.last
  }

  /** The accepted events that have left the cache and that the consumer has not seen. */
  function Unseen(c: Consumer, capacity: nat, f: Filter): seq<Cached> {
    Matching(c.pushed[..Cut(c.pushed, capacity)], c.last, f)
  }

  lemma PollSends(c: Consumer, capacity: nat, f: Filter)
    requires c.last <= |c.pushed|
    ensures
      var events := Select(Window(c.pushed, capacity), c.last, f);
      Unseen(c, capacity, f) + events == Matching(c.pushed, c.last, f)
  {
    var cut := Cut(c.pushed, capacity);
    SelectIsMatching(c.pushed, cut, c.last, f);
    if c.last <= cut {
      MatchingSplits(c.pushed, c.last, cut, f);
    }
  }

  /** Where a poll that sends something leaves the consumer. */
  lemma PollReaches(c: Consumer, start: nat, capacity: nat, f: Filter)
    requires start <= c.last <= |c.pushed|
    requires Select(Window(c.pushed, capacity), c.last, f) != []
    ensures
      var events := Select(Window(c.pushed, capacity), c.last, f);
      var last := events[|events| - 1].cursor;
      && c.last < last <= |c.pushed|
      && Matching(c.pushed[..last], start, f)
         == Matching(c.pushed[..c.last], start, f) + (Unseen(c, capacity, f) + events)
      && Increasing(events) && forall i | 0 <= i < |events| :: c.last < events[i].cursor <= last
  {
    var events, all := Select(Window(c.pushed, capacity), c.last, f), Matching(c.pushed, c.last, f);
    PollSends(c, capacity, f);
    assert all[|all| - 1] == events[|events| - 1];
    var last := events[|events| - 1].cursor;
    MatchingEnds(c.pushed, c.last, f);
    MatchingSplits(c.pushed, c.last, last, f);
    MatchingSplits(c.pushed[..last], start, c.last, f);
    assert c.pushed[..last][..c.last] == c.pushed[..c.last];
    MatchingIncreases(c.pushed, c.last, f);
    assert forall i | 0 <= i < |events| :: events[i] == all[|Unseen(c, capacity, f)| + i];
  }

  /** Sent and lost together make up what there was; nothing lost means all sent. */
  ghost predicate Balanced(got: seq<Cached>, lost: nat, there: seq<Cached>) {
    |got| + lost == |there| && (lost == 0 ==> got == there)
  }

  lemma BalanceGrows(got: seq<Cached>, lost: nat, there: seq<Cached>, unseen: seq<Cached>, events: seq<Cached>)
    requires Balanced(got, lost, there)
    ensures Balanced(got + events, lost + |unseen|, there + (unseen + events))
    ensures got + events == there + (unseen + events) <==> lost == 0 && unseen == []
  {
    if lost == 0 && unseen == [] {
      assert unseen + events == events;
    } else {
      assert |got + events| < |there + (unseen + events)|;
    }
  }

  /** A consumer beyond the last push finds nothing. */
  lemma BeyondFindsNothing(c: Consumer, capacity: nat, f: Filter)
    requires c.last > |c.pushed|
    ensures Select(Window(c.pushed, capacity), c.last, f) == [] == Unseen(c, capacity, f)
  {
    SelectIsMatching(c.pushed, Cut(c.pushed, capacity), c.last, f);
  }

  lemma PollKeeps(c: Consumer, capacity: nat, f: Filter)
    requires Inv(c, f)
    ensures Inv(Polled(c, capacity, f), f)
  {
    var events := Select(Window(c.pushed, capacity), c.last, f);
    if c.last > |c.pushed| {
      BeyondFindsNothing(c, capacity, f);
    } else if events == [] {
      assert c.got + events == c.got;
    } else {
      PollReaches(c, c.origin, capacity, f);
      BalanceGrows(c.got, c.lost, Matching(c.pushed[..c.last], c.origin, f), Unseen(c, capacity, f), events);
    }
  }

  lemma RewoundKeeps(c: Consumer, f: Filter)
    requires Inv(c, f)
    ensures Inv(Rewound(c), f)
  {
    assert Matching(c.pushed[..0], 0, f) == [];
  }

  lemma PushKeeps(c: Consumer, e: Event, f: Filter)
    requires Inv(c, f)
    ensures Inv(c.(pushed := c.pushed + [e]), f)
  {
    var more := c.pushed + [e];
    if c.last <= |c.pushed| {
      assert more[..c.last] == c.pushed[..c.last];
    } else if c.last == |more| {
      assert Matching(more[..c.last], c.last, f) == [];
    }
  }

  lemma {:induction false} WatchKeeps(c: Consumer, ops: seq<Op>, capacity: nat, f: Filter)
    requires Inv(c, f)
    ensures Inv(Watch(c, ops, capacity, f), f)
  {
    if ops != [] {
      WatchKeeps(c, ops[..|ops| - 1], capacity, f);
      var before := Watch(c, ops[..|ops| - 1], capacity, f);
      match ops[|ops| - 1]
      case PushEvent(e) =>
        PushKeeps(before, e, f);
      case Poll =>
        PollKeeps(before, capacity, f);
      case Wake =>
        RewoundKeeps(before, f);
        PollKeeps(Rewound(before), capacity, f);
    }
  }

  lemma StartHolds(pushed: seq<Event>, start: nat, f: Filter)
    ensures Inv(Starting(pushed, start), f)
  {
    if start <= |pushed| {
      assert Matching(pushed[..start], start, f) == [];
    }
  }

  /** A poll completes what the consumer was sent exactly if nothing has been lost before and nothing
      accepted has left the cache unseen. */
  lemma PollCompletes(c: Consumer, capacity: nat, f: Filter)
    requires Inv(c, f)
    ensures Polled(c, capacity, f).got == Matching(c.pushed, c.origin, f)
            <==> c.lost == 0 && Unseen(c, capacity, f) == []
  {
    if c.last > |c.pushed| {
      BeyondFindsNothing(c, capacity, f);
    } else {
      PollSends(c, capacity, f);
      MatchingSplits(c.pushed, c.origin, c.last, f);
      BalanceGrows(c.got, c.lost, Matching(c.pushed[..c.last], c.origin, f),
                   Unseen(c, capacity, f), Select(Window(c.pushed, capacity), c.last, f));
    }
  }

  /** However pushes, polls and wakes interleave, a consumer that asks for any cursor is sent every
      event at most once and in order; and once woken it has been sent every accepted event since the
      cursor it reads from exactly if none of them left the cache before the consumer saw it. */
  lemma ExactlyOnce(pushed: seq<Event>, start: nat, ops: seq<Op>, capacity: nat, f: Filter)
    ensures
      var c := Rewound(Watch(Starting(pushed, start), ops, capacity, f));
      var after := Polled(c, capacity, f);
      && Increasing(after.got)
      && (after.got == Matching(after.pushed, after.origin, f) <==> c.lost == 0 && Unseen(c, capacity, f) == [])
  {
    StartHolds(pushed, start, f);
    WatchKeeps(Starting(pushed, start), ops, capacity, f);
    var before := Watch(Starting(pushed, start), ops, capacity, f);
    RewoundKeeps(before, f);
    PollKeeps(Rewound(before), capacity, f);
    PollCompletes(Rewound(before), capacity, f);
  }

  // ---------------------------------------------------------------- where a consumer reads from

  function Pushes(ops: seq<Op>): nat {
    if ops == [] then 0 else Pushes(ops[..|ops| - 1]) + if ops[|ops| - 1].PushEvent? then 1 else 0
  }

  /** The consumer was woken when something had been pushed, but less than it asked to skip. */
  ghost predicate WokenEarly(n: nat, start: nat, ops: seq<Op>) {
    exists i :: 0 <= i < |ops| && WokenEarlyAt(n, start, ops, i)
  }

  predicate WokenEarlyAt(n: nat, start: nat, ops: seq<Op>, i: nat)
    requires i < |ops|
  {
    ops[i].Wake? && 0 < n + Pushes(ops[..i]) < start
  }

  lemma WokenEarlyLast(n: nat, start: nat, ops: seq<Op>)
    requires ops != []
    ensures WokenEarly(n, start, ops)
            <==> WokenEarly(n, start, ops[..|ops| - 1]) || WokenEarlyAt(n, start, ops, |ops| - 1)
  {
    var init := ops[..|ops| - 1];
    forall i | 0 <= i < |init| ensures WokenEarlyAt(n, start, init, i) == WokenEarlyAt(n, start, ops, i) {
      assert init[..i] == ops[..i];
    }
  }

  /** A consumer that asks for a cursor nobody has reached yet is sent the events from that cursor on,
      unless it is woken before that cursor is reached, which makes it begin at the beginning. */
  lemma {:induction false} OriginIsStart(pushed: seq<Event>, start: nat, ops: seq<Op>, capacity: nat, f: Filter)
    ensures
      var c := Watch(Starting(pushed, start), ops, capacity, f);
      && |c.pushed| == |pushed| + Pushes(ops)
      && c.origin == (if WokenEarly(|pushed|, start, ops) then 0 else start)
      && (c.origin == start && |c.pushed| < start ==> c.last == start)
      && (c.last <= |c.pushed| || c.last == start == c.origin)
  {
    if ops != [] {
      var init := ops[..|ops| - 1];
      OriginIsStart(pushed, start, init, capacity, f);
      WokenEarlyLast(|pushed|, start, ops);
      StartHolds(pushed, start, f);
      WatchKeeps(Starting(pushed, start), init, capacity, f);
      var before := Watch(Starting(pushed, start), init, capacity, f);
      PolledStays(before, capacity, f);
      PolledStays(Rewound(before), capacity, f);
    }
  }

  lemma PolledStays(c: Consumer, capacity: nat, f: Filter)
    ensures
      var d := Polled(c, capacity, f);
      if c.last > |c.pushed| then d.last == c.last else c.last <= d.last <= |c.pushed|
  {
    if c.last > |c.pushed| {
      BeyondFindsNothing(c, capacity, f);
    } else if Select(Window(c.pushed, capacity), c.last, f) != [] {
      PollReaches(c, 0, capacity, f);
    }
  }

  // ---------------------------------------------------------------- a prompt consumer

  /** How many pushes the consumer has looked at: those up to its last poll. */
  function LookedAt(n: nat, start: nat, ops: seq<Op>): nat {
    if ops == [] then start
    else if ops[|ops| - 1].PushEvent? then LookedAt(n, start, ops[..|ops| - 1])
    else n + Pushes(ops)
  }

  /** At every poll at most `capacity` events were pushed since the one before. */
  ghost predicate Prompt(n: nat, start: nat, ops: seq<Op>, capacity: nat) {
    forall i | 0 <= i < |ops| && !ops[i].PushEvent? :: PromptAt(n, start, ops, capacity, i)
  }

  predicate PromptAt(n: nat, start: nat, ops: seq<Op>, capacity: nat, i: nat)
    requires i < |ops|
  {
    n + Pushes(ops[..i]) <= LookedAt(n, start, ops[..i]) + capacity
  }

  lemma PromptBefore(n: nat, start: nat, ops: seq<Op>, capacity: nat)
    requires ops != [] && Prompt(n, start, ops, capacity)
    ensures Prompt(n, start, ops[..|ops| - 1], capacity)
  {
    var init := ops[..|ops| - 1];
    forall i | 0 <= i < |init| && !init[i].PushEvent? ensures PromptAt(n, start, init, capacity, i) {
      assert init[..i] == ops[..i];
      assert PromptAt(n, start, ops, capacity, i);
    }
  }

  /** Nothing accepted among the first `looked` pushes lies after `last`. */
  ghost predicate UpToDate(c: Consumer, looked: nat, f: Filter) {
    c.last <= looked <= |c.pushed| && c.lost == 0 && Matching(c.pushed[..looked], c.last, f) == []
  }

  lemma PromptPoll(c: Consumer, looked: nat, capacity: nat, f: Filter)
    requires UpToDate(c, looked, f) && |c.pushed| <= looked + capacity
    ensures Unseen(c, capacity, f) == [] && UpToDate(Polled(c, capacity, f), |c.pushed|, f)
  {
    var cut := Cut(c.pushed, capacity);
    if c.last <= cut {
      MatchingSplits(c.pushed[..looked], c.last, cut, f);
      assert c.pushed[..looked][..cut] == c.pushed[..cut];
    }
    PollSends(c, capacity, f);
    assert c.pushed[..|c.pushed|] == c.pushed;
    MatchingEnds(c.pushed, c.last, f);
  }

  lemma {:induction false} PromptIsUpToDate(pushed: seq<Event>, start: nat, ops: seq<Op>, capacity: nat, f: Filter)
    requires start <= |pushed| && Prompt(|pushed|, start, ops, capacity)
    ensures
      var c := Watch(Starting(pushed, start), ops, capacity, f);
      UpToDate(c, LookedAt(|pushed|, start, ops), f) && |c.pushed| == |pushed| + Pushes(ops) && c.origin == start
  {
    if ops == [] {
      assert Matching(pushed[..start], start, f) == [];
    } else {
      var init, op := ops[..|ops| - 1], ops[|ops| - 1];
      PromptBefore(|pushed|, start, ops, capacity);
      PromptIsUpToDate(pushed, start, init, capacity, f);
      var before, looked := Watch(Starting(pushed, start), init, capacity, f), LookedAt(|pushed|, start, init);
      if op.PushEvent? {
        assert (before.pushed + [op.event])[..looked] == before.pushed[..looked];
      } else {
        assert PromptAt(|pushed|, start, ops, capacity, |ops| - 1);
        PromptPoll(before, looked, capacity, f);
      }
    }
  }

  /** A consumer that asks for a cursor that exists and never lets more than `capacity` events be pushed
      between two polls is sent every accepted event, once and in order. */
  lemma PromptMissesNothing(pushed: seq<Event>, start: nat, ops: seq<Op>, capacity: nat, f: Filter)
    requires start <= |pushed| && Prompt(|pushed|, start, ops + [Wake], capacity)
    ensures
      var after := Watch(Starting(pushed, start), ops + [Wake], capacity, f);
      after.got == Matching(after.pushed, start, f) && Increasing(after.got)
  {
    var all := ops + [Wake];
    assert all[..|all| - 1] == ops;
    PromptBefore(|pushed|, start, all, capacity);
    PromptIsUpToDate(pushed, start, ops, capacity, f);
    assert PromptAt(|pushed|, start, all, capacity, |ops|);
    var before := Watch(Starting(pushed, start), ops, capacity, f);
    PromptPoll(before, LookedAt(|pushed|, start, ops), capacity, f);
    ExactlyOnce(pushed, start, ops, capacity, f);
  }
}
