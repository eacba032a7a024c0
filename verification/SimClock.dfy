/** The simulator's virtual clock and timer wheel. */
module SimClock {
  import opened Wrappers

  const MAX_TIME: nat := 0xFFFF_FFFF_FFFF_FFFF

  function SaturatingAdd(a: nat, b: nat): (r: nat)
    requires a <= MAX_TIME
    ensures a <= r <= MAX_TIME
    ensures a < MAX_TIME && b > 0 ==> r > a
  {
    if a + b <= MAX_TIME then a + b else MAX_TIME
  }

  datatype Scheduled<E> = Scheduled(due: nat, sequence: nat, event: E)

  /** The order events fire in: by due time, ties by the order they were scheduled. */
  predicate Before<E>(a: Scheduled<E>, b: Scheduled<E>) {
    a.due < b.due || (a.due == b.due && a.sequence < b.sequence)
  }

  ghost predicate Remove<E>(queue: seq<Scheduled<E>>, i: nat, rest: seq<Scheduled<E>>) {
    i < |queue| && rest == queue[..i] + queue[i + 1..]
  }

  /** Sum of a measure over a queue. */
  function Total<E>(queue: seq<Scheduled<E>>, f: Scheduled<E> -> nat): nat {
    if queue == [] then 0 else Total(queue[..|queue| - 1], f) + f(queue[|queue| - 1])
  }

  lemma {:induction false} TotalConcat<E>(a: seq<Scheduled<E>>, b: seq<Scheduled<E>>, f: Scheduled<E> -> nat)
    ensures Total(a + b, f) == Total(a, f) + Total(b, f)
  {
    if b == [] {
      assert a + b == a;
    } else {
      TotalConcat(a, b[..|b| - 1], f);
      assert (a + b)[..|a + b| - 1] == a + b[..|b| - 1];
    }
  }

  /** Taking one entry out takes exactly its share out of every total. */
  lemma TotalRemove<E>(queue: seq<Scheduled<E>>, i: nat, rest: seq<Scheduled<E>>, f: Scheduled<E> -> nat)
    requires Remove(queue, i, rest)
    ensures Total(queue, f) == Total(rest, f) + f(queue[i])
  {
    TotalConcat(queue[..i], queue[i + 1..], f);
    TotalConcat(queue[..i + 1], queue[i + 1..], f);
    assert queue[..i + 1] + queue[i + 1..] == queue;
    assert queue[..i + 1][..i] == queue[..i];
  }

  lemma TotalAppend<E>(queue: seq<Scheduled<E>>, entry: Scheduled<E>, f: Scheduled<E> -> nat)
    ensures Total(queue + [entry], f) == Total(queue, f) + f(entry)
  {
    assert (queue + [entry])[..|queue|] == queue;
  }

  /** The wheel as a value; `popped` lists the entries that have fired, oldest first. */
  datatype Wheel<E> = Wheel(now: nat, queue: seq<Scheduled<E>>, nextSequence: nat, popped: seq<Scheduled<E>>)

  /** A due time in the past is clamped to now. */
  ghost predicate ScheduleStep<E>(w: Wheel<E>, w': Wheel<E>, due: nat, event: E) {
    w' == w.(queue := w.queue + [Scheduled(if due < w.now then w.now else due, w.nextSequence, event)],
             nextSequence := w.nextSequence + 1)
  }

  /** The least entry by (due, sequence) fires and the clock moves to it. */
  ghost predicate PopStep<E>(w: Wheel<E>, w': Wheel<E>, at: nat) {
    && Remove(w.queue, at, w'.queue)
    && (forall i | 0 <= i < |w'.queue| :: Before(w.queue[at], w'.queue[i]))
    && w' == w.(now := w.queue[at].due, queue := w'.queue, popped := w.popped + [w.queue[at]])
  }

  ghost predicate Pops<E(!new)>(w: Wheel<E>, w': Wheel<E>) {
    exists at: nat :: PopStep(w, w', at)
  }

  ghost predicate WheelNext<E(!new)>(w: Wheel<E>, w': Wheel<E>) {
    (exists due, event :: ScheduleStep(w, w', due, event)) || Pops(w, w')
  }

  ghost predicate WheelStepAt<E(!new)>(ws: seq<Wheel<E>>, n: nat)
    requires n + 1 < |ws|
  {
    WheelNext(ws[n], ws[n + 1])
  }

  ghost predicate WheelRun<E(!new)>(ws: seq<Wheel<E>>) {
    && |ws| > 0 && ws[0] == Wheel(0, [], 0, [])
    && forall n: nat | n + 1 < |ws| :: WheelStepAt(ws, n)
  }

  /** Nothing queued is due in the past, and everything queued fires after all that has fired. */
  ghost predicate Ordered<E>(w: Wheel<E>) {
    && (forall i | 0 <= i < |w.queue| :: w.now <= w.queue[i].due && w.queue[i].sequence < w.nextSequence)
    && (forall i | 0 <= i < |w.popped| :: w.popped[i].due <= w.now && w.popped[i].sequence < w.nextSequence)
    && (forall i, j | 0 <= i < j < |w.popped| :: Before(w.popped[i], w.popped[j]))
    && (forall i, j | 0 <= i < |w.popped| && 0 <= j < |w.queue| :: Before(w.popped[i], w.queue[j]))
  }

  lemma PopKeepsOrder<E>(w: Wheel<E>, w': Wheel<E>, at: nat)
    requires Ordered(w) && PopStep(w, w', at)
    ensures Ordered(w') && w'.now >= w.now
  {
    forall j | 0 <= j < |w'.queue| ensures w'.queue[j] == w.queue[if j < at then j else j + 1] {
    }
  }

  /** However scheduling and firing interleave, the clock never runs backwards and events fire in
      strict (due, sequence) order, so ties fire first-in first-out. */
  lemma {:induction false} FiresInOrder<E(!new)>(ws: seq<Wheel<E>>, n: nat)
    requires WheelRun(ws) && n < |ws|
    ensures Ordered(ws[n])
    ensures n > 0 ==> ws[n - 1].now <= ws[n].now && ws[n - 1].popped <= ws[n].popped
  {
    if n > 0 {
      FiresInOrder(ws, n - 1);
      assert WheelStepAt(ws, n - 1);
      if Pops(ws[n - 1], ws[n]) {
        var at: nat :| PopStep(ws[n - 1], ws[n], at);
        PopKeepsOrder(ws[n - 1], ws[n], at);
      }
    }
  }

  class TimerWheel<E> {
    var now: nat
    /** The queued entries; `Pop` takes the least. */
    var queue: seq<Scheduled<E>>
    var nextSequence: nat
    var peakLen: nat
    var processed: nat
    ghost var popped: seq<Scheduled<E>>

    ghost function View(): Wheel<E>
      reads this
    {
      Wheel(now, queue, nextSequence, popped)
    }

    ghost predicate Valid()
      reads this
    {
      && now <= MAX_TIME
      && (forall i | 0 <= i < |queue| :: now <= queue[i].due <= MAX_TIME && queue[i].sequence < nextSequence)
      && (forall i, j | 0 <= i < j < |queue| :: queue[i].sequence != queue[j].sequence)
      && processed == |popped|
      && |queue| <= peakLen
    }

    constructor ()
      ensures Valid() && View() == Wheel(0, [], 0, [])
    {
      now, queue, nextSequence, peakLen, processed := 0, [], 0, 0, 0;
      popped := [];
    }

    method Schedule(due: nat, event: E)
      requires Valid() && due <= MAX_TIME
      modifies this
      ensures Valid() && ScheduleStep(old(View()), View(), due, event)
    {
      var at := if due < now then now else due;
      queue := queue + [Scheduled(at, nextSequence, event)];
      nextSequence := nextSequence + 1;
      if peakLen < |queue| {
        peakLen := |queue|;
      }
    }

    method Pop() returns (r: Option<Scheduled<E>>, ghost at: nat)
      requires Valid()
      modifies this
      ensures Valid()
      ensures r.None? <==> old(queue) == []
      ensures r.None? ==> View() == old(View())
      ensures r.Some? ==> PopStep(old(View()), View(), at) && r.value == old(queue)[at] && now >= old(now)
    {
      at := 0;
      if queue == [] {
        return None, 0;
      }
      var least := 0;
      for i := 1 to |queue|
        invariant 0 <= least < i
        invariant forall j | 0 <= j < i && j != least :: Before(queue[least], queue[j])
      {
        if queue[i].due < queue[least].due
           || (queue[i].due == queue[least].due && queue[i].sequence < queue[least].sequence) {
          least := i;
        }
      }
      var entry := queue[least];
      ghost var was := queue;
      queue := queue[..least] + queue[least + 1..];
      forall j | 0 <= j < |queue| ensures queue[j] == was[if j < least then j else j + 1] {
      }
      // The monotonicity the original asserts in debug builds.
      assert entry.due >= now;
      now := entry.due;
      processed := processed + 1;
      popped := popped + [entry];
      return Some(entry), least;
    }
  }
}
