/** What the rate limiter guarantees over whole runs, against a limiter that forgets nothing. */
module RateLimits {
  import opened Wrappers
  import opened RateLimiters

  // ---------------------------------------------------------------- refill

  lemma {:induction false} TimesIsProduct(n: nat, x: real)
    ensures Times(n, x) == n as real * x
  {
    if n > 0 {
      TimesIsProduct(n - 1, x);
    }
  }

  lemma {:induction false} TimesGrows(n: nat, x: real, y: real)
    requires x <= y
    ensures Times(n, x) <= Times(n, y)
  {
    if n > 0 {
      TimesGrows(n - 1, x, y);
    }
  }

  lemma {:induction false} TimesAdds(n: nat, x: real, y: real)
    ensures Times(n, x + y) == Times(n, x) + Times(n, y)
  {
    if n > 0 {
      TimesAdds(n - 1, x, y);
    }
  }

  lemma {:induction false} TimesNothing(n: nat)
    ensures Times(n, 0.0) == 0.0
  {
    if n > 0 {
      TimesNothing(n - 1);
    }
  }

  lemma {:induction false} TimesMinute(n: nat)
    ensures Times(n, STALE_AFTER) == (60 * n) as real
  {
    if n > 0 {
      TimesMinute(n - 1);
    }
  }

  lemma NotNegative(n: nat, x: real)
    requires x >= 0.0
    ensures Times(n, x) >= 0.0
  {
    TimesNothing(n);
    TimesGrows(n, 0.0, x);
  }

  // ---------------------------------------------------------------- runs

  /** Requests in the order in which they take the lock, the states and decisions of the limiter, and
      those of a limiter that keeps every bucket for ever. */
  datatype Run = Run(
    rs: seq<Request>,
    states: seq<State>, oks: seq<bool>,
    kept: seq<map<Key, Bucket>>, keptOks: seq<bool>)
  {
    predicate Sized() {
      |states| == |kept| == |rs| + 1 && |oks| == |keptOks| == |rs|
    }

    ghost predicate StepAt(c: Config, n: nat)
      requires Sized() && n < |rs|
    {
      && (states[n + 1], oks[n]) == Step(c, states[n], rs[n])
      && (kept[n + 1], keptOks[n]) == TakeFrom(c, kept[n], rs[n].key, rs[n].now)
    }

    ghost predicate Of(c: Config) {
      && Sized() && states[0] == State(map[], STALE_AFTER) && kept[0] == map[]
      && forall n: nat | n < |rs| :: StepAt(c, n)
    }

    /** Requests take the lock in the order of the times they read. */
    ghost predicate InOrder() {
      && (forall i | 0 <= i < |rs| :: rs[i].now >= 0.0)
      && (forall i, j | 0 <= i < j < |rs| :: rs[i].now <= rs[j].now)
    }

    /** The key is never the one dropped to make room. */
    ghost predicate Spared(k: Key)
      requires Sized()
    {
      forall n | 0 <= n < |rs| :: SparesAt(states[n], rs[n], k)
    }
  }

  predicate SparesAt(s: State, r: Request, k: Key) { Evicts(Cleaned(s, r.now), r) ==> r.victim != k }

  // ---------------------------------------------------------------- stale cleanup

  predicate Sane(c: Config, b: Bucket, now: real) {
    0.0 <= b.tokens <= c.Cap() && b.lastUpdate <= now
  }

  /** By the time `now` the bucket has filled up again. */
  predicate FullBy(c: Config, b: Bucket, now: real)
    requires b.lastUpdate <= now
  {
    b.tokens + Times(c.refill, now - b.lastUpdate) >= c.Cap()
  }

  /** A bucket that was dropped is one that has filled up. */
  predicate Agrees(c: Config, s: State, kept: map<Key, Bucket>, k: Key, now: real) {
    && s.nextCleanup >= STALE_AFTER
    && (k in kept ==> Sane(c, kept[k], now))
    && if k in s.buckets then k in kept && s.buckets[k] == kept[k]
       else k in kept ==> FullBy(c, kept[k], now)
  }

  lemma LaterAgrees(c: Config, s: State, kept: map<Key, Bucket>, k: Key, now: real, later: real)
    requires Agrees(c, s, kept, k, now) && now <= later
    ensures Agrees(c, s, kept, k, later)
  {
    if k !in s.buckets && k in kept {
      TimesGrows(c.refill, now - kept[k].lastUpdate, later - kept[k].lastUpdate);
    }
  }

  lemma CleaningAgrees(c: Config, s: State, kept: map<Key, Bucket>, k: Key, now: real)
    requires c.capacity <= 60 * c.refill && Agrees(c, s, kept, k, now)
    ensures Agrees(c, Cleaned(s, now), kept, k, now)
  {
    if k in s.buckets && k !in Cleaned(s, now).buckets {
      TimesMinute(c.refill);
      TimesGrows(c.refill, STALE_AFTER, now - kept[k].lastUpdate);
    }
  }

  lemma TakingSane(c: Config, b: Bucket, now: real)
    requires c.Limiting() && Sane(c, b, now)
    ensures Sane(c, Take(c, b, now).0, now)
  {
    NotNegative(c.refill, now - b.lastUpdate);
  }

  lemma TakingAgrees(c: Config, s: State, kept: map<Key, Bucket>, k: Key, key: Key, now: real)
    requires c.Limiting() && Agrees(c, s, kept, k, now)
    ensures
      var (buckets, ok) := TakeFrom(c, s.buckets, key, now);
      var (kept', ok') := TakeFrom(c, kept, key, now);
      Agrees(c, s.(buckets := buckets), kept', k, now) && (key == k ==> ok == ok')
  {
    if key == k {
      TimesNothing(c.refill);
      TakingSane(c, if k in kept then kept[k] else Bucket(now, c.Cap()), now);
    }
  }

  lemma StepAgrees(c: Config, s: State, kept: map<Key, Bucket>, k: Key, r: Request)
    requires c.Limiting() && c.capacity <= 60 * c.refill && Agrees(c, s, kept, k, r.now) && SparesAt(s, r, k)
    ensures
      var (s', ok) := Step(c, s, r);
      var (kept', ok') := TakeFrom(c, kept, r.key, r.now);
      Agrees(c, s', kept', k, r.now) && (r.key == k ==> ok == ok')
  {
    CleaningAgrees(c, s, kept, k, r.now);
    TakingAgrees(c, Evicted(Cleaned(s, r.now), r), kept, k, r.key, r.now);
  }

  ghost function TimeOf(run: Run, n: nat): real
    requires n <= |run.rs|
  {
    if n == 0 then 0.0 else run.rs[n - 1].now
  }

  lemma {:induction false} AgreesThroughout(c: Config, run: Run, k: Key, n: nat)
    requires c.Limiting() && c.capacity <= 60 * c.refill
    requires run.Of(c) && run.InOrder() && run.Spared(k) && n <= |run.rs|
    ensures Agrees(c, run.states[n], run.kept[n], k, TimeOf(run, n))
  {
    if n > 0 {
      AgreesThroughout(c, run, k, n - 1);
      var r := run.rs[n - 1];
      assert run.StepAt(c, n - 1) && SparesAt(run.states[n - 1], r, k);
      LaterAgrees(c, run.states[n - 1], run.kept[n - 1], k, TimeOf(run, n - 1), r.now);
      StepAgrees(c, run.states[n - 1], run.kept[n - 1], k, r);
    }
  }

  /** With a capacity that refills within a minute, dropping stale buckets changes no decision about
      a key that is never dropped for lack of room. */
  lemma CleanupIsNeutral(c: Config, run: Run, k: Key, n: nat)
    requires c.Limiting() && c.capacity <= 60 * c.refill
    requires run.Of(c) && run.InOrder() && run.Spared(k)
    requires n < |run.rs| && run.rs[n].key == k
    ensures run.oks[n] == run.keptOks[n]
  {
    AgreesThroughout(c, run, k, n);
    var r := run.rs[n];
    assert run.StepAt(c, n) && SparesAt(run.states[n], r, k);
    LaterAgrees(c, run.states[n], run.kept[n], k, TimeOf(run, n), r.now);
    StepAgrees(c, run.states[n], run.kept[n], k, r);
  }

  // ---------------------------------------------------------------- and only then

  /** A request for a bucket last used just now takes one of its tokens. */
  lemma Drains(c: Config, at: real, tokens: nat, cleanup: real)
    requires 1 <= tokens <= c.capacity && at < cleanup
    ensures
      var buckets := map[0 := Bucket(at, (tokens - 1) as real)];
      && Step(c, State(map[0 := Bucket(at, tokens as real)], cleanup), Request(0, at, 0))
         == (State(buckets, cleanup), true)
      && TakeFrom(c, map[0 := Bucket(at, tokens as real)], 0, at) == (buckets, true)
  {
    TimesNothing(c.refill);
    var before, after := map[0 := Bucket(at, tokens as real)], map[0 := Bucket(at, (tokens - 1) as real)];
    assert before[0 := Bucket(at, (tokens - 1) as real)] == after;
    assert Evicted(Cleaned(State(before, cleanup), at), Request(0, at, 0)) == State(before, cleanup);
  }

  /** A request for a key without a bucket opens a full one and takes one token. */
  lemma Opens(c: Config, at: real, cleanup: real)
    requires c.Limiting() && at < cleanup
    ensures
      var buckets := map[0 := Bucket(at, (c.capacity - 1) as real)];
      && Step(c, State(map[], cleanup), Request(0, at, 0)) == (State(buckets, cleanup), true)
      && TakeFrom(c, map[], 0, at) == (buckets, true)
  {
    TimesNothing(c.refill);
    assert Evicted(Cleaned(State(map[], cleanup), at), Request(0, at, 0)) == State(map[], cleanup);
  }

  /** After a minute the drained bucket is dropped and replaced by a full one. */
  lemma Reopens(c: Config)
    requires c.Limiting()
    ensures
      var buckets := map[0 := Bucket(STALE_AFTER, (c.capacity - 1) as real)];
      Step(c, State(map[0 := Bucket(0.0, 0.0)], STALE_AFTER), Request(0, STALE_AFTER, 0))
      == (State(buckets, STALE_AFTER + STALE_AFTER), true)
  {
    var cleaned := State(map[], STALE_AFTER + STALE_AFTER);
    assert Cleaned(State(map[0 := Bucket(0.0, 0.0)], STALE_AFTER), STALE_AFTER) == cleaned;
    TimesNothing(c.refill);
    assert Evicted(cleaned, Request(0, STALE_AFTER, 0)) == cleaned;
  }

  function Left(total: nat, taken: nat): nat { if taken <= total then total - taken else 0 }

  /** The bucket that was kept has only what a minute refills. */
  lemma KeptDrains(c: Config, b: Bucket, m: nat)
    requires c.Limiting() && c.capacity > 60 * c.refill && m > 0
    requires if m == 1 then b == Bucket(0.0, 0.0) else b == Bucket(STALE_AFTER, Left(60 * c.refill, m - 1) as real)
    ensures TakeFrom(c, map[0 := b], 0, STALE_AFTER)
         == (map[0 := Bucket(STALE_AFTER, Left(60 * c.refill, m) as real)], m <= 60 * c.refill)
  {
    TimesNothing(c.refill);
    TimesMinute(c.refill);
    var b' := Bucket(STALE_AFTER, Left(60 * c.refill, m) as real);
    assert map[0 := b][0 := b'] == map[0 := b'];
  }

  /** Drain the bucket, wait a minute, drain it again. */
  function BurstState(c: Config, n: nat): State {
    if n == 0 then State(map[], STALE_AFTER)
    else if n <= c.capacity then State(map[0 := Bucket(0.0, Left(c.capacity, n) as real)], STALE_AFTER)
    else State(map[0 := Bucket(STALE_AFTER, Left(c.capacity, n - c.capacity) as real)], STALE_AFTER + STALE_AFTER)
  }

  function BurstKept(c: Config, n: nat): map<Key, Bucket> {
    if n <= c.capacity then BurstState(c, n).buckets
    else map[0 := Bucket(STALE_AFTER, Left(60 * c.refill, n - c.capacity) as real)]
  }

  function BurstRequest(c: Config, n: nat): Request { Request(0, if n < c.capacity then 0.0 else STALE_AFTER, 0) }

  function TwoBursts(c: Config): Run {
    var m := 2 * c.capacity;
    Run(seq(m, n requires n >= 0 => BurstRequest(c, n)),
        seq(m + 1, n requires n >= 0 => BurstState(c, n)), seq(m, n => true),
        seq(m + 1, n requires n >= 0 => BurstKept(c, n)), seq(m, n => n < c.capacity + 60 * c.refill))
  }

  ghost predicate BurstStep(c: Config, n: nat) {
    && Step(c, BurstState(c, n), BurstRequest(c, n)) == (BurstState(c, n + 1), true)
    && TakeFrom(c, BurstKept(c, n), 0, BurstRequest(c, n).now) == (BurstKept(c, n + 1), n < c.capacity + 60 * c.refill)
  }

  lemma FirstBurst(c: Config, n: nat)
    requires c.Limiting() && n < c.capacity
    ensures BurstStep(c, n)
  {
    if n == 0 {
      Opens(c, 0.0, STALE_AFTER);
    } else {
      Drains(c, 0.0, c.capacity - n, STALE_AFTER);
    }
  }

  lemma BetweenBursts(c: Config)
    requires c.Limiting() && c.capacity > 60 * c.refill
    ensures BurstStep(c, c.capacity)
  {
    Reopens(c);
    KeptDrains(c, Bucket(0.0, 0.0), 1);
  }

  lemma SecondBurst(c: Config, n: nat)
    requires c.Limiting() && c.capacity > 60 * c.refill && c.capacity < n < 2 * c.capacity
    ensures BurstStep(c, n)
  {
    Drains(c, STALE_AFTER, 2 * c.capacity - n, STALE_AFTER + STALE_AFTER);
    KeptDrains(c, BurstKept(c, n)[0], n - c.capacity + 1);
  }

  /** Only then: otherwise two bursts of `capacity` requests a minute apart are all admitted, though
      a limiter that keeps its buckets refuses the last one. */
  lemma CleanupIsNotNeutral(c: Config)
    requires c.Limiting() && c.capacity > 60 * c.refill
    ensures
      var run := TwoBursts(c);
      && run.Of(c) && run.InOrder() && run.Spared(0)
      && run.oks[2 * c.capacity - 1] && !run.keptOks[2 * c.capacity - 1]
  {
    var run := TwoBursts(c);
    forall n: nat | n < |run.rs| ensures run.StepAt(c, n) {
      if n < c.capacity {
        FirstBurst(c, n);
      } else if n == c.capacity {
        BetweenBursts(c);
      } else {
        SecondBurst(c, n);
      }
      assert BurstStep(c, n);
    }
  }

  // ---------------------------------------------------------------- the quota

  /** How many requests of `k` among `rs[i..j]` are decided favourably. */
  function Admitted(rs: seq<Request>, oks: seq<bool>, k: Key, i: nat, j: nat): nat
    requires i <= j <= |rs| == |oks|
  {
    if i == j then 0
    else Admitted(rs, oks, k, i, j - 1) + if rs[j - 1].key == k && oks[j - 1] then 1 else 0
  }

  lemma {:induction false} KeptSane(c: Config, run: Run, k: Key, n: nat)
    requires c.Limiting() && run.Of(c) && run.InOrder() && n <= |run.rs|
    ensures k in run.kept[n] ==> Sane(c, run.kept[n][k], TimeOf(run, n))
  {
    if n > 0 {
      KeptSane(c, run, k, n - 1);
      assert run.StepAt(c, n - 1);
      var kept, r := run.kept[n - 1], run.rs[n - 1];
      if r.key == k {
        TakingSane(c, if k in kept then kept[k] else Bucket(r.now, c.Cap()), r.now);
      }
    }
  }

  /** What is left in the bucket and what was admitted together come from the capacity and the refill
      since the window began. */
  predicate Paid(c: Config, b: Bucket, admitted: nat, since: real) {
    since <= b.lastUpdate && admitted as real + b.tokens <= c.Cap() + Times(c.refill, b.lastUpdate - since)
  }

  lemma TakingIsPaid(c: Config, b: Bucket, admitted: nat, since: real, now: real)
    requires c.Limiting() && b.lastUpdate <= now && Paid(c, b, admitted, since)
    ensures
      var (b', ok) := Take(c, b, now);
      Paid(c, b', if ok then admitted + 1 else admitted, since)
  {
    TimesAdds(c.refill, now - b.lastUpdate, b.lastUpdate - since);
    assert now - b.lastUpdate + (b.lastUpdate - since) == now - since;
  }

  lemma FirstIsPaid(c: Config, b: Bucket, since: real, now: real)
    requires c.Limiting() && since <= now
    ensures
      var (b', ok) := Take(c, b, now);
      Paid(c, b', if ok then 1 else 0, since)
  {
    NotNegative(c.refill, now - since);
  }

  lemma {:induction false} WindowPaid(c: Config, run: Run, k: Key, i: nat, j: nat)
    requires c.Limiting() && run.Of(c) && run.InOrder() && i < j <= |run.rs|
    ensures
      var n := Admitted(run.rs, run.keptOks, k, i, j);
      n == 0 || (k in run.kept[j] && Paid(c, run.kept[j][k], n, run.rs[i].now))
    decreases j
  {
    var r, before := run.rs[j - 1], run.kept[j - 1];
    assert run.StepAt(c, j - 1);
    KeptSane(c, run, k, j - 1);
    if i < j - 1 {
      WindowPaid(c, run, k, i, j - 1);
    }
    if r.key == k {
      var b := if k in before then before[k] else Bucket(r.now, c.Cap());
      if Admitted(run.rs, run.keptOks, k, i, j - 1) == 0 {
        FirstIsPaid(c, b, run.rs[i].now, r.now);
      } else {
        TakingIsPaid(c, b, Admitted(run.rs, run.keptOks, k, i, j - 1), run.rs[i].now, r.now);
      }
    }
  }

  lemma {:induction false} SameAdmitted(c: Config, run: Run, k: Key, i: nat, j: nat)
    requires c.Limiting() && c.capacity <= 60 * c.refill
    requires run.Of(c) && run.InOrder() && run.Spared(k) && i <= j <= |run.rs|
    ensures Admitted(run.rs, run.oks, k, i, j) == Admitted(run.rs, run.keptOks, k, i, j)
    decreases j
  {
    if i < j {
      SameAdmitted(c, run, k, i, j - 1);
      if run.rs[j - 1].key == k {
        CleanupIsNeutral(c, run, k, j - 1);
      }
    }
  }

  lemma PaidWithin(c: Config, b: Bucket, admitted: nat, since: real, now: real)
    requires Paid(c, b, admitted, since) && Sane(c, b, now)
    ensures admitted as real <= c.Cap() + Times(c.refill, now - since)
  {
    TimesGrows(c.refill, b.lastUpdate - since, now - since);
  }

  /** In any window a key that is never dropped for lack of room is admitted at most its capacity
      plus what is refilled during the window. */
  lemma QuotaHolds(c: Config, run: Run, k: Key, i: nat, j: nat)
    requires c.Limiting() && c.capacity <= 60 * c.refill
    requires run.Of(c) && run.InOrder() && run.Spared(k) && i < j <= |run.rs|
    ensures Admitted(run.rs, run.oks, k, i, j) as real <= c.Cap() + Times(c.refill, run.rs[j - 1].now - run.rs[i].now)
  {
    var since, now := run.rs[i].now, run.rs[j - 1].now;
    SameAdmitted(c, run, k, i, j);
    WindowPaid(c, run, k, i, j);
    KeptSane(c, run, k, j);
    NotNegative(c.refill, now - since);
    if Admitted(run.rs, run.oks, k, i, j) > 0 {
      PaidWithin(c, run.kept[j][k], Admitted(run.rs, run.oks, k, i, j), since, now);
    }
  }

  // ---------------------------------------------------------------- and no less

  /** The bucket holds at least what a window that began at `since` has refilled, up to the capacity, less
      what was admitted in it. */
  predicate Owed(c: Config, b: Bucket, admitted: nat, since: real) {
    b.tokens >= Min(c.Cap(), Times(c.refill, b.lastUpdate - since)) - admitted as real
  }

  lemma TakingOwes(c: Config, b: Bucket, admitted: nat, since: real, now: real)
    requires c.Limiting() && Sane(c, b, now) && Owed(c, b, admitted, since)
    ensures
      var (b', ok) := Take(c, b, now);
      && Sane(c, b', now) && Owed(c, b', if ok then admitted + 1 else admitted, since)
      && (!ok ==> admitted as real + 1.0 > Min(c.Cap(), Times(c.refill, now - since)))
  {
    TakingSane(c, b, now);
    TimesAdds(c.refill, now - b.lastUpdate, b.lastUpdate - since);
    assert now - b.lastUpdate + (b.lastUpdate - since) == now - since;
    NotNegative(c.refill, now - b.lastUpdate);
  }

  /** A bucket that was dropped, for whatever reason, comes back full. */
  lemma FullIsOwed(c: Config, admitted: nat, since: real, now: real)
    ensures Sane(c, Bucket(now, c.Cap()), now) && Owed(c, Bucket(now, c.Cap()), admitted, since)
  {
  }

  lemma OldIsOwed(c: Config, b: Bucket, since: real)
    requires Sane(c, b, since)
    ensures Owed(c, b, 0, since)
  {
    TimesNothing(c.refill);
    TimesGrows(c.refill, b.lastUpdate - since, 0.0);
  }

  /** The bucket a request finds, if any, is one that was there. */
  lemma FoundWasThere(s: State, r: Request, k: Key)
    ensures
      var found := Evicted(Cleaned(s, r.now), r).buckets;
      k in found ==> k in s.buckets && found[k] == s.buckets[k]
  {
  }

  lemma {:induction false} Provided(c: Config, run: Run, k: Key, i: nat, j: nat)
    requires c.Limiting() && run.Of(c) && run.InOrder() && i <= j <= |run.rs| && i < |run.rs|
    ensures k in run.states[j].buckets ==>
      var b := run.states[j].buckets[k];
      Sane(c, b, TimeOf(run, j)) && (i < j ==> Owed(c, b, Admitted(run.rs, run.oks, k, i, j), run.rs[i].now))
    decreases j
  {
    if j > 0 {
      var r, s := run.rs[j - 1], run.states[j - 1];
      assert run.StepAt(c, j - 1);
      FoundWasThere(s, r, k);
      Provided(c, run, k, if i < j then i else j - 1, j - 1);
      if r.key == k {
        Served(c, run, k, if i < j then i else j - 1, j - 1);
      } else if i == j - 1 && k in s.buckets {
        OldIsOwed(c, s.buckets[k], r.now);
      }
    }
  }

  /** What a request for `k` leaves, given what it finds. */
  lemma Served(c: Config, run: Run, k: Key, i: nat, j: nat)
    requires c.Limiting() && run.Of(c) && run.InOrder() && i <= j < |run.rs| && run.rs[j].key == k
    requires k in run.states[j].buckets ==>
      var b := run.states[j].buckets[k];
      Sane(c, b, TimeOf(run, j)) && (i < j ==> Owed(c, b, Admitted(run.rs, run.oks, k, i, j), run.rs[i].now))
    ensures
      var since, admitted := run.rs[i].now, Admitted(run.rs, run.oks, k, i, j + 1);
      && k in run.states[j + 1].buckets
      && Sane(c, run.states[j + 1].buckets[k], run.rs[j].now)
      && Owed(c, run.states[j + 1].buckets[k], admitted, since)
      && (!run.oks[j] ==>
            Admitted(run.rs, run.oks, k, i, j) as real + 1.0 > Min(c.Cap(), Times(c.refill, run.rs[j].now - since)))
  {
    var r, s := run.rs[j], run.states[j];
    assert run.StepAt(c, j);
    FoundWasThere(s, r, k);
    var found, admitted := Evicted(Cleaned(s, r.now), r).buckets, Admitted(run.rs, run.oks, k, i, j);
    if k in found {
      if i == j {
        OldIsOwed(c, found[k], r.now);
      }
      TakingOwes(c, found[k], admitted, run.rs[i].now, r.now);
    } else {
      FullIsOwed(c, admitted, run.rs[i].now, r.now);
      TakingOwes(c, Bucket(r.now, c.Cap()), admitted, run.rs[i].now, r.now);
    }
  }

  /** Nobody is refused without need: in any window a request is admitted if, with it, no more have been
      admitted than the window has refilled, up to the capacity. This holds for every configuration and
      however buckets are dropped. */
  lemma PatientIsAdmitted(c: Config, run: Run, k: Key, i: nat, j: nat)
    requires c.Limiting() && run.Of(c) && run.InOrder() && i <= j < |run.rs| && run.rs[j].key == k
    requires
      var refilled := Times(c.refill, run.rs[j].now - run.rs[i].now);
      Admitted(run.rs, run.oks, k, i, j) as real + 1.0 <= Min(c.Cap(), refilled)
    ensures run.oks[j]
  {
    Provided(c, run, k, i, j);
    Served(c, run, k, i, j);
  }

  // ---------------------------------------------------------------- requests out of order

  /** The burst of `capacity` requests that read the time 1, followed by one that read 0 and one more
      that read 1. */
  function SwappedBuckets(c: Config, n: nat): map<Key, Bucket> {
    if n == 0 then map[]
    else if n <= c.capacity then map[0 := Bucket(1.0, Left(c.capacity, n) as real)]
    else if n == c.capacity + 1 then map[0 := Bucket(0.0, 0.0)]
    else map[0 := Bucket(1.0, (if c.refill <= c.capacity then c.refill else c.capacity) as real - 1.0)]
  }

  function SwappedRequest(c: Config, n: nat): Request { Request(0, if n == c.capacity then 0.0 else 1.0, 0) }

  function Swapped(c: Config): Run {
    var m := c.capacity + 2;
    var oks := seq(m, n => n != c.capacity);
    var kept := seq(m + 1, n requires n >= 0 => SwappedBuckets(c, n));
    Run(seq(m, n requires n >= 0 => SwappedRequest(c, n)),
        seq(m + 1, n requires n >= 0 => State(SwappedBuckets(c, n), STALE_AFTER)), oks, kept, oks)
  }

  ghost predicate SwappedStep(c: Config, n: nat) {
    var ok := n != c.capacity;
    && Step(c, State(SwappedBuckets(c, n), STALE_AFTER), SwappedRequest(c, n))
       == (State(SwappedBuckets(c, n + 1), STALE_AFTER), ok)
    && TakeFrom(c, SwappedBuckets(c, n), 0, SwappedRequest(c, n).now) == (SwappedBuckets(c, n + 1), ok)
  }

  lemma {:induction false} TimesOne(n: nat)
    ensures Times(n, 1.0) == n as real
  {
    if n > 0 {
      TimesOne(n - 1);
    }
  }

  /** The older time is written back, and the second that passed is refilled once more. */
  lemma SwappedBack(c: Config, n: nat)
    requires c.Limiting() && c.capacity <= n <= c.capacity + 1
    ensures SwappedStep(c, n)
  {
    TimesNothing(c.refill);
    TimesOne(c.refill);
    var before, after, r := SwappedBuckets(c, n), SwappedBuckets(c, n + 1), SwappedRequest(c, n);
    assert before[0 := after[0]] == after;
    assert Evicted(Cleaned(State(before, STALE_AFTER), r.now), r) == State(before, STALE_AFTER);
  }

  lemma SwappedSteps(c: Config, n: nat)
    requires c.Limiting() && n < c.capacity + 2
    ensures SwappedStep(c, n)
  {
    if n == 0 {
      Opens(c, 1.0, STALE_AFTER);
    } else if n < c.capacity {
      Drains(c, 1.0, c.capacity - n, STALE_AFTER);
    } else {
      SwappedBack(c, n);
    }
  }

  lemma {:induction false} SwappedAdmits(c: Config, n: nat)
    requires n <= c.capacity + 2
    ensures Admitted(Swapped(c).rs, Swapped(c).oks, 0, 0, n) == if n <= c.capacity then n else n - 1
  {
    if n > 0 {
      SwappedAdmits(c, n - 1);
    }
  }

  /** The times are read before the lock is taken. When two requests swap places in between, the
      older time is written back and the interval is refilled twice: whatever the limits, one request
      more than the capacity is admitted in a window of no length. */
  lemma SwappedTimesBreakTheQuota(c: Config)
    requires c.Limiting()
    ensures
      var run, m := Swapped(c), c.capacity + 2;
      && run.Of(c) && run.Spared(0) && !run.InOrder() && |run.rs| == m
      && Admitted(run.rs, run.oks, 0, 0, m) == c.capacity + 1
      && Admitted(run.rs, run.oks, 0, 0, m) as real > c.Cap() + Times(c.refill, run.rs[m - 1].now - run.rs[0].now)
  {
    var run := Swapped(c);
    forall n: nat | n < |run.rs| ensures run.StepAt(c, n) {
      SwappedSteps(c, n);
    }
    assert run.rs[c.capacity].now < run.rs[0].now;
    SwappedAdmits(c, c.capacity + 2);
    TimesNothing(c.refill);
  }
}
