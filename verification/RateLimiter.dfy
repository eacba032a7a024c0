/** The token-bucket rate limiter. Times are seconds since the limiter was created, and arithmetic
    is exact. */
module RateLimiters {
  import opened Wrappers

  type Key = nat

  datatype Bucket = Bucket(lastUpdate: real, tokens: real)

  const MAX_ENTRIES: nat := 10_000

  datatype Config = Config(capacity: nat, refill: nat) {
    /** A zero capacity or refill rate switches the limiter off. */
    predicate Limiting() { capacity > 0 && refill > 0 }

    function Cap(): real { capacity as real }
  }

  datatype State = State(buckets: map<Key, Bucket>, nextCleanup: real)

  const STALE_AFTER: real := 60.0

  /** `n` times `x`, as a sum: what `x` seconds refill at a rate of `n` tokens a second. */
  function Times(n: nat, x: real): real {
    if n == 0 then 0.0 else Times(n - 1, x) + x
  }

  function Min(a: real, b: real): real { if a <= b then a else b }

  /** `victim` is the key the map happens to yield first. */
  datatype Request = Request(key: Key, now: real, victim: Key)

  /** Drops the buckets not touched for `STALE_AFTER`. */
  function Cleaned(s: State, now: real): State {
    if now < s.nextCleanup then s
    else
      var deadline := if now >= STALE_AFTER then now - STALE_AFTER else now;
      State(map k | k in s.buckets && s.buckets[k].lastUpdate > deadline :: s.buckets[k], now + STALE_AFTER)
  }

  predicate Evicts(s: State, r: Request) {
    r.key !in s.buckets && |s.buckets| >= MAX_ENTRIES && r.victim in s.buckets
  }

  function Evicted(s: State, r: Request): State {
    if Evicts(s, r) then s.(buckets := s.buckets - {r.victim}) else s
  }

  /** Refills a bucket up to `now` and takes a token if there is one. */
  function Take(c: Config, b: Bucket, now: real): (Bucket, bool) {
    var elapsed := if now >= b.lastUpdate then now - b.lastUpdate else 0.0;
    var tokens := Min(b.tokens + Times(c.refill, elapsed), c.Cap());
    if tokens >= 1.0 then (Bucket(now, tokens - 1.0), true) else (Bucket(now, tokens), false)
  }

  function TakeFrom(c: Config, buckets: map<Key, Bucket>, key: Key, now: real): (map<Key, Bucket>, bool) {
    var b := if key in buckets then buckets[key] else Bucket(now, c.Cap());
    var (b', ok) := Take(c, b, now);
    (buckets[key := b'], ok)
  }

  function Step(c: Config, s: State, r: Request): (State, bool) {
    var s1 := Evicted(Cleaned(s, r.now), r);
    var (buckets, ok) := TakeFrom(c, s1.buckets, r.key, r.now);
    (s1.(buckets := buckets), ok)
  }

  class RateLimiter {
    const config: Config
    var state: State

    constructor (config: Config)
      ensures this.config == config && state == State(map[], STALE_AFTER) && Valid()
    {
      this.config, state := config, State(map[], STALE_AFTER);
    }

    /** The bucket map never exceeds its bound. */
    ghost predicate Valid()
      reads this
    {
      |state.buckets| <= MAX_ENTRIES && state.nextCleanup >= STALE_AFTER
    }

    method CleanUp(now: real)
      requires Valid()
      modifies this
      ensures Valid() && state == Cleaned(old(state), now)
    {
      if now >= state.nextCleanup {
        var deadline := if now >= STALE_AFTER then now - STALE_AFTER else now;
        var kept := map k | k in state.buckets && state.buckets[k].lastUpdate > deadline :: state.buckets[k];
        SubsetSize(kept.Keys, state.buckets.Keys);
        // What is kept is within the bound, so the loop that drops the oldest buckets has nothing to do.
        assert |kept| <= MAX_ENTRIES;
        state := State(kept, now + STALE_AFTER);
      }
    }

    method MakeRoom(key: Key, now: real) returns (ghost r: Request)
      requires Valid()
      modifies this
      ensures Valid() && state == Evicted(old(state), r) && r.key == key && r.now == now
      ensures key in state.buckets || |state.buckets| < MAX_ENTRIES
    {
      r := Request(key, now, key);
      if key !in state.buckets && |state.buckets| >= MAX_ENTRIES {
        assert state.buckets.Keys != {};
        var victim :| victim in state.buckets;
        r := Request(key, now, victim);
        assert (state.buckets - {victim}).Keys == state.buckets.Keys - {victim};
        state := state.(buckets := state.buckets - {victim});
      }
    }

    /** `check`. A limiter that is switched off lets everything through. */
    method Check(key: Key, now: real) returns (ok: bool, ghost r: Request)
      requires Valid()
      modifies this
      ensures Valid() && r.key == key && r.now == now
      ensures if config.Limiting() then (state, ok) == Step(config, old(state), r) else ok && state == old(state)
    {
      r := Request(key, now, key);
      if config.capacity == 0 || config.refill == 0 {
        return true, r;
      }
      CleanUp(now);
      r := MakeRoom(key, now);
      var (buckets, admitted) := TakeFrom(config, state.buckets, key, now);
      assert buckets.Keys == state.buckets.Keys + {key};
      state := state.(buckets := buckets);
      ok := admitted;
    }
  }
}
