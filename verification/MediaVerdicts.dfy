/** What one reconcile pass makes of a session, told by the session's rows and its node alone. */
module MediaVerdicts {
  import opened Wrappers
  import opened Media
  import opened MediaStore
  import opened MediaMigration
  import opened MediaReconcile
  import opened MediaPass

  /** The only live binding of session `sid` is `bid`. */
  ghost predicate Sole(t: Tables, sid: nat, bid: nat) {
    && sid in t.sessions && bid in t.bindings
    && t.bindings[bid].session == sid && LiveBindings(t, sid) == {bid}
  }

  predicate Wanted(s: Session) { s.desired == WantActive && !s.state.Stopped? && !s.state.Failed? }

  /** Both rows are as they were. */
  ghost predicate Kept(t: Tables, t': Tables, sid: nat, bid: nat)
    requires sid in t.sessions && bid in t.bindings
  {
    && sid in t'.sessions && t'.sessions[sid] == t.sessions[sid]
    && bid in t'.bindings && t'.bindings[bid] == t.bindings[bid]
  }

  /** The binding is over; the session is active in its next generation on the node that took it, or has
      failed, unless the node's refusal could not be recorded. */
  ghost predicate MovedOrFailed(trial: Trial, t: Tables, t': Tables, sid: nat, bid: nat)
    requires sid in t.sessions
  {
    && sid in t'.sessions && bid in t'.bindings
    && (t'.bindings[bid].state.Released? || t'.bindings[bid].state.Broken?)
    && var s, s' := t.sessions[sid], t'.sessions[sid];
       match trial
       case DeviceNotReady => s'.state.Failed? && s'.generation == s.generation
       case NoReservation => s'.state.Failed? && s'.generation == s.generation
       case Offer(node, _, answer, _) =>
         && s'.generation == s.generation + 1
         && if answer.Refused? then s'.state == if answer.fits then SessionState.Failed else s.state
            else s'.state.Active? && exists id :: BoundTo(t', id, sid, node)
  }

  /** The pass has dealt with the session through its only live binding. */
  lemma DealtWith(env: Env, t: Tables, t': Tables, pairs: set<Pair>, done: map<nat, Disposition>, sid: nat, bid: nat)
    requires Pass(env, t, t', pairs, done) && Sole(t, sid, bid)
    ensures
      var p := Pair(sid, t.sessions[sid], bid, t.bindings[bid]);
      && Proper(p) && sid in done && Carries(done[sid], Decide(env, p)) && Outcome(env, t', p, done[sid])
  {
    assert bid in LiveBindings(t, sid);
    assert HasPair(pairs, sid);
    var p :| p in pairs && p.sid == sid;
    assert p.bid in LiveBindings(t, sid);
    assert Carries(done[sid], Decide(env, p)) && Outcome(env, t', p, done[sid]);
  }

  lemma MigrationMeans(env: Env, t: Tables, t': Tables, p: Pair, d: Disposition)
    requires p.sid in t.sessions && t.sessions[p.sid] == p.session
    requires Outcome(env, t', p, d) && (d.Migrated? || d.MigrationFailed?)
    ensures MovedOrFailed(env.trial(p.sid), t, t', p.sid, p.bid)
  {
  }

  /** A session to be ended is stopped, or on its way there if it was active, and its binding released. */
  lemma EndedIsReleased(env: Env, t: Tables, t': Tables, pairs: set<Pair>, done: map<nat, Disposition>,
                        sid: nat, bid: nat)
    requires Pass(env, t, t', pairs, done) && Sole(t, sid, bid) && !Wanted(t.sessions[sid])
    ensures
      var s := t.sessions[sid];
      && sid in t'.sessions && bid in t'.bindings && t'.bindings[bid].state.Released?
      && if s.state.Stopped? || s.state.Failed? then t'.sessions[sid] == s
         else t'.sessions[sid]
              == s.(state := if s.state.Active? then Stopping else Stopped,
                    desired := WantStopped, revision := s.revision + 1)
  {
    DealtWith(env, t, t', pairs, done, sid, bid);
  }

  /** The node is listed and, if it has left, its lease has run out. */
  predicate ListedOpenly(env: Env, n: nat) {
    && n in env.listed
    && !(env.listed[n].left && env.listed[n].lease.Some? && env.now < env.listed[n].lease.value)
  }

  /** Reported at its own epoch the session is or becomes active where it is; reported at another epoch it
      fails; not reported, or on a node that is draining, it is moved. */
  ghost predicate ListedResult(env: Env, t: Tables, t': Tables, sid: nat, bid: nat)
    requires sid in t.sessions && bid in t.bindings && t.bindings[bid].node in env.listed
  {
    var s, b := t.sessions[sid], t.bindings[bid];
    && sid in t'.sessions && bid in t'.bindings
    && if env.listed[b.node].draining || b.node !in env.reported || sid !in env.reported[b.node]
       then MovedOrFailed(env.trial(sid), t, t', sid, bid)
       else if env.reported[b.node][sid] != b.instanceEpoch
       then t'.sessions[sid].state.Failed? && t'.bindings[bid].state.Broken?
       else
         && t'.sessions[sid].state.Active? && t'.sessions[sid].generation == s.generation
         && (s.state.Active? ==> t'.sessions[sid] == s)
         && t'.bindings[bid] ==
            if b.state.Reserved? || b.state.NeedsVerification?
            then b.(state := Bound, revision := b.revision + 1, updatedAt := env.stamp(sid)) else b
  }

  /** The end of the grace period of a mark: after the grace, which is capped, or in the far future if that
      time does not exist. */
  ghost function GraceEnds(env: Env, marked: nat): (end: nat)
    ensures env.grace <= I64_MAX && marked + env.grace <= env.latest ==> end == marked + env.grace
    ensures env.grace > I64_MAX && marked + I64_MAX <= env.latest ==> end == marked + I64_MAX
    ensures marked + env.grace > env.latest && marked + I64_MAX > env.latest ==> end == env.farFuture
  {
    env.Deadline(marked)
  }

  /** By what the second lookup finds: nothing, or a node that left and whose lease has run out, means the
      session is moved; a lease that holds means that it is left alone, if the node has left or is healthy;
      else an active session is marked first and moved once its grace is over, and any other is moved. */
  ghost predicate MissingResult(env: Env, t: Tables, t': Tables, sid: nat, bid: nat)
    requires sid in t.sessions && bid in t.bindings
  {
    var s, b := t.sessions[sid], t.bindings[bid];
    var n, at := b.node, env.lookedAt(b.node);
    && sid in t'.sessions && bid in t'.bindings
    && if n !in env.found then MovedOrFailed(env.trial(sid), t, t', sid, bid)
       else
         var node := env.found[n];
         var holds := node.lease.Some? && at < node.lease.value;
         if holds && (node.left || !node.unhealthy) then Kept(t, t', sid, bid)
         else if node.left || !s.state.Active? || !(b.state.Bound? || b.state.NeedsVerification?)
         then MovedOrFailed(env.trial(sid), t, t', sid, bid)
         else if b.state.Bound?
         then t'.sessions[sid] == s
              && t'.bindings[bid]
                 == b.(state := NeedsVerification, revision := b.revision + 1, updatedAt := env.stamp(sid))
         else if at < GraceEnds(env, b.updatedAt) then Kept(t, t', sid, bid)
         else MovedOrFailed(env.trial(sid), t, t', sid, bid)
  }

  lemma ListedDecides(env: Env, t: Tables, t': Tables, p: Pair, d: Disposition)
    requires Current(t, p) && Proper(p) && Wanted(p.session) && ListedOpenly(env, p.binding.node)
    requires Carries(d, Decide(env, p)) && Outcome(env, t', p, d)
    ensures ListedResult(env, t, t', p.sid, p.bid)
  {
    if d.Migrated? || d.MigrationFailed? {
      MigrationMeans(env, t, t', p, d);
    }
  }

  lemma MissingDecides(env: Env, t: Tables, t': Tables, p: Pair, d: Disposition)
    requires Current(t, p) && Proper(p) && Wanted(p.session) && !ListedOpenly(env, p.binding.node)
    requires Carries(d, Decide(env, p)) && Outcome(env, t', p, d)
    ensures MissingResult(env, t, t', p.sid, p.bid)
  {
    if d.Migrated? || d.MigrationFailed? {
      MigrationMeans(env, t, t', p, d);
    }
  }

  /** A pass over a wanted session with one live binding. */
  lemma PassDecides(env: Env, t: Tables, t': Tables, pairs: set<Pair>, done: map<nat, Disposition>, sid: nat, bid: nat)
    requires Pass(env, t, t', pairs, done) && Sole(t, sid, bid) && Wanted(t.sessions[sid])
    ensures if ListedOpenly(env, t.bindings[bid].node) then ListedResult(env, t, t', sid, bid)
            else MissingResult(env, t, t', sid, bid)
  {
    DealtWith(env, t, t', pairs, done, sid, bid);
    var p := Pair(sid, t.sessions[sid], bid, t.bindings[bid]);
    if ListedOpenly(env, p.binding.node) {
      ListedDecides(env, t, t', p, done[sid]);
    } else {
      MissingDecides(env, t, t', p, done[sid]);
    }
  }

  // ---------------------------------------------------------------- several passes

  /** The session's node, listed and not draining, reports it at its epoch. */
  ghost predicate Healthy(r: Record, sid: nat, bid: nat) {
    && Pass(r.env, r.before, r.after, r.pairs, r.done) && Sole(r.before, sid, bid)
    && var n := r.before.bindings[bid].node;
       && ListedOpenly(r.env, n) && !r.env.listed[n].draining
       && n in r.env.reported && sid in r.env.reported[n]
       && r.env.reported[n][sid] == r.before.bindings[bid].instanceEpoch
  }

  ghost predicate HealthyAt(run: seq<Record>, i: nat, sid: nat, bid: nat)
    requires i < |run|
  {
    Healthy(run[i], sid, bid)
  }

  ghost predicate HealthyRun(run: seq<Record>, sid: nat, bid: nat) {
    && (forall i: nat | i < |run| :: HealthyAt(run, i, sid, bid))
    && (forall i: nat | i + 1 < |run| :: RestAt(run, i, sid, bid))
  }

  ghost predicate HasRows(t: Tables, sid: nat, bid: nat, s: Session, b: Binding) {
    sid in t.sessions && t.sessions[sid] == s && bid in t.bindings && t.bindings[bid] == b
  }

  lemma HealthyOne(r: Record, sid: nat, bid: nat, s: Session, b: Binding)
    requires Healthy(r, sid, bid) && HasRows(r.before, sid, bid, s, b)
    requires Wanted(s) && s.state.Active? && b.state.Bound?
    ensures HasRows(r.after, sid, bid, s, b)
  {
    PassDecides(r.env, r.before, r.after, r.pairs, r.done, sid, bid);
  }

  ghost predicate KeepsAt(run: seq<Record>, i: nat, sid: nat, bid: nat, s: Session, b: Binding)
    requires i < |run|
  {
    HasRows(run[i].before, sid, bid, s, b) ==> HasRows(run[i].after, sid, bid, s, b)
  }

  lemma HealthyKeeps(run: seq<Record>, sid: nat, bid: nat, s: Session, b: Binding, i: nat)
    requires i < |run| && HealthyAt(run, i, sid, bid)
    requires Wanted(s) && s.state.Active? && b.state.Bound?
    ensures KeepsAt(run, i, sid, bid, s, b)
  {
    if HasRows(run[i].before, sid, bid, s, b) {
      HealthyOne(run[i], sid, bid, s, b);
    }
  }

  lemma {:induction false} KeptThroughout(run: seq<Record>, sid: nat, bid: nat, s: Session, b: Binding, i: nat)
    requires i < |run| && HasRows(run[0].before, sid, bid, s, b)
    requires forall k: nat | k < |run| :: KeepsAt(run, k, sid, bid, s, b)
    requires forall k: nat | k + 1 < |run| :: RestAt(run, k, sid, bid)
    ensures HasRows(run[i].before, sid, bid, s, b) && HasRows(run[i].after, sid, bid, s, b)
  {
    if i > 0 {
      KeptThroughout(run, sid, bid, s, b, i - 1);
      assert RestAt(run, i - 1, sid, bid);
    }
    assert KeepsAt(run, i, sid, bid, s, b);
  }

  /** However many passes run, a wanted session that is active and bound and stays healthy keeps both rows
      exactly as they are. */
  lemma HealthyIsLeftAlone(run: seq<Record>, sid: nat, bid: nat, s: Session, b: Binding, i: nat)
    requires HealthyRun(run, sid, bid) && i < |run| && HasRows(run[0].before, sid, bid, s, b)
    requires Wanted(s) && s.state.Active? && b.state.Bound?
    ensures HasRows(run[i].before, sid, bid, s, b) && HasRows(run[i].after, sid, bid, s, b)
  {
    forall k: nat | k < |run| ensures KeepsAt(run, k, sid, bid, s, b) {
      HealthyKeeps(run, sid, bid, s, b, k);
    }
    KeptThroughout(run, sid, bid, s, b, i);
  }
}
