/** One reconcile pass over the media sessions of a tenant: what it decides for every session it
    finds, what it does to the rows, and what its report counts. */
module MediaReconcile {
  import opened Wrappers
  import opened Media
  import opened MediaStore
  import opened MediaMigration

  datatype Node = Node(left: bool, lease: Option<nat>, unhealthy: bool, draining: bool)

  datatype Class = Gone | Suspect | Protected

  /** `classify_inactive_node`. */
  function Classify(node: Option<Node>, now: nat): Class {
    if node.None? then Gone
    else
      var expired := node.value.lease.None? || now >= node.value.lease.value;
      if node.value.left then (if expired then Gone else Protected)
      else if expired || node.value.unhealthy then Suspect else Protected
  }

  const I64_MAX: nat := 0x7fff_ffff_ffff_ffff

  /** What the pass learns from its surroundings. Times are in milliseconds; `latest` is the last
      representable one and `farFuture` stands in for a deadline beyond it. */
  datatype Env = Env(
    listed: map<nat, Node>, now: nat,
    reported: map<nat, map<nat, nat>>,
    found: map<nat, Node>, lookedAt: nat -> nat,
    stamp: nat -> nat,
    grace: nat, latest: nat, farFuture: nat,
    trial: nat -> Trial)
  {
    function Deadline(since: nat): nat {
      var g := if grace <= I64_MAX then grace else I64_MAX;
      if since + g <= latest then since + g else farFuture
    }

    /** A deregistered node inside its protection lease. */
    predicate Shielded(n: nat) {
      n in listed && listed[n].left && listed[n].lease.Some? && now < listed[n].lease.value
    }

    function Reported(n: nat): map<nat, nat> { if n in reported then reported[n] else map[] }

    function Found(n: nat): Option<Node> { if n in found then Some(found[n]) else None }
  }

  datatype Decision = Release | Fail | Converge | Migrate | Verify | Leave

  datatype Disposition = Released | Failed | Converged | Migrated | MigrationFailed | Marked | LeftAlone

  predicate Releasable(p: Pair) { p.session.desired == WantStopped || p.session.state.Terminal() }

  /** On a node that is listed and answers. */
  function OnListed(env: Env, p: Pair): Decision
    requires p.binding.node in env.listed
  {
    var reported := env.Reported(p.binding.node);
    if env.listed[p.binding.node].draining then Migrate
    else if p.sid !in reported then Migrate
    else if reported[p.sid] != p.binding.instanceEpoch then Fail
    else Converge
  }

  /** On any other node, by its class and the time of the lookup. */
  function OnMissing(env: Env, kind: Class, p: Pair): Decision {
    match kind
    case Gone => Migrate
    case Protected => Leave
    case Suspect =>
      if !p.session.state.Active? then Migrate
      else if p.binding.state.Bound? then Verify
      else if !p.binding.state.NeedsVerification? then Migrate
      else if env.lookedAt(p.binding.node) >= env.Deadline(p.binding.updatedAt) then Migrate
      else Leave
  }

  function ClassOf(env: Env, n: nat): Class { Classify(env.Found(n), env.lookedAt(n)) }

  /** What a pass is to do with a session, from its own rows and its node alone. */
  function Decide(env: Env, p: Pair): Decision {
    var n := p.binding.node;
    if Releasable(p) then Release
    else if n in env.listed && !env.Shielded(n) then OnListed(env, p)
    else OnMissing(env, ClassOf(env, n), p)
  }

  predicate Carries(d: Disposition, decision: Decision) {
    match decision
    case Release => d.Released?
    case Fail => d.Failed?
    case Converge => d.Converged?
    case Migrate => d.Migrated? || d.MigrationFailed?
    case Verify => d.Marked?
    case Leave => d.LeftAlone?
  }

  /** A node was offered and did not refuse. */
  predicate Willing(trial: Trial) { trial.Offer? && !trial.answer.Refused? }

  ghost predicate Rebound(t: Tables, sid: nat, node: nat) { exists id :: BoundTo(t, id, sid, node) }

  /** What each disposition means for the rows. */
  ghost predicate Outcome(env: Env, t: Tables, p: Pair, d: Disposition) {
    && p.sid in t.sessions && p.bid in t.bindings
    && var s, b, now := t.sessions[p.sid], t.bindings[p.bid], env.stamp(p.sid);
       match d
       case Released =>
         && b.state.Released?
         && if p.session.state.Terminal() then s == p.session else Some(s) == p.session.Stop()
       case Failed => s == FailedSession(p.session) && b == BrokenBinding(p.binding, now)
       case Converged =>
         && s.state.Active? && s.generation == p.session.generation && (p.session.state.Active? ==> s == p.session)
         && b == Verified(p.binding, now)
       case Migrated =>
         && Willing(env.trial(p.sid)) && b.state.Terminal()
         && s.state.Active? && s.generation == p.session.generation + 1
         && Rebound(t, p.sid, env.trial(p.sid).node)
       case MigrationFailed =>
         && !Willing(env.trial(p.sid)) && b.state.Terminal()
         && s.generation == p.session.generation + (if env.trial(p.sid).Offer? then 1 else 0)
         && s.state == if Unrecordable(env.trial(p.sid)) then p.session.state else SessionState.Failed
       case Marked => s == p.session && Some(b) == p.binding.To(NeedsVerification, now)
       case LeftAlone => s == p.session && b == p.binding
  }

  /** Handling `p` touches nobody else's rows; only a migration adds bindings, and they are `p`'s. */
  ghost predicate Around(t: Tables, t': Tables, p: Pair, d: Disposition) {
    && t'.sessions.Keys == t.sessions.Keys
    && (forall id | id in t.sessions && id != p.sid :: t'.sessions[id] == t.sessions[id])
    && t.bindings.Keys <= t'.bindings.Keys
    && (forall id | id in t.bindings && id != p.bid :: t'.bindings[id] == t.bindings[id])
    && (forall id | id in t'.bindings && id !in t.bindings ::
          t'.bindings[id].session == p.sid && (d.Migrated? || d.MigrationFailed?))
  }

  ghost predicate Did(env: Env, t: Tables, t': Tables, p: Pair, d: Disposition) {
    Around(t, t', p, d) && Outcome(env, t', p, d)
  }

  /** Storage that works, and no other writer while a media node is being asked. */
  ghost predicate Calm(uow: UnitOfWork, env: Env)
    reads uow
  {
    uow.reliable && forall sid :: Quiet(env.trial(sid))
  }

  /** A pair as the pass may hold it. */
  predicate Proper(p: Pair) { p.session.Sound() && !p.binding.state.Terminal() && p.binding.session == p.sid }

  // ---------------------------------------------------------------- one session

  method ReleaseRow(uow: UnitOfWork, bid: nat, copy: Binding, now: nat) returns (ok: bool)
    requires BindingCopy(uow.working, bid, copy) && !copy.state.Terminal()
    modifies uow`working
    ensures Later(old(uow.working), uow.working)
    ensures uow.working.sessions == old(uow.working.sessions)
    ensures bid in uow.working.bindings
    ensures uow.working.bindings == old(uow.working.bindings)[bid := uow.working.bindings[bid]]
    ensures uow.reliable && old(uow.working.bindings[bid]) == copy ==> ok
    ensures ok ==> uow.working.bindings[bid].state.Released?
    ensures old(Good(uow.base, uow.working)) && ok ==> Good(uow.base, uow.working)
  {
    var b := copy;
    ok := true;
    if !b.state.Releasing? {
      ok := uow.AppendAndSaveBinding(bid, b, b.To(Releasing, now).value);
      if !ok { return; }
      b := b.To(Releasing, now).value;
    }
    ok := uow.AppendAndSaveBinding(bid, b, b.To(BindingState.Released, now).value);
  }

  method ReleaseBinding(uow: UnitOfWork, env: Env, p: Pair) returns (ok: bool)
    requires CopiedFrom(uow.working, p) && Proper(p)
    modifies uow`working
    ensures Later(old(uow.working), uow.working)
    ensures uow.reliable && old(Current(uow.working, p)) ==>
      && ok && Did(env, old(uow.working), uow.working, p, Disposition.Released)
      && (old(Good(uow.base, uow.working)) ==> Good(uow.base, uow.working))
  {
    ok := true;
    if !p.session.state.Terminal() {
      ok := uow.AppendAndSaveSession(p.sid, p.session, p.session.Stop().value);
      if !ok { return; }
    }
    ghost var t := uow.working;
    ok := ReleaseRow(uow, p.bid, p.binding, env.stamp(p.sid));
    LaterChains(old(uow.working), t, uow.working);
  }

  method Move(uow: UnitOfWork, env: Env, p: Pair) returns (ok: bool, d: Disposition)
    requires CopiedFrom(uow.working, p) && Proper(p) && !Releasable(p)
    modifies uow
    ensures ok ==> Later(old(uow.working), uow.working) && Carries(d, Migrate)
    ensures Calm(uow, env) && old(Current(uow.working, p)) ==>
      && ok && Did(env, old(uow.working), uow.working, p, d)
      && (old(Good(uow.base, uow.working)) ==> Good(uow.base, uow.working))
  {
    var moved;
    assert Quiet(env.trial(p.sid)) || !Calm(uow, env);
    ok, moved := MigrateOrFail(uow, p, env.trial(p.sid), env.stamp(p.sid));
    d := if moved then Migrated else MigrationFailed;
  }

  /** A session on a listed node. */
  method Repair(uow: UnitOfWork, env: Env, p: Pair) returns (ok: bool, d: Disposition)
    requires CopiedFrom(uow.working, p) && Proper(p) && !Releasable(p)
    requires p.binding.node in env.listed && !env.Shielded(p.binding.node)
    modifies uow
    ensures ok ==> Later(old(uow.working), uow.working) && Carries(d, Decide(env, p))
    ensures Calm(uow, env) && old(Current(uow.working, p)) ==>
      && ok && Did(env, old(uow.working), uow.working, p, d)
      && (old(Good(uow.base, uow.working)) ==> Good(uow.base, uow.working))
  {
    var reported := env.Reported(p.binding.node);
    if env.listed[p.binding.node].draining || p.sid !in reported {
      ok, d := Move(uow, env, p);
    } else if reported[p.sid] != p.binding.instanceEpoch {
      d := Disposition.Failed;
      ok := FailSession(uow, p, env.stamp(p.sid));
    } else {
      d := Converged;
      var s;
      ok, s := ConvergeActive(uow, p, env.stamp(p.sid));
    }
  }

  /** A session on a node that is not listed, or shielded. */
  method Attend(uow: UnitOfWork, env: Env, kind: Class, p: Pair) returns (ok: bool, d: Disposition)
    requires CopiedFrom(uow.working, p) && Proper(p) && !Releasable(p)
    requires !kind.Protected?
    modifies uow
    ensures ok ==> Later(old(uow.working), uow.working) && Carries(d, OnMissing(env, kind, p))
    ensures Calm(uow, env) && old(Current(uow.working, p)) ==>
      && ok && Did(env, old(uow.working), uow.working, p, d)
      && (old(Good(uow.base, uow.working)) ==> Good(uow.base, uow.working))
  {
    if kind.Gone? || !p.session.state.Active? || p.binding.state !in {Bound, NeedsVerification} {
      ok, d := Move(uow, env, p);
    } else if p.binding.state.Bound? {
      d := Marked;
      ok := uow.AppendAndSaveBinding(p.bid, p.binding, p.binding.To(NeedsVerification, env.stamp(p.sid)).value);
    } else if env.lookedAt(p.binding.node) >= env.Deadline(p.binding.updatedAt) {
      ok, d := Move(uow, env, p);
    } else {
      ok, d := true, LeftAlone;
    }
  }

  // ---------------------------------------------------------------- the whole pass

  /** The counters that depend on what happened to a session. */
  datatype Report = Report(released: nat, failed: nat, migrated: nat, migrationFailed: nat, marked: nat)

  function Counted(r: Report, d: Disposition): Report {
    match d
    case Released => r.(released := r.released + 1)
    case Failed => r.(failed := r.failed + 1)
    case Migrated => r.(migrated := r.migrated + 1)
    case MigrationFailed => r.(migrationFailed := r.migrationFailed + 1)
    case Marked => r.(marked := r.marked + 1)
    case _ => r
  }

  /** How many sessions ended up with `d`. */
  ghost function Count(done: map<nat, Disposition>, d: Disposition): nat { |Having(done, d)| }

  ghost function Having(done: map<nat, Disposition>, d: Disposition): set<nat> {
    set sid | sid in done && done[sid] == d
  }

  ghost predicate Tally(r: Report, done: map<nat, Disposition>) {
    && r.released == Count(done, Disposition.Released)
    && r.failed == Count(done, Disposition.Failed)
    && r.migrated == Count(done, Migrated)
    && r.migrationFailed == Count(done, MigrationFailed)
    && r.marked == Count(done, Marked)
  }

  lemma CountGrows(done: map<nat, Disposition>, sid: nat, d: Disposition, e: Disposition)
    requires sid !in done
    ensures Count(done[sid := d], e) == Count(done, e) + if d == e then 1 else 0
  {
    var before, after := Having(done, e), Having(done[sid := d], e);
    assert after == if d == e then before + {sid} else before;
  }

  lemma TallyGrows(r: Report, done: map<nat, Disposition>, sid: nat, d: Disposition)
    requires Tally(r, done) && sid !in done
    ensures Tally(Counted(r, d), done[sid := d])
  {
    CountGrows(done, sid, d, Disposition.Released);
    CountGrows(done, sid, d, Disposition.Failed);
    CountGrows(done, sid, d, Migrated);
    CountGrows(done, sid, d, MigrationFailed);
    CountGrows(done, sid, d, Marked);
  }

  ghost predicate HasPair(pairs: set<Pair>, sid: nat) { exists p :: p in pairs && p.sid == sid }

  ghost predicate HasBinding(pairs: set<Pair>, bid: nat) { exists p :: p in pairs && p.bid == bid }

  /** Every session that has a live binding, once, with one such binding. */
  ghost predicate Snapshot(t: Tables, pairs: set<Pair>) {
    && (forall p | p in pairs :: Current(t, p) && Proper(p))
    && (forall p, q | p in pairs && q in pairs && p.sid == q.sid :: p == q)
    && (forall bid | bid in t.bindings && !t.bindings[bid].state.Terminal() && t.bindings[bid].session in t.sessions ::
          HasPair(pairs, t.bindings[bid].session))
  }

  /** The decisions carried out so far. */
  ghost predicate Carried(env: Env, pairs: set<Pair>, done: map<nat, Disposition>) {
    forall p | p in pairs && p.sid in done :: Carries(done[p.sid], Decide(env, p))
  }

  /** The sessions done have the outcome of their disposition, those to come are as they were. */
  ghost predicate Outcomes(env: Env, t: Tables, pairs: set<Pair>, done: map<nat, Disposition>) {
    && (forall p | p in pairs && p.sid in done :: Outcome(env, t, p, done[p.sid]))
    && (forall p | p in pairs && p.sid !in done :: Current(t, p))
  }

  /** Rows outside the snapshot never change; new bindings belong to migrated sessions. */
  ghost predicate Surroundings(t0: Tables, t: Tables, pairs: set<Pair>, done: map<nat, Disposition>) {
    && t.sessions.Keys == t0.sessions.Keys && t0.bindings.Keys <= t.bindings.Keys
    && (forall sid | sid in t0.sessions && !HasPair(pairs, sid) :: t.sessions[sid] == t0.sessions[sid])
    && (forall bid | bid in t0.bindings && !HasBinding(pairs, bid) :: t.bindings[bid] == t0.bindings[bid])
    && (forall bid | bid in t.bindings && bid !in t0.bindings ::
          var sid := t.bindings[bid].session;
          sid in done && (done[sid].Migrated? || done[sid].MigrationFailed?))
  }

  ghost predicate Progress(env: Env, t0: Tables, t: Tables, pairs: set<Pair>, done: map<nat, Disposition>) {
    Outcomes(env, t, pairs, done) && Surroundings(t0, t, pairs, done)
  }

  lemma OutcomesStep(env: Env, t0: Tables, t: Tables, t': Tables, pairs: set<Pair>, done: map<nat, Disposition>,
                     p: Pair, d: Disposition)
    requires Snapshot(t0, pairs) && Outcomes(env, t, pairs, done) && p in pairs && p.sid !in done
    requires Did(env, t, t', p, d)
    ensures Outcomes(env, t', pairs, done[p.sid := d])
  {
    forall q | q in pairs && q != p ensures Current(t, q) ==> Current(t', q)
      ensures forall e :: Outcome(env, t, q, e) ==> Outcome(env, t', q, e)
    {
      assert Current(t0, q) && Current(t0, p);
      OutcomeStays(env, t, t', p, d, q);
    }
  }

  /** Handling one session changes nothing about the outcome of another. */
  lemma OutcomeStays(env: Env, t: Tables, t': Tables, p: Pair, d: Disposition, q: Pair)
    requires Around(t, t', p, d) && Current(t, p) && Proper(p) && q.sid != p.sid && q.bid != p.bid
    ensures Current(t, q) ==> Current(t', q)
    ensures forall e :: Outcome(env, t, q, e) ==> Outcome(env, t', q, e)
  {
    forall node | Rebound(t, q.sid, node) ensures Rebound(t', q.sid, node) {
      var id :| BoundTo(t, id, q.sid, node);
      assert BoundTo(t', id, q.sid, node);
    }
  }

  lemma SurroundingsStep(t0: Tables, t: Tables, t': Tables, pairs: set<Pair>, done: map<nat, Disposition>, p: Pair,
                         d: Disposition)
    requires Surroundings(t0, t, pairs, done) && p in pairs && p.sid !in done && Around(t, t', p, d)
    requires HasPair(pairs, p.sid) && HasBinding(pairs, p.bid) && p.bid in t0.bindings
    ensures Surroundings(t0, t', pairs, done[p.sid := d])
  {
    forall bid | bid in t'.bindings && bid !in t0.bindings
      ensures
        var sid, more := t'.bindings[bid].session, done[p.sid := d];
        sid in more && (more[sid].Migrated? || more[sid].MigrationFailed?)
    {
      if bid in t.bindings && bid != p.bid {
        assert t'.bindings[bid] == t.bindings[bid];
      }
    }
  }

  lemma ProgressStep(env: Env, t0: Tables, t: Tables, t': Tables, pairs: set<Pair>, done: map<nat, Disposition>,
                     p: Pair, d: Disposition)
    requires Snapshot(t0, pairs) && Progress(env, t0, t, pairs, done) && p in pairs && p.sid !in done
    requires Did(env, t, t', p, d)
    ensures Progress(env, t0, t', pairs, done[p.sid := d])
  {
    OutcomesStep(env, t0, t, t', pairs, done, p, d);
    assert HasPair(pairs, p.sid) && HasBinding(pairs, p.bid) && Current(t0, p);
    SurroundingsStep(t0, t, t', pairs, done, p, d);
  }

  /** Everything the pass maintains about the sessions in `pairs`. */
  ghost predicate Ledger(uow: UnitOfWork, env: Env, t0: Tables, pairs: set<Pair>, done: map<nat, Disposition>,
                         r: Report)
    reads uow
  {
    && Snapshot(t0, pairs)
    && Later(t0, uow.working)
    && Carried(env, pairs, done)
    && Tally(r, done)
    && (Calm(uow, env) ==> Progress(env, t0, uow.working, pairs, done) && Good(uow.base, uow.working))
  }

  lemma LedgerStep(uow: UnitOfWork, env: Env, t0: Tables, t: Tables, pairs: set<Pair>, done: map<nat, Disposition>,
                   r: Report, p: Pair, d: Disposition)
    requires Snapshot(t0, pairs) && Later(t0, t) && Carried(env, pairs, done) && Tally(r, done)
    requires p in pairs && p.sid !in done && Carries(d, Decide(env, p)) && Later(t, uow.working)
    requires Calm(uow, env) ==>
      Progress(env, t0, t, pairs, done) && Did(env, t, uow.working, p, d) && Good(uow.base, uow.working)
    ensures Ledger(uow, env, t0, pairs, done[p.sid := d], Counted(r, d))
  {
    LaterChains(t0, t, uow.working);
    TallyGrows(r, done, p.sid, d);
    if Calm(uow, env) {
      ProgressStep(env, t0, t, uow.working, pairs, done, p, d);
    }
  }

  // ---------------------------------------------------------------- collecting

  function Flat(pages: seq<seq<nat>>): seq<nat> {
    if pages == [] then [] else Flat(pages[..|pages| - 1]) + pages[|pages| - 1]
  }

  lemma {:induction false} FlatPrefix(pages: seq<seq<nat>>, i: nat)
    requires i <= |pages|
    ensures Flat(pages[..i]) <= Flat(pages)
    decreases |pages| - i
  {
    if i == |pages| {
      assert pages[..i] == pages;
    } else {
      FlatPrefix(pages, i + 1);
      assert pages[..i + 1][..i] == pages[..i];
    }
  }

  /** The pages list every session once. */
  ghost predicate Listing(t: Tables, pages: seq<seq<nat>>) {
    var ids := Flat(pages);
    && (forall i, j | 0 <= i < j < |ids| :: ids[i] != ids[j])
    && (forall sid :: sid in ids <==> sid in t.sessions)
  }

  ghost predicate Distinct(list: seq<Pair>) {
    forall i, j | 0 <= i < j < |list| :: list[i].sid != list[j].sid
  }

  /** The two collections the pass sorts its pairs into. */
  ghost predicate Grouped(pairs: set<Pair>, toRelease: seq<Pair>, byNode: map<nat, seq<Pair>>) {
    && Distinct(toRelease)
    && (forall p :: p in toRelease <==> p in pairs && Releasable(p))
    && (forall n | n in byNode :: Distinct(byNode[n]))
    && (forall n, p | n in byNode :: p in byNode[n] <==> p in pairs && !Releasable(p) && p.binding.node == n)
    && (forall p | p in pairs && !Releasable(p) :: p.binding.node in byNode)
  }

  /** The snapshot of the sessions seen so far. */
  ghost predicate Picked(t: Tables, seen: seq<nat>, pairs: set<Pair>) {
    && (forall p | p in pairs :: Current(t, p) && Proper(p) && p.sid in seen)
    && (forall p, q | p in pairs && q in pairs && p.sid == q.sid :: p == q)
    && (forall bid | bid in t.bindings && !t.bindings[bid].state.Terminal() && t.bindings[bid].session in seen ::
          HasPair(pairs, t.bindings[bid].session))
  }

  lemma PickedOne(t: Tables, seen: seq<nat>, pairs: set<Pair>, p: Pair)
    requires Picked(t, seen, pairs) && p.sid !in seen && Current(t, p) && Proper(p)
    ensures Picked(t, seen + [p.sid], pairs + {p})
  {
    var wider := pairs + {p};
    assert HasPair(wider, p.sid);
    forall sid | HasPair(pairs, sid) ensures HasPair(wider, sid) {
      var q :| q in pairs && q.sid == sid;
      assert q in wider;
    }
  }

  lemma GroupedOne(pairs: set<Pair>, toRelease: seq<Pair>, byNode: map<nat, seq<Pair>>, p: Pair)
    requires Grouped(pairs, toRelease, byNode) && forall q | q in pairs :: q.sid != p.sid
    ensures
      if Releasable(p) then Grouped(pairs + {p}, toRelease + [p], byNode)
      else
        var list := if p.binding.node in byNode then byNode[p.binding.node] else [];
        Grouped(pairs + {p}, toRelease, byNode[p.binding.node := list + [p]])
  {
    if Releasable(p) {
      assert forall q | q in toRelease :: q in pairs;
    } else if p.binding.node in byNode {
      assert forall q | q in byNode[p.binding.node] :: q in pairs;
    }
  }

  /** The live bindings of a session; the repository returns one of them. */
  function LiveBindings(t: Tables, sid: nat): set<nat> {
    set bid | bid in t.bindings && t.bindings[bid].session == sid && !t.bindings[bid].state.Terminal()
  }

  method Collect(uow: UnitOfWork, pages: seq<seq<nat>>)
    returns (toRelease: seq<Pair>, byNode: map<nat, seq<Pair>>, ghost pairs: set<Pair>)
    requires Listing(uow.working, pages)
    requires forall sid | sid in uow.working.sessions :: uow.working.sessions[sid].Sound()
    ensures Snapshot(uow.working, pairs) && Grouped(pairs, toRelease, byNode)
  {
    var t := uow.working;
    toRelease, byNode, pairs := [], map[], {};
    ghost var seen := [];
    for i := 0 to |pages|
      invariant seen == Flat(pages[..i])
      invariant Picked(t, seen, pairs) && Grouped(pairs, toRelease, byNode)
    {
      FlatPrefix(pages, i + 1);
      assert pages[..i + 1][..i] == pages[..i];
      ghost var start := seen;
      for j := 0 to |pages[i]|
        invariant seen == start + pages[i][..j]
        invariant Picked(t, seen, pairs) && Grouped(pairs, toRelease, byNode)
      {
        var sid := pages[i][j];
        assert start + pages[i][..j + 1] == seen + [sid];
        assert seen + [sid] <= Flat(pages);
        assert sid !in seen && sid in t.sessions by {
          assert Flat(pages)[|seen|] == sid;
          assert forall k | 0 <= k < |seen| :: seen[k] == Flat(pages)[k];
        }
        var live := LiveBindings(t, sid);
        if live != {} {
          var bid :| bid in live;
          var p := Pair(sid, t.sessions[sid], bid, t.bindings[bid]);
          PickedOne(t, seen, pairs, p);
          GroupedOne(pairs, toRelease, byNode, p);
          if Releasable(p) {
            toRelease := toRelease + [p];
          } else {
            var list := if p.binding.node in byNode then byNode[p.binding.node] else [];
            byNode := byNode[p.binding.node := list + [p]];
          }
          pairs := pairs + {p};
        } else {
          assert forall bid | bid in t.bindings && t.bindings[bid].session == sid :: bid !in live;
        }
        seen := seen + [sid];
      }
      assert pages[i][..|pages[i]|] == pages[i];
    }
    assert pages[..|pages|] == pages;
  }
}
