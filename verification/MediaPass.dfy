/** The reconcile pass as a whole, and what happens to a session over several passes. */
module MediaPass {
  import opened Wrappers
  import opened Media
  import opened MediaStore
  import opened MediaMigration
  import opened MediaReconcile

  ghost function Sids(list: seq<Pair>): set<nat> { set k | 0 <= k < |list| :: list[k].sid }

  /** `list` still has to be dealt with. */
  ghost predicate Open(list: seq<Pair>, pairs: set<Pair>, done: map<nat, Disposition>) {
    && Distinct(list)
    && forall k | 0 <= k < |list| :: list[k] in pairs && list[k].sid !in done
  }

  lemma SidsGrow(list: seq<Pair>, i: nat)
    requires i < |list|
    ensures Sids(list[..i + 1]) == Sids(list[..i]) + {list[i].sid}
  {
    var longer := list[..i + 1];
    forall sid | sid in Sids(longer) ensures sid in Sids(list[..i]) + {list[i].sid} {
      var k :| 0 <= k < |longer| && longer[k].sid == sid;
      assert k < i ==> list[..i][k] == longer[k];
    }
    forall sid | sid in Sids(list[..i]) ensures sid in Sids(longer) {
      var k :| 0 <= k < i && list[..i][k].sid == sid;
      assert longer[k] == list[..i][k];
    }
    assert longer[i] == list[i];
  }

  /** The session at `i` is open once those before it are done. */
  lemma NextIsOpen(list: seq<Pair>, pairs: set<Pair>, was: map<nat, Disposition>, done: map<nat, Disposition>, i: nat)
    requires Open(list, pairs, was) && i < |list| && done.Keys == was.Keys + Sids(list[..i])
    ensures list[i] in pairs && list[i].sid !in done
  {
    forall k | 0 <= k < i ensures list[..i][k].sid != list[i].sid {
      assert list[..i][k] == list[k];
    }
  }

  method ReleaseAll(uow: UnitOfWork, env: Env, list: seq<Pair>, ghost t0: Tables, ghost pairs: set<Pair>)
    returns (ok: bool, r: Report, ghost done: map<nat, Disposition>)
    requires Ledger(uow, env, t0, pairs, map[], Report(0, 0, 0, 0, 0)) && Open(list, pairs, map[])
    requires forall k | 0 <= k < |list| :: Releasable(list[k])
    modifies uow`working
    ensures ok ==> Ledger(uow, env, t0, pairs, done, r) && done.Keys == Sids(list)
    ensures Calm(uow, env) ==> ok
  {
    ok, r, done := true, Report(0, 0, 0, 0, 0), map[];
    for i := 0 to |list|
      invariant Ledger(uow, env, t0, pairs, done, r) && done.Keys == Sids(list[..i])
    {
      NextIsOpen(list, pairs, map[], done, i);
      ghost var t := uow.working;
      CopySurvives(t0, t, list[i]);
      ok := ReleaseBinding(uow, env, list[i]);
      if !ok { return; }
      LedgerStep(uow, env, t0, t, pairs, done, r, list[i], Disposition.Released);
      SidsGrow(list, i);
      done := done[list[i].sid := Disposition.Released];
      r := Counted(r, Disposition.Released);
    }
    assert list[..|list|] == list;
  }

  method RepairOne(uow: UnitOfWork, env: Env, p: Pair, r: Report,
                   ghost t0: Tables, ghost pairs: set<Pair>, ghost done: map<nat, Disposition>)
    returns (ok: bool, r': Report, ghost done': map<nat, Disposition>)
    requires Ledger(uow, env, t0, pairs, done, r) && p in pairs && p.sid !in done && !Releasable(p)
    requires p.binding.node in env.listed && !env.Shielded(p.binding.node)
    modifies uow
    ensures ok ==> Ledger(uow, env, t0, pairs, done', r') && done'.Keys == done.Keys + {p.sid}
    ensures Calm(uow, env) ==> ok
  {
    ghost var t := uow.working;
    CopySurvives(t0, t, p);
    var e;
    ok, e := Repair(uow, env, p);
    r', done' := Counted(r, e), done[p.sid := e];
    if ok {
      LedgerStep(uow, env, t0, t, pairs, done, r, p, e);
    }
  }

  method AttendOne(uow: UnitOfWork, env: Env, p: Pair, r: Report,
                   ghost t0: Tables, ghost pairs: set<Pair>, ghost done: map<nat, Disposition>)
    returns (ok: bool, r': Report, ghost done': map<nat, Disposition>)
    requires Ledger(uow, env, t0, pairs, done, r) && p in pairs && p.sid !in done && !Releasable(p)
    requires p.binding.node in env.listed ==> env.Shielded(p.binding.node)
    requires !ClassOf(env, p.binding.node).Protected?
    modifies uow
    ensures ok ==> Ledger(uow, env, t0, pairs, done', r') && done'.Keys == done.Keys + {p.sid}
    ensures Calm(uow, env) ==> ok
  {
    ghost var t := uow.working;
    CopySurvives(t0, t, p);
    var e;
    ok, e := Attend(uow, env, ClassOf(env, p.binding.node), p);
    r', done' := Counted(r, e), done[p.sid := e];
    if ok {
      LedgerStep(uow, env, t0, t, pairs, done, r, p, e);
    }
  }

  /** The session at `i`, those before it being done. */
  method RepairNext(uow: UnitOfWork, env: Env, n: nat, list: seq<Pair>, i: nat, r: Report,
                    ghost t0: Tables, ghost pairs: set<Pair>, ghost was: map<nat, Disposition>,
                    ghost done: map<nat, Disposition>)
    returns (ok: bool, r': Report, ghost done': map<nat, Disposition>)
    requires Ledger(uow, env, t0, pairs, done, r) && Open(list, pairs, was) && i < |list|
    requires done.Keys == was.Keys + Sids(list[..i])
    requires n in env.listed && !env.Shielded(n)
    requires !Releasable(list[i]) && list[i].binding.node == n
    modifies uow
    ensures ok ==> Ledger(uow, env, t0, pairs, done', r') && done'.Keys == was.Keys + Sids(list[..i + 1])
    ensures Calm(uow, env) ==> ok
  {
    NextIsOpen(list, pairs, was, done, i);
    SidsGrow(list, i);
    ok, r', done' := RepairOne(uow, env, list[i], r, t0, pairs, done);
  }

  /** The sessions of a listed node. */
  method RepairAll(uow: UnitOfWork, env: Env, n: nat, list: seq<Pair>, r: Report,
                   ghost t0: Tables, ghost pairs: set<Pair>, ghost done: map<nat, Disposition>)
    returns (ok: bool, r': Report, ghost done': map<nat, Disposition>)
    requires Ledger(uow, env, t0, pairs, done, r) && Open(list, pairs, done)
    requires n in env.listed && !env.Shielded(n)
    requires forall k | 0 <= k < |list| :: !Releasable(list[k]) && list[k].binding.node == n
    modifies uow
    ensures ok ==> Ledger(uow, env, t0, pairs, done', r') && done'.Keys == done.Keys + Sids(list)
    ensures Calm(uow, env) ==> ok
  {
    ok, r', done' := true, r, done;
    for i := 0 to |list|
      invariant Ledger(uow, env, t0, pairs, done', r') && done'.Keys == done.Keys + Sids(list[..i])
    {
      ok, r', done' := RepairNext(uow, env, n, list, i, r', t0, pairs, done, done');
      if !ok { return; }
    }
    assert list[..|list|] == list;
  }

  /** The session at `i`, those before it being done. */
  method AttendNext(uow: UnitOfWork, env: Env, n: nat, list: seq<Pair>, i: nat, r: Report,
                    ghost t0: Tables, ghost pairs: set<Pair>, ghost was: map<nat, Disposition>,
                    ghost done: map<nat, Disposition>)
    returns (ok: bool, r': Report, ghost done': map<nat, Disposition>)
    requires Ledger(uow, env, t0, pairs, done, r) && Open(list, pairs, was) && i < |list|
    requires done.Keys == was.Keys + Sids(list[..i])
    requires (n in env.listed ==> env.Shielded(n)) && !ClassOf(env, n).Protected?
    requires !Releasable(list[i]) && list[i].binding.node == n
    modifies uow
    ensures ok ==> Ledger(uow, env, t0, pairs, done', r') && done'.Keys == was.Keys + Sids(list[..i + 1])
    ensures Calm(uow, env) ==> ok
  {
    NextIsOpen(list, pairs, was, done, i);
    SidsGrow(list, i);
    ok, r', done' := AttendOne(uow, env, list[i], r, t0, pairs, done);
  }

  /** The sessions of a node that is gone or suspect. */
  method AttendAll(uow: UnitOfWork, env: Env, n: nat, list: seq<Pair>, r: Report,
                   ghost t0: Tables, ghost pairs: set<Pair>, ghost done: map<nat, Disposition>)
    returns (ok: bool, r': Report, ghost done': map<nat, Disposition>)
    requires Ledger(uow, env, t0, pairs, done, r) && Open(list, pairs, done)
    requires (n in env.listed ==> env.Shielded(n)) && !ClassOf(env, n).Protected?
    requires forall k | 0 <= k < |list| :: !Releasable(list[k]) && list[k].binding.node == n
    modifies uow
    ensures ok ==> Ledger(uow, env, t0, pairs, done', r') && done'.Keys == done.Keys + Sids(list)
    ensures Calm(uow, env) ==> ok
  {
    ok, r', done' := true, r, done;
    for i := 0 to |list|
      invariant Ledger(uow, env, t0, pairs, done', r') && done'.Keys == done.Keys + Sids(list[..i])
    {
      ok, r', done' := AttendNext(uow, env, n, list, i, r', t0, pairs, done, done');
      if !ok { return; }
    }
    assert list[..|list|] == list;
  }

  /** Nothing is done for a protected node, and that is the right thing. */
  lemma {:induction false} LeaveAll(uow: UnitOfWork, env: Env, n: nat, list: seq<Pair>, i: nat, r: Report,
                 t0: Tables, pairs: set<Pair>, done: map<nat, Disposition>) returns (done': map<nat, Disposition>)
    requires Ledger(uow, env, t0, pairs, done, r) && Open(list, pairs, done) && i <= |list|
    requires (n in env.listed ==> env.Shielded(n)) && ClassOf(env, n).Protected?
    requires forall k | 0 <= k < |list| :: !Releasable(list[k]) && list[k].binding.node == n
    ensures Ledger(uow, env, t0, pairs, done', r) && done'.Keys == done.Keys + Sids(list[..i])
  {
    if i == 0 {
      done' := done;
    } else {
      var before := LeaveAll(uow, env, n, list, i - 1, r, t0, pairs, done);
      NextIsOpen(list, pairs, done, before, i - 1);
      LeaveOne(uow, env, list[i - 1], r, t0, pairs, before);
      SidsGrow(list, i - 1);
      done' := before[list[i - 1].sid := LeftAlone];
    }
  }

  lemma LeaveOne(uow: UnitOfWork, env: Env, p: Pair, r: Report, t0: Tables, pairs: set<Pair>, done: map<nat,
                 Disposition>)
    requires Ledger(uow, env, t0, pairs, done, r) && p in pairs && p.sid !in done && !Releasable(p)
    requires p.binding.node in env.listed ==> env.Shielded(p.binding.node)
    requires ClassOf(env, p.binding.node).Protected?
    ensures Ledger(uow, env, t0, pairs, done[p.sid := LeftAlone], r)
  {
    LaterSelf(uow.working);
    LedgerStep(uow, env, t0, uow.working, pairs, done, r, p, LeftAlone);
  }

  lemma LaterSelf(t: Tables)
    ensures Later(t, t)
  {
  }

  // ---------------------------------------------------------------- node by node

  /** Exactly the sessions to release and those on the nodes in `nodes` are done. */
  ghost predicate Handled(pairs: set<Pair>, done: map<nat, Disposition>, nodes: set<nat>) {
    && (forall p | p in pairs :: p.sid in done <==> Releasable(p) || p.binding.node in nodes)
    && (forall sid | sid in done :: HasPair(pairs, sid))
  }

  /** The list of a node that is not handled is open, and handling it handles the node. */
  lemma NodeIsOpen(t0: Tables, pairs: set<Pair>, toRelease: seq<Pair>, byNode: map<nat, seq<Pair>>,
                   done: map<nat, Disposition>, nodes: set<nat>, n: nat)
    requires Snapshot(t0, pairs) && Grouped(pairs, toRelease, byNode) && Handled(pairs, done, nodes)
    requires n in byNode && n !in nodes
    ensures Open(byNode[n], pairs, done)
    ensures forall k | 0 <= k < |byNode[n]| :: !Releasable(byNode[n][k]) && byNode[n][k].binding.node == n
  {
    forall k | 0 <= k < |byNode[n]| ensures byNode[n][k] in pairs && byNode[n][k].sid !in done
      ensures !Releasable(byNode[n][k]) && byNode[n][k].binding.node == n
    {
      assert byNode[n][k] in byNode[n];
    }
  }

  lemma NodeHandled(t0: Tables, pairs: set<Pair>, toRelease: seq<Pair>, byNode: map<nat, seq<Pair>>,
                    done: map<nat, Disposition>, done': map<nat, Disposition>, nodes: set<nat>, n: nat)
    requires Snapshot(t0, pairs) && Grouped(pairs, toRelease, byNode) && Handled(pairs, done, nodes)
    requires n in byNode && n !in nodes && done'.Keys == done.Keys + Sids(byNode[n])
    ensures Handled(pairs, done', nodes + {n})
  {
    var list := byNode[n];
    forall p | p in pairs ensures p.sid in done' <==> Releasable(p) || p.binding.node in nodes + {n} {
      if p.sid in Sids(list) {
        var k :| 0 <= k < |list| && list[k].sid == p.sid;
        assert list[k] in list;
        assert list[k] == p;
      }
      if !Releasable(p) && p.binding.node == n {
        assert p in list;
        var k :| 0 <= k < |list| && list[k] == p;
        assert list[k].sid in Sids(list);
      }
    }
    forall sid | sid in done' ensures HasPair(pairs, sid) {
      if sid !in done {
        var k :| 0 <= k < |list| && list[k].sid == sid;
        assert list[k] in list;
      }
    }
  }

  lemma ReleasedHandled(pairs: set<Pair>, toRelease: seq<Pair>, byNode: map<nat, seq<Pair>>, done: map<nat,
                        Disposition>, t0: Tables)
    requires Snapshot(t0, pairs) && Grouped(pairs, toRelease, byNode) && done.Keys == Sids(toRelease)
    ensures Handled(pairs, done, {})
  {
    forall p | p in pairs ensures p.sid in done <==> Releasable(p) {
      if p.sid in Sids(toRelease) {
        var k :| 0 <= k < |toRelease| && toRelease[k].sid == p.sid;
        assert toRelease[k] in toRelease;
        assert toRelease[k] == p;
      }
      if Releasable(p) {
        var k :| 0 <= k < |toRelease| && toRelease[k] == p;
        assert toRelease[k].sid in Sids(toRelease);
      }
    }
    forall sid | sid in done ensures HasPair(pairs, sid) {
      var k :| 0 <= k < |toRelease| && toRelease[k].sid == sid;
      assert toRelease[k] in toRelease;
    }
  }

  lemma OneLess(all: set<nat>, todo: set<nat>, n: nat)
    requires n in todo && todo <= all
    ensures all - (todo - {n}) == (all - todo) + {n}
  {
  }

  method RepairNode(uow: UnitOfWork, env: Env, n: nat, byNode: map<nat, seq<Pair>>, r: Report,
                    ghost t0: Tables, ghost pairs: set<Pair>, ghost toRelease: seq<Pair>,
                    ghost done: map<nat, Disposition>, ghost nodes: set<nat>)
    returns (ok: bool, r': Report, ghost done': map<nat, Disposition>)
    requires Ledger(uow, env, t0, pairs, done, r) && Grouped(pairs, toRelease, byNode) && Handled(pairs, done, nodes)
    requires n in byNode && n !in nodes && n in env.listed && !env.Shielded(n)
    modifies uow
    ensures ok ==> Ledger(uow, env, t0, pairs, done', r') && Handled(pairs, done', nodes + {n})
    ensures Calm(uow, env) ==> ok
  {
    NodeIsOpen(t0, pairs, toRelease, byNode, done, nodes, n);
    ok, r', done' := RepairAll(uow, env, n, byNode[n], r, t0, pairs, done);
    if !ok { return; }
    NodeHandled(t0, pairs, toRelease, byNode, done, done', nodes, n);
    ok := uow.Commit();
  }

  /** The listed nodes that host sessions, in any order. */
  method FirstPass(uow: UnitOfWork, env: Env, byNode: map<nat, seq<Pair>>, r: Report,
                   ghost t0: Tables, ghost pairs: set<Pair>, ghost toRelease: seq<Pair>, ghost done: map<nat,
                   Disposition>)
    returns (ok: bool, r': Report, rest: set<nat>, ghost done': map<nat, Disposition>)
    requires Ledger(uow, env, t0, pairs, done, r) && Grouped(pairs, toRelease, byNode) && Handled(pairs, done, {})
    modifies uow
    ensures ok ==>
      && Ledger(uow, env, t0, pairs, done', r')
      && rest <= byNode.Keys && Handled(pairs, done', byNode.Keys - rest)
      && forall n | n in rest :: n in env.listed ==> env.Shielded(n)
    ensures Calm(uow, env) ==> ok
  {
    ok, r', done' := true, r, done;
    rest := set n | n in byNode.Keys && (n !in env.listed || env.Shielded(n));
    var visited := byNode.Keys - rest;
    var todo := visited;
    while todo != {}
      invariant todo <= visited
      invariant Ledger(uow, env, t0, pairs, done', r') && Handled(pairs, done', visited - todo)
      decreases |todo|
    {
      var n :| n in todo;
      ghost var nodes := visited - todo;
      OneLess(visited, todo, n);
      todo := todo - {n};
      ok, r', done' := RepairNode(uow, env, n, byNode, r', t0, pairs, toRelease, done', nodes);
      if !ok { return; }
    }
  }

  /** The nodes left over, each looked up again. */
  method SecondPass(uow: UnitOfWork, env: Env, byNode: map<nat, seq<Pair>>, rest: set<nat>, r: Report,
                    ghost t0: Tables, ghost pairs: set<Pair>, ghost toRelease: seq<Pair>, ghost done: map<nat,
                    Disposition>)
    returns (ok: bool, r': Report, ghost done': map<nat, Disposition>)
    requires Ledger(uow, env, t0, pairs, done, r) && Grouped(pairs, toRelease, byNode)
    requires rest <= byNode.Keys && Handled(pairs, done, byNode.Keys - rest)
    requires forall n | n in rest :: n in env.listed ==> env.Shielded(n)
    modifies uow
    ensures ok ==> Ledger(uow, env, t0, pairs, done', r') && Handled(pairs, done', byNode.Keys)
    ensures Calm(uow, env) ==> ok
  {
    ok, r', done' := true, r, done;
    var todo := rest;
    while todo != {}
      invariant todo <= rest
      invariant Ledger(uow, env, t0, pairs, done', r') && Handled(pairs, done', byNode.Keys - todo)
      decreases |todo|
    {
      var n :| n in todo;
      ghost var nodes, before := byNode.Keys - todo, done';
      NodeIsOpen(t0, pairs, toRelease, byNode, done', nodes, n);
      OneLess(byNode.Keys, todo, n);
      todo := todo - {n};
      if ClassOf(env, n).Protected? {
        done' := LeaveAll(uow, env, n, byNode[n], |byNode[n]|, r', t0, pairs, done');
        assert byNode[n][..|byNode[n]|] == byNode[n];
        NodeHandled(t0, pairs, toRelease, byNode, before, done', nodes, n);
      } else {
        ok, r', done' := AttendAll(uow, env, n, byNode[n], r', t0, pairs, done');
        if !ok { return; }
        NodeHandled(t0, pairs, toRelease, byNode, before, done', nodes, n);
        ok := uow.Commit();
        if !ok { return; }
      }
    }
    assert byNode.Keys - todo == byNode.Keys;
  }

  /** What a pass from `t` to `t'` does: one disposition for every session with a live binding, the
      one its rows and its node call for, with the effect the disposition stands for. */
  ghost predicate Pass(env: Env, t: Tables, t': Tables, pairs: set<Pair>, done: map<nat, Disposition>) {
    && Snapshot(t, pairs)
    && (forall sid :: sid in done <==> HasPair(pairs, sid))
    && Carried(env, pairs, done)
    && Progress(env, t, t', pairs, done)
    && Later(t, t')
  }

  /** `reconcile`. A pass that succeeds has given every session of its snapshot exactly one
      disposition and counted it. On working storage without other writers it always succeeds, has
      the effects `Pass` describes, and leaves the tables explained by the outbox. */
  method Reconcile(uow: UnitOfWork, env: Env, pages: seq<seq<nat>>)
    returns (ok: bool, r: Report, ghost pairs: set<Pair>, ghost done: map<nat, Disposition>)
    requires uow.Fresh() && Listing(uow.committed, pages)
    modifies uow
    ensures ok ==>
      && Snapshot(old(uow.committed), pairs)
      && (forall sid :: sid in done <==> HasPair(pairs, sid))
      && Carried(env, pairs, done)
      && Tally(r, done)
    ensures Calm(uow, env) ==>
      ok && Pass(env, old(uow.committed), uow.committed, pairs, done) && uow.Fresh()
  {
    ghost var t0 := uow.working;
    var toRelease, byNode, rest;
    toRelease, byNode, pairs := Collect(uow, pages);
    assert Count(map[], Disposition.Released) == 0;
    assert forall d :: Having(map[], d) == {};
    assert Open(toRelease, pairs, map[]) by {
      assert forall k | 0 <= k < |toRelease| :: toRelease[k] in toRelease;
    }
    ok, r, done := ReleaseAll(uow, env, toRelease, t0, pairs);
    if !ok { return; }
    ReleasedHandled(pairs, toRelease, byNode, done, t0);
    ok := uow.Commit();
    if !ok { return; }
    ok, r, rest, done := FirstPass(uow, env, byNode, r, t0, pairs, toRelease, done);
    if !ok { return; }
    ok, r, done := SecondPass(uow, env, byNode, rest, r, t0, pairs, toRelease, done);
    if !ok { return; }
    forall sid | HasPair(pairs, sid) ensures sid in done {
      var p :| p in pairs && p.sid == sid;
      assert p.sid in done;
    }
    ok := uow.Commit();
  }

  // ---------------------------------------------------------------- several passes

  /** The node is registered but its lease has run out or it is unhealthy. */
  predicate Suspected(env: Env, n: nat) { n !in env.listed && ClassOf(env, n).Suspect? }

  /** An active session whose only live binding is `bid`. */
  ghost predicate Lives(t: Tables, sid: nat, bid: nat, n: nat) {
    && sid in t.sessions && bid in t.bindings
    && t.sessions[sid].state.Active? && t.sessions[sid].desired == WantActive
    && t.bindings[bid].session == sid && t.bindings[bid].node == n && !t.bindings[bid].state.Terminal()
    && LiveBindings(t, sid) == {bid}
  }

  /** What one pass does to such a session. */
  lemma OnePass(env: Env, t: Tables, t': Tables, pairs: set<Pair>, done: map<nat, Disposition>, sid: nat, bid: nat,
                n: nat)
    requires Pass(env, t, t', pairs, done) && Lives(t, sid, bid, n) && Suspected(env, n)
    ensures
      var p := Pair(sid, t.sessions[sid], bid, t.bindings[bid]);
      && sid in done && Carries(done[sid], OnMissing(env, Suspect, p)) && Outcome(env, t', p, done[sid])
      && (done[sid].Marked? || done[sid].LeftAlone? ==> Lives(t', sid, bid, n))
  {
    FoundOne(env, t, t', pairs, done, sid, bid, n);
    if done[sid].Marked? || done[sid].LeftAlone? {
      StaysAlive(env, t, t', pairs, done, sid, bid, n);
    }
  }

  /** The pass found the session with its only live binding. */
  lemma FoundOne(env: Env, t: Tables, t': Tables, pairs: set<Pair>, done: map<nat, Disposition>,
                 sid: nat, bid: nat, n: nat)
    requires Pass(env, t, t', pairs, done) && Lives(t, sid, bid, n) && Suspected(env, n)
    ensures
      var p := Pair(sid, t.sessions[sid], bid, t.bindings[bid]);
      sid in done && Carries(done[sid], OnMissing(env, Suspect, p)) && Outcome(env, t', p, done[sid])
  {
    assert HasPair(pairs, sid);
    var p :| p in pairs && p.sid == sid;
    assert p.bid in LiveBindings(t, sid);
    assert Carries(done[sid], Decide(env, p)) && Outcome(env, t', p, done[sid]);
  }

  lemma StaysAlive(env: Env, t: Tables, t': Tables, pairs: set<Pair>, done: map<nat, Disposition>,
                   sid: nat, bid: nat, n: nat)
    requires Pass(env, t, t', pairs, done) && Lives(t, sid, bid, n)
    requires sid in done && (done[sid].Marked? || done[sid].LeftAlone?)
    requires Outcome(env, t', Pair(sid, t.sessions[sid], bid, t.bindings[bid]), done[sid])
    ensures Lives(t', sid, bid, n)
  {
    forall b | b in LiveBindings(t', sid) ensures b == bid {
      NoNewLife(env, t, t', pairs, done, sid, b);
    }
  }

  /** A session that is not migrated gains no live binding. */
  lemma NoNewLife(env: Env, t: Tables, t': Tables, pairs: set<Pair>, done: map<nat, Disposition>, sid: nat, bid: nat)
    requires Pass(env, t, t', pairs, done) && bid in LiveBindings(t', sid)
    requires sid in done ==> !done[sid].Migrated? && !done[sid].MigrationFailed?
    ensures bid in LiveBindings(t, sid)
  {
    assert bid in t.bindings;
    assert BindingCopy(t', bid, t.bindings[bid]);
    if HasBinding(pairs, bid) {
      var q :| q in pairs && q.bid == bid;
      assert Current(t, q) && Proper(q);
    }
  }

  datatype Record = Record(env: Env, before: Tables, after: Tables, pairs: set<Pair>, done: map<nat, Disposition>)

  /** The session's rows, and which of its bindings are live, are the same. */
  ghost predicate Undisturbed(t: Tables, t': Tables, sid: nat, bid: nat) {
    && sid in t.sessions && bid in t.bindings && sid in t'.sessions && bid in t'.bindings
    && t'.sessions[sid] == t.sessions[sid] && t'.bindings[bid] == t.bindings[bid]
    && LiveBindings(t', sid) == LiveBindings(t, sid)
  }

  ghost predicate PassAt(run: seq<Record>, i: nat, n: nat)
    requires i < |run|
  {
    var r := run[i];
    Pass(r.env, r.before, r.after, r.pairs, r.done) && Suspected(r.env, n)
  }

  ghost predicate RestAt(run: seq<Record>, i: nat, sid: nat, bid: nat)
    requires i + 1 < |run|
  {
    Undisturbed(run[i].after, run[i + 1].before, sid, bid)
  }

  /** Passes during which node `n` stays registered but unhealthy, and between which anything may
      happen except to the session `sid`. */
  ghost predicate Watched(run: seq<Record>, sid: nat, bid: nat, n: nat) {
    && (forall i: nat | i < |run| :: PassAt(run, i, n))
    && (forall i: nat | i + 1 < |run| :: RestAt(run, i, sid, bid))
    && |run| > 0 && Lives(run[0].before, sid, bid, n) && run[0].before.bindings[bid].state.Bound?
  }

  /** The grace period of the mark set by the first pass has not run out at pass `i`. */
  predicate InGrace(run: seq<Record>, i: nat, sid: nat, n: nat)
    requires i < |run|
  {
    run[i].env.lookedAt(n) < run[i].env.Deadline(run[0].env.stamp(sid))
  }

  ghost predicate Waiting(t: Tables, sid: nat, bid: nat, n: nat, since: nat) {
    Lives(t, sid, bid, n) && t.bindings[bid].state.NeedsVerification? && t.bindings[bid].updatedAt == since
  }

  /** The old binding is over, and the session is active on the node that took it, or failed. Only a
      refusal that could not be recorded leaves it active without a node. */
  ghost predicate Ended(r: Record, sid: nat, bid: nat) {
    var trial := r.env.trial(sid);
    && sid in r.done && r.done[sid] == (if Willing(trial) then Migrated else MigrationFailed)
    && bid in r.after.bindings && r.after.bindings[bid].state.Terminal() && sid in r.after.sessions
    && var s := r.after.sessions[sid];
       if Willing(trial) then s.state.Active? && Rebound(r.after, sid, trial.node)
       else s.state == if Unrecordable(trial) then SessionState.Active else SessionState.Failed
  }

  ghost predicate Spared(r: Record, sid: nat) { sid in r.done && r.done[sid].LeftAlone? }

  lemma MarkOne(r: Record, sid: nat, bid: nat, n: nat)
    requires Pass(r.env, r.before, r.after, r.pairs, r.done) && Suspected(r.env, n)
    requires Lives(r.before, sid, bid, n) && r.before.bindings[bid].state.Bound?
    ensures sid in r.done && r.done[sid].Marked? && Waiting(r.after, sid, bid, n, r.env.stamp(sid))
  {
    OnePass(r.env, r.before, r.after, r.pairs, r.done, sid, bid, n);
  }

  lemma WaitOne(r: Record, sid: nat, bid: nat, n: nat, since: nat)
    requires Pass(r.env, r.before, r.after, r.pairs, r.done) && Suspected(r.env, n)
    requires Waiting(r.before, sid, bid, n, since)
    ensures if r.env.lookedAt(n) < r.env.Deadline(since)
            then Spared(r, sid) && Waiting(r.after, sid, bid, n, since) else Ended(r, sid, bid)
  {
    OnePass(r.env, r.before, r.after, r.pairs, r.done, sid, bid, n);
    WaitingDecides(r, sid, bid, n, since, Pair(sid, r.before.sessions[sid], bid, r.before.bindings[bid]));
  }

  lemma WaitingDecides(r: Record, sid: nat, bid: nat, n: nat, since: nat, p: Pair)
    requires Waiting(r.before, sid, bid, n, since)
    requires p == Pair(sid, r.before.sessions[sid], bid, r.before.bindings[bid])
    requires sid in r.done && Carries(r.done[sid], OnMissing(r.env, Suspect, p))
    requires Outcome(r.env, r.after, p, r.done[sid])
    requires r.done[sid].LeftAlone? ==> Lives(r.after, sid, bid, n)
    ensures if r.env.lookedAt(n) < r.env.Deadline(since)
            then Spared(r, sid) && Waiting(r.after, sid, bid, n, since) else Ended(r, sid, bid)
  {
  }

  lemma {:induction false} StillWaiting(run: seq<Record>, sid: nat, bid: nat, n: nat, i: nat)
    requires Watched(run, sid, bid, n) && 1 <= i < |run|
    requires forall j: nat | 1 <= j < i :: InGrace(run, j, sid, n)
    ensures Waiting(run[i].before, sid, bid, n, run[0].env.stamp(sid))
    ensures i > 1 ==> Spared(run[i - 1], sid)
  {
    assert PassAt(run, i - 1, n) && RestAt(run, i - 1, sid, bid);
    if i == 1 {
      MarkOne(run[0], sid, bid, n);
    } else {
      StillWaiting(run, sid, bid, n, i - 1);
      assert InGrace(run, i - 1, sid, n);
      WaitOne(run[i - 1], sid, bid, n, run[0].env.stamp(sid));
    }
  }

  lemma FirstMarks(run: seq<Record>, sid: nat, bid: nat, n: nat)
    requires Watched(run, sid, bid, n)
    ensures sid in run[0].done && run[0].done[sid].Marked?
  {
    assert PassAt(run, 0, n);
    MarkOne(run[0], sid, bid, n);
  }

  lemma AfterWaiting(run: seq<Record>, sid: nat, bid: nat, n: nat, i: nat)
    requires i < |run| && PassAt(run, i, n) && Waiting(run[i].before, sid, bid, n, run[0].env.stamp(sid))
    ensures if InGrace(run, i, sid, n) then Spared(run[i], sid) else Ended(run[i], sid, bid)
  {
    WaitOne(run[i], sid, bid, n, run[0].env.stamp(sid));
  }

  /** An active session on a node that stays registered but unhealthy is marked by the first pass,
      left alone by every pass within the grace period, and migrated or failed by the first pass
      after it. */
  lemma GraceIsKept(run: seq<Record>, sid: nat, bid: nat, n: nat, i: nat)
    requires Watched(run, sid, bid, n) && 1 <= i < |run|
    requires forall j: nat | 1 <= j < i :: InGrace(run, j, sid, n)
    ensures sid in run[0].done && run[0].done[sid].Marked?
    ensures forall j | 1 <= j < i :: Spared(run[j], sid)
    ensures if InGrace(run, i, sid, n) then Spared(run[i], sid) else Ended(run[i], sid, bid)
  {
    FirstMarks(run, sid, bid, n);
    forall j: nat | 1 <= j < i ensures Spared(run[j], sid) {
      StillWaiting(run, sid, bid, n, j + 1);
    }
    StillWaiting(run, sid, bid, n, i);
    AfterWaiting(run, sid, bid, n, i);
  }
}
