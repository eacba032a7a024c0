/** Timing out operations: two paged listings, read one operation at a time in turn. */
module OperationReconcilers {
  import opened Wrappers
  import opened Operations

  datatype Op = Op(id: nat, status: Status, deadline: Option<nat>) {
    predicate Elapsed(now: nat) { deadline.Some? && now >= deadline.value }
  }

  function Reversed(s: seq<Op>): seq<Op> {
    if s == [] then [] else [s[|s| - 1]] + Reversed(s[..|s| - 1])
  }

  /** The order in which a cursor hands out the operations of its pages: each page from its end. */
  function Order(pages: seq<seq<Op>>): seq<Op> {
    if pages == [] then [] else Reversed(pages[0]) + Order(pages[1..])
  }

  /** Pages that remain to be fetched, and the part of the last one not handed out yet. */
  class StatusCursor {
    const status: Status
    var pages: seq<seq<Op>>
    var buffer: seq<Op>

    constructor (status: Status, pages: seq<seq<Op>>)
      ensures this.status == status && Rest() == Order(pages)
      ensures this.pages == pages && buffer == []
    {
      this.status, this.pages, buffer := status, pages, [];
      new;
      assert Reversed([]) + Order(pages) == Order(pages);
    }

    /** What is still to come. */
    ghost function Rest(): seq<Op>
      reads this
    {
      Reversed(buffer) + Order(pages)
    }

    predicate Exhausted()
      reads this
    {
      pages == [] && buffer == []
    }

    ghost predicate NoEmptyPage()
      reads this
    {
      forall k | 0 <= k < |pages| :: pages[k] != []
    }

    /** `next_operation`. An empty page with more to come yields nothing this time. */
    method Next() returns (r: Option<Op>)
      modifies this
      ensures r.Some? ==> old(Rest()) == [r.value] + Rest()
      ensures r.None? ==> Rest() == old(Rest())
      ensures r.Some? ==> |pages| + |buffer| < old(|pages| + |buffer|) || |pages| < old(|pages|)
      ensures r.None? ==> |pages| < old(|pages|) || (Exhausted() && old(Exhausted()))
      ensures |pages| <= old(|pages|) && (|pages| == old(|pages|) && r.Some? ==> |buffer| < old(|buffer|))
      ensures old(NoEmptyPage()) ==> NoEmptyPage() && (r.None? ==> old(Rest()) == [])
    {
      if buffer == [] {
        if pages == [] {
          return None;
        }
        assert Reversed(buffer) + Order(pages) == Reversed(pages[0]) + Order(pages[1..]);
        buffer, pages := pages[0], pages[1..];
        if buffer == [] {
          return None;
        }
      }
      r := Some(buffer[|buffer| - 1]);
      assert Reversed(buffer) + Order(pages) == [r.value] + (Reversed(buffer[..|buffer| - 1]) + Order(pages));
      buffer := buffer[..|buffer| - 1];
    }
  }

  /** The operations a cursor for `status` times out among those it has examined. */
  function Due(ops: seq<Op>, status: Status, now: nat): seq<Op> {
    if ops == [] then []
    else
      var last := ops[|ops| - 1];
      Due(ops[..|ops| - 1], status, now) + if last.status == status && last.Elapsed(now) then [last] else []
  }

  /** What has been examined on each side, in which turns, and what was timed out. */
  datatype Progress = Progress(pending: seq<Op>, running: seq<Op>, turns: seq<bool>)

  function Turns(turns: seq<bool>, side: bool): nat {
    if turns == [] then 0 else Turns(turns[..|turns| - 1], side) + if turns[|turns| - 1] == side then 1 else 0
  }

  /** At every moment the two sides have been examined equally often, give or take one, unless one of
      them has nothing left. */
  ghost predicate Fair(turns: seq<bool>, pending: nat, running: nat) {
    forall n | 0 <= n <= |turns| :: FairAt(turns[..n], pending, running)
  }

  predicate FairAt(turns: seq<bool>, pending: nat, running: nat) {
    Level(Turns(turns, true), Turns(turns, false), pending, running)
  }

  /** The accounts of a run: every operation examined is counted, and exactly the due ones among them
      are timed out. */
  ghost predicate Booked(pr: Progress, expired: seq<Op>, scanned: nat, now: nat) {
    && |pr.turns| == scanned
    && Turns(pr.turns, true) == |pr.pending| && Turns(pr.turns, false) == |pr.running|
    && multiset(expired) == multiset(Due(pr.pending, Pending, now)) + multiset(Due(pr.running, Running, now))
  }

  function Examined(pr: Progress, side: bool, op: Op): Progress {
    if side then Progress(pr.pending + [op], pr.running, pr.turns + [true])
    else Progress(pr.pending, pr.running + [op], pr.turns + [false])
  }

  lemma DueGrows(ops: seq<Op>, op: Op, status: Status, now: nat)
    ensures Due(ops + [op], status, now)
         == Due(ops, status, now) + if op.status == status && op.Elapsed(now) then [op] else []
  {
    assert (ops + [op])[..|ops|] == ops;
  }

  lemma BookedGrows(pr: Progress, expired: seq<Op>, scanned: nat, now: nat, side: bool, op: Op)
    requires Booked(pr, expired, scanned, now)
    ensures
      var due := op.status == (if side then Pending else Running) && op.Elapsed(now);
      Booked(Examined(pr, side, op), if due then expired + [op] else expired, scanned + 1, now)
  {
    assert (pr.turns + [side])[..|pr.turns|] == pr.turns;
    if side {
      DueGrows(pr.pending, op, Pending, now);
    } else {
      DueGrows(pr.running, op, Running, now);
    }
  }

  predicate Level(p: int, r: int, pending: nat, running: nat) {
    -1 <= p - r <= 1 || p == pending || r == running
  }

  lemma FairGrows(pr: Progress, side: bool, op: Op, pending: nat, running: nat)
    requires Fair(pr.turns, pending, running)
    requires Turns(pr.turns, true) == |pr.pending| && Turns(pr.turns, false) == |pr.running|
    requires
      var more := Examined(pr, side, op);
      Level(|more.pending|, |more.running|, pending, running)
    ensures Fair(Examined(pr, side, op).turns, pending, running)
  {
    var more := Examined(pr, side, op).turns;
    assert more[..|pr.turns|] == pr.turns;
    assert more[..|more|] == more;
    forall n | 0 <= n <= |more| ensures FairAt(more[..n], pending, running) {
      if n <= |pr.turns| {
        assert more[..n] == pr.turns[..n];
        assert FairAt(pr.turns[..n], pending, running);
      }
    }
  }

  function Mine(pr: Progress, side: bool): seq<Op> { if side then pr.pending else pr.running }

  /** Whose turn it is: with `side` the pending side's, when it is not ahead. */
  ghost predicate InTurn(pr: Progress, side: bool, pending: nat, running: nat) {
    && Fair(pr.turns, pending, running)
    && (|pr.pending| == |pr.running| + (if side then 0 else 1) || |pr.pending| == pending || |pr.running| == running)
  }

  lemma InTurnGrows(pr: Progress, side: bool, op: Op, pending: nat, running: nat)
    requires InTurn(pr, side, pending, running)
    requires Turns(pr.turns, true) == |pr.pending| && Turns(pr.turns, false) == |pr.running|
    requires if side then |pr.pending| < pending else |pr.running| < running
    ensures InTurn(Examined(pr, side, op), !side, pending, running)
  {
    FairGrows(pr, side, op, pending, running);
  }

  lemma Moved(done: seq<Op>, op: Op, rest: seq<Op>)
    ensures done + ([op] + rest) == done + [op] + rest
  {
  }

  /** One turn: the next operation of a cursor is examined and, if due, timed out. `all` is the whole
      listing of this side, `others` the length of the other one. */
  method Turn(c: StatusCursor, side: bool, now: nat, scanned: nat, expired: seq<Op>,
              ghost pr: Progress, ghost all: seq<Op>, ghost others: nat, ghost plain: bool)
    returns (scanned': nat, expired': seq<Op>, ghost pr': Progress)
    requires Booked(pr, expired, scanned, now) && c.status == if side then Pending else Running
    requires all == Mine(pr, side) + c.Rest()
    requires plain ==>
      c.NoEmptyPage() && if side then InTurn(pr, side, |all|, others) else InTurn(pr, side, others, |all|)
    modifies c
    ensures Booked(pr', expired', scanned', now) && |expired| <= |expired'| <= |expired| + 1
    ensures all == Mine(pr', side) + c.Rest() && Mine(pr', !side) == Mine(pr, !side)
    ensures |c.pages| <= old(|c.pages|)
    ensures |c.pages| == old(|c.pages|) ==> |c.buffer| < old(|c.buffer|) || (c.Exhausted() && old(c.Exhausted()))
    ensures plain ==>
      c.NoEmptyPage() && if side then InTurn(pr', !side, |all|, others) else InTurn(pr', !side, others, |all|)
  {
    scanned', expired', pr' := scanned, expired, pr;
    var r := c.Next();
    if r.Some? {
      scanned' := scanned + 1;
      BookedGrows(pr, expired, scanned, now, side, r.value);
      pr' := Examined(pr, side, r.value);
      if r.value.status == c.status && r.value.Elapsed(now) {
        expired' := expired + [r.value];
      }
      Moved(Mine(pr, side), r.value, c.Rest());
      if plain {
        InTurnGrows(pr, side, r.value, if side then |all| else others, if side then others else |all|);
      }
    }
  }

  /** `reconcile`: it ends, times out no more than the budget allows, examines every listed operation
      at most once and, unless the budget runs out, all of them; it times out exactly those examined
      that are due; and if no page is empty it treats both listings alike. */
  method Reconcile(pending: seq<seq<Op>>, running: seq<seq<Op>>, budget: nat, now: nat)
    returns (scanned: nat, expired: seq<Op>, ghost pr: Progress)
    ensures |expired| <= budget
    ensures Booked(pr, expired, scanned, now)
    ensures pr.pending <= Order(pending) && pr.running <= Order(running)
    ensures |expired| < budget ==> pr.pending == Order(pending) && pr.running == Order(running)
    ensures
      && (forall k | 0 <= k < |pending| :: pending[k] != [])
      && (forall k | 0 <= k < |running| :: running[k] != []) ==>
        Fair(pr.turns, |Order(pending)|, |Order(running)|)
  {
    scanned, expired, pr := 0, [], Progress([], [], []);
    var p := new StatusCursor(Pending, pending);
    var q := new StatusCursor(Running, running);
    ghost var allP, allQ, plain := Order(pending), Order(running), p.NoEmptyPage() && q.NoEmptyPage();
    assert FairAt([], |allP|, |allQ|);
    while |expired| < budget && !(p.Exhausted() && q.Exhausted())
      invariant |expired| <= budget && p.status == Pending && q.status == Running && p != q
      invariant Standing(p, q, pr, expired, scanned, now, allP, allQ, plain)
      invariant plain ==> Fair(pr.turns, |allP|, |allQ|) && (|expired| < budget ==> InTurn(pr, true, |allP|, |allQ|))
      decreases |p.pages| + |q.pages|, |p.buffer| + |q.buffer|, budget - |expired|
    {
      scanned, expired, pr := Round(p, q, budget, now, scanned, expired, pr, allP, allQ, plain);
    }
    assert p.Exhausted() && q.Exhausted() ==> p.Rest() == [] && q.Rest() == [];
  }

  ghost predicate Standing(p: StatusCursor, q: StatusCursor, pr: Progress, expired: seq<Op>, scanned: nat, now: nat,
                           allP: seq<Op>, allQ: seq<Op>, plain: bool)
    reads p, q
  {
    && Booked(pr, expired, scanned, now)
    && allP == pr.pending + p.Rest() && allQ == pr.running + q.Rest()
    && (plain ==> p.NoEmptyPage() && q.NoEmptyPage())
  }

  /** One turn for each side, or for the first alone if it uses up the budget. */
  method Round(p: StatusCursor, q: StatusCursor, budget: nat, now: nat, scanned: nat, expired: seq<Op>,
               ghost pr: Progress, ghost allP: seq<Op>, ghost allQ: seq<Op>, ghost plain: bool)
    returns (scanned': nat, expired': seq<Op>, ghost pr': Progress)
    requires p != q && p.status == Pending && q.status == Running && |expired| < budget
    requires Standing(p, q, pr, expired, scanned, now, allP, allQ, plain)
    requires plain ==> InTurn(pr, true, |allP|, |allQ|)
    requires !(p.Exhausted() && q.Exhausted())
    modifies p, q
    ensures Standing(p, q, pr', expired', scanned', now, allP, allQ, plain) && |expired'| <= budget
    ensures plain ==> Fair(pr'.turns, |allP|, |allQ|) && (|expired'| < budget ==> InTurn(pr', true, |allP|, |allQ|))
    ensures |expired'| < budget ==>
      || |p.pages| + |q.pages| < old(|p.pages| + |q.pages|)
      || (|p.pages| + |q.pages| == old(|p.pages| + |q.pages|) && |p.buffer| + |q.buffer| < old(|p.buffer| + |q.buffer|))
    ensures |expired'| == budget ==>
      || |p.pages| + |q.pages| < old(|p.pages| + |q.pages|)
      || (&& |p.pages| + |q.pages| == old(|p.pages| + |q.pages|)
          && |p.buffer| + |q.buffer| <= old(|p.buffer| + |q.buffer|))
  {
    scanned', expired', pr' := Turn(p, true, now, scanned, expired, pr, allP, |allQ|, plain);
    if |expired'| < budget {
      scanned', expired', pr' := Turn(q, false, now, scanned', expired', pr', allQ, |allP|, plain);
    }
  }

  /** Among the operations of a listing exactly those beyond their deadline are timed out. */
  lemma {:induction false} DueIsTimedOut(ops: seq<Op>, status: Status, now: nat, op: Op)
    ensures op in Due(ops, status, now) <==>
      op in ops && op.status == status && op.deadline.Some? && now >= op.deadline.value
  {
    if ops != [] {
      var init, last := ops[..|ops| - 1], ops[|ops| - 1];
      assert ops == init + [last];
      DueIsTimedOut(init, status, now, op);
    }
  }
}
