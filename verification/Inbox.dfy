/** One command travelling through the inboxes of a cluster: at-least-once deliveries, ownership
    that moves, forwarding, crashes, and commits whose outcome the caller may not learn.

    Storage is used through two promises only: a transaction commits all-or-nothing, and the
    processed-message table has one row per message, so a transaction that inserts the row can
    commit only while no row is there. Each owner epoch is issued to one node. */
module Inbox {
  import opened Wrappers

  datatype Processed = Pending | Accepted | Completed | Failed | Duplicate

  datatype Receipt = ReceiptAccepted | ReceiptDuplicate | Rejected | DeadLetter

  function StatusOf(receipt: Receipt): Processed {
    match receipt
    case ReceiptAccepted => Accepted
    case ReceiptDuplicate => Duplicate
    case Rejected => Failed
    case DeadLetter => Failed
  }

  /** The command: the owner epoch it expects, whether its envelope decodes, and which node each
      owner epoch of the device was issued to. */
  datatype Setting = Setting(epoch: nat, decodes: bool, issued: nat -> nat)

  /** What a consumer is doing with the copy of the message it took. */
  datatype Hand =
    | Free
    | Held(copy: nat)
    | Relayed(copy: nat)
    | Owned(copy: nat)
    | InTx(copy: nat)
    | Staged(copy: nat, status: Processed, fatal: bool)
    | Settled(copy: nat)

  datatype Worker = Worker(node: nat, hand: Hand)

  /** `copies` maps each copy not yet acked or terminated to the node whose subject it is on;
      `effects` counts committed handler transactions; `runs` lists the nodes the handler ran on. */
  datatype World = World(
    row: Option<Processed>,
    effects: nat,
    runs: seq<nat>,
    copies: map<nat, nat>,
    nextCopy: nat,
    termed: nat,
    workers: seq<Worker>)

  function Sets(w: World, i: nat, hand: Hand): World
    requires i < |w.workers|
  {
    w.(workers := w.workers[i := w.workers[i].(hand := hand)])
  }

  /** Acknowledging (or terminating) a copy discharges it. */
  function Discharge(w: World, copy: nat): World {
    w.(copies := w.copies - {copy})
  }

  function Put(w: World, node: nat): World {
    w.(copies := w.copies[w.nextCopy := node], nextCopy := w.nextCopy + 1)
  }

  predicate Deliver(w: World, w': World, i: nat, copy: nat)
    requires i < |w.workers|
  {
    && w.workers[i].hand.Free?
    && copy in w.copies && w.copies[copy] == w.workers[i].node
    && w' == Sets(w, i, Held(copy))
  }

  predicate TermUndecodable(c: Setting, w: World, w': World, i: nat)
    requires i < |w.workers|
  {
    && w.workers[i].hand.Held? && !c.decodes
    && w' == Sets(Discharge(w, w.workers[i].hand.copy), i, Free).(termed := w.termed + 1)
  }

  /** The owner lookup answers with a pair that was true at some time, possibly long ago. */
  predicate LookedUp(c: Setting, w: World, w': World, i: nat, node: nat, epoch: nat)
    requires i < |w.workers|
  {
    && w.workers[i].hand.Held? && c.decodes
    && c.issued(epoch) == node
    && var copy := w.workers[i].hand.copy;
       if node == w.workers[i].node then
         if epoch != c.epoch
         then w' == Sets(Discharge(w, copy), i, Free).(termed := w.termed + 1)
         else w' == Sets(w, i, Owned(copy))
       else
         || w' == Sets(Put(w, node), i, Relayed(copy))
         || w' == Sets(Put(w, node), i, Free)
  }

  predicate AckRelayed(w: World, w': World, i: nat)
    requires i < |w.workers|
  {
    && w.workers[i].hand.Relayed?
    && w' == Sets(Discharge(w, w.workers[i].hand.copy), i, Free)
  }

  /** `get_or_insert`: a finished row acks, a pending row naks, no row opens the handler's turn. */
  predicate GetOrInsert(w: World, w': World, i: nat)
    requires i < |w.workers|
  {
    && w.workers[i].hand.Owned?
    && var copy := w.workers[i].hand.copy;
       if w.row.None? then w' == Sets(w, i, InTx(copy))
       else if w.row.value != Pending then w' == Sets(Discharge(w, copy), i, Free)
       else w' == Sets(w, i, Free)
  }

  /** The handler runs; a retryable error rolls back, anything else stages the row's new status. */
  predicate Handle(w: World, w': World, i: nat, outcome: Option<Receipt>)
    requires i < |w.workers|
  {
    && w.workers[i].hand.InTx?
    && var copy, ran := w.workers[i].hand.copy, w.(runs := w.runs + [w.workers[i].node]);
       || w' == Sets(ran, i, Free)
       || (outcome.Some? && w' == Sets(ran, i, Staged(copy, StatusOf(outcome.value), false)))
       || (outcome.None? && w' == Sets(ran, i, Staged(copy, Failed, true)))
  }

  /** The commit is applied; the caller may or may not be told so. */
  predicate CommitApplied(w: World, w': World, i: nat)
    requires i < |w.workers|
  {
    && w.workers[i].hand.Staged?
    && w.row.None?
    && var hand := w.workers[i].hand;
       var done := w.(row := Some(hand.status), effects := w.effects + 1);
       w' == Sets(done, i, Settled(hand.copy)) || w' == Sets(done, i, Free)
  }

  predicate Settle(w: World, w': World, i: nat)
    requires i < |w.workers|
  {
    && w.workers[i].hand.Settled?
    && w' == Sets(Discharge(w, w.workers[i].hand.copy), i, Free)
  }

  /** A crash, a nak, a rollback or a commit that was not applied: the copy is delivered again. */
  predicate GiveUp(w: World, w': World, i: nat)
    requires i < |w.workers|
  {
    w' == Sets(w, i, Free)
  }

  ghost predicate WorkerMoves(c: Setting, w: World, w': World, i: nat) {
    && i < |w.workers|
    && (|| (exists copy :: Deliver(w, w', i, copy))
        || TermUndecodable(c, w, w', i)
        || (exists node, epoch :: LookedUp(c, w, w', i, node, epoch))
        || AckRelayed(w, w', i)
        || GetOrInsert(w, w', i)
        || (exists outcome :: Handle(w, w', i, outcome))
        || CommitApplied(w, w', i)
        || Settle(w, w', i)
        || GiveUp(w, w', i))
  }

  /** The dispatcher puts another copy of the command on some node's subject. */
  ghost predicate Arrive(w: World, w': World) {
    exists node: nat :: w' == Put(w, node)
  }

  ghost predicate Next(c: Setting, w: World, w': World) {
    (exists i: nat :: WorkerMoves(c, w, w', i)) || Arrive(w, w')
  }

  predicate Init(w: World) {
    && w.row.None? && w.effects == 0 && w.runs == [] && w.copies == map[] && w.nextCopy == 0 && w.termed == 0
    && forall i | 0 <= i < |w.workers| :: w.workers[i].hand.Free?
  }

  ghost predicate StepAt(c: Setting, ws: seq<World>, n: nat)
    requires n + 1 < |ws|
  {
    Next(c, ws[n], ws[n + 1])
  }

  ghost predicate Run(c: Setting, ws: seq<World>) {
    && |ws| > 0
    && Init(ws[0])
    && forall n: nat | n + 1 < |ws| :: StepAt(c, ws, n)
  }

  // ---------------------------------------------------------------- invariant

  /** The command has left the bus for a good reason. */
  predicate Resolved(w: World) { w.row.Some? || w.termed > 0 }

  ghost predicate LaterCopy(w: World, copy: nat) { exists x | x in w.copies :: x > copy }

  ghost predicate HandOk(c: Setting, w: World, worker: Worker) {
    match worker.hand
    case Free => true
    case Held(copy) => copy < w.nextCopy
    case Relayed(copy) => copy < w.nextCopy && (Resolved(w) || LaterCopy(w, copy))
    case Owned(copy) => worker.node == c.issued(c.epoch)
    case InTx(copy) => worker.node == c.issued(c.epoch)
    case Staged(copy, status, fatal) => worker.node == c.issued(c.epoch) && status != Pending
    case Settled(copy) => w.row.Some?
  }

  ghost predicate Inv(c: Setting, w: World) {
    && w.effects == (if w.row.Some? then 1 else 0)
    && w.row != Some(Pending)
    && (forall n | 0 <= n < |w.runs| :: w.runs[n] == c.issued(c.epoch))
    && (forall x | x in w.copies :: x < w.nextCopy)
    && (w.nextCopy > 0 ==> Resolved(w) || w.copies != map[])
    && (forall i | 0 <= i < |w.workers| :: HandOk(c, w, w.workers[i]))
  }

  /** Removing a copy is harmless when the command is resolved or a later copy remains. */
  lemma DischargeKeeps(c: Setting, w: World, copy: nat, worker: Worker)
    requires HandOk(c, w, worker)
    requires Resolved(w) || LaterCopy(w, copy)
    ensures HandOk(c, Discharge(w, copy), worker)
    ensures Resolved(w) || Discharge(w, copy).copies != map[]
  {
    if !Resolved(w) {
      var y :| y in w.copies && y > copy;
      assert y in Discharge(w, copy).copies;
      if worker.hand.Relayed? {
        var x :| x in w.copies && x > worker.hand.copy;
        assert x == copy || x in Discharge(w, copy).copies;
      }
    }
  }

  lemma PutKeeps(c: Setting, w: World, node: nat, worker: Worker)
    requires HandOk(c, w, worker)
    ensures HandOk(c, Put(w, node), worker)
  {
    if worker.hand.Relayed? && !Resolved(w) {
      var x :| x in w.copies && x > worker.hand.copy;
      assert x in Put(w, node).copies;
    }
  }

  lemma ArriveKeeps(c: Setting, w: World, node: nat)
    requires Inv(c, w)
    ensures Inv(c, Put(w, node))
  {
    var w' := Put(w, node);
    assert w.nextCopy in w'.copies;
    forall i | 0 <= i < |w'.workers| ensures HandOk(c, w', w'.workers[i]) {
      PutKeeps(c, w, node, w.workers[i]);
    }
  }

  lemma LookedUpKeeps(c: Setting, w: World, w': World, i: nat, node: nat, epoch: nat)
    requires Inv(c, w) && i < |w.workers| && LookedUp(c, w, w', i, node, epoch)
    ensures Inv(c, w')
  {
    assert HandOk(c, w, w.workers[i]);
    if node != w.workers[i].node {
      ArriveKeeps(c, w, node);
      assert w.nextCopy in w'.copies;
    }
    forall k | 0 <= k < |w'.workers| ensures HandOk(c, w', w'.workers[k]) {
      assert HandOk(c, w, w.workers[k]);
      if k != i && node != w.workers[i].node {
        assert HandOk(c, Put(w, node), Put(w, node).workers[k]);
      }
    }
  }

  lemma DischargingMoveKeeps(c: Setting, w: World, w': World, i: nat)
    requires Inv(c, w) && i < |w.workers|
    requires AckRelayed(w, w', i) || Settle(w, w', i) || GetOrInsert(w, w', i) || TermUndecodable(c, w, w', i)
    ensures Inv(c, w')
  {
    assert HandOk(c, w, w.workers[i]);
    var copy := w.workers[i].hand.copy;
    if w'.copies == Discharge(w, copy).copies && w'.termed == w.termed && (Resolved(w) || LaterCopy(w, copy)) {
      forall k | 0 <= k < |w.workers| ensures HandOk(c, w', w'.workers[k]) {
        DischargeKeeps(c, w, copy, w.workers[k]);
      }
      DischargeKeeps(c, w, copy, w.workers[i]);
    } else {
      forall k | 0 <= k < |w.workers| ensures HandOk(c, w', w'.workers[k]) {
        assert HandOk(c, w, w.workers[k]);
      }
    }
  }

  lemma HandleKeeps(c: Setting, w: World, w': World, i: nat, outcome: Option<Receipt>)
    requires Inv(c, w) && i < |w.workers| && Handle(w, w', i, outcome)
    ensures Inv(c, w')
  {
    assert HandOk(c, w, w.workers[i]);
    forall k | 0 <= k < |w'.workers| ensures HandOk(c, w', w'.workers[k]) {
      assert HandOk(c, w, w.workers[k]);
    }
  }

  lemma PlainMoveKeeps(c: Setting, w: World, w': World, i: nat)
    requires Inv(c, w) && i < |w.workers|
    requires (exists copy :: Deliver(w, w', i, copy)) || CommitApplied(w, w', i) || GiveUp(w, w', i)
    ensures Inv(c, w')
  {
    assert HandOk(c, w, w.workers[i]);
    forall k | 0 <= k < |w'.workers| ensures HandOk(c, w', w'.workers[k]) {
      assert HandOk(c, w, w.workers[k]);
    }
  }

  lemma NextKeeps(c: Setting, w: World, w': World)
    requires Inv(c, w) && Next(c, w, w')
    ensures Inv(c, w')
  {
    if Arrive(w, w') {
      var node: nat :| w' == Put(w, node);
      ArriveKeeps(c, w, node);
      return;
    }
    var i: nat :| WorkerMoves(c, w, w', i);
    if exists node, epoch :: LookedUp(c, w, w', i, node, epoch) {
      var node, epoch :| LookedUp(c, w, w', i, node, epoch);
      LookedUpKeeps(c, w, w', i, node, epoch);
    } else if exists outcome :: Handle(w, w', i, outcome) {
      var outcome :| Handle(w, w', i, outcome);
      HandleKeeps(c, w, w', i, outcome);
    } else if AckRelayed(w, w', i) || Settle(w, w', i) || GetOrInsert(w, w', i) || TermUndecodable(c, w, w', i) {
      DischargingMoveKeeps(c, w, w', i);
    } else {
      PlainMoveKeeps(c, w, w', i);
    }
  }

  lemma {:induction false} Reachable(c: Setting, ws: seq<World>, n: nat)
    requires Run(c, ws) && n < |ws|
    ensures Inv(c, ws[n])
  {
    if n > 0 {
      Reachable(c, ws, n - 1);
      assert StepAt(c, ws, n - 1);
      NextKeeps(c, ws[n - 1], ws[n]);
    }
  }

  // ---------------------------------------------------------------- results

  /** The handler's transaction is committed at most once, and only a finished row is ever stored. */
  lemma CommittedAtMostOnce(c: Setting, ws: seq<World>, n: nat)
    requires Run(c, ws) && n < |ws|
    ensures ws[n].effects <= 1
    ensures ws[n].effects == 1 <==> ws[n].row.Some?
    ensures ws[n].row != Some(Pending)
  {
    Reachable(c, ws, n);
  }

  /** However stale the owner lookups, the handler runs only on the node that the command's
      expected epoch was issued to. */
  lemma HandlerRunsOnEpochOwner(c: Setting, ws: seq<World>, n: nat, k: nat)
    requires Run(c, ws) && n < |ws| && k < |ws[n].runs|
    ensures ws[n].runs[k] == c.issued(c.epoch)
  {
    Reachable(c, ws, n);
  }

  /** A command put on the bus is on some subject, has a stored row, or was terminated as
      undecodable or stale. */
  lemma NothingIsLost(c: Setting, ws: seq<World>, n: nat)
    requires Run(c, ws) && n < |ws| && ws[n].nextCopy > 0
    ensures ws[n].copies != map[] || ws[n].row.Some? || ws[n].termed > 0
  {
    Reachable(c, ws, n);
  }

  /** A copy leaves its subject only with a stored row, by termination, or behind a later copy. */
  lemma CopyLeavesForAReason(c: Setting, ws: seq<World>, n: nat, copy: nat)
    requires Run(c, ws) && n + 1 < |ws|
    requires copy in ws[n].copies && copy !in ws[n + 1].copies
    ensures ws[n + 1].row.Some? || ws[n + 1].termed > 0 || LaterCopy(ws[n + 1], copy)
  {
    Reachable(c, ws, n);
    var w, w' := ws[n], ws[n + 1];
    assert StepAt(c, ws, n);
    assert forall node: nat :: copy in Put(w, node).copies;
    var i: nat :| WorkerMoves(c, w, w', i);
    assert HandOk(c, w, w.workers[i]);
    if !Resolved(w') {
      assert AckRelayed(w, w', i);
      var x :| x in w.copies && x > copy;
      assert x in w'.copies;
    }
  }

  /** The row is stored and no transaction that may still call the handler is open. */
  ghost predicate Finished(w: World) {
    w.row.Some? && forall i | 0 <= i < |w.workers| :: !w.workers[i].hand.InTx?
  }

  lemma FinishedStays(c: Setting, w: World, w': World)
    requires Finished(w) && Next(c, w, w')
    ensures Finished(w') && w'.row == w.row && w'.runs == w.runs && w'.effects == w.effects
  {
    if !Arrive(w, w') {
      var i: nat :| WorkerMoves(c, w, w', i);
      FinishedWorker(c, w, w', i);
    }
  }

  lemma FinishedWorker(c: Setting, w: World, w': World, i: nat)
    requires Finished(w) && WorkerMoves(c, w, w', i)
    ensures Finished(w') && w'.row == w.row && w'.runs == w.runs && w'.effects == w.effects
  {
    var hand := w'.workers[i].hand;
    assert w'.workers == w.workers[i := Worker(w.workers[i].node, hand)];
    assert !hand.InTx?;
    forall k | 0 <= k < |w'.workers| ensures !w'.workers[k].hand.InTx? {
      assert k != i ==> w'.workers[k] == w.workers[k];
    }
  }

  /** Once the row is stored and the transactions already open have ended, the handler never runs
      again and the row never changes. */
  lemma {:induction false} FinishedRowSilencesHandler(c: Setting, ws: seq<World>, m: nat, n: nat)
    requires Run(c, ws) && m <= n < |ws| && Finished(ws[m])
    ensures Finished(ws[n])
    ensures ws[n].row == ws[m].row && ws[n].runs == ws[m].runs && ws[n].effects == ws[m].effects == 1
  {
    if m == n {
      Reachable(c, ws, n);
    } else {
      FinishedRowSilencesHandler(c, ws, m, n - 1);
      assert StepAt(c, ws, n - 1);
      FinishedStays(c, ws[n - 1], ws[n]);
    }
  }

  /** A delivery that reaches the owner after the row is stored is acked without the handler. */
  lemma DuplicateIsAcked(c: Setting, ws: seq<World>, n: nat, w': World, i: nat)
    requires Run(c, ws) && n < |ws| && ws[n].row.Some?
    requires i < |ws[n].workers| && GetOrInsert(ws[n], w', i)
    ensures w' == Sets(Discharge(ws[n], ws[n].workers[i].hand.copy), i, Free)
    ensures w'.runs == ws[n].runs && w'.effects == ws[n].effects
  {
    Reachable(c, ws, n);
  }
}
