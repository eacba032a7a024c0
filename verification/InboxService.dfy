/** `InboxService::handle_delivery` and `process` as one consumer runs them on one delivery. */
module InboxServices {
  import opened Wrappers
  import opened Inbox

  datatype Lookup = Owner(node: nat, epoch: nat) | NoOwner | LookupFailed

  datatype Forward = Forwarded | NotForwarded | PerhapsForwarded

  datatype Outcome = Done(receipt: Receipt) | Retryable | Fatal

  datatype Commit = Applied | Lost | Ambiguous

  datatype Env = Env(
    lookup: Lookup,
    forward: Forward,
    begins: bool,
    inserts: bool,
    outcome: Outcome,
    completes: bool,
    commit: Commit)

  datatype Verdict = Ack | Nak | Term

  /** The status under which a handler's outcome is remembered. */
  predicate Remembered(outcome: Outcome, status: Processed) {
    && (outcome == Done(ReceiptAccepted) ==> status == Accepted)
    && (outcome == Done(ReceiptDuplicate) ==> status == Duplicate)
    && (outcome in {Done(Rejected), Done(DeadLetter), Fatal} ==> status == Failed)
    && outcome != Retryable
  }

  /** The transaction that runs the handler gets as far as its commit. */
  predicate Stages(env: Env) { env.begins && env.inserts && env.outcome != Retryable && env.completes }

  /** What a message's transaction leaves of its row, how often its effects are committed, and the
      verdict. A row that is there already decides; else the handler's outcome is remembered with its
      effects unless the commit is lost, and reported unless the commit is ambiguous. */
  predicate Transacted(env: Env, row: Option<Processed>, row': Option<Processed>, effects: nat, verdict: Verdict) {
    if !env.begins || !env.inserts then row' == row && effects == 0 && verdict == Nak
    else if row.Some? then row' == row && effects == 0 && verdict == if row.value == Pending then Nak else Ack
    else if env.outcome == Retryable || !env.completes || env.commit == Lost
    then row' == None && effects == 0 && verdict == Nak
    else
      && row'.Some? && Remembered(env.outcome, row'.value) && effects == 1
      && verdict == if env.commit == Ambiguous then Nak else if env.outcome == Fatal then Term else Ack
  }

  /** What becomes of a delivery: an undecodable or stale command is terminated, one for another node is
      acked once forwarded, one nobody owns is kept, and an owned one is transacted. */
  predicate Disposed(env: Env, node: nat, epoch: nat, decodes: bool, row: Option<Processed>,
                     row': Option<Processed>, effects: nat, verdict: Verdict)
  {
    if decodes && env.lookup == Owner(node, epoch) then Transacted(env, row, row', effects, verdict)
    else
      && row' == row && effects == 0
      && (verdict == Term <==> !decodes || (env.lookup.Owner? && env.lookup.node == node))
      && (verdict == Ack <==>
            decodes && env.lookup.Owner? && env.lookup.node != node && env.forward == Forwarded)
  }

  /** The verdicts, over every outcome of the surroundings. */
  lemma VerdictIff(env: Env, node: nat, epoch: nat, decodes: bool, row: Option<Processed>,
                   row': Option<Processed>, effects: nat, verdict: Verdict)
    requires Disposed(env, node, epoch, decodes, row, row', effects, verdict)
    ensures
      var owned := decodes && env.lookup == Owner(node, epoch);
      var told := owned && row.None? && Stages(env) && env.commit == Applied;
      && (verdict == Term <==>
            || !decodes || (env.lookup.Owner? && env.lookup.node == node && env.lookup.epoch != epoch)
            || (told && env.outcome == Fatal))
      && (verdict == Ack <==>
            || (decodes && env.lookup.Owner? && env.lookup.node != node && env.forward == Forwarded)
            || (owned && env.begins && env.inserts && row.Some? && row != Some(Pending))
            || (told && env.outcome != Fatal))
      && (effects == 1 <==> owned && row.None? && Stages(env) && env.commit != Lost)
      && (effects == 0 <==> row' == row)
      && (effects == 1 ==> row'.Some? && Remembered(env.outcome, row'.value))
  {
  }

  /** A message handled under a reported commit is acked by whoever meets it next, and nothing more is
      committed for it. */
  lemma HandledOnce(env: Env, row': Option<Processed>, env': Env, row'': Option<Processed>, effects: nat,
                    verdict: Verdict)
    requires Transacted(env, None, row', 1, if env.outcome == Fatal then Term else Ack)
    requires Transacted(env', row', row'', effects, verdict)
    ensures row'' == row' && effects == 0 && (env'.begins && env'.inserts ==> verdict == Ack)
  {
    assert row' != Some(Pending) by {
      match env.outcome
      case Done(ReceiptAccepted) =>
      case Done(ReceiptDuplicate) =>
      case Done(Rejected) =>
      case Done(DeadLetter) =>
      case Retryable =>
      case Fatal =>
    }
  }

  ghost predicate MoveAt(c: Setting, i: nat, ws: seq<World>, n: nat)
    requires n + 1 < |ws|
  {
    WorkerMoves(c, ws[n], ws[n + 1], i)
  }

  ghost predicate Trail(c: Setting, i: nat, ws: seq<World>) {
    |ws| > 0 && forall n: nat | n + 1 < |ws| :: MoveAt(c, i, ws, n)
  }

  class InboxService {
    const node: nat
    /** The committed processed-message rows. */
    var table: map<nat, Processed>
    /** The messages whose handler transaction was committed. */
    var committed: multiset<nat>
    /** The messages the handler was called for on this node. */
    var handled: seq<nat>

    constructor (node: nat, rows: map<nat, Processed>)
      ensures this.node == node && table == rows && committed == multiset{} && handled == []
    {
      this.node := node;
      table := rows;
      committed := multiset{};
      handled := [];
    }

    function Row(id: nat): Option<Processed>
      reads this
    {
      if id in table then Some(table[id]) else None
    }

    /** This service is consumer `i` of world `w`, for message `id`. */
    ghost predicate Represents(w: World, i: nat, id: nat)
      reads this
    {
      && i < |w.workers| && w.workers[i].node == node
      && w.row == Row(id) && w.effects == committed[id]
    }

    /** The delivery's handling is a trail of moves of the transition system; the verdict says
        whether the copy was discharged; the handler is called only for an owned, matching,
        unprocessed command, and no other message is touched. */
    method HandleDelivery(id: nat, epoch: nat, decodes: bool, env: Env, ghost c: Setting, ghost w: World, ghost i: nat)
      returns (verdict: Verdict, ghost trail: seq<World>)
      requires c.epoch == epoch && c.decodes == decodes
      requires env.lookup.Owner? ==> c.issued(env.lookup.epoch) == env.lookup.node
      requires Represents(w, i, id) && w.workers[i].hand.Held? && w.workers[i].hand.copy in w.copies
      requires w.workers[i].hand.copy < w.nextCopy
      modifies this
      ensures Trail(c, i, trail) && trail[0] == w
      ensures Represents(trail[|trail| - 1], i, id) && trail[|trail| - 1].workers[i].hand.Free?
      ensures w.workers[i].hand.copy in trail[|trail| - 1].copies <==> verdict == Nak
      ensures handled == old(handled) || handled == old(handled) + [id]
      ensures handled != old(handled) <==>
        decodes && env.lookup == Owner(node, epoch) && env.begins && env.inserts && id !in old(table)
      ensures forall k | k != id :: (k in table <==> k in old(table)) && (k in table ==> table[k] == old(table)[k])
      ensures committed >= old(committed) && committed == old(committed)[id := committed[id]]
      ensures Disposed(env, node, epoch, decodes, old(Row(id)), Row(id), committed[id] - old(committed)[id], verdict)
    {
      if !decodes {
        return Term, [w, Sets(Discharge(w, w.workers[i].hand.copy), i, Free).(termed := w.termed + 1)];
      }
      match env.lookup {
        case Owner(owner, ownerEpoch) =>
          if owner == node {
            if ownerEpoch != epoch {
              ghost var w' := Sets(Discharge(w, w.workers[i].hand.copy), i, Free).(termed := w.termed + 1);
              assert LookedUp(c, w, w', i, owner, ownerEpoch);
              return Term, [w, w'];
            }
            ghost var w' := Sets(w, i, Owned(w.workers[i].hand.copy));
            assert LookedUp(c, w, w', i, owner, ownerEpoch);
            ghost var rest;
            verdict, rest := Process(id, env, c, w', i);
            trail := [w] + rest;
            forall n: nat | n + 1 < |trail| ensures MoveAt(c, i, trail, n) {
              assert n > 0 ==> MoveAt(c, i, rest, n - 1);
            }
            return verdict, trail;
          }
          if env.forward == Forwarded {
            ghost var w1 := Sets(Put(w, owner), i, Relayed(w.workers[i].hand.copy));
            assert LookedUp(c, w, w1, i, owner, ownerEpoch);
            return Ack, [w, w1, Sets(Discharge(w1, w.workers[i].hand.copy), i, Free)];
          }
          ghost var w' := if env.forward == PerhapsForwarded then Sets(Put(w, owner), i, Free) else Sets(w, i, Free);
          assert LookedUp(c, w, w', i, owner, ownerEpoch) || GiveUp(w, w', i);
          return Nak, [w, w'];
        case NoOwner =>
          return Nak, [w, Sets(w, i, Free)];
        case LookupFailed =>
          return Nak, [w, Sets(w, i, Free)];
      }
    }

    /** One transaction: insert the row, run the handler, complete the row, commit. */
    method Process(id: nat, env: Env, ghost c: Setting, ghost w: World, ghost i: nat)
      returns (verdict: Verdict, ghost trail: seq<World>)
      requires Represents(w, i, id) && w.workers[i].hand.Owned? && w.workers[i].hand.copy in w.copies
      modifies this
      ensures Trail(c, i, trail) && trail[0] == w
      ensures Represents(trail[|trail| - 1], i, id) && trail[|trail| - 1].workers[i].hand.Free?
      ensures w.workers[i].hand.copy in trail[|trail| - 1].copies <==> verdict == Nak
      ensures handled == if env.begins && env.inserts && id !in old(table) then old(handled) + [id] else old(handled)
      ensures forall k | k != id :: (k in table <==> k in old(table)) && (k in table ==> table[k] == old(table)[k])
      ensures committed >= old(committed) && committed == old(committed)[id := committed[id]]
      ensures Transacted(env, old(Row(id)), Row(id), committed[id] - old(committed)[id], verdict)
    {
      ghost var copy := w.workers[i].hand.copy;
      if !env.begins {
        return Nak, [w, Sets(w, i, Free)];
      }
      if !env.inserts {
        return Nak, [w, Sets(w, i, Free)];
      }
      if id in table {
        if table[id] != Pending {
          return Ack, [w, Sets(Discharge(w, copy), i, Free)];
        }
        return Nak, [w, Sets(w, i, Free)];
      }
      ghost var rest;
      ghost var w1 := Sets(w, i, InTx(copy));
      verdict, rest := HandleNew(id, env, c, w1, i);
      trail := [w] + rest;
      forall n: nat | n + 1 < |trail| ensures MoveAt(c, i, trail, n) {
        assert n > 0 ==> MoveAt(c, i, rest, n - 1);
      }
    }

    /** The handler's turn: the row was inserted as pending. */
    method HandleNew(id: nat, env: Env, ghost c: Setting, ghost w: World, ghost i: nat)
      returns (verdict: Verdict, ghost trail: seq<World>)
      requires Represents(w, i, id) && w.workers[i].hand.InTx? && w.workers[i].hand.copy in w.copies
      requires id !in table && env.begins && env.inserts
      modifies this
      ensures Trail(c, i, trail) && trail[0] == w
      ensures Represents(trail[|trail| - 1], i, id) && trail[|trail| - 1].workers[i].hand.Free?
      ensures w.workers[i].hand.copy in trail[|trail| - 1].copies <==> verdict == Nak
      ensures handled == old(handled) + [id]
      ensures table == old(table) || (id in table && table == old(table)[id := table[id]])
      ensures committed >= old(committed) && committed == old(committed)[id := committed[id]]
      ensures Transacted(env, None, Row(id), committed[id] - old(committed)[id], verdict)
    {
      ghost var copy := w.workers[i].hand.copy;
      handled := handled + [id];
      ghost var ran := w.(runs := w.runs + [node]);
      if env.outcome == Retryable || !env.completes {
        assert Handle(w, Sets(ran, i, Free), i, None);
        return Nak, [w, Sets(ran, i, Free)];
      }
      var fatal := env.outcome == Fatal;
      var status := if fatal then Failed else StatusOf(env.outcome.receipt);
      ghost var w2 := Sets(ran, i, Staged(copy, status, fatal));
      assert Handle(w, w2, i, if fatal then None else Some(env.outcome.receipt));

      if env.commit == Lost {
        return Nak, [w, w2, Sets(w2, i, Free)];
      }
      table := table[id := status];
      committed := committed + multiset{id};
      ghost var done := w2.(row := Some(status), effects := w2.effects + 1);
      if env.commit == Ambiguous {
        return Nak, [w, w2, Sets(done, i, Free)];
      }
      ghost var w3 := Sets(done, i, Settled(copy));
      verdict := if fatal then Term else Ack;
      trail := [w, w2, w3, Sets(Discharge(w3, copy), i, Free)];
    }
  }
}
