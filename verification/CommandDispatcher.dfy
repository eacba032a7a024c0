/** `CommandDispatcher::dispatch` as one invocation runs it: load, start, record, send, settle, with
    a commit after every stage. The outcomes of the commits, of the owner lookup and of the bus are
    parameters. */
module CommandDispatchers {
  import opened Wrappers
  import opened Operations
  import opened Dispatch

  datatype Commit = Applied | Lost | Ambiguous

  datatype Lookup = Owner(epoch: nat) | NoOwner | LookupFailed

  datatype Env = Env(
    attemptId: nat,
    lookup: Lookup,
    busAccepts: bool,
    startCommit: Commit,
    recordCommit: Commit,
    settleCommit: Commit,
    finishCommit: Commit)

  predicate FreshId(op: Operation, id: nat) {
    forall k | 0 <= k < |Attempts(op)| :: Attempts(op)[k].id != id
  }

  /** The operations for which an undisturbed invocation reaches the bus. */
  predicate Sendable(op: Operation) {
    && !Skips(op)
    && !HasUnsent(op)
    && (HasStep(op) || (op.status == Pending && op.steps == []))
  }

  /** The owner holds the expected epoch and the bus takes the command. */
  predicate Taken(op: Operation, env: Env) { env.lookup == Owner(op.expectedEpoch) && env.busAccepts }

  /** The row of an operation that had `attempts` and for which one more attempt was made. */
  predicate Holds(row: Operation, status: Status, attempts: seq<Attempt>, id: nat, outcome: AttemptStatus) {
    row.status == status && Attempts(row) == attempts + [Attempt(id, outcome)]
  }

  /** The last attempt is the unsent one called `id`. */
  predicate Newest(op: Operation, id: nat) {
    var attempts := Attempts(op);
    && attempts != [] && attempts[|attempts| - 1] == Attempt(id, Unsent)
    && forall k | 0 <= k < |attempts| - 1 :: attempts[k].id != id
  }

  function Earlier(op: Operation): seq<Attempt>
    requires Attempts(op) != []
  {
    Attempts(op)[..|Attempts(op)| - 1]
  }

  /** What an invocation leaves stored and returns once its attempt is recorded. A command that was
      taken is marked sent. One that was not has its attempt nacked and then, under a second commit, the
      operation failed. A commit that is lost stops right before, an ambiguous one right after. */
  predicate Concluded(env: Env, taken: bool, attempts: seq<Attempt>, row: Operation, r: Option<Operation>) {
    var id := env.attemptId;
    match env.settleCommit
    case Lost => Holds(row, Running, attempts, id, Unsent) && r.None?
    case Ambiguous => Holds(row, Running, attempts, id, if taken then Sent else Nacked) && r.None?
    case Applied =>
      if taken then Holds(row, Running, attempts, id, Sent) && r == Some(row)
      else
        match env.finishCommit
        case Lost => Holds(row, Running, attempts, id, Nacked) && r.None?
        case Ambiguous => Holds(row, Failed, attempts, id, Nacked) && r.None?
        case Applied => Holds(row, Failed, attempts, id, Nacked) && r == Some(row)
  }

  /** What an invocation leaves of an operation `op`, for every outcome of its surroundings. */
  predicate Upshot(env: Env, op: Operation, row: Operation, r: Option<Operation>, sends: bool) {
    var idle := row.status == Running && Attempts(row) == Attempts(op) && r.None? && !sends;
    if op.status.Terminal() || (op.status == Running && HasSentOrAcked(op)) then row == op && r == Some(op) && !sends
    else if op.status == Pending && env.startCommit == Lost then row == op && r.None? && !sends
    else if op.status == Pending && env.startCommit == Ambiguous then idle
    else if !Sendable(op) || env.recordCommit == Lost then idle
    else if env.recordCommit == Ambiguous
    then Holds(row, Running, Attempts(op), env.attemptId, Unsent) && r.None? && !sends
    else Concluded(env, Taken(op, env), Attempts(op), row, r) && sends == Taken(op, env)
  }

  /** Every commit is applied and reported. */
  predicate NothingLost(env: Env) {
    env.startCommit == env.recordCommit == env.settleCommit == env.finishCommit == Applied
  }

  /** With nothing lost the command is sent exactly if the operation is sendable and the command is taken;
      a sendable operation then runs with its attempt sent, or has failed with its attempt nacked. */
  lemma NothingLostDecides(env: Env, op: Operation, row: Operation, r: Option<Operation>, sends: bool)
    requires Upshot(env, op, row, r, sends) && NothingLost(env)
    ensures sends <==> Sendable(op) && env.lookup == Owner(op.expectedEpoch) && env.busAccepts
    ensures Sendable(op) ==>
      && r == Some(row) && row.status == (if sends then Running else Failed)
      && Attempts(row) == Attempts(op) + [Attempt(env.attemptId, if sends then Sent else Nacked)]
  {
  }

  /** A refused command is refused for good: whatever the next invocation meets, it sends nothing and
      returns the failed operation as it is. */
  lemma RefusedForGood(env: Env, op: Operation, row: Operation, r: Option<Operation>,
                       env': Env, row': Operation, r': Option<Operation>, sends': bool)
    requires Sendable(op) && NothingLost(env) && (env.lookup != Owner(op.expectedEpoch) || !env.busAccepts)
    requires Upshot(env, op, row, r, false) && Upshot(env', row, row', r', sends')
    ensures row.status == Failed && row' == row && r' == Some(row) && !sends'
  {
    NothingLostDecides(env, op, row, r, false);
  }

  ghost predicate MoveAt(vs: seq<View>, i: nat)
    requires i + 1 < |vs|
  {
    Move(vs[i], vs[i + 1])
  }

  ghost predicate Trail(vs: seq<View>) {
    |vs| > 0 && forall i: nat | i + 1 < |vs| :: MoveAt(vs, i)
  }

  class CommandDispatcher {
    /** The committed operation rows. */
    var stored: map<nat, Operation>
    /** Operations whose command the bus accepted, in order. */
    var sent: seq<nat>

    constructor (rows: map<nat, Operation>)
      ensures stored == rows && sent == []
    {
      stored := rows;
      sent := [];
    }

    function ViewAt(id: nat, phase: Phase): View
      requires id in stored
      reads this
    {
      View(stored[id], phase, multiset(sent)[id])
    }

    /** `save` followed by `commit`. */
    method SaveOperation(id: nat, op: Operation, commit: Commit) returns (ok: bool)
      requires id in stored
      modifies this`stored
      ensures ok <==> Accepts(old(stored[id]), op) && commit == Applied
      ensures stored == if Accepts(old(stored[id]), op) && commit != Lost
                        then old(stored)[id := op] else old(stored)
    {
      if op.revision != stored[id].revision + 1 {
        return false;
      }
      if commit != Lost {
        stored := stored[id := op];
      }
      ok := commit == Applied;
    }

    /** Load, and move a pending operation to running under its own commit. */
    method Open(id: nat, env: Env) returns (phase: Phase, skipped: bool, ghost trail: seq<View>)
      requires id in stored
      modifies this`stored
      ensures stored.Keys == old(stored).Keys
      ensures forall k | k in stored && k != id :: stored[k] == old(stored)[k]
      ensures Trail(trail) && trail[0] == old(ViewAt(id, Idle)) && trail[|trail| - 1] == ViewAt(id, phase)
      ensures skipped == Skips(old(stored[id])) && (skipped ==> stored == old(stored))
      ensures phase.Idle? || phase == Begun(stored[id])
      ensures phase.Begun? ==>
        && !skipped && phase.op.status == Running
        && phase.op.stepId == old(stored[id]).stepId
        && phase.op.expectedEpoch == old(stored[id]).expectedEpoch
        && Attempts(phase.op) == Attempts(old(stored[id]))
        && (HasStep(phase.op) <==>
              HasStep(old(stored[id])) || (old(stored[id]).status == Pending && old(stored[id]).steps == []))
      ensures phase.Begun? <==> !skipped && (old(stored[id]).status == Running || env.startCommit == Applied)
      ensures phase.Idle? && (skipped || env.startCommit == Lost) ==> stored == old(stored)
      ensures phase.Idle? && !skipped && env.startCommit == Ambiguous ==>
        stored[id].status == Running && Attempts(stored[id]) == Attempts(old(stored[id]))
    {
      var op := stored[id];
      ghost var v0 := ViewAt(id, Idle);
      if op.status.Terminal() || (op.status == Running && HasSentOrAcked(op)) {
        return Idle, true, [v0];
      }
      ghost var v1 := ViewAt(id, Loaded(op));
      if op.status == Pending {
        op := Start(op).value;
        var ok := SaveOperation(id, op, env.startCommit);
        if !ok {
          return Idle, false, [v0, v1, ViewAt(id, Idle)];
        }
      }
      return Begun(op), false, [v0, v1, ViewAt(id, Begun(op))];
    }

    /** Re-use an unsent attempt or record a new one, then `save_operation`. */
    method Record(id: nat, begun: Operation, env: Env) returns (phase: Phase)
      requires id in stored && stored[id] == begun && FreshId(begun, env.attemptId)
      modifies this`stored
      ensures stored.Keys == old(stored).Keys
      ensures forall k | k in stored && k != id :: stored[k] == old(stored)[k]
      ensures Move(old(ViewAt(id, Begun(begun))), ViewAt(id, phase))
      ensures phase.Idle? || phase == Recorded(stored[id], env.attemptId)
      ensures phase.Recorded? <==> !HasUnsent(begun) && HasStep(begun) && env.recordCommit == Applied
      ensures phase.Recorded? ==> RecordAttempt(begun, env.attemptId) == Some(stored[id])
      ensures HasUnsent(begun) || !HasStep(begun) || env.recordCommit == Lost ==> stored == old(stored)
      ensures !HasUnsent(begun) && HasStep(begun) && env.recordCommit == Ambiguous ==>
        RecordAttempt(begun, env.attemptId) == Some(stored[id])
    {
      ghost var v := ViewAt(id, Begun(begun));
      var op, attemptId := begun, env.attemptId;
      match FindUnsent(Attempts(op)) {
        case Some(pending) =>
          assert HasUnsent(begun) by {
            var k :| 0 <= k < |Attempts(op)| && Attempts(op)[k] == Attempt(pending, Unsent);
          }
          attemptId := pending;
        case None =>
          var recorded := RecordAttempt(op, attemptId);
          if recorded.None? {
            return Idle;
          }
          op := recorded.value;
      }
      var saved := SaveOperation(id, op, env.recordCommit);
      phase := if saved then Recorded(op, attemptId) else Idle;
      assert RecordNew(v, ViewAt(id, phase), attemptId) || Abort(v, ViewAt(id, phase));
    }

    /** From the owner lookup on: send, then record the outcome. */
    method Deliver(id: nat, recorded: Operation, attemptId: nat, env: Env)
      returns (r: Option<Operation>, ghost trail: seq<View>)
      requires id in stored && recorded.status == Running && HasStep(recorded)
      requires Attempt(attemptId, Unsent) in Attempts(recorded)
      modifies this
      ensures stored.Keys == old(stored).Keys
      ensures forall k | k in stored && k != id :: stored[k] == old(stored)[k]
      ensures Trail(trail) && trail[0] == old(ViewAt(id, Recorded(recorded, attemptId)))
      ensures trail[|trail| - 1] == ViewAt(id, Idle)
      ensures sent == if env.lookup == Owner(recorded.expectedEpoch) && env.busAccepts
                      then old(sent) + [id] else old(sent)
      ensures old(stored[id]) == recorded && attemptId == env.attemptId && Newest(recorded, attemptId) ==>
        Concluded(env, Taken(recorded, env), Earlier(recorded), stored[id], r)
    {
      if Newest(recorded, attemptId) {
        NewestSettles(recorded, attemptId, Sent);
      }
      ghost var v0 := ViewAt(id, Recorded(recorded, attemptId));
      if env.lookup == Owner(recorded.expectedEpoch) && env.busAccepts {
        sent := sent + [id];
        ghost var v1 := ViewAt(id, Accepted(recorded, attemptId));
        var op := MarkAttempt(recorded, attemptId, Sent).value;
        var saved := SaveOperation(id, op, env.settleCommit);
        return if saved then Some(op) else None, [v0, v1, ViewAt(id, Idle)];
      }
      ghost var rest;
      r, rest := Refuse(id, recorded, attemptId, env);
      TrailJoin([v0, rest[0]], rest);
      trail := [v0, rest[0]] + rest[1..];
    }

    /** No usable owner, or the bus refused: nack the attempt, then fail the operation. */
    method Refuse(id: nat, recorded: Operation, attemptId: nat, env: Env)
      returns (r: Option<Operation>, ghost trail: seq<View>)
      requires id in stored && recorded.status == Running && HasStep(recorded)
      requires Attempt(attemptId, Unsent) in Attempts(recorded)
      modifies this`stored
      ensures stored.Keys == old(stored).Keys
      ensures forall k | k in stored && k != id :: stored[k] == old(stored)[k]
      ensures Trail(trail) && trail[0] == old(ViewAt(id, Refused(recorded, attemptId)))
      ensures trail[|trail| - 1] == ViewAt(id, Idle)
      ensures old(stored[id]) == recorded && attemptId == env.attemptId && Newest(recorded, attemptId) ==>
        Concluded(env, false, Earlier(recorded), stored[id], r)
    {
      if Newest(recorded, attemptId) {
        NewestSettles(recorded, attemptId, Nacked);
      }
      ghost var v1 := ViewAt(id, Refused(recorded, attemptId));
      var op := MarkAttempt(recorded, attemptId, Nacked).value;
      var saved := SaveOperation(id, op, env.settleCommit);
      if !saved {
        return None, [v1, ViewAt(id, Idle)];
      }
      ghost var v2 := ViewAt(id, Nackd(op));
      op := Fail(op).value;
      saved := SaveOperation(id, op, env.finishCommit);
      r := if saved then Some(op) else None;
      trail := [v1, v2, ViewAt(id, Idle)];
    }

    /** Every invocation is a trail of moves of the transition system, touches no other operation, and
        leaves what `Upshot` says. So with nothing lost it sends exactly when the owner and the bus take the
        command of a sendable operation; one that is not taken fails the operation for good, since a failed
        operation is returned as it is ever after. */
    method Dispatch(id: nat, env: Env) returns (r: Option<Operation>, ghost trail: seq<View>)
      requires id in stored ==> FreshId(stored[id], env.attemptId)
      modifies this
      ensures id !in old(stored) ==> r.None? && stored == old(stored) && sent == old(sent)
      ensures id in old(stored) ==>
        && stored.Keys == old(stored).Keys
        && (forall k | k in stored && k != id :: stored[k] == old(stored)[k])
        && Trail(trail)
        && trail[0] == old(ViewAt(id, Idle))
        && trail[|trail| - 1] == ViewAt(id, Idle)
      ensures id in old(stored) ==>
        && (sent == old(sent) || sent == old(sent) + [id])
        && Upshot(env, old(stored[id]), stored[id], r, sent != old(sent))
    {
      trail := [];
      if id !in stored {
        return None, trail;
      }
      var phase, skipped;
      phase, skipped, trail := Open(id, env);
      if phase.Idle? {
        return if skipped then Some(stored[id]) else None, trail;
      }
      ghost var rest;
      r, rest := Proceed(id, phase.op, env);
      TrailJoin(trail, rest);
      trail := trail + rest[1..];
    }

    /** From the running operation on. */
    method Proceed(id: nat, begun: Operation, env: Env) returns (r: Option<Operation>, ghost trail: seq<View>)
      requires id in stored && stored[id] == begun && begun.status == Running && FreshId(begun, env.attemptId)
      modifies this
      ensures stored.Keys == old(stored).Keys
      ensures forall k | k in stored && k != id :: stored[k] == old(stored)[k]
      ensures Trail(trail) && trail[0] == old(ViewAt(id, Begun(begun)))
      ensures trail[|trail| - 1] == ViewAt(id, Idle)
      ensures
        var ready := !HasUnsent(begun) && HasStep(begun);
        && sent == (if ready && env.recordCommit == Applied && Taken(begun, env) then old(sent) + [id] else old(sent))
        && if !ready || env.recordCommit == Lost then stored == old(stored) && r.None?
           else if env.recordCommit == Ambiguous
           then Holds(stored[id], Running, Attempts(begun), env.attemptId, Unsent) && r.None?
           else Concluded(env, Taken(begun, env), Attempts(begun), stored[id], r)
    {
      ghost var v := ViewAt(id, Begun(begun));
      var phase := Record(id, begun, env);
      trail := [v, ViewAt(id, phase)];
      assert MoveAt(trail, 0);
      if phase.Idle? {
        return None, trail;
      }
      assert Attempts(phase.op)[|Attempts(phase.op)| - 1] == Attempt(env.attemptId, Unsent);
      assert Newest(phase.op, env.attemptId) && Earlier(phase.op) == Attempts(begun);
      ghost var rest;
      r, rest := Deliver(id, phase.op, phase.attempt, env);
      TrailJoin(trail, rest);
      trail := trail + rest[1..];
    }
  }

  lemma TrailJoin(vs: seq<View>, ws: seq<View>)
    requires Trail(vs) && Trail(ws) && vs[|vs| - 1] == ws[0]
    ensures Trail(vs + ws[1..])
    ensures (vs + ws[1..])[0] == vs[0]
    ensures (vs + ws[1..])[|vs + ws[1..]| - 1] == ws[|ws| - 1]
  {
    var joined := vs + ws[1..];
    forall i: nat | i + 1 < |joined| ensures MoveAt(joined, i) {
      if i + 1 < |vs| {
        assert MoveAt(vs, i);
      } else {
        assert MoveAt(ws, i + 1 - |vs|);
        assert joined[i] == ws[i + 1 - |vs|] && joined[i + 1] == ws[i + 2 - |vs|];
      }
    }
  }

  lemma NewestSettles(op: Operation, id: nat, status: AttemptStatus)
    requires HasStep(op) && Newest(op, id)
    ensures MarkAttempt(op, id, status).Some?
    ensures Attempts(MarkAttempt(op, id, status).value) == Earlier(op) + [Attempt(id, status)]
    ensures Attempts(op) == Earlier(op) + [Attempt(id, Unsent)]
  {
    var attempts := Attempts(op);
    assert attempts[|attempts| - 1].id == id;
    assert IndexOfAttempt(attempts, id) == |attempts| - 1;
  }
}
