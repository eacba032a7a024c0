/** Dispatching and the inboxes together: one operation's command from its first dispatch attempt
    to the commit of its handler's effects. */
module Delivery {
  import opened Wrappers
  import opened Operations
  import D = Dispatch
  import I = Inbox

  datatype World = World(dispatch: D.World, inbox: I.World)

  /** A dispatcher refused the attempt because the send failed; the message may still have got
      onto the bus. */
  ghost predicate SendFails(d: D.World, d': D.World) {
    exists k: nat ::
      k < |d.phases| == |d'.phases| && D.Send(D.ViewOf(d, k), D.ViewOf(d', k)) && d'.phases[k].Refused?
  }

  ghost predicate DispatchStep(w: World, w': World) {
    && D.Next(w.dispatch, w'.dispatch)
    && if w'.dispatch.sends > w.dispatch.sends
       then I.Arrive(w.inbox, w'.inbox)
       else w'.inbox == w.inbox || (SendFails(w.dispatch, w'.dispatch) && I.Arrive(w.inbox, w'.inbox))
  }

  /** The handler's transaction may save the operation too. */
  ghost predicate InboxStep(c: I.Setting, w: World, w': World) {
    && (exists i: nat :: I.WorkerMoves(c, w.inbox, w'.inbox, i))
    && (w'.dispatch == w.dispatch || D.OtherWriter(w.dispatch, w'.dispatch))
  }

  ghost predicate Next(c: I.Setting, w: World, w': World) {
    DispatchStep(w, w') || InboxStep(c, w, w')
  }

  ghost predicate StepAt(c: I.Setting, ws: seq<World>, n: nat)
    requires n + 1 < |ws|
  {
    Next(c, ws[n], ws[n + 1])
  }

  ghost predicate Run(c: I.Setting, ws: seq<World>) {
    && |ws| > 0
    && D.Init(ws[0].dispatch) && I.Init(ws[0].inbox)
    && forall n: nat | n + 1 < |ws| :: StepAt(c, ws, n)
  }

  ghost predicate Untouched(w: I.World) {
    w.effects == 0 && w.runs == [] && forall i | 0 <= i < |w.workers| :: w.workers[i].hand.Free?
  }

  ghost predicate Inv(c: I.Setting, w: World) {
    && D.Inv(w.dispatch)
    && I.Inv(c, w.inbox)
    && (w.inbox.nextCopy == 0 ==> Untouched(w.inbox) && w.dispatch.sends == 0)
    && (w.inbox.nextCopy > 0 ==> Attempts(w.dispatch.stored) != [])
  }

  lemma AttemptsStay(w: D.World, w': D.World)
    requires D.Inv(w) && D.Next(w, w')
    ensures |Attempts(w'.stored)| >= |Attempts(w.stored)|
  {
    if !D.OtherWriter(w, w') {
      var d: nat :| D.DispatcherMoves(w, w', d);
      MoveKeepsAttempts(D.ViewOf(w, d), D.ViewOf(w', d));
    }
  }

  lemma MoveKeepsAttempts(v: D.View, v': D.View)
    requires D.PhaseOk(v.stored, v.phase) && D.Move(v, v')
    ensures |Attempts(v'.stored)| >= |Attempts(v.stored)|
  {
    D.ReuseNeverSaves(v, v');
    if v'.stored != v.stored {
      D.SaveNeedsCurrentCopy(v.stored, v.phase.op, v'.stored);
    }
  }

  lemma RecordedHasAttempt(stored: Operation, phase: D.Phase)
    requires D.PhaseOk(stored, phase) && phase.Recorded?
    ensures Attempts(stored) != []
  {
  }

  /** While a dispatcher sends, its attempt is stored. */
  lemma SenderHasAttempt(w: D.World, w': D.World)
    requires D.Inv(w) && D.Next(w, w')
    requires w'.sends > w.sends || SendFails(w, w')
    ensures Attempts(w.stored) != []
  {
    var k: nat;
    if w'.sends > w.sends {
      k :| D.DispatcherMoves(w, w', k);
      D.OnlySendSends(D.ViewOf(w, k), D.ViewOf(w', k));
    } else {
      k :| k < |w.phases| == |w'.phases| && D.Send(D.ViewOf(w, k), D.ViewOf(w', k)) && w'.phases[k].Refused?;
    }
    RecordedHasAttempt(w.stored, w.phases[k]);
  }

  lemma UntouchedStays(c: I.Setting, w: I.World, w': I.World, i: nat)
    requires I.Inv(c, w) && w.nextCopy == 0 && Untouched(w) && I.WorkerMoves(c, w, w', i)
    ensures w'.nextCopy == 0 && Untouched(w')
  {
    assert w.workers[i].hand.Free?;
    assert w.copies.Keys == {};
    assert w' == I.Sets(w, i, I.Free);
  }

  lemma NextKeeps(c: I.Setting, w: World, w': World)
    requires Inv(c, w) && Next(c, w, w')
    ensures Inv(c, w')
  {
    if InboxStep(c, w, w') {
      InboxStepKeeps(c, w, w');
    } else {
      DispatchStepKeeps(c, w, w');
    }
  }

  lemma InboxStepKeeps(c: I.Setting, w: World, w': World)
    requires Inv(c, w) && InboxStep(c, w, w')
    ensures Inv(c, w')
  {
    var i: nat :| I.WorkerMoves(c, w.inbox, w'.inbox, i);
    I.NextKeeps(c, w.inbox, w'.inbox);
    if w.inbox.nextCopy == 0 {
      UntouchedStays(c, w.inbox, w'.inbox, i);
    }
    if w'.dispatch != w.dispatch {
      D.OtherWriterKeeps(w.dispatch, w'.dispatch);
    }
  }

  lemma DispatchStepKeeps(c: I.Setting, w: World, w': World)
    requires Inv(c, w) && DispatchStep(w, w')
    ensures Inv(c, w')
  {
    D.NextKeeps(w.dispatch, w'.dispatch);
    AttemptsStay(w.dispatch, w'.dispatch);
    if w'.inbox != w.inbox {
      SenderHasAttempt(w.dispatch, w'.dispatch);
      I.NextKeeps(c, w.inbox, w'.inbox);
    }
  }

  lemma {:induction false} Reachable(c: I.Setting, ws: seq<World>, n: nat)
    requires Run(c, ws) && n < |ws|
    ensures Inv(c, ws[n])
  {
    if n > 0 {
      Reachable(c, ws, n - 1);
      assert StepAt(c, ws, n - 1);
      NextKeeps(c, ws[n - 1], ws[n]);
    }
  }

  /** End to end, in every run mixing crashes, concurrent dispatchers, failed and ambiguous sends,
      redelivery, forwarding, ownership changes and ambiguous commits: the bus accepts the command
      at most once, its effects are committed at most once, only after an attempt was stored and only
      on the node its epoch was issued to, and an accepted command is never lost. */
  lemma EndToEnd(c: I.Setting, ws: seq<World>, n: nat)
    requires Run(c, ws) && n < |ws|
    ensures ws[n].dispatch.sends <= 1
    ensures ws[n].inbox.effects <= 1
    ensures ws[n].inbox.effects == 1 ==> Attempts(ws[n].dispatch.stored) != []
    ensures forall k | 0 <= k < |ws[n].inbox.runs| :: ws[n].inbox.runs[k] == c.issued(c.epoch)
    ensures ws[n].dispatch.sends == 1 ==>
      ws[n].inbox.copies != map[] || ws[n].inbox.row.Some? || ws[n].inbox.termed > 0
  {
    Reachable(c, ws, n);
  }
}
