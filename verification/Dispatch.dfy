/** Dispatching one operation's command, by any number of dispatchers that run, crash and retry
    concurrently with every other writer of the operation.

    A dispatcher keeps a private copy of the operation between its commits. Each commit is
    all-or-nothing but may be applied and still reported as failed; a crash may strike anywhere. */
module Dispatch {
  import opened Wrappers
  import opened Operations

  /** Where a dispatcher stands in `dispatch`, with the copy of the operation it holds. */
  datatype Phase =
    | Idle
    | Loaded(op: Operation)
    | Begun(op: Operation)
    | Recorded(op: Operation, attempt: nat)
    | Accepted(op: Operation, attempt: nat)
    | Refused(op: Operation, attempt: nat)
    | Nackd(op: Operation)
  {
    /** Between recording an attempt and recording what became of it. */
    predicate Holding() { Recorded? || Accepted? || Refused? }
  }

  /** What one dispatcher sees: the stored operation, its own phase, commands the bus accepted. */
  datatype View = View(stored: Operation, phase: Phase, sends: nat)

  predicate Skips(op: Operation) {
    op.status.Terminal() || (op.status == Running && HasSentOrAcked(op))
  }

  /** Saving and committing `candidate`. A failed save or commit that was not applied is `Abort`. */
  predicate Persist(v: View, w: View, candidate: Operation, next: Phase) {
    && Accepts(v.stored, candidate)
    && (w == View(candidate, next, v.sends) || w == View(candidate, Idle, v.sends))
  }

  predicate Load(v: View, w: View) {
    && v.phase.Idle?
    && w == v.(phase := if Skips(v.stored) then Idle else Loaded(v.stored))
  }

  predicate Begin(v: View, w: View) {
    && v.phase.Loaded?
    && if v.phase.op.status == Pending
       then Persist(v, w, Start(v.phase.op).value, Begun(Start(v.phase.op).value))
       else w == v.(phase := Begun(v.phase.op))
  }

  predicate RecordNew(v: View, w: View, id: nat) {
    && v.phase.Begun?
    && FindUnsent(Attempts(v.phase.op)).None?
    && (forall k | 0 <= k < |Attempts(v.phase.op)| :: Attempts(v.phase.op)[k].id != id)
    && RecordAttempt(v.phase.op, id).Some?
    && Persist(v, w, RecordAttempt(v.phase.op, id).value, Recorded(RecordAttempt(v.phase.op, id).value, id))
  }

  /** The crash-recovery path: the unsent attempt found in the copy is taken over and the copy,
      which nothing has changed, is saved again. */
  predicate Reuse(v: View, w: View) {
    && v.phase.Begun?
    && FindUnsent(Attempts(v.phase.op)).Some?
    && Persist(v, w, v.phase.op, Recorded(v.phase.op, FindUnsent(Attempts(v.phase.op)).value))
  }

  /** Resolving the owner and sending; an unusable owner or a failed send refuses the attempt. */
  predicate Send(v: View, w: View) {
    && v.phase.Recorded?
    && (|| w == View(v.stored, Accepted(v.phase.op, v.phase.attempt), v.sends + 1)
        || w == View(v.stored, Refused(v.phase.op, v.phase.attempt), v.sends))
  }

  predicate MarkSent(v: View, w: View) {
    && v.phase.Accepted?
    && MarkAttempt(v.phase.op, v.phase.attempt, Sent).Some?
    && Persist(v, w, MarkAttempt(v.phase.op, v.phase.attempt, Sent).value, Idle)
  }

  predicate MarkNacked(v: View, w: View) {
    && v.phase.Refused?
    && MarkAttempt(v.phase.op, v.phase.attempt, Nacked).Some?
    && var marked := MarkAttempt(v.phase.op, v.phase.attempt, Nacked).value;
       Persist(v, w, marked, Nackd(marked))
  }

  predicate Finish(v: View, w: View) {
    && v.phase.Nackd?
    && Fail(v.phase.op).Some?
    && Persist(v, w, Fail(v.phase.op).value, Idle)
  }

  /** A crash, a storage error, a rejected save, or a commit that was not applied. */
  predicate Abort(v: View, w: View) {
    w == v.(phase := Idle)
  }

  ghost predicate Move(v: View, w: View) {
    || Load(v, w) || Begin(v, w) || (exists id: nat :: RecordNew(v, w, id)) || Reuse(v, w) || Send(v, w)
    || MarkSent(v, w) || MarkNacked(v, w) || Finish(v, w) || Abort(v, w)
  }

  /** The whole dispatching side: the stored operation, every dispatcher, the accepted sends. */
  datatype World = World(stored: Operation, phases: seq<Phase>, sends: nat)

  function ViewOf(w: World, d: nat): View
    requires d < |w.phases|
  {
    View(w.stored, w.phases[d], w.sends)
  }

  ghost predicate DispatcherMoves(w: World, w': World, d: nat) {
    && d < |w.phases| == |w'.phases|
    && Move(ViewOf(w, d), ViewOf(w', d))
    && w'.phases == w.phases[d := w'.phases[d]]
  }

  /** Any other writer (cancel, timeout, completion, a start elsewhere): one accepted save that
      leaves the dispatch attempts alone, never revives and never returns to `Pending`. */
  ghost predicate OtherWriter(w: World, w': World) {
    && w' == w.(stored := w'.stored)
    && Accepts(w.stored, w'.stored)
    && w'.stored.stepId == w.stored.stepId
    && Attempts(w'.stored) == Attempts(w.stored)
    && (w'.stored.status == Pending ==> w.stored.status == Pending)
    && (w.stored.status.Terminal() ==> w'.stored.status.Terminal())
  }

  ghost predicate Next(w: World, w': World) {
    (exists d: nat :: DispatcherMoves(w, w', d)) || OtherWriter(w, w')
  }

  /** A submitted operation that nobody has begun to dispatch. */
  predicate Init(w: World) {
    && w.stored.status == Pending
    && Attempts(w.stored) == []
    && w.sends == 0
    && forall d | 0 <= d < |w.phases| :: w.phases[d].Idle?
  }

  ghost predicate StepAt(ws: seq<World>, i: nat)
    requires i + 1 < |ws|
  {
    Next(ws[i], ws[i + 1])
  }

  ghost predicate Run(ws: seq<World>) {
    && |ws| > 0
    && Init(ws[0])
    && forall i: nat | i + 1 < |ws| :: StepAt(ws, i)
  }

  // ---------------------------------------------------------------- invariant

  predicate DistinctIds(attempts: seq<Attempt>) {
    forall i, j | 0 <= i < j < |attempts| :: attempts[i].id != attempts[j].id
  }

  predicate OneUnsent(attempts: seq<Attempt>) {
    forall i, j | 0 <= i < j < |attempts| :: attempts[i].status != Unsent || attempts[j].status != Unsent
  }

  /** A copy is never newer than the stored operation, and equally new only if it is the same. */
  predicate CopyOf(stored: Operation, op: Operation) {
    && op.stepId == stored.stepId
    && op.revision <= stored.revision
    && (op.revision == stored.revision ==> op == stored)
  }

  predicate PhaseOk(stored: Operation, phase: Phase) {
    match phase
    case Idle => true
    case Loaded(op) => CopyOf(stored, op) && !HasSentOrAcked(op) && !op.status.Terminal()
    case Begun(op) => CopyOf(stored, op) && !HasSentOrAcked(op) && op.status == Running
    case Recorded(op, a) => CopyOf(stored, op) && Attempt(a, Unsent) in Attempts(stored)
    case Accepted(op, a) => CopyOf(stored, op) && Attempt(a, Unsent) in Attempts(stored)
    case Refused(op, a) => CopyOf(stored, op) && Attempt(a, Unsent) in Attempts(stored)
    case Nackd(op) => CopyOf(stored, op)
  }

  predicate StoredOk(op: Operation) {
    && DistinctIds(Attempts(op))
    && OneUnsent(Attempts(op))
    && (op.status == Pending ==> Attempts(op) == [])
  }

  ghost predicate OneHolder(phases: seq<Phase>) {
    forall d, e | 0 <= d < |phases| && 0 <= e < |phases| && phases[d].Holding() && phases[e].Holding() :: d == e
  }

  /** Once the bus has accepted the command nothing is about to be sent again, and the stored
      attempts say so for good. */
  ghost predicate SentOnce(w: World) {
    && w.sends <= 1
    && (w.sends == 1 ==>
          && (HasUnsent(w.stored) || HasSentOrAcked(w.stored))
          && forall d | 0 <= d < |w.phases| :: !w.phases[d].Recorded? && !w.phases[d].Refused?)
    && (w.sends == 0 ==> forall d | 0 <= d < |w.phases| :: !w.phases[d].Accepted?)
  }

  ghost predicate Inv(w: World) {
    && StoredOk(w.stored)
    && (forall d | 0 <= d < |w.phases| :: PhaseOk(w.stored, w.phases[d]))
    && OneHolder(w.phases)
    && SentOnce(w)
  }

  lemma PhaseSurvives(stored: Operation, stored': Operation, phase: Phase)
    requires PhaseOk(stored, phase) && Accepts(stored, stored') && stored'.stepId == stored.stepId
    requires phase.Holding() ==> Attempts(stored') == Attempts(stored)
    ensures PhaseOk(stored', phase)
  {
  }

  /** A save whose candidate was derived from a copy succeeds only if that copy is current. */
  lemma SaveNeedsCurrentCopy(stored: Operation, op: Operation, candidate: Operation)
    requires CopyOf(stored, op) && Accepts(op, candidate) && Accepts(stored, candidate)
    ensures op == stored
  {
  }

  /** The save on the crash-recovery path is always rejected. */
  lemma ReuseNeverSaves(v: View, w: View)
    requires PhaseOk(v.stored, v.phase)
    ensures !Reuse(v, w)
  {
  }

  lemma SendKeeps(w: World, w': World, d: nat)
    requires Inv(w) && d < |w.phases| == |w'.phases| && w'.phases == w.phases[d := w'.phases[d]]
    requires Send(ViewOf(w, d), ViewOf(w', d))
    ensures Inv(w')
  {
    assert w.phases[d].Holding();
    var a := w.phases[d].attempt;
    var k :| 0 <= k < |Attempts(w.stored)| && Attempts(w.stored)[k] == Attempt(a, Unsent);
    assert HasUnsent(w'.stored);
    assert w.sends == 0;
    forall e | 0 <= e < |w'.phases| ensures e != d ==> !w'.phases[e].Holding() {
      assert e != d ==> w'.phases[e] == w.phases[e];
    }
  }

  lemma RecordNewKeeps(w: World, w': World, d: nat, id: nat)
    requires Inv(w) && d < |w.phases| == |w'.phases| && w'.phases == w.phases[d := w'.phases[d]]
    requires RecordNew(ViewOf(w, d), ViewOf(w', d), id)
    ensures Inv(w')
  {
    var op := w.phases[d].op;
    SaveNeedsCurrentCopy(w.stored, op, w'.stored);
    assert !HasUnsent(w.stored);
    assert w.sends == 0;
    assert w'.stored == RecordAttempt(op, id).value;
    var attempts := Attempts(w'.stored);
    assert attempts[|attempts| - 1] == Attempt(id, Unsent);
    forall e | 0 <= e < |w.phases|
      ensures !w.phases[e].Holding() && PhaseOk(w'.stored, w'.phases[e])
      ensures e != d ==> !w'.phases[e].Holding()
    {
      assert PhaseOk(w.stored, w.phases[e]);
      if e != d {
        PhaseSurvives(w.stored, w'.stored, w.phases[e]);
      }
    }
  }

  lemma SettleKeeps(w: World, w': World, d: nat)
    requires Inv(w) && d < |w.phases| == |w'.phases| && w'.phases == w.phases[d := w'.phases[d]]
    requires MarkSent(ViewOf(w, d), ViewOf(w', d)) || MarkNacked(ViewOf(w, d), ViewOf(w', d))
    ensures Inv(w')
  {
    var phase := w.phases[d];
    assert phase.Holding() && PhaseOk(w.stored, phase);
    SaveNeedsCurrentCopy(w.stored, phase.op, w'.stored);
    MarkSettles(Attempts(w.stored), phase.attempt, if phase.Accepted? then Sent else Nacked);
    forall e | 0 <= e < |w.phases|
      ensures e != d ==> !w'.phases[e].Holding() && PhaseOk(w'.stored, w'.phases[e])
    {
      if e != d {
        assert w'.phases[e] == w.phases[e] && !w.phases[e].Holding();
        PhaseSurvives(w.stored, w'.stored, w.phases[e]);
      }
    }
  }

  /** Settling the only unsent attempt leaves none. */
  lemma MarkSettles(attempts: seq<Attempt>, id: nat, status: AttemptStatus)
    requires DistinctIds(attempts) && OneUnsent(attempts) && Attempt(id, Unsent) in attempts && status != Unsent
    ensures
      var i := IndexOfAttempt(attempts, id);
      && i < |attempts|
      && var after := attempts[i := Attempt(id, status)];
         DistinctIds(after) && OneUnsent(after) && after[i] == Attempt(id, status)
  {
    var k :| 0 <= k < |attempts| && attempts[k] == Attempt(id, Unsent);
    assert k == IndexOfAttempt(attempts, id);
  }

  /** Moves whose save, if any, leaves the attempts as they were. */
  lemma QuietMoveKeeps(w: World, w': World, d: nat)
    requires Inv(w) && d < |w.phases| == |w'.phases| && w'.phases == w.phases[d := w'.phases[d]]
    requires
      var v, v' := ViewOf(w, d), ViewOf(w', d);
      Load(v, v') || Begin(v, v') || Finish(v, v') || Abort(v, v')
    ensures Inv(w')
  {
    var v, v' := ViewOf(w, d), ViewOf(w', d);
    assert PhaseOk(w.stored, w.phases[d]);
    if w'.stored != w.stored {
      SaveNeedsCurrentCopy(w.stored, v.phase.op, w'.stored);
      forall e | 0 <= e < |w.phases| && e != d ensures PhaseOk(w'.stored, w'.phases[e]) {
        PhaseSurvives(w.stored, w'.stored, w.phases[e]);
      }
    }
    assert Attempts(w'.stored) == Attempts(w.stored);
    assert !w'.phases[d].Holding();
  }

  lemma MoveKeeps(w: World, w': World, d: nat)
    requires Inv(w) && DispatcherMoves(w, w', d)
    ensures Inv(w')
  {
    var v, v' := ViewOf(w, d), ViewOf(w', d);
    assert PhaseOk(w.stored, w.phases[d]);
    ReuseNeverSaves(v, v');
    if Send(v, v') {
      SendKeeps(w, w', d);
    } else if MarkSent(v, v') || MarkNacked(v, v') {
      SettleKeeps(w, w', d);
    } else if exists id: nat :: RecordNew(v, v', id) {
      var id: nat :| RecordNew(v, v', id);
      RecordNewKeeps(w, w', d, id);
    } else {
      QuietMoveKeeps(w, w', d);
    }
  }

  lemma OtherWriterKeeps(w: World, w': World)
    requires Inv(w) && OtherWriter(w, w')
    ensures Inv(w')
  {
    forall e | 0 <= e < |w.phases| ensures PhaseOk(w'.stored, w'.phases[e]) {
      PhaseSurvives(w.stored, w'.stored, w.phases[e]);
    }
  }

  lemma NextKeeps(w: World, w': World)
    requires Inv(w) && Next(w, w')
    ensures Inv(w')
  {
    if OtherWriter(w, w') {
      OtherWriterKeeps(w, w');
    } else {
      var d: nat :| DispatcherMoves(w, w', d);
      MoveKeeps(w, w', d);
    }
  }

  lemma InitHolds(w: World)
    requires Init(w)
    ensures Inv(w)
  {
  }

  /** Every state of every run satisfies the invariant. */
  lemma {:induction false} Reachable(ws: seq<World>, n: nat)
    requires Run(ws) && n < |ws|
    ensures Inv(ws[n])
  {
    if n == 0 {
      InitHolds(ws[0]);
    } else {
      Reachable(ws, n - 1);
      assert StepAt(ws, n - 1);
      NextKeeps(ws[n - 1], ws[n]);
    }
  }

  // ---------------------------------------------------------------- results

  /** The bus accepts the command of an operation at most once, whatever crashes. */
  lemma AtMostOneSend(ws: seq<World>, n: nat)
    requires Run(ws) && n < |ws|
    ensures ws[n].sends <= 1
  {
    Reachable(ws, n);
  }

  /** The only unsent attempt among `attempts` is the one called `id`. */
  ghost predicate OnlyUnsent(attempts: seq<Attempt>, id: nat) {
    && Attempt(id, Unsent) in attempts
    && forall j | 0 <= j < |attempts| && attempts[j].status == Unsent :: attempts[j].id == id
  }

  lemma OnlySendSends(v: View, v': View)
    requires Move(v, v') && v'.sends > v.sends
    ensures Send(v, v')
  {
  }

  lemma HeldIsOnlyUnsent(stored: Operation, phase: Phase)
    requires StoredOk(stored) && PhaseOk(stored, phase) && phase.Recorded?
    ensures OnlyUnsent(Attempts(stored), phase.attempt)
  {
    var attempts := Attempts(stored);
    var k :| 0 <= k < |attempts| && attempts[k] == Attempt(phase.attempt, Unsent);
  }

  lemma SendHasCover(w: World, w': World) returns (d: nat)
    requires Inv(w) && Next(w, w') && w'.sends > w.sends
    ensures w'.stored == w.stored
    ensures d < |w.phases| && w.phases[d].Recorded? && OnlyUnsent(Attempts(w.stored), w.phases[d].attempt)
  {
    d :| DispatcherMoves(w, w', d);
    OnlySendSends(ViewOf(w, d), ViewOf(w', d));
    HeldIsOnlyUnsent(w.stored, w.phases[d]);
  }

  /** Write-ahead: when the bus accepts a command the stored operation holds exactly one unsent
      attempt, and it is the sender's. */
  lemma SendIsCovered(ws: seq<World>, n: nat)
    requires Run(ws) && n + 1 < |ws| && ws[n + 1].sends > ws[n].sends
    ensures ws[n].stored == ws[n + 1].stored
    ensures exists d: nat ::
              && d < |ws[n].phases| && ws[n].phases[d].Recorded?
              && OnlyUnsent(Attempts(ws[n].stored), ws[n].phases[d].attempt)
  {
    Reachable(ws, n);
    assert StepAt(ws, n);
    var d := SendHasCover(ws[n], ws[n + 1]);
  }

  /** An unsent attempt is stored and no dispatcher is in the middle of handling it: what a crash
      between recording an attempt and recording its outcome leaves behind. */
  ghost predicate Stranded(w: World) {
    HasUnsent(w.stored) && forall d | 0 <= d < |w.phases| :: !w.phases[d].Holding()
  }

  lemma StrandedStays(w: World, w': World)
    requires Inv(w) && Stranded(w) && Next(w, w')
    ensures Stranded(w') && w'.sends == w.sends && Attempts(w'.stored) == Attempts(w.stored)
  {
    if OtherWriter(w, w') {
      return;
    }
    var d: nat :| DispatcherMoves(w, w', d);
    var v, v' := ViewOf(w, d), ViewOf(w', d);
    assert PhaseOk(w.stored, w.phases[d]);
    ReuseNeverSaves(v, v');
    if w'.stored != w.stored {
      assert v.phase.Loaded? || v.phase.Begun? || v.phase.Nackd?;
      SaveNeedsCurrentCopy(w.stored, v.phase.op, w'.stored);
    }
  }

  /** The comment on `dispatch` says that after such a crash the next invocation re-uses the
      attempt and sends again. It never does: from a stranded state no run sends. */
  lemma {:induction false} StrandedNeverSends(ws: seq<World>, m: nat, n: nat)
    requires Run(ws) && m <= n < |ws| && Stranded(ws[m])
    ensures Stranded(ws[n]) && ws[n].sends == ws[m].sends
    ensures Attempts(ws[n].stored) == Attempts(ws[m].stored)
  {
    if m < n {
      StrandedNeverSends(ws, m, n - 1);
      Reachable(ws, n - 1);
      assert StepAt(ws, n - 1);
      StrandedStays(ws[n - 1], ws[n]);
    }
  }

  /** A run that goes from `w` through `vs`, the views of its first dispatcher. */
  function Led(w: World, vs: seq<View>): seq<World>
    requires w.phases != []
  {
    seq(|vs|, i requires 0 <= i < |vs| => World(vs[i].stored, w.phases[0 := vs[i].phase], vs[i].sends))
  }

  lemma LedRuns(w: World, vs: seq<View>)
    requires Init(w) && w.phases != [] && vs != [] && vs[0] == ViewOf(w, 0)
    requires forall i: nat | i + 1 < |vs| :: Move(vs[i], vs[i + 1])
    ensures Run(Led(w, vs))
  {
    var ws := Led(w, vs);
    forall i: nat | i + 1 < |ws| ensures StepAt(ws, i) {
      assert Move(ViewOf(ws[i], 0), ViewOf(ws[i + 1], 0));
      assert DispatcherMoves(ws[i], ws[i + 1], 0);
    }
  }

  /** Loading, beginning and recording, undisturbed. */
  lemma Recording(op: Operation, id: nat)
    requires op.status == Pending && Attempts(op) == [] && HasStep(Start(op).value)
    ensures
      var begun := Start(op).value;
      && RecordAttempt(begun, id).Some?
      && var recorded := RecordAttempt(begun, id).value;
         && Move(View(op, Idle, 0), View(op, Loaded(op), 0))
         && Move(View(op, Loaded(op), 0), View(begun, Begun(begun), 0))
         && Move(View(begun, Begun(begun), 0), View(recorded, Recorded(recorded, id), 0))
         && HasUnsent(recorded) && recorded.status == Running
  {
    var begun := Start(op).value;
    var recorded := RecordAttempt(begun, id).value;
    assert Begin(View(op, Loaded(op), 0), View(begun, Begun(begun), 0));
    assert RecordNew(View(begun, Begun(begun), 0), View(recorded, Recorded(recorded, id), 0), id);
    assert Attempts(recorded)[0] == Attempt(id, Unsent);
  }

  /** Every operation that has a step once started can be stranded: a dispatcher that crashes right
      after recording its attempt leaves a running operation whose command has not been sent, and, by
      `StrandedNeverSends`, never will be. */
  lemma CrashStrands(w: World, id: nat) returns (ws: seq<World>)
    requires Init(w) && w.phases != [] && HasStep(Start(w.stored).value)
    ensures Run(ws) && ws[0] == w
    ensures
      var last := ws[|ws| - 1];
      Stranded(last) && !last.stored.status.Terminal() && last.sends == 0
  {
    var op := w.stored;
    Recording(op, id);
    var begun := Start(op).value;
    var recorded := RecordAttempt(begun, id).value;
    var vs := [View(op, Idle, 0), View(op, Loaded(op), 0), View(begun, Begun(begun), 0),
               View(recorded, Recorded(recorded, id), 0), View(recorded, Idle, 0)];
    assert Abort(vs[3], vs[4]);
    LedRuns(w, vs);
    ws := Led(w, vs);
    assert w.phases[0 := Idle] == w.phases;
  }

  /** So does a crash right after the bus accepted the command, which is then never marked sent. */
  lemma CrashAfterSendStrands(w: World, id: nat) returns (ws: seq<World>)
    requires Init(w) && w.phases != [] && HasStep(Start(w.stored).value)
    ensures Run(ws) && ws[0] == w
    ensures
      var last := ws[|ws| - 1];
      Stranded(last) && !last.stored.status.Terminal() && last.sends == 1
  {
    var op := w.stored;
    Recording(op, id);
    var begun := Start(op).value;
    var recorded := RecordAttempt(begun, id).value;
    var vs := [View(op, Idle, 0), View(op, Loaded(op), 0), View(begun, Begun(begun), 0),
               View(recorded, Recorded(recorded, id), 0), View(recorded, Accepted(recorded, id), 1),
               View(recorded, Idle, 1)];
    assert Send(vs[3], vs[4]) && Abort(vs[4], vs[5]);
    LedRuns(w, vs);
    ws := Led(w, vs);
    assert w.phases[0 := Idle] == w.phases;
  }
}
