/** The single-session repairs a reconcile pass is made of: converge, fail, and move to another
    media node. They work on copies taken when the pass began. */
module MediaMigration {
  import opened Wrappers
  import opened Media
  import opened MediaStore
  import opened MediaCommands
  import MediaCallbacks
  import Operations

  /** A session and its binding as the pass read them. */
  datatype Pair = Pair(sid: nat, session: Session, bid: nat, binding: Binding)

  ghost predicate CopiedFrom(t: Tables, p: Pair) {
    SessionCopy(t, p.sid, p.session) && BindingCopy(t, p.bid, p.binding)
  }

  predicate Current(t: Tables, p: Pair) {
    && p.sid in t.sessions && t.sessions[p.sid] == p.session
    && p.bid in t.bindings && t.bindings[p.bid] == p.binding
  }

  /** No session but `sid` and no binding but `bid` differs. */
  ghost predicate Only(t: Tables, t': Tables, sid: nat, bid: nat) {
    && t'.sessions.Keys == t.sessions.Keys && t'.bindings.Keys == t.bindings.Keys
    && (forall id | id in t.sessions && id != sid :: t'.sessions[id] == t.sessions[id])
    && (forall id | id in t.bindings && id != bid :: t'.bindings[id] == t.bindings[id])
  }

  predicate Settling(state: SessionState) { state in {Requested, Allocating, Inviting, Active} }

  // ---------------------------------------------------------------- converge

  /** The session half of `converge_active`. */
  method Activate(uow: UnitOfWork, sid: nat, copy: Session) returns (ok: bool, s: Session)
    requires SessionCopy(uow.working, sid, copy) && Settling(copy.state)
    modifies uow`working
    ensures uow.reliable ==> (ok <==> copy.state.Active? || old(uow.working.sessions[sid]) == copy)
    ensures old(Good(uow.base, uow.working)) && ok ==> Good(uow.base, uow.working)
    ensures old(Good(uow.base, uow.working)) && uow.reliable && !ok ==> !Good(uow.base, uow.working)
    ensures s.state.Active? || !ok
    ensures copy.state.Active? ==> s == copy && uow.working == old(uow.working)
    ensures ok && !copy.state.Active? ==> sid in uow.working.sessions && uow.working.sessions[sid] == s
    ensures s.generation == copy.generation && s.desired == copy.desired && s.revision >= copy.revision
    ensures uow.working.bindings == old(uow.working.bindings) && uow.working.tasks == old(uow.working.tasks)
    ensures sid in uow.working.sessions
    ensures uow.working.sessions == old(uow.working.sessions)[sid := uow.working.sessions[sid]]
    ensures Later(old(uow.working), uow.working)
  {
    s := copy;
    ok := true;
    if s.state.Requested? {
      ok := uow.AppendAndSaveSession(sid, s, s.To(Allocating).value);
      if !ok { return; }
      s := s.To(Allocating).value;
    }
    if s.state.Allocating? {
      ok := uow.AppendAndSaveSession(sid, s, s.To(Inviting).value);
      if !ok { return; }
      s := s.To(Inviting).value;
    }
    if s.state.Inviting? {
      ok := uow.AppendAndSaveSession(sid, s, s.To(Active).value);
      if !ok { return; }
      s := s.To(Active).value;
    }
  }

  /** Where converging leaves a binding. */
  function Verified(b: Binding, now: nat): Binding {
    if b.state in {Reserved, NeedsVerification} then b.To(Bound, now).value else b
  }

  method ConvergeActive(uow: UnitOfWork, p: Pair, now: nat) returns (ok: bool, s: Session)
    requires CopiedFrom(uow.working, p)
    modifies uow`working
    ensures uow.reliable ==> (ok <==>
      && Settling(p.session.state)
      && (p.session.state.Active? || old(uow.working.sessions[p.sid]) == p.session)
      && (p.binding.state in {Reserved, NeedsVerification} ==> old(uow.working.bindings[p.bid]) == p.binding))
    ensures old(Good(uow.base, uow.working)) && ok ==> Good(uow.base, uow.working)
    ensures old(Good(uow.base, uow.working)) && uow.reliable && !ok && Settling(p.session.state) ==>
      !Good(uow.base, uow.working)
    ensures Later(old(uow.working), uow.working) && Only(old(uow.working), uow.working, p.sid, p.bid)
    ensures ok ==> Settling(p.session.state) && s.state.Active? && s.generation == p.session.generation
    ensures p.session.state.Active? ==> s == p.session
    ensures uow.working.tasks == old(uow.working.tasks)
    ensures ok && old(Current(uow.working, p)) ==>
      uow.working.sessions[p.sid] == s && uow.working.bindings[p.bid] == Verified(p.binding, now)
  {
    if !Settling(p.session.state) {
      return false, p.session;
    }
    ok, s := Activate(uow, p.sid, p.session);
    if !ok { return; }
    ghost var t := uow.working;
    if p.binding.state in {Reserved, NeedsVerification} {
      ok := uow.AppendAndSaveBinding(p.bid, p.binding, p.binding.To(Bound, now).value);
    }
    LaterChains(old(uow.working), t, uow.working);
  }

  // ---------------------------------------------------------------- fail

  function FailedSession(s: Session): Session {
    if s.state.Terminal() then s else s.To(Failed).value
  }

  function BrokenBinding(b: Binding, now: nat): Binding {
    if b.state.Terminal() then b else b.To(Broken, now).value
  }

  method FailSession(uow: UnitOfWork, p: Pair, now: nat) returns (ok: bool)
    requires CopiedFrom(uow.working, p)
    modifies uow`working
    ensures uow.reliable && old(Current(uow.working, p)) ==> ok
    ensures old(Good(uow.base, uow.working)) && ok ==> Good(uow.base, uow.working)
    ensures Later(old(uow.working), uow.working) && Only(old(uow.working), uow.working, p.sid, p.bid)
    ensures ok && old(Current(uow.working, p)) ==>
      && uow.working.sessions[p.sid] == FailedSession(p.session)
      && uow.working.bindings[p.bid] == BrokenBinding(p.binding, now)
  {
    ok := true;
    if !p.session.state.Terminal() {
      ok := uow.AppendAndSaveSession(p.sid, p.session, p.session.To(Failed).value);
      if !ok { return; }
    }
    ghost var t := uow.working;
    if !p.binding.state.Terminal() {
      ok := uow.AppendAndSaveBinding(p.bid, p.binding, p.binding.To(Broken, now).value);
    }
    LaterChains(old(uow.working), t, uow.working);
  }

  // ---------------------------------------------------------------- move to another node

  /** What a migration meets: the device or channel not ready, no reservation, or a reservation on
      `node`, the node's answer to the start command, and what others commit meanwhile. */
  datatype Trial =
    | DeviceNotReady
    | NoReservation
    | Offer(node: nat, instanceEpoch: nat, answer: Answer, others: seq<Write>)

  method FreshId(taken: set<nat>) returns (id: nat)
    ensures id !in taken
  {
    id := 0;
    var rest := taken;
    while rest != {}
      invariant rest <= taken && forall x | x in taken && x !in rest :: x < id
      decreases |rest|
    {
      var x :| x in rest;
      if x >= id {
        id := x + 1;
      }
      rest := rest - {x};
    }
  }

  function NewBinding(p: Pair, node: nat, instanceEpoch: nat, now: nat): Binding {
    Binding(p.sid, node, p.session.ownerEpoch, instanceEpoch, Reserved, 0, now)
  }

  /** The tables once the old binding is failed and the new binding and its operation exist. */
  function Replaced(t: Tables, p: Pair, nb: nat, born: Binding, kid: nat, now: nat): Tables {
    var t1 := if p.binding.state.Terminal() then t
              else PutBinding(t, p.bid, BrokenBinding(p.binding, now),
                              BindingEvent(p.bid, p.binding, BrokenBinding(p.binding, now)));
    t1.(tasks := t1.tasks[kid := Task(Operations.Pending, 0)],
        bindings := t1.bindings[nb := born],
        outbox := t1.outbox + [Event(OfTask(kid), 0, TaskCreated)] + [BornEvent(nb, born)])
  }

  lemma ReplacedIsGood(base: Tables, t: Tables, p: Pair, nb: nat, born: Binding, kid: nat, now: nat)
    requires Good(base, t) && nb !in t.bindings && kid !in t.tasks && born.state.Reserved? && born.revision == 0
    requires p.bid in t.bindings && (p.binding.state.Terminal() || t.bindings[p.bid] == p.binding)
    ensures Good(base, Replaced(t, p, nb, born, kid, now))
  {
    var t1 := t;
    if !p.binding.state.Terminal() {
      var broken := BrokenBinding(p.binding, now);
      BindingPut(base, t, p.bid, broken);
      t1 := PutBinding(t, p.bid, broken, BindingEvent(p.bid, p.binding, broken));
    }
    TaskBorn(base, t1, kid);
    var t2 := PutTask(t1, kid, Task(Operations.Pending, 0), Event(OfTask(kid), 0, TaskCreated));
    BindingBorn(base, t2, nb, born);
  }

  method ReplaceBinding(uow: UnitOfWork, p: Pair, node: nat, instanceEpoch: nat, now: nat)
    returns (ok: bool, nb: nat, kid: nat)
    requires uow.working == uow.committed && CopiedFrom(uow.working, p)
    modifies uow
    ensures Later(old(uow.committed), uow.working)
    ensures uow.reliable ==> (ok <==> p.binding.state.Terminal() || old(uow.committed.bindings[p.bid]) == p.binding)
    ensures uow.reliable && !ok ==> uow.working == uow.committed == old(uow.committed)
    ensures ok ==>
      && nb !in old(uow.committed.bindings) && kid !in old(uow.committed.tasks)
      && (p.binding.state.Terminal() || old(uow.committed.bindings[p.bid]) == p.binding)
      && uow.working == uow.committed
      && uow.committed == Replaced(old(uow.committed), p, nb, NewBinding(p, node, instanceEpoch, now), kid, now)
  {
    nb, kid := 0, 0;
    ok := true;
    if !p.binding.state.Terminal() {
      ok := uow.SaveAndAppendBinding(p.bid, p.binding, p.binding.To(Broken, now).value);
      if !ok { return; }
    }
    nb := FreshId(uow.working.bindings.Keys);
    kid := FreshId(uow.working.tasks.Keys);
    var born := NewBinding(p, node, instanceEpoch, now);
    ok := uow.SaveTask(kid, Task(Operations.Pending, 0));
    if !ok { return; }
    ok := uow.SaveBinding(nb, born);
    if !ok { return; }
    uow.Append(Event(OfTask(kid), 0, TaskCreated));
    uow.Append(BornEvent(nb, born));
    ok := uow.Commit();
  }

  /** Another writer got to the session, or to the new binding, before the answer was applied. */
  ghost predicate Raced(t: Tables, p: Pair)
    requires CopiedFrom(t, p)
  {
    || (!p.session.state.Active? && t.sessions[p.sid] != p.session)
    || t.bindings[p.bid] != p.binding
  }

  /** The race is an ordinary one: a media node that reports the start of the new session before it
      answers the start command. */
  lemma EarlyCallbackRaces(t: Tables, p: Pair, cb: MediaCallbacks.Callback, now: nat)
    requires Current(t, p) && p.binding.state.Reserved?
    requires cb.kind == MediaCallbacks.HasStarted && cb.binding == p.bid && cb.session == p.sid
    requires MediaCallbacks.Applicable(t, cb) && !MediaCallbacks.Late(t, cb)
    ensures
      var t' := MediaCallbacks.After(t, cb, now);
      CopiedFrom(t', p) && Raced(t', p)
  {
    MediaCallbacks.TargetRows(t, cb, now);
    var t' := MediaCallbacks.After(t, cb, now);
    assert MediaCallbacks.BindingPath(cb.kind, p.binding.state) == [Bound];
    assert t'.bindings[p.bid].revision == p.binding.revision + 1;
  }

  /** What an answer makes of the running operation behind the command: a refusal that can be recorded fails
      it, an unknown outcome leaves it running, any other answer completes it. */
  function Verdict(answer: Answer): Operations.Status {
    match answer
    case Refused(fits) => if fits then Operations.Failed else Operations.Running
    case UnknownOutcome => Operations.Running
    case Completed => Operations.Succeeded
    case Accepted => Operations.Succeeded
  }

  /** Applying the node's answer to the copies made before the call. When the copies are stale the
      event is already appended, its save is refused, and the error path commits the event all the
      same: the outbox stops explaining the tables exactly when a raced start is converged. */
  method SettleReconnect(uow: UnitOfWork, p: Pair, kid: nat, answer: Answer, now: nat) returns (done: bool)
    requires uow.working == uow.committed && CopiedFrom(uow.committed, p) && kid in uow.committed.tasks
    requires Settling(p.session.state) && p.binding.state.Reserved?
    modifies uow
    ensures Later(old(uow.committed), uow.working)
    ensures uow.reliable && old(Good(uow.base, uow.committed)) ==>
      (Good(uow.base, uow.committed) <==> answer.Refused? || !old(Raced(uow.committed, p)))
    ensures uow.reliable && old(Good(uow.base, uow.committed)) ==>
      (Good(uow.base, uow.working) <==> Good(uow.base, uow.committed))
    ensures uow.reliable && !answer.Refused? ==> (done <==> !old(Raced(uow.committed, p)))
    ensures answer.Refused? ==> !done
    ensures Only(old(uow.committed), uow.working, p.sid, p.bid)
    ensures uow.reliable && old(Current(uow.committed, p)) ==>
      && uow.working.sessions[p.sid].generation == p.session.generation
      && if answer.Refused?
         then
           if answer.fits
           then uow.working.sessions[p.sid].state.Failed? && uow.working.bindings[p.bid].state.Broken?
           else uow.working.sessions[p.sid] == p.session && uow.working.bindings[p.bid] == p.binding
         else uow.working.sessions[p.sid].state.Active? && uow.working.bindings[p.bid].state.Bound?
    ensures uow.reliable && old(Current(uow.committed, p) && uow.committed.tasks[kid].status.Running?) ==>
      kid in uow.working.tasks && uow.working.tasks[kid].status == Verdict(answer)
  {
    if answer.Refused? {
      RefuseReconnect(uow, p, kid, answer.fits, now);
      return false;
    }
    var s;
    done, s := ConvergeActive(uow, p, now);
    if done && !answer.UnknownOutcome? && uow.working.tasks[kid].status.Running? {
      done := uow.SaveAndAppendTask(kid, uow.working.tasks[kid].Complete(true).value);
    }
    var committed := uow.Commit();
    done := done && committed;
  }

  /** The refusal branch saves before it appends, so a stale copy leaves nothing behind. */
  method RefuseReconnect(uow: UnitOfWork, p: Pair, kid: nat, fits: bool, now: nat)
    requires uow.working == uow.committed && CopiedFrom(uow.committed, p) && kid in uow.committed.tasks
    requires Settling(p.session.state) && p.binding.state.Reserved?
    modifies uow
    ensures Later(old(uow.committed), uow.working) && Only(old(uow.committed), uow.working, p.sid, p.bid)
    ensures old(Good(uow.base, uow.committed)) ==> Good(uow.base, uow.working) && Good(uow.base, uow.committed)
    ensures uow.reliable && old(Current(uow.committed, p)) ==>
      && uow.working.sessions[p.sid].generation == p.session.generation
      && (fits ==> uow.working.sessions[p.sid].state.Failed? && uow.working.bindings[p.bid].state.Broken?)
    ensures !fits ==> uow.working == old(uow.committed)
    ensures uow.reliable && fits && old(Current(uow.committed, p) && uow.committed.tasks[kid].status.Running?) ==>
      kid in uow.working.tasks && uow.working.tasks[kid].status == Operations.Failed
  {
    if !fits { return; }
    var ok := BreakBoth(uow, p, now);
    if !ok { return; }
    var k := uow.working.tasks[kid];
    if !k.status.Running? { return; }
    ghost var t := uow.working;
    ok := uow.SaveAndAppendTask(kid, k.Complete(false).value);
    if !ok { return; }
    assert Later(t, uow.working);
    LaterChains(old(uow.committed), t, uow.working);
    ok := uow.Commit();
  }

  method BreakBoth(uow: UnitOfWork, p: Pair, now: nat) returns (ok: bool)
    requires CopiedFrom(uow.working, p) && Settling(p.session.state) && p.binding.state.Reserved?
    modifies uow`working
    ensures Later(old(uow.working), uow.working) && Only(old(uow.working), uow.working, p.sid, p.bid)
    ensures uow.working.tasks == old(uow.working.tasks)
    ensures old(Good(uow.base, uow.working)) ==> Good(uow.base, uow.working)
    ensures uow.reliable && old(Current(uow.working, p)) ==> ok
    ensures old(Current(uow.working, p)) ==> uow.working.sessions[p.sid].generation == p.session.generation
    ensures ok ==> uow.working.sessions[p.sid].state.Failed? && uow.working.bindings[p.bid].state.Broken?
  {
    ok := uow.SaveAndAppendBinding(p.bid, p.binding, p.binding.To(Broken, now).value);
    if !ok { return; }
    ok := uow.SaveAndAppendSession(p.sid, p.session, p.session.To(Failed).value);
  }

  predicate QuietOffer(trial: Trial) { trial.Offer? && trial.others == [] }

  /** The operation of the command, which did not exist before, has been settled by the answer. */
  ghost predicate Charged(t: Tables, t': Tables, answer: Answer) {
    exists kid :: ChargedTo(t, t', kid, answer)
  }

  predicate ChargedTo(t: Tables, t': Tables, kid: nat, answer: Answer) {
    kid !in t.tasks && kid in t'.tasks && t'.tasks[kid].status == Verdict(answer)
  }

  /** A move that nobody disturbs. */
  predicate Quiet(trial: Trial) { trial.Offer? ==> trial.others == [] }

  /** Rows of other sessions are untouched, `p`'s old binding is over, and every binding that is new
      belongs to `p`'s session. */
  ghost predicate LeftBehind(t: Tables, t': Tables, p: Pair) {
    && t'.sessions.Keys == t.sessions.Keys
    && (forall id | id in t.sessions && id != p.sid :: t'.sessions[id] == t.sessions[id])
    && t.bindings.Keys <= t'.bindings.Keys
    && (forall id | id in t.bindings && id != p.bid :: t'.bindings[id] == t.bindings[id])
    && (forall id | id in t'.bindings && id !in t.bindings :: t'.bindings[id].session == p.sid)
    && p.sid in t'.sessions && p.bid in t'.bindings && t'.bindings[p.bid].state.Terminal()
  }

  /** Binding `id` ties the session to the node. */
  predicate BoundTo(t: Tables, id: nat, sid: nat, node: nat) {
    id in t.bindings && t.bindings[id].state.Bound? && t.bindings[id].session == sid && t.bindings[id].node == node
  }

  /** A node was offered and refused with a text too long to be recorded. */
  predicate Unrecordable(trial: Trial) { trial.Offer? && trial.answer.Refused? && !trial.answer.fits }

  /** The outcome: moved means active, one generation on, and bound to the offered node; not moved
      means failed, unless the refusal could not even be recorded, which leaves the session as it was
      but for its generation. */
  ghost predicate Moved(t: Tables, t': Tables, p: Pair, trial: Trial, generation: nat, moved: bool) {
    && LeftBehind(t, t', p) && (trial.Offer? ==> Charged(t, t', trial.answer))
    && (moved <==> trial.Offer? && !trial.answer.Refused?)
    && (moved ==>
          && t'.sessions[p.sid].state.Active? && t'.sessions[p.sid].generation == generation
          && exists id :: id !in t.bindings && BoundTo(t', id, p.sid, trial.node))
    && (!moved ==>
          && t'.sessions[p.sid].generation == (if trial.Offer? then generation else p.session.generation)
          && t'.sessions[p.sid].state == if Unrecordable(trial) then p.session.state else SessionState.Failed)
  }

  lemma CopySurvives(t: Tables, t': Tables, p: Pair)
    requires CopiedFrom(t, p) && Later(t, t')
    ensures CopiedFrom(t', p)
  {
    assert SessionCopy(t', p.sid, t.sessions[p.sid]);
    assert BindingCopy(t', p.bid, t.bindings[p.bid]);
  }

  /** The first half of `dispatch_reconnect_command`, up to the node's answer. `q` is the session
      with its new binding. */
  method Dial(uow: UnitOfWork, p: Pair, trial: Trial, now: nat) returns (ok: bool, q: Pair, kid: nat)
    requires uow.working == uow.committed && CopiedFrom(uow.committed, p) && trial.Offer?
    modifies uow
    ensures Later(old(uow.committed), uow.working)
    ensures ok ==>
      && uow.working == uow.committed && kid in uow.committed.tasks
      && q == Pair(p.sid, p.session, q.bid, NewBinding(p, trial.node, trial.instanceEpoch, now))
      && q.bid !in old(uow.committed.bindings) && CopiedFrom(uow.committed, q)
      && kid !in old(uow.committed.tasks) && (QuietOffer(trial) ==> uow.committed.tasks[kid].status.Running?)
    ensures uow.reliable && old(Current(uow.committed, p)) ==> ok
    ensures ok && Quiet(trial) && old(Current(uow.committed, p)) && !p.binding.state.Terminal() ==>
      && uow.committed.sessions == old(uow.committed.sessions)
      && uow.committed.bindings
         == old(uow.committed.bindings)[p.bid := BrokenBinding(p.binding, now)][q.bid := q.binding]
    ensures ok && old(Good(uow.base, uow.committed)) ==> Good(uow.base, uow.committed)
  {
    ghost var t0 := uow.committed;
    var nb;
    ok, nb, kid := ReplaceBinding(uow, p, trial.node, trial.instanceEpoch, now);
    q := Pair(p.sid, p.session, nb, NewBinding(p, trial.node, trial.instanceEpoch, now));
    if !ok { return; }
    ghost var t1 := uow.committed;
    if Good(uow.base, t0) {
      ReplacedIsGood(uow.base, t0, p, nb, q.binding, kid, now);
    }
    CopySurvives(t0, t1, p);
    ok := ExecuteMediaCommand(uow, kid, trial.others);
    LaterChains(t0, t1, uow.working);
    if ok {
      CopySurvives(t1, uow.working, q);
    }
  }

  /** `dispatch_reconnect_command` with `p` already in its new generation. */
  method Reconnect(uow: UnitOfWork, p: Pair, trial: Trial, now: nat) returns (moved: bool)
    requires uow.working == uow.committed && CopiedFrom(uow.committed, p)
    requires Settling(p.session.state) && trial.Offer?
    modifies uow
    ensures Later(old(uow.committed), uow.working)
    ensures uow.reliable && Quiet(trial) && old(Current(uow.committed, p) && !p.binding.state.Terminal()) ==>
      && Moved(old(uow.committed), uow.working, p, trial, p.session.generation, moved)
      && (old(Good(uow.base, uow.committed)) ==> Good(uow.base, uow.working))
  {
    ghost var t0 := uow.committed;
    var ok, q, kid := Dial(uow, p, trial, now);
    if !ok { return false; }
    ghost var t2 := uow.committed;
    moved := SettleReconnect(uow, q, kid, trial.answer, now);
    LaterChains(t0, t2, uow.working);
    if uow.reliable && Quiet(trial) && Current(t0, p) && !p.binding.state.Terminal() {
      assert ChargedTo(t0, uow.working, kid, trial.answer);
      QuietMove(t0, t2, uow.working, p, q, trial, now, moved);
    }
  }

  /** The value-level part of an undisturbed reconnect. */
  lemma QuietMove(t: Tables, t': Tables, u: Tables, p: Pair, q: Pair, trial: Trial, now: nat, moved: bool)
    requires Current(t, p) && !p.binding.state.Terminal() && trial.Offer? && q.bid !in t.bindings
    requires q == Pair(p.sid, p.session, q.bid, NewBinding(p, trial.node, trial.instanceEpoch, now))
    requires t'.sessions == t.sessions
    requires t'.bindings == t.bindings[p.bid := BrokenBinding(p.binding, now)][q.bid := q.binding]
    requires Only(t', u, p.sid, q.bid) && BindingCopy(u, q.bid, q.binding)
    requires (moved <==> !trial.answer.Refused?) && Charged(t, u, trial.answer)
    requires u.sessions[p.sid].generation == p.session.generation
    requires if trial.answer.Refused?
             then u.sessions[p.sid].state == if trial.answer.fits then SessionState.Failed else p.session.state
             else u.sessions[p.sid].state.Active? && u.bindings[q.bid].state.Bound?
    ensures Moved(t, u, p, trial, p.session.generation, moved)
  {
    assert q.bid in u.bindings && p.bid != q.bid;
    assert u.bindings[p.bid] == t'.bindings[p.bid];
    if moved {
      assert BoundTo(u, q.bid, p.sid, trial.node);
    }
  }

  lemma SameTasks(t: Tables, t1: Tables, u: Tables, answer: Answer)
    ensures t.tasks == t1.tasks && Charged(t1, u, answer) ==> Charged(t, u, answer)
  {
    if t.tasks == t1.tasks && Charged(t1, u, answer) {
      var kid :| ChargedTo(t1, u, kid, answer);
      assert ChargedTo(t, u, kid, answer);
    }
  }

  /** No device, no channel or no reservation: the session fails where it is. */
  method GiveUp(uow: UnitOfWork, p: Pair, trial: Trial, now: nat) returns (ok: bool)
    requires uow.working == uow.committed && CopiedFrom(uow.working, p) && Settling(p.session.state) && !trial.Offer?
    modifies uow
    ensures ok ==> Later(old(uow.working), uow.working) && uow.working == uow.committed
    ensures uow.reliable && old(Current(uow.working, p) && !p.binding.state.Terminal()) ==>
      && ok
      && Moved(old(uow.working), uow.working, p, trial, p.session.generation + 1, false)
      && (old(Good(uow.base, uow.working)) ==> Good(uow.base, uow.working))
  {
    ok := FailSession(uow, p, now);
    if !ok { return; }
    ok := uow.Commit();
  }

  /** `migrate_or_fail`. */
  method MigrateOrFail(uow: UnitOfWork, p: Pair, trial: Trial, now: nat) returns (ok: bool, moved: bool)
    requires CopiedFrom(uow.working, p) && Settling(p.session.state)
    modifies uow
    ensures ok ==> Later(old(uow.working), uow.working) && uow.working == uow.committed
    ensures uow.reliable && Quiet(trial) && old(Current(uow.working, p) && !p.binding.state.Terminal()) ==>
      && ok
      && Moved(old(uow.working), uow.working, p, trial, p.session.generation + 1, moved)
      && (old(Good(uow.base, uow.working)) ==> Good(uow.base, uow.working))
  {
    moved := false;
    ok := uow.Commit();
    if !ok { return; }
    if !trial.Offer? {
      ok := GiveUp(uow, p, trial, now);
      return;
    }
    var bumped := p.session.BumpGeneration().value;
    ghost var t := uow.working;
    ok := uow.AppendAndSaveGeneration(p.sid, p.session, bumped);
    if !ok { return; }
    ok := uow.Commit();
    if !ok { return; }
    ghost var t1 := uow.working;
    assert Later(t, t1);
    moved := Reconnect(uow, Pair(p.sid, bumped, p.bid, p.binding), trial, now);
    LaterChains(t, t1, uow.working);
    SameTasks(t, t1, uow.working, trial.answer);
    ok := uow.Commit();
  }
}
