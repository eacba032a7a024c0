/** Start and stop commands sent to a media node. The operation is started under its own commit,
    other writers run while the node answers, and the answer is then applied to freshly read rows. */
module MediaCommands {
  import opened Wrappers
  import opened Media
  import opened MediaStore
  import Operations

  /** The node's answer; a transport error is a refusal. `fits`: its code and message are within
      the aggregates' length limits. */
  datatype Answer = Completed | Accepted | UnknownOutcome | Refused(fits: bool)

  /** The tables read again once the node has answered. */
  function Reread(t: Tables, task: nat, others: seq<Write>): Tables
    requires task in t.tasks && t.tasks[task].status.Pending?
  {
    var started := t.tasks[task].Start().value;
    Elsewhere(PutTask(t, task, started, TaskEvent(task, t.tasks[task], started)), others)
  }

  predicate Startable(t: Tables, task: nat) { task in t.tasks && t.tasks[task].status.Pending? }

  method ExecuteMediaCommand(uow: UnitOfWork, task: nat, others: seq<Write>) returns (ok: bool)
    requires uow.working == uow.committed
    modifies uow
    ensures old(Good(uow.base, uow.committed)) ==> Good(uow.base, uow.committed) && Good(uow.base, uow.working)
    ensures uow.reliable ==> (ok <==> Startable(old(uow.committed), task))
    ensures Later(old(uow.committed), uow.working)
    ensures ok ==>
      && uow.working == uow.committed && Startable(old(uow.committed), task)
      && uow.committed == Reread(old(uow.committed), task, others)
      && task in uow.committed.tasks
  {
    if task !in uow.working.tasks || !uow.working.tasks[task].status.Pending? {
      return false;
    }
    ok := uow.SaveAndAppendTask(task, uow.working.tasks[task].Start().value);
    if !ok { return; }
    ok := uow.Commit();
    if !ok { return; }
    ghost var started := uow.committed;
    uow.LetOthersRun(others);
    LaterChains(old(uow.committed), started, uow.committed);
  }

  /** The three rows a command works on. */
  datatype Trio = Trio(session: Session, binding: Binding, task: Task)

  predicate Present(t: Tables, sid: nat, bid: nat, kid: nat) {
    sid in t.sessions && bid in t.bindings && kid in t.tasks
  }

  function TrioAt(t: Tables, sid: nat, bid: nat, kid: nat): Trio
    requires Present(t, sid, bid, kid)
  {
    Trio(t.sessions[sid], t.bindings[bid], t.tasks[kid])
  }

  predicate NextRevisions(x: Trio, x': Trio) {
    && x'.session.revision == x.session.revision + 1
    && x'.binding.revision == x.binding.revision + 1
    && x'.task.revision == x.task.revision + 1
  }

  /** Only these rows, and the outbox, may differ. */
  predicate Elsewise(t: Tables, t': Tables, sid: nat, bid: nat, kid: nat) {
    && t'.sessions - {sid} == t.sessions - {sid}
    && t'.bindings - {bid} == t.bindings - {bid}
    && t'.tasks - {kid} == t.tasks - {kid}
    && t.outbox <= t'.outbox
  }

  // ---------------------------------------------------------------- start

  predicate MayActivate(b: Binding) { b.state in {Reserved, NeedsVerification} }

  /** The answers a start command can apply to the rows it finds. */
  predicate StartFits(x: Trio, answer: Answer) {
    match answer
    case Completed => x.session.state.Allocating? && MayActivate(x.binding) && x.task.status.Running?
    case Refused(fits) =>
      fits && !x.session.state.Terminal() && !x.binding.state.Terminal() && x.task.status.Running?
    case _ => x.session.state.Allocating? && MayActivate(x.binding)
  }

  /** What the rows then become. */
  predicate StartApplied(x: Trio, x': Trio, answer: Answer) {
    match answer
    case Completed => x'.session.state.Active? && x'.binding.state.Bound? && x'.task.status.Succeeded?
    case Refused(_) => x'.session.state.Failed? && x'.binding.state.Broken? && x'.task.status.Failed?
    case _ => x'.session.state.Inviting? && x'.binding.state.Bound? && x'.task == x.task
  }

  lemma BothExplained(base: Tables, t: Tables, sid: nat, s: Session, bid: nat, b: Binding)
    requires Explained(base, t) && sid in t.sessions && bid in t.bindings
    requires SessionStep(t.sessions[sid], s) && BindingStep(t.bindings[bid], b)
    ensures
      var t1 := PutSession(t, sid, s, SessionEvent(sid, t.sessions[sid], s));
      Explained(base, PutBinding(t1, bid, b, BindingEvent(bid, t.bindings[bid], b)))
  {
    SessionPut(base, t, sid, s);
    BindingPut(base, PutSession(t, sid, s, SessionEvent(sid, t.sessions[sid], s)), bid, b);
  }

  lemma AllExplained(base: Tables, t: Tables, sid: nat, s: Session, bid: nat, b: Binding, kid: nat, k: Task)
    requires Explained(base, t) && Present(t, sid, bid, kid)
    requires SessionStep(t.sessions[sid], s) && BindingStep(t.bindings[bid], b)
    requires k.revision == t.tasks[kid].revision + 1
    ensures
      var t1 := PutSession(t, sid, s, SessionEvent(sid, t.sessions[sid], s));
      var t2 := PutBinding(t1, bid, b, BindingEvent(bid, t.bindings[bid], b));
      Explained(base, PutTask(t2, kid, k, TaskEvent(kid, t.tasks[kid], k)))
  {
    BothExplained(base, t, sid, s, bid, b);
    var t1 := PutSession(t, sid, s, SessionEvent(sid, t.sessions[sid], s));
    TaskPut(base, PutBinding(t1, bid, b, BindingEvent(bid, t.bindings[bid], b)), kid, k);
  }

  method SaveThree(uow: UnitOfWork, sid: nat, s: Session, bid: nat, b: Binding, kid: nat, k: Task) returns (ok: bool)
    requires Present(uow.working, sid, bid, kid)
    modifies uow`working
    ensures ok ==>
      && old(NextRevisions(TrioAt(uow.working, sid, bid, kid), Trio(s, b, k)))
      && uow.working == old(uow.working).(
           sessions := old(uow.working.sessions)[sid := s],
           bindings := old(uow.working.bindings)[bid := b],
           tasks := old(uow.working.tasks)[kid := k])
    ensures uow.reliable ==> (ok <==> old(NextRevisions(TrioAt(uow.working, sid, bid, kid), Trio(s, b, k))))
  {
    ok := uow.SaveSession(sid, s);
    if !ok { return; }
    ok := uow.SaveBinding(bid, b);
    if !ok { return; }
    ok := uow.SaveTask(kid, k);
  }

  /** The synchronous start: through `Inviting`, saved on the way, to `Active`. */
  method ApplyCompleted(uow: UnitOfWork, sid: nat, bid: nat, kid: nat, now: nat) returns (ok: bool)
    requires Good(uow.base, uow.working) && Present(uow.working, sid, bid, kid)
    modifies uow`working
    ensures uow.reliable ==> (ok <==> StartFits(old(TrioAt(uow.working, sid, bid, kid)), Completed))
    ensures ok ==>
      && Good(uow.base, uow.working) && Present(uow.working, sid, bid, kid)
      && Elsewise(old(uow.working), uow.working, sid, bid, kid)
      && StartApplied(old(TrioAt(uow.working, sid, bid, kid)), TrioAt(uow.working, sid, bid, kid), Completed)
  {
    ghost var t := uow.working;
    var s, b, k := uow.working.sessions[sid], uow.working.bindings[bid], uow.working.tasks[kid];
    if !s.state.MayBecome(Inviting) { return false; }
    var inviting := s.To(Inviting).value;
    ok := uow.SaveSession(sid, inviting);
    if !ok { return; }
    var active := inviting.To(Active).value;
    if !b.state.MayBecome(Bound) || !k.status.Running? { return false; }
    var bound, done := b.To(Bound, now).value, k.Complete(true).value;
    ok := SaveThree(uow, sid, active, bid, bound, kid, done);
    if !ok { return; }
    uow.Append(SessionEvent(sid, s, inviting));
    uow.Append(SessionEvent(sid, inviting, active));
    uow.Append(BindingEvent(bid, b, bound));
    uow.Append(TaskEvent(kid, k, done));
    SessionPut(uow.base, t, sid, inviting);
    ghost var t1 := PutSession(t, sid, inviting, SessionEvent(sid, s, inviting));
    AllExplained(uow.base, t1, sid, active, bid, bound, kid, done);
    assert t.sessions[sid := inviting][sid := active] == t.sessions[sid := active];
  }

  /** Accepted, or outcome unknown: inviting and bound, the operation left running. */
  method ApplyAccepted(uow: UnitOfWork, sid: nat, bid: nat, kid: nat, now: nat) returns (ok: bool)
    requires Good(uow.base, uow.working) && Present(uow.working, sid, bid, kid)
    modifies uow`working
    ensures uow.reliable ==> (ok <==> StartFits(old(TrioAt(uow.working, sid, bid, kid)), Accepted))
    ensures ok ==>
      && Good(uow.base, uow.working) && Present(uow.working, sid, bid, kid)
      && Elsewise(old(uow.working), uow.working, sid, bid, kid)
      && StartApplied(old(TrioAt(uow.working, sid, bid, kid)), TrioAt(uow.working, sid, bid, kid), Accepted)
  {
    ghost var t := uow.working;
    var s, b := uow.working.sessions[sid], uow.working.bindings[bid];
    if !s.state.MayBecome(Inviting) || !b.state.MayBecome(Bound) { return false; }
    var inviting, bound := s.To(Inviting).value, b.To(Bound, now).value;
    ok := uow.SaveSession(sid, inviting);
    if !ok { return; }
    ok := uow.SaveBinding(bid, bound);
    if !ok { return; }
    uow.Append(SessionEvent(sid, s, inviting));
    uow.Append(BindingEvent(bid, b, bound));
    BothExplained(uow.base, t, sid, inviting, bid, bound);
  }

  method ApplyRefused(uow: UnitOfWork, sid: nat, bid: nat, kid: nat, fits: bool, now: nat) returns (ok: bool)
    requires Good(uow.base, uow.working) && Present(uow.working, sid, bid, kid)
    modifies uow`working
    ensures uow.reliable ==> (ok <==> StartFits(old(TrioAt(uow.working, sid, bid, kid)), Refused(fits)))
    ensures ok ==>
      && Good(uow.base, uow.working) && Present(uow.working, sid, bid, kid)
      && Elsewise(old(uow.working), uow.working, sid, bid, kid)
      && StartApplied(old(TrioAt(uow.working, sid, bid, kid)), TrioAt(uow.working, sid, bid, kid), Refused(fits))
  {
    ghost var t := uow.working;
    var s, b, k := uow.working.sessions[sid], uow.working.bindings[bid], uow.working.tasks[kid];
    if !fits || !s.state.MayBecome(Failed) || !b.state.MayBecome(Broken) || !k.status.Running? { return false; }
    var failed, broken, done := s.To(Failed).value, b.To(Broken, now).value, k.Complete(false).value;
    ok := SaveThree(uow, sid, failed, bid, broken, kid, done);
    if !ok { return; }
    uow.Append(SessionEvent(sid, s, failed));
    uow.Append(BindingEvent(bid, b, broken));
    uow.Append(TaskEvent(kid, k, done));
    AllExplained(uow.base, t, sid, failed, bid, broken, kid, done);
  }

  /** `dispatch_media_command`. On every path the committed tables stay explained by the outbox;
      on storage that works the answer is applied exactly when the rows allow it. */
  method DispatchStart(uow: UnitOfWork, sid: nat, bid: nat, kid: nat, answer: Answer, others: seq<Write>, now: nat)
    returns (ok: bool)
    requires uow.Fresh()
    modifies uow
    ensures Good(uow.base, uow.committed)
    ensures uow.reliable ==>
      (ok <==> && Startable(old(uow.committed), kid)
               && var t := Reread(old(uow.committed), kid, others);
                  Present(t, sid, bid, kid) && StartFits(TrioAt(t, sid, bid, kid), answer))
    ensures ok ==>
      && Startable(old(uow.committed), kid)
      && var t := Reread(old(uow.committed), kid, others);
         && Present(t, sid, bid, kid) && Present(uow.committed, sid, bid, kid)
         && Elsewise(t, uow.committed, sid, bid, kid)
         && StartApplied(TrioAt(t, sid, bid, kid), TrioAt(uow.committed, sid, bid, kid), answer)
  {
    ok := ExecuteMediaCommand(uow, kid, others);
    if !ok { return; }
    if sid !in uow.working.sessions || bid !in uow.working.bindings { return false; }
    match answer {
      case Completed => ok := ApplyCompleted(uow, sid, bid, kid, now);
      case Refused(fits) => ok := ApplyRefused(uow, sid, bid, kid, fits, now);
      case _ => ok := ApplyAccepted(uow, sid, bid, kid, now);
    }
    if !ok { return; }
    ok := uow.Commit();
  }

  // ---------------------------------------------------------------- stop

  /** The answers a stop command can apply. A refusal saves session and binding even when they are
      already terminal and hence unchanged, and such a save is always rejected. */
  predicate StopFits(x: Trio, answer: Answer) {
    match answer
    case Completed => x.task.status.Running?
    case Refused(fits) =>
      && x.task.status.Running? && !x.session.state.Terminal() && !x.binding.state.Terminal()
      && fits
    case _ => true
  }

  predicate StopApplied(x: Trio, x': Trio, answer: Answer) {
    match answer
    case Completed =>
      && (if x.session.state.Terminal() then x'.session == x.session else x'.session.state.Stopped?)
      && (if x.binding.state.Terminal() then x'.binding == x.binding else x'.binding.state.Released?)
      && x'.task.status.Succeeded?
    case Refused(_) => x'.session.state.Failed? && x'.binding.state.Broken? && x'.task.status.Failed?
    case _ =>
      && (if x.session.state.Terminal() || x.session.state.Stopping? then x'.session == x.session
          else Some(x'.session) == x.session.Stop())
      && (if x.binding.state.Terminal() || x.binding.state.Releasing? then x'.binding == x.binding
          else x'.binding.state.Releasing?)
      && x'.task == x.task
  }

  /** Rows of one session alone. */
  predicate OnlySession(t: Tables, t': Tables, sid: nat) {
    && t'.sessions - {sid} == t.sessions - {sid}
    && t'.bindings == t.bindings && t'.tasks == t.tasks && t.outbox <= t'.outbox
  }

  predicate OnlyBinding(t: Tables, t': Tables, bid: nat) {
    && t'.bindings - {bid} == t.bindings - {bid}
    && t'.sessions == t.sessions && t'.tasks == t.tasks && t.outbox <= t'.outbox
  }

  method EndSession(uow: UnitOfWork, sid: nat) returns (ok: bool)
    requires Good(uow.base, uow.working) && sid in uow.working.sessions
    modifies uow`working
    ensures uow.reliable ==> ok
    ensures ok ==>
      && Good(uow.base, uow.working) && OnlySession(old(uow.working), uow.working, sid)
      && sid in uow.working.sessions
      && if old(uow.working.sessions[sid]).state.Terminal() then uow.working == old(uow.working)
         else uow.working.sessions[sid].state.Stopped?
  {
    var s := uow.working.sessions[sid];
    ok := true;
    if s.state.Active? {
      ok := uow.AppendAndSaveSession(sid, s, s.Quit().value);
      if !ok { return; }
      s := s.Quit().value;
    }
    if !s.state.Terminal() {
      ok := uow.AppendAndSaveSession(sid, s, s.To(Stopped).value);
    }
  }

  method EndBinding(uow: UnitOfWork, bid: nat, now: nat) returns (ok: bool)
    requires Good(uow.base, uow.working) && bid in uow.working.bindings
    modifies uow`working
    ensures uow.reliable ==> ok
    ensures ok ==>
      && Good(uow.base, uow.working) && OnlyBinding(old(uow.working), uow.working, bid)
      && bid in uow.working.bindings
      && if old(uow.working.bindings[bid]).state.Terminal() then uow.working == old(uow.working)
         else uow.working.bindings[bid].state.Released?
  {
    var b := uow.working.bindings[bid];
    ok := true;
    if b.state in {Bound, Reserved, NeedsVerification} {
      ok := uow.AppendAndSaveBinding(bid, b, b.To(Releasing, now).value);
      if !ok { return; }
      b := b.To(Releasing, now).value;
    }
    if !b.state.Terminal() {
      ok := uow.AppendAndSaveBinding(bid, b, b.To(Released, now).value);
    }
  }

  method StopCompleted(uow: UnitOfWork, sid: nat, bid: nat, kid: nat, now: nat) returns (ok: bool)
    requires Good(uow.base, uow.working) && Present(uow.working, sid, bid, kid)
    modifies uow`working
    ensures uow.reliable ==> (ok <==> StopFits(old(TrioAt(uow.working, sid, bid, kid)), Completed))
    ensures ok ==>
      && Good(uow.base, uow.working) && Present(uow.working, sid, bid, kid)
      && Elsewise(old(uow.working), uow.working, sid, bid, kid)
      && StopApplied(old(TrioAt(uow.working, sid, bid, kid)), TrioAt(uow.working, sid, bid, kid), Completed)
  {
    ok := EndSession(uow, sid);
    if !ok { return; }
    ok := EndBinding(uow, bid, now);
    if !ok { return; }
    var k := uow.working.tasks[kid];
    if !k.status.Running? { return false; }
    ok := uow.SaveAndAppendTask(kid, k.Complete(true).value);
  }

  /** Accepted, or outcome unknown: the wish to stop is recorded, the operation left running. */
  method StopAccepted(uow: UnitOfWork, sid: nat, bid: nat, kid: nat, now: nat) returns (ok: bool)
    requires Good(uow.base, uow.working) && Present(uow.working, sid, bid, kid)
    modifies uow`working
    ensures uow.reliable ==> ok
    ensures ok ==>
      && Good(uow.base, uow.working) && Present(uow.working, sid, bid, kid)
      && Elsewise(old(uow.working), uow.working, sid, bid, kid)
      && StopApplied(old(TrioAt(uow.working, sid, bid, kid)), TrioAt(uow.working, sid, bid, kid), Accepted)
  {
    var s, b := uow.working.sessions[sid], uow.working.bindings[bid];
    ok := true;
    if !s.state.Terminal() && !s.state.Stopping? {
      ok := uow.AppendAndSaveSession(sid, s, s.Stop().value);
      if !ok { return; }
    }
    if !b.state.Terminal() && !b.state.Releasing? {
      ok := uow.AppendAndSaveBinding(bid, b, b.To(Releasing, now).value);
    }
  }

  method StopRefused(uow: UnitOfWork, sid: nat, bid: nat, kid: nat, fits: bool, now: nat) returns (ok: bool)
    requires Good(uow.base, uow.working) && Present(uow.working, sid, bid, kid)
    modifies uow`working
    ensures uow.reliable ==> (ok <==> StopFits(old(TrioAt(uow.working, sid, bid, kid)), Refused(fits)))
    ensures ok ==>
      && Good(uow.base, uow.working) && Present(uow.working, sid, bid, kid)
      && Elsewise(old(uow.working), uow.working, sid, bid, kid)
      && StopApplied(old(TrioAt(uow.working, sid, bid, kid)), TrioAt(uow.working, sid, bid, kid), Refused(fits))
  {
    ghost var t := uow.working;
    var s, b, k := uow.working.sessions[sid], uow.working.bindings[bid], uow.working.tasks[kid];
    var failed, broken := s, b;
    if !s.state.Terminal() {
      if !fits { return false; }
      failed := s.To(Failed).value;
      uow.Append(SessionEvent(sid, s, failed));
    }
    if !b.state.Terminal() {
      if !fits { return false; }
      broken := b.To(Broken, now).value;
      uow.Append(BindingEvent(bid, b, broken));
    }
    if !fits || !k.status.Running? { return false; }
    var done := k.Complete(false).value;
    ok := SaveThree(uow, sid, failed, bid, broken, kid, done);
    if !ok { return; }
    uow.Append(TaskEvent(kid, k, done));
    AllExplained(uow.base, t, sid, failed, bid, broken, kid, done);
  }

  /** `dispatch_stop_command`: as `DispatchStart`, with the answers of a stop. */
  method DispatchStop(uow: UnitOfWork, sid: nat, bid: nat, kid: nat, answer: Answer, others: seq<Write>, now: nat)
    returns (ok: bool)
    requires uow.Fresh()
    modifies uow
    ensures Good(uow.base, uow.committed)
    ensures uow.reliable ==>
      (ok <==> && Startable(old(uow.committed), kid)
               && var t := Reread(old(uow.committed), kid, others);
                  Present(t, sid, bid, kid) && StopFits(TrioAt(t, sid, bid, kid), answer))
    ensures ok ==>
      && Startable(old(uow.committed), kid)
      && var t := Reread(old(uow.committed), kid, others);
         && Present(t, sid, bid, kid) && Present(uow.committed, sid, bid, kid)
         && Elsewise(t, uow.committed, sid, bid, kid)
         && StopApplied(TrioAt(t, sid, bid, kid), TrioAt(uow.committed, sid, bid, kid), answer)
  {
    ok := ExecuteMediaCommand(uow, kid, others);
    if !ok { return; }
    if sid !in uow.working.sessions || bid !in uow.working.bindings { return false; }
    match answer {
      case Completed => ok := StopCompleted(uow, sid, bid, kid, now);
      case Refused(fits) => ok := StopRefused(uow, sid, bid, kid, fits, now);
      case _ => ok := StopAccepted(uow, sid, bid, kid, now);
    }
    if !ok { return; }
    ok := uow.Commit();
  }
}
