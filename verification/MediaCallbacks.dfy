/** Events that a media node sends on its own. */
module MediaCallbacks {
  import opened Wrappers
  import opened Media
  import opened MediaStore
  import Operations

  datatype Kind = HasStarted | HasStopped(reason: bool) | HasFailed

  /** The fencing fields, and whether the texts carried are within the aggregates' limits. */
  datatype Callback = Callback(
    binding: nat, session: nat, task: Option<nat>,
    node: nat, instanceEpoch: nat, ownerEpoch: nat,
    bindingRevision: nat, sessionRevision: nat,
    kind: Kind, fits: bool)

  predicate BindingMatches(b: Binding, cb: Callback) {
    && b.node == cb.node && b.instanceEpoch == cb.instanceEpoch && b.ownerEpoch == cb.ownerEpoch
    && b.revision == cb.bindingRevision
  }

  predicate Fenced(t: Tables, cb: Callback) {
    && cb.binding in t.bindings && BindingMatches(t.bindings[cb.binding], cb)
    && cb.session in t.sessions && t.sessions[cb.session].revision == cb.sessionRevision
    && (cb.task.Some? ==> cb.task.value in t.tasks)
  }

  /** A callback for an operation that is already over. */
  predicate Late(t: Tables, cb: Callback) {
    cb.task.Some? && cb.task.value in t.tasks && t.tasks[cb.task.value].status.Terminal()
  }

  /** The states a session is taken through. */
  function SessionPath(kind: Kind, state: SessionState): seq<SessionState> {
    match kind
    case HasStarted =>
      if state.Allocating? then [Inviting, Active] else if state.Inviting? then [Active] else []
    case HasStopped(_) =>
      if state.Active? then [Stopping, Stopped] else if state.Terminal() then [] else [Stopped]
    case HasFailed => if state.Terminal() then [] else [Failed]
  }

  function BindingPath(kind: Kind, state: BindingState): seq<BindingState> {
    match kind
    case HasStarted => if state in {Reserved, NeedsVerification} then [Bound] else []
    case HasStopped(_) =>
      if state in {Bound, NeedsVerification} then [Releasing, Released]
      else if state.Releasing? then [Released] else []
    case HasFailed => if state.Terminal() then [] else [Broken]
  }

  /** A stop takes both aggregates to their end with a single save each, so it needs an aggregate
      that is at most one transition away. A start saves its intermediate state. */
  predicate OneSaveIsEnough(kind: Kind, s: Session, b: Binding) {
    kind.HasStopped? ==> !s.state.Active? && b.state !in {Bound, NeedsVerification}
  }

  predicate TextsFit(cb: Callback, s: Session, b: Binding) {
    || cb.fits
    || cb.kind.HasStarted?
    || (cb.kind == HasStopped(true) && cb.task.None?)
    || cb.kind == HasStopped(false)
    || (cb.kind.HasFailed? && s.state.Terminal() && b.state.Terminal() && cb.task.None?)
  }

  /** What a caller can check beforehand to know that the callback will be applied. */
  predicate Applicable(t: Tables, cb: Callback) {
    && Fenced(t, cb)
    && (Late(t, cb) ||
        (&& OneSaveIsEnough(cb.kind, t.sessions[cb.session], t.bindings[cb.binding])
         && TextsFit(cb, t.sessions[cb.session], t.bindings[cb.binding])
         && (cb.task.Some? ==> t.tasks[cb.task.value].status.Running?)))
  }

  function StepSession(t: Tables, id: nat, state: SessionState): (t': Tables)
    requires id in t.sessions
  {
    var from := t.sessions[id];
    var to := from.(state := state, revision := from.revision + 1);
    PutSession(t, id, to, SessionEvent(id, from, to))
  }

  function WalkSession(t: Tables, id: nat, path: seq<SessionState>): (t': Tables)
    requires id in t.sessions && |path| <= 2
    ensures id in t'.sessions && t'.sessions == t.sessions[id := t'.sessions[id]]
    ensures t'.sessions[id].revision == t.sessions[id].revision + |path|
    ensures path == [] ==> t' == t
    ensures t'.bindings == t.bindings && t'.tasks == t.tasks
  {
    if |path| == 0 then t
    else if |path| == 1 then StepSession(t, id, path[0])
    else StepSession(StepSession(t, id, path[0]), id, path[1])
  }

  function StepBinding(t: Tables, id: nat, state: BindingState, now: nat): Tables
    requires id in t.bindings
  {
    var from := t.bindings[id];
    var to := from.(state := state, revision := from.revision + 1, updatedAt := now);
    PutBinding(t, id, to, BindingEvent(id, from, to))
  }

  function WalkBinding(t: Tables, id: nat, path: seq<BindingState>, now: nat): (t': Tables)
    requires id in t.bindings && |path| <= 2
    ensures id in t'.bindings && t'.bindings == t.bindings[id := t'.bindings[id]]
    ensures t'.bindings[id].revision == t.bindings[id].revision + |path|
    ensures t'.bindings[id].session == t.bindings[id].session && t'.bindings[id].node == t.bindings[id].node
    ensures path == [] ==> t' == t
    ensures t'.sessions == t.sessions && t'.tasks == t.tasks
  {
    if |path| == 0 then t
    else if |path| == 1 then StepBinding(t, id, path[0], now)
    else StepBinding(StepBinding(t, id, path[0], now), id, path[1], now)
  }

  function Conclude(t: Tables, task: Option<nat>, success: bool): Tables
    requires task.Some? ==> task.value in t.tasks && t.tasks[task.value].status.Running?
  {
    if task.None? then t
    else
      var from := t.tasks[task.value];
      var to := from.Complete(success).value;
      PutTask(t, task.value, to, TaskEvent(task.value, from, to))
  }

  function Success(kind: Kind): bool { kind == HasStarted || kind == HasStopped(false) }

  /** The rows and events a callback aims at. */
  function Target(t: Tables, cb: Callback, now: nat): Tables
    requires Fenced(t, cb) && (cb.task.Some? ==> t.tasks[cb.task.value].status.Running?)
  {
    var t1 := WalkSession(t, cb.session, SessionPath(cb.kind, t.sessions[cb.session].state));
    var t2 := WalkBinding(t1, cb.binding, BindingPath(cb.kind, t.bindings[cb.binding].state), now);
    Conclude(t2, cb.task, Success(cb.kind))
  }

  /** The tables after a callback: unchanged unless it is applicable and not late. */
  function After(t: Tables, cb: Callback, now: nat): Tables {
    if Applicable(t, cb) && !Late(t, cb) then Target(t, cb, now) else t
  }

  // ---------------------------------------------------------------- properties

  lemma StepSessionGood(base: Tables, t: Tables, id: nat, state: SessionState)
    requires Good(base, t) && id in t.sessions && !state.Stopping?
    ensures Good(base, StepSession(t, id, state))
  {
    var from := t.sessions[id];
    SessionPut(base, t, id, from.(state := state, revision := from.revision + 1));
  }

  lemma StepBindingGood(base: Tables, t: Tables, id: nat, state: BindingState, now: nat)
    requires Good(base, t) && id in t.bindings
    ensures Good(base, StepBinding(t, id, state, now))
  {
    var from := t.bindings[id];
    BindingPut(base, t, id, from.(state := state, revision := from.revision + 1, updatedAt := now));
  }

  /** The outbox explains the tables after a callback as it did before. */
  lemma AfterIsExplained(base: Tables, t: Tables, cb: Callback, now: nat)
    requires Good(base, t)
    ensures Good(base, After(t, cb, now))
  {
    if Applicable(t, cb) && !Late(t, cb) {
      var path := SessionPath(cb.kind, t.sessions[cb.session].state);
      var t1 := WalkSession(t, cb.session, path);
      if |path| > 0 {
        StepSessionGood(base, t, cb.session, path[0]);
        if |path| > 1 {
          StepSessionGood(base, StepSession(t, cb.session, path[0]), cb.session, path[1]);
        }
      }
      var steps := BindingPath(cb.kind, t.bindings[cb.binding].state);
      if |steps| > 0 {
        StepBindingGood(base, t1, cb.binding, steps[0], now);
      }
      var t2 := WalkBinding(t1, cb.binding, steps, now);
      if cb.task.Some? {
        TaskPut(base, t2, cb.task.value, t.tasks[cb.task.value].Complete(Success(cb.kind)).value);
      }
    }
  }

  /** What the target changes: revisions of the two rows grow by the length of their path, a row
      with nothing to do is left alone, and so is every other row. */
  lemma TargetRows(t: Tables, cb: Callback, now: nat)
    requires Fenced(t, cb) && (cb.task.Some? ==> t.tasks[cb.task.value].status.Running?)
    ensures
      var t' := Target(t, cb, now);
      var s, b := t.sessions[cb.session], t.bindings[cb.binding];
      && cb.session in t'.sessions && t'.sessions == t.sessions[cb.session := t'.sessions[cb.session]]
      && t'.sessions[cb.session].revision == s.revision + |SessionPath(cb.kind, s.state)|
      && (SessionPath(cb.kind, s.state) == [] ==> t'.sessions == t.sessions)
      && cb.binding in t'.bindings && t'.bindings == t.bindings[cb.binding := t'.bindings[cb.binding]]
      && t'.bindings[cb.binding].revision == b.revision + |BindingPath(cb.kind, b.state)|
      && t'.bindings[cb.binding].session == b.session && t'.bindings[cb.binding].node == b.node
      && (BindingPath(cb.kind, b.state) == [] ==> t'.bindings == t.bindings)
      && (cb.task.None? ==> t'.tasks == t.tasks)
      && (cb.task.Some? ==>
            && cb.task.value in t'.tasks && t'.tasks == t.tasks[cb.task.value := t'.tasks[cb.task.value]]
            && t'.tasks[cb.task.value].status.Terminal())
  {
    var t1 := WalkSession(t, cb.session, SessionPath(cb.kind, t.sessions[cb.session].state));
    var t2 := WalkBinding(t1, cb.binding, BindingPath(cb.kind, t.bindings[cb.binding].state), now);
    assert Target(t, cb, now) == Conclude(t2, cb.task, Success(cb.kind));
  }

  /** The rows after a callback that was applied, by its kind. */
  ghost predicate Handled(t: Tables, t': Tables, cb: Callback, now: nat)
    requires Fenced(t, cb)
  {
    var s, b := t.sessions[cb.session], t.bindings[cb.binding];
    && cb.session in t'.sessions && t'.sessions == t.sessions[cb.session := t'.sessions[cb.session]]
    && cb.binding in t'.bindings && t'.bindings == t.bindings[cb.binding := t'.bindings[cb.binding]]
    && (cb.task.None? ==> t'.tasks == t.tasks)
    && (cb.task.Some? ==>
          cb.task.value in t'.tasks && t'.tasks == t.tasks[cb.task.value := t'.tasks[cb.task.value]])
    && var s', b' := t'.sessions[cb.session], t'.bindings[cb.binding];
       match cb.kind
       case HasStarted =>
         && s' == (if s.state.Allocating? then s.(state := Active, revision := s.revision + 2)
                   else if s.state.Inviting? then s.(state := Active, revision := s.revision + 1) else s)
         && b' == (if b.state.Reserved? || b.state.NeedsVerification?
                   then b.(state := Bound, revision := b.revision + 1, updatedAt := now) else b)
         && (cb.task.Some? ==> t'.tasks[cb.task.value].status == Operations.Succeeded)
       case HasStopped(reason) =>
         && s' == (if s.state.Stopped? || s.state.Failed? then s else s.(state := Stopped, revision := s.revision + 1))
         && b' == (if b.state.Releasing?
                   then b.(state := Released, revision := b.revision + 1, updatedAt := now) else b)
         && (cb.task.Some? ==>
               t'.tasks[cb.task.value].status == if reason then Operations.Failed else Operations.Succeeded)
       case HasFailed =>
         && s' == (if s.state.Stopped? || s.state.Failed? then s else s.(state := Failed, revision := s.revision + 1))
         && b' == (if b.state.Released? || b.state.Broken? then b
                   else b.(state := Broken, revision := b.revision + 1, updatedAt := now))
         && (cb.task.Some? ==> t'.tasks[cb.task.value].status == Operations.Failed)
  }

  lemma AfterIsHandled(t: Tables, cb: Callback, now: nat)
    requires Applicable(t, cb) && !Late(t, cb)
    ensures Handled(t, After(t, cb, now), cb, now)
  {
    TargetRows(t, cb, now);
  }

  /** A callback may be delivered again: the second time changes nothing. */
  lemma Idempotent(t: Tables, cb: Callback, now: nat, later: nat)
    ensures After(After(t, cb, now), cb, later) == After(t, cb, now)
  {
    if Applicable(t, cb) && !Late(t, cb) {
      TargetRows(t, cb, now);
      SecondIsRefused(t, Target(t, cb, now), cb, now);
    }
  }

  lemma SecondIsRefused(t: Tables, t': Tables, cb: Callback, now: nat)
    requires Applicable(t, cb) && !Late(t, cb) && t' == Target(t, cb, now)
    ensures !Applicable(t', cb) || Late(t', cb) || t' == t
  {
    TargetRows(t, cb, now);
    if t' != t && cb.task.None? {
      var s, b := t.sessions[cb.session], t.bindings[cb.binding];
      assert SessionPath(cb.kind, s.state) != [] || BindingPath(cb.kind, b.state) != [];
    }
  }

  /** Terminal sessions, bindings and operations stay exactly as they are, and no row appears or
      disappears. */
  lemma TerminalAbsorbs(t: Tables, cb: Callback, now: nat)
    ensures
      var t' := After(t, cb, now);
      && t'.sessions.Keys == t.sessions.Keys && t'.bindings.Keys == t.bindings.Keys && t'.tasks.Keys == t.tasks.Keys
      && (forall id | id in t.sessions && t.sessions[id].state.Terminal() :: t'.sessions[id] == t.sessions[id])
      && (forall id | id in t.bindings && t.bindings[id].state.Terminal() :: t'.bindings[id] == t.bindings[id])
      && (forall id | id in t.tasks && t.tasks[id].status.Terminal() :: t'.tasks[id] == t.tasks[id])
  {
    if Applicable(t, cb) && !Late(t, cb) {
      TargetRows(t, cb, now);
    }
  }

  /** A stop that a caller would expect to be applied but never is: an active session. */
  lemma StopOfActiveSessionIsLost(t: Tables, cb: Callback, now: nat)
    requires Fenced(t, cb) && !Late(t, cb) && cb.kind.HasStopped? && t.sessions[cb.session].state.Active?
    ensures !Applicable(t, cb) && After(t, cb, now) == t
  {
  }

  // ---------------------------------------------------------------- handling

  /** What `apply_*` leaves behind for the saves: new versions of the rows, all events appended, and
      of the rows only the intermediate `Inviting` session saved. */
  ghost predicate Prepared(t: Tables, u: Tables, cb: Callback, now: nat, s': Session, b': Binding)
    requires Fenced(t, cb) && (cb.task.Some? ==> t.tasks[cb.task.value].status.Running?)
  {
    var s, b := t.sessions[cb.session], t.bindings[cb.binding];
    var target := Target(t, cb, now);
    && u.bindings == t.bindings && u.tasks == t.tasks
    && u.sessions == (if cb.kind.HasStarted? && s.state.Allocating?
                      then StepSession(t, cb.session, Inviting).sessions else t.sessions)
    && if OneSaveIsEnough(cb.kind, s, b)
       then u.outbox == target.outbox && target.sessions[cb.session] == s' && target.bindings[cb.binding] == b'
       else || (s'.state != s.state && s'.revision == s.revision + 2)
            || (b'.state != b.state && b'.revision == b.revision + 2)
  }

  method Finish(uow: UnitOfWork, cb: Callback, success: bool) returns (ok: bool, k: Option<Task>)
    requires cb.task.Some? ==> cb.task.value in uow.working.tasks
    modifies uow`working
    ensures ok <==> (cb.task.Some? ==> old(uow.working.tasks[cb.task.value]).status.Running?)
    ensures ok && cb.task.Some? ==> k == old(uow.working.tasks[cb.task.value]).Complete(success)
    ensures ok && cb.task.Some? ==>
      uow.working == old(uow.working).(outbox := old(uow.working.outbox)
        + [TaskEvent(cb.task.value, old(uow.working.tasks[cb.task.value]), k.value)])
    ensures cb.task.None? ==> uow.working == old(uow.working) && k.None?
  {
    k := None;
    if cb.task.None? { return true, k; }
    var from := uow.working.tasks[cb.task.value];
    k := from.Complete(success);
    if k.None? { return false, k; }
    uow.Append(TaskEvent(cb.task.value, from, k.value));
    ok := true;
  }

  method ApplyStarted(uow: UnitOfWork, cb: Callback, now: nat)
    returns (ok: bool, s': Session, b': Binding, k': Option<Task>)
    requires uow.Fresh() && cb.kind.HasStarted? && Fenced(uow.working, cb) && !Late(uow.working, cb)
    modifies uow`working
    ensures uow.reliable ==> (ok <==> Applicable(old(uow.working), cb))
    ensures ok ==>
      && Applicable(old(uow.working), cb)
      && Prepared(old(uow.working), uow.working, cb, now, s', b')
      && k' == Concluded(old(uow.working), cb)
    ensures ok && cb.task.Some? ==> k'.Some? && k'.value.status == Operations.Succeeded
  {
    var s, b := uow.working.sessions[cb.session], uow.working.bindings[cb.binding];
    s', b', k' := s, b, None;
    if s'.state.Allocating? {
      s' := s.To(Inviting).value;
      uow.Append(SessionEvent(cb.session, s, s'));
      ok := uow.SaveSession(cb.session, s');
      if !ok { return; }
    }
    if s'.state.Inviting? {
      var inviting := s';
      s' := inviting.To(Active).value;
      uow.Append(SessionEvent(cb.session, inviting, s'));
    }
    if b.state in {Reserved, NeedsVerification} {
      b' := b.To(Bound, now).value;
      uow.Append(BindingEvent(cb.binding, b, b'));
    }
    ok, k' := Finish(uow, cb, true);
  }

  /** Appends the events that end a session, and saves nothing. */
  method StopSession(uow: UnitOfWork, id: nat, s: Session) returns (s': Session)
    modifies uow`working
    ensures uow.working == old(uow.working).(outbox := uow.working.outbox)
    ensures s.state.Active? ==> s'.state.Stopped? && s'.revision == s.revision + 2
    ensures s.state.Terminal() ==> s' == s && uow.working == old(uow.working)
    ensures !s.state.Active? && !s.state.Terminal() ==>
      && s' == s.(state := Stopped, revision := s.revision + 1)
      && uow.working.outbox == old(uow.working.outbox) + [SessionEvent(id, s, s')]
  {
    s' := s;
    if s'.state.Active? {
      s' := s.Quit().value;
      uow.Append(SessionEvent(id, s, s'));
    }
    if !s'.state.Terminal() {
      var before := s';
      s' := before.To(Stopped).value;
      uow.Append(SessionEvent(id, before, s'));
    }
  }

  method StopBinding(uow: UnitOfWork, id: nat, b: Binding, now: nat) returns (b': Binding)
    modifies uow`working
    ensures uow.working == old(uow.working).(outbox := uow.working.outbox)
    ensures b.state in {Bound, NeedsVerification} ==> b'.state.Released? && b'.revision == b.revision + 2
    ensures b.state.Releasing? ==>
      && b' == b.(state := Released, revision := b.revision + 1, updatedAt := now)
      && uow.working.outbox == old(uow.working.outbox) + [BindingEvent(id, b, b')]
    ensures b.state !in {Bound, NeedsVerification, Releasing} ==> b' == b && uow.working == old(uow.working)
  {
    b' := b;
    if b'.state in {Bound, NeedsVerification} {
      b' := b.To(Releasing, now).value;
      uow.Append(BindingEvent(id, b, b'));
    }
    if b'.state.Releasing? {
      var before := b';
      b' := before.To(Released, now).value;
      uow.Append(BindingEvent(id, before, b'));
    }
  }

  method ApplyStopped(uow: UnitOfWork, cb: Callback, now: nat)
    returns (ok: bool, s': Session, b': Binding, k': Option<Task>)
    requires uow.Fresh() && cb.kind.HasStopped? && Fenced(uow.working, cb) && !Late(uow.working, cb)
    modifies uow`working
    ensures Applicable(old(uow.working), cb) ==> ok
    ensures ok ==>
      && TextsFit(cb, old(uow.working.sessions[cb.session]), old(uow.working.bindings[cb.binding]))
      && (cb.task.Some? ==> old(uow.working.tasks[cb.task.value]).status.Running?)
      && Prepared(old(uow.working), uow.working, cb, now, s', b')
      && k' == Concluded(old(uow.working), cb)
    ensures ok && cb.task.Some? ==>
      k'.Some? && k'.value.status == if cb.kind.reason then Operations.Failed else Operations.Succeeded
  {
    var s, b := uow.working.sessions[cb.session], uow.working.bindings[cb.binding];
    s', b', k' := s, b, None;
    s' := StopSession(uow, cb.session, s);
    b' := StopBinding(uow, cb.binding, b, now);
    if cb.task.Some? && cb.kind.reason && !cb.fits { return false, s', b', None; }
    ok, k' := Finish(uow, cb, !cb.kind.reason);
  }

  method ApplyFailed(uow: UnitOfWork, cb: Callback, now: nat)
    returns (ok: bool, s': Session, b': Binding, k': Option<Task>)
    requires uow.Fresh() && cb.kind.HasFailed? && Fenced(uow.working, cb) && !Late(uow.working, cb)
    modifies uow`working
    ensures ok <==> Applicable(old(uow.working), cb)
    ensures ok ==>
      && Prepared(old(uow.working), uow.working, cb, now, s', b')
      && k' == Concluded(old(uow.working), cb)
    ensures ok && cb.task.Some? ==> k'.Some? && k'.value.status == Operations.Failed
  {
    var s, b := uow.working.sessions[cb.session], uow.working.bindings[cb.binding];
    s', b', k' := s, b, None;
    if !s.state.Terminal() {
      if !cb.fits { return false, s', b', None; }
      s' := s.To(Failed).value;
      uow.Append(SessionEvent(cb.session, s, s'));
    }
    if !b.state.Terminal() {
      if !cb.fits { return false, s', b', None; }
      b' := b.To(Broken, now).value;
      uow.Append(BindingEvent(cb.binding, b, b'));
    }
    if cb.task.Some? && !cb.fits { return false, s', b', None; }
    ok, k' := Finish(uow, cb, false);
  }

  function Concluded(t: Tables, cb: Callback): Option<Task>
    requires cb.task.Some? ==> cb.task.value in t.tasks
  {
    if cb.task.None? then None else t.tasks[cb.task.value].Complete(Success(cb.kind))
  }

  /** Saves whatever changed state. */
  method SaveChanged(uow: UnitOfWork, cb: Callback, s: Session, s': Session, b: Binding, b': Binding, k': Option<Task>)
    returns (ok: bool)
    requires cb.session in uow.working.sessions && cb.binding in uow.working.bindings
    requires cb.task.Some? <==> k'.Some?
    requires cb.task.Some? ==> cb.task.value in uow.working.tasks
    modifies uow`working
    ensures
      var t := old(uow.working);
      var fine := && (s'.state != s.state ==> s'.revision == t.sessions[cb.session].revision + 1)
                  && (b'.state != b.state ==> b'.revision == t.bindings[cb.binding].revision + 1)
                  && (k'.Some? ==> k'.value.revision == t.tasks[cb.task.value].revision + 1);
      && (ok ==> fine)
      && (uow.reliable && fine ==> ok)
      && (ok ==> uow.working == Tables(
            if s'.state != s.state then t.sessions[cb.session := s'] else t.sessions,
            if b'.state != b.state then t.bindings[cb.binding := b'] else t.bindings,
            if k'.Some? then t.tasks[cb.task.value := k'.value] else t.tasks,
            t.outbox))
  {
    ok := true;
    if s'.state != s.state {
      ok := uow.SaveSession(cb.session, s');
      if !ok { return; }
    }
    if b'.state != b.state {
      ok := uow.SaveBinding(cb.binding, b');
      if !ok { return; }
    }
    if k'.Some? {
      ok := uow.SaveTask(cb.task.value, k'.value);
    }
  }

  /** `handle_media_event`. A callback is applied exactly when it is applicable, and then the
      committed tables are those of `After`; otherwise they are untouched. */
  method HandleMediaEvent(uow: UnitOfWork, cb: Callback, now: nat) returns (ok: bool)
    requires uow.Fresh()
    modifies uow
    ensures Good(uow.base, uow.committed)
    ensures ok ==> Applicable(old(uow.committed), cb)
    ensures uow.reliable ==> (ok <==> Applicable(old(uow.committed), cb))
    ensures ok || uow.reliable ==> uow.committed == After(old(uow.committed), cb, now)
    ensures uow.committed in {old(uow.committed), After(old(uow.committed), cb, now)}
    ensures ok && old(Late(uow.committed, cb)) ==> uow.committed == old(uow.committed)
    ensures ok && !old(Late(uow.committed, cb)) ==> Handled(old(uow.committed), uow.committed, cb, now)
  {
    ghost var t := uow.working;
    AfterIsExplained(uow.base, t, cb, now);
    if Applicable(t, cb) && !Late(t, cb) {
      AfterIsHandled(t, cb, now);
    }
    if cb.binding !in uow.working.bindings { return false; }
    var b := uow.working.bindings[cb.binding];
    if b.node != cb.node || b.instanceEpoch != cb.instanceEpoch || b.ownerEpoch != cb.ownerEpoch
       || b.revision != cb.bindingRevision
    {
      return false;
    }
    if cb.session !in uow.working.sessions || uow.working.sessions[cb.session].revision != cb.sessionRevision {
      return false;
    }
    if cb.task.Some? {
      if cb.task.value !in uow.working.tasks { return false; }
      if uow.working.tasks[cb.task.value].status.Terminal() {
        ok := uow.Commit();
        return;
      }
    }
    ok := Apply(uow, cb, now);
    if !ok { return; }
    ok := uow.Commit();
  }

  method Apply(uow: UnitOfWork, cb: Callback, now: nat) returns (ok: bool)
    requires uow.Fresh() && Fenced(uow.working, cb) && !Late(uow.working, cb)
    modifies uow`working
    ensures ok ==> Applicable(old(uow.working), cb) && uow.working == After(old(uow.working), cb, now)
    ensures uow.reliable ==> (ok <==> Applicable(old(uow.working), cb))
  {
    var s, b := uow.working.sessions[cb.session], uow.working.bindings[cb.binding];
    var s', b', k';
    match cb.kind {
      case HasStarted => ok, s', b', k' := ApplyStarted(uow, cb, now);
      case HasStopped(_) => ok, s', b', k' := ApplyStopped(uow, cb, now);
      case HasFailed => ok, s', b', k' := ApplyFailed(uow, cb, now);
    }
    if !ok { return; }
    ok := SaveChanged(uow, cb, s, s', b, b', k');
  }
}
