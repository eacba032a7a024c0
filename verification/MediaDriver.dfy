/** Media session transitions requested by GB28181 driver events. */
module MediaDriver {
  import opened Wrappers
  import opened Media
  import opened MediaStore

  /** `fits`: the failure reason is within the aggregate's length limit. */
  datatype Wish = Start | Stop | Fail(fits: bool)

  /** Where an event leaves a session, and how many transitions that takes. */
  function Settled(state: SessionState, wish: Wish): (SessionState, nat) {
    match wish
    case Start =>
      (match state
       case Requested => (Active, 3)
       case Allocating => (Active, 2)
       case Inviting => (Active, 1)
       case _ => (state, 0))
    case Stop => if state.Terminal() then (state, 0) else if state.Active? then (Stopped, 2) else (Stopped, 1)
    case Fail(_) => if state.Terminal() then (state, 0) else (Failed, 1)
  }

  /** A session that is not yet stopping becomes active, a session that is not over is stopped or failed, as
      wished, and one that is over stays as it is; a wish granted is granted for good. */
  lemma WishIsGranted(state: SessionState, wish: Wish)
    ensures
      var (state', hops) := Settled(state, wish);
      && (state.Stopped? || state.Failed? ==> state' == state)
      && (hops == 0 <==> state' == state)
      && (!state.Stopped? && !state.Failed? ==>
            && (wish.Stop? ==> state'.Stopped?)
            && (wish.Fail? ==> state'.Failed?)
            && (wish.Start? ==> state' == if state.Stopping? then Stopping else Active))
      && Settled(state', wish) == (state', 0)
  {
  }

  predicate Refuses(state: SessionState, wish: Wish) {
    wish.Fail? && !wish.fits && !state.Terminal()
  }

  /** The session row `id` went from `s` to `s'` in `hops` saved transitions; nothing else changed. */
  predicate Hopped(t: Tables, t': Tables, id: nat, s: Session, s': Session, hops: nat) {
    && id in t.sessions && t.sessions[id] == s
    && t'.sessions == t.sessions[id := s'] && t'.bindings == t.bindings && t'.tasks == t.tasks
    && s'.revision == s.revision + hops && s'.generation == s.generation
    && t.outbox <= t'.outbox && |t'.outbox| == |t.outbox| + hops
  }

  method Hop(uow: UnitOfWork, id: nat, s: Session, to: Session) returns (ok: bool)
    requires Good(uow.base, uow.working) && id in uow.working.sessions && uow.working.sessions[id] == s
    requires SessionStep(s, to) && to.Sound()
    modifies uow`working
    ensures Good(uow.base, uow.working)
    ensures uow.reliable ==> ok
    ensures ok ==> Hopped(old(uow.working), uow.working, id, s, to, 1)
  {
    ok := uow.SaveAndAppendSession(id, s, to);
  }

  method Climb(uow: UnitOfWork, id: nat) returns (ok: bool, s: Session)
    requires Good(uow.base, uow.working) && id in uow.working.sessions
    modifies uow`working
    ensures Good(uow.base, uow.working)
    ensures uow.reliable ==> ok
    ensures ok ==>
      var was := old(uow.working.sessions[id]);
      && s.state == Settled(was.state, Start).0
      && Hopped(old(uow.working), uow.working, id, was, s, Settled(was.state, Start).1)
  {
    s := uow.working.sessions[id];
    ok := true;
    if s.state.Requested? {
      ok := Hop(uow, id, s, s.To(Allocating).value);
      if !ok { return; }
      s := s.To(Allocating).value;
    }
    if s.state.Allocating? {
      ok := Hop(uow, id, s, s.To(Inviting).value);
      if !ok { return; }
      s := s.To(Inviting).value;
    }
    if s.state.Inviting? {
      ok := Hop(uow, id, s, s.To(Active).value);
      if !ok { return; }
      s := s.To(Active).value;
    }
  }

  method Descend(uow: UnitOfWork, id: nat) returns (ok: bool, s: Session)
    requires Good(uow.base, uow.working) && id in uow.working.sessions
    modifies uow`working
    ensures Good(uow.base, uow.working)
    ensures uow.reliable ==> ok
    ensures ok ==>
      var was := old(uow.working.sessions[id]);
      && s.state == Settled(was.state, Stop).0
      && Hopped(old(uow.working), uow.working, id, was, s, Settled(was.state, Stop).1)
  {
    s := uow.working.sessions[id];
    ok := true;
    if s.state in {Requested, Allocating, Inviting, Active} {
      ok := Hop(uow, id, s, s.Stop().value);
      if !ok { return; }
      s := s.Stop().value;
    }
    if s.state.Stopping? {
      ok := Hop(uow, id, s, s.To(Stopped).value);
      if !ok { return; }
      s := s.To(Stopped).value;
    }
  }

  method Transit(uow: UnitOfWork, id: nat, wish: Wish) returns (ok: bool)
    requires Good(uow.base, uow.working) && id in uow.working.sessions
    modifies uow`working
    ensures Good(uow.base, uow.working)
    ensures uow.reliable ==> (ok <==> !Refuses(old(uow.working.sessions[id].state), wish))
    ensures ok ==>
      var was := old(uow.working.sessions[id]);
      && id in uow.working.sessions && uow.working.sessions[id].state == Settled(was.state, wish).0
      && Hopped(old(uow.working), uow.working, id, was, uow.working.sessions[id], Settled(was.state, wish).1)
  {
    var s := uow.working.sessions[id];
    match wish
    case Start =>
      ok, s := Climb(uow, id);
    case Stop =>
      ok, s := Descend(uow, id);
    case Fail(fits) =>
      if s.state.Terminal() {
        return true;
      }
      if !fits {
        return false;
      }
      ok := Hop(uow, id, s, s.To(Failed).value);
  }

  /** `t` with the envelope of a driver event appended. */
  function Enveloped(t: Tables, device: nat): Tables {
    t.(outbox := t.outbox + [Event(OfDevice(device), 0, Envelope)])
  }

  /** Whatever happens, the committed tables stay explained by the outbox. A handled event leaves
      the session where the wish says, one revision and one event per transition, and its envelope
      last; only a reason that is too long can stop it on storage that works. */
  method HandleMediaSessionEvent(uow: UnitOfWork, device: nat, id: nat, wish: Wish)
    returns (ok: bool, ghost told: Tables)
    requires uow.Fresh()
    modifies uow
    ensures Good(uow.base, uow.committed)
    ensures ok ==> uow.committed == Enveloped(told, device)
    ensures ok && id !in old(uow.committed.sessions) ==> told == old(uow.committed)
    ensures ok && id in old(uow.committed.sessions) ==>
      var was := old(uow.committed.sessions[id]);
      && id in told.sessions && told.sessions[id].state == Settled(was.state, wish).0
      && Hopped(old(uow.committed), told, id, was, told.sessions[id], Settled(was.state, wish).1)
    ensures uow.reliable ==>
      (ok <==> !(id in old(uow.committed.sessions) && Refuses(old(uow.committed.sessions[id].state), wish)))
  {
    ok := true;
    if id in uow.working.sessions {
      ok := Transit(uow, id, wish);
    }
    told := uow.working;
    if !ok { return; }
    var e := Event(OfDevice(device), 0, Envelope);
    uow.Append(e);
    StepExplained(uow.base, told, uow.working, e);
    ok := uow.Commit();
  }
}
