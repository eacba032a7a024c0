/** One unit of work over the media tables, and what other writers may do between its commits. */
module MediaStore {
  import opened Wrappers
  import opened Media
  import Operations

  /** `stored` is the row a copy was taken from, or a later version of it. */
  predicate SessionCopy(t: Tables, id: nat, copy: Session) {
    id in t.sessions && (t.sessions[id] == copy || t.sessions[id].revision > copy.revision)
  }

  predicate BindingCopy(t: Tables, id: nat, copy: Binding) {
    && id in t.bindings && (t.bindings[id] == copy || t.bindings[id].revision > copy.revision)
    && t.bindings[id].session == copy.session && t.bindings[id].node == copy.node
  }

  /** The guard on every `save`: an absent row, or one whose revision is the one before. */
  predicate Admits(stored: Option<nat>, revision: nat) {
    stored.Some? ==> revision == stored.value + 1
  }

  ghost predicate Good(base: Tables, t: Tables) {
    && Explained(base, t)
    && forall id | id in t.sessions :: t.sessions[id].Sound()
  }

  class UnitOfWork {
    /** The tables and outbox at the moment the story begins. */
    ghost const base: Tables
    /** Storage that refuses nothing but stale revisions. */
    const reliable: bool
    var committed: Tables
    /** What the transaction sees: the committed tables and its own writes. */
    var working: Tables

    constructor (t: Tables, reliable: bool)
      requires forall id | id in t.sessions :: t.sessions[id].Sound()
      ensures base == committed == working == t && this.reliable == reliable
      ensures Good(base, committed)
    {
      base, committed, working, this.reliable := t, t, t, reliable;
    }

    ghost predicate Fresh()
      reads this
    {
      working == committed && Good(base, committed)
    }

    function SessionRevision(id: nat): Option<nat>
      reads this
    {
      if id in working.sessions then Some(working.sessions[id].revision) else None
    }

    function BindingRevision(id: nat): Option<nat>
      reads this
    {
      if id in working.bindings then Some(working.bindings[id].revision) else None
    }

    function TaskRevision(id: nat): Option<nat>
      reads this
    {
      if id in working.tasks then Some(working.tasks[id].revision) else None
    }

    method Storage() returns (fine: bool)
      ensures reliable ==> fine
    {
      fine := *;
      fine := reliable || fine;
    }

    method SaveSession(id: nat, s: Session) returns (ok: bool)
      modifies this`working
      ensures ok ==> old(Admits(SessionRevision(id), s.revision))
      ensures reliable && old(Admits(SessionRevision(id), s.revision)) ==> ok
      ensures working == if ok then old(working).(sessions := old(working.sessions)[id := s]) else old(working)
    {
      var fine := Storage();
      ok := fine && Admits(SessionRevision(id), s.revision);
      if ok {
        working := working.(sessions := working.sessions[id := s]);
      }
    }

    method SaveBinding(id: nat, b: Binding) returns (ok: bool)
      modifies this`working
      ensures ok ==> old(Admits(BindingRevision(id), b.revision))
      ensures reliable && old(Admits(BindingRevision(id), b.revision)) ==> ok
      ensures working == if ok then old(working).(bindings := old(working.bindings)[id := b]) else old(working)
    {
      var fine := Storage();
      ok := fine && Admits(BindingRevision(id), b.revision);
      if ok {
        working := working.(bindings := working.bindings[id := b]);
      }
    }

    method SaveTask(id: nat, k: Task) returns (ok: bool)
      modifies this`working
      ensures ok ==> old(Admits(TaskRevision(id), k.revision))
      ensures reliable && old(Admits(TaskRevision(id), k.revision)) ==> ok
      ensures working == if ok then old(working).(tasks := old(working.tasks)[id := k]) else old(working)
    {
      var fine := Storage();
      ok := fine && Admits(TaskRevision(id), k.revision);
      if ok {
        working := working.(tasks := working.tasks[id := k]);
      }
    }

    method Append(e: Event)
      modifies this`working
      ensures working == old(working).(outbox := old(working.outbox) + [e])
    {
      working := working.(outbox := working.outbox + [e]);
    }

    /** A commit that reports failure may or may not have been applied. Either way the transaction
        is over. */
    method Commit() returns (ok: bool)
      modifies this
      ensures reliable ==> ok
      ensures ok ==> committed == old(working)
      ensures committed == old(committed) || committed == old(working)
      ensures working == committed
    {
      ok := Storage();
      var applied := Storage();
      if ok || applied {
        committed := working;
      }
      working := committed;
    }

    /** Append the event, then save: the order of the media service. A refused save leaves the
        event behind in the transaction, and no later write can make it true. */
    method AppendAndSaveSession(id: nat, from: Session, to: Session) returns (ok: bool)
      requires SessionCopy(working, id, from) && SessionStep(from, to) && to.Sound()
      modifies this`working
      ensures ok ==>
        && old(working.sessions[id]) == from
        && working == PutSession(old(working), id, to, SessionEvent(id, from, to))
      ensures !ok ==> working == old(working).(outbox := old(working.outbox) + [SessionEvent(id, from, to)])
      ensures old(Good(base, working)) && ok ==> Good(base, working)
      ensures old(Good(base, working)) && reliable && !ok ==> !Good(base, working)
      ensures reliable ==> (ok <==> old(working.sessions[id]) == from)
    {
      ghost var t := working;
      var e := SessionEvent(id, from, to);
      Append(e);
      ok := SaveSession(id, to);
      if Good(base, t) {
        if ok {
          SessionPut(base, t, id, to);
        } else if reliable {
          StrayUnexplained(base, t, e);
        }
      }
    }

    method AppendAndSaveBinding(id: nat, from: Binding, to: Binding) returns (ok: bool)
      requires BindingCopy(working, id, from) && BindingStep(from, to)
      modifies this`working
      ensures ok ==>
        && old(working.bindings[id]) == from
        && working == PutBinding(old(working), id, to, BindingEvent(id, from, to))
      ensures !ok ==> working == old(working).(outbox := old(working.outbox) + [BindingEvent(id, from, to)])
      ensures old(Good(base, working)) && ok ==> Good(base, working)
      ensures old(Good(base, working)) && reliable && !ok ==> !Good(base, working)
      ensures reliable ==> (ok <==> old(working.bindings[id]) == from)
    {
      ghost var t := working;
      var e := BindingEvent(id, from, to);
      Append(e);
      ok := SaveBinding(id, to);
      if Good(base, t) {
        if ok {
          BindingPut(base, t, id, to);
        } else if reliable {
          StrayUnexplained(base, t, e);
        }
      }
    }

    method AppendAndSaveGeneration(id: nat, from: Session, to: Session) returns (ok: bool)
      requires SessionCopy(working, id, from) && from.BumpGeneration() == Some(to)
      modifies this`working
      ensures ok ==>
        && old(working.sessions[id]) == from
        && working == PutSession(old(working), id, to, GenerationEvent(id, to))
      ensures !ok ==> working == old(working).(outbox := old(working.outbox) + [GenerationEvent(id, to)])
      ensures old(Good(base, working)) && ok ==> Good(base, working)
      ensures reliable ==> (ok <==> old(working.sessions[id]) == from)
    {
      ghost var t := working;
      Append(GenerationEvent(id, to));
      ok := SaveSession(id, to);
      if Good(base, t) && ok {
        GenerationPut(base, t, id, to);
      }
    }

    /** Save, then append. */
    method SaveAndAppendSession(id: nat, from: Session, to: Session) returns (ok: bool)
      requires SessionCopy(working, id, from) && SessionStep(from, to) && to.Sound()
      modifies this`working
      ensures ok ==>
        && old(working.sessions[id]) == from
        && working == PutSession(old(working), id, to, SessionEvent(id, from, to))
      ensures !ok ==> working == old(working)
      ensures old(Good(base, working)) ==> Good(base, working)
      ensures reliable ==> (ok <==> old(working.sessions[id]) == from)
    {
      ghost var t := working;
      ok := SaveSession(id, to);
      if ok {
        Append(SessionEvent(id, from, to));
        if Good(base, t) {
          SessionPut(base, t, id, to);
        }
      }
    }

    method SaveAndAppendBinding(id: nat, from: Binding, to: Binding) returns (ok: bool)
      requires BindingCopy(working, id, from) && BindingStep(from, to)
      modifies this`working
      ensures ok ==>
        && old(working.bindings[id]) == from
        && working == PutBinding(old(working), id, to, BindingEvent(id, from, to))
      ensures !ok ==> working == old(working)
      ensures old(Good(base, working)) ==> Good(base, working)
      ensures reliable ==> (ok <==> old(working.bindings[id]) == from)
    {
      ghost var t := working;
      ok := SaveBinding(id, to);
      if ok {
        Append(BindingEvent(id, from, to));
        if Good(base, t) {
          BindingPut(base, t, id, to);
        }
      }
    }

    method SaveAndAppendTask(id: nat, to: Task) returns (ok: bool)
      requires id in working.tasks && to.revision == working.tasks[id].revision + 1
      modifies this`working
      ensures ok ==> working == PutTask(old(working), id, to, TaskEvent(id, old(working.tasks[id]), to))
      ensures !ok ==> working == old(working)
      ensures old(Good(base, working)) ==> Good(base, working)
      ensures reliable ==> ok
    {
      ghost var t := working;
      var from := working.tasks[id];
      ok := SaveTask(id, to);
      if ok {
        Append(TaskEvent(id, from, to));
        if Good(base, t) {
          TaskPut(base, t, id, to);
        }
      }
    }

    /** Other units of work commit while this one holds no transaction. */
    method LetOthersRun(others: seq<Write>)
      requires working == committed
      modifies this
      ensures working == committed == Elsewhere(old(committed), others)
      ensures old(Good(base, committed)) ==> Good(base, committed)
      ensures Later(old(committed), committed)
    {
      ElsewhereIsLater(committed, others);
      if Good(base, committed) {
        ElsewhereIsGood(base, committed, others);
      }
      committed := Elsewhere(committed, others);
      working := committed;
    }
  }

  // ---------------------------------------------------------------- other writers

  datatype Write =
    | WriteSession(id: nat, session: Session)
    | WriteBinding(id: nat, binding: Binding)
    | WriteTask(id: nat, task: Task)

  /** A write some other unit of work may commit: one transition, with its event. */
  predicate Lawful(t: Tables, w: Write) {
    match w
    case WriteSession(id, to) =>
      && id in t.sessions && SessionStep(t.sessions[id], to) && to.Sound()
      && t.sessions[id].state.MayBecome(to.state)
    case WriteBinding(id, to) =>
      id in t.bindings && BindingStep(t.bindings[id], to) && t.bindings[id].state.MayBecome(to.state)
    case WriteTask(id, to) =>
      id in t.tasks && to.revision == t.tasks[id].revision + 1 && !t.tasks[id].status.Terminal()
  }

  function Written(t: Tables, w: Write): Tables
    requires Lawful(t, w)
  {
    match w
    case WriteSession(id, to) => PutSession(t, id, to, SessionEvent(id, t.sessions[id], to))
    case WriteBinding(id, to) => PutBinding(t, id, to, BindingEvent(id, t.bindings[id], to))
    case WriteTask(id, to) => PutTask(t, id, to, TaskEvent(id, t.tasks[id], to))
  }

  /** Any sequence of other writers' writes; an unlawful one is refused and changes nothing. */
  function Elsewhere(t: Tables, ws: seq<Write>): Tables
    decreases |ws|
  {
    if ws == [] then t
    else Elsewhere(if Lawful(t, ws[0]) then Written(t, ws[0]) else t, ws[1..])
  }

  /** Rows only gain revisions and never disappear. */
  ghost predicate Later(t: Tables, t': Tables) {
    && (forall id | id in t.sessions :: SessionCopy(t', id, t.sessions[id]))
    && (forall id | id in t.bindings :: BindingCopy(t', id, t.bindings[id]))
    && t.tasks.Keys <= t'.tasks.Keys
  }

  lemma LaterChains(a: Tables, b: Tables, c: Tables)
    requires Later(a, b) && Later(b, c)
    ensures Later(a, c)
  {
    forall id | id in a.sessions ensures SessionCopy(c, id, a.sessions[id]) {
      assert SessionCopy(b, id, a.sessions[id]) && SessionCopy(c, id, b.sessions[id]);
    }
    forall id | id in a.bindings ensures BindingCopy(c, id, a.bindings[id]) {
      assert BindingCopy(b, id, a.bindings[id]) && BindingCopy(c, id, b.bindings[id]);
    }
  }

  lemma {:induction false} ElsewhereIsLater(t: Tables, ws: seq<Write>)
    ensures Later(t, Elsewhere(t, ws))
    decreases |ws|
  {
    if ws != [] {
      var t' := if Lawful(t, ws[0]) then Written(t, ws[0]) else t;
      ElsewhereIsLater(t', ws[1..]);
      LaterChains(t, t', Elsewhere(t', ws[1..]));
    }
  }

  /** Other writers keep the tables explained. */
  lemma {:induction false} ElsewhereIsGood(base: Tables, t: Tables, ws: seq<Write>)
    requires Good(base, t)
    ensures Good(base, Elsewhere(t, ws))
    decreases |ws|
  {
    if ws != [] {
      if Lawful(t, ws[0]) {
        match ws[0] {
          case WriteSession(id, to) => SessionPut(base, t, id, to);
          case WriteBinding(id, to) => BindingPut(base, t, id, to);
          case WriteTask(id, to) => TaskPut(base, t, id, to);
        }
        ElsewhereIsGood(base, Written(t, ws[0]), ws[1..]);
      } else {
        ElsewhereIsGood(base, t, ws[1..]);
      }
    }
  }
}
