/** The media session, media binding and operation aggregates as the media service sees them, the
    tables that hold them, and the outbox that is meant to tell their story. */
module Media {
  import opened Wrappers
  import Operations

  datatype SessionState = Requested | Allocating | Inviting | Active | Stopping | Stopped | Failed {
    predicate Terminal() { this in {Stopped, Failed} }

    predicate MayBecome(next: SessionState) {
      match this
      case Requested => next in {Allocating, Stopped, Failed}
      case Allocating => next in {Inviting, Stopped, Failed}
      case Inviting => next in {Active, Stopped, Failed}
      case Active => next in {Stopping, Stopped, Failed}
      case Stopping => next in {Stopped, Failed}
      case _ => false
    }
  }

  datatype Desired = WantActive | WantStopped

  datatype Session = Session(
    state: SessionState, desired: Desired, generation: nat, ownerEpoch: nat, revision: nat)
  {
    /** No transition reaches `Stopping` without recording the wish to stop. */
    predicate Sound() { state.Stopping? ==> desired == WantStopped }

    function To(next: SessionState): (r: Option<Session>)
      ensures r.Some? ==> next.Stopping? || r.value.Sound()
      ensures r.Some? ==> !state.Terminal() && r.value.state == next && r.value.revision == revision + 1
    {
      if state.MayBecome(next) then Some(this.(state := next, revision := revision + 1)) else None
    }

    /** `stopping`: from `Active` only. */
    function Quit(): (r: Option<Session>)
      ensures r.Some? <==> state.Active?
      ensures r.Some? ==> r.value.Sound() && r.value.desired == WantStopped && r.value.revision == revision + 1
    {
      if state.Active? then this.(desired := WantStopped).To(Stopping) else None
    }

    /** `stop`: towards `Stopping` from `Active`, straight to `Stopped` from anywhere else. */
    function Stop(): (r: Option<Session>)
      ensures r.Some? <==> !state.Terminal()
      ensures r.Some? ==> r.value.Sound() && r.value.desired == WantStopped && r.value.revision == revision + 1
    {
      if state.Terminal() then None
      else this.(desired := WantStopped).To(if state.Active? then Stopping else Stopped)
    }

    function BumpGeneration(): (r: Option<Session>)
      ensures r.Some? <==> !state.Terminal()
      ensures r.Some? ==> r.value.generation == generation + 1 && r.value.revision == revision + 1
    {
      if state.Terminal() then None
      else Some(this.(generation := generation + 1, revision := revision + 1))
    }
  }

  datatype BindingState = Reserved | Bound | NeedsVerification | Releasing | Released | Broken {
    predicate Terminal() { this in {Released, Broken} }

    predicate MayBecome(next: BindingState) {
      match this
      case Reserved => next in {Bound, NeedsVerification, Releasing, Broken}
      case Bound => next in {NeedsVerification, Releasing, Broken}
      case NeedsVerification => next in {Bound, Releasing, Broken}
      case Releasing => next in {Released, Broken}
      case _ => false
    }
  }

  datatype Binding = Binding(
    session: nat, node: nat, ownerEpoch: nat, instanceEpoch: nat,
    state: BindingState, revision: nat, updatedAt: nat)
  {
    function To(next: BindingState, now: nat): (r: Option<Binding>)
      ensures r.Some? ==> r.value.revision == revision + 1 && r.value.updatedAt == now
    {
      if state.MayBecome(next) then Some(this.(state := next, revision := revision + 1, updatedAt := now))
      else None
    }
  }

  datatype Task = Task(status: Operations.Status, revision: nat) {
    function Start(): (r: Option<Task>)
      ensures r.Some? <==> status.Pending?
    {
      if status.Pending? then Some(Task(Operations.Running, revision + 1)) else None
    }

    function Complete(success: bool): (r: Option<Task>)
      ensures r.Some? <==> status.Running?
      ensures r.Some? ==> r.value.status.Terminal()
    {
      if !status.Running? then None
      else Some(Task(if success then Operations.Succeeded else Operations.Failed, revision + 1))
    }
  }

  // ---------------------------------------------------------------- outbox

  datatype Key = OfSession(id: nat) | OfBinding(id: nat) | OfTask(id: nat) | OfDevice(id: nat)

  /** What an event says; neither update times nor instance epochs are told. */
  datatype Change =
    | SessionChanged(previous: SessionState, state: SessionState, desired: Desired)
    | GenerationBumped(generation: nat)
    | BindingCreated(session: nat, node: nat, ownerEpoch: nat)
    | BindingChanged(bindingPrevious: BindingState, bindingState: BindingState)
    | TaskCreated
    | TaskChanged(taskPrevious: Operations.Status, status: Operations.Status)
    | Envelope

  datatype Event = Event(key: Key, revision: nat, change: Change)

  datatype Tables = Tables(
    sessions: map<nat, Session>,
    bindings: map<nat, Binding>,
    tasks: map<nat, Task>,
    outbox: seq<Event>)

  function SessionEvent(id: nat, from: Session, to: Session): Event {
    Event(OfSession(id), to.revision, SessionChanged(from.state, to.state, to.desired))
  }

  function GenerationEvent(id: nat, to: Session): Event {
    Event(OfSession(id), to.revision, GenerationBumped(to.generation))
  }

  function BindingEvent(id: nat, from: Binding, to: Binding): Event {
    Event(OfBinding(id), to.revision, BindingChanged(from.state, to.state))
  }

  function BornEvent(id: nat, b: Binding): Event {
    Event(OfBinding(id), 0, BindingCreated(b.session, b.node, b.ownerEpoch))
  }

  function TaskEvent(id: nat, from: Task, to: Task): Event {
    Event(OfTask(id), to.revision, TaskChanged(from.status, to.status))
  }

  /** What somebody who only reads the outbox can know of an aggregate. */
  datatype Told =
    | Contradicted
    | Untold
    | ToldSession(session: Session)
    | ToldBinding(of: nat, node: nat, ownerEpoch: nat, state: BindingState, revision: nat)
    | ToldTask(task: Task)

  function Truth(t: Tables, key: Key): Told {
    match key
    case OfSession(id) => if id in t.sessions then ToldSession(t.sessions[id]) else Untold
    case OfBinding(id) =>
      if id !in t.bindings then Untold
      else var b := t.bindings[id]; ToldBinding(b.session, b.node, b.ownerEpoch, b.state, b.revision)
    case OfTask(id) => if id in t.tasks then ToldTask(t.tasks[id]) else Untold
    case OfDevice(_) => Untold
  }

  /** Following one event: it must carry the next revision and start from the known state. */
  function Follow(told: Told, e: Event): Told {
    match (told, e.change)
    case (Untold, BindingCreated(session, node, epoch)) =>
      if e.revision == 0 then ToldBinding(session, node, epoch, Reserved, 0) else Contradicted
    case (Untold, TaskCreated) =>
      if e.revision == 0 then ToldTask(Task(Operations.Pending, 0)) else Contradicted
    case (ToldSession(s), SessionChanged(previous, state, desired)) =>
      if e.revision == s.revision + 1 && previous == s.state
      then ToldSession(s.(state := state, desired := desired, revision := e.revision)) else Contradicted
    case (ToldSession(s), GenerationBumped(generation)) =>
      if e.revision == s.revision + 1 && generation == s.generation + 1
      then ToldSession(s.(generation := generation, revision := e.revision)) else Contradicted
    case (ToldBinding(session, node, epoch, state, revision), BindingChanged(previous, next)) =>
      if e.revision == revision + 1 && previous == state
      then ToldBinding(session, node, epoch, next, e.revision) else Contradicted
    case (ToldTask(task), TaskChanged(previous, status)) =>
      if e.revision == task.revision + 1 && previous == task.status
      then ToldTask(Task(status, e.revision)) else Contradicted
    case (Untold, Envelope) => Untold
    case _ => Contradicted
  }

  function Replay(key: Key, told: Told, events: seq<Event>): Told {
    if events == [] then told
    else
      var before := Replay(key, told, events[..|events| - 1]);
      var last := events[|events| - 1];
      if last.key == key then Follow(before, last) else before
  }

  /** Every aggregate is what replaying the outbox since `base` makes of its state in `base`. */
  ghost predicate Explained(base: Tables, t: Tables) {
    && base.outbox <= t.outbox
    && forall key :: Truth(t, key) == Replay(key, Truth(base, key), t.outbox[|base.outbox|..])
  }

  lemma ReplayMore(key: Key, told: Told, events: seq<Event>, e: Event)
    ensures
      var before := Replay(key, told, events);
      Replay(key, told, events + [e]) == if e.key == key then Follow(before, e) else before
  {
    assert (events + [e])[..|events|] == events;
  }

  /** One saved transition with its event is followed by the reader. */
  lemma StepExplained(base: Tables, t: Tables, t': Tables, e: Event)
    requires Explained(base, t) && t'.outbox == t.outbox + [e]
    requires forall key | key != e.key :: Truth(t', key) == Truth(t, key)
    requires Truth(t', e.key) == Follow(Truth(t, e.key), e)
    ensures Explained(base, t')
  {
    var events := t.outbox[|base.outbox|..];
    assert t'.outbox[|base.outbox|..] == events + [e];
    forall key ensures Truth(t', key) == Replay(key, Truth(base, key), events + [e]) {
      ReplayMore(key, Truth(base, key), events, e);
      assert Truth(t, key) == Replay(key, Truth(base, key), events);
    }
  }

  /** An event no row follows can never be explained. */
  lemma StrayUnexplained(base: Tables, t: Tables, e: Event)
    requires Explained(base, t) && Follow(Truth(t, e.key), e) != Truth(t, e.key)
    ensures !Explained(base, t.(outbox := t.outbox + [e]))
  {
    var t' := t.(outbox := t.outbox + [e]);
    var events := t.outbox[|base.outbox|..];
    assert t'.outbox[|base.outbox|..] == events + [e];
    assert Truth(t', e.key) == Truth(t, e.key);
    ReplayMore(e.key, Truth(base, e.key), events, e);
    assert Replay(e.key, Truth(base, e.key), t'.outbox[|base.outbox|..]) == Follow(Truth(t, e.key), e);
  }

  function PutSession(t: Tables, id: nat, s: Session, e: Event): Tables {
    t.(sessions := t.sessions[id := s], outbox := t.outbox + [e])
  }

  function PutBinding(t: Tables, id: nat, b: Binding, e: Event): Tables {
    t.(bindings := t.bindings[id := b], outbox := t.outbox + [e])
  }

  function PutTask(t: Tables, id: nat, k: Task, e: Event): Tables {
    t.(tasks := t.tasks[id := k], outbox := t.outbox + [e])
  }

  predicate SessionStep(from: Session, to: Session) {
    to == from.(state := to.state, desired := to.desired, revision := from.revision + 1)
  }

  predicate BindingStep(from: Binding, to: Binding) {
    to == from.(state := to.state, updatedAt := to.updatedAt, revision := from.revision + 1)
  }

  lemma SessionPut(base: Tables, t: Tables, id: nat, to: Session)
    requires Explained(base, t) && id in t.sessions && SessionStep(t.sessions[id], to)
    ensures Explained(base, PutSession(t, id, to, SessionEvent(id, t.sessions[id], to)))
  {
    var e := SessionEvent(id, t.sessions[id], to);
    StepExplained(base, t, PutSession(t, id, to, e), e);
  }

  lemma GenerationPut(base: Tables, t: Tables, id: nat, to: Session)
    requires Explained(base, t) && id in t.sessions && t.sessions[id].BumpGeneration() == Some(to)
    ensures Explained(base, PutSession(t, id, to, GenerationEvent(id, to)))
  {
    StepExplained(base, t, PutSession(t, id, to, GenerationEvent(id, to)), GenerationEvent(id, to));
  }

  lemma BindingPut(base: Tables, t: Tables, id: nat, to: Binding)
    requires Explained(base, t) && id in t.bindings && BindingStep(t.bindings[id], to)
    ensures Explained(base, PutBinding(t, id, to, BindingEvent(id, t.bindings[id], to)))
  {
    var e := BindingEvent(id, t.bindings[id], to);
    StepExplained(base, t, PutBinding(t, id, to, e), e);
  }

  /** A row that appears together with the event of its creation. */
  lemma BindingBorn(base: Tables, t: Tables, id: nat, b: Binding)
    requires Explained(base, t) && id !in t.bindings && b.state.Reserved? && b.revision == 0
    ensures Explained(base, PutBinding(t, id, b, BornEvent(id, b)))
  {
    StepExplained(base, t, PutBinding(t, id, b, BornEvent(id, b)), BornEvent(id, b));
  }

  lemma TaskBorn(base: Tables, t: Tables, id: nat)
    requires Explained(base, t) && id !in t.tasks
    ensures Explained(base, PutTask(t, id, Task(Operations.Pending, 0), Event(OfTask(id), 0, TaskCreated)))
  {
    var e := Event(OfTask(id), 0, TaskCreated);
    StepExplained(base, t, PutTask(t, id, Task(Operations.Pending, 0), e), e);
  }

  lemma TaskPut(base: Tables, t: Tables, id: nat, to: Task)
    requires Explained(base, t) && id in t.tasks && to.revision == t.tasks[id].revision + 1
    ensures Explained(base, PutTask(t, id, to, TaskEvent(id, t.tasks[id], to)))
  {
    var e := TaskEvent(id, t.tasks[id], to);
    StepExplained(base, t, PutTask(t, id, to, e), e);
  }
}
