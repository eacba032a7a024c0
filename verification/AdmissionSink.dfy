/** Admission control in front of the event worker: coalescing, shedding, a bounded channel and a
    dead-letter queue that is redriven when the channel has room. */
module AdmissionSink {
  import opened Wrappers

  datatype Class = Command | Catalog | Keepalive | Position | Alarm | Other {
    /** Low-priority classes, which are also the ones that are coalesced. */
    predicate Low() { this in {Keepalive, Position} }
  }

  datatype Event = Event(kind: Class, device: nat, body: nat)

  /** The coalescing key of an event, within the sink's one tenant. */
  datatype Key = Key(device: nat, kind: Class)

  const REDRIVE_BATCH_SIZE: nat := 64

  datatype Metrics = Metrics(
    coalesced: nat, shed: nat, admitted: nat, deadLettered: nat, redriven: nat, exhausted: nat, dropped: nat)

  const NO_METRICS: Metrics := Metrics(0, 0, 0, 0, 0, 0, 0)

  // ---------------------------------------------------------------- the ledger

  /** What the entries of a ledger amount to: the dead letters, the counters, and where the events that
      arrived have gone, into the channel (`sent`) or for good (`gone`); `displaced` counts dead letters
      pushed out of a full queue. */
  datatype Accounts = Accounts(
    dlq: seq<Event>, metrics: Metrics,
    arrived: seq<Event>, sent: seq<Event>, gone: seq<Event>, displaced: nat)
  {
    ghost predicate Balanced() {
      && multiset(arrived) == multiset(sent) + multiset(gone) + multiset(dlq)
      && |sent| == metrics.admitted
      && |gone| == metrics.coalesced + metrics.shed + displaced + metrics.exhausted
      && metrics.deadLettered == metrics.redriven + metrics.exhausted + displaced + |dlq|
      && metrics.dropped == metrics.shed + displaced + metrics.exhausted
      && metrics.redriven <= metrics.admitted
    }
  }

  const NOTHING: Accounts := Accounts([], NO_METRICS, [], [], [], 0)

  /** What can happen to an event, or to the oldest dead letter. */
  datatype Entry =
    | Coalesce(event: Event)
    | Shed(event: Event)
    | Admit(event: Event)
    | Bury(event: Event)
    | Displace
    | Revive
    | Exhaust

  function Post(a: Accounts, x: Entry): Accounts {
    var m := a.metrics;
    match x
    case Coalesce(e) =>
      a.(metrics := m.(coalesced := m.coalesced + 1), arrived := a.arrived + [e], gone := a.gone + [e])
    case Shed(e) =>
      a.(metrics := m.(shed := m.shed + 1, dropped := m.dropped + 1),
         arrived := a.arrived + [e], gone := a.gone + [e])
    case Admit(e) =>
      a.(metrics := m.(admitted := m.admitted + 1), arrived := a.arrived + [e], sent := a.sent + [e])
    case Bury(e) =>
      a.(dlq := a.dlq + [e], metrics := m.(deadLettered := m.deadLettered + 1), arrived := a.arrived + [e])
    case Displace =>
      if a.dlq == [] then a
      else a.(dlq := a.dlq[1..], metrics := m.(dropped := m.dropped + 1),
              gone := a.gone + [a.dlq[0]], displaced := a.displaced + 1)
    case Revive =>
      if a.dlq == [] then a
      else a.(dlq := a.dlq[1..], metrics := m.(admitted := m.admitted + 1, redriven := m.redriven + 1),
              sent := a.sent + [a.dlq[0]])
    case Exhaust =>
      if a.dlq == [] then a
      else a.(dlq := a.dlq[1..], metrics := m.(exhausted := m.exhausted + 1, dropped := m.dropped + 1),
              gone := a.gone + [a.dlq[0]])
  }

  function Book(history: seq<Entry>): Accounts {
    if history == [] then NOTHING else Post(Book(history[..|history| - 1]), history[|history| - 1])
  }

  lemma NewEventBalances(a: Accounts, x: Entry)
    requires a.Balanced() && (x.Coalesce? || x.Shed? || x.Admit? || x.Bury?)
    ensures Post(a, x).Balanced()
  {
  }

  lemma DeadLetterBalances(a: Accounts, x: Entry)
    requires a.Balanced() && (x.Displace? || x.Revive? || x.Exhaust?)
    ensures Post(a, x).Balanced()
  {
    if a.dlq != [] {
      assert a.dlq == [a.dlq[0]] + a.dlq[1..];
    }
  }

  lemma {:induction false} AccountsBalance(history: seq<Entry>)
    ensures Book(history).Balanced()
  {
    if history != [] {
      var before, last := Book(history[..|history| - 1]), history[|history| - 1];
      AccountsBalance(history[..|history| - 1]);
      if last.Displace? || last.Revive? || last.Exhaust? {
        DeadLetterBalances(before, last);
      } else {
        NewEventBalances(before, last);
      }
    }
  }

  // ---------------------------------------------------------------- hysteresis

  /** The high watermark was reached at some observation, and no later one was at the low watermark or
      below. */
  ghost predicate Risen(observed: seq<nat>, low: nat, high: nat) {
    exists i :: 0 <= i < |observed| && RisenAt(observed, i, low, high)
  }

  ghost predicate RisenAt(observed: seq<nat>, i: nat, low: nat, high: nat)
    requires i < |observed|
  {
    observed[i] >= high && forall j | i < j < |observed| :: observed[j] > low
  }

  lemma RisenNext(observed: seq<nat>, depth: nat, low: nat, high: nat)
    requires low < high
    ensures Risen(observed + [depth], low, high) == if Risen(observed, low, high) then depth > low else depth >= high
  {
    var more := observed + [depth];
    if Risen(observed, low, high) && depth > low {
      var i :| 0 <= i < |observed| && RisenAt(observed, i, low, high);
      assert RisenAt(more, i, low, high);
    }
    if depth >= high {
      assert RisenAt(more, |observed|, low, high);
    }
    if Risen(more, low, high) {
      var i :| 0 <= i < |more| && RisenAt(more, i, low, high);
      if i < |observed| {
        assert forall j | i < j < |observed| :: observed[j] == more[j];
        assert RisenAt(observed, i, low, high);
        assert more[|observed|] > low;
      }
    }
  }

  // ---------------------------------------------------------------- keys in flight

  ghost predicate NoneLow(events: seq<Event>) { forall i | 0 <= i < |events| :: !events[i].kind.Low() }

  datatype Outcome = Coalesced | WasShed | Admitted | DeadLettered

  /** Some event among `events` has the key `k`. */
  ghost predicate Carried(events: seq<Event>, k: Key) {
    exists i :: 0 <= i < |events| && HasKey(events[i], k)
  }

  predicate HasKey(e: Event, k: Key) { e.kind.Low() && Key(e.device, e.kind) == k }

  lemma CarriedFurther(events: seq<Event>, e: Event, k: Key)
    requires Carried(events, k) || HasKey(e, k)
    ensures Carried(events + [e], k)
  {
    if HasKey(e, k) {
      assert (events + [e])[|events|] == e;
    } else {
      var i :| 0 <= i < |events| && HasKey(events[i], k);
      assert (events + [e])[i] == events[i];
    }
  }

  lemma AllCarried(keys: set<Key>, events: seq<Event>, e: Event)
    requires forall k | k in keys :: Carried(events, k) || HasKey(e, k)
    ensures forall k | k in keys :: Carried(events + [e], k)
  {
    forall k | k in keys ensures Carried(events + [e], k) {
      CarriedFurther(events, e, k);
    }
  }

  class AdmissionState {
    const depth: nat
    const maxTracked: nat
    const dlqCapacity: nat
    const highWatermark: nat
    const lowWatermark: nat
    const tenantKnown: bool

    var channel: seq<Event>
    var closed: bool
    var coalescer: set<Key>
    var overloaded: bool
    var pending: nat
    var dlq: seq<Event>
    var metrics: Metrics
    /** The event the worker is busy with, and whether it is still counted as pending. */
    var hand: Option<Event>
    var owed: bool
    /** Everything the sink was given, what the worker has finished, and what became of the rest. */
    ghost var given: seq<Event>
    ghost var finished: seq<Event>
    ghost var history: seq<Entry>
    ghost var ledger: Accounts
    ghost var observed: seq<nat>

    constructor (queueDepth: nat, tenantKnown: bool)
      ensures Valid() && !closed && InFlight() == [] && dlq == [] && metrics == NO_METRICS
      ensures given == [] && finished == [] && history == []
      ensures depth == (if queueDepth == 0 then 1 else queueDepth) && this.tenantKnown == tenantKnown
      ensures maxTracked >= 256 && maxTracked >= depth && (maxTracked == 256 || maxTracked == depth)
      ensures dlqCapacity >= 256 && dlqCapacity >= 2 * depth && (dlqCapacity == 256 || dlqCapacity == 2 * depth)
      ensures highWatermark >= 1 && (highWatermark == 1 || 5 * highWatermark <= 4 * depth < 5 * highWatermark + 5)
      ensures 2 * lowWatermark <= highWatermark <= 2 * lowWatermark + 1
    {
      var d := if queueDepth > 1 then queueDepth else 1;
      depth, maxTracked := d, if d > 256 then d else 256;
      dlqCapacity := if 2 * d > 256 then 2 * d else 256;
      var high := if d * 4 / 5 > 1 then d * 4 / 5 else 1;
      highWatermark, lowWatermark := high, high / 2;
      this.tenantKnown := tenantKnown;
      channel, closed, coalescer, overloaded, pending := [], false, {}, false, 0;
      hand, owed, dlq, metrics := None, false, [], NO_METRICS;
      given, finished, history, ledger, observed := [], [], [], NOTHING, [];
    }

    function KeyOf(e: Event): Option<Key> {
      if tenantKnown && e.kind.Low() then Some(Key(e.device, e.kind)) else None
    }

    /** The events on their way through the worker. */
    function InFlight(): seq<Event>
      reads this
    {
      (if hand.Some? then [hand.value] else []) + channel
    }

    /** The limits; `pending` counts the events in the channel and the one just taken out of it. */
    ghost predicate Limited()
      reads this
    {
      && depth >= 1 && dlqCapacity >= 1 && lowWatermark < highWatermark
      && |channel| <= depth && |dlq| <= dlqCapacity && |coalescer| <= maxTracked
      && pending == |channel| + (if owed then 1 else 0) && (owed ==> hand.Some?)
      && NoneLow(dlq) && (!tenantKnown ==> coalescer == {})
      && (overloaded <==> Risen(observed, lowWatermark, highWatermark))
    }

    /** The ledger is about the sink: the counters are its counters; what was sent, in this order, is
        finished or on its way; its dead letters are those taken out to be redriven and those queued. */
    ghost predicate Kept(letters: seq<Event>)
      reads this
    {
      && ledger == Book(history)
      && ledger.metrics == metrics
      && ledger.sent == finished + InFlight()
      && ledger.dlq == letters + dlq
    }

    ghost predicate Sound(letters: seq<Event>)
      reads this
    {
      Limited() && Kept(letters)
    }

    /** A key is remembered only while an event with that key is on its way. */
    ghost predicate Represented()
      reads this
    {
      forall k | k in coalescer :: Carried(InFlight(), k)
    }

    ghost predicate Valid()
      reads this
    {
      Sound([]) && ledger.arrived == given && Represented()
    }

    /** The same while `e` is being admitted, whose key may be remembered already. */
    ghost predicate ValidBut(e: Event)
      reads this
    {
      && Sound([]) && ledger.arrived + [e] == given
      && forall k | k in coalescer :: Carried(InFlight(), k) || KeyOf(e) == Some(k)
    }

    ghost method Enter(x: Entry)
      requires ledger == Book(history)
      modifies this`ledger, this`history
      ensures ledger == Post(old(ledger), x) == Book(history) && history == old(history) + [x]
    {
      ledger, history := Post(ledger, x), history + [x];
      assert history[..|history| - 1] == old(history);
    }

    /** What may happen at any moment, lock or no lock: the worker receives an event, or stops. */
    method Environment(ghost letters: seq<Event>)
      requires Sound(letters)
      modifies this`channel, this`closed, this`hand, this`owed
      ensures Sound(letters) && InFlight() == old(InFlight())
      ensures |channel| <= old(|channel|) && (old(closed) ==> closed)
    {
      var stops, receives := *, *;
      if stops {
        closed := true;
      }
      if receives && hand.None? && channel != [] {
        hand, channel, owed := Some(channel[0]), channel[1..], true;
      }
    }

    method Release(e: Event)
      requires Limited()
      modifies this`coalescer
      ensures Limited() && coalescer == old(coalescer) - (if KeyOf(e).Some? then {KeyOf(e).value} else {})
    {
      var key := KeyOf(e);
      if key.Some? {
        SubsetSize(coalescer - {key.value}, coalescer);
        coalescer := coalescer - {key.value};
      }
    }

    /** The backlog controller: overloaded from reaching the high watermark until an observation at the
        low watermark or below. */
    method Observe()
      requires lowWatermark < highWatermark && (overloaded <==> Risen(observed, lowWatermark, highWatermark))
      modifies this`overloaded, this`observed
      ensures observed == old(observed) + [pending]
      ensures overloaded <==> Risen(observed, lowWatermark, highWatermark)
    {
      RisenNext(observed, pending, lowWatermark, highWatermark);
      if !overloaded && pending >= highWatermark {
        overloaded := true;
      } else if overloaded && pending <= lowWatermark {
        overloaded := false;
      }
      observed := observed + [pending];
    }

    /** The coalescer's `observe`; beyond its limit it forgets to remember. */
    method Remember(e: Event) returns (duplicate: bool)
      requires Limited() && Represented()
      modifies this`coalescer
      ensures duplicate <==> KeyOf(e).Some? && KeyOf(e).value in old(coalescer)
      ensures Limited() && (duplicate ==> coalescer == old(coalescer))
      ensures !duplicate ==> forall k | k in coalescer :: Carried(InFlight(), k) || KeyOf(e) == Some(k)
    {
      var key := KeyOf(e);
      duplicate := key.Some? && key.value in coalescer;
      if !duplicate && key.Some? && |coalescer| < maxTracked {
        coalescer := coalescer + {key.value};
      }
    }

    /** What putting an event into the dead-letter queue amounts to. */
    ghost function Burial(e: Event): seq<Entry>
      reads this
    {
      if |dlq| >= dlqCapacity then [Displace, Bury(e)] else [Bury(e)]
    }

    /** The entries an outcome makes. */
    ghost function Entries(e: Event, r: Outcome): seq<Entry>
      reads this
    {
      match r
      case Coalesced => [Coalesce(e)]
      case WasShed => [Shed(e)]
      case Admitted => [Admit(e)]
      case DeadLettered => Burial(e)
    }

    /** `admit`. An event is coalesced only when another one with its key is on its way; only
        low-priority events are shed, and only others are dead-lettered; with the channel open and room
        in it, only overload keeps an event out. */
    method Emit(e: Event) returns (r: Outcome)
      requires Valid()
      modifies this
      ensures Valid() && given == old(given) + [e] && finished == old(finished)
      ensures history == old(history + Entries(e, r))
      ensures r.Coalesced? <==> KeyOf(e).Some? && KeyOf(e).value in old(coalescer)
      ensures r.Coalesced? ==> Carried(InFlight(), KeyOf(e).value)
      ensures r.WasShed? || r.Coalesced? ==> e.kind == Keepalive || e.kind == Position
      ensures r.DeadLettered? ==> e.kind != Keepalive && e.kind != Position
      ensures !r.Coalesced? && overloaded && e.kind.Low() ==> r.WasShed?
      ensures !r.Coalesced? && !closed && old(|channel|) < depth && !(overloaded && e.kind.Low()) ==> r.Admitted?
      ensures old(closed) ==> !r.Admitted?
      ensures InFlight() == if r.Admitted? then old(InFlight()) + [e] else old(InFlight())
    {
      var duplicate := Remember(e);
      given := given + [e];
      if duplicate {
        CoalesceEvent(e);
        return Coalesced;
      }
      r := Forward(e);
    }

    /** Under overload low-priority events are shed before they are sent. */
    method Forward(e: Event) returns (r: Outcome)
      requires ValidBut(e)
      modifies this
      ensures Valid() && given == old(given) && finished == old(finished) && !r.Coalesced?
      ensures history == old(history + Entries(e, r))
      ensures r.WasShed? ==> e.kind.Low()
      ensures r.DeadLettered? ==> !e.kind.Low()
      ensures overloaded && e.kind.Low() ==> r.WasShed?
      ensures !closed && old(|channel|) < depth && !(overloaded && e.kind.Low()) ==> r.Admitted?
      ensures old(closed) ==> !r.Admitted?
      ensures InFlight() == if r.Admitted? then old(InFlight()) + [e] else old(InFlight())
    {
      Observe();
      if overloaded && e.kind.Low() {
        ShedEvent(e);
        return WasShed;
      }
      r := Send(e);
    }

    method CoalesceEvent(e: Event)
      requires Sound([])
      modifies this`metrics, this`ledger, this`history
      ensures Sound([]) && history == old(history) + [Coalesce(e)] && ledger.arrived == old(ledger.arrived) + [e]
    {
      metrics := metrics.(coalesced := metrics.coalesced + 1);
      Enter(Coalesce(e));
    }

    /** `shed_event`. */
    method ShedEvent(e: Event)
      requires ValidBut(e)
      modifies this`coalescer, this`metrics, this`ledger, this`history
      ensures Valid() && history == old(history) + [Shed(e)]
    {
      Release(e);
      metrics := metrics.(shed := metrics.shed + 1, dropped := metrics.dropped + 1);
      Enter(Shed(e));
    }

    /** The send, and what becomes of an event that finds no room. */
    method Send(e: Event) returns (r: Outcome)
      requires ValidBut(e)
      modifies this
      ensures Valid() && given == old(given) && finished == old(finished) && overloaded == old(overloaded)
      ensures !r.Coalesced? && history == old(history + Entries(e, r))
      ensures r.WasShed? ==> e.kind.Low()
      ensures r.DeadLettered? ==> !e.kind.Low()
      ensures !closed && old(|channel|) < depth ==> r.Admitted?
      ensures old(closed) ==> !r.Admitted?
      ensures InFlight() == if r.Admitted? then old(InFlight()) + [e] else old(InFlight())
    {
      Environment([]);
      if !closed && |channel| < depth {
        Deliver(e);
        return Admitted;
      }
      r := Reject(e);
    }

    /** The send found the channel full or closed. */
    method Reject(e: Event) returns (r: Outcome)
      requires ValidBut(e)
      modifies this`coalescer, this`dlq, this`metrics, this`ledger, this`history
      ensures Valid() && r == (if e.kind.Low() then WasShed else DeadLettered)
      ensures history == old(history + Entries(e, r))
    {
      Release(e);
      if e.kind.Low() {
        ShedEvent(e);
        return WasShed;
      }
      DeadLetter(e);
      r := DeadLettered;
    }

    /** A successful send. */
    method Deliver(e: Event)
      requires ValidBut(e) && |channel| < depth
      modifies this`channel, this`pending, this`metrics, this`ledger, this`history
      ensures Valid() && InFlight() == old(InFlight()) + [e] && history == old(history) + [Admit(e)]
    {
      AllCarried(coalescer, InFlight(), e);
      channel, pending := channel + [e], pending + 1;
      assert InFlight() == old(InFlight()) + [e];
      metrics := metrics.(admitted := metrics.admitted + 1);
      Enter(Admit(e));
    }

    /** `dlq_push`: a full queue loses its oldest entry. */
    method DeadLetter(e: Event)
      requires ValidBut(e) && !e.kind.Low()
      modifies this`dlq, this`metrics, this`ledger, this`history
      ensures Valid() && history == old(history + Burial(e))
      ensures dlq == (if old(|dlq|) >= dlqCapacity then old(dlq)[1..] else old(dlq)) + [e]
    {
      if |dlq| >= dlqCapacity {
        MakeWay();
      }
      metrics := metrics.(deadLettered := metrics.deadLettered + 1);
      dlq := dlq + [e];
      Enter(Bury(e));
    }

    method MakeWay()
      requires Sound([]) && dlq != []
      modifies this`dlq, this`metrics, this`ledger, this`history
      ensures Sound([]) && dlq == old(dlq)[1..] && ledger.arrived == old(ledger.arrived)
      ensures history == old(history) + [Displace]
    {
      dlq := dlq[1..];
      metrics := metrics.(dropped := metrics.dropped + 1);
      Enter(Displace);
    }

    /** How many dead letters a redrive takes: no more than a batch, than fit, or than there are. */
    function RedriveCount(): nat
      requires |channel| <= depth
      reads this
    {
      var batch := if REDRIVE_BATCH_SIZE <= depth then REDRIVE_BATCH_SIZE else depth;
      var room := depth - |channel|;
      var most := if batch <= room then batch else room;
      if closed then 0 else if most <= |dlq| then most else |dlq|
    }

    /** `redrive`. Only holders of the lock send, so while the channel is open every dead letter taken
        out gets through, in order: none is put back and none is given up. */
    method Redrive()
      requires Valid()
      modifies this
      ensures Valid() && coalescer == old(coalescer) && overloaded == old(overloaded)
      ensures given == old(given) && finished == old(finished)
      ensures dlq == old(dlq[RedriveCount()..])
      ensures old(closed) ==> dlq == old(dlq)
      ensures !old(closed) ==>
        var taken, room := |old(dlq)| - |dlq|, depth - old(|channel|);
        taken <= 64 && taken <= room && (dlq == [] || taken == 64 || taken == room)
      ensures !closed ==>
        && InFlight() == old(InFlight() + dlq[..RedriveCount()])
        && history == old(history) + seq(old(RedriveCount()), _ => Revive)
    {
      var n := RedriveCount();
      ghost var flying, past := InFlight(), history;
      var letters := dlq[..n];
      dlq := dlq[n..];
      for i := 0 to n
        invariant Sound(letters[i..]) && Represented() && ledger.arrived == given
        invariant coalescer == old(coalescer) && overloaded == old(overloaded)
        invariant given == old(given) && finished == old(finished) && dlq == old(dlq)[n..]
        invariant closed || |channel| + (n - i) <= depth
        invariant !closed ==> InFlight() == flying + letters[..i] && history == past + seq(i, _ => Revive)
      {
        ghost var was := history;
        RedriveOne(letters[i], letters[i..]);
        Extended(flying, letters, i);
        if !closed {
          assert was + [Revive] == past + seq(i + 1, _ => Revive);
        }
      }
    }

    /** One drained letter, the first of `letters`. */
    method RedriveOne(e: Event, ghost letters: seq<Event>)
      requires Sound(letters) && Represented() && letters != [] && letters[0] == e && !e.kind.Low()
      requires !closed ==> |channel| < depth
      modifies this
      ensures Sound(letters[1..]) && Represented() && ledger.arrived == old(ledger.arrived)
      ensures coalescer == old(coalescer) && overloaded == old(overloaded) && dlq == old(dlq)
      ensures given == old(given) && finished == old(finished)
      ensures |channel| <= old(|channel|) + 1 && (old(closed) ==> closed)
      ensures !closed ==> InFlight() == old(InFlight()) + [e] && history == old(history) + [Revive]
    {
      Environment(letters);
      if !closed && |channel| < depth {
        Resend(e, letters);
      } else {
        // The slot was free when the batch was cut to size and nobody else has sent since.
        assert closed;
        GiveUp(e, letters);
      }
    }

    method Resend(e: Event, ghost letters: seq<Event>)
      requires Sound(letters) && Represented() && letters != [] && letters[0] == e && |channel| < depth
      modifies this`channel, this`pending, this`metrics, this`ledger, this`history
      ensures Sound(letters[1..]) && Represented() && ledger.arrived == old(ledger.arrived)
      ensures InFlight() == old(InFlight()) + [e] && |channel| == old(|channel|) + 1
      ensures history == old(history) + [Revive]
    {
      AllCarried(coalescer, InFlight(), e);
      channel, pending := channel + [e], pending + 1;
      assert InFlight() == old(InFlight()) + [e];
      metrics := metrics.(admitted := metrics.admitted + 1, redriven := metrics.redriven + 1);
      Enter(Revive);
    }

    /** `drop_dead_letter_entry`. */
    method GiveUp(e: Event, ghost letters: seq<Event>)
      requires Sound(letters) && Represented() && letters != [] && letters[0] == e && !e.kind.Low()
      modifies this`coalescer, this`metrics, this`ledger, this`history
      ensures Sound(letters[1..]) && Represented() && ledger.arrived == old(ledger.arrived)
      ensures coalescer == old(coalescer) && history == old(history) + [Exhaust]
    {
      Release(e);
      metrics := metrics.(exhausted := metrics.exhausted + 1, dropped := metrics.dropped + 1);
      Enter(Exhaust);
    }

    /** The worker takes the received event off the pending count, then redrives. */
    method BeginWork()
      requires Valid() && hand.Some? && owed
      modifies this
      ensures Valid() && coalescer == old(coalescer) && given == old(given) && finished == old(finished)
    {
      pending, owed := pending - 1, false;
      Redrive();
    }

    /** The event is done: its key may be observed anew. */
    method FinishWork()
      requires Valid() && hand.Some? && !owed
      modifies this
      ensures Valid() && given == old(given) && finished == old(finished + [hand.value])
      ensures coalescer == old(coalescer - (if KeyOf(hand.value).Some? then {KeyOf(hand.value).value} else {}))
    {
      Land();
      Redrive();
    }

    method Land()
      requires Valid() && hand.Some? && !owed
      modifies this`coalescer, this`hand, this`finished
      ensures Valid() && finished == old(finished + [hand.value])
      ensures coalescer == old(coalescer - (if KeyOf(hand.value).Some? then {KeyOf(hand.value).value} else {}))
    {
      var e := hand.value;
      ghost var keys := coalescer;
      assert InFlight() == [e] + channel;
      Release(e);
      Landed(keys, coalescer, e, channel);
      assert finished + ([e] + channel) == finished + [e] + channel;
      hand, finished := None, finished + [e];
      assert InFlight() == channel;
    }
  }

  /** Conservation: at any moment between operations every event the sink was given is on its way,
      finished, queued as a dead letter or gone for a counted reason, each copy in one place only; what
      was admitted is finished in the order it was sent; and the counters add up. */
  lemma Conserved(sink: AdmissionState)
    requires sink.Valid()
    ensures
      var a, m := sink.ledger, sink.metrics;
      && multiset(sink.given)
         == multiset(sink.InFlight()) + multiset(sink.finished) + multiset(sink.dlq) + multiset(a.gone)
      && sink.finished <= a.sent && m.admitted == |sink.finished| + |sink.InFlight()|
      && |a.gone| == m.coalesced + m.dropped
      && |sink.given| == m.coalesced + m.shed + m.deadLettered + (m.admitted - m.redriven)
      && m.deadLettered == m.redriven + m.exhausted + a.displaced + |sink.dlq|
      && m.dropped == m.shed + a.displaced + m.exhausted
  {
    AccountsBalance(sink.history);
    assert sink.ledger.dlq == sink.dlq;
    assert |multiset(sink.given)| == |sink.given|;
    assert |multiset(sink.ledger.sent) + multiset(sink.ledger.gone) + multiset(sink.dlq)|
        == |sink.ledger.sent| + |sink.ledger.gone| + |sink.dlq|;
  }

  lemma Extended(flying: seq<Event>, letters: seq<Event>, i: nat)
    requires i < |letters|
    ensures flying + letters[..i] + [letters[i]] == flying + letters[..i + 1]
    ensures letters[i..][1..] == letters[i + 1..]
  {
  }

  /** A key other than that of the event that lands is carried by the rest. */
  lemma Landed(keys: set<Key>, left: set<Key>, e: Event, rest: seq<Event>)
    requires forall k | k in keys :: Carried([e] + rest, k)
    requires left <= keys && forall k | k in left :: !HasKey(e, k)
    ensures forall k | k in left :: Carried(rest, k)
  {
    forall k | k in left ensures Carried(rest, k) {
      var i :| 0 <= i < |[e] + rest| && HasKey(([e] + rest)[i], k);
      assert rest[i - 1] == ([e] + rest)[i];
    }
  }
}
