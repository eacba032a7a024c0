/** The discrete-event harness: devices, the platform and a faulty network around one timer wheel,
    over UDP, for every scenario that validates and every sequence of random draws. */
module SimHarness {
  import opened Wrappers
  import opened SimWire
  import opened SimClock
  import F = SimFault
  import D = SimDevice
  import P = SimPlatform

  datatype Event =
    | DeviceStart(index: nat)
    | DeviceKeepalive(index: nat)
    | Deliver(from: Endpoint, to: Endpoint, bytes: Bytes)
    | Step(step: nat)

  // ---------------------------------------------------------------- measures over the queue

  function IsDelivery(s: Scheduled<Event>): nat { if s.event.Deliver? then 1 else 0 }

  predicate Drives(e: Event, i: nat) { e == DeviceStart(i) || e == DeviceKeepalive(i) }

  function TimerOf(i: nat): Scheduled<Event> -> nat { (s: Scheduled<Event>) => if Drives(s.event, i) then 1 else 0 }

  function Pow(base: nat, exponent: nat): nat {
    if exponent == 0 then 1 else base * Pow(base, exponent - 1)
  }

  /** An event weighs more than all it can still cause: `base` to the time left. */
  function WeightOf(base: nat, duration: nat): Scheduled<Event> -> nat {
    (s: Scheduled<Event>) => if s.due <= duration then Pow(base, duration + 1 - s.due) else 0
  }

  lemma {:induction false} PowMonotone(base: nat, m: nat, n: nat)
    requires base >= 1 && m <= n
    ensures 1 <= Pow(base, m) <= Pow(base, n)
    decreases n
  {
    if m < n {
      PowMonotone(base, m, n - 1);
      Scaled(base, Pow(base, n - 1));
    } else if n > 0 {
      PowMonotone(base, n - 1, n - 1);
      Scaled(base, Pow(base, n - 1));
    }
  }

  lemma Scaled(base: nat, x: nat)
    requires base >= 1
    ensures base * x >= x
  {
    assert base * x == x + (base - 1) * x;
  }

  /** Entries due after `now` weigh at most `base` to the time left at `now`. */
  lemma {:induction false} LaterWeighsLess(added: seq<Scheduled<Event>>, now: nat, base: nat, duration: nat)
    requires now <= duration && base >= 1
    requires forall k | 0 <= k < |added| :: added[k].due > now
    ensures Total(added, WeightOf(base, duration)) <= |added| * Pow(base, duration - now)
  {
    if added != [] {
      var front, last := added[..|added| - 1], added[|added| - 1];
      LaterWeighsLess(front, now, base, duration);
      if last.due <= duration {
        PowMonotone(base, duration + 1 - last.due, duration - now);
      }
      assert |added| * Pow(base, duration - now) == |front| * Pow(base, duration - now) + Pow(base, duration - now);
    }
  }

  // ---------------------------------------------------------------- devices in flight

  predicate Edge(from: Endpoint, to: Endpoint, n: nat) {
    || (from.Device? && to.Platform? && from.index < n)
    || (from.Platform? && to.Device? && to.index < n)
  }

  /** What may be travelling, given the devices' states and how often each was accepted: a device
      that has not registered has sent nothing but REGISTER and can be answered 2xx only after an
      accepted REGISTER of its own. */
  predicate Truthful(from: Endpoint, to: Endpoint, msg: SipMessage, who: seq<D.Identity>, states: seq<D.State>,
                     accepted: seq<nat>)
    requires |who| == |states| == |accepted| && Edge(from, to, |states|)
  {
    if from.Device?
    then msg.Request? ==>
           && (msg.verb == Register ==> msg.user == who[from.index].User())
           && (msg.verb != Register ==> states[from.index].registered)
    else (msg.Request? ==> states[to.index].registered)
         && (msg.Response? && 200 <= msg.code < 300 ==> accepted[to.index] >= 1)
  }

  /** When each device starts, and whether the network is faultless. */
  datatype Plan = Plan(starts: seq<nat>, calm: bool)

  /** No earlier than `ms` after `start`, as far as time goes. */
  function Floor(start: nat, ms: nat): nat { if start + ms <= MAX_TIME then start + ms else MAX_TIME }

  function Arrival(now: nat): nat
    requires now <= MAX_TIME
  {
    SaturatingAdd(now, F.BASE_LATENCY_MS)
  }

  lemma FloorAdds(start: nat, ms: nat, now: nat)
    requires Floor(start, ms) <= now <= MAX_TIME
    ensures Arrival(now) >= Floor(start, ms + F.BASE_LATENCY_MS)
  {
  }

  /** How long after the start of its device a message can be delivered at the earliest: the handshake
      takes a REGISTER, its challenge, an authorized REGISTER and its acceptance, each a latency later.
      Without faults devices send nothing but REGISTER and MESSAGE and the platform answers nothing but
      challenges and successes. */
  predicate Punctual(due: nat, from: Endpoint, to: Endpoint, msg: SipMessage, plan: Plan)
    requires Edge(from, to, |plan.starts|)
  {
    if from.Device? then msg.Request? ==>
      && due >= Floor(plan.starts[from.index], if msg.verb == Register && !msg.authorized then 5 else 15)
      && (plan.calm ==> msg.verb == Register || msg.verb == Message)
    else msg.Response? ==>
      && (msg.code == 401 ==> due >= Floor(plan.starts[to.index], 10))
      && (200 <= msg.code < 300 ==> due >= Floor(plan.starts[to.index], 20))
      && (plan.calm ==> msg.code == 401 || 200 <= msg.code < 300)
  }

  predicate Fits(e: Event, due: nat, who: seq<D.Identity>, states: seq<D.State>, accepted: seq<nat>, plan: Plan)
    requires |who| == |states| == |accepted| == |plan.starts|
  {
    match e
    case DeviceStart(i) => i < |states| && states[i] == D.State(false, false) && due >= plan.starts[i]
    case DeviceKeepalive(i) => i < |states| && due >= plan.starts[i]
    case Step(_) => true
    case Deliver(from, to, bytes) =>
      && Edge(from, to, |states|) && (plan.calm ==> bytes.Encoded?)
      && (bytes.Encoded? ==>
            Truthful(from, to, bytes.message, who, states, accepted) && Punctual(due, from, to, bytes.message, plan))
  }

  /** Nobody is registered before a handshake can be over. */
  predicate Seasoned(states: seq<D.State>, plan: Plan, now: nat)
    requires |states| == |plan.starts|
  {
    forall i | 0 <= i < |states| :: states[i].registered ==> now >= Floor(plan.starts[i], 20)
  }

  function CountRegistered(states: seq<D.State>): nat {
    if states == [] then 0
    else CountRegistered(states[..|states| - 1]) + (if states[|states| - 1].registered then 1 else 0)
  }

  /** How many of the first `n` devices are registered and can be addressed. */
  function Reachable(who: seq<D.Identity>, states: seq<D.State>, n: nat): nat
    requires n <= |who| == |states|
  {
    if n == 0 then 0
    else Reachable(who, states, n - 1) + if states[n - 1].registered && who[n - 1].encodable then 1 else 0
  }

  function Sum(ns: seq<nat>): nat {
    if ns == [] then 0 else Sum(ns[..|ns| - 1]) + ns[|ns| - 1]
  }

  lemma {:induction false} CountUpdate(states: seq<D.State>, i: nat, s: D.State)
    requires i < |states|
    ensures CountRegistered(states[i := s]) + (if states[i].registered then 1 else 0)
         == CountRegistered(states) + (if s.registered then 1 else 0)
  {
    if i < |states| - 1 {
      CountUpdate(states[..|states| - 1], i, s);
      assert states[i := s][..|states| - 1] == states[..|states| - 1][i := s];
    } else {
      assert states[i := s][..|states| - 1] == states[..|states| - 1];
    }
  }

  lemma {:induction false} SumUpdate(ns: seq<nat>, i: nat, n: nat)
    requires i < |ns|
    ensures Sum(ns[i := n]) + ns[i] == Sum(ns) + n
  {
    if i < |ns| - 1 {
      SumUpdate(ns[..|ns| - 1], i, n);
      assert ns[i := n][..|ns| - 1] == ns[..|ns| - 1][i := n];
    } else {
      assert ns[i := n][..|ns| - 1] == ns[..|ns| - 1];
    }
  }

  lemma {:induction false} AllIdle(states: seq<D.State>)
    requires forall i | 0 <= i < |states| :: !states[i].registered
    ensures CountRegistered(states) == 0
  {
    if states != [] {
      AllIdle(states[..|states| - 1]);
    }
  }

  lemma {:induction false} AllZero(ns: seq<nat>)
    requires forall i | 0 <= i < |ns| :: ns[i] == 0
    ensures Sum(ns) == 0
  {
    if ns != [] {
      AllZero(ns[..|ns| - 1]);
    }
  }

  /** Every registered device was accepted, so there are at most as many as acceptances. */
  lemma {:induction false} RegisteredWereAccepted(states: seq<D.State>, accepted: seq<nat>)
    requires |states| == |accepted|
    requires forall i | 0 <= i < |states| :: states[i].registered ==> accepted[i] >= 1
    ensures CountRegistered(states) <= Sum(accepted)
  {
    if states != [] {
      RegisteredWereAccepted(states[..|states| - 1], accepted[..|states| - 1]);
    }
  }

  /** A device that keeps its registration, and stays unstarted while its start is queued, falsifies
      nothing in flight. */
  lemma FitsAfterStep(e: Event, due: nat, who: seq<D.Identity>, states: seq<D.State>, accepted: seq<nat>, plan: Plan,
                      i: nat, s: D.State)
    requires |who| == |states| == |accepted| == |plan.starts| && i < |states|
    requires Fits(e, due, who, states, accepted, plan)
    requires states[i].registered ==> s.registered
    requires e == DeviceStart(i) ==> s == D.State(false, false)
    ensures Fits(e, due, who, states[i := s], accepted, plan)
  {
  }

  lemma FitsAfterAccept(e: Event, due: nat, who: seq<D.Identity>, states: seq<D.State>, accepted: seq<nat>, plan: Plan,
                        i: nat)
    requires |who| == |states| == |accepted| == |plan.starts| && i < |states|
    requires Fits(e, due, who, states, accepted, plan)
    ensures Fits(e, due, who, states, accepted[i := accepted[i] + 1], plan)
  {
  }

  lemma {:induction false} NoTimer(queue: seq<Scheduled<Event>>, i: nat, k: nat)
    requires Total(queue, TimerOf(i)) == 0 && k < |queue|
    ensures !Drives(queue[k].event, i)
  {
    if k < |queue| - 1 {
      NoTimer(queue[..|queue| - 1], i, k);
    }
  }

  /** The report's counters against the devices and the platform: registered devices are exactly
      those counted, acceptances are exactly those counted, and whoever is registered was accepted
      and is known to the platform. */
  predicate Ledger(
    who: seq<D.Identity>, states: seq<D.State>, accepted: seq<nat>, known: map<string, bool>,
    devicesRegistered: nat, registrationsAccepted: nat)
  {
    && |states| == |accepted| == |who|
    && CountRegistered(states) == devicesRegistered
    && Sum(accepted) == registrationsAccepted
    && (forall i | 0 <= i < |states| :: D.Sane(states[i]) && (states[i].registered ==> accepted[i] >= 1))
    && (forall i | 0 <= i < |states| :: accepted[i] >= 1 && who[i].encodable ==> who[i].id in known)
  }

  lemma LedgerAfterStep(
    who: seq<D.Identity>, states: seq<D.State>, accepted: seq<nat>, known: map<string, bool>, n: nat, m: nat, i: nat,
    s: D.State)
    requires Ledger(who, states, accepted, known, n, m) && i < |states|
    requires D.Sane(s) && (states[i].registered ==> s.registered) && (s.registered ==> accepted[i] >= 1)
    ensures
      var more := if !states[i].registered && s.registered then 1 else 0;
      Ledger(who, states[i := s], accepted, known, n + more, m)
  {
    CountUpdate(states, i, s);
  }

  lemma LedgerAfterAccept(
    who: seq<D.Identity>, states: seq<D.State>, accepted: seq<nat>, known: map<string, bool>, n: nat, m: nat, i: nat)
    requires Ledger(who, states, accepted, known, n, m) && i < |states|
    ensures Ledger(who, states, accepted[i := accepted[i] + 1],
                   if who[i].User().Some? then known[who[i].User().value := true] else known, n, m + 1)
  {
    SumUpdate(accepted, i, accepted[i] + 1);
  }

  predicate AllRegisteredAccepted(states: seq<D.State>, accepted: seq<nat>)
    requires |states| == |accepted|
  {
    forall i | 0 <= i < |states| :: states[i].registered ==> accepted[i] >= 1
  }

  predicate KeepsRegistered(before: seq<D.State>, after: seq<D.State>) {
    |before| == |after| && forall i | 0 <= i < |before| :: before[i].registered ==> after[i].registered
  }

  /** What a device is told must be true of it, and told no sooner than it can be. */
  predicate Deserved(input: D.Input, s: D.State, acceptedTimes: nat, start: nat, calm: bool, now: nat) {
    && (s.registered ==> now >= Floor(start, 20))
    && match input
       case Start => s == D.State(false, false) && now >= start
       case KeepaliveTick => now >= start
       case Inbound(Request(_, _, _, _)) => s.registered
       case Inbound(Response(code, _)) =>
         && (200 <= code < 300 ==> acceptedTimes >= 1 && now >= Floor(start, 20))
         && (code == 401 ==> now >= Floor(start, 10))
         && (calm ==> code == 401 || 200 <= code < 300)
  }

  predicate AllFit(queue: seq<Scheduled<Event>>, who: seq<D.Identity>, states: seq<D.State>, accepted: seq<nat>,
                   plan: Plan)
    requires |who| == |states| == |accepted| == |plan.starts|
  {
    forall k | 0 <= k < |queue| :: Fits(queue[k].event, queue[k].due, who, states, accepted, plan)
  }

  /** A message that may be sent now. */
  predicate Apt(from: Endpoint, to: Endpoint, msg: SipMessage, who: seq<D.Identity>, states: seq<D.State>,
                accepted: seq<nat>, plan: Plan, now: nat)
    requires |who| == |states| == |accepted| == |plan.starts| && Edge(from, to, |states|) && now <= MAX_TIME
  {
    Truthful(from, to, msg, who, states, accepted) && Punctual(Arrival(now), from, to, msg, plan)
  }

  predicate AllApt(from: Endpoint, to: Endpoint, messages: seq<SipMessage>, who: seq<D.Identity>,
                   states: seq<D.State>, accepted: seq<nat>, plan: Plan, now: nat)
    requires |who| == |states| == |accepted| == |plan.starts| && Edge(from, to, |states|) && now <= MAX_TIME
  {
    forall k | 0 <= k < |messages| :: Apt(from, to, messages[k], who, states, accepted, plan, now)
  }

  /** What the harness needs of a device's reaction. */
  predicate GoodStep(
    queue: seq<Scheduled<Event>>, who: seq<D.Identity>, states: seq<D.State>, accepted: seq<nat>, plan: Plan, now: nat,
    i: nat, r: D.Reaction)
    requires |who| == |states| == |accepted| == |plan.starts| && i < |states| && now <= MAX_TIME
  {
    && D.Sane(r.state)
    && (states[i].registered ==> r.state.registered)
    && (r.state.registered ==> (states[i].registered || accepted[i] >= 1) && now >= Floor(plan.starts[i], 20))
    && AllFit(queue, who, states[i := r.state], accepted, plan)
    && |r.messages| <= 2 && |r.events| <= 1
    && AllApt(Device(i), Platform, r.messages, who, states[i := r.state], accepted, plan, now)
    && (r.events == [D.Registered] <==> !states[i].registered && r.state.registered)
  }

  lemma StepKeepsTruth(
    queue: seq<Scheduled<Event>>, who: seq<D.Identity>, states: seq<D.State>, accepted: seq<nat>, plan: Plan, now: nat,
    i: nat, input: D.Input)
    requires |who| == |states| == |accepted| == |plan.starts| && i < |states| && now <= MAX_TIME
    requires AllFit(queue, who, states, accepted, plan)
    requires D.Sane(states[i]) && Deserved(input, states[i], accepted[i], plan.starts[i], plan.calm, now)
    requires !input.Inbound? ==> forall k | 0 <= k < |queue| :: queue[k].event != DeviceStart(i)
    ensures GoodStep(queue, who, states, accepted, plan, now, i, D.React(who[i], states[i], input))
  {
    var r := D.React(who[i], states[i], input);
    D.RegistrationIsEarned(who[i], states[i], input);
    forall k | 0 <= k < |queue| ensures Fits(queue[k].event, queue[k].due, who, states[i := r.state], accepted, plan) {
      FitsAfterStep(queue[k].event, queue[k].due, who, states, accepted, plan, i, r.state);
    }
  }

  /** What the harness needs of the platform's answer to a message of device `i`. */
  predicate GoodAnswer(
    queue: seq<Scheduled<Event>>, who: seq<D.Identity>, states: seq<D.State>, accepted: seq<nat>, plan: Plan, now: nat,
    i: nat, a: P.Answer)
    requires |who| == |states| == |accepted| == |plan.starts| && i < |states| && now <= MAX_TIME
  {
    var accepted' := if a.events == [P.RegisterAccepted] then accepted[i := accepted[i] + 1] else accepted;
    && |a.messages| <= 1 && |a.events| <= 1
    && AllFit(queue, who, states, accepted', plan)
    && AllApt(Platform, Device(i), a.messages, who, states, accepted', plan, now)
  }

  lemma AnswerKeepsTruth(
    queue: seq<Scheduled<Event>>, who: seq<D.Identity>, states: seq<D.State>, accepted: seq<nat>, plan: Plan, now: nat,
    i: nat, msg: SipMessage, sipError: Option<nat>)
    requires |who| == |states| == |accepted| == |plan.starts| && i < |states| && now <= MAX_TIME
    requires AllFit(queue, who, states, accepted, plan)
    requires AllRegisteredAccepted(states, accepted)
    requires Truthful(Device(i), Platform, msg, who, states, accepted) && Punctual(now, Device(i), Platform, msg, plan)
    requires (sipError.Some? ==> 300 <= sipError.value <= 699) && (plan.calm ==> sipError.None?)
    ensures GoodAnswer(queue, who, states, accepted, plan, now, i, P.Reply(msg, sipError))
    ensures P.Reply(msg, sipError).events == [P.RegisterAccepted] ==> msg.Request? && msg.user == who[i].User()
  {
    P.SuccessHasACause(msg, sipError);
    forall k | 0 <= k < |queue|
      ensures Fits(queue[k].event, queue[k].due, who, states, accepted[i := accepted[i] + 1], plan)
    {
      FitsAfterAccept(queue[k].event, queue[k].due, who, states, accepted, plan, i);
    }
  }

  /** `q'` is `q` with at most `n` entries added, all due later than `now` (unless time has run out). */
  predicate Grown(q: seq<Scheduled<Event>>, q': seq<Scheduled<Event>>, now: nat, n: nat) {
    && |q| <= |q'| <= |q| + n
    && q'[..|q|] == q
    && forall k | |q| <= k < |q'| :: now < MAX_TIME ==> q'[k].due > now
  }

  lemma GrownTwice(q: seq<Scheduled<Event>>, q1: seq<Scheduled<Event>>, q2: seq<Scheduled<Event>>, now: nat, m: nat,
                   n: nat)
    requires Grown(q, q1, now, m) && Grown(q1, q2, now, n)
    ensures Grown(q, q2, now, m + n)
  {
    assert q2[..|q|] == q2[..|q1|][..|q|];
    forall k | |q| <= k < |q1| ensures q2[k] == q1[k] {
      assert q2[k] == q2[..|q1|][k];
    }
  }

  /** Processing an event that causes fewer than `base` events, all later, lowers the total weight. */
  lemma WeightDrops(
    q: seq<Scheduled<Event>>, at: nat, popped: seq<Scheduled<Event>>, after: seq<Scheduled<Event>>, base: nat,
    duration: nat)
    requires base >= 1 && Remove(q, at, popped) && q[at].due <= duration < MAX_TIME
    requires Grown(popped, after, q[at].due, base - 1)
    ensures Total(after, WeightOf(base, duration)) < Total(q, WeightOf(base, duration))
  {
    var now, w := q[at].due, WeightOf(base, duration);
    var added := after[|popped|..];
    TotalRemove(q, at, popped, w);
    assert after == popped + added;
    TotalConcat(popped, added, w);
    LaterWeighsLess(added, now, base, duration);
    var unit := Pow(base, duration - now);
    PowMonotone(base, 0, duration - now);
    assert w(q[at]) == base * unit;
    FewerUnits(|added|, base, unit);
  }

  lemma FewerUnits(n: nat, base: nat, unit: nat)
    requires n < base && unit >= 1
    ensures n * unit < base * unit
  {
    assert base * unit == n * unit + (base - n) * unit;
    Scaled(base - n, unit);
  }

  lemma AllFitRemove(q: seq<Scheduled<Event>>, at: nat, rest: seq<Scheduled<Event>>, who: seq<D.Identity>,
                     states: seq<D.State>, accepted: seq<nat>, plan: Plan)
    requires |who| == |states| == |accepted| == |plan.starts| && Remove(q, at, rest)
    requires AllFit(q, who, states, accepted, plan)
    ensures AllFit(rest, who, states, accepted, plan)
  {
    forall k | 0 <= k < |rest| ensures Fits(rest[k].event, rest[k].due, who, states, accepted, plan) {
      assert rest[k] == q[if k < at then k else k + 1];
    }
  }

  /** Only deliveries were added. */
  predicate Posted(q: seq<Scheduled<Event>>, q': seq<Scheduled<Event>>, now: nat, n: nat) {
    Grown(q, q', now, n) && forall k | |q| <= k < |q'| :: q'[k].event.Deliver?
  }

  lemma PostedTwice(q: seq<Scheduled<Event>>, q1: seq<Scheduled<Event>>, q2: seq<Scheduled<Event>>, now: nat, m: nat,
                    n: nat)
    requires Posted(q, q1, now, m) && Posted(q1, q2, now, n)
    ensures Posted(q, q2, now, m + n)
  {
    GrownTwice(q, q1, q2, now, m, n);
    forall k | |q| <= k < |q2| ensures q2[k].event.Deliver? {
      assert k < |q1| ==> q2[..|q1|][k] == q1[k];
    }
  }

  lemma {:induction false} DeliveriesOnly(added: seq<Scheduled<Event>>, i: nat)
    requires forall k | 0 <= k < |added| :: added[k].event.Deliver?
    ensures Total(added, IsDelivery) == |added| && Total(added, TimerOf(i)) == 0
  {
    if added != [] {
      DeliveriesOnly(added[..|added| - 1], i);
    }
  }

  lemma PostedTotals(q: seq<Scheduled<Event>>, q': seq<Scheduled<Event>>, now: nat, n: nat, i: nat)
    requires Posted(q, q', now, n)
    ensures Total(q', IsDelivery) == Total(q, IsDelivery) + |q'| - |q|
    ensures Total(q', TimerOf(i)) == Total(q, TimerOf(i))
  {
    var added := q'[|q|..];
    assert q' == q + added;
    TotalConcat(q, added, IsDelivery);
    TotalConcat(q, added, TimerOf(i));
    DeliveriesOnly(added, i);
  }

  lemma TimersFollow(q: seq<Scheduled<Event>>, q': seq<Scheduled<Event>>, now: nat, n: nat, devices: nat)
    requires Posted(q, q', now, n)
    ensures forall i | 0 <= i < devices :: Total(q', TimerOf(i)) == Total(q, TimerOf(i))
  {
    forall i | 0 <= i < devices ensures Total(q', TimerOf(i)) == Total(q, TimerOf(i)) {
      PostedTotals(q, q', now, n, i);
    }
  }

  /** A timer or scripted step joins the queue. */
  lemma TimerAppended(q: seq<Scheduled<Event>>, q': seq<Scheduled<Event>>, devices: nat)
    requires |q'| == |q| + 1 && q'[..|q|] == q && !q'[|q|].event.Deliver?
    ensures Total(q', IsDelivery) == Total(q, IsDelivery)
    ensures forall i | 0 <= i < devices ::
      Total(q', TimerOf(i)) == Total(q, TimerOf(i)) + (if Drives(q'[|q|].event, i) then 1 else 0)
  {
    assert q' == q + [q'[|q|]];
    TotalAppend(q, q'[|q|], IsDelivery);
    forall i | 0 <= i < devices
      ensures Total(q', TimerOf(i)) == Total(q, TimerOf(i)) + (if Drives(q'[|q|].event, i) then 1 else 0)
    {
      TotalAppend(q, q'[|q|], TimerOf(i));
    }
  }

  lemma NoStartQueued(q: seq<Scheduled<Event>>, i: nat)
    requires Total(q, TimerOf(i)) == 0
    ensures forall k | 0 <= k < |q| :: q[k].event != DeviceStart(i)
  {
    forall k | 0 <= k < |q| ensures q[k].event != DeviceStart(i) {
      NoTimer(q, i, k);
    }
  }

  /** After a timer fired and its device stepped, queueing the next keepalive restores one timer each. */
  lemma Rescheduled(
    q: seq<Scheduled<Event>>, q1: seq<Scheduled<Event>>, q2: seq<Scheduled<Event>>, now: nat, devices: nat, index: nat)
    requires Posted(q, q1, now, 4)
    requires |q2| == |q1| + 1 && q2[..|q1|] == q1 && q2[|q1|].event == DeviceKeepalive(index)
    requires now < MAX_TIME ==> q2[|q1|].due > now
    requires forall i | 0 <= i < devices :: Total(q, TimerOf(i)) == if i == index then 0 else 1
    ensures Grown(q, q2, now, 5)
    ensures Total(q2, IsDelivery) == Total(q1, IsDelivery)
    ensures forall i | 0 <= i < devices :: Total(q2, TimerOf(i)) == 1
  {
    GrownTwice(q, q1, q2, now, 4, 1);
    TimersFollow(q, q1, now, 4, devices);
    TimerAppended(q1, q2, devices);
  }

  /** What the fault engine lets through of a message that may be sent. */
  lemma DeliveriesFit(from: Endpoint, to: Endpoint, msg: SipMessage, deliveries: seq<F.Delivery>,
                      who: seq<D.Identity>, states: seq<D.State>, accepted: seq<nat>, plan: Plan, now: nat)
    requires |who| == |states| == |accepted| == |plan.starts| && Edge(from, to, |states|) && now <= MAX_TIME
    requires Apt(from, to, msg, who, states, accepted, plan, now)
    requires forall k | 0 <= k < |deliveries| ::
               deliveries[k].bytes == Encoded(msg) || deliveries[k].bytes == Corrupted
    requires plan.calm ==> deliveries == [F.Delivery(0, Encoded(msg))]
    ensures forall k | 0 <= k < |deliveries| ::
              Fits(Deliver(from, to, deliveries[k].bytes), Arrival(now), who, states, accepted, plan)
  {
  }

  /** The frame at `k` arrives a latency after `now`. */
  predicate FrameAt(q: seq<Scheduled<Event>>, k: nat, from: Endpoint, to: Endpoint, msg: SipMessage, now: nat)
    requires now <= MAX_TIME
  {
    k < |q| && q[k].event == Deliver(from, to, Encoded(msg)) && q[k].due == Arrival(now)
  }

  /** The first of `messages` is on its way. */
  predicate FirstSent(q: seq<Scheduled<Event>>, q': seq<Scheduled<Event>>, from: Endpoint, to: Endpoint,
                      messages: seq<SipMessage>, now: nat)
    requires now <= MAX_TIME
  {
    |messages| > 0 ==> FrameAt(q', |q|, from, to, messages[0], now)
  }

  lemma FirstStays(q: seq<Scheduled<Event>>, q1: seq<Scheduled<Event>>, q2: seq<Scheduled<Event>>, from: Endpoint,
                   to: Endpoint, messages: seq<SipMessage>, now: nat)
    requires now <= MAX_TIME && FirstSent(q, q1, from, to, messages, now)
    requires |q1| <= |q2| && q2[..|q1|] == q1
    ensures FirstSent(q, q2, from, to, messages, now)
  {
    assert |q| < |q1| ==> q2[|q|] == q2[..|q1|][|q|];
  }

  function StaggerOffset(scenario: Scenario, offsets: nat -> nat, index: nat): (r: nat)
    ensures r <= scenario.staggerMs
  {
    if scenario.staggerMs == 0 then 0 else offsets(index) % scenario.staggerMs
  }

  /** Device `i` has taken `input` and nobody else has changed; without faults its first message is on its
      way. */
  predicate Stepped(q: seq<Scheduled<Event>>, q': seq<Scheduled<Event>>, who: seq<D.Identity>, states: seq<D.State>,
                    states': seq<D.State>, calm: bool, now: nat, i: nat, input: D.Input)
    requires |who| == |states| && now <= MAX_TIME && i < |states|
  {
    var r := D.React(who[i], states[i], input);
    states' == states[i := r.state] && (calm ==> FirstSent(q, q', Device(i), Platform, r.messages, now))
  }

  lemma SteppedStays(q: seq<Scheduled<Event>>, q1: seq<Scheduled<Event>>, q2: seq<Scheduled<Event>>,
                     who: seq<D.Identity>, states: seq<D.State>, states': seq<D.State>, calm: bool, now: nat, i: nat,
                     input: D.Input)
    requires |who| == |states| && now <= MAX_TIME && i < |states|
    requires Stepped(q, q1, who, states, states', calm, now, i, input) && |q1| <= |q2| && q2[..|q1|] == q1
    ensures Stepped(q, q2, who, states, states', calm, now, i, input)
  {
    if calm {
      FirstStays(q, q1, q2, Device(i), Platform, D.React(who[i], states[i], input).messages, now);
    }
  }

  /** What an event does to the devices, and what it sends first if there are no faults. */
  predicate Effect(e: Event, now: nat, who: seq<D.Identity>, calm: bool, q: seq<Scheduled<Event>>,
                   q': seq<Scheduled<Event>>, states: seq<D.State>, states': seq<D.State>)
    requires |who| == |states| && now <= MAX_TIME
  {
    match e
    case DeviceStart(i) => i < |states| && Stepped(q, q', who, states, states', calm, now, i, D.Start)
    case DeviceKeepalive(i) => i < |states| && Stepped(q, q', who, states, states', calm, now, i, D.KeepaliveTick)
    case Step(_) => states' == states
    case Deliver(from, to, bytes) =>
      if bytes.Corrupted? then states' == states
      else if to.Platform?
      then states' == states
           && (calm ==> FirstSent(q, q', Platform, from, P.Reply(bytes.message, None).messages, now))
      else to.index < |states| && Stepped(q, q', who, states, states', calm, now, to.index, D.Inbound(bytes.message))
  }

  // ---------------------------------------------------------------- the handshake

  /** Two round trips register a device, whatever state it starts from and whoever it is. */
  lemma TwoRoundTripsRegister(who: D.Identity, s: D.State)
    ensures
      var r1 := D.React(who, s, D.Start);
      && |r1.messages| == 1 && !r1.state.registered
      && var a1 := P.Reply(r1.messages[0], None);
         && |a1.messages| == 1
         && var r2 := D.React(who, r1.state, D.Inbound(a1.messages[0]));
            && |r2.messages| == 1 && !r2.state.registered
            && var a2 := P.Reply(r2.messages[0], None);
               && |a2.messages| == 1 && a2.events == [P.RegisterAccepted]
               && var r3 := D.React(who, r2.state, D.Inbound(a2.messages[0]));
                  r3.state.registered && r3.events == [D.Registered] && r3.messages == []
  {
  }

  /** Four messages, a latency each. */
  const HANDSHAKE_MS: nat := 4 * F.BASE_LATENCY_MS

  /** The next event of the handshake of device `i`, which began at `start`. */
  predicate Herald(s: Scheduled<Event>, who: D.Identity, i: nat, start: nat) {
    match s.event
    case DeviceStart(j) => j == i && s.due == start
    case Deliver(from, to, Encoded(msg)) =>
      || (from == Device(i) && to == Platform && msg == who.RegisterRequest(false) && s.due == start + 5)
      || (from == Platform && to == Device(i) && msg == Response(401, true) && s.due == start + 10)
      || (from == Device(i) && to == Platform && msg == who.RegisterRequest(true) && s.due == start + 15)
      || (from == Platform && to == Device(i) && msg == Response(200, false) && s.due == start + 20)
    case _ => false
  }

  predicate HeraldFor(s: Scheduled<Event>, who: D.Identity, i: nat, start: nat, state: D.State) {
    Herald(s, who, i, start) && (s.event.DeviceStart? || state.registering)
  }

  /** Device `i` is registered or the next event of its handshake is queued. */
  predicate Coming(q: seq<Scheduled<Event>>, who: D.Identity, i: nat, start: nat, state: D.State) {
    state.registered || exists k :: 0 <= k < |q| && HeraldFor(q[k], who, i, start, state)
  }

  /** The same for all devices whose handshake fits into the run, if there are no faults. */
  predicate AllComing(q: seq<Scheduled<Event>>, who: seq<D.Identity>, states: seq<D.State>, plan: Plan, duration: nat)
    requires |who| == |states| == |plan.starts|
  {
    plan.calm ==> forall i | 0 <= i < |who| && plan.starts[i] + HANDSHAKE_MS <= duration ::
      Coming(q, who[i], i, plan.starts[i], states[i])
  }

  /** A device that is registering goes on doing so until it is registered. */
  lemma RegisteringLasts(who: D.Identity, s: D.State, input: D.Input)
    requires s.registering
    requires input.Inbound? && input.message.Response? ==>
      input.message.code == 401 || 200 <= input.message.code < 300
    ensures
      var s' := D.React(who, s, input).state;
      s'.registered || s'.registering
  {
  }

  /** An event that is not the herald leaves it in place. */
  lemma HeraldStays(e: Event, now: nat, q: seq<Scheduled<Event>>, q': seq<Scheduled<Event>>, who: seq<D.Identity>,
                    states: seq<D.State>, states': seq<D.State>, accepted: seq<nat>, plan: Plan, i: nat, k: nat)
    requires |who| == |states| == |accepted| == |plan.starts| && i < |who| && now <= MAX_TIME && plan.calm
    requires Fits(e, now, who, states, accepted, plan) && Effect(e, now, who, true, q, q', states, states')
    requires |q| <= |q'| && q'[..|q|] == q && k < |q| && HeraldFor(q[k], who[i], i, plan.starts[i], states[i])
    ensures Coming(q', who[i], i, plan.starts[i], states'[i])
  {
    assert q'[k] == q'[..|q|][k] == q[k];
    if states[i].registering && states' != states {
      var input := if e.DeviceStart? then D.Start
                   else if e.DeviceKeepalive? then D.KeepaliveTick else D.Inbound(e.bytes.message);
      RegisteringLasts(who[i], states[i], input);
    }
  }

  /** The herald itself is followed by the next one, and the last one by the registration. */
  lemma HeraldSteps(e: Event, now: nat, q: seq<Scheduled<Event>>, q': seq<Scheduled<Event>>, who: seq<D.Identity>,
                    states: seq<D.State>, states': seq<D.State>, plan: Plan, i: nat)
    requires |who| == |states| == |plan.starts| && i < |who| && plan.starts[i] + HANDSHAKE_MS <= MAX_TIME
    requires now <= MAX_TIME && HeraldFor(Scheduled(now, 0, e), who[i], i, plan.starts[i], states[i])
    requires Effect(e, now, who, true, q, q', states, states') && |states'| == |states|
    ensures Coming(q', who[i], i, plan.starts[i], states'[i])
  {
    if !states'[i].registered {
      assert |q| < |q'| && HeraldFor(q'[|q|], who[i], i, plan.starts[i], states'[i]);
    }
  }

  lemma ComingKept(q: seq<Scheduled<Event>>, at: nat, rest: seq<Scheduled<Event>>, q': seq<Scheduled<Event>>,
                   who: seq<D.Identity>, states: seq<D.State>, states': seq<D.State>, accepted: seq<nat>, plan: Plan,
                   i: nat)
    requires |who| == |states| == |accepted| == |plan.starts| && i < |who| && plan.calm
    requires plan.starts[i] + HANDSHAKE_MS <= MAX_TIME && Remove(q, at, rest) && q[at].due <= MAX_TIME
    requires Fits(q[at].event, q[at].due, who, states, accepted, plan) && KeepsRegistered(states, states')
    requires Effect(q[at].event, q[at].due, who, true, rest, q', states, states')
    requires |rest| <= |q'| && q'[..|rest|] == rest
    requires Coming(q, who[i], i, plan.starts[i], states[i])
    ensures Coming(q', who[i], i, plan.starts[i], states'[i])
  {
    if !states[i].registered {
      var k :| 0 <= k < |q| && HeraldFor(q[k], who[i], i, plan.starts[i], states[i]);
      if k == at {
        HeraldSteps(q[at].event, q[at].due, rest, q', who, states, states', plan, i);
      } else {
        var l := if k < at then k else k - 1;
        assert rest[l] == q[k];
        HeraldStays(q[at].event, q[at].due, rest, q', who, states, states', accepted, plan, i, l);
      }
    }
  }

  lemma AllComingKept(q: seq<Scheduled<Event>>, at: nat, rest: seq<Scheduled<Event>>, q': seq<Scheduled<Event>>,
                      who: seq<D.Identity>, states: seq<D.State>, states': seq<D.State>, accepted: seq<nat>,
                      plan: Plan, duration: nat)
    requires |who| == |states| == |accepted| == |plan.starts| && duration <= MAX_TIME
    requires Remove(q, at, rest) && q[at].due <= MAX_TIME
    requires Fits(q[at].event, q[at].due, who, states, accepted, plan) && KeepsRegistered(states, states')
    requires Effect(q[at].event, q[at].due, who, plan.calm, rest, q', states, states')
    requires |rest| <= |q'| && q'[..|rest|] == rest
    requires AllComing(q, who, states, plan, duration)
    ensures AllComing(q', who, states', plan, duration)
  {
    if plan.calm {
      forall i | 0 <= i < |who| && plan.starts[i] + HANDSHAKE_MS <= duration
        ensures Coming(q', who[i], i, plan.starts[i], states'[i])
      {
        ComingKept(q, at, rest, q', who, states, states', accepted, plan, i);
      }
    }
  }

  /** Who is registered once everything queued lies beyond the duration: nobody whose handshake takes
      longer, and without faults everybody else. */
  predicate InTime(states: seq<D.State>, plan: Plan, duration: nat)
    requires |states| == |plan.starts|
  {
    forall i | 0 <= i < |states| ::
      && (states[i].registered ==> plan.starts[i] + HANDSHAKE_MS <= duration)
      && (plan.calm && plan.starts[i] + HANDSHAKE_MS <= duration ==> states[i].registered)
  }

  lemma NothingLeft(q: seq<Scheduled<Event>>, who: seq<D.Identity>, states: seq<D.State>, plan: Plan, now: nat,
                    duration: nat)
    requires |who| == |states| == |plan.starts| && now <= duration < MAX_TIME
    requires AllComing(q, who, states, plan, duration) && Seasoned(states, plan, now)
    requires forall k | 0 <= k < |q| :: q[k].due > duration
    ensures InTime(states, plan, duration)
  {
    forall i | 0 <= i < |states| && plan.calm && plan.starts[i] + HANDSHAKE_MS <= duration
      ensures states[i].registered
    {
      assert Coming(q, who[i], i, plan.starts[i], states[i]);
    }
  }

  lemma {:induction false} AllCounted(states: seq<D.State>)
    requires forall i | 0 <= i < |states| :: states[i].registered
    ensures CountRegistered(states) == |states|
  {
    if states != [] {
      AllCounted(states[..|states| - 1]);
    }
  }

  lemma EverybodyInTime(states: seq<D.State>, plan: Plan, stagger: nat, duration: nat)
    requires |states| == |plan.starts| && InTime(states, plan, duration) && plan.calm
    requires stagger + HANDSHAKE_MS <= duration && forall i | 0 <= i < |states| :: plan.starts[i] <= stagger
    ensures CountRegistered(states) == |states|
  {
    AllCounted(states);
  }

  class Harness {
    const scenario: Scenario
    const who: seq<D.Identity>
    const offsets: nat -> nat
    const wheel: TimerWheel<Event>
    const devices: seq<D.Device>
    const platform: P.PlatformPeer
    const fault: F.FaultEngine

    var sent: nat
    var delivered: nat
    var parseErrors: nat
    var devicesRegistered: nat
    var registrationsAccepted: nat
    var challenges: nat
    var keepalivesSent: nat
    var keepalivesAcked: nat
    var catalogResponses: nat
    var catalogReceived: nat
    var invitesAnswered: nat
    var byesAnswered: nat
    var errorsInjected: nat

    /** The devices' states, and how many REGISTERs of each device the platform accepted. */
    ghost var states: seq<D.State>
    ghost var accepted: seq<nat>
    ghost const plan: Plan

    ghost predicate Wired() {
      && Validated(scenario) && Representable(scenario)
      && |devices| == |who| == scenario.deviceCount
      && (forall i, j | 0 <= i < j < |devices| :: devices[i] != devices[j])
      && (forall i | 0 <= i < |devices| :: devices[i].who == who[i])
      && |plan.starts| == |who|
      && plan.calm == (scenario.faults == []) && (plan.calm ==> fault.rules == [] && fault.sipErrors == [])
    }

    /** The plan is the scenario's. */
    ghost predicate Planned() {
      |plan.starts| == |who| && forall i | 0 <= i < |who| :: plan.starts[i] == StaggerOffset(scenario, offsets, i)
    }

    ghost predicate Core()
      reads this, wheel, fault, platform, devices
    {
      && Wired() && wheel.Valid() && fault.Valid()
      && Ledger(who, states, accepted, platform.registered, devicesRegistered, registrationsAccepted)
      && (forall i | 0 <= i < |devices| :: devices[i].View() == states[i])
      && AllFit(wheel.queue, who, states, accepted, plan) && Seasoned(states, plan, wheel.now)
    }

    /** Frames sent or duplicated that were neither dropped, nor delivered, nor are queued. */
    ghost function Balance(): int
      reads this, wheel, fault
    {
      sent + fault.duplicated - fault.dropped - delivered - Total(wheel.queue, IsDelivery)
    }

    /** Every device has exactly one start or keepalive timer queued, except `missing`. */
    ghost predicate Timers(missing: Option<nat>)
      reads this, wheel
    {
      forall i | 0 <= i < |who| :: Total(wheel.queue, TimerOf(i)) == if missing == Some(i) then 0 else 1
    }

    /** The state at the head of the run loop. */
    ghost predicate Valid()
      reads this, wheel, fault, platform, devices
    {
      Core() && Balance() == 0 && Timers(None)
    }

    constructor (scenario: Scenario, who: seq<D.Identity>, offsets: nat -> nat, draws: nat -> F.Draw)
      requires Validated(scenario) && Representable(scenario) && |who| == scenario.deviceCount
      ensures Core() && Planned() && Balance() == 0 && wheel.queue == [] && wheel.now == 0
      ensures this.scenario == scenario && this.who == who && this.offsets == offsets
      ensures forall i | 0 <= i < |states| :: states[i] == D.State(false, false)
      ensures fresh(wheel) && fresh(fault) && fresh(platform) && forall d | d in devices :: fresh(d)
    {
      var ds: seq<D.Device> := [];
      for i := 0 to |who|
        invariant |ds| == i
        invariant forall k | 0 <= k < i :: fresh(ds[k]) && ds[k].who == who[k] && ds[k].View() == D.State(false, false)
        invariant forall k, l | 0 <= k < l < i :: ds[k] != ds[l]
      {
        var d := new D.Device(who[i]);
        ds := ds + [d];
      }
      this.scenario, this.who, this.offsets, devices := scenario, who, offsets, ds;
      wheel := new TimerWheel();
      platform := new P.PlatformPeer();
      fault := new F.FaultEngine(scenario, draws);
      sent, delivered, parseErrors, devicesRegistered, registrationsAccepted := 0, 0, 0, 0, 0;
      challenges, keepalivesSent, keepalivesAcked, catalogResponses, catalogReceived := 0, 0, 0, 0, 0;
      invitesAnswered, byesAnswered, errorsInjected := 0, 0, 0;
      states := seq(|who|, _ => D.State(false, false));
      accepted := seq(|who|, _ => 0);
      plan := Plan(seq(|who|, i requires i >= 0 => StaggerOffset(scenario, offsets, i)), scenario.faults == []);
      new;
      AllIdle(states);
      AllZero(accepted);
    }

    /** Puts one truthful event on the wheel. */
    method Enqueue(at: nat, event: Event)
      requires Core() && wheel.now <= at <= MAX_TIME && Fits(event, at, who, states, accepted, plan)
      modifies wheel
      ensures Core() && wheel.now == old(wheel.now)
      ensures |wheel.queue| == |old(wheel.queue)| + 1 && wheel.queue[..|old(wheel.queue)|] == old(wheel.queue)
      ensures wheel.queue[|old(wheel.queue)|].event == event && wheel.queue[|old(wheel.queue)|].due == at
    {
      wheel.Schedule(at, event);
    }

    /** Schedules the deliveries the fault engine let through. */
    method Post(from: Endpoint, to: Endpoint, deliveries: seq<F.Delivery>)
      requires Core() && Edge(from, to, |states|)
      requires forall k | 0 <= k < |deliveries| ::
                 Fits(Deliver(from, to, deliveries[k].bytes), Arrival(wheel.now), who, states, accepted, plan)
      modifies wheel
      ensures Core() && wheel.now == old(wheel.now)
      ensures Posted(old(wheel.queue), wheel.queue, wheel.now, |deliveries|)
      ensures |wheel.queue| == |old(wheel.queue)| + |deliveries|
      ensures |deliveries| > 0 ==>
        && wheel.queue[|old(wheel.queue)|].event == Deliver(from, to, deliveries[0].bytes)
        && wheel.queue[|old(wheel.queue)|].due == SaturatingAdd(Arrival(wheel.now), deliveries[0].relativeMs)
    {
      for k := 0 to |deliveries|
        invariant Core() && wheel.now == old(wheel.now)
        invariant Posted(old(wheel.queue), wheel.queue, wheel.now, k)
        invariant |wheel.queue| == |old(wheel.queue)| + k
        invariant k > 0 ==>
          && wheel.queue[|old(wheel.queue)|].event == Deliver(from, to, deliveries[0].bytes)
          && wheel.queue[|old(wheel.queue)|].due == SaturatingAdd(Arrival(wheel.now), deliveries[0].relativeMs)
      {
        var at := SaturatingAdd(SaturatingAdd(wheel.now, F.BASE_LATENCY_MS), deliveries[k].relativeMs);
        ghost var q := wheel.queue;
        Enqueue(at, Deliver(from, to, deliveries[k].bytes));
        PostedTwice(old(wheel.queue), q, wheel.queue, wheel.now, k, 1);
        assert k > 0 ==> wheel.queue[|old(wheel.queue)|] == wheel.queue[..|q|][|old(wheel.queue)|];
      }
    }

    /** `send`: count, run the fault engine, schedule what survives. */
    method Send(from: Endpoint, to: Endpoint, msg: SipMessage)
      requires Core() && Edge(from, to, |states|) && Apt(from, to, msg, who, states, accepted, plan, wheel.now)
      modifies this`sent, wheel, fault
      ensures Core() && wheel.now == old(wheel.now)
      ensures Posted(old(wheel.queue), wheel.queue, wheel.now, 2)
      ensures Balance() == old(Balance())
      ensures plan.calm ==> FrameAt(wheel.queue, |old(wheel.queue)|, from, to, msg, wheel.now)
      ensures sent == old(sent) + 1
    {
      var deliveries := Transmit(from, to, msg);
      Post(from, to, deliveries);
      PostedTotals(old(wheel.queue), wheel.queue, wheel.now, 2, 0);
    }

    /** Counts a message and runs it past the fault engine. */
    method Transmit(from: Endpoint, to: Endpoint, msg: SipMessage) returns (deliveries: seq<F.Delivery>)
      requires Core() && Edge(from, to, |states|) && Apt(from, to, msg, who, states, accepted, plan, wheel.now)
      modifies this`sent, fault
      ensures Core() && sent == old(sent) + 1 && |deliveries| <= 2
      ensures |deliveries| + fault.dropped + old(fault.duplicated) == 1 + old(fault.dropped) + fault.duplicated
      ensures plan.calm ==> deliveries == [F.Delivery(0, Encoded(msg))]
      ensures forall k | 0 <= k < |deliveries| ::
                Fits(Deliver(from, to, deliveries[k].bytes), Arrival(wheel.now), who, states, accepted, plan)
    {
      sent := sent + 1;
      deliveries := fault.Apply(from.Device?, Classify(msg), Encoded(msg));
      if plan.calm {
        F.NoRulesNoFaults(fault.draws, old(fault.drawn), from.Device?, Classify(msg), Encoded(msg));
      }
      DeliveriesFit(from, to, msg, deliveries, who, states, accepted, plan, wheel.now);
    }

    method SendAll(from: Endpoint, to: Endpoint, messages: seq<SipMessage>)
      requires Core() && Edge(from, to, |states|)
      requires AllApt(from, to, messages, who, states, accepted, plan, wheel.now)
      modifies this`sent, wheel, fault
      ensures Core() && wheel.now == old(wheel.now)
      ensures Posted(old(wheel.queue), wheel.queue, wheel.now, 2 * |messages|)
      ensures Balance() == old(Balance())
      ensures plan.calm ==> FirstSent(old(wheel.queue), wheel.queue, from, to, messages, wheel.now)
      ensures sent == old(sent) + |messages|
    {
      if messages == [] {
        return;
      }
      Send(from, to, messages[0]);
      ghost var q := wheel.queue;
      SendRest(from, to, messages[1..]);
      PostedTwice(old(wheel.queue), q, wheel.queue, wheel.now, 2, 2 * (|messages| - 1));
      if plan.calm {
        FirstStays(old(wheel.queue), q, wheel.queue, from, to, messages, wheel.now);
      }
    }

    method SendRest(from: Endpoint, to: Endpoint, messages: seq<SipMessage>)
      requires Core() && Edge(from, to, |states|)
      requires AllApt(from, to, messages, who, states, accepted, plan, wheel.now)
      modifies this`sent, wheel, fault
      ensures Core() && wheel.now == old(wheel.now)
      ensures Posted(old(wheel.queue), wheel.queue, wheel.now, 2 * |messages|)
      ensures Balance() == old(Balance()) && sent == old(sent) + |messages|
    {
      for k := 0 to |messages|
        invariant Core() && wheel.now == old(wheel.now)
        invariant Posted(old(wheel.queue), wheel.queue, wheel.now, 2 * k)
        invariant Balance() == old(Balance()) && sent == old(sent) + k
      {
        ghost var q := wheel.queue;
        Send(from, to, messages[k]);
        PostedTwice(old(wheel.queue), q, wheel.queue, wheel.now, 2 * k, 2);
      }
    }

    method RecordDeviceEvent(event: D.DeviceEvent)
      modifies this`devicesRegistered, this`keepalivesSent, this`catalogResponses, this`invitesAnswered
      modifies this`byesAnswered
      ensures devicesRegistered == old(devicesRegistered) + (if event == D.Registered then 1 else 0)
      ensures keepalivesSent == old(keepalivesSent) + (if event == D.KeepaliveSent then 1 else 0)
      ensures catalogResponses == old(catalogResponses) + (if event == D.CatalogResponded then 1 else 0)
      ensures invitesAnswered == old(invitesAnswered) + (if event == D.InviteAnswered then 1 else 0)
      ensures byesAnswered == old(byesAnswered) + (if event == D.ByeAnswered then 1 else 0)
    {
      match event {
        case Registered => devicesRegistered := devicesRegistered + 1;
        case KeepaliveSent => keepalivesSent := keepalivesSent + 1;
        case CatalogResponded => catalogResponses := catalogResponses + 1;
        case InviteAnswered => invitesAnswered := invitesAnswered + 1;
        case ByeAnswered => byesAnswered := byesAnswered + 1;
        case ErrorObserved =>
      }
    }

    /** A device reacts; what the ledger will say is settled on values. */
    method Poke(index: nat, input: D.Input)
      returns (messages: seq<SipMessage>, events: seq<D.DeviceEvent>, ghost after: seq<D.State>)
      requires |who| == |devices| && index < |devices|
      requires Ledger(who, states, accepted, platform.registered, devicesRegistered, registrationsAccepted)
      requires |plan.starts| == |who| && wheel.now <= MAX_TIME
      requires AllFit(wheel.queue, who, states, accepted, plan) && Seasoned(states, plan, wheel.now)
      requires devices[index].who == who[index] && devices[index].View() == states[index]
      requires Deserved(input, states[index], accepted[index], plan.starts[index], plan.calm, wheel.now)
      requires !input.Inbound? ==> forall k | 0 <= k < |wheel.queue| :: wheel.queue[k].event != DeviceStart(index)
      modifies devices[index]
      ensures after == states[index := devices[index].View()] && KeepsRegistered(states, after)
      ensures Ledger(who, after, accepted, platform.registered,
                     devicesRegistered + (if events == [D.Registered] then 1 else 0), registrationsAccepted)
      ensures AllFit(wheel.queue, who, after, accepted, plan) && Seasoned(after, plan, wheel.now)
      ensures AllApt(Device(index), Platform, messages, who, after, accepted, plan, wheel.now)
      ensures |messages| <= 2 && |events| <= 1
      ensures
        var r := D.React(who[index], states[index], input);
        after == states[index := r.state] && messages == r.messages
    {
      StepKeepsTruth(wheel.queue, who, states, accepted, plan, wheel.now, index, input);
      messages, events := devices[index].Step(input);
      after := states[index := devices[index].View()];
      LedgerAfterStep(who, states, accepted, platform.registered, devicesRegistered, registrationsAccepted,
                      index, devices[index].View());
    }

    /** One device takes an input; the ledger follows. */
    method StepDevice(index: nat, input: D.Input) returns (messages: seq<SipMessage>)
      requires Core() && index < |devices|
      requires Deserved(input, states[index], accepted[index], plan.starts[index], plan.calm, wheel.now)
      requires !input.Inbound? ==> forall k | 0 <= k < |wheel.queue| :: wheel.queue[k].event != DeviceStart(index)
      modifies this`devicesRegistered, this`keepalivesSent, this`catalogResponses, this`invitesAnswered
      modifies this`byesAnswered
      modifies this`states, devices[index]
      ensures Core() && |messages| <= 2
      ensures KeepsRegistered(old(states), states)
      ensures AllApt(Device(index), Platform, messages, who, states, accepted, plan, wheel.now)
      ensures
        var r := D.React(who[index], old(states)[index], input);
        states == old(states)[index := r.state] && messages == r.messages
    {
      var events;
      ghost var after;
      messages, events, after := Poke(index, input);
      forall i | 0 <= i < |devices| ensures devices[i].View() == after[i] {
        assert i != index ==> devices[i] != devices[index];
      }
      states := after;
      RecordDeviceEvents(events);
    }

    method RecordDeviceEvents(events: seq<D.DeviceEvent>)
      requires |events| <= 1
      modifies this`devicesRegistered, this`keepalivesSent, this`catalogResponses, this`invitesAnswered
      modifies this`byesAnswered
      ensures devicesRegistered == old(devicesRegistered) + (if events == [D.Registered] then 1 else 0)
      ensures keepalivesSent == old(keepalivesSent) + (if events == [D.KeepaliveSent] then 1 else 0)
      ensures catalogResponses == old(catalogResponses) + (if events == [D.CatalogResponded] then 1 else 0)
      ensures invitesAnswered == old(invitesAnswered) + (if events == [D.InviteAnswered] then 1 else 0)
      ensures byesAnswered == old(byesAnswered) + (if events == [D.ByeAnswered] then 1 else 0)
    {
      if |events| > 0 {
        RecordDeviceEvent(events[0]);
      }
    }

    method RecordPlatformEvent(event: P.PlatformEvent)
      modifies this`registrationsAccepted, this`challenges, this`keepalivesAcked, this`catalogReceived
      modifies this`errorsInjected
      ensures registrationsAccepted == old(registrationsAccepted) + (if event == P.RegisterAccepted then 1 else 0)
      ensures challenges == old(challenges) + (if event == P.Challenged then 1 else 0)
      ensures keepalivesAcked == old(keepalivesAcked) + (if event == P.KeepaliveAcked then 1 else 0)
      ensures catalogReceived == old(catalogReceived) + (if event == P.CatalogReceived then 1 else 0)
      ensures errorsInjected == old(errorsInjected) + (if event == P.ErrorInjected then 1 else 0)
    {
      match event {
        case Challenged => challenges := challenges + 1;
        case RegisterAccepted => registrationsAccepted := registrationsAccepted + 1;
        case KeepaliveAcked => keepalivesAcked := keepalivesAcked + 1;
        case CatalogReceived => catalogReceived := catalogReceived + 1;
        case ErrorInjected => errorsInjected := errorsInjected + 1;
      }
    }

    /** The platform answers; what the ledger will say is settled on values. */
    method Ask(index: nat, msg: SipMessage) returns (answer: P.Answer, ghost after: seq<nat>)
      requires fault.Valid() && index < |who|
      requires Ledger(who, states, accepted, platform.registered, devicesRegistered, registrationsAccepted)
      requires |plan.starts| == |who| && wheel.now <= MAX_TIME && (plan.calm ==> fault.sipErrors == [])
      requires AllFit(wheel.queue, who, states, accepted, plan)
      requires Truthful(Device(index), Platform, msg, who, states, accepted)
      requires Punctual(wheel.now, Device(index), Platform, msg, plan)
      modifies platform, fault
      ensures fault.Valid() && fault.dropped == old(fault.dropped) && fault.duplicated == old(fault.duplicated)
      ensures Ledger(who, states, after, platform.registered, devicesRegistered,
                     registrationsAccepted + (if answer.events == [P.RegisterAccepted] then 1 else 0))
      ensures AllFit(wheel.queue, who, states, after, plan)
      ensures AllApt(Platform, Device(index), answer.messages, who, states, after, plan, wheel.now)
      ensures |answer.messages| <= 1 && |answer.events| <= 1
      ensures plan.calm ==> answer == P.Reply(msg, None)
    {
      var sipError := None;
      if msg.Request? {
        sipError := fault.SipErrorFor(Classify(msg));
      }
      AnswerKeepsTruth(wheel.queue, who, states, accepted, plan, wheel.now, index, msg, sipError);
      LedgerAfterAccept(who, states, accepted, platform.registered, devicesRegistered, registrationsAccepted, index);
      answer := platform.OnInbound(msg, sipError);
      after := if answer.events == [P.RegisterAccepted] then accepted[index := accepted[index] + 1] else accepted;
    }

    /** The platform takes a message from a device; the ledger follows. */
    method StepPlatform(index: nat, msg: SipMessage) returns (messages: seq<SipMessage>)
      requires Core() && index < |devices| && Truthful(Device(index), Platform, msg, who, states, accepted)
      requires Punctual(wheel.now, Device(index), Platform, msg, plan)
      modifies this`registrationsAccepted, this`challenges, this`keepalivesAcked, this`catalogReceived
      modifies this`errorsInjected
      modifies this`accepted, platform, fault
      ensures Core() && |messages| <= 1
      ensures fault.dropped == old(fault.dropped) && fault.duplicated == old(fault.duplicated)
      ensures AllApt(Platform, Device(index), messages, who, states, accepted, plan, wheel.now)
      ensures plan.calm ==> messages == P.Reply(msg, None).messages
    {
      var answer;
      ghost var after;
      answer, after := Ask(index, msg);
      messages := answer.messages;
      accepted := after;
      if |answer.events| > 0 {
        RecordPlatformEvent(answer.events[0]);
      }
    }

    method ToPlatform(from: nat, msg: SipMessage)
      requires Core() && from < |devices| && Truthful(Device(from), Platform, msg, who, states, accepted)
      requires Punctual(wheel.now, Device(from), Platform, msg, plan)
      modifies this, wheel, fault, platform
      ensures Core() && wheel.now == old(wheel.now) && states == old(states)
      ensures Posted(old(wheel.queue), wheel.queue, wheel.now, 4)
      ensures Balance() == old(Balance())
      ensures plan.calm ==>
        FirstSent(old(wheel.queue), wheel.queue, Platform, Device(from), P.Reply(msg, None).messages, wheel.now)
    {
      var messages := StepPlatform(from, msg);
      SendAll(Platform, Device(from), messages);
    }

    method ToDevice(to: nat, input: D.Input)
      requires Core() && to < |devices|
      requires Deserved(input, states[to], accepted[to], plan.starts[to], plan.calm, wheel.now)
      requires !input.Inbound? ==> forall k | 0 <= k < |wheel.queue| :: wheel.queue[k].event != DeviceStart(to)
      modifies this, wheel, fault, devices[to]
      ensures Core() && wheel.now == old(wheel.now)
      ensures Posted(old(wheel.queue), wheel.queue, wheel.now, 4)
      ensures Balance() == old(Balance())
      ensures KeepsRegistered(old(states), states)
      ensures Stepped(old(wheel.queue), wheel.queue, who, old(states), states, plan.calm, wheel.now, to, input)
      ensures sent == old(sent) + |D.React(who[to], old(states)[to], input).messages|
    {
      var messages := StepDevice(to, input);
      SendAll(Device(to), Platform, messages);
    }

    /** `deliver` and `route`: one datagram is parsed and handed to its receiver. */
    method DeliverFrame(from: Endpoint, to: Endpoint, bytes: Bytes)
      requires Core() && Fits(Deliver(from, to, bytes), wheel.now, who, states, accepted, plan)
      modifies this, wheel, fault, platform, devices
      ensures Core() && wheel.now == old(wheel.now)
      ensures Posted(old(wheel.queue), wheel.queue, wheel.now, 4)
      ensures Balance() == old(Balance()) - 1
      ensures KeepsRegistered(old(states), states)
      ensures Effect(Deliver(from, to, bytes), wheel.now, who, plan.calm, old(wheel.queue), wheel.queue,
                     old(states), states)
    {
      delivered := delivered + 1;
      match Parse(bytes) {
        case None =>
          parseErrors := parseErrors + 1;
        case Some(msg) =>
          match to {
            case Platform => ToPlatform(from.index, msg);
            case Device(index) => ToDevice(index, D.Inbound(msg));
          }
      }
    }

    /** A scripted step goes to every device registered when it fires. */
    method RunStep(idx: nat)
      requires Core()
      modifies this`sent, wheel, fault, platform
      ensures Core() && wheel.now == old(wheel.now)
      ensures Posted(old(wheel.queue), wheel.queue, wheel.now, 2 * |devices|)
      ensures Balance() == old(Balance())
      ensures sent == old(sent) + if idx < |scenario.steps| then Reachable(who, states, |who|) else 0
    {
      if idx >= |scenario.steps| {
        return;
      }
      for index := 0 to |devices|
        invariant Core() && wheel.now == old(wheel.now)
        invariant Posted(old(wheel.queue), wheel.queue, wheel.now, 2 * index)
        invariant Balance() == old(Balance()) && sent == old(sent) + Reachable(who, states, index)
      {
        PromptNext(scenario.steps[idx].action, index, old(wheel.queue));
      }
    }

    /** The device at `index`, those before it being done since the queue was `q`. */
    method PromptNext(action: StepAction, index: nat, ghost q: seq<Scheduled<Event>>)
      requires Core() && index < |devices| && Posted(q, wheel.queue, wheel.now, 2 * index)
      modifies this`sent, wheel, fault, platform
      ensures Core() && wheel.now == old(wheel.now)
      ensures Posted(q, wheel.queue, wheel.now, 2 * (index + 1))
      ensures Balance() == old(Balance())
      ensures sent - Reachable(who, states, index + 1) == old(sent) - Reachable(who, states, index)
    {
      ghost var before := wheel.queue;
      Prompt(action, index);
      PostedTwice(q, before, wheel.queue, wheel.now, 2 * index, 2);
    }

    /** The scripted request to one device, if it is registered and can be addressed. */
    method Prompt(action: StepAction, index: nat)
      requires Core() && index < |devices|
      modifies this`sent, wheel, fault, platform
      ensures Core() && wheel.now == old(wheel.now)
      ensures Posted(old(wheel.queue), wheel.queue, wheel.now, 2)
      ensures Balance() == old(Balance())
      ensures sent == old(sent) + if states[index].registered && who[index].encodable then 1 else 0
    {
      if devices[index].registered {
        var msg := platform.Scripted(action, who[index].id, who[index].encodable);
        if msg.Some? {
          Send(Platform, Device(index), msg.value);
        }
      }
    }

    /** A start or keepalive timer fires: the device steps and its next keepalive is scheduled. */
    method FireTimer(index: nat, input: D.Input, next: nat)
      requires Core() && index < |devices| && Timers(Some(index)) && Balance() == 0
      requires !input.Inbound? && (input == D.Start ==> states[index] == D.State(false, false))
      requires wheel.now >= plan.starts[index]
      requires wheel.now <= next <= MAX_TIME && (wheel.now < MAX_TIME ==> next > wheel.now)
      modifies this, wheel, fault, devices[index]
      ensures Valid() && wheel.now == old(wheel.now)
      ensures Grown(old(wheel.queue), wheel.queue, wheel.now, 5)
      ensures KeepsRegistered(old(states), states)
      ensures Stepped(old(wheel.queue), wheel.queue, who, old(states), states, plan.calm, wheel.now, index, input)
    {
      NoStartQueued(wheel.queue, index);
      ghost var before := wheel.queue;
      ToDevice(index, input);
      ghost var between := wheel.queue;
      Enqueue(next, DeviceKeepalive(index));
      Rescheduled(before, between, wheel.queue, wheel.now, |who|, index);
      SteppedStays(before, between, wheel.queue, who, old(states), states, plan.calm, wheel.now, index, input);
    }

    function Fanout(): nat { 2 * scenario.deviceCount + 5 }

    /** One popped event is processed. Whatever it is, it leaves the loop invariant in place, causes
        at most `Fanout()` events, all strictly later, and unregisters nobody. */
    method Process(event: Event)
      requires Core() && Fits(event, wheel.now, who, states, accepted, plan)
      requires Timers(if event.DeviceStart? || event.DeviceKeepalive? then Some(event.index) else None)
      requires Balance() == if event.Deliver? then 1 else 0
      modifies this, wheel, fault, platform, devices
      ensures Valid() && wheel.now == old(wheel.now)
      ensures Grown(old(wheel.queue), wheel.queue, wheel.now, Fanout())
      ensures KeepsRegistered(old(states), states)
      ensures Effect(event, wheel.now, who, plan.calm, old(wheel.queue), wheel.queue, old(states), states)
    {
      var now := wheel.now;
      match event {
        case DeviceStart(index) =>
          var stagger := StaggerOffset(scenario, offsets, index) % scenario.keepaliveMs;
          FireTimer(index, D.Start, SaturatingAdd(SaturatingAdd(now, scenario.keepaliveMs), stagger));
        case DeviceKeepalive(index) =>
          FireTimer(index, D.KeepaliveTick, SaturatingAdd(now, scenario.keepaliveMs));
        case Step(idx) =>
          RunStep(idx);
          TimersFollow(old(wheel.queue), wheel.queue, now, 2 * |devices|, |who|);
        case Deliver(from, to, bytes) =>
          DeliverFrame(from, to, bytes);
          TimersFollow(old(wheel.queue), wheel.queue, now, 4, |who|);
      }
    }

    ghost function Weight(): nat
      reads wheel
    {
      Total(wheel.queue, WeightOf(Fanout() + 1, scenario.durationMs))
    }

    /** Takes the next event off the wheel; there always is one. */
    method Take() returns (event: Event, ghost at: nat)
      requires Valid()
      modifies wheel
      ensures Core() && Fits(event, wheel.now, who, states, accepted, plan)
      ensures Timers(if event.DeviceStart? || event.DeviceKeepalive? then Some(event.index) else None)
      ensures Balance() == if event.Deliver? then 1 else 0
      ensures Remove(old(wheel.queue), at, wheel.queue)
      ensures old(wheel.queue)[at].event == event && old(wheel.queue)[at].due == wheel.now >= old(wheel.now)
    {
      ghost var q := wheel.queue;
      assert Total(q, TimerOf(0)) == 1;
      var entry;
      entry, at := wheel.Pop();
      event := entry.value.event;
      ghost var rest := wheel.queue;
      TotalRemove(q, at, rest, IsDelivery);
      forall i | 0 <= i < |who| ensures Total(rest, TimerOf(i)) == 1 - (if Drives(event, i) then 1 else 0) {
        TotalRemove(q, at, rest, TimerOf(i));
      }
      AllFitRemove(q, at, rest, who, states, accepted, plan);
      assert Fits(q[at].event, q[at].due, who, states, accepted, plan);
    }

    /** The state at the head of the run loop, with every handshake that can be over in time under way. */
    ghost predicate Head()
      reads this, wheel, fault, platform, devices
    {
      Valid() && wheel.now <= scenario.durationMs && AllComing(wheel.queue, who, states, plan, scenario.durationMs)
    }

    /** One turn of the run loop. It goes on exactly when the next event is due within the duration;
        there always is a next event. With a duration below the largest time every turn lowers the
        weight; at the largest time the loop goes on for ever. */
    method Tick() returns (more: bool)
      requires Head()
      modifies this, wheel, fault, platform, devices
      ensures more ==> Head()
      ensures !more ==> Core() && 0 <= Balance() <= 1 && states == old(states)
      ensures !more ==> InTime(states, plan, scenario.durationMs)
      ensures KeepsRegistered(old(states), states)
      ensures wheel.now >= old(wheel.now) && (more <==> wheel.now <= scenario.durationMs)
      ensures more && scenario.durationMs < MAX_TIME ==> Weight() < old(Weight())
      ensures scenario.durationMs == MAX_TIME ==> more
    {
      ghost var q := wheel.queue;
      ghost var past := wheel.now;
      var event, at := Take();
      if wheel.now > scenario.durationMs {
        QueueBeyond(q, at, wheel.queue, scenario.durationMs);
        NothingLeft(q, who, states, plan, past, scenario.durationMs);
        return false;
      }
      HandleTaken(event, q, at);
      return true;
    }

    method HandleTaken(event: Event, ghost q: seq<Scheduled<Event>>, ghost at: nat)
      requires Core() && Fits(event, wheel.now, who, states, accepted, plan) && wheel.now <= scenario.durationMs
      requires Timers(if event.DeviceStart? || event.DeviceKeepalive? then Some(event.index) else None)
      requires Balance() == if event.Deliver? then 1 else 0
      requires Remove(q, at, wheel.queue) && q[at].event == event && q[at].due == wheel.now
      requires AllComing(q, who, states, plan, scenario.durationMs)
      modifies this, wheel, fault, platform, devices
      ensures Head() && wheel.now == old(wheel.now) && KeepsRegistered(old(states), states)
      ensures scenario.durationMs < MAX_TIME ==>
        Weight() < Total(q, WeightOf(Fanout() + 1, scenario.durationMs))
    {
      ghost var rest, before, taken := wheel.queue, states, accepted;
      Process(event);
      AllComingKept(q, at, rest, wheel.queue, who, before, states, taken, plan, scenario.durationMs);
      if scenario.durationMs < MAX_TIME {
        WeightDrops(q, at, rest, wheel.queue, Fanout() + 1, scenario.durationMs);
      }
    }

    /** `seed_schedule`: one start per device, every scripted step. */
    method Seed()
      requires Core() && Planned() && Balance() == 0 && wheel.queue == [] && wheel.now == 0
      requires forall i | 0 <= i < |states| :: states[i] == D.State(false, false)
      modifies wheel
      ensures Head() && wheel.now == 0
    {
      for index := 0 to |devices|
        invariant Core() && wheel.now == 0 && Total(wheel.queue, IsDelivery) == 0
        invariant Starts(wheel.queue, plan, index) && |wheel.queue| == index
        invariant forall i | 0 <= i < |who| :: Total(wheel.queue, TimerOf(i)) == if i < index then 1 else 0
      {
        ghost var q := wheel.queue;
        Enqueue(StaggerOffset(scenario, offsets, index), DeviceStart(index));
        TimerAppended(q, wheel.queue, |who|);
        StartsLonger(q, wheel.queue, plan, index);
      }
      SeedSteps();
      StartsAreComing(wheel.queue, who, states, plan, scenario.durationMs);
    }

    method SeedSteps()
      requires Core() && Balance() == 0 && wheel.now == 0 && Timers(None)
      requires Total(wheel.queue, IsDelivery) == 0 && Starts(wheel.queue, plan, |who|)
      modifies wheel
      ensures Valid() && wheel.now == 0 && Starts(wheel.queue, plan, |who|)
    {
      for idx := 0 to |scenario.steps|
        invariant Core() && wheel.now == 0 && Total(wheel.queue, IsDelivery) == 0 && Timers(None)
        invariant Starts(wheel.queue, plan, |who|)
      {
        SeedStep(idx);
      }
    }

    method SeedStep(idx: nat)
      requires Core() && wheel.now == 0 && Total(wheel.queue, IsDelivery) == 0 && Timers(None)
      requires Starts(wheel.queue, plan, |who|) && idx < |scenario.steps|
      modifies wheel
      ensures Core() && wheel.now == 0 && Total(wheel.queue, IsDelivery) == 0 && Timers(None)
      ensures Starts(wheel.queue, plan, |who|)
    {
      ghost var q := wheel.queue;
      Enqueue(scenario.steps[idx].atMs, Step(idx));
      TimerAppended(q, wheel.queue, |who|);
      StartsLonger(q, wheel.queue, plan, |who|);
    }

    /** `run`: every validated UDP scenario shorter than the largest time terminates, and whatever the
        network did, exactly the counted devices are registered, each after the platform accepted one of
        its own REGISTERs, never more of them than acceptances, and no frame is unaccounted for. No device
        is registered that starts less than a handshake before the end; without faults all others are. */
    method Run()
      requires Core() && Planned() && Balance() == 0 && wheel.queue == [] && wheel.now == 0
      requires forall i | 0 <= i < |states| :: states[i] == D.State(false, false)
      requires scenario.durationMs < MAX_TIME
      modifies this, wheel, fault, platform, devices
      ensures |states| == |accepted| == scenario.deviceCount
      ensures forall i | 0 <= i < |states| :: states[i] == devices[i].View()
      ensures forall i | 0 <= i < |states| :: states[i].registered ==> accepted[i] >= 1
      ensures forall i | 0 <= i < |states| ::
                states[i].registered && who[i].encodable ==> who[i].id in platform.registered
      ensures devicesRegistered == CountRegistered(states) <= registrationsAccepted == Sum(accepted)
      ensures 0 <= Balance() <= 1
      ensures wheel.now > scenario.durationMs
      ensures forall i | 0 <= i < |states| ::
                states[i].registered ==> StaggerOffset(scenario, offsets, i) + HANDSHAKE_MS <= scenario.durationMs
      ensures scenario.faults == [] ==> forall i | 0 <= i < |states| ::
                StaggerOffset(scenario, offsets, i) + HANDSHAKE_MS <= scenario.durationMs ==> states[i].registered
      ensures scenario.faults == [] && scenario.staggerMs + HANDSHAKE_MS <= scenario.durationMs ==>
        devicesRegistered == scenario.deviceCount
    {
      Seed();
      Loop();
      RegisteredWereAccepted(states, accepted);
      if scenario.faults == [] && scenario.staggerMs + HANDSHAKE_MS <= scenario.durationMs {
        EverybodyInTime(states, plan, scenario.staggerMs, scenario.durationMs);
      }
    }

    method Loop()
      requires Head() && scenario.durationMs < MAX_TIME
      modifies this, wheel, fault, platform, devices
      ensures Core() && 0 <= Balance() <= 1 && wheel.now > scenario.durationMs
      ensures InTime(states, plan, scenario.durationMs)
    {
      var more := true;
      while more
        invariant more ==> Head()
        invariant !more ==> Core() && 0 <= Balance() <= 1 && wheel.now > scenario.durationMs
        invariant !more ==> InTime(states, plan, scenario.durationMs)
        decreases more, Weight()
      {
        more := Tick();
      }
    }
  }

  /** The first `n` entries are the starts of the first `n` devices. */
  predicate Starts(q: seq<Scheduled<Event>>, plan: Plan, n: nat) {
    && n <= |q| && n <= |plan.starts|
    && forall i | 0 <= i < n :: q[i].event == DeviceStart(i) && q[i].due == plan.starts[i]
  }

  lemma StartsLonger(q: seq<Scheduled<Event>>, q': seq<Scheduled<Event>>, plan: Plan, n: nat)
    requires Starts(q, plan, n) && |q'| == |q| + 1 && q'[..|q|] == q
    ensures Starts(q', plan, n)
    ensures
      n == |q| < |plan.starts| && q'[n].event == DeviceStart(n) && q'[n].due == plan.starts[n] ==>
        Starts(q', plan, n + 1)
  {
    forall i | 0 <= i < n ensures q'[i] == q[i] {
      assert q'[i] == q'[..|q|][i];
    }
  }

  lemma StartsAreComing(q: seq<Scheduled<Event>>, who: seq<D.Identity>, states: seq<D.State>, plan: Plan, duration: nat)
    requires |who| == |states| == |plan.starts| && Starts(q, plan, |who|)
    ensures AllComing(q, who, states, plan, duration)
  {
    forall i | 0 <= i < |who| ensures Coming(q, who[i], i, plan.starts[i], states[i]) {
      assert HeraldFor(q[i], who[i], i, plan.starts[i], states[i]);
    }
  }

  lemma QueueBeyond(q: seq<Scheduled<Event>>, at: nat, rest: seq<Scheduled<Event>>, duration: nat)
    requires Remove(q, at, rest) && q[at].due > duration
    requires forall k | 0 <= k < |rest| :: rest[k].due > duration
    ensures forall k | 0 <= k < |q| :: q[k].due > duration
  {
    forall k | 0 <= k < |q| && k != at ensures q[k].due > duration {
      assert q[k] == rest[if k < at then k else k - 1];
    }
  }
}
