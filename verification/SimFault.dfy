/** The fault engine: what becomes of a frame on its way, and injected SIP errors. */
module SimFault {
  import opened Wrappers
  import opened SimWire

  const BASE_LATENCY_MS: nat := 5
  const U64: nat := 0x1_0000_0000_0000_0000

  /** One draw from a rule's random stream. */
  datatype Draw = Draw(fires: bool, jitter: nat)

  datatype Delivery = Delivery(relativeMs: nat, bytes: Bytes)

  function Saturating(a: nat, b: nat): nat { if a + b < U64 then a + b else U64 - 1 }

  predicate Selects(direction: Direction, target: MessageClass, fromDevice: bool, actual: MessageClass) {
    DirectionMatches(direction, fromDevice) && ClassMatches(target, actual)
  }

  /** Whether a rule takes a draw for a frame; half packets need TCP, SIP errors are not transport. */
  predicate Concerns(rule: FaultKind, fromDevice: bool, actual: MessageClass) {
    match rule
    case Reorder(_, direction) => DirectionMatches(direction, fromDevice)
    case HalfPacket(_) => false
    case SipError(_, _) => false
    case _ => Selects(rule.direction, rule.target, fromDevice, actual)
  }

  /** What the rules make of a frame: its fate, the delays and reorders it met, the next draw's number. */
  datatype Fate = Fate(lost: bool, latency: nat, duplicate: bool, corrupt: bool, delays: nat, reorders: nat, next: nat)

  function Struck(f: Fate, rule: FaultKind, d: Draw): (g: Fate)
    ensures f.latency < U64 ==> g.latency < U64
    ensures g.next == f.next
  {
    match rule
    case Drop(_, _) => f.(lost := true)
    case Delay(extra, jitterMs, _, _) =>
      var jitter := if jitterMs > 0 then d.jitter % (jitterMs + 1) else 0;
      f.(latency := Saturating(f.latency, (extra + jitter) % U64), delays := f.delays + 1)
    case Reorder(window, _) =>
      f.(latency := Saturating(f.latency, window * (BASE_LATENCY_MS * 4)), reorders := f.reorders + 1)
    case Duplicate(_, _) => f.(duplicate := true)
    case Malformed(_, _) => f.(corrupt := true)
    case _ => f
  }

  /** One rule: nothing for a lost frame or one it does not concern, else a draw decides. */
  function Judge(f: Fate, rule: FaultKind, draws: nat -> Draw, fromDevice: bool, actual: MessageClass): (g: Fate)
    ensures f.latency < U64 ==> g.latency < U64
  {
    if f.lost || !Concerns(rule, fromDevice, actual) then f
    else if draws(f.next).fires then Struck(f.(next := f.next + 1), rule, draws(f.next))
    else f.(next := f.next + 1)
  }

  /** The rules in order, until one loses the frame. */
  function Sweep(rules: seq<FaultKind>, draws: nat -> Draw, start: nat, fromDevice: bool,
                 actual: MessageClass): (f: Fate)
    ensures f.latency < U64
  {
    if rules == [] then Fate(false, 0, false, false, 0, 0, start)
    else
      var f := Sweep(rules[..|rules| - 1], draws, start, fromDevice, actual);
      Judge(f, rules[|rules| - 1], draws, fromDevice, actual)
  }

  lemma SweepNext(rules: seq<FaultKind>, draws: nat -> Draw, start: nat, fromDevice: bool, actual: MessageClass, i: nat)
    requires i < |rules|
    ensures Sweep(rules[..i + 1], draws, start, fromDevice, actual)
         == Judge(Sweep(rules[..i], draws, start, fromDevice, actual), rules[i], draws, fromDevice, actual)
  {
    assert rules[..i + 1][..i] == rules[..i];
  }

  lemma {:induction false} LostStaysLost(rules: seq<FaultKind>, draws: nat -> Draw, start: nat, fromDevice: bool,
                                         actual: MessageClass, i: nat)
    requires i <= |rules| && Sweep(rules[..i], draws, start, fromDevice, actual).lost
    ensures Sweep(rules, draws, start, fromDevice, actual) == Sweep(rules[..i], draws, start, fromDevice, actual)
    decreases |rules| - i
  {
    if i == |rules| {
      assert rules[..i] == rules;
    } else {
      SweepNext(rules, draws, start, fromDevice, actual, i);
      LostStaysLost(rules, draws, start, fromDevice, actual, i + 1);
    }
  }

  /** What a rule that fires adds to the latency: a delay its extra time and up to its jitter, a reordering
      four latencies for each place of its window, any other rule nothing; time that runs over is capped. */
  lemma LatencyGrows(f: Fate, rule: FaultKind, d: Draw)
    requires f.latency < U64
    ensures
      var g := Struck(f, rule, d);
      && (rule.Reorder? ==>
            var sum := f.latency + 20 * rule.window;
            g.latency == if sum < U64 then sum else U64 - 1)
      && (rule.Delay? && f.latency + rule.extraMs + rule.jitterMs < U64 ==>
            f.latency + rule.extraMs <= g.latency <= f.latency + rule.extraMs + rule.jitterMs)
      && (!rule.Delay? && !rule.Reorder? ==> g.latency == f.latency)
  {
  }

  datatype Harm = Loss | Latency | Copy | Corruption

  predicate Inflicts(rule: FaultKind, harm: Harm) {
    match harm
    case Loss => rule.Drop?
    case Latency => rule.Delay? || rule.Reorder?
    case Copy => rule.Duplicate?
    case Corruption => rule.Malformed?
  }

  /** The number of the draw that follows these rules' draws. */
  function Turn(rules: seq<FaultKind>, start: nat, fromDevice: bool, actual: MessageClass): nat {
    if rules == [] then start
    else
      Turn(rules[..|rules| - 1], start, fromDevice, actual)
      + (if Concerns(rules[|rules| - 1], fromDevice, actual) then 1 else 0)
  }

  /** Rule k concerns the frame and the draw that falls to it fires. */
  predicate Fired(rules: seq<FaultKind>, k: nat, draws: nat -> Draw, start: nat, fromDevice: bool, actual: MessageClass)
    requires k < |rules|
  {
    Concerns(rules[k], fromDevice, actual) && draws(Turn(rules[..k], start, fromDevice, actual)).fires
  }

  predicate Harmed(rules: seq<FaultKind>, harm: Harm, draws: nat -> Draw, start: nat, fromDevice: bool,
                   actual: MessageClass) {
    exists k: nat :: k < |rules| && Inflicts(rules[k], harm) && Fired(rules, k, draws, start, fromDevice, actual)
  }

  lemma HarmedLast(rules: seq<FaultKind>, harm: Harm, draws: nat -> Draw, start: nat, fromDevice: bool,
                   actual: MessageClass)
    requires rules != []
    ensures Harmed(rules, harm, draws, start, fromDevice, actual) <==>
              || Harmed(rules[..|rules| - 1], harm, draws, start, fromDevice, actual)
              || (Inflicts(rules[|rules| - 1], harm) && Fired(rules, |rules| - 1, draws, start, fromDevice, actual))
  {
    var init := rules[..|rules| - 1];
    forall k: nat | k < |init|
      ensures Fired(init, k, draws, start, fromDevice, actual) == Fired(rules, k, draws, start, fromDevice, actual)
      ensures init[k] == rules[k]
    {
      assert init[..k] == rules[..k];
    }
  }

  /** The harm a fate shows. */
  predicate Shows(f: Fate, harm: Harm) {
    match harm
    case Loss => f.lost
    case Latency => f.delays + f.reorders > 0
    case Copy => f.duplicate
    case Corruption => f.corrupt
  }

  lemma JudgeMarks(f: Fate, rule: FaultKind, harm: Harm, draws: nat -> Draw, fromDevice: bool, actual: MessageClass)
    requires !f.lost
    ensures
      var g := Judge(f, rule, draws, fromDevice, actual);
      && g.next == f.next + (if Concerns(rule, fromDevice, actual) then 1 else 0)
      && (Shows(g, harm) <==>
            || Shows(f, harm)
            || (Concerns(rule, fromDevice, actual) && draws(f.next).fires && Inflicts(rule, harm)))
  {
  }

  /** The sweep against the rules one by one: a frame is lost exactly when a drop rule fires at its turn,
      and one that is not lost is delayed, duplicated or corrupted exactly when such a rule fires. */
  lemma {:induction false} SweepIsExact(rules: seq<FaultKind>, harm: Harm, draws: nat -> Draw, start: nat,
                                        fromDevice: bool, actual: MessageClass)
    ensures
      var f := Sweep(rules, draws, start, fromDevice, actual);
      && (harm.Loss? || !f.lost ==> (Shows(f, harm) <==> Harmed(rules, harm, draws, start, fromDevice, actual)))
      && (!f.lost ==> f.next == Turn(rules, start, fromDevice, actual))
  {
    if rules != [] {
      var init := rules[..|rules| - 1];
      SweepIsExact(init, harm, draws, start, fromDevice, actual);
      var f := Sweep(init, draws, start, fromDevice, actual);
      HarmedLast(rules, harm, draws, start, fromDevice, actual);
      if !f.lost {
        JudgeMarks(f, rules[|rules| - 1], harm, draws, fromDevice, actual);
      }
    }
  }

  /** The deliveries a fate stands for. */
  function Arrivals(f: Fate, sent: Bytes): seq<Delivery> {
    var bytes := if f.corrupt then Corrupted else sent;
    if f.lost then []
    else if f.duplicate then [Delivery(f.latency, bytes), Delivery((f.latency + BASE_LATENCY_MS) % U64, bytes)]
    else [Delivery(f.latency, bytes)]
  }

  /** Without rules every frame arrives once, as it was sent and without extra delay. */
  lemma NoRulesNoFaults(draws: nat -> Draw, start: nat, fromDevice: bool, actual: MessageClass, sent: Bytes)
    ensures Arrivals(Sweep([], draws, start, fromDevice, actual), sent) == [Delivery(0, sent)]
  {
  }

  /** The first error rule for the class that fires, and the number of the next draw. */
  function FirstError(errors: seq<FaultKind>, draws: nat -> Draw, start: nat, actual: MessageClass): (Option<nat>,
                      nat) {
    if errors == [] then (None, start)
    else if !errors[0].SipError? || !ClassMatches(errors[0].target, actual)
    then FirstError(errors[1..], draws, start, actual)
    else if draws(start).fires then (Some(errors[0].code), start + 1)
    else FirstError(errors[1..], draws, start + 1, actual)
  }

  /** A scenario's faults other than SIP errors, in order. */
  function Transport(faults: seq<FaultKind>): seq<FaultKind> {
    if faults == [] then []
    else Transport(faults[..|faults| - 1]) + (if faults[|faults| - 1].SipError? then [] else [faults[|faults| - 1]])
  }

  function Errors(faults: seq<FaultKind>): seq<FaultKind> {
    if faults == [] then []
    else Errors(faults[..|faults| - 1]) + (if faults[|faults| - 1].SipError? then [faults[|faults| - 1]] else [])
  }

  class FaultEngine {
    const rules: seq<FaultKind>
    const sipErrors: seq<FaultKind>
    /** Any sequence of draws; a seed is one of them. */
    const draws: nat -> Draw
    var drawn: nat

    var dropped: nat
    var delayed: nat
    var reordered: nat
    var duplicated: nat
    var malformed: nat
    var sipErrorsInjected: nat

    ghost predicate Valid()
      reads this
    {
      forall i | 0 <= i < |sipErrors| :: sipErrors[i].SipError? && 300 <= sipErrors[i].code <= 699
    }

    constructor (s: Scenario, draws: nat -> Draw)
      requires Validated(s)
      ensures Valid() && dropped == 0 && duplicated == 0 && this.draws == draws
      ensures rules == Transport(s.faults) && sipErrors == Errors(s.faults)
    {
      var transport: seq<FaultKind>, errors: seq<FaultKind> := [], [];
      for i := 0 to |s.faults|
        invariant forall k | 0 <= k < |errors| :: errors[k].SipError? && 300 <= errors[k].code <= 699
        invariant transport == Transport(s.faults[..i]) && errors == Errors(s.faults[..i])
      {
        assert s.faults[..i + 1][..i] == s.faults[..i];
        if s.faults[i].SipError? {
          errors := errors + [s.faults[i]];
        } else {
          transport := transport + [s.faults[i]];
        }
      }
      assert s.faults[..|s.faults|] == s.faults;
      rules, sipErrors := transport, errors;
      this.draws := draws;
      drawn := 0;
      dropped, delayed, reordered, duplicated, malformed, sipErrorsInjected := 0, 0, 0, 0, 0, 0;
    }

    method Fires() returns (d: Draw)
      modifies this`drawn
      ensures d == draws(old(drawn)) && drawn == old(drawn) + 1
    {
      d := draws(drawn);
      drawn := drawn + 1;
    }

    method Meet(f: Fate, rule: FaultKind, fromDevice: bool, actual: MessageClass) returns (g: Fate)
      requires !f.lost && f.next == drawn
      modifies this`drawn
      ensures g == Judge(f, rule, draws, fromDevice, actual) && drawn == g.next
    {
      g := f;
      if Concerns(rule, fromDevice, actual) {
        var d := Fires();
        g := g.(next := drawn);
        if d.fires {
          g := Struck(g, rule, d);
        }
      }
    }

    /** Runs a frame past the rules, drawing for those that concern it, until one loses it. */
    method Traverse(fromDevice: bool, actual: MessageClass) returns (f: Fate)
      modifies this`drawn
      ensures f == Sweep(rules, draws, old(drawn), fromDevice, actual) && drawn == f.next
    {
      f := Fate(false, 0, false, false, 0, 0, drawn);
      for i := 0 to |rules|
        invariant !f.lost && f.next == drawn && f == Sweep(rules[..i], draws, old(drawn), fromDevice, actual)
      {
        SweepNext(rules, draws, old(drawn), fromDevice, actual, i);
        f := Meet(f, rules[i], fromDevice, actual);
        if f.lost {
          LostStaysLost(rules, draws, old(drawn), fromDevice, actual, i + 1);
          return;
        }
      }
      assert rules[..|rules|] == rules;
    }

    /** The rules decide what arrives, and every fault that struck is counted. */
    method Apply(fromDevice: bool, actual: MessageClass, sent: Bytes) returns (deliveries: seq<Delivery>)
      requires Valid()
      modifies this
      ensures Valid() && sipErrorsInjected == old(sipErrorsInjected)
      ensures
        var f := Sweep(rules, draws, old(drawn), fromDevice, actual);
        && deliveries == Arrivals(f, sent) && drawn == f.next
        && dropped == old(dropped) + (if f.lost then 1 else 0)
        && duplicated == old(duplicated) + (if f.duplicate && !f.lost then 1 else 0)
        && malformed == old(malformed) + (if f.corrupt && !f.lost then 1 else 0)
        && delayed == old(delayed) + f.delays && reordered == old(reordered) + f.reorders
      ensures |deliveries| + dropped + old(duplicated) == 1 + old(dropped) + duplicated
      ensures forall i | 0 <= i < |deliveries| ::
                deliveries[i].relativeMs < U64 && (deliveries[i].bytes == sent || deliveries[i].bytes == Corrupted)
    {
      var f := Traverse(fromDevice, actual);
      delayed, reordered := delayed + f.delays, reordered + f.reorders;
      if f.lost {
        dropped := dropped + 1;
        return [];
      }
      if f.corrupt {
        malformed := malformed + 1;
      }
      if f.duplicate {
        duplicated := duplicated + 1;
      }
      deliveries := Arrivals(f, sent);
    }

    /** The first error rule for the class that fires decides. */
    method SipErrorFor(actual: MessageClass) returns (code: Option<nat>)
      requires Valid()
      modifies this
      ensures Valid() && dropped == old(dropped) && duplicated == old(duplicated)
      ensures (code, drawn) == FirstError(sipErrors, draws, old(drawn), actual)
      ensures code.Some? ==> 300 <= code.value <= 699
      ensures sipErrorsInjected == old(sipErrorsInjected) + (if code.Some? then 1 else 0)
    {
      for i := 0 to |sipErrors|
        invariant Valid() && dropped == old(dropped) && duplicated == old(duplicated)
        invariant sipErrorsInjected == old(sipErrorsInjected)
        invariant FirstError(sipErrors, draws, old(drawn), actual) == FirstError(sipErrors[i..], draws, drawn, actual)
      {
        assert sipErrors[i..][1..] == sipErrors[i + 1..];
        if ClassMatches(sipErrors[i].target, actual) {
          var d := Fires();
          if d.fires {
            sipErrorsInjected := sipErrorsInjected + 1;
            return Some(sipErrors[i].code);
          }
        }
      }
      return None;
    }
  }
}
