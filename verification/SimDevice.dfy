/** The simulated device: a registration state machine driven by timers and inbound messages. */
module SimDevice {
  import opened Wrappers
  import opened SimWire

  datatype DeviceEvent = Registered | KeepaliveSent | CatalogResponded | InviteAnswered | ByeAnswered | ErrorObserved

  datatype Input = Start | KeepaliveTick | Inbound(message: SipMessage)

  datatype State = State(registered: bool, registering: bool)

  datatype Reaction = Reaction(state: State, messages: seq<SipMessage>, events: seq<DeviceEvent>)

  /** The identity of a device: its id and whether the XML and URI builders accept it. */
  datatype Identity = Identity(id: string, encodable: bool) {
    function User(): Option<string> { if encodable then Some(id) else None }
    function RegisterRequest(authorized: bool): SipMessage { Request(Register, authorized, User(), NoBody) }
    function MessageRequest(body: Body): SipMessage { Request(Message, false, User(), body) }
  }

  /** What a device does with an input. */
  function React(who: Identity, s: State, input: Input): Reaction {
    match input
    case Start => Reaction(State(false, true), [who.RegisterRequest(false)], [])
    case KeepaliveTick =>
      if !s.registered then Reaction(State(false, true), [who.RegisterRequest(false)], [])
      else if who.encodable then Reaction(s, [who.MessageRequest(Keepalive)], [KeepaliveSent])
      else Reaction(s, [], [])
    case Inbound(Response(code, challenge)) =>
      if code == 401 then Reaction(s, if challenge then [who.RegisterRequest(true)] else [], [])
      else if 200 <= code < 300 then
        if s.registering then Reaction(State(true, false), [], [Registered]) else Reaction(s, [], [])
      else Reaction(if s.registering then State(false, false) else s, [], [ErrorObserved])
    case Inbound(Request(verb, _, _, body)) =>
      match verb
      case Message =>
        if body.CatalogQuery? && body.deviceId == who.id && who.encodable
        then Reaction(s, [Response(200, false), who.MessageRequest(CatalogResponse)], [CatalogResponded])
        else Reaction(s, [Response(200, false)], [])
      case Invite => Reaction(s, [Response(100, false), Response(200, false)], [InviteAnswered])
      case Bye => Reaction(s, [Response(200, false)], [ByeAnswered])
      case Cancel => Reaction(s, [Response(200, false)], [])
      case _ => Reaction(s, [Response(405, false)], [])
  }

  predicate Sane(s: State) { !(s.registered && s.registering) }

  /** Registration is won only by a 2xx while registering, is announced exactly when it is won, and
      is lost only by a new start. */
  lemma RegistrationIsEarned(who: Identity, s: State, input: Input)
    requires Sane(s)
    ensures
      var r := React(who, s, input);
      && Sane(r.state)
      && (input != Start && s.registered ==> r.state.registered)
      && (!s.registered && r.state.registered ==>
            s.registering && input.Inbound? && input.message.Response? && 200 <= input.message.code < 300)
      && (r.events == [Registered] <==> !s.registered && r.state.registered)
      && (Registered in r.events ==> r.events == [Registered])
  {
  }

  /** A device sends requests other than REGISTER only once registered or when asked for its catalog. */
  lemma RequestsAreEarned(who: Identity, s: State, input: Input, k: nat)
    requires k < |React(who, s, input).messages|
    ensures |React(who, s, input).messages| <= 2 && |React(who, s, input).events| <= 1
    ensures
      var m := React(who, s, input).messages[k];
      m.Request? && m.verb != Register ==>
        m.verb == Message && (s.registered || (input.Inbound? && input.message.Request?))
  {
  }

  predicate Final(m: SipMessage) { m.Response? && m.code >= 200 }

  /** Every request is answered finally and once, by success exactly for the methods a device serves; its
      catalog is sent when it is asked for by name, and nothing about its registration changes. */
  lemma RequestsAreAnswered(who: Identity, s: State, verb: Method, authorized: bool, user: Option<string>, body: Body)
    ensures
      var r := React(who, s, Inbound(Request(verb, authorized, user, body)));
      && r.state == s
      && (exists k :: 0 <= k < |r.messages| && Final(r.messages[k]))
      && (forall j, k | 0 <= j < k < |r.messages| :: !(Final(r.messages[j]) && Final(r.messages[k])))
      && (forall k | 0 <= k < |r.messages| && Final(r.messages[k]) ::
            if verb in {Message, Invite, Bye, Cancel} then r.messages[k].code == 200 else r.messages[k].code == 405)
      && (who.MessageRequest(CatalogResponse) in r.messages <==>
            verb == Message && body == CatalogQuery(who.id) && who.encodable)
  {
    var r := React(who, s, Inbound(Request(verb, authorized, user, body)));
    assert Final(r.messages[if verb == Invite then 1 else 0]);
  }

  /** On its timer a device that is registered sends a keepalive, if it can be encoded, and any other
      begins to register. */
  lemma TimerBeats(who: Identity, s: State)
    ensures
      var r := React(who, s, KeepaliveTick);
      && (s.registered ==> r.state == s && r.messages == if who.encodable then [who.MessageRequest(Keepalive)] else [])
      && (!s.registered ==> r.state == State(false, true) && r.messages == [who.RegisterRequest(false)])
  {
  }

  class Device {
    const who: Identity
    var registered: bool
    var registering: bool
    var cseq: nat

    constructor (who: Identity)
      ensures this.who == who && View() == State(false, false) && cseq == 1
    {
      this.who := who;
      registered, registering, cseq := false, false, 1;
    }

    function View(): State
      reads this
    {
      State(registered, registering)
    }

    method Step(input: Input) returns (messages: seq<SipMessage>, events: seq<DeviceEvent>)
      modifies this
      ensures Reaction(View(), messages, events) == React(who, old(View()), input)
    {
      match input {
        case Start =>
          messages := BeginRegistration();
          events := [];
        case KeepaliveTick =>
          messages, events := Beat();
        case Inbound(msg) =>
          if msg.Response? {
            messages, events := OnResponse(msg.code, msg.challenge);
          } else {
            messages, events := OnRequest(msg.verb, msg.body);
          }
      }
    }

    method BeginRegistration() returns (messages: seq<SipMessage>)
      modifies this
      ensures View() == State(false, true) && messages == [who.RegisterRequest(false)]
    {
      registering := true;
      registered := false;
      cseq := cseq + 1;
      messages := [who.RegisterRequest(false)];
    }

    method Beat() returns (messages: seq<SipMessage>, events: seq<DeviceEvent>)
      modifies this
      ensures Reaction(View(), messages, events) == React(who, old(View()), KeepaliveTick)
    {
      if !registered {
        messages := BeginRegistration();
        return messages, [];
      }
      cseq := cseq + 1;
      if !who.encodable {
        return [], [];
      }
      cseq := cseq + 1;
      return [who.MessageRequest(Keepalive)], [KeepaliveSent];
    }

    method OnResponse(code: nat, challenge: bool) returns (messages: seq<SipMessage>, events: seq<DeviceEvent>)
      modifies this
      ensures Reaction(View(), messages, events) == React(who, old(View()), Inbound(Response(code, challenge)))
    {
      if code == 401 {
        if challenge {
          cseq := cseq + 1;
          return [who.RegisterRequest(true)], [];
        }
        return [], [];
      }
      if 200 <= code < 300 {
        if registering {
          registering := false;
          registered := true;
          return [], [Registered];
        }
        return [], [];
      }
      if registering {
        registering := false;
        registered := false;
      }
      return [], [ErrorObserved];
    }

    method OnRequest(verb: Method, body: Body) returns (messages: seq<SipMessage>, events: seq<DeviceEvent>)
      modifies this`cseq
      ensures forall a, u ::
        Reaction(View(), messages, events) == React(who, old(View()), Inbound(Request(verb, a, u, body)))
    {
      messages, events := [Response(200, false)], [];
      match verb {
        case Message =>
          if body.CatalogQuery? && body.deviceId == who.id && who.encodable {
            cseq := cseq + 1;
            messages, events := messages + [who.MessageRequest(CatalogResponse)], [CatalogResponded];
          }
        case Invite =>
          messages, events := [Response(100, false)] + messages, [InviteAnswered];
        case Bye =>
          events := [ByeAnswered];
        case Cancel =>
        case _ =>
          messages := [Response(405, false)];
      }
    }
  }
}
