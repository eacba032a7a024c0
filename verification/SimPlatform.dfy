/** The simulated platform (registrar). */
module SimPlatform {
  import opened Wrappers
  import opened SimWire

  datatype PlatformEvent = Challenged | RegisterAccepted | KeepaliveAcked | CatalogReceived | ErrorInjected

  datatype Answer = Answer(messages: seq<SipMessage>, events: seq<PlatformEvent>)

  /** What the platform answers to a message, with an injected error status if one was drawn. */
  function Reply(msg: SipMessage, sipError: Option<nat>): Answer {
    match msg
    case Response(_, _) => Answer([], [])
    case Request(Register, authorized, _, _) =>
      if !authorized then Answer([Response(401, true)], [Challenged])
      else if sipError.Some? then Answer([Response(sipError.value, false)], [ErrorInjected])
      else Answer([Response(200, false)], [RegisterAccepted])
    case Request(Message, _, _, body) =>
      if sipError.Some? then Answer([Response(sipError.value, false)], [ErrorInjected])
      else Answer([Response(200, false)],
                  if body.Keepalive? then [KeepaliveAcked] else if body.CatalogResponse? then [CatalogReceived] else [])
    case Request(_, _, _, _) => Answer([Response(405, false)], [])
  }

  /** A 2xx answer is an accepted REGISTER or the answer to a MESSAGE; nothing else counts as accepted. */
  lemma SuccessHasACause(msg: SipMessage, sipError: Option<nat>)
    requires sipError.Some? ==> 300 <= sipError.value
    ensures
      var a := Reply(msg, sipError);
      && |a.messages| <= 1
      && (forall k | 0 <= k < |a.messages| :: a.messages[k].Response?)
      && (forall k | 0 <= k < |a.messages| :: 200 <= a.messages[k].code < 300 ==>
            a.events == [RegisterAccepted] || (msg.Request? && msg.verb == Message))
      && (RegisterAccepted in a.events <==> a.events == [RegisterAccepted])
      && (a.events == [RegisterAccepted] ==> msg.Request? && msg.verb == Register && msg.authorized)
  {
  }

  /** Every request is answered once. A REGISTER without credentials is challenged; with them it is accepted,
      as is any MESSAGE, unless an error was drawn. */
  lemma EveryRequestIsAnswered(msg: SipMessage, sipError: Option<nat>)
    requires msg.Request?
    ensures
      var a := Reply(msg, sipError);
      && |a.messages| == 1 && a.messages[0].Response?
      && (msg.verb == Register && !msg.authorized ==> a.messages[0] == Response(401, true) && a.events == [Challenged])
      && ((msg.verb == Register && msg.authorized) || msg.verb == Message ==>
            a.messages[0].code == if sipError.Some? then sipError.value else 200)
      && (a.events == [RegisterAccepted] <==> msg.verb == Register && msg.authorized && sipError.None?)
      && (a.events == [ErrorInjected] <==>
            sipError.Some? && ((msg.verb == Register && msg.authorized) || msg.verb == Message))
      && (a.events == [KeepaliveAcked] <==> sipError.None? && msg.verb == Message && msg.body == Keepalive)
      && (a.events == [CatalogReceived] <==> sipError.None? && msg.verb == Message && msg.body == CatalogResponse)
  {
  }

  class PlatformPeer {
    var registered: map<string, bool>
    var sn: nat
    var cseq: nat

    constructor ()
      ensures registered == map[] && sn == 1 && cseq == 1
    {
      registered, sn, cseq := map[], 1, 1;
    }

    method OnInbound(msg: SipMessage, sipError: Option<nat>) returns (a: Answer)
      modifies this
      ensures a == Reply(msg, sipError)
      ensures registered ==
        if a.events == [RegisterAccepted] && msg.user.Some?
        then old(registered)[msg.user.value := true] else old(registered)
    {
      if msg.Response? {
        return Answer([], []);
      }
      match msg.verb {
        case Register =>
          if !msg.authorized {
            return Answer([Response(401, true)], [Challenged]);
          }
          if sipError.Some? {
            return Answer([Response(sipError.value, false)], [ErrorInjected]);
          }
          if msg.user.Some? {
            registered := registered[msg.user.value := true];
          }
          return Answer([Response(200, false)], [RegisterAccepted]);
        case Message =>
          if sipError.Some? {
            return Answer([Response(sipError.value, false)], [ErrorInjected]);
          }
          var events := [];
          if msg.body.Keepalive? {
            events := [KeepaliveAcked];
          } else if msg.body.CatalogResponse? {
            events := [CatalogReceived];
          }
          return Answer([Response(200, false)], events);
        case _ =>
          return Answer([Response(405, false)], []);
      }
    }

    /** A scripted request to a device; none when its id does not make a URI. */
    method Scripted(action: StepAction, id: string, encodable: bool) returns (r: Option<SipMessage>)
      modifies this
      ensures registered == old(registered)
      ensures r.Some? <==> encodable
      ensures r.Some? ==> r.value.Request?
      ensures r.Some? && action == QueryCatalog ==> r.value.verb == Message && r.value.body == CatalogQuery(id)
      ensures r.Some? && action == SendInvite ==> r.value.verb == Invite && r.value.body == Sdp
      ensures r.Some? && action == SendBye ==> r.value.verb == Bye
    {
      if action == QueryCatalog {
        sn := sn + 1;
      }
      if !encodable {
        return None;
      }
      cseq := cseq + 1;
      match action {
        case QueryCatalog => r := Some(Request(Message, false, Some("platform"), CatalogQuery(id)));
        case SendInvite => r := Some(Request(Invite, false, Some("platform"), Sdp));
        case SendBye => r := Some(Request(Bye, false, Some("platform"), NoBody));
      }
    }
  }
}
