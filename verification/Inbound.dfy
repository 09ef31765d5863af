/** What an actor does first with any delivery: is its sender let in, and what is owed in return? */
module Inbounds {
  import opened Vocabulary
  import opened Protocol

  datatype Inbound =
    | Denied
    | RequestReceived(request: Request, replyTo: Address, ack: Message)
    | AckReceived(id: RequestId)
    | HarnessReceived(harness: Harness, replyTo: Address)
    | TurnReceived(turn: Turn, replyTo: Address, receipt: Option<Message>)

  function Process(allowlist: set<EndpointId>, delivery: Delivery): Inbound {
    if delivery.from.endpoint !in allowlist then Denied
    else
      match delivery.message
      case RequestMessage(request) => RequestReceived(request, delivery.from, AckMessage(request.id))
      case AckMessage(id) => AckReceived(id)
      case HarnessMessage(harness) => HarnessReceived(harness, delivery.from)
      case TurnMessage(turn) =>
        TurnReceived(turn, delivery.from,
                     if turn.Posed().Some? then Some(AckMessage(turn.Posed().value)) else None)
  }

  /** Nothing gets through from an endpoint that is not admitted. What gets through is what was sent, and
      comes with the step owed to its sender: for a request the ack that completes it, for a turn that asks
      the ack of its question, for a closing turn none. */
  lemma OnlyTheAdmitted(allowlist: set<EndpointId>, d: Delivery)
    ensures Process(allowlist, d).Denied? <==> d.from.endpoint !in allowlist
    ensures match Process(allowlist, d)
      case Denied => true
      case RequestReceived(request, to, ack) =>
        to == d.from && d.message == RequestMessage(request) && Completes(d.message, ack)
      case AckReceived(id) => d.message == AckMessage(id)
      case HarnessReceived(harness, to) => to == d.from && d.message == HarnessMessage(harness)
      case TurnReceived(turn, to, receipt) =>
        to == d.from && d.message == TurnMessage(turn) && (receipt.None? <==> turn.Close?)
        && (receipt.Some? ==> Completes(RequestMessage(turn.request), receipt.value))
  {
  }

  /** Whom an actor lets in: nobody, until they are admitted. */
  class Allowlist {
    var endpoints: set<EndpointId>

    constructor Empty()
      ensures endpoints == {}
    {
      endpoints := {};
    }

    method Admit(endpoint: EndpointId)
      modifies this
      ensures endpoints == old(endpoints) + {endpoint}
      ensures forall e :: Allows(e) <==> old(Allows(e)) || e == endpoint
    {
      endpoints := endpoints + {endpoint};
    }

    method Revoke(endpoint: EndpointId)
      modifies this
      ensures endpoints == old(endpoints) - {endpoint}
      ensures forall e :: Allows(e) <==> old(Allows(e)) && e != endpoint
    {
      endpoints := endpoints - {endpoint};
    }

    predicate Allows(endpoint: EndpointId)
      reads this
    {
      endpoint in endpoints
    }
  }
}
