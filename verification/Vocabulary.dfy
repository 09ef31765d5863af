/** The closed set of values actors exchange, and the values the ports hand around.
    Names, endpoints and bodies are opaque: the conversation engine only compares them. */
module Vocabulary {

  newtype u8 = x: int | 0 <= x < 256

  datatype Option<+T> = None | Some(value: T)

  datatype EndpointId = EndpointId(hex: string)

  datatype ActorName = ActorName(text: string)

  datatype Address = Address(endpoint: EndpointId, name: ActorName)

  /** Sixteen bytes in the source; their number plays no part in any comparison. */
  datatype RequestId = RequestId(bytes: seq<u8>)

  datatype Request = Request(id: RequestId, body: seq<u8>)

  datatype Response = Response(id: RequestId, body: seq<u8>)

  /** What parties say to each other: an answer, a question, or both. */
  datatype Turn =
    | Open(request: Request)
    | Continue(response: Response, request: Request)
    | Close(response: Response)
  {
    /** The id of the request half, if there is one. */
    function Posed(): Option<RequestId> {
      if Close? then None else Some(request.id)
    }

    /** The id of the request that the response half answers, if there is one. */
    function Answered(): Option<RequestId> {
      if Open? then None else Some(response.id)
    }
  }

  datatype Harness =
    | Spawn(name: ActorName)
    | Spawned(name: ActorName)
    | Stop(name: ActorName)
    | Stopped(name: ActorName)
    | Ping
    | Pong
    | HarnessFailed(reason: string)

  datatype Message =
    | RequestMessage(request: Request)
    | AckMessage(id: RequestId)
    | HarnessMessage(harness: Harness)
    | TurnMessage(turn: Turn)

  datatype Delivery = Delivery(from: Address, to: Address, message: Message)

  /** One side's patience, in ticks of its own timer. */
  datatype Deadlines = Deadlines(ack: nat, turn: nat)

  datatype DeadlineKind = AckDeadline | TurnDeadline

  datatype FailureCause =
    | DeadlineElapsed(kind: DeadlineKind)
    | SendFailed
    | IllegalReply
    | Disconnected
    | Revoked

  /** In whose name `endpoint` acknowledges a batch. */
  function BatchReceiptSender(endpoint: EndpointId): Address {
    Address(endpoint, ActorName("mailroom"))
  }
}
