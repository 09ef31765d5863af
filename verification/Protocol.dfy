/** One side's alternation rulebook for a turns exchange. */
module Protocol {
  import opened Vocabulary

  datatype TurnState =
    | Idle
    | AwaitingTheirTurn(outstanding: RequestId)
    | OweThem(outstanding: RequestId)
    | Failed
  {
    /** An exchange is under way. */
    predicate Live() { AwaitingTheirTurn? || OweThem? }

    /** The state an outside verdict of death leaves behind. */
    function Fail(): TurnState { if Live() then Failed else this }
  }

  datatype TurnProgress = Continuing | Concluded

  datatype TurnError = NotOurMove | NotTheirMove | WrongResponse | NoExchange | MustAnswerFirst | ExchangeFailed

  /** What the rulebook says of one turn; a refusal leaves the state alone. */
  datatype Ruling = Legal(next: TurnState, progress: TurnProgress) | Refused(error: TurnError)
  {
    function Next(before: TurnState): TurnState { if Legal? then next else before }
  }

  function ProgressOf(turn: Turn): TurnProgress {
    if turn.Close? then Concluded else Continuing
  }

  /** A turn speaks to the state when it opens over no live exchange or answers what is outstanding. */
  predicate Speaks(live: bool, outstanding: RequestId, turn: Turn) {
    if live then turn.Answered() == Some(outstanding) else turn.Open?
  }

  /** The ruling on a turn this side is about to send. */
  function Outgoing(s: TurnState, turn: Turn): Ruling {
    match s
    case AwaitingTheirTurn(_) => Refused(NotOurMove)
    case OweThem(id) =>
      if Speaks(true, id, turn) then
        Legal(if turn.Close? then Idle else AwaitingTheirTurn(turn.request.id), ProgressOf(turn))
      else Refused(if turn.Open? then MustAnswerFirst else WrongResponse)
    case _ =>
      if turn.Open? then Legal(AwaitingTheirTurn(turn.request.id), Continuing)
      else Refused(if s.Failed? then ExchangeFailed else NoExchange)
  }

  /** The ruling on a turn of the peer's. */
  function Incoming(s: TurnState, turn: Turn): Ruling {
    match s
    case OweThem(_) => Refused(NotTheirMove)
    case AwaitingTheirTurn(id) =>
      if Speaks(true, id, turn) then
        Legal(if turn.Close? then Idle else OweThem(turn.request.id), ProgressOf(turn))
      else Refused(if turn.Open? then MustAnswerFirst else WrongResponse)
    case _ =>
      if turn.Open? then Legal(OweThem(turn.request.id), Continuing)
      else Refused(if s.Failed? then ExchangeFailed else NoExchange)
  }

  /** The peer may say `turn`: it opens over no live exchange, or answers the question awaiting it. */
  predicate TheirsToSay(s: TurnState, turn: Turn) {
    match s
    case AwaitingTheirTurn(question) => !turn.Open? && turn.response.id == question
    case OweThem(_) => false
    case _ => turn.Open?
  }

  /** This side may say `turn`: it opens over no live exchange, or answers the question owed an answer. */
  predicate OursToSay(s: TurnState, turn: Turn) {
    match s
    case OweThem(question) => !turn.Open? && turn.response.id == question
    case AwaitingTheirTurn(_) => false
    case _ => turn.Open?
  }

  /** Where a turn of the peer's leaves the exchange, and where one of this side's does. */
  function OnceHeard(turn: Turn): TurnState { if turn.Close? then Idle else OweThem(turn.request.id) }

  function OnceSaid(turn: Turn): TurnState { if turn.Close? then Idle else AwaitingTheirTurn(turn.request.id) }

  /** Why a turn of the peer's is out of place, and why one of this side's is. */
  function AgainstTheirs(s: TurnState, turn: Turn): TurnError {
    match s
    case OweThem(_) => NotTheirMove
    case AwaitingTheirTurn(_) => if turn.Open? then MustAnswerFirst else WrongResponse
    case Idle => NoExchange
    case Failed => ExchangeFailed
  }

  function AgainstOurs(s: TurnState, turn: Turn): TurnError {
    match s
    case AwaitingTheirTurn(_) => NotOurMove
    case OweThem(_) => if turn.Open? then MustAnswerFirst else WrongResponse
    case Idle => NoExchange
    case Failed => ExchangeFailed
  }

  /** What the machine says of each turn: legal exactly when it is in place. */
  lemma RulingsOnTheirs(s: TurnState, turn: Turn)
    ensures Incoming(s, turn) == if TheirsToSay(s, turn) then
                                   Legal(OnceHeard(turn), if turn.Close? then Concluded else Continuing)
                                 else Refused(AgainstTheirs(s, turn))
  {
  }

  lemma RulingsOnOurs(s: TurnState, turn: Turn)
    ensures Outgoing(s, turn) == if OursToSay(s, turn) then
                                   Legal(OnceSaid(turn), if turn.Close? then Concluded else Continuing)
                                 else Refused(AgainstOurs(s, turn))
  {
  }

  /** A verdict of death fails a live exchange and touches nothing else. */
  lemma VerdictOfDeath(s: TurnState)
    ensures s.Live() <==> s.AwaitingTheirTurn? || s.OweThem?
    ensures s.Fail() == if s.AwaitingTheirTurn? || s.OweThem? then Failed else s
  {
  }

  /** The machine as the source holds it: a state that each call assigns. */
  class TurnMachine {
    var state: TurnState

    constructor ()
      ensures state == Idle
    {
      state := Idle;
    }

    method Fail() returns (wasLive: bool)
      modifies this
      ensures state == old(state).Fail()
      ensures wasLive == old(state).Live()
    {
      match state {
        case AwaitingTheirTurn(_) => state := Failed; wasLive := true;
        case OweThem(_) => state := Failed; wasLive := true;
        case _ => wasLive := false;
      }
    }

    method OnOutgoing(turn: Turn) returns (r: Ruling)
      modifies this
      ensures r == Outgoing(old(state), turn)
      ensures state == r.Next(old(state))
    {
      match (state, turn) {
        case (Failed, Open(request)) =>
          state := AwaitingTheirTurn(request.id);
          r := Legal(state, Continuing);
        case (Failed, _) => r := Refused(ExchangeFailed);
        case (Idle, Open(request)) =>
          state := AwaitingTheirTurn(request.id);
          r := Legal(state, Continuing);
        case (Idle, _) => r := Refused(NoExchange);
        case (OweThem(outstanding), Continue(response, request)) =>
          if response.id != outstanding { return Refused(WrongResponse); }
          state := AwaitingTheirTurn(request.id);
          r := Legal(state, Continuing);
        case (OweThem(outstanding), Close(response)) =>
          if response.id != outstanding { return Refused(WrongResponse); }
          state := Idle;
          r := Legal(state, Concluded);
        case (OweThem(_), Open(_)) => r := Refused(MustAnswerFirst);
        case (AwaitingTheirTurn(_), _) => r := Refused(NotOurMove);
      }
    }

    method OnIncoming(turn: Turn) returns (r: Ruling)
      modifies this
      ensures r == Incoming(old(state), turn)
      ensures state == r.Next(old(state))
    {
      match (state, turn) {
        case (Failed, Open(request)) =>
          state := OweThem(request.id);
          r := Legal(state, Continuing);
        case (Failed, _) => r := Refused(ExchangeFailed);
        case (Idle, Open(request)) =>
          state := OweThem(request.id);
          r := Legal(state, Continuing);
        case (Idle, _) => r := Refused(NoExchange);
        case (AwaitingTheirTurn(outstanding), Continue(response, request)) =>
          if response.id != outstanding { return Refused(WrongResponse); }
          state := OweThem(request.id);
          r := Legal(state, Continuing);
        case (AwaitingTheirTurn(outstanding), Close(response)) =>
          if response.id != outstanding { return Refused(WrongResponse); }
          state := Idle;
          r := Legal(state, Concluded);
        case (AwaitingTheirTurn(_), Open(_)) => r := Refused(MustAnswerFirst);
        case (OweThem(_), _) => r := Refused(NotTheirMove);
      }
    }
  }

  /** Does this message start a run of its protocol? */
  predicate Opens(message: Message) {
    match message
    case RequestMessage(_) => true
    case AckMessage(_) => false
    case HarnessMessage(h) => h.Spawn? || h.Stop? || h.Ping?
    case TurnMessage(t) => t.Open?
  }

  /** Does `reply` finish, in one round trip, what `opening` started? */
  predicate Completes(opening: Message, reply: Message) {
    match (opening, reply)
    case (RequestMessage(request), AckMessage(id)) => id == request.id
    case (HarnessMessage(command), HarnessMessage(answer)) =>
      (match (command, answer)
       case (Ping, Pong) => true
       case (Spawn(name), Spawned(spawned)) => name == spawned
       case (Stop(name), Stopped(stopped)) => name == stopped
       case (_, HarnessFailed(_)) => Opens(opening)
       case _ => false)
    case (TurnMessage(Open(request)), TurnMessage(Close(response))) => response.id == request.id
    case _ => false
  }

  /** The same state seen from the other side of the table. */
  function Mirror(s: TurnState): TurnState {
    match s
    case AwaitingTheirTurn(id) => OweThem(id)
    case OweThem(id) => AwaitingTheirTurn(id)
    case _ => s
  }

  /** The machine is symmetric: hearing a turn is the other side saying it. */
  lemma HearingMirrorsSaying(s: TurnState, turn: Turn)
    ensures Incoming(s, turn).Legal? <==> Outgoing(Mirror(s), turn).Legal?
    ensures Mirror(Incoming(s, turn).Next(s)) == Outgoing(Mirror(s), turn).Next(Mirror(s))
    ensures Incoming(s, turn).Refused? && Incoming(s, turn).error != NotTheirMove
      ==> Outgoing(Mirror(s), turn) == Incoming(s, turn)
  {
    match s {
      case AwaitingTheirTurn(id) =>
      case _ =>
    }
  }

  /** The one-round rule agrees with the machine: a pair completes exactly when the opener's machine,
      from either resting state, is back at rest after saying the first turn and hearing the second. */
  lemma CompletesIsOneRound(s: TurnState, opening: Turn, reply: Turn)
    requires !s.Live()
    ensures Completes(TurnMessage(opening), TurnMessage(reply))
      <==> Outgoing(s, opening).Legal? && Incoming(Outgoing(s, opening).next, reply) == Legal(Idle, Concluded)
  {
    match opening {
      case Open(q) => match reply { case Close(_) => case Continue(_, _) => case Open(_) => }
      case _ =>
    }
  }

  /** The reply that one round trip asks for, if it goes well. */
  function Due(opening: Message): Option<Message> {
    match opening
    case RequestMessage(request) => Some(AckMessage(request.id))
    case HarnessMessage(Ping) => Some(HarnessMessage(Pong))
    case HarnessMessage(Spawn(name)) => Some(HarnessMessage(Spawned(name)))
    case HarnessMessage(Stop(name)) => Some(HarnessMessage(Stopped(name)))
    case TurnMessage(Open(request)) => Some(TurnMessage(Close(Response(request.id, []))))
    case _ => None
  }

  /** What opens a run is exactly what a reply can complete; a reply opens none; and but for a report of
      failure, which any command may get, a reply completes one kind of opening alone, the one it names. */
  lemma RepliesNameTheirOpening(opening: Message, other: Message, reply: Message)
    ensures Opens(opening) <==> Due(opening).Some?
    ensures Due(opening).Some? ==> Completes(opening, Due(opening).value)
    ensures Completes(opening, reply) ==> Opens(opening) && !Opens(reply)
    ensures Completes(opening, reply) && Completes(other, reply) ==>
      Due(opening) == Due(other) || (reply.HarnessMessage? && reply.harness.HarnessFailed?)
    ensures opening.HarnessMessage? && Opens(opening) ==>
      forall reason :: Completes(opening, HarnessMessage(HarnessFailed(reason)))
  {
  }
}
