/** What one actor does with each thing that can happen to it, whichever runtime hosts it.

    Both runtimes keep, for every peer, the turn machine's state and the waits that are armed. An armed
    wait carries a stamp: the instant it falls due in the reference runtime, the number of the timer task
    that guards it in the Kameo host. */
module Engine {
  import opened Vocabulary
  import opened Protocol
  import opened Inbounds

  datatype Wait = Wait(id: RequestId, stamp: nat)

  /** One conversation: the turn machine, the delivery ack owed, and the peer's turn awaited. */
  datatype Conv = Conv(state: TurnState, ack: Option<Wait>, turn: Option<nat>)

  const QUIET := Conv(Idle, None, None)

  /** A local operational event, for the observer. */
  datatype Event =
    | FailureEvent(local: Address, peer: Address, cause: FailureCause)
    | DeliveryDenied(from: Address, to: Address)
    | IllegalTurnDropped(from: Address, to: Address, error: TurnError)

  /** Everything an actor does that anybody else can see, in the order it does it, and the turns
      its machine lets in. */
  datatype Effect =
    | Heard(local: Address, peer: Address, turn: Turn)
    | Consulted(local: Address, peer: Address, turn: Turn)
    | SendTried(from: Address, to: Address, message: Message, ok: bool)
    | Told(local: Address, peer: Address, cause: FailureCause)
    | Emitted(event: Event)

  datatype Actor = Actor(
    address: Address, harness: bool, party: bool, deadlines: Deadlines,
    allowlist: set<EndpointId>, conversations: map<Address, Conv>)
  {
    function Of(peer: Address): Conv {
      if peer in conversations then conversations[peer] else QUIET
    }

    function With(peer: Address, c: Conv): Actor {
      this.(conversations := conversations[peer := c])
    }

    /** The peers at `endpoint` with which an exchange is under way. */
    function LiveAt(endpoint: EndpointId): set<Address> {
      set p | p in conversations && p.endpoint == endpoint && conversations[p].state.Live()
    }

    /** Every peer with which an exchange is under way. */
    function Live(): set<Address> {
      set p | p in conversations && conversations[p].state.Live()
    }
  }

  /** What the actor does not decide: whether its sends are accepted, what its party replies, what
      the harness answers, and the stamps its waits get. */
  datatype Choices = Choices(
    receiptOk: bool, reply: Option<Turn>, replyOk: bool, harnessReply: Option<Harness>,
    ackStamp: nat, turnStamp: nat)

  datatype Outcome = Outcome(actor: Actor, effects: seq<Effect>)

  /** A conversation whose exchange has been given up: nothing is waited for. */
  function Ended(c: Conv): Conv { Conv(c.state.Fail(), None, None) }

  function SettleAck(c: Conv, id: RequestId): Conv {
    if c.ack.Some? && c.ack.value.id == id then c.(ack := None) else c
  }

  /** The waits that sending `turn` creates. */
  function Armed(next: TurnState, turn: Turn, ch: Choices): Conv {
    Conv(next,
         if turn.Posed().Some? then Some(Wait(turn.Posed().value, ch.ackStamp)) else None,
         if turn.Close? then None else Some(ch.turnStamp))
  }

  function FailureEffects(a: Actor, peer: Address, cause: FailureCause): seq<Effect> {
    (if a.party then [Told(a.address, peer, cause)] else [])
    + [Emitted(FailureEvent(a.address, peer, cause))]
  }

  function FailOne(a: Actor, peer: Address, cause: FailureCause): Outcome {
    Outcome(if peer in a.conversations then a.With(peer, Ended(a.conversations[peer])) else a,
            FailureEffects(a, peer, cause))
  }

  /** The actor after the exchanges with all of `peers` have been given up. */
  function FailAll(a: Actor, peers: set<Address>): Actor {
    a.(conversations := map p | p in a.conversations ::
         if p in peers then Ended(a.conversations[p]) else a.conversations[p])
  }

  function FailAllEffects(a: Actor, order: seq<Address>, cause: FailureCause): seq<Effect> {
    if order == [] then []
    else FailAllEffects(a, order[..|order| - 1], cause) + FailureEffects(a, order[|order| - 1], cause)
  }

  lemma {:induction false} SameSweepEffects(a: Actor, b: Actor, order: seq<Address>, cause: FailureCause)
    requires a.address == b.address && a.party == b.party
    ensures FailAllEffects(a, order, cause) == FailAllEffects(b, order, cause)
    decreases |order|
  {
    if order != [] { SameSweepEffects(a, b, order[..|order| - 1], cause); }
  }

  /** `order` lists `peers`, each once; a hash map may be walked in any such order. */
  ghost predicate Lists(order: seq<Address>, peers: set<Address>) {
    (forall p :: p in order <==> p in peers)
    && forall i, j :: 0 <= i < j < |order| ==> order[i] != order[j]
  }

  /** How an admitted turn fares: refused by the machine, taken without a reply, replied to, answered
      with an illegal reply, or answered with a reply that the transport would not carry. */
  datatype Fate =
    | Dropped(error: TurnError)
    | Taken
    | Replied(reply: Turn)
    | Misspoken
    | Unsent(reply: Turn)

  /** The fate of a reply, from the state its turn was heard into. */
  function ReplyFate(heard: TurnState, reply: Turn, replyOk: bool): Fate {
    if Outgoing(heard, reply).Refused? then Misspoken
    else if replyOk then Replied(reply)
    else Unsent(reply)
  }

  function FateOf(c: Conv, party: bool, turn: Turn, ch: Choices): Fate {
    var ruling := Incoming(c.state, turn);
    if ruling.Refused? then Dropped(ruling.error)
    else if !party || ch.reply.None? then Taken
    else ReplyFate(ruling.next, ch.reply.value, ch.replyOk)
  }

  /** A heard turn settles every wait; a reply that leaves arms new ones; a failure clears them. */
  function ConvAfterReply(heard: TurnState, fate: Fate, ch: Choices): Conv {
    match fate
    case Replied(reply) => Armed(Outgoing(heard, reply).Next(heard), reply, ch)
    case Misspoken => Conv(heard.Fail(), None, None)
    case Unsent(reply) => Conv(Outgoing(heard, reply).Next(heard).Fail(), None, None)
    case _ => Conv(heard, None, None)
  }

  function ConvAfter(c: Conv, turn: Turn, fate: Fate, ch: Choices): Conv {
    if fate.Dropped? then c else ConvAfterReply(Incoming(c.state, turn).Next(c.state), fate, ch)
  }

  /** Taking a turn in: its receipt is sent before the party is consulted. */
  function ReceiptEffects(a: Actor, peer: Address, turn: Turn, ch: Choices): seq<Effect> {
    [Heard(a.address, peer, turn)]
    + (if turn.Posed().Some? then
         [SendTried(a.address, peer, AckMessage(turn.Posed().value), ch.receiptOk)] else [])
    + (if a.party then [Consulted(a.address, peer, turn)] else [])
  }

  function ReplyEffects(a: Actor, peer: Address, fate: Fate): seq<Effect> {
    match fate
    case Replied(reply) => [SendTried(a.address, peer, TurnMessage(reply), true)]
    case Misspoken => FailureEffects(a, peer, IllegalReply)
    case Unsent(reply) =>
      [SendTried(a.address, peer, TurnMessage(reply), false)] + FailureEffects(a, peer, SendFailed)
    case _ => []
  }

  function HearTurn(a: Actor, peer: Address, turn: Turn, ch: Choices): Outcome {
    var fate := FateOf(a.Of(peer), a.party, turn, ch);
    Outcome(a.With(peer, ConvAfter(a.Of(peer), turn, fate, ch)),
            if fate.Dropped? then [Emitted(IllegalTurnDropped(peer, a.address, fate.error))]
            else ReceiptEffects(a, peer, turn, ch) + ReplyEffects(a, peer, fate))
  }

  function HearHarness(a: Actor, peer: Address, ch: Choices): seq<Effect> {
    if !a.harness then
      [SendTried(a.address, peer, HarnessMessage(HarnessFailed("not a harness actor")), ch.receiptOk)]
    else if ch.harnessReply.Some? then
      [SendTried(a.address, peer, HarnessMessage(ch.harnessReply.value), ch.receiptOk)]
    else []
  }

  function Handle(a: Actor, d: Delivery, ch: Choices): Outcome {
    match Process(a.allowlist, d)
    case Denied => Outcome(a, [Emitted(DeliveryDenied(d.from, a.address))])
    case RequestReceived(_, peer, ack) => Outcome(a, [SendTried(a.address, peer, ack, ch.receiptOk)])
    case AckReceived(id) =>
      Outcome(if d.from in a.conversations then a.With(d.from, SettleAck(a.conversations[d.from], id)) else a, [])
    case HarnessReceived(_, peer) => Outcome(a, HearHarness(a, peer, ch))
    case TurnReceived(turn, peer, _) => HearTurn(a, peer, turn, ch)
  }

  lemma WithTwice(a: Actor, peer: Address, c: Conv, d: Conv)
    ensures a.With(peer, c).With(peer, d) == a.With(peer, d)
  {
    assert a.conversations[peer := c][peer := d] == a.conversations[peer := d];
  }

  /** Taking a turn, stage by stage: the machine, then the receipt, then the party's reply. */
  lemma HearTurnByStages(a: Actor, peer: Address, turn: Turn, ch: Choices, log: seq<Effect>)
    requires Incoming(a.Of(peer).state, turn).Legal?
    ensures var heard := Incoming(a.Of(peer).state, turn).next;
      var m := a.With(peer, Conv(heard, None, None));
      var fate := if a.party && ch.reply.Some? then ReplyFate(heard, ch.reply.value, ch.replyOk) else Taken;
      && FateOf(a.Of(peer), a.party, turn, ch) == fate
      && HearTurn(a, peer, turn, ch).actor == m.With(peer, ConvAfterReply(heard, fate, ch))
      && log + HearTurn(a, peer, turn, ch).effects
           == log + ReceiptEffects(a, peer, turn, ch) + ReplyEffects(m, peer, fate)
  {
    var heard := Incoming(a.Of(peer).state, turn).next;
    WithTwice(a, peer, Conv(heard, None, None), ConvAfter(a.Of(peer), turn, FateOf(a.Of(peer), a.party, turn, ch), ch));
  }

  /** Something that happens to the actor. */
  datatype Input =
    | Deliver(delivery: Delivery, choices: Choices)
    | Elapse(peer: Address, kind: DeadlineKind)
    | Vanish(endpoint: EndpointId, order: seq<Address>)
    | Revoke(endpoint: EndpointId, order: seq<Address>)
    | Admit(endpoint: EndpointId)

  predicate IsArmed(c: Conv, kind: DeadlineKind) {
    if kind.AckDeadline? then c.ack.Some? else c.turn.Some?
  }

  ghost predicate Enabled(a: Actor, input: Input) {
    match input
    case Deliver(_, _) => true
    case Elapse(peer, kind) => peer in a.conversations && IsArmed(a.conversations[peer], kind)
    case Vanish(e, order) => Lists(order, a.LiveAt(e))
    case Revoke(e, order) => Lists(order, a.LiveAt(e))
    case Admit(_) => true
  }

  function React(a: Actor, input: Input): Outcome {
    match input
    case Deliver(d, ch) => Handle(a, d, ch)
    case Elapse(peer, kind) => FailOne(a, peer, DeadlineElapsed(kind))
    case Vanish(e, order) => Outcome(FailAll(a, a.LiveAt(e)), FailAllEffects(a, order, Disconnected))
    case Revoke(e, order) =>
      Outcome(FailAll(a, a.LiveAt(e)).(allowlist := a.allowlist - {e}), FailAllEffects(a, order, FailureCause.Revoked))
    case Admit(e) => Outcome(a.(allowlist := a.allowlist + {e}), [])
  }

  /** A run: what happens is enabled when it happens. */
  ghost predicate Run(a: Actor, inputs: seq<Input>)
    decreases |inputs|
  {
    inputs == [] || (Run(a, inputs[..|inputs| - 1])
                     && Enabled(After(a, inputs[..|inputs| - 1]), inputs[|inputs| - 1]))
  }

  function After(a: Actor, inputs: seq<Input>): Actor
    decreases |inputs|
  {
    if inputs == [] then a else React(After(a, inputs[..|inputs| - 1]), inputs[|inputs| - 1]).actor
  }

  function Trace(a: Actor, inputs: seq<Input>): seq<Effect>
    decreases |inputs|
  {
    if inputs == [] then []
    else
      Trace(a, inputs[..|inputs| - 1])
      + React(After(a, inputs[..|inputs| - 1]), inputs[|inputs| - 1]).effects
  }
}
