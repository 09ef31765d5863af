/** What each delivery does to an actor, read off the message itself. */
module Reactions {
  import opened Vocabulary
  import opened Protocol
  import opened Engine

  /** Only the conversation with `peer` has changed. */
  ghost predicate OnlyWith(a: Actor, b: Actor, peer: Address) {
    && b == a.(conversations := b.conversations)
    && forall p :: p != peer ==> (p in b.conversations <==> p in a.conversations) && b.Of(p) == a.Of(p)
  }

  /** The conversation with `peer` waits for the ack of `id`. */
  predicate AwaitsAck(a: Actor, peer: Address, id: RequestId) {
    peer in a.conversations && a.conversations[peer].ack.Some? && a.conversations[peer].ack.value.id == id
  }

  /** From an endpoint that is not admitted nothing is taken in: the denial is all that happens. */
  lemma StrangersAreDenied(a: Actor, d: Delivery, ch: Choices)
    requires d.from.endpoint !in a.allowlist
    ensures React(a, Deliver(d, ch)) == Outcome(a, [Emitted(DeliveryDenied(d.from, a.address))])
  {
  }

  /** An ack ends the wait that names it, and that wait alone; any other ack does nothing at all. */
  lemma AcksSettleTheirWait(a: Actor, from: Address, to: Address, id: RequestId, ch: Choices)
    requires from.endpoint in a.allowlist
    ensures var o := React(a, Deliver(Delivery(from, to, AckMessage(id)), ch));
      && o.effects == []
      && (!AwaitsAck(a, from, id) ==> o.actor == a)
      && (AwaitsAck(a, from, id) ==>
            OnlyWith(a, o.actor, from) && from in o.actor.conversations
            && o.actor.conversations[from] == a.conversations[from].(ack := None))
  {
    if from in a.conversations && !AwaitsAck(a, from, id) {
      assert a.conversations[from := a.conversations[from]] == a.conversations;
    }
  }

  /** A request is acked under its own id, and that is all. */
  lemma RequestsAreAcked(a: Actor, from: Address, to: Address, request: Request, ch: Choices)
    requires from.endpoint in a.allowlist
    ensures React(a, Deliver(Delivery(from, to, RequestMessage(request)), ch))
      == Outcome(a, [SendTried(a.address, from, AckMessage(request.id), ch.receiptOk)])
  {
  }

  /** One harness message is sent, and that is all. */
  predicate Answers(a: Actor, from: Address, answer: Harness, ok: bool, effects: seq<Effect>) {
    effects == [SendTried(a.address, from, HarnessMessage(answer), ok)]
  }

  /** A harness actor sends the harness's answer, if there is one; any other says that it is none. */
  lemma HarnessIsAnswered(a: Actor, from: Address, to: Address, harness: Harness, ch: Choices)
    requires from.endpoint in a.allowlist
    ensures var o := React(a, Deliver(Delivery(from, to, HarnessMessage(harness)), ch));
      && o.actor == a
      && (!a.harness ==> Answers(a, from, HarnessFailed("not a harness actor"), ch.receiptOk, o.effects))
      && (a.harness ==> forall answer :: ch.harnessReply == Some(answer) ==>
            Answers(a, from, answer, ch.receiptOk, o.effects))
      && (a.harness && ch.harnessReply.None? ==> o.effects == [])
  {
  }

  /** A turn out of place is dropped: its conversation stands, waits and all, and the observer is told why. */
  lemma StrayTurnsAreDropped(a: Actor, from: Address, to: Address, turn: Turn, ch: Choices)
    requires from.endpoint in a.allowlist && !TheirsToSay(a.Of(from).state, turn)
    ensures var o := React(a, Deliver(Delivery(from, to, TurnMessage(turn)), ch));
      && OnlyWith(a, o.actor, from) && o.actor.Of(from) == a.Of(from)
      && o.effects == [Emitted(IllegalTurnDropped(from, a.address, AgainstTheirs(a.Of(from).state, turn)))]
  {
    RulingsOnTheirs(a.Of(from).state, turn);
  }

  /** A turn in place is heard, its question is acked, and the party is asked. */
  function Intake(a: Actor, from: Address, turn: Turn, receiptOk: bool): seq<Effect> {
    var receipt := if turn.Close? then [] else [SendTried(a.address, from, AckMessage(turn.request.id), receiptOk)];
    [Heard(a.address, from, turn)] + receipt + if a.party then [Consulted(a.address, from, turn)] else []
  }

  /** Word of a failure: to the party, then to the observer. */
  function Notice(a: Actor, from: Address, cause: FailureCause): seq<Effect> {
    (if a.party then [Told(a.address, from, cause)] else []) + [Emitted(FailureEvent(a.address, from, cause))]
  }

  /** A turn in place that gets no reply leaves the exchange as heard, with nothing waited for. */
  lemma TurnsAreTakenIn(a: Actor, from: Address, to: Address, turn: Turn, ch: Choices)
    requires from.endpoint in a.allowlist && TheirsToSay(a.Of(from).state, turn)
    requires !a.party || ch.reply.None?
    ensures var o := React(a, Deliver(Delivery(from, to, TurnMessage(turn)), ch));
      && OnlyWith(a, o.actor, from) && o.actor.Of(from) == Conv(OnceHeard(turn), None, None)
      && o.effects == Intake(a, from, turn, ch.receiptOk)
  {
    RulingsOnTheirs(a.Of(from).state, turn);
  }

  /** A reply in place leaves, and the waits it calls for are armed; if the transport will not carry it the
      exchange is over, with nothing waited for. */
  lemma RepliesArmTheirWaits(a: Actor, from: Address, to: Address, turn: Turn, ch: Choices, reply: Turn)
    requires from.endpoint in a.allowlist && TheirsToSay(a.Of(from).state, turn)
    requires a.party && ch.reply == Some(reply) && OursToSay(OnceHeard(turn), reply)
    ensures var o := React(a, Deliver(Delivery(from, to, TurnMessage(turn)), ch));
      var c, said := o.actor.Of(from), SendTried(a.address, from, TurnMessage(reply), ch.replyOk);
      && OnlyWith(a, o.actor, from)
      && (ch.replyOk ==> o.effects == Intake(a, from, turn, ch.receiptOk) + [said])
      && (!ch.replyOk ==> o.effects == Intake(a, from, turn, ch.receiptOk) + [said] + Notice(a, from, SendFailed))
      && (ch.replyOk && !reply.Close? ==>
            c == Conv(OnceSaid(reply), Some(Wait(reply.request.id, ch.ackStamp)), Some(ch.turnStamp)))
      && (reply.Close? ==> c == Conv(Idle, None, None))
      && (!ch.replyOk && !reply.Close? ==> c == Conv(Failed, None, None))
  {
    RulingsOnTheirs(a.Of(from).state, turn);
    RulingsOnOurs(OnceHeard(turn), reply);
    var o := React(a, Deliver(Delivery(from, to, TurnMessage(turn)), ch));
    assert ReceiptEffects(a, from, turn, ch) == Intake(a, from, turn, ch.receiptOk);
    if !ch.replyOk {
      var unsent := [SendTried(a.address, from, TurnMessage(reply), false)] + Notice(a, from, SendFailed);
      assert o.effects == Intake(a, from, turn, ch.receiptOk) + unsent;
    }
  }

  /** A reply out of place is never sent: it is the failure of the exchange, if one is still live. */
  lemma StrayRepliesFailTheExchange(a: Actor, from: Address, to: Address, turn: Turn, ch: Choices, reply: Turn)
    requires from.endpoint in a.allowlist && TheirsToSay(a.Of(from).state, turn)
    requires a.party && ch.reply == Some(reply) && !OursToSay(OnceHeard(turn), reply)
    ensures var o := React(a, Deliver(Delivery(from, to, TurnMessage(turn)), ch));
      && OnlyWith(a, o.actor, from)
      && o.actor.Of(from) == Conv(if turn.Close? then Idle else Failed, None, None)
      && o.effects == Intake(a, from, turn, ch.receiptOk) + Notice(a, from, IllegalReply)
  {
    RulingsOnTheirs(a.Of(from).state, turn);
    RulingsOnOurs(OnceHeard(turn), reply);
    assert ReceiptEffects(a, from, turn, ch) == Intake(a, from, turn, ch.receiptOk);
  }

  /** An exchange is under way with `peer`. */
  predicate UnderWay(a: Actor, peer: Address) {
    peer in a.conversations
    && (a.conversations[peer].state.AwaitingTheirTurn? || a.conversations[peer].state.OweThem?)
  }

  /** The exchanges that news of an endpoint is about. */
  lemma NewsConcerns(a: Actor, endpoint: EndpointId, peer: Address)
    ensures peer in a.LiveAt(endpoint) <==> UnderWay(a, peer) && peer.endpoint == endpoint
    ensures peer in a.Live() <==> UnderWay(a, peer)
  {
  }

  /** News of an endpoint ends every exchange under way there, and no other. */
  lemma NewsEndsWhatIsThere(a: Actor, input: Input, peer: Address)
    requires input.Vanish? || input.Revoke?
    ensures var b := React(a, input).actor;
      && b == a.(allowlist := b.allowlist, conversations := b.conversations)
      && b.allowlist == (if input.Revoke? then a.allowlist - {input.endpoint} else a.allowlist)
      && (peer in b.conversations <==> peer in a.conversations)
      && b.Of(peer) == if UnderWay(a, peer) && peer.endpoint == input.endpoint then Conv(Failed, None, None)
                       else a.Of(peer)
  {
    VerdictOfDeath(a.Of(peer).state);
  }

  /** An elapsed wait ends its own exchange, and no other. */
  lemma ElapsedWaitsEndTheirExchange(a: Actor, peer: Address, kind: DeadlineKind)
    requires UnderWay(a, peer)
    ensures var o := React(a, Elapse(peer, kind));
      && OnlyWith(a, o.actor, peer) && o.actor.Of(peer) == Conv(Failed, None, None)
      && o.effects == Notice(a, peer, DeadlineElapsed(kind))
  {
  }

  /** Whoever is admitted is let in from then on, and nobody else changes. */
  lemma AdmittedAreLetIn(a: Actor, endpoint: EndpointId, d: Delivery, ch: Choices)
    ensures var o := React(a, Admit(endpoint));
      && o == Outcome(a.(allowlist := o.actor.allowlist), [])
      && (forall e :: e in o.actor.allowlist <==> e in a.allowlist || e == endpoint)
      && (d.from.endpoint == endpoint ==>
            Emitted(DeliveryDenied(d.from, a.address)) !in React(o.actor, Deliver(d, ch)).effects)
  {
    var b := React(a, Admit(endpoint)).actor;
    if d.from.endpoint in b.allowlist && d.message.TurnMessage? {
      var fate := FateOf(b.Of(d.from), b.party, d.message.turn, ch);
      assert Emitted(DeliveryDenied(d.from, a.address)) !in ReceiptEffects(b, d.from, d.message.turn, ch);
      assert Emitted(DeliveryDenied(d.from, a.address)) !in ReplyEffects(b, d.from, fate);
    }
  }

  /** The actor has sent `reply`, which asks, in answer to a turn just delivered. */
  ghost predicate Replies(a: Actor, input: Input, peer: Address, reply: Turn, effects: seq<Effect>) {
    && input.Deliver? && input.delivery.from == peer && input.choices.reply == Some(reply) && !reply.Close?
    && SendTried(a.address, peer, TurnMessage(reply), true) in effects
  }

  /** The turn awaited of `peer` is awaited as before, whether or not the ack has come in. */
  predicate StillWaits(before: Conv, after: Conv) {
    after == before || after == before.(ack := None)
  }

  /** A turn is awaited only if it was before, or because a reply that asks has just been sent. */
  lemma {:induction false} WaitsComeOfReplies(a: Actor, input: Input, peer: Address)
    requires React(a, input).actor.Of(peer).turn.Some?
    ensures var o := React(a, input);
      || StillWaits(a.Of(peer), o.actor.Of(peer))
      || (input.Deliver? && input.choices.reply.Some?
          && var reply, ch := input.choices.reply.value, input.choices;
             && Replies(a, input, peer, reply, o.effects)
             && o.actor.Of(peer) == Conv(AwaitingTheirTurn(reply.request.id),
                                         Some(Wait(reply.request.id, ch.ackStamp)), Some(ch.turnStamp)))
  {
    if input.Deliver? && input.delivery.from == peer && peer.endpoint in a.allowlist
       && input.delivery.message.TurnMessage? && TheirsToSay(a.Of(peer).state, input.delivery.message.turn) {
      TurnWaitsComeOfReplies(a, input, peer, input.delivery.message.turn);
    } else if input.Deliver? && input.delivery.message.TurnMessage? {
      RulingsOnTheirs(a.Of(peer).state, input.delivery.message.turn);
    }
  }

  lemma {:induction false} TurnWaitsComeOfReplies(a: Actor, input: Input, peer: Address, turn: Turn)
    requires input.Deliver? && peer.endpoint in a.allowlist && TheirsToSay(a.Of(peer).state, turn)
    requires input.delivery.from == peer && input.delivery.message == TurnMessage(turn)
    requires React(a, input).actor.Of(peer).turn.Some?
    ensures var o, ch := React(a, input), input.choices;
      && ch.reply.Some? && Replies(a, input, peer, ch.reply.value, o.effects)
      && var asked := ch.reply.value.request.id;
         o.actor.Of(peer) == Conv(AwaitingTheirTurn(asked), Some(Wait(asked, ch.ackStamp)), Some(ch.turnStamp))
  {
    var ch, to := input.choices, input.delivery.to;
    assert input == Deliver(Delivery(peer, to, TurnMessage(turn)), ch);
    if !a.party || ch.reply.None? {
      TurnsAreTakenIn(a, peer, to, turn, ch);
    } else if OursToSay(OnceHeard(turn), ch.reply.value) {
      RepliesArmTheirWaits(a, peer, to, turn, ch, ch.reply.value);
    } else {
      StrayRepliesFailTheExchange(a, peer, to, turn, ch, ch.reply.value);
    }
  }
}
