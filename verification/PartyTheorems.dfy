/** The shadows never diverge, and no question is asked twice. */
module PartyTheorems {
  import opened Vocabulary
  import opened Protocol
  import opened Inbounds
  import opened Engine
  import opened Parties

  predicate InStepWith(h: Hosted, peer: Address) {
    h.party.Shadow(peer) == h.actor.Of(peer).state && !h.actor.Of(peer).state.OweThem?
  }

  /** The party's copy of every conversation's machine is the actor's own, and the actor owes no one. */
  ghost predicate InStep(h: Hosted) {
    h.actor.party && forall peer :: InStepWith(h, peer)
  }

  lemma {:induction false} PartyAfterAppend(p: Stock, u: seq<Effect>, v: seq<Effect>)
    ensures PartyAfter(p, u + v) == PartyAfter(PartyAfter(p, u), v)
    decreases |v|
  {
    if v == [] {
      assert u + v == u;
    } else {
      PartyAfterAppend(p, u, v[..|v| - 1]);
      assert (u + v)[..|u + v| - 1] == u + v[..|v| - 1];
    }
  }

  lemma PartyAfterOne(p: Stock, e: Effect)
    ensures PartyAfter(p, [e]) == CalledBack(p, e)
  {
    assert [e][..0] == [];
  }

  lemma {:induction false} QuietEffects(p: Stock, effects: seq<Effect>)
    requires forall e :: e in effects ==> !e.Consulted? && !e.Told?
    ensures PartyAfter(p, effects) == p
  {
    if effects != [] {
      assert effects[|effects| - 1] in effects;
      QuietEffects(p, effects[..|effects| - 1]);
    }
  }

  lemma FailureHeard(p: Stock, a: Actor, peer: Address, cause: FailureCause)
    requires a.party
    ensures PartyAfter(p, FailureEffects(a, peer, cause)) == Abandon(p, peer)
  {
    var told, event := Told(a.address, peer, cause), Emitted(FailureEvent(a.address, peer, cause));
    PartyAfterOne(p, told);
    PartyAfterAppend(p, [told], [event]);
    PartyAfterOne(Abandon(p, peer), event);
  }

  lemma {:induction false} SweepHeard(p: Stock, a: Actor, order: seq<Address>, cause: FailureCause, peer: Address)
    requires a.party
    ensures PartyAfter(p, FailAllEffects(a, order, cause)).Shadow(peer)
      == if peer in order then p.Shadow(peer).Fail() else p.Shadow(peer)
    decreases |order|
  {
    if order != [] {
      var before, last := order[..|order| - 1], order[|order| - 1];
      SweepHeard(p, a, before, cause, peer);
      PartyAfterAppend(p, FailAllEffects(a, before, cause), FailureEffects(a, last, cause));
      FailureHeard(PartyAfter(p, FailAllEffects(a, before, cause)), a, last, cause);
      TurnsTouchOneShadow(PartyAfter(p, FailAllEffects(a, before, cause)), last,
                          Open(Request(RequestId([]), [])), peer);
      assert peer in order <==> peer in before || peer == last;
    }
  }

  lemma ReceiptHeard(p: Stock, a: Actor, peer: Address, turn: Turn, ch: Choices)
    requires a.party
    ensures PartyAfter(p, ReceiptEffects(a, peer, turn, ch)) == Answer(p, peer, turn).0
  {
    var before := [Heard(a.address, peer, turn)]
      + (if turn.Posed().Some? then [SendTried(a.address, peer, AckMessage(turn.Posed().value), ch.receiptOk)] else []);
    assert ReceiptEffects(a, peer, turn, ch) == before + [Consulted(a.address, peer, turn)];
    PartyAfterAppend(p, before, [Consulted(a.address, peer, turn)]);
    QuietEffects(p, before);
    PartyAfterOne(p, Consulted(a.address, peer, turn));
  }

  lemma {:induction false} ReplyHeard(p: Stock, a: Actor, peer: Address, fate: Fate)
    requires a.party
    ensures PartyAfter(p, ReplyEffects(a, peer, fate))
      == if fate.Misspoken? || fate.Unsent? then Abandon(p, peer) else p
  {
    match fate {
      case Replied(reply) => PartyAfterOne(p, SendTried(a.address, peer, TurnMessage(reply), true));
      case Misspoken => FailureHeard(p, a, peer, IllegalReply);
      case Unsent(reply) =>
        var sent := SendTried(a.address, peer, TurnMessage(reply), false);
        PartyAfterOne(p, sent);
        PartyAfterAppend(p, [sent], FailureEffects(a, peer, SendFailed));
        FailureHeard(p, a, peer, SendFailed);
      case _ =>
    }
  }

  /** What a turn in place leaves of the party: it has answered, and heard of the exchange's end if it ended. */
  lemma {:induction false} PartyHearsTurn(p: Stock, a: Actor, peer: Address, turn: Turn, ch: Choices)
    requires a.party && Incoming(a.Of(peer).state, turn).Legal?
    ensures var fate, q := FateOf(a.Of(peer), true, turn, ch), Answer(p, peer, turn).0;
      PartyAfter(p, HearTurn(a, peer, turn, ch).effects)
        == if fate.Misspoken? || fate.Unsent? then Abandon(q, peer) else q
  {
    var fate := FateOf(a.Of(peer), true, turn, ch);
    var receipt, reply := ReceiptEffects(a, peer, turn, ch), ReplyEffects(a, peer, fate);
    calc {
      PartyAfter(p, HearTurn(a, peer, turn, ch).effects);
      PartyAfter(p, receipt + reply);
      { PartyAfterAppend(p, receipt, reply); }
      PartyAfter(PartyAfter(p, receipt), reply);
      { ReceiptHeard(p, a, peer, turn, ch); }
      PartyAfter(Answer(p, peer, turn).0, reply);
    }
    ReplyHeard(Answer(p, peer, turn).0, a, peer, fate);
  }

  /** A turn is heard alike by the actor's machine and the shadow, and so is the reply; the reply is legal. */
  lemma {:induction false} TurnKeepsInStep(h: Hosted, peer: Address, turn: Turn, ch: Choices, other: Address)
    requires InStep(h) && Incoming(h.actor.Of(peer).state, turn).Legal?
    requires ch.reply == Answer(h.party, peer, turn).1
    ensures !FateOf(h.actor.Of(peer), true, turn, ch).Misspoken?
    ensures var o := HearTurn(h.actor, peer, turn, ch);
      InStepWith(Hosted(o.actor, PartyAfter(h.party, o.effects)), other)
  {
    assert InStepWith(h, peer) && InStepWith(h, other);
    RepliesAreLegal(h.party, peer, turn);
    PartyHearsTurn(h.party, h.actor, peer, turn, ch);
    TurnsTouchOneShadow(h.party, peer, turn, other);
    TurnsTouchOneShadow(Answer(h.party, peer, turn).0, peer, turn, other);
  }

  predicate IllegallyReplied(e: Effect) {
    e.Emitted? && e.event.FailureEvent? && e.event.cause == IllegalReply
  }

  lemma NothingIllegal(a: Actor, peer: Address, turn: Turn, ch: Choices)
    requires !FateOf(a.Of(peer), a.party, turn, ch).Misspoken?
    ensures forall e :: e in HearTurn(a, peer, turn, ch).effects ==> !IllegallyReplied(e)
  {
    var fate := FateOf(a.Of(peer), a.party, turn, ch);
    assert forall e :: e in ReceiptEffects(a, peer, turn, ch) ==> !IllegallyReplied(e);
    assert forall e :: e in ReplyEffects(a, peer, fate) ==> !IllegallyReplied(e);
  }

  lemma DeliveryKeepsInStep(h: Hosted, d: Delivery, ch: Choices)
    requires InStep(h) && PartyReplies(h, Deliver(d, ch))
    ensures InStep(HostedReact(h, Deliver(d, ch)))
    ensures forall e :: e in Handle(h.actor, d, ch).effects ==> !IllegallyReplied(e)
  {
    var a := h.actor;
    if Process(a.allowlist, d).TurnReceived? && Incoming(a.Of(d.from).state, d.message.turn).Legal? {
      HeardTurnKeepsInStep(h, d, ch);
    } else {
      QuietEffects(h.party, Handle(a, d, ch).effects);
      forall peer ensures InStepWith(HostedReact(h, Deliver(d, ch)), peer) { assert InStepWith(h, peer); }
    }
  }

  lemma HeardTurnKeepsInStep(h: Hosted, d: Delivery, ch: Choices)
    requires InStep(h) && PartyReplies(h, Deliver(d, ch))
    requires Process(h.actor.allowlist, d).TurnReceived?
    requires Incoming(h.actor.Of(d.from).state, d.message.turn).Legal?
    ensures InStep(HostedReact(h, Deliver(d, ch)))
    ensures forall e :: e in Handle(h.actor, d, ch).effects ==> !IllegallyReplied(e)
  {
    var a, turn := h.actor, d.message.turn;
    ConsultedIn(a, d.from, turn, ch);
    forall other ensures InStepWith(HostedReact(h, Deliver(d, ch)), other) {
      TurnKeepsInStep(h, d.from, turn, ch, other);
    }
    TurnKeepsInStep(h, d.from, turn, ch, d.from);
    NothingIllegal(a, d.from, turn, ch);
  }

  lemma ConsultedIn(a: Actor, peer: Address, turn: Turn, ch: Choices)
    requires a.party && Incoming(a.Of(peer).state, turn).Legal?
    ensures Consulted(a.address, peer, turn) in HearTurn(a, peer, turn, ch).effects
  {
    var receipt := ReceiptEffects(a, peer, turn, ch);
    assert receipt[|receipt| - 1] == Consulted(a.address, peer, turn);
    assert Consulted(a.address, peer, turn) in receipt;
  }

  lemma {:induction false} SweepBlames(a: Actor, order: seq<Address>, cause: FailureCause)
    requires cause != IllegalReply
    ensures forall e :: e in FailAllEffects(a, order, cause) ==> !IllegallyReplied(e)
    decreases |order|
  {
    if order != [] { SweepBlames(a, order[..|order| - 1], cause); }
  }

  lemma SweepKeepsInStep(h: Hosted, endpoint: EndpointId, order: seq<Address>, cause: FailureCause)
    requires InStep(h) && Lists(order, h.actor.LiveAt(endpoint)) && cause != IllegalReply
    ensures var b := FailAll(h.actor, h.actor.LiveAt(endpoint));
      InStep(Hosted(b, PartyAfter(h.party, FailAllEffects(h.actor, order, cause))))
    ensures forall e :: e in FailAllEffects(h.actor, order, cause) ==> !IllegallyReplied(e)
  {
    SweepBlames(h.actor, order, cause);
    var after := Hosted(FailAll(h.actor, h.actor.LiveAt(endpoint)),
                       PartyAfter(h.party, FailAllEffects(h.actor, order, cause)));
    forall peer ensures InStepWith(after, peer) {
      SweepHeard(h.party, h.actor, order, cause, peer);
      assert InStepWith(h, peer);
      assert peer in order <==> peer in h.actor.LiveAt(endpoint);
    }
  }

  lemma ReactKeepsInStep(h: Hosted, input: Input)
    requires InStep(h) && Enabled(h.actor, input) && PartyReplies(h, input)
    ensures InStep(HostedReact(h, input))
    ensures forall e :: e in React(h.actor, input).effects ==> !IllegallyReplied(e)
  {
    match input {
      case Deliver(d, ch) => DeliveryKeepsInStep(h, d, ch);
      case Elapse(peer, kind) =>
        FailureHeard(h.party, h.actor, peer, DeadlineElapsed(kind));
        forall other ensures InStepWith(HostedReact(h, input), other) {
          TurnsTouchOneShadow(h.party, peer, Open(Request(RequestId([]), [])), other);
          assert InStepWith(h, other) && InStepWith(h, peer);
        }
      case Vanish(e, order) => SweepKeepsInStep(h, e, order, Disconnected);
      case Revoke(e, order) =>
        SweepKeepsInStep(h, e, order, FailureCause.Revoked);
        var swept := Hosted(FailAll(h.actor, h.actor.LiveAt(e)), HostedReact(h, input).party);
        forall peer ensures InStepWith(HostedReact(h, input), peer) { assert InStepWith(swept, peer); }
      case Admit(_) =>
        forall peer ensures InStepWith(HostedReact(h, input), peer) { assert InStepWith(h, peer); }
    }
  }

  /** Over every run of an actor with a stock party behind it: each shadow equals the actor's own machine,
      so nothing the party is consulted on is refused by it; no illegal reply is ever reported; and no
      conversation is left owing an answer. */
  lemma {:induction false} ShadowsNeverDiverge(h: Hosted, inputs: seq<Input>)
    requires New(h) && HostedRun(h, inputs)
    ensures InStep(HostedAfter(h, inputs))
    ensures HostedAfter(h, inputs).actor == Engine.After(h.actor, inputs)
    ensures forall e :: e in Trace(h.actor, inputs) ==> !IllegallyReplied(e)
    decreases |inputs|
  {
    if inputs != [] {
      var before, last := inputs[..|inputs| - 1], inputs[|inputs| - 1];
      ShadowsNeverDiverge(h, before);
      ReactKeepsInStep(HostedAfter(h, before), last);
      var u, v := Trace(h.actor, before), React(Engine.After(h.actor, before), last).effects;
      assert Trace(h.actor, inputs) == u + v;
      forall e | e in u + v ensures !IllegallyReplied(e) { assert e in u || e in v; }
    }
  }

  // ---- No question is asked twice ----

  /** The ids of the questions the party asked `peer`, in order, however it was called back. */
  function Asked(p: Stock, effects: seq<Effect>, peer: Address): seq<RequestId> {
    if effects == [] then []
    else
      var before, last := effects[..|effects| - 1], effects[|effects| - 1];
      Asked(p, before, peer)
      + if last.Consulted? && last.peer == peer then Question(Answer(PartyAfter(p, before), peer, last.turn).1) else []
  }

  function Question(reply: Option<Turn>): seq<RequestId> {
    if reply.Some? && reply.value.Posed().Some? then [reply.value.Posed().value] else []
  }

  /** The `k`-th id a countdown uses: the byte counter starts at 100 and wraps. */
  function KthId(k: nat): RequestId { IdOf(((100 + k) % 256) as u8) }

  /** What is left to ask and what has been asked add up. */
  ghost predicate Tallied(c: Countdown, rounds: u8, asked: seq<RequestId>) {
    && |asked| + c.remaining as int == rounds as int
    && c.nextId as int == (100 + |asked|) % 256
    && forall i :: 0 <= i < |asked| ==> asked[i] == KthId(i)
  }

  lemma TurnKeepsTally(c: Countdown, rounds: u8, asked: seq<RequestId>, turn: Turn)
    requires Tallied(c, rounds, asked)
    ensures Tallied(CountdownReply(c, turn).0, rounds, asked + Question(CountdownReply(c, turn).1))
  {
    assert IdOf(c.nextId) == KthId(|asked|);
    var (d, reply) := CountdownReply(c, turn);
    assert reply.Some? && reply.value.Posed().Some? ==>
      d.nextId == Increment(c.nextId) && d.remaining == c.remaining - 1;
  }

  lemma {:induction false} AlwaysTallied(rounds: u8, effects: seq<Effect>, peer: Address)
    ensures var p := PartyAfter(Counting(rounds, map[]), effects);
      p.Counting? && p.rounds == rounds
      && Tallied(p.Count(peer), rounds, Asked(Counting(rounds, map[]), effects, peer))
    decreases |effects|
  {
    if effects != [] {
      var before, last := effects[..|effects| - 1], effects[|effects| - 1];
      AlwaysTallied(rounds, before, peer);
      var p := PartyAfter(Counting(rounds, map[]), before);
      if last.Consulted? && last.peer == peer {
        TurnKeepsTally(p.Count(peer), rounds, Asked(Counting(rounds, map[]), before, peer), last.turn);
      }
    }
  }

  lemma IdsTellNumbersApart(i: nat, j: nat)
    requires i < j < 256
    ensures KthId(i) != KthId(j)
  {
    var b, c := ((100 + i) % 256) as u8, ((100 + j) % 256) as u8;
    assert IdOf(b).bytes[0] == b && IdOf(c).bytes[0] == c;
    assert b != c;
  }

  /** However it is called back, a countdown never asks one peer two questions with one id, for all that
      its byte counter wraps: it asks at most 255. */
  lemma NoQuestionTwice(rounds: u8, effects: seq<Effect>, peer: Address, i: nat, j: nat)
    requires i < j < |Asked(Counting(rounds, map[]), effects, peer)|
    ensures var asked := Asked(Counting(rounds, map[]), effects, peer);
      asked[i] != asked[j] && |asked| <= rounds as int
  {
    AlwaysTallied(rounds, effects, peer);
    IdsTellNumbersApart(i, j);
  }

  // ---- What the stock parties say ----

  /** A stock party says nothing to a turn that is out of place, or to a close; and only a turn in place moves
      its shadow. */
  lemma SilentParties(p: Stock, from: Address, turn: Turn)
    requires turn.Close? || !TheirsToSay(p.Shadow(from), turn)
    ensures var (q, reply) := Parties.Answer(p, from, turn);
      reply == None && q.Shadow(from) == if TheirsToSay(p.Shadow(from), turn) then Idle else p.Shadow(from)
  {
    RulingsOnTheirs(p.Shadow(from), turn);
    match p { case Echo(_) => case Counting(_, _) => }
  }

  /** Echo answers every question in place with the very body that was asked, and is done. */
  lemma EchoSaysItBack(p: Stock, from: Address, turn: Turn)
    requires p.Echo? && !turn.Close? && TheirsToSay(p.Shadow(from), turn)
    ensures var (q, reply) := Parties.Answer(p, from, turn);
      reply == Some(Close(Response(turn.request.id, turn.request.body))) && q.Shadow(from) == Idle
  {
    RulingsOnTheirs(p.Shadow(from), turn);
  }

  /** A countdown that has asked a peer `k` questions answers the next one with the body that was asked: below
      its number of rounds it asks in turn under the id of sixteen bytes `100 + k`, with what is left to ask
      after this as its body, and else it closes. It does so however it was called back before. */
  lemma CountdownSaysItBack(rounds: u8, effects: seq<Effect>, from: Address, turn: Turn)
    requires !turn.Close?
    requires TheirsToSay(PartyAfter(Counting(rounds, map[]), effects).Shadow(from), turn)
    ensures var k := |Asked(Counting(rounds, map[]), effects, from)|;
      var reply := Parties.Answer(PartyAfter(Counting(rounds, map[]), effects), from, turn).1;
      var response := Response(turn.request.id, turn.request.body);
      && k <= rounds as int
      && (k == rounds as int ==> reply == Some(Close(response)))
      && (k < rounds as int ==>
            var id := seq(16, _ => ((100 + k) % 256) as u8);
            reply == Some(Continue(response, Request(RequestId(id), [(rounds as int - k - 1) as u8]))))
  {
    AlwaysTallied(rounds, effects, from);
    var p, asked := PartyAfter(Counting(rounds, map[]), effects), Asked(Counting(rounds, map[]), effects, from);
    RulingsOnTheirs(p.Shadow(from), turn);
    assert p.Count(from).nextId == ((100 + |asked|) % 256) as u8;
    assert IdOf(p.Count(from).nextId).bytes == seq(16, _ => ((100 + |asked|) % 256) as u8);
  }
}
