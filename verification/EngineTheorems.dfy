/** What holds of one actor over every run, whichever runtime hosts it. */
module EngineTheorems {
  import opened Vocabulary
  import opened Protocol
  import opened Inbounds
  import opened Engine

  // ---- Nothing waits un-deadlined; live implies admitted ----

  /** A turn is awaited exactly when a turn wait is armed; an ack wait names the open question. */
  predicate WaitsMatch(c: Conv) {
    (c.turn.Some? <==> c.state.AwaitingTheirTurn?)
    && (c.ack.Some? ==> c.state == AwaitingTheirTurn(c.ack.value.id))
  }

  predicate Sound(a: Actor) {
    forall p :: p in a.conversations ==>
      WaitsMatch(a.conversations[p])
      && (a.conversations[p].state.Live() ==> p.endpoint in a.allowlist)
  }

  lemma ConvAfterMatches(c: Conv, party: bool, turn: Turn, ch: Choices)
    requires WaitsMatch(c)
    ensures WaitsMatch(ConvAfter(c, turn, FateOf(c, party, turn, ch), ch))
  {
  }

  lemma DeliveryKeepsSound(a: Actor, d: Delivery, ch: Choices)
    requires Sound(a)
    ensures Sound(Handle(a, d, ch).actor)
  {
    if Process(a.allowlist, d).TurnReceived? {
      ConvAfterMatches(a.Of(d.from), a.party, d.message.turn, ch);
    }
  }

  lemma ReactKeepsSound(a: Actor, input: Input)
    requires Sound(a) && Enabled(a, input)
    ensures Sound(React(a, input).actor)
  {
    match input {
      case Deliver(d, ch) => DeliveryKeepsSound(a, d, ch);
      case _ =>
    }
  }

  /** In every reachable state of every actor: `AwaitingTheirTurn` holds exactly when a turn wait is
      armed, an armed ack wait names the outstanding request, no wait is armed in any other state,
      and every peer of a live exchange is on the allowlist. */
  lemma {:induction false} AlwaysSound(a: Actor, inputs: seq<Input>)
    requires a.conversations == map[] && Run(a, inputs)
    ensures Sound(After(a, inputs))
    decreases |inputs|
  {
    if inputs != [] {
      AlwaysSound(a, inputs[..|inputs| - 1]);
      ReactKeepsSound(After(a, inputs[..|inputs| - 1]), inputs[|inputs| - 1]);
    }
  }

  /** Hence a deadline, whenever it may elapse at all, fails a live exchange. */
  lemma {:induction false} ElapseFailsALiveExchange(a: Actor, inputs: seq<Input>, peer: Address, kind: DeadlineKind)
    requires a.conversations == map[] && Run(a, inputs)
    requires Enabled(After(a, inputs), Elapse(peer, kind))
    ensures After(a, inputs).Of(peer).state.AwaitingTheirTurn?
    ensures var o := React(After(a, inputs), Elapse(peer, kind));
      o.actor.Of(peer) == Conv(Failed, None, None)
      && o.actor.Live() == After(a, inputs).Live() - {peer}
  {
    AlwaysSound(a, inputs);
  }

  // ---- Revocation cuts a peer off ----

  /** As far as `endpoint` is concerned nothing has moved since `before`. */
  ghost predicate CutOff(before: Actor, now: Actor, endpoint: EndpointId) {
    endpoint !in now.allowlist && now.LiveAt(endpoint) == {}
    && forall p: Address :: p.endpoint == endpoint ==>
         (p in now.conversations <==> p in before.conversations) && now.Of(p) == before.Of(p)
  }

  predicate Concerns(e: Effect, endpoint: EndpointId) {
    match e
    case Heard(_, p, _) => p.endpoint == endpoint
    case Consulted(_, p, _) => p.endpoint == endpoint
    case SendTried(_, p, _, _) => p.endpoint == endpoint
    case Told(_, p, _) => p.endpoint == endpoint
    case Emitted(FailureEvent(_, p, _)) => p.endpoint == endpoint
    case Emitted(DeliveryDenied(p, _)) => p.endpoint == endpoint
    case Emitted(IllegalTurnDropped(p, _, _)) => p.endpoint == endpoint
  }

  lemma {:induction false} SweepConcerns(a: Actor, order: seq<Address>, cause: FailureCause, endpoint: EndpointId)
    requires forall p :: p in order ==> p.endpoint != endpoint
    ensures forall e :: e in FailAllEffects(a, order, cause) ==> !Concerns(e, endpoint)
  {
    if order != [] {
      SweepConcerns(a, order[..|order| - 1], cause, endpoint);
      assert order[|order| - 1] in order;
    }
  }

  lemma DeliveryKeepsCutOff(before: Actor, a: Actor, endpoint: EndpointId, d: Delivery, ch: Choices)
    requires CutOff(before, a, endpoint)
    ensures CutOff(before, Handle(a, d, ch).actor, endpoint)
    ensures d.from.endpoint == endpoint ==> Handle(a, d, ch) == Outcome(a, [Emitted(DeliveryDenied(d.from, a.address))])
  {
    if d.from.endpoint != endpoint {
      var after := Handle(a, d, ch).actor;
      assert forall p: Address :: p != d.from ==>
        (p in after.conversations <==> p in a.conversations) && after.Of(p) == a.Of(p);
    }
  }

  lemma DeliveryConcernsItsSender(a: Actor, endpoint: EndpointId, d: Delivery, ch: Choices)
    requires d.from.endpoint != endpoint
    ensures forall e :: e in Handle(a, d, ch).effects ==> !Concerns(e, endpoint)
  {
    match Process(a.allowlist, d) {
      case TurnReceived(turn, peer, _) =>
        var fate := FateOf(a.Of(peer), a.party, turn, ch);
        assert forall e :: e in ReceiptEffects(a, peer, turn, ch) ==> !Concerns(e, endpoint);
        assert forall e :: e in ReplyEffects(a, peer, fate) ==> !Concerns(e, endpoint);
      case _ =>
    }
  }

  lemma SweepKeepsCutOff(before: Actor, a: Actor, endpoint: EndpointId, swept: EndpointId)
    requires CutOff(before, a, endpoint)
    ensures CutOff(before, FailAll(a, a.LiveAt(swept)), endpoint)
  {
  }

  lemma OthersUnconcerned(a: Actor, endpoint: EndpointId, swept: EndpointId, order: seq<Address>, cause: FailureCause)
    requires a.LiveAt(endpoint) == {} && Lists(order, a.LiveAt(swept))
    ensures forall e :: e in FailAllEffects(a, order, cause) ==> !Concerns(e, endpoint)
  {
    forall p | p in order ensures p.endpoint != endpoint {
      assert p in a.LiveAt(swept);
      assert p !in a.LiveAt(endpoint);
    }
    SweepConcerns(a, order, cause, endpoint);
  }

  lemma ReactKeepsCutOff(before: Actor, a: Actor, endpoint: EndpointId, input: Input)
    requires Sound(a) && CutOff(before, a, endpoint) && Enabled(a, input) && input != Admit(endpoint)
    ensures CutOff(before, React(a, input).actor, endpoint)
  {
    match input {
      case Deliver(d, ch) => DeliveryKeepsCutOff(before, a, endpoint, d, ch);
      case Elapse(peer, kind) =>
        assert WaitsMatch(a.conversations[peer]);
        assert peer.endpoint == endpoint ==> peer in a.LiveAt(endpoint);
      case Vanish(e, order) => SweepKeepsCutOff(before, a, endpoint, e);
      case Revoke(e, order) => SweepKeepsCutOff(before, a, endpoint, e);
      case Admit(_) =>
    }
  }

  lemma {:induction false} CutOffDelivery(before: Actor, a: Actor, endpoint: EndpointId, d: Delivery, ch: Choices)
    requires CutOff(before, a, endpoint)
    ensures Concerning(Handle(a, d, ch).effects, endpoint) == Denials(a.address, [Deliver(d, ch)], endpoint)
  {
    var effects := Handle(a, d, ch).effects;
    assert [Deliver(d, ch)][..0] == [];
    DeliveryKeepsCutOff(before, a, endpoint, d, ch);
    if d.from.endpoint != endpoint {
      DeliveryConcernsItsSender(a, endpoint, d, ch);
      NoneConcerning(effects, endpoint);
    } else {
      assert effects[..0] == [];
    }
  }

  lemma {:induction false} CutOffSweep(a: Actor, endpoint: EndpointId, swept: EndpointId, order: seq<Address>,
                                       cause: FailureCause)
    requires a.LiveAt(endpoint) == {} && Lists(order, a.LiveAt(swept))
    ensures Concerning(FailAllEffects(a, order, cause), endpoint) == []
  {
    OthersUnconcerned(a, endpoint, swept, order, cause);
    NoneConcerning(FailAllEffects(a, order, cause), endpoint);
  }

  lemma {:induction false} CutOffElapse(a: Actor, endpoint: EndpointId, peer: Address, kind: DeadlineKind)
    requires Sound(a) && a.LiveAt(endpoint) == {} && Enabled(a, Elapse(peer, kind))
    ensures Concerning(FailureEffects(a, peer, DeadlineElapsed(kind)), endpoint) == []
  {
    assert WaitsMatch(a.conversations[peer]);
    assert peer.endpoint == endpoint ==> peer in a.LiveAt(endpoint);
    NoneConcerning(FailureEffects(a, peer, DeadlineElapsed(kind)), endpoint);
  }

  lemma {:induction false} CutOffEffects(before: Actor, a: Actor, endpoint: EndpointId, input: Input)
    requires Sound(a) && CutOff(before, a, endpoint) && Enabled(a, input)
    ensures Concerning(React(a, input).effects, endpoint) == Denials(a.address, [input], endpoint)
  {
    assert !input.Deliver? ==> Denials(a.address, [input], endpoint) == [] by { assert [input][..0] == []; }
    match input {
      case Deliver(d, ch) => CutOffDelivery(before, a, endpoint, d, ch);
      case Elapse(peer, kind) => CutOffElapse(a, endpoint, peer, kind);
      case Vanish(e, order) => CutOffSweep(a, endpoint, e, order, Disconnected);
      case Revoke(e, order) => CutOffSweep(a, endpoint, e, order, FailureCause.Revoked);
      case Admit(_) =>
    }
  }

  /** From a revocation until the next admission, whatever happens, no conversation with that
      endpoint changes, and all that concerns it is one denial for each of its deliveries. */
  lemma {:induction false} RevokedUntilAdmitted(a: Actor, endpoint: EndpointId, order: seq<Address>, inputs: seq<Input>)
    requires Sound(a) && Lists(order, a.LiveAt(endpoint))
    requires var revoked := React(a, Revoke(endpoint, order)).actor;
             Run(revoked, inputs) && forall i :: 0 <= i < |inputs| ==> inputs[i] != Admit(endpoint)
    ensures var revoked := React(a, Revoke(endpoint, order)).actor;
      && Sound(After(revoked, inputs))
      && CutOff(revoked, After(revoked, inputs), endpoint)
      && Concerning(Trace(revoked, inputs), endpoint) == Denials(a.address, inputs, endpoint)
    decreases |inputs|
  {
    var revoked := React(a, Revoke(endpoint, order)).actor;
    ReactKeepsSound(a, Revoke(endpoint, order));
    if inputs != [] {
      var before := inputs[..|inputs| - 1];
      var last := inputs[|inputs| - 1];
      RevokedUntilAdmitted(a, endpoint, order, before);
      var now := After(revoked, before);
      AddressStays(revoked, before);
      ReactKeepsSound(now, last);
      ReactKeepsCutOff(revoked, now, endpoint, last);
      CutOffEffects(revoked, now, endpoint, last);
      ConcerningAppend(Trace(revoked, before), React(now, last).effects, endpoint);
      assert Denials(a.address, [last], endpoint) == [] + Denials(a.address, [last], endpoint);
      assert [last][..0] == [];
    }
  }

  lemma {:induction false} AddressStays(a: Actor, inputs: seq<Input>)
    ensures After(a, inputs).address == a.address && After(a, inputs).party == a.party
    decreases |inputs|
  {
    if inputs != [] { AddressStays(a, inputs[..|inputs| - 1]); }
  }

  function Concerning(trace: seq<Effect>, endpoint: EndpointId): seq<Effect> {
    if trace == [] then []
    else
      Concerning(trace[..|trace| - 1], endpoint)
      + if Concerns(trace[|trace| - 1], endpoint) then [trace[|trace| - 1]] else []
  }

  function Denials(local: Address, inputs: seq<Input>, endpoint: EndpointId): seq<Effect> {
    if inputs == [] then []
    else
      var last := inputs[|inputs| - 1];
      Denials(local, inputs[..|inputs| - 1], endpoint)
      + if last.Deliver? && last.delivery.from.endpoint == endpoint
        then [Emitted(DeliveryDenied(last.delivery.from, local))] else []
  }

  lemma {:induction false} ConcerningAppend(u: seq<Effect>, v: seq<Effect>, endpoint: EndpointId)
    ensures Concerning(u + v, endpoint) == Concerning(u, endpoint) + Concerning(v, endpoint)
  {
    if v == [] {
      assert u + v == u;
    } else {
      ConcerningAppend(u, v[..|v| - 1], endpoint);
      assert (u + v)[..|u + v| - 1] == u + v[..|v| - 1];
    }
  }

  lemma {:induction false} NoneConcerning(u: seq<Effect>, endpoint: EndpointId)
    requires forall e :: e in u ==> !Concerns(e, endpoint)
    ensures Concerning(u, endpoint) == []
  {
    if u != [] { NoneConcerning(u[..|u| - 1], endpoint); }
  }

  // ---- Failure is told once ----

  /** Watches one conversation, with `q`, for its failures: whether an opening has been let in since
      the last one, and whether the party has just been told of a failure the observer has yet to see. */
  datatype Monitor = Watching(owed: Option<(Address, FailureCause)>, begun: bool) | Wrong

  /** An opening from `q` that was let in. */
  predicate IsOpening(e: Effect, q: Address) {
    match e
    case Heard(_, p, turn) => p == q && turn.Open?
    case _ => false
  }

  /** Goes wrong when a failure is seen that the party was not told of just before, or the party is
      told of something else than what is seen next, or when `q`'s exchange fails and no opening from `q`
      has been let in since it last failed. */
  function Observe(m: Monitor, e: Effect, q: Address, party: bool): Monitor {
    if m.Wrong? then Wrong
    else
      match e
      case Told(_, p, cause) =>
        if party && m.owed.None? then m.(owed := Some((p, cause))) else Wrong
      case Emitted(FailureEvent(_, p, cause)) =>
        if m.owed != (if party then Some((p, cause)) else None) || (p == q && !m.begun) then Wrong
        else Watching(None, m.begun && p != q)
      case _ =>
        if m.owed.Some? then Wrong else m.(begun := m.begun || IsOpening(e, q))
  }

  function ObserveAll(m: Monitor, trace: seq<Effect>, q: Address, party: bool): Monitor
    decreases |trace|
  {
    if trace == [] then m
    else Observe(ObserveAll(m, trace[..|trace| - 1], q, party), trace[|trace| - 1], q, party)
  }

  lemma {:induction false} ObserveAppend(m: Monitor, u: seq<Effect>, v: seq<Effect>, q: Address, party: bool)
    ensures ObserveAll(m, u + v, q, party) == ObserveAll(ObserveAll(m, u, q, party), v, q, party)
    decreases |v|
  {
    if v == [] {
      assert u + v == u;
    } else {
      ObserveAppend(m, u, v[..|v| - 1], q, party);
      assert (u + v)[..|u + v| - 1] == u + v[..|v| - 1];
    }
  }

  lemma ObserveOne(m: Monitor, e: Effect, q: Address, party: bool)
    ensures ObserveAll(m, [e], q, party) == Observe(m, e, q, party)
  {
    assert [e][..0] == [];
  }

  lemma {:induction false} ObserveNeutral(m: Monitor, e: Effect, v: seq<Effect>, q: Address, party: bool)
    requires Observe(m, e, q, party) == m
    ensures ObserveAll(m, [e] + v, q, party) == ObserveAll(m, v, q, party)
  {
    ObserveAppend(m, [e], v, q, party);
    ObserveOne(m, e, q, party);
  }

  lemma {:induction false} FailureObserved(a: Actor, peer: Address, cause: FailureCause, begun: bool, q: Address)
    requires q == peer ==> begun
    ensures ObserveAll(Watching(None, begun), FailureEffects(a, peer, cause), q, a.party)
      == Watching(None, begun && q != peer)
  {
    var m := Watching(None, begun);
    var told, event := Told(a.address, peer, cause), Emitted(FailureEvent(a.address, peer, cause));
    if a.party {
      ObserveOne(m, told, q, a.party);
      ObserveAppend(m, [told], [event], q, a.party);
      ObserveOne(Observe(m, told, q, a.party), event, q, a.party);
    } else {
      ObserveOne(m, event, q, a.party);
      assert FailureEffects(a, peer, cause) == [event];
    }
  }

  lemma {:induction false} SweepObserved(a: Actor, order: seq<Address>, cause: FailureCause, begun: bool, q: Address)
    requires forall i, j :: 0 <= i < j < |order| ==> order[i] != order[j]
    requires q in order ==> begun
    ensures ObserveAll(Watching(None, begun), FailAllEffects(a, order, cause), q, a.party)
      == Watching(None, begun && q !in order)
    decreases |order|
  {
    if order != [] {
      var before := order[..|order| - 1];
      var last := order[|order| - 1];
      assert q in order <==> q in before || q == last;
      assert last !in before;
      SweepObserved(a, before, cause, begun, q);
      ObserveAppend(Watching(None, begun), FailAllEffects(a, before, cause), FailureEffects(a, last, cause),
                    q, a.party);
      FailureObserved(a, last, cause, begun && q !in before, q);
    }
  }

  predicate Neutral(e: Effect, q: Address) {
    !e.Told? && !(e.Emitted? && e.event.FailureEvent?) && !IsOpening(e, q)
  }

  lemma {:induction false} NeutralObserved(begun: bool, u: seq<Effect>, q: Address, party: bool)
    requires forall e :: e in u ==> Neutral(e, q)
    ensures ObserveAll(Watching(None, begun), u, q, party) == Watching(None, begun)
    decreases |u|
  {
    if u != [] {
      assert u[|u| - 1] in u;
      NeutralObserved(begun, u[..|u| - 1], q, party);
    }
  }

  lemma ReceiptObserved(a: Actor, peer: Address, turn: Turn, ch: Choices, begun: bool, q: Address)
    ensures ObserveAll(Watching(None, begun), ReceiptEffects(a, peer, turn, ch), q, a.party)
      == Watching(None, begun || (q == peer && turn.Open?))
  {
    var heard := Heard(a.address, peer, turn);
    var rest :=
      (if turn.Posed().Some? then
         [SendTried(a.address, peer, AckMessage(turn.Posed().value), ch.receiptOk)] else [])
      + (if a.party then [Consulted(a.address, peer, turn)] else []);
    assert ReceiptEffects(a, peer, turn, ch) == [heard] + rest;
    ObserveOne(Watching(None, begun), heard, q, a.party);
    ObserveAppend(Watching(None, begun), [heard], rest, q, a.party);
    NeutralObserved(begun || (q == peer && turn.Open?), rest, q, a.party);
  }

  /** Whether an opening has been let in since the last failure, after a reply of this fate. */
  predicate OpenedAfter(begun: bool, fate: Fate) {
    begun && !fate.Misspoken? && !fate.Unsent?
  }

  lemma {:induction false} NoFailureObserved(a: Actor, peer: Address, fate: Fate, begun: bool, q: Address)
    requires !fate.Misspoken? && !fate.Unsent?
    ensures ObserveAll(Watching(None, begun), ReplyEffects(a, peer, fate), q, a.party) == Watching(None, begun)
  {
    NeutralObserved(begun, ReplyEffects(a, peer, fate), q, a.party);
  }

  lemma {:induction false} RefusalObserved(a: Actor, peer: Address, fate: Fate, begun: bool, q: Address)
    requires fate.Unsent? && (q == peer ==> begun)
    ensures ObserveAll(Watching(None, begun), ReplyEffects(a, peer, fate), q, a.party)
      == Watching(None, begun && q != peer)
  {
    var sent, failed := SendTried(a.address, peer, TurnMessage(fate.reply), false), FailureEffects(a, peer, SendFailed);
    calc {
      ObserveAll(Watching(None, begun), ReplyEffects(a, peer, fate), q, a.party);
      ObserveAll(Watching(None, begun), [sent] + failed, q, a.party);
      { ObserveNeutral(Watching(None, begun), sent, failed, q, a.party); }
      ObserveAll(Watching(None, begun), failed, q, a.party);
      { FailureObserved(a, peer, SendFailed, begun, q); }
      Watching(None, begun && q != peer);
    }
  }

  lemma {:induction false} ReplyObserved(a: Actor, peer: Address, fate: Fate, begun: bool, q: Address)
    requires q == peer ==> begun
    ensures ObserveAll(Watching(None, begun), ReplyEffects(a, peer, fate), q, a.party)
      == Watching(None, if q == peer then OpenedAfter(begun, fate) else begun)
  {
    if fate.Misspoken? {
      FailureObserved(a, peer, IllegalReply, begun, q);
      assert ReplyEffects(a, peer, fate) == FailureEffects(a, peer, IllegalReply);
    } else if fate.Unsent? {
      RefusalObserved(a, peer, fate, begun, q);
    } else {
      NoFailureObserved(a, peer, fate, begun, q);
    }
  }

  /** No exchange under way, and nothing waited for. */
  predicate Resting(c: Conv) { !c.state.Live() && c.ack.None? && c.turn.None? }

  lemma FateFits(c: Conv, party: bool, turn: Turn, ch: Choices, begun: bool)
    requires c.state.Live() ==> begun
    ensures var fate := FateOf(c, party, turn, ch);
      && (fate.Dropped? || begun || turn.Open?)
      && (ConvAfter(c, turn, fate, ch).state.Live() ==> OpenedAfter(begun || (!fate.Dropped? && turn.Open?), fate))
      && (fate.Misspoken? || fate.Unsent? ==> Resting(ConvAfter(c, turn, fate, ch)))
  {
  }

  /** What the monitor makes of a reaction: nothing wrong, nothing owed, and still an opening behind
      every live exchange. */
  ghost predicate ObservedWell(a: Actor, o: Outcome, begun: bool, q: Address) {
    var m := ObserveAll(Watching(None, begun), o.effects, q, a.party);
    m.Watching? && m.owed.None? && (o.actor.Of(q).state.Live() ==> m.begun)
  }

  lemma HearTurnObserved(a: Actor, peer: Address, turn: Turn, ch: Choices, begun: bool, q: Address)
    requires a.Of(q).state.Live() ==> begun
    ensures ObservedWell(a, HearTurn(a, peer, turn, ch), begun, q)
  {
    var m := Watching(None, begun);
    var fate := FateOf(a.Of(peer), a.party, turn, ch);
    if q == peer { FateFits(a.Of(peer), a.party, turn, ch, begun); }
    if fate.Dropped? {
      ObserveOne(m, Emitted(IllegalTurnDropped(peer, a.address, fate.error)), q, a.party);
    } else {
      ReceiptObserved(a, peer, turn, ch, begun, q);
      var mid := begun || (q == peer && turn.Open?);
      ReplyObserved(a, peer, fate, mid, q);
      ObserveAppend(m, ReceiptEffects(a, peer, turn, ch), ReplyEffects(a, peer, fate), q, a.party);
      assert HearTurn(a, peer, turn, ch).effects == ReceiptEffects(a, peer, turn, ch) + ReplyEffects(a, peer, fate);
    }
  }

  lemma HandleObserved(a: Actor, d: Delivery, ch: Choices, begun: bool, q: Address)
    requires a.Of(q).state.Live() ==> begun
    ensures ObservedWell(a, Handle(a, d, ch), begun, q)
  {
    var m := Watching(None, begun);
    match Process(a.allowlist, d) {
      case TurnReceived(turn, peer, _) => HearTurnObserved(a, peer, turn, ch, begun, q);
      case Denied => ObserveOne(m, Emitted(DeliveryDenied(d.from, a.address)), q, a.party);
      case RequestReceived(_, peer, ack) => ObserveOne(m, SendTried(a.address, peer, ack, ch.receiptOk), q, a.party);
      case AckReceived(id) =>
      case HarnessReceived(_, peer) =>
        var effects := HearHarness(a, peer, ch);
        if effects != [] { ObserveOne(m, effects[0], q, a.party); }
    }
  }

  lemma ReactObserved(a: Actor, input: Input, begun: bool, q: Address)
    requires Sound(a) && Enabled(a, input)
    requires a.Of(q).state.Live() ==> begun
    ensures ObservedWell(a, React(a, input), begun, q)
  {
    match input {
      case Deliver(d, ch) => HandleObserved(a, d, ch, begun, q);
      case Elapse(peer, kind) =>
        assert WaitsMatch(a.conversations[peer]);
        FailureObserved(a, peer, DeadlineElapsed(kind), begun, q);
      case Vanish(e, order) =>
        assert q in order ==> q in a.LiveAt(e);
        SweepObserved(a, order, Disconnected, begun, q);
        assert FailAll(a, a.LiveAt(e)).Of(q).state.Live() ==> q !in order;
      case Revoke(e, order) =>
        assert q in order ==> q in a.LiveAt(e);
        SweepObserved(a, order, FailureCause.Revoked, begun, q);
        assert FailAll(a, a.LiveAt(e)).Of(q).state.Live() ==> q !in order;
      case Admit(_) =>
    }
  }

  /** Over every run, for every conversation: each failure the observer sees is the very one the party
      was told of just before (when there is a party), the party is told of no other, and between two
      failures of one conversation there is always an accepted opening. */
  lemma {:induction false} FailureIsToldOnce(a: Actor, inputs: seq<Input>, q: Address)
    requires a.conversations == map[] && Run(a, inputs)
    ensures var m := ObserveAll(Watching(None, false), Trace(a, inputs), q, a.party);
      && m.Watching? && m.owed.None?
      && (After(a, inputs).Of(q).state.Live() ==> m.begun)
    decreases |inputs|
  {
    if inputs != [] {
      var before := inputs[..|inputs| - 1];
      var now := After(a, before);
      FailureIsToldOnce(a, before, q);
      AlwaysSound(a, before);
      AddressStays(a, before);
      var m := ObserveAll(Watching(None, false), Trace(a, before), q, a.party);
      ReactObserved(now, inputs[|inputs| - 1], m.begun, q);
      ObserveAppend(Watching(None, false), Trace(a, before), React(now, inputs[|inputs| - 1]).effects, q, a.party);
    }
  }

  /** The peers whose failure is among the effects. */
  function Failing(effects: seq<Effect>): set<Address> {
    set e | e in effects && e.Emitted? && e.event.FailureEvent? :: e.event.peer
  }

  lemma DeliveryFailsItsSender(a: Actor, d: Delivery, ch: Choices, q: Address)
    requires q in Failing(Handle(a, d, ch).effects)
    ensures q == d.from && Resting(Handle(a, d, ch).actor.Of(q))
  {
    if Process(a.allowlist, d).TurnReceived? {
      var turn := d.message.turn;
      var fate := FateOf(a.Of(q), a.party, turn, ch);
      assert Failing(ReceiptEffects(a, d.from, turn, ch)) == {};
      FateFits(a.Of(d.from), a.party, turn, ch, true);
    }
  }

  /** A failure leaves its conversation without an exchange and without waits. */
  lemma FailureLeavesRest(a: Actor, input: Input, q: Address)
    requires Enabled(a, input)
    requires q in Failing(React(a, input).effects)
    ensures Resting(React(a, input).actor.Of(q))
  {
    match input {
      case Deliver(d, ch) => DeliveryFailsItsSender(a, d, ch, q);
      case Elapse(peer, kind) =>
      case Vanish(e, order) => SweepFailing(a, order, Disconnected);
      case Revoke(e, order) => SweepFailing(a, order, FailureCause.Revoked);
      case Admit(_) =>
    }
  }

  lemma {:induction false} SweepFailing(a: Actor, order: seq<Address>, cause: FailureCause)
    ensures Failing(FailAllEffects(a, order, cause)) == set p | p in order
    decreases |order|
  {
    if order != [] {
      var before := order[..|order| - 1];
      var last := order[|order| - 1];
      SweepFailing(a, before, cause);
      var u, v := FailAllEffects(a, before, cause), FailureEffects(a, last, cause);
      assert Failing(v) == {last} by { assert v[|v| - 1] in v; }
      assert Failing(u + v) == Failing(u) + Failing(v);
    }
  }
}
