/** One step of the reference runtime, spelled out: which of the things at hand it deals with, what becomes
    of the actor, and what the caller is told. Together the lemmas cover every step. */
module LocalSteps {
  import opened Vocabulary
  import opened Protocol
  import opened Engine
  import opened EngineTheorems
  import opened Reactions
  import opened Waits
  import opened LocalRuntimes
  import opened LocalRuntimeTheorems

  lemma {:induction false} SweepSays(a: Actor, order: seq<Address>, cause: FailureCause)
    ensures forall p :: Emitted(FailureEvent(a.address, p, cause)) in FailAllEffects(a, order, cause) <==> p in order
    ensures forall x :: x in FailAllEffects(a, order, cause) ==>
      exists p :: p in order && (x == Told(a.address, p, cause) || x == Emitted(FailureEvent(a.address, p, cause)))
    decreases |order|
  {
    if order != [] {
      var before, last := order[..|order| - 1], order[|order| - 1];
      SweepSays(a, before, cause);
      var u, v := FailAllEffects(a, before, cause), FailureEffects(a, last, cause);
      assert v[|v| - 1] in v && last in order;
      forall p ensures Emitted(FailureEvent(a.address, p, cause)) in u + v <==> p in order {
        assert p in order <==> p in before || p == last;
      }
    }
  }

  /** Each exchange that was under way at the endpoint has failed, with nothing waited for; nothing else of
      the actor's has changed. */
  ghost predicate GaveUp(a: Actor, b: Actor, endpoint: EndpointId) {
    && b == a.(conversations := b.conversations) && b.conversations.Keys == a.conversations.Keys
    && b.LiveAt(endpoint) == {}
    && forall p :: p in a.conversations ==>
         b.conversations[p] == if p in a.LiveAt(endpoint) then Conv(Failed, None, None) else a.conversations[p]
  }

  /** The party and the observer have been told that those exchanges were disconnected, and nothing else. */
  ghost predicate Mourned(a: Actor, endpoint: EndpointId, effects: seq<Effect>) {
    && (forall p :: Emitted(FailureEvent(a.address, p, Disconnected)) in effects <==> p in a.LiveAt(endpoint))
    && (forall x :: x in effects ==>
          (x.Told? || (x.Emitted? && x.event.FailureEvent?))
          && exists p :: p in a.LiveAt(endpoint)
               && (x == Told(a.address, p, Disconnected) || x == Emitted(FailureEvent(a.address, p, Disconnected))))
    && |effects| == |a.LiveAt(endpoint)| * (if a.party then 2 else 1)
  }

  lemma {:induction false} VanishMourned(a: Actor, e: EndpointId, order: seq<Address>)
    requires Lists(order, a.LiveAt(e))
    ensures var o := React(a, Vanish(e, order));
      GaveUp(a, o.actor, e) && Mourned(a, e, o.effects) && |order| == |a.LiveAt(e)|
  {
    SweepSays(a, order, Disconnected);
    SweepsAreExact(a, e, order, Vanish(e, order));
  }

  /** `endpoint` is gone: the exchanges that were under way there are given up, and the caller told how many. */
  ghost predicate LostTouch(s: Local, t: Local, name: ActorName, endpoint: EndpointId, r: Stepped, effects: seq<Effect>)
    requires name in s.actors
  {
    var a := s.actors[name];
    && name in t.actors && t.endpoint == s.endpoint && t.actors == s.actors[name := t.actors[name]]
    && GaveUp(a, t.actors[name], endpoint) && Mourned(a, endpoint, effects)
    && r == PeerVanished(endpoint, |a.LiveAt(endpoint)|)
  }

  lemma {:induction false} SweepsLoseTouch(s: Local, t: Local, name: ActorName, e: EndpointId, r: Stepped,
                                           effects: seq<Effect>)
    requires name in s.actors && Swept(s, t, name, e, r, effects)
    ensures t.dead == s.dead && LostTouch(s, t, name, e, r, effects)
  {
    var order :| Lists(order, s.actors[name].LiveAt(e))
      && Became(s, t, name, React(s.actors[name], Vanish(e, order)), effects) && r == PeerVanished(e, |order|);
    VanishMourned(s.actors[name], e, order);
  }

  /** A tombstone is never passed over: as long as one touches an exchange of the actor's, every step of that
      actor gives up all that it has under way with peers at such an endpoint, and does nothing else. */
  lemma TombstonesComeFirst(s: Local, t: Local, name: ActorName, rounds: seq<Round>, ports: Ports, r: Stepped,
                            effects: seq<Effect>)
    returns (e: EndpointId)
    requires name in s.actors && Haunted(s, s.actors[name])
    requires StepsTo(s, t, name, rounds, ports, r, effects)
    ensures e in s.dead && s.actors[name].LiveAt(e) != {}
    ensures t.dead == s.dead && LostTouch(s, t, name, e, r, effects)
  {
    HauntedAreDoomed(s, s.actors[name]);
    var p :| p in Doomed(s.dead, s.actors[name]) && Swept(s, t, name, p.endpoint, r, effects);
    e := p.endpoint;
    SweepsLoseTouch(s, t, name, e, r, effects);
    assert p in s.actors[name].LiveAt(e);
  }

  /** Nothing is queued ahead of the clock. */
  predicate Unhurried(rounds: seq<Round>) { rounds != [] && !rounds[0].death.Died? }

  /** What the race came to, when no tombstone touches the actor. */
  lemma Raced(s: Local, t: Local, name: ActorName, rounds: seq<Round>, ports: Ports, r: Stepped, effects: seq<Effect>)
    returns (due: Option<LocalRuntimes.Due>, w: Waited)
    requires name in s.actors && !Haunted(s, s.actors[name]) && rounds != []
    requires StepsTo(s, t, name, rounds, ports, r, effects)
    ensures IsEarliest(s.actors[name], due) && Verdict(rounds, InstantOf(due), w)
    ensures Resolved(s, t, name, due, w, ports, r, effects)
    ensures SomebodyLate(s.actors[name], rounds[0].now) <==> due.Some? && due.value.at <= rounds[0].now
    ensures var first := rounds[0];
      && (first.death.Died? ==> w == PeerDeath(first.death.endpoint))
      && (!first.death.Died? && SomebodyLate(s.actors[name], first.now) ==> w == DeadlineFirst)
      && (!first.death.Died? && !SomebodyLate(s.actors[name], first.now) && first.inbox.Arrived?
          ==> w == Arrival(first.inbox.delivery))
      && (!first.death.Died? && !SomebodyLate(s.actors[name], first.now) && first.inbox.Closed? ==> w == InboxClosed)
  {
    HauntedAreDoomed(s, s.actors[name]);
    due, w :| IsEarliest(s.actors[name], due) && Verdict(rounds, InstantOf(due), w)
      && Resolved(s, t, name, due, w, ports, r, effects);
    LateIsOverdue(s.actors[name], due, rounds[0].now);
    FirstRoundDecides(rounds, InstantOf(due), w);
  }

  /** Next, news of a death: it is remembered, and acted on at once. */
  lemma DeathsComeNext(s: Local, t: Local, name: ActorName, rounds: seq<Round>, ports: Ports, r: Stepped,
                       effects: seq<Effect>)
    requires name in s.actors && !Haunted(s, s.actors[name]) && rounds != [] && rounds[0].death.Died?
    requires StepsTo(s, t, name, rounds, ports, r, effects)
    ensures var e := rounds[0].death.endpoint;
      t.dead == s.dead + {e} && LostTouch(s, t, name, e, r, effects)
  {
    var due, w := Raced(s, t, name, rounds, ports, r, effects);
    var e := rounds[0].death.endpoint;
    SweepsLoseTouch(s.(dead := s.dead + {e}), t, name, e, r, effects);
    assert LostTouch(s, t, name, e, r, effects);
  }

  /** No wait of the actor's falls due before `at`. */
  ghost predicate NoneBefore(a: Actor, at: nat) {
    forall p :: p in a.conversations ==>
      (a.conversations[p].ack.Some? ==> at <= a.conversations[p].ack.value.stamp)
      && (a.conversations[p].turn.Some? ==> at <= a.conversations[p].turn.value)
  }

  /** The wait of that kind for `peer` falls due at `at`. */
  predicate FallsDue(a: Actor, peer: Address, kind: DeadlineKind, at: nat) {
    peer in a.conversations &&
    var c := a.conversations[peer];
    if kind.AckDeadline? then c.ack.Some? && c.ack.value.stamp == at else c.turn == Some(at)
  }

  /** Next, the clock: the wait that falls due first, if its time has come, ends its exchange. */
  lemma {:induction false} LateWaitsComeNext(s: Local, t: Local, name: ActorName, rounds: seq<Round>, ports: Ports,
                                             r: Stepped, effects: seq<Effect>)
    returns (peer: Address, kind: DeadlineKind, at: nat)
    requires name in s.actors && !Haunted(s, s.actors[name]) && EngineTheorems.Sound(s.actors[name])
    requires Unhurried(rounds) && SomebodyLate(s.actors[name], rounds[0].now)
    requires StepsTo(s, t, name, rounds, ports, r, effects)
    ensures var a := s.actors[name];
      && FallsDue(a, peer, kind, at) && at <= rounds[0].now && NoneBefore(a, at)
      && t == s.(actors := s.actors[name := a.(conversations := a.conversations[peer := Conv(Failed, None, None)])])
      && effects == Notice(a, peer, DeadlineElapsed(kind)) && r == ExchangeEnded(peer, DeadlineElapsed(kind))
  {
    var a := s.actors[name];
    var due, w := Raced(s, t, name, rounds, ports, r, effects);
    peer, kind, at := due.value.peer, due.value.kind, due.value.at;
    forall p | p in a.conversations
      ensures a.conversations[p].ack.Some? ==> at <= a.conversations[p].ack.value.stamp
      ensures a.conversations[p].turn.Some? ==> at <= a.conversations[p].turn.value
    {
      var c := a.conversations[p];
      assert c.ack.Some? ==> IsWait(a, LocalRuntimes.Due(p, AckDeadline, c.ack.value.stamp));
      assert c.turn.Some? ==> IsWait(a, LocalRuntimes.Due(p, TurnDeadline, c.turn.value));
    }
    assert WaitsMatch(a.conversations[peer]);
  }

  /** What the ports answer is what the actor is given; and the waits that a reply creates fall due this
      side's patience after the ports' clock. */
  lemma PortsDecide(ports: Ports, deadlines: Deadlines)
    ensures var ch := ports.Choices(deadlines);
      && ch.receiptOk == ports.receiptOk && ch.reply == ports.reply && ch.replyOk == ports.replyOk
      && ch.harnessReply == ports.harnessReply
      && ch.ackStamp == ports.now + deadlines.ack && ch.turnStamp == ports.now + deadlines.turn
  {
  }

  /** Only then the inbox. The delivery is put to the actor, and its sender is dead no longer. */
  lemma {:induction false} DeliveriesComeLast(s: Local, t: Local, name: ActorName, rounds: seq<Round>, ports: Ports,
                                              r: Stepped, effects: seq<Effect>)
    requires name in s.actors && !Haunted(s, s.actors[name])
    requires Unhurried(rounds) && !SomebodyLate(s.actors[name], rounds[0].now) && rounds[0].inbox.Arrived?
    requires StepsTo(s, t, name, rounds, ports, r, effects)
    ensures var d, ch := rounds[0].inbox.delivery, ports.Choices(s.actors[name].deadlines);
      && Reacted(s, t, name, Deliver(d, ch), effects) && t.dead == s.dead - {d.from.endpoint}
      && r == Report(s.actors[name], d, ch)
  {
    var due, w := Raced(s, t, name, rounds, ports, r, effects);
  }

  /** What the caller is told of a delivery taken: the one send that a request or a harness message calls for
      may have been refused; a reply may have ended the exchange; all else is well, whatever was dropped,
      denied or ignored, and whatever became of the receipt of a turn. */
  lemma CallersAreTold(a: Actor, d: Delivery, ports: Ports)
    ensures var r := Report(a, d, ports.Choices(a.deadlines));
      var sent := if ports.receiptOk then Delivered else Errored(TransportRefused);
      && (d.from.endpoint !in a.allowlist || d.message.AckMessage? ==> r == Delivered)
      && (d.from.endpoint in a.allowlist && d.message.RequestMessage? ==> r == sent)
      && (d.from.endpoint in a.allowlist && d.message.HarnessMessage?
          ==> r == if a.harness && ports.harnessReply.None? then Delivered else sent)
  {
  }

  lemma CallersAreToldOfTurns(a: Actor, d: Delivery, ports: Ports)
    requires d.from.endpoint in a.allowlist && d.message.TurnMessage?
    ensures var r, heard := Report(a, d, ports.Choices(a.deadlines)), OnceHeard(d.message.turn);
      if !TheirsToSay(a.Of(d.from).state, d.message.turn) || !a.party || ports.reply.None? then r == Delivered
      else if !OursToSay(heard, ports.reply.value) then r == ExchangeEnded(d.from, IllegalReply)
      else r == if ports.replyOk then Delivered else ExchangeEnded(d.from, SendFailed)
  {
    RulingsOnTheirs(a.Of(d.from).state, d.message.turn);
    if ports.reply.Some? { RulingsOnOurs(OnceHeard(d.message.turn), ports.reply.value); }
  }

  /** An inbox found closed is an error that changes nothing. */
  lemma ClosedInboxesAreErrors(s: Local, t: Local, name: ActorName, rounds: seq<Round>, ports: Ports, r: Stepped,
                               effects: seq<Effect>)
    requires name in s.actors && !Haunted(s, s.actors[name])
    requires Unhurried(rounds) && !SomebodyLate(s.actors[name], rounds[0].now) && rounds[0].inbox.Closed?
    requires StepsTo(s, t, name, rounds, ports, r, effects)
    ensures t == s && effects == [] && r == Errored(InboxIsClosed)
  {
    var due, w := Raced(s, t, name, rounds, ports, r, effects);
  }

  /** A step of an actor that is not there is an error that changes nothing. */
  lemma UnknownActorsAreErrors(s: Local, t: Local, name: ActorName, rounds: seq<Round>, ports: Ports, r: Stepped,
                               effects: seq<Effect>)
    requires name !in s.actors && StepsTo(s, t, name, rounds, ports, r, effects)
    ensures t == s && effects == [] && r == Errored(UnknownActor)
  {
  }

  /** With nothing at hand the step goes on to the next round; a watch found closed is not asked again. When
      no round is left nothing has happened. */
  lemma OtherwiseTheStepWaits(s: Local, t: Local, name: ActorName, rounds: seq<Round>, ports: Ports, r: Stepped,
                              effects: seq<Effect>)
    requires name in s.actors && !Haunted(s, s.actors[name])
    requires Unhurried(rounds) && !SomebodyLate(s.actors[name], rounds[0].now) && rounds[0].inbox.Empty?
    requires StepsTo(s, t, name, rounds, ports, r, effects)
    ensures StepsTo(s, t, name, Onward(rounds), ports, r, effects)
    ensures |rounds| == 1 ==> t == s && effects == [] && r == Waiting
  {
    HauntedAreDoomed(s, s.actors[name]);
    var due, w := Raced(s, t, name, rounds, ports, r, effects);
    RaceGoesOn(rounds, InstantOf(due), w);
    assert |rounds| == 1 ==> NobodyReady(rounds, InstantOf(due), 0);
  }
}
