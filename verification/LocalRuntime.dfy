/** The reference runtime for one endpoint: it owns the local actors, and each step takes one of them
    through the next thing that happens to it. */
module LocalRuntimes {
  import opened Vocabulary
  import opened Protocol
  import opened Inbounds
  import opened Engine
  import opened Waits

  datatype RuntimeError = UnknownActor | NameInUse | InboxIsClosed | BindRefused | TransportRefused

  /** What one step did; `Waiting` when no round of the race found anything ready. */
  datatype Stepped =
    | Delivered
    | ExchangeEnded(peer: Address, cause: FailureCause)
    | PeerVanished(endpoint: EndpointId, exchangesFailed: nat)
    | Errored(error: RuntimeError)
    | Waiting

  /** What the ports answer during one step: the transport, the party, the harness, and the clock when
      a reply is about to leave. */
  datatype Ports = Ports(receiptOk: bool, reply: Option<Turn>, replyOk: bool, harnessReply: Option<Harness>, now: nat)
  {
    /** In this runtime the stamp of a wait is the instant it falls due. */
    function Choices(deadlines: Deadlines): Choices {
      Engine.Choices(receiptOk, reply, replyOk, harnessReply, now + deadlines.ack, now + deadlines.turn)
    }
  }

  /** The runtime's state: its tombstones, and the actors it hosts. */
  datatype Local = Local(endpoint: EndpointId, dead: set<EndpointId>, actors: map<ActorName, Actor>)

  /** A wait that has been armed. */
  datatype Due = Due(peer: Address, kind: DeadlineKind, at: nat)

  ghost predicate IsWait(a: Actor, d: Due) {
    d.peer in a.conversations && IsArmed(a.conversations[d.peer], d.kind)
    && d.at == if d.kind.AckDeadline? then a.conversations[d.peer].ack.value.stamp
               else a.conversations[d.peer].turn.value
  }

  /** `due` is one of the earliest armed waits; none only if nothing is armed. */
  ghost predicate IsEarliest(a: Actor, due: Option<Due>) {
    if due.None? then forall d :: !IsWait(a, d)
    else IsWait(a, due.value) && forall d :: IsWait(a, d) ==> due.value.at <= d.at
  }

  function InstantOf(due: Option<Due>): Option<nat> {
    if due.None? then None else Some(due.value.at)
  }

  /** The live exchanges of `a` with peers at endpoints reported dead. */
  function Doomed(dead: set<EndpointId>, a: Actor): set<Address> {
    set p | p in a.Live() && p.endpoint in dead
  }

  /** The actor called `name` becomes what `o` says, having done what `o` says. */
  ghost predicate Became(s: Local, t: Local, name: ActorName, o: Outcome, effects: seq<Effect>) {
    t.endpoint == s.endpoint && t.dead == s.dead && t.actors == s.actors[name := o.actor] && effects == o.effects
  }

  /** `name`'s live exchanges at `endpoint`, all of them, have failed as disconnected. */
  ghost predicate Swept(s: Local, t: Local, name: ActorName, endpoint: EndpointId, r: Stepped, effects: seq<Effect>)
    requires name in s.actors
  {
    exists order :: Lists(order, s.actors[name].LiveAt(endpoint))
      && Became(s, t, name, React(s.actors[name], Vanish(endpoint, order)), effects)
      && r == PeerVanished(endpoint, |order|)
  }

  /** What a step answers once a delivery has been handled: a failed exchange if it ended in one, an
      error if the one send of a request's or a harness message's handling was refused. */
  function Report(a: Actor, d: Delivery, ch: Choices): Stepped {
    match Process(a.allowlist, d)
    case RequestReceived(_, _, _) => if ch.receiptOk then Delivered else Errored(TransportRefused)
    case HarnessReceived(_, _) =>
      if ch.receiptOk || (a.harness && ch.harnessReply.None?) then Delivered else Errored(TransportRefused)
    case TurnReceived(turn, peer, _) =>
      var fate := FateOf(a.Of(peer), a.party, turn, ch);
      if fate.Misspoken? then ExchangeEnded(peer, IllegalReply)
      else if fate.Unsent? then ExchangeEnded(peer, SendFailed)
      else Delivered
    case _ => Delivered
  }

  /** What follows from the verdict of the race. */
  ghost predicate Resolved(s: Local, t: Local, name: ActorName, due: Option<Due>, w: Waited, ports: Ports,
                           r: Stepped, effects: seq<Effect>)
    requires name in s.actors
  {
    var a := s.actors[name];
    match w
    case StillWaiting => t == s && effects == [] && r == Waiting
    case InboxClosed => t == s && effects == [] && r == Errored(InboxIsClosed)
    case PeerDeath(endpoint) => Swept(s.(dead := s.dead + {endpoint}), t, name, endpoint, r, effects)
    case DeadlineFirst =>
      due.Some? && Became(s, t, name, React(a, Elapse(due.value.peer, due.value.kind)), effects)
      && r == ExchangeEnded(due.value.peer, DeadlineElapsed(due.value.kind))
    case Arrival(d) =>
      Became(s.(dead := s.dead - {d.from.endpoint}), t, name, Handle(a, d, ports.Choices(a.deadlines)), effects)
      && r == Report(a, d, ports.Choices(a.deadlines))
  }

  /** One step of the actor called `name`: what is already known dead is swept before anything new is
      waited for; otherwise the race decides. */
  ghost predicate StepsTo(s: Local, t: Local, name: ActorName, rounds: seq<Round>, ports: Ports,
                       r: Stepped, effects: seq<Effect>)
  {
    if name !in s.actors then t == s && effects == [] && r == Errored(UnknownActor)
    else if Doomed(s.dead, s.actors[name]) != {} then
      exists p :: p in Doomed(s.dead, s.actors[name]) && Swept(s, t, name, p.endpoint, r, effects)
    else
      exists due, w :: IsEarliest(s.actors[name], due) && Verdict(rounds, InstantOf(due), w)
        && Resolved(s, t, name, due, w, ports, r, effects)
  }

  class LocalRuntime {
    const endpoint: EndpointId
    var dead: set<EndpointId>
    var actors: map<ActorName, Actor>
    /** All that the hosted actors have done, for the observer, the parties and the wire. */
    ghost var log: seq<Effect>

    function View(): Local
      reads this
    {
      Local(endpoint, dead, actors)
    }

    /** Every actor lives at the address it was bound to. */
    ghost predicate Valid()
      reads this
    {
      forall name :: name in actors ==> actors[name].address == Address(endpoint, name)
    }

    constructor (endpoint: EndpointId)
      ensures Valid() && View() == Local(endpoint, {}, map[]) && log == []
    {
      this.endpoint := endpoint;
      dead, actors, log := {}, map[], [];
    }

    method Install(name: ActorName, allowlist: set<EndpointId>, deadlines: Deadlines, harness: bool, party: bool,
                   bound: bool)
      returns (error: Option<RuntimeError>)
      requires Valid()
      modifies this
      ensures Valid() && dead == old(dead) && log == old(log)
      ensures error == if name in old(actors) then Some(NameInUse) else if !bound then Some(BindRefused) else None
      ensures actors == if error.Some? then old(actors)
        else old(actors)[name := Actor(Address(endpoint, name), harness, party, deadlines, allowlist, map[])]
    {
      if name in actors { return Some(NameInUse); }
      if !bound { return Some(BindRefused); }
      actors := actors[name := Actor(Address(endpoint, name), harness, party, deadlines, allowlist, map[])];
      error := None;
    }

    method AdmitEndpoint(name: ActorName, e: EndpointId) returns (error: Option<RuntimeError>)
      requires Valid()
      modifies this
      ensures Valid() && dead == old(dead) && log == old(log)
      ensures error == if name in old(actors) then None else Some(UnknownActor)
      ensures actors == if error.Some? then old(actors)
        else old(actors)[name := React(old(actors)[name], Admit(e)).actor]
    {
      if name !in actors { return Some(UnknownActor); }
      actors := actors[name := actors[name].(allowlist := actors[name].allowlist + {e})];
      error := None;
    }

    /** Fail one conversation's exchange: the machine, the waits, the party, the observer. */
    method FailExchange(name: ActorName, peer: Address, cause: FailureCause) returns (r: Stepped)
      requires Valid() && name in actors
      modifies this
      ensures Valid() && r == ExchangeEnded(peer, cause)
      ensures dead == old(dead)
      ensures actors == old(actors)[name := FailOne(old(actors)[name], peer, cause).actor]
      ensures log == old(log) + FailOne(old(actors)[name], peer, cause).effects
    {
      var local := Address(endpoint, name);
      var actor := actors[name];
      if peer in actor.conversations {
        var ps := actor.conversations[peer];
        ps := ps.(state := ps.state.Fail());
        ps := ps.(ack := None);
        ps := ps.(turn := None);
        actors := actors[name := actor.(conversations := actor.conversations[peer := ps])];
      }
      ghost var before := log;
      if actor.party {
        log := log + [Told(local, peer, cause)];
      }
      log := log + [Emitted(FailureEvent(local, peer, cause))];
      assert log == before + FailureEffects(actor, peer, cause);
      r := ExchangeEnded(peer, cause);
    }

    /** Fail `name`'s live exchanges with the given peers, in some order. */
    method FailEach(name: ActorName, peers: set<Address>, cause: FailureCause)
      returns (failed: nat, ghost order: seq<Address>)
      requires Valid() && name in actors && peers <= actors[name].conversations.Keys
      modifies this
      ensures Valid() && dead == old(dead)
      ensures Lists(order, peers) && failed == |order|
      ensures actors == old(actors)[name := FailAll(old(actors)[name], peers)]
      ensures log == old(log) + FailAllEffects(old(actors)[name], order, cause)
    {
      var rest := peers;
      ghost var a, done := actors[name], {};
      failed, order := 0, [];
      FailNone(a);
      while rest != {}
        invariant Valid() && dead == old(dead)
        invariant done !! rest && done + rest == peers
        invariant Lists(order, done) && failed == |order|
        invariant actors == old(actors)[name := FailAll(a, done)]
        invariant log == old(log) + FailAllEffects(a, order, cause)
        decreases rest
      {
        var peer :| peer in rest;
        order := FailNext(name, peer, cause, a, done, order);
        done, rest := done + {peer}, rest - {peer};
        failed := failed + 1;
      }
      assert done == peers;
    }

    /** One turn of the loop above. */
    method FailNext(name: ActorName, peer: Address, cause: FailureCause,
                    ghost a: Actor, ghost done: set<Address>, ghost order: seq<Address>)
      returns (ghost longer: seq<Address>)
      requires Valid() && name in actors && actors[name] == FailAll(a, done)
      requires peer in a.conversations && peer !in done && Lists(order, done)
      modifies this
      ensures Valid() && dead == old(dead)
      ensures Lists(longer, done + {peer}) && |longer| == |order| + 1
      ensures actors == old(actors)[name := FailAll(a, done + {peer})]
      ensures old(log) <= log
      ensures FailAllEffects(a, longer, cause) == FailAllEffects(a, order, cause) + log[|old(log)|..]
    {
      FailOneMore(a, done, peer, cause);
      ListOneMore(a, order, done, peer, cause);
      var _ := FailExchange(name, peer, cause);
      longer := order + [peer];
    }

    /** Revoke `e` on a running actor, and fail its live exchanges there. */
    method RevokeEndpoint(name: ActorName, e: EndpointId) returns (error: Option<RuntimeError>, failed: nat)
      requires Valid()
      modifies this
      ensures Valid() && dead == old(dead)
      ensures name !in old(actors) ==> error == Some(UnknownActor) && View() == old(View()) && log == old(log)
      ensures name in old(actors) ==> error == None && old(log) <= log
      ensures name in old(actors) ==>
        (exists order :: Lists(order, old(actors)[name].LiveAt(e)) && failed == |order|
          && Became(old(View()), View(), name, React(old(actors)[name], Revoke(e, order)), log[|old(log)|..]))
    {
      if name !in actors { return Some(UnknownActor), 0; }
      ghost var a := actors[name];
      actors := actors[name := actors[name].(allowlist := actors[name].allowlist - {e})];
      var affected := set p | p in actors[name].conversations
                                && actors[name].conversations[p].state.Live() && p.endpoint == e;
      assert affected == a.LiveAt(e);
      ghost var order;
      failed, order := FailEach(name, affected, FailureCause.Revoked);
      RevokeEffects(a, e, order);
      error := None;
    }

    /** Give up everything live that one tombstone touches; none, if no tombstone touches anything. */
    method SweepDead(name: ActorName) returns (r: Option<Stepped>)
      requires Valid() && name in actors
      modifies this
      ensures Valid() && dead == old(dead)
      ensures r.None? <==> Doomed(old(dead), old(actors)[name]) == {}
      ensures r.None? ==> View() == old(View()) && log == old(log)
      ensures old(log) <= log
      ensures r.Some? ==>
        (exists p :: p in Doomed(old(dead), old(actors)[name])
          && Swept(old(View()), View(), name, p.endpoint, r.value, log[|old(log)|..]))
    {
      var a := actors[name];
      var affected := Doomed(dead, a);
      if affected == {} { return None; }
      var first :| first in affected;
      var peers := set p | p in affected && p.endpoint == first.endpoint;
      assert peers == a.LiveAt(first.endpoint);
      var failed;
      ghost var order;
      failed, order := FailEach(name, peers, Disconnected);
      ghost var effects := FailAllEffects(a, order, Disconnected);
      assert log[|old(log)|..] == effects;
      assert Swept(old(View()), View(), name, first.endpoint, PeerVanished(first.endpoint, failed), effects);
      r := Some(PeerVanished(first.endpoint, failed));
    }

    /** A wait that no other precedes. */
    method EarliestDue(name: ActorName) returns (earliest: Option<Due>)
      requires name in actors
      ensures IsEarliest(actors[name], earliest)
    {
      earliest := None;
      var a := actors[name];
      var rest := a.conversations.Keys;
      while rest != {}
        invariant rest <= a.conversations.Keys
        invariant earliest.None? ==> (forall d :: IsWait(a, d) ==> d.peer in rest)
        invariant earliest.Some? ==> IsWait(a, earliest.value)
        invariant earliest.Some? ==> (forall d :: IsWait(a, d) && d.peer !in rest ==> earliest.value.at <= d.at)
        decreases rest
      {
        var peer :| peer in rest;
        var ps := a.conversations[peer];
        if ps.ack.Some? && (earliest.None? || ps.ack.value.stamp < earliest.value.at) {
          earliest := Some(Due(peer, AckDeadline, ps.ack.value.stamp));
        }
        if ps.turn.Some? && (earliest.None? || ps.turn.value < earliest.value.at) {
          earliest := Some(Due(peer, TurnDeadline, ps.turn.value));
        }
        rest := rest - {peer};
      }
    }

    /** One step: a sweep, or else whatever wins the race. */
    method Step(name: ActorName, rounds: seq<Round>, ports: Ports) returns (r: Stepped)
      requires Valid()
      requires forall k, d :: 0 <= k < |rounds| && rounds[k].inbox == Arrived(d) ==> d.to == Address(endpoint, name)
      modifies this
      ensures Valid() && old(log) <= log
      ensures StepsTo(old(View()), View(), name, rounds, ports, r, log[|old(log)|..])
    {
      if name !in actors { return Errored(UnknownActor); }
      var swept := SweepDead(name);
      if swept.Some? { return swept.value; }
      var due := EarliestDue(name);
      var waited := NextOrDeadlineOrDeath(rounds, InstantOf(due));
      match waited {
        case StillWaiting => r := Waiting;
        case InboxClosed => r := Errored(InboxIsClosed);
        case PeerDeath(e) => r := Bury(name, e);
        case DeadlineFirst => r := FailExchange(name, due.value.peer, DeadlineElapsed(due.value.kind));
        case Arrival(d) => r := Receive(name, d, ports);
      }
      assert Resolved(old(View()), View(), name, due, waited, ports, r, log[|old(log)|..]);
    }

    /** Set a tombstone, and sweep. */
    method Bury(name: ActorName, e: EndpointId) returns (r: Stepped)
      requires Valid() && name in actors && Doomed(dead, actors[name]) == {}
      modifies this
      ensures Valid() && old(log) <= log
      ensures Swept(old(View()).(dead := old(dead) + {e}), View(), name, e, r, log[|old(log)|..])
    {
      ghost var a := actors[name];
      dead := dead + {e};
      forall p | p in Doomed(dead, a) ensures p.endpoint == e {
        assert p !in Doomed(old(dead), a);
      }
      var s := SweepDead(name);
      if s.Some? {
        r := s.value;
      } else {
        assert a.LiveAt(e) <= Doomed(dead, a);
        FailNone(a);
        assert a.LiveAt(e) == {} && Lists([], a.LiveAt(e));
        assert actors == actors[name := FailAll(a, a.LiveAt(e))];
        assert Became(old(View()).(dead := dead), View(), name, React(a, Vanish(e, [])), []);
        r := PeerVanished(e, 0);
      }
    }

    /** Take one delivery, whatever becomes of its message: the sender's tombstone is lifted. */
    method Receive(name: ActorName, d: Delivery, ports: Ports) returns (r: Stepped)
      requires Valid() && name in actors && d.to == Address(endpoint, name)
      modifies this
      ensures Valid() && old(log) <= log
      ensures var a, ch := old(actors)[name], ports.Choices(old(actors)[name].deadlines);
        && Became(old(View()).(dead := old(dead) - {d.from.endpoint}), View(), name,
                  Handle(a, d, ch), log[|old(log)|..])
        && r == Report(a, d, ch)
    {
      var self := d.to;
      var origin := d.from;
      ghost var a := actors[name];
      dead := dead - {origin.endpoint};
      assert actors == actors[name := a];
      r := Delivered;
      match Process(actors[name].allowlist, d) {
        case Denied =>
          log := log + [Emitted(DeliveryDenied(origin, self))];
        case RequestReceived(_, replyTo, ack) =>
          log := log + [SendTried(self, replyTo, ack, ports.receiptOk)];
          if !ports.receiptOk { r := Errored(TransportRefused); }
        case AckReceived(id) =>
          var actor := actors[name];
          if origin in actor.conversations {
            var ps := actor.conversations[origin];
            if ps.ack.Some? && ps.ack.value.id == id {
              actors := actors[name := actor.(conversations := actor.conversations[origin := ps.(ack := None)])];
            } else {
              assert actor.With(origin, ps) == actor;
            }
          }
        case HarnessReceived(_, replyTo) =>
          var reply := if !actors[name].harness then Some(HarnessFailed("not a harness actor")) else ports.harnessReply;
          if reply.Some? {
            log := log + [SendTried(self, replyTo, HarnessMessage(reply.value), ports.receiptOk)];
            if !ports.receiptOk { r := Errored(TransportRefused); }
          }
        case TurnReceived(turn, replyTo, ack) =>
          r := TakeTurn(name, turn, replyTo, ack, ports);
      }
    }

    /** A turn from an admitted peer: first the machine, then the receipt, then the party, then its reply. */
    method TakeTurn(name: ActorName, turn: Turn, replyTo: Address, ack: Option<Message>,
                    ports: Ports) returns (r: Stepped)
      requires Valid() && name in actors
      requires ack == if turn.Posed().Some? then Some(AckMessage(turn.Posed().value)) else None
      modifies this
      ensures Valid() && dead == old(dead)
      ensures var a, ch := old(actors)[name], ports.Choices(old(actors)[name].deadlines);
        var o, fate := HearTurn(a, replyTo, turn, ch), FateOf(a.Of(replyTo), a.party, turn, ch);
        && actors == old(actors)[name := o.actor] && log == old(log) + o.effects
        && r == if fate.Misspoken? then ExchangeEnded(replyTo, IllegalReply)
                else if fate.Unsent? then ExchangeEnded(replyTo, SendFailed) else Delivered
    {
      ghost var a, ch := actors[name], ports.Choices(actors[name].deadlines);
      r := Delivered;
      var legal := Validate(name, turn, replyTo);
      if legal {
        Acknowledge(name, turn, replyTo, ack, ports);
        assert log == old(log) + ReceiptEffects(a, replyTo, turn, ch);
        r := AskParty(name, replyTo, ports);
        HearTurnByStages(a, replyTo, turn, ch, old(log));
      }
    }

    /** Send what the party, if there is one, replies to the turn just heard. */
    method AskParty(name: ActorName, replyTo: Address, ports: Ports) returns (r: Stepped)
      requires Valid() && name in actors && replyTo in actors[name].conversations
      requires actors[name].conversations[replyTo].ack.None? && actors[name].conversations[replyTo].turn.None?
      modifies this
      ensures Valid() && dead == old(dead)
      ensures var a := old(actors)[name];
        var heard := a.conversations[replyTo].state;
        var fate := if a.party && ports.reply.Some? then ReplyFate(heard, ports.reply.value, ports.replyOk) else Taken;
        && actors == old(actors)[name := a.With(replyTo, ConvAfterReply(heard, fate, ports.Choices(a.deadlines)))]
        && log == old(log) + ReplyEffects(a, replyTo, fate)
        && r == if fate.Misspoken? then ExchangeEnded(replyTo, IllegalReply)
                else if fate.Unsent? then ExchangeEnded(replyTo, SendFailed) else Delivered
    {
      if actors[name].party && ports.reply.Some? {
        r := SendReply(name, replyTo, ports.reply.value, ports);
      } else {
        assert actors[name].With(replyTo, actors[name].conversations[replyTo]) == actors[name];
        r := Delivered;
      }
    }

    /** Put a turn to the conversation's machine; a legal one settles every wait. */
    method Validate(name: ActorName, turn: Turn, replyTo: Address) returns (legal: bool)
      requires Valid() && name in actors
      modifies this
      ensures Valid() && dead == old(dead)
      ensures var a := old(actors)[name];
        var ruling := Incoming(a.Of(replyTo).state, turn);
        && legal == ruling.Legal?
        && actors == old(actors)[name := a.With(replyTo,
                                          if legal then Conv(ruling.next, None, None) else a.Of(replyTo))]
        && log == old(log) + if legal then [] else [Emitted(IllegalTurnDropped(replyTo, a.address, ruling.error))]
    {
      var ps := actors[name].Of(replyTo);
      var ruling := Incoming(ps.state, turn);
      if ruling.Refused? {
        SetConversation(name, replyTo, ps);
        log := log + [Emitted(IllegalTurnDropped(replyTo, Address(endpoint, name), ruling.error))];
        return false;
      }
      ps := ps.(state := ruling.next);
      ps := ps.(ack := None);
      ps := ps.(turn := None);
      SetConversation(name, replyTo, ps);
      legal := true;
    }

    /** The receipt of a turn just let in, and then the party's turn to think; nothing comes of a refused
        receipt. */
    method Acknowledge(name: ActorName, turn: Turn, replyTo: Address, ack: Option<Message>, ports: Ports)
      requires Valid() && name in actors
      requires ack == if turn.Posed().Some? then Some(AckMessage(turn.Posed().value)) else None
      modifies this`log
      ensures Valid()
      ensures log == old(log) + ReceiptEffects(actors[name], replyTo, turn, ports.Choices(actors[name].deadlines))
    {
      var self := Address(endpoint, name);
      log := log + [Heard(self, replyTo, turn)];
      if ack.Some? {
        log := log + [SendTried(self, replyTo, ack.value, ports.receiptOk)];
      }
      if actors[name].party {
        log := log + [Consulted(self, replyTo, turn)];
      }
    }

    /** Send a reply the party has made to a turn just heard. */
    method SendReply(name: ActorName, replyTo: Address, reply: Turn, ports: Ports) returns (r: Stepped)
      requires Valid() && name in actors && replyTo in actors[name].conversations
      modifies this
      ensures Valid() && dead == old(dead)
      ensures var a := old(actors)[name];
        var heard := a.conversations[replyTo].state;
        var fate := ReplyFate(heard, reply, ports.replyOk);
        && actors == old(actors)[name := a.With(replyTo, ConvAfterReply(heard, fate, ports.Choices(a.deadlines)))]
        && log == old(log) + ReplyEffects(a, replyTo, fate)
        && r == if fate.Misspoken? then ExchangeEnded(replyTo, IllegalReply)
                else if fate.Unsent? then ExchangeEnded(replyTo, SendFailed) else Delivered
    {
      var self := Address(endpoint, name);
      var now := ports.now;
      var deadlines := actors[name].deadlines;
      var ps := actors[name].conversations[replyTo];
      var sendable := Outgoing(ps.state, reply);
      ghost var a := actors[name];
      if sendable.Refused? {
        r := FailExchange(name, replyTo, IllegalReply);
        return;
      }
      // The waits are armed before the send is tried.
      var posed := reply.Posed();
      ps := Conv(sendable.next,
                 if posed.Some? then Some(Wait(posed.value, now + deadlines.ack)) else None,
                 if sendable.progress.Continuing? then Some(now + deadlines.turn) else None);
      SetConversation(name, replyTo, ps);
      log := log + [SendTried(self, replyTo, TurnMessage(reply), ports.replyOk)];
      r := Delivered;
      assert actors[name] == a.With(replyTo, ps);
      if !ports.replyOk {
        r := FailExchange(name, replyTo, SendFailed);
        WithTwice(a, replyTo, ps, Ended(ps));
      }
    }

    method SetConversation(name: ActorName, peer: Address, c: Conv)
      requires Valid() && name in actors
      modifies this`actors
      ensures Valid() && actors == old(actors)[name := old(actors)[name].With(peer, c)]
    {
      actors := actors[name := actors[name].(conversations := actors[name].conversations[peer := c])];
    }
  }

  lemma FailNone(a: Actor)
    ensures FailAll(a, {}) == a
  {
    assert FailAll(a, {}).conversations == a.conversations;
  }

  lemma FailOneMore(a: Actor, done: set<Address>, peer: Address, cause: FailureCause)
    requires peer in a.conversations && peer !in done
    ensures FailOne(FailAll(a, done), peer, cause) == Outcome(FailAll(a, done + {peer}), FailureEffects(a, peer, cause))
  {
    assert FailOne(FailAll(a, done), peer, cause).actor.conversations == FailAll(a, done + {peer}).conversations;
  }

  lemma ListOneMore(a: Actor, order: seq<Address>, done: set<Address>, peer: Address, cause: FailureCause)
    requires Lists(order, done) && peer !in done
    ensures Lists(order + [peer], done + {peer})
    ensures FailAllEffects(a, order + [peer], cause) == FailAllEffects(a, order, cause) + FailureEffects(a, peer, cause)
  {
    var more := order + [peer];
    assert more[..|more| - 1] == order;
  }

  lemma RevokeEffects(a: Actor, e: EndpointId, order: seq<Address>)
    ensures var b := a.(allowlist := a.allowlist - {e});
      && FailAll(b, a.LiveAt(e)) == React(a, Revoke(e, order)).actor
      && FailAllEffects(b, order, FailureCause.Revoked) == React(a, Revoke(e, order)).effects
  {
    SameSweepEffects(a, a.(allowlist := a.allowlist - {e}), order, FailureCause.Revoked);
  }
}
