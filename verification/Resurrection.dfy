/** The reference runtime over the in-process network, watching it for deaths: a peer that dies and
    comes back is not failed for the death it came back from. */
module Resurrection {
  import opened Vocabulary
  import opened Inbounds
  import opened Engine
  import opened EngineTheorems
  import opened Waits
  import opened MemoryNets
  import opened MemoryNetTheorems
  import opened LocalRuntimes
  import opened LocalRuntimeTheorems
  import opened LocalSteps

  /** The runtime and the network with its watch; what the runtime did in its last step; and, of each
      conversation, the number of the delivery that brought the last turn admitted in it; of each
      tombstone, how many deliveries the network had accepted when the endpoint was killed. */
  datatype World = World(
    rt: Local, net: Net, watch: nat, did: seq<Effect>, heard: map<(ActorName, Address), nat>,
    tombs: map<EndpointId, nat>)
  {
    function Deaths(): seq<Death>
    {
      if watch < |net.watchers| then net.watchers[watch] else []
    }
  }

  /** The sends among the effects, put to the network one after another. */
  function Carry(n: Net, effects: seq<Effect>): Net
    decreases |effects|
  {
    if effects == [] then n
    else
      var m, last := Carry(n, effects[..|effects| - 1]), effects[|effects| - 1];
      if last.SendTried? then Send(m, last.from, last.to, last.message).0 else m
  }

  /** Each send was accepted or refused as the network accepts or refuses it. */
  ghost predicate Faithful(n: Net, effects: seq<Effect>)
    decreases |effects|
  {
    effects == [] ||
    var m, last := Carry(n, effects[..|effects| - 1]), effects[|effects| - 1];
    Faithful(n, effects[..|effects| - 1])
    && (last.SendTried? ==> last.ok == Send(m, last.from, last.to, last.message).1)
  }

  function RoundOf(w: World, name: ActorName, now: nat): Round {
    Round(if w.Deaths() == [] then NoDeath else Died(w.Deaths()[0].endpoint), now,
          Head(w.net, Address(w.rt.endpoint, name)))
  }

  ghost predicate TurnHeard(effects: seq<Effect>, local: Address, peer: Address) {
    exists turn :: Heard(local, peer, turn) in effects
  }

  /** One step of the actor called `name`, in one round of polls. The death watch is polled first, the
      inbox last; whoever is polled and ready gives up what it has. */
  ghost predicate RuntimeSteps(w: World, x: World, name: ActorName, now: nat, ports: Ports, r: Stepped,
                              effects: seq<Effect>)
  {
    && name in w.rt.actors
    && StepsTo(w.rt, x.rt, name, [RoundOf(w, name, now)], ports, r, effects)
    && x.watch == w.watch
    && var a := w.rt.actors[name];
       var home := Address(w.rt.endpoint, name);
       if Haunted(w.rt, a) then x == w.(rt := x.rt, did := effects)
       else if w.Deaths() != [] then
         x == w.(rt := x.rt, net := w.net.(watchers := w.net.watchers[w.watch := w.Deaths()[1..]]), did := effects,
                 tombs := w.tombs[w.Deaths()[0].endpoint := w.Deaths()[0].at])
       else if Urgent(w.rt, a, [], now) || !Head(w.net, home).Arrived? then x == w.(rt := x.rt, did := effects)
       else
         var p := w.net.mailboxes[home][0];
         && Faithful(Take(w.net, home), effects)
         && x == w.(rt := x.rt, net := Carry(Take(w.net, home), effects), did := effects,
                    tombs := w.tombs - {p.delivery.from.endpoint},
                    heard := if TurnHeard(effects, a.address, p.delivery.from)
                             then w.heard[(name, p.delivery.from) := p.no] else w.heard)
  }

  // The operator's doings, between steps.

  ghost predicate Installs(s: Local, t: Local, a: Actor) {
    a.address.endpoint == s.endpoint && a.address.name !in s.actors && a.conversations == map[]
    && t == s.(actors := s.actors[a.address.name := a])
  }

  ghost predicate Instructs(s: Local, t: Local, name: ActorName, input: Input) {
    (input.Admit? || input.Revoke?) && name in s.actors && Enabled(s.actors[name], input)
    && t == s.(actors := s.actors[name := React(s.actors[name], input).actor])
  }

  ghost predicate Administers(s: Local, t: Local) {
    || (exists a :: Installs(s, t, a))
    || (exists name :: t == s.(actors := s.actors - {name}))
    || (exists name, input :: Instructs(s, t, name, input))
  }

  ghost predicate Next(w: World, x: World) {
    || (exists op :: op != AskingForDeath(w.watch) && x == w.(net := Apply(w.net, op), did := []))
    || (Administers(w.rt, x.rt) && x == w.(rt := x.rt, did := []))
    || (exists name, now, ports, r, effects :: RuntimeSteps(w, x, name, now, ports, r, effects))
  }

  /** The watch is attached before the first step. */
  ghost predicate Initial(w: World) {
    w.rt.actors == map[] && w.rt.dead == {} && w.net == EMPTY.(watchers := [[]]) && w.watch == 0
    && w.did == [] && w.heard == map[] && w.tombs == map[]
  }

  ghost predicate Run(run: seq<World>) {
    run != [] && Initial(run[0]) && forall i :: 0 <= i < |run| - 1 ==> Follows(run, i)
  }

  ghost predicate Follows(run: seq<World>, i: nat)
    requires i < |run| - 1
  {
    Next(run[i], run[i + 1])
  }

  // ---- Every death still to be acted on came after whatever it may fail ----

  /** No death of `endpoint` that is queued or remembered came before delivery number `no` was accepted. */
  ghost predicate DeathsAfter(w: World, endpoint: EndpointId, no: nat) {
    && (endpoint in w.rt.dead ==> endpoint in w.tombs && no < w.tombs[endpoint])
    && forall d :: d in w.Deaths() && d.endpoint == endpoint ==> no < d.at
  }

  /** Delivery number `no` was a turn that `peer` sent to the actor called `name`. */
  ghost predicate Brought(w: World, name: ActorName, peer: Address, no: nat) {
    no < |w.net.sent| && w.net.sent[no].from == peer && w.net.sent[no].to == Address(w.rt.endpoint, name)
    && w.net.sent[no].message.TurnMessage?
  }

  ghost predicate HeardSince(w: World, name: ActorName, peer: Address) {
    (name, peer) in w.heard && Brought(w, name, peer, w.heard[(name, peer)])
    && DeathsAfter(w, peer.endpoint, w.heard[(name, peer)])
  }

  ghost predicate AtHome(s: Local) {
    forall name :: name in s.actors ==> s.actors[name].address == Address(s.endpoint, name)
  }

  ghost predicate Fair(w: World) {
    && MemoryNetTheorems.Sound(w.net) && Hosting(w.rt) && w.watch < |w.net.watchers|
    && forall name, peer :: name in w.rt.actors && peer in w.rt.actors[name].Live() ==> HeardSince(w, name, peer)
  }

  /** Hosted actors stay well, and where they live. */
  ghost predicate Hosting(s: Local) { AllSound(s) && AtHome(s) }

  lemma ReactingKeepsHosting(s: Local, t: Local, name: ActorName, input: Input)
    requires Hosting(s) && name in s.actors && Enabled(s.actors[name], input)
    requires t.endpoint == s.endpoint && t.actors == s.actors[name := React(s.actors[name], input).actor]
    ensures Hosting(t)
  {
    ReactKeepsSound(s.actors[name], input);
    assert React(s.actors[name], input).actor.address == s.actors[name].address;
  }

  /** A kill is queued last at the runtime's watch; whatever else befalls the network leaves it alone. */
  lemma DeathsAreQueued(w: World, op: Op)
    requires w.watch < |w.net.watchers| && op != AskingForDeath(w.watch)
    ensures var x := w.(net := Apply(w.net, op), did := []);
      && |x.net.watchers| >= |w.net.watchers|
      && x.Deaths() == if op.Killing? then w.Deaths() + [Death(op.endpoint, |w.net.sent|)] else w.Deaths()
  {
  }

  lemma NetKeepsFair(w: World, op: Op)
    requires Fair(w) && op != AskingForDeath(w.watch)
    ensures Fair(w.(net := Apply(w.net, op), did := []))
  {
    ApplyKeepsSound(w.net, op);
    DeathsAreQueued(w, op);
    var x := w.(net := Apply(w.net, op), did := []);
    assert w.net.sent <= x.net.sent;
    forall name, peer | name in x.rt.actors && peer in x.rt.actors[name].Live() ensures HeardSince(x, name, peer) {
      assert HeardSince(w, name, peer);
    }
  }

  /** Administration starts no exchange. */
  lemma AdministeringStartsNothing(s: Local, t: Local)
    requires Hosting(s) && Administers(s, t)
    ensures Hosting(t) && t.endpoint == s.endpoint && t.dead == s.dead
    ensures forall n, peer :: n in t.actors && peer in t.actors[n].Live() ==>
      n in s.actors && peer in s.actors[n].Live()
  {
    if name, input :| Instructs(s, t, name, input) {
      ReactingKeepsHosting(s, t, name, input);
    }
  }

  lemma AdministeringKeepsFair(w: World, t: Local)
    requires Fair(w) && Administers(w.rt, t)
    ensures Fair(w.(rt := t, did := []))
  {
    var x := w.(rt := t, did := []);
    AdministeringStartsNothing(w.rt, t);
    forall name, peer | name in t.actors && peer in t.actors[name].Live() ensures HeardSince(x, name, peer) {
      assert HeardSince(w, name, peer);
    }
  }

  lemma {:induction false} CarryKeeps(n: Net, effects: seq<Effect>)
    requires MemoryNetTheorems.Sound(n)
    ensures MemoryNetTheorems.Sound(Carry(n, effects))
    ensures Carry(n, effects).watchers == n.watchers && n.sent <= Carry(n, effects).sent
    decreases |effects|
  {
    if effects != [] {
      var before, last := effects[..|effects| - 1], effects[|effects| - 1];
      CarryKeeps(n, before);
      if last.SendTried? { SendKeepsSound(Carry(n, before), last.from, last.to, last.message); }
    }
  }

  lemma SweepingKeepsHosting(s: Local, t: Local, name: ActorName, e: EndpointId, r: Stepped, effects: seq<Effect>)
    requires Hosting(s) && name in s.actors && Swept(s, t, name, e, r, effects)
    ensures Hosting(t) && t.actors.Keys == s.actors.Keys
    ensures forall n :: n in s.actors && n != name ==> t.actors[n] == s.actors[n]
  {
    SweptReacts(s, t, name, e, r, effects);
    var order :| Reacted(s, t, name, Vanish(e, order), effects);
    ReactingKeepsHosting(s, t, name, Vanish(e, order));
  }

  /** A sweep only ends exchanges. */
  lemma SweepKeepsFair(w: World, s: Local, x: World, name: ActorName, e: EndpointId, r: Stepped, effects: seq<Effect>)
    requires Fair(w) && name in w.rt.actors
    requires x.rt.endpoint == w.rt.endpoint && x.net.sent == w.net.sent && x.heard == w.heard && x.watch == w.watch
    requires MemoryNetTheorems.Sound(x.net) && |x.net.watchers| == |w.net.watchers|
    requires s.endpoint == w.rt.endpoint && s.actors == w.rt.actors && s.dead == x.rt.dead
    requires Swept(s, x.rt, name, e, r, effects)
    requires forall endpoint, no :: DeathsAfter(w, endpoint, no) ==> DeathsAfter(x, endpoint, no)
    ensures Fair(x)
  {
    SweepingKeepsHosting(s, x.rt, name, e, r, effects);
    SweptShrinks(s, x.rt, name, e, r, effects);
    forall n, peer | n in x.rt.actors && peer in x.rt.actors[n].Live() ensures HeardSince(x, n, peer) {
      assert peer in w.rt.actors[n].Live();
      assert HeardSince(w, n, peer);
    }
  }

  /** A turn that is let in is heard; otherwise no exchange begins. */
  lemma LiveOnlyByHearing(a: Actor, d: Delivery, ch: Choices, peer: Address)
    requires peer in Handle(a, d, ch).actor.Live()
    ensures peer in a.Live() || (peer == d.from && TurnHeard(Handle(a, d, ch).effects, a.address, d.from))
  {
    if Process(a.allowlist, d).TurnReceived? {
      var turn := d.message.turn;
      var fate := FateOf(a.Of(d.from), a.party, turn, ch);
      if peer == d.from && !fate.Dropped? {
        assert ReceiptEffects(a, d.from, turn, ch)[0] == Heard(a.address, d.from, turn);
        assert Handle(a, d, ch).effects[0] == Heard(a.address, d.from, turn);
      }
    }
  }

  /** The step took the delivery at the head of the actor's mailbox. */
  ghost predicate Takes(w: World, x: World, name: ActorName, ports: Ports, effects: seq<Effect>) {
    var home := Address(w.rt.endpoint, name);
    name in w.rt.actors && Head(w.net, home).Arrived? &&
    var a, p := w.rt.actors[name], w.net.mailboxes[home][0];
    && Reacted(w.rt, x.rt, name, Deliver(p.delivery, ports.Choices(a.deadlines)), effects)
    && x.rt.dead == w.rt.dead - {p.delivery.from.endpoint}
    && x == w.(rt := x.rt, net := Carry(Take(w.net, home), effects), did := effects,
               tombs := w.tombs - {p.delivery.from.endpoint},
               heard := if TurnHeard(effects, a.address, p.delivery.from)
                        then w.heard[(name, p.delivery.from) := p.no] else w.heard)
  }

  lemma TakingKeepsNet(w: World, x: World, name: ActorName, ports: Ports, effects: seq<Effect>)
    requires Fair(w) && Takes(w, x, name, ports, effects)
    ensures MemoryNetTheorems.Sound(x.net) && x.net.watchers == w.net.watchers && w.net.sent <= x.net.sent
    ensures var p := w.net.mailboxes[Address(w.rt.endpoint, name)][0];
      Genuine(w.net.sent, p) && p.delivery.to == Address(w.rt.endpoint, name)
  {
    var home := Address(w.rt.endpoint, name);
    TakeKeepsOrder(w.net, home);
    TakeKeepsAccounts(w.net, home);
    CarryKeeps(Take(w.net, home), effects);
    assert w.net.mailboxes[home][0] in w.net.mailboxes[home];
  }

  lemma TakingKeepsHeard(w: World, x: World, name: ActorName, ports: Ports, effects: seq<Effect>, n: ActorName,
                      peer: Address)
    requires Fair(w) && w.Deaths() == [] && Takes(w, x, name, ports, effects)
    requires n in x.rt.actors && peer in x.rt.actors[n].Live()
    ensures HeardSince(x, n, peer)
  {
    var a, p := w.rt.actors[name], w.net.mailboxes[Address(w.rt.endpoint, name)][0];
    TakingKeepsNet(w, x, name, ports, effects);
    if n == name {
      LiveOnlyByHearing(a, p.delivery, ports.Choices(a.deadlines), peer);
    }
    if n == name && peer == p.delivery.from && TurnHeard(effects, a.address, peer) {
      OnlyTurnsAreHeard(a, p.delivery, ports.Choices(a.deadlines));
    } else {
      assert HeardSince(w, n, peer);
    }
  }

  lemma OnlyTurnsAreHeard(a: Actor, d: Delivery, ch: Choices)
    requires TurnHeard(Handle(a, d, ch).effects, a.address, d.from)
    ensures d.message.TurnMessage?
  {
  }

  /** A delivery is taken only once no death is queued, and it clears its sender's tombstone. */
  lemma DeliveryKeepsFair(w: World, x: World, name: ActorName, ports: Ports, effects: seq<Effect>)
    requires Fair(w) && w.Deaths() == [] && Takes(w, x, name, ports, effects)
    ensures Fair(x)
  {
    var a, p := w.rt.actors[name], w.net.mailboxes[Address(w.rt.endpoint, name)][0];
    TakingKeepsNet(w, x, name, ports, effects);
    ReactingKeepsHosting(w.rt, x.rt, name, Deliver(p.delivery, ports.Choices(a.deadlines)));
    forall n, peer | n in x.rt.actors && peer in x.rt.actors[n].Live() ensures HeardSince(x, n, peer) {
      TakingKeepsHeard(w, x, name, ports, effects, n, peer);
    }
  }

  /** A deadline ends one exchange; otherwise nothing changes. */
  lemma ElapseKeepsFair(w: World, x: World, name: ActorName, peer: Address, kind: DeadlineKind, effects: seq<Effect>)
    requires Fair(w) && name in w.rt.actors && x == w.(rt := x.rt, did := effects)
    requires Enabled(w.rt.actors[name], Elapse(peer, kind))
    requires Became(w.rt, x.rt, name, React(w.rt.actors[name], Elapse(peer, kind)), effects)
    ensures Fair(x)
  {
    ReactingKeepsHosting(w.rt, x.rt, name, Elapse(peer, kind));
    forall n, q | n in x.rt.actors && q in x.rt.actors[n].Live() ensures HeardSince(x, n, q) {
      assert n in w.rt.actors && q in w.rt.actors[n].Live();
      assert HeardSince(w, n, q);
    }
  }

  lemma SteppingKeepsFair(w: World, x: World, name: ActorName, now: nat, ports: Ports, r: Stepped, effects: seq<Effect>)
    requires Fair(w) && RuntimeSteps(w, x, name, now, ports, r, effects)
    ensures Fair(x)
  {
    var a, round := w.rt.actors[name], RoundOf(w, name, now);
    HauntedAreDoomed(w.rt, a);
    if Haunted(w.rt, a) {
      var p :| p in Doomed(w.rt.dead, a) && Swept(w.rt, x.rt, name, p.endpoint, r, effects);
      SweepKeepsFair(w, w.rt, x, name, p.endpoint, r, effects);
    } else if w.Deaths() != [] {
      DeathKeepsFair(w, x, name, now, ports, r, effects);
    } else if Urgent(w.rt, a, [], now) || !Head(w.net, Address(w.rt.endpoint, name)).Arrived? {
      IdlingKeepsFair(w, x, name, now, ports, r, effects);
    } else {
      assert round == Frozen([], now, round.inbox);
      DeliveryLast(w.rt, x.rt, name, [], now, round.inbox, ports, r, effects);
      DeliveryKeepsFair(w, x, name, ports, effects);
    }
  }

  /** The step that took a death from the watch remembered it and swept there. */
  lemma DeathIsSwept(w: World, x: World, name: ActorName, now: nat, ports: Ports, r: Stepped, effects: seq<Effect>)
    requires RuntimeSteps(w, x, name, now, ports, r, effects)
    requires !Haunted(w.rt, w.rt.actors[name]) && w.Deaths() != []
    ensures var e := w.Deaths()[0].endpoint;
      Swept(w.rt.(dead := w.rt.dead + {e}), x.rt, name, e, r, effects)
  {
    var due, verdict := Raced(w.rt, x.rt, name, [RoundOf(w, name, now)], ports, r, effects);
  }

  lemma DeathKeepsFair(w: World, x: World, name: ActorName, now: nat, ports: Ports, r: Stepped, effects: seq<Effect>)
    requires Fair(w) && RuntimeSteps(w, x, name, now, ports, r, effects)
    requires !Haunted(w.rt, w.rt.actors[name]) && w.Deaths() != []
    ensures Fair(x)
  {
    var death := w.Deaths()[0];
    DeathIsSwept(w, x, name, now, ports, r, effects);
    assert x.Deaths() == w.Deaths()[1..];
    forall endpoint, no | DeathsAfter(w, endpoint, no) ensures DeathsAfter(x, endpoint, no) {
      assert death in w.Deaths();
    }
    SweepKeepsFair(w, w.rt.(dead := w.rt.dead + {death.endpoint}), x, name, death.endpoint, r, effects);
  }

  /** A deadline ends an exchange; an empty or closed inbox changes nothing. */
  lemma IdlingKeepsFair(w: World, x: World, name: ActorName, now: nat, ports: Ports, r: Stepped, effects: seq<Effect>)
    requires Fair(w) && RuntimeSteps(w, x, name, now, ports, r, effects)
    requires !Haunted(w.rt, w.rt.actors[name]) && w.Deaths() == []
    requires Urgent(w.rt, w.rt.actors[name], [], now) || !Head(w.net, Address(w.rt.endpoint, name)).Arrived?
    ensures Fair(x)
  {
    var rounds := [RoundOf(w, name, now)];
    if SomebodyLate(w.rt.actors[name], now) {
      var due, verdict := Raced(w.rt, x.rt, name, rounds, ports, r, effects);
      ElapseKeepsFair(w, x, name, due.value.peer, due.value.kind, effects);
    } else {
      if rounds[0].inbox.Closed? {
        ClosedInboxesAreErrors(w.rt, x.rt, name, rounds, ports, r, effects);
      } else {
        OtherwiseTheStepWaits(w.rt, x.rt, name, rounds, ports, r, effects);
      }
      assert x == w.(did := []);
      forall n, q | n in x.rt.actors && q in x.rt.actors[n].Live() ensures HeardSince(x, n, q) {
        assert HeardSince(w, n, q);
      }
    }
  }

  lemma NextKeepsFair(w: World, x: World)
    requires Fair(w) && Next(w, x)
    ensures Fair(x)
  {
    if op :| op != AskingForDeath(w.watch) && x == w.(net := Apply(w.net, op), did := []) {
      NetKeepsFair(w, op);
    } else if Administers(w.rt, x.rt) && x == w.(rt := x.rt, did := []) {
      AdministeringKeepsFair(w, x.rt);
    } else {
      var name, now, ports, r, effects :| RuntimeSteps(w, x, name, now, ports, r, effects);
      SteppingKeepsFair(w, x, name, now, ports, r, effects);
    }
  }

  lemma PrefixRuns(run: seq<World>)
    requires Run(run) && |run| > 1
    ensures Run(run[..|run| - 1]) && Next(run[|run| - 2], run[|run| - 1])
  {
    var before := run[..|run| - 1];
    assert Follows(run, |run| - 2);
    forall i | 0 <= i < |before| - 1 ensures Follows(before, i) { assert Follows(run, i); }
  }

  lemma {:induction false} AlwaysFair(run: seq<World>)
    requires Run(run)
    ensures Fair(run[|run| - 1])
    decreases |run|
  {
    if |run| == 1 {
      assert MemoryNetTheorems.Sound(run[0].net);
    } else {
      PrefixRuns(run);
      AlwaysFair(run[..|run| - 1]);
      NextKeepsFair(run[|run| - 2], run[|run| - 1]);
    }
  }

  /** Whatever the network would faithfully carry of its handling, a delivery can be taken when nothing
      outranks it. */
  lemma DeliveryCanBeStepped(w: World, name: ActorName, now: nat, ports: Ports) returns (x: World, r: Stepped)
    requires name in w.rt.actors && w.Deaths() == [] && !Urgent(w.rt, w.rt.actors[name], [], now)
    requires Head(w.net, Address(w.rt.endpoint, name)).Arrived?
    requires var home, a := Address(w.rt.endpoint, name), w.rt.actors[name];
      Faithful(Take(w.net, home), Handle(a, Head(w.net, home).delivery, ports.Choices(a.deadlines)).effects)
    ensures RuntimeSteps(w, x, name, now, ports, r, x.did)
    ensures var home, a := Address(w.rt.endpoint, name), w.rt.actors[name];
      x.did == Handle(a, Head(w.net, home).delivery, ports.Choices(a.deadlines)).effects
  {
    var home, a := Address(w.rt.endpoint, name), w.rt.actors[name];
    var p, ch := w.net.mailboxes[home][0], ports.Choices(a.deadlines);
    var d, o := p.delivery, Handle(a, p.delivery, ch);
    var rt := w.rt.(dead := w.rt.dead - {d.from.endpoint}, actors := w.rt.actors[name := o.actor]);
    DeliveryCanBeTaken(w.rt, rt, name, now, d, ports);
    r := Report(a, d, ch);
    x := w.(rt := rt, net := Carry(Take(w.net, home), o.effects), did := o.effects,
            tombs := w.tombs - {d.from.endpoint},
            heard := if TurnHeard(o.effects, a.address, d.from) then w.heard[(name, d.from) := p.no] else w.heard);
  }

  // ---- Every kill is acted on ----

  /** The step polled the watch and found `death`, which is queued no longer: the runtime remembers it, and the
      actor that stepped has given up what it had under way there. */
  ghost predicate ActedOn(w: World, x: World, death: Death) {
    && w.Deaths() != [] && w.Deaths()[0] == death && x.Deaths() == w.Deaths()[1..]
    && x.rt.dead == w.rt.dead + {death.endpoint}
    && exists name, r :: name in w.rt.actors && LostTouch(w.rt, x.rt, name, death.endpoint, r, x.did)
  }

  /** What is queued at the runtime's watch goes on standing there, in order, until a step acts on it. */
  lemma {:induction false} DeathsQueueUp(w: World, x: World)
    requires Fair(w) && Next(w, x)
    ensures w.Deaths() <= x.Deaths() || ActedOn(w, x, w.Deaths()[0])
  {
    if op :| op != AskingForDeath(w.watch) && x == w.(net := Apply(w.net, op), did := []) {
      DeathsAreQueued(w, op);
    } else if Administers(w.rt, x.rt) && x == w.(rt := x.rt, did := []) {
      assert x.Deaths() == w.Deaths();
    } else {
      var name, now, ports, r, effects :| RuntimeSteps(w, x, name, now, ports, r, effects);
      StepActsOnDeaths(w, x, name, now, ports, r, effects);
    }
  }

  lemma {:induction false} StepActsOnDeaths(w: World, x: World, name: ActorName, now: nat, ports: Ports, r: Stepped,
                                            effects: seq<Effect>)
    requires Fair(w) && RuntimeSteps(w, x, name, now, ports, r, effects)
    ensures if !Haunted(w.rt, w.rt.actors[name]) && w.Deaths() != [] then ActedOn(w, x, w.Deaths()[0])
            else x.Deaths() == w.Deaths()
  {
    var a := w.rt.actors[name];
    if Haunted(w.rt, a) {
    } else if w.Deaths() != [] {
      DeathsComeNext(w.rt, x.rt, name, [RoundOf(w, name, now)], ports, r, effects);
      assert LostTouch(w.rt, x.rt, name, w.Deaths()[0].endpoint, r, x.did);
    } else if !Urgent(w.rt, a, [], now) && Head(w.net, Address(w.rt.endpoint, name)).Arrived? {
      var home := Address(w.rt.endpoint, name);
      TakeKeepsOrder(w.net, home);
      TakeKeepsAccounts(w.net, home);
      CarryKeeps(Take(w.net, home), effects);
    }
  }

  /** The endpoint is killed in the `i`-th transition. */
  ghost predicate Kills(run: seq<World>, i: nat, endpoint: EndpointId) {
    i + 1 < |run| && run[i + 1] == run[i].(net := Apply(run[i].net, Killing(endpoint)), did := [])
  }

  ghost predicate ActedOnAt(run: seq<World>, j: nat, death: Death) {
    j + 1 < |run| && ActedOn(run[j], run[j + 1], death)
  }

  /** Every kill reaches the runtime: it stands in the watch's queue until the step that polls it, which
      remembers it and fails what its actor has under way there; and nothing else takes it from the queue. */
  lemma {:induction false} EveryKillIsActedOn(run: seq<World>, i: nat, endpoint: EndpointId)
    requires Run(run) && Kills(run, i, endpoint)
    ensures var death := Death(endpoint, |run[i].net.sent|);
      death in run[|run| - 1].Deaths() || exists j :: i < j && ActedOnAt(run, j, death)
    decreases |run|
  {
    var before, last := run[..|run| - 1], |run| - 1;
    var death := Death(endpoint, |run[i].net.sent|);
    PrefixRuns(run);
    AlwaysFair(before);
    if i + 1 == last {
      DeathsAreQueued(run[i], Killing(endpoint));
    } else {
      assert Kills(before, i, endpoint);
      EveryKillIsActedOn(before, i, endpoint);
      if j :| i < j && ActedOnAt(before, j, death) {
        assert ActedOnAt(run, j, death);
      } else {
        DeathsQueueUp(run[last - 1], run[last]);
        StillQueuedOrActedOn(run[last - 1], run[last], death);
        if ActedOn(run[last - 1], run[last], death) { assert ActedOnAt(run, last - 1, death); }
      }
    }
  }

  lemma StillQueuedOrActedOn(w: World, x: World, death: Death)
    requires death in w.Deaths() && (w.Deaths() <= x.Deaths() || ActedOn(w, x, w.Deaths()[0]))
    ensures death in x.Deaths() || ActedOn(w, x, death)
  {
    if !(w.Deaths() <= x.Deaths()) && death != w.Deaths()[0] {
      assert death in w.Deaths()[1..];
    }
  }

  /** A delivery from the endpoint is taken by one of the runtime's actors. */
  ghost predicate HeardFrom(w: World, x: World, endpoint: EndpointId) {
    exists name, ports :: Takes(w, x, name, ports, x.did)
      && w.net.mailboxes[Address(w.rt.endpoint, name)][0].delivery.from.endpoint == endpoint
  }

  /** What is remembered dead stays so until a delivery from there is taken: until then no exchange with a
      peer there is passed over. */
  lemma {:induction false} TombstonesStand(w: World, x: World, endpoint: EndpointId)
    requires Fair(w) && Next(w, x) && endpoint in w.rt.dead
    ensures endpoint in x.rt.dead || HeardFrom(w, x, endpoint)
  {
    if op :| op != AskingForDeath(w.watch) && x == w.(net := Apply(w.net, op), did := []) {
    } else if Administers(w.rt, x.rt) && x == w.(rt := x.rt, did := []) {
      AdministeringStartsNothing(w.rt, x.rt);
    } else {
      var name, now, ports, r, effects :| RuntimeSteps(w, x, name, now, ports, r, effects);
      StepsKeepTombstones(w, x, name, now, ports, r, effects, endpoint);
    }
  }

  lemma {:induction false} StepsKeepTombstones(w: World, x: World, name: ActorName, now: nat, ports: Ports, r: Stepped,
                                               effects: seq<Effect>, endpoint: EndpointId)
    requires Fair(w) && RuntimeSteps(w, x, name, now, ports, r, effects) && endpoint in w.rt.dead
    ensures endpoint in x.rt.dead || HeardFrom(w, x, endpoint)
  {
    var a, rounds := w.rt.actors[name], [RoundOf(w, name, now)];
    if Haunted(w.rt, a) {
      var e := TombstonesComeFirst(w.rt, x.rt, name, rounds, ports, r, effects);
    } else if w.Deaths() != [] {
      DeathsComeNext(w.rt, x.rt, name, rounds, ports, r, effects);
    } else if SomebodyLate(a, now) {
      var peer, kind, at := LateWaitsComeNext(w.rt, x.rt, name, rounds, ports, r, effects);
    } else if rounds[0].inbox.Arrived? {
      DeliveriesComeLast(w.rt, x.rt, name, rounds, ports, r, effects);
      assert Takes(w, x, name, ports, x.did);
    } else if rounds[0].inbox.Closed? {
      ClosedInboxesAreErrors(w.rt, x.rt, name, rounds, ports, r, effects);
    } else {
      OtherwiseTheStepWaits(w.rt, x.rt, name, rounds, ports, r, effects);
    }
  }

  // ---- Resurrection safety ----

  lemma {:induction false} SweepCause(a: Actor, order: seq<Address>, local: Address, peer: Address)
    requires Emitted(FailureEvent(local, peer, Disconnected)) in FailAllEffects(a, order, Disconnected)
    ensures peer in order && local == a.address
    decreases |order|
  {
    if order != [] {
      var before := order[..|order| - 1];
      if Emitted(FailureEvent(local, peer, Disconnected)) in FailAllEffects(a, before, Disconnected) {
        SweepCause(a, before, local, peer);
      }
    }
  }

  lemma SweptWereLive(s: Local, t: Local, name: ActorName, e: EndpointId, r: Stepped, effects: seq<Effect>,
                      local: Address, peer: Address)
    requires name in s.actors && Swept(s, t, name, e, r, effects)
    requires Emitted(FailureEvent(local, peer, Disconnected)) in effects
    ensures peer in s.actors[name].LiveAt(e) && local == s.actors[name].address
  {
    var order :| Lists(order, s.actors[name].LiveAt(e))
      && Became(s, t, name, React(s.actors[name], Vanish(e, order)), effects) && r == PeerVanished(e, |order|);
    SweepCause(s.actors[name], order, local, peer);
  }

  lemma OnlyDeathsDisconnect(a: Actor, d: Delivery, ch: Choices, local: Address, peer: Address)
    ensures Emitted(FailureEvent(local, peer, Disconnected)) !in Handle(a, d, ch).effects
  {
    if Process(a.allowlist, d).TurnReceived? {
      var fate := FateOf(a.Of(d.from), a.party, d.message.turn, ch);
      assert Emitted(FailureEvent(local, peer, Disconnected)) !in ReceiptEffects(a, d.from, d.message.turn, ch);
      assert Emitted(FailureEvent(local, peer, Disconnected)) !in ReplyEffects(a, d.from, fate);
    }
  }

  /** A kill that came after the last turn admitted from `peer` by the actor at `local` was sent. */
  ghost predicate KilledSinceHeard(x: World, local: Address, peer: Address) {
    && (local.name, peer) in x.heard && Brought(x, local.name, peer, x.heard[(local.name, peer)])
    && peer.endpoint in x.tombs && x.heard[(local.name, peer)] < x.tombs[peer.endpoint]
  }

  lemma StepDisconnectsTheKilled(w: World, x: World, name: ActorName, now: nat, ports: Ports, r: Stepped,
                                 local: Address, peer: Address)
    requires Fair(w) && RuntimeSteps(w, x, name, now, ports, r, x.did)
    ensures Emitted(FailureEvent(local, peer, Disconnected)) in x.did ==> KilledSinceHeard(x, local, peer)
  {
    if Emitted(FailureEvent(local, peer, Disconnected)) in x.did {
      var a, effects := w.rt.actors[name], x.did;
      HauntedAreDoomed(w.rt, a);
      if Haunted(w.rt, a) {
        var p :| p in Doomed(w.rt.dead, a) && Swept(w.rt, x.rt, name, p.endpoint, r, effects);
        SweptWereLive(w.rt, x.rt, name, p.endpoint, r, effects, local, peer);
        assert HeardSince(w, name, peer);
      } else if w.Deaths() != [] {
        var e := w.Deaths()[0].endpoint;
        DeathIsSwept(w, x, name, now, ports, r, effects);
        SweptWereLive(w.rt.(dead := w.rt.dead + {e}), x.rt, name, e, r, effects, local, peer);
        assert peer in a.Live();
        assert HeardSince(w, name, peer);
        assert w.Deaths()[0] in w.Deaths();
      } else {
        OthersDoNotDisconnect(w, x, name, now, ports, r, effects, local, peer);
      }
    }
  }

  lemma {:induction false} NextDisconnectsTheKilled(w: World, x: World, local: Address, peer: Address)
    requires Fair(w) && Next(w, x) && Emitted(FailureEvent(local, peer, Disconnected)) in x.did
    ensures KilledSinceHeard(x, local, peer)
  {
    assert x.did != [];
    var name, now, ports, r, effects :| RuntimeSteps(w, x, name, now, ports, r, effects);
    assert effects == x.did;
    StepDisconnectsTheKilled(w, x, name, now, ports, r, local, peer);
  }

  lemma NothingDoneAtFirst(run: seq<World>, local: Address, peer: Address)
    requires Run(run) && Emitted(FailureEvent(local, peer, Disconnected)) in run[|run| - 1].did
    ensures |run| > 1
  {
    assert Initial(run[0]);
  }

  /** In every run in which the watch was there from the start: when an exchange is failed as
      disconnected, the peer's endpoint was killed after the last turn admitted in that exchange had
      been sent. A peer that was killed, came back and spoke is not failed for the old death. */
  lemma {:induction false} NeverForAnEarlierDeath(run: seq<World>, local: Address, peer: Address)
    requires Run(run) && Emitted(FailureEvent(local, peer, Disconnected)) in run[|run| - 1].did
    ensures KilledSinceHeard(run[|run| - 1], local, peer)
  {
    NothingDoneAtFirst(run, local, peer);
    PrefixRuns(run);
    var before, w, x := run[..|run| - 1], run[|run| - 2], run[|run| - 1];
    AlwaysFair(before);
    assert w == before[|before| - 1];
    NextDisconnectsTheKilled(w, x, local, peer);
  }

  lemma OthersDoNotDisconnect(w: World, x: World, name: ActorName, now: nat, ports: Ports, r: Stepped,
                              effects: seq<Effect>, local: Address, peer: Address)
    requires RuntimeSteps(w, x, name, now, ports, r, effects)
    requires !Haunted(w.rt, w.rt.actors[name]) && w.Deaths() == []
    ensures Emitted(FailureEvent(local, peer, Disconnected)) !in effects
  {
    var a := w.rt.actors[name];
    var due, verdict := Raced(w.rt, x.rt, name, [RoundOf(w, name, now)], ports, r, effects);
    if verdict.Arrival? {
      OnlyDeathsDisconnect(a, verdict.delivery, ports.Choices(a.deadlines), local, peer);
    } else if verdict.DeadlineFirst? {
      assert effects == FailureEffects(a, due.value.peer, DeadlineElapsed(due.value.kind));
    } else {
      assert effects == [];
    }
  }
}
