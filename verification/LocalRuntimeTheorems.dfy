/** The reference runtime, step by step: every step is a reaction of the engine; and until nothing more
    urgent is left no step takes a delivery, which is not for long. */
module LocalRuntimeTheorems {
  import opened Vocabulary
  import opened Protocol
  import opened Engine
  import opened EngineTheorems
  import opened Reactions
  import opened Waits
  import opened LocalRuntimes

  ghost predicate AllSound(s: Local) {
    forall name :: name in s.actors ==> EngineTheorems.Sound(s.actors[name])
  }

  /** The step was one reaction of its actor, and touched no other. */
  ghost predicate Reacted(s: Local, t: Local, name: ActorName, input: Input, effects: seq<Effect>) {
    name in s.actors && Enabled(s.actors[name], input)
    && t.endpoint == s.endpoint && t.actors == s.actors[name := React(s.actors[name], input).actor]
    && effects == React(s.actors[name], input).effects
  }

  /** What a step may make of its polls and ports: it never admits or revokes; it delivers what a poll of
      the inbox brought, with the answers the ports gave; it lets a wait elapse that a reading of the
      clock found overdue; it sweeps where a death was remembered or a poll of the watch reported one. */
  ghost predicate CalledFor(s: Local, name: ActorName, rounds: seq<Round>, ports: Ports, input: Input)
    requires name in s.actors
  {
    var a := s.actors[name];
    match input
    case Deliver(d, ch) => ch == ports.Choices(a.deadlines) && exists r :: r in rounds && r.inbox == Arrived(d)
    case Elapse(peer, kind) =>
      exists d, r :: IsWait(a, d) && d.peer == peer && d.kind == kind && r in rounds && d.at <= r.now
    case Vanish(e, _) => e in s.dead || exists r :: r in rounds && r.death == Died(e)
    case Revoke(_, _) => false
    case Admit(_) => false
  }

  lemma SweptReacts(s: Local, t: Local, name: ActorName, e: EndpointId, r: Stepped, effects: seq<Effect>)
    requires name in s.actors && Swept(s, t, name, e, r, effects)
    ensures exists order :: Reacted(s, t, name, Vanish(e, order), effects)
  {
    var order :| Lists(order, s.actors[name].LiveAt(e))
      && Became(s, t, name, React(s.actors[name], Vanish(e, order)), effects) && r == PeerVanished(e, |order|);
    assert Reacted(s, t, name, Vanish(e, order), effects);
  }

  /** The polled value that decided the race is one of those polled. */
  lemma VerdictWasPolled(rounds: seq<Round>, due: Option<nat>, w: Waited)
    requires Verdict(rounds, due, w)
    ensures match w
      case PeerDeath(e) => exists r :: r in rounds && r.death == Died(e)
      case DeadlineFirst => due.Some? && exists r :: r in rounds && due.value <= r.now
      case Arrival(d) => exists r :: r in rounds && r.inbox == Arrived(d)
      case _ => true
  {
    if !w.StillWaiting? {
      var k: nat :| k < |rounds| && Decides(rounds, due, k, w);
      assert rounds[k] in rounds;
    }
  }

  /** Every step either leaves all as it was or is one reaction of the engine, to something its polls and
      ports called for. */
  lemma StepsAreReactions(s: Local, t: Local, name: ActorName, rounds: seq<Round>, ports: Ports, r: Stepped,
                          effects: seq<Effect>)
    requires StepsTo(s, t, name, rounds, ports, r, effects)
    ensures (t == s && effects == [])
      || exists input :: Reacted(s, t, name, input, effects) && CalledFor(s, name, rounds, ports, input)
  {
    if name in s.actors {
      var a := s.actors[name];
      if Doomed(s.dead, a) != {} {
        var p :| p in Doomed(s.dead, a) && Swept(s, t, name, p.endpoint, r, effects);
        SweptReacts(s, t, name, p.endpoint, r, effects);
        var order :| Reacted(s, t, name, Vanish(p.endpoint, order), effects);
        assert CalledFor(s, name, rounds, ports, Vanish(p.endpoint, order));
      } else {
        var due, w :| IsEarliest(a, due) && Verdict(rounds, InstantOf(due), w)
          && Resolved(s, t, name, due, w, ports, r, effects);
        ResolvedReacts(s, t, name, rounds, due, w, ports, r, effects);
      }
    }
  }

  lemma ResolvedReacts(s: Local, t: Local, name: ActorName, rounds: seq<Round>, due: Option<Due>, w: Waited,
                       ports: Ports, r: Stepped, effects: seq<Effect>)
    requires name in s.actors && IsEarliest(s.actors[name], due) && Verdict(rounds, InstantOf(due), w)
    requires Resolved(s, t, name, due, w, ports, r, effects)
    ensures (t == s && effects == [])
      || exists input :: Reacted(s, t, name, input, effects) && CalledFor(s, name, rounds, ports, input)
  {
    VerdictWasPolled(rounds, InstantOf(due), w);
    match w {
      case PeerDeath(e) =>
        SweptReacts(s.(dead := s.dead + {e}), t, name, e, r, effects);
        var order :| Reacted(s.(dead := s.dead + {e}), t, name, Vanish(e, order), effects);
        assert Reacted(s, t, name, Vanish(e, order), effects);
        assert CalledFor(s, name, rounds, ports, Vanish(e, order));
      case DeadlineFirst =>
        assert IsWait(s.actors[name], due.value);
        assert Reacted(s, t, name, Elapse(due.value.peer, due.value.kind), effects);
        assert CalledFor(s, name, rounds, ports, Elapse(due.value.peer, due.value.kind));
      case Arrival(d) =>
        assert Reacted(s, t, name, Deliver(d, ports.Choices(s.actors[name].deadlines)), effects);
        assert CalledFor(s, name, rounds, ports, Deliver(d, ports.Choices(s.actors[name].deadlines)));
      case _ =>
    }
  }

  lemma StepKeepsAllSound(s: Local, t: Local, name: ActorName, rounds: seq<Round>, ports: Ports, r: Stepped,
                          effects: seq<Effect>)
    requires AllSound(s) && StepsTo(s, t, name, rounds, ports, r, effects)
    ensures AllSound(t)
  {
    StepsAreReactions(s, t, name, rounds, ports, r, effects);
    if !(t == s && effects == []) {
      var input :| Reacted(s, t, name, input, effects);
      ReactKeepsSound(s.actors[name], input);
    }
  }

  // ---- Sweeps are exact ----

  lemma {:induction false} ListLength(order: seq<Address>, peers: set<Address>)
    requires Lists(order, peers)
    ensures |order| == |peers|
    decreases |order|
  {
    if order == [] {
      assert peers == {};
    } else {
      var before, last := order[..|order| - 1], order[|order| - 1];
      assert last in peers;
      forall p | p in before ensures p in peers - {last} {
        var i :| 0 <= i < |before| && before[i] == p;
        assert order[i] == p && order[i] != order[|order| - 1];
      }
      forall p | p in peers - {last} ensures p in before {
        var i :| 0 <= i < |order| && order[i] == p;
        assert before[i] == p;
      }
      ListLength(before, peers - {last});
    }
  }

  /** A death or a revocation fails precisely the live conversations at that endpoint: each gets one
      event, loses its waits and fails; every other conversation is untouched; the count is exact; and
      doing it again finds nothing. */
  lemma SweepsAreExact(a: Actor, e: EndpointId, order: seq<Address>, input: Input)
    requires Lists(order, a.LiveAt(e)) && (input == Vanish(e, order) || input == Input.Revoke(e, order))
    ensures var o := React(a, input);
      && |order| == |a.LiveAt(e)|
      && Failing(o.effects) == a.LiveAt(e)
      && |o.effects| == |a.LiveAt(e)| * (if a.party then 2 else 1)
      && o.actor.LiveAt(e) == {}
      && o.actor.conversations.Keys == a.conversations.Keys
      && (forall p :: p in a.conversations ==>
            o.actor.conversations[p] == if p in a.LiveAt(e) then Conv(Failed, None, None) else a.conversations[p])
    ensures forall again: seq<Address> :: Lists(again, React(a, input).actor.LiveAt(e)) ==>
      again == [] && React(React(a, input).actor, Vanish(e, again)).effects == []
      && React(React(a, input).actor, Input.Revoke(e, again)).effects == []
  {
    var cause := if input.Vanish? then Disconnected else FailureCause.Revoked;
    ListLength(order, a.LiveAt(e));
    assert FailAll(a, a.LiveAt(e)).LiveAt(e) == {};
    SweepFailing(a, order, cause);
    SweepCount(a, order, cause);
    forall again: seq<Address> | Lists(again, React(a, input).actor.LiveAt(e)) ensures again == [] {
      ListLength(again, React(a, input).actor.LiveAt(e));
    }
  }

  lemma {:induction false} SweepCount(a: Actor, order: seq<Address>, cause: FailureCause)
    ensures |FailAllEffects(a, order, cause)| == |order| * (if a.party then 2 else 1)
    decreases |order|
  {
    if order != [] { SweepCount(a, order[..|order| - 1], cause); }
  }

  // ---- Nothing urgent is passed over, and a delivery is reached ----

  /** A tombstone touches an exchange of the actor's that is under way. */
  ghost predicate Haunted(s: Local, a: Actor) {
    exists p :: UnderWay(a, p) && p.endpoint in s.dead
  }

  /** The wait for an ack, or for a turn, of `peer` has run out. */
  predicate Late(a: Actor, peer: Address, now: nat) {
    peer in a.conversations &&
    var c := a.conversations[peer];
    (c.ack.Some? && c.ack.value.stamp <= now) || (c.turn.Some? && c.turn.value <= now)
  }

  ghost predicate SomebodyLate(a: Actor, now: nat) { exists p :: Late(a, p, now) }

  /** Something outranks a delivery: a tombstone touching a live exchange, a queued death, or a wait of
      this actor's that is overdue. */
  ghost predicate Urgent(s: Local, a: Actor, deaths: seq<EndpointId>, now: nat) {
    Haunted(s, a) || deaths != [] || SomebodyLate(a, now)
  }

  lemma HauntedAreDoomed(s: Local, a: Actor)
    ensures Haunted(s, a) <==> Doomed(s.dead, a) != {}
  {
    if p :| UnderWay(a, p) && p.endpoint in s.dead { assert p in Doomed(s.dead, a); }
    if p :| p in Doomed(s.dead, a) { assert UnderWay(a, p); }
  }

  /** Some wait is late exactly when the earliest is. */
  lemma LateIsOverdue(a: Actor, due: Option<Due>, now: nat)
    requires IsEarliest(a, due)
    ensures SomebodyLate(a, now) <==> Overdue(InstantOf(due), now)
  {
    if p :| Late(a, p, now) {
      var c := a.conversations[p];
      if c.ack.Some? && c.ack.value.stamp <= now {
        assert IsWait(a, Due(p, AckDeadline, c.ack.value.stamp));
      } else {
        assert IsWait(a, Due(p, TurnDeadline, c.turn.value));
      }
    }
    if Overdue(InstantOf(due), now) { assert Late(a, due.value.peer, now); }
  }

  /** The runtime's watch, the clock and an actor's inbox, as one frozen round finds them. */
  function Frozen(deaths: seq<EndpointId>, now: nat, inbox: InboxPoll): Round {
    Round(if deaths == [] then NoDeath else Died(deaths[0]), now, inbox)
  }

  /** How many deaths the step has taken from the watch's queue. */
  ghost predicate Consumes(s: Local, name: ActorName, deaths: seq<EndpointId>, left: seq<EndpointId>) {
    name in s.actors && left == if !Haunted(s, s.actors[name]) && deaths != [] then deaths[1..] else deaths
  }

  function Patience(s: Local, name: ActorName, deaths: seq<EndpointId>): nat {
    (if name in s.actors then |s.actors[name].Live()| else 0) + |deaths|
  }

  lemma FailingShrinksLive(a: Actor, peers: set<Address>)
    ensures FailAll(a, peers).Live() == a.Live() - peers
  {
  }

  lemma SmallerSet<T>(small: set<T>, big: set<T>)
    requires small <= big
    ensures |small| <= |big| && (small != big ==> |small| < |big|)
  {
    assert big == small + (big - small);
  }

  lemma SweptShrinks(s: Local, t: Local, name: ActorName, e: EndpointId, r: Stepped, effects: seq<Effect>)
    requires name in s.actors && Swept(s, t, name, e, r, effects)
    ensures name in t.actors && t.actors[name].Live() == s.actors[name].Live() - s.actors[name].LiveAt(e)
    ensures |t.actors[name].Live()| <= |s.actors[name].Live()|
    ensures s.actors[name].LiveAt(e) != {} ==> |t.actors[name].Live()| < |s.actors[name].Live()|
    ensures r.PeerVanished?
  {
    var a := s.actors[name];
    FailingShrinksLive(a, a.LiveAt(e));
    assert a.LiveAt(e) <= a.Live();
    SmallerSet(a.Live() - a.LiveAt(e), a.Live());
  }

  /** Nothing but failures, and fewer exchanges and deaths left to deal with. */
  ghost predicate Progressed(s: Local, t: Local, name: ActorName, deaths: seq<EndpointId>, left: seq<EndpointId>,
                             r: Stepped, effects: seq<Effect>)
  {
    Patience(t, name, left) < Patience(s, name, deaths) && (r.PeerVanished? || r.ExchangeEnded?)
    && forall e :: e in effects ==> !e.Heard? && !e.SendTried?
  }

  lemma TombstonesFirst(s: Local, t: Local, name: ActorName, e: EndpointId, deaths: seq<EndpointId>, r: Stepped,
                      effects: seq<Effect>)
    requires name in s.actors && Swept(s, t, name, e, r, effects) && s.actors[name].LiveAt(e) != {}
    ensures Progressed(s, t, name, deaths, deaths, r, effects)
  {
    SweptShrinks(s, t, name, e, r, effects);
    SweptSilent(s, t, name, e, r, effects);
  }

  lemma DeathsNext(s: Local, t: Local, name: ActorName, deaths: seq<EndpointId>, r: Stepped, effects: seq<Effect>)
    requires name in s.actors && deaths != []
    requires Swept(s.(dead := s.dead + {deaths[0]}), t, name, deaths[0], r, effects)
    ensures Progressed(s, t, name, deaths, deaths[1..], r, effects)
  {
    SweptShrinks(s.(dead := s.dead + {deaths[0]}), t, name, deaths[0], r, effects);
    SweptSilent(s.(dead := s.dead + {deaths[0]}), t, name, deaths[0], r, effects);
  }

  lemma DeadlinesNext(s: Local, t: Local, name: ActorName, d: Due, deaths: seq<EndpointId>, effects: seq<Effect>)
    requires name in s.actors && EngineTheorems.Sound(s.actors[name]) && IsWait(s.actors[name], d)
    requires Became(s, t, name, React(s.actors[name], Elapse(d.peer, d.kind)), effects)
    ensures Progressed(s, t, name, deaths, deaths, ExchangeEnded(d.peer, DeadlineElapsed(d.kind)), effects)
  {
    var a := s.actors[name];
    assert WaitsMatch(a.conversations[d.peer]);
    assert t.actors[name].Live() == a.Live() - {d.peer};
    assert d.peer in a.Live();
    SmallerSet(t.actors[name].Live(), a.Live());
  }

  /** With time and network as they are: as long as anything outranks a delivery, a step takes none, and
      brings closer the moment when nothing does. */
  lemma {:induction false} UrgentFirst(s: Local, t: Local, name: ActorName, deaths: seq<EndpointId>,
                                       left: seq<EndpointId>, now: nat, inbox: InboxPoll, ports: Ports,
                                       r: Stepped, effects: seq<Effect>)
    requires name in s.actors && EngineTheorems.Sound(s.actors[name]) && Urgent(s, s.actors[name], deaths, now)
    requires StepsTo(s, t, name, [Frozen(deaths, now, inbox)], ports, r, effects)
    requires Consumes(s, name, deaths, left)
    ensures Progressed(s, t, name, deaths, left, r, effects)
  {
    var a := s.actors[name];
    var rounds := [Frozen(deaths, now, inbox)];
    HauntedAreDoomed(s, a);
    if Haunted(s, a) {
      var p :| p in Doomed(s.dead, a) && Swept(s, t, name, p.endpoint, r, effects);
      assert p in a.LiveAt(p.endpoint);
      TombstonesFirst(s, t, name, p.endpoint, deaths, r, effects);
    } else {
      var due, w :| IsEarliest(a, due) && Verdict(rounds, InstantOf(due), w)
        && Resolved(s, t, name, due, w, ports, r, effects);
      FrozenVerdict(rounds[0], InstantOf(due), w);
      if deaths != [] {
        DeathsNext(s, t, name, deaths, r, effects);
      } else {
        LateIsOverdue(a, due, now);
        DeadlinesNext(s, t, name, due.value, deaths, effects);
      }
    }
  }

  /** And when nothing outranks it, a queued delivery is taken. */
  lemma DeliveryLast(s: Local, t: Local, name: ActorName, deaths: seq<EndpointId>, now: nat,
                     inbox: InboxPoll, ports: Ports, r: Stepped, effects: seq<Effect>)
    requires name in s.actors && !Urgent(s, s.actors[name], deaths, now) && inbox.Arrived?
    requires StepsTo(s, t, name, [Frozen(deaths, now, inbox)], ports, r, effects)
    ensures Reacted(s, t, name, Deliver(inbox.delivery, ports.Choices(s.actors[name].deadlines)), effects)
    ensures t.dead == s.dead - {inbox.delivery.from.endpoint}
  {
    var a := s.actors[name];
    var rounds := [Frozen(deaths, now, inbox)];
    HauntedAreDoomed(s, a);
    var due, w :| IsEarliest(a, due) && Verdict(rounds, InstantOf(due), w)
      && Resolved(s, t, name, due, w, ports, r, effects);
    FrozenVerdict(rounds[0], InstantOf(due), w);
    LateIsOverdue(a, due, now);
  }

  /** The runtime and its watch's queue, between steps. */
  datatype Stage = Stage(s: Local, deaths: seq<EndpointId>)

  /** From each stage to the next, one step of the actor, none of which may take a delivery. */
  ghost predicate Hurrying(run: seq<Stage>, name: ActorName, now: nat, inbox: InboxPoll) {
    forall i :: 0 <= i < |run| - 1 ==> HurriesAt(run, i, name, now, inbox)
  }

  ghost predicate HurriesAt(run: seq<Stage>, i: nat, name: ActorName, now: nat, inbox: InboxPoll)
    requires i < |run| - 1
  {
    Hurries(run[i], run[i + 1], name, now, inbox)
  }

  ghost predicate Hurries(from: Stage, to: Stage, name: ActorName, now: nat, inbox: InboxPoll) {
    name in from.s.actors && Urgent(from.s, from.s.actors[name], from.deaths, now)
    && Consumes(from.s, name, from.deaths, to.deaths)
    && exists ports, r, effects :: StepsTo(from.s, to.s, name, [Frozen(from.deaths, now, inbox)], ports, r, effects)
  }

  /** A queued delivery is reached within as many steps as there were live exchanges and queued deaths. */
  lemma {:induction false} ReachedWithin(run: seq<Stage>, name: ActorName, now: nat, inbox: InboxPoll)
    requires run != [] && AllSound(run[0].s) && Hurrying(run, name, now, inbox)
    ensures |run| - 1 <= Patience(run[0].s, name, run[0].deaths)
    decreases |run|
  {
    if |run| > 1 {
      var s, t := run[0].s, run[1].s;
      assert HurriesAt(run, 0, name, now, inbox);
      var ports, r, effects :| StepsTo(s, t, name, [Frozen(run[0].deaths, now, inbox)], ports, r, effects);
      UrgentFirst(s, t, name, run[0].deaths, run[1].deaths, now, inbox, ports, r, effects);
      StepKeepsAllSound(s, t, name, [Frozen(run[0].deaths, now, inbox)], ports, r, effects);
      var rest := run[1..];
      assert rest[0] == run[1];
      forall i | 0 <= i < |rest| - 1 ensures HurriesAt(rest, i, name, now, inbox) {
        assert HurriesAt(run, i + 1, name, now, inbox);
      }
      ReachedWithin(rest, name, now, inbox);
    }
  }

  lemma FrozenVerdict(round: Round, due: Option<nat>, w: Waited)
    requires Verdict([round], due, w)
    ensures w == if round.death.Died? then PeerDeath(round.death.endpoint)
                 else if Overdue(due, round.now) then DeadlineFirst
                 else InboxAnswer(round.inbox)
  {
    var rounds := [round];
    assert WatchOpen(rounds, 0);
    if w.StillWaiting? { assert NobodyReady(rounds, due, 0); }
  }

  lemma {:induction false} SweepSilent(a: Actor, order: seq<Address>, cause: FailureCause)
    ensures forall e :: e in FailAllEffects(a, order, cause) ==> !e.Heard? && !e.SendTried?
    decreases |order|
  {
    if order != [] { SweepSilent(a, order[..|order| - 1], cause); }
  }

  lemma SweptSilent(s: Local, t: Local, name: ActorName, e: EndpointId, r: Stepped, effects: seq<Effect>)
    requires name in s.actors && Swept(s, t, name, e, r, effects)
    ensures forall x :: x in effects ==> !x.Heard? && !x.SendTried?
  {
    var order :| Lists(order, s.actors[name].LiveAt(e))
      && Became(s, t, name, React(s.actors[name], Vanish(e, order)), effects) && r == PeerVanished(e, |order|);
    SweepSilent(s.actors[name], order, Disconnected);
  }

  // ---- A step can always be taken ----

  lemma {:induction false} EarliestAmong(a: Actor, peers: set<Address>) returns (due: Option<Due>)
    requires peers <= a.conversations.Keys
    ensures due.None? ==> (forall d :: IsWait(a, d) ==> d.peer !in peers)
    ensures due.Some? ==>
      (IsWait(a, due.value) && forall d :: IsWait(a, d) && d.peer in peers ==> due.value.at <= d.at)
    decreases peers
  {
    due := None;
    if peers != {} {
      var peer :| peer in peers;
      due := EarliestAmong(a, peers - {peer});
      var c := a.conversations[peer];
      if c.ack.Some? && (due.None? || c.ack.value.stamp < due.value.at) {
        due := Some(Due(peer, AckDeadline, c.ack.value.stamp));
      }
      if c.turn.Some? && (due.None? || c.turn.value < due.value.at) {
        due := Some(Due(peer, TurnDeadline, c.turn.value));
      }
    }
  }

  /** Unless something more urgent is there, a step that takes the queued delivery exists. */
  lemma DeliveryCanBeTaken(s: Local, t: Local, name: ActorName, now: nat, d: Delivery, ports: Ports)
    requires name in s.actors && !Urgent(s, s.actors[name], [], now)
    requires var a := s.actors[name];
      var o := Handle(a, d, ports.Choices(a.deadlines));
      t == s.(dead := s.dead - {d.from.endpoint}, actors := s.actors[name := o.actor])
    ensures var a := s.actors[name];
      var ch := ports.Choices(a.deadlines);
      StepsTo(s, t, name, [Frozen([], now, Arrived(d))], ports, Report(a, d, ch), Handle(a, d, ch).effects)
  {
    var a, rounds := s.actors[name], [Frozen([], now, Arrived(d))];
    var ch := ports.Choices(a.deadlines);
    var due := EarliestAmong(a, a.conversations.Keys);
    assert IsEarliest(a, due);
    HauntedAreDoomed(s, a);
    LateIsOverdue(a, due, now);
    assert Decides(rounds, InstantOf(due), 0, Arrival(d));
    assert Resolved(s, t, name, due, Arrival(d), ports, Report(a, d, ch), Handle(a, d, ch).effects);
  }

  lemma {:induction false} Listing(peers: set<Address>) returns (order: seq<Address>)
    ensures Lists(order, peers)
    decreases peers
  {
    order := [];
    if peers != {} {
      var peer :| peer in peers;
      var rest := Listing(peers - {peer});
      order := rest + [peer];
    }
  }

  lemma SweepCanBeTaken(s: Local, name: ActorName, e: EndpointId) returns (t: Local, r: Stepped, effects: seq<Effect>)
    requires name in s.actors
    ensures Swept(s, t, name, e, r, effects)
  {
    var order := Listing(s.actors[name].LiveAt(e));
    var o := React(s.actors[name], Vanish(e, order));
    t, r, effects := s.(actors := s.actors[name := o.actor]), PeerVanished(e, |order|), o.effects;
    assert Became(s, t, name, o, effects);
  }

  /** And whatever is more urgent, a step that deals with it exists. */
  lemma UrgentCanBeTaken(s: Local, name: ActorName, deaths: seq<EndpointId>, now: nat, inbox: InboxPoll, ports: Ports)
    returns (t: Local, r: Stepped, effects: seq<Effect>)
    requires name in s.actors && Urgent(s, s.actors[name], deaths, now)
    ensures StepsTo(s, t, name, [Frozen(deaths, now, inbox)], ports, r, effects)
  {
    var a, rounds := s.actors[name], [Frozen(deaths, now, inbox)];
    HauntedAreDoomed(s, a);
    if Haunted(s, a) {
      var p :| p in Doomed(s.dead, a);
      t, r, effects := SweepCanBeTaken(s, name, p.endpoint);
    } else {
      var due := EarliestAmong(a, a.conversations.Keys);
      assert IsEarliest(a, due);
      LateIsOverdue(a, due, now);
      if deaths != [] {
        t, r, effects := SweepCanBeTaken(s.(dead := s.dead + {deaths[0]}), name, deaths[0]);
        assert WatchOpen(rounds, 0);
        assert Decides(rounds, InstantOf(due), 0, PeerDeath(deaths[0]));
        assert Resolved(s, t, name, due, PeerDeath(deaths[0]), ports, r, effects);
      } else {
        var o := React(a, Elapse(due.value.peer, due.value.kind));
        t, effects := s.(actors := s.actors[name := o.actor]), o.effects;
        r := ExchangeEnded(due.value.peer, DeadlineElapsed(due.value.kind));
        assert Decides(rounds, InstantOf(due), 0, DeadlineFirst);
        assert Resolved(s, t, name, due, DeadlineFirst, ports, r, effects);
      }
    }
  }
}
