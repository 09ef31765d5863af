/** Every run of either runtime is, for each actor it hosts, a run of the engine: what holds over every
    run of an actor holds in both runtimes. */
module Inheritance {
  import opened Vocabulary
  import opened Protocol
  import opened Engine
  import opened EngineTheorems
  import opened Reactions
  import opened Parties
  import opened PartyTheorems
  import opened Waits
  import opened LocalRuntimes
  import opened LocalRuntimeTheorems
  import opened KameoHosts
  import opened KameoTimers

  lemma {:induction false} RunsOn(a: Actor, inputs: seq<Input>, input: Input)
    requires Run(a, inputs) && Enabled(After(a, inputs), input)
    ensures Run(a, inputs + [input])
    ensures var o := React(After(a, inputs), input);
      After(a, inputs + [input]) == o.actor && Trace(a, inputs + [input]) == Trace(a, inputs) + o.effects
  {
    assert (inputs + [input])[..|inputs|] == inputs;
  }

  // ---- The Kameo host ----

  /** What the host does in one act of the system. */
  function Done(s: Sys, act: Act): seq<Effect> {
    if act.Serve? && s.mailbox != [] then OnMail(s.host, s.mailbox[0], act.choices, act.order).effects else []
  }

  /** And what happened to its actor, if anything: stale reports and firings do not show. */
  function Happened(s: Sys, act: Act): Option<Input> {
    if act.Serve? && s.mailbox != [] then InputOf(s.host, s.mailbox[0], act.choices, act.order) else None
  }

  /** All that the host does over a schedule, in order. */
  function Story(s: Sys, acts: seq<Act>): seq<Effect> {
    if acts == [] then []
    else Story(s, acts[..|acts| - 1]) + Done(Reached(s, acts[..|acts| - 1]), acts[|acts| - 1])
  }

  function Happenings(s: Sys, acts: seq<Act>): seq<Input> {
    if acts == [] then []
    else
      var input := Happened(Reached(s, acts[..|acts| - 1]), acts[|acts| - 1]);
      Happenings(s, acts[..|acts| - 1]) + if input.Some? then [input.value] else []
  }

  lemma ActsAreReactions(s: Sys, act: Act, capacity: nat)
    requires Allowed(s, act, capacity)
    ensures var input, t := Happened(s, act), Do(s, act);
      if input.None? then t.host.actor == s.host.actor && Done(s, act) == []
      else Enabled(s.host.actor, input.value) && React(s.host.actor, input.value) == Outcome(t.host.actor, Done(s, act))
  {
    if act.Serve? {
      var mail := s.mailbox[0];
      HostReacts(s.host, mail, act.choices, act.order);
      match mail { case ElapsedMail(r) => case _ => }
    }
  }

  lemma {:induction false} KameoRunsTheEngine(s: Sys, acts: seq<Act>, capacity: nat)
    requires Schedule(s, acts, capacity)
    ensures var a, happened := s.host.actor, Happenings(s, acts);
      && Run(a, happened) && Engine.After(a, happened) == Reached(s, acts).host.actor
      && Trace(a, happened) == Story(s, acts)
    decreases |acts|
  {
    if acts != [] {
      var before, last := acts[..|acts| - 1], acts[|acts| - 1];
      KameoRunsTheEngine(s, before, capacity);
      var now := Reached(s, before);
      ActsAreReactions(now, last, capacity);
      var input := Happened(now, last);
      if input.Some? {
        RunsOn(s.host.actor, Happenings(s, before), input.value);
      } else {
        assert Happenings(s, acts) == Happenings(s, before) && Story(s, acts) == Story(s, before);
      }
    }
  }

  /** In the Kameo host, over every schedule: each failure the observer sees is the very one its party
      was told of just before, and between two failures of one conversation there is always an accepted
      opening; and whoever is in a live exchange is on the allowlist. */
  lemma {:induction false} KameoTellsFailuresOnce(s: Sys, acts: seq<Act>, capacity: nat, q: Address)
    requires Fresh(s) && Schedule(s, acts, capacity)
    ensures var t := Reached(s, acts).host.actor;
      var m := ObserveAll(Watching(None, false), Story(s, acts), q, s.host.actor.party);
      && m.Watching? && m.owed.None? && (t.Of(q).state.Live() ==> m.begun && q.endpoint in t.allowlist)
      && EngineTheorems.Sound(t)
  {
    KameoRunsTheEngine(s, acts, capacity);
    FailureIsToldOnce(s.host.actor, Happenings(s, acts), q);
    AlwaysSound(s.host.actor, Happenings(s, acts));
  }

  /** The host that has just served a revocation of `endpoint`. */
  ghost predicate JustRevoked(s: Sys, act: Act, u: Sys, capacity: nat, endpoint: EndpointId) {
    Allowed(s, act, capacity) && act.Serve? && s.mailbox[0] == RevokeMail(endpoint) && u == Do(s, act)
  }

  /** In the Kameo host, from a served revocation until the next served admission, no conversation with
      that endpoint changes, and all that concerns it is one denial for each of its deliveries. */
  lemma {:induction false} KameoRevocationCutsOff(s: Sys, acts: seq<Act>, act: Act, u: Sys, later: seq<Act>,
                                                  capacity: nat, endpoint: EndpointId)
    requires Fresh(s) && Schedule(s, acts, capacity) && JustRevoked(Reached(s, acts), act, u, capacity, endpoint)
    requires Schedule(u, later, capacity) && Admit(endpoint) !in Happenings(u, later)
    ensures CutOff(u.host.actor, Reached(u, later).host.actor, endpoint)
    ensures Concerning(Story(u, later), endpoint) == Denials(u.host.actor.address, Happenings(u, later), endpoint)
  {
    var t := Reached(s, acts);
    KameoRunsTheEngine(s, acts, capacity);
    AlwaysSound(s.host.actor, Happenings(s, acts));
    ActsAreReactions(t, act, capacity);
    KameoRunsTheEngine(u, later, capacity);
    RevokedUntilAdmitted(t.host.actor, endpoint, act.order, Happenings(u, later));
  }

  lemma {:induction false} HostedLives(h: Hosted, inputs: seq<Input>)
    ensures HostedAfter(h, inputs).actor == Engine.After(h.actor, inputs)
    ensures HostedAfter(h, inputs).party == PartyAfter(h.party, Trace(h.actor, inputs))
    decreases |inputs|
  {
    if inputs != [] {
      var before, last := inputs[..|inputs| - 1], inputs[|inputs| - 1];
      HostedLives(h, before);
      PartyAfterAppend(h.party, Trace(h.actor, before), React(Engine.After(h.actor, before), last).effects);
    }
  }

  /** A stock party behind a Kameo host, answering for itself, is always in step with it. */
  lemma {:induction false} KameoShadowsNeverDiverge(s: Sys, acts: seq<Act>, capacity: nat, party: Stock)
    requires Schedule(s, acts, capacity) && New(Hosted(s.host.actor, party))
    requires HostedRun(Hosted(s.host.actor, party), Happenings(s, acts))
    ensures InStep(Hosted(Reached(s, acts).host.actor, PartyAfter(party, Story(s, acts))))
    ensures forall e :: e in Story(s, acts) ==> !IllegallyReplied(e)
  {
    KameoRunsTheEngine(s, acts, capacity);
    ShadowsNeverDiverge(Hosted(s.host.actor, party), Happenings(s, acts));
    HostedLives(Hosted(s.host.actor, party), Happenings(s, acts));
  }

  // ---- The reference runtime ----

  /** One thing the runtime did to the actor called `name`: a step, with its polls and the ports' answers,
      or an order of the operator's. */
  datatype Deed =
    | Stepping(before: Local, after: Local, name: ActorName, effects: seq<Effect>, rounds: seq<Round>, ports: Ports,
               outcome: Stepped)
    | Ordering(before: Local, after: Local, name: ActorName, effects: seq<Effect>, instruction: Input)

  ghost predicate Possible(d: Deed) {
    match d
    case Stepping(before, after, name, effects, rounds, ports, outcome) =>
      StepsTo(before, after, name, rounds, ports, outcome, effects)
    case Ordering(before, after, name, effects, instruction) =>
      (instruction.Admit? || instruction.Revoke?) && Reacted(before, after, name, instruction, effects)
  }

  /** A history of the actor called `name`, beginning as `a`: each deed begins where the one before ended,
      save that other actors may come and go in between. */
  ghost predicate History(a: Actor, name: ActorName, deeds: seq<Deed>) {
    forall i :: 0 <= i < |deeds| ==> DeedAt(a, name, deeds, i)
  }

  ghost predicate DeedAt(a: Actor, name: ActorName, deeds: seq<Deed>, i: nat)
    requires i < |deeds|
  {
    && Possible(deeds[i]) && name in deeds[i].before.actors && name in deeds[i].after.actors
    && deeds[i].before.actors[name] == ActorAfter(a, name, deeds[..i])
  }

  /** What the actor has become. */
  function ActorAfter(a: Actor, name: ActorName, deeds: seq<Deed>): Actor {
    if deeds == [] || name !in deeds[|deeds| - 1].after.actors then a else deeds[|deeds| - 1].after.actors[name]
  }

  /** All that the actor called `name` did, in order. */
  function DeedsOf(name: ActorName, deeds: seq<Deed>): seq<Effect> {
    if deeds == [] then []
    else
      var last := deeds[|deeds| - 1];
      DeedsOf(name, deeds[..|deeds| - 1]) + if last.name == name then last.effects else []
  }

  /** What the deed was to the actor called `name`: an order to it is that order, a step of it what its
      polls and ports called for, if anything, and a deed done to another is nothing. */
  ghost predicate Was(d: Deed, name: ActorName, what: Option<Input>)
    requires name in d.before.actors && name in d.after.actors
  {
    var a, b := d.before.actors[name], d.after.actors[name];
    match what
    case None => b == a && (d.name == name ==> d.Stepping? && d.effects == [])
    case Some(input) =>
      && d.name == name && Enabled(a, input) && React(a, input) == Outcome(b, d.effects)
      && match d
         case Stepping(before, _, _, _, rounds, ports, _) => CalledFor(before, name, rounds, ports, input)
         case Ordering(_, _, _, _, instruction) => input == instruction
  }

  lemma DeedWas(d: Deed, name: ActorName) returns (what: Option<Input>)
    requires Possible(d) && name in d.before.actors && name in d.after.actors
    ensures Was(d, name, what)
  {
    what := None;
    match d {
      case Stepping(before, after, who, effects, rounds, ports, outcome) =>
        StepsAreReactions(before, after, who, rounds, ports, outcome, effects);
        if who == name && !(after == before && effects == []) {
          var input :| Reacted(before, after, who, input, effects) && CalledFor(before, who, rounds, ports, input);
          what := Some(input);
        }
      case Ordering(_, _, who, _, instruction) => if who == name { what := Some(instruction); }
    }
  }

  /** What happened, deed by deed. */
  ghost predicate Accounts(name: ActorName, deeds: seq<Deed>, happened: seq<Option<Input>>) {
    |happened| == |deeds| && forall i :: 0 <= i < |deeds| ==> AccountsAt(name, deeds, happened, i)
  }

  ghost predicate AccountsAt(name: ActorName, deeds: seq<Deed>, happened: seq<Option<Input>>, i: nat)
    requires i < |deeds| == |happened|
  {
    name in deeds[i].before.actors && name in deeds[i].after.actors && Was(deeds[i], name, happened[i])
  }

  function Inputs(happened: seq<Option<Input>>): seq<Input> {
    if happened == [] then []
    else
      var last := happened[|happened| - 1];
      Inputs(happened[..|happened| - 1]) + if last.Some? then [last.value] else []
  }

  lemma {:induction false} InputsHappened(happened: seq<Option<Input>>)
    ensures forall input :: input in Inputs(happened) ==> Some(input) in happened
  {
    if happened != [] {
      var before, last := happened[..|happened| - 1], happened[|happened| - 1];
      InputsHappened(before);
      assert last in happened;
      assert forall what :: what in before ==> what in happened;
    }
  }

  /** `a` has become `b` by a run of the engine, and this is what it did. */
  ghost predicate Lived(a: Actor, inputs: seq<Input>, b: Actor, story: seq<Effect>) {
    Run(a, inputs) && Engine.After(a, inputs) == b && Trace(a, inputs) == story
  }

  lemma LivesOn(a: Actor, happened: seq<Option<Input>>, d: Deed, name: ActorName, story: seq<Effect>,
               what: Option<Input>)
    requires name in d.before.actors && name in d.after.actors && Was(d, name, what)
    requires Lived(a, Inputs(happened), d.before.actors[name], story)
    ensures Lived(a, Inputs(happened + [what]), d.after.actors[name], story + if d.name == name then d.effects else [])
  {
    assert (happened + [what])[..|happened|] == happened;
    if what.Some? {
      RunsOn(a, Inputs(happened), what.value);
    } else {
      assert story + [] == story && Inputs(happened) + [] == Inputs(happened);
    }
  }

  lemma PrefixIsHistory(a: Actor, name: ActorName, deeds: seq<Deed>)
    requires History(a, name, deeds) && deeds != []
    ensures History(a, name, deeds[..|deeds| - 1]) && DeedAt(a, name, deeds, |deeds| - 1)
  {
    var before := deeds[..|deeds| - 1];
    assert DeedAt(a, name, deeds, |deeds| - 1);
    forall i | 0 <= i < |before| ensures DeedAt(a, name, before, i) {
      assert DeedAt(a, name, deeds, i) && before[..i] == deeds[..i];
    }
  }

  lemma LongerAccount(name: ActorName, before: seq<Deed>, d: Deed, happened: seq<Option<Input>>, what: Option<Input>)
    requires Accounts(name, before, happened)
    requires name in d.before.actors && name in d.after.actors && Was(d, name, what)
    ensures Accounts(name, before + [d], happened + [what])
  {
    forall i | 0 <= i < |before| + 1 ensures AccountsAt(name, before + [d], happened + [what], i) {
      if i < |before| { assert AccountsAt(name, before, happened, i); }
    }
  }

  /** Every history of the runtime is, for each actor, a run of the engine, deed for deed. */
  lemma {:induction false} LocalRunsTheEngine(a: Actor, name: ActorName, deeds: seq<Deed>)
    returns (happened: seq<Option<Input>>)
    requires History(a, name, deeds)
    ensures Accounts(name, deeds, happened)
    ensures Lived(a, Inputs(happened), ActorAfter(a, name, deeds), DeedsOf(name, deeds))
    decreases |deeds|
  {
    happened := [];
    if deeds != [] {
      var before, last := deeds[..|deeds| - 1], deeds[|deeds| - 1];
      PrefixIsHistory(a, name, deeds);
      happened := LocalRunsTheEngine(a, name, before);
      var what := DeedWas(last, name);
      LivesOn(a, happened, last, name, DeedsOf(name, before), what);
      LongerAccount(name, before, last, happened, what);
      assert before + [last] == deeds;
      happened := happened + [what];
    }
  }

  /** In the reference runtime likewise, for every actor from its installation on. */
  lemma {:induction false} LocalTellsFailuresOnce(a: Actor, name: ActorName, deeds: seq<Deed>, q: Address)
    requires History(a, name, deeds) && a.conversations == map[]
    ensures var t := ActorAfter(a, name, deeds);
      var m := ObserveAll(Watching(None, false), DeedsOf(name, deeds), q, a.party);
      && m.Watching? && m.owed.None? && (t.Of(q).state.Live() ==> m.begun && q.endpoint in t.allowlist)
      && EngineTheorems.Sound(t)
  {
    var happened := LocalRunsTheEngine(a, name, deeds);
    FailureIsToldOnce(a, Inputs(happened), q);
    AlwaysSound(a, Inputs(happened));
  }

  /** The order is a revocation of `endpoint` by the actor called `name`. */
  ghost predicate Revokes(d: Deed, name: ActorName, endpoint: EndpointId) {
    Possible(d) && d.Ordering? && d.name == name && d.instruction.Revoke? && d.instruction.endpoint == endpoint
  }

  /** In the reference runtime, from a revocation until the next admission, no conversation with that
      endpoint changes, and all that concerns it is one denial for each of its deliveries: each delivery
      in the account is one that a poll of that very step brought. */
  lemma {:induction false} LocalRevocationCutsOff(a: Actor, name: ActorName, deeds: seq<Deed>, d: Deed,
                                                  later: seq<Deed>,
                                                  endpoint: EndpointId)
    returns (happened: seq<Option<Input>>)
    requires History(a, name, deeds) && a.conversations == map[]
    requires Revokes(d, name, endpoint) && d.before.actors[name] == ActorAfter(a, name, deeds)
    requires History(d.after.actors[name], name, later)
    requires forall e :: e in later && e.Ordering? && e.name == name ==> e.instruction != Admit(endpoint)
    ensures var revoked := d.after.actors[name];
      && CutOff(revoked, ActorAfter(revoked, name, later), endpoint)
      && Accounts(name, later, happened)
      && Concerning(DeedsOf(name, later), endpoint) == Denials(revoked.address, Inputs(happened), endpoint)
  {
    var now, revoked := d.before.actors[name], d.after.actors[name];
    var earlier := LocalRunsTheEngine(a, name, deeds);
    AlwaysSound(a, Inputs(earlier));
    assert revoked == React(now, d.instruction).actor;
    happened := LocalRunsTheEngine(revoked, name, later);
    NotAdmitted(name, later, happened, endpoint);
    RevokedUntilAdmitted(now, endpoint, d.instruction.order, Inputs(happened));
  }

  lemma NotAdmitted(name: ActorName, deeds: seq<Deed>, happened: seq<Option<Input>>, endpoint: EndpointId)
    requires Accounts(name, deeds, happened)
    requires forall d :: d in deeds && d.Ordering? && d.name == name ==> d.instruction != Admit(endpoint)
    ensures Admit(endpoint) !in Inputs(happened)
  {
    InputsHappened(happened);
    forall i | 0 <= i < |happened| ensures happened[i] != Some(Admit(endpoint)) {
      assert AccountsAt(name, deeds, happened, i);
      assert deeds[i] in deeds;
    }
  }

  /** Whatever the party was consulted on in its `i`-th deed, the reply at hand was the party's own. */
  ghost predicate PartyAnswersAt(party: Stock, name: ActorName, deeds: seq<Deed>, i: nat)
    requires i < |deeds|
  {
    deeds[i].name == name && deeds[i].Stepping? ==>
      forall local, peer, turn :: Consulted(local, peer, turn) in deeds[i].effects ==>
        deeds[i].ports.reply == Answer(PartyAfter(party, DeedsOf(name, deeds[..i])), peer, turn).1
  }

  /** The hosted party is in step with its actor, and has never been caught misspeaking. */
  ghost predicate KeepsUp(a: Actor, name: ActorName, deeds: seq<Deed>, party: Stock) {
    InStep(Hosted(ActorAfter(a, name, deeds), PartyAfter(party, DeedsOf(name, deeds))))
    && forall e :: e in DeedsOf(name, deeds) ==> !IllegallyReplied(e)
  }

  /** A stock party hosted by the reference runtime is always in step with its actor. */
  lemma {:induction false} LocalShadowsNeverDiverge(a: Actor, name: ActorName, deeds: seq<Deed>, party: Stock)
    requires History(a, name, deeds) && New(Hosted(a, party))
    requires forall i :: 0 <= i < |deeds| ==> PartyAnswersAt(party, name, deeds, i)
    ensures KeepsUp(a, name, deeds, party)
    decreases |deeds|
  {
    if deeds != [] {
      var before := deeds[..|deeds| - 1];
      PrefixIsHistory(a, name, deeds);
      forall i | 0 <= i < |before| ensures PartyAnswersAt(party, name, before, i) {
        assert PartyAnswersAt(party, name, deeds, i) && before[..i] == deeds[..i];
      }
      LocalShadowsNeverDiverge(a, name, before, party);
      assert PartyAnswersAt(party, name, deeds, |before|);
      KeepsUpWith(a, name, deeds, party);
    }
  }

  lemma {:induction false} KeepsUpWith(a: Actor, name: ActorName, deeds: seq<Deed>, party: Stock)
    requires deeds != [] && KeepsUp(a, name, deeds[..|deeds| - 1], party)
    requires DeedAt(a, name, deeds, |deeds| - 1) && PartyAnswersAt(party, name, deeds, |deeds| - 1)
    ensures KeepsUp(a, name, deeds, party)
  {
    var before, last := deeds[..|deeds| - 1], deeds[|deeds| - 1];
    var u, v := DeedsOf(name, before), if last.name == name then last.effects else [];
    DeedKeepsInStep(Hosted(ActorAfter(a, name, before), PartyAfter(party, u)), last, name);
    PartyAfterAppend(party, u, v);
    assert forall e :: e in u + v <==> e in u || e in v;
  }

  lemma DeedKeepsInStep(h: Hosted, d: Deed, name: ActorName)
    requires Possible(d) && name in d.before.actors && name in d.after.actors && h.actor == d.before.actors[name]
    requires InStep(h)
    requires d.name == name && d.Stepping? ==>
      forall local, peer, turn :: Consulted(local, peer, turn) in d.effects ==>
        d.ports.reply == Answer(h.party, peer, turn).1
    ensures var effects := if d.name == name then d.effects else [];
      InStep(Hosted(d.after.actors[name], PartyAfter(h.party, effects)))
      && forall e :: e in effects ==> !IllegallyReplied(e)
  {
    var what := DeedWas(d, name);
    if what.Some? { ReactKeepsInStep(h, what.value); }
  }

  /** Its address, its patience and its kind stay what they were at its installation. */
  predicate SameMake(a: Actor, b: Actor) {
    b == a.(allowlist := b.allowlist, conversations := b.conversations)
  }

  lemma ReactKeepsMake(a: Actor, input: Input)
    ensures SameMake(a, React(a, input).actor)
  {
  }

  /** The `i`-th deed made this side await the turn of `peer`'s that it awaits now: a step that sent a reply
      which asks. Both waits run from that step's reading of the clock, and it has been awaited ever since. */
  ghost predicate AwaitedSince(a: Actor, name: ActorName, deeds: seq<Deed>, peer: Address, i: nat) {
    i < |deeds| && deeds[i].Stepping? && deeds[i].name == name && deeds[i].ports.reply.Some? &&
    var reply, now := deeds[i].ports.reply.value, deeds[i].ports.now;
    var c := ActorAfter(a, name, deeds).Of(peer);
    && !reply.Close? && SendTried(a.address, peer, TurnMessage(reply), true) in deeds[i].effects
    && c.state == AwaitingTheirTurn(reply.request.id) && c.turn == Some(now + a.deadlines.turn)
    && (c.ack.Some? ==> c.ack == Some(Wait(reply.request.id, now + a.deadlines.ack)))
    && forall k :: i < k <= |deeds| ==>
         ActorAfter(a, name, deeds[..k]).Of(peer).state == c.state
         && ActorAfter(a, name, deeds[..k]).Of(peer).turn == c.turn
  }

  /** The deed has posed a question to `peer`, and `c` waits for its ack and its answer. */
  ghost predicate Asks(a: Actor, d: Deed, name: ActorName, peer: Address, c: Conv) {
    d.name == name && d.Stepping? && d.ports.reply.Some? &&
    var reply := d.ports.reply.value;
    && !reply.Close? && SendTried(a.address, peer, TurnMessage(reply), true) in d.effects
    && c == Conv(AwaitingTheirTurn(reply.request.id), Some(Wait(reply.request.id, d.ports.now + a.deadlines.ack)),
                 Some(d.ports.now + a.deadlines.turn))
  }

  /** What happened was a reaction; and a delivery came with the answers of the step's ports. */
  lemma WasReaction(d: Deed, name: ActorName, input: Input)
    requires name in d.before.actors && name in d.after.actors && Was(d, name, Some(input))
    ensures d.name == name && React(d.before.actors[name], input) == Outcome(d.after.actors[name], d.effects)
    ensures input.Deliver? && Possible(d) ==>
      d.Stepping? && input.choices == d.ports.Choices(d.before.actors[name].deadlines)
  {
  }

  lemma {:induction false} ReactionAwaits(a: Actor, d: Deed, name: ActorName, peer: Address, now: Actor, input: Input)
    requires d.name == name && name in d.after.actors && React(now, input) == Outcome(d.after.actors[name], d.effects)
    requires input.Deliver? ==> d.Stepping? && input.choices == d.ports.Choices(now.deadlines)
    requires SameMake(a, now) && d.after.actors[name].Of(peer).turn.Some?
    ensures var c := d.after.actors[name].Of(peer); StillWaits(now.Of(peer), c) || Asks(a, d, name, peer, c)
  {
    WaitsComeOfReplies(now, input, peer);
  }

  /** What one more deed does to the turn awaited of `peer`: it stands, or the deed has just posed a question. */
  lemma {:induction false} DeedAwaits(a: Actor, d: Deed, name: ActorName, peer: Address)
    requires Possible(d) && name in d.before.actors && name in d.after.actors && SameMake(a, d.before.actors[name])
    ensures SameMake(a, d.after.actors[name])
    ensures var c := d.after.actors[name].Of(peer);
      c.turn.Some? ==> StillWaits(d.before.actors[name].Of(peer), c) || Asks(a, d, name, peer, c)
  {
    var what := DeedWas(d, name);
    if what.Some? {
      WasReaction(d, name, what.value);
      ReactKeepsMake(d.before.actors[name], what.value);
      if d.after.actors[name].Of(peer).turn.Some? {
        ReactionAwaits(a, d, name, peer, d.before.actors[name], what.value);
      }
    }
  }

  lemma {:induction false} StillAwaited(a: Actor, name: ActorName, before: seq<Deed>, d: Deed, peer: Address, i: nat)
    requires AwaitedSince(a, name, before, peer, i)
    requires StillWaits(ActorAfter(a, name, before).Of(peer), ActorAfter(a, name, before + [d]).Of(peer))
    ensures AwaitedSince(a, name, before + [d], peer, i)
  {
    var deeds := before + [d];
    forall k | i < k <= |deeds|
      ensures ActorAfter(a, name, deeds[..k]).Of(peer).state == ActorAfter(a, name, deeds).Of(peer).state
      ensures ActorAfter(a, name, deeds[..k]).Of(peer).turn == ActorAfter(a, name, deeds).Of(peer).turn
    {
      if k <= |before| { assert deeds[..k] == before[..k]; } else { assert deeds[..k] == deeds; }
    }
  }

  /** In the reference runtime, whenever an actor awaits the peer's turn it is because of one step of its own
      that sent a reply which asks: the wait for the turn falls due the turn patience after that step read
      the clock, the wait for the ack, until it comes, the ack patience after; and without a turn awaited
      no ack is. */
  lemma {:induction false} LocalWaitsRunFromTheReply(a: Actor, name: ActorName, deeds: seq<Deed>, peer: Address)
    requires History(a, name, deeds) && a.conversations == map[]
    ensures var b := ActorAfter(a, name, deeds);
      && SameMake(a, b) && (b.Of(peer).ack.Some? ==> b.Of(peer).turn.Some?)
      && (b.Of(peer).turn.Some? ==> exists i :: AwaitedSince(a, name, deeds, peer, i))
    decreases |deeds|
  {
    if deeds != [] {
      var before, last := deeds[..|deeds| - 1], deeds[|deeds| - 1];
      PrefixIsHistory(a, name, deeds);
      LocalWaitsRunFromTheReply(a, name, before, peer);
      assert before + [last] == deeds && DeedAt(a, name, deeds, |before|);
      LongerWait(a, name, before, last, peer);
      AcksWithTurns(a, name, deeds, peer);
    }
  }

  lemma {:induction false} AcksWithTurns(a: Actor, name: ActorName, deeds: seq<Deed>, peer: Address)
    requires History(a, name, deeds) && a.conversations == map[]
    ensures var c := ActorAfter(a, name, deeds).Of(peer); c.ack.Some? ==> c.turn.Some?
  {
    LocalTellsFailuresOnce(a, name, deeds, peer);
    assert WaitsMatch(ActorAfter(a, name, deeds).Of(peer));
  }

  lemma {:induction false} FreshlyAwaited(a: Actor, name: ActorName, before: seq<Deed>, d: Deed, peer: Address)
    requires name in d.after.actors && Asks(a, d, name, peer, d.after.actors[name].Of(peer))
    ensures AwaitedSince(a, name, before + [d], peer, |before|)
  {
    var deeds := before + [d];
    assert deeds[..|deeds|] == deeds;
    assert ActorAfter(a, name, deeds) == d.after.actors[name];
  }

  lemma {:induction false} LongerWait(a: Actor, name: ActorName, before: seq<Deed>, d: Deed, peer: Address)
    requires Possible(d) && name in d.before.actors && name in d.after.actors
    requires SameMake(a, d.before.actors[name]) && d.before.actors[name] == ActorAfter(a, name, before)
    requires d.before.actors[name].Of(peer).turn.Some? ==> exists i :: AwaitedSince(a, name, before, peer, i)
    ensures SameMake(a, d.after.actors[name])
    ensures d.after.actors[name].Of(peer).turn.Some? ==> exists i :: AwaitedSince(a, name, before + [d], peer, i)
  {
    var deeds := before + [d];
    assert ActorAfter(a, name, deeds) == d.after.actors[name];
    DeedAwaits(a, d, name, peer);
    if d.after.actors[name].Of(peer).turn.Some? {
      if StillWaits(d.before.actors[name].Of(peer), d.after.actors[name].Of(peer)) {
        var i :| AwaitedSince(a, name, before, peer, i);
        StillAwaited(a, name, before, d, peer, i);
      } else {
        FreshlyAwaited(a, name, before, d, peer);
      }
    }
  }
}
