/** A whole exchange, wire and all: an app that asks again until it closes, against a countdown behind
    the reference runtime, over a network on which nothing goes wrong. */
module Countdowns {
  import opened Vocabulary
  import opened Protocol
  import opened Engine
  import opened Waits
  import opened MemoryNets
  import opened LocalRuntimes
  import opened LocalRuntimeTheorems
  import opened Resurrection
  import opened Phones
  import opened FanOuts
  import opened Parties
  import opened PartyTheorems

  /** Who sits where, how many questions the countdown will ask, and which of them the app answers with a
      close; it asks again at every other, and so at all of them if there are not as many. */
  datatype Setting = Setting(home: Address, app: Address, rounds: u8, closesAt: nat, patience: Deadlines)
  {
    /** The app gets to close. */
    predicate Early() { 1 <= closesAt <= rounds as nat }

    function Turns(): nat { if Early() then 2 * closesAt + 1 else 2 * (rounds as nat) + 2 }

    function Acks(): nat { if Early() then closesAt else rounds as nat + 1 }

    function Deliveries(): nat { if Early() then 3 * closesAt + 1 else 3 * (rounds as nat) + 3 }
  }

  /** The runtime over its network, the party behind its actor, the app's handle, how many questions the
      app has heard, and how many of the acks that came settled the wait for them. */
  datatype Table = Table(w: World, party: Stock, phone: Conv, heard: nat, acks: nat)
  {
    function Mail(a: Address): seq<Delivery> {
      if a in w.net.mailboxes then Deliveries(w.net.mailboxes[a]) else []
    }

    /** How many turns have crossed the wire, in either direction. */
    function Turns(): nat { TurnsIn(w.net.sent) }
  }

  function TurnsIn(ds: seq<Delivery>): nat {
    if ds == [] then 0
    else TurnsIn(ds[..|ds| - 1]) + if ds[|ds| - 1].message.TurnMessage? then 1 else 0
  }

  /** Nothing is wrong: no partition, nobody dead, and the party's machine is the actor's. */
  ghost predicate Laid(g: Setting, t: Table) {
    && g.home != g.app && t.w.rt.endpoint == g.home.endpoint && t.w.rt.dead == {} && t.w.Deaths() == []
    && t.w.net.partitions == {} && g.home in t.w.net.mailboxes && g.app in t.w.net.mailboxes
    && t.party.Counting? && g.home.name in t.w.rt.actors
    && var a := t.w.rt.actors[g.home.name];
       a.address == g.home && a.party && g.app.endpoint in a.allowlist
       && t.party.Count(g.app).state == a.Of(g.app).state
  }

  /** How the exchange stands: the app has answered `k` questions and asked again, and its turn is on the
      wire; or the party's next question is; or the party's close; or the app's; or nothing. */
  datatype Phase = Asking(k: nat) | Answering(k: nat, acked: bool) | Closing(acked: bool) | Hanging | Over
  {
    /** How many deliveries have been taken to get here. */
    function Step(g: Setting): nat {
      match this
      case Asking(k) => 3 * k
      case Answering(k, acked) => if acked then 3 * k + 2 else 3 * k + 1
      case Closing(acked) => if acked then 3 * (g.rounds as nat) + 2 else 3 * (g.rounds as nat) + 1
      case Hanging => 3 * g.closesAt
      case Over => g.Deliveries()
    }
  }

  /** A turn of the app's is on the wire, and the actor will let it in. */
  ghost predicate AtTheDoor(g: Setting, t: Table) {
    Laid(g, t) && t.Mail(g.app) == [] && |t.Mail(g.home)| == 1 &&
    var d := t.Mail(g.home)[0];
    d.from == g.app && d.message.TurnMessage? && Incoming(t.party.Count(g.app).state, d.message.turn).Legal?
  }

  /** The party's answer is on the wire, behind the receipt for what it answers. */
  ghost predicate Answered(g: Setting, t: Table, acked: bool) {
    t.party.Counting? && t.Mail(g.home) == [] && t.phone.state.AwaitingTheirTurn? &&
    var id, mail := t.phone.state.outstanding, t.Mail(g.app);
    && t.phone.ack.Some? == !acked && (t.phone.ack.Some? ==> t.phone.ack.value.id == id)
    && |mail| == (if acked then 1 else 2)
    && (!acked ==> mail[0] == Delivery(g.home, g.app, AckMessage(id)))
    && var last := mail[|mail| - 1];
       last.from == g.home && last.message.TurnMessage? && last.message.turn.Answered() == Some(id)
       && t.party.Count(g.app).state ==
          if last.message.turn.Close? then Idle else AwaitingTheirTurn(last.message.turn.request.id)
  }

  ghost predicate Stands(g: Setting, t: Table, phase: Phase) {
    Laid(g, t) &&
    var n, left := g.rounds as nat, t.party.Count(g.app).remaining as nat;
    match phase
    case Asking(k) =>
      && k + left == n && t.Turns() == 2 * k + 1 && t.acks == k && t.heard == k && (g.Early() ==> k < g.closesAt)
      && AtTheDoor(g, t) && !t.Mail(g.home)[0].message.turn.Close?
      && var id := t.Mail(g.home)[0].message.turn.request.id;
         t.phone.state == AwaitingTheirTurn(id) && t.phone.ack.Some? && t.phone.ack.value.id == id
    case Answering(k, acked) =>
      && k + 1 + left == n && t.Turns() == 2 * k + 2 && t.acks == (if acked then k + 1 else k)
      && t.heard == k && (g.Early() ==> k < g.closesAt)
      && Answered(g, t, acked) && t.Mail(g.app)[|t.Mail(g.app)| - 1].message.turn.Continue?
    case Closing(acked) =>
      && left == 0 && !g.Early() && t.Turns() == 2 * n + 2 && t.acks == (if acked then n + 1 else n)
      && Answered(g, t, acked) && t.Mail(g.app)[|t.Mail(g.app)| - 1].message.turn.Close?
    case Hanging =>
      && g.Early() && t.Turns() == g.Turns() && t.acks == g.Acks()
      && AtTheDoor(g, t) && t.Mail(g.home)[0].message.turn.Close? && t.phone == QUIET
    case Over =>
      && t.Turns() == g.Turns() && t.acks == g.Acks()
      && t.Mail(g.home) == [] && t.Mail(g.app) == []
      && t.phone == QUIET && t.party.Count(g.app).state == Idle
  }

  /** The runtime takes the delivery at the head of its actor's mailbox; nothing more urgent is there. */
  ghost predicate RuntimeTakes(g: Setting, t: Table, u: Table, now: nat, ports: Ports,
                              r: Stepped, effects: seq<Effect>) {
    var name := g.home.name;
    && name in t.w.rt.actors && Head(t.w.net, g.home).Arrived?
    && var a := t.w.rt.actors[name];
       && !Urgent(t.w.rt, a, [], now)
       && RuntimeSteps(t.w, u.w, name, now, ports, r, effects)
       && PartyReplies(Hosted(a, t.party), Deliver(Head(t.w.net, g.home).delivery, ports.Choices(a.deadlines)))
       && u == Table(u.w, PartyAfter(t.party, effects), t.phone, t.heard, t.acks)
  }

  function Taken(g: Setting, t: Table): World { t.w.(net := Take(t.w.net, g.app)) }

  /** The app's answer to what it was just asked, its `heard`-th question: a close, if this is the one it
      closes at, and otherwise one that asks again. */
  function Reply(g: Setting, heard: nat, theirs: Request, question: Request): Turn {
    var response := Response(theirs.id, theirs.body);
    if heard == g.closesAt then Close(response) else Continue(response, question)
  }

  /** The table once the app has taken the delivery at the head of its inbox: an ack it notes, a turn it
      hears; and if the exchange goes on, it answers. */
  function AppTook(g: Setting, t: Table, d: Delivery, question: Request, now: nat): Table {
    match d.message
    case AckMessage(id) =>
      var c := SettleAck(t.phone, id);
      Table(Taken(g, t), t.party, c, t.heard, if c == t.phone then t.acks else t.acks + 1)
    case TurnMessage(turn) =>
      var (c, heard) := Hear(t.phone, turn);
      if heard != Progress(Continuing) then Table(Taken(g, t), t.party, c, t.heard, t.acks)
      else
        var reply := Reply(g, t.heard + 1, turn.request, question);
        var (net, ok) := Send(Take(t.w.net, g.app), g.app, g.home, TurnMessage(reply));
        Table(t.w.(net := net), t.party, Say(c, reply, ok, g.patience, now).0, t.heard + 1, t.acks)
    case _ => Table(Taken(g, t), t.party, t.phone, t.heard, t.acks)
  }

  ghost predicate AppTakes(g: Setting, t: Table, u: Table, question: Request, now: nat) {
    Head(t.w.net, g.app).Arrived? && u == AppTook(g, t, Head(t.w.net, g.app).delivery, question, now)
  }

  ghost predicate Moves(g: Setting, t: Table, u: Table) {
    || (exists now, ports, r, effects :: RuntimeTakes(g, t, u, now, ports, r, effects))
    || (exists question, now :: AppTakes(g, t, u, question, now))
  }

  /** Both sides bound, the countdown installed, and the app's opening turn just sent. */
  ghost predicate Begins(g: Setting, t: Table, a: Actor, request: Request, now: nat) {
    var net := EMPTY.(mailboxes := map[g.home := [], g.app := []], watchers := [[]]);
    var (opening, ok) := Send(net, g.app, g.home, TurnMessage(Open(request)));
    && g.home != g.app && a.address == g.home && a.party && g.app.endpoint in a.allowlist && a.conversations == map[]
    && t == Table(World(Local(g.home.endpoint, {}, map[g.home.name := a]), opening, 0, [], map[], map[]),
                  Counting(g.rounds, map[]), Say(QUIET, Open(request), ok, g.patience, now).0, 0, 0)
  }

  ghost predicate Starts(g: Setting, t: Table) { exists a, request, now :: Begins(g, t, a, request, now) }

  ghost predicate Plays(g: Setting, run: seq<Table>) {
    run != [] && Starts(g, run[0]) && forall i :: 0 <= i < |run| - 1 ==> MovesAt(g, run, i)
  }

  ghost predicate MovesAt(g: Setting, run: seq<Table>, i: nat)
    requires i < |run| - 1
  {
    Moves(g, run[i], run[i + 1])
  }

  // ---- The wire ----

  lemma SendArrives(n: Net, from: Address, to: Address, m: Message)
    requires n.partitions == {} && to in n.mailboxes
    ensures var (after, ok) := Send(n, from, to, m);
      && ok && after.partitions == {} && after.watchers == n.watchers && after.mailboxes.Keys == n.mailboxes.Keys
      && TurnsIn(after.sent) == TurnsIn(n.sent) + (if m.TurnMessage? then 1 else 0)
      && forall a :: a in n.mailboxes ==>
           Deliveries(after.mailboxes[a]) == Deliveries(n.mailboxes[a])
             + if a == to then [Delivery(from, to, m)] else []
  {
    var d := Delivery(from, to, m);
    SendPosted(n, d);
    SendCounted(n, from, to, m);
    forall a | a in n.mailboxes
      ensures Deliveries(Send(n, from, to, m).0.mailboxes[a])
        == Deliveries(n.mailboxes[a]) + if a == to then [d] else []
    {
      assert [d][..0] == [];
      assert AddressedTo([d], a) == if a == to then [d] else [];
    }
  }

  lemma SendCounted(n: Net, from: Address, to: Address, m: Message)
    requires n.partitions == {} && to in n.mailboxes
    ensures TurnsIn(Send(n, from, to, m).0.sent) == TurnsIn(n.sent) + (if m.TurnMessage? then 1 else 0)
  {
    assert (n.sent + [Delivery(from, to, m)])[..|n.sent|] == n.sent;
  }

  lemma TakeLeavesRest(n: Net, a: Address)
    requires Head(n, a).Arrived?
    ensures var after := Take(n, a);
      && after.mailboxes.Keys == n.mailboxes.Keys
      && Deliveries(after.mailboxes[a]) == Deliveries(n.mailboxes[a])[1..]
      && Head(n, a).delivery == Deliveries(n.mailboxes[a])[0]
      && forall b :: b in n.mailboxes && b != a ==> Deliveries(after.mailboxes[b]) == Deliveries(n.mailboxes[b])
  {
  }

  lemma CarryOne(n: Net, e: Effect)
    ensures Carry(n, [e]) == if e.SendTried? then Send(n, e.from, e.to, e.message).0 else n
    ensures Faithful(n, [e]) <==> (e.SendTried? ==> e.ok == Send(n, e.from, e.to, e.message).1)
  {
    assert [e][..0] == [];
  }

  lemma {:induction false} CarryAppend(n: Net, u: seq<Effect>, v: seq<Effect>)
    ensures Carry(n, u + v) == Carry(Carry(n, u), v)
    ensures Faithful(n, u + v) <==> Faithful(n, u) && Faithful(Carry(n, u), v)
    decreases |v|
  {
    if v == [] {
      assert u + v == u;
    } else {
      CarryAppend(n, u, v[..|v| - 1]);
      assert (u + v)[..|u + v| - 1] == u + v[..|v| - 1];
    }
  }

  /** Taking in a turn puts its receipt on the wire. */
  lemma ReceiptOnWire(n: Net, a: Actor, peer: Address, turn: Turn, ch: Choices)
    requires a.party && !turn.Close?
    ensures Carry(n, ReceiptEffects(a, peer, turn, ch)) == Send(n, a.address, peer, AckMessage(turn.request.id)).0
  {
    var h, s, c := Heard(a.address, peer, turn), SendTried(a.address, peer, AckMessage(turn.request.id), ch.receiptOk),
      Consulted(a.address, peer, turn);
    assert ReceiptEffects(a, peer, turn, ch) == [h] + [s] + [c];
    CarryOne(n, h);
    CarryAppend(n, [h], [s]);
    CarryOne(n, s);
    CarryAppend(n, [h] + [s], [c]);
    CarryOne(Send(n, s.from, s.to, s.message).0, c);
  }

  /** A legal reply that the network accepts is on the wire, and its fate is to have been sent. */
  lemma ReplyOnWire(n: Net, a: Actor, peer: Address, fate: Fate, reply: Turn)
    requires n.partitions == {} && peer in n.mailboxes
    requires (fate == Replied(reply) || fate == Unsent(reply)) && Faithful(n, ReplyEffects(a, peer, fate))
    ensures fate == Replied(reply)
    ensures Carry(n, ReplyEffects(a, peer, fate)) == Send(n, a.address, peer, TurnMessage(reply)).0
  {
    var s := SendTried(a.address, peer, TurnMessage(reply), fate.Replied?);
    SendArrives(n, a.address, peer, TurnMessage(reply));
    CarryOne(n, s);
    if fate.Unsent? {
      CarryAppend(n, [s], FailureEffects(a, peer, SendFailed));
      assert false;
    }
  }

  // ---- The runtime's move ----

  /** What the next delivery taken brings. */
  function Next(g: Setting, phase: Phase): Phase {
    match phase
    case Asking(k) => if k < g.rounds as nat then Answering(k, false) else Closing(false)
    case Answering(k, acked) =>
      if !acked then Answering(k, true) else if k + 1 == g.closesAt then Hanging else Asking(k + 1)
    case Closing(acked) => if acked then Over else Closing(true)
    case Hanging => Over
    case Over => Over
  }

  /** What the actor makes of a legal turn from the app, once the wire has carried its receipt and reply. */
  lemma TurnAnswered(n: Net, a: Actor, p: Stock, peer: Address, turn: Turn, ch: Choices)
    requires n.partitions == {} && peer in n.mailboxes && a.party && !turn.Close?
    requires p.Counting? && p.Count(peer).state == a.Of(peer).state && Incoming(a.Of(peer).state, turn).Legal?
    requires ch.reply == Parties.Answer(p, peer, turn).1
    requires Faithful(n, HearTurn(a, peer, turn, ch).effects)
    ensures ch.reply.Some? &&
      var o, reply, q := HearTurn(a, peer, turn, ch), ch.reply.value,
          PartyAfter(p, HearTurn(a, peer, turn, ch).effects);
      && q == Parties.Answer(p, peer, turn).0 && q.Count(peer).state == o.actor.Of(peer).state
      && Carry(n, o.effects)
           == Send(Send(n, a.address, peer, AckMessage(turn.request.id)).0, a.address, peer, TurnMessage(reply)).0
  {
    var fate := FateOf(a.Of(peer), a.party, turn, ch);
    RepliesAreLegal(p, peer, turn);
    var u, v := ReceiptEffects(a, peer, turn, ch), ReplyEffects(a, peer, fate);
    CarryAppend(n, u, v);
    ReceiptOnWire(n, a, peer, turn, ch);
    SendArrives(n, a.address, peer, AckMessage(turn.request.id));
    ReplyOnWire(Carry(n, u), a, peer, fate, ch.reply.value);
    PartyAfterAppend(p, u, v);
    ReceiptHeard(p, a, peer, turn, ch);
    ReplyHeard(Parties.Answer(p, peer, turn).0, a, peer, fate);
  }

  /** With nothing more urgent there, the runtime takes the app's turn. */
  lemma RuntimeHears(g: Setting, t: Table, u: Table, now: nat, ports: Ports, r: Stepped, effects: seq<Effect>)
    requires AtTheDoor(g, t) && RuntimeTakes(g, t, u, now, ports, r, effects)
    ensures var a, d := t.w.rt.actors[g.home.name], t.Mail(g.home)[0];
      Head(t.w.net, g.home) == Arrived(d)
      && Reacted(t.w.rt, u.w.rt, g.home.name, Deliver(d, ports.Choices(a.deadlines)), effects) && u.w.rt.dead == {}
  {
    var inbox := Head(t.w.net, g.home);
    TakeLeavesRest(t.w.net, g.home);
    assert inbox.delivery == t.Mail(g.home)[0];
    assert Address(t.w.rt.endpoint, g.home.name) == g.home;
    assert RoundOf(t.w, g.home.name, now) == Frozen([], now, inbox);
    DeliveryLast(t.w.rt, u.w.rt, g.home.name, [], now, inbox, ports, r, effects);
  }

  lemma RuntimeReacts(g: Setting, t: Table, u: Table, now: nat, ports: Ports, r: Stepped, effects: seq<Effect>)
    requires AtTheDoor(g, t) && RuntimeTakes(g, t, u, now, ports, r, effects)
    ensures var a, turn := t.w.rt.actors[g.home.name], t.Mail(g.home)[0].message.turn;
      var ch := ports.Choices(a.deadlines);
      var o, n := HearTurn(a, g.app, turn, ch), Take(t.w.net, g.home);
      && effects == o.effects && Faithful(n, effects) && ch.reply == Parties.Answer(t.party, g.app, turn).1
      && u.w.rt.endpoint == t.w.rt.endpoint && u.w.rt.dead == {} && u.w.watch == t.w.watch
      && u.w.rt.actors == t.w.rt.actors[g.home.name := o.actor] && u.w.net == Carry(n, effects)
      && o.actor == a.(conversations := o.actor.conversations)
  {
    var a, turn := t.w.rt.actors[g.home.name], t.Mail(g.home)[0].message.turn;
    RuntimeHears(g, t, u, now, ports, r, effects);
    assert Address(t.w.rt.endpoint, g.home.name) == g.home;
    ConsultedIn(a, g.app, turn, ports.Choices(a.deadlines));
  }

  /** A receipt and a reply, sent one after the other to an empty mailbox. */
  lemma BothArrive(n: Net, from: Address, to: Address, receipt: Message, reply: Message)
    requires n.partitions == {} && to in n.mailboxes && Deliveries(n.mailboxes[to]) == []
    requires receipt.AckMessage? && reply.TurnMessage?
    ensures var after := Send(Send(n, from, to, receipt).0, from, to, reply).0;
      && after.partitions == {} && after.watchers == n.watchers && after.mailboxes.Keys == n.mailboxes.Keys
      && TurnsIn(after.sent) == TurnsIn(n.sent) + 1
      && Deliveries(after.mailboxes[to]) == [Delivery(from, to, receipt), Delivery(from, to, reply)]
      && forall a :: a in n.mailboxes && a != to ==> Deliveries(after.mailboxes[a]) == Deliveries(n.mailboxes[a])
  {
    SendArrives(n, from, to, receipt);
    SendArrives(Send(n, from, to, receipt).0, from, to, reply);
  }

  /** What the runtime's move leaves at home, whatever it sent. */
  lemma StillLaid(g: Setting, t: Table, u: Table, now: nat, ports: Ports, r: Stepped, effects: seq<Effect>)
    requires AtTheDoor(g, t) && RuntimeTakes(g, t, u, now, ports, r, effects)
    requires u.party.Counting? && u.w.net.partitions == {} && u.w.net.watchers == t.w.net.watchers
    requires u.w.net.mailboxes.Keys == t.w.net.mailboxes.Keys
    requires var a, turn := t.w.rt.actors[g.home.name], t.Mail(g.home)[0].message.turn;
      u.party.Count(g.app).state == HearTurn(a, g.app, turn, ports.Choices(a.deadlines)).actor.Of(g.app).state
    ensures Laid(g, u)
  {
    RuntimeReacts(g, t, u, now, ports, r, effects);
  }

  /** What the runtime's move makes of a question, on the wire and with the party. */
  lemma QuestionAnswered(g: Setting, t: Table, u: Table, now: nat, ports: Ports, r: Stepped, effects: seq<Effect>)
    requires AtTheDoor(g, t) && !t.Mail(g.home)[0].message.turn.Close?
    requires RuntimeTakes(g, t, u, now, ports, r, effects)
    ensures var a, turn := t.w.rt.actors[g.home.name], t.Mail(g.home)[0].message.turn;
      var n, (c, reply) := Take(t.w.net, g.home), CountdownReply(t.party.Count(g.app), turn);
      && reply.Some? && u.party.Counting? && u.party.Count(g.app) == c
      && c.state == HearTurn(a, g.app, turn, ports.Choices(a.deadlines)).actor.Of(g.app).state
      && u.w.net
           == Send(Send(n, g.home, g.app, AckMessage(turn.request.id)).0, g.home, g.app, TurnMessage(reply.value)).0
  {
    var a, turn := t.w.rt.actors[g.home.name], t.Mail(g.home)[0].message.turn;
    RuntimeReacts(g, t, u, now, ports, r, effects);
    TurnAnswered(Take(t.w.net, g.home), a, t.party, g.app, turn, ports.Choices(a.deadlines));
  }

  /** The table after the runtime's answer to a question. */
  lemma RuntimeServes(g: Setting, t: Table, u: Table, now: nat, ports: Ports, r: Stepped, effects: seq<Effect>)
    requires AtTheDoor(g, t) && !t.Mail(g.home)[0].message.turn.Close?
    requires RuntimeTakes(g, t, u, now, ports, r, effects)
    ensures Laid(g, u) && u.Turns() == t.Turns() + 1
    ensures var turn := t.Mail(g.home)[0].message.turn;
      var (c, reply) := CountdownReply(t.party.Count(g.app), turn);
      && reply.Some? && u.party.Count(g.app) == c && u.Mail(g.home) == []
      && u.Mail(g.app) == [Delivery(g.home, g.app, AckMessage(turn.request.id)),
                           Delivery(g.home, g.app, TurnMessage(reply.value))]
  {
    var turn := t.Mail(g.home)[0].message.turn;
    var reply := CountdownReply(t.party.Count(g.app), turn).1;
    QuestionAnswered(g, t, u, now, ports, r, effects);
    TakeLeavesRest(t.w.net, g.home);
    BothArrive(Take(t.w.net, g.home), g.home, g.app, AckMessage(turn.request.id), TurnMessage(reply.value));
    StillLaid(g, t, u, now, ports, r, effects);
  }

  lemma RuntimeAnswers(g: Setting, t: Table, u: Table, k: nat, now: nat, ports: Ports, r: Stepped, effects: seq<Effect>)
    requires Stands(g, t, Asking(k)) && RuntimeTakes(g, t, u, now, ports, r, effects)
    ensures Stands(g, u, Next(g, Asking(k)))
  {
    RuntimeServes(g, t, u, now, ports, r, effects);
  }

  /** A close is heard and consulted on; nothing answers it. */
  lemma CloseAnswered(n: Net, a: Actor, p: Stock, peer: Address, turn: Turn, ch: Choices)
    requires a.party && turn.Close? && p.Counting? && p.Count(peer).state == a.Of(peer).state
    requires Incoming(a.Of(peer).state, turn).Legal? && ch.reply == Parties.Answer(p, peer, turn).1
    ensures var o := HearTurn(a, peer, turn, ch);
      && PartyAfter(p, o.effects).Counting? && PartyAfter(p, o.effects).Count(peer).state == Idle
      && o.actor.Of(peer).state == Idle && Carry(n, o.effects) == n && Faithful(n, o.effects)
  {
    var h, c := Heard(a.address, peer, turn), Consulted(a.address, peer, turn);
    assert HearTurn(a, peer, turn, ch).effects == [h] + [c];
    ReceiptHeard(p, a, peer, turn, ch);
    assert ReceiptEffects(a, peer, turn, ch) == [h] + [c];
    CarryOne(n, h);
    CarryAppend(n, [h], [c]);
    CarryOne(n, c);
  }

  lemma RuntimeIsClosedOn(g: Setting, t: Table, u: Table, now: nat, ports: Ports, r: Stepped, effects: seq<Effect>)
    requires Stands(g, t, Hanging) && RuntimeTakes(g, t, u, now, ports, r, effects)
    ensures Stands(g, u, Over)
  {
    var a, turn := t.w.rt.actors[g.home.name], t.Mail(g.home)[0].message.turn;
    var n := Take(t.w.net, g.home);
    RuntimeReacts(g, t, u, now, ports, r, effects);
    CloseAnswered(n, a, t.party, g.app, turn, ports.Choices(a.deadlines));
    TakeLeavesRest(t.w.net, g.home);
    StillLaid(g, t, u, now, ports, r, effects);
    assert u.Mail(g.home) == [];
  }

  // ---- The app's moves ----

  lemma AppNotes(g: Setting, t: Table, u: Table, phase: Phase, question: Request, now: nat)
    requires Stands(g, t, phase) && AppTakes(g, t, u, question, now)
    requires (phase.Answering? || phase.Closing?) && !phase.acked
    ensures Stands(g, u, Next(g, phase))
  {
    TakeLeavesRest(t.w.net, g.app);
    assert u.Mail(g.app) == t.Mail(g.app)[1..];
  }

  /** The app's reply on the wire. */
  lemma AppReplies(g: Setting, t: Table, u: Table, k: nat, question: Request, now: nat)
    requires Stands(g, t, Answering(k, true)) && AppTakes(g, t, u, question, now)
    ensures var reply := Reply(g, k + 1, t.Mail(g.app)[0].message.turn.request, question);
      && u.w == t.w.(net := Send(Take(t.w.net, g.app), g.app, g.home, TurnMessage(reply)).0) && u.heard == k + 1
      && u.party == t.party && u.acks == t.acks
      && u.phone == Say(Hear(t.phone, t.Mail(g.app)[0].message.turn).0, reply, true, g.patience, now).0
  {
    var reply := Reply(g, k + 1, t.Mail(g.app)[0].message.turn.request, question);
    TakeLeavesRest(t.w.net, g.app);
    SendArrives(Take(t.w.net, g.app), g.app, g.home, TurnMessage(reply));
  }

  lemma ReplyAtTheDoor(g: Setting, t: Table, u: Table, reply: Turn)
    requires Laid(g, t) && |t.Mail(g.app)| == 1 && t.Mail(g.home) == [] && Head(t.w.net, g.app).Arrived?
    requires u.w == t.w.(net := Send(Take(t.w.net, g.app), g.app, g.home, TurnMessage(reply)).0) && u.party == t.party
    ensures Laid(g, u) && u.Turns() == t.Turns() + 1
    ensures u.Mail(g.home) == [Delivery(g.app, g.home, TurnMessage(reply))] && u.Mail(g.app) == []
  {
    TakeLeavesRest(t.w.net, g.app);
    SendArrives(Take(t.w.net, g.app), g.app, g.home, TurnMessage(reply));
  }

  /** The app asks again, or closes. */
  lemma AppGoesOn(g: Setting, t: Table, u: Table, k: nat, question: Request, now: nat)
    requires Stands(g, t, Answering(k, true)) && AppTakes(g, t, u, question, now)
    ensures Stands(g, u, Next(g, Answering(k, true)))
  {
    AppReplies(g, t, u, k, question, now);
    ReplyAtTheDoor(g, t, u, Reply(g, k + 1, t.Mail(g.app)[0].message.turn.request, question));
  }

  lemma AppConcludes(g: Setting, t: Table, u: Table, question: Request, now: nat)
    requires Stands(g, t, Closing(true)) && AppTakes(g, t, u, question, now)
    ensures Stands(g, u, Over)
  {
    TakeLeavesRest(t.w.net, g.app);
    assert u.Mail(g.app) == [];
  }

  // ---- The whole exchange ----

  lemma MoveAdvances(g: Setting, t: Table, u: Table, phase: Phase)
    requires Stands(g, t, phase) && Moves(g, t, u)
    ensures !phase.Over? && Stands(g, u, Next(g, phase))
  {
    if now, ports, r, effects :| RuntimeTakes(g, t, u, now, ports, r, effects) {
      assert t.Mail(g.home) != [];
      if phase.Hanging? {
        RuntimeIsClosedOn(g, t, u, now, ports, r, effects);
      } else {
        RuntimeAnswers(g, t, u, phase.k, now, ports, r, effects);
      }
    } else {
      var question, now :| AppTakes(g, t, u, question, now);
      assert t.Mail(g.app) != [];
      if !phase.acked {
        AppNotes(g, t, u, phase, question, now);
      } else if phase.Answering? {
        AppGoesOn(g, t, u, phase.k, question, now);
      } else {
        AppConcludes(g, t, u, question, now);
      }
    }
  }

  lemma OpeningOnWire(g: Setting, request: Request)
    requires g.home != g.app
    ensures var net := EMPTY.(mailboxes := map[g.home := [], g.app := []], watchers := [[]]);
      var (n, ok) := Send(net, g.app, g.home, TurnMessage(Open(request)));
      && ok && n.partitions == {} && n.watchers == [[]] && n.mailboxes.Keys == {g.home, g.app} && TurnsIn(n.sent) == 1
      && Deliveries(n.mailboxes[g.home]) == [Delivery(g.app, g.home, TurnMessage(Open(request)))]
      && Deliveries(n.mailboxes[g.app]) == []
  {
    var net := EMPTY.(mailboxes := map[g.home := [], g.app := []], watchers := [[]]);
    assert net.mailboxes.Keys == {g.home, g.app};
    SendArrives(net, g.app, g.home, TurnMessage(Open(request)));
    assert Deliveries(net.mailboxes[g.home]) == [] && Deliveries(net.mailboxes[g.app]) == [];
  }

  lemma OpeningAsks(g: Setting, t: Table, a: Actor, request: Request, now: nat)
    requires Begins(g, t, a, request, now)
    ensures Stands(g, t, Asking(0))
  {
    OpeningOnWire(g, request);
    assert t.party.Count(g.app) == Countdown(Idle, g.rounds, 100);
    assert t.Mail(g.home)[0].message.turn == Open(request);
  }

  lemma StepsAddUp(g: Setting, t: Table, phase: Phase)
    requires Stands(g, t, phase)
    ensures phase.Step(g) <= g.Deliveries()
    ensures phase.Over? <==> phase.Step(g) == g.Deliveries()
    ensures !phase.Over? ==> Next(g, phase).Step(g) == phase.Step(g) + 1
    ensures !phase.Over? ==> Head(t.w.net, g.home).Arrived? || Head(t.w.net, g.app).Arrived?
  {
    assert t.Mail(g.home) != [] ==> Head(t.w.net, g.home).Arrived?;
    assert t.Mail(g.app) != [] ==> Head(t.w.net, g.app).Arrived?;
  }

  ghost predicate StandsAfter(g: Setting, t: Table, taken: nat) {
    exists phase :: Stands(g, t, phase) && phase.Step(g) == taken
  }

  lemma {:induction false} StandsNext(g: Setting, run: seq<Table>, i: nat)
    requires i < |run| - 1 && MovesAt(g, run, i) && StandsAfter(g, run[i], i)
    ensures StandsAfter(g, run[i + 1], i + 1)
  {
    var phase :| Stands(g, run[i], phase) && phase.Step(g) == i;
    MovesOn(g, run[i], run[i + 1], phase);
  }

  lemma {:induction false} AlwaysStands(g: Setting, run: seq<Table>, i: nat)
    requires Plays(g, run) && i < |run|
    ensures StandsAfter(g, run[i], i)
  {
    if i == 0 {
      StartsStanding(g, run[0]);
    } else {
      AlwaysStands(g, run, i - 1);
      assert MovesAt(g, run, i - 1);
      StandsNext(g, run, i - 1);
    }
  }

  lemma MovesOn(g: Setting, t: Table, u: Table, phase: Phase)
    requires Stands(g, t, phase) && Moves(g, t, u)
    ensures StandsAfter(g, u, phase.Step(g) + 1)
  {
    MoveAdvances(g, t, u, phase);
    StepsAddUp(g, t, phase);
  }

  lemma StartsStanding(g: Setting, t: Table)
    requires Starts(g, t)
    ensures StandsAfter(g, t, 0)
  {
    var a, request, now :| Begins(g, t, a, request, now);
    OpeningAsks(g, t, a, request, now);
    assert Asking(0).Step(g) == 0;
  }

  /** Until the exchange is over somebody can move: the app at once, the runtime as long as none of its
      actor's waits is overdue. */
  lemma SomebodyCanMove(g: Setting, t: Table, phase: Phase, now: nat)
    requires Stands(g, t, phase) && !phase.Over?
    requires !Urgent(t.w.rt, t.w.rt.actors[g.home.name], [], now)
    ensures exists u :: Moves(g, t, u)
  {
    if phase.Asking? || phase.Hanging? {
      RuntimeCanMove(g, t, now);
    } else {
      AppCanMove(g, t);
    }
  }

  lemma AppCanMove(g: Setting, t: Table)
    requires t.Mail(g.app) != []
    ensures exists u :: Moves(g, t, u)
  {
    var question := Request(RequestId([]), []);
    var u := AppTook(g, t, Head(t.w.net, g.app).delivery, question, 0);
    assert AppTakes(g, t, u, question, 0);
    assert Moves(g, t, u);
  }

  /** What the ports answer when nothing is refused: the party's own reply. */
  function Willing(g: Setting, t: Table, turn: Turn, now: nat): Ports {
    Ports(true, Parties.Answer(t.party, g.app, turn).1, true, None, now)
  }

  lemma {:induction false} RuntimeCanStep(g: Setting, t: Table, now: nat) returns (x: World, r: Stepped)
    requires AtTheDoor(g, t) && !Urgent(t.w.rt, t.w.rt.actors[g.home.name], [], now)
    ensures var ports := Willing(g, t, t.Mail(g.home)[0].message.turn, now);
      RuntimeSteps(t.w, x, g.home.name, now, ports, r, x.did)
  {
    var a, d := t.w.rt.actors[g.home.name], t.Mail(g.home)[0];
    var ports := Willing(g, t, d.message.turn, now);
    TakeLeavesRest(t.w.net, g.home);
    RepliedFaithfully(Take(t.w.net, g.home), a, t.party, g.app, d.message.turn, ports.Choices(a.deadlines));
    assert Address(t.w.rt.endpoint, g.home.name) == g.home;
    x, r := DeliveryCanBeStepped(t.w, g.home.name, now, ports);
  }

  lemma {:induction false} RuntimeCanMove(g: Setting, t: Table, now: nat)
    requires AtTheDoor(g, t) && !Urgent(t.w.rt, t.w.rt.actors[g.home.name], [], now)
    ensures exists u :: Moves(g, t, u)
  {
    var a, d := t.w.rt.actors[g.home.name], t.Mail(g.home)[0];
    var ports := Willing(g, t, d.message.turn, now);
    var x, r := RuntimeCanStep(g, t, now);
    TakeLeavesRest(t.w.net, g.home);
    OnlyThisTurn(t.party, a, d, ports.Choices(a.deadlines));
    var u := Table(x, PartyAfter(t.party, x.did), t.phone, t.heard, t.acks);
    assert RuntimeTakes(g, t, u, now, ports, r, x.did);
    assert Moves(g, t, u);
  }

  lemma RepliedFaithfully(n: Net, a: Actor, p: Stock, peer: Address, turn: Turn, ch: Choices)
    requires n.partitions == {} && peer in n.mailboxes && a.party && ch.receiptOk && ch.replyOk
    requires p.Counting? && p.Count(peer).state == a.Of(peer).state && Incoming(a.Of(peer).state, turn).Legal?
    requires ch.reply == Parties.Answer(p, peer, turn).1
    ensures Faithful(n, HearTurn(a, peer, turn, ch).effects)
  {
    if turn.Close? {
      CloseAnswered(n, a, p, peer, turn, ch);
    } else {
      HandledFaithfully(n, a, p, peer, turn, ch);
    }
  }

  /** A network without partitions accepts what goes to a bound address. */
  lemma HandledFaithfully(n: Net, a: Actor, p: Stock, peer: Address, turn: Turn, ch: Choices)
    requires n.partitions == {} && peer in n.mailboxes && a.party && !turn.Close? && ch.receiptOk && ch.replyOk
    requires p.Counting? && p.Count(peer).state == a.Of(peer).state && Incoming(a.Of(peer).state, turn).Legal?
    requires ch.reply == Parties.Answer(p, peer, turn).1
    ensures Faithful(n, HearTurn(a, peer, turn, ch).effects)
  {
    RepliesAreLegal(p, peer, turn);
    var u, reply := ReceiptEffects(a, peer, turn, ch), TurnMessage(ch.reply.value);
    var h, s, c := Heard(a.address, peer, turn), SendTried(a.address, peer, AckMessage(turn.request.id), true),
      Consulted(a.address, peer, turn);
    var v := SendTried(a.address, peer, reply, true);
    assert HearTurn(a, peer, turn, ch).effects == [h] + [s] + [c] + [v];
    SendArrives(n, a.address, peer, s.message);
    var m := Send(n, a.address, peer, s.message).0;
    SendArrives(m, a.address, peer, reply);
    CarryOne(n, h); CarryAppend(n, [h], [s]);
    CarryOne(n, s); CarryAppend(n, [h] + [s], [c]);
    CarryOne(m, c); CarryAppend(n, [h] + [s] + [c], [v]);
    CarryOne(m, v);
  }

  /** The party is consulted on the turn delivered, and on no other. */
  lemma OnlyThisTurn(p: Stock, a: Actor, d: Delivery, ch: Choices)
    requires d.message.TurnMessage? && d.from.endpoint in a.allowlist
    requires ch.reply == Parties.Answer(p, d.from, d.message.turn).1
    ensures PartyReplies(Hosted(a, p), Deliver(d, ch))
  {
    var turn := d.message.turn;
    var fate := FateOf(a.Of(d.from), a.party, turn, ch);
    assert forall q, other :: Consulted(a.address, q, other) in ReceiptEffects(a, d.from, turn, ch) ==>
      q == d.from && other == turn;
    assert forall q, other :: Consulted(a.address, q, other) !in ReplyEffects(a, d.from, fate);
  }

  /** Against a fresh countdown of `n`, in whatever order the two sides take their deliveries. An app that
      closes on the `j`-th question, for a `j` from 1 to `n`, is done after exactly `3j + 1` deliveries,
      with `2j + 1` turns and `j` acks; one that never closes, after exactly `3n + 3`, with `2n + 2` turns
      and `n + 1` acks. Each ack is the one awaited. Until then there is always something to take; at the
      end nothing is left on the wire, and both machines are idle. */
  lemma {:induction false} CountdownConcludes(g: Setting, run: seq<Table>)
    requires Plays(g, run)
    ensures var t, n, j := run[|run| - 1], g.rounds as nat, g.closesAt;
      var early := 1 <= j <= n;
      var all := if early then 3 * j + 1 else 3 * n + 3;
      && |run| - 1 <= all
      && (|run| - 1 < all ==> Head(t.w.net, g.home).Arrived? || Head(t.w.net, g.app).Arrived?)
      && (|run| - 1 == all ==>
            && t.Turns() == (if early then 2 * j + 1 else 2 * n + 2) && t.acks == (if early then j else n + 1)
            && t.phone == QUIET && t.Mail(g.home) == [] && t.Mail(g.app) == []
            && g.home.name in t.w.rt.actors && t.w.rt.actors[g.home.name].Of(g.app).state == Idle)
  {
    AlwaysStands(g, run, |run| - 1);
    AddedUp(g, run[|run| - 1], |run| - 1);
  }

  /** What is the case after so many deliveries. */
  lemma {:induction false} AddedUp(g: Setting, t: Table, taken: nat)
    requires StandsAfter(g, t, taken)
    ensures taken <= g.Deliveries()
    ensures taken < g.Deliveries() ==> Head(t.w.net, g.home).Arrived? || Head(t.w.net, g.app).Arrived?
    ensures taken == g.Deliveries() ==>
      t.Turns() == g.Turns() && t.acks == g.Acks() && t.phone == QUIET && t.Mail(g.home) == [] && t.Mail(g.app) == []
      && g.home.name in t.w.rt.actors && t.w.rt.actors[g.home.name].Of(g.app).state == Idle
  {
    var phase :| Stands(g, t, phase) && phase.Step(g) == taken;
    StepsAddUp(g, t, phase);
  }

  /** An exchange that is over has taken the documented `2n + 1` turns if and only if the app closed on the
      last question. */
  lemma {:induction false} DocumentedCount(g: Setting, run: seq<Table>)
    requires Plays(g, run) && |run| - 1 == g.Deliveries()
    ensures run[|run| - 1].Turns() == 2 * (g.rounds as nat) + 1 <==> 1 <= g.closesAt == g.rounds as nat
  {
    CountdownConcludes(g, run);
  }
}
