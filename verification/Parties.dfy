/** The stock parties. Each keeps its own copy of every conversation's turn machine. */
module Parties {
  import opened Vocabulary
  import opened Protocol
  import opened Engine

  /** One conversation's countdown: the shadow machine, the questions left, the next question's id. */
  datatype Countdown = Countdown(state: TurnState, remaining: u8, nextId: u8)

  /** What a hosted stock party holds. */
  datatype Stock =
    | Echo(states: map<Address, TurnState>)
    | Counting(rounds: u8, peers: map<Address, Countdown>)
  {
    /** The shadow of the conversation with `peer`. */
    function Shadow(peer: Address): TurnState {
      match this
      case Echo(states) => if peer in states then states[peer] else Idle
      case Counting(_, peers) => if peer in peers then peers[peer].state else Idle
    }

    function Count(peer: Address): Countdown
      requires Counting?
    {
      if peer in peers then peers[peer] else Countdown(Idle, rounds, 100)
    }
  }

  /** Sixteen bytes, all the same. */
  function IdOf(b: u8): RequestId { RequestId(seq(16, _ => b)) }

  function Increment(b: u8): u8 { if b == 255 then 0 else b + 1 }

  /** Echo's answer: the body back, and no question of its own. */
  function EchoReply(s: TurnState, turn: Turn): (TurnState, Option<Turn>) {
    var ruling := Incoming(s, turn);
    if ruling.Refused? then (s, None)
    else if turn.Close? then (ruling.next, None)
    else
      var reply := Close(Response(turn.request.id, turn.request.body));
      (Outgoing(ruling.next, reply).Next(ruling.next), Some(reply))
  }

  function CountdownReply(c: Countdown, turn: Turn): (Countdown, Option<Turn>) {
    var ruling := Incoming(c.state, turn);
    if ruling.Refused? then (c, None)
    else if turn.Close? then (c.(state := ruling.next), None)
    else
      var response := Response(turn.request.id, turn.request.body);
      var reply := if c.remaining > 0 then Continue(response, Request(IdOf(c.nextId), [c.remaining - 1]))
        else Close(response);
      (Countdown(Outgoing(ruling.next, reply).Next(ruling.next),
                 if c.remaining > 0 then c.remaining - 1 else 0,
                 if c.remaining > 0 then Increment(c.nextId) else c.nextId),
       Some(reply))
  }

  function Answer(p: Stock, from: Address, turn: Turn): (Stock, Option<Turn>) {
    match p
    case Echo(states) =>
      var (s, reply) := EchoReply(p.Shadow(from), turn);
      (Echo(states[from := s]), reply)
    case Counting(rounds, peers) =>
      var (c, reply) := CountdownReply(p.Count(from), turn);
      (Counting(rounds, peers[from := c]), reply)
  }

  function Abandon(p: Stock, from: Address): Stock {
    match p
    case Echo(states) => if from in states then Echo(states[from := states[from].Fail()]) else p
    case Counting(rounds, peers) =>
      if from in peers then Counting(rounds, peers[from := peers[from].(state := peers[from].state.Fail())]) else p
  }

  class EchoParty {
    var states: map<Address, TurnState>

    function View(): Stock
      reads this
    {
      Echo(states)
    }

    constructor ()
      ensures View() == Echo(map[])
    {
      states := map[];
    }

    method OnTurn(from: Address, turn: Turn) returns (reply: Option<Turn>)
      modifies this
      ensures (View(), reply) == Answer(old(View()), from, turn)
    {
      var state := if from in states then states[from] else Idle;
      var ruling := Incoming(state, turn);
      if ruling.Refused? {
        states := states[from := state];
        return None;
      }
      state := ruling.next;
      if turn.Close? {
        states := states[from := state];
        return None;
      }
      var answer := Close(Response(turn.request.id, turn.request.body));
      var sendable := Outgoing(state, answer);
      assert sendable.Legal?;
      states := states[from := sendable.next];
      reply := Some(answer);
    }

    method OnExchangeFailed(from: Address)
      modifies this
      ensures View() == Abandon(old(View()), from)
    {
      if from in states { states := states[from := states[from].Fail()]; }
    }
  }

  class CountdownParty {
    const rounds: u8
    var peers: map<Address, Countdown>

    function View(): Stock
      reads this
    {
      Counting(rounds, peers)
    }

    constructor (rounds: u8)
      ensures View() == Counting(rounds, map[])
    {
      this.rounds := rounds;
      peers := map[];
    }

    method OnTurn(from: Address, turn: Turn) returns (reply: Option<Turn>)
      modifies this
      ensures (View(), reply) == Answer(old(View()), from, turn)
    {
      var peer := if from in peers then peers[from] else Countdown(Idle, rounds, 100);
      var ruling := Incoming(peer.state, turn);
      if ruling.Refused? {
        peers := peers[from := peer];
        return None;
      }
      peer := peer.(state := ruling.next);
      if turn.Close? {
        peers := peers[from := peer];
        return None;
      }
      var response := Response(turn.request.id, turn.request.body);
      var answer;
      if peer.remaining > 0 {
        peer := peer.(remaining := peer.remaining - 1);
        var id := IdOf(peer.nextId);
        peer := peer.(nextId := Increment(peer.nextId));
        answer := Continue(response, Request(id, [peer.remaining]));
      } else {
        answer := Close(response);
      }
      var sendable := Outgoing(peer.state, answer);
      assert sendable.Legal?;
      peer := peer.(state := sendable.next);
      peers := peers[from := peer];
      reply := Some(answer);
    }

    method OnExchangeFailed(from: Address)
      modifies this
      ensures View() == Abandon(old(View()), from)
    {
      if from in peers { peers := peers[from := peers[from].(state := peers[from].state.Fail())]; }
    }
  }

  /** What a reply does, for either party: the shadow takes the turn in, and unless that was the close,
      says a reply that it is this side's to say. */
  lemma RepliesAreLegal(p: Stock, from: Address, turn: Turn)
    requires Incoming(p.Shadow(from), turn).Legal?
    ensures var heard := Incoming(p.Shadow(from), turn).next;
      var (q, reply) := Answer(p, from, turn);
      && (reply.None? <==> turn.Close?)
      && (reply.Some? ==> Outgoing(heard, reply.value).Legal? && q.Shadow(from) == Outgoing(heard, reply.value).next)
      && (reply.None? ==> q.Shadow(from) == heard)
  {
    match p { case Echo(_) => case Counting(_, _) => }
  }

  lemma TurnsTouchOneShadow(p: Stock, from: Address, turn: Turn, other: Address)
    ensures other != from ==> Answer(p, from, turn).0.Shadow(other) == p.Shadow(other)
    ensures Abandon(p, from).Shadow(other) == if other == from then p.Shadow(from).Fail() else p.Shadow(other)
  {
    match p { case Echo(_) => case Counting(_, _) => }
  }

  // ---- Hosted ----

  /** A party is called back twice over: consulted on a turn, and told of a failure. */
  function CalledBack(p: Stock, e: Effect): Stock {
    if e.Consulted? then Answer(p, e.peer, e.turn).0
    else if e.Told? then Abandon(p, e.peer)
    else p
  }

  function PartyAfter(p: Stock, effects: seq<Effect>): Stock {
    if effects == [] then p else CalledBack(PartyAfter(p, effects[..|effects| - 1]), effects[|effects| - 1])
  }

  /** An actor and the stock party behind it. */
  datatype Hosted = Hosted(actor: Actor, party: Stock)

  /** The reply the actor works with is the one its party makes. */
  ghost predicate PartyReplies(h: Hosted, input: Input) {
    input.Deliver? ==>
      forall peer, turn :: Consulted(h.actor.address, peer, turn) in React(h.actor, input).effects ==>
        input.choices.reply == Answer(h.party, peer, turn).1
  }

  function HostedReact(h: Hosted, input: Input): Hosted {
    var o := React(h.actor, input);
    Hosted(o.actor, PartyAfter(h.party, o.effects))
  }

  ghost predicate HostedRun(h: Hosted, inputs: seq<Input>) {
    inputs == [] || (HostedRun(h, inputs[..|inputs| - 1])
                     && var now := HostedAfter(h, inputs[..|inputs| - 1]);
                        Enabled(now.actor, inputs[|inputs| - 1]) && PartyReplies(now, inputs[|inputs| - 1]))
  }

  function HostedAfter(h: Hosted, inputs: seq<Input>): Hosted {
    if inputs == [] then h else HostedReact(HostedAfter(h, inputs[..|inputs| - 1]), inputs[|inputs| - 1])
  }

  predicate New(h: Hosted) {
    h.actor.party && h.actor.conversations == map[]
    && (match h.party case Echo(states) => states == map[] case Counting(_, peers) => peers == map[])
  }
}
