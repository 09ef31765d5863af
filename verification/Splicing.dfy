/** Two turn machines over a network that loses, delays, duplicates and reorders at will, each side
    free to pass a verdict of death at any moment. Side A never poses the same id twice; side B is
    bound by nothing but its machine. */
module Splicing {
  import opened Vocabulary
  import opened Protocol

  /** The machines, every turn either side ever put on the network, and A's history: how many
      exchanges it has begun, what it posed in which of them, what B accepted and what A took as
      answered, in order. */
  datatype World = World(
    a: TurnState, b: TurnState, ab: set<Turn>, ba: set<Turn>,
    exchange: nat, posed: seq<RequestId>, posedIn: map<RequestId, nat>,
    reached: set<RequestId>, answered: seq<RequestId>)

  const START := World(Idle, Idle, {}, {}, 0, [], map[], {}, [])

  datatype Event =
    | ASays(turn: Turn)
    | BSays(turn: Turn)
    | AHears(turn: Turn)
    | BHears(turn: Turn)
    | AFails
    | BFails

  /** What may happen: a side says what its machine allows, A with a fresh id; a side hears a turn
      that was once sent to it, accepted or not; a side gives its exchange up. */
  predicate Enabled(w: World, e: Event) {
    match e
    case ASays(t) => Outgoing(w.a, t).Legal? && (t.Posed().Some? ==> t.Posed().value !in w.posed)
    case BSays(t) => Outgoing(w.b, t).Legal?
    case AHears(t) => t in w.ba
    case BHears(t) => t in w.ab
    case _ => true
  }

  function Step(w: World, e: Event): World {
    match e
    case ASays(t) =>
      var ex := if t.Open? then w.exchange + 1 else w.exchange;
      w.(a := Outgoing(w.a, t).Next(w.a), ab := w.ab + {t}, exchange := ex,
         posed := if t.Posed().Some? then w.posed + [t.Posed().value] else w.posed,
         posedIn := if t.Posed().Some? then w.posedIn[t.Posed().value := ex] else w.posedIn)
    case BSays(t) => w.(b := Outgoing(w.b, t).Next(w.b), ba := w.ba + {t})
    case AHears(t) =>
      var ruling := Incoming(w.a, t);
      if ruling.Refused? then w
      else w.(a := ruling.next, exchange := if t.Open? then w.exchange + 1 else w.exchange,
              answered := if t.Answered().Some? then w.answered + [t.Answered().value] else w.answered)
    case BHears(t) =>
      var ruling := Incoming(w.b, t);
      if ruling.Refused? then w
      else w.(b := ruling.next, reached := if t.Posed().Some? then w.reached + {t.Posed().value} else w.reached)
    case AFails => w.(a := w.a.Fail())
    case BFails => w.(b := w.b.Fail())
  }

  ghost predicate Run(w: World, events: seq<Event>)
    decreases |events|
  {
    events == [] || (Enabled(w, events[0]) && Run(Step(w, events[0]), events[1..]))
  }

  function After(w: World, events: seq<Event>): World
    decreases |events|
  {
    if events == [] then w else After(Step(w, events[0]), events[1..])
  }

  predicate Distinct(s: seq<RequestId>) {
    forall i, j :: 0 <= i < j < |s| ==> s[i] != s[j]
  }

  ghost predicate Honest(w: World) {
    // A's open question is the last one it posed, in the exchange now under way, and unanswered.
    && (w.a.AwaitingTheirTurn? ==>
          && w.posed != [] && w.posed[|w.posed| - 1] == w.a.outstanding
          && w.a.outstanding in w.posedIn && w.posedIn[w.a.outstanding] == w.exchange
          && w.a.outstanding !in w.answered)
    && Distinct(w.posed) && Distinct(w.answered)
    && (forall id :: id in w.answered ==> id in w.posed && id in w.reached)
    // B answers only questions that reached it, and only A's questions reach it.
    && (forall t :: t in w.ab && t.Posed().Some? ==> t.Posed().value in w.posed)
    && (forall id :: id in w.reached ==> id in w.posed)
    && (w.b.OweThem? ==> w.b.outstanding in w.reached)
    && (forall t :: t in w.ba && t.Answered().Some? ==> t.Answered().value in w.reached)
  }

  lemma StepKeepsHonest(w: World, e: Event)
    requires Honest(w) && Enabled(w, e)
    ensures Honest(Step(w, e))
  {
    match e {
      case ASays(t) => match t { case Open(_) => case Continue(_, _) => case Close(_) => }
      case AHears(t) => if Incoming(w.a, t).Legal? && t.Answered().Some? { assert t.Answered().value in w.reached; }
      case BHears(t) =>
      case BSays(t) =>
      case _ =>
    }
  }

  lemma {:induction false} RunKeepsHonest(w: World, events: seq<Event>)
    requires Honest(w) && Run(w, events)
    ensures Honest(After(w, events))
    decreases |events|
  {
    if events != [] {
      StepKeepsHonest(w, events[0]);
      RunKeepsHonest(Step(w, events[0]), events[1..]);
    }
  }

  /** Dead exchanges never splice into live ones: after any run, a response that A accepts answers
      the question A posed last, posed in the very exchange now under way, which reached B before B
      answered; A had accepted no answer to it before, and never accepts one again. */
  lemma AcceptedAnswersAreCurrent(events: seq<Event>, t: Turn, later: seq<Event>)
    requires Run(START, events)
    requires t in After(START, events).ba && !t.Open? && Incoming(After(START, events).a, t).Legal?
    requires Run(After(START, events), [AHears(t)] + later)
    ensures var w := After(START, events);
      && w.posed != [] && t.Answered() == Some(w.posed[|w.posed| - 1])
      && t.Answered().value in w.posedIn && w.posedIn[t.Answered().value] == w.exchange
      && t.Answered().value in w.reached
      && t.Answered().value !in w.answered
    ensures var end := After(After(START, events), [AHears(t)] + later);
      && Distinct(end.answered)
      && t.Answered().value in end.answered
  {
    RunKeepsHonest(START, events);
    var w := After(START, events);
    var run := [AHears(t)] + later;
    RunKeepsHonest(w, run);
    assert run[0] == AHears(t) && run[1..] == later;
    AnswersAccumulate(Step(w, AHears(t)), later, t.Answered().value);
  }

  lemma {:induction false} AnswersAccumulate(w: World, events: seq<Event>, id: RequestId)
    requires id in w.answered
    ensures id in After(w, events).answered
    decreases |events|
  {
    if events != [] {
      AnswersAccumulate(Step(w, events[0]), events[1..], id);
    }
  }

  /** The hypothesis earns its keep: let A pose one id again after giving an exchange up, and a
      straggler answering the dead exchange concludes the live one. */
  lemma ReusedIdsSplice(id: RequestId)
    ensures var q := Open(Request(id, []));
      var dead := Outgoing(Idle, q).Next(Idle).Fail();
      && dead.Failed?
      && Incoming(Outgoing(dead, q).Next(dead), Close(Response(id, []))) == Legal(Idle, Concluded)
  {
  }
}
