/** Two turn machines joined by lossless first-in-first-out channels, with no verdicts of death. */
module Duel {
  import opened Vocabulary
  import opened Protocol

  /** Side A's and side B's machines, and the turns in flight each way. */
  datatype Pair = Pair(a: TurnState, b: TurnState, ab: seq<Turn>, ba: seq<Turn>)

  const START := Pair(Idle, Idle, [], [])

  datatype Move = Say(byA: bool, turn: Turn) | Hear(byA: bool)

  function Swap(p: Pair): Pair { Pair(p.b, p.a, p.ba, p.ab) }

  /** A says `turn`, if its machine lets it. */
  function ASays(p: Pair, turn: Turn): Pair {
    var r := Outgoing(p.a, turn);
    if r.Legal? then p.(a := r.next, ab := p.ab + [turn]) else p
  }

  /** A hears the oldest turn in flight to it; a turn its machine refuses is dropped. */
  function AHears(p: Pair): Pair {
    if p.ba == [] then p
    else p.(a := Incoming(p.a, p.ba[0]).Next(p.a), ba := p.ba[1..])
  }

  function Play(p: Pair, m: Move): Pair {
    match m
    case Say(byA, turn) => if byA then ASays(p, turn) else Swap(ASays(Swap(p), turn))
    case Hear(byA) => if byA then AHears(p) else Swap(AHears(Swap(p)))
  }

  function PlayAll(p: Pair, moves: seq<Move>): Pair {
    if moves == [] then p else Play(PlayAll(p, moves[..|moves| - 1]), moves[|moves| - 1])
  }

  // The shapes a reachable pair can have, up to swapping the sides.

  predicate Resting(p: Pair) { p == START }

  predicate Asked(p: Pair) {
    p.a.AwaitingTheirTurn? && p.b.Idle? && p.ba == []
    && |p.ab| == 1 && p.ab[0].Open? && p.ab[0].Posed() == Some(p.a.outstanding)
  }

  predicate Owing(p: Pair) {
    p.a.AwaitingTheirTurn? && p.b == OweThem(p.a.outstanding) && p.ab == [] && p.ba == []
  }

  predicate Answering(p: Pair) {
    p.a.AwaitingTheirTurn? && p.ab == [] && |p.ba| == 1
    && p.ba[0].Answered() == Some(p.a.outstanding)
    && p.b == if p.ba[0].Close? then Idle else AwaitingTheirTurn(p.ba[0].request.id)
  }

  predicate Reopened(p: Pair) {
    p.a.AwaitingTheirTurn? && p.b.AwaitingTheirTurn? && p.ab == [] && |p.ba| == 2
    && p.ba[0].Close? && p.ba[0].Answered() == Some(p.a.outstanding)
    && p.ba[1].Open? && p.ba[1].Posed() == Some(p.b.outstanding)
  }

  /** Both sides opened at once. */
  predicate Glare(p: Pair) {
    p.a.AwaitingTheirTurn? && p.b.AwaitingTheirTurn?
    && |p.ab| <= 1 && (|p.ab| == 1 ==> p.ab[0].Open?)
    && |p.ba| <= 1 && (|p.ba| == 1 ==> p.ba[0].Open?)
  }

  predicate HalfShape(p: Pair) {
    Resting(p) || Asked(p) || Owing(p) || Answering(p) || Reopened(p) || Glare(p)
  }

  predicate Shape(p: Pair) { HalfShape(p) || HalfShape(Swap(p)) }

  lemma SayKeepsShape(p: Pair, turn: Turn)
    requires Shape(p)
    ensures Shape(ASays(p, turn))
    ensures Glare(p) ==> Glare(ASays(p, turn))
  {
    var q := ASays(p, turn);
    if q != p {
      if Owing(Swap(p)) {
        assert Answering(Swap(q));
      } else if Answering(Swap(p)) {
        assert Reopened(Swap(q));
      } else if Resting(p) {
        assert Asked(q);
      } else if Asked(Swap(p)) {
        assert Glare(q);
      }
    }
  }

  lemma HearKeepsShape(p: Pair)
    requires Shape(p)
    ensures Shape(AHears(p))
    ensures Glare(p) ==> Glare(AHears(p))
  {
    if p.ba != [] {
      var q := AHears(p);
      if Answering(p) {
        if p.ba[0].Close? { assert Resting(q); } else { assert Owing(Swap(q)); }
      } else if Reopened(p) {
        assert Asked(Swap(q));
      } else if Asked(Swap(p)) {
        assert Owing(Swap(q));
      } else {
        assert Glare(p) || Glare(Swap(p));
      }
    }
  }

  lemma PlayKeepsShape(p: Pair, m: Move)
    requires Shape(p)
    ensures Shape(Play(p, m))
    ensures Glare(p) ==> Glare(Play(p, m))
  {
    assert Swap(Swap(p)) == p;
    match m {
      case Say(true, turn) => SayKeepsShape(p, turn);
      case Say(false, turn) => SayKeepsShape(Swap(p), turn);
      case Hear(true) => HearKeepsShape(p);
      case Hear(false) => HearKeepsShape(Swap(p));
    }
  }

  /** In every run at most two turns are in flight in all, and a turn about to be heard is refused
      only when two openings crossed: it is then an opening, the refusal is `MustAnswerFirst`, and
      both sides are waiting. In particular every answer is accepted. */
  lemma {:induction false} EveryRunIsOrderly(moves: seq<Move>)
    ensures var p := PlayAll(START, moves);
      && Shape(p)
      && |p.ab| + |p.ba| <= 2
      && (p.ba != [] && Incoming(p.a, p.ba[0]).Refused? ==>
            Glare(p) && p.ba[0].Open? && Incoming(p.a, p.ba[0]).error == MustAnswerFirst)
      && (p.ab != [] && Incoming(p.b, p.ab[0]).Refused? ==>
            Glare(p) && p.ab[0].Open? && Incoming(p.b, p.ab[0]).error == MustAnswerFirst)
    decreases |moves|
  {
    if moves != [] {
      EveryRunIsOrderly(moves[..|moves| - 1]);
      PlayKeepsShape(PlayAll(START, moves[..|moves| - 1]), moves[|moves| - 1]);
    }
  }

  /** Nothing can happen any more: nothing in flight and neither side may speak. */
  ghost predicate Stuck(p: Pair) {
    p.ab == [] && p.ba == []
    && forall turn: Turn :: Outgoing(p.a, turn).Refused? && Outgoing(p.b, turn).Refused?
  }

  lemma SomeoneMaySpeak(p: Pair)
    requires Shape(p) && !Glare(p) && p.ab == [] && p.ba == []
    ensures exists turn: Turn :: Outgoing(p.a, turn).Legal? || Outgoing(p.b, turn).Legal?
  {
    if p.a.OweThem? {
      assert Outgoing(p.a, Close(Response(p.a.outstanding, []))).Legal?;
    } else if p.b.OweThem? {
      assert Outgoing(p.b, Close(Response(p.b.outstanding, []))).Legal?;
    } else {
      assert Outgoing(p.a, Open(Request(RequestId([]), []))).Legal?;
    }
  }

  /** A run can only get stuck by crossing openings, and crossed openings always end stuck: once
      crossed they stay crossed, and the run has nothing left but to drain its channels. */
  lemma StuckExactlyByGlare(moves: seq<Move>, m: Move)
    ensures var p := PlayAll(START, moves);
      && (Stuck(p) <==> Glare(p) && p.ab == [] && p.ba == [])
      && (Glare(p) ==> Glare(Play(p, m)) && (Play(p, m) == p || m.Hear?))
  {
    EveryRunIsOrderly(moves);
    var p := PlayAll(START, moves);
    PlayKeepsShape(p, m);
    if Stuck(p) && !Glare(p) { SomeoneMaySpeak(p); }
  }
}
