/** The words a turn machine accepts are exactly the conversations: exchanges, one after another. */
module Grammar {
  import opened Vocabulary
  import opened Protocol

  /** A call on the machine: a turn said or heard, or a verdict that the exchange is dead. */
  datatype Letter = Turned(ours: bool, turn: Turn) | Died

  /** The state after a call that takes effect; none when it is refused or finds nothing to kill. */
  function Step(s: TurnState, l: Letter): Option<TurnState> {
    match l
    case Died => if s.Live() then Some(s.Fail()) else None
    case Turned(ours, turn) =>
      var ruling := if ours then Outgoing(s, turn) else Incoming(s, turn);
      if ruling.Legal? then Some(ruling.next) else None
  }

  /** The state after a run of calls, refused ones included. */
  function After(s: TurnState, calls: seq<Letter>): TurnState
    decreases |calls|
  {
    if calls == [] then s
    else
      var next := Step(s, calls[0]);
      After(if next.Some? then next.value else s, calls[1..])
  }

  /** Those of the calls that took effect, in order. */
  function Taken(s: TurnState, calls: seq<Letter>): seq<Letter>
    decreases |calls|
  {
    if calls == [] then []
    else
      var next := Step(s, calls[0]);
      if next.Some? then [calls[0]] + Taken(next.value, calls[1..]) else Taken(s, calls[1..])
  }

  /** `m` may come right after `l` inside one exchange: `l` asked, and `m` is the other side's
      answer to that very question, or the death of the exchange. */
  predicate Follows(l: Letter, m: Letter) {
    l.Turned? && l.turn.Posed().Some?
    && (m.Turned? ==> m.ours != l.ours && m.turn.Answered() == l.turn.Posed())
  }

  predicate Ends(l: Letter) { l.Died? || l.turn.Close? }

  /** The letters of one exchange. */
  ghost predicate Exchange(w: seq<Letter>) {
    w != [] && w[0].Turned? && w[0].turn.Open?
    && forall i {:trigger w[i]} :: 0 < i < |w| ==> Follows(w[i - 1], w[i])
  }

  /** Exchanges, each finished before the next begins; only the last may still be under way. */
  ghost predicate Conversation(w: seq<Letter>)
    decreases |w|
  {
    w == [] || exists k: nat :: CutsAt(w, k) && Conversation(w[k..])
  }

  ghost predicate CutsAt(w: seq<Letter>, k: nat) {
    0 < k <= |w| && Exchange(w[..k]) && (k < |w| ==> Ends(w[k - 1]))
  }

  /** Every letter of `w` takes effect. */
  predicate Accepts(s: TurnState, w: seq<Letter>)
    decreases |w|
  {
    w == [] || (Step(s, w[0]).Some? && Accepts(Step(s, w[0]).value, w[1..]))
  }

  lemma {:induction false} AcceptsAppend(s: TurnState, u: seq<Letter>, v: seq<Letter>)
    ensures Accepts(s, u + v) <==> Accepts(s, u) && Accepts(After(s, u), v)
    ensures Accepts(s, u) ==> After(s, u + v) == After(After(s, u), v)
    decreases |u|
  {
    if u == [] {
      assert u + v == v;
    } else {
      assert (u + v)[0] == u[0] && (u + v)[1..] == u[1..] + v;
      if Step(s, u[0]).Some? {
        AcceptsAppend(Step(s, u[0]).value, u[1..], v);
      }
    }
  }

  /** What the state remembers of the letter that led to it. */
  ghost predicate Recalls(s: TurnState, l: Letter) {
    if Ends(l) then !s.Live()
    else s == if l.ours then AwaitingTheirTurn(l.turn.request.id) else OweThem(l.turn.request.id)
  }

  /** After a letter that ends an exchange only an opening takes effect; after one that asks,
      exactly what may follow it. */
  lemma StepAfter(s: TurnState, l: Letter, m: Letter)
    requires Recalls(s, l)
    ensures Step(s, m).Some? <==> if Ends(l) then m.Turned? && m.turn.Open? else Follows(l, m)
    ensures Step(s, m).Some? ==> Recalls(Step(s, m).value, m)
  {
    match m {
      case Died =>
      case Turned(ours, turn) => match turn { case Open(_) => case Continue(_, _) => case Close(_) => }
    }
  }

  lemma StepAtRest(s: TurnState, m: Letter)
    requires !s.Live()
    ensures Step(s, m).Some? <==> m.Turned? && m.turn.Open?
    ensures Step(s, m).Some? ==> Recalls(Step(s, m).value, m)
  {
  }

  /** An exchange's letters all take effect after the letter it continues. */
  lemma {:induction false} TailAccepted(s: TurnState, l: Letter, w: seq<Letter>)
    requires Recalls(s, l)
    requires w != [] ==> Follows(l, w[0])
    requires forall i {:trigger w[i]} :: 0 < i < |w| ==> Follows(w[i - 1], w[i])
    ensures Accepts(s, w)
    ensures Recalls(After(s, w), if w == [] then l else w[|w| - 1])
    decreases |w|
  {
    if w != [] {
      StepAfter(s, l, w[0]);
      var t := w[1..];
      forall i {:trigger t[i]} | 0 < i < |t| ensures Follows(t[i - 1], t[i]) {
        assert t[i] == w[i + 1] && t[i - 1] == w[i];
      }
      if t != [] { assert t[0] == w[1]; }
      TailAccepted(Step(s, w[0]).value, w[0], t);
    }
  }

  /** An exchange's letters all take effect from a resting state. */
  lemma {:induction false} ExchangeAccepted(s: TurnState, u: seq<Letter>)
    requires !s.Live() && Exchange(u)
    ensures Accepts(s, u) && Recalls(After(s, u), u[|u| - 1])
  {
    var t := u[1..];
    StepAtRest(s, u[0]);
    forall i {:trigger t[i]} | 0 < i < |t| ensures Follows(t[i - 1], t[i]) {
      assert t[i] == u[i + 1] && t[i - 1] == u[i];
    }
    if t != [] { assert t[0] == u[1] && t[|t| - 1] == u[|u| - 1]; }
    TailAccepted(Step(s, u[0]).value, u[0], t);
  }

  lemma {:induction false} ConversationAccepted(s: TurnState, w: seq<Letter>)
    requires !s.Live() && Conversation(w)
    ensures Accepts(s, w)
    decreases |w|
  {
    if w != [] {
      var k: nat :| CutsAt(w, k) && Conversation(w[k..]);
      var u := w[..k];
      ExchangeAccepted(s, u);
      AcceptsAppend(s, u, w[k..]);
      assert w == u + w[k..];
      if k < |w| {
        assert u[|u| - 1] == w[k - 1];
        ConversationAccepted(After(s, u), w[k..]);
      }
    }
  }

  /** How far the exchange that `l` belongs to goes on in `w`. */
  lemma {:induction false} TailSplits(s: TurnState, l: Letter, w: seq<Letter>) returns (k: nat)
    requires Recalls(s, l) && Accepts(s, w)
    ensures k <= |w|
    ensures 0 < k ==> Follows(l, w[0])
    ensures forall i {:trigger w[i]} :: 0 < i < k ==> Follows(w[i - 1], w[i])
    ensures k < |w| ==> Ends(if k == 0 then l else w[k - 1])
    ensures k < |w| ==> exists r: TurnState :: !r.Live() && Accepts(r, w[k..])
    decreases |w|
  {
    if Ends(l) || w == [] {
      k := 0;
      assert w[0..] == w;
    } else {
      StepAfter(s, l, w[0]);
      var t := w[1..];
      var j := TailSplits(Step(s, w[0]).value, w[0], t);
      k := j + 1;
      forall i {:trigger w[i]} | 0 < i < k ensures Follows(w[i - 1], w[i]) {
        assert w[i] == t[i - 1];
        if 1 < i { assert w[i - 1] == t[i - 2]; }
      }
      assert w[k..] == t[j..];
      if k < |w| && 0 < j { assert t[j - 1] == w[k - 1]; }
    }
  }

  lemma {:induction false} AcceptedIsConversation(s: TurnState, w: seq<Letter>)
    requires !s.Live() && Accepts(s, w)
    ensures Conversation(w)
    decreases |w|
  {
    if w != [] {
      StepAtRest(s, w[0]);
      var t := w[1..];
      var j := TailSplits(Step(s, w[0]).value, w[0], t);
      var k := j + 1;
      var u := w[..k];
      forall i {:trigger u[i]} | 0 < i < |u| ensures Follows(u[i - 1], u[i]) {
        assert u[i] == t[i - 1];
        if 1 < i { assert u[i - 1] == t[i - 2]; }
      }
      assert w[k..] == t[j..];
      if k < |w| {
        if 0 < j { assert t[j - 1] == w[k - 1]; }
        var r: TurnState :| !r.Live() && Accepts(r, w[k..]);
        AcceptedIsConversation(r, w[k..]);
      }
      assert CutsAt(w, k);
    }
  }

  lemma {:induction false} TakenAccepted(s: TurnState, calls: seq<Letter>)
    ensures Accepts(s, Taken(s, calls))
    ensures After(s, Taken(s, calls)) == After(s, calls)
    decreases |calls|
  {
    if calls != [] {
      var next := Step(s, calls[0]);
      if next.Some? {
        TakenAccepted(next.value, calls[1..]);
        var w := Taken(s, calls);
        assert w[0] == calls[0] && w[1..] == Taken(next.value, calls[1..]);
      } else {
        TakenAccepted(s, calls[1..]);
      }
    }
  }

  lemma {:induction false} AcceptedIsTaken(s: TurnState, w: seq<Letter>)
    requires Accepts(s, w)
    ensures Taken(s, w) == w
    decreases |w|
  {
    if w != [] {
      AcceptedIsTaken(Step(s, w[0]).value, w[1..]);
    }
  }

  /** Whatever is called, and however often it refuses, the calls a fresh machine lets take effect
      form a conversation, and the refused calls leave no mark on the state. */
  lemma EveryRunIsAConversation(calls: seq<Letter>)
    ensures Conversation(Taken(Idle, calls))
    ensures After(Idle, Taken(Idle, calls)) == After(Idle, calls)
  {
    TakenAccepted(Idle, calls);
    AcceptedIsConversation(Idle, Taken(Idle, calls));
  }

  /** And every conversation is taken whole, from either resting state. */
  lemma ExactlyTheConversations(s: TurnState, w: seq<Letter>)
    requires !s.Live()
    ensures Taken(s, w) == w <==> Conversation(w)
  {
    if Conversation(w) {
      ConversationAccepted(s, w);
      AcceptedIsTaken(s, w);
    }
    if Taken(s, w) == w {
      TakenAccepted(s, w);
      AcceptedIsConversation(s, w);
    }
  }
}
