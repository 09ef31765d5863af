/** The app's end of a conversation with one peer. */
module Phones {
  import opened Vocabulary
  import opened Protocol
  import opened Engine
  import opened EngineTheorems
  import opened Reactions

  datatype PhoneError = TurnRefused(error: TurnError) | TransportFailed

  datatype Sent = Progress(progress: TurnProgress) | NotSent(error: PhoneError)

  /** One side's patience runs out: for what, and when. */
  datatype Due = Due(kind: DeadlineKind, at: nat)

  /** The conversation after `turn` is said, and what the caller is told. `ok` is the transport's
      answer, `now` the instant read once the turn has left. */
  function Say(c: Conv, turn: Turn, ok: bool, deadlines: Deadlines, now: nat): (Conv, Sent) {
    match Outgoing(c.state, turn)
    case Refused(error) => (c, NotSent(TurnRefused(error)))
    case Legal(next, progress) =>
      if !ok then (Conv(next.Fail(), None, None), NotSent(TransportFailed))
      else
        (Conv(next, if turn.Close? then None else Some(Wait(turn.request.id, now + deadlines.ack)),
              if turn.Close? then None else Some(now + deadlines.turn)),
         Progress(progress))
  }

  function Hear(c: Conv, turn: Turn): (Conv, Sent) {
    match Incoming(c.state, turn)
    case Refused(error) => (c, NotSent(TurnRefused(error)))
    case Legal(next, progress) => (Conv(next, None, None), Progress(progress))
  }

  /** `due` is the wait to race: the earliest armed one, the ack when both fall due at once. */
  predicate IsNext(c: Conv, due: Option<Due>) {
    match due
    case None => c.ack.None? && c.turn.None?
    case Some(Due(AckDeadline, at)) => c.ack.Some? && at == c.ack.value.stamp && (c.turn.Some? ==> at <= c.turn.value)
    case Some(Due(TurnDeadline, at)) => c.turn.Some? && at == c.turn.value && (c.ack.Some? ==> at < c.ack.value.stamp)
  }

  /** One batch put to the transport, and the transport's answer. */
  datatype Batched = Batched(from: Address, endpoint: EndpointId, names: seq<ActorName>, request: Request, ok: bool)

  class Phone {
    const self: Address
    const peer: Address
    const deadlines: Deadlines
    const machine: TurnMachine
    /** The question whose ack has yet to come, and until when it may. */
    var ackDue: Option<Wait>
    /** Until when the awaited turn may come. */
    var turnDue: Option<nat>
    /** What this handle has put to its transport. */
    ghost var log: seq<Effect>

    function Conversation(): Conv
      reads this, machine
    {
      Conv(machine.state, ackDue, turnDue)
    }

    /** Constructing a handle is a local act. */
    constructor Converse(self: Address, peer: Address, deadlines: Deadlines)
      ensures this.self == self && this.peer == peer && this.deadlines == deadlines && fresh(machine)
      ensures Conversation() == QUIET && log == []
    {
      this.self, this.peer, this.deadlines := self, peer, deadlines;
      machine := new TurnMachine();
      ackDue, turnDue, log := None, None, [];
    }

    method Open(request: Request, ok: bool, now: nat) returns (r: Sent)
      modifies this, machine
      ensures (Conversation(), r) == Say(old(Conversation()), Turn.Open(request), ok, deadlines, now)
      ensures log == old(log) + (if Outgoing(old(machine.state), Turn.Open(request)).Refused? then []
                                 else [SendTried(self, peer, TurnMessage(Turn.Open(request)), ok)])
    {
      r := SendTurn(Turn.Open(request), ok, now);
    }

    method SendTurn(turn: Turn, ok: bool, now: nat) returns (r: Sent)
      modifies this, machine
      ensures (Conversation(), r) == Say(old(Conversation()), turn, ok, deadlines, now)
      ensures log == old(log) + (if Outgoing(old(machine.state), turn).Refused? then []
                                 else [SendTried(self, peer, TurnMessage(turn), ok)])
    {
      var ruling := machine.OnOutgoing(turn);
      if ruling.Refused? { return NotSent(TurnRefused(ruling.error)); }
      var posed := turn.Posed();
      log := log + [SendTried(self, peer, TurnMessage(turn), ok)];
      if !ok {
        var _ := machine.Fail();
        ackDue := None;
        turnDue := None;
        return NotSent(TransportFailed);
      }
      ackDue := if posed.Some? then Some(Wait(posed.value, now + deadlines.ack)) else None;
      turnDue := match ruling.progress { case Continuing => Some(now + deadlines.turn) case Concluded => None };
      r := Progress(ruling.progress);
    }

    method OnIncoming(turn: Turn) returns (r: Sent)
      modifies this, machine
      ensures (Conversation(), r) == Hear(old(Conversation()), turn) && log == old(log)
    {
      var ruling := machine.OnIncoming(turn);
      if ruling.Refused? { return NotSent(TurnRefused(ruling.error)); }
      ackDue := None;
      turnDue := None;
      r := Progress(ruling.progress);
    }

    /** Only the ack awaited settles anything. */
    method NoteAck(id: RequestId) returns (settled: bool)
      modifies this`ackDue
      ensures Conversation() == SettleAck(old(Conversation()), id)
      ensures settled <==> Conversation() != old(Conversation())
    {
      if ackDue.Some? && ackDue.value.id == id {
        ackDue := None;
        settled := true;
      } else {
        settled := false;
      }
    }

    function NextDue(): (due: Option<Due>)
      reads this, machine
      ensures IsNext(Conversation(), due)
    {
      var ack := if ackDue.Some? then Some(Due(AckDeadline, ackDue.value.stamp)) else None;
      var turn := if turnDue.Some? then Some(Due(TurnDeadline, turnDue.value)) else None;
      match (ack, turn)
      case (Some(a), Some(t)) => Some(if a.at <= t.at then a else t)
      case (None, _) => turn
      case (_, None) => ack
    }

    method OnDeadlineElapsed() returns (cause: Option<FailureCause>)
      modifies this, machine
      ensures cause.None? ==> Conversation() == old(Conversation()) && IsNext(Conversation(), None)
      ensures cause.Some? ==> Conversation() == Ended(old(Conversation()))
      ensures cause.Some? ==>
        (exists due :: IsNext(old(Conversation()), Some(due)) && cause == Some(DeadlineElapsed(due.kind)))
      ensures log == old(log)
    {
      var next := NextDue();
      if next.None? { return None; }
      var _ := machine.Fail();
      ackDue := None;
      turnDue := None;
      cause := Some(DeadlineElapsed(next.value.kind));
    }

    method OnPeerDeath(endpoint: EndpointId) returns (cause: Option<FailureCause>)
      modifies this, machine
      ensures Conversation() == GivenUp(old(Conversation()), peer, endpoint) && log == old(log)
      ensures cause == if old(machine.state).Live() && peer.endpoint == endpoint then Some(Disconnected) else None
    {
      if peer.endpoint != endpoint { return None; }
      var wasLive := machine.Fail();
      if !wasLive { return None; }
      ackDue := None;
      turnDue := None;
      cause := Some(Disconnected);
    }

    method OnRevoked(endpoint: EndpointId) returns (cause: Option<FailureCause>)
      modifies this, machine
      ensures Conversation() == GivenUp(old(Conversation()), peer, endpoint) && log == old(log)
      ensures cause ==
        if old(machine.state).Live() && peer.endpoint == endpoint then Some(FailureCause.Revoked) else None
    {
      if peer.endpoint != endpoint { return None; }
      var wasLive := machine.Fail();
      if !wasLive { return None; }
      ackDue := None;
      turnDue := None;
      cause := Some(FailureCause.Revoked);
    }

    /** A handle made for `peer` and opened by the batch alone. */
    ghost predicate Fanned(self: Address, peer: Address, deadlines: Deadlines, request: Request, now: nat)
      reads this, machine
    {
      && this.self == self && this.peer == peer && this.deadlines == deadlines && log == []
      && Conversation() == Say(QUIET, Turn.Open(request), true, deadlines, now).0
    }

    /** One batch, and a handle for each name in it, or none at all when it is refused. The batch is all that
        is put to the transport. */
    static method OpenMany(self: Address, endpoint: EndpointId, names: seq<ActorName>, request: Request,
                           deadlines: Deadlines, ok: bool, now: nat)
      returns (phones: seq<Phone>, ghost put: seq<Batched>)
      ensures put == [Batched(self, endpoint, names, request, ok)]
      ensures |phones| == if ok then |names| else 0
      ensures forall i {:trigger phones[i]} :: 0 <= i < |phones| ==>
        fresh(phones[i]) && fresh(phones[i].machine)
        && phones[i].Fanned(self, Address(endpoint, names[i]), deadlines, request, now)
      ensures forall i, j :: 0 <= i < j < |phones| ==>
        phones[i] != phones[j] && phones[i].machine != phones[j].machine
    {
      phones, put := [], [Batched(self, endpoint, names, request, ok)];
      if !ok { return; }
      var i := 0;
      while i < |names|
        invariant 0 <= i <= |names| && |phones| == i
        invariant forall j {:trigger phones[j]} :: 0 <= j < i ==>
          fresh(phones[j]) && fresh(phones[j].machine)
          && phones[j].Fanned(self, Address(endpoint, names[j]), deadlines, request, now)
        invariant forall j, k :: 0 <= j < k < i ==>
          phones[j] != phones[k] && phones[j].machine != phones[k].machine
      {
        var phone := new Phone.Converse(self, Address(endpoint, names[i]), deadlines);
        var ruling := phone.machine.OnOutgoing(Turn.Open(request));
        assert ruling.Legal?;
        phone.ackDue := Some(Wait(request.id, now + deadlines.ack));
        phone.turnDue := Some(now + deadlines.turn);
        phones := phones + [phone];
        i := i + 1;
      }
    }
  }

  /** An exchange is given up on news of the peer's endpoint: its death, or its revocation. */
  function GivenUp(c: Conv, peer: Address, endpoint: EndpointId): Conv {
    if peer.endpoint == endpoint && c.state.Live() then Ended(c) else c
  }

  // ---- Over every run ----

  /** What the app may do with its handle, in any order. */
  datatype Act =
    | Saying(turn: Turn, ok: bool, now: nat)
    | Hearing(turn: Turn)
    | Noting(id: RequestId)
    | Elapsing
    | Losing(endpoint: EndpointId)

  function Do(c: Conv, peer: Address, deadlines: Deadlines, act: Act): Conv {
    match act
    case Saying(turn, ok, now) => Say(c, turn, ok, deadlines, now).0
    case Hearing(turn) => Hear(c, turn).0
    case Noting(id) => SettleAck(c, id)
    case Elapsing => if c.ack.None? && c.turn.None? then c else Ended(c)
    case Losing(endpoint) => GivenUp(c, peer, endpoint)
  }

  function After(c: Conv, peer: Address, deadlines: Deadlines, acts: seq<Act>): Conv {
    if acts == [] then c
    else Do(After(c, peer, deadlines, acts[..|acts| - 1]), peer, deadlines, acts[|acts| - 1])
  }

  lemma {:induction false} AlwaysMatched(peer: Address, deadlines: Deadlines, acts: seq<Act>)
    ensures WaitsMatch(After(QUIET, peer, deadlines, acts))
  {
    if acts != [] { AlwaysMatched(peer, deadlines, acts[..|acts| - 1]); }
  }

  /** A handle is never stuck: in every reachable state there is a wait to race exactly when the peer's
      turn is awaited; and when a deadline elapses it is a live exchange that fails, after which a
      fresh opening is legal at once. */
  lemma {:induction false} NeverStuck(peer: Address, deadlines: Deadlines, acts: seq<Act>, due: Option<Due>)
    requires IsNext(After(QUIET, peer, deadlines, acts), due)
    ensures due.Some? <==> After(QUIET, peer, deadlines, acts).state.AwaitingTheirTurn?
    ensures due.Some? ==>
      var failed := After(QUIET, peer, deadlines, acts + [Elapsing]);
      failed == Conv(Failed, None, None) && forall request :: Outgoing(failed.state, Turn.Open(request)).Legal?
  {
    AlwaysMatched(peer, deadlines, acts);
    assert (acts + [Elapsing])[..|acts|] == acts;
  }

  /** Every wait runs from the send that created it: the peer's turn is awaited because of one legal,
      accepted turn, it falls due exactly this side's patience after that, and until now nothing has
      ended the wait. */
  ghost predicate ArmedBy(peer: Address, deadlines: Deadlines, acts: seq<Act>, i: nat) {
    i < |acts| && acts[i].Saying? && acts[i].ok && !acts[i].turn.Close? &&
    var c, said, now := After(QUIET, peer, deadlines, acts), acts[i].turn.request.id, acts[i].now;
    && Outgoing(After(QUIET, peer, deadlines, acts[..i]).state, acts[i].turn).Legal?
    && c.state == AwaitingTheirTurn(said) && c.turn == Some(now + deadlines.turn)
    && (c.ack.Some? ==> c.ack == Some(Wait(said, now + deadlines.ack)))
    && forall k :: i < k < |acts| ==>
         !(acts[k].Saying? && Outgoing(After(QUIET, peer, deadlines, acts[..k]).state, acts[k].turn).Legal?)
  }

  lemma {:induction false} WaitsRunFromTheSend(peer: Address, deadlines: Deadlines, acts: seq<Act>)
    requires After(QUIET, peer, deadlines, acts).state.AwaitingTheirTurn?
    ensures exists i :: ArmedBy(peer, deadlines, acts, i)
  {
    var before, last := acts[..|acts| - 1], acts[|acts| - 1];
    var c := After(QUIET, peer, deadlines, before);
    AlwaysMatched(peer, deadlines, before);
    if last.Saying? && Outgoing(c.state, last.turn).Legal? {
      assert ArmedBy(peer, deadlines, acts, |acts| - 1);
    } else {
      WaitsRunFromTheSend(peer, deadlines, before);
      var i :| ArmedBy(peer, deadlines, before, i);
      StillArmed(peer, deadlines, before, last, i);
      assert acts == before + [last];
    }
  }

  lemma StillArmed(peer: Address, deadlines: Deadlines, before: seq<Act>, last: Act, i: nat)
    requires ArmedBy(peer, deadlines, before, i) && WaitsMatch(After(QUIET, peer, deadlines, before))
    requires After(QUIET, peer, deadlines, before + [last]).state.AwaitingTheirTurn?
    requires !(last.Saying? && Outgoing(After(QUIET, peer, deadlines, before).state, last.turn).Legal?)
    ensures ArmedBy(peer, deadlines, before + [last], i)
  {
    var acts := before + [last];
    assert acts[..|before|] == before;
    assert forall k :: 0 <= k < |before| ==> acts[..k] == before[..k] && acts[k] == before[k];
  }

  /** What is raced is the wait that runs out first, counted from the accepted send: the ack's, if it has not
      come and its patience is not the longer, and otherwise the turn's. */
  lemma {:induction false} FirstToRunOut(peer: Address, deadlines: Deadlines, acts: seq<Act>, due: Due)
    returns (i: nat)
    requires IsNext(After(QUIET, peer, deadlines, acts), Some(due))
    ensures ArmedBy(peer, deadlines, acts, i)
    ensures due == if After(QUIET, peer, deadlines, acts).ack.Some? && deadlines.ack <= deadlines.turn then
                     Due(AckDeadline, acts[i].now + deadlines.ack)
                   else Due(TurnDeadline, acts[i].now + deadlines.turn)
  {
    NeverStuck(peer, deadlines, acts, Some(due));
    WaitsRunFromTheSend(peer, deadlines, acts);
    i :| ArmedBy(peer, deadlines, acts, i);
  }

  predicate UnderWayIn(c: Conv) { c.state.AwaitingTheirTurn? || c.state.OweThem? }

  /** What ends a live exchange: the peer's close of the question awaited; a turn that this side may say, if
      it is a close or the transport will not carry it; a wait that elapses; news of the peer's own endpoint. */
  predicate Ends(c: Conv, peer: Address, act: Act) {
    match act
    case Hearing(turn) => turn.Close? && c.state == AwaitingTheirTurn(turn.response.id)
    case Saying(turn, ok, _) => OursToSay(c.state, turn) && (turn.Close? || !ok)
    case Noting(_) => false
    case Elapsing => c.ack.Some? || c.turn.Some?
    case Losing(endpoint) => endpoint == peer.endpoint
  }

  /** What each act makes of a handle in any reachable state. A turn out of place, heard or said, changes
      nothing, and neither does an ack that is not awaited. */
  lemma {:induction false} EachActDoes(peer: Address, deadlines: Deadlines, acts: seq<Act>, act: Act)
    ensures var c, d := After(QUIET, peer, deadlines, acts), After(QUIET, peer, deadlines, acts + [act]);
      match act
      case Hearing(turn) => d == if TheirsToSay(c.state, turn) then Conv(OnceHeard(turn), None, None) else c
      case Saying(turn, ok, now) =>
        if !OursToSay(c.state, turn) then d == c
        else if turn.Close? then d == Conv(Idle, None, None)
        else if !ok then d == Conv(Failed, None, None)
        else
          var asked := turn.request.id;
          d == Conv(AwaitingTheirTurn(asked), Some(Wait(asked, now + deadlines.ack)), Some(now + deadlines.turn))
      case Noting(id) => d == c.(ack := if c.ack.Some? && c.ack.value.id == id then None else c.ack)
      case Elapsing => d == if c.state.AwaitingTheirTurn? then Conv(Failed, None, None) else c
      case Losing(endpoint) => d == if endpoint == peer.endpoint && UnderWayIn(c) then Conv(Failed, None, None) else c
  {
    assert (acts + [act])[..|acts|] == acts;
    AlwaysMatched(peer, deadlines, acts);
    var c := After(QUIET, peer, deadlines, acts);
    match act {
      case Hearing(turn) => RulingsOnTheirs(c.state, turn);
      case Saying(turn, _, _) => RulingsOnOurs(c.state, turn);
      case _ =>
    }
  }

  /** And what the caller is told. */
  lemma CallersAreTold(c: Conv, turn: Turn, ok: bool, deadlines: Deadlines, now: nat)
    ensures var told := if turn.Close? then Progress(Concluded) else Progress(Continuing);
      && Hear(c, turn).1 == (if TheirsToSay(c.state, turn) then told
                             else NotSent(TurnRefused(AgainstTheirs(c.state, turn))))
      && Say(c, turn, ok, deadlines, now).1 == if !OursToSay(c.state, turn) then
                                                 NotSent(TurnRefused(AgainstOurs(c.state, turn)))
                                               else if ok then told else NotSent(TransportFailed)
  {
    RulingsOnTheirs(c.state, turn);
    RulingsOnOurs(c.state, turn);
  }

  ghost predicate EndedAt(peer: Address, deadlines: Deadlines, acts: seq<Act>, k: nat) {
    k < |acts| && UnderWayIn(After(QUIET, peer, deadlines, acts[..k]))
    && Ends(After(QUIET, peer, deadlines, acts[..k]), peer, acts[k])
  }

  /** A live exchange ends by one of those acts and by no other, and then nothing is waited for. */
  lemma {:induction false} EndsExactlyBy(peer: Address, deadlines: Deadlines, acts: seq<Act>, act: Act)
    requires UnderWayIn(After(QUIET, peer, deadlines, acts))
    ensures var c, d := After(QUIET, peer, deadlines, acts), After(QUIET, peer, deadlines, acts + [act]);
      && (!UnderWayIn(d) <==> Ends(c, peer, act))
      && (Ends(c, peer, act) ==> d.ack == None && d.turn == None)
  {
    AlwaysMatched(peer, deadlines, acts);
    EachActDoes(peer, deadlines, acts, act);
  }

  /** Over a whole run: an exchange that was under way after `i` acts, and is no more, was ended by one of
      those acts since. */
  lemma {:induction false} EndedForCause(peer: Address, deadlines: Deadlines, acts: seq<Act>, i: nat)
    requires i <= |acts| && UnderWayIn(After(QUIET, peer, deadlines, acts[..i]))
    requires !UnderWayIn(After(QUIET, peer, deadlines, acts))
    ensures exists k :: i <= k && EndedAt(peer, deadlines, acts, k)
    decreases |acts|
  {
    assert acts[..|acts|] == acts;
    var before, last := acts[..|acts| - 1], acts[|acts| - 1];
    if UnderWayIn(After(QUIET, peer, deadlines, before)) {
      EndsExactlyBy(peer, deadlines, before, last);
      assert before + [last] == acts;
      assert EndedAt(peer, deadlines, acts, |acts| - 1);
    } else {
      assert before[..i] == acts[..i];
      EndedForCause(peer, deadlines, before, i);
      var k :| i <= k && EndedAt(peer, deadlines, before, k);
      assert before[..k] == acts[..k];
      assert EndedAt(peer, deadlines, acts, k);
    }
  }

  /** A refused send leaves nothing waited for; the exchange has failed, unless it had been concluded
      by the very turn that was refused; and a fresh opening is legal at once. */
  lemma RefusedSendReopens(c: Conv, turn: Turn, deadlines: Deadlines, now: nat, request: Request)
    requires Outgoing(c.state, turn).Legal?
    ensures var (d, r) := Say(c, turn, false, deadlines, now);
      && r == NotSent(TransportFailed) && d == Conv(if turn.Close? then Idle else Failed, None, None)
      && Say(d, Turn.Open(request), true, deadlines, now).1 == Progress(Continuing)
  {
  }

  /** A handle keeps its conversation as a hosted actor keeps it, turn for turn; they part only over a
      turn that is not this side's to say, which the handle declines and the runtime takes for the
      failure of the exchange. */
  lemma AsARuntimeWould(c: Conv, heard: Turn, reply: Turn, ok: bool, deadlines: Deadlines, now: nat)
    requires Incoming(c.state, heard).Legal?
    ensures var ch := Choices(true, Some(reply), ok, None, now + deadlines.ack, now + deadlines.turn);
      var fate := FateOf(c, true, heard, ch);
      var (d, r) := Say(Hear(c, heard).0, reply, ok, deadlines, now);
      && (fate.Misspoken? <==> r.NotSent? && r.error.TurnRefused?)
      && ConvAfter(c, heard, fate, ch) == if fate.Misspoken? then Ended(Hear(c, heard).0) else d
  {
  }
}
