/** The Kameo actor that hosts one domain actor: its handlers, and the timer tasks they start and stop.

    A task sleeps out one deadline and then reports to the host's mailbox. A settled wait's
    task is aborted, but its report may be in the mailbox by then; the host tells such a report by what
    it waited for and by its epoch. */
module KameoHosts {
  import opened Vocabulary
  import opened Protocol
  import opened Inbounds
  import opened Engine

  /** The epoch is a `u64` that wraps. */
  const EPOCHS: nat := 0x1_0000_0000_0000_0000

  /** A timer task's report. The host judges it by peer, kind, ack id and epoch alone; which task sent
      it, and in which round of bumps that task was started, only the model knows. */
  datatype Report = Report(peer: Address, kind: DeadlineKind, ackId: Option<RequestId>,
                           epoch: nat, task: nat, round: nat)

  /** The host: the actor, whose waits are stamped with task numbers; how often each conversation's
      epoch has been bumped; the tasks now running; and the number of the next. */
  datatype Host = Host(actor: Actor, rounds: map<Address, nat>, tasks: map<nat, Report>, next: nat)
  {
    function Round(peer: Address): nat { if peer in rounds then rounds[peer] else 0 }

    function Epoch(peer: Address): nat { Round(peer) % EPOCHS }
  }

  /** The tasks that guard a conversation's waits. */
  function Timers(c: Conv): set<nat> {
    (if c.ack.Some? then {c.ack.value.stamp} else {}) + (if c.turn.Some? then {c.turn.value} else {})
  }

  /** What is left running when a conversation's waits are settled. */
  function Settled(tasks: map<nat, Report>, c: Conv): map<nat, Report> {
    var rest := if c.ack.Some? then tasks - {c.ack.value.stamp} else tasks;
    if c.turn.Some? then rest - {c.turn.value} else rest
  }

  /** What is running once a conversation's waits have been armed, each guarded by its own task. */
  function Started(tasks: map<nat, Report>, peer: Address, c: Conv, round: nat): map<nat, Report> {
    var more :=
      if c.ack.None? then tasks
      else tasks[c.ack.value.stamp := Report(peer, AckDeadline, Some(c.ack.value.id), round % EPOCHS,
                                           c.ack.value.stamp, round)];
    if c.turn.None? then more
    else more[c.turn.value := Report(peer, TurnDeadline, None, round % EPOCHS, c.turn.value, round)]
  }

  /** How many waits are armed. */
  function Armaments(c: Conv): nat {
    (if c.ack.Some? then 1 else 0) + (if c.turn.Some? then 1 else 0)
  }

  /** The choices of a handler, its waits stamped with the next two task numbers. */
  function Stamped(h: Host, ch: Choices): Choices {
    ch.(ackStamp := h.next, turnStamp := h.next + 1)
  }

  datatype Handled = Handled(host: Host, effects: seq<Effect>)

  /** The host once its actor has heard a turn: the old waits are settled, and nothing is armed yet. */
  function Hearing(h: Host, peer: Address, heard: TurnState): Host {
    h.(actor := h.actor.With(peer, Conv(heard, None, None)), tasks := Settled(h.tasks, h.actor.Of(peer)))
  }

  /** And once the party's reply has met its fate: the epoch is bumped, and what was armed is guarded. */
  function Replying(h: Host, peer: Address, heard: TurnState, fate: Fate, ch: Choices): Host {
    var after := ConvAfterReply(heard, fate, Stamped(h, ch));
    var round := h.Round(peer) + 1;
    h.(actor := h.actor.With(peer, after), rounds := h.rounds[peer := round],
       tasks := Started(h.tasks, peer, after, round), next := h.next + Armaments(after))
  }

  function TakeTurn(h: Host, peer: Address, turn: Turn, ch: Choices): Handled {
    var ruling := Incoming(h.actor.Of(peer).state, turn);
    Handled(
      if ruling.Refused? then h.(actor := h.actor.With(peer, h.actor.Of(peer)))
      else if !h.actor.party || ch.reply.None? then Hearing(h, peer, ruling.next)
      else Replying(Hearing(h, peer, ruling.next), peer, ruling.next,
                     ReplyFate(ruling.next, ch.reply.value, ch.replyOk), ch),
      HearTurn(h.actor, peer, turn, Stamped(h, ch)).effects)
  }

  function TakeAck(h: Host, peer: Address, id: RequestId): Host {
    if peer !in h.actor.conversations then h
    else
      var c := h.actor.conversations[peer];
      h.(actor := h.actor.With(peer, SettleAck(c, id)),
         tasks := if SettleAck(c, id) == c then h.tasks else h.tasks - {c.ack.value.stamp})
  }

  function FailHost(h: Host, peer: Address): Host {
    if peer !in h.actor.conversations then h
    else
      h.(actor := h.actor.With(peer, Ended(h.actor.conversations[peer])),
         rounds := h.rounds[peer := h.Round(peer) + 1], tasks := Settled(h.tasks, h.actor.conversations[peer]))
  }

  /** The tasks that guard the waits of any of `peers`. */
  function TimersOf(a: Actor, peers: set<Address>): set<nat> {
    set p, k | p in peers && p in a.conversations && k in Timers(a.conversations[p]) :: k
  }

  function FailHosts(h: Host, peers: set<Address>): Host {
    Host(FailAll(h.actor, peers),
         map p | p in h.rounds.Keys + (peers * h.actor.conversations.Keys) ::
           if p in peers * h.actor.conversations.Keys then h.Round(p) + 1 else h.rounds[p],
         h.tasks - TimersOf(h.actor, peers), h.next)
  }

  /** The wait that the report claims to expire is pending, as far as the host can tell. */
  predicate Accepts(h: Host, r: Report) {
    r.peer in h.actor.conversations
    && r.epoch == h.Epoch(r.peer)
    && var c := h.actor.conversations[r.peer];
       match r.kind
       case AckDeadline => r.ackId.Some? && c.ack.Some? && c.ack.value.id == r.ackId.value
       case TurnDeadline => c.turn.Some?
  }

  function Allowing(h: Host, allowlist: set<EndpointId>): Host {
    h.(actor := h.actor.(allowlist := allowlist))
  }

  datatype Mail =
    | DeliverMail(delivery: Delivery)
    | ElapsedMail(report: Report)
    | DiedMail(endpoint: EndpointId)
    | AdmitMail(endpoint: EndpointId)
    | RevokeMail(endpoint: EndpointId)

  /** What the host does with one mail. A sweep fails its conversations in the given order. */
  function OnMail(h: Host, mail: Mail, ch: Choices, order: seq<Address>): Handled {
    match mail
    case DeliverMail(d) =>
      (match Inbounds.Process(h.actor.allowlist, d)
       case TurnReceived(turn, peer, _) => TakeTurn(h, peer, turn, ch)
       case AckReceived(id) => Handled(TakeAck(h, d.from, id), [])
       case _ => Handled(h, Handle(h.actor, d, ch).effects))
    case ElapsedMail(r) =>
      if Accepts(h, r) then
        Handled(FailHost(h, r.peer), FailureEffects(h.actor, r.peer, DeadlineElapsed(r.kind)))
      else Handled(h, [])
    case DiedMail(e) => Handled(FailHosts(h, h.actor.LiveAt(e)), FailAllEffects(h.actor, order, Disconnected))
    case AdmitMail(e) => Handled(Allowing(h, h.actor.allowlist + {e}), [])
    case RevokeMail(e) =>
      Handled(Allowing(FailHosts(h, h.actor.LiveAt(e)), h.actor.allowlist - {e}),
              FailAllEffects(h.actor, order, FailureCause.Revoked))
  }

  class KameoHost {
    const address: Address
    const harness: bool
    const party: bool
    const deadlines: Deadlines
    const allowlist: Allowlist
    /** Per peer: the machine and the armed waits; beside them, the epoch. */
    var conversations: map<Address, Conv>
    var epochs: map<Address, nat>
    /** The timer tasks now running, and the number of the next. */
    var tasks: map<nat, Report>
    var next: nat
    /** How often each epoch has been bumped: what the wrapping counter would say if it never wrapped. */
    var rounds: map<Address, nat>
    ghost var log: seq<Effect>

    ghost function View(): Host
      reads this, allowlist
    {
      Host(Actor(address, harness, party, deadlines, allowlist.endpoints, conversations), rounds, tasks, next)
    }

    /** The epoch is the number of bumps, wrapped. */
    ghost predicate Valid()
      reads this
    {
      epochs.Keys == rounds.Keys && forall p :: p in epochs ==> epochs[p] == rounds[p] % EPOCHS
    }

    constructor (address: Address, allowlist: Allowlist, deadlines: Deadlines, harness: bool, party: bool)
      ensures Valid() && log == [] && this.allowlist == allowlist
      ensures View() == Host(Actor(address, harness, party, deadlines, allowlist.endpoints, map[]), map[], map[], 0)
    {
      this.address, this.harness, this.party, this.deadlines := address, harness, party, deadlines;
      this.allowlist, conversations, epochs, tasks, next := allowlist, map[], map[], map[], 0;
      rounds, log := map[], [];
    }

    /** Start a task that will report, and answer its number. */
    method Spawn(peer: Address, kind: DeadlineKind, ackId: Option<RequestId>, epoch: nat) returns (task: nat)
      requires Valid() && peer in epochs && epoch == epochs[peer]
      modifies this`tasks, this`next
      ensures Valid() && task == old(next) && next == old(next) + 1
      ensures tasks == old(tasks)[task := Report(peer, kind, ackId, epoch, task, rounds[peer])]
    {
      task := next;
      tasks := tasks[task := Report(peer, kind, ackId, epoch, task, rounds[peer])];
      next := next + 1;
    }

    method Abort(task: nat)
      modifies this`tasks
      ensures tasks == old(tasks) - {task}
    {
      tasks := tasks - {task};
    }

    method SettleAckOf(peer: Address, id: RequestId)
      requires Valid() && peer in conversations
      modifies this`tasks, this`conversations
      ensures Valid() && View() == TakeAck(old(View()), peer, id)
    {
      var waits := conversations[peer];
      if waits.ack.Some? && waits.ack.value.id == id {
        Abort(waits.ack.value.stamp);
        conversations := conversations[peer := waits.(ack := None)];
      } else {
        assert conversations[peer := waits] == conversations;
      }
    }

    method SettleAll(peer: Address)
      requires Valid() && peer in conversations
      modifies this`tasks, this`conversations
      ensures Valid()
      ensures conversations == old(conversations)[peer := Conv(old(conversations)[peer].state, None, None)]
      ensures tasks == Settled(old(tasks), old(conversations)[peer])
    {
      ghost var c := conversations[peer];
      if conversations[peer].ack.Some? {
        Abort(conversations[peer].ack.value.stamp);
        conversations := conversations[peer := conversations[peer].(ack := None)];
      }
      if conversations[peer].turn.Some? {
        Abort(conversations[peer].turn.value);
        conversations := conversations[peer := conversations[peer].(turn := None)];
      }
      assert conversations == old(conversations)[peer := Conv(c.state, None, None)];
    }

    method Bump(peer: Address)
      requires Valid()
      modifies this`epochs, this`rounds
      ensures Valid() && rounds == old(rounds)[peer := old(View()).Round(peer) + 1]
    {
      var epoch := if peer in epochs then epochs[peer] else 0;
      epochs := epochs[peer := (epoch + 1) % EPOCHS];
      rounds := rounds[peer := (if peer in rounds then rounds[peer] else 0) + 1];
    }

    /** Give up the exchange with `peer`, and tell the party and the observer. */
    method FailExchange(peer: Address, cause: FailureCause)
      requires Valid()
      modifies this
      ensures Valid() && View() == FailHost(old(View()), peer)
      ensures log == old(log) + FailureEffects(old(View()).actor, peer, cause)
    {
      if peer in conversations { GiveUp(peer); }
      if party {
        log := log + [Told(address, peer, cause)];
      }
      log := log + [Emitted(FailureEvent(address, peer, cause))];
    }

    /** The machine fails, the waits are settled, and the epoch is bumped. */
    method GiveUp(peer: Address)
      requires Valid() && peer in conversations
      modifies this`conversations, this`tasks, this`epochs, this`rounds
      ensures Valid() && View() == FailHost(old(View()), peer)
    {
      ghost var h := View();
      conversations := conversations[peer := conversations[peer].(state := conversations[peer].state.Fail())];
      SettleAll(peer);
      Bump(peer);
      assert conversations == FailHost(h, peer).actor.conversations;
    }

    method AdmitHere(endpoint: EndpointId)
      requires Valid()
      modifies allowlist
      ensures Valid() && View() == Allowing(old(View()), old(allowlist.endpoints) + {endpoint})
    {
      allowlist.Admit(endpoint);
    }

    /** Fail the exchanges with the given peers, one after another. */
    method FailEach(peers: set<Address>, cause: FailureCause) returns (failed: nat, ghost order: seq<Address>)
      requires Valid() && peers <= conversations.Keys
      modifies this
      ensures Valid() && View() == FailHosts(old(View()), peers)
      ensures Lists(order, peers) && failed == |order|
      ensures log == old(log) + FailAllEffects(old(View()).actor, order, cause)
    {
      ghost var h, done := View(), {};
      var rest := peers;
      failed, order := 0, [];
      FailNobody(h);
      while rest != {}
        invariant Valid() && done !! rest && done + rest == peers
        invariant Lists(order, done) && failed == |order|
        invariant View() == FailHosts(h, done)
        invariant log == old(log) + FailAllEffects(h.actor, order, cause)
        decreases rest
      {
        var peer :| peer in rest;
        order := FailNext(peer, cause, h, done, order);
        done, rest, failed := done + {peer}, rest - {peer}, failed + 1;
      }
      assert done == peers;
    }

    /** One turn of the loop above. */
    method FailNext(peer: Address, cause: FailureCause, ghost h: Host, ghost done: set<Address>,
                    ghost order: seq<Address>)
      returns (ghost longer: seq<Address>)
      requires Valid() && View() == FailHosts(h, done)
      requires peer in h.actor.conversations && peer !in done && Lists(order, done)
      modifies this
      ensures Valid() && View() == FailHosts(h, done + {peer})
      ensures Lists(longer, done + {peer}) && |longer| == |order| + 1
      ensures old(log) <= log
      ensures FailAllEffects(h.actor, longer, cause) == FailAllEffects(h.actor, order, cause) + log[|old(log)|..]
    {
      FailAnother(h, done, peer);
      longer := order + [peer];
      assert longer[..|order|] == order;
      FailExchange(peer, cause);
    }

    method RevokeHere(endpoint: EndpointId) returns (failed: nat, ghost order: seq<Address>)
      requires Valid()
      modifies this, allowlist
      ensures Valid() && Lists(order, old(View()).actor.LiveAt(endpoint)) && failed == |order|
      ensures var h := old(View());
        && View() == Allowing(FailHosts(h, h.actor.LiveAt(endpoint)), old(allowlist.endpoints) - {endpoint})
        && log == old(log) + FailAllEffects(h.actor, order, FailureCause.Revoked)
    {
      ghost var h := View();
      allowlist.Revoke(endpoint);
      var affected := set p | p in conversations && p.endpoint == endpoint && conversations[p].state.Live();
      assert affected == h.actor.LiveAt(endpoint);
      failed, order := FailEach(affected, FailureCause.Revoked);
      AllowlistAside(h, affected, h.actor.allowlist - {endpoint}, order, FailureCause.Revoked);
    }

    method HandlePeerDied(endpoint: EndpointId) returns (ghost order: seq<Address>)
      requires Valid()
      modifies this
      ensures Valid() && Lists(order, old(View()).actor.LiveAt(endpoint))
      ensures var h := old(View());
        && View() == FailHosts(h, h.actor.LiveAt(endpoint))
        && log == old(log) + FailAllEffects(h.actor, order, Disconnected)
    {
      var affected := set p | p in conversations && p.endpoint == endpoint && conversations[p].state.Live();
      assert affected == View().actor.LiveAt(endpoint);
      var failed;
      failed, order := FailEach(affected, Disconnected);
    }

    method HandleDeadlineElapsed(r: Report)
      requires Valid()
      modifies this
      ensures Valid()
      ensures var h := old(View());
        if Accepts(h, r) then
          View() == FailHost(h, r.peer) && log == old(log) + FailureEffects(h.actor, r.peer, DeadlineElapsed(r.kind))
        else View() == h && log == old(log)
    {
      if r.peer !in conversations { return; }
      var waits := conversations[r.peer];
      var epoch := if r.peer in epochs then epochs[r.peer] else 0;
      var stillPending := r.epoch == epoch;
      if stillPending {
        match (r.kind, r.ackId) {
          case (AckDeadline, Some(id)) => stillPending := waits.ack.Some? && waits.ack.value.id == id;
          case (TurnDeadline, _) => stillPending := waits.turn.Some?;
          case _ => stillPending := false;
        }
      }
      if !stillPending { return; }
      FailExchange(r.peer, DeadlineElapsed(r.kind));
    }

    method HandleDeliver(d: Delivery, ch: Choices)
      requires Valid()
      modifies this
      ensures Valid()
      ensures View() == OnMail(old(View()), DeliverMail(d), ch, []).host
      ensures log == old(log) + OnMail(old(View()), DeliverMail(d), ch, []).effects
    {
      var origin := d.from;
      match Inbounds.Process(allowlist.endpoints, d) {
        case Denied =>
          log := log + [Emitted(DeliveryDenied(origin, address))];
        case RequestReceived(_, replyTo, ack) =>
          log := log + [SendTried(address, replyTo, ack, ch.receiptOk)];
        case AckReceived(id) =>
          if origin in conversations { SettleAckOf(origin, id); }
        case HarnessReceived(_, replyTo) =>
          var reply := if !harness then Some(HarnessFailed("not a harness actor")) else ch.harnessReply;
          if reply.Some? {
            log := log + [SendTried(address, replyTo, HarnessMessage(reply.value), ch.receiptOk)];
          }
        case TurnReceived(turn, replyTo, ack) =>
          HandleTurn(turn, replyTo, ack, ch);
      }
    }

    method HandleTurn(turn: Turn, replyTo: Address, ack: Option<Message>, ch: Choices)
      requires Valid()
      requires ack == if turn.Posed().Some? then Some(AckMessage(turn.Posed().value)) else None
      modifies this
      ensures Valid()
      ensures View() == TakeTurn(old(View()), replyTo, turn, ch).host
      ensures log == old(log) + TakeTurn(old(View()), replyTo, turn, ch).effects
    {
      ghost var h := View();
      var legal := Validate(turn, replyTo);
      if !legal { return; }
      Acknowledge(turn, replyTo, ack, ch);
      assert log == old(log) + ReceiptEffects(h.actor, replyTo, turn, Stamped(h, ch));
      AskParty(replyTo, ch);
      TakeTurnByStages(h, replyTo, turn, ch, old(log));
    }

    /** Send what the party, if there is one, replies to the turn just heard. */
    method AskParty(replyTo: Address, ch: Choices)
      requires Valid() && replyTo in conversations
      requires conversations[replyTo].ack.None? && conversations[replyTo].turn.None?
      modifies this
      ensures Valid()
      ensures var h := old(View());
        var heard := h.actor.conversations[replyTo].state;
        var fate := if party && ch.reply.Some? then ReplyFate(heard, ch.reply.value, ch.replyOk) else Taken;
        && View() == (if fate.Taken? then h else Replying(h, replyTo, heard, fate, ch))
        && log == old(log) + ReplyEffects(h.actor, replyTo, fate)
    {
      if party && ch.reply.Some? {
        SendReply(replyTo, ch.reply.value, ch);
      }
    }

    /** The receipt of a turn just let in, and then the party's turn to think; nothing comes of a refused
        receipt. */
    method Acknowledge(turn: Turn, replyTo: Address, ack: Option<Message>, ch: Choices)
      requires ack == if turn.Posed().Some? then Some(AckMessage(turn.Posed().value)) else None
      modifies this`log
      ensures log == old(log) + ReceiptEffects(View().actor, replyTo, turn, ch)
    {
      log := log + [Heard(address, replyTo, turn)];
      if ack.Some? {
        log := log + [SendTried(address, replyTo, ack.value, ch.receiptOk)];
      }
      if party {
        log := log + [Consulted(address, replyTo, turn)];
      }
    }

    /** Put a turn to the conversation's machine; a legal one settles every wait. */
    method Validate(turn: Turn, replyTo: Address) returns (legal: bool)
      requires Valid()
      modifies this
      ensures Valid()
      ensures var h := old(View());
        var ruling := Incoming(h.actor.Of(replyTo).state, turn);
        && legal == ruling.Legal?
        && View() == (if legal then Hearing(h, replyTo, ruling.next)
                      else h.(actor := h.actor.With(replyTo, h.actor.Of(replyTo))))
        && log == old(log) + if legal then [] else [Emitted(IllegalTurnDropped(replyTo, address, ruling.error))]
    {
      ghost var c := View().actor.Of(replyTo);
      if replyTo !in conversations {
        conversations := conversations[replyTo := QUIET];
      }
      var ruling := Incoming(conversations[replyTo].state, turn);
      legal := ruling.Legal?;
      if legal {
        conversations := conversations[replyTo := conversations[replyTo].(state := ruling.next)];
        SettleAll(replyTo);
      } else {
        log := log + [Emitted(IllegalTurnDropped(replyTo, address, ruling.error))];
      }
      assert conversations == old(conversations)[replyTo := if legal then Conv(ruling.next, None, None) else c];
    }

    /** Send the party's reply to the turn just heard, and only then arm the waits it creates. */
    method SendReply(replyTo: Address, reply: Turn, ch: Choices)
      requires Valid() && replyTo in conversations
      requires conversations[replyTo].ack.None? && conversations[replyTo].turn.None?
      modifies this
      ensures Valid()
      ensures var h := old(View());
        var heard := h.actor.conversations[replyTo].state;
        var fate := ReplyFate(heard, reply, ch.replyOk);
        && View() == Replying(h, replyTo, heard, fate, ch)
        && log == old(log) + ReplyEffects(h.actor, replyTo, fate)
    {
      ghost var h := View();
      var posed := reply.Posed();
      var ruling := Outgoing(conversations[replyTo].state, reply);
      if ruling.Refused? {
        MisspokenFails(h, replyTo, conversations[replyTo].state, ch);
        FailExchange(replyTo, IllegalReply);
        return;
      }
      conversations := conversations[replyTo := conversations[replyTo].(state := ruling.next)];
      log := log + [SendTried(address, replyTo, TurnMessage(reply), ch.replyOk)];
      assert View() == h.(actor := h.actor.With(replyTo, Conv(ruling.next, None, None)));
      if !ch.replyOk {
        UnsentFails(h, replyTo, h.actor.conversations[replyTo].state, reply, ch);
        FailExchange(replyTo, SendFailed);
        return;
      }
      WithTwice(h.actor, replyTo, conversations[replyTo], ConvAfterReply(ruling.next, Replied(reply), Stamped(h, ch)));
      Arm(replyTo, posed, ruling.progress);
    }

    /** Arm the waits of a reply just sent. No task is ever overwritten: both slots are empty. */
    method Arm(peer: Address, posed: Option<RequestId>, progress: TurnProgress)
      requires Valid() && peer in conversations
      requires conversations[peer].ack.None? && conversations[peer].turn.None?
      requires posed.Some? <==> progress.Continuing?
      modifies this`conversations, this`epochs, this`rounds, this`tasks, this`next
      ensures Valid()
      ensures var after := Conv(old(conversations)[peer].state,
          if posed.Some? then Some(Wait(posed.value, old(next))) else None,
          if posed.Some? then Some(old(next) + 1) else None);
        var round := old(View()).Round(peer) + 1;
        && conversations == old(conversations)[peer := after] && rounds == old(rounds)[peer := round]
        && tasks == Started(old(tasks), peer, after, round) && next == old(next) + Armaments(after)
    {
      ghost var c := conversations[peer];
      Bump(peer);
      var epoch := epochs[peer];
      if posed.Some? {
        var task := Spawn(peer, AckDeadline, posed, epoch);
        conversations := conversations[peer := conversations[peer].(ack := Some(Wait(posed.value, task)))];
      }
      match progress {
        case Continuing =>
          var task := Spawn(peer, TurnDeadline, None, epoch);
          conversations := conversations[peer := conversations[peer].(turn := Some(task))];
        case Concluded =>
          conversations := conversations[peer := conversations[peer].(turn := None)];
      }
    }

    /** The host stops: every armed task is aborted on the way out. */
    method OnStop()
      requires Valid()
      modifies this`tasks, this`conversations
      ensures tasks == old(tasks) - TimersOf(old(View()).actor, old(conversations).Keys)
      ensures conversations.Keys == old(conversations).Keys
      ensures forall p :: p in conversations ==> conversations[p] == Conv(old(conversations)[p].state, None, None)
    {
      ghost var a := View().actor;
      var rest := conversations.Keys;
      ghost var done := {};
      assert tasks == old(tasks) - TimersOf(a, {});
      while rest != {}
        invariant Valid() && done !! rest && done + rest == conversations.Keys == a.conversations.Keys
        invariant tasks == old(tasks) - TimersOf(a, done)
        invariant forall p :: p in conversations ==>
          conversations[p] == if p in done then Conv(a.conversations[p].state, None, None) else a.conversations[p]
        decreases rest
      {
        var peer :| peer in rest;
        SettledIsRemoved(tasks, conversations[peer]);
        SettleAll(peer);
        assert TimersOf(a, done + {peer}) == TimersOf(a, done) + Timers(a.conversations[peer]);
        done, rest := done + {peer}, rest - {peer};
      }
      assert done == a.conversations.Keys;
    }
  }

  lemma TakeTurnByStages(h: Host, peer: Address, turn: Turn, ch: Choices, log: seq<Effect>)
    requires Incoming(h.actor.Of(peer).state, turn).Legal?
    ensures var heard := Incoming(h.actor.Of(peer).state, turn).next;
      var m := Hearing(h, peer, heard);
      var fate := if h.actor.party && ch.reply.Some? then ReplyFate(heard, ch.reply.value, ch.replyOk) else Taken;
      && TakeTurn(h, peer, turn, ch).host == (if fate.Taken? then m else Replying(m, peer, heard, fate, ch))
      && log + TakeTurn(h, peer, turn, ch).effects
           == log + ReceiptEffects(h.actor, peer, turn, Stamped(h, ch)) + ReplyEffects(m.actor, peer, fate)
  {
    HearTurnByStages(h.actor, peer, turn, Stamped(h, ch), log);
  }

  /** Failing a conversation with nothing armed is what a reply that fails comes to. */
  lemma MisspokenFails(h: Host, peer: Address, heard: TurnState, ch: Choices)
    requires peer in h.actor.conversations && h.actor.conversations[peer] == Conv(heard, None, None)
    ensures FailHost(h, peer) == Replying(h, peer, heard, Misspoken, ch)
  {
  }

  lemma UnsentFails(h: Host, peer: Address, heard: TurnState, reply: Turn, ch: Choices)
    requires Outgoing(heard, reply).Legal?
    ensures FailHost(h.(actor := h.actor.With(peer, Conv(Outgoing(heard, reply).next, None, None))), peer)
      == Replying(h, peer, heard, Unsent(reply), ch)
  {
    var next := Outgoing(heard, reply).next;
    WithTwice(h.actor, peer, Conv(next, None, None), Conv(next.Fail(), None, None));
  }

  lemma SettledIsRemoved(tasks: map<nat, Report>, c: Conv)
    ensures Settled(tasks, c) == tasks - Timers(c)
  {
  }

  lemma FailNobody(h: Host)
    ensures FailHosts(h, {}) == h
  {
    var g := FailHosts(h, {});
    assert g.actor.conversations == h.actor.conversations;
    assert g.rounds == h.rounds;
    assert TimersOf(h.actor, {}) == {};
    assert g.tasks == h.tasks;
  }

  lemma FailAnother(h: Host, done: set<Address>, peer: Address)
    requires peer in h.actor.conversations && peer !in done
    ensures FailHost(FailHosts(h, done), peer) == FailHosts(h, done + {peer})
  {
    var f, g := FailHost(FailHosts(h, done), peer), FailHosts(h, done + {peer});
    assert f.actor.conversations == g.actor.conversations;
    assert f.rounds == g.rounds;
    MoreTimers(h, done, peer);
  }

  lemma MoreTimers(h: Host, done: set<Address>, peer: Address)
    requires peer in h.actor.conversations && peer !in done
    ensures Settled(h.tasks - TimersOf(h.actor, done), h.actor.conversations[peer])
      == h.tasks - TimersOf(h.actor, done + {peer})
  {
    assert TimersOf(h.actor, done + {peer}) == TimersOf(h.actor, done) + Timers(h.actor.conversations[peer]);
    SettledIsRemoved(h.tasks - TimersOf(h.actor, done), h.actor.conversations[peer]);
  }

  /** Failing conversations and changing the allowlist do not get in each other's way. */
  lemma AllowlistAside(h: Host, peers: set<Address>, allowlist: set<EndpointId>, order: seq<Address>,
                       cause: FailureCause)
    ensures FailHosts(Allowing(h, allowlist), peers) == Allowing(FailHosts(h, peers), allowlist)
    ensures FailAllEffects(Allowing(h, allowlist).actor, order, cause) == FailAllEffects(h.actor, order, cause)
  {
    var g := Allowing(h, allowlist);
    assert TimersOf(g.actor, peers) == TimersOf(h.actor, peers);
    SameSweepEffects(g.actor, h.actor, order, cause);
  }

  /** What a mail amounts to for the actor; nothing, when it is a stale report. */
  function InputOf(h: Host, mail: Mail, ch: Choices, order: seq<Address>): Option<Input> {
    match mail
    case DeliverMail(d) => Some(Deliver(d, Stamped(h, ch)))
    case ElapsedMail(r) => if Accepts(h, r) then Some(Elapse(r.peer, r.kind)) else None
    case DiedMail(e) => Some(Vanish(e, order))
    case AdmitMail(e) => Some(Admit(e))
    case RevokeMail(e) => Some(Input.Revoke(e, order))
  }

  lemma TurnReacts(h: Host, peer: Address, turn: Turn, ch: Choices)
    ensures TakeTurn(h, peer, turn, ch).host.actor == HearTurn(h.actor, peer, turn, Stamped(h, ch)).actor
  {
    if Incoming(h.actor.Of(peer).state, turn).Legal? {
      HearTurnByStages(h.actor, peer, turn, Stamped(h, ch), []);
    }
  }

  /** The host does to its actor what the engine does, whatever its tasks and epochs do meanwhile. */
  lemma HostReacts(h: Host, mail: Mail, ch: Choices, order: seq<Address>)
    ensures var o, input := OnMail(h, mail, ch, order), InputOf(h, mail, ch, order);
      if input.None? then o == Handled(h, [])
      else Outcome(o.host.actor, o.effects) == React(h.actor, input.value)
  {
    match mail {
      case DeliverMail(d) =>
        if Inbounds.Process(h.actor.allowlist, d).TurnReceived? {
          TurnReacts(h, d.from, d.message.turn, ch);
        }
      case _ =>
    }
  }

  /** Every mail but a report of a timer reaches the actor as what it is: a delivery with the handler's
      answers, its waits stamped with the next two task numbers; news of an endpoint as a sweep there. */
  lemma MailsReachTheActor(h: Host, mail: Mail, ch: Choices, order: seq<Address>)
    ensures var o := OnMail(h, mail, ch, order);
      var did := Outcome(o.host.actor, o.effects);
      match mail
      case DeliverMail(d) => did == React(h.actor, Deliver(d, ch.(ackStamp := h.next, turnStamp := h.next + 1)))
      case DiedMail(e) => did == React(h.actor, Vanish(e, order))
      case AdmitMail(e) => did == React(h.actor, Admit(e))
      case RevokeMail(e) => did == React(h.actor, Input.Revoke(e, order))
      case ElapsedMail(r) => did == React(h.actor, Elapse(r.peer, r.kind)) || o == Handled(h, [])
  {
    HostReacts(h, mail, ch, order);
  }
}
