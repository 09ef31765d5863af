/** The two runtimes agree: what the waits are stamped with makes no difference to anything an actor
    does, so the reference runtime and the Kameo host, each doing to its actors what the engine does,
    tell one story. */
module Agreement {
  import opened Vocabulary
  import opened Inbounds
  import opened Engine
  import LocalRuntimes
  import opened KameoHosts

  /** A conversation without its stamps: the state, and which waits are armed for what. */
  function Bare(c: Conv): Conv {
    Conv(c.state, if c.ack.Some? then Some(Wait(c.ack.value.id, 0)) else None,
         if c.turn.Some? then Some(0) else None)
  }

  /** The same actor, but for the stamps of its waits and its own patience. */
  ghost predicate Alike(a: Actor, b: Actor) {
    && a.address == b.address && a.harness == b.harness && a.party == b.party && a.allowlist == b.allowlist
    && a.conversations.Keys == b.conversations.Keys
    && forall p :: p in a.conversations ==> Bare(a.conversations[p]) == Bare(b.conversations[p])
  }

  /** The same choices, but for the stamps. */
  predicate SameChoices(c: Choices, d: Choices) {
    c.receiptOk == d.receiptOk && c.reply == d.reply && c.replyOk == d.replyOk && c.harnessReply == d.harnessReply
  }

  predicate AlikeInputs(i: Input, j: Input) {
    if i.Deliver? && j.Deliver? then i.delivery == j.delivery && SameChoices(i.choices, j.choices) else i == j
  }

  ghost predicate AlikeOutcomes(o: Outcome, r: Outcome) { o.effects == r.effects && Alike(o.actor, r.actor) }

  lemma TurnsAlike(a: Actor, b: Actor, peer: Address, turn: Turn, c: Choices, d: Choices)
    requires Alike(a, b) && SameChoices(c, d)
    ensures AlikeOutcomes(HearTurn(a, peer, turn, c), HearTurn(b, peer, turn, d))
  {
    assert Bare(a.Of(peer)) == Bare(b.Of(peer));
    ConvsAlike(a.Of(peer), b.Of(peer), a.party, turn, c, d);
  }

  lemma ConvsAlike(x: Conv, y: Conv, party: bool, turn: Turn, c: Choices, d: Choices)
    requires Bare(x) == Bare(y) && SameChoices(c, d)
    ensures FateOf(x, party, turn, c) == FateOf(y, party, turn, d)
    ensures var fate := FateOf(x, party, turn, c);
      Bare(ConvAfter(x, turn, fate, c)) == Bare(ConvAfter(y, turn, fate, d))
  {
  }

  lemma DeliveriesAlike(a: Actor, b: Actor, d: Delivery, c: Choices, e: Choices)
    requires Alike(a, b) && SameChoices(c, e)
    ensures AlikeOutcomes(Handle(a, d, c), Handle(b, d, e))
  {
    match Process(a.allowlist, d) {
      case TurnReceived(turn, peer, _) => TurnsAlike(a, b, peer, turn, c, e);
      case AckReceived(id) =>
        if d.from in a.conversations {
          assert Bare(SettleAck(a.conversations[d.from], id)) == Bare(SettleAck(b.conversations[d.from], id)) by {
            assert Bare(a.conversations[d.from]) == Bare(b.conversations[d.from]);
          }
        }
      case _ =>
    }
  }

  lemma SweepsAlike(a: Actor, b: Actor, e: EndpointId)
    requires Alike(a, b)
    ensures a.LiveAt(e) == b.LiveAt(e)
    ensures Alike(FailAll(a, a.LiveAt(e)), FailAll(b, b.LiveAt(e)))
  {
    forall p | p in a.conversations ensures a.conversations[p].state == b.conversations[p].state {
      assert Bare(a.conversations[p]) == Bare(b.conversations[p]);
    }
    assert a.LiveAt(e) == b.LiveAt(e);
  }

  lemma ReactionsAlike(a: Actor, b: Actor, i: Input, j: Input)
    requires Alike(a, b) && AlikeInputs(i, j)
    ensures AlikeOutcomes(React(a, i), React(b, j))
    ensures Enabled(a, i) <==> Enabled(b, j)
  {
    match i {
      case Deliver(d, c) => DeliveriesAlike(a, b, d, c, j.choices);
      case Elapse(peer, kind) =>
        if peer in a.conversations { assert Bare(a.conversations[peer]) == Bare(b.conversations[peer]); }
      case Vanish(e, order) => SweepsAlike(a, b, e); SameSweepEffects(a, b, order, Disconnected);
      case Revoke(e, order) => SweepsAlike(a, b, e); SameSweepEffects(a, b, order, FailureCause.Revoked);
      case Admit(_) =>
    }
  }

  /** Over whole runs: the same things happening to alike actors, in the same order, have the same
      effects in the same order, and leave the actors alike. */
  lemma {:induction false} RunsAlike(a: Actor, b: Actor, ins: seq<Input>, js: seq<Input>)
    requires Alike(a, b) && |ins| == |js|
    requires forall k :: 0 <= k < |ins| ==> AlikeInputs(ins[k], js[k])
    ensures Run(a, ins) <==> Run(b, js)
    ensures Trace(a, ins) == Trace(b, js)
    ensures Alike(After(a, ins), After(b, js))
    decreases |ins|
  {
    if ins != [] {
      var ins', js' := ins[..|ins| - 1], js[..|js| - 1];
      RunsAlike(a, b, ins', js');
      ReactionsAlike(After(a, ins'), After(b, js'), ins[|ins| - 1], js[|js| - 1]);
    }
  }

  /** What a Kameo handler and the matching action of the reference runtime do, side by side: from
      alike actors, the same sends attempted in the same order, the same notifications and the same
      events, and alike actors again. Reports that the host takes for stale match nothing, and do
      nothing. */
  lemma RuntimesAgree(h: Host, mail: Mail, ch: Choices, order: seq<Address>,
                      s: LocalRuntimes.Local, t: LocalRuntimes.Local, name: ActorName, input: Input,
                      effects: seq<Effect>)
    requires name in s.actors && Alike(h.actor, s.actors[name])
    requires LocalRuntimes.Became(s, t, name, React(s.actors[name], input), effects)
    ensures InputOf(h, mail, ch, order).None? ==> OnMail(h, mail, ch, order) == Handled(h, [])
    ensures InputOf(h, mail, ch, order).Some? && AlikeInputs(InputOf(h, mail, ch, order).value, input) ==>
      OnMail(h, mail, ch, order).effects == effects
      && Alike(OnMail(h, mail, ch, order).host.actor, t.actors[name])
  {
    HostReacts(h, mail, ch, order);
    if InputOf(h, mail, ch, order).Some? && AlikeInputs(InputOf(h, mail, ch, order).value, input) {
      ReactionsAlike(h.actor, s.actors[name], InputOf(h, mail, ch, order).value, input);
    }
  }
}
