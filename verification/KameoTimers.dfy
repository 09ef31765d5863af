/** The Kameo host with its mailbox and its timer tasks, running in every interleaving.

    The mailbox is first in, first out. A running task may fire at any moment, which queues its report
    and ends it; aborting a running task ends it without a report, but nothing unsends a report. */
module KameoTimers {
  import opened Vocabulary
  import opened Protocol
  import opened Inbounds
  import opened Engine
  import opened EngineTheorems
  import opened KameoHosts

  datatype Sys = Sys(host: Host, mailbox: seq<Mail>)

  /** One step of the system: the world queues a mail, a task fires, or the host takes its next mail. */
  datatype Act =
    | Enqueue(mail: Mail)
    | Fire(task: nat)
    | Serve(choices: Choices, order: seq<Address>)

  /** Before an enqueue or a report there are fewer than `capacity` mails waiting or in hand: the mail a
      handler is at work on counts until the handler ends, so `capacity` is one more than the mailbox's. */
  ghost predicate Allowed(s: Sys, act: Act, capacity: nat) {
    match act
    case Enqueue(mail) => |s.mailbox| < capacity && !mail.ElapsedMail?
    case Fire(task) => |s.mailbox| < capacity && task in s.host.tasks
    case Serve(_, order) =>
      s.mailbox != []
      && (s.mailbox[0].DiedMail? || s.mailbox[0].RevokeMail? ==>
            Lists(order, s.host.actor.LiveAt(s.mailbox[0].endpoint)))
  }

  function Do(s: Sys, act: Act): Sys {
    match act
    case Enqueue(mail) => s.(mailbox := s.mailbox + [mail])
    case Fire(task) =>
      if task in s.host.tasks then
        Sys(s.host.(tasks := s.host.tasks - {task}), s.mailbox + [ElapsedMail(s.host.tasks[task])])
      else s
    case Serve(ch, order) =>
      if s.mailbox == [] then s else Sys(OnMail(s.host, s.mailbox[0], ch, order).host, s.mailbox[1..])
  }

  ghost predicate Schedule(s: Sys, acts: seq<Act>, capacity: nat)
    decreases |acts|
  {
    acts == [] || (Schedule(s, acts[..|acts| - 1], capacity)
                   && Allowed(Reached(s, acts[..|acts| - 1]), acts[|acts| - 1], capacity))
  }

  function Reached(s: Sys, acts: seq<Act>): Sys
    decreases |acts|
  {
    if acts == [] then s else Do(Reached(s, acts[..|acts| - 1]), acts[|acts| - 1])
  }

  /** A host that has just been installed. */
  predicate Fresh(s: Sys) {
    s.mailbox == [] && s.host.actor.conversations == map[] && s.host.rounds == map[] && s.host.tasks == map[]
  }

  // ---- What guards a wait ----

  function StampOf(c: Conv, kind: DeadlineKind): Option<nat> {
    match kind
    case AckDeadline => if c.ack.Some? then Some(c.ack.value.stamp) else None
    case TurnDeadline => c.turn
  }

  function AckIdOf(c: Conv, kind: DeadlineKind): Option<RequestId> {
    if kind.AckDeadline? && c.ack.Some? then Some(c.ack.value.id) else None
  }

  /** The report of the task that guards the armed wait. */
  function Guard(h: Host, peer: Address, kind: DeadlineKind): Report
    requires StampOf(h.actor.Of(peer), kind).Some?
  {
    Report(peer, kind, AckIdOf(h.actor.Of(peer), kind), h.Epoch(peer),
           StampOf(h.actor.Of(peer), kind).value, h.Round(peer))
  }

  predicate Armed(h: Host, peer: Address, kind: DeadlineKind) { StampOf(h.actor.Of(peer), kind).Some? }

  /** The report is that of the wait armed now. */
  predicate Current(h: Host, r: Report) { Armed(h, r.peer, r.kind) && r == Guard(h, r.peer, r.kind) }

  /** Every task now running guards a wait now armed. */
  ghost predicate TasksGuard(h: Host) {
    forall k :: k in h.tasks ==> h.tasks[k].task == k && k < h.next && Current(h, h.tasks[k])
  }

  /** What is known of a report at place `i` of the mailbox: its task is over; the bumps since it was
      armed and the mails ahead of it together fall short of the capacity; and it was armed in the
      present round, if its wait is armed at all, exactly when it is its guard's. */
  predicate Known(h: Host, r: Report, i: nat, capacity: nat) {
    && r.task < h.next && r.task !in h.tasks
    && r.epoch == r.round % EPOCHS
    && r.round <= h.Round(r.peer)
    && h.Round(r.peer) - r.round + i < capacity
    && (Armed(h, r.peer, r.kind) ==>
          (Current(h, r) <==> r.round == h.Round(r.peer))
          && (Current(h, r) <==> StampOf(h.actor.Of(r.peer), r.kind) == Some(r.task)))
  }

  ghost predicate ReportsKnown(s: Sys, capacity: nat) {
    forall i :: 0 <= i < |s.mailbox| && s.mailbox[i].ElapsedMail? ==> Known(s.host, s.mailbox[i].report, i, capacity)
  }

  /** No task has two reports. */
  ghost predicate ReportedOnce(mailbox: seq<Mail>) {
    forall i, j :: 0 <= i < j < |mailbox| && mailbox[i].ElapsedMail? && mailbox[j].ElapsedMail? ==>
      mailbox[i].report.task != mailbox[j].report.task
  }

  ghost predicate Queued(mailbox: seq<Mail>, r: Report) {
    exists i :: 0 <= i < |mailbox| && mailbox[i] == ElapsedMail(r)
  }

  /** Every armed wait is guarded: its task is running, or has reported and the report is queued. */
  ghost predicate WaitsGuarded(s: Sys) {
    forall peer, kind :: Armed(s.host, peer, kind) ==>
      var g := Guard(s.host, peer, kind);
      g.task < s.host.next && (Runs(s.host, g) || Queued(s.mailbox, g))
  }

  predicate Runs(h: Host, r: Report) { r.task in h.tasks && h.tasks[r.task] == r }

  ghost predicate Guarded(s: Sys, capacity: nat) {
    EngineTheorems.Sound(s.host.actor) && TasksGuard(s.host) && ReportsKnown(s, capacity) && ReportedOnce(s.mailbox)
    && WaitsGuarded(s)
  }

  // ---- What a handler may do to the waits of one peer ----

  /** The peer's waits have only been settled, if that; and all of them, if its epoch was bumped. */
  predicate OnlySettled(h: Host, g: Host, peer: Address) {
    && g.Round(peer) <= h.Round(peer) + 1
    && g.Round(peer) >= h.Round(peer)
    && forall kind :: Armed(g, peer, kind) ==> Armed(h, peer, kind) && Guard(g, peer, kind) == Guard(h, peer, kind)
  }

  /** The peer's waits have all been armed afresh, with new tasks, in a new round. */
  predicate Rearmed(h: Host, g: Host, peer: Address) {
    && g.Round(peer) == h.Round(peer) + 1
    && forall kind :: Armed(g, peer, kind) ==>
         h.next <= Guard(g, peer, kind).task < g.next && Runs(g, Guard(g, peer, kind))
  }

  /** What every handler does to tasks and waits. */
  ghost predicate Tends(h: Host, g: Host) {
    && h.next <= g.next
    && (forall peer :: OnlySettled(h, g, peer) || Rearmed(h, g, peer))
    && (forall k :: k in g.tasks ==> g.tasks[k].task == k && k < g.next && Current(g, g.tasks[k])
                                     && (k in h.tasks || h.next <= k))
    && (forall k :: k in h.tasks && Current(g, h.tasks[k]) ==> k in g.tasks && g.tasks[k] == h.tasks[k])
  }

  lemma TendsKeepsKnown(h: Host, g: Host, r: Report, i: nat, capacity: nat)
    requires Tends(h, g) && 0 < i && Known(h, r, i, capacity)
    ensures Known(g, r, i - 1, capacity)
  {
    assert OnlySettled(h, g, r.peer) || Rearmed(h, g, r.peer);
    if Armed(g, r.peer, r.kind) {
      if Rearmed(h, g, r.peer) {
        assert Guard(g, r.peer, r.kind).task >= h.next;
      } else {
        assert Guard(g, r.peer, r.kind) == Guard(h, r.peer, r.kind);
      }
    }
  }

  /** A handler that tends tasks and waits keeps every wait guarded, provided the mail it took was not
      the report of a wait still armed. */
  lemma TendsKeepsGuarded(s: Sys, g: Host, capacity: nat)
    requires Guarded(s, capacity) && s.mailbox != [] && Tends(s.host, g) && EngineTheorems.Sound(g.actor)
    requires s.mailbox[0].ElapsedMail? ==> !Current(g, s.mailbox[0].report)
    ensures Guarded(Sys(g, s.mailbox[1..]), capacity)
  {
    var h, rest := s.host, s.mailbox[1..];
    forall i | 0 <= i < |rest| && rest[i].ElapsedMail? ensures Known(g, rest[i].report, i, capacity) {
      assert rest[i] == s.mailbox[i + 1];
      TendsKeepsKnown(h, g, rest[i].report, i + 1, capacity);
    }
    forall peer, kind | Armed(g, peer, kind)
      ensures Guard(g, peer, kind).task < g.next
        && (Runs(g, Guard(g, peer, kind)) || Queued(rest, Guard(g, peer, kind)))
    {
      var r := Guard(g, peer, kind);
      if !Rearmed(h, g, peer) {
        assert r == Guard(h, peer, kind);
        if !Runs(h, r) {
          var i :| 0 <= i < |s.mailbox| && s.mailbox[i] == ElapsedMail(r);
          assert rest[i - 1] == ElapsedMail(r);
        }
      }
    }
    forall i, j | 0 <= i < j < |rest| && rest[i].ElapsedMail? && rest[j].ElapsedMail?
      ensures rest[i].report.task != rest[j].report.task
    {
      assert rest[i] == s.mailbox[i + 1] && rest[j] == s.mailbox[j + 1];
    }
  }

  // ---- Each handler tends tasks and waits ----

  /** The tasks running are the guards of armed waits, and no other's. */
  ghost predicate Paired(h: Host) {
    TasksGuard(h)
    && forall peer, kind :: Armed(h, peer, kind) ==>
         var g := Guard(h, peer, kind);
         g.task < h.next && (g.task in h.tasks ==> h.tasks[g.task] == g)
  }

  lemma GuardedIsPaired(s: Sys, capacity: nat)
    requires Guarded(s, capacity)
    ensures Paired(s.host)
  {
    forall peer, kind | Armed(s.host, peer, kind) && Guard(s.host, peer, kind).task in s.host.tasks
      ensures Runs(s.host, Guard(s.host, peer, kind))
    {
      var g := Guard(s.host, peer, kind);
      if !Runs(s.host, g) { QueuedIsOver(s, g, capacity); }
    }
  }

  lemma QueuedIsOver(s: Sys, r: Report, capacity: nat)
    requires ReportsKnown(s, capacity) && Queued(s.mailbox, r)
    ensures r.task !in s.host.tasks
  {
    var i :| 0 <= i < |s.mailbox| && s.mailbox[i] == ElapsedMail(r);
    assert Known(s.host, s.mailbox[i].report, i, capacity);
  }

  /** The actors agree on every conversation but `peer`'s. */
  ghost predicate SameElsewhere(h: Host, g: Host, peer: Address) {
    forall q: Address :: q != peer ==> g.actor.Of(q) == h.actor.Of(q) && g.Round(q) == h.Round(q)
  }

  lemma SettledTasks(tasks: map<nat, Report>, c: Conv)
    ensures forall k :: k in Settled(tasks, c) <==>
              k in tasks && StampOf(c, AckDeadline) != Some(k) && StampOf(c, TurnDeadline) != Some(k)
    ensures forall k :: k in Settled(tasks, c) ==> Settled(tasks, c)[k] == tasks[k]
  {
  }

  /** Settling all of one peer's waits, bumped or not. */
  lemma SettlingTends(h: Host, g: Host, peer: Address)
    requires Paired(h) && SameElsewhere(h, g, peer) && g.next == h.next
    requires g.actor.Of(peer).ack.None? && g.actor.Of(peer).turn.None?
    requires h.Round(peer) <= g.Round(peer) <= h.Round(peer) + 1
    requires g.tasks == Settled(h.tasks, h.actor.Of(peer))
    ensures Tends(h, g)
  {
    SettledTasks(h.tasks, h.actor.Of(peer));
    forall q ensures OnlySettled(h, g, q) { if q != peer { assert g.actor.Of(q) == h.actor.Of(q); } }
    forall k | k in g.tasks ensures g.tasks[k].task == k && k < g.next && Current(g, g.tasks[k]) {
      assert Current(h, h.tasks[k]);
      assert h.tasks[k].peer != peer;
      assert g.actor.Of(h.tasks[k].peer) == h.actor.Of(h.tasks[k].peer);
    }
    forall k | k in h.tasks && Current(g, h.tasks[k]) ensures k in g.tasks {
      var r := h.tasks[k];
      assert r.peer != peer;
      SettledSparesOthers(h, peer, k);
    }
  }

  lemma SettledSparesOthers(h: Host, peer: Address, k: nat)
    requires Paired(h) && k in h.tasks && h.tasks[k].peer != peer
    ensures StampOf(h.actor.Of(peer), AckDeadline) != Some(k) && StampOf(h.actor.Of(peer), TurnDeadline) != Some(k)
  {
    if Armed(h, peer, AckDeadline) { assert Guard(h, peer, AckDeadline).peer == peer; }
    if Armed(h, peer, TurnDeadline) { assert Guard(h, peer, TurnDeadline).peer == peer; }
  }

  lemma AckTends(h: Host, peer: Address, id: RequestId)
    requires Paired(h)
    ensures Tends(h, TakeAck(h, peer, id))
  {
    var g := TakeAck(h, peer, id);
    var c := h.actor.Of(peer);
    if g != h && SettleAck(c, id) != c {
      forall q ensures OnlySettled(h, g, q) { if q != peer { assert g.actor.Of(q) == h.actor.Of(q); } }
      assert Armed(h, peer, AckDeadline);
      var stamp := c.ack.value.stamp;
      assert Guard(h, peer, AckDeadline).task == stamp;
      forall k | k in g.tasks ensures g.tasks[k].task == k && k < g.next && Current(g, g.tasks[k]) {
        assert Current(h, h.tasks[k]) && k != stamp;
        if h.tasks[k].peer != peer { assert g.actor.Of(h.tasks[k].peer) == h.actor.Of(h.tasks[k].peer); }
      }
    }
  }

  lemma StartedTasks(h: Host, peer: Address, after: Conv, round: nat)
    requires after.ack.Some? ==> after.ack.value.stamp == h.next && after.turn == Some(h.next + 1)
    requires after.turn.Some? ==> after.ack.Some?
    ensures var t := Started(h.tasks, peer, after, round);
      && (forall k :: k in t <==> k in h.tasks || (after.ack.Some? && (k == h.next || k == h.next + 1)))
      && (forall k :: k in h.tasks && k < h.next ==> t[k] == h.tasks[k])
      && (after.ack.Some? ==>
            t[h.next] == Report(peer, AckDeadline, Some(after.ack.value.id), round % EPOCHS, h.next, round)
            && t[h.next + 1] == Report(peer, TurnDeadline, None, round % EPOCHS, h.next + 1, round))
  {
  }

  /** Replying, from a conversation with nothing armed. */
  lemma ReplyTends(h: Host, peer: Address, heard: TurnState, fate: Fate, ch: Choices)
    requires Paired(h)
    requires h.actor.Of(peer).ack.None? && h.actor.Of(peer).turn.None?
    requires fate.Replied? || fate.Misspoken? || fate.Unsent?
    ensures Tends(h, Replying(h, peer, heard, fate, ch))
  {
    var g := Replying(h, peer, heard, fate, ch);
    var after := ConvAfterReply(heard, fate, Stamped(h, ch));
    StartedTasks(h, peer, after, h.Round(peer) + 1);
    assert SameElsewhere(h, g, peer);
    assert g.actor.Of(peer) == after && g.Round(peer) == h.Round(peer) + 1;
    if after.ack.Some? { RepliedRearms(h, g, peer); }
    forall q ensures OnlySettled(h, g, q) || Rearmed(h, g, q) {
      if q != peer { assert g.actor.Of(q) == h.actor.Of(q); }
    }
    forall k | k in g.tasks
      ensures g.tasks[k].task == k && k < g.next && Current(g, g.tasks[k]) && (k in h.tasks || h.next <= k)
    {
      if k in h.tasks {
        assert Current(h, h.tasks[k]);
        assert h.tasks[k].peer != peer;
        assert g.actor.Of(h.tasks[k].peer) == h.actor.Of(h.tasks[k].peer);
      }
    }
  }

  /** Both waits are guarded by the two tasks just started. */
  lemma RepliedRearms(h: Host, g: Host, peer: Address)
    requires g.Round(peer) == h.Round(peer) + 1 && g.next == h.next + 2
    requires var c := g.actor.Of(peer);
      c.ack.Some? && c.ack.value.stamp == h.next && c.turn == Some(h.next + 1)
      && g.tasks == Started(h.tasks, peer, c, g.Round(peer))
    ensures Rearmed(h, g, peer)
    ensures Runs(g, Guard(g, peer, AckDeadline)) && Runs(g, Guard(g, peer, TurnDeadline))
  {
    forall kind | Armed(g, peer, kind)
      ensures h.next <= Guard(g, peer, kind).task < g.next && Runs(g, Guard(g, peer, kind))
    {
      match kind { case AckDeadline => case TurnDeadline => }
    }
  }

  /** Settling and then replying, in one handler. */
  lemma TendsThen(h: Host, m: Host, g: Host)
    requires Paired(h) && Tends(h, m) && Tends(m, g) && m.next == h.next && m.rounds == h.rounds
    ensures Tends(h, g)
  {
    forall q ensures OnlySettled(h, g, q) || Rearmed(h, g, q) {
      assert !Rearmed(h, m, q);
      assert OnlySettled(m, g, q) || Rearmed(m, g, q);
    }
    forall k | k in h.tasks && Current(g, h.tasks[k]) ensures k in g.tasks && g.tasks[k] == h.tasks[k] {
      var r := h.tasks[k];
      assert Armed(g, r.peer, r.kind) && Guard(g, r.peer, r.kind).task < m.next;
      assert OnlySettled(m, g, r.peer) || Rearmed(m, g, r.peer);
      assert Current(m, r);
    }
  }

  lemma TendsKeepsPaired(h: Host, m: Host)
    requires Paired(h) && Tends(h, m)
    ensures Paired(m)
  {
    forall peer, kind | Armed(m, peer, kind)
      ensures Guard(m, peer, kind).task < m.next
        && (Guard(m, peer, kind).task in m.tasks ==> m.tasks[Guard(m, peer, kind).task] == Guard(m, peer, kind))
    {
      var r := Guard(m, peer, kind);
      if !Rearmed(h, m, peer) {
        assert OnlySettled(h, m, peer);
        assert r == Guard(h, peer, kind);
        if r.task in m.tasks { assert r.task in h.tasks; }
      }
    }
  }

  lemma TurnTends(h: Host, peer: Address, turn: Turn, ch: Choices)
    requires Paired(h)
    ensures Tends(h, TakeTurn(h, peer, turn, ch).host)
  {
    var ruling := Incoming(h.actor.Of(peer).state, turn);
    var g := TakeTurn(h, peer, turn, ch).host;
    if ruling.Refused? {
      UnchangedTends(h, g);
    } else {
      var m := Hearing(h, peer, ruling.next);
      assert SameElsewhere(h, m, peer);
      SettlingTends(h, m, peer);
      if g != m {
        TendsKeepsPaired(h, m);
        ReplyTends(m, peer, ruling.next, ReplyFate(ruling.next, ch.reply.value, ch.replyOk), ch);
        TendsThen(h, m, g);
      }
    }
  }

  /** Nothing about tasks and waits has changed. */
  lemma UnchangedTends(h: Host, g: Host)
    requires Paired(h) && g.tasks == h.tasks && g.next == h.next && g.rounds == h.rounds
    requires forall q: Address :: g.actor.Of(q) == h.actor.Of(q)
    ensures Tends(h, g)
  {
    forall q ensures OnlySettled(h, g, q) { assert g.actor.Of(q) == h.actor.Of(q); }
    forall k | k in g.tasks ensures Current(g, g.tasks[k]) {
      assert g.actor.Of(h.tasks[k].peer) == h.actor.Of(h.tasks[k].peer);
    }
  }

  lemma FailTends(h: Host, peer: Address)
    requires Paired(h) && peer in h.actor.conversations
    ensures Tends(h, FailHost(h, peer))
  {
    assert SameElsewhere(h, FailHost(h, peer), peer);
    SettlingTends(h, FailHost(h, peer), peer);
  }

  lemma SweepTends(h: Host, peers: set<Address>)
    requires Paired(h) && peers <= h.actor.conversations.Keys
    ensures Tends(h, FailHosts(h, peers))
  {
    var g := FailHosts(h, peers);
    forall q ensures OnlySettled(h, g, q) {
      if q !in peers { assert g.actor.Of(q) == h.actor.Of(q) && g.Round(q) == h.Round(q); }
    }
    forall k | k in g.tasks ensures Current(g, g.tasks[k]) {
      assert Current(h, h.tasks[k]);
      var q := h.tasks[k].peer;
      assert k in Timers(h.actor.Of(q));
      assert q !in peers;
    }
    forall k | k in h.tasks && Current(g, h.tasks[k]) ensures k in g.tasks {
      var q := h.tasks[k].peer;
      assert q !in peers;
      forall p | p in peers ensures k !in Timers(h.actor.conversations[p]) {
        SettledSparesOthers(h, p, k);
      }
    }
  }

  /** Tasks and waits do not depend on the allowlist. */
  lemma AllowingTends(h: Host, f: Host, allowlist: set<EndpointId>)
    requires Tends(h, f)
    ensures Tends(h, Allowing(f, allowlist))
  {
    var g := Allowing(f, allowlist);
    forall q ensures OnlySettled(h, g, q) || Rearmed(h, g, q) {
      assert OnlySettled(h, f, q) || Rearmed(h, f, q);
      assert forall kind :: Armed(g, q, kind) <==> Armed(f, q, kind);
      assert forall kind :: Armed(g, q, kind) ==> Guard(g, q, kind) == Guard(f, q, kind);
    }
  }

  lemma ServeTends(h: Host, mail: Mail, ch: Choices, order: seq<Address>)
    requires Paired(h)
    ensures Tends(h, OnMail(h, mail, ch, order).host)
  {
    var g := OnMail(h, mail, ch, order).host;
    match mail {
      case DeliverMail(d) =>
        match Process(h.actor.allowlist, d) {
          case TurnReceived(turn, peer, _) => TurnTends(h, peer, turn, ch);
          case AckReceived(id) => AckTends(h, d.from, id);
          case _ => UnchangedTends(h, g);
        }
      case ElapsedMail(r) => if Accepts(h, r) { FailTends(h, r.peer); } else { UnchangedTends(h, g); }
      case DiedMail(e) => SweepTends(h, h.actor.LiveAt(e));
      case AdmitMail(e) => UnchangedTends(h, g);
      case RevokeMail(e) =>
        SweepTends(h, h.actor.LiveAt(e));
        AllowingTends(h, FailHosts(h, h.actor.LiveAt(e)), h.actor.allowlist - {e});
    }
  }

  // ---- The host judges reports rightly ----

  /** A report at the head of the mailbox is accepted exactly when it is the guard's of a wait armed
      now: fewer than 2^64 bumps can have happened since it was armed. */
  lemma HeadJudgedRightly(s: Sys, capacity: nat)
    requires Guarded(s, capacity) && capacity <= EPOCHS
    requires s.mailbox != [] && s.mailbox[0].ElapsedMail?
    ensures Accepts(s.host, s.mailbox[0].report) <==> Current(s.host, s.mailbox[0].report)
  {
    var h, r := s.host, s.mailbox[0].report;
    assert Known(h, r, 0, capacity);
    if Accepts(h, r) {
      SmallDifference(h.Round(r.peer), r.round);
      assert Armed(h, r.peer, r.kind);
    }
  }

  /** Two counts that wrap to the same epoch are the same count, if they are close. */
  lemma SmallDifference(m: nat, n: nat)
    requires n <= m < n + EPOCHS && m % EPOCHS == n % EPOCHS
    ensures m == n
  {
    assert m == (m / EPOCHS) * EPOCHS + m % EPOCHS;
    assert n == (n / EPOCHS) * EPOCHS + n % EPOCHS;
    assert m - n == (m / EPOCHS - n / EPOCHS) * EPOCHS;
  }

  lemma ServeKeepsGuarded(s: Sys, ch: Choices, order: seq<Address>, capacity: nat)
    requires Guarded(s, capacity) && capacity <= EPOCHS && Allowed(s, Serve(ch, order), capacity)
    ensures Guarded(Do(s, Serve(ch, order)), capacity)
  {
    var h, mail := s.host, s.mailbox[0];
    var g := OnMail(h, mail, ch, order).host;
    GuardedIsPaired(s, capacity);
    ServeTends(h, mail, ch, order);
    HostReacts(h, mail, ch, order);
    var input := InputOf(h, mail, ch, order);
    if input.Some? { ReactKeepsSound(h.actor, input.value); }
    if mail.ElapsedMail? {
      HeadJudgedRightly(s, capacity);
      if Accepts(h, mail.report) { assert g.actor.Of(mail.report.peer) == Ended(h.actor.Of(mail.report.peer)); }
    }
    TendsKeepsGuarded(s, g, capacity);
  }

  lemma EnqueueKeepsGuarded(s: Sys, mail: Mail, capacity: nat)
    requires Guarded(s, capacity) && !mail.ElapsedMail?
    ensures Guarded(Do(s, Enqueue(mail)), capacity)
  {
    var t := Do(s, Enqueue(mail));
    forall peer, kind | Armed(s.host, peer, kind) && !Runs(s.host, Guard(s.host, peer, kind))
      ensures Queued(t.mailbox, Guard(s.host, peer, kind))
    {
      var i :| 0 <= i < |s.mailbox| && s.mailbox[i] == ElapsedMail(Guard(s.host, peer, kind));
      assert t.mailbox[i] == s.mailbox[i];
    }
  }

  lemma FireKeepsGuarded(s: Sys, task: nat, capacity: nat)
    requires Guarded(s, capacity) && Allowed(s, Fire(task), capacity)
    ensures Guarded(Do(s, Fire(task)), capacity)
  {
    var h, r := s.host, s.host.tasks[task];
    var t := Do(s, Fire(task));
    assert Current(h, r) && r.task == task;
    forall i | 0 <= i < |t.mailbox| && t.mailbox[i].ElapsedMail?
      ensures Known(t.host, t.mailbox[i].report, i, capacity) {
      if i < |s.mailbox| { assert Known(h, s.mailbox[i].report, i, capacity); }
    }
    forall i, j | 0 <= i < j < |t.mailbox| && t.mailbox[i].ElapsedMail? && t.mailbox[j].ElapsedMail?
      ensures t.mailbox[i].report.task != t.mailbox[j].report.task
    {
      assert Known(h, s.mailbox[i].report, i, capacity);
    }
    FireKeepsWaitsGuarded(s, task, capacity);
  }

  lemma FireKeepsWaitsGuarded(s: Sys, task: nat, capacity: nat)
    requires TasksGuard(s.host) && WaitsGuarded(s) && Allowed(s, Fire(task), capacity)
    ensures WaitsGuarded(Do(s, Fire(task)))
  {
    var h, t := s.host, Do(s, Fire(task));
    forall peer, kind | Armed(t.host, peer, kind)
      ensures Guard(t.host, peer, kind).task < t.host.next
        && (Runs(t.host, Guard(t.host, peer, kind)) || Queued(t.mailbox, Guard(t.host, peer, kind)))
    {
      var g := Guard(h, peer, kind);
      assert Guard(t.host, peer, kind) == g;
      if Runs(h, g) {
        if g.task == task { assert t.mailbox[|s.mailbox|] == ElapsedMail(g); }
      } else {
        var i :| 0 <= i < |s.mailbox| && s.mailbox[i] == ElapsedMail(g);
        assert t.mailbox[i] == s.mailbox[i];
      }
    }
  }

  /** In every interleaving, with never more than 2^64 mails waiting or in hand, every wait
      stays guarded. */
  lemma {:induction false} AlwaysGuarded(s: Sys, acts: seq<Act>, capacity: nat)
    requires Fresh(s) && Schedule(s, acts, capacity) && capacity <= EPOCHS
    ensures Guarded(Reached(s, acts), capacity)
    decreases |acts|
  {
    if acts != [] {
      var before, last := acts[..|acts| - 1], acts[|acts| - 1];
      AlwaysGuarded(s, before, capacity);
      var now := Reached(s, before);
      match last {
        case Enqueue(mail) => EnqueueKeepsGuarded(now, mail, capacity);
        case Fire(task) => FireKeepsGuarded(now, task, capacity);
        case Serve(ch, order) => ServeKeepsGuarded(now, ch, order, capacity);
      }
    }
  }

  // ---- The promises ----

  /** Whatever the interleaving of deliveries, firings, aborts, deaths, admissions and revocations, a
      report the host accepts is that of the very wait armed now, never of one settled, failed or
      armed again since its task was started; and the report of a wait armed now is never ignored. */
  lemma {:induction false} AcceptedReportsAreCurrent(s: Sys, acts: seq<Act>, capacity: nat)
    requires Fresh(s) && Schedule(s, acts, capacity) && capacity <= EPOCHS
    requires var t := Reached(s, acts); t.mailbox != [] && t.mailbox[0].ElapsedMail?
    ensures var t := Reached(s, acts);
      var r := t.mailbox[0].report;
      Accepts(t.host, r) <==> StampOf(t.host.actor.Of(r.peer), r.kind) == Some(r.task)
  {
    var t := Reached(s, acts);
    AlwaysGuarded(s, acts, capacity);
    HeadJudgedRightly(t, capacity);
    assert Known(t.host, t.mailbox[0].report, 0, capacity);
  }

  /** And so, in every interleaving, the report being served ends the exchange whose armed wait it belongs to,
      and only then does anything. */
  lemma {:induction false} ReportsAreActedOn(s: Sys, acts: seq<Act>, capacity: nat, ch: Choices, order: seq<Address>)
    requires Fresh(s) && Schedule(s, acts, capacity) && capacity <= EPOCHS
    requires var t := Reached(s, acts); t.mailbox != [] && t.mailbox[0].ElapsedMail?
    ensures var t := Reached(s, acts);
      var r, o := t.mailbox[0].report, OnMail(t.host, t.mailbox[0], ch, order);
      if StampOf(t.host.actor.Of(r.peer), r.kind) == Some(r.task) then
        Outcome(o.host.actor, o.effects) == React(t.host.actor, Elapse(r.peer, r.kind))
      else o == Handled(t.host, [])
  {
    AcceptedReportsAreCurrent(s, acts, capacity);
    var t := Reached(s, acts);
    HostReacts(t.host, t.mailbox[0], ch, order);
  }

  /** How many reports of a task are queued. */
  function Reports(mailbox: seq<Mail>, task: nat): nat {
    if mailbox == [] then 0
    else
      Reports(mailbox[..|mailbox| - 1], task)
      + if mailbox[|mailbox| - 1].ElapsedMail? && mailbox[|mailbox| - 1].report.task == task then 1 else 0
  }

  lemma {:induction false} AtMostOneReport(mailbox: seq<Mail>, task: nat)
    requires ReportedOnce(mailbox)
    ensures Reports(mailbox, task)
      == if exists i :: 0 <= i < |mailbox| && mailbox[i].ElapsedMail? && mailbox[i].report.task == task then 1 else 0
  {
    if mailbox != [] {
      var before := mailbox[..|mailbox| - 1];
      assert forall i :: 0 <= i < |before| ==> before[i] == mailbox[i];
      AtMostOneReport(before, task);
    }
  }

  /** Between handlers: every armed wait has exactly one of a running task or a queued report of its
      own; every running task guards an armed wait; a turn is awaited exactly when a turn wait is
      armed; and if the host is stopped now, no task is left running. */
  lemma {:induction false} EveryWaitHasOneGuard(s: Sys, acts: seq<Act>, capacity: nat, peer: Address,
                                               kind: DeadlineKind)
    requires Fresh(s) && Schedule(s, acts, capacity) && capacity <= EPOCHS
    ensures var t := Reached(s, acts);
      && (Armed(t.host, peer, kind) ==>
            var g := Guard(t.host, peer, kind);
            if g.task in t.host.tasks then t.host.tasks[g.task] == g && Reports(t.mailbox, g.task) == 0
            else Queued(t.mailbox, g) && Reports(t.mailbox, g.task) == 1)
      && (forall k :: k in t.host.tasks ==> Current(t.host, t.host.tasks[k]) && t.host.tasks[k].task == k)
      && (Armed(t.host, peer, TurnDeadline) <==> t.host.actor.Of(peer).state.AwaitingTheirTurn?)
      && t.host.tasks - TimersOf(t.host.actor, t.host.actor.conversations.Keys) == map[]
  {
    var t := Reached(s, acts);
    AlwaysGuarded(s, acts, capacity);
    if Armed(t.host, peer, kind) {
      var g := Guard(t.host, peer, kind);
      AtMostOneReport(t.mailbox, g.task);
      GuardedIsPaired(t, capacity);
      forall i | 0 <= i < |t.mailbox| && t.mailbox[i].ElapsedMail? ensures t.mailbox[i].report.task !in t.host.tasks {
        assert Known(t.host, t.mailbox[i].report, i, capacity);
      }
    }
    forall k | k in t.host.tasks ensures k in TimersOf(t.host.actor, t.host.actor.conversations.Keys) {
      var r := t.host.tasks[k];
      assert Current(t.host, r);
      assert k in Timers(t.host.actor.conversations[r.peer]);
    }
  }
}
