/** The bound on the mailbox is exact: with room for one mail more, the epoch can wrap all the way
    round while a report waits its turn, and the host then takes the stale report for a live one. */
module KameoWrap {
  import opened Vocabulary
  import opened Protocol
  import opened Engine
  import opened KameoHosts
  import opened KameoTimers

  const HOME := Address(EndpointId("aa"), ActorName("host"))
  const PEER := Address(EndpointId("bb"), ActorName("peer"))
  const OURS := RequestId([1])
  const THEIRS := RequestId([2])

  /** The party always answers the one question it is asked with the one it asks. */
  const CHOICES := Choices(true, Some(Continue(Response(THEIRS, []), Request(OURS, []))), true, None, 0, 0)
  const OPENING := DeliverMail(Delivery(PEER, HOME, TurnMessage(Open(Request(THEIRS, [])))))
  const CONTINUING := DeliverMail(Delivery(PEER, HOME, TurnMessage(Continue(Response(OURS, []), Request(THEIRS, [])))))

  const NEW := Sys(Host(Actor(HOME, false, true, Deadlines(1, 1), {PEER.endpoint}, map[]), map[], map[], 0), [])

  /** The report of the first turn wait. */
  const FIRST := Report(PEER, TurnDeadline, None, 1, 1, 1)

  function Copies<T>(x: T, n: nat): seq<T> { seq(n, i => x) }

  /** The conversation is awaiting its `round`-th answer, guarded by tasks newer than the first two,
      or by those, in the first round. */
  ghost predicate Awaiting(h: Host, round: nat) {
    && h.actor.party && h.actor.allowlist == {PEER.endpoint}
    && PEER in h.actor.conversations && h.Round(PEER) == round && 2 <= h.next
    && h.actor.Of(PEER).state == AwaitingTheirTurn(OURS)
    && h.actor.Of(PEER).turn.Some? && (1 < round ==> 2 <= h.actor.Of(PEER).turn.value)
  }

  lemma ScheduleAppend(s: Sys, u: seq<Act>, v: seq<Act>, capacity: nat)
    ensures Schedule(s, u + v, capacity) <==> Schedule(s, u, capacity) && Schedule(Reached(s, u), v, capacity)
    ensures Reached(s, u + v) == Reached(Reached(s, u), v)
    decreases |v|
  {
    if v == [] {
      assert u + v == u;
    } else {
      ScheduleAppend(s, u, v[..|v| - 1], capacity);
      assert (u + v)[..|u + v| - 1] == u + v[..|v| - 1];
    }
  }

  lemma ScheduleOne(s: Sys, act: Act, capacity: nat)
    ensures Schedule(s, [act], capacity) <==> Allowed(s, act, capacity)
    ensures Reached(s, [act]) == Do(s, act)
  {
    assert [act][..0] == [];
  }

  lemma Answered(h: Host, mail: Mail, round: nat)
    requires h.actor.party && h.actor.allowlist == {PEER.endpoint} && h.Round(PEER) == round
    requires (mail == OPENING && h.actor.Of(PEER) == QUIET && round == 0 && h.next == 0)
      || (mail == CONTINUING && Awaiting(h, round))
    ensures Awaiting(OnMail(h, mail, CHOICES, []).host, round + 1)
    ensures mail == OPENING ==> Runs(OnMail(h, mail, CHOICES, []).host, FIRST)
  {
  }

  /** The exchange opens, and its first turn wait is armed. */
  lemma Opened(capacity: nat)
    requires 0 < capacity
    ensures var acts := [Enqueue(OPENING)] + [Serve(CHOICES, [])];
      var s := Reached(NEW, acts);
      && Schedule(NEW, acts, capacity) && s.mailbox == [] && Awaiting(s.host, 1)
      && Runs(s.host, FIRST)
  {
    ScheduleOne(NEW, Enqueue(OPENING), capacity);
    ScheduleOne(Do(NEW, Enqueue(OPENING)), Serve(CHOICES, []), capacity);
    ScheduleAppend(NEW, [Enqueue(OPENING)], [Serve(CHOICES, [])], capacity);
    assert Do(NEW, Enqueue(OPENING)).mailbox == [OPENING];
    Answered(NEW.host, OPENING, 0);
  }

  lemma {:induction false} Filled(s: Sys, n: nat, capacity: nat)
    requires s.mailbox == [] && n <= capacity
    ensures Schedule(s, Copies(Enqueue(CONTINUING), n), capacity)
    ensures Reached(s, Copies(Enqueue(CONTINUING), n)) == s.(mailbox := Copies(CONTINUING, n))
  {
    if n != 0 {
      Filled(s, n - 1, capacity);
      var acts := Copies(Enqueue(CONTINUING), n);
      assert acts[..|acts| - 1] == Copies(Enqueue(CONTINUING), n - 1);
      assert Copies(CONTINUING, n) == Copies(CONTINUING, n - 1) + [CONTINUING];
    } else {
      assert Copies(Enqueue(CONTINUING), 0) == [];
    }
  }

  lemma {:induction false} Drained(s: Sys, n: nat, round: nat, tail: seq<Mail>, capacity: nat)
    requires s.mailbox == Copies(CONTINUING, n) + tail && Awaiting(s.host, round) && 0 < round
    ensures Schedule(s, Copies(Serve(CHOICES, []), n), capacity)
    ensures var t := Reached(s, Copies(Serve(CHOICES, []), n));
      t.mailbox == tail && Awaiting(t.host, round + n)
    decreases n
  {
    var acts := Copies(Serve(CHOICES, []), n);
    if n == 0 {
      assert acts == [];
    } else {
      var one := [Serve(CHOICES, [])];
      var t := Do(s, one[0]);
      assert s.mailbox[0] == CONTINUING;
      Answered(s.host, CONTINUING, round);
      assert t.mailbox == Copies(CONTINUING, n - 1) + tail;
      Drained(t, n - 1, round + 1, tail, capacity);
      ScheduleOne(s, one[0], capacity);
      ScheduleAppend(s, one, Copies(Serve(CHOICES, []), n - 1), capacity);
      assert acts == one + Copies(Serve(CHOICES, []), n - 1);
    }
  }

  /** The mail the host is about to take is a report it will accept, of a wait not armed now. */
  ghost predicate Misjudges(s: Sys, r: Report) {
    s.mailbox == [ElapsedMail(r)] && Accepts(s.host, r)
    && StampOf(s.host.actor.Of(r.peer), r.kind) != Some(r.task)
  }

  /** After `n` bumps, the first turn wait's report is still in the mailbox, alone. */
  ghost predicate Late(s: Sys, n: nat) {
    s.mailbox == [ElapsedMail(FIRST)] && Awaiting(s.host, 1 + n)
  }

  /** The report can be made to wait for any number of bumps the mailbox has room for. */
  lemma Delayed(n: nat, capacity: nat) returns (acts: seq<Act>)
    requires n < capacity
    ensures Schedule(NEW, acts, capacity) && Late(Reached(NEW, acts), n)
  {
    var a1 := [Enqueue(OPENING)] + [Serve(CHOICES, [])];
    Opened(capacity);
    var s1 := Reached(NEW, a1);
    var a2 := Copies(Enqueue(CONTINUING), n);
    Filled(s1, n, capacity);
    ScheduleAppend(NEW, a1, a2, capacity);
    acts := Overtaken(a1 + a2, Reached(NEW, a1 + a2), n, capacity);
  }

  lemma Overtaken(before: seq<Act>, s: Sys, n: nat, capacity: nat) returns (acts: seq<Act>)
    requires Schedule(NEW, before, capacity) && s == Reached(NEW, before) && n < capacity
    requires s.mailbox == Copies(CONTINUING, n) && Awaiting(s.host, 1) && Runs(s.host, FIRST)
    ensures Schedule(NEW, acts, capacity) && Late(Reached(NEW, acts), n)
  {
    ScheduleOne(s, Fire(1), capacity);
    ScheduleAppend(NEW, before, [Fire(1)], capacity);
    var t := Do(s, Fire(1));
    var rest := Copies(Serve(CHOICES, []), n);
    Drained(t, n, 1, [ElapsedMail(FIRST)], capacity);
    ScheduleAppend(NEW, before + [Fire(1)], rest, capacity);
    acts := before + [Fire(1)] + rest;
  }

  lemma LateIsMisjudged(s: Sys)
    requires Late(s, EPOCHS)
    ensures Misjudges(s, FIRST)
  {
    assert (1 + EPOCHS) % EPOCHS == 1;
  }

  /** A run in which the first turn wait's report is taken for that of the wait armed 2^64 bumps
      later: the host would fail an exchange in which no deadline has passed. */
  lemma OneMailTooMany()
    ensures exists acts :: Schedule(NEW, acts, EPOCHS + 1) && Misjudges(Reached(NEW, acts), FIRST)
  {
    var acts := Delayed(EPOCHS, EPOCHS + 1);
    LateIsMisjudged(Reached(NEW, acts));
  }

  /** If a report is at the head of the mailbox, the host takes it for live exactly when it is: its task
      is the one guarding the wait armed now. */
  predicate Judges(s: Sys) {
    s.mailbox != [] && s.mailbox[0].ElapsedMail? ==>
      var r := s.mailbox[0].report;
      (Accepts(s.host, r) <==> StampOf(s.host.actor.Of(r.peer), r.kind) == Some(r.task))
  }

  /** A host that has just been installed gets there, with never more than `capacity` mails about. */
  ghost predicate Leads(s: Sys, acts: seq<Act>, capacity: nat) { Fresh(s) && Schedule(s, acts, capacity) }

  lemma JudgesWithin(s: Sys, acts: seq<Act>, capacity: nat)
    requires capacity <= EPOCHS && Leads(s, acts, capacity)
    ensures Judges(Reached(s, acts))
  {
    var t := Reached(s, acts);
    if t.mailbox != [] && t.mailbox[0].ElapsedMail? { AcceptedReportsAreCurrent(s, acts, capacity); }
  }

  lemma MisjudgesBeyond(capacity: nat) returns (acts: seq<Act>)
    requires EPOCHS < capacity
    ensures Leads(NEW, acts, capacity) && !Judges(Reached(NEW, acts))
  {
    acts := Delayed(EPOCHS, capacity);
    LateIsMisjudged(Reached(NEW, acts));
  }

  /** The exact bound: reports are judged rightly in every interleaving if and only if there are never
      more than 2^64 mails, the waiting ones and the one in hand together. */
  lemma JudgesExactlyUpToTheEpochs(capacity: nat)
    ensures capacity <= EPOCHS <==> forall s, acts :: Leads(s, acts, capacity) ==> Judges(Reached(s, acts))
  {
    if capacity <= EPOCHS {
      forall s, acts | Leads(s, acts, capacity) ensures Judges(Reached(s, acts)) { JudgesWithin(s, acts, capacity); }
    } else {
      var acts := MisjudgesBeyond(capacity);
      assert Leads(NEW, acts, capacity) && !Judges(Reached(NEW, acts));
    }
  }
}
