/** The in-process network: a small honest simulator, faults included. Wakers are not modelled: what a
    waiting receiver finds is what it would find on its next poll. */
module MemoryNets {
  import opened Vocabulary
  import opened Waits

  /** A delivery with its place in the order in which the network accepted deliveries. */
  datatype Parcel = Parcel(no: nat, delivery: Delivery)

  /** Where a delivery the network accepted has got to. */
  datatype Place = InMailbox(address: Address) | InHeld | InReceived | IsLost

  /** A report of death, and how many deliveries had been accepted when the endpoint was killed. */
  datatype Death = Death(endpoint: EndpointId, at: nat)

  /** The network. `sent`, `received` and `place` are its history: every delivery accepted, those
      taken from a mailbox, and the whereabouts of each. */
  datatype Net = Net(
    mailboxes: map<Address, seq<Parcel>>, partitions: set<(EndpointId, EndpointId)>, held: seq<Parcel>,
    watchers: seq<seq<Death>>, sent: seq<Delivery>, received: seq<Parcel>, place: map<nat, Place>)

  const EMPTY := Net(map[], {}, [], [], [], [], map[])

  predicate Crosses(d: Delivery, a: EndpointId, b: EndpointId) {
    (d.from.endpoint == a && d.to.endpoint == b) || (d.from.endpoint == b && d.to.endpoint == a)
  }

  /** A choice of parcels: those for one address, those between two endpoints, and the others. */
  datatype Sieve =
    | BoundFor(to: Address)
    | Across(a: EndpointId, b: EndpointId)
    | NotAcross(a: EndpointId, b: EndpointId)
  {
    predicate Wants(d: Delivery) {
      match this
      case BoundFor(address) => d.to == address
      case Across(x, y) => Crosses(d, x, y)
      case NotAcross(x, y) => !Crosses(d, x, y)
    }
  }

  function Keep(s: seq<Parcel>, sieve: Sieve): seq<Parcel> {
    if s == [] then []
    else
      Keep(s[..|s| - 1], sieve) + if sieve.Wants(s[|s| - 1].delivery) then [s[|s| - 1]] else []
  }

  /** Deliveries on their way in, numbered after those already accepted. */
  function Numbered(n: Net, ds: seq<Delivery>): seq<Parcel> {
    seq(|ds|, i requires 0 <= i < |ds| => Parcel(|n.sent| + i, ds[i]))
  }

  /** Where a parcel ends up when it arrives at the mailboxes `bound`. */
  function Landing(p: Parcel, bound: set<Address>): Place {
    if p.delivery.to in bound then InMailbox(p.delivery.to) else IsLost
  }

  function Landed(place: map<nat, Place>, ps: seq<Parcel>, bound: set<Address>): map<nat, Place> {
    if ps == [] then place
    else Landed(place, ps[..|ps| - 1], bound)[ps[|ps| - 1].no := Landing(ps[|ps| - 1], bound)]
  }

  function HeldUp(place: map<nat, Place>, ps: seq<Parcel>): map<nat, Place> {
    if ps == [] then place else HeldUp(place, ps[..|ps| - 1])[ps[|ps| - 1].no := InHeld]
  }

  /** Parcels reach their mailboxes, in order; one whose mailbox is gone is lost. */
  function Post(n: Net, ps: seq<Parcel>): Net {
    n.(mailboxes := map a | a in n.mailboxes :: n.mailboxes[a] + Keep(ps, BoundFor(a)),
       place := Landed(n.place, ps, n.mailboxes.Keys))
  }

  function Hold(n: Net, ps: seq<Parcel>): Net {
    n.(held := n.held + ps, place := HeldUp(n.place, ps))
  }

  function Send(n: Net, from: Address, to: Address, message: Message): (Net, bool) {
    var ds := [Delivery(from, to, message)];
    if (from.endpoint, to.endpoint) in n.partitions then (Hold(n, Numbered(n, ds)).(sent := n.sent + ds), true)
    else if to !in n.mailboxes then (n, false)
    else (Post(n, Numbered(n, ds)).(sent := n.sent + ds), true)
  }

  /** What one batch puts on the wire: the receipt, then an opening for every name. */
  function Batch(from: Address, endpoint: EndpointId, names: seq<ActorName>, request: Request): seq<Delivery> {
    [Delivery(BatchReceiptSender(endpoint), from, AckMessage(request.id))] + Openings(from, endpoint, names, request)
  }

  function Openings(from: Address, endpoint: EndpointId, names: seq<ActorName>, request: Request): seq<Delivery> {
    seq(|names|, i requires 0 <= i < |names| => Delivery(from, Address(endpoint, names[i]), TurnMessage(Open(request))))
  }

  predicate Inhabited(n: Net, endpoint: EndpointId) {
    exists a :: a in n.mailboxes && a.endpoint == endpoint
  }

  function OpenMany(n: Net, from: Address, endpoint: EndpointId, names: seq<ActorName>, request: Request): (Net, bool) {
    var ds := Batch(from, endpoint, names, request);
    if !Inhabited(n, endpoint) then (n, false)
    else if (from.endpoint, endpoint) in n.partitions then (Hold(n, Numbered(n, ds)).(sent := n.sent + ds), true)
    else (Post(n, Numbered(n, ds)).(sent := n.sent + ds), true)
  }

  function Partition(n: Net, a: EndpointId, b: EndpointId): Net {
    n.(partitions := n.partitions + {(a, b), (b, a)})
  }

  function Heal(n: Net, a: EndpointId, b: EndpointId): Net {
    Post(n.(partitions := n.partitions - {(a, b), (b, a)}, held := Keep(n.held, NotAcross(a, b))),
         Keep(n.held, Across(a, b)))
  }

  /** The mailboxes at `gone` vanish, and what is queued in them with them. */
  function Remove(n: Net, gone: set<Address>): Net {
    n.(mailboxes := n.mailboxes - gone,
       place := map k | k in n.place ::
           if n.place[k].InMailbox? && n.place[k].address in gone then IsLost else n.place[k])
  }

  function At(n: Net, endpoint: EndpointId): set<Address> {
    set a | a in n.mailboxes && a.endpoint == endpoint
  }

  function Kill(n: Net, endpoint: EndpointId): Net {
    Remove(n, At(n, endpoint)).(watchers :=
      seq(|n.watchers|, i requires 0 <= i < |n.watchers| => n.watchers[i] + [Death(endpoint, |n.sent|)]))
  }

  function Register(n: Net, address: Address): (Net, bool) {
    if address in n.mailboxes then (n, false) else (n.(mailboxes := n.mailboxes[address := []]), true)
  }

  /** What a receiver's poll finds at the head of its mailbox. */
  function Head(n: Net, address: Address): InboxPoll {
    if address !in n.mailboxes then Closed
    else if n.mailboxes[address] == [] then Empty
    else Arrived(n.mailboxes[address][0].delivery)
  }

  /** The head of a mailbox is taken, if there is one. */
  function Take(n: Net, address: Address): Net {
    if Head(n, address).Arrived? then
      var p := n.mailboxes[address][0];
      n.(mailboxes := n.mailboxes[address := n.mailboxes[address][1..]], received := n.received + [p],
         place := n.place[p.no := InReceived])
    else n
  }

  /** A new death watch: nothing is queued at it. */
  function Attach(n: Net): Net { n.(watchers := n.watchers + [[]]) }

  /** What a poll of a death watch finds. */
  function NextDeath(n: Net, watch: nat): DeathPoll {
    if watch < |n.watchers| && n.watchers[watch] != [] then Died(n.watchers[watch][0].endpoint) else NoDeath
  }

  /** The oldest death at a watch is taken, if there is one. */
  function TakeDeath(n: Net, watch: nat): Net {
    if NextDeath(n, watch).Died? then n.(watchers := n.watchers[watch := n.watchers[watch][1..]]) else n
  }

  lemma PostNone(n: Net)
    ensures Post(n, []) == n
  {
    forall a | a in n.mailboxes ensures n.mailboxes[a] + Keep([], BoundFor(a)) == n.mailboxes[a] { }
    assert Post(n, []).mailboxes == n.mailboxes;
  }

  lemma KeepOneMore(ps: seq<Parcel>, p: Parcel, sieve: Sieve)
    ensures Keep(ps + [p], sieve) == if sieve.Wants(p.delivery) then Keep(ps, sieve) + [p] else Keep(ps, sieve)
  {
    assert (ps + [p])[..|ps|] == ps;
  }

  lemma PostOneMoreAt(n: Net, ps: seq<Parcel>, p: Parcel, a: Address)
    requires a in n.mailboxes
    ensures Post(n, ps + [p]).mailboxes[a]
      == if a == p.delivery.to then Post(n, ps).mailboxes[a] + [p] else Post(n, ps).mailboxes[a]
  {
    KeepOneMore(ps, p, BoundFor(a));
  }

  /** One parcel reaches its mailbox, or is lost if that is gone. */
  function PutOne(n: Net, p: Parcel): Net {
    var to := p.delivery.to;
    n.(mailboxes := if to in n.mailboxes then n.mailboxes[to := n.mailboxes[to] + [p]] else n.mailboxes,
       place := n.place[p.no := Landing(p, n.mailboxes.Keys)])
  }

  lemma PostOneMore(n: Net, ps: seq<Parcel>, p: Parcel)
    ensures Post(n, ps + [p]) == PutOne(Post(n, ps), p)
  {
    assert (ps + [p])[..|ps|] == ps;
    assert Post(n, ps).mailboxes.Keys == n.mailboxes.Keys;
    var after := PutOne(Post(n, ps), p).mailboxes;
    forall a | a in n.mailboxes ensures Post(n, ps + [p]).mailboxes[a] == after[a] {
      PostOneMoreAt(n, ps, p, a);
    }
    assert Post(n, ps + [p]).mailboxes == after;
  }

  class MemoryNet {
    var mailboxes: map<Address, seq<Parcel>>
    var partitions: set<(EndpointId, EndpointId)>
    var held: seq<Parcel>
    var watchers: seq<seq<Death>>
    var sent: seq<Delivery>
    ghost var received: seq<Parcel>
    ghost var place: map<nat, Place>

    ghost function View(): Net
      reads this
    {
      Net(mailboxes, partitions, held, watchers, sent, received, place)
    }

    constructor ()
      ensures View() == EMPTY
    {
      mailboxes, partitions, held, watchers, sent, received, place := map[], {}, [], [], [], [], map[];
    }

    /** The mailbox lives until its inbox is dropped. */
    method RegisterAddress(address: Address) returns (ok: bool)
      modifies this
      ensures (View(), ok) == Register(old(View()), address)
    {
      if address in mailboxes { return false; }
      mailboxes := mailboxes[address := []];
      ok := true;
    }

    /** An inbox is dropped: its address is unbound, whoever bound it. */
    method DropInbox(address: Address)
      modifies this
      ensures View() == Remove(old(View()), {address})
    {
      ghost var n := View();
      mailboxes := mailboxes - {address};
      place := Remove(n, {address}).place;
    }

    method KillEndpoint(endpoint: EndpointId)
      modifies this
      ensures View() == Kill(old(View()), endpoint)
    {
      ghost var n := View();
      var doomed := set a | a in mailboxes && a.endpoint == endpoint;
      var rest := doomed;
      while rest != {}
        invariant rest <= doomed
        invariant mailboxes == n.mailboxes - (doomed - rest)
        invariant View() == n.(mailboxes := mailboxes)
        decreases rest
      {
        var address :| address in rest;
        mailboxes := mailboxes - {address};
        rest := rest - {address};
      }
      assert doomed - {} == At(n, endpoint);
      place := Remove(n, At(n, endpoint)).place;
      var i := 0;
      while i < |watchers|
        invariant 0 <= i <= |watchers| == |n.watchers|
        invariant forall j :: 0 <= j < i ==> watchers[j] == n.watchers[j] + [Death(endpoint, |n.sent|)]
        invariant forall j :: i <= j < |watchers| ==> watchers[j] == n.watchers[j]
        invariant View() == Remove(n, At(n, endpoint)).(watchers := watchers)
      {
        watchers := watchers[i := watchers[i] + [Death(endpoint, |sent|)]];
        i := i + 1;
      }
      assert watchers == Kill(n, endpoint).watchers;
    }

    method PartitionPair(a: EndpointId, b: EndpointId)
      modifies this
      ensures View() == Partition(old(View()), a, b)
    {
      ghost var n := View();
      partitions := partitions + {(a, b)};
      partitions := partitions + {(b, a)};
      assert partitions == Partition(n, a, b).partitions;
    }

    method HealPair(a: EndpointId, b: EndpointId)
      modifies this
      ensures View() == Heal(old(View()), a, b)
    {
      ghost var n := View();
      partitions := partitions - {(a, b)};
      partitions := partitions - {(b, a)};
      assert partitions == n.partitions - {(a, b), (b, a)};
      var flush, keep := [], [];
      var i := 0;
      while i < |held|
        invariant 0 <= i <= |held|
        invariant flush == Keep(held[..i], Across(a, b))
        invariant keep == Keep(held[..i], NotAcross(a, b))
      {
        assert held[..i + 1][..i] == held[..i];
        if Crosses(held[i].delivery, a, b) { flush := flush + [held[i]]; } else { keep := keep + [held[i]]; }
        i := i + 1;
      }
      assert held[..i] == held;
      held := keep;
      PostEach(flush);
    }

    /** Put parcels into their mailboxes, one after another; some mailboxes may have vanished. */
    method PostEach(ps: seq<Parcel>)
      modifies this`mailboxes, this`place
      ensures View() == Post(old(View()), ps)
    {
      ghost var n := View();
      var i := 0;
      PostNone(n);
      while i < |ps|
        invariant 0 <= i <= |ps|
        invariant View() == Post(n, ps[..i])
      {
        PostOneMore(n, ps[..i], ps[i]);
        assert ps[..i + 1] == ps[..i] + [ps[i]];
        PutInto(ps[i]);
        i := i + 1;
      }
      assert ps[..i] == ps;
    }

    method PutInto(p: Parcel)
      modifies this`mailboxes, this`place
      ensures View() == PutOne(old(View()), p)
    {
      var to := p.delivery.to;
      place := place[p.no := Landing(p, mailboxes.Keys)];
      if to in mailboxes {
        mailboxes := mailboxes[to := mailboxes[to] + [p]];
      }
    }

    method SendMessage(from: Address, to: Address, message: Message) returns (ok: bool)
      modifies this
      ensures (View(), ok) == Send(old(View()), from, to, message)
    {
      ghost var n := View();
      var parcel := Parcel(|sent|, Delivery(from, to, message));
      ghost var ds := [parcel.delivery];
      assert Numbered(n, ds) == [parcel];
      if (from.endpoint, to.endpoint) in partitions {
        held := held + [parcel];
        sent := sent + [parcel.delivery];
        place := Hold(n, [parcel]).place;
        return true;
      }
      if to !in mailboxes { return false; }
      mailboxes := mailboxes[to := mailboxes[to] + [parcel]];
      sent := sent + [parcel.delivery];
      place := place[parcel.no := InMailbox(to)];
      PostNone(n);
      PostOneMore(n, [], parcel);
      assert [] + [parcel] == [parcel];
      ok := true;
    }

    method OpenManyAt(from: Address, endpoint: EndpointId, names: seq<ActorName>, request: Request) returns (ok: bool)
      modifies this
      ensures (View(), ok) == OpenMany(old(View()), from, endpoint, names, request)
    {
      ghost var n := View();
      if !(exists a :: a in mailboxes && a.endpoint == endpoint) { return false; }
      var base := |sent|;
      var receipt := Delivery(BatchReceiptSender(endpoint), from, AckMessage(request.id));
      var batch, i := [receipt], 0;
      while i < |names|
        invariant 0 <= i <= |names|
        invariant batch == Batch(from, endpoint, names[..i], request)
      {
        batch := batch + [Delivery(from, Address(endpoint, names[i]), TurnMessage(Open(request)))];
        i := i + 1;
      }
      assert names[..i] == names;
      var parcels := seq(|batch|, j requires 0 <= j < |batch| => Parcel(base + j, batch[j]));
      assert parcels == Numbered(n, batch);
      sent := sent + batch;
      if (from.endpoint, endpoint) in partitions {
        held := held + parcels;
        place := Hold(n, parcels).place;
        return true;
      }
      PostEach(parcels);
      ok := true;
    }

    method DeathWatch() returns (watch: nat)
      modifies this`watchers
      ensures View() == Attach(old(View())) && watch == |old(watchers)|
    {
      watch := |watchers|;
      watchers := watchers + [[]];
    }

    method PollInbox(address: Address) returns (p: InboxPoll)
      modifies this
      ensures p == Head(old(View()), address)
      ensures View() == Take(old(View()), address)
    {
      if address !in mailboxes { return Closed; }
      if mailboxes[address] == [] { return Empty; }
      var parcel := mailboxes[address][0];
      mailboxes := mailboxes[address := mailboxes[address][1..]];
      received := received + [parcel];
      place := place[parcel.no := InReceived];
      p := Arrived(parcel.delivery);
    }

    method PollDeath(watch: nat) returns (p: DeathPoll)
      requires watch < |watchers|
      modifies this`watchers
      ensures p == NextDeath(old(View()), watch)
      ensures View() == TakeDeath(old(View()), watch)
    {
      if watchers[watch] == [] { return NoDeath; }
      p := Died(watchers[watch][0].endpoint);
      watchers := watchers[watch := watchers[watch][1..]];
    }
  }
}
