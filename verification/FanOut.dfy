/** A batch of openings does what the openings would have done one by one. */
module FanOuts {
  import opened Vocabulary
  import opened Protocol
  import opened Engine
  import opened MemoryNets
  import opened MemoryNetTheorems
  import MemoryNetRuns
  import opened Phones

  function Deliveries(s: seq<Parcel>): seq<Delivery> {
    seq(|s|, i requires 0 <= i < |s| => s[i].delivery)
  }

  /** Each delivery sent on its own, whether or not the one before was refused. */
  function SendAll(n: Net, ds: seq<Delivery>): Net {
    if ds == [] then n
    else
      var last := ds[|ds| - 1];
      Send(SendAll(n, ds[..|ds| - 1]), last.from, last.to, last.message).0
  }

  function AddressedTo(ds: seq<Delivery>, a: Address): seq<Delivery> {
    if ds == [] then []
    else AddressedTo(ds[..|ds| - 1], a) + if ds[|ds| - 1].to == a then [ds[|ds| - 1]] else []
  }

  /** The same deliveries are queued and held, in the same order, in the same mailboxes. */
  ghost predicate SameTraffic(m: Net, n: Net) {
    && m.partitions == n.partitions && m.watchers == n.watchers && m.received == n.received
    && Deliveries(m.held) == Deliveries(n.held)
    && m.mailboxes.Keys == n.mailboxes.Keys
    && forall a :: a in m.mailboxes ==> Deliveries(m.mailboxes[a]) == Deliveries(n.mailboxes[a])
  }

  predicate Parted(n: Net, d: Delivery) { (d.from.endpoint, d.to.endpoint) in n.partitions }

  lemma DeliveriesAppend(s: seq<Parcel>, t: seq<Parcel>)
    ensures Deliveries(s + t) == Deliveries(s) + Deliveries(t)
  {
  }

  lemma {:induction false} PostedDeliveries(n: Net, ds: seq<Delivery>, a: Address)
    ensures Deliveries(Keep(Numbered(n, ds), BoundFor(a))) == AddressedTo(ds, a)
    decreases |ds|
  {
    if ds != [] {
      var before, ps := ds[..|ds| - 1], Numbered(n, ds);
      PostedDeliveries(n, before, a);
      assert ps[..|ps| - 1] == Numbered(n, before);
    }
  }

  /** What `ds` adds when nothing parts their ways: each goes to its mailbox, if that is bound. */
  ghost predicate Posted(m: Net, n: Net, ds: seq<Delivery>) {
    && m.partitions == n.partitions && m.watchers == n.watchers && m.received == n.received && m.held == n.held
    && m.mailboxes.Keys == n.mailboxes.Keys
    && forall a :: a in n.mailboxes ==> Deliveries(m.mailboxes[a]) == Deliveries(n.mailboxes[a]) + AddressedTo(ds, a)
  }

  /** What `ds` adds when a partition lies across all of them: each is held. */
  ghost predicate HeldBack(m: Net, n: Net, ds: seq<Delivery>) {
    && m.partitions == n.partitions && m.watchers == n.watchers && m.received == n.received
    && m.mailboxes == n.mailboxes
    && Deliveries(m.held) == Deliveries(n.held) + ds
  }

  lemma BatchPosted(n: Net, ds: seq<Delivery>)
    ensures Posted(Post(n, Numbered(n, ds)).(sent := n.sent + ds), n, ds)
  {
    forall a | a in n.mailboxes
      ensures Deliveries(Post(n, Numbered(n, ds)).mailboxes[a]) == Deliveries(n.mailboxes[a]) + AddressedTo(ds, a)
    {
      PostedDeliveries(n, ds, a);
      DeliveriesAppend(n.mailboxes[a], Keep(Numbered(n, ds), BoundFor(a)));
    }
  }

  lemma BatchHeld(n: Net, ds: seq<Delivery>)
    ensures HeldBack(Hold(n, Numbered(n, ds)).(sent := n.sent + ds), n, ds)
  {
    DeliveriesAppend(n.held, Numbered(n, ds));
    assert Deliveries(Numbered(n, ds)) == ds;
  }

  lemma NothingPosted(n: Net)
    ensures Posted(n, n, [])
  {
    forall a | a in n.mailboxes
      ensures Deliveries(n.mailboxes[a]) == Deliveries(n.mailboxes[a]) + AddressedTo([], a) { }
  }

  /** One send that no partition holds up. */
  lemma SendPosted(n: Net, d: Delivery)
    requires !Parted(n, d)
    ensures Posted(Send(n, d.from, d.to, d.message).0, n, if d.to in n.mailboxes then [d] else [])
    ensures Send(n, d.from, d.to, d.message).1 <==> d.to in n.mailboxes
  {
    assert Delivery(d.from, d.to, d.message) == d;
    BatchPosted(n, [d]);
    NothingPosted(n);
  }

  lemma PostedOneMore(n: Net, m: Net, ds: seq<Delivery>, d: Delivery)
    requires Posted(m, n, ds) && !Parted(n, d)
    ensures Posted(Send(m, d.from, d.to, d.message).0, n, ds + [d])
  {
    SendPosted(m, d);
    assert (ds + [d])[..|ds|] == ds;
    assert [d][..0] == [];
    var after := Send(m, d.from, d.to, d.message).0;
    forall a | a in n.mailboxes
      ensures Deliveries(after.mailboxes[a]) == Deliveries(n.mailboxes[a]) + AddressedTo(ds + [d], a)
    {
      assert Deliveries(m.mailboxes[a]) == Deliveries(n.mailboxes[a]) + AddressedTo(ds, a);
      assert AddressedTo(ds + [d], a) == AddressedTo(ds, a) + AddressedTo([d], a);
      assert d.to !in n.mailboxes ==> AddressedTo([d], a) == AddressedTo([], a);
    }
  }

  lemma HeldOneMore(n: Net, m: Net, ds: seq<Delivery>, d: Delivery)
    requires HeldBack(m, n, ds) && Parted(n, d)
    ensures HeldBack(Send(m, d.from, d.to, d.message).0, n, ds + [d])
  {
    BatchHeld(m, [d]);
    assert Delivery(d.from, d.to, d.message) == d;
    assert Deliveries(n.held) + ds + [d] == Deliveries(n.held) + (ds + [d]);
  }

  lemma {:induction false} EachPosted(n: Net, ds: seq<Delivery>)
    requires forall d :: d in ds ==> !Parted(n, d)
    ensures Posted(SendAll(n, ds), n, ds)
    decreases |ds|
  {
    if ds != [] {
      var before, last := ds[..|ds| - 1], ds[|ds| - 1];
      EachPosted(n, before);
      assert last in ds;
      assert before + [last] == ds;
      PostedOneMore(n, SendAll(n, before), before, last);
    } else {
      NothingPosted(n);
    }
  }

  lemma {:induction false} EachHeld(n: Net, ds: seq<Delivery>)
    requires forall d :: d in ds ==> Parted(n, d)
    ensures HeldBack(SendAll(n, ds), n, ds)
    decreases |ds|
  {
    if ds != [] {
      var before, last := ds[..|ds| - 1], ds[|ds| - 1];
      EachHeld(n, before);
      assert last in ds;
      assert before + [last] == ds;
      HeldOneMore(n, SendAll(n, before), before, last);
    } else {
      assert Deliveries(n.held) + [] == Deliveries(n.held);
    }
  }

  /** In every reachable network, a batch to an inhabited endpoint leaves the traffic that its receipt
      and then each opening would have left, sent one by one; where nobody lives it is refused and
      changes nothing, even across a partition that would have held each single send. */
  lemma {:induction false} BatchIsItsSends(ops: seq<Op>, from: Address, endpoint: EndpointId, names: seq<ActorName>,
                      request: Request)
    ensures var n := ApplyAll(EMPTY, ops);
      var (m, ok) := OpenMany(n, from, endpoint, names, request);
      && (ok <==> Inhabited(n, endpoint))
      && (ok ==> SameTraffic(m, SendAll(n, Batch(from, endpoint, names, request))))
      && (!ok ==> m == n)
  {
    var n, ds := ApplyAll(EMPTY, ops), Batch(from, endpoint, names, request);
    MemoryNetTheorems.AlwaysSound(ops);
    BatchRoutes(from, endpoint, names, request);
    if (from.endpoint, endpoint) in n.partitions {
      BatchHeld(n, ds);
      EachHeld(n, ds);
    } else {
      BatchPosted(n, ds);
      EachPosted(n, ds);
    }
  }

  /** What sending the openings one by one would have refused, the batch drops without a word: across
      no partition, exactly those to names that nobody has bound. */
  lemma UnboundNamesAreSilent(n: Net, from: Address, endpoint: EndpointId, names: seq<ActorName>, request: Request,
                      k: nat)
    requires k < |names| && (from.endpoint, endpoint) !in n.partitions && (endpoint, from.endpoint) !in n.partitions
    ensures var single := Openings(from, endpoint, names, request)[k];
      var sofar := SendAll(n, Batch(from, endpoint, names, request)[..k + 1]);
      Send(sofar, from, single.to, single.message).1 <==> Address(endpoint, names[k]) in n.mailboxes
  {
    var ds := Batch(from, endpoint, names, request);
    BatchRoutes(from, endpoint, names, request);
    forall d | d in ds[..k + 1] ensures !Parted(n, d) { assert d in ds; }
    EachPosted(n, ds[..k + 1]);
  }

  // ---- The handles and the wire ----

  /** Opening many over this network: the batch goes to the network, and its answer decides whether there
      are handles. */
  method OpenManyOver(net: MemoryNet, self: Address, endpoint: EndpointId, names: seq<ActorName>, request: Request,
                      deadlines: Deadlines, now: nat)
    returns (phones: seq<Phone>)
    modifies net
    ensures var (after, ok) := OpenMany(old(net.View()), self, endpoint, names, request);
      net.View() == after && |phones| == if ok then |names| else 0
    ensures forall i {:trigger phones[i]} :: 0 <= i < |phones| ==>
      fresh(phones[i]) && fresh(phones[i].machine)
      && phones[i].Fanned(self, Address(endpoint, names[i]), deadlines, request, now)
  {
    var ok := net.OpenManyAt(self, endpoint, names, request);
    ghost var put;
    phones, put := Phone.OpenMany(self, endpoint, names, request, deadlines, ok, now);
  }

  /** Where the network would accept a single opening: everywhere across a partition, and else at the names
      that are bound. */
  predicate Reachable(n: Net, from: Address, peer: Address) {
    (from.endpoint, peer.endpoint) in n.partitions || peer in n.mailboxes
  }

  /** The handle of an opening sent on its own: as after an accepted send where the peer is within reach, and
      failed where it is not. */
  ghost predicate OpenedAlone(phone: Phone, n: Net, self: Address, peer: Address, deadlines: Deadlines,
                              request: Request, now: nat)
    reads phone, phone.machine
  {
    && phone.self == self && phone.peer == peer && phone.deadlines == deadlines
    && phone.Conversation() ==
       if Reachable(n, self, peer) then Say(QUIET, Turn.Open(request), true, deadlines, now).0
       else Conv(Failed, None, None)
  }

  /** Opening one by one over this network, every handle at the same instant. The handle for a name within
      reach is what fanning out would have given; the one for any other has failed. */
  method OpenEachOver(net: MemoryNet, self: Address, endpoint: EndpointId, names: seq<ActorName>, request: Request,
                      deadlines: Deadlines, now: nat)
    returns (phones: seq<Phone>)
    modifies net
    ensures net.View() == SendAll(old(net.View()), Openings(self, endpoint, names, request))
    ensures |phones| == |names|
    ensures forall i {:trigger phones[i]} :: 0 <= i < |phones| ==>
      fresh(phones[i]) && fresh(phones[i].machine)
      && OpenedAlone(phones[i], old(net.View()), self, Address(endpoint, names[i]), deadlines, request, now)
  {
    ghost var n := net.View();
    phones := [];
    var i := 0;
    while i < |names|
      invariant 0 <= i <= |names| && |phones| == i
      invariant net.View() == SendAll(n, Openings(self, endpoint, names[..i], request))
      invariant forall j {:trigger phones[j]} :: 0 <= j < i ==>
        fresh(phones[j]) && fresh(phones[j].machine)
        && OpenedAlone(phones[j], n, self, Address(endpoint, names[j]), deadlines, request, now)
    {
      var peer := Address(endpoint, names[i]);
      var phone := new Phone.Converse(self, peer, deadlines);
      OpenedOneMore(n, self, endpoint, names, request, i);
      var ok := net.SendMessage(self, peer, TurnMessage(Turn.Open(request)));
      var _ := phone.Open(request, ok, now);
      phones := phones + [phone];
      i := i + 1;
    }
    assert names[..i] == names;
  }

  /** One opening more, and whether the network accepts it. */
  lemma OpenedOneMore(n: Net, from: Address, endpoint: EndpointId, names: seq<ActorName>, request: Request, i: nat)
    requires i < |names|
    ensures var m := SendAll(n, Openings(from, endpoint, names[..i], request));
      var (after, ok) := Send(m, from, Address(endpoint, names[i]), TurnMessage(Open(request)));
      && after == SendAll(n, Openings(from, endpoint, names[..i + 1], request))
      && (ok <==> Reachable(n, from, Address(endpoint, names[i])))
  {
    var ds, more := Openings(from, endpoint, names[..i], request), Openings(from, endpoint, names[..i + 1], request);
    assert more[..|more| - 1] == ds;
    if (from.endpoint, endpoint) in n.partitions {
      forall d | d in ds ensures Parted(n, d) { }
      EachHeld(n, ds);
    } else {
      forall d | d in ds ensures !Parted(n, d) { }
      EachPosted(n, ds);
    }
  }

  /** Fanning out is opening one by one, the traffic and the handles alike: in every reachable network, to
      an inhabited endpoint, the batch leaves the traffic of its receipt and of each single opening; and
      each handle is the one that opening on its own would have left, if the name is within reach; at any
      other the handle waits, where opening on its own would have failed at once. */
  lemma {:induction false} FanOutIsItsOpens(ops: seq<Op>, from: Address, endpoint: EndpointId, names: seq<ActorName>,
                                            request: Request, k: nat, deadlines: Deadlines, now: nat)
    requires Inhabited(ApplyAll(EMPTY, ops), endpoint) && k < |names|
    ensures var n, batch := ApplyAll(EMPTY, ops), Batch(from, endpoint, names, request);
      var (m, ok) := OpenMany(n, from, endpoint, names, request);
      var handle := Say(QUIET, Turn.Open(request), ok, deadlines, now).0;
      var peer := Address(endpoint, names[k]);
      var accepted := Send(SendAll(n, batch[..k + 1]), from, peer, TurnMessage(Open(request))).1;
      && ok && SameTraffic(m, SendAll(n, batch))
      && (accepted <==> Reachable(n, from, peer))
      && Say(QUIET, Turn.Open(request), accepted, deadlines, now).0 ==
         (if Reachable(n, from, peer) then handle else Conv(Failed, None, None))
  {
    var n, ds := ApplyAll(EMPTY, ops), Batch(from, endpoint, names, request);
    BatchIsItsSends(ops, from, endpoint, names, request);
    if (from.endpoint, endpoint) in n.partitions {
      MemoryNetTheorems.AlwaysSound(ops);
      BatchRoutes(from, endpoint, names, request);
      forall d | d in ds[..k + 1] ensures Parted(n, d) { assert d in ds; }
      EachHeld(n, ds[..k + 1]);
    } else {
      MemoryNetTheorems.AlwaysSound(ops);
      UnboundNamesAreSilent(n, from, endpoint, names, request, k);
    }
  }

  // ---- One receipt for every handle ----

  /** What an accepted batch puts on the wire: one receipt, for whoever opened, under the id of the request
      that every opening carries; and each handle is born waiting for that very ack, which settles it. */
  lemma ReceiptNamesTheRequest(n: Net, from: Address, endpoint: EndpointId, names: seq<ActorName>, request: Request,
                               deadlines: Deadlines, now: nat, k: nat)
    requires OpenMany(n, from, endpoint, names, request).1 && k < |names|
    ensures var sent, base := OpenMany(n, from, endpoint, names, request).0.sent, |n.sent|;
      var peer := Address(endpoint, names[k]);
      var born := Say(QUIET, Turn.Open(request), true, deadlines, now).0;
      && n.sent <= sent && |sent| == base + 1 + |names|
      && sent[base] == Delivery(Address(endpoint, ActorName("mailroom")), from, AckMessage(request.id))
      && sent[base + 1 + k] == Delivery(from, peer, TurnMessage(Open(request)))
      && born == Conv(AwaitingTheirTurn(request.id), Some(Wait(request.id, now + deadlines.ack)),
                      Some(now + deadlines.turn))
      && Do(born, peer, deadlines, Noting(sent[base].message.id)) == born.(ack := None)
  {
    MemoryNetRuns.CallersAreTold(n, OpeningMany(from, endpoint, names, request));
  }

  /** The one receipt settles the ack wait each fanned conversation was born with; and until the same id
      is posed again, no further ack of that id settles anything. */
  lemma {:induction false} ReceiptSettlesOnce(peer: Address, deadlines: Deadlines, request: Request, now: nat,
                      acts: seq<Act>)
    requires forall act :: act in acts && act.Saying? ==> act.turn.Posed() != Some(request.id)
    ensures var born := Say(QUIET, Turn.Open(request), true, deadlines, now).0;
      var c := Phones.After(born, peer, deadlines, acts);
      && born.ack == Some(Wait(request.id, now + deadlines.ack)) && SettleAck(born, request.id).ack == None
      && (Noting(request.id) in acts ==> SettleAck(c, request.id) == c)
      && (c.ack.Some? && c.ack.value.id == request.id ==> Noting(request.id) !in acts)
    decreases |acts|
  {
    if acts != [] {
      var before, last := acts[..|acts| - 1], acts[|acts| - 1];
      ReceiptSettlesOnce(peer, deadlines, request, now, before);
      assert last in acts;
      assert acts == before + [last];
    }
  }
}
