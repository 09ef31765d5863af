/** The network conserves what it accepts, and keeps it in order across partitions. */
module MemoryNetTheorems {
  import opened Vocabulary
  import opened MemoryNets

  /** From the same endpoint, to the same address. */
  predicate SameRoute(p: Parcel, q: Parcel) {
    p.delivery.from.endpoint == q.delivery.from.endpoint && p.delivery.to == q.delivery.to
  }

  ghost predicate InOrder(s: seq<Parcel>) {
    forall i, j :: 0 <= i < j < |s| && SameRoute(s[i], s[j]) ==> s[i].no < s[j].no
  }

  ghost predicate Precedes(s: seq<Parcel>, t: seq<Parcel>) {
    forall p, q :: p in s && q in t && SameRoute(p, q) ==> p.no < q.no
  }

  /** The parcel is the delivery accepted under its number. */
  predicate Genuine(sent: seq<Delivery>, p: Parcel) { p.no < |sent| && sent[p.no] == p.delivery }

  ghost predicate AllGenuine(sent: seq<Delivery>, s: seq<Parcel>) {
    forall p :: p in s ==> Genuine(sent, p)
  }

  ghost predicate AllFor(a: Address, s: seq<Parcel>) {
    forall p :: p in s ==> p.delivery.to == a
  }

  ghost predicate Symmetric(pairs: set<(EndpointId, EndpointId)>) {
    forall a, b :: (a, b) in pairs ==> (b, a) in pairs
  }

  ghost predicate AllParted(pairs: set<(EndpointId, EndpointId)>, s: seq<Parcel>) {
    forall p :: p in s ==> (p.delivery.from.endpoint, p.delivery.to.endpoint) in pairs
  }

  /** Parcels are what was sent, sit where they are addressed, and are held only across a partition. */
  ghost predicate Tidy(n: Net) {
    && AllGenuine(n.sent, n.received) && AllGenuine(n.sent, n.held)
    && AllParted(n.partitions, n.held) && Symmetric(n.partitions)
    && forall a :: a in n.mailboxes ==> AllGenuine(n.sent, n.mailboxes[a]) && AllFor(a, n.mailboxes[a])
  }

  /** On every route, what was received, then what is queued, then what is held is in send order. */
  ghost predicate Ordered(n: Net) {
    && InOrder(n.received) && InOrder(n.held) && Precedes(n.received, n.held)
    && forall a :: a in n.mailboxes ==>
         InOrder(n.mailboxes[a]) && Precedes(n.received, n.mailboxes[a]) && Precedes(n.mailboxes[a], n.held)
  }

  /** The parcel numbered `k` is at `place`. */
  ghost predicate Found(n: Net, k: nat, place: Place) {
    match place
    case InReceived => Numbers(n.received, k)
    case InHeld => Numbers(n.held, k)
    case InMailbox(a) => a in n.mailboxes && Numbers(n.mailboxes[a], k)
    case IsLost => true
  }

  /** Every delivery accepted is where `place` says, and nowhere else; `loose` are on their way. */
  ghost predicate AccountedBut(n: Net, loose: seq<Parcel>) {
    && (forall k: nat :: k < |n.sent| <==> k in n.place || Numbers(loose, k))
    && (forall k :: k in n.place && !Numbers(loose, k) ==> Found(n, k, n.place[k]))
    && AllAt(n.place, n.received, InReceived, loose) && AllAt(n.place, n.held, InHeld, loose)
    && forall a :: a in n.mailboxes ==> AllAt(n.place, n.mailboxes[a], InMailbox(a), loose)
  }

  ghost predicate Numbers(s: seq<Parcel>, k: nat) { exists p :: p in s && p.no == k }

  ghost predicate AllAt(place: map<nat, Place>, s: seq<Parcel>, there: Place, loose: seq<Parcel>) {
    forall p :: p in s ==> p.no in place && place[p.no] == there && !Numbers(loose, p.no)
  }

  ghost predicate Accounted(n: Net) { AccountedBut(n, []) }

  ghost predicate Sound(n: Net) { Tidy(n) && Ordered(n) && Accounted(n) }

  // ---- Sieves ----

  lemma {:induction false} KeepExactly(s: seq<Parcel>, v: Sieve)
    ensures forall p :: p in Keep(s, v) <==> p in s && v.Wants(p.delivery)
  {
    if s != [] {
      KeepExactly(s[..|s| - 1], v);
      assert forall p :: p in s <==> p in s[..|s| - 1] || p == s[|s| - 1];
    }
  }

  lemma {:induction false} KeepInOrder(s: seq<Parcel>, v: Sieve)
    requires InOrder(s)
    ensures InOrder(Keep(s, v))
  {
    if s != [] {
      var t := s[..|s| - 1];
      assert forall i :: 0 <= i < |t| ==> t[i] == s[i];
      KeepInOrder(t, v);
      KeepExactly(t, v);
      var k, last := Keep(t, v), s[|s| - 1];
      forall i | 0 <= i < |k| && SameRoute(k[i], last) ensures k[i].no < last.no {
        assert k[i] in k;
      }
    }
  }

  lemma AppendInOrder(s: seq<Parcel>, t: seq<Parcel>)
    requires InOrder(s) && InOrder(t) && Precedes(s, t)
    ensures InOrder(s + t)
  {
    var u := s + t;
    forall i, j | 0 <= i < j < |u| && SameRoute(u[i], u[j]) ensures u[i].no < u[j].no {
      if i < |s| <= j { assert s[i] in s && t[j - |s|] in t; }
    }
  }

  // ---- Posting ----

  /** `ps` may be posted: genuine, in order, after what is queued and before what is held. */
  ghost predicate Postable(n: Net, ps: seq<Parcel>) {
    && AllGenuine(n.sent, ps)
    && InOrder(ps) && Precedes(n.received, ps) && Precedes(ps, n.held)
    && forall a :: a in n.mailboxes ==> Precedes(n.mailboxes[a], ps)
  }

  lemma PostTidy(n: Net, ps: seq<Parcel>)
    requires Tidy(n) && Postable(n, ps)
    ensures Tidy(Post(n, ps))
  {
    forall a | a in n.mailboxes
      ensures AllGenuine(n.sent, n.mailboxes[a] + Keep(ps, BoundFor(a)))
        && AllFor(a, n.mailboxes[a] + Keep(ps, BoundFor(a)))
    {
      KeepExactly(ps, BoundFor(a));
    }
  }

  lemma PostOrdered(n: Net, ps: seq<Parcel>)
    requires Ordered(n) && Postable(n, ps)
    ensures Ordered(Post(n, ps))
  {
    forall a | a in n.mailboxes
      ensures var q := n.mailboxes[a] + Keep(ps, BoundFor(a));
        InOrder(q) && Precedes(n.received, q) && Precedes(q, n.held)
    {
      KeepExactly(ps, BoundFor(a));
      KeepInOrder(ps, BoundFor(a));
      AppendInOrder(n.mailboxes[a], Keep(ps, BoundFor(a)));
    }
  }

  /** Numbers tell the parcels of `ps` apart. */
  ghost predicate ToldApart(ps: seq<Parcel>) {
    forall p, q :: p in ps && q in ps && p.no == q.no ==> p == q
  }

  lemma {:induction false} LandedExactly(place: map<nat, Place>, ps: seq<Parcel>, bound: set<Address>)
    requires ToldApart(ps)
    ensures forall k :: k in Landed(place, ps, bound) <==> k in place || Numbers(ps, k)
    ensures forall p :: p in ps ==>
      p.no in Landed(place, ps, bound) && Landed(place, ps, bound)[p.no] == Landing(p, bound)
    ensures forall k :: k in place && !Numbers(ps, k) ==> Landed(place, ps, bound)[k] == place[k]
  {
    if ps != [] {
      var before, last := ps[..|ps| - 1], ps[|ps| - 1];
      assert forall p :: p in ps <==> p in before || p == last;
      LandedExactly(place, before, bound);
    }
  }

  lemma {:induction false} HeldUpExactly(place: map<nat, Place>, ps: seq<Parcel>)
    ensures forall k :: k in HeldUp(place, ps) <==> k in place || Numbers(ps, k)
    ensures forall p :: p in ps ==> p.no in HeldUp(place, ps) && HeldUp(place, ps)[p.no] == InHeld
    ensures forall k :: k in place && !Numbers(ps, k) ==> HeldUp(place, ps)[k] == place[k]
  {
    if ps != [] {
      var before, last := ps[..|ps| - 1], ps[|ps| - 1];
      assert forall p :: p in ps <==> p in before || p == last;
      HeldUpExactly(place, before);
    }
  }

  lemma PostFound(n: Net, ps: seq<Parcel>, k: nat)
    requires AccountedBut(n, ps) && ToldApart(ps)
    requires k in Landed(n.place, ps, n.mailboxes.Keys)
    ensures Found(Post(n, ps), k, Landed(n.place, ps, n.mailboxes.Keys)[k])
  {
    LandedExactly(n.place, ps, n.mailboxes.Keys);
    var m := Post(n, ps);
    if Numbers(ps, k) {
      var p :| p in ps && p.no == k;
      var to := p.delivery.to;
      if to in n.mailboxes {
        KeepExactly(ps, BoundFor(to));
        assert p in m.mailboxes[to];
      }
    } else {
      assert Found(n, k, n.place[k]);
      if n.place[k].InMailbox? {
        var a := n.place[k].address;
        var p :| p in n.mailboxes[a] && p.no == k;
        assert p in m.mailboxes[a];
      }
    }
  }

  lemma PostAllAt(n: Net, ps: seq<Parcel>, a: Address)
    requires AccountedBut(n, ps) && ToldApart(ps) && a in n.mailboxes
    ensures AllAt(Landed(n.place, ps, n.mailboxes.Keys), n.mailboxes[a] + Keep(ps, BoundFor(a)), InMailbox(a), [])
  {
    LandedExactly(n.place, ps, n.mailboxes.Keys);
    KeepExactly(ps, BoundFor(a));
  }

  lemma PostAccounted(n: Net, ps: seq<Parcel>)
    requires AccountedBut(n, ps) && ToldApart(ps)
    ensures Accounted(Post(n, ps))
  {
    LandedExactly(n.place, ps, n.mailboxes.Keys);
    forall a | a in n.mailboxes
      ensures AllAt(Landed(n.place, ps, n.mailboxes.Keys), n.mailboxes[a] + Keep(ps, BoundFor(a)), InMailbox(a), [])
    { PostAllAt(n, ps, a); }
    forall k | k in Landed(n.place, ps, n.mailboxes.Keys)
      ensures Found(Post(n, ps), k, Landed(n.place, ps, n.mailboxes.Keys)[k])
    { PostFound(n, ps, k); }
  }

  // ---- Accepting ----

  lemma NumberedParcels(n: Net, ds: seq<Delivery>)
    ensures var ps := Numbered(n, ds);
      && |ps| == |ds|
      && AllGenuine(n.sent + ds, ps) && ToldApart(ps) && InOrder(ps)
      && (forall p :: p in ps ==> |n.sent| <= p.no && p.delivery in ds)
      && (forall k: nat :: Numbers(ps, k) <==> |n.sent| <= k < |n.sent| + |ds|)
  {
    var ps := Numbered(n, ds);
    forall k: nat | |n.sent| <= k < |n.sent| + |ds| ensures Numbers(ps, k) {
      assert ps[k - |n.sent|] in ps;
    }
  }

  /** Newly accepted deliveries, before they are put anywhere. */
  lemma Accepting(n: Net, ds: seq<Delivery>)
    requires Sound(n)
    ensures var m, ps := n.(sent := n.sent + ds), Numbered(n, ds);
      && Tidy(m) && Ordered(m) && AccountedBut(m, ps)
      && Precedes(n.received, ps) && Precedes(n.held, ps)
      && forall a :: a in n.mailboxes ==> Precedes(n.mailboxes[a], ps)
  {
    NumberedParcels(n, ds);
    var sent := n.sent + ds;
    assert forall p :: Genuine(n.sent, p) ==> Genuine(sent, p);
    AcceptedBefore(n, n.received, ds);
    AcceptedBefore(n, n.held, ds);
    forall a | a in n.mailboxes
      ensures Precedes(n.mailboxes[a], Numbered(n, ds)) && AllGenuine(sent, n.mailboxes[a])
        && AllAt(n.place, n.mailboxes[a], InMailbox(a), Numbered(n, ds))
    { AcceptedBefore(n, n.mailboxes[a], ds); }
  }

  lemma AcceptedBefore(n: Net, s: seq<Parcel>, ds: seq<Delivery>)
    requires AllGenuine(n.sent, s)
    ensures Precedes(s, Numbered(n, ds)) && AllGenuine(n.sent + ds, s)
    ensures forall p :: p in s ==> !Numbers(Numbered(n, ds), p.no)
  {
    NumberedParcels(n, ds);
  }

  /** Nothing is held on a route that no partition cuts. */
  lemma NothingHeldOnOpenRoutes(n: Net, ps: seq<Parcel>)
    requires AllParted(n.partitions, n.held)
    requires forall p :: p in ps ==> (p.delivery.from.endpoint, p.delivery.to.endpoint) !in n.partitions
    ensures Precedes(ps, n.held)
  {
  }

  lemma AcceptAndPost(n: Net, ds: seq<Delivery>)
    requires Sound(n)
    requires forall d :: d in ds ==> (d.from.endpoint, d.to.endpoint) !in n.partitions
    ensures Sound(Post(n, Numbered(n, ds)).(sent := n.sent + ds))
  {
    var m, ps := n.(sent := n.sent + ds), Numbered(n, ds);
    Accepting(n, ds);
    NumberedParcels(n, ds);
    NothingHeldOnOpenRoutes(n, ps);
    PostTidy(m, ps);
    PostOrdered(m, ps);
    PostAccounted(m, ps);
    assert Post(m, ps) == Post(n, ps).(sent := n.sent + ds);
  }

  lemma HoldFound(n: Net, ps: seq<Parcel>, k: nat)
    requires AccountedBut(n, ps) && k in HeldUp(n.place, ps)
    ensures Found(Hold(n, ps), k, HeldUp(n.place, ps)[k])
  {
    HeldUpExactly(n.place, ps);
    if Numbers(ps, k) {
      var p :| p in ps && p.no == k;
      assert p in n.held + ps;
    } else {
      assert Found(n, k, n.place[k]);
      if n.place[k].InHeld? {
        var p :| p in n.held && p.no == k;
        assert p in n.held + ps;
      }
    }
  }

  lemma HoldTidy(n: Net, ps: seq<Parcel>)
    requires Tidy(n) && Ordered(n) && AllGenuine(n.sent, ps) && AllParted(n.partitions, ps)
    requires InOrder(ps) && Precedes(n.received, ps) && Precedes(n.held, ps)
    requires forall a :: a in n.mailboxes ==> Precedes(n.mailboxes[a], ps)
    ensures Tidy(Hold(n, ps)) && Ordered(Hold(n, ps))
  {
    AppendInOrder(n.held, ps);
    AppendPrecedes(n.received, n.held, ps);
    forall a | a in n.mailboxes ensures Precedes(n.mailboxes[a], n.held + ps) {
      AppendPrecedes(n.mailboxes[a], n.held, ps);
    }
  }

  lemma AppendPrecedes(s: seq<Parcel>, t: seq<Parcel>, u: seq<Parcel>)
    requires Precedes(s, t) && Precedes(s, u)
    ensures Precedes(s, t + u)
  {
  }

  lemma HoldAccounted(n: Net, ps: seq<Parcel>)
    requires AccountedBut(n, ps)
    ensures Accounted(Hold(n, ps))
  {
    HeldUpExactly(n.place, ps);
    forall k | k in HeldUp(n.place, ps) ensures Found(Hold(n, ps), k, HeldUp(n.place, ps)[k]) { HoldFound(n, ps, k); }
    assert AllAt(HeldUp(n.place, ps), n.held + ps, InHeld, []);
  }

  lemma AcceptAndHold(n: Net, ds: seq<Delivery>)
    requires Sound(n)
    requires forall d :: d in ds ==> (d.from.endpoint, d.to.endpoint) in n.partitions
    ensures Sound(Hold(n, Numbered(n, ds)).(sent := n.sent + ds))
  {
    var m, ps := n.(sent := n.sent + ds), Numbered(n, ds);
    Accepting(n, ds);
    NumberedParcels(n, ds);
    HoldTidy(m, ps);
    HoldAccounted(m, ps);
    assert Hold(m, ps) == Hold(n, ps).(sent := n.sent + ds);
  }

  // ---- Healing ----

  lemma Twins(sent: seq<Delivery>, p: Parcel, q: Parcel)
    requires Genuine(sent, p) && Genuine(sent, q)
    ensures p.no == q.no ==> SameRoute(p, q)
  {
  }

  /** Splitting what is held by whether it crosses between two endpoints. */
  lemma HealSplits(held: seq<Parcel>, pairs: set<(EndpointId, EndpointId)>, a: EndpointId, b: EndpointId)
    requires AllParted(pairs, held) && Symmetric(pairs)
    ensures AllParted(pairs - {(a, b), (b, a)}, Keep(held, NotAcross(a, b)))
    ensures Symmetric(pairs - {(a, b), (b, a)})
    ensures Precedes(Keep(held, Across(a, b)), Keep(held, NotAcross(a, b)))
  {
    KeepExactly(held, NotAcross(a, b));
    KeepExactly(held, Across(a, b));
  }

  lemma KeepInherits(sent: seq<Delivery>, s: seq<Parcel>, held: seq<Parcel>, v: Sieve)
    requires AllGenuine(sent, held) && Precedes(s, held)
    ensures AllGenuine(sent, Keep(held, v)) && Precedes(s, Keep(held, v))
  {
    KeepExactly(held, v);
  }

  lemma GenuineAreToldApart(sent: seq<Delivery>, s: seq<Parcel>)
    requires AllGenuine(sent, s)
    ensures ToldApart(s)
  {
  }

  lemma HealFlushes(n: Net, a: EndpointId, b: EndpointId)
    requires Sound(n)
    ensures var m := n.(partitions := n.partitions - {(a, b), (b, a)}, held := Keep(n.held, NotAcross(a, b)));
      var flush := Keep(n.held, Across(a, b));
      && Tidy(m) && Ordered(m) && Postable(m, flush) && ToldApart(flush)
  {
    var kept, flush := Keep(n.held, NotAcross(a, b)), Keep(n.held, Across(a, b));
    HealSplits(n.held, n.partitions, a, b);
    KeepInherits(n.sent, n.received, n.held, NotAcross(a, b));
    KeepInherits(n.sent, n.received, n.held, Across(a, b));
    forall x | x in n.mailboxes ensures Precedes(n.mailboxes[x], flush) && Precedes(n.mailboxes[x], kept) {
      KeepInherits(n.sent, n.mailboxes[x], n.held, NotAcross(a, b));
      KeepInherits(n.sent, n.mailboxes[x], n.held, Across(a, b));
    }
    KeepInOrder(n.held, NotAcross(a, b));
    KeepInOrder(n.held, Across(a, b));
    GenuineAreToldApart(n.sent, flush);
  }

  lemma KeptApart(sent: seq<Delivery>, held: seq<Parcel>, a: EndpointId, b: EndpointId)
    requires AllGenuine(sent, held)
    ensures forall p :: p in Keep(held, NotAcross(a, b)) ==> p in held && !Numbers(Keep(held, Across(a, b)), p.no)
  {
    KeepExactly(held, NotAcross(a, b));
    KeepExactly(held, Across(a, b));
  }

  lemma FlushedWereHeld(n: Net, a: EndpointId, b: EndpointId, k: nat)
    requires AllAt(n.place, n.held, InHeld, [])
    requires Numbers(Keep(n.held, Across(a, b)), k)
    ensures k in n.place && n.place[k] == InHeld
  {
    KeepExactly(n.held, Across(a, b));
  }

  lemma KeptFound(n: Net, a: EndpointId, b: EndpointId, k: nat)
    requires Numbers(n.held, k) && !Numbers(Keep(n.held, Across(a, b)), k)
    ensures Numbers(Keep(n.held, NotAcross(a, b)), k)
  {
    KeepExactly(n.held, NotAcross(a, b));
    KeepExactly(n.held, Across(a, b));
    var p :| p in n.held && p.no == k;
    assert p !in Keep(n.held, Across(a, b));
  }

  lemma HealAccounts(n: Net, a: EndpointId, b: EndpointId)
    requires Sound(n)
    ensures var m := n.(partitions := n.partitions - {(a, b), (b, a)}, held := Keep(n.held, NotAcross(a, b)));
      AccountedBut(m, Keep(n.held, Across(a, b)))
  {
    var m := n.(partitions := n.partitions - {(a, b), (b, a)}, held := Keep(n.held, NotAcross(a, b)));
    var flush := Keep(n.held, Across(a, b));
    forall k | k in n.place && !Numbers(flush, k) ensures Found(m, k, n.place[k]) {
      assert Found(n, k, n.place[k]);
      if n.place[k].InHeld? { KeptFound(n, a, b, k); }
    }
    forall k | Numbers(flush, k) ensures k in n.place { FlushedWereHeld(n, a, b, k); }
    KeptApart(n.sent, n.held, a, b);
    ApartFromFlushed(n, a, b, n.received, InReceived);
    forall x | x in n.mailboxes ensures AllAt(n.place, n.mailboxes[x], InMailbox(x), flush) {
      ApartFromFlushed(n, a, b, n.mailboxes[x], InMailbox(x));
    }
  }

  lemma ApartFromFlushed(n: Net, a: EndpointId, b: EndpointId, s: seq<Parcel>, there: Place)
    requires AllAt(n.place, n.held, InHeld, []) && AllAt(n.place, s, there, []) && !there.InHeld?
    ensures AllAt(n.place, s, there, Keep(n.held, Across(a, b)))
  {
    KeepExactly(n.held, Across(a, b));
  }

  lemma HealKeepsSound(n: Net, a: EndpointId, b: EndpointId)
    requires Sound(n)
    ensures Sound(Heal(n, a, b))
  {
    var m := n.(partitions := n.partitions - {(a, b), (b, a)}, held := Keep(n.held, NotAcross(a, b)));
    var flush := Keep(n.held, Across(a, b));
    HealFlushes(n, a, b);
    HealAccounts(n, a, b);
    PostTidy(m, flush);
    PostOrdered(m, flush);
    PostAccounted(m, flush);
  }

  // ---- Removing and taking ----

  lemma RemoveKeepsSound(n: Net, gone: set<Address>)
    requires Sound(n)
    ensures Sound(Remove(n, gone))
  {
    var m := Remove(n, gone);
    forall k | k in m.place ensures Found(m, k, m.place[k]) {
      assert Found(n, k, n.place[k]);
    }
  }

  lemma TakeKeepsOrder(n: Net, address: Address)
    requires Sound(n)
    ensures Tidy(Take(n, address)) && Ordered(Take(n, address))
  {
    if Head(n, address).Arrived? {
      var q := n.mailboxes[address];
      var p := q[0];
      assert p in q && q == [p] + q[1..];
      forall x | x in q[1..] && SameRoute(p, x) ensures p.no < x.no {
        var i :| 1 <= i < |q| && q[i] == x;
      }
      AppendInOrder(n.received, [p]);
    }
  }

  /** The head of a mailbox is nowhere else. */
  lemma HeadIsAlone(n: Net, address: Address)
    requires Sound(n) && Head(n, address).Arrived?
    ensures var q := n.mailboxes[address];
      && AllAt(n.place, q[1..], InMailbox(address), [])
      && forall x :: x in q[1..] || x in n.held || x in n.received ==> x.no != q[0].no
  {
    var q := n.mailboxes[address];
    var p := q[0];
    assert p in q;
    forall x | x in q[1..] ensures x in q && x.no != p.no {
      var i :| 1 <= i < |q| && q[i] == x;
      Twins(n.sent, q[0], q[i]);
    }
    forall x | x in n.held || x in n.received ensures x.no != p.no { assert n.place[x.no] != InMailbox(address); }
  }

  lemma TakeKeepsPlaces(n: Net, address: Address)
    requires Sound(n) && Head(n, address).Arrived?
    ensures var m := Take(n, address);
      && AllAt(m.place, m.received, InReceived, []) && AllAt(m.place, m.held, InHeld, [])
      && forall a :: a in m.mailboxes ==> AllAt(m.place, m.mailboxes[a], InMailbox(a), [])
  {
    HeadIsAlone(n, address);
    var m, p := Take(n, address), n.mailboxes[address][0];
    assert p in n.mailboxes[address];
    forall a | a in m.mailboxes ensures AllAt(m.place, m.mailboxes[a], InMailbox(a), []) {
      if a != address {
        assert AllAt(n.place, n.mailboxes[a], InMailbox(a), []);
        assert n.place[p.no] == InMailbox(address);
      }
    }
  }

  lemma TakeKeepsAccounts(n: Net, address: Address)
    requires Sound(n)
    ensures Accounted(Take(n, address))
  {
    if Head(n, address).Arrived? {
      var m, p := Take(n, address), n.mailboxes[address][0];
      assert p in n.mailboxes[address];
      TakeKeepsPlaces(n, address);
      forall k | k in m.place ensures Found(m, k, m.place[k]) {
        if k == p.no {
          assert p in m.received;
        } else {
          assert Found(n, k, n.place[k]);
          TakeFinds(n, address, k);
        }
      }
    }
  }

  lemma TakeFinds(n: Net, address: Address, k: nat)
    requires Head(n, address).Arrived? && k in n.place && Found(n, k, n.place[k]) && k != n.mailboxes[address][0].no
    ensures Found(Take(n, address), k, n.place[k])
  {
    var m := Take(n, address);
    match n.place[k] {
      case InReceived =>
        var x :| x in n.received && x.no == k;
        assert x in m.received;
      case InMailbox(a) =>
        var x :| x in n.mailboxes[a] && x.no == k;
        assert x in m.mailboxes[a];
      case _ =>
    }
  }

  // ---- Runs ----

  /** Something that happens to the network. */
  datatype Op =
    | Registering(address: Address)
    | Dropping(address: Address)
    | Killing(endpoint: EndpointId)
    | Partitioning(a: EndpointId, b: EndpointId)
    | Healing(a: EndpointId, b: EndpointId)
    | Sending(from: Address, to: Address, message: Message)
    | OpeningMany(from: Address, endpoint: EndpointId, names: seq<ActorName>, request: Request)
    | Polling(address: Address)
    | Watching
    | AskingForDeath(watch: nat)

  function Apply(n: Net, op: Op): Net {
    match op
    case Registering(a) => Register(n, a).0
    case Dropping(a) => Remove(n, {a})
    case Killing(e) => Kill(n, e)
    case Partitioning(a, b) => Partition(n, a, b)
    case Healing(a, b) => Heal(n, a, b)
    case Sending(from, to, m) => Send(n, from, to, m).0
    case OpeningMany(from, e, names, q) => OpenMany(n, from, e, names, q).0
    case Polling(a) => Take(n, a)
    case Watching => Attach(n)
    case AskingForDeath(watch) => TakeDeath(n, watch)
  }

  function ApplyAll(n: Net, ops: seq<Op>): Net
    decreases |ops|
  {
    if ops == [] then n else Apply(ApplyAll(n, ops[..|ops| - 1]), ops[|ops| - 1])
  }

  lemma BatchRoutes(from: Address, endpoint: EndpointId, names: seq<ActorName>, request: Request)
    ensures forall d :: d in Batch(from, endpoint, names, request) ==>
      (d.from.endpoint == from.endpoint && d.to.endpoint == endpoint)
      || (d.from.endpoint == endpoint && d.to.endpoint == from.endpoint)
  {
  }

  lemma SendKeepsSound(n: Net, from: Address, to: Address, message: Message)
    requires Sound(n)
    ensures Sound(Send(n, from, to, message).0)
  {
    var ds := [Delivery(from, to, message)];
    if (from.endpoint, to.endpoint) in n.partitions { AcceptAndHold(n, ds); }
    else if to in n.mailboxes { AcceptAndPost(n, ds); }
  }

  lemma OpenManyKeepsSound(n: Net, from: Address, endpoint: EndpointId, names: seq<ActorName>, request: Request)
    requires Sound(n)
    ensures Sound(OpenMany(n, from, endpoint, names, request).0)
  {
    var ds := Batch(from, endpoint, names, request);
    BatchRoutes(from, endpoint, names, request);
    if Inhabited(n, endpoint) {
      if (from.endpoint, endpoint) in n.partitions { AcceptAndHold(n, ds); } else { AcceptAndPost(n, ds); }
    }
  }

  lemma KillKeepsSound(n: Net, endpoint: EndpointId)
    requires Sound(n)
    ensures Sound(Kill(n, endpoint))
  {
    RemoveKeepsSound(n, At(n, endpoint));
  }

  lemma RegisterKeepsSound(n: Net, address: Address)
    requires Sound(n)
    ensures Sound(Register(n, address).0)
  {
    var m := Register(n, address).0;
    forall k | k in m.place ensures Found(m, k, m.place[k]) {
      assert Found(n, k, n.place[k]);
    }
  }

  lemma PartitionKeepsSound(n: Net, a: EndpointId, b: EndpointId)
    requires Sound(n)
    ensures Sound(Partition(n, a, b))
  {
    var m := Partition(n, a, b);
    forall k | k in m.place ensures Found(m, k, m.place[k]) {
      assert Found(n, k, n.place[k]);
    }
  }

  lemma WatchersDoNotMatter(n: Net, m: Net)
    requires Sound(n) && m == n.(watchers := m.watchers)
    ensures Sound(m)
  {
    forall k | k in m.place ensures Found(m, k, m.place[k]) {
      assert Found(n, k, n.place[k]);
    }
  }

  lemma ApplyKeepsSound(n: Net, op: Op)
    requires Sound(n)
    ensures Sound(Apply(n, op))
  {
    match op {
      case Registering(a) => RegisterKeepsSound(n, a);
      case Dropping(a) => RemoveKeepsSound(n, {a});
      case Killing(e) => KillKeepsSound(n, e);
      case Partitioning(a, b) => PartitionKeepsSound(n, a, b);
      case Healing(a, b) => HealKeepsSound(n, a, b);
      case Sending(from, to, m) => SendKeepsSound(n, from, to, m);
      case OpeningMany(from, e, names, q) => OpenManyKeepsSound(n, from, e, names, q);
      case Polling(a) => TakeKeepsOrder(n, a); TakeKeepsAccounts(n, a);
      case Watching => WatchersDoNotMatter(n, Attach(n));
      case AskingForDeath(watch) => WatchersDoNotMatter(n, TakeDeath(n, watch));
    }
  }

  /** Through any mix of registrations, drops, kills, partitions, heals, sends, batches, polls and watches: what
      was received, then what is queued, then what is held is, on every route, in send order; what is
      held is held across a standing partition; and every accepted delivery is accounted for. */
  lemma {:induction false} AlwaysSound(ops: seq<Op>)
    ensures Sound(ApplyAll(EMPTY, ops))
    decreases |ops|
  {
    if ops != [] {
      AlwaysSound(ops[..|ops| - 1]);
      ApplyKeepsSound(ApplyAll(EMPTY, ops[..|ops| - 1]), ops[|ops| - 1]);
    }
  }

  function Occurrences(s: seq<Parcel>, k: nat): nat {
    if s == [] then 0 else Occurrences(s[..|s| - 1], k) + if s[|s| - 1].no == k then 1 else 0
  }

  lemma {:induction false} OccursOnce(sent: seq<Delivery>, s: seq<Parcel>, k: nat)
    requires AllGenuine(sent, s) && InOrder(s)
    ensures Occurrences(s, k) == if Numbers(s, k) then 1 else 0
  {
    if s != [] {
      var t, last := s[..|s| - 1], s[|s| - 1];
      assert forall p :: p in s <==> p in t || p == last;
      assert forall i :: 0 <= i < |t| ==> t[i] == s[i];
      OccursOnce(sent, t, k);
      forall i | 0 <= i < |t| ensures t[i].no != last.no {
        assert t[i] in s && last in s;
        Twins(sent, s[i], last);
        assert SameRoute(s[i], last) ==> s[i].no < last.no;
      }
    }
  }

  // ---- Where a delivery goes ----

  /** The operation unbinds the address. */
  predicate Unbinds(op: Op, address: Address) {
    op == Dropping(address) || op == Killing(address.endpoint)
  }

  /** Where `op` takes the delivery accepted as number `k`. One just accepted is held across a partition,
      queued in its mailbox, or lost for want of one. One held waits for its own partition to heal and
      then goes the same way. One queued is received when it is polled for, and lost with its mailbox.
      One received or lost stays so. */
  function Destined(n: Net, op: Op, k: nat, d: Delivery): Place {
    var landing := if d.to in n.mailboxes then InMailbox(d.to) else IsLost;
    if k !in n.place then
      if (d.from.endpoint, d.to.endpoint) in n.partitions then InHeld else landing
    else
      match n.place[k]
      case InHeld => if op.Healing? && Crosses(d, op.a, op.b) then landing else InHeld
      case InMailbox(a) =>
        if Unbinds(op, a) then IsLost
        else if op == Polling(a) && a in n.mailboxes && n.mailboxes[a] != [] && n.mailboxes[a][0].no == k then
          InReceived
        else InMailbox(a)
      case place => place
  }

  ghost predicate GoesRightly(n: Net, op: Op, k: nat) {
    var m := Apply(n, op);
    k < |m.sent| && k in m.place && m.place[k] == Destined(n, op, k, m.sent[k])
  }

  lemma AcceptedGoRightly(n: Net, ds: seq<Delivery>, k: nat)
    requires Sound(n) && k < |n.sent + ds|
    ensures var ps := Numbered(n, ds);
      && Landed(n.place, ps, n.mailboxes.Keys).Keys == HeldUp(n.place, ps).Keys
      && k in HeldUp(n.place, ps)
      && (k in n.place <==> k < |n.sent|)
      && (k in n.place ==> Landed(n.place, ps, n.mailboxes.Keys)[k] == HeldUp(n.place, ps)[k] == n.place[k])
      && (k !in n.place ==>
            HeldUp(n.place, ps)[k] == InHeld
            && Landed(n.place, ps, n.mailboxes.Keys)[k] == Landing(Parcel(k, (n.sent + ds)[k]), n.mailboxes.Keys))
  {
    var ps := Numbered(n, ds);
    NumberedParcels(n, ds);
    LandedExactly(n.place, ps, n.mailboxes.Keys);
    HeldUpExactly(n.place, ps);
    assert k < |n.sent| <==> k in n.place || Numbers([], k);
    if k >= |n.sent| { assert ps[k - |n.sent|] in ps && ps[k - |n.sent|] == Parcel(k, (n.sent + ds)[k]); }
  }

  lemma SendGoesRightly(n: Net, op: Op, k: nat)
    requires Sound(n) && op.Sending? && k < |Apply(n, op).sent|
    ensures GoesRightly(n, op, k)
  {
    var ds := [Delivery(op.from, op.to, op.message)];
    if Send(n, op.from, op.to, op.message).1 {
      AcceptedGoRightly(n, ds, k);
    } else {
      assert k in n.place || Numbers([], k);
    }
  }

  lemma BatchGoesRightly(n: Net, op: Op, k: nat)
    requires Sound(n) && op.OpeningMany? && k < |Apply(n, op).sent|
    ensures GoesRightly(n, op, k)
  {
    var ds := Batch(op.from, op.endpoint, op.names, op.request);
    if Inhabited(n, op.endpoint) {
      AcceptedGoRightly(n, ds, k);
      BatchRoutes(op.from, op.endpoint, op.names, op.request);
      if k >= |n.sent| { assert (n.sent + ds)[k] in ds; }
    } else {
      assert k in n.place || Numbers([], k);
    }
  }

  /** What a heal flushes lands. */
  lemma FlushedLands(n: Net, a: EndpointId, b: EndpointId, k: nat)
    requires Sound(n) && k < |n.sent| && Numbers(Keep(n.held, Across(a, b)), k)
    ensures k in n.place && n.place[k] == InHeld && Crosses(n.sent[k], a, b)
    ensures var m := Heal(n, a, b);
      k in m.place && m.place[k] == Landing(Parcel(k, n.sent[k]), n.mailboxes.Keys)
  {
    var flush := Keep(n.held, Across(a, b));
    KeepExactly(n.held, Across(a, b));
    GenuineAreToldApart(n.sent, flush);
    LandedExactly(n.place, flush, n.mailboxes.Keys);
    FlushedWereHeld(n, a, b, k);
    var p :| p in flush && p.no == k;
    assert Genuine(n.sent, p);
  }

  lemma UnflushedDoesNotCross(n: Net, a: EndpointId, b: EndpointId, k: nat)
    requires Sound(n) && k < |n.sent| && k in n.place && n.place[k] == InHeld
    requires !Numbers(Keep(n.held, Across(a, b)), k)
    ensures !Crosses(n.sent[k], a, b)
  {
    KeepExactly(n.held, Across(a, b));
    assert Found(n, k, n.place[k]);
    var p :| p in n.held && p.no == k;
    assert Genuine(n.sent, p) && p !in Keep(n.held, Across(a, b));
  }

  lemma UnflushedStays(n: Net, a: EndpointId, b: EndpointId, k: nat)
    requires Sound(n) && k in n.place && !Numbers(Keep(n.held, Across(a, b)), k)
    ensures k in Heal(n, a, b).place && Heal(n, a, b).place[k] == n.place[k]
  {
    var flush := Keep(n.held, Across(a, b));
    KeepExactly(n.held, Across(a, b));
    GenuineAreToldApart(n.sent, flush);
    LandedExactly(n.place, flush, n.mailboxes.Keys);
  }

  lemma {:induction false} UnflushedGoesRightly(n: Net, op: Op, k: nat)
    requires Sound(n) && op.Healing? && k < |n.sent| && !Numbers(Keep(n.held, Across(op.a, op.b)), k)
    ensures GoesRightly(n, op, k)
  {
    StillPlaced(n, k);
    UnflushedStays(n, op.a, op.b, k);
    if n.place[k].InHeld? { UnflushedDoesNotCross(n, op.a, op.b, k); }
  }

  lemma StillPlaced(n: Net, k: nat)
    requires Sound(n) && k < |n.sent|
    ensures k in n.place
  {
    assert k in n.place || Numbers([], k);
  }

  lemma HealGoesRightly(n: Net, op: Op, k: nat)
    requires Sound(n) && op.Healing? && k < |n.sent|
    ensures GoesRightly(n, op, k)
  {
    if Numbers(Keep(n.held, Across(op.a, op.b)), k) {
      FlushedLands(n, op.a, op.b, k);
    } else {
      UnflushedGoesRightly(n, op, k);
    }
  }

  lemma PollGoesRightly(n: Net, op: Op, k: nat)
    requires Sound(n) && op.Polling? && k < |n.sent|
    ensures GoesRightly(n, op, k)
  {
    assert k in n.place || Numbers([], k);
    if Head(n, op.address).Arrived? {
      var p := n.mailboxes[op.address][0];
      assert p in n.mailboxes[op.address];
      assert n.place[p.no] == InMailbox(op.address);
    }
  }

  lemma {:induction false} RestGoesRightly(n: Net, op: Op, k: nat)
    requires Sound(n) && k < |Apply(n, op).sent|
    requires !op.Sending? && !op.OpeningMany? && !op.Healing? && !op.Polling?
    ensures GoesRightly(n, op, k)
  {
    assert Apply(n, op).sent == n.sent;
    StillPlaced(n, k);
  }

  /** In every reachable network, whatever happens next, each delivery accepted goes exactly where it is
      destined to. */
  lemma {:induction false} EachGoesRightly(ops: seq<Op>, op: Op, k: nat)
    requires k < |Apply(ApplyAll(EMPTY, ops), op).sent|
    ensures GoesRightly(ApplyAll(EMPTY, ops), op, k)
  {
    var n := ApplyAll(EMPTY, ops);
    AlwaysSound(ops);
    match op {
      case Sending(_, _, _) => SendGoesRightly(n, op, k);
      case OpeningMany(_, _, _, _) => BatchGoesRightly(n, op, k);
      case Healing(_, _) => HealGoesRightly(n, op, k);
      case Polling(_) => PollGoesRightly(n, op, k);
      case _ => RestGoesRightly(n, op, k);
    }
  }

  predicate LostIn(n: Net, k: nat) { k in n.place && n.place[k].IsLost? }

  lemma BoundAfter(n: Net, op: Op, a: Address)
    ensures a in Apply(n, op).mailboxes <==> (a in n.mailboxes && !Unbinds(op, a)) || op == Registering(a)
    ensures |Apply(n, op).sent| != |n.sent| ==> op.Sending? || op.OpeningMany?
  {
  }

  lemma LostByThisStep(n: Net, op: Op, k: nat)
    requires Sound(n) && GoesRightly(n, op, k) && LostIn(Apply(n, op), k) && !LostIn(n, k)
    ensures Apply(n, op).sent[k].to !in Apply(n, op).mailboxes
  {
    var to := Apply(n, op).sent[k].to;
    BoundAfter(n, op, to);
    if k in n.place {
      WithinSent(n, k);
      if n.place[k].InMailbox? { QueuedWhereAddressed(n, k); }
    } else {
      assert k < |n.sent| <==> k in n.place || Numbers([], k);
    }
  }

  /** A delivery is lost only to an absent or removed mailbox: by an operation after which its address is
      unbound. */
  lemma {:induction false} LostOnlyUnbound(ops: seq<Op>, op: Op, k: nat)
    requires LostIn(Apply(ApplyAll(EMPTY, ops), op), k) && !LostIn(ApplyAll(EMPTY, ops), k)
    ensures var m := Apply(ApplyAll(EMPTY, ops), op); k < |m.sent| && m.sent[k].to !in m.mailboxes
  {
    var n := ApplyAll(EMPTY, ops);
    AlwaysSound(ops);
    ApplyKeepsSound(n, op);
    WithinSent(Apply(n, op), k);
    EachGoesRightly(ops, op, k);
    LostByThisStep(n, op, k);
  }

  lemma WithinSent(n: Net, k: nat)
    requires Sound(n) && k in n.place
    ensures k < |n.sent|
  {
    assert k < |n.sent| <==> k in n.place || Numbers([], k);
  }

  lemma QueuedWhereAddressed(n: Net, k: nat)
    requires Sound(n) && k in n.place && n.place[k].InMailbox?
    ensures k < |n.sent| && n.place[k].address == n.sent[k].to
  {
    var a := n.place[k].address;
    assert Found(n, k, n.place[k]);
    var p :| p in n.mailboxes[a] && p.no == k;
    assert Genuine(n.sent, p) && p.delivery.to == a;
  }

  /** The `i`-th operation lost the delivery accepted as number `k`, its address being unbound. */
  ghost predicate LostBy(ops: seq<Op>, i: nat, k: nat) {
    i < |ops| &&
    var n, m := ApplyAll(EMPTY, ops[..i]), ApplyAll(EMPTY, ops[..i + 1]);
    !LostIn(n, k) && LostIn(m, k) && k < |m.sent| && m.sent[k].to !in m.mailboxes
  }

  lemma {:induction false} LostToNobody(ops: seq<Op>, k: nat)
    requires LostIn(ApplyAll(EMPTY, ops), k)
    ensures exists i: nat :: LostBy(ops, i, k)
    decreases |ops|
  {
    assert ops != [];
    var before := ops[..|ops| - 1];
    if LostIn(ApplyAll(EMPTY, before), k) {
      LostToNobody(before, k);
      var i: nat :| LostBy(before, i, k);
      assert before[..i] == ops[..i] && before[..i + 1] == ops[..i + 1];
      assert LostBy(ops, i, k);
    } else {
      LostOnlyUnbound(before, ops[|ops| - 1], k);
      assert ops[..|ops| - 1 + 1] == ops;
      assert LostBy(ops, |ops| - 1, k);
    }
  }

  /** Conservation: after any run, the delivery accepted k-th has been received once, or sits once in
      its own mailbox, or is held once, or is lost, and only one of these; no other mailbox has it; and
      if it is lost, some operation lost it that left its address unbound. */
  lemma {:induction false} EachExactlyOnce(ops: seq<Op>, k: nat)
    requires k < |ApplyAll(EMPTY, ops).sent|
    ensures var n := ApplyAll(EMPTY, ops);
      var to := n.sent[k].to;
      var box := if to in n.mailboxes then n.mailboxes[to] else [];
      && k in n.place
      && Occurrences(n.received, k) + Occurrences(box, k) + Occurrences(n.held, k)
           + (if n.place[k].IsLost? then 1 else 0) == 1
      && (forall a :: a in n.mailboxes && a != to ==> Occurrences(n.mailboxes[a], k) == 0)
      && (n.place[k].IsLost? ==> exists i: nat :: LostBy(ops, i, k))
  {
    AlwaysSound(ops);
    var n := ApplyAll(EMPTY, ops);
    var to := n.sent[k].to;
    OccursOnce(n.sent, n.received, k);
    OccursOnce(n.sent, n.held, k);
    forall a | a in n.mailboxes ensures Occurrences(n.mailboxes[a], k) == if n.place[k] == InMailbox(a) then 1 else 0 {
      OccursOnce(n.sent, n.mailboxes[a], k);
      assert n.place[k] == InMailbox(a) ==> Found(n, k, n.place[k]);
    }
    assert Found(n, k, n.place[k]);
    if n.place[k].InMailbox? {
      var p :| p in n.mailboxes[n.place[k].address] && p.no == k;
      assert p.delivery.to == to;
    }
    if n.place[k].IsLost? { LostToNobody(ops, k); }
  }
}
