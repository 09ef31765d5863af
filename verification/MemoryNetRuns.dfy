/** What the network answers, and what its watches are told, in terms of what was asked of it. */
module MemoryNetRuns {
  import opened Vocabulary
  import opened Waits
  import opened MemoryNets
  import opened MemoryNetTheorems

  // ---- Deaths are told ----

  /** How many death watches have been attached. */
  function Attached(ops: seq<Op>): nat {
    if ops == [] then 0 else Attached(ops[..|ops| - 1]) + if ops[|ops| - 1].Watching? then 1 else 0
  }

  /** The endpoints killed since watch number `watch` was attached, in order. */
  function KilledSince(ops: seq<Op>, watch: nat): seq<EndpointId> {
    if ops == [] then []
    else
      var before, last := ops[..|ops| - 1], ops[|ops| - 1];
      KilledSince(before, watch) + if last.Killing? && watch < Attached(before) then [last.endpoint] else []
  }

  /** What the polls of that watch have answered, in order. */
  function ToldBy(ops: seq<Op>, watch: nat): seq<EndpointId> {
    if ops == [] then []
    else
      var before, last := ops[..|ops| - 1], ops[|ops| - 1];
      var answer := NextDeath(ApplyAll(EMPTY, before), watch);
      ToldBy(before, watch) + if last == AskingForDeath(watch) && answer.Died? then [answer.endpoint] else []
  }

  function Endpoints(deaths: seq<Death>): seq<EndpointId> {
    seq(|deaths|, i requires 0 <= i < |deaths| => deaths[i].endpoint)
  }

  /** What one operation does to one watch: a kill is queued last, a poll of this very watch takes the
      earliest, a new watch has nothing queued, and nothing else touches it. */
  lemma {:induction false} WatchAfter(n: Net, op: Op, watch: nat)
    ensures var m, answer := Apply(n, op), NextDeath(n, watch);
      && |m.watchers| == |n.watchers| + (if op.Watching? then 1 else 0)
      && (watch < |n.watchers| ==>
            var was, left := Endpoints(n.watchers[watch]), Endpoints(m.watchers[watch]);
            if op.Killing? then left == was + [op.endpoint]
            else if op == AskingForDeath(watch) && answer.Died? then was == [answer.endpoint] + left
            else left == was)
      && (watch == |n.watchers| && op.Watching? ==> m.watchers[watch] == [])
      && (watch >= |n.watchers| ==> answer == NoDeath)
  {
    var m := Apply(n, op);
    if watch < |n.watchers| && op.Killing? {
      assert m.watchers[watch] == n.watchers[watch] + [Death(op.endpoint, |n.sent|)];
    }
  }

  /** Every watch is told of every death: what its polls have answered, and then what is still queued at it,
      are the endpoints killed since it was attached, each kill once, in order. */
  lemma {:induction false} WatchesAreTold(ops: seq<Op>, watch: nat)
    ensures |ApplyAll(EMPTY, ops).watchers| == Attached(ops)
    ensures watch < Attached(ops) ==>
      ToldBy(ops, watch) + Endpoints(ApplyAll(EMPTY, ops).watchers[watch]) == KilledSince(ops, watch)
    ensures watch >= Attached(ops) ==> ToldBy(ops, watch) == KilledSince(ops, watch) == []
    decreases |ops|
  {
    if ops != [] {
      var before, last := ops[..|ops| - 1], ops[|ops| - 1];
      var n, told, killed := ApplyAll(EMPTY, before), ToldBy(before, watch), KilledSince(before, watch);
      WatchesAreTold(before, watch);
      WatchAfter(n, last, watch);
      if watch < Attached(before) {
        var was, left := Endpoints(n.watchers[watch]), Endpoints(Apply(n, last).watchers[watch]);
        if last.Killing? {
          assert told + (was + [last.endpoint]) == told + was + [last.endpoint];
        } else if last == AskingForDeath(watch) && NextDeath(n, watch).Died? {
          var answer := [NextDeath(n, watch).endpoint];
          assert told + (answer + left) == told + answer + left;
        }
      }
    }
  }

  /** So a poll answers with the earliest kill that its watch has not been told of, if there is one. */
  lemma PollTellsTheNext(ops: seq<Op>, watch: nat)
    requires watch < Attached(ops)
    ensures var told, killed := ToldBy(ops, watch), KilledSince(ops, watch);
      && told <= killed
      && NextDeath(ApplyAll(EMPTY, ops), watch) == if |told| < |killed| then Died(killed[|told|]) else NoDeath
  {
    WatchesAreTold(ops, watch);
    var queue := ApplyAll(EMPTY, ops).watchers[watch];
    assert |KilledSince(ops, watch)| == |ToldBy(ops, watch)| + |queue|;
  }

  // ---- Who is parted from whom ----

  /** The operation parts the two endpoints, or brings them together again. */
  predicate Parts(op: Op, a: EndpointId, b: EndpointId) {
    op == Partitioning(a, b) || op == Partitioning(b, a)
  }

  predicate Unparts(op: Op, a: EndpointId, b: EndpointId) { op == Healing(a, b) || op == Healing(b, a) }

  /** The last time that the two were parted or healed, they were parted. */
  predicate Apart(ops: seq<Op>, a: EndpointId, b: EndpointId) {
    ops != [] &&
    var last := ops[|ops| - 1];
    Parts(last, a, b) || (!Unparts(last, a, b) && Apart(ops[..|ops| - 1], a, b))
  }

  /** Two endpoints are partitioned exactly when the last operation on the pair parted them, whichever way
      round it named them; no other operation changes that. */
  lemma {:induction false} PartedUntilHealed(ops: seq<Op>, a: EndpointId, b: EndpointId)
    ensures (a, b) in ApplyAll(EMPTY, ops).partitions <==> Apart(ops, a, b)
    decreases |ops|
  {
    if ops != [] {
      PartedUntilHealed(ops[..|ops| - 1], a, b);
    }
  }

  // ---- What callers are told ----

  /** What an operation puts on the wire. A send that is refused puts nothing there; a batch puts its receipt
      there, under the id of the request it carries, and then an opening for each name. */
  function PutBy(n: Net, op: Op): seq<Delivery> {
    match op
    case Sending(from, to, message) =>
      if (from.endpoint, to.endpoint) in n.partitions || to in n.mailboxes then [Delivery(from, to, message)] else []
    case OpeningMany(from, endpoint, names, request) =>
      if exists a :: a in n.mailboxes && a.endpoint == endpoint then
        var opening := TurnMessage(Open(request));
        [Delivery(Address(endpoint, ActorName("mailroom")), from, AckMessage(request.id))]
        + seq(|names|, i requires 0 <= i < |names| => Delivery(from, Address(endpoint, names[i]), opening))
      else []
    case _ => []
  }

  /** The sender is told that its message, or its batch, was accepted exactly when it was; an address is bound
      for the first comer only. */
  lemma CallersAreTold(n: Net, op: Op)
    ensures Apply(n, op).sent == n.sent + PutBy(n, op)
    ensures op.Sending? ==> (Send(n, op.from, op.to, op.message).1 <==> PutBy(n, op) != [])
    ensures op.OpeningMany? ==> (OpenMany(n, op.from, op.endpoint, op.names, op.request).1 <==> PutBy(n, op) != [])
    ensures op.Registering? ==> (Register(n, op.address).1 <==> op.address !in n.mailboxes)
    ensures forall a :: a in Apply(n, op).mailboxes <==> (a in n.mailboxes && !Unbinds(op, a)) || op == Registering(a)
  {
    if op.OpeningMany? {
      assert Inhabited(n, op.endpoint) ==>
        Batch(op.from, op.endpoint, op.names, op.request) == PutBy(n, op);
    }
  }

  /** A receiver gets the delivery first in its mailbox and takes it out, finds nothing in an empty one, and
      is told so when the mailbox is gone. */
  lemma ReceiversAreTold(n: Net, a: Address)
    ensures Head(n, a) == if a !in n.mailboxes then Closed else if n.mailboxes[a] == [] then Empty
                          else Arrived(n.mailboxes[a][0].delivery)
    ensures var m := Apply(n, Polling(a));
      if Head(n, a).Arrived? then
        m.received == n.received + [n.mailboxes[a][0]] && m.mailboxes == n.mailboxes[a := n.mailboxes[a][1..]]
      else m == n
  {
  }
}
