/** The race between a delivery, a timer and a report of death.

    A future is re-entered on every wakeup; each wakeup is one round, in which the contestants are
    polled in a fixed order. What each would answer when polled is given, round by round. */
module Waits {
  import opened Vocabulary

  datatype DeathPoll = NoDeath | Died(endpoint: EndpointId) | WatchClosed

  datatype InboxPoll = Empty | Closed | Arrived(delivery: Delivery)

  /** What the three contestants would answer in one round: the death watch, the clock, the inbox. */
  datatype Round = Round(death: DeathPoll, now: nat, inbox: InboxPoll)

  datatype Waited =
    | StillWaiting
    | PeerDeath(endpoint: EndpointId)
    | DeadlineFirst
    | InboxClosed
    | Arrival(delivery: Delivery)

  predicate Overdue(due: Option<nat>, now: nat) { due.Some? && due.value <= now }

  function InboxAnswer(p: InboxPoll): Waited {
    match p case Empty => StillWaiting case Closed => InboxClosed case Arrived(d) => Arrival(d)
  }

  /** The watch has not closed before round `k`. */
  ghost predicate WatchOpen(rounds: seq<Round>, k: nat)
    requires k <= |rounds|
  {
    forall j :: 0 <= j < k ==> !rounds[j].death.WatchClosed?
  }

  /** Nobody is ready in round `k`. */
  ghost predicate NobodyReady(rounds: seq<Round>, due: Option<nat>, k: nat)
    requires k < |rounds|
  {
    && (rounds[k].death.Died? ==> !WatchOpen(rounds, k))
    && !Overdue(due, rounds[k].now)
    && rounds[k].inbox.Empty?
  }

  /** The race's verdict: it ends in the first round that finds somebody ready, and there a death that
      an open watch reports goes before a deadline that has passed, which goes before the inbox. */
  ghost predicate Verdict(rounds: seq<Round>, due: Option<nat>, w: Waited) {
    if w.StillWaiting? then forall k :: 0 <= k < |rounds| ==> NobodyReady(rounds, due, k)
    else exists k: nat :: k < |rounds| && Decides(rounds, due, k, w)
  }

  ghost predicate Decides(rounds: seq<Round>, due: Option<nat>, k: nat, w: Waited)
    requires k < |rounds|
  {
    && (forall j :: 0 <= j < k ==> NobodyReady(rounds, due, j))
    && !NobodyReady(rounds, due, k)
    && w == if rounds[k].death.Died? && WatchOpen(rounds, k) then PeerDeath(rounds[k].death.endpoint)
            else if Overdue(due, rounds[k].now) then DeadlineFirst
            else InboxAnswer(rounds[k].inbox)
  }

  /** Race the inbox against a deadline only. */
  method NextOrDeadline(rounds: seq<Round>, due: nat) returns (w: Waited)
    requires forall r :: r in rounds ==> r.death == NoDeath
    ensures Verdict(rounds, Some(due), w)
  {
    var k := 0;
    while k < |rounds|
      invariant 0 <= k <= |rounds|
      invariant forall j :: 0 <= j < k ==> NobodyReady(rounds, Some(due), j)
    {
      assert rounds[k] in rounds;
      if due <= rounds[k].now {
        assert Decides(rounds, Some(due), k, DeadlineFirst);
        return DeadlineFirst;
      }
      match rounds[k].inbox {
        case Arrived(delivery) =>
          assert Decides(rounds, Some(due), k, Arrival(delivery));
          return Arrival(delivery);
        case Closed =>
          assert Decides(rounds, Some(due), k, InboxClosed);
          return InboxClosed;
        case Empty =>
      }
      k := k + 1;
    }
    w := StillWaiting;
  }

  /** Race the inbox against a deadline, if one is set, and the death watch. A watch that closes is
      not polled again. */
  method NextOrDeadlineOrDeath(rounds: seq<Round>, due: Option<nat>) returns (w: Waited)
    ensures Verdict(rounds, due, w)
  {
    var watching := true;
    var k := 0;
    while k < |rounds|
      invariant 0 <= k <= |rounds|
      invariant watching <==> WatchOpen(rounds, k)
      invariant forall j :: 0 <= j < k ==> NobodyReady(rounds, due, j)
    {
      ghost var open := watching;
      if watching {
        match rounds[k].death {
          case Died(endpoint) =>
            assert Decides(rounds, due, k, PeerDeath(endpoint));
            return PeerDeath(endpoint);
          case WatchClosed => watching := false;
          case NoDeath =>
        }
      }
      if due.Some? && due.value <= rounds[k].now {
        assert Decides(rounds, due, k, DeadlineFirst);
        return DeadlineFirst;
      }
      match rounds[k].inbox {
        case Arrived(delivery) =>
          assert Decides(rounds, due, k, Arrival(delivery));
          return Arrival(delivery);
        case Closed =>
          assert Decides(rounds, due, k, InboxClosed);
          return InboxClosed;
        case Empty =>
      }
      assert WatchOpen(rounds, k + 1) <==> WatchOpen(rounds, k) && !rounds[k].death.WatchClosed?;
      k := k + 1;
    }
    w := StillWaiting;
  }

  /** The race has one verdict at most: the poll order makes it deterministic. */
  lemma VerdictIsUnique(rounds: seq<Round>, due: Option<nat>, v: Waited, w: Waited)
    requires Verdict(rounds, due, v) && Verdict(rounds, due, w)
    ensures v == w
  {
    if !v.StillWaiting? && !w.StillWaiting? {
      var i: nat :| i < |rounds| && Decides(rounds, due, i, v);
      var j: nat :| j < |rounds| && Decides(rounds, due, j, w);
      assert i == j;
    }
  }

  /** One pending contestant settles the race in the first round: the watch, else the clock, else the inbox. */
  lemma FirstRoundDecides(rounds: seq<Round>, due: Option<nat>, w: Waited)
    requires rounds != [] && Verdict(rounds, due, w)
    ensures var first := rounds[0];
      && (first.death.Died? ==> w == PeerDeath(first.death.endpoint))
      && (!first.death.Died? && due.Some? && due.value <= first.now ==> w == DeadlineFirst)
      && (!first.death.Died? && !(due.Some? && due.value <= first.now) && first.inbox.Arrived?
          ==> w == Arrival(first.inbox.delivery))
      && (!first.death.Died? && !(due.Some? && due.value <= first.now) && first.inbox.Closed? ==> w == InboxClosed)
  {
    assert WatchOpen(rounds, 0);
    if w.StillWaiting? {
      assert NobodyReady(rounds, due, 0);
    } else {
      var k: nat :| k < |rounds| && Decides(rounds, due, k, w);
      assert k > 0 ==> NobodyReady(rounds, due, 0);
    }
  }

  /** What is left of the race after a round that found nobody ready: a watch that closed in it is not
      polled again. */
  function Onward(rounds: seq<Round>): seq<Round>
    requires rounds != []
  {
    if rounds[0].death.WatchClosed? then
      seq(|rounds| - 1, i requires 0 <= i < |rounds| - 1 => rounds[i + 1].(death := NoDeath))
    else rounds[1..]
  }

  lemma ReadyOnward(rounds: seq<Round>, due: Option<nat>, k: nat)
    requires k + 1 < |rounds| && !rounds[0].death.Died?
    ensures NobodyReady(Onward(rounds), due, k) <==> NobodyReady(rounds, due, k + 1)
    ensures Onward(rounds)[k].death.Died? && WatchOpen(Onward(rounds), k)
      <==> rounds[k + 1].death.Died? && WatchOpen(rounds, k + 1)
    ensures Onward(rounds)[k].death.Died? ==> Onward(rounds)[k] == rounds[k + 1]
  {
    if rounds[0].death.WatchClosed? {
      assert !WatchOpen(rounds, k + 1);
    } else {
      assert WatchOpen(Onward(rounds), k) ==> WatchOpen(rounds, k + 1);
      assert WatchOpen(rounds, k + 1) ==> WatchOpen(Onward(rounds), k) by {
        forall j | 0 <= j < k && WatchOpen(rounds, k + 1) ensures !Onward(rounds)[j].death.WatchClosed? {
          assert !rounds[j + 1].death.WatchClosed?;
        }
      }
    }
  }

  /** A round that finds nobody ready leaves the verdict to the rounds after it. */
  lemma RaceGoesOn(rounds: seq<Round>, due: Option<nat>, w: Waited)
    requires rounds != [] && Verdict(rounds, due, w)
    requires !rounds[0].death.Died? && rounds[0].inbox.Empty? && !(due.Some? && due.value <= rounds[0].now)
    ensures Verdict(Onward(rounds), due, w)
  {
    var rest := Onward(rounds);
    if w.StillWaiting? {
      forall k: nat | k < |rest| ensures NobodyReady(rest, due, k) { ReadyOnward(rounds, due, k); }
    } else {
      var k: nat :| k < |rounds| && Decides(rounds, due, k, w);
      assert NobodyReady(rounds, due, 0);
      forall j: nat | j < k ensures NobodyReady(rest, due, j) <==> j < k - 1 { ReadyOnward(rounds, due, j); }
      ReadyOnward(rounds, due, k - 1);
      assert Decides(rest, due, k - 1, w);
    }
  }
}
