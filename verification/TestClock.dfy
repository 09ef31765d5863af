/** The timer for tests: a clock turned by hand, and the sleeps parked on it. A waker is
    known by the number of the task it wakes. */
module TestClocks {

  datatype Sleeper = Sleeper(at: nat, waker: nat)

  datatype Clock = Clock(now: nat, sleepers: seq<Sleeper>)

  /** Those of `s` that are due at `now`, or those that are not, in their order. */
  function Sifted(s: seq<Sleeper>, now: nat, due: bool): seq<Sleeper> {
    if s == [] then []
    else
      var last := s[|s| - 1];
      Sifted(s[..|s| - 1], now, due) + if (last.at <= now) == due then [last] else []
  }

  function Advanced(c: Clock, span: nat): Clock { Clock(c.now + span, Sifted(c.sleepers, c.now + span, false)) }

  /** The sleeps that an advance wakes. */
  function Woken(c: Clock, span: nat): seq<Sleeper> { Sifted(c.sleepers, c.now + span, true) }

  function Polled(c: Clock, s: Sleeper): Clock {
    if s.at <= c.now then c else Clock(c.now, c.sleepers + [s])
  }

  class TestTimer {
    var now: nat
    var sleepers: seq<Sleeper>

    function View(): Clock
      reads this
    {
      Clock(now, sleepers)
    }

    constructor ()
      ensures View() == Clock(0, [])
    {
      now, sleepers := 0, [];
    }

    /** Move the clock, and wake every sleep now due. */
    method Advance(span: nat) returns (woken: seq<Sleeper>)
      modifies this
      ensures View() == Advanced(old(View()), span)
      ensures woken == Woken(old(View()), span)
    {
      now := now + span;
      woken := [];
      var pending, i := [], 0;
      while i < |sleepers|
        invariant 0 <= i <= |sleepers|
        invariant woken == Sifted(sleepers[..i], now, true)
        invariant pending == Sifted(sleepers[..i], now, false)
      {
        assert sleepers[..i + 1][..i] == sleepers[..i];
        if sleepers[i].at <= now { woken := woken + [sleepers[i]]; } else { pending := pending + [sleepers[i]]; }
        i := i + 1;
      }
      assert sleepers[..i] == sleepers;
      sleepers := pending;
    }

    /** A sleep that is not due parks its waker, once for each poll. */
    method Poll(due: nat, waker: nat) returns (ready: bool)
      modifies this`sleepers
      ensures View() == Polled(old(View()), Sleeper(due, waker))
      ensures ready <==> due <= now
    {
      if due <= now { return true; }
      sleepers := sleepers + [Sleeper(due, waker)];
      ready := false;
    }
  }

  datatype Op = Advancing(span: nat) | Polling(sleeper: Sleeper)

  function After(ops: seq<Op>): Clock {
    if ops == [] then Clock(0, [])
    else
      var c, last := After(ops[..|ops| - 1]), ops[|ops| - 1];
      match last case Advancing(span) => Advanced(c, span) case Polling(s) => Polled(c, s)
  }

  lemma {:induction false} SiftedExactly(s: seq<Sleeper>, now: nat, due: bool)
    ensures forall x :: x in Sifted(s, now, due) <==> x in s && ((x.at <= now) == due)
  {
    if s != [] {
      SiftedExactly(s[..|s| - 1], now, due);
      assert forall x :: x in s <==> x in s[..|s| - 1] || x == s[|s| - 1];
    }
  }

  /** Nobody is left asleep past its time. */
  lemma {:induction false} NobodyOversleeps(ops: seq<Op>)
    ensures forall s :: s in After(ops).sleepers ==> After(ops).now < s.at
    decreases |ops|
  {
    if ops != [] {
      var before, last := ops[..|ops| - 1], ops[|ops| - 1];
      NobodyOversleeps(before);
      if last.Advancing? { SiftedExactly(After(before).sleepers, After(before).now + last.span, false); }
    }
  }

  /** The advance at `j` woke a sleep that was parked at `i`. */
  ghost predicate WokenSince(ops: seq<Op>, i: nat, s: Sleeper) {
    exists j :: i < j < |ops| && WokenAt(ops, j, s)
  }

  ghost predicate WokenAt(ops: seq<Op>, j: nat, s: Sleeper) {
    j < |ops| && ops[j].Advancing? && s in Woken(After(ops[..j]), ops[j].span)
    && s.at <= After(ops[..j]).now + ops[j].span
  }

  /** An advance loses nobody: who was asleep is still asleep, or is woken. */
  lemma AdvanceLosesNobody(c: Clock, span: nat, s: Sleeper)
    requires s in c.sleepers
    ensures s in Advanced(c, span).sleepers || (s in Woken(c, span) && s.at <= c.now + span)
  {
    SiftedExactly(c.sleepers, c.now + span, true);
    SiftedExactly(c.sleepers, c.now + span, false);
  }

  lemma StillWokenSince(before: seq<Op>, last: Op, i: nat, s: Sleeper)
    requires WokenSince(before, i, s)
    ensures WokenSince(before + [last], i, s)
  {
    var j :| i < j < |before| && WokenAt(before, j, s);
    assert (before + [last])[..j] == before[..j];
    assert WokenAt(before + [last], j, s);
  }

  /** No wakeup is lost: a sleep that was parked is still parked, its time not yet come, or some advance
      since then has woken it, having reached its time. */
  lemma {:induction false} NoWakeupLost(ops: seq<Op>, i: nat)
    requires i < |ops| && ops[i].Polling? && After(ops[..i]).now < ops[i].sleeper.at
    ensures var s := ops[i].sleeper;
      (s in After(ops).sleepers && After(ops).now < s.at) || WokenSince(ops, i, s)
    decreases |ops|
  {
    NobodyOversleeps(ops);
    if i < |ops| - 1 {
      var before, last := ops[..|ops| - 1], ops[|ops| - 1];
      assert before[..i] == ops[..i] && before + [last] == ops;
      NoWakeupLost(before, i);
      NotLostInTheLast(before, last, i, ops[i].sleeper);
    }
  }

  lemma NotLostInTheLast(before: seq<Op>, last: Op, i: nat, s: Sleeper)
    requires i < |before| && (s in After(before).sleepers || WokenSince(before, i, s))
    ensures s in After(before + [last]).sleepers || WokenSince(before + [last], i, s)
  {
    var ops := before + [last];
    assert ops[..|before|] == before;
    if WokenSince(before, i, s) {
      StillWokenSince(before, last, i, s);
    } else if last.Advancing? {
      AdvanceLosesNobody(After(before), last.span, s);
      if s !in After(ops).sleepers { assert WokenAt(ops, |before|, s); }
    }
  }

  /** How far the clock has been moved. */
  function Elapsed(ops: seq<Op>): nat {
    if ops == [] then 0
    else Elapsed(ops[..|ops| - 1]) + match ops[|ops| - 1] case Advancing(span) => span case Polling(_) => 0
  }

  /** The clock reads the sum of the spans by which it was moved, whatever was polled in between. */
  lemma {:induction false} ClockReadsTheSpans(ops: seq<Op>)
    ensures After(ops).now == Elapsed(ops)
    decreases |ops|
  {
    if ops != [] { ClockReadsTheSpans(ops[..|ops| - 1]); }
  }

  /** `part` is what is found in `whole` at the places `at`, in their order. */
  ghost predicate PickedAt(part: seq<Sleeper>, whole: seq<Sleeper>, at: seq<nat>) {
    && |at| == |part| && (forall i :: 0 <= i < |at| ==> at[i] < |whole| && part[i] == whole[at[i]])
    && forall i, j :: 0 <= i < j < |at| ==> at[i] < at[j]
  }

  lemma {:induction false} SiftedInOrder(s: seq<Sleeper>, now: nat, due: bool) returns (at: seq<nat>)
    ensures PickedAt(Sifted(s, now, due), s, at)
    ensures forall i :: i in at <==> 0 <= i < |s| && ((s[i].at <= now) == due)
  {
    at := [];
    if s != [] {
      at := SiftedInOrder(s[..|s| - 1], now, due);
      if (s[|s| - 1].at <= now) == due { at := at + [|s| - 1]; }
    }
  }

  /** An advance parts the sleeps without disturbing their order: those whose time the clock has reached are
      woken, the others sleep on, each one of them where it stood among its like. */
  lemma AdvancesInOrder(c: Clock, span: nat) returns (woken: seq<nat>, asleep: seq<nat>)
    ensures PickedAt(Woken(c, span), c.sleepers, woken) && PickedAt(Advanced(c, span).sleepers, c.sleepers, asleep)
    ensures forall i :: 0 <= i < |c.sleepers| ==>
      (i in woken <==> c.sleepers[i].at <= c.now + span) && (i in asleep <==> c.now + span < c.sleepers[i].at)
  {
    woken := SiftedInOrder(c.sleepers, c.now + span, true);
    asleep := SiftedInOrder(c.sleepers, c.now + span, false);
  }
}
