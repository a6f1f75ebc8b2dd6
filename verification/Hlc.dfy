// Hybrid logical clocks (hlc/hlc.go, hlc/timestamp.go): a physical and a logical part, packed into
// 64 bits on the wire, and causality over runs of many nodes.

module HybridClocks {

  // ---- timestamps ------------------------------------------------------------------------------------------

  const P16 := 0x1_0000
  const P47 := 0x8000_0000_0000
  const P48 := 0x1_0000_0000_0000
  const P64 := 0x1_0000_0000_0000_0000

  /** The value a 16-bit (64-bit) signed integer holds. */
  function Wrap16(x: int): int { (x + P16 / 2) % P16 - P16 / 2 }

  function Wrap64(x: int): int { (x + P64 / 2) % P64 - P64 / 2 }

  datatype Timestamp = Timestamp(physical: int, logical: int)
  {
    /** An int64 and an int16. */
    predicate Typed() { -(P64 / 2) <= physical < P64 / 2 && -(P16 / 2) <= logical < P16 / 2 }

    /** The logical part has not overflowed, and the physical part fits into 48 bits. */
    predicate Fits() { -P47 <= physical < P47 && 0 <= logical < P16 / 2 }

    function Compare(t: Timestamp): int {
      if physical > t.physical then 1
      else if physical < t.physical then -1
      else if logical > t.logical then 1
      else if logical < t.logical then -1
      else 0
    }

    predicate Less(t: Timestamp) { Compare(t) == -1 }

    function IncrementLogical(): Timestamp { this.(logical := Wrap16(logical + 1)) }

    /** The physical part shifted left by 16, or-ed with the sign-extended logical part: a negative logical part
        has every bit above the 16th set and covers the physical part. */
    function ToInt64(): int {
      if logical >= 0 then Wrap64(physical * P16) + logical else logical
    }
  }

  function NewTimestampI64(h: int): Timestamp { Timestamp(h / P16, Wrap16(h % P16)) }

  lemma WrapFits(x: int)
    requires -(P64 / 2) <= x < P64 / 2
    ensures Wrap64(x) == x
  {
  }

  lemma Wrap16Fits(x: int)
    requires -(P16 / 2) <= x < P16 / 2
    ensures Wrap16(x) == x
  {
  }

  /** Shifting by 16 keeps the low 48 bits of the physical part. */
  lemma ShiftKeeps48(p: int) returns (q: int)
    ensures Wrap64(p * P16) == q * P16 && -P47 <= q < P47 && (q == p <==> -P47 <= p < P47)
  {
    q := (p + P47) % P48 - P47;
    var d := (p + P47) / P48;
    assert p + P47 == d * P48 + (p + P47) % P48;
    assert p * P16 + P64 / 2 == d * P64 + (q + P47) * P16;
    assert (p * P16 + P64 / 2) % P64 == (q + P47) * P16;
  }

  /** Unpacking what was packed gives the timestamp back exactly when it fits, or when the physical part is the -1
      that a negative logical part reads as. */
  lemma RoundTripIff(t: Timestamp)
    requires t.Typed()
    ensures NewTimestampI64(t.ToInt64()) == t <==> t.Fits() || (t.logical < 0 && t.physical == -1)
  {
    if t.logical >= 0 {
      var q := ShiftKeeps48(t.physical);
      assert t.ToInt64() == q * P16 + t.logical;
      Wrap16Fits(t.logical);
    } else {
      assert t.logical / P16 == -1 && t.logical % P16 == t.logical + P16;
    }
  }

  /** Packing keeps the order. */
  lemma PackingOrders(t: Timestamp, u: Timestamp)
    requires t.Fits() && u.Fits()
    ensures t.Less(u) <==> t.ToInt64() < u.ToInt64()
    ensures t == u <==> t.ToInt64() == u.ToInt64()
  {
    WrapFits(t.physical * P16);
    WrapFits(u.physical * P16);
  }

  // ---- the clock ---------------------------------------------------------------------------------------------

  function Ticked(c: Timestamp, pt: int): Timestamp {
    if c.physical >= pt then c.IncrementLogical() else Timestamp(pt, 0)
  }

  function Received(c: Timestamp, t: Timestamp, pt: int): Timestamp {
    if pt > c.physical && pt > t.physical then Timestamp(pt, 0)
    else if t.physical > c.physical then Timestamp(t.physical, Wrap16(t.logical + 1))
    else if c.physical > t.physical then c.IncrementLogical()
    else (if t.logical > c.logical then c.(logical := t.logical) else c).IncrementLogical()
  }

  class HLC {
    var currentHLC: Timestamp

    constructor (pt: int)
      ensures currentHLC == Timestamp(pt, 0)
    {
      currentHLC := Timestamp(pt, 0);
    }

    /** pt is the reading of the wall clock. */
    method Now(pt: int) returns (t: Timestamp)
      modifies this
      ensures t == currentHLC == Ticked(old(currentHLC), pt)
    {
      if currentHLC.physical >= pt {
        currentHLC := currentHLC.IncrementLogical();
      } else {
        currentHLC := currentHLC.(physical := pt);
        currentHLC := currentHLC.(logical := 0);
      }
      return currentHLC;
    }

    method Update(t: Timestamp, pt: int) returns (r: Timestamp)
      modifies this
      ensures r == currentHLC == Received(old(currentHLC), t, pt)
    {
      if pt > currentHLC.physical && pt > t.physical {
        currentHLC := currentHLC.(physical := pt);
        currentHLC := currentHLC.(logical := 0);
        return currentHLC;
      }
      if t.physical > currentHLC.physical {
        currentHLC := currentHLC.(physical := t.physical);
        currentHLC := currentHLC.(logical := Wrap16(t.logical + 1));
      } else if currentHLC.physical > t.physical {
        currentHLC := currentHLC.IncrementLogical();
      } else {
        if t.logical > currentHLC.logical {
          currentHLC := currentHLC.(logical := t.logical);
        }
        currentHLC := currentHLC.IncrementLogical();
      }
      return currentHLC;
    }
  }

  predicate AtLeast(t: Timestamp, u: Timestamp) { t == u || u.Less(t) }

  lemma NoWrap(l: int)
    requires -(P16 / 2) <= l < P16 / 2
    ensures Wrap16(l + 1) == if l + 1 < P16 / 2 then l + 1 else -(P16 / 2)
  {
    if l + 1 < P16 / 2 {
      Wrap16Fits(l + 1);
    } else {
      assert l == 32767;
    }
  }

  /** Now has room: the reading is newer than the clock, or the logical part can still be incremented. */
  predicate TickFits(c: Timestamp, pt: int) { c.physical < pt || c.logical + 1 < P16 / 2 }

  /** Update has room: the reading is newer than both, or every logical part that is incremented can be. */
  predicate ReceiptFits(c: Timestamp, t: Timestamp, pt: int) {
    || (pt > c.physical && pt > t.physical)
    || ((t.physical >= c.physical ==> t.logical + 1 < P16 / 2) &&
        (c.physical >= t.physical ==> c.logical + 1 < P16 / 2))
  }

  /** A tick is ahead of the clock exactly when it has room, whatever the clock and the reading. */
  lemma NowAdvancesIff(c: Timestamp, pt: int)
    requires c.Typed()
    ensures c.Less(Ticked(c, pt)) <==> TickFits(c, pt)
  {
    NoWrap(c.logical);
  }

  /** A receipt is ahead of both the clock and the message exactly when it has room. */
  lemma UpdateAdvancesIff(c: Timestamp, t: Timestamp, pt: int)
    requires c.Typed() && t.Typed()
    ensures c.Less(Received(c, t, pt)) && t.Less(Received(c, t, pt)) <==> ReceiptFits(c, t, pt)
  {
    NoWrap(c.logical);
    NoWrap(t.logical);
  }

  /** The clock runs backwards at the largest logical part: by a tick, and by a message as late as itself. */
  lemma FullClockRunsBack(pt: int)
    ensures var c := Timestamp(pt, P16 / 2 - 1);
            Ticked(c, pt) == Received(c, c, pt) == Timestamp(pt, -(P16 / 2)) && Timestamp(pt, -(P16 / 2)).Less(c)
  {
    NoWrap(P16 / 2 - 1);
  }

  /** With room, a tick is the least timestamp past the clock that is not behind the reading. */
  lemma TickIsLeast(c: Timestamp, pt: int, t: Timestamp)
    requires c.Fits() && t.Fits() && TickFits(c, pt)
    ensures c.Less(Ticked(c, pt)) && pt <= Ticked(c, pt).physical
    ensures c.Less(t) && pt <= t.physical ==> AtLeast(t, Ticked(c, pt))
  {
    NoWrap(c.logical);
  }

  /** With room, a receipt is the least timestamp past both clock and message that is not behind the reading. */
  lemma ReceiptIsLeast(c: Timestamp, m: Timestamp, pt: int, t: Timestamp)
    requires c.Fits() && m.Fits() && t.Fits() && ReceiptFits(c, m, pt)
    ensures c.Less(Received(c, m, pt)) && m.Less(Received(c, m, pt)) && pt <= Received(c, m, pt).physical
    ensures c.Less(t) && m.Less(t) && pt <= t.physical ==> AtLeast(t, Received(c, m, pt))
  {
    NoWrap(c.logical);
    NoWrap(m.logical);
  }

  // ---- distributed runs ----------------------------------------------------------------------------------------

  /** A node stamps a message it sends (or anything else), or receives the message stamped by an earlier event. */
  datatype Event = Send(node: int, pt: int) | Receive(node: int, pt: int, from: nat)

  /** Every message received was sent before, and every node's clock was started. */
  ghost predicate IsRun(start: map<int, int>, es: seq<Event>) {
    forall k :: 0 <= k < |es| ==> es[k].node in start && (es[k].Receive? ==> es[k].from < k && es[es[k].from].Send?)
  }

  /** The clock of node n just before event k. */
  function Clock(start: map<int, int>, es: seq<Event>, k: nat, n: int): Timestamp
    requires IsRun(start, es) && k <= |es| && n in start
    decreases k, 0
  {
    if k == 0 then Timestamp(start[n], 0)
    else if es[k - 1].node == n then Stamp(start, es, k - 1)
    else Clock(start, es, k - 1, n)
  }

  /** The timestamp event k returns; a message carries its own packed into 64 bits. */
  function Stamp(start: map<int, int>, es: seq<Event>, k: nat): Timestamp
    requires IsRun(start, es) && k < |es|
    decreases k, 1
  {
    var c := Clock(start, es, k, es[k].node);
    match es[k]
    case Send(_, pt) => Ticked(c, pt)
    case Receive(_, pt, from) => Received(c, NewTimestampI64(Stamp(start, es, from).ToInt64()), pt)
  }

  /** Readings are non-negative and fit 48 bits; they may run backwards. */
  ghost predicate Readable(start: map<int, int>, es: seq<Event>) {
    (forall n :: n in start ==> 0 <= start[n] < P47) && forall k :: 0 <= k < |es| ==> 0 <= es[k].pt < P47
  }

  /** The timestamp that the message of event k carries to its receivers. */
  function Carried(start: map<int, int>, es: seq<Event>, k: nat): Timestamp
    requires IsRun(start, es) && k < |es|
  {
    NewTimestampI64(Stamp(start, es, k).ToInt64())
  }

  /** The call of Now or Update at event k finds room in the logical parts it is about to increment. */
  ghost predicate Fitting(start: map<int, int>, es: seq<Event>, k: nat)
    requires IsRun(start, es) && k < |es|
  {
    var c := Clock(start, es, k, es[k].node);
    match es[k]
    case Send(_, pt) => TickFits(c, pt)
    case Receive(_, pt, from) => ReceiptFits(c, Carried(start, es, from), pt)
  }

  /** Every call before event k found room. */
  ghost predicate NoOverflow(start: map<int, int>, es: seq<Event>, k: nat)
    requires IsRun(start, es) && k <= |es|
  {
    forall i :: 0 <= i < k ==> Fitting(start, es, i)
  }

  /** The reading pt was taken by some node at its start or in the first k events. */
  ghost predicate WasRead(start: map<int, int>, es: seq<Event>, k: nat, pt: int)
    requires k <= |es|
  {
    (exists n :: n in start && start[n] == pt) || exists i :: 0 <= i < k && es[i].pt == pt
  }

  lemma StampIs(start: map<int, int>, es: seq<Event>, k: nat)
    requires IsRun(start, es) && k < |es|
    ensures var c := Clock(start, es, k, es[k].node);
            && (es[k].Send? ==> Stamp(start, es, k) == Ticked(c, es[k].pt))
            && (es[k].Receive? ==> Stamp(start, es, k) == Received(c, Carried(start, es, es[k].from), es[k].pt))
  {
  }

  /** With room, what fits stays fitting. */
  lemma StaysFitting(c: Timestamp, t: Timestamp, pt: int)
    requires c.Fits() && t.Fits() && 0 <= pt < P47
    ensures TickFits(c, pt) ==> Ticked(c, pt).Fits() && c.Less(Ticked(c, pt))
    ensures var r := Received(c, t, pt); ReceiptFits(c, t, pt) ==> r.Fits() && c.Less(r) && t.Less(r)
  {
    NoWrap(c.logical);
    NoWrap(t.logical);
  }

  /** The physical part of every clock is a reading that some node has taken: it never runs ahead of them all. */
  lemma {:induction false} PhysicalWasRead(start: map<int, int>, es: seq<Event>, k: nat, n: int)
    requires IsRun(start, es) && k <= |es| && n in start && Readable(start, es) && NoOverflow(start, es, k)
    ensures var c := Clock(start, es, k, n);
            WasRead(start, es, k, c.physical) && c.Fits() && c.physical >= 0
    decreases k, 0
  {
    if k > 0 {
      if es[k - 1].node == n {
        StampWasRead(start, es, k - 1);
      } else {
        PhysicalWasRead(start, es, k - 1, n);
      }
    }
  }

  lemma {:induction false} StampWasRead(start: map<int, int>, es: seq<Event>, k: nat)
    requires IsRun(start, es) && k < |es| && Readable(start, es) && NoOverflow(start, es, k + 1)
    ensures var t := Stamp(start, es, k);
            WasRead(start, es, k + 1, t.physical) && t.Fits() && t.physical >= 0
    decreases k, 1
  {
    var c := Clock(start, es, k, es[k].node);
    PhysicalWasRead(start, es, k, es[k].node);
    StampIs(start, es, k);
    assert Fitting(start, es, k);
    if es[k].Send? {
      StaysFitting(c, c, es[k].pt);
    } else {
      var m := Stamp(start, es, es[k].from);
      StampWasRead(start, es, es[k].from);
      RoundTripIff(m);
      StaysFitting(c, m, es[k].pt);
    }
  }

  /** An event's timestamp is ahead of its node's clock, and a receipt's ahead of the message's. */
  lemma StampAdvances(start: map<int, int>, es: seq<Event>, k: nat)
    requires IsRun(start, es) && k < |es| && Readable(start, es) && NoOverflow(start, es, k + 1)
    ensures Clock(start, es, k, es[k].node).Less(Stamp(start, es, k))
    ensures es[k].Receive? ==> Stamp(start, es, es[k].from).Less(Stamp(start, es, k))
  {
    var c := Clock(start, es, k, es[k].node);
    PhysicalWasRead(start, es, k, es[k].node);
    StampIs(start, es, k);
    assert Fitting(start, es, k);
    if es[k].Send? {
      StaysFitting(c, c, es[k].pt);
    } else {
      var m := Stamp(start, es, es[k].from);
      StampWasRead(start, es, es[k].from);
      RoundTripIff(m);
      StaysFitting(c, m, es[k].pt);
    }
  }

  /** A node's clock never falls behind one of its own timestamps. */
  lemma {:induction false} ClockKeepsUp(start: map<int, int>, es: seq<Event>, i: nat, k: nat)
    requires IsRun(start, es) && i < k <= |es| && Readable(start, es) && NoOverflow(start, es, k)
    ensures AtLeast(Clock(start, es, k, es[i].node), Stamp(start, es, i))
    decreases k
  {
    if k > i + 1 {
      ClockKeepsUp(start, es, i, k - 1);
      if es[k - 1].node == es[i].node {
        StampAdvances(start, es, k - 1);
      }
    }
  }

  ghost predicate DirectlyBefore(es: seq<Event>, i: nat, j: nat)
    requires i < |es| && j < |es|
  {
    i < j && (es[i].node == es[j].node || (es[j].Receive? && es[j].from == i))
  }

  /** Lamport's order: through events of one node and through messages. */
  ghost predicate HappensBefore(es: seq<Event>, i: nat, j: nat)
    requires i < |es| && j < |es|
    decreases j
  {
    DirectlyBefore(es, i, j) || exists k :: 0 <= k < j && DirectlyBefore(es, k, j) && HappensBefore(es, i, k)
  }

  lemma DirectlyBeforeIsLess(start: map<int, int>, es: seq<Event>, i: nat, j: nat)
    requires IsRun(start, es) && i < |es| && j < |es| && DirectlyBefore(es, i, j)
    requires Readable(start, es) && NoOverflow(start, es, j + 1)
    ensures Stamp(start, es, i).Less(Stamp(start, es, j))
  {
    StampAdvances(start, es, j);
    if es[i].node == es[j].node {
      ClockKeepsUp(start, es, i, j);
    }
  }

  /** In every run without overflow, whatever happens before gets the smaller timestamp, in either form. */
  lemma {:induction false} CausalityIsKept(start: map<int, int>, es: seq<Event>, i: nat, j: nat)
    requires IsRun(start, es) && i < |es| && j < |es| && HappensBefore(es, i, j)
    requires Readable(start, es) && NoOverflow(start, es, j + 1)
    ensures Stamp(start, es, i).Less(Stamp(start, es, j))
    ensures i <= j && Stamp(start, es, i).ToInt64() < Stamp(start, es, j).ToInt64()
    decreases j
  {
    if DirectlyBefore(es, i, j) {
      DirectlyBeforeIsLess(start, es, i, j);
    } else {
      var k :| 0 <= k < j && DirectlyBefore(es, k, j) && HappensBefore(es, i, k);
      CausalityIsKept(start, es, i, k);
      DirectlyBeforeIsLess(start, es, k, j);
    }
    StampWasRead(start, es, i);
    StampWasRead(start, es, j);
    PackingOrders(Stamp(start, es, i), Stamp(start, es, j));
  }

  // ---- exactly the runs without overflow keep causality ----------------------------------------------------------

  ghost predicate CausalityKept(start: map<int, int>, es: seq<Event>)
    requires IsRun(start, es)
  {
    forall i: nat, j: nat :: i < |es| && j < |es| && HappensBefore(es, i, j) ==>
      Stamp(start, es, i).Less(Stamp(start, es, j))
  }

  /** A clock whose logical part has grown shows the timestamp of an event of its node. */
  lemma {:induction false} ClockIsStamp(start: map<int, int>, es: seq<Event>, k: nat, n: int) returns (i: nat)
    requires IsRun(start, es) && k <= |es| && n in start && Clock(start, es, k, n).logical != 0
    ensures i < k && es[i].node == n && Stamp(start, es, i) == Clock(start, es, k, n)
    decreases k
  {
    assert k > 0;
    if es[k - 1].node == n {
      i := k - 1;
    } else {
      i := ClockIsStamp(start, es, k - 1, n);
    }
  }

  /** The first call without room returns a timestamp behind one that happened before it. */
  lemma OverflowBreaks(start: map<int, int>, es: seq<Event>, k: nat) returns (i: nat)
    requires IsRun(start, es) && k < |es| && Readable(start, es)
    requires NoOverflow(start, es, k) && !Fitting(start, es, k)
    ensures i < k && DirectlyBefore(es, i, k) && !Stamp(start, es, i).Less(Stamp(start, es, k))
  {
    var c, pt := Clock(start, es, k, es[k].node), es[k].pt;
    PhysicalWasRead(start, es, k, es[k].node);
    StampIs(start, es, k);
    NowAdvancesIff(c, pt);
    if es[k].Receive? {
      i := es[k].from;
      var m := Stamp(start, es, i);
      StampWasRead(start, es, i);
      RoundTripIff(m);
      UpdateAdvancesIff(c, m, pt);
      if !m.Less(Stamp(start, es, k)) { return; }
    }
    i := ClockIsStamp(start, es, k, es[k].node);
  }

  lemma {:induction false} FirstOverflow(start: map<int, int>, es: seq<Event>, n: nat) returns (k: nat)
    requires IsRun(start, es) && n <= |es| && !NoOverflow(start, es, n)
    ensures k < n && NoOverflow(start, es, k) && !Fitting(start, es, k)
    decreases n
  {
    if NoOverflow(start, es, n - 1) {
      k := n - 1;
    } else {
      k := FirstOverflow(start, es, n - 1);
    }
  }

  /** A run keeps causality if and only if every call found room in the logical parts it incremented. */
  lemma CausalityKeptIff(start: map<int, int>, es: seq<Event>)
    requires IsRun(start, es) && Readable(start, es)
    ensures CausalityKept(start, es) <==> NoOverflow(start, es, |es|)
  {
    if NoOverflow(start, es, |es|) {
      forall i: nat, j: nat | i < |es| && j < |es| && HappensBefore(es, i, j)
        ensures Stamp(start, es, i).Less(Stamp(start, es, j))
      {
        CausalityIsKept(start, es, i, j);
      }
    } else {
      var k := FirstOverflow(start, es, |es|);
      var i := OverflowBreaks(start, es, k);
      assert HappensBefore(es, i, k);
    }
  }

  // ---- how long a run is safe ----------------------------------------------------------------------------------

  lemma AtMostOneMore(c: Timestamp, t: Timestamp, pt: int)
    requires c.Fits() && t.Fits()
    ensures Ticked(c, pt).logical <= c.logical + 1
    ensures Received(c, t, pt).logical <= (if t.logical > c.logical then t.logical else c.logical) + 1
  {
    NoWrap(c.logical);
    NoWrap(t.logical);
  }

  lemma {:induction false} LogicalGrowsByOne(start: map<int, int>, es: seq<Event>, k: nat, n: int)
    requires IsRun(start, es) && k <= |es| && n in start && Readable(start, es) && NoOverflow(start, es, k)
    ensures Clock(start, es, k, n).logical <= k
    ensures forall i :: 0 <= i < k ==> Stamp(start, es, i).logical <= i + 1
    decreases k
  {
    if k > 0 {
      var e := es[k - 1];
      var c := Clock(start, es, k - 1, e.node);
      LogicalGrowsByOne(start, es, k - 1, n);
      LogicalGrowsByOne(start, es, k - 1, e.node);
      PhysicalWasRead(start, es, k - 1, e.node);
      StampIs(start, es, k - 1);
      if e.Receive? {
        StampWasRead(start, es, e.from);
        RoundTripIff(Stamp(start, es, e.from));
        AtMostOneMore(c, Stamp(start, es, e.from), e.pt);
      } else {
        AtMostOneMore(c, c, e.pt);
      }
    }
  }

  /** A run of fewer than 2^15 events has room throughout, however the clocks behave. */
  lemma {:induction false} ShortRunsFit(start: map<int, int>, es: seq<Event>, k: nat)
    requires IsRun(start, es) && Readable(start, es) && k <= |es| && k < P16 / 2
    ensures NoOverflow(start, es, k)
    decreases k
  {
    if k > 0 {
      ShortRunsFit(start, es, k - 1);
      LogicalGrowsByOne(start, es, k - 1, es[k - 1].node);
      if es[k - 1].Receive? {
        StampWasRead(start, es, es[k - 1].from);
        RoundTripIff(Stamp(start, es, es[k - 1].from));
      }
      assert Fitting(start, es, k - 1);
    }
  }

  /** One node whose wall clock stands still. */
  function Standstill(pt: int, n: nat): seq<Event> { seq(n, i => Send(0, pt)) }

  lemma {:induction false} StandstillCounts(pt: int, n: nat, k: nat)
    requires k < n && k + 1 < P16 / 2
    ensures IsRun(map[0 := pt], Standstill(pt, n))
    ensures Stamp(map[0 := pt], Standstill(pt, n), k) == Timestamp(pt, k + 1)
    decreases k
  {
    NoWrap(k);
    if k > 0 { StandstillCounts(pt, n, k - 1); }
  }

  /** One event more can break it: under a clock that stands still the 2^15th timestamp is behind the one before. */
  lemma LongRunsMayBreak(pt: int)
    requires 0 <= pt < P47
    ensures var es, last := Standstill(pt, P16 / 2), P16 / 2 - 1;
            && IsRun(map[0 := pt], es) && Readable(map[0 := pt], es) && |es| == P16 / 2
            && HappensBefore(es, last - 1, last)
            && !Stamp(map[0 := pt], es, last - 1).Less(Stamp(map[0 := pt], es, last))
  {
    var es, last := Standstill(pt, P16 / 2), P16 / 2 - 1;
    StandstillCounts(pt, P16 / 2, last - 1);
    StampIs(map[0 := pt], es, last);
    NowAdvancesIff(Timestamp(pt, last), pt);
    assert DirectlyBefore(es, last - 1, last);
  }
}
