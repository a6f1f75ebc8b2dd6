// The linearizability checker (checker.go, operation.go) over the graph of lib/graph.go.
//
// Module Histories says what histories are and what the checker's graph must keep to; module
// Checkers runs the algorithm on the graph.

module Histories {
  import opened Graphs
  import opened Sequences
  import opened Store

  class Operation {
    const input: Value
    const output: Value
    const start: int
    var end: int

    constructor (input: Value, output: Value, start: int, end: int)
      ensures this.input == input && this.output == output && this.start == start && this.end == end
    {
      this.input, this.output, this.start, this.end := input, output, start, end;
    }

    predicate HappenBefore(b: Operation) reads this { end < b.start }

    predicate Concurrent(b: Operation) reads this, b { !HappenBefore(b) && !b.HappenBefore(this) }

    predicate IsRead() { input == Nil }
  }

  function Ops(h: seq<Operation>): set<Operation> { set o | o in h }

  function Ends(ops: set<Operation>): map<Operation, int> reads ops { map o | o in ops :: o.end }

  predicate Reads(r: Operation, w: Operation) { r.IsRead() && !w.IsRead() && r.output.Equals(w.input) }

  // ---- linearizations -------------------------------------------------------------------------

  /** Reads return something; writes return nothing and write distinct non-empty values. */
  ghost predicate WellFormed(ops: set<Operation>, end: map<Operation, int>) {
    && end.Keys == ops
    && (forall o :: o in ops ==> o.start <= end[o])
    && (forall o :: o in ops ==> if o.IsRead() then o.output.Content() != []
        else o.output == Nil && o.input.Content() != [])
    && (forall x, y :: x in ops && y in ops && !x.IsRead() && !y.IsRead() && x.input.Equals(y.input) ==> x == y)
  }

  /** What a register that starts with init holds after these operations. */
  function Held(order: seq<Operation>, init: Value): Value
    decreases |order|
  {
    if order == [] then init
    else
      var last := order[|order| - 1];
      if last.IsRead() then Held(order[..|order| - 1], init) else last.input
  }

  /** No operation comes after one that started once it had ended. */
  ghost predicate RealTime(end: map<Operation, int>, order: seq<Operation>) {
    Ops(order) <= end.Keys && forall i, j :: 0 <= i < j < |order| ==> order[i].start <= end[order[j]]
  }

  /** Every read returns what the register holds. */
  ghost predicate Legal(order: seq<Operation>, init: Value) {
    forall i :: 0 <= i < |order| && order[i].IsRead() ==> order[i].output.Equals(Held(order[..i], init))
  }

  /** order is a sequential run of a register, starting from a value nobody writes, that respects real time. */
  ghost predicate Linearization(ops: set<Operation>, end: map<Operation, int>, order: seq<Operation>, init: Value) {
    && WellFormed(ops, end) && Ops(order) == ops && Distinct(order)
    && (forall w :: w in ops && !w.IsRead() ==> !w.input.Equals(init))
    && RealTime(end, order) && Legal(order, init)
  }

  // ---- ranks ----------------------------------------------------------------------------------

  ghost predicate Unsourced(ops: set<Operation>, r: Operation) {
    r.IsRead() && forall w :: w in ops ==> !Reads(r, w)
  }

  /** Read r ranks after the write it returns, and write x is not between them; an unsourced read ranks below x. */
  ghost predicate PairOk(ops: set<Operation>, rank: map<Operation, int>, r: Operation, x: Operation)
    requires rank.Keys == ops && r in ops && x in ops
  {
    && (forall w :: w in ops && Reads(r, w) ==>
          rank[w] < rank[r] && (x != w && rank[x] < rank[r] ==> rank[x] < rank[w]))
    && (Unsourced(ops, r) ==> rank[r] < rank[x])
  }

  ghost predicate Explains(ops: set<Operation>, rank: map<Operation, int>) {
    && rank.Keys == ops
    && forall r, x :: r in ops && r.IsRead() && x in ops && !x.IsRead() ==> PairOk(ops, rank, r, x)
  }

  /** Ending before another starts means ranking below it. */
  ghost predicate Timely(ops: set<Operation>, end: map<Operation, int>, rank: map<Operation, int>) {
    && end.Keys == rank.Keys == ops
    && forall x, y :: x in ops && y in ops && end[x] < y.start ==> rank[x] < rank[y]
  }

  ghost function Ranks(order: seq<Operation>): map<Operation, int>
    decreases |order|
  {
    if order == [] then map[] else Ranks(order[..|order| - 1])[order[|order| - 1] := |order| - 1]
  }

  lemma {:induction false} RanksAt(order: seq<Operation>)
    requires Distinct(order)
    ensures Ranks(order).Keys == Ops(order)
    ensures forall i :: 0 <= i < |order| ==> Ranks(order)[order[i]] == i
  {
    if order != [] {
      var front := order[..|order| - 1];
      RanksAt(front);
      assert forall i :: 0 <= i < |front| ==> order[i] == front[i];
      assert Ops(order) == Ops(front) + {order[|order| - 1]};
    }
  }

  /** The register holds init until the first write, and then the latest value written. */
  lemma {:induction false} HeldIsLatest(order: seq<Operation>, init: Value) returns (k: int)
    ensures -1 <= k < |order| && Held(order, init) == if k < 0 then init else order[k].input
    ensures k >= 0 ==> !order[k].IsRead()
    ensures forall i :: k < i < |order| ==> order[i].IsRead()
    decreases |order|
  {
    if order == [] {
      k := -1;
    } else if order[|order| - 1].IsRead() {
      var front := order[..|order| - 1];
      k := HeldIsLatest(front, init);
      assert forall i :: k < i < |front| ==> order[i] == front[i];
    } else {
      k := |order| - 1;
    }
  }

  lemma ReadExplained(ops: set<Operation>, end: map<Operation, int>, order: seq<Operation>, init: Value, i: nat,
                      x: Operation)
    requires WellFormed(ops, end) && Ops(order) == ops && Distinct(order) && i < |order| && order[i].IsRead()
    requires order[i].output.Equals(Held(order[..i], init))
    requires x in ops && !x.IsRead() && forall w :: w in ops && !w.IsRead() ==> !w.input.Equals(init)
    ensures var rank := Ranks(order); rank.Keys == ops
    ensures order[i] in ops && PairOk(ops, Ranks(order), order[i], x)
  {
    RanksAt(order);
    var r := order[i];
    var k := HeldIsLatest(order[..i], init);
    var j :| 0 <= j < |order| && order[j] == x;
    if j < i {
      assert order[..i][j] == x;
      assert k >= j;
    }
    if k >= 0 {
      assert order[..i][k] == order[k] && order[k] in ops;
      assert Reads(r, order[k]);
    }
  }

  /** Operations in the order's own order keep real time. */
  lemma OrderIsTimely(ops: set<Operation>, end: map<Operation, int>, order: seq<Operation>)
    requires RealTime(end, order) && Distinct(order) && Ops(order) == ops == end.Keys
    requires forall o :: o in ops ==> o.start <= end[o]
    ensures Timely(ops, end, Ranks(order))
  {
    RanksAt(order);
    forall x, y | x in ops && y in ops && end[x] < y.start ensures Ranks(order)[x] < Ranks(order)[y] {
      var i :| 0 <= i < |order| && order[i] == x;
      var j :| 0 <= j < |order| && order[j] == y;
      assert x.start <= end[x];
    }
  }

  lemma PairExplained(ops: set<Operation>, end: map<Operation, int>, order: seq<Operation>, init: Value, r: Operation,
                      x: Operation)
    requires Linearization(ops, end, order, init) && r in ops && r.IsRead() && x in ops && !x.IsRead()
    ensures Ranks(order).Keys == ops && PairOk(ops, Ranks(order), r, x)
  {
    var i :| 0 <= i < |order| && order[i] == r;
    ReadExplained(ops, end, order, init, i, x);
  }

  lemma LinearizationExplains(ops: set<Operation>, end: map<Operation, int>, order: seq<Operation>, init: Value)
    requires Linearization(ops, end, order, init)
    ensures Explains(ops, Ranks(order)) && Timely(ops, end, Ranks(order))
  {
    RanksAt(order);
    OrderIsTimely(ops, end, order);
    forall r, x | r in ops && r.IsRead() && x in ops && !x.IsRead() ensures PairOk(ops, Ranks(order), r, x) {
      PairExplained(ops, end, order, init, r, x);
    }
  }
}

// What the checker's graph keeps to while a history is worked off, as facts about values.

module CheckerGraph {
  import opened Graphs
  import opened Sequences
  import opened Store
  import opened Histories

  /** The graph's edges and the operations' end times, some of them cut short. */
  datatype View = View(from: map<Operation, set<Operation>>, end: map<Operation, int>)

  /** add: operation o joins the graph behind everything in it that ended before it started. */
  ghost function Joined(v: View, o: Operation): View
    requires v.from.Keys <= v.end.Keys
  {
    if o in v.from then v
    else v.(from := map u | u in v.from.Keys + {o} ::
              if u == o then {} else if v.end[u] < o.start then v.from[u] + {o} else v.from[u])
  }

  /** merge: write w inherits the edges into its read r and ends no later than r; r leaves the graph. */
  ghost function Merged(v: View, r: Operation, w: Operation): View
    requires r in v.end && w in v.end
  {
    View(map u | u in v.from && u != r :: (if r in v.from[u] && u != w then v.from[u] + {w} else v.from[u]) - {r},
         v.end[w := if v.end[r] < v.end[w] then v.end[r] else v.end[w]])
  }

  // ---- what must come before what ---------------------------------------------------------------

  /** Histories the checker can judge: reads return written or initial values, not values from the future. */
  ghost predicate Plausible(ops: set<Operation>, end: map<Operation, int>) {
    WellFormed(ops, end) && forall r, w :: r in ops && w in ops && Reads(r, w) ==> w.start <= end[r]
  }

  /** x took effect before time t: it ended, or a read of it ended. */
  ghost predicate Settled(ops: set<Operation>, end: map<Operation, int>, x: Operation, t: int)
    requires x in ops && end.Keys == ops
  {
    end[x] < t || exists q :: q in ops && Reads(q, x) && end[q] < t
  }

  /** Write x must precede write y: y starts after x ended, or some read of y starts after x is settled. */
  ghost predicate Before(ops: set<Operation>, end: map<Operation, int>, done: set<Operation>, x: Operation,
                         y: Operation)
    requires x in ops && end.Keys == ops
  {
    && x != y && !x.IsRead() && !y.IsRead()
    && (end[x] < y.start || exists r :: r in done && Reads(r, y) && Settled(ops, end, x, r.start))
  }

  ghost function MustPrecede(ops: set<Operation>, end: map<Operation, int>): map<Operation, set<Operation>>
    requires end.Keys == ops
  {
    map x | x in ops && !x.IsRead() :: set y | y in ops && Before(ops, end, ops, x, y)
  }

  // ---- refuted reads ------------------------------------------------------------------------------

  ghost function EarlierReads(ops: set<Operation>, t: int): set<Operation> {
    set q | q in ops && q.IsRead() && q.start < t
  }

  /** The writes that a read has to be placed among. */
  ghost function Known(ops: set<Operation>, r: Operation): set<Operation> {
    set x | x in ops && !x.IsRead() && (x.start < r.start || Reads(r, x))
  }

  /**
   * By real time or by the reads up to r, x must precede y; demands of earlier reads count only if y was not settled
   * already when x started.
   */
  ghost predicate Demands(ops: set<Operation>, end: map<Operation, int>, r: Operation, x: Operation, y: Operation)
    requires end.Keys == ops && x in ops && y in ops
  {
    && Before(ops, end, EarlierReads(ops, r.start) + {r}, x, y)
    && (!Settled(ops, end, y, x.start) || (Reads(r, y) && Settled(ops, end, x, r.start)))
  }

  ghost function Demanded(ops: set<Operation>, end: map<Operation, int>, r: Operation)
    : map<Operation, set<Operation>>
    requires end.Keys == ops
  {
    map x | x in Known(ops, r) :: set y | y in Known(ops, r) && Demands(ops, end, r, x, y)
  }

  /** With read r the demands have a cycle. */
  ghost predicate Refuted(ops: set<Operation>, end: map<Operation, int>, r: Operation)
    requires end.Keys == ops
  {
    r.IsRead() && HasCycle(Demanded(ops, end, r))
  }

  /** Read r returns w although the later write x is settled before r starts. */
  ghost predicate Misses(ops: set<Operation>, end: map<Operation, int>, r: Operation, w: Operation, x: Operation)
    requires end.Keys == ops
  {
    w in ops && x in ops && Reads(r, w) && !x.IsRead() && end[w] < x.start && Settled(ops, end, x, r.start)
  }

  ghost predicate MissesSome(ops: set<Operation>, end: map<Operation, int>, r: Operation)
    requires end.Keys == ops
  {
    exists w, x :: w in ops && x in ops && Misses(ops, end, r, w, x)
  }

  predicate Apart(end: map<Operation, int>, x: Operation, y: Operation)
    requires x in end && y in end
  {
    end[x] < y.start || end[y] < x.start
  }

  ghost predicate MissesAtMostOne(ops: set<Operation>, end: map<Operation, int>, r: Operation, w: Operation)
    requires end.Keys == ops
  {
    forall x, y :: x in ops && y in ops && Misses(ops, end, r, w, x) && Misses(ops, end, r, w, y) ==> x == y
  }

  /** One write follows another, every read returns one of them, and none misses two. */
  ghost predicate Gentle(ops: set<Operation>, end: map<Operation, int>)
    requires end.Keys == ops
  {
    && (forall x, y :: x in ops && y in ops && !x.IsRead() && !y.IsRead() && x != y ==> Apart(end, x, y))
    && (forall r :: r in ops && r.IsRead() ==> !Unsourced(ops, r))
    && (forall r, w :: r in ops && w in ops && Reads(r, w) ==> MissesAtMostOne(ops, end, r, w))
  }

  lemma DemandedBothWays(ops: set<Operation>, end: map<Operation, int>, r: Operation, x: Operation, y: Operation)
    requires end.Keys == ops && r.IsRead() && x in Known(ops, r) && y in Known(ops, r)
    requires Demands(ops, end, r, x, y) && Demands(ops, end, r, y, x)
    ensures Refuted(ops, end, r)
  {
    var from := Demanded(ops, end, r);
    assert Walk(from, x, x, 0);
    WalkSnoc(from, x, x, y, 0);
    WalkSnoc(from, x, y, x, 1);
    assert x in from && OnCycle(from, x);
  }

  lemma SettledStarts(ops: set<Operation>, end: map<Operation, int>, x: Operation, t: int)
    requires Plausible(ops, end) && x in ops && !x.IsRead() && Settled(ops, end, x, t)
    ensures x.start < t
  {
  }

  /** A read that misses a write is refuted, whatever other reads say. */
  lemma MissingIsRefuted(ops: set<Operation>, end: map<Operation, int>, r: Operation)
    requires Plausible(ops, end) && r in ops && MissesSome(ops, end, r)
    ensures Refuted(ops, end, r)
  {
    var w, x :| w in ops && x in ops && Misses(ops, end, r, w, x);
    forall q | q in ops && Reads(q, x) ensures !(end[q] < w.start) {
      assert x.start <= end[q];
    }
    SettledStarts(ops, end, x, r.start);
    DemandedBothWays(ops, end, r, w, x);
  }

  /** After crossed reads of two writes, neither settled before the other started, every read is refuted. */
  lemma CrossedReadsRefute(ops: set<Operation>, end: map<Operation, int>, x: Operation, y: Operation, p: Operation,
                           q: Operation, r: Operation)
    requires Plausible(ops, end) && x in ops && y in ops && p in ops && q in ops && r in ops && x != y && r.IsRead()
    requires Reads(p, x) && Reads(q, y) && Settled(ops, end, y, p.start) && Settled(ops, end, x, q.start)
    requires !Settled(ops, end, x, y.start) && !Settled(ops, end, y, x.start) && p.start < r.start && q.start < r.start
    ensures Refuted(ops, end, r)
  {
    SettledStarts(ops, end, x, q.start);
    SettledStarts(ops, end, y, p.start);
    var upTo := EarlierReads(ops, r.start) + {r};
    assert p in upTo && q in upTo;
    DemandedBothWays(ops, end, r, x, y);
  }

  /** A plausible history has one write for what a read returns. */
  lemma OneSource(ops: set<Operation>, end: map<Operation, int>, r: Operation, w: Operation, x: Operation)
    requires WellFormed(ops, end) && w in ops && x in ops && Reads(r, w) && Reads(r, x)
    ensures w == x
  {
    assert w.input.Equals(x.input);
  }

  // ---- invariants -------------------------------------------------------------------------------

  /** Every edge but those to some vertices leads from a write to one that started after it had ended. */
  ghost predicate Forward(end: map<Operation, int>, v: View, but: set<Operation>) {
    forall u, y :: u in v.from && y in v.from[u] && y !in but ==> u in end && y in end && end[u] < y.start
  }

  ghost predicate ForwardOrMissed(ops: set<Operation>, end: map<Operation, int>, r: Operation, u: Operation,
                                  y: Operation)
    requires end.Keys == ops
  {
    u in ops && y in ops && (end[u] < y.start || Misses(ops, end, r, y, u))
  }

  /** The only other edges lead from a write that r misses to the one it returns. */
  ghost predicate TurnsBack(ops: set<Operation>, end: map<Operation, int>, r: Operation, v: View)
    requires end.Keys == ops
  {
    forall u, y :: u in v.from && y in v.from[u] ==> ForwardOrMissed(ops, end, r, u, y)
  }

  /** No end time was moved before its start or later than it was; those of reads were not moved at all. */
  ghost predicate EndsOk(ops: set<Operation>, end: map<Operation, int>, v: View)
    requires ops == v.end.Keys == end.Keys
  {
    forall o :: o in ops ==> o.start <= v.end[o] <= end[o] && (o.IsRead() ==> v.end[o] == end[o])
  }

  /** The writes that done reads return are in the graph and end no later than those reads. */
  ghost predicate SourcesOk(ops: set<Operation>, end: map<Operation, int>, done: set<Operation>, v: View)
    requires ops == v.end.Keys == end.Keys && done <= ops
  {
    forall r, w :: r in done && w in ops && Reads(r, w) ==> w in v.from && v.end[w] <= end[r]
  }

  /** done holds the reads already worked off, busy the one being worked off. */
  ghost predicate Base(ops: set<Operation>, end: map<Operation, int>, done: set<Operation>, busy: set<Operation>,
                       v: View) {
    && v.from.Keys <= ops && ops == v.end.Keys == end.Keys && done <= ops && Closed(v.from, v.from.Keys)
    && EndsOk(ops, end, v) && SourcesOk(ops, end, done, v)
    && forall o :: o in v.from && o.IsRead() ==> Unsourced(ops, o) || o in busy
  }

  /** Whatever starts before something the graph has dealt with has been dealt with. */
  ghost predicate Downward(ops: set<Operation>, done: set<Operation>, v: View) {
    && (forall r, x :: r in done && x in ops && x.start < r.start ==> if x.IsRead() then x in done else x in v.from)
    && (forall x, y :: x in ops && y in v.from && !x.IsRead() && !y.IsRead() && x.start < y.start ==> x in v.from)
  }

  ghost predicate EarlierWritesIn(ops: set<Operation>, v: View, t: int) {
    forall x :: x in ops && !x.IsRead() && x.start < t ==> x in v.from
  }

  /**
   * The graph has every edge that the reads worked off so far demand: all of them, or only those to a write that was
   * not yet settled when the other started.
   */
  ghost predicate Edges(ops: set<Operation>, end: map<Operation, int>, done: set<Operation>, v: View, all: bool)
    requires v.from.Keys <= ops == end.Keys
  {
    forall x, y :: x in v.from && y in v.from && Before(ops, end, done, x, y) && (all || !Settled(ops, end, y, x.start))
                   ==> y in v.from[x]
  }

  /** An end time was only ever moved to that of a read worked off. */
  ghost predicate EndsReal(ops: set<Operation>, end: map<Operation, int>, done: set<Operation>, v: View)
    requires ops == v.end.Keys == end.Keys && done <= ops
  {
    forall o :: o in ops ==> v.end[o] == end[o] || exists q :: q in done && Reads(q, o) && v.end[o] == end[q]
  }

  ghost predicate Ranked(ops: set<Operation>, rank: map<Operation, int>, v: View) {
    Climbs(v.from, rank) && Timely(ops, v.end, rank)
  }

  /** The edges into o come exactly from what ended before it started. */
  ghost predicate Behind(v: View, o: Operation)
    requires v.from.Keys <= v.end.Keys
  {
    o in v.from && v.from[o] == {} && forall u :: u in v.from && u != o ==> (o in v.from[u] <==> v.end[u] < o.start)
  }

  // ---- add --------------------------------------------------------------------------------------

  lemma JoinKeepsBase(ops: set<Operation>, end: map<Operation, int>, done: set<Operation>, busy: set<Operation>,
                      v: View, o: Operation)
    requires Base(ops, end, done, busy, v) && o in ops && (o.IsRead() ==> o in busy)
    ensures Base(ops, end, done, busy, Joined(v, o))
  {
  }

  lemma JoinKeepsDownward(ops: set<Operation>, end: map<Operation, int>, done: set<Operation>, busy: set<Operation>,
                          v: View, o: Operation)
    requires Base(ops, end, done, busy, v) && o in ops
    requires Downward(ops, done, v) && (!o.IsRead() ==> EarlierWritesIn(ops, v, o.start))
    ensures Downward(ops, done, Joined(v, o))
  {
  }

  /** Nothing in the graph has to come after a write that is not in it yet. */
  lemma NothingAfter(ops: set<Operation>, end: map<Operation, int>, done: set<Operation>, busy: set<Operation>, v: View,
                     o: Operation, y: Operation)
    requires Base(ops, end, done, busy, v) && Downward(ops, done, v)
    requires forall x :: x in ops ==> x.start <= end[x]
    requires o in ops && o !in v.from && y in v.from
    ensures !Before(ops, end, done, o, y)
  {
    if !o.IsRead() && !y.IsRead() {
      forall r | r in done && Reads(r, y) ensures !Settled(ops, end, o, r.start) {
        assert forall q :: q in ops && Reads(q, o) && end[q] < r.start ==> q in done;
      }
    }
  }

  lemma JoinKeepsEdges(ops: set<Operation>, end: map<Operation, int>, done: set<Operation>, busy: set<Operation>,
                       v: View, o: Operation, all: bool)
    requires Base(ops, end, done, busy, v) && o in ops && Downward(ops, done, v)
    requires forall x :: x in ops ==> x.start <= end[x]
    requires Edges(ops, end, done, v, all)
    ensures Edges(ops, end, done, Joined(v, o), all)
  {
    var u := Joined(v, o);
    if o !in v.from {
      forall x, y | x in u.from && y in u.from && Before(ops, end, done, x, y)
                    && (all || !Settled(ops, end, y, x.start))
        ensures y in u.from[x]
      {
        if x in v.from && y in v.from {
          assert y in v.from[x];
        } else if x in v.from {
          assert forall r :: r in done ==> !Reads(r, o);
          assert v.end[x] < o.start;
        } else if y in v.from {
          NothingAfter(ops, end, done, busy, v, o, y);
        }
      }
    }
  }

  lemma JoinKeepsRanked(ops: set<Operation>, rank: map<Operation, int>, v: View, o: Operation)
    requires Ranked(ops, rank, v) && o in ops && v.from.Keys <= ops
    ensures Ranked(ops, rank, Joined(v, o))
  {
  }

  lemma {:induction false} WalkAvoids(large: map<Operation, set<Operation>>, small: map<Operation, set<Operation>>,
                                      sink: Operation, x: Operation, y: Operation, n: nat)
    requires Out(large, sink) == {}
    requires forall u :: u in large && u != sink ==> u in small && large[u] <= small[u] + {sink}
    requires y != sink && Walk(large, x, y, n)
    ensures x != sink && Walk(small, x, y, n)
  {
    if n > 0 {
      var z :| z in Out(large, x) && Walk(large, z, y, n - 1);
      WalkAvoids(large, small, sink, z, y, n - 1);
      assert z in Out(small, x);
    }
  }

  lemma CycleAvoids(large: map<Operation, set<Operation>>, small: map<Operation, set<Operation>>, sink: Operation)
    requires HasCycle(large)
    requires Out(large, sink) == {}
    requires forall u :: u in large && u != sink ==> u in small && large[u] <= small[u] + {sink}
    ensures HasCycle(small)
  {
    var x :| x in large && OnCycle(large, x);
    var n: nat :| n > 0 && Walk(large, x, x, n);
    WalkAvoids(large, small, sink, x, x, n);
    assert OnCycle(small, x);
  }

  /** A newcomer has no outgoing edges, so it closes no cycle. */
  lemma JoinKeepsAcyclic(v: View, o: Operation)
    requires v.from.Keys <= v.end.Keys && !HasCycle(v.from)
    ensures !HasCycle(Joined(v, o).from)
  {
    if o !in v.from && HasCycle(Joined(v, o).from) {
      CycleAvoids(Joined(v, o).from, v.from, o);
    }
  }

  lemma JoinKeepsBehind(v: View, r: Operation, o: Operation)
    requires v.from.Keys <= v.end.Keys && Behind(v, r) && o in v.end && r.start <= o.start <= v.end[o]
    requires !(v.end[r] < o.start)
    ensures Behind(Joined(v, o), r)
  {
  }

  lemma JoinsBehind(v: View, r: Operation)
    requires v.from.Keys <= v.end.Keys && r in v.end && r !in v.from && forall u :: u in v.from ==> r !in v.from[u]
    ensures Behind(Joined(v, r), r)
  {
  }

  /** A write that joins comes after what it has edges from. */
  lemma JoinKeepsForward(ops: set<Operation>, end: map<Operation, int>, v: View, o: Operation, but: set<Operation>)
    requires ops == v.end.Keys == end.Keys && v.from.Keys <= ops && EndsOk(ops, end, v) && Gentle(ops, end)
    requires Forward(end, v, but) && o in ops && !o.IsRead() && o.start <= end[o]
    requires forall u :: u in v.from && u.IsRead() ==> !(v.end[u] < o.start)
    ensures Forward(end, Joined(v, o), but)
  {
    forall u | u in v.from && v.end[u] < o.start ensures u in end && end[u] < o.start {
      assert u != o ==> Apart(end, u, o);
    }
  }

  // ---- merge ------------------------------------------------------------------------------------

  lemma MergeKeepsEnds(ops: set<Operation>, end: map<Operation, int>, v: View, r: Operation, w: Operation)
    requires ops == v.end.Keys == end.Keys && EndsOk(ops, end, v) && Plausible(ops, end)
    requires r in ops && w in ops && Reads(r, w)
    ensures EndsOk(ops, end, Merged(v, r, w))
  {
  }

  lemma MergeKeepsSources(ops: set<Operation>, end: map<Operation, int>, done: set<Operation>, v: View, r: Operation,
                          w: Operation)
    requires ops == v.end.Keys == end.Keys && done <= ops && SourcesOk(ops, end, done, v) && Plausible(ops, end)
    requires r in ops && w in ops && w in v.from && Reads(r, w) && v.end[r] == end[r]
    ensures SourcesOk(ops, end, done + {r}, Merged(v, r, w))
  {
    forall x | x in ops && Reads(r, x) ensures x == w {
      assert x.input.Equals(w.input);
    }
  }

  lemma MergeKeepsClosed(v: View, r: Operation, w: Operation)
    requires Closed(v.from, v.from.Keys) && r in v.end && w in v.end && w in v.from && w != r
    ensures Closed(Merged(v, r, w).from, Merged(v, r, w).from.Keys)
  {
  }

  lemma MergeKeepsBase(ops: set<Operation>, end: map<Operation, int>, done: set<Operation>, v: View, r: Operation,
                       w: Operation)
    requires Base(ops, end, done, {r}, v) && r in ops && w in v.from && Reads(r, w) && Plausible(ops, end)
    ensures Base(ops, end, done + {r}, {}, Merged(v, r, w))
  {
    MergeKeepsEnds(ops, end, v, r, w);
    MergeKeepsSources(ops, end, done, v, r, w);
    MergeKeepsClosed(v, r, w);
  }

  lemma MergeKeepsDownward(ops: set<Operation>, done: set<Operation>, v: View, r: Operation, w: Operation)
    requires Downward(ops, done, v) && r in v.end && w in v.end && r.IsRead()
    requires forall x :: x in ops && x.start < r.start ==> if x.IsRead() then x in done else x in v.from
    ensures Downward(ops, done + {r}, Merged(v, r, w))
  {
  }

  lemma MergeKeepsEdges(ops: set<Operation>, end: map<Operation, int>, done: set<Operation>, v: View, r: Operation,
                        w: Operation, all: bool)
    requires Base(ops, end, done, {r}, v) && r in ops && w in v.from && Reads(r, w) && Plausible(ops, end)
    requires Edges(ops, end, done, v, all) && Behind(v, r)
    requires forall q :: q in ops && q.IsRead() && q.start < r.start ==> q in done
    ensures Edges(ops, end, done + {r}, Merged(v, r, w), all)
  {
    var u := Merged(v, r, w);
    forall x, y | x in u.from && y in u.from && Before(ops, end, done + {r}, x, y)
                  && (all || !Settled(ops, end, y, x.start))
      ensures y in u.from[x]
    {
      if Before(ops, end, done, x, y) {
        assert y in v.from[x];
      } else {
        var q :| q in done + {r} && Reads(q, y) && Settled(ops, end, x, q.start);
        assert q == r && y.input.Equals(w.input);
        if !(end[x] < r.start) {
          var p :| p in ops && Reads(p, x) && end[p] < r.start;
          assert p in done;
        }
        assert v.end[x] < r.start;
      }
    }
  }

  /** What ranks below a read and is in the graph with it ranks below the write it returns. */
  lemma BelowTheWrite(ops: set<Operation>, rank: map<Operation, int>, r: Operation, w: Operation, x: Operation)
    requires Explains(ops, rank) && r in ops && w in ops && x in ops && Reads(r, w)
    requires x != w && rank[x] < rank[r] && (x.IsRead() ==> Unsourced(ops, x))
    ensures rank[x] < rank[w]
  {
    if x.IsRead() {
      assert PairOk(ops, rank, x, w);
    } else {
      assert PairOk(ops, rank, r, x);
    }
  }

  lemma MergeKeepsTimely(ops: set<Operation>, rank: map<Operation, int>, v: View, r: Operation, w: Operation)
    requires Timely(ops, v.end, rank) && Explains(ops, rank) && r in ops && w in ops && Reads(r, w)
    ensures Timely(ops, Merged(v, r, w).end, rank)
  {
    assert PairOk(ops, rank, r, w);
  }

  lemma MergeClimbs(v: View, rank: map<Operation, int>, r: Operation, w: Operation)
    requires Climbs(v.from, rank) && r in v.end && w in v.end && w in rank
    requires forall x :: x in v.from && x != w && r in v.from[x] ==> rank[x] < rank[w]
    ensures Climbs(Merged(v, r, w).from, rank)
  {
  }

  lemma MergeKeepsRanked(ops: set<Operation>, rank: map<Operation, int>, v: View, r: Operation, w: Operation)
    requires Ranked(ops, rank, v) && Explains(ops, rank) && v.from.Keys <= ops
    requires r in v.from && w in v.from && Reads(r, w)
    requires forall o :: o in v.from && o.IsRead() ==> Unsourced(ops, o) || o == r
    ensures Ranked(ops, rank, Merged(v, r, w))
  {
    MergeKeepsTimely(ops, rank, v, r, w);
    forall x | x in v.from && x != w && r in v.from[x] ensures rank[x] < rank[w] {
      BelowTheWrite(ops, rank, r, w, x);
    }
    MergeClimbs(v, rank, r, w);
  }

  lemma MergeKeepsEndsReal(ops: set<Operation>, end: map<Operation, int>, done: set<Operation>, v: View, r: Operation,
                           w: Operation)
    requires ops == v.end.Keys == end.Keys && done <= ops && EndsReal(ops, end, done, v)
    requires r in ops && w in ops && Reads(r, w) && v.end[r] == end[r]
    ensures EndsReal(ops, end, done + {r}, Merged(v, r, w))
  {
    var u := Merged(v, r, w);
    forall o | o in ops
      ensures u.end[o] == end[o] || exists q :: q in done + {r} && Reads(q, o) && u.end[o] == end[q]
    {
      if u.end[o] != v.end[o] {
        assert o == w && u.end[o] == end[r];
      }
    }
  }

  /** A write that is settled before r starts is in the graph, and there too it ends before. */
  lemma SettledEndsEarly(ops: set<Operation>, end: map<Operation, int>, done: set<Operation>, busy: set<Operation>,
                         v: View, r: Operation, x: Operation)
    requires Base(ops, end, done, busy, v) && Plausible(ops, end) && x in ops && !x.IsRead()
    requires Settled(ops, end, x, r.start)
    requires forall y :: y in ops && y.start < r.start ==> if y.IsRead() then y in done else y in v.from
    ensures x in v.from && v.end[x] < r.start
  {
    if !(end[x] < r.start) {
      var q :| q in ops && Reads(q, x) && end[q] < r.start;
      assert q in done;
    }
  }

  /** What a read's merge makes of a graph whose edges lead forward. */
  lemma MergeTurnsBack(ops: set<Operation>, end: map<Operation, int>, done: set<Operation>, v: View, r: Operation,
                       w: Operation)
    requires Base(ops, end, done, {r}, v) && r in ops && w in v.from && Reads(r, w) && Plausible(ops, end)
    requires Gentle(ops, end) && EndsReal(ops, end, done, v) && Behind(v, r) && Forward(end, v, {r})
    ensures TurnsBack(ops, end, r, Merged(v, r, w))
  {
    var m := Merged(v, r, w);
    forall u, y | u in m.from && y in m.from[u] ensures ForwardOrMissed(ops, end, r, u, y) {
      if y !in v.from[u] {
        assert y == w && v.end[u] < r.start;
        assert !u.IsRead();
        assert Settled(ops, end, u, r.start);
        assert Apart(end, u, w);
      }
    }
  }

  /** A read whose value nobody wrote stays where it is. */
  lemma UnmatchedKeepsBase(ops: set<Operation>, end: map<Operation, int>, done: set<Operation>, v: View, r: Operation)
    requires Base(ops, end, done, {r}, v) && r in ops && Unsourced(ops, r) && Downward(ops, done, v)
    requires forall x :: x in ops && x.start < r.start ==> if x.IsRead() then x in done else x in v.from
    ensures Base(ops, end, done + {r}, {}, v) && Downward(ops, done + {r}, v)
  {
  }

  lemma UnmatchedKeeps(ops: set<Operation>, end: map<Operation, int>, done: set<Operation>, v: View, r: Operation,
                       all: bool)
    requires Base(ops, end, done, {r}, v) && r in ops && Unsourced(ops, r)
    requires Edges(ops, end, done, v, all)
    ensures Edges(ops, end, done + {r}, v, all)
  {
    forall x, y | x in v.from && y in v.from && Before(ops, end, done + {r}, x, y)
      ensures Before(ops, end, done, x, y) {
    }
  }

  // ---- working off a history ----------------------------------------------------------------------

  ghost predicate Sorted(h: seq<Operation>) { forall i, j :: 0 <= i < j < |h| ==> h[i].start <= h[j].start }

  ghost function DoneReads(h: seq<Operation>, i: nat): set<Operation>
    requires i <= |h|
  {
    set k | 0 <= k < i && h[k].IsRead() :: h[k]
  }

  ghost predicate WritesIn(h: seq<Operation>, j: nat, v: View)
    requires j <= |h|
  {
    forall k :: 0 <= k < j && !h[k].IsRead() ==> h[k] in v.from
  }

  ghost predicate ReadsAmong(v: View, some: set<Operation>) { forall o :: o in v.from && o.IsRead() ==> o in some }

  /** The first i operations are worked off; busy is empty or holds the read at i. */
  ghost predicate Kept(h: seq<Operation>, end: map<Operation, int>, i: nat, busy: set<Operation>, v: View) {
    && i <= |h| && Base(Ops(h), end, DoneReads(h, i), busy, v) && Downward(Ops(h), DoneReads(h, i), v)
    && WritesIn(h, i, v) && ReadsAmong(v, DoneReads(h, i) + busy)
  }

  ghost predicate Clean(h: seq<Operation>, end: map<Operation, int>, i: nat, v: View) {
    && i <= |h| && v.from.Keys <= Ops(h) == end.Keys
    && Edges(Ops(h), end, DoneReads(h, i), v, true) && !HasCycle(v.from)
  }

  /** What the graph and the end times keep to even after cycles have been cut. */
  ghost predicate Firm(h: seq<Operation>, end: map<Operation, int>, i: nat, v: View) {
    && i <= |h| && v.from.Keys <= Ops(h) == v.end.Keys == end.Keys
    && Edges(Ops(h), end, DoneReads(h, i), v, false) && EndsReal(Ops(h), end, DoneReads(h, i), v)
  }

  /** Operations that have not joined yet still end after they start, so joining adds no self edge. */
  ghost predicate Safe(h: seq<Operation>, i: nat, v: View) {
    && v.from.Keys <= Ops(h) == v.end.Keys
    && forall k :: i <= k < |h| ==> h[k] in v.from || h[k].start <= v.end[h[k]]
  }

  /** What is assumed of a history: that it is plausible, and perhaps that rank explains it or that it is gentle. */
  datatype Claim =
    Claim(end: map<Operation, int>, rank: map<Operation, int>, plausible: bool, explained: bool, gentle: bool)

  ghost predicate Fair(h: seq<Operation>, c: Claim) {
    && Sorted(h) && Distinct(h)
    && (c.plausible ==> Plausible(Ops(h), c.end)) && (c.explained ==> c.plausible && Explains(Ops(h), c.rank))
    && (c.gentle ==> c.plausible && Gentle(Ops(h), c.end))
  }

  /** Between two operations; clean while no anomaly was found. */
  ghost predicate Idle(h: seq<Operation>, c: Claim, i: nat, clean: bool, v: View) {
    && Fair(h, c) && Safe(h, i, v)
    && (c.plausible ==> Kept(h, c.end, i, {}, v) && Firm(h, c.end, i, v) && (clean ==> Clean(h, c.end, i, v)))
    && (c.explained ==> Ranked(Ops(h), c.rank, v)) && (c.gentle ==> Forward(c.end, v, {}))
  }

  /** The read at i has joined. */
  ghost predicate Reading(h: seq<Operation>, c: Claim, i: nat, clean: bool, v: View) {
    && i < |h| && h[i].IsRead() && h[i] in v.from && Fair(h, c) && Safe(h, i + 1, v)
    && (c.plausible ==>
          && Kept(h, c.end, i, {h[i]}, v) && Behind(v, h[i]) && Firm(h, c.end, i, v)
          && (clean ==> Clean(h, c.end, i, v)))
    && (c.explained ==> Ranked(Ops(h), c.rank, v)) && (c.gentle ==> Forward(c.end, v, {h[i]}))
  }

  /** The lookahead has added every write before j. */
  ghost predicate Looked(h: seq<Operation>, c: Claim, i: nat, j: nat, v: View) {
    i < j <= |h| && (c.plausible ==> WritesIn(h, j, v))
  }

  /** Whatever starts before h[i] sits before it. */
  lemma EarlierStarts(h: seq<Operation>, i: nat, x: Operation)
    requires Sorted(h) && i < |h| && x in h && x.start < h[i].start
    ensures exists k :: 0 <= k < i && h[k] == x
  {
    var k :| 0 <= k < |h| && h[k] == x;
  }

  lemma EarlierAreDone(h: seq<Operation>, i: nat, v: View)
    requires Sorted(h) && i < |h| && WritesIn(h, i, v)
    ensures forall x :: x in h && x.start < h[i].start ==> if x.IsRead() then x in DoneReads(h, i) else x in v.from
  {
    forall x | x in h && x.start < h[i].start ensures if x.IsRead() then x in DoneReads(h, i) else x in v.from {
      EarlierStarts(h, i, x);
    }
  }

  lemma DoneGrows(h: seq<Operation>, i: nat)
    requires i < |h|
    ensures DoneReads(h, i + 1) == if h[i].IsRead() then DoneReads(h, i) + {h[i]} else DoneReads(h, i)
    ensures Distinct(h) ==> h[i] !in DoneReads(h, i)
  {
  }

  lemma JoinKeepsMembers(h: seq<Operation>, i: nat, j: nat, v: View, some: set<Operation>)
    requires v.from.Keys <= v.end.Keys && i <= j < |h| && !h[j].IsRead() && WritesIn(h, j, v) && ReadsAmong(v, some)
    ensures WritesIn(h, i, Joined(v, h[j])) && WritesIn(h, j + 1, Joined(v, h[j])) && ReadsAmong(Joined(v, h[j]), some)
  {
  }

  lemma WriteJoinsKept(h: seq<Operation>, end: map<Operation, int>, i: nat, busy: set<Operation>, j: nat, v: View)
    requires Kept(h, end, i, busy, v) && i <= j < |h| && Sorted(h) && !h[j].IsRead() && WritesIn(h, j, v)
    ensures Kept(h, end, i, busy, Joined(v, h[j])) && WritesIn(h, j + 1, Joined(v, h[j]))
  {
    EarlierAreDone(h, j, v);
    JoinKeepsMembers(h, i, j, v, DoneReads(h, i) + busy);
    JoinKeepsBase(Ops(h), end, DoneReads(h, i), busy, v, h[j]);
    JoinKeepsDownward(Ops(h), end, DoneReads(h, i), busy, v, h[j]);
  }

  lemma JoinKeepsClean(h: seq<Operation>, end: map<Operation, int>, i: nat, busy: set<Operation>, v: View, o: Operation)
    requires Clean(h, end, i, v) && o in h
    requires Base(Ops(h), end, DoneReads(h, i), busy, v) && Downward(Ops(h), DoneReads(h, i), v)
    requires forall x :: x in Ops(h) ==> x.start <= end[x]
    ensures Clean(h, end, i, Joined(v, o))
  {
    JoinKeepsEdges(Ops(h), end, DoneReads(h, i), busy, v, o, true);
    JoinKeepsAcyclic(v, o);
  }

  lemma JoinKeepsFirm(h: seq<Operation>, end: map<Operation, int>, i: nat, busy: set<Operation>, v: View, o: Operation)
    requires Firm(h, end, i, v) && o in h
    requires Base(Ops(h), end, DoneReads(h, i), busy, v) && Downward(Ops(h), DoneReads(h, i), v)
    requires forall x :: x in Ops(h) ==> x.start <= end[x]
    ensures Firm(h, end, i, Joined(v, o))
  {
    JoinKeepsEdges(Ops(h), end, DoneReads(h, i), busy, v, o, false);
  }

  /** The operation just worked off was a write, or a read nobody's write is matched with. */
  lemma FirmOn(h: seq<Operation>, end: map<Operation, int>, i: nat, v: View)
    requires Firm(h, end, i, v) && i < |h| && (h[i].IsRead() ==> Unsourced(Ops(h), h[i]))
    ensures Firm(h, end, i + 1, v)
  {
    DoneGrows(h, i);
    var done := DoneReads(h, i);
    forall x, y | x in v.from && y in v.from && Before(Ops(h), end, DoneReads(h, i + 1), x, y)
                  && !Settled(Ops(h), end, y, x.start)
      ensures y in v.from[x]
    {
      assert Before(Ops(h), end, done, x, y);
    }
  }

  /** In a gentle history only the read being worked off is in the graph. */
  lemma JoinGoesForward(h: seq<Operation>, c: Claim, i: nat, busy: set<Operation>, v: View, o: Operation)
    requires Fair(h, c) && c.gentle && Kept(h, c.end, i, busy, v) && Forward(c.end, v, busy) && o in h && !o.IsRead()
    requires forall r :: r in busy ==> r in v.end && !(v.end[r] < o.start)
    ensures Forward(c.end, Joined(v, o), busy)
  {
    JoinKeepsForward(Ops(h), c.end, v, o, busy);
  }

  lemma JoinKeepsSafe(h: seq<Operation>, i: nat, v: View, k: nat)
    requires Safe(h, i, v) && i <= k < |h|
    ensures Safe(h, i, Joined(v, h[k])) && Safe(h, i + 1, v)
  {
  }

  /** An iteration over a write. */
  lemma WriteDone(h: seq<Operation>, c: Claim, i: nat, clean: bool, v: View)
    requires Idle(h, c, i, clean, v) && i < |h| && !h[i].IsRead()
    ensures Idle(h, c, i + 1, clean, Joined(v, h[i]))
  {
    DoneGrows(h, i);
    JoinKeepsSafe(h, i, v, i);
    if c.plausible {
      WriteJoinsKept(h, c.end, i, {}, i, v);
      JoinKeepsFirm(h, c.end, i, {}, v, h[i]);
      FirmOn(h, c.end, i, Joined(v, h[i]));
      if clean {
        JoinKeepsClean(h, c.end, i, {}, v, h[i]);
      }
    }
    if c.explained {
      JoinKeepsRanked(Ops(h), c.rank, v, h[i]);
    }
    if c.gentle {
      JoinGoesForward(h, c, i, {}, v, h[i]);
    }
  }

  lemma ReadJoinsKept(h: seq<Operation>, end: map<Operation, int>, i: nat, v: View)
    requires Kept(h, end, i, {}, v) && i < |h| && Distinct(h) && h[i].IsRead()
    ensures Kept(h, end, i, {h[i]}, Joined(v, h[i])) && Behind(Joined(v, h[i]), h[i])
  {
    DoneGrows(h, i);
    var done, r := DoneReads(h, i), h[i];
    assert r !in v.from;
    assert Base(Ops(h), end, done, {r}, v);
    JoinKeepsBase(Ops(h), end, done, {r}, v, r);
    JoinKeepsDownward(Ops(h), end, done, {r}, v, r);
    JoinsBehind(v, r);
  }

  lemma ReadGoesForward(end: map<Operation, int>, v: View, r: Operation)
    requires v.from.Keys <= v.end.Keys && Forward(end, v, {})
    ensures Forward(end, Joined(v, r), {r})
  {
  }

  /** The read at i joins. */
  lemma ReadStarts(h: seq<Operation>, c: Claim, i: nat, clean: bool, v: View)
    requires Idle(h, c, i, clean, v) && i < |h| && h[i].IsRead()
    ensures Reading(h, c, i, clean, Joined(v, h[i])) && Looked(h, c, i, i + 1, Joined(v, h[i]))
  {
    JoinKeepsSafe(h, i, v, i);
    if c.plausible {
      ReadJoinsKept(h, c.end, i, v);
      JoinKeepsFirm(h, c.end, i, {}, v, h[i]);
      if clean {
        JoinKeepsClean(h, c.end, i, {}, v, h[i]);
      }
    }
    if c.explained {
      JoinKeepsRanked(Ops(h), c.rank, v, h[i]);
    }
    if c.gentle {
      ReadGoesForward(c.end, v, h[i]);
    }
  }

  lemma OutputMeansRead(ops: set<Operation>, end: map<Operation, int>, o: Operation)
    requires Plausible(ops, end) && o in ops
    ensures o.IsRead() <==> o.output != Nil
  {
  }

  /** The lookahead skips an operation that returned something: in a plausible history, another read. */
  lemma SkipsAhead(h: seq<Operation>, c: Claim, i: nat, j: nat, v: View)
    requires Looked(h, c, i, j, v) && Fair(h, c) && j < |h| && h[j].output != Nil
    ensures Looked(h, c, i, j + 1, v)
  {
    if c.plausible {
      OutputMeansRead(Ops(h), c.end, h[j]);
    }
  }

  /** The lookahead adds an operation that returned nothing: in a plausible history, a write. */
  lemma LooksAhead(h: seq<Operation>, c: Claim, i: nat, j: nat, clean: bool, v: View)
    requires Reading(h, c, i, clean, v) && Looked(h, c, i, j, v)
    requires j < |h| && h[j].output == Nil && !(v.end[h[i]] < h[j].start)
    ensures Reading(h, c, i, clean, Joined(v, h[j])) && Looked(h, c, i, j + 1, Joined(v, h[j]))
  {
    JoinKeepsSafe(h, i + 1, v, j);
    if c.plausible {
      OutputMeansRead(Ops(h), c.end, h[j]);
      WriteJoinsKept(h, c.end, i, {h[i]}, j, v);
      JoinKeepsFirm(h, c.end, i, {h[i]}, v, h[j]);
      if clean {
        JoinKeepsClean(h, c.end, i, {h[i]}, v, h[j]);
      }
      JoinKeepsBehind(v, h[i], h[j]);
    }
    if c.explained {
      JoinKeepsRanked(Ops(h), c.rank, v, h[j]);
    }
    if c.gentle {
      JoinGoesForward(h, c, i, {h[i]}, v, h[j]);
    }
  }

  /** The lookahead stopped at j because h[j] is not concurrent with the read. */
  ghost predicate LookedPast(h: seq<Operation>, v: View, i: nat, j: nat)
    requires i < j <= |h| && Ops(h) <= v.end.Keys
  {
    j == |h| || v.end[h[i]] < h[j].start || v.end[h[j]] < h[i].start
  }

  /** The read at i is matched or not; what is left is the search for a cycle. */
  ghost predicate Judged(h: seq<Operation>, c: Claim, i: nat, clean: bool, v: View) {
    && i < |h| && h[i].IsRead() && Fair(h, c) && Safe(h, i + 1, v)
    && (c.plausible ==>
          && Kept(h, c.end, i + 1, {}, v) && Firm(h, c.end, i + 1, v)
          && (clean ==> Edges(Ops(h), c.end, DoneReads(h, i + 1), v, true))
          && (Refuted(Ops(h), c.end, h[i]) ==> HasCycle(v.from)))
    && (c.explained ==> Ranked(Ops(h), c.rank, v)) && (c.gentle ==> TurnsBack(Ops(h), c.end, h[i], v))
  }

  lemma MergeKeepsMembers(h: seq<Operation>, i: nat, v: View, some: set<Operation>, w: Operation)
    requires i < |h| && h[i].IsRead() && h[i] in v.end && w in v.end && WritesIn(h, i, v)
    requires ReadsAmong(v, some + {h[i]})
    ensures WritesIn(h, i + 1, Merged(v, h[i], w)) && ReadsAmong(Merged(v, h[i], w), some + {h[i]} + {})
  {
  }

  lemma MergedIsKept(h: seq<Operation>, end: map<Operation, int>, i: nat, v: View, w: Operation)
    requires Sorted(h) && Plausible(Ops(h), end) && i < |h| && Kept(h, end, i, {h[i]}, v) && w in v.from
    requires Reads(h[i], w)
    ensures Kept(h, end, i + 1, {}, Merged(v, h[i], w))
  {
    DoneGrows(h, i);
    EarlierAreDone(h, i, v);
    MergeKeepsMembers(h, i, v, DoneReads(h, i), w);
    MergeKeepsBase(Ops(h), end, DoneReads(h, i), v, h[i], w);
    MergeKeepsDownward(Ops(h), DoneReads(h, i), v, h[i], w);
  }

  lemma MergedHasEdges(h: seq<Operation>, end: map<Operation, int>, i: nat, v: View, w: Operation)
    requires Sorted(h) && Plausible(Ops(h), end) && i < |h| && Kept(h, end, i, {h[i]}, v) && w in v.from
    requires Reads(h[i], w)
    requires Clean(h, end, i, v) && Behind(v, h[i])
    ensures Merged(v, h[i], w).from.Keys <= Ops(h) && Edges(Ops(h), end, DoneReads(h, i + 1), Merged(v, h[i], w), true)
  {
    DoneGrows(h, i);
    EarlierAreDone(h, i, v);
    MergeKeepsEdges(Ops(h), end, DoneReads(h, i), v, h[i], w, true);
  }

  lemma MergedIsFirm(h: seq<Operation>, end: map<Operation, int>, i: nat, v: View, w: Operation)
    requires Sorted(h) && Plausible(Ops(h), end) && i < |h| && Kept(h, end, i, {h[i]}, v) && w in v.from
    requires Reads(h[i], w) && Firm(h, end, i, v) && Behind(v, h[i])
    ensures Firm(h, end, i + 1, Merged(v, h[i], w))
  {
    DoneGrows(h, i);
    EarlierAreDone(h, i, v);
    MergeKeepsEdges(Ops(h), end, DoneReads(h, i), v, h[i], w, false);
    MergeKeepsEndsReal(Ops(h), end, DoneReads(h, i), v, h[i], w);
  }

  /** A graph that holds what the reads up to h[i] demand has a cycle if the demands have. */
  lemma RefutedIsCyclic(h: seq<Operation>, end: map<Operation, int>, i: nat, v: View)
    requires i < |h| && Sorted(h) && Firm(h, end, i + 1, v) && Refuted(Ops(h), end, h[i])
    requires Known(Ops(h), h[i]) <= v.from.Keys
    requires forall x, w :: x in Known(Ops(h), h[i]) && w in Known(Ops(h), h[i]) ==>
               (x != w && Reads(h[i], w) && Settled(Ops(h), end, x, h[i].start) ==> w in v.from[x])
    ensures HasCycle(v.from)
  {
    var ops, r, from := Ops(h), h[i], Demanded(Ops(h), end, h[i]);
    EarlierAreAmong(h, i);
    forall x, y | x in from && y in from[x] ensures y in v.from[x] {
      if !(Reads(r, y) && Settled(ops, end, x, r.start)) {
        assert Before(ops, end, DoneReads(h, i + 1), x, y);
      }
    }
    CycleGrows(from, v.from);
  }

  lemma EarlierAreAmong(h: seq<Operation>, i: nat)
    requires i < |h| && Sorted(h) && h[i].IsRead()
    ensures EarlierReads(Ops(h), h[i].start) + {h[i]} <= DoneReads(h, i + 1)
  {
    forall q | q in EarlierReads(Ops(h), h[i].start) ensures q in DoneReads(h, i + 1) {
      EarlierStarts(h, i, q);
    }
  }

  lemma MergedIsCyclic(h: seq<Operation>, end: map<Operation, int>, i: nat, v: View, w: Operation)
    requires Sorted(h) && Plausible(Ops(h), end) && i < |h| && Kept(h, end, i, {h[i]}, v) && w in v.from
    requires Reads(h[i], w) && Firm(h, end, i, v) && Behind(v, h[i]) && Refuted(Ops(h), end, h[i])
    ensures HasCycle(Merged(v, h[i], w).from)
  {
    var ops, r, m := Ops(h), h[i], Merged(v, h[i], w);
    EarlierAreDone(h, i, v);
    MergedIsFirm(h, end, i, v, w);
    forall x | x in Known(ops, r) ensures x in m.from {
      if Reads(r, x) { OneSource(ops, end, r, w, x); }
    }
    forall x, z | x in Known(ops, r) && z in Known(ops, r) && x != z && Reads(r, z) && Settled(ops, end, x, r.start)
      ensures z in m.from[x]
    {
      OneSource(ops, end, r, w, z);
      SettledEndsEarly(ops, end, DoneReads(h, i), {r}, v, r, x);
      assert r in v.from[x];
    }
    RefutedIsCyclic(h, end, i, m);
  }

  lemma UnmatchedIsCyclic(h: seq<Operation>, end: map<Operation, int>, i: nat, v: View)
    requires Sorted(h) && i < |h| && WritesIn(h, i, v) && Firm(h, end, i + 1, v)
    requires Unsourced(Ops(h), h[i]) && Refuted(Ops(h), end, h[i])
    ensures HasCycle(v.from)
  {
    EarlierAreDone(h, i, v);
    RefutedIsCyclic(h, end, i, v);
  }

  lemma MergeKeepsSafe(h: seq<Operation>, i: nat, v: View, w: Operation)
    requires i < |h| && Distinct(h) && Safe(h, i + 1, v) && w in v.from
    ensures Safe(h, i + 1, Merged(v, h[i], w))
  {
    var u := Merged(v, h[i], w);
    forall k | i + 1 <= k < |h| ensures h[k] in u.from || h[k].start <= u.end[h[k]] {
      assert h[k] == w ==> h[k] in v.from;
    }
  }

  /** Only a write's input equals what a read of a plausible history returned. */
  lemma MatchIsSource(ops: set<Operation>, end: map<Operation, int>, r: Operation, w: Operation)
    requires Plausible(ops, end) && r in ops && r.IsRead() && w in ops && r.output.Equals(w.input)
    ensures Reads(r, w)
  {
  }

  lemma MergedIsRanked(h: seq<Operation>, c: Claim, i: nat, v: View, w: Operation)
    requires i < |h| && Kept(h, c.end, i, {h[i]}, v) && Explains(Ops(h), c.rank) && Ranked(Ops(h), c.rank, v)
    requires h[i] in v.from && w in v.from && Reads(h[i], w)
    ensures Ranked(Ops(h), c.rank, Merged(v, h[i], w))
  {
    MergeKeepsRanked(Ops(h), c.rank, v, h[i], w);
  }

  /** match returned w. */
  lemma ReadMatched(h: seq<Operation>, c: Claim, i: nat, clean: bool, v: View, w: Operation)
    requires Reading(h, c, i, clean, v) && w in v.from && h[i].output.Equals(w.input)
    ensures Judged(h, c, i, clean, Merged(v, h[i], w))
  {
    var r := h[i];
    MergeKeepsSafe(h, i, v, w);
    if c.plausible {
      MatchIsSource(Ops(h), c.end, r, w);
      MergedIsKept(h, c.end, i, v, w);
      MergedIsFirm(h, c.end, i, v, w);
      if Refuted(Ops(h), c.end, r) {
        MergedIsCyclic(h, c.end, i, v, w);
      }
      if clean {
        MergedHasEdges(h, c.end, i, v, w);
      }
    }
    if c.explained {
      MergedIsRanked(h, c, i, v, w);
    }
    if c.gentle {
      MergeTurnsBack(Ops(h), c.end, DoneReads(h, i), v, r, w);
    }
  }

  /** Every write the read could return has been looked at. */
  lemma SourceIsIn(h: seq<Operation>, j: nat, v: View, t: int, w: Operation)
    requires Sorted(h) && j <= |h| && WritesIn(h, j, v) && (j == |h| || t < h[j].start)
    requires w in h && !w.IsRead() && w.start <= t
    ensures w in v.from
  {
    var k :| 0 <= k < |h| && h[k] == w;
  }

  /** In a plausible history the lookahead stops only past the end of the read. */
  lemma StoppedPast(h: seq<Operation>, end: map<Operation, int>, i: nat, j: nat, v: View)
    requires i < j <= |h| && Kept(h, end, i, {h[i]}, v) && h[i].IsRead() && Sorted(h) && LookedPast(h, v, i, j)
    ensures h[i] in Ops(h) && v.end[h[i]] == end[h[i]] && (j == |h| || end[h[i]] < h[j].start)
  {
    assert h[i] in Ops(h) && (j < |h| ==> h[j] in Ops(h));
  }

  /** match returned nothing. */
  lemma ReadUnmatched(h: seq<Operation>, c: Claim, i: nat, j: nat, clean: bool, v: View)
    requires Reading(h, c, i, clean, v) && Looked(h, c, i, j, v) && LookedPast(h, v, i, j)
    requires forall x :: x in v.from ==> !h[i].output.Equals(x.input)
    ensures Judged(h, c, i, clean, v)
  {
    if c.plausible {
      StoppedPast(h, c.end, i, j, v);
      forall w | w in Ops(h) ensures !Reads(h[i], w) {
        if Reads(h[i], w) {
          SourceIsIn(h, j, v, c.end[h[i]], w);
        }
      }
      DoneGrows(h, i);
      EarlierAreDone(h, i, v);
      UnmatchedKeepsBase(Ops(h), c.end, DoneReads(h, i), v, h[i]);
      FirmOn(h, c.end, i, v);
      if Refuted(Ops(h), c.end, h[i]) {
        UnmatchedIsCyclic(h, c.end, i, v);
      }
      if clean {
        UnmatchedKeeps(Ops(h), c.end, DoneReads(h, i), v, h[i], true);
      }
    }
  }

  // ---- the verdict ------------------------------------------------------------------------------

  /** Edges that lead forward in time close no cycle. */
  lemma ForwardIsAcyclic(ops: set<Operation>, end: map<Operation, int>, from: map<Operation, set<Operation>>)
    requires end.Keys == ops && from.Keys <= ops && forall o :: o in ops ==> o.start <= end[o]
    requires forall u, y :: u in from && y in from[u] ==> y in ops && end[u] < y.start
    ensures !HasCycle(from)
  {
    RankedIsAcyclic(from, map o | o in ops :: o.start);
  }

  lemma NeverTurns(ops: set<Operation>, end: map<Operation, int>, r: Operation, v: View)
    requires end.Keys == ops && TurnsBack(ops, end, r, v) && !MissesSome(ops, end, r)
    ensures Forward(end, v, {})
  {
    forall u, y | u in v.from && y in v.from[u] ensures u in end && y in end && end[u] < y.start {
      assert ForwardOrMissed(ops, end, r, u, y);
    }
  }

  /** Without a cycle the read missed nothing. */
  lemma StaysForward(ops: set<Operation>, end: map<Operation, int>, r: Operation, v: View)
    requires Plausible(ops, end) && r in ops && TurnsBack(ops, end, r, v) && !Refuted(ops, end, r)
    ensures Forward(end, v, {})
  {
    if MissesSome(ops, end, r) {
      MissingIsRefuted(ops, end, r);
    }
    NeverTurns(ops, end, r, v);
  }

  /** With a cycle it did. */
  lemma CycleTurns(ops: set<Operation>, end: map<Operation, int>, r: Operation, v: View)
    requires Plausible(ops, end) && TurnsBack(ops, end, r, v) && v.from.Keys <= ops && HasCycle(v.from)
    ensures MissesSome(ops, end, r)
  {
    if !MissesSome(ops, end, r) {
      NeverTurns(ops, end, r, v);
      ForwardIsAcyclic(ops, end, v.from);
    }
  }

  lemma NoCycleFound(h: seq<Operation>, c: Claim, i: nat, clean: bool, v: View)
    requires Judged(h, c, i, clean, v) && !HasCycle(v.from)
    ensures Idle(h, c, i + 1, clean, v)
    ensures c.plausible ==> !Refuted(Ops(h), c.end, h[i])
  {
    if c.gentle {
      StaysForward(Ops(h), c.end, h[i], v);
    }
  }

  /** A cycle proves that no rank explains the history. */
  lemma CycleFound(h: seq<Operation>, c: Claim, i: nat, clean: bool, v: View)
    requires Judged(h, c, i, clean, v) && HasCycle(v.from)
    ensures !c.explained
    ensures c.gentle ==> MissesSome(Ops(h), c.end, h[i])
  {
    if c.explained {
      RankedIsAcyclic(v.from, c.rank);
    }
    if c.gentle {
      CycleTurns(Ops(h), c.end, h[i], v);
    }
  }

  /** The edges of the cycle that run backwards in time. */
  ghost function Cut(v: View, cycle: set<Operation>): View
    requires v.from.Keys <= v.end.Keys
  {
    v.(from := map u | u in v.from ::
         if u in cycle then set x | x in v.from[u] && !(x in cycle && x in v.end && u.start > v.end[x]) else v.from[u])
  }

  lemma CutKeepsKept(h: seq<Operation>, end: map<Operation, int>, i: nat, v: View, cycle: set<Operation>)
    requires Kept(h, end, i, {}, v)
    ensures Kept(h, end, i, {}, Cut(v, cycle))
  {
    assert forall x :: x in v.from ==> Cut(v, cycle).from[x] <= v.from[x];
  }

  /** An edge to a write that was not settled when the other started is never cut. */
  lemma CutKeepsFirm(h: seq<Operation>, end: map<Operation, int>, i: nat, v: View, cycle: set<Operation>)
    requires Firm(h, end, i, v)
    ensures Firm(h, end, i, Cut(v, cycle))
  {
    var ops, done, u := Ops(h), DoneReads(h, i), Cut(v, cycle);
    forall x, y | x in u.from && y in u.from && Before(ops, end, done, x, y) && !Settled(ops, end, y, x.start)
      ensures y in u.from[x]
    {
      assert y in v.from[x] && y in ops;
      if x.start > v.end[y] {
        assert Settled(ops, end, y, x.start);
      }
    }
  }

  /** The cycle that a missed write closes runs through it and the write the read returns. */
  lemma CycleRunsThrough(ops: set<Operation>, end: map<Operation, int>, r: Operation, v: View, cycle: set<Operation>)
    returns (w: Operation, x: Operation)
    requires Plausible(ops, end) && v.from.Keys <= ops && TurnsBack(ops, end, r, v) && HasCycle(Within(v.from, cycle))
    ensures x in cycle && w in cycle && w in ops && x in ops && Misses(ops, end, r, w, x)
  {
    if forall u, y :: u in cycle && y in cycle && u in ops && y in ops ==> !Misses(ops, end, r, y, u) {
      ForwardIsAcyclic(ops, end, Within(v.from, cycle));
    }
    x, w :| x in cycle && w in cycle && x in ops && w in ops && Misses(ops, end, r, w, x);
  }

  /** If the read misses no other, the edge between these two is the only one back, and it is cut. */
  lemma CutGoesForward(ops: set<Operation>, end: map<Operation, int>, r: Operation, v: View, cycle: set<Operation>,
                       w: Operation, x: Operation)
    requires WellFormed(ops, end) && ops == v.end.Keys && v.from.Keys <= ops && EndsOk(ops, end, v)
    requires TurnsBack(ops, end, r, v) && MissesAtMostOne(ops, end, r, w)
    requires x in cycle && w in cycle && w in ops && x in ops && Misses(ops, end, r, w, x)
    ensures Forward(end, Cut(v, cycle), {})
  {
    var cut := Cut(v, cycle);
    forall u, y | u in v.from && y in v.from[u] && u in ops && y in ops && Misses(ops, end, r, y, u)
      ensures y !in cut.from[u]
    {
      OneSource(ops, end, r, w, y);
      assert u == x && v.end[w] <= end[w];
    }
    forall u, y | u in cut.from && y in cut.from[u] ensures u in end && y in end && end[u] < y.start {
      assert y in v.from[u] && ForwardOrMissed(ops, end, r, u, y);
    }
  }

  lemma CutKeeps(h: seq<Operation>, c: Claim, i: nat, clean: bool, v: View, cycle: set<Operation>)
    requires Judged(h, c, i, clean, v) && !c.explained && HasCycle(Within(v.from, cycle))
    ensures Idle(h, c, i + 1, false, Cut(v, cycle))
  {
    if c.plausible {
      CutKeepsKept(h, c.end, i + 1, v, cycle);
      CutKeepsFirm(h, c.end, i + 1, v, cycle);
    }
    if c.gentle {
      var w, x := CycleRunsThrough(Ops(h), c.end, h[i], v, cycle);
      CutGoesForward(Ops(h), c.end, h[i], v, cycle, w, x);
    }
  }

  // ---- the verdict ------------------------------------------------------------------------------

  /** With no anomaly at the end of a plausible history, what must precede what has no cycle. */
  lemma CleanMeansOrderable(h: seq<Operation>, c: Claim, v: View)
    requires Idle(h, c, |h|, true, v) && c.plausible
    ensures !HasCycle(MustPrecede(Ops(h), c.end))
  {
    var must := MustPrecede(Ops(h), c.end);
    forall x, y | x in must && y in must[x] ensures x in v.from && y in v.from && y in v.from[x] {
      assert x in h && y in h;
      assert Before(Ops(h), c.end, DoneReads(h, |h|), x, y);
    }
    if HasCycle(must) {
      assert forall x :: x in must ==> x in h && x in v.from;
      CycleGrows(must, v.from);
      assert false;
    }
  }

  /** Every linearization of a history respects what must precede what. */
  lemma MustPrecedeClimbs(ops: set<Operation>, end: map<Operation, int>, rank: map<Operation, int>)
    requires Explains(ops, rank) && Timely(ops, end, rank)
    ensures Climbs(MustPrecede(ops, end), rank)
  {
    forall x, y | x in ops && y in ops && Before(ops, end, ops, x, y) ensures rank[x] < rank[y] {
      if !(end[x] < y.start) {
        var r :| r in ops && Reads(r, y) && Settled(ops, end, x, r.start);
        if !(end[x] < r.start) {
          var q :| q in ops && Reads(q, x) && end[q] < r.start;
          assert PairOk(ops, rank, q, x);
        }
        assert PairOk(ops, rank, r, x);
      }
    }
  }

  /** Two writes that must each precede the other make a cycle, so the checker reports an anomaly. */
  lemma MutualOrderIsCycle(ops: set<Operation>, end: map<Operation, int>, x: Operation, y: Operation)
    requires end.Keys == ops && x in ops && y in ops
    requires Before(ops, end, ops, x, y) && Before(ops, end, ops, y, x)
    ensures HasCycle(MustPrecede(ops, end))
  {
    var must := MustPrecede(ops, end);
    assert Walk(must, x, x, 0);
    WalkSnoc(must, x, x, y, 0);
    WalkSnoc(must, x, y, x, 1);
    assert x in must && OnCycle(must, x);
  }

  /** A read misses a write that ended before it, after the write it returns had ended: the history has a cycle. */
  lemma StaleReadIsCycle(ops: set<Operation>, end: map<Operation, int>, x: Operation, y: Operation, r: Operation)
    requires end.Keys == ops && x in ops && y in ops && r in ops && x != y && !y.IsRead()
    requires Reads(r, x) && end[x] < y.start && end[y] < r.start
    ensures HasCycle(MustPrecede(ops, end))
  {
    assert Settled(ops, end, y, r.start);
    MutualOrderIsCycle(ops, end, x, y);
  }

  /** Two reads that return two finished writes in opposite orders: the history has a cycle. */
  lemma CrossedReadsAreCycle(ops: set<Operation>, end: map<Operation, int>, x: Operation, y: Operation, p: Operation,
                             q: Operation)
    requires end.Keys == ops && x in ops && y in ops && p in ops && q in ops && x != y
    requires Reads(p, x) && Reads(q, y) && Settled(ops, end, y, p.start) && Settled(ops, end, x, q.start)
    ensures HasCycle(MustPrecede(ops, end))
  {
    MutualOrderIsCycle(ops, end, x, y);
  }

  /** A linearized history is plausible. */
  lemma LinearizedIsPlausible(ops: set<Operation>, end: map<Operation, int>, order: seq<Operation>, init: Value)
    requires Linearization(ops, end, order, init)
    ensures Plausible(ops, end)
  {
    LinearizationExplains(ops, end, order, init);
    RanksAt(order);
    forall r, w | r in ops && w in ops && Reads(r, w) ensures w.start <= end[r] {
      assert PairOk(ops, Ranks(order), r, w);
      var i :| 0 <= i < |order| && order[i] == w;
      var j :| 0 <= j < |order| && order[j] == r;
    }
  }
}
