// The checker itself (checker.go): it works a history off in order of start times, keeping the
// operations it has met in a graph.

module Checkers {
  import opened Graphs
  import opened Sequences
  import opened Histories
  import opened CheckerGraph
  import opened Options
  import Sets

  // ---- sorting by start time --------------------------------------------------------------------

  lemma InsertKeeps(s: seq<Operation>, x: Operation, k: nat)
    requires Distinct(s) && Sorted(s) && x !in s && k <= |s|
    requires forall i :: 0 <= i < k ==> s[i].start <= x.start
    requires forall i :: k <= i < |s| ==> x.start <= s[i].start
    ensures var r := s[..k] + [x] + s[k..]; Distinct(r) && Sorted(r) && Ops(r) == Ops(s) + {x}
  {
    var r := s[..k] + [x] + s[k..];
    assert forall i :: 0 <= i < |r| ==> r[i] == if i < k then s[i] else if i == k then x else s[i - 1];
    forall y | y in s ensures y in r {
      var i :| 0 <= i < |s| && s[i] == y;
      assert y == r[if i < k then i else i + 1];
    }
    assert r[k] == x;
  }

  lemma NotYet(h: seq<Operation>, n: nat)
    requires Distinct(h) && n < |h|
    ensures h[n] !in Ops(h[..n])
  {
  }

  method SortByStart(h: seq<Operation>) returns (r: seq<Operation>)
    requires Distinct(h)
    ensures Distinct(r) && Sorted(r) && Ops(r) == Ops(h)
  {
    r := [];
    for n := 0 to |h|
      invariant Distinct(r) && Sorted(r) && Ops(r) == Ops(h[..n])
    {
      var k := |r|;
      while k > 0 && r[k - 1].start > h[n].start
        invariant 0 <= k <= |r| && forall i :: k <= i < |r| ==> h[n].start <= r[i].start
      {
        k := k - 1;
      }
      NotYet(h, n);
      InsertKeeps(r, h[n], k);
      r := r[..k] + [h[n]] + r[k..];
      assert h[..n + 1] == h[..n] + [h[n]];
    }
    assert h[..|h|] == h;
  }

  // ---- the loops over the graph, as values ---------------------------------------------------------

  /** o has joined, with edges from all that ended before it but those of left. */
  ghost function JoinedBut(v: View, o: Operation, left: set<Operation>): map<Operation, set<Operation>>
    requires v.from.Keys <= v.end.Keys
  {
    map u | u in v.from.Keys + {o} ::
      if u == o then {} else if u !in left && v.end[u] < o.start then v.from[u] + {o} else v.from[u]
  }

  lemma JoinOne(v: View, o: Operation, left: set<Operation>, u: Operation)
    requires v.from.Keys <= v.end.Keys && o in v.end && o !in v.from && u in left && u in JoinedBut(v, o, left)
    requires o.start <= v.end[o]
    ensures JoinedBut(v, o, left - {u}) ==
            if v.end[u] < o.start then WithEdge(JoinedBut(v, o, left), u, o) else JoinedBut(v, o, left)
    ensures v.end[u] < o.start ==> u != o
  {
  }

  lemma JoinNone(v: View, o: Operation)
    requires v.from.Keys <= v.end.Keys && o !in v.from
    ensures WithVertex(v.from, o) == JoinedBut(v, o, WithVertex(v.from, o).Keys)
    ensures JoinedBut(v, o, {}) == Joined(v, o).from
  {
  }

  /** w has inherited the edges into r but those from left. */
  ghost function InheritedBut(from: map<Operation, set<Operation>>, r: Operation, w: Operation, left: set<Operation>)
    : map<Operation, set<Operation>>
  {
    map u | u in from :: if r in from[u] && u != w && u !in left then from[u] + {w} else from[u]
  }

  lemma InheritOne(from: map<Operation, set<Operation>>, r: Operation, w: Operation, left: set<Operation>, u: Operation)
    requires r in from && w in from && u in from && r in from[u] && u in left
    ensures InheritedBut(from, r, w, left - {u}) ==
            if u != w then WithEdge(InheritedBut(from, r, w, left), u, w) else InheritedBut(from, r, w, left)
  {
  }

  lemma InheritNone(from: map<Operation, set<Operation>>, r: Operation, w: Operation, left: set<Operation>)
    requires forall u :: u in from && r in from[u] ==> u in left
    ensures InheritedBut(from, r, w, left) == from
  {
  }

  lemma MergedFrom(v: View, r: Operation, w: Operation)
    requires r in v.end && w in v.end
    ensures WithoutVertex(InheritedBut(v.from, r, w, {}), r) == Merged(v, r, w).from
  {
  }

  ghost predicate Backwards(v: View, u: Operation, x: Operation)
  {
    x in v.end && u.start > v.end[x]
  }

  /** The rows of the cycle before a, and of row a the columns before b, have been cut. */
  ghost function CutUpTo(v: View, cycle: seq<Operation>, a: nat, b: nat): map<Operation, set<Operation>>
    requires a <= |cycle| && b <= |cycle|
  {
    map u | u in v.from :: set x | x in v.from[u] && !(Backwards(v, u, x) && Visited(cycle, a, b, u, x))
  }

  ghost predicate Visited(cycle: seq<Operation>, a: nat, b: nat, u: Operation, x: Operation)
    requires a <= |cycle| && b <= |cycle|
  {
    (u in cycle[..a] && x in cycle) || (a < |cycle| && u == cycle[a] && x in cycle[..b])
  }

  lemma CutNone(v: View, cycle: seq<Operation>)
    ensures CutUpTo(v, cycle, 0, 0) == v.from
  {
    assert forall u :: u in v.from ==> CutUpTo(v, cycle, 0, 0)[u] == v.from[u];
  }

  lemma VisitedOne(cycle: seq<Operation>, a: nat, b: nat, u: Operation, x: Operation)
    requires a < |cycle| && b < |cycle|
    ensures Visited(cycle, a, b + 1, u, x) <==> Visited(cycle, a, b, u, x) || (u == cycle[a] && x == cycle[b])
  {
    assert cycle[..b + 1] == cycle[..b] + [cycle[b]];
  }

  lemma VisitedRow(cycle: seq<Operation>, a: nat, u: Operation, x: Operation)
    requires a < |cycle|
    ensures Visited(cycle, a, |cycle|, u, x) <==> Visited(cycle, a + 1, 0, u, x)
  {
    assert cycle[..a + 1] == cycle[..a] + [cycle[a]] && cycle[..|cycle|] == cycle;
  }

  lemma CutOne(v: View, cycle: seq<Operation>, a: nat, b: nat)
    requires a < |cycle| && b < |cycle| && cycle[a] in v.from && cycle[b] in v.end
    ensures cycle[a] in CutUpTo(v, cycle, a, b)
    ensures var g := CutUpTo(v, cycle, a, b);
            CutUpTo(v, cycle, a, b + 1) ==
            if cycle[b] in g[cycle[a]] && cycle[a].start > v.end[cycle[b]] then WithoutEdge(g, cycle[a], cycle[b])
              else g
  {
    forall u | u in v.from
      ensures var g := CutUpTo(v, cycle, a, b);
              CutUpTo(v, cycle, a, b + 1)[u] == if u == cycle[a] && Backwards(v, u, cycle[b]) then g[u] - {cycle[b]}
                else g[u]
    {
      forall x | x in v.from[u]
        ensures Visited(cycle, a, b + 1, u, x) <==> Visited(cycle, a, b, u, x) || (u == cycle[a] && x == cycle[b]) {
        VisitedOne(cycle, a, b, u, x);
      }
    }
    var rest := CutUpTo(v, cycle, a, b)[cycle[a]];
    assert cycle[b] !in rest ==> rest - {cycle[b]} == rest;
  }

  lemma CutRow(v: View, cycle: seq<Operation>, a: nat)
    requires a < |cycle|
    ensures CutUpTo(v, cycle, a, |cycle|) == CutUpTo(v, cycle, a + 1, 0)
  {
    forall u | u in v.from ensures CutUpTo(v, cycle, a, |cycle|)[u] == CutUpTo(v, cycle, a + 1, 0)[u] {
      forall x | x in v.from[u] ensures Visited(cycle, a, |cycle|, u, x) <==> Visited(cycle, a + 1, 0, u, x) {
        VisitedRow(cycle, a, u, x);
      }
    }
  }

  lemma CutAll(v: View, cycle: seq<Operation>)
    requires v.from.Keys <= v.end.Keys
    ensures CutUpTo(v, cycle, |cycle|, 0) == Cut(v, set o | o in cycle).from
  {
    assert cycle[..|cycle|] == cycle;
    forall u | u in v.from ensures CutUpTo(v, cycle, |cycle|, 0)[u] == Cut(v, set o | o in cycle).from[u] {
      assert forall x :: x in v.from[u] ==> (Visited(cycle, |cycle|, 0, u, x) <==> u in cycle && x in cycle);
    }
  }

  // ---- beginning ------------------------------------------------------------------------------------

  /** Claim all that is true of the history. */
  lemma MakeClaim(h: seq<Operation>, end: map<Operation, int>) returns (c: Claim)
    requires Sorted(h) && Distinct(h)
    ensures Fair(h, c) && c.end == end && (c.plausible <==> Plausible(Ops(h), end))
    ensures c.gentle <==> Plausible(Ops(h), end) && Gentle(Ops(h), end)
    ensures c.explained ==> Timely(Ops(h), end, c.rank)
    ensures forall order: seq<Operation>, init :: Linearization(Ops(h), end, order, init) ==> c.explained
  {
    var plausible := Plausible(Ops(h), end);
    var gentle := plausible && Gentle(Ops(h), end);
    if order: seq<Operation>, init :| Linearization(Ops(h), end, order, init) {
      LinearizationExplains(Ops(h), end, order, init);
      LinearizedIsPlausible(Ops(h), end, order, init);
      c := Claim(end, Ranks(order), true, true, gentle);
    } else {
      c := Claim(end, map[], plausible, false, gentle);
    }
  }

  lemma Starts(h: seq<Operation>, c: Claim, v: View)
    requires Fair(h, c) && v == View(map[], c.end) && c.end.Keys == Ops(h)
    requires forall o :: o in Ops(h) ==> o.start <= c.end[o]
    requires c.explained ==> Timely(Ops(h), c.end, c.rank)
    ensures Idle(h, c, 0, true, v)
  {
  }

  // ---- the answer -----------------------------------------------------------------------------------

  /**
   * The answer after i operations lists reads among them in their order: all refuted ones, none if the history is
   * explained, and only those that miss a write if it is gentle.
   */
  ghost predicate Reported(h: seq<Operation>, c: Claim, i: nat, anomaly: seq<Operation>) {
    && i <= |h| && c.end.Keys == Ops(h) && Distinct(anomaly) && Sorted(anomaly)
    && (forall o :: o in anomaly ==> o in DoneReads(h, i)) && (c.explained ==> anomaly == [])
    && (c.plausible ==> forall r :: r in DoneReads(h, i) && Refuted(Ops(h), c.end, r) ==> r in anomaly)
    && (c.gentle ==> forall r :: r in anomaly ==> MissesSome(Ops(h), c.end, r))
  }

  lemma ReportedWrite(h: seq<Operation>, c: Claim, i: nat, anomaly: seq<Operation>)
    requires Reported(h, c, i, anomaly) && i < |h| && !h[i].IsRead()
    ensures Reported(h, c, i + 1, anomaly)
  {
    DoneGrows(h, i);
  }

  lemma ReportedRead(h: seq<Operation>, c: Claim, i: nat, anomaly: seq<Operation>, found: bool)
    requires Reported(h, c, i, anomaly) && i < |h| && h[i].IsRead() && Fair(h, c) && (found ==> !c.explained)
    requires c.plausible && Refuted(Ops(h), c.end, h[i]) ==> found
    requires c.gentle && found ==> MissesSome(Ops(h), c.end, h[i])
    ensures Reported(h, c, i + 1, if found then anomaly + [h[i]] else anomaly)
  {
    DoneGrows(h, i);
    forall o | o in anomaly ensures o != h[i] && o.start <= h[i].start {
      var k :| 0 <= k < i && h[k] == o;
    }
  }

  /** The whole answer. */
  lemma AllReported(h: seq<Operation>, c: Claim, anomaly: seq<Operation>)
    requires Reported(h, c, |h|, anomaly) && Fair(h, c)
    ensures Distinct(anomaly) && Sorted(anomaly) && forall o :: o in anomaly ==> o in h && o.IsRead()
    ensures c.plausible ==> forall r :: r in h && Refuted(Ops(h), c.end, r) ==> r in anomaly
    ensures c.gentle ==> forall r :: r in h ==> (r in anomaly <==> MissesSome(Ops(h), c.end, r))
  {
    forall r | r in h && r.IsRead() ensures r in DoneReads(h, |h|) {
      var k :| 0 <= k < |h| && h[k] == r;
    }
    if c.gentle {
      forall r | r in h && MissesSome(Ops(h), c.end, r) ensures Refuted(Ops(h), c.end, r) {
        MissingIsRefuted(Ops(h), c.end, r);
      }
    }
  }

  // ---- the checker ----------------------------------------------------------------------------------

  class Checker {
    var graph: Graph<Operation>

    ghost predicate Valid() reads this, graph { graph.Valid() }

    ghost function Now(ops: set<Operation>): View reads this, graph, ops {
      View(graph.from, Ends(ops))
    }

    constructor ()
      ensures Valid() && fresh(graph) && graph.from == map[]
    {
      graph := new Graph();
    }

    method Clear()
      modifies this
      ensures Valid() && fresh(graph) && graph.from == map[]
    {
      graph := new Graph();
    }

    /** The loop of Add over the vertices. */
    method AddEdges(o: Operation, ghost v: View)
      requires Valid() && v.from.Keys <= v.end.Keys && o in v.end && o !in v.from && o.start <= v.end[o]
      requires graph.from == WithVertex(v.from, o) && forall u :: u in v.end ==> u.end == v.end[u]
      modifies graph
      ensures Valid() && graph.from == Joined(v, o).from
    {
      JoinNone(v, o);
      var left := graph.vertices;
      while left != {}
        invariant Valid() && left <= graph.vertices
        invariant graph.from == JoinedBut(v, o, left)
        decreases left
      {
        ghost var some := Sets.Some(left);
        var u :| u in left;
        JoinOne(v, o, left, u);
        left := left - {u};
        if u.HappenBefore(o) {
          graph.AddEdge(u, o);
        }
      }
    }

    /** A newcomer that ended before it started would get an edge to itself, and the graph panics. */
    method Add(o: Operation, ghost ops: set<Operation>)
      requires Valid() && graph.from.Keys <= ops && o in ops && (o in graph.from || o.start <= o.end)
      modifies graph
      ensures Valid() && Now(ops) == Joined(old(Now(ops)), o)
    {
      if graph.Has(o) {
        return;
      }
      ghost var v := Now(ops);
      graph.Add(o);
      AddEdges(o, v);
    }

    /** Some vertex whose input equals what the read returned, if there is one. */
    method Match(read: Operation) returns (m: Option<Operation>)
      requires Valid()
      ensures m.Some? ==> m.value in graph.vertices && read.output.Equals(m.value.input)
      ensures m.None? ==> forall v :: v in graph.vertices ==> !read.output.Equals(v.input)
    {
      var left := graph.vertices;
      while left != {}
        invariant left <= graph.vertices
        invariant forall v :: v in graph.vertices - left ==> !read.output.Equals(v.input)
        decreases left
      {
        ghost var some := Sets.Some(left);
        var v :| v in left;
        left := left - {v};
        if read.output.Equals(v.input) {
          return Some(v);
        }
      }
      return None;
    }

    /** The loop of Merge over the edges into the read. */
    method Inherit(read: Operation, write: Operation)
      requires Valid() && read in graph.vertices && write in graph.vertices
      modifies graph
      ensures Valid() && graph.from == InheritedBut(old(graph.from), read, write, {})
    {
      ghost var from := graph.from;
      var left := graph.to[read];
      InheritNone(from, read, write, left);
      while left != {}
        invariant Valid() && left <= from.Keys
        invariant forall u :: u in left ==> read in from[u]
        invariant graph.from == InheritedBut(from, read, write, left)
        decreases left
      {
        ghost var some := Sets.Some(left);
        var s :| s in left;
        InheritOne(from, read, write, left, s);
        left := left - {s};
        if s != write {
          graph.AddEdge(s, write);
        }
      }
    }

    /** Refine the response time of the merged vertex. */
    method CutShort(read: Operation, write: Operation, ghost ops: set<Operation>)
      requires read in ops && write in ops
      modifies write
      ensures Ends(ops) == old(Ends(ops))[write := if old(read.end) < old(write.end) then old(read.end)
                                          else old(write.end)]
    {
      if read.end < write.end {
        write.end := read.end;
      }
    }

    method Merge(read: Operation, write: Operation, ghost ops: set<Operation>)
      requires Valid() && graph.from.Keys <= ops && read in graph.vertices && write in graph.vertices
      modifies graph, write
      ensures Valid() && graph.from == Merged(old(Now(ops)), read, write).from
      ensures Ends(ops) == Merged(old(Now(ops)), read, write).end
    {
      MergedFrom(Now(ops), read, write);
      Inherit(read, write);
      assert Ends(ops) == old(Ends(ops));
      CutShort(read, write, ops);
      label Shortened:
      graph.Remove(read);
      assert Ends(ops) == old@Shortened(Ends(ops));
    }

    /** Look ahead for concurrent writes. */
    method LookAhead(h: seq<Operation>, i: nat, ghost c: Claim, ghost clean: bool) returns (ghost j: nat)
      requires Valid() && Reading(h, c, i, clean, Now(Ops(h))) && Looked(h, c, i, i + 1, Now(Ops(h)))
      modifies graph
      ensures Valid() && Reading(h, c, i, clean, Now(Ops(h))) && Looked(h, c, i, j, Now(Ops(h)))
      ensures LookedPast(h, Now(Ops(h)), i, j)
      ensures Ends(Ops(h)) == old(Ends(Ops(h)))
    {
      var k := i + 1;
      while k < |h| && h[i].Concurrent(h[k])
        invariant i < k <= |h| && Valid() && Ends(Ops(h)) == old(Ends(Ops(h)))
        invariant Reading(h, c, i, clean, Now(Ops(h))) && Looked(h, c, i, k, Now(Ops(h)))
      {
        ghost var v := Now(Ops(h));
        assert h[i] in Ops(h) && h[k] in Ops(h);
        if h[k].output.Nil? {
          LooksAhead(h, c, i, k, clean, v);
          Add(h[k], Ops(h));
        } else {
          SkipsAhead(h, c, i, k, v);
        }
        k := k + 1;
      }
      assert h[i] in Ops(h) && (k < |h| ==> h[k] in Ops(h));
      j := k;
    }

    /** Drop one vertex's edges to vertices of the cycle that ended before it started. */
    method CutVertex(cycle: seq<Operation>, a: nat, ghost v: View)
      requires Valid() && v.from.Keys <= v.end.Keys && a < |cycle| && forall o :: o in cycle ==> o in v.from
      requires graph.from == CutUpTo(v, cycle, a, 0) && Ends(v.end.Keys) == v.end
      modifies graph
      ensures Valid() && graph.from == CutUpTo(v, cycle, a + 1, 0)
    {
      for b := 0 to |cycle|
        invariant Valid() && graph.from == CutUpTo(v, cycle, a, b)
      {
        CutOne(v, cycle, a, b);
        if cycle[b] in graph.from[cycle[a]] && cycle[a].start > cycle[b].end {
          graph.RemoveEdge(cycle[a], cycle[b]);
        }
      }
      CutRow(v, cycle, a);
    }

    /** Drop the edges among the cycle's vertices that run backwards in time. */
    method CutCycle(cycle: seq<Operation>, ghost ops: set<Operation>)
      requires Valid() && graph.from.Keys <= ops && forall o :: o in cycle ==> o in graph.vertices
      modifies graph
      ensures Valid() && Now(ops) == Cut(old(Now(ops)), set o | o in cycle)
    {
      ghost var v := Now(ops);
      CutNone(v, cycle);
      for a := 0 to |cycle|
        invariant Valid() && graph.from == CutUpTo(v, cycle, a, 0)
      {
        assert Ends(v.end.Keys) == v.end;
        CutVertex(cycle, a, v);
      }
      CutAll(v, cycle);
    }

    /** Merge a read into the write it returns, if that is there. */
    method MergeIntoMatch(h: seq<Operation>, i: nat, ghost c: Claim, ghost clean: bool, ghost j: nat)
      requires Valid() && Reading(h, c, i, clean, Now(Ops(h))) && Looked(h, c, i, j, Now(Ops(h)))
      requires LookedPast(h, Now(Ops(h)), i, j)
      modifies graph, Ops(h)
      ensures Valid() && Judged(h, c, i, clean, Now(Ops(h)))
    {
      var m := Match(h[i]);
      if m.Some? {
        ReadMatched(h, c, i, clean, Now(Ops(h)), m.value);
        Merge(h[i], m.value, Ops(h));
      } else {
        ReadUnmatched(h, c, i, j, clean, Now(Ops(h)));
      }
    }

    /** Add a read, look ahead, and merge it into the write it returns. */
    method JoinRead(h: seq<Operation>, i: nat, ghost c: Claim, ghost clean: bool)
      requires Valid() && i < |h| && h[i].IsRead() && Idle(h, c, i, clean, Now(Ops(h)))
      modifies graph, Ops(h)
      ensures Valid() && Judged(h, c, i, clean, Now(Ops(h)))
    {
      assert h[i] in Ops(h);
      ReadStarts(h, c, i, clean, Now(Ops(h)));
      Add(h[i], Ops(h));
      ghost var j := LookAhead(h, i, c, clean);
      MergeIntoMatch(h, i, c, clean, j);
    }

    /** The iteration over a read; found says that it closed a cycle. */
    method CheckRead(h: seq<Operation>, i: nat, ghost c: Claim, ghost clean: bool) returns (found: bool)
      requires Valid() && i < |h| && h[i].IsRead() && Idle(h, c, i, clean, Now(Ops(h)))
      modifies graph, Ops(h)
      ensures Valid() && Idle(h, c, i + 1, clean && !found, Now(Ops(h)))
      ensures found ==> !c.explained
      ensures c.plausible && Refuted(Ops(h), c.end, h[i]) ==> found
      ensures c.gentle && found ==> MissesSome(Ops(h), c.end, h[i])
    {
      JoinRead(h, i, c, clean);
      var cycle := graph.Cycle();
      found := cycle.Some?;
      ghost var v := Now(Ops(h));
      if found {
        CycleFound(h, c, i, clean, v);
        CutKeeps(h, c, i, clean, v, set x | x in cycle.value);
        CutCycle(cycle.value, Ops(h));
      } else {
        NoCycleFound(h, c, i, clean, v);
      }
    }

    /** One iteration of Linearizable. */
    method Step(h: seq<Operation>, i: nat, ghost c: Claim, anomaly0: seq<Operation>) returns (anomaly: seq<Operation>)
      requires Valid() && i < |h| && Idle(h, c, i, anomaly0 == [], Now(Ops(h))) && Reported(h, c, i, anomaly0)
      modifies graph, Ops(h)
      ensures Valid() && Idle(h, c, i + 1, anomaly == [], Now(Ops(h))) && Reported(h, c, i + 1, anomaly)
    {
      anomaly := anomaly0;
      if h[i].IsRead() {
        var found := CheckRead(h, i, c, anomaly == []);
        if found {
          anomaly := anomaly + [h[i]];
        }
        ReportedRead(h, c, i, anomaly0, found);
      } else {
        WriteDone(h, c, i, anomaly == [], Now(Ops(h)));
        assert h[i] in Ops(h);
        Add(h[i], Ops(h));
        ReportedWrite(h, c, i, anomaly0);
      }
    }

    /** The loop of Linearizable. */
    method CheckAll(h: seq<Operation>, ghost c: Claim) returns (anomaly: seq<Operation>)
      requires Valid() && Idle(h, c, 0, true, Now(Ops(h))) && c.end.Keys == Ops(h)
      modifies graph, Ops(h)
      ensures Reported(h, c, |h|, anomaly)
      ensures c.plausible && anomaly == [] ==> !HasCycle(MustPrecede(Ops(h), c.end))
    {
      anomaly := [];
      for i := 0 to |h|
        invariant Valid() && Idle(h, c, i, anomaly == [], Now(Ops(h))) && Reported(h, c, i, anomaly)
      {
        anomaly := Step(h, i, c, anomaly);
      }
      if c.plausible && anomaly == [] {
        CleanMeansOrderable(h, c, Now(Ops(h)));
      }
    }

    /** The reads whose values show that the history has no linearization. */
    method Linearizable(history: seq<Operation>) returns (anomaly: seq<Operation>)
      requires Distinct(history) && forall o :: o in history ==> o.start <= o.end
      modifies this, Ops(history)
      ensures Distinct(anomaly) && Sorted(anomaly) && forall o :: o in anomaly ==> o in history && o.IsRead()
      ensures forall order: seq<Operation>, init ::
                Linearization(Ops(history), old(Ends(Ops(history))), order, init) ==> anomaly == []
      ensures Plausible(Ops(history), old(Ends(Ops(history)))) && anomaly == []
              ==> !HasCycle(MustPrecede(Ops(history), old(Ends(Ops(history)))))
      ensures Plausible(Ops(history), old(Ends(Ops(history))))
              ==> forall r :: r in history && Refuted(Ops(history), old(Ends(Ops(history))), r) ==> r in anomaly
      ensures Plausible(Ops(history), old(Ends(Ops(history)))) && Gentle(Ops(history), old(Ends(Ops(history))))
              ==> forall r :: r in history ==>
                    (r in anomaly <==> MissesSome(Ops(history), old(Ends(Ops(history))), r))
    {
      Clear();
      var h := SortByStart(history);
      ghost var ops := Ops(history);
      assert Ops(h) == ops;
      ghost var c := MakeClaim(h, Ends(ops));
      Starts(h, c, Now(ops));
      assert c.end == old(Ends(Ops(history)));
      anomaly := CheckAll(h, c);
      AllReported(h, c, anomaly);
      assert forall o :: o in history <==> o in ops;
      assert forall o :: o in h <==> o in ops;
    }
  }
}
