// The directed graph of lib/graph.go: breadth- and depth-first search, and the three-colour
// search for a cycle.

module Graphs {
  import opened Options
  import opened Sequences
  import Sets

  // ---- walks --------------------------------------------------------------------------------

  function Out<T>(from: map<T, set<T>>, v: T): set<T> { if v in from then from[v] else {} }

  /** n edges lead from u to v. */
  ghost predicate Walk<T>(from: map<T, set<T>>, u: T, v: T, n: nat) {
    if n == 0 then u == v else exists x :: x in Out(from, u) && Walk(from, x, v, n - 1)
  }

  ghost predicate Reaches<T>(from: map<T, set<T>>, u: T, v: T) { exists n: nat :: Walk(from, u, v, n) }

  /** The shortest walk from u to v has n edges. */
  ghost predicate Distance<T>(from: map<T, set<T>>, u: T, v: T, n: nat) {
    Walk(from, u, v, n) && forall k: nat :: k < n ==> !Walk(from, u, v, k)
  }

  ghost predicate OnCycle<T>(from: map<T, set<T>>, v: T) { exists n: nat :: n > 0 && Walk(from, v, v, n) }

  ghost predicate HasCycle<T>(from: map<T, set<T>>) { exists v :: v in from && OnCycle(from, v) }

  /** The part of the graph whose edges stay within s. */
  ghost function Within<T>(from: map<T, set<T>>, s: set<T>): map<T, set<T>> {
    map u | u in from && u in s :: from[u] * s
  }

  lemma {:induction false} WalkSnoc<T>(from: map<T, set<T>>, u: T, x: T, v: T, n: nat)
    requires Walk(from, u, x, n) && v in Out(from, x)
    ensures Walk(from, u, v, n + 1)
  {
    if n == 0 {
      assert Walk(from, v, v, 0);
    } else {
      var y :| y in Out(from, u) && Walk(from, y, x, n - 1);
      WalkSnoc(from, y, x, v, n - 1);
    }
  }

  lemma {:induction false} WalkLast<T>(from: map<T, set<T>>, u: T, v: T, n: nat) returns (x: T)
    requires Walk(from, u, v, n + 1)
    ensures Walk(from, u, x, n) && v in Out(from, x)
  {
    var y :| y in Out(from, u) && Walk(from, y, v, n);
    if n == 0 {
      x := u;
    } else {
      x := WalkLast(from, y, v, n - 1);
    }
  }

  /** More edges, more walks. */
  lemma {:induction false} WalkGrows<T>(small: map<T, set<T>>, large: map<T, set<T>>, u: T, v: T, n: nat)
    requires Walk(small, u, v, n) && forall x :: x in small ==> small[x] <= Out(large, x)
    ensures Walk(large, u, v, n)
  {
    if n > 0 {
      var y :| y in Out(small, u) && Walk(small, y, v, n - 1);
      WalkGrows(small, large, y, v, n - 1);
    }
  }

  lemma CycleGrows<T>(small: map<T, set<T>>, large: map<T, set<T>>)
    requires HasCycle(small) && forall x :: x in small ==> x in large && small[x] <= large[x]
    ensures HasCycle(large)
  {
    var v :| v in small && OnCycle(small, v);
    var n: nat :| n > 0 && Walk(small, v, v, n);
    WalkGrows(small, large, v, v, n);
    assert OnCycle(large, v);
  }

  /** A cycle passes through one of its first vertex's successors. */
  lemma CycleMovesOn<T>(from: map<T, set<T>>, v: T) returns (u: T)
    requires OnCycle(from, v)
    ensures u in Out(from, v) && OnCycle(from, u)
  {
    var n: nat :| n > 0 && Walk(from, v, v, n);
    u :| u in Out(from, v) && Walk(from, u, v, n - 1);
    WalkSnoc(from, u, v, u, n - 1);
  }

  /** rank grows along every edge. */
  ghost predicate Climbs<T>(from: map<T, set<T>>, rank: map<T, int>) {
    from.Keys <= rank.Keys && forall x, y :: x in from && y in from[x] ==> y in rank && rank[x] < rank[y]
  }

  lemma {:induction false} RankClimbs<T>(from: map<T, set<T>>, rank: map<T, int>, u: T, v: T, n: nat)
    requires Climbs(from, rank)
    requires u in rank && Walk(from, u, v, n)
    ensures v in rank && (n > 0 ==> rank[u] < rank[v]) && (n == 0 ==> u == v)
  {
    if n > 0 {
      var y :| y in Out(from, u) && Walk(from, y, v, n - 1);
      RankClimbs(from, rank, y, v, n - 1);
    }
  }

  lemma RankedIsAcyclic<T>(from: map<T, set<T>>, rank: map<T, int>)
    requires Climbs(from, rank)
    ensures !HasCycle(from)
  {
    if HasCycle(from) {
      var v :| v in from && OnCycle(from, v);
      var n: nat :| n > 0 && Walk(from, v, v, n);
      RankClimbs(from, rank, v, v, n);
      assert false;
    }
  }

  // ---- searches -----------------------------------------------------------------------------

  ghost predicate NearestFirst<T>(from: map<T, set<T>>, v: T, s: seq<T>) {
    forall i, j, d: nat, e: nat ::
      0 <= i < j < |s| && Distance(from, v, s[i], d) && Distance(from, v, s[j], e) ==> d <= e
  }

  /** A set that v belongs to and no edge leaves holds everything v reaches. */
  lemma {:induction false} ClosedKeeps<T>(from: map<T, set<T>>, s: set<T>, v: T, u: T, n: nat)
    requires v in s && Walk(from, v, u, n) && forall x :: x in s ==> Out(from, x) <= s
    ensures u in s
  {
    if n > 0 {
      var y :| y in Out(from, v) && Walk(from, y, u, n - 1);
      ClosedKeeps(from, s, y, u, n - 1);
    }
  }

  /** order lists the visited vertices by their distance from v, which level records. */
  ghost predicate Levels<T>(from: map<T, set<T>>, v: T, visited: set<T>, order: seq<T>, level: map<T, nat>) {
    && v in visited && level.Keys == visited
    && (forall u :: u in visited ==> u in order) && (forall u :: u in order ==> u in visited)
    && Distinct(order)
    && (forall u :: u in visited ==> Distance(from, v, u, level[u]))
    && (forall i, j :: 0 <= i < j < |order| ==> level[order[i]] <= level[order[j]])
  }

  ghost predicate Expanded<T>(from: map<T, set<T>>, visited: set<T>, done: seq<T>) {
    forall i :: 0 <= i < |done| ==> Out(from, done[i]) <= visited
  }

  /** The first k vertices are expanded; the rest are queued, within one level of each other. */
  ghost predicate Frontier<T>(from: map<T, set<T>>, all: set<T>, v: T, visited: set<T>, order: seq<T>, k: nat,
                              level: map<T, nat>) {
    && Levels(from, v, visited, order, level) && Closed(from, all) && visited <= all
    && k <= |order| && Expanded(from, visited, order[..k])
    && (k < |order| ==> forall u :: u in visited ==> level[u] <= level[order[k]] + 1)
  }

  ghost predicate Closed<T>(from: map<T, set<T>>, all: set<T>) { forall u :: u in all ==> Out(from, u) <= all }

  /** Whatever is at most d edges away has been seen. */
  ghost predicate SeenTo<T>(from: map<T, set<T>>, all: set<T>, v: T, seen: set<T>, d: nat) {
    forall u, n: nat :: u in all && n <= d && Walk(from, v, u, n) ==> u in seen
  }

  /** The k-th vertex, at level d, is being expanded. */
  ghost predicate Expanding<T>(from: map<T, set<T>>, all: set<T>, v: T, seen: set<T>, visited: set<T>, order: seq<T>,
                               level: map<T, nat>, k: nat, d: nat) {
    && Levels(from, v, visited, order, level) && Closed(from, all) && seen <= visited <= all
    && SeenTo(from, all, v, seen, d)
    && k < |order| && level[order[k]] == d && Expanded(from, visited, order[..k])
    && forall u :: u in visited ==> level[u] <= d + 1
  }

  lemma Nearest<T>(from: map<T, set<T>>, all: set<T>, v: T, visited: set<T>, order: seq<T>, k: nat, level: map<T, nat>)
    requires Frontier(from, all, v, visited, order, k, level) && k < |order|
    ensures Expanding(from, all, v, visited, visited, order, level, k, level[order[k]])
  {
    forall u, n: nat | u in all && n <= level[order[k]] && Walk(from, v, u, n) ensures u in visited {
      Near(from, v, visited, order, k, level, u, n);
    }
  }

  lemma Discovered<T>(from: map<T, set<T>>, all: set<T>, v: T, seen: set<T>, visited: set<T>, order: seq<T>,
                      level: map<T, nat>, k: nat, d: nat, t: T)
    requires Expanding(from, all, v, seen, visited, order, level, k, d)
    requires t in Out(from, order[k]) && t !in visited
    ensures Expanding(from, all, v, seen, visited + {t}, order + [t], level[t := d + 1], k, d)
  {
    WalkSnoc(from, v, order[k], t, d);
    assert Distance(from, v, t, d + 1);
    LevelsGrow(from, v, visited, order, level, t, d);
    assert (order + [t])[..k] == order[..k];
  }

  lemma Expansion<T>(from: map<T, set<T>>, all: set<T>, v: T, seen: set<T>, visited: set<T>, order: seq<T>,
                     level: map<T, nat>, k: nat, d: nat)
    requires Expanding(from, all, v, seen, visited, order, level, k, d) && Out(from, order[k]) <= visited
    ensures Frontier(from, all, v, visited, order, k + 1, level)
  {
    assert order[..k + 1] == order[..k] + [order[k]];
  }

  lemma AllFound<T>(from: map<T, set<T>>, all: set<T>, v: T, visited: set<T>, result: seq<T>, level: map<T, nat>)
    requires Frontier(from, all, v, visited, result, |result|, level)
    ensures forall u :: u in result ==> Reaches(from, v, u)
    ensures forall u :: u in all && Reaches(from, v, u) ==> u in result
    ensures Distinct(result) && NearestFirst(from, v, result)
  {
    assert result[..|result|] == result;
    forall u | u in all && Reaches(from, v, u) ensures u in result {
      var n: nat :| Walk(from, v, u, n);
      ClosedKeeps(from, visited, v, u, n);
    }
  }

  lemma LevelsGrow<T>(from: map<T, set<T>>, v: T, visited: set<T>, order: seq<T>, level: map<T, nat>, t: T, d: nat)
    requires Levels(from, v, visited, order, level) && t !in visited
    requires Distance(from, v, t, d + 1) && forall u :: u in visited ==> level[u] <= d + 1
    ensures Levels(from, v, visited + {t}, order + [t], level[t := d + 1])
  {
    assert forall u :: u in visited ==> u in order + [t];
  }

  /** With the first k vertices expanded, everything as near as the next one has been seen. */
  lemma {:induction false} Near<T>(from: map<T, set<T>>, v: T, visited: set<T>, order: seq<T>, k: nat,
                                   level: map<T, nat>, u: T, n: nat)
    requires Levels(from, v, visited, order, level) && k < |order| && n <= level[order[k]]
    requires Expanded(from, visited, order[..k])
    requires Walk(from, v, u, n)
    ensures u in visited
  {
    if n > 0 {
      var x := WalkLast(from, v, u, n - 1);
      Near(from, v, visited, order, k, level, x, n - 1);
      assert level[x] <= n - 1;
      var i :| 0 <= i < |order| && order[i] == x;
      assert i < k;
      assert order[..k][i] == x;
    }
  }

  lemma MoveFront<T>(done: seq<T>, queue: seq<T>)
    requires queue != []
    ensures (done + queue)[|done|] == queue[0] && done + queue == (done + [queue[0]]) + queue[1..]
  {
  }

  lemma PushBack<T>(done: seq<T>, queue: seq<T>, t: T)
    ensures (done + queue) + [t] == done + (queue + [t])
  {
  }

  /** The loop over the neighbours of the vertex just taken off the queue. */
  method Expand<T(==)>(from: map<T, set<T>>, ghost all: set<T>, ghost v: T, seen: set<T>, result: seq<T>,
                       queue0: seq<T>,
                       ghost level0: map<T, nat>, ghost d: nat)
    returns (visited: set<T>, queue: seq<T>, ghost level: map<T, nat>)
    requires result != [] && Expanding(from, all, v, seen, seen, result + queue0, level0, |result| - 1, d)
    ensures Frontier(from, all, v, visited, result + queue, |result|, level)
  {
    visited, queue, level := seen, queue0, level0;
    var s := result[|result| - 1];
    var left := Out(from, s);
    while left != {}
      invariant left <= Out(from, s)
      invariant Expanding(from, all, v, seen, visited, result + queue, level, |result| - 1, d)
      invariant Out(from, s) - left <= visited
      decreases left
    {
      ghost var some := Sets.Some(left);
      var t :| t in left;
      left := left - {t};
      if t !in visited {
        Discovered(from, all, v, seen, visited, result + queue, level, |result| - 1, d, t);
        PushBack(result, queue, t);
        visited, queue, level := visited + {t}, queue + [t], level[t := d + 1];
      }
    }
    Expansion(from, all, v, seen, visited, result + queue, level, |result| - 1, d);
  }

  lemma SourceQueued<T>(from: map<T, set<T>>, all: set<T>, v: T)
    requires v in all && Closed(from, all)
    ensures Frontier(from, all, v, {v}, [] + [v], 0, map[v := 0])
  {
    assert Walk(from, v, v, 0);
    assert [] + [v] == [v];
  }

  /** Every vertex that v reaches, once each, nearest first. */
  method BreadthFirst<T(==)>(from: map<T, set<T>>, ghost all: set<T>, v: T) returns (result: seq<T>)
    requires v in all && Closed(from, all)
    ensures forall u :: u in result ==> Reaches(from, v, u)
    ensures forall u :: u in all && Reaches(from, v, u) ==> u in result
    ensures Distinct(result) && NearestFirst(from, v, result)
  {
    result := [];
    var visited, queue := {v}, [v];
    ghost var level: map<T, nat> := map[v := 0];
    SourceQueued(from, all, v);
    while queue != []
      invariant Frontier(from, all, v, visited, result + queue, |result|, level)
      decreases |all| - |result|
    {
      ghost var d := level[queue[0]];
      MoveFront(result, queue);
      Nearest(from, all, v, visited, result + queue, |result|, level);
      FitsIn(result + queue, all);
      result, queue := result + [queue[0]], queue[1..];
      visited, queue, level := Expand(from, all, v, visited, result, queue, level, d);
    }
    assert result + queue == result;
    AllFound(from, all, v, visited, result, level);
  }

  /** What the depth-first loop keeps: it holds only what v reaches, and has yet to visit only what is stacked. */
  ghost predicate Exploring<T>(from: map<T, set<T>>, all: set<T>, v: T, visited: set<T>, result: seq<T>,
                               stack: seq<T>) {
    && visited <= all && Distinct(result)
    && (forall u :: u in visited ==> u in result) && (forall u :: u in result ==> u in visited)
    && (forall u :: u in visited ==> Reaches(from, v, u))
    && (forall u :: u in stack ==> u in all && Reaches(from, v, u))
    && (forall u, t :: u in visited && t in Out(from, u) ==> t in visited || t in stack)
    && (v in visited || v in stack)
  }

  /** The loop over the neighbours of the vertex just taken off the stack. */
  method PushAll<T(==)>(neighbours: set<T>, visited: set<T>, stack0: seq<T>) returns (stack: seq<T>)
    ensures stack0 <= stack
    ensures forall i :: |stack0| <= i < |stack| ==> stack[i] in neighbours - visited
    ensures forall x :: x in neighbours - visited ==> x in stack
  {
    stack := stack0;
    var left := neighbours;
    while left != {}
      invariant left <= neighbours && stack0 <= stack
      invariant forall i :: |stack0| <= i < |stack| ==> stack[i] in neighbours - visited
      invariant forall x :: x in neighbours - visited - left ==> x in stack
      decreases left
    {
      ghost var some := Sets.Some(left);
      var t :| t in left;
      left := left - {t};
      if t !in visited {
        stack := stack + [t];
      }
    }
  }

  /** next is the stack with its top replaced by some of pushed. */
  ghost predicate Replaced<T>(stack: seq<T>, next: seq<T>, pushed: set<T>) {
    && stack != [] && stack[..|stack| - 1] <= next
    && (forall i :: |stack| - 1 <= i < |next| ==> next[i] in pushed) && (forall x :: x in pushed ==> x in next)
  }

  lemma ReplacedMembers<T>(stack: seq<T>, next: seq<T>, pushed: set<T>)
    requires Replaced(stack, next, pushed)
    ensures forall x :: x in stack ==> x == stack[|stack| - 1] || x in next
    ensures forall x :: x in next ==> x in stack || x in pushed
  {
    forall x | x in stack && x != stack[|stack| - 1] ensures x in next {
      var i :| 0 <= i < |stack| && stack[i] == x;
      assert next[i] == x;
    }
    forall x | x in next ensures x in stack || x in pushed {
      var i :| 0 <= i < |next| && next[i] == x;
      assert i < |stack| - 1 ==> stack[i] == x;
    }
  }

  lemma Popped<T>(from: map<T, set<T>>, all: set<T>, v: T, visited: set<T>, result: seq<T>, stack: seq<T>, next: seq<T>)
    requires Closed(from, all) && stack != [] && Exploring(from, all, v, visited, result, stack)
    requires var s := stack[|stack| - 1]; Replaced(stack, next, Out(from, s) - (visited + {s}))
    ensures var s := stack[|stack| - 1];
            Exploring(from, all, v, visited + {s}, if s in visited then result else result + [s], next)
  {
    var s := stack[|stack| - 1];
    assert s in stack;
    ReplacedMembers(stack, next, Out(from, s) - (visited + {s}));
    var n: nat :| Walk(from, v, s, n);
    forall t | t in Out(from, s) ensures Reaches(from, v, t) {
      WalkSnoc(from, v, s, t, n);
    }
  }

  /** Every vertex that v reaches, once each.  A visited vertex that is popped may push its neighbours again. */
  method DepthFirst<T(==)>(from: map<T, set<T>>, ghost all: set<T>, v: T) returns (result: seq<T>)
    requires v in all && Closed(from, all)
    ensures forall u :: u in result ==> Reaches(from, v, u)
    ensures forall u :: u in all && Reaches(from, v, u) ==> u in result
    ensures Distinct(result)
  {
    result := [];
    var visited, stack := {}, [v];
    assert Walk(from, v, v, 0);
    while stack != []
      invariant Exploring(from, all, v, visited, result, stack)
      decreases all - visited, if stack != [] && stack[|stack| - 1] in visited then 1 else 0, |stack|
    {
      ghost var stack0, result0, visited0 := stack, result, visited;
      var s := stack[|stack| - 1];
      stack := stack[..|stack| - 1];
      assert s in stack0;
      if s !in visited {
        visited := visited + {s};
        result := result + [s];
      }
      assert visited == visited0 + {s};
      stack := PushAll(Out(from, s), visited, stack);
      Popped(from, all, v, visited0, result0, stack0, stack);
    }
    forall u | u in all && Reaches(from, v, u) ensures u in result {
      var n: nat :| Walk(from, v, u, n);
      ClosedKeeps(from, visited, v, u, n);
    }
  }

  // ---- cycles -------------------------------------------------------------------------------

  datatype Color = White | Gray | Black

  ghost function Whites<T>(colors: map<T, Color>): set<T> { set u | u in colors && colors[u] == White }

  ghost function Grays<T>(colors: map<T, Color>): set<T> { set u | u in colors && colors[u] == Gray }

  /** Black vertices lead only to black vertices and lie on no cycle. */
  ghost predicate BlacksDone<T>(from: map<T, set<T>>, colors: map<T, Color>) {
    forall u :: u in colors && colors[u] == Black ==>
      !OnCycle(from, u) && forall t :: t in Out(from, u) ==> t in colors && colors[t] == Black
  }

  /** Every gray vertex reaches v without leaving the gray ones and v. */
  ghost predicate GraysLeadTo<T>(from: map<T, set<T>>, grays: set<T>, v: T) {
    forall g :: g in grays ==> Reaches(Within(from, grays + {v}), g, v)
  }

  /** Some white vertices turned black. */
  ghost predicate Blacker<T>(a: map<T, Color>, b: map<T, Color>) {
    b.Keys == a.Keys && forall u :: u in a ==> b[u] == a[u] || (a[u] == White && b[u] == Black)
  }

  /** An edge from v back to a gray vertex closes a cycle of gray vertices. */
  lemma BackEdge<T>(from: map<T, set<T>>, grays: set<T>, v: T, u: T)
    requires GraysLeadTo(from, grays, v) && v in from && u in from
    requires u in from[v] && u in grays + {v}
    ensures HasCycle(Within(from, grays + {v}))
  {
    var within := Within(from, grays + {v});
    assert Walk(within, v, v, 0);
    assert Reaches(within, u, v);
    var n: nat :| Walk(within, u, v, n);
    WalkSnoc(within, u, v, u, n);
    assert OnCycle(within, u) && u in within;
  }

  lemma GraysLeadOn<T>(from: map<T, set<T>>, grays: set<T>, v: T, u: T)
    requires GraysLeadTo(from, grays, v) && v in from && u in from[v]
    ensures GraysLeadTo(from, grays + {v}, u)
  {
    var small, large := Within(from, grays + {v}), Within(from, grays + {v} + {u});
    assert Walk(small, v, v, 0);
    forall g | g in grays + {v} ensures Reaches(large, g, u) {
      assert Reaches(small, g, v);
      var n: nat :| Walk(small, g, v, n);
      WalkGrows(small, large, g, v, n);
      WalkSnoc(large, g, v, u, n);
    }
  }

  lemma TurnsBlack<T>(from: map<T, set<T>>, colors: map<T, Color>, v: T)
    requires BlacksDone(from, colors) && v in colors
    requires forall t :: t in Out(from, v) ==> t in colors && colors[t] == Black
    ensures BlacksDone(from, colors[v := Black])
  {
    if OnCycle(from, v) {
      var u := CycleMovesOn(from, v);
      assert false;
    }
  }

  lemma FewerWhites<T>(before: map<T, Color>, after: map<T, Color>, v: T)
    requires v in before && before[v] == White && Blacker(before[v := Gray], after)
    ensures Whites(after) < Whites(before)
  {
    assert v in Whites(before) && v !in Whites(after);
    assert forall u :: u in Whites(after) ==> u in Whites(before);
  }

  method Visit<T(==)>(from: map<T, set<T>>, v: T, colors0: map<T, Color>) returns (cyclic: bool, colors: map<T, Color>)
    requires from.Keys == colors0.Keys && Closed(from, from.Keys)
    requires v in colors0 && colors0[v] == White && BlacksDone(from, colors0)
    requires GraysLeadTo(from, Grays(colors0), v)
    ensures colors.Keys == from.Keys
    ensures !cyclic ==> Blacker(colors0, colors) && colors[v] == Black && BlacksDone(from, colors)
    ensures cyclic ==> HasCycle(Within(from, Grays(colors)))
    decreases Whites(colors0)
  {
    colors := colors0[v := Gray];
    ghost var grays, marked := Grays(colors0), colors;
    assert Grays(colors) == grays + {v};
    var left := from[v];
    assert Out(from, v) == left;
    while left != {}
      invariant left <= from[v] && Blacker(marked, colors) && BlacksDone(from, colors)
      invariant forall u :: u in from[v] - left ==> u in colors && colors[u] == Black
      decreases left
    {
      ghost var some := Sets.Some(left);
      var u :| u in left;
      left := left - {u};
      assert Grays(colors) == grays + {v};
      assert u in from.Keys;
      if colors[u] == Gray {
        BackEdge(from, grays, v, u);
        return true, colors;
      }
      if colors[u] == White {
        GraysLeadOn(from, grays, v, u);
        FewerWhites(colors0, colors, v);
        cyclic, colors := Visit(from, u, colors);
        if cyclic {
          return;
        }
      }
    }
    TurnsBlack(from, colors, v);
    colors := colors[v := Black];
    cyclic := false;
  }

  /** Visit every vertex that is still white. */
  method FindCycle<T(==)>(from: map<T, set<T>>) returns (cyclic: bool, colors: map<T, Color>)
    requires Closed(from, from.Keys)
    ensures cyclic <==> HasCycle(from)
    ensures cyclic ==> colors.Keys == from.Keys && HasCycle(Within(from, Grays(colors)))
  {
    colors := map v | v in from.Keys :: White;
    var left := from.Keys;
    while left != {}
      invariant left <= from.Keys == colors.Keys && BlacksDone(from, colors)
      invariant forall u :: u in colors ==> colors[u] != Gray
      invariant forall u :: u in from.Keys - left ==> colors[u] == Black
      decreases left
    {
      ghost var some := Sets.Some(left);
      var v :| v in left;
      left := left - {v};
      if colors[v] == White {
        assert Grays(colors) == {};
        cyclic, colors := Visit(from, v, colors);
        if cyclic {
          CycleGrows(Within(from, Grays(colors)), from);
          return;
        }
      }
    }
    cyclic := false;
  }

  /** The gray vertices, in the order the map yields them. */
  method GrayVertices<T(==)>(colors: map<T, Color>) returns (cycle: seq<T>)
    ensures Distinct(cycle)
    ensures forall v :: v in cycle ==> v in colors && colors[v] == Gray
    ensures forall v :: v in colors && colors[v] == Gray ==> v in cycle
  {
    cycle := [];
    var left := colors.Keys;
    while left != {}
      invariant left <= colors.Keys && Distinct(cycle)
      invariant forall v :: v in cycle ==> v in colors && colors[v] == Gray && v !in left
      invariant forall v :: v in colors && colors[v] == Gray ==> v in cycle || v in left
      decreases left
    {
      ghost var some := Sets.Some(left);
      var v :| v in left;
      left := left - {v};
      if colors[v] == Gray {
        assert v !in cycle;
        cycle := cycle + [v];
      }
    }
  }

  // ---- the graph ----------------------------------------------------------------------------

  function WithVertex<T>(from: map<T, set<T>>, v: T): map<T, set<T>> {
    if v in from then from else from[v := {}]
  }

  ghost function WithoutVertex<T>(from: map<T, set<T>>, v: T): map<T, set<T>> {
    map u | u in from && u != v :: from[u] - {v}
  }

  function WithEdge<T>(from: map<T, set<T>>, a: T, b: T): map<T, set<T>> {
    var g := WithVertex(WithVertex(from, a), b);
    g[a := g[a] + {b}]
  }

  function WithoutEdge<T>(from: map<T, set<T>>, a: T, b: T): map<T, set<T>> {
    if a in from then from[a := from[a] - {b}] else from
  }

  /** from and to list the same edges over the same vertices, from either end; no vertex is its own neighbour. */
  ghost predicate Transposed<T>(vertices: set<T>, from: map<T, set<T>>, to: map<T, set<T>>) {
    && from.Keys == vertices && to.Keys == vertices
    && (forall u :: u in vertices ==> from[u] <= vertices - {u} && to[u] <= vertices)
    && (forall u, v :: u in vertices && v in vertices ==> (v in from[u] <==> u in to[v]))
  }

  lemma VertexGone<T>(vertices: set<T>, from: map<T, set<T>>, to: map<T, set<T>>, v: T)
    requires Transposed(vertices, from, to)
    ensures Transposed(vertices - {v}, WithoutVertex(from, v), WithoutVertex(to, v))
    ensures v !in vertices ==> WithoutVertex(from, v) == from
  {
    if v !in vertices {
      assert forall u :: u in from ==> from[u] - {v} == from[u];
    }
  }

  lemma EdgeAdded<T>(vertices: set<T>, from: map<T, set<T>>, to: map<T, set<T>>, a: T, b: T)
    requires Transposed(vertices, from, to) && a in vertices && b in vertices && a != b
    ensures Transposed(vertices, from[a := from[a] + {b}], to[b := to[b] + {a}])
  {
  }

  /** v taken out of every neighbour set but those of left. */
  ghost function Stripped<T>(m: map<T, set<T>>, v: T, left: set<T>): map<T, set<T>> {
    map u | u in m :: if u in left then m[u] else m[u] - {v}
  }

  lemma StrippedOfNone<T>(from: map<T, set<T>>, to: map<T, set<T>>, v: T)
    requires from.Keys == to.Keys
    ensures Stripped(from, v, from.Keys - {v} + {v}) == from && Stripped(to, v, from.Keys - {v} + {v}) == to
    ensures Stripped(from, v, {} + {v}) - {v} == WithoutVertex(from, v)
    ensures Stripped(to, v, {} + {v}) - {v} == WithoutVertex(to, v)
  {
  }

  lemma StripOne<T>(m: map<T, set<T>>, v: T, left: set<T>, u: T)
    requires u in m && u in left && u != v
    ensures Stripped(m, v, left + {v})[u := Stripped(m, v, left + {v})[u] - {v}] == Stripped(m, v, left - {u} + {v})
  {
  }

  method StripAll<T(==)>(vertices: set<T>, from0: map<T, set<T>>, to0: map<T, set<T>>, v: T)
    returns (from: map<T, set<T>>, to: map<T, set<T>>)
    requires from0.Keys == to0.Keys == vertices + {v} && v !in vertices
    ensures from - {v} == WithoutVertex(from0, v) && to - {v} == WithoutVertex(to0, v)
  {
    from, to := from0, to0;
    var left := vertices;
    StrippedOfNone(from0, to0, v);
    assert from0.Keys - {v} + {v} == vertices + {v};
    while left != {}
      invariant left <= vertices
      invariant from == Stripped(from0, v, left + {v}) && to == Stripped(to0, v, left + {v})
      decreases left
    {
      ghost var some := Sets.Some(left);
      var u :| u in left;
      StripOne(from0, v, left, u);
      StripOne(to0, v, left, u);
      left := left - {u};
      from := from[u := from[u] - {v}];
      to := to[u := to[u] - {v}];
    }
  }

  class Graph<T(==)> {
    var vertices: set<T>
    var from: map<T, set<T>>
    var to: map<T, set<T>>

    ghost predicate Valid() reads this { Transposed(vertices, from, to) }

    constructor ()
      ensures Valid() && vertices == {}
    {
      vertices, from, to := {}, map[], map[];
    }

    predicate Has(v: T) reads this { v in vertices }

    method Add(v: T)
      requires Valid()
      modifies this
      ensures Valid() && from == WithVertex(old(from), v)
    {
      if v !in vertices {
        vertices := vertices + {v};
        from := from[v := {}];
        to := to[v := {}];
      }
    }

    method Remove(v: T)
      requires Valid()
      modifies this
      ensures Valid() && from == WithoutVertex(old(from), v)
    {
      VertexGone(vertices, from, to, v);
      if v !in vertices {
        return;
      }
      vertices := vertices - {v};
      from, to := StripAll(vertices, from, to, v);
      from := from - {v};
      to := to - {v};
    }

    /** The source panics on a self edge, so callers must not ask for one. */
    method AddEdge(a: T, b: T)
      requires Valid() && a != b
      modifies this
      ensures Valid() && from == WithEdge(old(from), a, b)
    {
      if !Has(a) { Add(a); }
      if !Has(b) { Add(b); }
      EdgeAdded(vertices, from, to, a, b);
      from := from[a := from[a] + {b}];
      to := to[b := to[b] + {a}];
    }

    method RemoveEdge(a: T, b: T)
      requires Valid()
      modifies this
      ensures Valid() && from == WithoutEdge(old(from), a, b)
    {
      if !Has(a) || !Has(b) {
        assert a in from ==> from[a] - {b} == from[a];
        return;
      }
      from := from[a := from[a] - {b}];
      to := to[b := to[b] - {a}];
    }

    method BFS(v: T) returns (result: seq<T>)
      requires Valid()
      ensures forall u :: u in result ==> Reaches(from, v, u)
      ensures forall u :: u in vertices + {v} && Reaches(from, v, u) ==> u in result
      ensures Distinct(result) && NearestFirst(from, v, result)
    {
      result := BreadthFirst(from, vertices + {v}, v);
    }

    method BFSReverse(v: T) returns (result: seq<T>)
      requires Valid()
      ensures forall u :: u in result ==> Reaches(to, v, u)
      ensures forall u :: u in vertices + {v} && Reaches(to, v, u) ==> u in result
      ensures Distinct(result) && NearestFirst(to, v, result)
    {
      result := BreadthFirst(to, vertices + {v}, v);
    }

    /** Every vertex that v reaches, once each. */
    method DFS(v: T) returns (result: seq<T>)
      requires Valid()
      ensures forall u :: u in result ==> Reaches(from, v, u)
      ensures forall u :: u in vertices + {v} && Reaches(from, v, u) ==> u in result
      ensures Distinct(result)
    {
      result := DepthFirst(from, vertices + {v}, v);
    }

    method Cyclic() returns (cyclic: bool)
      requires Valid()
      ensures cyclic <==> HasCycle(from)
    {
      var colors;
      cyclic, colors := FindCycle(from);
    }

    /** None when there is no cycle; otherwise the gray vertices, which contain a whole cycle. */
    method Cycle() returns (r: Option<seq<T>>)
      requires Valid()
      ensures r.None? <==> !HasCycle(from)
      ensures r.Some? ==> Distinct(r.value) && (forall v :: v in r.value ==> v in vertices)
                          && HasCycle(Within(from, set v | v in r.value))
    {
      var cyclic, colors := FindCycle(from);
      if !cyclic {
        return None;
      }
      var cycle := GrayVertices(colors);
      assert (set v | v in cycle) == Grays(colors);
      return Some(cycle);
    }
  }
}
