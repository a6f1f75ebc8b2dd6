// Splitting the nodes into relay groups and fanning a message out through one relay per group
// (pigpaxos/replica.go, pigpaxos/msg.go).

module Fanout {
  import opened Ballots
  import opened Sequences

  // ---- peersToGroups --------------------------------------------------------------------------------------

  function Flatten(groups: seq<seq<ID>>): seq<ID>
    decreases |groups|
  {
    if groups == [] then [] else Flatten(groups[..|groups| - 1]) + groups[|groups| - 1]
  }

  lemma {:induction false} FlattenEmpty(groups: seq<seq<ID>>)
    requires forall g :: 0 <= g < |groups| ==> groups[g] == []
    ensures Flatten(groups) == []
    decreases |groups|
  {
    if groups != [] {
      FlattenEmpty(groups[..|groups| - 1]);
    }
  }

  /** Appending to the last group that is not empty appends to the whole. */
  lemma {:induction false} FlattenAppend(groups: seq<seq<ID>>, pg: nat, id: ID)
    requires pg < |groups| && forall g :: pg < g < |groups| ==> groups[g] == []
    ensures Flatten(groups[pg := groups[pg] + [id]]) == Flatten(groups) + [id]
    decreases |groups|
  {
    var n := |groups| - 1;
    var after := groups[pg := groups[pg] + [id]];
    if pg == n {
      assert after[..n] == groups[..n];
    } else {
      assert after[..n] == groups[..n][pg := groups[..n][pg] + [id]];
      FlattenAppend(groups[..n], pg, id);
      assert after[n] == groups[n] == [];
    }
  }

  /** How many nodes every group but the last takes. */
  function Share(nodes: nat, numGroups: nat): nat
    requires numGroups > 0
  {
    if nodes / numGroups > 1 then nodes / numGroups else 1
  }

  /** Where the grouping loop stands after i nodes. */
  ghost predicate Filling(groups: seq<seq<ID>>, pg: nat, nodes: nat, i: nat) {
    && pg < |groups|
    && (forall g :: 0 <= g < pg ==> |groups[g]| == Share(nodes, |groups|))
    && (forall g :: pg < g < |groups| ==> groups[g] == [])
    && (pg + 1 < |groups| ==> |groups[pg]| < Share(nodes, |groups|))
    && i == pg * Share(nodes, |groups|) + |groups[pg]|
  }

  lemma FillingOne(groups: seq<seq<ID>>, pg: nat, nodes: nat, i: nat, id: ID)
    requires Filling(groups, pg, nodes, i)
    ensures var after := groups[pg := groups[pg] + [id]];
            Filling(after, if |after[pg]| >= nodes / |groups| && pg + 1 < |groups| then pg + 1 else pg, nodes, i + 1)
  {
    var after, share := groups[pg := groups[pg] + [id]], Share(nodes, |groups|);
    assert (pg + 1) * share == pg * share + share;
  }

  /** With no more groups than nodes, the last group gets its share too. */
  lemma FilledUp(groups: seq<seq<ID>>, pg: nat, nodes: nat)
    requires Filling(groups, pg, nodes, nodes) && |groups| <= nodes
    ensures pg == |groups| - 1 && |groups[pg]| == nodes - pg * (nodes / |groups|) >= nodes / |groups| >= 1
  {
    var k, share := |groups|, Share(nodes, |groups|);
    DivisionShares(nodes, k);
    assert share == nodes / k;
    if pg + 1 < k {
      assert nodes < (pg + 1) * share;
      Monotone(pg + 1, k, share);
      assert false;
    }
    assert pg * share + share == k * share;
  }

  lemma DivisionShares(n: nat, k: nat)
    requires 0 < k <= n
    ensures n / k >= 1 && k * (n / k) <= n
  {
    assert n == k * (n / k) + n % k;
  }

  lemma Monotone(a: nat, b: nat, c: nat)
    requires a <= b
    ensures a * c <= b * c
  {
    assert b * c == a * c + (b - a) * c;
  }

  /** Consecutive groups; own is the group that holds self.  Groups beyond the nodes stay nil, here []. */
  method PeersToGroups(numGroups: nat, nodeList: seq<ID>, self: ID) returns (groups: seq<seq<ID>>, own: nat)
    requires numGroups > 0
    ensures |groups| == numGroups && Flatten(groups) == nodeList
    ensures numGroups <= |nodeList| ==> forall g :: 0 <= g < numGroups ==>
              |groups[g]| == if g + 1 < numGroups then |nodeList| / numGroups
                             else |nodeList| - (numGroups - 1) * (|nodeList| / numGroups)
    ensures numGroups <= |nodeList| ==> forall g :: 0 <= g < numGroups ==> groups[g] != []
    ensures Distinct(nodeList) && self in nodeList ==> own < numGroups && self in groups[own]
  {
    groups := seq(numGroups, i => []);
    var pgNum, nodesAddToPg := 0, 0;
    var nodesPerGroup := |nodeList| / numGroups;
    own := 0;
    FlattenEmpty(groups);
    for i := 0 to |nodeList|
      invariant |groups| == numGroups && Filling(groups, pgNum, |nodeList|, i) && nodesAddToPg == |groups[pgNum]|
      invariant Flatten(groups) == nodeList[..i]
      invariant Distinct(nodeList) && self in nodeList[..i] ==> own < numGroups && self in groups[own]
    {
      var id := nodeList[i];
      if id == self {
        own := pgNum;
      }
      FillingOne(groups, pgNum, |nodeList|, i, id);
      FlattenAppend(groups, pgNum, id);
      assert nodeList[..i + 1] == nodeList[..i] + [id];
      groups := groups[pgNum := groups[pgNum] + [id]];
      nodesAddToPg := nodesAddToPg + 1;
      if nodesAddToPg >= nodesPerGroup && pgNum + 1 < numGroups {
        pgNum := pgNum + 1;
        nodesAddToPg := 0;
      }
    }
    assert nodeList[..|nodeList|] == nodeList;
    if numGroups <= |nodeList| {
      FilledUp(groups, pgNum, |nodeList|);
    }
  }

  // ---- broadcasting through relays ---------------------------------------------------------------------------

  const MAX_DEPTH := 2

  /** A message on its way: the nodes it went through, the last of them at index progress. */
  datatype RoutedMsg = RoutedMsg(hops: seq<ID>, progress: nat)
  {
    predicate Routable() { |hops| == progress + 1 }

    function LastProgressHop(): ID
      requires progress < |hops|
    {
      hops[progress]
    }

    function PreviousProgressHop(): ID
      requires 0 < progress <= |hops|
    {
      hops[progress - 1]
    }
  }

  datatype Delivery = Delivery(to: ID, from: ID, msg: RoutedMsg)
  {
    /** A reply to the message's last hop goes back to whoever sent it. */
    predicate RepliesToSender() { msg.Routable() && msg.LastProgressHop() == from }
  }

  predicate Eligible(id: ID, exclude: ID, gray: set<ID>) { id != exclude && id !in gray }

  /** A random eligible node; the source searches forever when there is none. */
  method GetRandomNodeId(nodes: seq<ID>, exclude: ID, gray: set<ID>) returns (id: ID)
    requires exists k :: 0 <= k < |nodes| && Eligible(nodes[k], exclude, gray)
    ensures id in nodes && Eligible(id, exclude, gray)
  {
    var k :| 0 <= k < |nodes| && Eligible(nodes[k], exclude, gray);
    id := nodes[k];
  }

  ghost predicate HasRelay(group: seq<ID>, leader: ID, gray: set<ID>) {
    exists k :: 0 <= k < |group| && Eligible(group[k], leader, gray)
  }

  /** The leader hands the message to one relay of every group. */
  method Broadcast(self: ID, groups: seq<seq<ID>>, gray: set<ID>) returns (out: seq<Delivery>)
    requires forall g :: 0 <= g < |groups| ==> HasRelay(groups[g], self, gray)
    ensures |out| == |groups|
    ensures forall g :: 0 <= g < |out| ==>
              && out[g].to in groups[g] && Eligible(out[g].to, self, gray)
              && out[g].from == self && out[g].msg == RoutedMsg([self], 0) && out[g].RepliesToSender()
  {
    out := [];
    for i := 0 to |groups|
      invariant |out| == i
      invariant forall g :: 0 <= g < i ==>
                  && out[g].to in groups[g] && Eligible(out[g].to, self, gray)
                  && out[g].from == self && out[g].msg == RoutedMsg([self], 0)
    {
      assert HasRelay(groups[i], self, gray);
      var relay := GetRandomNodeId(groups[i], self, gray);
      out := out + [Delivery(relay, self, RoutedMsg([self], 0))];
    }
  }

  /** The members of the group that a relay passes the message to. */
  function Leaves(self: ID, nodes: seq<ID>, exclude: ID, gray: set<ID>): seq<ID>
    decreases |nodes|
  {
    if nodes == [] then []
    else
      var last := nodes[|nodes| - 1];
      Leaves(self, nodes[..|nodes| - 1], exclude, gray) + if last != self && Eligible(last, exclude, gray) then [last]
        else []
  }

  function Deliveries(to: seq<ID>, from: ID, m: RoutedMsg): seq<Delivery> {
    seq(|to|, i requires 0 <= i < |to| => Delivery(to[i], from, m))
  }

  method BroadcastToPeerGroup(self: ID, nodes: seq<ID>, exclude: ID, gray: set<ID>,
                              m: RoutedMsg) returns (out: seq<Delivery>)
    ensures out == Deliveries(Leaves(self, nodes, exclude, gray), self, m)
  {
    out := [];
    for i := 0 to |nodes|
      invariant out == Deliveries(Leaves(self, nodes[..i], exclude, gray), self, m)
    {
      assert nodes[..i + 1][..i] == nodes[..i];
      var id := nodes[i];
      if id != self && Eligible(id, exclude, gray) {
        out := out + [Delivery(id, self, m)];
      }
    }
    assert nodes[..|nodes|] == nodes;
  }

  /** handleRoutedMsg for a P2a: above the leaves, on to the relay's group but the hop it came from. */
  method HandleRoutedMsg(self: ID, group: seq<ID>, gray: set<ID>, m: RoutedMsg) returns (out: seq<Delivery>)
    requires m.Routable()
    ensures m.progress + 1 >= MAX_DEPTH ==> out == []
    ensures m.progress + 1 < MAX_DEPTH ==>
              out == Deliveries(Leaves(self, group, m.LastProgressHop(), gray), self,
                                RoutedMsg(m.hops + [self], m.progress + 1))
    ensures forall i :: 0 <= i < |out| ==> out[i].RepliesToSender()
  {
    out := [];
    if m.progress + 1 < MAX_DEPTH {
      var n := RoutedMsg(m.hops + [self], m.progress + 1);
      out := BroadcastToPeerGroup(self, group, n.PreviousProgressHop(), gray, n);
    }
  }

  // ---- everyone is reached once --------------------------------------------------------------------------------

  /** Who gets the leader's message: the relay of each group, and the leaves it passes it to. */
  function Receivers(leader: ID, groups: seq<seq<ID>>, relays: seq<ID>, gray: map<ID, set<ID>>): seq<ID>
    requires |relays| == |groups|
    decreases |groups|
  {
    if groups == [] then []
    else
      var n := |groups| - 1;
      var known := if relays[n] in gray then gray[relays[n]] else {};
      Receivers(leader, groups[..n], relays[..n], gray) + ([relays[n]] + Leaves(relays[n], groups[n], leader, known))
  }

  /** x is in a group whose relay is x or does not think x is down. */
  ghost predicate Reached(groups: seq<seq<ID>>, relays: seq<ID>, gray: map<ID, set<ID>>, x: ID)
    requires |relays| == |groups|
  {
    exists g :: 0 <= g < |groups| && x in groups[g] && (x == relays[g] || relays[g] !in gray || x !in gray[relays[g]])
  }

  lemma {:induction false} LeavesCount(self: ID, nodes: seq<ID>, exclude: ID, gray: set<ID>, x: ID)
    ensures multiset(Leaves(self, nodes, exclude, gray))[x] ==
            if x != self && Eligible(x, exclude, gray) then multiset(nodes)[x] else 0
    decreases |nodes|
  {
    if nodes != [] {
      var n := |nodes| - 1;
      LeavesCount(self, nodes[..n], exclude, gray, x);
      assert nodes == nodes[..n] + [nodes[n]];
      assert multiset(nodes) == multiset(nodes[..n]) + multiset{nodes[n]};
    }
  }

  lemma {:induction false} FlattenMembers(groups: seq<seq<ID>>, x: ID)
    ensures x in Flatten(groups) <==> exists g :: 0 <= g < |groups| && x in groups[g]
    decreases |groups|
  {
    if groups != [] {
      var n := |groups| - 1;
      FlattenMembers(groups[..n], x);
      if g :| 0 <= g < |groups| && x in groups[g] {
        assert g < n ==> x in groups[..n][g];
      }
      if g :| 0 <= g < n && x in groups[..n][g] {
        assert x in groups[g];
      }
    }
  }

  /** One group's share: its relay once, and every member it forwards to once. */
  lemma GroupCount(leader: ID, group: seq<ID>, relay: ID, gray: set<ID>, x: ID)
    requires Distinct(group) && relay in group && relay != leader
    ensures multiset([relay] + Leaves(relay, group, leader, gray))[x] ==
            if x in group && x != leader && (x == relay || x !in gray) then 1 else 0
  {
    LeavesCount(relay, group, leader, gray, x);
    DistinctCounts(group);
    assert x in group ==> multiset(group)[x] == 1;
    assert x !in group ==> multiset(group)[x] == 0;
    assert multiset([relay] + Leaves(relay, group, leader, gray)) == multiset{relay} +
           multiset(Leaves(relay, group, leader, gray));
  }

  lemma {:induction false} FanoutCounts(leader: ID, groups: seq<seq<ID>>, relays: seq<ID>, gray: map<ID, set<ID>>,
                                        x: ID)
    requires |relays| == |groups| && Distinct(Flatten(groups))
    requires forall g :: 0 <= g < |groups| ==> relays[g] in groups[g] && relays[g] != leader
    ensures multiset(Receivers(leader, groups, relays, gray))[x] ==
            if x != leader && Reached(groups, relays, gray, x) then 1 else 0
    decreases |groups|
  {
    if groups != [] {
      var n := |groups| - 1;
      var front, known := Flatten(groups[..n]), if relays[n] in gray then gray[relays[n]] else {};
      SplitDistinct(front, groups[n]);
      FanoutCounts(leader, groups[..n], relays[..n], gray, x);
      GroupCount(leader, groups[n], relays[n], known, x);
      ReachedSplits(groups, relays, gray, x);
      assert multiset(Receivers(leader, groups, relays, gray)) ==
             multiset(Receivers(leader, groups[..n], relays[..n], gray)) +
             multiset([relays[n]] + Leaves(relays[n], groups[n], leader, known));
    }
  }

  lemma SplitDistinct(a: seq<ID>, b: seq<ID>)
    requires Distinct(a + b)
    ensures Distinct(a) && Distinct(b) && forall x :: x in a ==> x !in b
  {
    var s := a + b;
    assert forall i :: 0 <= i < |a| ==> a[i] == s[i];
    assert forall i :: 0 <= i < |b| ==> b[i] == s[|a| + i];
  }

  lemma ReachedSplits(groups: seq<seq<ID>>, relays: seq<ID>, gray: map<ID, set<ID>>, x: ID)
    requires |relays| == |groups| > 0
    ensures var n := |groups| - 1;
            Reached(groups, relays, gray, x) <==>
            || Reached(groups[..n], relays[..n], gray, x)
            || (x in groups[n] && (x == relays[n] || relays[n] !in gray || x !in gray[relays[n]]))
    ensures Reached(groups[..|groups| - 1], relays[..|groups| - 1], gray, x) ==> x in Flatten(groups[..|groups| - 1])
  {
    var n := |groups| - 1;
    var gs, rs := groups[..n], relays[..n];
    FlattenMembers(gs, x);
    if g :| 0 <= g < n && x in gs[g] && (x == rs[g] || rs[g] !in gray || x !in gray[rs[g]]) {
      assert gs[g] == groups[g] && rs[g] == relays[g];
    }
    if g :| 0 <= g < |groups| && x in groups[g] && (x == relays[g] || relays[g] !in gray || x !in gray[relays[g]]) {
      assert g < n ==> groups[..n][g] == groups[g] && relays[..n][g] == relays[g];
    }
  }

  /** When nobody is thought down, a broadcast reaches every node but the leader exactly once. */
  lemma EveryoneOnce(leader: ID, groups: seq<seq<ID>>, relays: seq<ID>, nodes: seq<ID>, x: ID)
    requires |relays| == |groups| && Flatten(groups) == nodes && Distinct(nodes)
    requires forall g :: 0 <= g < |groups| ==> relays[g] in groups[g] && relays[g] != leader
    ensures multiset(Receivers(leader, groups, relays, map[]))[x] == if x in nodes && x != leader then 1 else 0
  {
    FanoutCounts(leader, groups, relays, map[], x);
    FlattenMembers(groups, x);
  }
}
