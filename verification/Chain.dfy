// The chain of chainpaxos/replica.go: a P2aChain wanders through the group, its hop list naming the
// nodes that need not see it again.

module Chains {
  import opened Ballots
  import opened Options
  import opened Sequences

  method Contains(s: seq<ID>, e: ID) returns (b: bool)
    ensures b <==> e in s
  {
    for i := 0 to |s|
      invariant e !in s[..i]
    {
      if s[i] == e {
        return true;
      }
    }
    return false;
  }

  /** The nodes not on the hop list, in group order. */
  function Remaining(nodes: seq<ID>, hops: seq<ID>): seq<ID> {
    if nodes == [] then [] else (if nodes[0] in hops then [] else [nodes[0]]) + Remaining(nodes[1..], hops)
  }

  function FirstOf(s: seq<ID>): Option<ID> { if s == [] then None else Some(s[0]) }

  lemma {:induction false} NoneBefore(nodes: seq<ID>, hops: seq<ID>, i: nat)
    requires i <= |nodes| && forall k :: 0 <= k < i ==> nodes[k] in hops
    ensures Remaining(nodes, hops) == Remaining(nodes[i..], hops)
  {
    if i > 0 {
      NoneBefore(nodes[1..], hops, i - 1);
      assert nodes[1..][i - 1..] == nodes[i..];
    } else {
      assert nodes[0..] == nodes;
    }
  }

  /** A relay starts the chain at the first node that is neither itself nor the one the message came from. */
  method SendToChainHead(self: ID, nodes: seq<ID>, exclude: ID) returns (head: Option<ID>)
    ensures head == FirstOf(Remaining(nodes, [exclude, self]))
  {
    for i := 0 to |nodes|
      invariant forall k :: 0 <= k < i ==> nodes[k] in [exclude, self]
    {
      if nodes[i] != self && nodes[i] != exclude {
        NoneBefore(nodes, [exclude, self], i);
        return Some(nodes[i]);
      }
    }
    NoneBefore(nodes, [exclude, self], |nodes|);
    return None;
  }

  /** The group's last node is the tail; any other adds itself to the hops and passes the message on. */
  method HandleP2aFollower(self: ID, nodes: seq<ID>, hops: seq<ID>) returns (tail: bool, next: Option<ID>,
                                                                             onward: seq<ID>)
    requires nodes != []
    ensures tail <==> self == nodes[|nodes| - 1]
    ensures tail ==> next == None
    ensures !tail ==> onward == hops + [self] && next == FirstOf(Remaining(nodes, onward))
  {
    tail, next, onward := self == nodes[|nodes| - 1], None, hops;
    if !tail {
      onward := hops + [self];
      for i := 0 to |nodes|
        invariant next == None && forall k :: 0 <= k < i ==> nodes[k] in onward
      {
        var seen := Contains(onward, nodes[i]);
        if !seen {
          NoneBefore(nodes, onward, i);
          next := Some(nodes[i]);
          return;
        }
      }
      NoneBefore(nodes, onward, |nodes|);
    }
  }

  // ---- the whole chain ---------------------------------------------------------------------------------------

  lemma {:induction false} RemainingMembers(nodes: seq<ID>, hops: seq<ID>, x: ID)
    ensures x in Remaining(nodes, hops) <==> x in nodes && x !in hops
  {
    if nodes != [] {
      RemainingMembers(nodes[1..], hops, x);
      assert nodes == [nodes[0]] + nodes[1..];
    }
  }

  /** Forwarding by the first remaining node takes exactly that node off what remains. */
  lemma {:induction false} ForwardTakesOne(nodes: seq<ID>, hops: seq<ID>)
    requires Distinct(nodes) && Remaining(nodes, hops) != []
    ensures Remaining(nodes, hops) == [Remaining(nodes, hops)[0]] + Remaining(nodes, hops + [Remaining(nodes, hops)[0]])
  {
    var x := Remaining(nodes, hops)[0];
    RemainingMembers(nodes, hops, x);
    if nodes[0] in hops {
      ForwardTakesOne(nodes[1..], hops);
    } else {
      SameRemaining(nodes[1..], hops, x);
    }
  }

  lemma {:induction false} SameRemaining(nodes: seq<ID>, hops: seq<ID>, x: ID)
    requires x !in nodes
    ensures Remaining(nodes, hops + [x]) == Remaining(nodes, hops)
  {
    if nodes != [] {
      SameRemaining(nodes[1..], hops, x);
    }
  }

  /** The hop list never holds a duplicate, and every forward leaves fewer nodes outside it. */
  lemma HopsStayDistinct(nodes: seq<ID>, hops: seq<ID>)
    requires Distinct(nodes) && Distinct(hops) && Remaining(nodes, hops) != []
    ensures var x := Remaining(nodes, hops)[0]; var onward := hops + [x];
            && x in nodes && Distinct(onward) && |Remaining(nodes, onward)| == |Remaining(nodes, hops)| - 1
            && forall y :: y in Remaining(nodes, onward) ==> y !in onward
  {
    var x := Remaining(nodes, hops)[0];
    RemainingMembers(nodes, hops, x);
    ForwardTakesOne(nodes, hops);
    forall y | y in Remaining(nodes, hops + [x]) ensures y !in hops + [x] {
      RemainingMembers(nodes, hops + [x], y);
    }
  }

  /** The nodes a message visits from x on, when x got it with these hops. */
  function Visits(nodes: seq<ID>, hops: seq<ID>, x: ID): (r: seq<ID>)
    requires Distinct(nodes) && FirstOf(Remaining(nodes, hops)) == Some(x)
    ensures r != []
    decreases |Remaining(nodes, hops)|
  {
    ForwardTakesOne(nodes, hops);
    if x == nodes[|nodes| - 1] then [x]
    else
      match FirstOf(Remaining(nodes, hops + [x]))
      case None => [x]
      case Some(y) => [x] + Visits(nodes, hops + [x], y)
  }

  lemma {:induction false} LastRemains(nodes: seq<ID>, hops: seq<ID>)
    requires nodes != [] && nodes[|nodes| - 1] !in hops
    ensures Remaining(nodes, hops) != [] && Remaining(nodes, hops)[|Remaining(nodes, hops)| - 1] == nodes[|nodes| - 1]
  {
    if |nodes| > 1 {
      LastRemains(nodes[1..], hops);
    }
  }

  /** From x on, the chain visits everything that remains, once and in group order. */
  lemma {:induction false} VisitsTheRest(nodes: seq<ID>, hops: seq<ID>, x: ID)
    requires Distinct(nodes) && FirstOf(Remaining(nodes, hops)) == Some(x)
    ensures Visits(nodes, hops, x) == Remaining(nodes, hops)
    decreases |Remaining(nodes, hops)|
  {
    ForwardTakesOne(nodes, hops);
    RemainingMembers(nodes, hops, x);
    var rest := Remaining(nodes, hops + [x]);
    if x == nodes[|nodes| - 1] {
      LastRemains(nodes, hops);
      OnlyLast(nodes, hops, x);
    } else if rest != [] {
      VisitsTheRest(nodes, hops + [x], rest[0]);
    }
  }

  /** If the first that remains is the last of the group, nothing else remains. */
  lemma {:induction false} OnlyLast(nodes: seq<ID>, hops: seq<ID>, x: ID)
    requires Distinct(nodes) && FirstOf(Remaining(nodes, hops)) == Some(x) && nodes != [] && x == nodes[|nodes| - 1]
    ensures Remaining(nodes, hops) == [x]
  {
    if nodes[0] in hops {
      OnlyLast(nodes[1..], hops, x);
    } else {
      assert |nodes| == 1;
    }
  }

  function ChainOf(nodes: seq<ID>, leader: ID, relay: ID): seq<ID>
    requires Distinct(nodes)
  {
    match FirstOf(Remaining(nodes, [leader, relay]))
    case None => []
    case Some(x) => Visits(nodes, [leader, relay], x)
  }

  lemma {:induction false} RemainingDistinct(nodes: seq<ID>, hops: seq<ID>)
    requires Distinct(nodes)
    ensures Distinct(Remaining(nodes, hops))
  {
    if nodes != [] {
      RemainingDistinct(nodes[1..], hops);
      RemainingMembers(nodes[1..], hops, nodes[0]);
    }
  }

  lemma ChainIsRemaining(nodes: seq<ID>, leader: ID, relay: ID)
    requires Distinct(nodes)
    ensures ChainOf(nodes, leader, relay) == Remaining(nodes, [leader, relay])
  {
    var rest := Remaining(nodes, [leader, relay]);
    if rest != [] {
      VisitsTheRest(nodes, [leader, relay], rest[0]);
    }
  }

  /** A chain visits every node of the group but leader and relay, once each and in group order. */
  lemma ChainCovers(nodes: seq<ID>, leader: ID, relay: ID, x: ID)
    requires Distinct(nodes)
    ensures ChainOf(nodes, leader, relay) == Remaining(nodes, [leader, relay])
    ensures Distinct(ChainOf(nodes, leader, relay))
    ensures x in ChainOf(nodes, leader, relay) <==> x in nodes && x != leader && x != relay
  {
    ChainIsRemaining(nodes, leader, relay);
    RemainingMembers(nodes, [leader, relay], x);
    RemainingDistinct(nodes, [leader, relay]);
  }

  /** The chain ends at the tail, which answers, exactly when the group's last node is neither leader nor relay. */
  lemma TailReachedIff(nodes: seq<ID>, leader: ID, relay: ID)
    requires Distinct(nodes) && nodes != []
    ensures var c := ChainOf(nodes, leader, relay);
            c != [] && c[|c| - 1] == nodes[|nodes| - 1] <==> nodes[|nodes| - 1] !in [leader, relay]
  {
    ChainIsRemaining(nodes, leader, relay);
    RemainingMembers(nodes, [leader, relay], nodes[|nodes| - 1]);
    if nodes[|nodes| - 1] !in [leader, relay] {
      LastRemains(nodes, [leader, relay]);
    }
  }
}
