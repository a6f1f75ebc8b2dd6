// Where the relays meet the log: what a relay gathered is handed to HandleP2b at the leader, and is never
// more than what the runs of PigPaxosRuns.dfy allow.

module PigPaxosRelays {
  import opened Ballots
  import opened PigPaxosLog
  import opened PigPaxosNode
  import opened PigPaxosRuns
  import Relays

  // ---- the leader's handlers ------------------------------------------------------------------------

  /** What the leader's replica makes of a relay's answer; anybody else ignores it. */
  function OnAggregated(p: Replica, layout: Relays.Layout, m: Relays.Reply): Outcome
    requires m.Aggregated? && layout.GroupOf(m.relay) < |layout.groups|
  {
    if !IsLeader(p) then Outcome(p, {})
    else HandleP2b(UpdateLastExecute(p, m.relay, m.lastExecute), m.slot, m.ballot, Relays.Voters(layout, m))
  }

  method HandleP2bAggregated(r: PigPaxos, layout: Relays.Layout, m: Relays.Reply)
    requires m.Aggregated? && layout.Valid()
    modifies r, r.db
    ensures var o := OnAggregated(old(r.View()), layout, m);
            r.View() == o.replica && r.sent == old(r.sent) + o.sent
  {
    if r.active || BallotID(r.ballot) == r.id {
      r.UpdateLastExecuteByNode(m.relay, m.lastExecute);
      var group := layout.groups[layout.GroupOf(m.relay)];
      if |m.missing| > 0 {
        var ids := Relays.Subtract(group, m.missing);
        r.HandleP2b(m.slot, m.ballot, ids);
      } else {
        r.HandleP2b(m.slot, m.ballot, group);
      }
    }
  }

  // ---- relays pass on no more than was sent ----------------------------------------------------------

  /** The event is the delivery of messages that were sent: a P2a, or one P2b from each id it lists. */
  ghost predicate Delivers(w: World, e: Relays.Event) {
    match e
    case Proposed(_, b, s, _, _) => exists m :: m in w.h.sent && m.P2a? && m.ballot == b && m.slot == s
    case Voted(_, b, s, ids) => forall q :: q in ids ==> P2b(b, s, [q]) in w.h.sent
    case Ticked(_, _) => true
  }

  /** The ids that m hands to HandleP2b. */
  function Counted(layout: Relays.Layout, m: Relays.Reply): seq<ID>
    requires m.Aggregated? || m.Votes?
    requires m.Aggregated? ==> layout.GroupOf(m.relay) < |layout.groups|
  {
    if m.Votes? then m.ids else Relays.Voters(layout, m)
  }

  lemma HeardWasSent(w: World, es: seq<Relays.Event>, j: int, k: int, s: int, b: Ballot, q: ID)
    requires 0 <= j && k <= |es| && q in Relays.Heard(es, j, k, s, b)
    requires forall i :: 0 <= i < |es| ==> Delivers(w, es[i])
    ensures P2b(b, s, [q]) in w.h.sent
  {
    var i, id :| j < i < k && es[i].Voted? && es[i].slot == s && es[i].ballot == b && id in es[i].ids && id == q;
    assert Delivers(w, es[i]);
  }

  lemma OpenedBySent(w: World, es: seq<Relays.Event>, j: int, s: int, b: Ballot)
    requires Relays.OpensAt(es, j, s, b) && forall i :: 0 <= i < |es| ==> Delivers(w, es[i])
    ensures exists m :: m in w.h.sent && m.ballot == b
  {
    assert Delivers(w, es[j]);
  }

  /**
   * Whatever a relay answers in any run whose events deliver messages of the cluster - compressed or not, at its
   * threshold or at a timeout - may be handed to HandleP2b: every id the leader counts has sent its own P2b.
   */
  lemma AnswersMayBeCounted(w: World, p: Relays.Place, es: seq<Relays.Event>, m: Relays.Reply, l: ID)
    requires p.Valid() && forall i :: 0 <= i < |es| ==> Delivers(w, es[i])
    requires m in Relays.Run(p, es).sent && (m.Aggregated? || m.Votes?)
    requires l in w.replicas && !w.replicas[l].halted
    ensures m.Aggregated? ==> p.layout.GroupOf(m.relay) < |p.layout.groups|
    ensures Enabled(w, DeliverP2b(l, m.slot, m.ballot, Counted(p.layout, m)))
  {
    var j, k;
    if m.Aggregated? {
      Relays.VotersWereHeard(p, es, m);
      j, k :| Relays.HeardExactly(p, es, m, Relays.Voters(p.layout, m), j, k);
    } else {
      Relays.PlainVotesWereHeard(p, es, m);
      j, k :| Relays.HeardAll(es, m, j, k);
    }
    OpenedBySent(w, es, j, m.slot, m.ballot);
    forall q | q in Counted(p.layout, m) ensures P2b(m.ballot, m.slot, [q]) in w.h.sent {
      assert m.Votes? ==> q in set id | id in m.ids;
      HeardWasSent(w, es, j, k, m.slot, m.ballot, q);
    }
  }

  lemma Reports(w: World, l: ID, node: ID, value: int)
    requires l in w.replicas
    ensures var u := Step(w, LastExecute(l, node, value));
            && u.cfg == w.cfg && u.replicas == w.replicas[l := UpdateLastExecute(w.replicas[l], node, value)]
            && w.h.sent <= u.h.sent
  {
  }

  lemma Counts(w: World, l: ID, s: int, b: Ballot, ids: seq<ID>)
    requires l in w.replicas
    ensures var u, o := Step(w, DeliverP2b(l, s, b, ids)), HandleP2b(w.replicas[l], s, b, ids);
            u.replicas == w.replicas[l := o.replica] && o.sent <= u.h.sent
  {
  }

  /** The leader's handler is two actions of a run. */
  lemma AggregatedIsARun(w: World, p: Relays.Place, es: seq<Relays.Event>, m: Relays.Reply, l: ID)
    requires p.Valid() && forall i :: 0 <= i < |es| ==> Delivers(w, es[i])
    requires m in Relays.Run(p, es).sent && m.Aggregated?
    requires l in w.replicas && !w.replicas[l].halted && IsLeader(w.replicas[l])
    ensures p.layout.GroupOf(m.relay) < |p.layout.groups|
    ensures var a, b := LastExecute(l, m.relay, m.lastExecute), DeliverP2b(l, m.slot, m.ballot, Counted(p.layout, m));
            var o := OnAggregated(w.replicas[l], p.layout, m); var u := Step(w, a);
            && Enabled(w, a) && Enabled(u, b)
            && Step(u, b).replicas == w.replicas[l := o.replica] && o.sent <= Step(u, b).h.sent
  {
    var u := Step(w, LastExecute(l, m.relay, m.lastExecute));
    Reports(w, l, m.relay, m.lastExecute);
    forall i | 0 <= i < |es| ensures Delivers(u, es[i]) {
      assert Delivers(w, es[i]);
    }
    AnswersMayBeCounted(u, p, es, m, l);
    Counts(u, l, m.slot, m.ballot, Counted(p.layout, m));
  }
}
