// Which slots a log may lose over a whole run: only CleanupLog removes any, never one that some node has not yet
// reported as executed, and what one cleanup has to leave the next removes.

module PigPaxosCleanup {
  import opened Ballots
  import opened Store
  import opened PigPaxosLog
  import opened PigPaxosRuns
  import opened PigPaxosProgress

  // ---- one handler ---------------------------------------------------------------------------------

  /** q has all the slots of p, the same reports and the same marker. */
  ghost predicate KeepsSlots(p: Replica, q: Replica) {
    p.log.Keys <= q.log.Keys && q.executeByNode == p.executeByNode && q.lastCleanupMarker == p.lastCleanupMarker
  }

  lemma ExecKeepsSlots(p: Replica)
    ensures KeepsSlots(p, Exec(p).replica)
  {
    ExecRunsAllSettled(p);
  }

  lemma NoticesKeepSlots(p: Replica, b: Ballot, slots: seq<int>)
    ensures KeepsSlots(p, HandleP3(p, b, slots).replica)
  {
    var n := CommitNotices(p, b, slots).replica;
    NoticesCommit(p, b, slots);
    assert forall t :: t in p.log ==> t in n.log;
    ExecKeepsSlots(n);
  }

  lemma PromiseKeepsSlots(p: Replica, b: Ballot, from: ID, log: map<int, CommandBallot>)
    ensures KeepsSlots(p, HandleP1b(p, b, from, log).replica)
  {
    var merged := Update(p, log);
    var counted := CountPromise(if b > p.ballot then Raise(merged, b) else merged, from);
    ProposeAllKeepsSlots(Activate(counted).replica, counted.requests);
  }

  lemma {:induction false} ProposeAllKeepsSlots(p: Replica, cs: seq<Command>)
    ensures KeepsSlots(p, ProposeAll(p, cs).replica)
    decreases |cs|
  {
    if cs != [] { ProposeAllKeepsSlots(p, cs[..|cs| - 1]); }
  }

  lemma ProposalKeepsSlots(p: Replica, b: Ballot, s: int, c: Command, ge: int, pb: Ballot, ps: seq<int>)
    ensures KeepsSlots(p, HandleP2a(p, b, s, c, ge, pb, ps).replica)
  {
    NoticesKeepSlots(if b >= p.ballot then Accept(p, b, s, c, ge) else p, pb, ps);
  }

  lemma VotesKeepSlots(p: Replica, s: int, b: Ballot, ids: seq<ID>)
    ensures KeepsSlots(p, HandleP2b(p, s, b, ids).replica)
  {
    var q := if b > p.ballot then StepDown(p, b).replica else p;
    if s in q.log && q.log[s].quorum.Some? { ExecKeepsSlots(Commit(CountVotes(q, s, ids), s)); }
  }

  /** Apart from cleanups and reports, nothing touches what decides which slots stay. */
  lemma OutcomeKeepsSlots(p: Replica, a: Action)
    requires !a.Cleanup? && !a.LastExecute?
    ensures KeepsSlots(p, Outcomes(p, a).replica)
  {
    match a {
      case DeliverP1b(_, pr) => PromiseKeepsSlots(p, pr.ballot, pr.id, pr.log);
      case DeliverP2a(_, m) =>
        if m.P2a? { ProposalKeepsSlots(p, m.ballot, m.slot, m.command, m.globalExecute, m.p3Ballot, m.p3Slots); }
      case DeliverP2b(_, s, b, ids) => VotesKeepSlots(p, s, b, ids);
      case DeliverP3(_, b, slots) => NoticesKeepSlots(p, b, slots);
      case DeliverRecoverRequest(_, s) => ExecKeepsSlots(p);
      case DeliverRecoverReply(_, b, s, c) => ExecKeepsSlots(Recover(p, b, s, c));
      case _ =>
    }
  }

  // ---- what a node has not executed stays ---------------------------------------------------------------

  /** Node k tells l nothing new. */
  predicate Silent(run: seq<Action>, l: ID, k: ID) {
    forall i :: 0 <= i < |run| ==> !(run[i].LastExecute? && run[i].id == l && run[i].node == k)
  }

  /** l keeps slot s, and knows that k had executed the slots below v only. */
  ghost predicate StillHolds(w: World, l: ID, k: ID, v: int, s: int) {
    l in w.replicas && s in w.replicas[l].log && k in w.replicas[l].executeByNode && w.replicas[l].executeByNode[k] == v
  }

  lemma StepStillHolds(w: World, a: Action, l: ID, k: ID, v: int, s: int)
    requires a.id in w.replicas && StillHolds(w, l, k, v, s) && v <= s && Silent([a], l, k)
    ensures StillHolds(Step(w, a), l, k, v, s)
  {
    Moves(w, a);
    if a.id == l {
      var p := w.replicas[l];
      assert !([a][0].LastExecute? && [a][0].node == k);
      if a.Cleanup? {
        CleanupExact(p, s);
      } else if !a.LastExecute? {
        OutcomeKeepsSlots(p, a);
      }
    }
  }

  lemma {:induction false} RunStillHolds(w: World, run: seq<Action>, l: ID, k: ID, v: int, s: int)
    requires IsRun(w, run) && StillHolds(w, l, k, v, s) && v <= s && Silent(run, l, k)
    ensures StillHolds(After(w, run), l, k, v, s)
    decreases |run|
  {
    if run != [] {
      assert [run[0]][0] == run[0];
      StepStillHolds(w, run[0], l, k, v, s);
      RunStillHolds(Step(w, run[0]), run[1..], l, k, v, s);
    }
  }

  /**
   * Once node k has reported that it has executed the slots below v, no run removes a slot from v on out of this log
   * before k reports again.
   */
  lemma ReportedSlotsStay(w: World, l: ID, k: ID, v: int, s: int, run: seq<Action>)
    requires Enabled(w, LastExecute(l, k, v)) && s in w.replicas[l].log && v <= s
    requires IsRun(Step(w, LastExecute(l, k, v)), run) && Silent(run, l, k)
    ensures var u := After(Step(w, LastExecute(l, k, v)), run);
            l in u.replicas && s in u.replicas[l].log && k in u.replicas[l].executeByNode
            && u.replicas[l].executeByNode[k] == v
  {
    Moves(w, LastExecute(l, k, v));
    RunStillHolds(Step(w, LastExecute(l, k, v)), run, l, k, v, s);
  }

  // ---- what is left over goes next time -------------------------------------------------------------------

  predicate NoCleanup(run: seq<Action>, l: ID) { forall i :: 0 <= i < |run| ==> !(run[i].Cleanup? && run[i].id == l) }

  ghost predicate LeftOver(w: World, l: ID, s: int) {
    l in w.replicas && s in w.replicas[l].log && w.replicas[l].lastCleanupMarker <= s
  }

  lemma StepLeavesOver(w: World, a: Action, l: ID, s: int)
    requires a.id in w.replicas && LeftOver(w, l, s) && NoCleanup([a], l)
    ensures LeftOver(Step(w, a), l, s)
  {
    Moves(w, a);
    if a.id == l {
      assert !([a][0].Cleanup?);
      if !a.LastExecute? { OutcomeKeepsSlots(w.replicas[l], a); }
    }
  }

  lemma {:induction false} RunLeavesOver(w: World, run: seq<Action>, l: ID, s: int)
    requires IsRun(w, run) && LeftOver(w, l, s) && NoCleanup(run, l)
    ensures LeftOver(After(w, run), l, s)
    decreases |run|
  {
    if run != [] {
      assert [run[0]][0] == run[0];
      StepLeavesOver(w, run[0], l, s);
      RunLeavesOver(Step(w, run[0]), run[1..], l, s);
    }
  }

  /** Everybody who ever reported, and this replica, have executed s. */
  ghost predicate ExecutedByAll(p: Replica, s: int) {
    s < p.execute && forall k :: k in p.executeByNode ==> s < p.executeByNode[k]
  }

  /**
   * A slot that a cleanup found and had to leave is removed by the next one, if by then everybody has executed it,
   * whatever happened in between.
   */
  lemma NextCleanupRemoves(w: World, l: ID, s: int, run: seq<Action>)
    requires Enabled(w, Cleanup(l)) && LeftOver(w, l, s) && !ExecutedByAll(w.replicas[l], s)
    requires IsRun(Step(w, Cleanup(l)), run) && NoCleanup(run, l)
    requires var u := After(Step(w, Cleanup(l)), run); l in u.replicas && ExecutedByAll(u.replicas[l], s)
    ensures var u := After(Step(w, Cleanup(l)), run);
            s in u.replicas[l].log && s !in Step(u, Cleanup(l)).replicas[l].log
  {
    var p, v := w.replicas[l], Step(w, Cleanup(l));
    Moves(w, Cleanup(l));
    CleanupExact(p, s);
    assert SafeMarker(p) <= s;
    RunLeavesOver(v, run, l, s);
    var u := After(v, run);
    CleanupExact(u.replicas[l], s);
    Moves(u, Cleanup(l));
  }
}
