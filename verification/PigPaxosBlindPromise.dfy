// A run of three replicas in which agreement fails because a counted promise leaves out a slot
// its sender had already committed (pigpaxos/pigpaxos.go:269-274).
//
// Replica 1 leads, has command x accepted by 1 and 2 in slot 0, and commits and executes it; replica 2
// learns of the commit.  Replica 3 then collects a promise from 2, which says nothing about slot 0, and
// proposes its own command y there.  Replica 1 has executed slot 0 and cleaned it from its log
// (pigpaxos/pigpaxos.go:151-163), so it accepts y, and 3 commits and executes y: every vote counted was
// genuine and no placeholder was filled.

module PigPaxosBlindPromise {
  import opened Ballots
  import opened Quorums
  import opened Store
  import opened Options
  import opened PigPaxosLog
  import opened PigPaxosRuns
  import opened PigPaxosSafety
  import opened PigPaxosScenes

  /** Every vote counted for slot 0 was genuine, and nothing was adopted. */
  ghost predicate Honest(w: World) { VotesGenuine(w.h, 0) && w.h.adopted == {} }

  /** x was proposed and accepted by replicas 1 and 2. */
  ghost predicate Chose(w: World) {
    P2a(B1, 0, X, 0, B1, []) in w.h.sent && Vote(1, B1, 0) in w.h.votes && Vote(2, B1, 0) in w.h.votes
  }

  /** Replica 1 has executed x, replica 2 has too and is in ballot B1, replica 3 has done nothing. */
  ghost predicate Settled(w: World) {
    && w.cfg == Three() && w.replicas.Keys == {1, 2, 3} && Honest(w) && Chose(w)
    && var p, q := w.replicas[1], w.replicas[2];
    && p.id == 1 && !p.halted && p.ballot == B1 && p.execute == 1 && p.executed == [Executed(0, B1, X)]
    && p.log.Keys == {0} && p.executeByNode == map[] && p.lastCleanupMarker == 0
    && q.id == 2 && !q.halted && q.ballot == B1 && q.log.Keys == {0} && q.log[0].commit
    && w.replicas[3] == NewPigPaxos(3, Three(), false)
  }

  /** Replica 1 when it has proposed x, and replica 2 when it has accepted it. */
  function First(): Replica { Leading(Asking(NewPigPaxos(1, Three(), false), B1, X), 2, X) }

  function Second(): Replica { Accepted(Raise(NewPigPaxos(2, Three(), false), B1), P2a(B1, 0, X, 0, B1, [])) }

  lemma Chooses(reach: World -> bool, w0: World) returns (u: World)
    requires Closed(reach) && reach(w0) && w0 == Init(Three(), false)
    ensures reach(u) && u.cfg == Three() && Honest(u) && Chose(u) && P2b(B1, 0, [2]) in u.h.sent
    ensures u.replicas == w0.replicas[1 := First()][2 := Second()]
  {
    Arithmetic();
    var v, m := Elect(reach, w0, 1, 2, X, B1);
    u := Take(reach, v, 2, m);
  }

  /** Replica 1 commits, executes and announces x. */
  lemma Decides(reach: World -> bool, u: World) returns (v: World)
    requires Closed(reach) && reach(u) && u.cfg == Three() && Honest(u) && Chose(u) && P2b(B1, 0, [2]) in u.h.sent
    requires 1 in u.replicas && u.replicas[1] == First()
    ensures reach(v) && v.cfg == Three() && Honest(v) && Chose(v) && P3(B1, [0]) in v.h.sent
    ensures v.replicas == u.replicas[1 := Done(First(), X, [2]).(p3pendingSlots := [])]
  {
    Arithmetic();
    TwoOfThree(1, 2);
    var x := Decide(reach, u, 1, X, [2]);
    v := Tell(reach, x, 1);
  }

  lemma Settles(reach: World -> bool, w0: World) returns (w: World)
    requires Closed(reach) && reach(w0) && w0 == Init(Three(), false)
    ensures reach(w) && Settled(w)
  {
    var u := Chooses(reach, w0);
    u := Decides(reach, u);
    var q := CommitNotice(Second(), B1, 0).replica;
    RunsFirst(q);
    w := Notice0(reach, u, 2, B1, q);
  }

  lemma CleansAll(p: Replica)
    requires p.execute == 1 && p.executeByNode == map[] && p.log.Keys == {0} && p.lastCleanupMarker == 0
    ensures CleanupLog(p) == p.(log := map[], lastCleanupMarker := 1)
  {
    assert SafeMarker(p) == 1;
    assert CleanupLog(p).log.Keys == {};
    assert CleanupLog(p).log == map[];
  }

  lemma ChosenByTwo(w: World)
    requires w.cfg == Three() && Chose(w)
    ensures Chosen(w, B1, 0)
  {
    assert MajorityOf(Three(), {1, 2}) && AllVoted(w.h, {1, 2}, B1, 0);
  }

  /** The blind promise elects replica 3, and replica 1 gives the vote it needs. */
  lemma Diverges(reach: World -> bool, w: World) returns (v: World)
    requires Closed(reach) && reach(w) && Settled(w)
    ensures reach(v) && v.cfg == Three() && Honest(v) && Chose(v) && P2a(B3, 0, Y, 0, B3, []) in v.h.sent
    ensures 1 in v.replicas && v.replicas[1].execute == 1 && v.replicas[1].executed == [Executed(0, B1, X)]
    ensures 3 in v.replicas && v.replicas[3].execute == 1 && v.replicas[3].executed == [Executed(0, B3, Y)]
  {
    Arithmetic();
    TwoOfThree(3, 1);
    var u, m := Elect(reach, w, 3, 2, Y, B3);
    CleansAll(u.replicas[1]);
    u := Clean(reach, u, 1);
    u := Take(reach, u, 1, m);
    v := Decide(reach, u, 3, Y, [1]);
  }

  /**
   * A majority accepted x in slot 0, yet a higher ballot proposes y there, and replicas 1 and 3 execute
   * different commands for the slot, although every counted vote was genuine and no placeholder adopted
   * a command: a counted promise was blind.
   */
  lemma BlindPromiseBreaksAgreement() returns (w: World)
    ensures ConfigOk(w.cfg) && Reachable(w) && 1 in w.replicas && 3 in w.replicas
    ensures Chosen(w, B1, 0) && Proposed(w, B1, 0, X) && Proposed(w, B3, 0, Y) && B1 < B3 && X != Y
    ensures w.replicas[1].executed == [Executed(0, B1, X)] && w.replicas[3].executed == [Executed(0, B3, Y)]
    ensures VotesGenuine(w.h, 0) && AdoptionsGrounded(w.h, 0) && !Complete(w.h, 0)
  {
    var w0, reach := Init(Three(), false), w => Reaches(Init(Three(), false), w);
    ReachableIsClosed(Three());
    ReachesItself(w0);
    w := Settles(reach, w0);
    w := Diverges(reach, w);
    ReachedFromStart(Three(), false, w);
    ChosenByTwo(w);
    DivergedIsUnsafe(w, 1, 3, Executed(0, B1, X), Executed(0, B3, Y));
  }
}
