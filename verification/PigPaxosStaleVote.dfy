// A run of three replicas in which two execute different commands although every promise told all,
// because a stale P2a is answered with the answerer's own ballot (pigpaxos/pigpaxos.go:396-400).
//
// Replica 1 proposes x in slot 0, replica 3 then proposes y there in a higher ballot.  Replica 2, in
// the ballot of 3, answers the stale proposal of x; the answer names the higher ballot and slot 0, so
// it counts as a vote for y, and 3 commits and executes y.  Nobody but 1 and 3 holds anything in
// slot 0 when 1 leads again, so 1 proposes x again, commits and executes it.

module PigPaxosStaleVote {
  import opened Ballots
  import opened Quorums
  import opened Store
  import opened Options
  import opened PigPaxosLog
  import opened PigPaxosRuns
  import opened PigPaxosSafety
  import opened PigPaxosScenes

  const Z := Command(8, Bytes([3]), 9, 3)
  const C1: Ballot := 2 * U32 + 1

  lemma MoreArithmetic()
    ensures Next(B3, 1) == C1 && BallotID(C1) == 1 && N(B3) + 1 < U32 && B1 < B3 < C1 && BallotID(B3) == 3
  {
    Arithmetic();
    NewBallotPacks(1, 3);
    NewBallotPacks(2, 1);
  }

  // ---- replica 1 and its second election -----------------------------------------------------------

  /** Replica 1 has proposed x, was overtaken by ballot B3, and is asked for z. */
  function Candidate1(): Replica {
    Asking(Raise(Leading(Asking(NewPigPaxos(1, Three(), false), B1, X), 2, X), B3), C1, Z)
  }

  function LeadingAgain1(): Replica {
    Candidate1().(quorum := NO_ACKS.Ack(1).Ack(2), active := true, p3PendingBallot := C1, slot := 1, requests := [],
                  log := map[0 := Entry(C1, X, false, Some(NO_ACKS.Ack(1)), true),
                             1 := Entry(C1, Z, false, Some(NO_ACKS.Ack(1)), true)])
  }

  const AGAIN_X := P2a(C1, 0, X, 0, 0, [])
  const PROPOSE_Z := P2a(C1, 1, Z, 0, C1, [])

  lemma Reproposes()
    ensures var p := CountPromise(Candidate1(), 2); var a := Activate(p);
            && a.sent == {AGAIN_X}
            && a.replica == p.(active := true, p3PendingBallot := C1,
                               log := map[0 := Entry(C1, X, false, Some(NO_ACKS.Ack(1)), true)])
  {
    var p := CountPromise(Candidate1(), 2);
    assert forall s :: s in p.log && Reproposed(p, s) <==> s == 0;
    assert AGAIN_X in Activate(p).sent;
  }

  lemma ProposesAgain()
    ensures TakeOver(CountPromise(Candidate1(), 2)) == Outcome(LeadingAgain1(), {AGAIN_X, PROPOSE_Z})
  {
    Reproposes();
    var a := Activate(CountPromise(Candidate1(), 2));
    OneProposal(a.replica, Z);
    assert Propose(a.replica, Z).sent == {PROPOSE_Z};
    assert {AGAIN_X} + {PROPOSE_Z} == {AGAIN_X, PROPOSE_Z};
    assert Propose(a.replica, Z).replica.(requests := []) == LeadingAgain1();
  }

  // ---- the run ----------------------------------------------------------------------------------

  /** No promise counted was blind for slot 0, and nothing was adopted. */
  ghost predicate Honest(w: World) { Complete(w.h, 0) && w.h.adopted == {} }

  /** Replica 3 has executed y on the strength of a stale answer; replica 1 was overtaken while it proposed x. */
  ghost predicate Overtaken(w: World) {
    && w.cfg == Three() && w.replicas.Keys == {1, 2, 3} && Honest(w)
    && w.replicas[1] == Raise(Leading(Asking(NewPigPaxos(1, Three(), false), B1, X), 2, X), B3)
    && w.replicas[2] == Raise(Raise(NewPigPaxos(2, Three(), false), B1), B3)
    && w.replicas[3].execute == 1 && w.replicas[3].executed == [Executed(0, B3, Y)]
  }

  /** The stale answer: both leaders have proposed, and replica 2 is in the ballot of the second. */
  lemma Answers(reach: World -> bool, w0: World) returns (w: World)
    requires Closed(reach) && reach(w0) && w0 == Init(Three(), false)
    ensures reach(w) && w.cfg == Three() && Honest(w) && P1a(B3) in w.h.sent && P2b(B3, 0, [2]) in w.h.sent
    ensures w.replicas == map[1 := Leading(Asking(NewPigPaxos(1, Three(), false), B1, X), 2, X),
                              2 := Raise(Raise(NewPigPaxos(2, Three(), false), B1), B3),
                              3 := Leading(Asking(NewPigPaxos(3, Three(), false), B3, Y), 2, Y)]
  {
    Arithmetic();
    var u, m := Elect(reach, w0, 1, 2, X, B1);
    var v, n := Elect(reach, u, 3, 2, Y, B3);
    w := AnswerStale(reach, v, 2, m);
  }

  /** It counts as a vote for y. */
  lemma Overtakes(reach: World -> bool, w0: World) returns (w: World)
    requires Closed(reach) && reach(w0) && w0 == Init(Three(), false)
    ensures reach(w) && Overtaken(w)
  {
    Arithmetic();
    TwoOfThree(3, 2);
    var u := Answers(reach, w0);
    u := Decide(reach, u, 3, Y, [2]);
    var pr;
    w, pr := Give(reach, u, 1, B3);
  }

  /** Replica 1 leads again, with a promise that knows of nothing in slot 0. */
  lemma LeadsAgain(reach: World -> bool, w: World) returns (v: World)
    requires Closed(reach) && reach(w) && Overtaken(w)
    ensures reach(v) && v.cfg == Three() && Honest(v) && AGAIN_X in v.h.sent && v.replicas.Keys == {1, 2, 3}
    ensures v.replicas[1] == LeadingAgain1() && v.replicas[3] == w.replicas[3]
    ensures v.replicas[2] == Raise(w.replicas[2], C1)
  {
    MoreArithmetic();
    TwoOfThree(1, 2);
    ProposesAgain();
    var u := Ask(reach, w, 1, Z, C1);
    var x, pr := Give(reach, u, 2, C1);
    ReportsNothing(x.replicas[2]);
    v := Win(reach, x, 1, pr, Outcome(LeadingAgain1(), {AGAIN_X, PROPOSE_Z}));
  }

  /** It proposes x again and has it accepted. */
  lemma Diverges(reach: World -> bool, w: World) returns (v: World)
    requires Closed(reach) && reach(w) && Overtaken(w)
    ensures reach(v) && v.cfg == Three() && Honest(v) && 1 in v.replicas && 3 in v.replicas
    ensures v.replicas[1].execute == 1 && v.replicas[1].executed == [Executed(0, C1, X)]
    ensures v.replicas[3].execute == 1 && v.replicas[3].executed == [Executed(0, B3, Y)]
  {
    MoreArithmetic();
    TwoOfThree(1, 2);
    var u := LeadsAgain(reach, w);
    u := Take(reach, u, 2, AGAIN_X);
    v := Decide(reach, u, 1, X, [2]);
  }

  /**
   * Replicas 1 and 3 execute different commands for slot 0, although no counted promise was blind for it and no
   * placeholder adopted a command: a vote that counted was not genuine.
   */
  lemma StaleVoteBreaksAgreement() returns (w: World)
    ensures ConfigOk(w.cfg) && Reachable(w) && 1 in w.replicas && 3 in w.replicas
    ensures w.replicas[1].executed == [Executed(0, C1, X)] && w.replicas[3].executed == [Executed(0, B3, Y)] && X != Y
    ensures Complete(w.h, 0) && AdoptionsGrounded(w.h, 0) && !VotesGenuine(w.h, 0)
  {
    var w0, reach := Init(Three(), false), w => Reaches(Init(Three(), false), w);
    ReachableIsClosed(Three());
    ReachesItself(w0);
    w := Overtakes(reach, w0);
    w := Diverges(reach, w);
    ReachedFromStart(Three(), false, w);
    DivergedIsUnsafe(w, 1, 3, Executed(0, C1, X), Executed(0, B3, Y));
  }
}
