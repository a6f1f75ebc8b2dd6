// A run of five replicas in which two execute different commands although every promise told all and
// every vote was genuine: a committed placeholder adopts the command of an older ballot
// (pigpaxos/pigpaxos.go:378-382).
//
// Replica 1 proposes x in slot 0 and reaches nobody.  Replica 5 leads in a higher ballot, has y accepted
// by 3 and 4 in slot 0, commits and executes it.  Its commit notice reaches replica 2, which knows
// nothing of slot 0 and marks it committed; then the old proposal of x arrives there, and replica 2
// executes x.

module PigPaxosLateAdoption {
  import opened Ballots
  import opened Quorums
  import opened Store
  import opened Options
  import opened PigPaxosLog
  import opened PigPaxosRuns
  import opened PigPaxosSafety
  import opened PigPaxosScenes

  const B5: Ballot := U32 + 5

  function Five(): (cfg: Config)
    ensures ConfigOk(cfg) && cfg.n() == 5
  {
    var nodes: set<ID> := {1, 2, 3, 4, 5};
    assert |nodes| == 5;
    Config(nodes)
  }

  lemma MoreArithmetic()
    ensures Next(0, 1) == B1 && Next(0, 5) == B5 && BallotID(B1) == 1 && BallotID(B5) == 5 && 0 < B1 < B5
  {
    Arithmetic();
    NewBallotPacks(1, 5);
  }

  lemma ThreeOfFive(a: ID, b: ID, c: ID)
    requires a != b && b != c && a != c
    ensures var t := NO_ACKS.Ack(a);
            !t.Ack(b).Majority(Five()) && t.Ack(b).Ack(c).Majority(Five()) && t.AckAll([b, c]) == t.Ack(b).Ack(c)
  {
    var t := NO_ACKS.Ack(a);
    assert [b, c][..1] == [b] && [b][..0] == [];
    assert t.AckAll([b]) == t.AckAll([]).Ack(b) == t.Ack(b);
  }

  /** A replica that has done nothing but to promise ballot b. */
  function Promised(id: ID, b: Ballot): Replica { NewPigPaxos(id, Five(), false).(ballot := b) }

  /** No promise counted was blind for slot 0, and every vote counted for it was genuine. */
  ghost predicate Honest(w: World) { Complete(w.h, 0) && VotesGenuine(w.h, 0) }

  /** Replica id is asked for c, and two others promise. */
  lemma Canvass(reach: World -> bool, w: World, id: ID, f: ID, g: ID, c: Command, b: Ballot) returns (u: World)
    requires Closed(reach) && reach(w) && {id, f, g} <= w.replicas.Keys && id != f && f != g && g != id && id != 0
    requires w.replicas[id] == Promised(id, 0) && Next(0, id) == b && b > 0
    requires forall q :: q in {f, g} ==> w.replicas[q].ballot < b && w.replicas[q] == Promised(q, w.replicas[q].ballot)
    ensures reach(u) && u.cfg == w.cfg && w.h.sent <= u.h.sent && (Honest(w) ==> Honest(u))
    ensures u.replicas == w.replicas[id := Asking(Promised(id, 0), b, c)][f := Promised(f, b)][g := Promised(g, b)]
    ensures Given(u.h, PromiseOf(Promised(f, b))) && Given(u.h, PromiseOf(Promised(g, b)))
  {
    ZeroBallot();
    var v := Ask(reach, w, id, c, b);
    var x, pf := Give(reach, v, f, b);
    var y, pg := Give(reach, x, g, b);
    u := y;
  }

  /** The promises elect replica id, which proposes c in slot 0. */
  lemma Wins(reach: World -> bool, w: World, id: ID, f: ID, g: ID, c: Command, b: Ballot) returns (u: World, m: Msg)
    requires Closed(reach) && reach(w) && id in w.replicas && id != f && f != g && g != id
    requires w.replicas[id] == Asking(Promised(id, 0), b, c) && BallotID(b) == id && b > 0
    requires Given(w.h, PromiseOf(Promised(f, b))) && Given(w.h, PromiseOf(Promised(g, b)))
    ensures reach(u) && u.cfg == w.cfg && w.h.sent <= u.h.sent && (Honest(w) ==> Honest(u))
    ensures u.replicas ==
            w.replicas[id := Leading(Asking(Promised(id, 0), b, c).(quorum := NO_ACKS.Ack(id).Ack(f)), g, c)]
    ensures m == P2a(b, 0, c, 0, b, []) && m in u.h.sent
  {
    ThreeOfFive(id, f, g);
    ReportsNothing(Promised(f, b));
    ReportsNothing(Promised(g, b));
    var v := Hear(reach, w, id, PromiseOf(Promised(f, b)));
    u, m := Lead(reach, v, id, PromiseOf(Promised(g, b)), c);
  }

  /** Replica 2 has promised B1; replica 5 has y committed with the votes of 3 and 4 and has announced it. */
  ghost predicate Announced(w: World) {
    && w.cfg == Five() && w.replicas.Keys == {1, 2, 3, 4, 5} && Honest(w)
    && w.replicas[2] == Promised(2, B1) && P2a(B1, 0, X, 0, B1, []) in w.h.sent && P3(B5, [0]) in w.h.sent
    && w.replicas[5].execute == 1 && w.replicas[5].executed == [Executed(0, B5, Y)]
  }

  lemma ProposesX(reach: World -> bool, w0: World) returns (w: World)
    requires Closed(reach) && reach(w0) && w0 == Init(Five(), false)
    ensures reach(w) && w.cfg == Five() && w.replicas.Keys == {1, 2, 3, 4, 5} && Honest(w)
    ensures P2a(B1, 0, X, 0, B1, []) in w.h.sent && w.replicas[2] == Promised(2, B1)
    ensures w.replicas[3] == Promised(3, B1) && w.replicas[4] == Promised(4, 0) && w.replicas[5] == Promised(5, 0)
  {
    MoreArithmetic();
    var u := Canvass(reach, w0, 1, 2, 3, X, B1);
    var m;
    w, m := Wins(reach, u, 1, 2, 3, X, B1);
  }

  lemma ProposesY(reach: World -> bool, w0: World) returns (w: World)
    requires Closed(reach) && reach(w0) && w0 == Init(Five(), false)
    ensures reach(w) && w.cfg == Five() && w.replicas.Keys == {1, 2, 3, 4, 5} && Honest(w)
    ensures P2a(B1, 0, X, 0, B1, []) in w.h.sent && P2a(B5, 0, Y, 0, B5, []) in w.h.sent
    ensures w.replicas[2] == Promised(2, B1) && w.replicas[3] == Promised(3, B5) && w.replicas[4] == Promised(4, B5)
    ensures w.replicas[5] == Leading(Asking(Promised(5, 0), B5, Y).(quorum := NO_ACKS.Ack(5).Ack(3)), 4, Y)
  {
    MoreArithmetic();
    var u := ProposesX(reach, w0);
    u := Canvass(reach, u, 5, 3, 4, Y, B5);
    var m;
    w, m := Wins(reach, u, 5, 3, 4, Y, B5);
  }

  lemma Announces(reach: World -> bool, w0: World) returns (w: World)
    requires Closed(reach) && reach(w0) && w0 == Init(Five(), false)
    ensures reach(w) && Announced(w)
  {
    MoreArithmetic();
    ThreeOfFive(5, 3, 4);
    var m := P2a(B5, 0, Y, 0, B5, []);
    var u := ProposesY(reach, w0);
    u := Take(reach, u, 3, m);
    u := Take(reach, u, 4, m);
    u := Decide(reach, u, 5, Y, [3, 4]);
    w := Tell(reach, u, 5);
  }

  /** The notice leaves a placeholder, the old proposal fills it, and with the notice again replica 2 executes x. */
  lemma Diverges(reach: World -> bool, w: World) returns (v: World)
    requires Closed(reach) && reach(w) && Announced(w)
    ensures reach(v) && v.cfg == Five() && Honest(v) && 2 in v.replicas && 5 in v.replicas
    ensures v.replicas[2].execute == 1 && v.replicas[2].executed == [Executed(0, B1, X)]
    ensures v.replicas[5].execute == 1 && v.replicas[5].executed == [Executed(0, B5, Y)]
  {
    MoreArithmetic();
    var q := CommitNotice(Promised(2, B1), B5, 0).replica;
    assert !Executable(q);
    var u := Notice0(reach, w, 2, B5, q);
    u := Fill(reach, u, 2, P2a(B1, 0, X, 0, B1, []));
    RunsFirst(u.replicas[2]);
    assert CommitNotice(u.replicas[2], B5, 0) == Outcome(u.replicas[2], {});
    v := Notice0(reach, u, 2, B5, u.replicas[2]);
  }

  /**
   * Replicas 2 and 5 execute different commands for slot 0, although no counted promise was blind for it and every
   * counted vote was genuine: a placeholder adopted the command of a ballot below every deciding one.
   */
  lemma LateAdoptionBreaksAgreement() returns (w: World)
    ensures ConfigOk(w.cfg) && Reachable(w) && 2 in w.replicas && 5 in w.replicas
    ensures w.replicas[2].executed == [Executed(0, B1, X)] && w.replicas[5].executed == [Executed(0, B5, Y)] && X != Y
    ensures Complete(w.h, 0) && VotesGenuine(w.h, 0) && !AdoptionsGrounded(w.h, 0)
  {
    var w0, reach := Init(Five(), false), w => Reaches(Init(Five(), false), w);
    ReachableIsClosed(Five());
    ReachesItself(w0);
    w := Announces(reach, w0);
    w := Diverges(reach, w);
    ReachedFromStart(Five(), false, w);
    DivergedIsUnsafe(w, 2, 5, Executed(0, B1, X), Executed(0, B5, Y));
  }
}
