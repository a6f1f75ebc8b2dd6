// What the runs in which agreement fails are made of: one lemma for each kind of action, which says what
// the action makes of a replica, what it leaves on record, and which conditions of the agreement theorems
// it keeps for slot 0.

module PigPaxosScenes {
  import opened Ballots
  import opened Quorums
  import opened Store
  import opened Options
  import opened PigPaxosLog
  import opened PigPaxosRuns
  import opened PigPaxosSafety

  const X := Command(7, Bytes([1]), 9, 1)
  const Y := Command(7, Bytes([2]), 9, 2)
  const B1: Ballot := U32 + 1
  const B3: Ballot := U32 + 3

  function Three(): (cfg: Config)
    ensures ConfigOk(cfg) && cfg.n() == 3
  {
    var nodes: set<ID> := {1, 2, 3};
    assert |nodes| == 3;
    Config(nodes)
  }

  lemma Arithmetic()
    ensures Next(0, 1) == B1 && Next(0, 3) == B3 && BallotID(B1) == 1 && BallotID(B3) == 3 && 0 < B1 < B3
  {
    NewBallotPacks(1, 1);
    NewBallotPacks(1, 3);
  }

  lemma ZeroBallot()
    ensures BallotID(0) == 0 && N(0) + 1 < U32
  {
  }

  lemma TwoOfThree(a: ID, b: ID)
    requires a != b
    ensures NO_ACKS.Ack(a).Ack(b).Majority(Three()) && NO_ACKS.Ack(a).AckAll([b]) == NO_ACKS.Ack(a).Ack(b)
  {
    assert [b][..0] == [];
  }

  // ---- one action ----------------------------------------------------------------------------

  /** From w to u replica id became q, and nothing recorded is lost. */
  ghost predicate Goes(w: World, u: World, id: ID, q: Replica) {
    && u.cfg == w.cfg && u.replicas == w.replicas[id := q]
    && w.h.sent <= u.h.sent && w.h.votes <= u.h.votes && w.h.promises <= u.h.promises && w.h.counted <= u.h.counted
  }

  ghost predicate StaysComplete(w: World, u: World) { Complete(w.h, 0) ==> Complete(u.h, 0) }

  ghost predicate StaysGenuine(w: World, u: World) { VotesGenuine(w.h, 0) ==> VotesGenuine(u.h, 0) }

  ghost predicate AllStay(w: World, u: World) {
    StaysComplete(w, u) && StaysGenuine(w, u) && u.h.adopted == w.h.adopted
  }

  /** Every action keeps the property, as being reachable. */
  ghost predicate Closed(reach: World -> bool) { forall w, a :: reach(w) && Enabled(w, a) ==> reach(Step(w, a)) }

  /** The world after action a. */
  lemma Act(reach: World -> bool, w: World, a: Action, o: Outcome, u: World)
    requires Closed(reach) && reach(w) && Enabled(w, a) && Outcomes(w.replicas[a.id], a) == o && u == Step(w, a)
    ensures reach(u) && Goes(w, u, a.id, o.replica) && o.sent <= u.h.sent
    ensures (a.DeliverP1b? ==> !a.promise.Hides(0)) ==> StaysComplete(w, u)
    ensures (a.DeliverP2b? ==> forall q :: q in a.ids ==> Vote(q, a.ballot, 0) in w.h.votes) ==> StaysGenuine(w, u)
    ensures !a.DeliverP2a? ==> u.h.adopted == w.h.adopted
  {
    Moves(w, a);
    StepAdds(w, a, u);
    StepGrows(w, a, u);
  }

  lemma StepGrows(w: World, a: Action, u: World)
    requires a.id in w.replicas && u == Step(w, a)
    ensures w.h.votes <= u.h.votes && w.h.promises <= u.h.promises && w.h.counted <= u.h.counted
    ensures !a.DeliverP2a? ==> u.h.adopted == w.h.adopted
  {
  }

  // -- phase 1

  function Asking(p: Replica, b: Ballot, c: Command): Replica {
    p.(ballot := b, quorum := NO_ACKS.Ack(p.id), requests := p.requests + [c])
  }

  /** A request makes a replica a candidate. */
  lemma Ask(reach: World -> bool, w: World, id: ID, c: Command, b: Ballot) returns (u: World)
    requires Closed(reach) && reach(w) && id in w.replicas
    requires var p := w.replicas[id];
             && !p.halted && !p.active && p.id == id != BallotID(p.ballot)
             && N(p.ballot) + 1 < U32 && Next(p.ballot, id) == b
    ensures reach(u) && Goes(w, u, id, Asking(w.replicas[id], b, c)) && AllStay(w, u) && P1a(b) in u.h.sent
  {
    u := Step(w, Request(id, c));
    Act(reach, w, Request(id, c), Outcome(Asking(w.replicas[id], b, c), {P1a(b)}), u);
  }

  /** A promise of a higher ballot. */
  lemma Give(reach: World -> bool, w: World, id: ID, b: Ballot) returns (u: World, pr: Promise)
    requires Closed(reach) && reach(w) && id in w.replicas && P1a(b) in w.h.sent
    requires !w.replicas[id].halted && w.replicas[id].ballot < b
    ensures reach(u) && Goes(w, u, id, Raise(w.replicas[id], b)) && AllStay(w, u)
    ensures Given(u.h, pr) && pr == PromiseOf(Raise(w.replicas[id], b))
  {
    var a, q := DeliverP1a(id, b), Raise(w.replicas[id], b);
    u, pr := Step(w, a), PromiseOf(q);
    Act(reach, w, a, HandleP1a(w.replicas[id], b), u);
  }

  /** A promise by someone with nothing uncommitted. */
  lemma ReportsNothing(p: Replica)
    requires forall s :: s in p.log ==> p.log[s].commit
    ensures PromiseOf(p).log == map[]
  {
    assert PromiseOf(p).log.Keys == {};
  }

  /** A promise that reports nothing and does not complete the quorum. */
  lemma Hear(reach: World -> bool, w: World, id: ID, pr: Promise) returns (u: World)
    requires Closed(reach) && reach(w) && id in w.replicas && Given(w.h, pr) && pr.log == map[] && !pr.Hides(0)
    requires var p := w.replicas[id];
             !p.halted && !p.active && p.id == id == BallotID(p.ballot) && pr.ballot == p.ballot &&
             !p.quorum.Ack(pr.id).Majority(p.cfg)
    ensures var p := w.replicas[id];
            reach(u) && Goes(w, u, id, p.(quorum := p.quorum.Ack(pr.id))) && AllStay(w, u)
  {
    var p, a := w.replicas[id], DeliverP1b(id, pr);
    MergesNothing(p);
    u := Step(w, a);
    Act(reach, w, a, Outcome(p.(quorum := p.quorum.Ack(pr.id)), {}), u);
  }

  lemma MergesNothing(p: Replica)
    ensures Update(p, map[]) == p
  {
    var m: map<int, CommandBallot> := map[];
    assert m.Keys == {};
    assert Update(p, m).log == p.log;
  }

  lemma OneProposal(p: Replica, c: Command)
    ensures ProposeAll(p, [c]) == Propose(p, c)
  {
    assert [c][..0] == [];
    assert ProposeAll(p, []) == Outcome(p, {});
    assert {} + Propose(p, c).sent == Propose(p, c).sent;
  }

  /** A new leader with an empty log, which proposes the one command it was asked for. */
  function Leading(p: Replica, from: ID, c: Command): Replica {
    p.(quorum := p.quorum.Ack(from), active := true, p3PendingBallot := p.ballot, slot := 0, requests := [],
       log := map[0 := Entry(p.ballot, c, false, Some(NO_ACKS.Ack(p.id)), true)])
  }

  lemma LeadNow(p: Replica, from: ID, c: Command)
    requires p.log == map[] && p.slot == -1 && p.execute == 0 && p.requests == [c] && p.ballot > 0
    requires p.p3pendingSlots == []
    ensures TakeOver(CountPromise(p, from)) ==
            Outcome(Leading(p, from, c), {P2a(p.ballot, 0, c, p.globalExecute, p.ballot, [])})
  {
    var a := Activate(CountPromise(p, from));
    assert a.sent == {};
    assert a.replica.log == map[];
    OneProposal(a.replica, c);
    assert {} + Propose(a.replica, c).sent == Propose(a.replica, c).sent;
  }

  /** A promise that reports nothing and completes the quorum: the candidate takes over. */
  lemma Win(reach: World -> bool, w: World, id: ID, pr: Promise, o: Outcome) returns (u: World)
    requires Closed(reach) && reach(w) && id in w.replicas && Given(w.h, pr) && pr.log == map[]
    requires var p := w.replicas[id];
             !p.halted && !p.active && p.id == id == BallotID(p.ballot) && pr.ballot == p.ballot &&
             p.quorum.Ack(pr.id).Majority(p.cfg) && TakeOver(CountPromise(p, pr.id)) == o
    ensures reach(u) && Goes(w, u, id, o.replica) && o.sent <= u.h.sent
    ensures StaysGenuine(w, u) && u.h.adopted == w.h.adopted && (!pr.Hides(0) ==> StaysComplete(w, u))
    ensures forall m :: m in o.sent && m.P2a? ==> Vote(id, m.ballot, m.slot) in u.h.votes
  {
    var p, a := w.replicas[id], DeliverP1b(id, pr);
    MergesNothing(p);
    u := Step(w, a);
    Act(reach, w, a, o, u);
    assert SelfVotes(id, o.sent) <= u.h.votes;
  }

  lemma Lead(reach: World -> bool, w: World, id: ID, pr: Promise, c: Command) returns (u: World, m: Msg)
    requires Closed(reach) && reach(w) && id in w.replicas && Given(w.h, pr) && pr.log == map[]
    requires var p := w.replicas[id];
             && !p.halted && !p.active && p.id == id == BallotID(p.ballot) && pr.ballot == p.ballot > 0
             && p.quorum.Ack(pr.id).Majority(p.cfg) && p.log == map[] && p.slot == -1 && p.execute == 0
             && p.requests == [c] && p.p3pendingSlots == []
    ensures reach(u) && Goes(w, u, id, Leading(w.replicas[id], pr.id, c))
    ensures StaysGenuine(w, u) && u.h.adopted == w.h.adopted && (!pr.Hides(0) ==> StaysComplete(w, u))
    ensures var p := w.replicas[id];
            && m == P2a(p.ballot, 0, c, p.globalExecute, p.ballot, []) && m in u.h.sent
            && Vote(id, p.ballot, 0) in u.h.votes
  {
    var p := w.replicas[id];
    LeadNow(p, pr.id, c);
    m := P2a(p.ballot, 0, c, p.globalExecute, p.ballot, []);
    u := Win(reach, w, id, pr, Outcome(Leading(p, pr.id, c), {m}));
  }

  // -- phase 2

  function Accepted(p: Replica, m: Msg): Replica
    requires m.P2a?
  {
    Accept(p, m.ballot, m.slot, m.command, m.globalExecute)
  }

  /** A P2a for a slot of which the replica holds nothing. */
  lemma Take(reach: World -> bool, w: World, id: ID, m: Msg) returns (u: World)
    requires Closed(reach) && reach(w) && id in w.replicas && m in w.h.sent && m.P2a? && m.p3Slots == []
    requires var p := w.replicas[id]; !p.halted && p.id == id && m.ballot >= p.ballot && m.slot !in p.log
    ensures reach(u) && Goes(w, u, id, Accepted(w.replicas[id], m)) && AllStay(w, u)
    ensures P2b(m.ballot, m.slot, [id]) in u.h.sent && Vote(id, m.ballot, m.slot) in u.h.votes
  {
    var a := DeliverP2a(id, m);
    u := Step(w, a);
    Act(reach, w, a, Outcome(Accepted(w.replicas[id], m), {P2b(m.ballot, m.slot, [id])}), u);
  }

  /** A stale P2a: nothing changes, and the answer names the replica's own ballot. */
  lemma AnswerStale(reach: World -> bool, w: World, id: ID, m: Msg) returns (u: World)
    requires Closed(reach) && reach(w) && id in w.replicas && m in w.h.sent && m.P2a? && m.p3Slots == []
    requires !w.replicas[id].halted && w.replicas[id].id == id && m.ballot < w.replicas[id].ballot
    ensures reach(u) && Goes(w, u, id, w.replicas[id]) && AllStay(w, u)
    ensures P2b(w.replicas[id].ballot, m.slot, [id]) in u.h.sent
  {
    var p, a := w.replicas[id], DeliverP2a(id, m);
    u := Step(w, a);
    Act(reach, w, a, Outcome(p, {P2b(p.ballot, m.slot, [id])}), u);
  }

  /** A P2a for a committed placeholder, which is filled; all votes stay as they were. */
  lemma Fill(reach: World -> bool, w: World, id: ID, m: Msg) returns (u: World)
    requires Closed(reach) && reach(w) && id in w.replicas && m in w.h.sent && m.P2a? && m.p3Slots == []
    requires !w.replicas[id].halted && w.replicas[id].id == id && m.ballot >= w.replicas[id].ballot
    ensures reach(u) && Goes(w, u, id, Accepted(w.replicas[id], m)) && StaysComplete(w, u) && StaysGenuine(w, u)
  {
    var a := DeliverP2a(id, m);
    u := Step(w, a);
    Act(reach, w, a, Outcome(Accepted(w.replicas[id], m), {P2b(m.ballot, m.slot, [id])}), u);
  }

  /** The leader has committed and executed the command of slot 0 with the votes of these. */
  function Done(p: Replica, c: Command, ids: seq<ID>): Replica
    requires 0 in p.log
  {
    p.(log := p.log[0 := Entry(p.ballot, c, true, Some(NO_ACKS.Ack(p.id).AckAll(ids)), false)], p3pendingSlots := [0],
       execute := 1, executed := [Executed(0, p.ballot, c)], db := p.db.Execute(c))
  }

  /** Slot 0 of a leader is open, was voted for by nobody else, and is the next to execute and the last to run. */
  ghost predicate Waits(p: Replica, c: Command) {
    && p.ballot != 0 && BallotID(p.ballot) == p.id && p.execute == 0 && p.executed == [] && p.p3pendingSlots == []
    && 0 in p.log && p.log[0] == Entry(p.ballot, c, false, Some(NO_ACKS.Ack(p.id)), true)
    && (1 in p.log ==> !p.log[1].commit) && !(10 < p.slot)
  }

  lemma LeaderCommits(p: Replica, c: Command, ids: seq<ID>)
    requires Waits(p, c) && NO_ACKS.Ack(p.id).AckAll(ids).Majority(p.cfg)
    ensures HandleP2b(p, 0, p.ballot, ids) == Outcome(Done(p, c, ids), {})
  {
    var t := NO_ACKS.Ack(p.id).AckAll(ids);
    var d := Commit(CountVotes(p, 0, ids), 0);
    assert d.log == p.log[0 := Entry(p.ballot, c, true, Some(t), true)] && d.p3pendingSlots == [0];
    assert Executable(d) && ExecuteOne(d) == Done(p, c, ids) && !Executable(Done(p, c, ids));
    assert Exec(d) == Exec(Done(p, c, ids));
  }

  /** Votes that complete the quorum of slot 0. */
  lemma Decide(reach: World -> bool, w: World, id: ID, c: Command, ids: seq<ID>) returns (u: World)
    requires Closed(reach) && reach(w) && id in w.replicas && ids != []
    requires var p := w.replicas[id];
             && !p.halted && p.id == id && Waits(p, c) && NO_ACKS.Ack(id).AckAll(ids).Majority(p.cfg)
             && forall q :: q in ids ==> P2b(p.ballot, 0, [q]) in w.h.sent
    ensures reach(u) && Goes(w, u, id, Done(w.replicas[id], c, ids))
    ensures StaysComplete(w, u) && u.h.adopted == w.h.adopted
    ensures (forall q :: q in ids ==> Vote(q, w.replicas[id].ballot, 0) in w.h.votes) ==> StaysGenuine(w, u)
  {
    var p := w.replicas[id];
    var a, m := DeliverP2b(id, 0, p.ballot, ids), P2b(p.ballot, 0, [ids[0]]);
    assert ids[0] in ids && m in w.h.sent && m.ballot == p.ballot;
    LeaderCommits(p, c, ids);
    u := Step(w, a);
    Act(reach, w, a, Outcome(Done(p, c, ids), {}), u);
  }

  // -- phase 3 and after

  lemma Tell(reach: World -> bool, w: World, id: ID) returns (u: World)
    requires Closed(reach) && reach(w) && id in w.replicas
    requires !w.replicas[id].halted && w.replicas[id].p3PendingBallot > 0
    ensures var p := w.replicas[id];
            reach(u) && Goes(w, u, id, p.(p3pendingSlots := [])) && AllStay(w, u)
    ensures P3(w.replicas[id].p3PendingBallot, w.replicas[id].p3pendingSlots) in u.h.sent
  {
    var p, a := w.replicas[id], TimeoutP3(id);
    u := Step(w, a);
    Act(reach, w, a, Outcome(p.(p3pendingSlots := []), {P3(p.p3PendingBallot, p.p3pendingSlots)}), u);
  }

  lemma OneNotice(p: Replica, b: Ballot, s: int)
    ensures CommitNotices(p, b, [s]) == CommitNotice(p, b, s)
  {
    assert [s][..0] == [];
    assert CommitNotices(p, b, []) == Outcome(p, {});
    assert {} + CommitNotice(p, b, s).sent == CommitNotice(p, b, s).sent;
  }

  /** The notice of slot 0, with what exec then does. */
  lemma Notice0(reach: World -> bool, w: World, id: ID, b: Ballot, q: Replica) returns (u: World)
    requires Closed(reach) && reach(w) && id in w.replicas && !w.replicas[id].halted && P3(b, [0]) in w.h.sent
    requires CommitNotice(w.replicas[id], b, 0) == Outcome(q, {})
    ensures reach(u) && Goes(w, u, id, Exec(q).replica) && AllStay(w, u)
  {
    var p, a := w.replicas[id], DeliverP3(id, b, [0]);
    OneNotice(p, b, 0);
    u := Step(w, a);
    Act(reach, w, a, HandleP3(p, b, [0]), u);
  }

  /** exec runs slot 0 and stops. */
  lemma RunsFirst(p: Replica)
    requires p.execute == 0 && Executable(p) && 1 !in p.log
    ensures Exec(p).replica == ExecuteOne(p)
  {
    assert !Executable(ExecuteOne(p));
    assert Exec(p) == Exec(ExecuteOne(p));
  }

  lemma Clean(reach: World -> bool, w: World, id: ID) returns (u: World)
    requires Closed(reach) && reach(w) && id in w.replicas && !w.replicas[id].halted
    ensures reach(u) && Goes(w, u, id, CleanupLog(w.replicas[id])) && AllStay(w, u)
  {
    var a := Cleanup(id);
    u := Step(w, a);
    Act(reach, w, a, Outcome(CleanupLog(w.replicas[id]), {}), u);
  }

  // ---- a whole election of three -----------------------------------------------------------------

  /** A replica that has led and accepted nothing. */
  predicate Unused(p: Replica) {
    && !p.halted && !p.active && p.ballot == 0 && p.log == map[] && p.slot == -1 && p.execute == 0
    && p.requests == [] && p.p3pendingSlots == [] && p.globalExecute == 0 && p.cfg == Three() && p.quorum == NO_ACKS
  }

  /** Replica id is asked for c, gets the promise of another that has nothing uncommitted, and proposes c in slot 0. */
  lemma Elect(reach: World -> bool, w: World, id: ID, other: ID, c: Command, b: Ballot) returns (u: World, m: Msg)
    requires Closed(reach) && reach(w) && id in w.replicas && other in w.replicas && id != other && id != 0
    requires Unused(w.replicas[id]) && w.replicas[id].id == id && Next(0, id) == b && BallotID(b) == id && b > 0
    requires var q := w.replicas[other];
             && q.id == other && !q.halted && q.ballot < b && (forall s :: s in q.log ==> q.log[s].commit)
    ensures var p, q := w.replicas[id], w.replicas[other];
            u.replicas == w.replicas[id := Leading(Asking(p, b, c), other, c)][other := Raise(q, b)]
    ensures reach(u) && u.cfg == w.cfg && w.h.votes <= u.h.votes && w.h.sent <= u.h.sent
    ensures m == P2a(b, 0, c, 0, b, []) && m in u.h.sent && P1a(b) in u.h.sent && Vote(id, b, 0) in u.h.votes
    ensures StaysGenuine(w, u) && u.h.adopted == w.h.adopted
    ensures !PastOf(w.replicas[other]).Has(0) ==> StaysComplete(w, u)
  {
    var p, q := w.replicas[id], w.replicas[other];
    ZeroBallot();
    TwoOfThree(id, other);
    ReportsNothing(Raise(q, b));
    var v := Ask(reach, w, id, c, b);
    var x, pr := Give(reach, v, other, b);
    u, m := Lead(reach, x, id, pr, c);
  }

  // ---- the end of a run --------------------------------------------------------------------------

  lemma ReachableIsClosed(cfg: Config)
    ensures Closed(w => Reaches(Init(cfg, false), w))
  {
    forall w, a | Reaches(Init(cfg, false), w) && Enabled(w, a) ensures Reaches(Init(cfg, false), Step(w, a)) {
      ReachesItself(Step(w, a));
      Then(w, a, Step(w, a));
      Joins(Init(cfg, false), w, Step(w, a));
    }
  }

  lemma SameFirst(w: World, i: ID, j: ID)
    requires ConfigOk(w.cfg) && Reachable(w) && SafeSlot(w.h, 0) && i in w.replicas && j in w.replicas
    requires w.replicas[i].execute == 1 == w.replicas[j].execute
    ensures Commands(w.replicas[i].executed) <= Commands(w.replicas[j].executed)
  {
    forall s | 0 <= s < w.replicas[i].execute ensures SafeSlot(w.h, s) {
      assert s == 0;
    }
    ExecutionsAgree(w, i, j);
  }

  /** By the agreement theorem, two replicas that executed different commands for slot 0 were not safe there. */
  lemma DivergedIsUnsafe(w: World, i: ID, j: ID, x: Executed, y: Executed)
    requires ConfigOk(w.cfg) && Reachable(w) && i in w.replicas && j in w.replicas && x.command != y.command
    requires w.replicas[i].execute == 1 && w.replicas[i].executed == [x]
    requires w.replicas[j].execute == 1 && w.replicas[j].executed == [y]
    ensures !SafeSlot(w.h, 0)
  {
    assert Commands([x])[0] == x.command && Commands([y])[0] == y.command;
    if SafeSlot(w.h, 0) { SameFirst(w, i, j); }
  }
}
