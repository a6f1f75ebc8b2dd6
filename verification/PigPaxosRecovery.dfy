// Recovery of a slot whose command a replica has missed: the replica asks for it, any replica that has settled the
// slot answers, and the answer lets it execute the command.  A slot whose messages were lost is proposed again.

module PigPaxosRecovery {
  import opened Ballots
  import opened Options
  import opened Quorums
  import opened Sequences
  import opened Store
  import opened PigPaxosLog
  import opened PigPaxosRuns
  import opened PigPaxosReplicaInvariant
  import opened PigPaxosInvariant
  import opened PigPaxosProgress
  import opened PigPaxosRound

  // ---- who asks ------------------------------------------------------------------------------------

  /** A committed slot whose command is not known. */
  predicate Placeholder(p: Replica, s: int) { s in p.log && p.log[s].commit && p.log[s].ballot == 0 }

  /** exec asks for the command of the slot it stops at, exactly at a placeholder more than ten slots behind. */
  lemma {:induction false} ExecAsksIff(p: Replica, m: Msg)
    ensures var o := Exec(p); var r := o.replica;
            m in o.sent <==>
            m == P3RecoverRequest(p.ballot, r.execute, p.id) && Placeholder(r, r.execute) && r.execute + 10 < p.slot
    decreases Pending(p)
  {
    if Executable(p) {
      assert p.execute in Pending(p) && p.execute !in Pending(ExecuteOne(p)) && Pending(ExecuteOne(p)) <= Pending(p);
      ExecAsksIff(ExecuteOne(p), m);
    }
  }

  /** The deliveries after which a replica always runs exec. */
  predicate RunsExec(a: Action) {
    || a.DeliverP3? || a.DeliverRecoverRequest? || a.DeliverRecoverReply?
    || (a.DeliverP2a? && a.msg.P2a? && a.msg.p3Slots != [])
  }

  /** Notices, recovery requests and replies make a replica that stands far behind at a placeholder ask for it. */
  lemma StoppedReplicaAsks(p: Replica, a: Action)
    requires RunsExec(a)
    ensures var o := Outcomes(p, a); var r := o.replica;
            Placeholder(r, r.execute) && r.execute + 10 < r.slot
            ==> P3RecoverRequest(r.ballot, r.execute, p.id) in o.sent
  {
    match a {
      case DeliverP2a(_, m) =>
        var q := if m.ballot >= p.ballot then Accept(p, m.ballot, m.slot, m.command, m.globalExecute) else p;
        NoticesAsk(q, m.p3Ballot, m.p3Slots);
      case DeliverP3(_, b, slots) => NoticesAsk(p, b, slots);
      case DeliverRecoverRequest(_, s) => ExecAsks(p);
      case DeliverRecoverReply(_, b, s, c) => ExecAsks(Recover(p, b, s, c));
    }
  }

  lemma ExecAsks(p: Replica)
    ensures var o := Exec(p); var r := o.replica;
            Placeholder(r, r.execute) && r.execute + 10 < r.slot
            ==> P3RecoverRequest(r.ballot, r.execute, p.id) in o.sent
  {
    ExecRunsAllSettled(p);
    ExecAsksIff(p, P3RecoverRequest(p.ballot, Exec(p).replica.execute, p.id));
  }

  lemma NoticesAsk(p: Replica, b: Ballot, slots: seq<int>)
    ensures var o := HandleP3(p, b, slots); var r := o.replica;
            Placeholder(r, r.execute) && r.execute + 10 < r.slot
            ==> P3RecoverRequest(r.ballot, r.execute, p.id) in o.sent
  {
    NoticesCommit(p, b, slots);
    ExecAsks(CommitNotices(p, b, slots).replica);
  }

  /** The client's command of this entry is not the one that was committed. */
  predicate Overtaken(p: Replica, b: Ballot, s: int) { s in p.log && p.log[s].ballot != b && p.log[s].request }

  /** A notice of another ballot for a slot this replica proposed for a client: it lets the client go and asks. */
  lemma {:induction false} OvertakenRequestAsks(p: Replica, b: Ballot, slots: seq<int>, s: int)
    requires Overtaken(p, b, s)
    ensures var o := CommitNotices(p, b, slots);
            && s in o.replica.log && o.replica.id == p.id
            && if s in slots then !o.replica.log[s].request && P3RecoverRequest(b, s, p.id) in o.sent
               else o.replica.log[s] == p.log[s]
    decreases |slots|
  {
    if slots != [] {
      OvertakenRequestAsks(p, b, slots[..|slots| - 1], s);
      NoticesCommit(p, b, slots[..|slots| - 1]);
    }
  }

  // ---- who answers ---------------------------------------------------------------------------------

  lemma AnswersWhatItSettled(q: Replica, s: int)
    requires Settled(q, s)
    ensures P3RecoverReply(q.log[s].ballot, s, q.log[s].command) in HandleRecoverRequest(q, s).sent
  {
  }

  /** Replica i stands at a placeholder whose command j knows. */
  ghost predicate Stuck(w: World, i: ID, j: ID, s: int) {
    && i in w.replicas && !w.replicas[i].halted && w.replicas[i].execute == s && Placeholder(w.replicas[i], s)
    && j in w.replicas && !w.replicas[j].halted && Settled(w.replicas[j], s)
  }

  /** The request reaches j. */
  lemma RequestIsAnswered(w: World, i: ID, j: ID, s: int, m: Msg)
    requires Stuck(w, i, j, s) && m in w.h.sent && m.P3RecoverRequest? && m.slot == s
    ensures var a := DeliverRecoverRequest(j, s); var u, e := Step(w, a), w.replicas[j].log[s];
            && Enabled(w, a) && P3RecoverReply(e.ballot, s, e.command) in u.h.sent
            && i in u.replicas && u.replicas[i] == w.replicas[i]
  {
    Moves(w, DeliverRecoverRequest(j, s));
    AnswersWhatItSettled(w.replicas[j], s);
  }

  /** The reply reaches i. */
  lemma ReplyIsExecuted(u: World, i: ID, s: int, b: Ballot, c: Command)
    requires i in u.replicas && P3RecoverReply(b, s, c) in u.h.sent && b != 0
    requires var p := u.replicas[i];
             !p.halted && p.execute == s == |p.executed| && Placeholder(p, s)
    ensures var a := DeliverRecoverReply(i, b, s, c); var v := Step(u, a);
            && Enabled(u, a) && i in v.replicas
            && s < v.replicas[i].execute && s < |v.replicas[i].executed|
            && v.replicas[i].executed[s] == Executed(s, b, c)
  {
    Moves(u, DeliverRecoverReply(i, b, s, c));
    RecoveryFills(u.replicas[i], b, s, c);
  }

  /**
   * A replica that stands far behind at a placeholder gets on: the next delivery that has it run exec makes it ask, and
   * whenever some other replica has settled the slot, the request and the reply lead to a world where the first has
   * executed the very command of the second.
   */
  lemma PlaceholderIsRecovered(w: World, a: Action, i: ID, j: ID, s: int) returns (v: World)
    requires ConfigOk(w.cfg) && Reachable(w) && Enabled(w, a) && a.id == i && RunsExec(a)
    requires Stuck(Step(w, a), i, j, s) && s + 10 < Step(w, a).replicas[i].slot
    ensures Reaches(w, v) && i in v.replicas && 0 <= s < |v.replicas[i].executed| && s < v.replicas[i].execute
    ensures var e := Step(w, a).replicas[j].log[s]; v.replicas[i].executed[s] == Executed(s, e.ballot, e.command)
  {
    var u := Step(w, a);
    var p, e := u.replicas[i], u.replicas[j].log[s];
    ExecuteCounts(w, a, i);
    Asks(w, a, i, s);
    RequestIsAnswered(u, i, j, s, P3RecoverRequest(p.ballot, s, w.replicas[i].id));
    var x := Step(u, DeliverRecoverRequest(j, s));
    ReplyIsExecuted(x, i, s, e.ballot, e.command);
    v := Step(x, DeliverRecoverReply(i, e.ballot, s, e.command));
    ReachesItself(v);
    Then(x, DeliverRecoverReply(i, e.ballot, s, e.command), v);
    Then(u, DeliverRecoverRequest(j, s), v);
    Then(w, a, v);
  }

  lemma Asks(w: World, a: Action, i: ID, s: int)
    requires i in w.replicas && a.id == i && RunsExec(a)
    requires var p := Step(w, a).replicas[i]; p.execute == s && Placeholder(p, s) && s + 10 < p.slot
    ensures P3RecoverRequest(Step(w, a).replicas[i].ballot, s, w.replicas[i].id) in Step(w, a).h.sent
  {
    Moves(w, a);
    StoppedReplicaAsks(w.replicas[i], a);
  }

  lemma ExecuteCounts(w: World, a: Action, i: ID)
    requires ConfigOk(w.cfg) && Reachable(w) && Enabled(w, a) && i in Step(w, a).replicas
    ensures var p := Step(w, a).replicas[i]; 0 <= p.execute == |p.executed|
  {
    ReachableInv(w);
    StepKeepsInv(w, a);
    RepOf(Step(w, a), i);
  }

  // ---- an active leader counts votes for all it has open ------------------------------------------------

  /** An active leader has a quorum, its own vote included, for whatever it has to get committed. */
  ghost predicate CountsAllOpen(p: Replica) {
    p.active ==> forall s :: s in p.log && s >= p.execute && !p.log[s].commit ==> CountsSelf(p.id, p.log[s].quorum)
  }

  predicate CountsSelf(id: ID, quorum: Option<Tally>) { quorum.Some? && id in quorum.value.acks }

  lemma {:induction false} ProposeAllCounts(p: Replica, cs: seq<Command>)
    requires CountsAllOpen(p)
    ensures CountsAllOpen(ProposeAll(p, cs).replica)
    decreases |cs|
  {
    if cs != [] { ProposeAllCounts(p, cs[..|cs| - 1]); }
  }

  lemma TakeOverCounts(p: Replica)
    requires forall s :: s in p.log ==> s <= p.slot
    ensures CountsAllOpen(TakeOver(p).replica)
  {
    ProposeAllCounts(Activate(p).replica, p.requests);
  }

  lemma ExecCounts(p: Replica)
    requires CountsAllOpen(p)
    ensures CountsAllOpen(Exec(p).replica)
  {
    ExecRunsAllSettled(p);
  }

  lemma {:induction false} CommitNoticesCount(p: Replica, b: Ballot, slots: seq<int>)
    requires CountsAllOpen(p)
    ensures CountsAllOpen(CommitNotices(p, b, slots).replica)
    decreases |slots|
  {
    if slots != [] { CommitNoticesCount(p, b, slots[..|slots| - 1]); }
  }

  lemma NoticesCount(p: Replica, b: Ballot, slots: seq<int>)
    requires CountsAllOpen(p)
    ensures CountsAllOpen(HandleP3(p, b, slots).replica)
  {
    CommitNoticesCount(p, b, slots);
    ExecCounts(CommitNotices(p, b, slots).replica);
  }

  lemma VotesCount(p: Replica, s: int, b: Ballot, ids: seq<ID>)
    requires CountsAllOpen(p)
    ensures CountsAllOpen(HandleP2b(p, s, b, ids).replica)
  {
    var q := if b > p.ballot then StepDown(p, b).replica else p;
    if s in q.log && q.log[s].quorum.Some? {
      AckAllAcks(q.log[s].quorum.value, ids);
      ExecCounts(Commit(CountVotes(q, s, ids), s));
    }
  }

  lemma ProposalCounts(p: Replica, b: Ballot, s: int, c: Command, ge: int, pb: Ballot, ps: seq<int>)
    requires CountsAllOpen(p)
    ensures CountsAllOpen(HandleP2a(p, b, s, c, ge, pb, ps).replica)
  {
    NoticesCount(if b >= p.ballot then Accept(p, b, s, c, ge) else p, pb, ps);
  }

  lemma PromiseCounts(p: Replica, b: Ballot, from: ID, log: map<int, CommandBallot>)
    requires CountsAllOpen(p) && forall s :: s in p.log ==> s <= p.slot
    ensures CountsAllOpen(HandleP1b(p, b, from, log).replica)
  {
    var merged := Update(p, log);
    TakeOverCounts(CountPromise(if b > p.ballot then Raise(merged, b) else merged, from));
  }

  lemma OutcomeCounts(p: Replica, a: Action)
    requires CountsAllOpen(p) && forall s :: s in p.log ==> s <= p.slot
    ensures CountsAllOpen(Outcomes(p, a).replica)
  {
    match a {
      case DeliverP1b(_, pr) => PromiseCounts(p, pr.ballot, pr.id, pr.log);
      case DeliverP2a(_, m) =>
        if m.P2a? { ProposalCounts(p, m.ballot, m.slot, m.command, m.globalExecute, m.p3Ballot, m.p3Slots); }
      case DeliverP2b(_, s, b, ids) => VotesCount(p, s, b, ids);
      case DeliverP3(_, b, slots) => NoticesCount(p, b, slots);
      case DeliverRecoverRequest(_, s) => ExecCounts(p);
      case DeliverRecoverReply(_, b, s, c) => ExecCounts(Recover(p, b, s, c));
      case _ =>
    }
  }

  ghost predicate AllCount(w: World) { forall id :: id in w.replicas ==> CountsAllOpen(w.replicas[id]) }

  lemma StepCounts(w: World, a: Action)
    requires Inv(w) && Enabled(w, a) && AllCount(w)
    ensures AllCount(Step(w, a))
  {
    var p := w.replicas[a.id];
    RepOf(w, a.id);
    LogEnds(w.h, p);
    OutcomeCounts(p, a);
    Moves(w, a);
  }

  lemma {:induction false} RunCounts(w: World, run: seq<Action>)
    requires Inv(w) && IsRun(w, run) && AllCount(w)
    ensures AllCount(After(w, run))
    decreases |run|
  {
    if run != [] {
      StepCounts(w, run[0]);
      StepKeepsInv(w, run[0]);
      RunCounts(Step(w, run[0]), run[1..]);
    }
  }

  lemma LogEnds(h: History, p: Replica)
    requires RepInv(h, p)
    ensures forall s :: s in p.log ==> s <= p.slot
  {
    forall s | s in p.log ensures s <= p.slot { assert EntryOk(h, p, s, p.log[s]); }
  }

  lemma ReachableCounts(w: World)
    requires ConfigOk(w.cfg) && Reachable(w)
    ensures AllCount(w)
  {
    var multiversion, run :| IsRun(Init(w.cfg, multiversion), run) && w == After(Init(w.cfg, multiversion), run);
    InitInv(w.cfg, multiversion);
    RunCounts(Init(w.cfg, multiversion), run);
  }

  lemma VotesDoNotKill(p: Replica, s: int, b: Ballot, ids: seq<ID>)
    requires CountsAllOpen(p) && p.active && !p.halted && s >= p.execute
    ensures !HandleP2b(p, s, b, ids).replica.halted
  {
    var q := if b > p.ballot then StepDown(p, b).replica else p;
    if s in q.log && q.log[s].quorum.Some? { ExecRunsAllSettled(Commit(CountVotes(q, s, ids), s)); }
  }

  /** The nil quorum that HandleP2b may meet is never that of an active leader's slot that is still to be executed. */
  lemma ActiveLeaderLives(w: World, l: ID, s: int, b: Ballot, ids: seq<ID>)
    requires ConfigOk(w.cfg) && Reachable(w) && l in w.replicas
    requires w.replicas[l].active && !w.replicas[l].halted && s >= w.replicas[l].execute
    ensures !HandleP2b(w.replicas[l], s, b, ids).replica.halted
  {
    ReachableCounts(w);
    assert CountsAllOpen(w.replicas[l]);
    VotesDoNotKill(w.replicas[l], s, b, ids);
  }

  // ---- what was lost is sent again -------------------------------------------------------------------

  /** An active leader that waits for votes in the slot it has to execute next. */
  ghost predicate Stalled(w: World, l: ID) {
    l in w.replicas &&
    var p := w.replicas[l]; p.active && !p.halted && p.execute in p.log && !p.log[p.execute].commit
  }

  /** What the timer sends for that slot. */
  function Resent(p: Replica): Round
    requires p.execute in p.log
  {
    var e := p.log[p.execute];
    Round(p.id, p.ballot, p.execute, e.command, P2a(p.ballot, p.execute, e.command, p.globalExecute, 0, []))
  }

  lemma StalledFacts(w: World, l: ID)
    requires Inv(w) && AllCount(w) && Stalled(w, l)
    ensures var p := w.replicas[l]; var r := Resent(p);
            && r.Ok() && p.id == l && p.cfg == w.cfg && HoldsOpen(p, r.b, r.s, r.c) && KnowsUpTo(p, r.s)
            && BallotID(p.ballot) == l && p.p3PendingBallot == p.ballot > 0
            && 0 <= p.execute == |p.executed| && p.execute <= p.slot
            && CountsSelf(l, p.log[p.execute].quorum) && p.log[p.execute].quorum.value.Counts()
  {
    assert CountsAllOpen(w.replicas[l]);
    ReplicaLegit(w, l);
    RepOf(w, l);
    var p := w.replicas[l];
    assert EntryOk(w.h, p, p.execute, p.log[p.execute]);
  }

  /** These votes, and those counted before, are a majority. */
  lemma CountedMajority(cfg: Config, t: Tally, l: ID, qs: seq<ID>)
    requires t.Counts() && l in t.acks && Distinct(qs) && l !in qs && 1 + |qs| > cfg.n() / 2
    ensures t.AckAll(qs).Majority(cfg)
  {
    AckAllCounts(t, qs);
    AckAllAcks(t, qs);
    FitsIn(qs, t.AckAll(qs).acks - {l});
  }

  /** The timer. */
  lemma SendsAgain(w: World, l: ID, qs: seq<ID>)
    requires Inv(w) && AllCount(w) && Stalled(w, l) && l !in qs && forall q :: q in qs ==> q in w.replicas
    requires forall q :: q in qs ==> WillVote(w.replicas[q], Resent(w.replicas[l]))
    ensures Enabled(w, TimeoutP2(l))
    ensures var u := Step(w, TimeoutP2(l));
            && Voting(u, Resent(w.replicas[l]), qs, 0) && u.replicas == w.replicas && u.cfg == w.cfg
  {
    StalledFacts(w, l);
    Moves(w, TimeoutP2(l));
    forall q | q in qs ensures w.replicas[q].id == q && CanVote(w.replicas[q], Resent(w.replicas[l])) {
      ReplicaLegit(w, q);
      RepOf(w, q);
    }
  }

  /**
   * A slot whose P2as were lost is executed all the same: the timer sends its P2a again, and when the leader and some
   * followers that will vote make up a majority, some run ends with all of them having executed its command.
   */
  lemma StalledSlotIsExecuted(w: World, l: ID, qs: seq<ID>) returns (v: World)
    requires ConfigOk(w.cfg) && Reachable(w) && Stalled(w, l)
    requires Distinct(qs) && l !in qs && 1 + |qs| > w.cfg.n() / 2 && forall q :: q in qs ==> q in w.replicas
    requires forall q :: q in qs ==> WillVote(w.replicas[q], Resent(w.replicas[l]))
    ensures Reaches(w, v)
    ensures forall q :: q == l || q in qs ==> q in v.replicas && HasRun(v.replicas[q], Resent(w.replicas[l]))
  {
    var p, r, a := w.replicas[l], Resent(w.replicas[l]), TimeoutP2(l);
    ReachableInv(w);
    ReachableCounts(w);
    StalledFacts(w, l);
    SendsAgain(w, l, qs);
    CountedMajority(w.cfg, p.log[p.execute].quorum.value, l, qs);
    var voted := AllVote(Step(w, a), r, qs, 0);
    var decided, slots := Decides(voted, r, qs);
    v := AllRun(decided, r, qs, 0, slots);
    Joins(voted, decided, v);
    Joins(Step(w, a), voted, v);
    Then(w, a, v);
  }
}
