// A command from its request to its execution, as a run: the leader proposes it, a majority votes, the
// leader commits and announces, and all of them execute it, each of them in the same slot.

module PigPaxosRound {
  import opened Ballots
  import opened Options
  import opened Quorums
  import opened Sequences
  import opened Store
  import opened PigPaxosLog
  import opened PigPaxosRuns
  import opened PigPaxosReplicaInvariant
  import opened PigPaxosInvariant
  import opened PigPaxosProgress

  /** What goes through the round: command c, proposed by leader in ballot b for slot s. */
  datatype Round = Round(leader: ID, b: Ballot, s: int, c: Command, m: Msg)
  {
    predicate Ok() { m.P2a? && m.ballot == b && m.slot == s && m.command == c && s !in m.p3Slots && b != 0 }

    function Vote(q: ID): Msg { P2b(b, s, [q]) }
  }

  // ---- where a follower stands ---------------------------------------------------------------------

  /** It will accept: it is not ahead, has not settled the slot, and knows all slots before. */
  ghost predicate WillVote(q: Replica, r: Round) { !q.halted && Takes(q, r.b, r.s, r.c) && KnowsUpTo(q, r.s) }

  ghost predicate CanVote(q: Replica, r: Round) { WillVote(q, r) && |q.executed| == q.execute }

  ghost predicate HasVoted(q: Replica, r: Round) {
    !q.halted && HoldsOpen(q, r.b, r.s, r.c) && KnowsUpTo(q, r.s) && |q.executed| == q.execute
  }

  /** It has executed the command as number s. */
  ghost predicate HasRun(q: Replica, r: Round) {
    0 <= r.s < |q.executed| && q.executed[r.s] == Executed(r.s, r.b, r.c)
  }

  lemma Votes(q: Replica, r: Round)
    requires CanVote(q, r) && r.Ok()
    ensures var o := Outcomes(q, DeliverP2a(q.id, r.m)); HasVoted(o.replica, r) && r.Vote(q.id) in o.sent
  {
    VoteIsGiven(q, r.b, r.s, r.c, r.m.globalExecute, r.m.p3Ballot, r.m.p3Slots);
  }

  lemma Runs(q: Replica, r: Round, slots: seq<int>)
    requires HasVoted(q, r) && r.b != 0 && r.s in slots && 0 <= r.s
    ensures HasRun(Outcomes(q, DeliverP3(q.id, r.b, slots)).replica, r)
  {
    NoticeCommits(q, r.b, slots, r.s);
  }

  // ---- the actions of a round --------------------------------------------------------------------------

  /** The first n of qs have voted, and the others can. */
  ghost predicate Voting(w: World, r: Round, qs: seq<ID>, n: nat) {
    && n <= |qs| && r.m in w.h.sent
    && forall i :: 0 <= i < |qs| ==>
         && qs[i] in w.replicas && w.replicas[qs[i]].id == qs[i]
         && if i < n then HasVoted(w.replicas[qs[i]], r) && r.Vote(qs[i]) in w.h.sent else CanVote(w.replicas[qs[i]], r)
  }

  lemma OneVotes(w: World, r: Round, qs: seq<ID>, n: nat)
    requires Voting(w, r, qs, n) && n < |qs| && Distinct(qs) && r.Ok()
    ensures var a := DeliverP2a(qs[n], r.m); Enabled(w, a) && Voting(Step(w, a), r, qs, n + 1)
  {
    var a := DeliverP2a(qs[n], r.m);
    Moves(w, a);
    Votes(w.replicas[qs[n]], r);
    assert Outcomes(w.replicas[qs[n]], a).replica.id == qs[n] by { KeepsId(w.replicas[qs[n]], r); }
  }

  lemma KeepsId(q: Replica, r: Round)
    requires CanVote(q, r) && r.Ok()
    ensures Outcomes(q, DeliverP2a(q.id, r.m)).replica.id == q.id
  {
    VoteIsGiven(q, r.b, r.s, r.c, r.m.globalExecute, r.m.p3Ballot, r.m.p3Slots);
  }

  /** The leader's proposal is delivered to one after another. */
  lemma {:induction false} AllVote(w: World, r: Round, qs: seq<ID>, n: nat) returns (v: World)
    requires Voting(w, r, qs, n) && Distinct(qs) && r.Ok() && r.leader !in qs && r.leader in w.replicas
    ensures Reaches(w, v) && Voting(v, r, qs, |qs|)
    ensures v.cfg == w.cfg && r.leader in v.replicas && v.replicas[r.leader] == w.replicas[r.leader]
    decreases |qs| - n
  {
    if n == |qs| {
      v := w;
      ReachesItself(w);
    } else {
      var a := DeliverP2a(qs[n], r.m);
      OneVotes(w, r, qs, n);
      Moves(w, a);
      v := AllVote(Step(w, a), r, qs, n + 1);
      Then(w, a, v);
    }
  }

  /** The first n of qs have executed the command, and the others hold it. */
  ghost predicate Running(w: World, r: Round, qs: seq<ID>, n: nat, slots: seq<int>) {
    && n <= |qs| && P3(r.b, slots) in w.h.sent
    && forall i :: 0 <= i < |qs| ==>
         && qs[i] in w.replicas
         && if i < n then HasRun(w.replicas[qs[i]], r)
            else w.replicas[qs[i]].id == qs[i] && HasVoted(w.replicas[qs[i]], r)
  }

  lemma OneRuns(w: World, r: Round, qs: seq<ID>, n: nat, slots: seq<int>)
    requires Running(w, r, qs, n, slots) && n < |qs| && Distinct(qs) && r.b != 0 && 0 <= r.s && r.s in slots
    ensures var a := DeliverP3(qs[n], r.b, slots); Enabled(w, a) && Running(Step(w, a), r, qs, n + 1, slots)
  {
    Moves(w, DeliverP3(qs[n], r.b, slots));
    Runs(w.replicas[qs[n]], r, slots);
  }

  lemma {:induction false} AllRun(w: World, r: Round, qs: seq<ID>, n: nat, slots: seq<int>) returns (v: World)
    requires Running(w, r, qs, n, slots) && Distinct(qs) && r.b != 0 && 0 <= r.s && r.s in slots
    requires r.leader !in qs && r.leader in w.replicas
    ensures Reaches(w, v) && Running(v, r, qs, |qs|, slots)
    ensures r.leader in v.replicas && v.replicas[r.leader] == w.replicas[r.leader]
    decreases |qs| - n
  {
    if n == |qs| {
      v := w;
      ReachesItself(w);
    } else {
      var a := DeliverP3(qs[n], r.b, slots);
      OneRuns(w, r, qs, n, slots);
      Moves(w, a);
      v := AllRun(Step(w, a), r, qs, n + 1, slots);
      Then(w, a, v);
    }
  }

  // ---- the round ---------------------------------------------------------------------------------------

  /** An active leader that knows all slots before the one it will use next. */
  ghost predicate CanLead(w: World, l: ID) {
    l in w.replicas && var p := w.replicas[l]; p.active && !p.halted && KnowsUpTo(p, p.slot + 1)
  }

  function RoundOf(p: Replica, c: Command): Round { Round(p.id, p.ballot, p.slot + 1, c, ProposeMsg(p, c)) }

  /** The next slot of an active leader is fresh, and not among those it is about to announce. */
  lemma LeaderFacts(w: World, l: ID, c: Command)
    requires Inv(w) && CanLead(w, l)
    ensures var p := w.replicas[l];
            && RoundOf(p, c).Ok() && p.id == l && p.cfg == w.cfg
            && BallotID(p.ballot) == l && p.p3PendingBallot == p.ballot > 0
            && 0 <= p.execute == |p.executed| && p.slot + 1 !in p.log
  {
    var p := w.replicas[l];
    ReplicaLegit(w, l);
    RepOf(w, l);
    forall t | t in p.p3pendingSlots ensures t != p.slot + 1 {
      assert PendingOk(w.h, p, t);
      assert t in p.log ==> EntryOk(w.h, p, t, p.log[t]);
    }
    assert p.slot + 1 in p.log ==> EntryOk(w.h, p, p.slot + 1, p.log[p.slot + 1]);
  }

  /** The leader and these others are a majority. */
  lemma TogetherMajority(cfg: Config, l: ID, qs: seq<ID>)
    requires Distinct(qs) && l !in qs && 1 + |qs| > cfg.n() / 2
    ensures NO_ACKS.Ack(l).AckAll(qs).Majority(cfg)
  {
    var t := NO_ACKS.Ack(l);
    AckSelf(l);
    AckAllCounts(t, qs);
    AckAllAcks(t, qs);
    FitsIn(qs, t.AckAll(qs).acks - {l});
  }

  /** The votes reach the leader, which commits, executes and has a notice to send. */
  lemma LeaderRuns(p: Replica, r: Round, qs: seq<ID>)
    requires HoldsOpen(p, r.b, r.s, r.c) && KnowsUpTo(p, r.s) && |p.executed| == p.execute && r.s >= 0
    requires p.log[r.s].quorum.Some? && p.log[r.s].quorum.value.AckAll(qs).Majority(p.cfg)
    requires 0 != p.ballot == r.b && BallotID(r.b) == p.id
    ensures var q := Outcomes(p, DeliverP2b(p.id, r.s, r.b, qs)).replica;
            HasRun(q, r) && r.s in q.p3pendingSlots && q.p3PendingBallot == p.p3PendingBallot && q.halted == p.halted
  {
    MajorityCommits(p, r.s, qs);
  }

  /** Request, votes, commit: the leader has executed the command and will announce it. */
  lemma Decides(w: World, r: Round, qs: seq<ID>) returns (v: World, slots: seq<int>)
    requires Voting(w, r, qs, |qs|) && r.Ok() && r.leader in w.replicas && r.leader !in qs
    requires var p := w.replicas[r.leader];
             && !p.halted && HoldsOpen(p, r.b, r.s, r.c) && KnowsUpTo(p, r.s) && |p.executed| == p.execute && r.s >= 0
             && p.log[r.s].quorum.Some? && p.log[r.s].quorum.value.AckAll(qs).Majority(p.cfg)
             && 0 < p.ballot == r.b == p.p3PendingBallot && BallotID(r.b) == p.id == r.leader
    ensures Reaches(w, v) && Running(v, r, qs, 0, slots) && r.s in slots
    ensures r.leader in v.replicas && HasRun(v.replicas[r.leader], r)
  {
    var a, b := DeliverP2b(r.leader, r.s, r.b, qs), TimeoutP3(r.leader);
    var u := Step(w, a);
    LeaderRuns(w.replicas[r.leader], r, qs);
    assert r.m in w.h.sent && r.m.ballot == r.b;
    Moves(w, a);
    slots := u.replicas[r.leader].p3pendingSlots;
    Announces(u, r.leader);
    Moves(u, b);
    v := Step(u, b);
    ReachesItself(v);
    Then(u, b, v);
    Then(w, a, v);
  }

  lemma Announces(u: World, l: ID)
    requires l in u.replicas && u.replicas[l].p3PendingBallot > 0
    ensures var p, o := u.replicas[l], Outcomes(u.replicas[l], TimeoutP3(l));
            o.sent == {P3(p.p3PendingBallot, p.p3pendingSlots)} && o.replica == p.(p3pendingSlots := [])
  {
  }

  /** The request itself. */
  lemma Asks(w: World, l: ID, c: Command, qs: seq<ID>)
    requires Inv(w) && CanLead(w, l) && l !in qs && forall q :: q in qs ==> q in w.replicas
    requires forall q :: q in qs ==> WillVote(w.replicas[q], RoundOf(w.replicas[l], c))
    ensures Enabled(w, Request(l, c))
    ensures var u, r := Step(w, Request(l, c)), RoundOf(w.replicas[l], c);
            && Voting(u, r, qs, 0) && u.replicas.Keys == w.replicas.Keys
            && u.replicas[l] == Propose(w.replicas[l], c).replica
  {
    LeaderFacts(w, l, c);
    Moves(w, Request(l, c));
    assert ProposeMsg(w.replicas[l], c) in Outcomes(w.replicas[l], Request(l, c)).sent;
    forall q | q in qs ensures w.replicas[q].id == q && CanVote(w.replicas[q], RoundOf(w.replicas[l], c)) {
      ReplicaLegit(w, q);
      RepOf(w, q);
    }
  }

  lemma HoldsItsOwn(p: Replica, c: Command)
    requires KnowsUpTo(p, p.slot + 1) && p.active
    ensures var q, r := Propose(p, c).replica, RoundOf(p, c);
            HoldsOpen(q, r.b, r.s, r.c) && KnowsUpTo(q, r.s) && q.log[r.s].quorum == Some(NO_ACKS.Ack(p.id))
  {
    StillKnows(p, Propose(p, c).replica, p.slot + 1);
  }

  /**
   * A request that reaches an active leader is executed: when the leader and some followers that will vote make up a
   * majority, some run ends with the leader and all these followers having executed this very command as their
   * command of the leader's next slot.
   */
  lemma CommandIsExecuted(w: World, l: ID, c: Command, qs: seq<ID>) returns (v: World)
    requires ConfigOk(w.cfg) && Reachable(w) && CanLead(w, l)
    requires Distinct(qs) && l !in qs && 1 + |qs| > w.cfg.n() / 2 && forall q :: q in qs ==> q in w.replicas
    requires forall q :: q in qs ==> WillVote(w.replicas[q], RoundOf(w.replicas[l], c))
    ensures Reaches(w, v)
    ensures forall q :: q == l || q in qs ==> q in v.replicas && HasRun(v.replicas[q], RoundOf(w.replicas[l], c))
  {
    var p, r, a := w.replicas[l], RoundOf(w.replicas[l], c), Request(l, c);
    ReachableInv(w);
    LeaderFacts(w, l, c);
    Asks(w, l, c, qs);
    HoldsItsOwn(p, c);
    TogetherMajority(w.cfg, l, qs);
    var voted := AllVote(Step(w, a), r, qs, 0);
    var decided, slots := Decides(voted, r, qs);
    v := AllRun(decided, r, qs, 0, slots);
    Joins(voted, decided, v);
    Joins(Step(w, a), voted, v);
    Then(w, a, v);
  }
}
