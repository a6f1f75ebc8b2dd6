// Elections and the requests that wait for them: who gives way to whom, what becomes of a client's command, and how
// a replica that is asked for something comes to lead.

module PigPaxosElection {
  import opened Ballots
  import opened Quorums
  import opened Sequences
  import opened Store
  import opened PigPaxosLog
  import opened PigPaxosRuns
  import opened PigPaxosInvariant
  import opened PigPaxosProgress
  import opened PigPaxosRound

  // ---- higher ballots ------------------------------------------------------------------------------

  /** What is delivered shows the replica ballot b; a vote does so only at a slot that is open in b or below. */
  predicate Shows(p: Replica, a: Action, b: Ballot) {
    match a
    case DeliverP1a(_, c) => c == b
    case DeliverP1b(_, pr) => pr.ballot == b && !p.active
    case DeliverP2a(_, m) => m.P2a? && m.ballot == b
    case DeliverP2b(_, s, c, _) => c == b && s in p.log && !p.log[s].commit && c >= p.log[s].ballot
    case _ => false
  }

  lemma NoticesKeepRole(p: Replica, b: Ballot, slots: seq<int>)
    ensures var q := HandleP3(p, b, slots).replica; q.ballot == p.ballot && q.active == p.active
  {
    NoticesCommit(p, b, slots);
    ExecRunsAllSettled(CommitNotices(p, b, slots).replica);
  }

  lemma VotesKeepRole(p: Replica, s: int, b: Ballot, ids: seq<ID>)
    requires Shows(p, DeliverP2b(p.id, s, b, ids), b) && b > p.ballot
    ensures var q := HandleP2b(p, s, b, ids).replica; q.ballot == b && !q.active
  {
    var q := StepDown(p, b).replica;
    if q.log[s].quorum.Some? { ExecRunsAllSettled(Commit(CountVotes(q, s, ids), s)); }
  }

  lemma PromiseRaises(p: Replica, b: Ballot, from: ID, log: map<int, CommandBallot>)
    requires !p.active && b > p.ballot
    ensures var q := HandleP1b(p, b, from, log).replica;
            q.ballot == b && q.requests == [] && (BallotID(b) != p.id ==> !q.active)
  {
    var counted := CountPromise(Raise(Update(p, log), b), from);
    ProposeAllInOrder(Activate(counted).replica, counted.requests);
  }

  /**
   * A replica that sees a higher ballot takes it over, and leads no longer unless the ballot is its own; in phase 1 it
   * passes on the requests that wait.
   */
  lemma HigherBallotIsAdopted(p: Replica, a: Action, b: Ballot)
    requires Shows(p, a, b) && b > p.ballot
    ensures var q := Outcomes(p, a).replica;
            && q.ballot == b && (BallotID(b) != p.id ==> !q.active)
            && (a.DeliverP1a? || a.DeliverP1b? ==> q.requests == [])
  {
    match a {
      case DeliverP1a(_, _) =>
      case DeliverP1b(_, pr) => PromiseRaises(p, b, pr.id, pr.log);
      case DeliverP2a(_, m) => NoticesKeepRole(Accept(p, b, m.slot, m.command, m.globalExecute), m.p3Ballot, m.p3Slots);
      case DeliverP2b(_, s, _, ids) => VotesKeepRole(p, s, b, ids);
    }
  }

  /** A leader that is overtaken in phase 2 announces what is pending, and has nothing left to announce. */
  lemma OvertakenStepsDown(p: Replica, s: int, b: Ballot, ids: seq<ID>)
    requires s in p.log && !p.log[s].commit && p.log[s].ballot <= p.ballot < b
    ensures var o := HandleP2b(p, s, b, ids); var q := o.replica;
            && o.sent == {P3(p.p3PendingBallot, p.p3pendingSlots)} && q.p3PendingBallot == 0 && q.p3pendingSlots == []
            && q.ballot == b && !q.active && q.log == p.log && q.executed == p.executed && q.halted == p.halted
            && FlushP3(q) == Outcome(q, {})
  {
  }

  // ---- requests --------------------------------------------------------------------------------------

  /** One of these messages proposes command c in the replica's ballot, and the replica holds it in that slot. */
  ghost predicate Proposed(q: Replica, ms: set<Msg>, c: Command) {
    exists m :: m in ms && m.P2a? && m.ballot == q.ballot && m.command == c && HoldsOpen(q, q.ballot, m.slot, c)
  }

  /** The client's command is proposed by an active leader; otherwise it waits, and there is a candidate. */
  lemma RequestIsTaken(p: Replica, c: Command)
    requires p.ballot < U64 && p.id < U32 && (!p.active && BallotID(p.ballot) != p.id ==> N(p.ballot) + 1 < U32)
    ensures var o := HandleRequest(p, c); var q := o.replica;
            if p.active then q.active && Proposed(q, o.sent, c) && q.requests == p.requests
            else
              && q.requests == p.requests + [c] && BallotID(q.ballot) == p.id
              && (BallotID(p.ballot) != p.id ==>
                    q.ballot > p.ballot && q.quorum == NO_ACKS.Ack(p.id) && o.sent == {P1a(q.ballot)})
  {
    if p.active {
      var o := Propose(p, c);
      assert ProposeMsg(p, c) in o.sent && HoldsOpen(o.replica, p.ballot, p.slot + 1, c);
    } else if BallotID(p.ballot) != p.id {
      NextExceeds(p.ballot, p.id);
    }
  }

  /** Every request waiting at p waits at o, or is proposed; or they were all passed on to the owner of a new ballot. */
  ghost predicate RequestsKept(p: Replica, o: Outcome) {
    || p.requests <= o.replica.requests
    || (o.replica.requests == [] && o.replica.ballot > p.ballot)
    || (o.replica.active && forall c :: c in p.requests ==> Proposed(o.replica, o.sent, c))
  }

  lemma PromiseKeepsRequests(p: Replica, b: Ballot, from: ID, log: map<int, CommandBallot>)
    ensures RequestsKept(p, HandleP1b(p, b, from, log))
  {
    var o := HandleP1b(p, b, from, log);
    var merged := Update(p, log);
    if !(b < p.ballot || p.active) && BallotID(b) == p.id {
      var q := if b > p.ballot then Raise(merged, b) else merged;
      ProposeAllInOrder(Activate(CountPromise(q, from)).replica, q.requests);
      if b == p.ballot && p.quorum.Ack(from).Majority(p.cfg) {
        QuorumElects(p, from, log);
        QuorumProposes(p, from, log);
        forall c | c in p.requests ensures Proposed(o.replica, o.sent, c) {
          var i :| 0 <= i < |p.requests| && p.requests[i] == c;
          var m :| m in o.sent && m.P2a? && m.ballot == p.ballot && HoldsOpen(o.replica, p.ballot, m.slot, c)
                   && m.command == c;
        }
      }
    }
  }

  lemma NoticesKeepRequests(p: Replica, b: Ballot, slots: seq<int>)
    ensures HandleP3(p, b, slots).replica.requests == p.requests
  {
    NoticesCommit(p, b, slots);
    ExecRunsAllSettled(CommitNotices(p, b, slots).replica);
  }

  lemma VotesKeepRequests(p: Replica, s: int, b: Ballot, ids: seq<ID>)
    ensures HandleP2b(p, s, b, ids).replica.requests == p.requests
  {
    var q := if b > p.ballot then StepDown(p, b).replica else p;
    if s in q.log && q.log[s].quorum.Some? { ExecRunsAllSettled(Commit(CountVotes(q, s, ids), s)); }
  }

  lemma ProposalKeepsRequests(p: Replica, b: Ballot, s: int, c: Command, ge: int, pb: Ballot, ps: seq<int>)
    ensures HandleP2a(p, b, s, c, ge, pb, ps).replica.requests == p.requests
  {
    NoticesKeepRequests(if b >= p.ballot then Accept(p, b, s, c, ge) else p, pb, ps);
  }

  /** No handler and no timer loses a request. */
  lemma RequestsAreKept(p: Replica, a: Action)
    ensures RequestsKept(p, Outcomes(p, a))
  {
    match a {
      case DeliverP1b(_, pr) => PromiseKeepsRequests(p, pr.ballot, pr.id, pr.log);
      case DeliverP2a(_, m) =>
        if m.P2a? { ProposalKeepsRequests(p, m.ballot, m.slot, m.command, m.globalExecute, m.p3Ballot, m.p3Slots); }
      case DeliverP2b(_, s, b, ids) => VotesKeepRequests(p, s, b, ids);
      case DeliverP3(_, b, slots) => NoticesKeepRequests(p, b, slots);
      case DeliverRecoverRequest(_, s) => ExecRunsAllSettled(p);
      case DeliverRecoverReply(_, b, s, c) => ExecRunsAllSettled(Recover(p, b, s, c));
      case _ =>
    }
  }

  // ---- an election, as a run ---------------------------------------------------------------------------

  /** Replica l asks for promises in ballot b, with these requests waiting. */
  datatype Campaign = Campaign(l: ID, b: Ballot, requests: seq<Command>)

  /** The first n of qs have been counted, and none of qs is ahead. */
  ghost predicate Running(w: World, c: Campaign, qs: seq<ID>, n: nat) {
    && n <= |qs| && c.l in w.replicas && P1a(c.b) in w.h.sent
    && (var p := w.replicas[c.l];
        && !p.active && !p.halted && p.id == c.l && p.cfg == w.cfg && p.ballot == c.b && BallotID(c.b) == c.l
        && p.requests == c.requests && p.quorum == NO_ACKS.Ack(c.l).AckAll(qs[..n]))
    && forall i :: 0 <= i < |qs| ==>
         && qs[i] in w.replicas && w.replicas[qs[i]].id == qs[i]
         && !w.replicas[qs[i]].halted && w.replicas[qs[i]].ballot <= c.b
  }

  /** Replica l leads in b, and each command that was waiting is proposed and held. */
  ghost predicate Leads(w: World, c: Campaign) {
    && c.l in w.replicas
    && var p := w.replicas[c.l];
       p.active && p.ballot == c.b && !p.halted && forall x :: x in c.requests ==> Proposed(p, w.h.sent, x)
  }

  /** The promise of q, once it has heard of ballot b. */
  function PromiseIn(q: Replica, b: Ballot): Promise { PromiseOf(if b > q.ballot then Raise(q, b) else q) }

  lemma OnePromises(w: World, c: Campaign, qs: seq<ID>, n: nat)
    requires Running(w, c, qs, n) && n < |qs| && c.l !in qs && Distinct(qs)
    ensures var a := DeliverP1a(qs[n], c.b); var u := Step(w, a);
            && Enabled(w, a) && Running(u, c, qs, n) && u.cfg == w.cfg
            && Given(u.h, PromiseIn(w.replicas[qs[n]], c.b))
            && PromiseIn(w.replicas[qs[n]], c.b).ballot == c.b && PromiseIn(w.replicas[qs[n]], c.b).id == qs[n]
  {
    Moves(w, DeliverP1a(qs[n], c.b));
  }

  /** What counting one more promise makes of the candidate. */
  lemma CountsOne(p: Replica, pr: Promise)
    requires !p.active && BallotID(p.ballot) == p.id && pr.ballot == p.ballot
    ensures var o := Outcomes(p, DeliverP1b(p.id, pr)); var q := o.replica;
            && q.id == p.id && q.ballot == p.ballot && q.halted == p.halted
            && if p.quorum.Ack(pr.id).Majority(p.cfg)
               then q.active && forall c :: c in p.requests ==> Proposed(q, o.sent, c)
               else !q.active && q.cfg == p.cfg && q.requests == p.requests && q.quorum == p.quorum.Ack(pr.id)
  {
    if p.quorum.Ack(pr.id).Majority(p.cfg) {
      QuorumElects(p, pr.id, pr.log);
      QuorumProposes(p, pr.id, pr.log);
      var o := Outcomes(p, DeliverP1b(p.id, pr));
      forall c | c in p.requests ensures Proposed(o.replica, o.sent, c) {
        var i :| 0 <= i < |p.requests| && p.requests[i] == c;
        var m :| m in o.sent && m.P2a? && m.ballot == p.ballot && HoldsOpen(o.replica, p.ballot, m.slot, c)
                 && m.command == c;
      }
    }
  }

  lemma OneIsCounted(u: World, c: Campaign, qs: seq<ID>, n: nat, pr: Promise)
    requires Running(u, c, qs, n) && n < |qs| && c.l !in qs
    requires Given(u.h, pr) && pr.ballot == c.b && pr.id == qs[n]
    ensures var a := DeliverP1b(c.l, pr); var v := Step(u, a);
            && Enabled(u, a) && v.cfg == u.cfg
            && if NO_ACKS.Ack(c.l).AckAll(qs[..n + 1]).Majority(u.cfg) then Leads(v, c) else Running(v, c, qs, n + 1)
  {
    var a, p := DeliverP1b(c.l, pr), u.replicas[c.l];
    Moves(u, a);
    CountsOne(p, pr);
    assert qs[..n + 1][..n] == qs[..n];
    var v, o := Step(u, a), Outcomes(p, a);
    if p.quorum.Ack(pr.id).Majority(p.cfg) {
      forall x | x in c.requests ensures Proposed(o.replica, v.h.sent, x) {
        assert Proposed(o.replica, o.sent, x);
      }
    }
  }

  /** One after another they promise and are counted, until they are a majority. */
  lemma {:induction false} Elects(w: World, c: Campaign, qs: seq<ID>, n: nat) returns (v: World)
    requires Running(w, c, qs, n) && n < |qs| && c.l !in qs && Distinct(qs) && 1 + |qs| > w.cfg.n() / 2
    ensures Reaches(w, v) && Leads(v, c)
    decreases |qs| - n
  {
    var a, pr := DeliverP1a(qs[n], c.b), PromiseIn(w.replicas[qs[n]], c.b);
    var u := Step(w, a);
    OnePromises(w, c, qs, n);
    OneIsCounted(u, c, qs, n, pr);
    var x := Step(u, DeliverP1b(c.l, pr));
    TogetherMajority(w.cfg, c.l, qs);
    assert qs[..|qs|] == qs;
    if NO_ACKS.Ack(c.l).AckAll(qs[..n + 1]).Majority(u.cfg) {
      v := x;
      ReachesItself(v);
    } else {
      v := Elects(x, c, qs, n + 1);
    }
    Then(u, DeliverP1b(c.l, pr), v);
    Then(w, a, v);
  }

  ghost predicate WillPromise(w: World, qs: seq<ID>, b: Ballot) {
    forall q :: q in qs ==> q in w.replicas && !w.replicas[q].halted && w.replicas[q].ballot <= b
  }

  lemma StartsCampaign(w: World, a: Action, c: Campaign, qs: seq<ID>)
    requires Inv(w) && Enabled(w, a) && a.id == c.l && c.l !in qs && WillPromise(w, qs, c.b)
    requires var o := Outcomes(w.replicas[c.l], a); var q := o.replica;
             && P1a(c.b) in o.sent && !q.active && !q.halted && q.id == c.l && q.cfg == w.cfg && q.ballot == c.b
             && BallotID(c.b) == c.l && q.requests == c.requests && q.quorum == NO_ACKS.Ack(c.l)
    ensures Running(Step(w, a), c, qs, 0) && Step(w, a).cfg == w.cfg
  {
    Moves(w, a);
    forall q | q in qs ensures w.replicas[q].id == q { ReplicaLegit(w, q); }
    assert qs[..0] == [];
  }

  /**
   * A request that reaches a replica which neither leads nor stands for election makes it leader: when it and some
   * others that are not ahead make up a majority, some run ends with it active in its next ballot, having proposed
   * this request and all that were waiting.
   */
  lemma RequestElects(w: World, l: ID, x: Command, qs: seq<ID>) returns (v: World)
    requires ConfigOk(w.cfg) && Reachable(w) && Enabled(w, Request(l, x))
    requires !w.replicas[l].active && BallotID(w.replicas[l].ballot) != l
    requires Distinct(qs) && l !in qs && qs != [] && 1 + |qs| > w.cfg.n() / 2
    requires WillPromise(w, qs, Next(w.replicas[l].ballot, l))
    ensures var p := w.replicas[l];
            Reaches(w, v) && Leads(v, Campaign(l, Next(p.ballot, l), p.requests + [x]))
  {
    var p, a := w.replicas[l], Request(l, x);
    var c := Campaign(l, Next(p.ballot, l), p.requests + [x]);
    ReachableInv(w);
    ReplicaLegit(w, l);
    RequestIsTaken(p, x);
    StartsCampaign(w, a, c, qs);
    v := Elects(Step(w, a), c, qs, 0);
    Then(w, a, v);
  }

  /** A candidate whose messages were lost asks again, in the same ballot. */
  lemma RetryElects(w: World, l: ID, qs: seq<ID>) returns (v: World)
    requires ConfigOk(w.cfg) && Reachable(w) && Enabled(w, TimeoutP1(l)) && !w.replicas[l].active
    requires Distinct(qs) && l !in qs && qs != [] && 1 + |qs| > w.cfg.n() / 2
    requires WillPromise(w, qs, w.replicas[l].ballot)
    ensures var p := w.replicas[l]; Reaches(w, v) && Leads(v, Campaign(l, p.ballot, p.requests))
  {
    var p, a := w.replicas[l], TimeoutP1(l);
    var c := Campaign(l, p.ballot, p.requests);
    ReachableInv(w);
    ReplicaLegit(w, l);
    StartsCampaign(w, a, c, qs);
    v := Elects(Step(w, a), c, qs, 0);
    Then(w, a, v);
  }
}
