// What every run of a PigPaxos cluster keeps: provenance of log entries, agreement between
// ballots, soundness of commit notices, the highest-ballot rule of phase 1, and replicas that
// execute the same commands in the same order.

module PigPaxosSafety {
  import opened Ballots
  import opened Quorums
  import opened Store
  import opened Options
  import opened PigPaxosLog
  import opened PigPaxosRuns
  import opened PigPaxosReplicaInvariant
  import opened PigPaxosInvariant
  import Sets

  // ---- provenance -------------------------------------------------------------------------

  /** A P2a with this ballot, slot and command was sent. */
  ghost predicate Proposed(w: World, b: Ballot, s: int, c: Command) {
    exists m :: m in w.h.sent && m.P2a? && m.ballot == b && m.slot == s && m.command == c
  }

  ghost predicate Sourced(h: History) {
    forall x :: x in h.proposed ==>
      exists m :: m in h.sent && m.P2a? && m.ballot == x.ballot && m.slot == x.slot && m.command == x.command
  }

  lemma StepKeepsSourced(w: World, a: Action)
    requires Sourced(w.h) && a.id in w.replicas
    ensures Sourced(Step(w, a).h)
  {
    var p := w.replicas[a.id];
    var g := Notes(w.h, p, a);
    var ms := Outcomes(p, a).sent;
    var h := Step(w, a).h;
    assert g.sent == w.h.sent && g.proposed == w.h.proposed;
    forall x | x in h.proposed
      ensures exists m :: m in h.sent && m.P2a? && m.ballot == x.ballot && m.slot == x.slot && m.command == x.command
    {
      if x in Proposals(ms) {
        var m :| m in ms && m.P2a? && x == Proposal(m.ballot, m.slot, m.command);
        assert m in h.sent;
      } else {
        var m :| m in w.h.sent && m.P2a? && m.ballot == x.ballot && m.slot == x.slot && m.command == x.command;
        assert m in h.sent;
      }
    }
  }

  lemma {:induction false} RunKeepsSourced(w: World, actions: seq<Action>)
    requires Sourced(w.h) && IsRun(w, actions)
    ensures Sourced(After(w, actions).h)
    decreases |actions|
  {
    if actions != [] {
      StepKeepsSourced(w, actions[0]);
      RunKeepsSourced(Step(w, actions[0]), actions[1..]);
    }
  }

  lemma ReachableSourced(w: World)
    requires Reachable(w)
    ensures Sourced(w.h)
  {
    var multiversion, actions :|
      IsRun(Init(w.cfg, multiversion), actions) && w == After(Init(w.cfg, multiversion), actions);
    RunKeepsSourced(Init(w.cfg, multiversion), actions);
  }

  /** All P2a messages of one ballot and slot carry one command. */
  lemma OneCommandPerBallotAndSlot(w: World, m: Msg, n: Msg)
    requires ConfigOk(w.cfg) && Reachable(w)
    requires m in w.h.sent && n in w.h.sent && m.P2a? && n.P2a? && m.ballot == n.ballot && m.slot == n.slot
    ensures m.command == n.command
  {
    ReachableInv(w);
    assert MsgOk(w, m) && MsgOk(w, n);
  }

  /** Entries of logs, promises and recovery replies were proposed; only placeholders have ballot 0. */
  lemma EntriesWereProposed(w: World)
    requires ConfigOk(w.cfg) && Reachable(w)
    ensures forall id, s :: id in w.replicas && s in w.replicas[id].log && w.replicas[id].log[s].ballot != 0 ==>
              Proposed(w, w.replicas[id].log[s].ballot, s, w.replicas[id].log[s].command)
    ensures forall id, s :: id in w.replicas && s in w.replicas[id].log && !w.replicas[id].log[s].commit ==>
              0 != w.replicas[id].log[s].ballot <= w.replicas[id].ballot
    ensures forall m, s :: m in w.h.sent && m.P1b? && s in m.log ==> Proposed(w, m.log[s].ballot, s, m.log[s].command)
    ensures forall m :: m in w.h.sent && m.P3RecoverReply? && m.ballot != 0 ==> Proposed(w, m.ballot, m.slot, m.command)
  {
    ReachableInv(w);
    ReachableSourced(w);
    forall id, s | id in w.replicas && s in w.replicas[id].log
      ensures w.replicas[id].log[s].ballot != 0 ==>
                Proposed(w, w.replicas[id].log[s].ballot, s, w.replicas[id].log[s].command)
      ensures !w.replicas[id].log[s].commit ==> 0 != w.replicas[id].log[s].ballot <= w.replicas[id].ballot
    {
      RepOf(w, id);
      assert EntryOk(w.h, w.replicas[id], s, w.replicas[id].log[s]);
    }
    forall m | m in w.h.sent
      ensures m.P1b? ==> forall s :: s in m.log ==> Proposed(w, m.log[s].ballot, s, m.log[s].command)
      ensures m.P3RecoverReply? && m.ballot != 0 ==> Proposed(w, m.ballot, m.slot, m.command)
    {
      assert MsgOk(w, m);
    }
  }

  // -- ballots never go back

  lemma {:induction false} ExecKeepsBallot(p: Replica)
    ensures Exec(p).replica.ballot == p.ballot
    decreases Pending(p)
  {
    if Executable(p) {
      assert p.execute in Pending(p) && p.execute !in Pending(ExecuteOne(p)) && Pending(ExecuteOne(p)) <= Pending(p);
      ExecKeepsBallot(ExecuteOne(p));
    }
  }

  lemma {:induction false} ProposeAllKeepsBallot(p: Replica, cs: seq<Command>)
    ensures ProposeAll(p, cs).replica.ballot == p.ballot
    decreases |cs|
  {
    if cs != [] { ProposeAllKeepsBallot(p, cs[..|cs| - 1]); }
  }

  lemma HandleP3KeepsBallot(p: Replica, b: Ballot, slots: seq<int>)
    ensures HandleP3(p, b, slots).replica.ballot == p.ballot
  {
    CommitNoticesBallot(p, b, slots);
    ExecKeepsBallot(CommitNotices(p, b, slots).replica);
  }

  lemma P1bBallot(p: Replica, b: Ballot, from: ID, log: map<int, CommandBallot>)
    ensures p.ballot <= HandleP1b(p, b, from, log).replica.ballot
  {
    var q := if b > p.ballot then Raise(Update(p, log), b) else Update(p, log);
    ProposeAllKeepsBallot(Activate(CountPromise(q, from)).replica, CountPromise(q, from).requests);
  }

  lemma P2aBallot(p: Replica, b: Ballot, s: int, c: Command, ge: int, pb: Ballot, ps: seq<int>)
    ensures p.ballot <= HandleP2a(p, b, s, c, ge, pb, ps).replica.ballot
  {
    HandleP3KeepsBallot(if b >= p.ballot then Accept(p, b, s, c, ge) else p, pb, ps);
  }

  lemma P2bBallot(p: Replica, s: int, b: Ballot, ids: seq<ID>)
    ensures p.ballot <= HandleP2b(p, s, b, ids).replica.ballot
  {
    var q := if b > p.ballot then StepDown(p, b).replica else p;
    if s in q.log && q.log[s].quorum.Some? {
      ExecKeepsBallot(Commit(CountVotes(q, s, ids), s));
    }
  }

  lemma RequestBallot(p: Replica, c: Command)
    requires p.ballot < U64 && p.id < U32
    requires !p.active && BallotID(p.ballot) != p.id ==> N(p.ballot) + 1 < U32
    ensures p.ballot <= HandleRequest(p, c).replica.ballot
  {
    if !p.active && BallotID(p.ballot) != p.id {
      NextExceeds(p.ballot, p.id);
    }
  }

  lemma OutcomeBallot(p: Replica, a: Action)
    requires p.ballot < U64 && p.id < U32
    requires a.Request? && !p.active && BallotID(p.ballot) != p.id ==> N(p.ballot) + 1 < U32
    ensures p.ballot <= Outcomes(p, a).replica.ballot
  {
    match a {
      case Request(_, c) => RequestBallot(p, c);
      case DeliverP1b(_, pr) => P1bBallot(p, pr.ballot, pr.id, pr.log);
      case DeliverP2a(_, m) =>
        if m.P2a? { P2aBallot(p, m.ballot, m.slot, m.command, m.globalExecute, m.p3Ballot, m.p3Slots); }
      case DeliverP2b(_, s, b, ids) => P2bBallot(p, s, b, ids);
      case DeliverP3(_, b, slots) => HandleP3KeepsBallot(p, b, slots);
      case DeliverRecoverRequest(_, s) => ExecKeepsBallot(p);
      case DeliverRecoverReply(_, b, s, c) => ExecKeepsBallot(Recover(p, b, s, c));
      case _ =>
    }
  }

  lemma MayStart(w: World, a: Action)
    requires Enabled(w, a) && a.Request?
    ensures var p := w.replicas[a.id]; !p.active && BallotID(p.ballot) != p.id ==> N(p.ballot) + 1 < U32
  {
  }

  lemma BallotsNeverDecrease(w: World, a: Action, id: ID)
    requires ConfigOk(w.cfg) && Reachable(w) && Enabled(w, a) && id in w.replicas
    ensures id in Step(w, a).replicas && w.replicas[id].ballot <= Step(w, a).replicas[id].ballot
  {
    ReachableInv(w);
    ReplicaLegit(w, a.id);
    if a.Request? { MayStart(w, a); }
    OutcomeBallot(w.replicas[a.id], a);
    Moves(w, a);
  }

  // ---- agreement --------------------------------------------------------------------------

  predicate MajorityOf(cfg: Config, m: set<ID>) { m <= cfg.nodes && |m| > cfg.n() / 2 }

  ghost predicate AllVoted(h: History, m: set<ID>, b: Ballot, s: int) {
    forall a :: a in m ==> Vote(a, b, s) in h.votes
  }

  /** A majority held the proposal of ballot b in slot s. */
  ghost predicate Chosen(w: World, b: Ballot, s: int) {
    exists m :: MajorityOf(w.cfg, m) && AllVoted(w.h, m, b, s)
  }

  lemma {:induction false} LaterProposalsAgree(w: World, b: Ballot, s: int, x: Proposal)
    requires Inv(w) && Complete(w.h, s) && Chosen(w, b, s)
    requires x in w.h.proposed && x.slot == s && b <= x.ballot
    ensures Proposal(b, s, x.command) in w.h.proposed
    decreases x.ballot
  {
    if b < x.ballot {
      var k := SafePoint(w, x);
      var m :| MajorityOf(w.cfg, m) && AllVoted(w.h, m, b, s);
      assert ElectionOk(w, x.ballot, w.h.elected[x.ballot]);
      Sets.Overlap(w.cfg.nodes, m, w.h.elected[x.ballot]);
      var q := Sets.Some(m * w.h.elected[x.ballot]);
      assert Vote(q, b, s) in w.h.votes;
      assert b <= k;
      assert b != 0;
      LaterProposalsAgree(w, b, s, Proposal(k, s, x.command));
    }
  }

  lemma SafePoint(w: World, x: Proposal) returns (k: Ballot)
    requires Inv(w) && Complete(w.h, x.slot) && x in w.h.proposed
    ensures x.ballot in w.h.elected && SafeAbove(w.h, x, k)
  {
    k :| SafeAbove(w.h, x, k);
  }

  /**
   * Agreement: when a majority has accepted in ballot b, every P2a of the same slot in a higher
   * ballot carries the command proposed in b, unless some leader counted a promise that was
   * blind for the slot.
   */
  lemma Agreement(w: World, b: Ballot, s: int, c: Command, m: Msg)
    requires ConfigOk(w.cfg) && Reachable(w) && Complete(w.h, s)
    requires Chosen(w, b, s) && Proposed(w, b, s, c)
    requires m in w.h.sent && m.P2a? && m.slot == s && m.ballot >= b
    ensures m.command == c
  {
    ReachableInv(w);
    assert MsgOk(w, m);
    LaterProposalsAgree(w, b, s, Proposal(m.ballot, s, m.command));
    var n :| n in w.h.sent && n.P2a? && n.ballot == b && n.slot == s && n.command == c;
    assert MsgOk(w, n);
  }

  /** A promise leaves out an uncommitted or held slot exactly when it was executed or committed. */
  lemma PromiseReportsIff(h: History, p: Replica, v: Vote)
    requires RepInv(h, p) && v in h.votes && v.id == p.id
    ensures v.slot in PromiseOf(p).log <==> !PromiseOf(p).Hides(v.slot)
    ensures v.slot in PromiseOf(p).log ==> PromiseOf(p).log[v.slot].ballot >= v.ballot
  {
    assert Covered(p, v.slot, v.ballot);
  }

  // ---- commit notices ---------------------------------------------------------------------

  /**
   * P3 soundness: a follower that holds the announced ballot in an announced slot holds a command
   * for which the leader counted a majority in that very ballot.
   */
  lemma NoticesAreDecisions(w: World, id: ID, b: Ballot, s: int)
    requires ConfigOk(w.cfg) && Reachable(w) && id in w.replicas && Announced(w, b, s)
    requires s in w.replicas[id].log && w.replicas[id].log[s].ballot == b != 0
    ensures exists d :: d in w.h.decided && d.ballot == b && d.slot == s && d.command == w.replicas[id].log[s].command
                        && MajorityOf(w.cfg, d.acks)
  {
    ReachableInv(w);
    var p := w.replicas[id];
    RepOf(w, id);
    AnnouncedIsNoted(w, b, s);
    NoticeBacks(w, p, b, s);
    var d :| d in w.h.decided && d.ballot == b && d.slot == s;
    assert DecisionOk(w, d);
    assert EntryOk(w.h, p, s, p.log[s]);
  }

  /** A P3 with this ballot and slot was sent, alone or inside a P2a. */
  ghost predicate Announced(w: World, b: Ballot, s: int) { exists m :: m in w.h.sent && Announces(m, b, s) }

  predicate Announces(m: Msg, b: Ballot, s: int) {
    (m.P3? && m.ballot == b && s in m.slots) || (m.P2a? && m.p3Ballot == b && s in m.p3Slots)
  }

  lemma AnnouncedIsNoted(w: World, b: Ballot, s: int)
    requires SentOk(w) && Announced(w, b, s)
    ensures Notice(b, s) in w.h.announced
  {
    var m :| m in w.h.sent && Announces(m, b, s);
    assert MsgOk(w, m);
  }

  // ---- the highest-ballot rule --------------------------------------------------------------

  /** The leader that is about to count promise pr, with the promise merged. */
  lemma MergedLeader(w: World, id: ID, pr: Promise)
    requires Inv(w) && Enabled(w, DeliverP1b(id, pr)) && Counts(w.replicas[id], pr)
    ensures var p := w.replicas[id]; var q := Update(p, pr.log);
            && p.id == id && p.cfg == w.cfg && pr.ballot == p.ballot && RepInv(w.h, p) && RepInv(w.h, q)
            && (forall t :: t in pr.log ==> Covered(q, t, pr.log[t].ballot))
            && forall t, b :: Covered(p, t, b) ==> Covered(q, t, b)
  {
    var p := w.replicas[id];
    ReplicaLegit(w, id);
    PromiseLegit(w, pr);
    if pr.ballot > p.ballot { ForeignBallot(w, id, pr.ballot); }
    RepOf(w, id);
    PromiseFits(w, pr, p);
    UpdateKeeps(w.h, p, pr.log);
  }

  /** No promise this leader has counted reports more for slot s than its merged log q holds. */
  lemma CountedCovered(h: History, p: Replica, q: Replica, s: int, c: Counted)
    requires RepInv(h, p) && (forall t, b :: Covered(p, t, b) ==> Covered(q, t, b)) && Reproposed(q, s)
    requires c in h.counted && c.leader == p.id && s in c.promise.log
    ensures c.promise.log[s].ballot <= q.log[s].ballot
  {
    assert Merged(p, c.promise);
    assert Covered(q, s, c.promise.log[s].ballot);
  }

  /**
   * When Q1 fires, every slot proposed again carries a command proposed in a ballot k at least as
   * high as any ballot reported for it by any promise this leader ever counted, and by its own log.
   */
  lemma HighestBallotRule(w: World, id: ID, pr: Promise, s: int)
    requires ConfigOk(w.cfg) && Reachable(w) && Enabled(w, DeliverP1b(id, pr)) && Counts(w.replicas[id], pr)
    requires w.replicas[id].quorum.Ack(pr.id).Majority(w.cfg) && Reproposed(Update(w.replicas[id], pr.log), s)
    ensures var p := w.replicas[id]; var u := Step(w, DeliverP1b(id, pr)); var e := Update(p, pr.log).log[s];
            && P2a(p.ballot, s, e.command, p.globalExecute, 0, []) in u.h.sent
            && Proposed(w, e.ballot, s, e.command)
            && (s in p.log ==> p.log[s].ballot <= e.ballot)
            && forall c :: c in u.h.counted && c.leader == id && s in c.promise.log ==>
               c.promise.log[s].ballot <= e.ballot
  {
    ReachableInv(w);
    ReachableSourced(w);
    var p := w.replicas[id];
    var q := Update(p, pr.log);
    MergedLeader(w, id, pr);
    assert EntryOk(w.h, q, s, q.log[s]);
    ReproposalsGoOut(w, id, pr, s);
    var u := Step(w, DeliverP1b(id, pr));
    forall c | c in u.h.counted && c.leader == id && s in c.promise.log
      ensures c.promise.log[s].ballot <= q.log[s].ballot
    {
      CountedBefore(w, id, pr, c);
      if c in w.h.counted { CountedCovered(w.h, p, q, s, c); }
    }
  }

  lemma CountedBefore(w: World, id: ID, pr: Promise, c: Counted)
    requires id in w.replicas && w.replicas[id].id == id && c in Step(w, DeliverP1b(id, pr)).h.counted
    ensures c in w.h.counted || (c.leader == id && c.promise == pr)
  {
  }

  lemma ReproposalsGoOut(w: World, id: ID, pr: Promise, s: int)
    requires id in w.replicas && w.replicas[id].id == id && Counts(w.replicas[id], pr)
    requires pr.ballot == w.replicas[id].ballot
    requires w.replicas[id].cfg == w.cfg && w.replicas[id].quorum.Ack(pr.id).Majority(w.cfg)
    requires Reproposed(Update(w.replicas[id], pr.log), s)
    ensures var p := w.replicas[id];
            P2a(p.ballot, s, Update(p, pr.log).log[s].command, p.globalExecute, 0, []) in
              Step(w, DeliverP1b(id, pr)).h.sent
  {
    var p := w.replicas[id];
    var counted := CountPromise(Update(p, pr.log), pr.id);
    assert P2a(p.ballot, s, counted.log[s].command, p.globalExecute, 0, []) in Activate(counted).sent;
    P1bShape(w, id, pr);
  }

  // ---- replicas execute the same commands -------------------------------------------------------

  lemma DecidedChosen(w: World, d: Decision)
    requires Inv(w) && d in w.h.decided && VotesGenuine(w.h, d.slot)
    ensures Chosen(w, d.ballot, d.slot) && Proposal(d.ballot, d.slot, d.command) in w.h.proposed
  {
    assert DecisionOk(w, d);
    forall a | a in d.acks ensures Vote(a, d.ballot, d.slot) in w.h.votes {
      assert Acked(d.ballot, d.slot, a) in w.h.acked ==> Vote(a, d.ballot, d.slot) in w.h.votes;
    }
    assert MajorityOf(w.cfg, d.acks) && AllVoted(w.h, d.acks, d.ballot, d.slot);
  }

  /** Two backed commands for one slot are the same command. */
  lemma BackedAgree(w: World, s: int, b1: Ballot, c1: Command, b2: Ballot, c2: Command)
    requires Inv(w) && SafeSlot(w.h, s)
    requires Backed(w.h, b1, s) && Proposal(b1, s, c1) in w.h.proposed
    requires Backed(w.h, b2, s) && Proposal(b2, s, c2) in w.h.proposed
    ensures c1 == c2
  {
    var d1 :| d1 in w.h.decided && d1.slot == s && d1.ballot <= b1;
    var d2 :| d2 in w.h.decided && d2.slot == s && d2.ballot <= b2;
    var d := if d1.ballot <= d2.ballot then d1 else d2;
    DecidedChosen(w, d);
    LaterProposalsAgree(w, d.ballot, s, Proposal(b1, s, c1));
    LaterProposalsAgree(w, d.ballot, s, Proposal(b2, s, c2));
  }

  /** Committed entries of one slot carry one command at all replicas. */
  lemma CommittedAgree(w: World, i: ID, j: ID, s: int)
    requires ConfigOk(w.cfg) && Reachable(w) && SafeSlot(w.h, s) && i in w.replicas && j in w.replicas
    requires s in w.replicas[i].log && w.replicas[i].log[s].commit && w.replicas[i].log[s].ballot != 0
    requires s in w.replicas[j].log && w.replicas[j].log[s].commit && w.replicas[j].log[s].ballot != 0
    ensures w.replicas[i].log[s].command == w.replicas[j].log[s].command
  {
    ReachableInv(w);
    var e, f := w.replicas[i].log[s], w.replicas[j].log[s];
    RepOf(w, i);
    RepOf(w, j);
    assert EntryOk(w.h, w.replicas[i], s, e) && EntryOk(w.h, w.replicas[j], s, f);
    BackedAgree(w, s, e.ballot, e.command, f.ballot, f.command);
  }

  /** A replica has run slots 0, 1, 2, ... once each, never a placeholder, and its store is their fold. */
  lemma ExecutedInOrder(w: World, id: ID)
    requires ConfigOk(w.cfg) && Reachable(w) && id in w.replicas
    ensures var p := w.replicas[id];
            && |p.executed| == p.execute
            && (forall k :: 0 <= k < p.execute ==>
                  p.executed[k].slot == k && p.executed[k].ballot != 0 &&
                    Proposed(w, p.executed[k].ballot, k, p.executed[k].command))
            && p.db == EmptyTable(p.db.multiversion).ExecuteAll(Commands(p.executed))
  {
    ReachableInv(w);
    ReachableSourced(w);
    RepOf(w, id);
    assert TraceOk(w.h, w.replicas[id]) && StoreOk(w.replicas[id]);
  }

  /** Of two replicas, one has executed a prefix of what the other has; equal counts give equal stores. */
  lemma ExecutionsAgree(w: World, i: ID, j: ID)
    requires ConfigOk(w.cfg) && Reachable(w) && i in w.replicas && j in w.replicas
    requires w.replicas[i].execute <= w.replicas[j].execute
    requires forall s :: 0 <= s < w.replicas[i].execute ==> SafeSlot(w.h, s)
    ensures Commands(w.replicas[i].executed) <= Commands(w.replicas[j].executed)
    ensures w.replicas[i].execute == w.replicas[j].execute &&
            w.replicas[i].db.multiversion == w.replicas[j].db.multiversion
            ==> w.replicas[i].db == w.replicas[j].db
  {
    ReachableInv(w);
    var p, q := w.replicas[i], w.replicas[j];
    RepOf(w, i);
    RepOf(w, j);
    assert TraceOk(w.h, p) && TraceOk(w.h, q) && StoreOk(p) && StoreOk(q);
    var xs, ys := Commands(p.executed), Commands(q.executed);
    forall k | 0 <= k < |xs| ensures xs[k] == ys[k] {
      BackedAgree(w, k, p.executed[k].ballot, p.executed[k].command, q.executed[k].ballot, q.executed[k].command);
    }
    assert xs == ys[..|xs|];
    if p.execute == q.execute { assert xs == ys; }
  }

  /** CleanupLog drops executed slots only. */
  lemma CleanupDropsExecuted(p: Replica, s: int)
    requires s in p.log && s !in CleanupLog(p).log
    ensures s < p.execute
  {
  }
}
