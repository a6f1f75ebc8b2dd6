// No decision is forgotten: from the moment a leader has seen a quorum, the slot is on its list of pending
// notices until a P3, alone or inside a P2a, has announced it, whoever leads by then.

module PigPaxosNotices {
  import opened Ballots
  import opened Store
  import opened PigPaxosLog
  import opened PigPaxosRuns
  import opened PigPaxosInvariant
  import opened PigPaxosProgress
  import opened PigPaxosSafety

  // ---- one handler ---------------------------------------------------------------------------------

  /** One of these messages announces s, in p's pending ballot or one that is not below p's own. */
  ghost predicate ToldBy(p: Replica, ms: set<Msg>, s: int) {
    exists m, b: Ballot :: m in ms && Announces(m, b, s) && (b == p.p3PendingBallot || b >= p.ballot)
  }

  /** What was pending at p is pending at q or among the messages. */
  ghost predicate HandsOver(p: Replica, o: Outcome) {
    forall s :: s in p.p3pendingSlots ==> s in o.replica.p3pendingSlots || ToldBy(p, o.sent, s)
  }

  lemma ExecHandsOver(p: Replica)
    ensures Exec(p).replica.p3pendingSlots == p.p3pendingSlots
  {
    ExecRunsAllSettled(p);
  }

  lemma NoticesHandOver(p: Replica, b: Ballot, slots: seq<int>)
    ensures HandleP3(p, b, slots).replica.p3pendingSlots == p.p3pendingSlots
  {
    NoticesCommit(p, b, slots);
    ExecHandsOver(CommitNotices(p, b, slots).replica);
  }

  lemma ProposeHandsOver(p: Replica, c: Command)
    ensures HandsOver(p, Propose(p, c))
  {
    var o := Propose(p, c);
    forall s | s in p.p3pendingSlots ensures s in o.replica.p3pendingSlots || ToldBy(p, o.sent, s) {
      if p.p3PendingBallot > 0 {
        assert ProposeMsg(p, c) in o.sent && Announces(ProposeMsg(p, c), p.p3PendingBallot, s);
      }
    }
  }

  lemma {:induction false} ProposeAllHandsOver(p: Replica, cs: seq<Command>)
    ensures HandsOver(p, ProposeAll(p, cs))
    decreases |cs|
  {
    if cs != [] {
      var n := |cs| - 1;
      var front, o := ProposeAll(p, cs[..n]), ProposeAll(p, cs);
      ProposeAllHandsOver(p, cs[..n]);
      ProposeAllInOrder(p, cs[..n]);
      ProposeHandsOver(front.replica, cs[n]);
      forall s | s in p.p3pendingSlots && s !in o.replica.p3pendingSlots ensures ToldBy(p, o.sent, s) {
        if s in front.replica.p3pendingSlots {
          var m, b: Ballot :| m in Propose(front.replica, cs[n]).sent && Announces(m, b, s)
                      && (b == front.replica.p3PendingBallot || b >= front.replica.ballot);
          assert m in o.sent && Announces(m, b, s);
        } else {
          var m, b: Ballot :| m in front.sent && Announces(m, b, s) && (b == p.p3PendingBallot || b >= p.ballot);
          assert m in o.sent && Announces(m, b, s);
        }
      }
    }
  }

  /** Taking over announces what was pending under the new ballot. */
  lemma TakeOverHandsOver(p: Replica)
    ensures HandsOver(p, TakeOver(p))
  {
    var a, o := Activate(p).replica, TakeOver(p);
    ProposeAllHandsOver(a, p.requests);
    forall s | s in p.p3pendingSlots && s !in o.replica.p3pendingSlots ensures ToldBy(p, o.sent, s) {
      var m, b: Ballot :| m in ProposeAll(a, p.requests).sent && Announces(m, b, s)
                  && (b == a.p3PendingBallot || b >= a.ballot);
      assert m in o.sent && Announces(m, b, s);
    }
  }

  lemma PromiseHandsOver(p: Replica, b: Ballot, from: ID, log: map<int, CommandBallot>)
    ensures HandsOver(p, HandleP1b(p, b, from, log))
  {
    var merged := Update(p, log);
    var q := if b > p.ballot then Raise(merged, b) else merged;
    var counted, o := CountPromise(q, from), HandleP1b(p, b, from, log);
    if !(b < p.ballot || p.active) && BallotID(b) == p.id && counted.quorum.Majority(p.cfg) {
      TakeOverHandsOver(counted);
      forall s | s in p.p3pendingSlots && s !in o.replica.p3pendingSlots ensures ToldBy(p, o.sent, s) {
        var m, c: Ballot :| m in o.sent && Announces(m, c, s) && (c == counted.p3PendingBallot || c >= counted.ballot);
        assert c == p.p3PendingBallot || c >= p.ballot;
      }
    }
  }

  /** A leader that is overtaken announces what is pending as it steps down. */
  lemma VotesHandOver(p: Replica, s: int, b: Ballot, ids: seq<ID>)
    ensures HandsOver(p, HandleP2b(p, s, b, ids))
  {
    var o := HandleP2b(p, s, b, ids);
    var q := if b > p.ballot then StepDown(p, b).replica else p;
    if s in q.log && q.log[s].quorum.Some? {
      ExecHandsOver(Commit(CountVotes(q, s, ids), s));
    }
    forall t | t in p.p3pendingSlots && t !in o.replica.p3pendingSlots ensures ToldBy(p, o.sent, t) {
      var m := P3(p.p3PendingBallot, p.p3pendingSlots);
      assert m in o.sent && Announces(m, p.p3PendingBallot, t);
    }
  }

  lemma FlushHandsOver(p: Replica)
    ensures HandsOver(p, FlushP3(p))
  {
    var o := FlushP3(p);
    forall t | t in p.p3pendingSlots && t !in o.replica.p3pendingSlots ensures ToldBy(p, o.sent, t) {
      var m := P3(p.p3PendingBallot, p.p3pendingSlots);
      assert m in o.sent && Announces(m, p.p3PendingBallot, t);
    }
  }

  /** No handler and no timer drops a pending notice. */
  lemma OutcomeHandsOver(p: Replica, a: Action)
    ensures HandsOver(p, Outcomes(p, a))
  {
    match a {
      case Request(_, c) => if p.active { ProposeHandsOver(p, c); }
      case TimeoutP3(_) => FlushHandsOver(p);
      case DeliverP1b(_, pr) => PromiseHandsOver(p, pr.ballot, pr.id, pr.log);
      case DeliverP2a(_, m) =>
        if m.P2a? {
          var q := if m.ballot >= p.ballot then Accept(p, m.ballot, m.slot, m.command, m.globalExecute) else p;
          NoticesHandOver(q, m.p3Ballot, m.p3Slots);
        }
      case DeliverP2b(_, s, b, ids) => VotesHandOver(p, s, b, ids);
      case DeliverP3(_, b, slots) => NoticesHandOver(p, b, slots);
      case DeliverRecoverRequest(_, s) => ExecHandsOver(p);
      case DeliverRecoverReply(_, b, s, c) => ExecHandsOver(Recover(p, b, s, c));
      case _ =>
    }
  }

  /** The votes that decide a slot put it on the list of pending notices. */
  lemma DecisionIsPending(p: Replica, s: int, b: Ballot, ids: seq<ID>)
    requires CountsVotes(p, s, b) && p.log[s].quorum.value.AckAll(ids).Majority(p.cfg)
    ensures s in HandleP2b(p, s, b, ids).replica.p3pendingSlots
  {
    var q := if b > p.ballot then StepDown(p, b).replica else p;
    var c := Commit(CountVotes(q, s, ids), s);
    ExecHandsOver(c);
    assert c.p3pendingSlots[|q.p3pendingSlots|] == s;
  }

  // ---- whole runs -------------------------------------------------------------------------------------

  /** The leader that decided d will announce its slot, or it has been announced in a ballot that is not older. */
  ghost predicate Remembered(w: World, d: Decision) {
    BallotID(d.ballot) in w.replicas &&
    (d.slot in w.replicas[BallotID(d.ballot)].p3pendingSlots ||
     exists b: Ballot :: Announced(w, b, d.slot) && (b == 0 || b >= d.ballot))
  }

  ghost predicate AllRemembered(w: World) { forall d :: d in w.h.decided ==> Remembered(w, d) }

  lemma AnnouncedOn(u: World, m: Msg, b: Ballot, s: int)
    requires m in u.h.sent && Announces(m, b, s)
    ensures Announced(u, b, s)
  {
  }

  /** The ballot of a decision is known to its leader, and so is that of the notices it has pending. */
  lemma LeaderIsPast(w: World, d: Decision, id: ID)
    requires Inv(w) && d in w.h.decided && id in w.replicas && BallotID(d.ballot) == id
    ensures var p := w.replicas[id];
            d.ballot <= p.ballot && (p.p3PendingBallot == 0 || d.ballot <= p.p3PendingBallot)
  {
    RepOf(w, id);
    ReplicaLegit(w, id);
    assert DecisionOk(w, d);
  }

  /** A notice that leaves the list of its leader has been announced. */
  lemma HandedOverIsAnnounced(w: World, d: Decision, p: Replica, o: Outcome, u: World)
    requires HandsOver(p, o) && d.slot in p.p3pendingSlots && d.slot !in o.replica.p3pendingSlots
    requires d.ballot <= p.ballot && (p.p3PendingBallot == 0 || d.ballot <= p.p3PendingBallot) && o.sent <= u.h.sent
    ensures exists b: Ballot :: Announced(u, b, d.slot) && (b == 0 || b >= d.ballot)
  {
    var m, b: Ballot :| m in o.sent && Announces(m, b, d.slot) && (b == p.p3PendingBallot || b >= p.ballot);
    AnnouncedOn(u, m, b, d.slot);
  }

  lemma OldIsRemembered(w: World, a: Action, d: Decision, u: World)
    requires Inv(w) && a.id in w.replicas && d in w.h.decided && Remembered(w, d)
    requires u.replicas == w.replicas[a.id := Outcomes(w.replicas[a.id], a).replica]
    requires w.h.sent <= u.h.sent && Outcomes(w.replicas[a.id], a).sent <= u.h.sent
    ensures Remembered(u, d)
  {
    var id := BallotID(d.ballot);
    var p := w.replicas[id];
    if d.slot in p.p3pendingSlots {
      if id == a.id && d.slot !in u.replicas[id].p3pendingSlots {
        OutcomeHandsOver(p, a);
        LeaderIsPast(w, d, id);
        HandedOverIsAnnounced(w, d, p, Outcomes(p, a), u);
      }
    } else {
      var b: Ballot :| Announced(w, b, d.slot) && (b == 0 || b >= d.ballot);
      var m :| m in w.h.sent && Announces(m, b, d.slot);
      AnnouncedOn(u, m, b, d.slot);
    }
  }

  lemma StepRemembers(w: World, a: Action, u: World)
    requires Inv(w) && Enabled(w, a) && AllRemembered(w) && u == Step(w, a)
    ensures AllRemembered(u)
  {
    StepAdds(w, a, u);
    forall d | d in u.h.decided ensures Remembered(u, d) {
      Moves(w, a);
      if d in w.h.decided {
        OldIsRemembered(w, a, d, u);
      } else {
        ReplicaLegit(w, a.id);
        DecisionIsPending(w.replicas[a.id], a.slot, a.ballot, a.ids);
      }
    }
  }

  lemma {:induction false} RunRemembers(w: World, run: seq<Action>)
    requires Inv(w) && IsRun(w, run) && AllRemembered(w)
    ensures AllRemembered(After(w, run))
    decreases |run|
  {
    if run != [] {
      StepRemembers(w, run[0], Step(w, run[0]));
      StepKeepsInv(w, run[0]);
      RunRemembers(Step(w, run[0]), run[1..]);
    }
  }

  /** In every reachable world each decision is pending at the leader that made it, or has been announced. */
  lemma NoDecisionIsForgotten(w: World, d: Decision)
    requires ConfigOk(w.cfg) && Reachable(w) && d in w.h.decided
    ensures BallotID(d.ballot) in w.replicas
    ensures d.slot in w.replicas[BallotID(d.ballot)].p3pendingSlots ||
            exists b: Ballot :: Announced(w, b, d.slot) && (b == 0 || b >= d.ballot)
  {
    var multiversion, run :| IsRun(Init(w.cfg, multiversion), run) && w == After(Init(w.cfg, multiversion), run);
    InitInv(w.cfg, multiversion);
    RunRemembers(Init(w.cfg, multiversion), run);
    assert Remembered(w, d);
  }
}
