// When the three conditions of the agreement theorems hold: what the handlers have to find for a promise
// to tell all, an answer to be a genuine vote and no placeholder to be filled.

module PigPaxosGuards {
  import opened Ballots
  import opened Options
  import opened Quorums
  import opened Store
  import opened PigPaxosLog
  import opened PigPaxosRuns
  import opened PigPaxosReplicaInvariant
  import opened PigPaxosInvariant
  import opened PigPaxosProgress
  import opened PigPaxosSafety

  // ---- one answer ---------------------------------------------------------------------------------

  /** A P2a of ballot b is not stale, and its slot not committed in another nonzero ballot. */
  predicate Welcome(p: Replica, b: Ballot, s: int) {
    b >= p.ballot && !(s in p.log && p.log[s].commit && p.log[s].ballot != 0 && p.log[s].ballot != b)
  }

  predicate Has(p: Replica, b: Ballot, s: int, c: Command) {
    s in p.log && p.log[s].ballot == b && p.log[s].command == c
  }

  lemma AcceptHasIff(h: History, p: Replica, b: Ballot, s: int, c: Command, ge: int)
    requires RepInv(h, p) && ProposalsOk(h) && b != 0 && Proposal(b, s, c) in h.proposed
    ensures b >= p.ballot ==> (Has(Accept(p, b, s, c, ge), b, s, c) <==> Welcome(p, b, s))
    ensures Holds(p, b, s, c) <==> Welcome(p, b, s)
  {
    if s in p.log { assert EntryOk(h, p, s, p.log[s]); }
  }

  lemma {:induction false} NoticesSend(p: Replica, b: Ballot, slots: seq<int>)
    ensures forall m :: m in CommitNotices(p, b, slots).sent ==> m.P3RecoverRequest?
    decreases |slots|
  {
    if slots != [] { NoticesSend(p, b, slots[..|slots| - 1]); }
  }

  lemma {:induction false} ExecSends(p: Replica)
    ensures forall m :: m in Exec(p).sent ==> m.P3RecoverRequest?
    decreases Pending(p)
  {
    if Executable(p) {
      assert p.execute in Pending(p) && p.execute !in Pending(ExecuteOne(p)) && Pending(ExecuteOne(p)) <= Pending(p);
      ExecSends(ExecuteOne(p));
    }
  }

  /** Handling notices changes no ballot and no command of an entry, and sends no vote. */
  lemma NoticesKeepEntries(p: Replica, b: Ballot, slots: seq<int>)
    ensures var o := HandleP3(p, b, slots);
            && (forall t, d, c :: t in p.log ==> (Has(o.replica, d, t, c) <==> Has(p, d, t, c)))
            && forall m :: m in o.sent ==> m.P3RecoverRequest?
  {
    var n := CommitNotices(p, b, slots).replica;
    NoticesCommit(p, b, slots);
    ExecRunsAllSettled(n);
    NoticesSend(p, b, slots);
    ExecSends(n);
  }

  /**
   * The answer to a P2a is a genuine vote - it names the ballot asked for, and the replica then holds the
   * command asked for in that ballot - exactly when the P2a is welcome, whatever notices it carries.
   */
  lemma AnswerGenuineIff(h: History, p: Replica, b: Ballot, s: int, c: Command, ge: int, pb: Ballot, ps: seq<int>)
    requires RepInv(h, p) && ProposalsOk(h) && b != 0 && Proposal(b, s, c) in h.proposed
    ensures var o := HandleP2a(p, b, s, c, ge, pb, ps);
            P2b(b, s, [p.id]) in o.sent && Has(o.replica, b, s, c) <==> Welcome(p, b, s)
  {
    AcceptHasIff(h, p, b, s, c, ge);
    NoticesKeepEntries(if b >= p.ballot then Accept(p, b, s, c, ge) else p, pb, ps);
  }

  // ---- the guards of a run -----------------------------------------------------------------------

  /**
   * What every delivery for a slot finds: Welcomed, a P2a is welcome; Open, a P1a reaches a replica that has neither
   * executed nor committed the slot; Unfilled, a P2a meets no committed placeholder.
   */
  datatype Guard = Welcomed | Open | Unfilled
  {
    predicate Passes(p: Replica, a: Action, s: int) {
      match this
      case Welcomed => a.DeliverP2a? && a.msg.P2a? && a.msg.slot == s ==> Welcome(p, a.msg.ballot, s)
      case Open => a.DeliverP1a? ==> !PastOf(p).Has(s)
      case Unfilled =>
        a.DeliverP2a? && a.msg.P2a? && a.msg.slot == s ==> !(s in p.log && p.log[s].commit && p.log[s].ballot == 0)
    }

    ghost predicate Guards(w: World, run: seq<Action>, s: int)
      requires IsRun(w, run)
      decreases |run|
    {
      run == [] || (Passes(w.replicas[run[0].id], run[0], s) && Guards(Step(w, run[0]), run[1..], s))
    }
  }

  // -- votes

  lemma {:induction false} ProposeAllSends(p: Replica, cs: seq<Command>)
    ensures forall m :: m in ProposeAll(p, cs).sent ==> m.P2a?
    decreases |cs|
  {
    if cs != [] { ProposeAllSends(p, cs[..|cs| - 1]); }
  }

  lemma PromiseSends(p: Replica, b: Ballot, from: ID, log: map<int, CommandBallot>)
    ensures forall m :: m in HandleP1b(p, b, from, log).sent ==> m.P2a?
  {
    var q := if b > p.ballot then Raise(Update(p, log), b) else Update(p, log);
    ProposeAllSends(Activate(CountPromise(q, from)).replica, CountPromise(q, from).requests);
  }

  lemma VotesSend(p: Replica, s: int, b: Ballot, ids: seq<ID>)
    ensures forall m :: m in HandleP2b(p, s, b, ids).sent ==> m.P3? || m.P3RecoverRequest?
  {
    var q := if b > p.ballot then StepDown(p, b).replica else p;
    if s in q.log && q.log[s].quorum.Some? {
      ExecSends(Commit(CountVotes(q, s, ids), s));
    }
  }

  /** Only a P2a is answered with a P2b. */
  lemma OnlyAnswers(p: Replica, a: Action, m: Msg)
    requires m in Outcomes(p, a).sent && m.P2b?
    ensures a.DeliverP2a? && a.msg.P2a?
    ensures m == P2b(if a.msg.ballot >= p.ballot then a.msg.ballot else p.ballot, a.msg.slot, [p.id])
  {
    match a {
      case DeliverP1b(_, pr) => PromiseSends(p, pr.ballot, pr.id, pr.log);
      case DeliverP2a(_, n) =>
        if n.P2a? {
          var q := if n.ballot >= p.ballot then Accept(p, n.ballot, n.slot, n.command, n.globalExecute) else p;
          NoticesKeepEntries(q, n.p3Ballot, n.p3Slots);
        }
      case DeliverP2b(_, s, b, ids) => VotesSend(p, s, b, ids);
      case DeliverP3(_, b, slots) => NoticesKeepEntries(p, b, slots);
      case DeliverRecoverRequest(_, s) => ExecSends(p);
      case DeliverRecoverReply(_, b, s, c) => ExecSends(Recover(p, b, s, c));
      case _ =>
    }
  }

  /** Every P2b of slot s stands for a vote. */
  ghost predicate AnswersAreVotes(h: History, s: int) {
    forall m, q :: m in h.sent && m.P2b? && m.slot == s && q in m.ids ==> Vote(q, m.ballot, s) in h.votes
  }

  lemma AnswerStands(w: World, a: Action, s: int, m: Msg)
    requires Inv(w) && Enabled(w, a) && Welcomed.Passes(w.replicas[a.id], a, s)
    requires m in Outcomes(w.replicas[a.id], a).sent && m.P2b? && m.slot == s
    ensures forall q :: q in m.ids ==> Vote(q, m.ballot, s) in Step(w, a).h.votes
  {
    var p := w.replicas[a.id];
    OnlyAnswers(p, a, m);
    P2aFacts(w, a.msg);
    RepOf(w, a.id);
    AcceptHasIff(w.h, p, a.msg.ballot, s, a.msg.command, 0);
    assert Vote(p.id, m.ballot, s) in Notes(w.h, p, a).votes;
  }

  /** The ids counted for a slot, the leader's own included, have voted. */
  lemma CountedHaveVoted(w: World, a: Action, id: ID)
    requires Inv(w) && Enabled(w, a) && a.DeliverP2b? && AnswersAreVotes(w.h, a.slot)
    requires CountsVotes(w.replicas[a.id], a.slot, a.ballot) && id in a.ids
    ensures Vote(id, a.ballot, a.slot) in w.h.votes
  {
    ReplicaLegit(w, a.id);
    RepOf(w, a.id);
    if id != a.id {
      var m := P2b(a.ballot, a.slot, [id]);
      assert m in w.h.sent && id in m.ids;
    }
  }

  lemma StepKeepsAnswers(w: World, a: Action, s: int, u: World)
    requires Inv(w) && Enabled(w, a) && Welcomed.Passes(w.replicas[a.id], a, s) && AnswersAreVotes(w.h, s)
    requires u == Step(w, a)
    ensures AnswersAreVotes(u.h, s)
  {
    StepAdds(w, a, u);
    forall m, q | m in u.h.sent && m.P2b? && m.slot == s && q in m.ids ensures Vote(q, m.ballot, s) in u.h.votes {
      if m !in w.h.sent { AnswerStands(w, a, s, m); }
    }
  }

  lemma StepKeepsGenuine(w: World, a: Action, s: int, u: World)
    requires Inv(w) && Enabled(w, a) && AnswersAreVotes(w.h, s) && VotesGenuine(w.h, s) && u == Step(w, a)
    ensures VotesGenuine(u.h, s)
  {
    StepAdds(w, a, u);
    forall k | k in u.h.acked && k.slot == s ensures Vote(k.id, k.ballot, s) in u.h.votes {
      if k !in w.h.acked { CountedHaveVoted(w, a, k.id); }
    }
  }

  lemma {:induction false} RunKeepsGenuine(w: World, run: seq<Action>, s: int)
    requires Inv(w) && IsRun(w, run) && Welcomed.Guards(w, run, s)
    requires AnswersAreVotes(w.h, s) && VotesGenuine(w.h, s)
    ensures VotesGenuine(After(w, run).h, s)
    decreases |run|
  {
    if run != [] {
      StepKeepsAnswers(w, run[0], s, Step(w, run[0]));
      StepKeepsGenuine(w, run[0], s, Step(w, run[0]));
      StepKeepsInv(w, run[0]);
      RunKeepsGenuine(Step(w, run[0]), run[1..], s);
    }
  }

  // -- promises and placeholders

  ghost predicate PromisesTell(h: History, s: int) {
    (forall pr :: pr in h.promises ==> !pr.Hides(s)) && Complete(h, s)
  }

  lemma StepKeepsTelling(w: World, a: Action, s: int, u: World)
    requires Enabled(w, a) && Open.Passes(w.replicas[a.id], a, s) && PromisesTell(w.h, s) && u == Step(w, a)
    ensures PromisesTell(u.h, s)
  {
    StepAdds(w, a, u);
  }

  lemma {:induction false} RunKeepsTelling(w: World, run: seq<Action>, s: int)
    requires IsRun(w, run) && Open.Guards(w, run, s) && PromisesTell(w.h, s)
    ensures PromisesTell(After(w, run).h, s)
    decreases |run|
  {
    if run != [] {
      StepKeepsTelling(w, run[0], s, Step(w, run[0]));
      RunKeepsTelling(Step(w, run[0]), run[1..], s);
    }
  }

  ghost predicate NothingAdopted(h: History, s: int) { forall k :: k in h.adopted ==> k.slot != s }

  lemma StepKeepsUnfilled(w: World, a: Action, s: int, u: World)
    requires Enabled(w, a) && Unfilled.Passes(w.replicas[a.id], a, s) && NothingAdopted(w.h, s) && u == Step(w, a)
    ensures NothingAdopted(u.h, s)
  {
    StepAdds(w, a, u);
  }

  lemma {:induction false} RunKeepsUnfilled(w: World, run: seq<Action>, s: int)
    requires IsRun(w, run) && Unfilled.Guards(w, run, s) && NothingAdopted(w.h, s)
    ensures NothingAdopted(After(w, run).h, s)
    decreases |run|
  {
    if run != [] {
      StepKeepsUnfilled(w, run[0], s, Step(w, run[0]));
      RunKeepsUnfilled(Step(w, run[0]), run[1..], s);
    }
  }

  // ---- guarded runs are safe ------------------------------------------------------------------------

  /** Each guard of a whole run gives one condition of the agreement theorems. */
  lemma GuardsGiveConditions(cfg: Config, multiversion: bool, run: seq<Action>, s: int)
    requires ConfigOk(cfg) && IsRun(Init(cfg, multiversion), run)
    ensures var w := Init(cfg, multiversion);
            && (Welcomed.Guards(w, run, s) ==> VotesGenuine(After(w, run).h, s))
            && (Open.Guards(w, run, s) ==> Complete(After(w, run).h, s))
            && (Unfilled.Guards(w, run, s) ==> AdoptionsGrounded(After(w, run).h, s))
  {
    var w := Init(cfg, multiversion);
    InitInv(cfg, multiversion);
    if Welcomed.Guards(w, run, s) { RunKeepsGenuine(w, run, s); }
    if Open.Guards(w, run, s) { RunKeepsTelling(w, run, s); }
    if Unfilled.Guards(w, run, s) { RunKeepsUnfilled(w, run, s); }
  }

  /** Replicas execute the same commands when every delivery for the slots they executed passes the guards. */
  lemma GuardedRunsAgree(cfg: Config, multiversion: bool, run: seq<Action>, i: ID, j: ID)
    requires ConfigOk(cfg) && IsRun(Init(cfg, multiversion), run)
    requires var w := After(Init(cfg, multiversion), run);
             && i in w.replicas && j in w.replicas && w.replicas[i].execute <= w.replicas[j].execute
             && forall g: Guard, s :: 0 <= s < w.replicas[i].execute ==> g.Guards(Init(cfg, multiversion), run, s)
    ensures var w := After(Init(cfg, multiversion), run);
            Commands(w.replicas[i].executed) <= Commands(w.replicas[j].executed)
  {
    var w := After(Init(cfg, multiversion), run);
    RunReaches(cfg, multiversion, run);
    RunKeepsConfig(Init(cfg, multiversion), run);
    forall s | 0 <= s < w.replicas[i].execute ensures SafeSlot(w.h, s) {
      GuardsGiveConditions(cfg, multiversion, run, s);
      assert Welcomed.Guards(Init(cfg, multiversion), run, s) && Open.Guards(Init(cfg, multiversion), run, s);
      assert Unfilled.Guards(Init(cfg, multiversion), run, s);
    }
    ExecutionsAgree(w, i, j);
  }
}
