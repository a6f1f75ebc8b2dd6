// What the handlers achieve when nothing stands in the way: elections propose what is pending, a
// majority of votes commits, notices and recovery replies commit, and exec runs exactly what it may.

module PigPaxosProgress {
  import opened Ballots
  import opened Options
  import opened Quorums
  import opened Store
  import opened PigPaxosLog

  // ---- exec ------------------------------------------------------------------------------------

  /** Slot s may be executed as soon as its turn comes. */
  predicate Settled(p: Replica, s: int) { s in p.log && p.log[s].commit && p.log[s].ballot != 0 }

  function RunOf(p: Replica, s: int): Executed
    requires s in p.log
  {
    Executed(s, p.log[s].ballot, p.log[s].command)
  }

  /** r ran slot s in its turn after p. */
  predicate RanAt(p: Replica, r: Replica, s: int) {
    var i := |p.executed| + s - p.execute;
    s in p.log && 0 <= i < |r.executed| && r.executed[i] == RunOf(p, s)
  }

  /** r has run exactly the slots from p.execute up to the first that is not settled, in order. */
  ghost predicate RanAllSettled(p: Replica, r: Replica) {
    && p.execute <= r.execute && !Settled(p, r.execute)
    && (forall s :: p.execute <= s < r.execute ==> Settled(p, s) && RanAt(p, r, s))
    && |r.executed| == |p.executed| + (r.execute - p.execute) && p.executed <= r.executed
    && r.db == p.db.ExecuteAll(Commands(r.executed[|p.executed|..]))
  }

  /** exec changes nothing else but the requests it answers. */
  ghost predicate OnlyAnswered(p: Replica, r: Replica) {
    && r.log.Keys == p.log.Keys
    && (forall s :: s in p.log ==> r.log[s] == p.log[s] || (s < r.execute && r.log[s] == p.log[s].(request := false)))
    && r == p.(log := r.log, execute := r.execute, executed := r.executed, db := r.db)
  }

  lemma ExecuteAllFront(t: Table, c: Command, cs: seq<Command>)
    ensures t.Execute(c).ExecuteAll(cs) == t.ExecuteAll([c] + cs)
  {
    assert [c][..0] == [];
    assert t.ExecuteAll([c]) == t.ExecuteAll([]).Execute(c);
    ExecuteAllConcat(t, [c], cs);
  }

  lemma RanSlots(p: Replica, r: Replica, s: int)
    requires Executable(p) && RanAllSettled(ExecuteOne(p), r) && p.execute <= s < r.execute
    ensures Settled(p, s) && RanAt(p, r, s)
  {
    var q := ExecuteOne(p);
    if s == p.execute {
      assert r.executed[|p.executed|] == q.executed[|p.executed|];
    } else {
      assert Settled(q, s) && RanAt(q, r, s);
    }
  }

  lemma RanCommands(p: Replica, r: Replica)
    requires Executable(p) && RanAllSettled(ExecuteOne(p), r)
    ensures p.executed <= r.executed && r.db == p.db.ExecuteAll(Commands(r.executed[|p.executed|..]))
  {
    var q, n := ExecuteOne(p), |p.executed|;
    assert r.executed[n] == q.executed[n];
    var rest := r.executed[n + 1..];
    assert r.executed[n..] == [r.executed[n]] + rest;
    assert Commands(r.executed[n..]) == [p.log[p.execute].command] + Commands(rest);
    ExecuteAllFront(p.db, p.log[p.execute].command, Commands(rest));
  }

  lemma RanOneMore(p: Replica, r: Replica)
    requires Executable(p) && RanAllSettled(ExecuteOne(p), r) && OnlyAnswered(ExecuteOne(p), r)
    ensures RanAllSettled(p, r) && OnlyAnswered(p, r)
  {
    RanCommands(p, r);
    forall s | p.execute <= s < r.execute ensures Settled(p, s) && RanAt(p, r, s) {
      RanSlots(p, r, s);
    }
  }

  lemma {:induction false} ExecRunsAllSettled(p: Replica)
    ensures RanAllSettled(p, Exec(p).replica) && OnlyAnswered(p, Exec(p).replica)
    decreases Pending(p)
  {
    if Executable(p) {
      assert p.execute in Pending(p) && p.execute !in Pending(ExecuteOne(p)) && Pending(ExecuteOne(p)) <= Pending(p);
      ExecRunsAllSettled(ExecuteOne(p));
      RanOneMore(p, Exec(p).replica);
    } else {
      assert p.executed[|p.executed|..] == [];
    }
  }

  // ---- phase 1 -----------------------------------------------------------------------------------

  /** Pending commands take the next slots in order, each acknowledged by the leader alone. */
  ghost predicate ProposedInOrder(p: Replica, cs: seq<Command>, q: Replica) {
    && q.slot == p.slot + |cs|
    && (forall s :: p.slot < s <= q.slot ==>
          s in q.log && q.log[s] == Entry(p.ballot, cs[s - p.slot - 1], false, Some(NO_ACKS.Ack(p.id)), true))
    && (forall s :: s in p.log && s <= p.slot ==> s in q.log && q.log[s] == p.log[s])
    && q == p.(slot := q.slot, log := q.log, p3pendingSlots := q.p3pendingSlots)
  }

  /** The P2a of command c in slot s. */
  predicate Proposes(p: Replica, m: Msg, s: int, c: Command) {
    m.P2a? && m.ballot == p.ballot && m.slot == s && m.command == c && m.globalExecute == p.globalExecute
  }

  lemma {:induction false} ProposeAllInOrder(p: Replica, cs: seq<Command>)
    ensures ProposedInOrder(p, cs, ProposeAll(p, cs).replica)
    ensures forall i :: 0 <= i < |cs| ==>
              exists m :: m in ProposeAll(p, cs).sent && Proposes(p, m, p.slot + 1 + i, cs[i])
    decreases |cs|
  {
    if cs != [] {
      var n := |cs| - 1;
      ProposeAllInOrder(p, cs[..n]);
      var front := ProposeAll(p, cs[..n]);
      assert ProposeMsg(front.replica, cs[n]) in ProposeAll(p, cs).sent;
      assert Proposes(p, ProposeMsg(front.replica, cs[n]), p.slot + |cs|, cs[n]);
      forall i | 0 <= i < |cs|
        ensures exists m :: m in ProposeAll(p, cs).sent && Proposes(p, m, p.slot + 1 + i, cs[i])
      {
        if i < n {
          var m :| m in front.sent && Proposes(p, m, p.slot + 1 + i, cs[..n][i]);
          assert m in ProposeAll(p, cs).sent;
        }
      }
    }
  }

  /** q holds the proposal of c in ballot b, uncommitted. */
  predicate HoldsOpen(q: Replica, b: Ballot, s: int, c: Command) {
    s in q.log && q.log[s].command == c && q.log[s].ballot == b && !q.log[s].commit
  }

  /** The promise that completes the quorum makes the candidate a leader that has proposed all it was asked for. */
  lemma QuorumElects(p: Replica, from: ID, log: map<int, CommandBallot>)
    requires !p.active && BallotID(p.ballot) == p.id && p.quorum.Ack(from).Majority(p.cfg)
    ensures var q := HandleP1b(p, p.ballot, from, log).replica; var merged := Update(p, log);
            && q.active && q.p3PendingBallot == p.ballot == q.ballot && q.requests == []
            && q.slot == merged.slot + |p.requests|
            && (forall s :: merged.slot < s <= q.slot ==>
                  s in q.log && q.log[s].command == p.requests[s - merged.slot - 1])
            && (forall s :: Reproposed(merged, s) ==>
                  s in q.log && q.log[s].command == merged.log[s].command && q.log[s].ballot == p.ballot)
    ensures HandleP1b(p, p.ballot, from, log).replica.halted == p.halted
  {
    var counted := CountPromise(Update(p, log), from);
    ProposeAllInOrder(Activate(counted).replica, counted.requests);
  }

  /** Each of these commands is proposed to the others and held by the new leader. */
  lemma QuorumProposes(p: Replica, from: ID, log: map<int, CommandBallot>)
    requires !p.active && BallotID(p.ballot) == p.id && p.quorum.Ack(from).Majority(p.cfg)
    ensures var o := HandleP1b(p, p.ballot, from, log);
            && o.replica.id == p.id
            && forall i :: 0 <= i < |p.requests| ==>
                 exists m :: m in o.sent && m.P2a? && m.ballot == p.ballot && m.command == p.requests[i]
                             && HoldsOpen(o.replica, p.ballot, m.slot, p.requests[i])
  {
    var a, o := Activate(CountPromise(Update(p, log), from)).replica, HandleP1b(p, p.ballot, from, log);
    ProposeAllInOrder(a, p.requests);
    forall i | 0 <= i < |p.requests|
      ensures exists m :: m in o.sent && m.P2a? && m.ballot == p.ballot && m.command == p.requests[i]
                          && HoldsOpen(o.replica, p.ballot, m.slot, p.requests[i])
    {
      var m :| m in ProposeAll(a, p.requests).sent && Proposes(a, m, a.slot + 1 + i, p.requests[i]);
      assert m in o.sent && HoldsOpen(o.replica, p.ballot, m.slot, p.requests[i]);
    }
  }

  // ---- notices -----------------------------------------------------------------------------------

  /** What the notices of ballot b for these slots do: no entry changes its ballot or command. */
  ghost predicate Noticed(q: Replica, b: Ballot, slots: seq<int>, r: Replica) {
    && r == q.(slot := r.slot, log := r.log)
    && (forall t :: t in r.log && t !in q.log ==> t in slots)
    && (forall t :: t in q.log ==>
          && t in r.log && r.log[t].ballot == q.log[t].ballot && r.log[t].command == q.log[t].command
          && (r.log[t].commit <==> q.log[t].commit || (t in slots && q.log[t].ballot == b)))
  }

  lemma NoticedOnce(q: Replica, b: Ballot, front: seq<int>, r: Replica, s: int)
    requires Noticed(q, b, front, r)
    ensures Noticed(q, b, front + [s], CommitNotice(r, b, s).replica)
  {
    var slots := front + [s];
    assert forall t :: t in slots <==> t in front || t == s;
  }

  lemma {:induction false} NoticesCommit(q: Replica, b: Ballot, slots: seq<int>)
    ensures Noticed(q, b, slots, CommitNotices(q, b, slots).replica)
    decreases |slots|
  {
    if slots != [] {
      var front, s := slots[..|slots| - 1], slots[|slots| - 1];
      NoticesCommit(q, b, front);
      NoticedOnce(q, b, front, CommitNotices(q, b, front).replica, s);
      assert slots == front + [s];
    }
  }

  // ---- a slot whose turn has come ------------------------------------------------------------------

  /** All slots before s are executed or may be. */
  ghost predicate KnowsUpTo(p: Replica, s: int) {
    p.execute <= s && forall t :: p.execute <= t < s ==> Settled(p, t)
  }

  lemma StillKnows(p: Replica, q: Replica, s: int)
    requires KnowsUpTo(p, s) && q.execute == p.execute
    requires forall t :: t < s && t in p.log && Settled(p, t) ==> Settled(q, t)
    ensures KnowsUpTo(q, s)
  {
    forall t | q.execute <= t < s ensures Settled(q, t) {
      assert Settled(p, t);
    }
  }

  lemma ExecReaches(p: Replica, s: int)
    requires KnowsUpTo(p, s) && Settled(p, s)
    ensures var r := Exec(p).replica; r.execute > s && RanAt(p, r, s)
  {
    ExecRunsAllSettled(p);
  }

  lemma ExecStops(p: Replica, s: int)
    requires KnowsUpTo(p, s) && !Settled(p, s)
    ensures var r := Exec(p).replica;
            && r.execute == s && KnowsUpTo(r, s) && |r.executed| == |p.executed| + (s - p.execute)
            && p.executed <= r.executed && (s in p.log ==> s in r.log && r.log[s] == p.log[s])
            && r == p.(log := r.log, execute := s, executed := r.executed, db := r.db)
  {
    ExecRunsAllSettled(p);
  }

  // ---- phase 2 -----------------------------------------------------------------------------------

  /** Nothing in slot s speaks against the proposal of c in ballot b. */
  predicate Takes(q: Replica, b: Ballot, s: int, c: Command) {
    q.ballot <= b && (s in q.log ==> HoldsOpen(q, b, s, c) || (!q.log[s].commit && q.log[s].ballot < b))
  }

  /**
   * A follower that is not ahead and has not settled the slot accepts, and says so, whatever notices came along;
   * so does one that holds the proposal already.
   */
  lemma VoteIsGiven(q: Replica, b: Ballot, s: int, c: Command, ge: int, pb: Ballot, ps: seq<int>)
    requires Takes(q, b, s, c) && s !in ps && KnowsUpTo(q, s)
    ensures var o := HandleP2a(q, b, s, c, ge, pb, ps); var r := o.replica;
            && HoldsOpen(r, b, s, c) && r.ballot == b && !r.active && P2b(b, s, [q.id]) in o.sent
            && r.globalExecute == ge && KnowsUpTo(r, s) && |r.executed| == |q.executed| + (r.execute - q.execute)
            && r.halted == q.halted && r.id == q.id
  {
    var a := Accept(q, b, s, c, ge);
    StillKnows(q, a, s);
    if |ps| > 0 {
      var n := CommitNotices(a, pb, ps).replica;
      NoticesCommit(a, pb, ps);
      StillKnows(a, n, s);
      ExecStops(n, s);
    }
  }

  /** Votes that complete the quorum commit the slot, leave its notice pending, and execute it if its turn has come. */
  lemma MajorityCommits(p: Replica, s: int, ids: seq<ID>)
    requires s in p.log && !p.log[s].commit && p.log[s].quorum.Some?
    requires p.log[s].quorum.value.AckAll(ids).Majority(p.cfg)
    requires 0 != p.log[s].ballot <= p.ballot && BallotID(p.log[s].ballot) == p.id
    ensures var r := HandleP2b(p, s, p.log[s].ballot, ids).replica;
            && s in r.log && r.log[s].commit && r.log[s].command == p.log[s].command && s in r.p3pendingSlots
            && (KnowsUpTo(p, s) ==> r.execute > s && RanAt(p, r, s))
            && r.p3PendingBallot == p.p3PendingBallot && r.halted == p.halted
  {
    var c := Commit(CountVotes(p, s, ids), s);
    ExecRunsAllSettled(c);
    assert c.p3pendingSlots[|p.p3pendingSlots|] == s;
    if KnowsUpTo(p, s) {
      StillKnows(p, c, s);
      ExecReaches(c, s);
    }
  }

  // ---- phase 3 and recovery ------------------------------------------------------------------------

  /** A notice commits an entry of its ballot, and executes it if its turn has come. */
  lemma NoticeCommits(q: Replica, b: Ballot, slots: seq<int>, s: int)
    requires s in slots && s in q.log && q.log[s].ballot == b && b != 0
    ensures var r := HandleP3(q, b, slots).replica;
            && s in r.log && r.log[s].commit && r.log[s].command == q.log[s].command
            && (KnowsUpTo(q, s) ==> r.execute > s && RanAt(q, r, s))
  {
    var c := CommitNotices(q, b, slots).replica;
    NoticesCommit(q, b, slots);
    ExecRunsAllSettled(c);
    if KnowsUpTo(q, s) {
      StillKnows(q, c, s);
      ExecReaches(c, s);
    }
  }

  /** A recovery reply fills a placeholder, and execution goes on. */
  lemma RecoveryFills(q: Replica, b: Ballot, s: int, c: Command)
    requires s in q.log && b != 0
    ensures var r := HandleRecoverReply(q, b, s, c).replica;
            && s in r.log && r.log[s].commit && r.log[s].command == c && r.log[s].ballot == b
            && (KnowsUpTo(q, s) ==> r.execute > s && RanAt(Recover(q, b, s, c), r, s))
  {
    var d := Recover(q, b, s, c);
    ExecRunsAllSettled(d);
    if KnowsUpTo(q, s) {
      StillKnows(q, d, s);
      ExecReaches(d, s);
    }
  }

  // ---- cleanup ------------------------------------------------------------------------------------------

  /** CleanupLog drops exactly the slots past the last marker that this replica and all it heard of have executed. */
  lemma CleanupExact(p: Replica, s: int)
    requires s in p.log
    ensures s !in CleanupLog(p).log <==>
            p.lastCleanupMarker <= s < p.execute && forall k :: k in p.executeByNode ==> s < p.executeByNode[k]
  {
    var m := SafeMarker(p);
    if m != p.execute {
      var k :| k in p.executeByNode && p.executeByNode[k] == m;
    }
  }
}
