// The PigPaxos instance itself (pigpaxos/pigpaxos.go): a class whose methods update its fields
// as the source does, each proved to do what the function of PigPaxosLog.dfy says.
//
// What goes out is collected in sent.  Locks, the clock and replies to clients are not modelled.

module PigPaxosNode {
  import opened Ballots
  import opened Options
  import opened Quorums
  import opened Store
  import opened PigPaxosLog
  import Sets

  // ---- the loops, as functions on values -----------------------------------------------------------

  ghost function Part(scb: map<int, CommandBallot>, done: set<int>): map<int, CommandBallot> {
    map s | s in scb && s in done :: scb[s]
  }

  lemma MaxOfIs(low: int, s: set<int>, m: int)
    requires low <= m && (m == low || m in s) && forall x :: x in s ==> x <= m
    ensures MaxOf(low, s) == m
  {
  }

  lemma MinOfIs(high: int, m: map<ID, int>, r: int)
    requires r <= high && (r == high || exists k :: k in m && m[k] == r) && forall k :: k in m ==> r <= m[k]
    ensures MinOf(high, m) == r
  {
  }

  lemma UpdateNone(p: Replica, scb: map<int, CommandBallot>)
    ensures Update(p, Part(scb, {})) == p
  {
    assert p.log == map s | s in p.log.Keys + Part(scb, {}).Keys :: p.log[s];
  }

  lemma PartGrows(scb: map<int, CommandBallot>, done: set<int>, s: int)
    requires s in scb
    ensures Part(scb, done + {s}) == Part(scb, done)[s := scb[s]]
    ensures Part(scb, done + {s}).Keys == Part(scb, done).Keys + {s}
  {
  }

  lemma UpdateOneSlot(p: Replica, some: map<int, CommandBallot>, s: int, cb: CommandBallot)
    requires s !in some
    ensures Update(p, some[s := cb]).slot == Max(Update(p, some).slot, s)
  {
    assert some[s := cb].Keys == some.Keys + {s};
    MaxOfIs(p.slot, some[s := cb].Keys, Max(MaxOf(p.slot, some.Keys), s));
  }

  lemma UpdateOneLog(p: Replica, some: map<int, CommandBallot>, s: int, cb: CommandBallot)
    requires s !in some
    ensures var q := Update(p, some); Update(p, some[s := cb]).log == q.log[s := MergedEntry(q, s, cb)]
  {
    var q := Update(p, some);
    assert s in q.log <==> s in p.log;
  }

  lemma UpdateOne(p: Replica, scb: map<int, CommandBallot>, done: set<int>, s: int)
    requires s in scb && s !in done
    ensures var q := Update(p, Part(scb, done));
            Update(p, Part(scb, done + {s})) == q.(slot := Max(q.slot, s), log := q.log[s := MergedEntry(q, s, scb[s])])
  {
    PartGrows(scb, done, s);
    UpdateOneSlot(p, Part(scb, done), s, scb[s]);
    UpdateOneLog(p, Part(scb, done), s, scb[s]);
  }

  /** The slots below i that await a quorum carry the new leader's ballot. */
  ghost function ActivatedTo(p: Replica, i: int): Replica {
    p.(log := map s | s in p.log.Keys
                :: if Reproposed(p, s) && s < i then p.log[s].(ballot := p.ballot, quorum := Some(NO_ACKS.Ack(p.id)))
                   else p.log[s])
  }

  ghost function ProposedTo(p: Replica, i: int): set<Msg> {
    set s | s in p.log.Keys && Reproposed(p, s) && s < i :: P2a(p.ballot, s, p.log[s].command, p.globalExecute, 0, [])
  }

  lemma ActivateNone(p: Replica)
    ensures ActivatedTo(p, p.execute) == p && ProposedTo(p, p.execute) == {}
  {
  }

  lemma ActivateOne(p: Replica, i: int)
    ensures ActivatedTo(p, i + 1) ==
            if !Reproposed(p, i) then ActivatedTo(p, i)
            else
              var e := p.log[i].(ballot := p.ballot, quorum := Some(NO_ACKS.Ack(p.id)));
              ActivatedTo(p, i).(log := ActivatedTo(p, i).log[i := e])
    ensures ProposedTo(p, i + 1) ==
            ProposedTo(p, i) + if Reproposed(p, i) then {P2a(p.ballot, i, p.log[i].command, p.globalExecute, 0, [])}
              else {}
    ensures i in p.log ==> ActivatedTo(p, i).log[i] == p.log[i]
  {
  }

  lemma ActivateAll(p: Replica, i: int)
    requires i > p.slot
    ensures Activate(p).replica == ActivatedTo(p.(active := true, p3PendingBallot := p.ballot), i)
    ensures Activate(p).sent == ProposedTo(p.(active := true, p3PendingBallot := p.ballot), i)
  {
  }

  lemma PendingShrinks(p: Replica)
    requires Executable(p)
    ensures Pending(ExecuteOne(p)) < Pending(p) && Exec(p) == Exec(ExecuteOne(p))
  {
    assert p.execute in Pending(p) && p.execute !in Pending(ExecuteOne(p));
    assert Pending(ExecuteOne(p)) <= Pending(p);
  }

  lemma LeadersActivate(p: Replica)
    ensures Activate(p.(active := true, p3PendingBallot := p.ballot)) == Activate(p)
  {
    ActivateAll(p, p.slot + 1);
    ActivateAll(p.(active := true, p3PendingBallot := p.ballot), p.slot + 1);
  }

  ghost function CleanedTo(p: Replica, i: int): map<int, Entry> {
    map s | s in p.log.Keys && !(p.lastCleanupMarker <= s < i) :: p.log[s]
  }

  lemma CleanAll(p: Replica, i: int)
    requires i == SafeMarker(p) || (i == p.lastCleanupMarker && SafeMarker(p) <= i)
    ensures CleanedTo(p, i) == CleanupLog(p).log
  {
  }

  // ---- the class --------------------------------------------------------------------------------------

  class PigPaxos {
    const id: ID
    const cfg: Config
    const quorum: Quorum      // phase 1 quorum
    const db: Database

    var log: map<int, Entry>
    var slot: int
    var execute: int
    var lastCleanupMarker: int
    var globalExecute: int
    var executeByNode: map<ID, int>

    var active: bool
    var ballot: Ballot
    var requests: seq<Command>
    var p3PendingBallot: Ballot
    var p3pendingSlots: seq<int>

    var sent: set<Msg>
    var halted: bool
    ghost var executed: seq<Executed>

    ghost function View(): Replica reads this, quorum, db {
      Replica(id, cfg, log, slot, execute, lastCleanupMarker, globalExecute, executeByNode, active, ballot,
              quorum.View(),
              requests, p3PendingBallot, p3pendingSlots, db.View(), executed, halted)
    }

    constructor (id: ID, cfg: Config, multiversion: bool)
      ensures View() == NewPigPaxos(id, cfg, multiversion) && sent == {} && fresh(quorum) && fresh(db)
    {
      this.id, this.cfg := id, cfg;
      quorum := new Quorum();
      db := new Database(multiversion);
      log, slot, execute, lastCleanupMarker, globalExecute, executeByNode := map[], -1, 0, 0, 0, map[];
      active, ballot, requests, p3PendingBallot, p3pendingSlots := false, 0, [], 0, [];
      sent, halted, executed := {}, false, [];
    }

    method Send(m: Msg)
      modifies this`sent
      ensures sent == old(sent) + {m}
    {
      sent := sent + {m};
    }

    // ---- phase 1 ----------------------------------------------------------------------------------------

    method P1a()
      modifies this, quorum
      ensures View() == SendP1a(old(View())).replica && sent == old(sent) + SendP1a(old(View())).sent
    {
      if active {
        return;
      }
      ballot := Next(ballot, id);
      quorum.Reset();
      quorum.ACK(id);
      Send(Msg.P1a(ballot));
    }

    method RetryP1a()
      modifies this, quorum
      ensures View() == PigPaxosLog.RetryP1a(old(View())).replica
      ensures sent == old(sent) + PigPaxosLog.RetryP1a(old(View())).sent
    {
      if active {
        return;
      }
      quorum.Reset();
      quorum.ACK(id);
      Send(Msg.P1a(ballot));
    }

    method HandleP1a(m: Ballot)
      modifies this
      ensures View() == PigPaxosLog.HandleP1a(old(View()), m).replica
      ensures sent == old(sent) + PigPaxosLog.HandleP1a(old(View()), m).sent
    {
      if m > ballot {
        ballot := m;
        active := false;
        requests := [];       // forwarded to the new leader
      }
      var l: map<int, CommandBallot> := map[];
      var s := execute;
      while s <= slot
        invariant execute <= s
        invariant l == map t | t in log.Keys && execute <= t < s && t <= slot && !log[t].commit ::
                    CommandBallot(log[t].command, log[t].ballot)
        decreases slot - s
      {
        if s in log && !log[s].commit {
          l := l[s := CommandBallot(log[s].command, log[s].ballot)];
        }
        s := s + 1;
      }
      assert l == Uncommitted(View());
      Send(Msg.P1b(ballot, id, l));
    }

    /** The body of update's loop. */
    method updateSlot(s: int, cb: CommandBallot)
      modifies this`log, this`slot
      ensures slot == Max(old(slot), s) && log == old(log)[s := MergedEntry(old(View()), s, cb)]
    {
      slot := Max(slot, s);
      if s in log {
        if !log[s].commit && cb.ballot > log[s].ballot {
          log := log[s := log[s].(ballot := cb.ballot, command := cb.command)];
        }
      } else {
        log := log[s := Entry(cb.ballot, cb.command, false, None, false)];
      }
      assert log == old(log)[s := MergedEntry(old(View()), s, cb)];
    }

    method update(scb: map<int, CommandBallot>)
      modifies this`log, this`slot
      ensures View() == Update(old(View()), scb)
    {
      ghost var p := View();
      var left := scb.Keys;
      UpdateNone(p, scb);
      while left != {}
        invariant left <= scb.Keys
        invariant log == Update(p, Part(scb, scb.Keys - left)).log && slot == Update(p, Part(scb, scb.Keys - left)).slot
        decreases left
      {
        ghost var some := Sets.Some(left);
        var s :| s in left;
        UpdateOne(p, scb, scb.Keys - left, s);
        assert scb.Keys - (left - {s}) == scb.Keys - left + {s};
        left := left - {s};
        updateSlot(s, scb[s]);
      }
      assert Part(scb, scb.Keys) == scb && scb.Keys - {} == scb.Keys;
    }

    method ReproposeSlot(i: int)
      requires i in log
      modifies this`log, this`sent
      ensures log == old(log)[i := old(log)[i].(ballot := ballot, quorum := Some(NO_ACKS.Ack(id)))]
      ensures sent == old(sent) + {Msg.P2a(ballot, i, old(log)[i].command, globalExecute, 0, [])}
    {
      log := log[i := log[i].(ballot := ballot, quorum := Some(NO_ACKS.Ack(id)))];
      Send(Msg.P2a(ballot, i, log[i].command, globalExecute, 0, []));
    }

    /** The loop of HandleP1b that proposes any uncommitted entries. */
    method Repropose()
      requires active && p3PendingBallot == ballot
      modifies this`log, this`sent
      ensures View() == Activate(old(View())).replica && sent == old(sent) + Activate(old(View())).sent
    {
      ghost var p := View();
      ActivateNone(p);
      var i := execute;
      while i <= slot
        invariant log == ActivatedTo(p, i).log && sent == old(sent) + ProposedTo(p, i)
        decreases slot - i
      {
        ActivateOne(p, i);
        assert Reproposed(p, i) <==> i in log && !log[i].commit;
        if i in log && !log[i].commit {
          ReproposeSlot(i);
        }
        i := i + 1;
      }
      ActivateAll(p, i);
    }

    /** The loop of HandleP1b that proposes the pending requests. */
    method ProposePending()
      modifies this`slot, this`log, this`p3pendingSlots, this`sent, this`requests
      ensures View() == ProposeAll(old(View()), old(requests)).replica.(requests := [])
      ensures sent == old(sent) + ProposeAll(old(View()), old(requests)).sent
    {
      ghost var p := View();
      for k := 0 to |requests|
        invariant requests == p.requests
        invariant View() == ProposeAll(p, p.requests[..k]).replica &&
                  sent == old(sent) + ProposeAll(p, p.requests[..k]).sent
      {
        assert p.requests[..k + 1][..k] == p.requests[..k];
        P2a(requests[k]);
      }
      assert p.requests[..|p.requests|] == p.requests;
      requests := [];
    }

    /** What HandleP1b does when Q1 holds. */
    method BecomeLeader()
      modifies this
      ensures View() == TakeOver(old(View())).replica && sent == old(sent) + TakeOver(old(View())).sent
    {
      ghost var counted := View();
      active := true;
      p3PendingBallot := ballot;
      LeadersActivate(counted);
      Repropose();
      ProposePending();
    }

    /** Take over what a promise reports, and its ballot if that is higher. */
    method Absorb(m: Ballot, l: map<int, CommandBallot>)
      modifies this
      ensures sent == old(sent)
      ensures var q := Update(old(View()), l); View() == if m > old(ballot) then Raise(q, m) else q
    {
      update(l);
      if m > ballot {
        ballot := m;
        active := false;
        requests := [];       // forwarded to the new leader
      }
    }

    method HandleP1b(m: Ballot, from: ID, l: map<int, CommandBallot>)
      modifies this, quorum
      ensures View() == PigPaxosLog.HandleP1b(old(View()), m, from, l).replica
      ensures sent == old(sent) + PigPaxosLog.HandleP1b(old(View()), m, from, l).sent
    {
      if m < ballot || active {
        return;
      }
      Absorb(m, l);
      if BallotID(m) == id && m == ballot {
        quorum.ACK(from);
        if quorum.View().Majority(cfg) {
          BecomeLeader();
        }
      }
    }

    // ---- phase 2 ----------------------------------------------------------------------------------------

    method HandleRequest(c: Command)
      modifies this, quorum
      ensures View() == PigPaxosLog.HandleRequest(old(View()), c).replica
      ensures sent == old(sent) + PigPaxosLog.HandleRequest(old(View()), c).sent
    {
      if !active {
        requests := requests + [c];
        if BallotID(ballot) != id {
          P1a();
        }
      } else {
        P2a(c);
      }
    }

    method P2a(c: Command)
      modifies this`slot, this`log, this`p3pendingSlots, this`sent
      ensures View() == Propose(old(View()), c).replica && sent == old(sent) + Propose(old(View()), c).sent
    {
      slot := slot + 1;
      log := log[slot := Entry(ballot, c, false, Some(NO_ACKS.Ack(id)), true)];
      var m := Msg.P2a(ballot, slot, c, globalExecute, 0, []);
      if p3PendingBallot > 0 {
        m := m.(p3Ballot := p3PendingBallot, p3Slots := p3pendingSlots);
        p3pendingSlots := [];
      }
      Send(m);
    }

    /** late: the entry or the P1a is older than the timeout; flush: the last P3 is old enough. */
    method CheckTimeout(late: bool, flush: bool)
      modifies this, quorum
      ensures var p := old(View());
              var o := if !late then Outcome(p, {}) else if p.active && p.execute <= p.slot then PigPaxosLog.RetryP2a(p)
                       else PigPaxosLog.RetryP1a(p);
              var f := if flush then FlushP3(o.replica) else Outcome(o.replica, {});
              View() == f.replica && sent == old(sent) + o.sent + f.sent
    {
      if active && execute <= slot {
        if execute in log && !log[execute].commit {
          if late {
            Send(Msg.P2a(ballot, execute, log[execute].command, globalExecute, 0, []));
          }
        }
      } else if !active && late {
        RetryP1a();
      }
      if flush && p3PendingBallot > 0 {
        Send(Msg.P3(p3PendingBallot, p3pendingSlots));
        p3pendingSlots := [];
      }
    }

    /** What HandleP2a does when the ballot is not stale. */
    method AcceptP2a(m: Ballot, s: int, c: Command, ge: int)
      modifies this
      ensures View() == Accept(old(View()), m, s, c, ge) && sent == old(sent)
    {
      ballot := m;
      active := false;
      globalExecute := ge;
      slot := Max(slot, s);
      if s in log {
        var e := log[s];
        if !e.commit && m > e.ballot {
          if !e.command.Equal(c) && e.request {
            e := e.(request := false);      // forwarded to the new leader
          }
          log := log[s := e.(command := c, ballot := m)];
        } else if e.commit && e.ballot == 0 {
          log := log[s := e.(command := c, ballot := m)];
        }
      } else {
        log := log[s := Entry(m, c, false, None, false)];
      }
    }

    method HandleP2a(m: Ballot, s: int, c: Command, ge: int, p3Ballot: Ballot, p3Slots: seq<int>)
      modifies this, db
      ensures View() == PigPaxosLog.HandleP2a(old(View()), m, s, c, ge, p3Ballot, p3Slots).replica
      ensures sent == old(sent) + PigPaxosLog.HandleP2a(old(View()), m, s, c, ge, p3Ballot, p3Slots).sent
    {
      if m >= ballot {
        AcceptP2a(m, s, c, ge);
      }
      Send(Msg.P2b(ballot, s, [id]));
      if |p3Slots| > 0 {
        HandleP3(p3Ballot, p3Slots);
      }
    }

    /** The loop of HandleP2b over the voters. */
    method CountVoters(s: int, ids: seq<ID>)
      requires s in log && log[s].quorum.Some?
      modifies this`log
      ensures View() == CountVotes(old(View()), s, ids)
    {
      ghost var p := View();
      for k := 0 to |ids|
        invariant s in log && log[s].quorum.Some?
        invariant log == p.log[s := p.log[s].(quorum := Some(p.log[s].quorum.value.AckAll(ids[..k])))]
      {
        assert ids[..k + 1][..k] == ids[..k];
        log := log[s := log[s].(quorum := Some(log[s].quorum.value.Ack(ids[k])))];
      }
      assert ids[..|ids|] == ids;
    }

    /** What HandleP2b does when the vote names a higher ballot. */
    method FallBack(m: Ballot)
      modifies this
      ensures View() == StepDown(old(View()), m).replica && sent == old(sent) + StepDown(old(View()), m).sent
    {
      ballot := m;
      active := false;
      Send(Msg.P3(p3PendingBallot, p3pendingSlots));
      p3pendingSlots := [];
      p3PendingBallot := 0;
    }

    /** What HandleP2b does when Q2 holds. */
    method CommitAndExecute(s: int)
      requires s in log
      modifies this, db
      ensures View() == Exec(Commit(old(View()), s)).replica && sent == old(sent) + Exec(Commit(old(View()), s)).sent
    {
      log := log[s := log[s].(commit := true)];
      p3pendingSlots := p3pendingSlots + [s];
      exec();
    }

    method HandleP2b(s: int, m: Ballot, ids: seq<ID>)
      modifies this, db
      ensures View() == PigPaxosLog.HandleP2b(old(View()), s, m, ids).replica
      ensures sent == old(sent) + PigPaxosLog.HandleP2b(old(View()), s, m, ids).sent
    {
      if s !in log || m < log[s].ballot || log[s].commit {
        return;
      }
      if m > ballot {
        FallBack(m);
      }
      if BallotID(m) == id && m == log[s].ballot {
        if log[s].quorum.None? {
          halted := true;     // the source dereferences the nil quorum
          return;
        }
        CountVoters(s, ids);
        if log[s].quorum.value.Majority(cfg) {
          CommitAndExecute(s);
        }
      }
    }

    // ---- phase 3 and recovery -----------------------------------------------------------------------------

    /** The body of HandleP3's loop. */
    method CommitSlot(m: Ballot, s: int)
      modifies this`slot, this`log, this`sent
      ensures View() == CommitNotice(old(View()), m, s).replica
      ensures sent == old(sent) + CommitNotice(old(View()), m, s).sent
    {
      slot := Max(slot, s);
      if s in log {
        if log[s].ballot == m {
          log := log[s := log[s].(commit := true)];
        } else if log[s].request {
          log := log[s := log[s].(request := false)];    // forwarded to the leader
          Send(Msg.P3RecoverRequest(m, s, id));
        }
      } else {
        log := log[s := Entry(0, NO_COMMAND, true, None, false)];
      }
    }

    method HandleP3(m: Ballot, slots: seq<int>)
      modifies this, db
      ensures View() == PigPaxosLog.HandleP3(old(View()), m, slots).replica
      ensures sent == old(sent) + PigPaxosLog.HandleP3(old(View()), m, slots).sent
    {
      ghost var p := View();
      for k := 0 to |slots|
        invariant View() == CommitNotices(p, m, slots[..k]).replica &&
                  sent == old(sent) + CommitNotices(p, m, slots[..k]).sent
      {
        assert slots[..k + 1][..k] == slots[..k];
        CommitSlot(m, slots[k]);
      }
      assert slots[..|slots|] == slots;
      exec();
    }

    method HandleP3RecoverRequest(s: int)
      modifies this, db
      ensures View() == HandleRecoverRequest(old(View()), s).replica
      ensures sent == old(sent) + HandleRecoverRequest(old(View()), s).sent
    {
      if s in log && log[s].commit {
        Send(Msg.P3RecoverReply(log[s].ballot, s, log[s].command));
      }
      exec();
    }

    method HandleP3RecoverReply(m: Ballot, s: int, c: Command)
      modifies this, db
      ensures View() == HandleRecoverReply(old(View()), m, s, c).replica
      ensures sent == old(sent) + HandleRecoverReply(old(View()), m, s, c).sent
    {
      slot := Max(slot, s);
      if s in log {
        log := log[s := log[s].(command := c, ballot := m, commit := true)];
      }
      exec();
    }

    // ---- execution and cleanup -----------------------------------------------------------------------------

    /** The end of exec's loop body. */
    method ExecuteNext()
      requires Executable(View())
      modifies this`log, this`execute, this`executed, db
      ensures View() == ExecuteOne(old(View()))
    {
      var e := log[execute];
      var value := db.Execute(e.command);
      executed := executed + [Executed(execute, e.ballot, e.command)];
      if e.request {
        log := log[execute := e.(request := false)];    // answered with the value
      }
      assert log == old(log)[execute := e.(request := false)];
      execute := execute + 1;
    }

    method exec()
      modifies this`log, this`execute, this`sent, this`executed, db
      ensures View() == Exec(old(View())).replica && sent == old(sent) + Exec(old(View())).sent
    {
      ghost var p := View();
      while true
        invariant Exec(View()) == Exec(p) && sent == old(sent)
        decreases Pending(View())
      {
        if execute in log && execute + 10 < slot && log[execute].commit && log[execute].ballot == 0 {
          Send(Msg.P3RecoverRequest(ballot, execute, id));
        }
        if execute !in log || !log[execute].commit || (log[execute].commit && log[execute].ballot == 0) {
          break;
        }
        PendingShrinks(View());
        ExecuteNext();
      }
    }

    method UpdateLastExecuteByNode(node: ID, lastExecute: int)
      modifies this`executeByNode
      ensures View() == UpdateLastExecute(old(View()), node, lastExecute)
    {
      executeByNode := executeByNode[node := lastExecute];
    }

    method GetSafeLogCleanupMarker() returns (marker: int)
      ensures marker == SafeMarker(View())
    {
      marker := execute;
      var left := executeByNode.Keys;
      while left != {}
        invariant left <= executeByNode.Keys
        invariant marker <= execute && forall k :: k in executeByNode && k !in left ==> marker <= executeByNode[k]
        invariant marker == execute || exists k :: k in executeByNode && executeByNode[k] == marker
        decreases left
      {
        ghost var some := Sets.Some(left);
        var k :| k in left;
        left := left - {k};
        if executeByNode[k] < marker {
          marker := executeByNode[k];
        }
      }
      MinOfIs(execute, executeByNode, marker);
    }

    method CleanupLog()
      modifies this`log, this`lastCleanupMarker
      ensures View() == PigPaxosLog.CleanupLog(old(View()))
    {
      ghost var p := View();
      var marker := GetSafeLogCleanupMarker();
      var i := lastCleanupMarker;
      assert log == CleanedTo(p, i);
      while i < marker
        invariant i == p.lastCleanupMarker || p.lastCleanupMarker <= i <= marker
        invariant log == CleanedTo(p, i)
      {
        assert log - {i} == CleanedTo(p, i + 1);
        log := log - {i};
        i := i + 1;
      }
      CleanAll(p, i);
      lastCleanupMarker := marker;
    }
  }
}
