// The replicated log of one PigPaxos replica (pigpaxos/pigpaxos.go), as functions on values.
//
// Every handler is a function from a replica to a replica and the messages it sends, put
// together from the small steps (raise the ballot, merge a promise, accept a proposal,
// commit a slot, execute a slot ...) that the handlers of the source share.  The class in
// PigPaxosNode.dfy runs the handlers in place and is proved to compute these functions.

module PigPaxosLog {
  import opened Ballots
  import opened Options
  import opened Quorums
  import opened Store

  datatype CommandBallot = CommandBallot(command: Command, ballot: Ballot)

  datatype Msg =
    | P1a(ballot: Ballot)
    | P1b(ballot: Ballot, id: ID, log: map<int, CommandBallot>)
    | P2a(ballot: Ballot, slot: int, command: Command, globalExecute: int, p3Ballot: Ballot, p3Slots: seq<int>)
    | P2b(ballot: Ballot, slot: int, ids: seq<ID>)
    | P3(ballot: Ballot, slots: seq<int>)
    | P3RecoverRequest(ballot: Ballot, slot: int, node: ID)
    | P3RecoverReply(ballot: Ballot, slot: int, command: Command)

  /** A log entry; quorum is None where the source leaves the pointer nil. */
  datatype Entry = Entry(ballot: Ballot, command: Command, commit: bool, quorum: Option<Tally>, request: bool)

  /** One executed command: the slot it came from and the ballot its entry carried. */
  datatype Executed = Executed(slot: int, ballot: Ballot, command: Command)

  function Commands(xs: seq<Executed>): seq<Command> { seq(|xs|, i requires 0 <= i < |xs| => xs[i].command) }

  datatype Replica = Replica(
    id: ID,
    cfg: Config,
    log: map<int, Entry>,
    slot: int,
    execute: int,
    lastCleanupMarker: int,
    globalExecute: int,
    executeByNode: map<ID, int>,
    active: bool,
    ballot: Ballot,
    quorum: Tally,
    requests: seq<Command>,
    p3PendingBallot: Ballot,
    p3pendingSlots: seq<int>,
    db: Table,
    executed: seq<Executed>,   // what exec has run so far, in order
    halted: bool)              // a nil quorum was dereferenced and the process died

  datatype Outcome = Outcome(replica: Replica, sent: set<Msg>)

  function NewPigPaxos(id: ID, cfg: Config, multiversion: bool): Replica {
    Replica(id, cfg, map[], -1, 0, 0, 0, map[], false, 0, NO_ACKS, [], 0, [], EmptyTable(multiversion), [], false)
  }

  predicate IsLeader(p: Replica) { p.active || BallotID(p.ballot) == p.id }

  function Max(a: int, b: int): int { if a > b then a else b }

  /** The largest of a bound and a set of slots. */
  ghost function MaxOf(low: int, s: set<int>): (m: int)
    ensures low <= m && forall x :: x in s ==> x <= m
    ensures m == low || m in s
    decreases s
  {
    if forall x :: x in s ==> x <= low then low
    else
      var x :| x in s && x > low;
      var m := MaxOf(x, s - {x});
      assert forall y :: y in s && y != x ==> y in s - {x};
      m
  }

  /** The smallest of a bound and the values of a map. */
  ghost function MinOf(high: int, m: map<ID, int>): (r: int)
    ensures r <= high && forall k :: k in m ==> r <= m[k]
    ensures r == high || exists k :: k in m && m[k] == r
    decreases m.Keys
  {
    if forall k :: k in m ==> high <= m[k] then high
    else
      var k :| k in m && m[k] < high;
      var rest := map j | j in m && j != k :: m[j];
      assert rest.Keys == m.Keys - {k};
      var r := MinOf(m[k], rest);
      assert forall j :: j in m && j != k ==> j in rest;
      r
  }

  // ---- phase 1 ----------------------------------------------------------------------------

  function StartVoting(p: Replica): Replica { p.(quorum := NO_ACKS.Ack(p.id)) }

  function SendP1a(p: Replica): Outcome {
    if p.active then Outcome(p, {})
    else
      var q := StartVoting(p.(ballot := Next(p.ballot, p.id)));
      Outcome(q, {P1a(q.ballot)})
  }

  function RetryP1a(p: Replica): Outcome {
    if p.active then Outcome(p, {})
    else Outcome(StartVoting(p), {P1a(p.ballot)})
  }

  /** Adopt a higher ballot; the pending requests are forwarded to its owner. */
  function Raise(p: Replica, b: Ballot): Replica { p.(ballot := b, active := false, requests := []) }

  /** The uncommitted part of the log that a promise reports. */
  function Uncommitted(p: Replica): map<int, CommandBallot> {
    map s | s in p.log.Keys && p.execute <= s <= p.slot && !p.log[s].commit
      :: CommandBallot(p.log[s].command, p.log[s].ballot)
  }

  function HandleP1a(p: Replica, ballot: Ballot): Outcome {
    var q := if ballot > p.ballot then Raise(p, ballot) else p;
    Outcome(q, {P1b(q.ballot, q.id, Uncommitted(q))})
  }

  function MergedEntry(p: Replica, s: int, cb: CommandBallot): Entry {
    if s in p.log then
      if !p.log[s].commit && cb.ballot > p.log[s].ballot
      then p.log[s].(ballot := cb.ballot, command := cb.command)
      else p.log[s]
    else Entry(cb.ballot, cb.command, false, None, false)
  }

  /** update: merge a promised log, keeping the higher ballot of every uncommitted slot. */
  ghost function Update(p: Replica, scb: map<int, CommandBallot>): Replica {
    p.(slot := MaxOf(p.slot, scb.Keys),
       log := map s | s in p.log.Keys + scb.Keys
                :: if s in scb then MergedEntry(p, s, scb[s]) else p.log[s])
  }

  predicate Reproposed(p: Replica, s: int) {
    s in p.log && p.execute <= s <= p.slot && !p.log[s].commit
  }

  /** The new leader stamps every uncommitted slot with its ballot and proposes it again. */
  function Activate(p: Replica): Outcome {
    Outcome(
      p.(active := true, p3PendingBallot := p.ballot,
         log := map s | s in p.log.Keys
                  :: if Reproposed(p, s) then p.log[s].(ballot := p.ballot, quorum := Some(NO_ACKS.Ack(p.id)))
                     else p.log[s]),
      set s | s in p.log.Keys && Reproposed(p, s) :: P2a(p.ballot, s, p.log[s].command, p.globalExecute, 0, []))
  }

  function CountPromise(p: Replica, from: ID): Replica { p.(quorum := p.quorum.Ack(from)) }

  /** A quorum promised: propose any uncommitted entries, then the pending requests. */
  function TakeOver(p: Replica): Outcome {
    var a := Activate(p);
    var r := ProposeAll(a.replica, p.requests);
    Outcome(r.replica.(requests := []), a.sent + r.sent)
  }

  ghost function HandleP1b(p: Replica, ballot: Ballot, from: ID, log: map<int, CommandBallot>): Outcome {
    if ballot < p.ballot || p.active then Outcome(p, {})
    else
      var merged := Update(p, log);
      var q := if ballot > p.ballot then Raise(merged, ballot) else merged;
      if BallotID(ballot) != p.id then Outcome(q, {})
      else
        var counted := CountPromise(q, from);
        if !counted.quorum.Majority(p.cfg) then Outcome(counted, {})
        else TakeOver(counted)
  }

  // ---- phase 2 ----------------------------------------------------------------------------

  /** The P2a for a client command, carrying the pending commit notices. */
  function ProposeMsg(p: Replica, c: Command): Msg {
    var carry := p.p3PendingBallot > 0;
    P2a(p.ballot, p.slot + 1, c, p.globalExecute,
        if carry then p.p3PendingBallot else 0, if carry then p.p3pendingSlots else [])
  }

  /** P2a: propose a client command in the next slot. */
  function Propose(p: Replica, c: Command): Outcome {
    var s := p.slot + 1;
    Outcome(
      p.(slot := s,
         log := p.log[s := Entry(p.ballot, c, false, Some(NO_ACKS.Ack(p.id)), true)],
         p3pendingSlots := if p.p3PendingBallot > 0 then [] else p.p3pendingSlots),
      {ProposeMsg(p, c)})
  }

  function ProposeAll(p: Replica, cs: seq<Command>): Outcome
    decreases |cs|
  {
    if cs == [] then Outcome(p, {})
    else
      var front := ProposeAll(p, cs[..|cs| - 1]);
      var last := Propose(front.replica, cs[|cs| - 1]);
      Outcome(last.replica, front.sent + last.sent)
  }

  function HandleRequest(p: Replica, c: Command): Outcome {
    if p.active then Propose(p, c)
    else
      var q := p.(requests := p.requests + [c]);
      if BallotID(p.ballot) != p.id then SendP1a(q) else Outcome(q, {})
  }

  /** CheckTimeout while active: resend the first slot not yet executed, if it is uncommitted. */
  function RetryP2a(p: Replica): Outcome {
    if p.active && p.execute <= p.slot && p.execute in p.log && !p.log[p.execute].commit
    then Outcome(p, {P2a(p.ballot, p.execute, p.log[p.execute].command, p.globalExecute, 0, [])})
    else Outcome(p, {})
  }

  /** CheckTimeout: send the pending commit notices on their own. */
  function FlushP3(p: Replica): Outcome {
    if p.p3PendingBallot > 0
    then Outcome(p.(p3pendingSlots := []), {P3(p.p3PendingBallot, p.p3pendingSlots)})
    else Outcome(p, {})
  }

  /** HandleP2a's update of the log once the ballot is known not to be stale. */
  function Accept(p: Replica, ballot: Ballot, slot: int, command: Command, globalExecute: int): Replica {
    var q := p.(ballot := ballot, active := false, globalExecute := globalExecute, slot := Max(p.slot, slot));
    if slot in p.log then
      var e := p.log[slot];
      if !e.commit && ballot > e.ballot then
        q.(log := p.log[slot := e.(ballot := ballot, command := command,
                                    request := e.request && e.command.Equal(command))])
      else if e.commit && e.ballot == 0 then
        q.(log := p.log[slot := e.(ballot := ballot, command := command)])
      else q
    else q.(log := p.log[slot := Entry(ballot, command, false, None, false)])
  }

  function HandleP2a(p: Replica, ballot: Ballot, slot: int, command: Command, globalExecute: int,
                     p3Ballot: Ballot, p3Slots: seq<int>): Outcome
  {
    var q := if ballot >= p.ballot then Accept(p, ballot, slot, command, globalExecute) else p;
    var r := if |p3Slots| > 0 then HandleP3(q, p3Ballot, p3Slots) else Outcome(q, {});
    Outcome(r.replica, {P2b(q.ballot, slot, [p.id])} + r.sent)
  }

  /** A vote names a ballot above the replica's own: step down and flush the commit notices. */
  function StepDown(p: Replica, ballot: Ballot): Outcome {
    Outcome(p.(ballot := ballot, active := false, p3pendingSlots := [], p3PendingBallot := 0),
            {P3(p.p3PendingBallot, p.p3pendingSlots)})
  }

  function CountVotes(p: Replica, slot: int, ids: seq<ID>): Replica
    requires slot in p.log && p.log[slot].quorum.Some?
  {
    p.(log := p.log[slot := p.log[slot].(quorum := Some(p.log[slot].quorum.value.AckAll(ids)))])
  }

  function Commit(p: Replica, slot: int): Replica
    requires slot in p.log
  {
    p.(log := p.log[slot := p.log[slot].(commit := true)], p3pendingSlots := p.p3pendingSlots + [slot])
  }

  function HandleP2b(p: Replica, slot: int, ballot: Ballot, ids: seq<ID>): Outcome {
    if slot !in p.log || ballot < p.log[slot].ballot || p.log[slot].commit then Outcome(p, {})
    else
      var down := if ballot > p.ballot then StepDown(p, ballot) else Outcome(p, {});
      var q := down.replica;
      if BallotID(ballot) != p.id || ballot != p.log[slot].ballot then down
      else if q.log[slot].quorum.None? then Outcome(q.(halted := true), down.sent)
      else
        var v := CountVotes(q, slot, ids);
        if !v.log[slot].quorum.value.Majority(p.cfg) then Outcome(v, down.sent)
        else
          var x := Exec(Commit(v, slot));
          Outcome(x.replica, down.sent + x.sent)
  }

  // ---- phase 3 and recovery -----------------------------------------------------------------

  function CommitNotice(p: Replica, ballot: Ballot, slot: int): Outcome {
    var q := p.(slot := Max(p.slot, slot));
    if slot in p.log then
      var e := p.log[slot];
      if e.ballot == ballot then Outcome(q.(log := p.log[slot := e.(commit := true)]), {})
      else if e.request then
        Outcome(q.(log := p.log[slot := e.(request := false)]), {P3RecoverRequest(ballot, slot, p.id)})
      else Outcome(q, {})
    else Outcome(q.(log := p.log[slot := Entry(0, NO_COMMAND, true, None, false)]), {})
  }

  function CommitNotices(p: Replica, ballot: Ballot, slots: seq<int>): Outcome
    decreases |slots|
  {
    if slots == [] then Outcome(p, {})
    else
      var front := CommitNotices(p, ballot, slots[..|slots| - 1]);
      var last := CommitNotice(front.replica, ballot, slots[|slots| - 1]);
      Outcome(last.replica, front.sent + last.sent)
  }

  function HandleP3(p: Replica, ballot: Ballot, slots: seq<int>): Outcome {
    var n := CommitNotices(p, ballot, slots);
    var x := Exec(n.replica);
    Outcome(x.replica, n.sent + x.sent)
  }

  function HandleRecoverRequest(p: Replica, slot: int): Outcome {
    var reply := if slot in p.log && p.log[slot].commit
                 then {P3RecoverReply(p.log[slot].ballot, slot, p.log[slot].command)} else {};
    var x := Exec(p);
    Outcome(x.replica, reply + x.sent)
  }

  function Recover(p: Replica, ballot: Ballot, slot: int, command: Command): Replica {
    var q := p.(slot := Max(p.slot, slot));
    if slot in p.log
    then q.(log := p.log[slot := p.log[slot].(command := command, ballot := ballot, commit := true)])
    else q
  }

  function HandleRecoverReply(p: Replica, ballot: Ballot, slot: int, command: Command): Outcome {
    Exec(Recover(p, ballot, slot, command))
  }

  // ---- execution and cleanup ------------------------------------------------------------------

  predicate Executable(p: Replica) {
    p.execute in p.log && p.log[p.execute].commit && p.log[p.execute].ballot != 0
  }

  /** Run the command of the next slot. */
  function ExecuteOne(p: Replica): Replica
    requires Executable(p)
  {
    var e := p.log[p.execute];
    p.(db := p.db.Execute(e.command),
       log := p.log[p.execute := e.(request := false)],
       executed := p.executed + [Executed(p.execute, e.ballot, e.command)],
       execute := p.execute + 1)
  }

  /** exec gives up at a placeholder; far behind, it first asks the leader for the command. */
  function AskForPlaceholder(p: Replica): set<Msg> {
    if p.execute in p.log && p.execute + 10 < p.slot && p.log[p.execute].commit && p.log[p.execute].ballot == 0
    then {P3RecoverRequest(p.ballot, p.execute, p.id)} else {}
  }

  function Pending(p: Replica): set<int> { set s | s in p.log.Keys && s >= p.execute }

  function Exec(p: Replica): Outcome
    decreases Pending(p)
  {
    if Executable(p) then
      assert p.execute in Pending(p) && p.execute !in Pending(ExecuteOne(p));
      assert Pending(ExecuteOne(p)) <= Pending(p);
      Exec(ExecuteOne(p))
    else Outcome(p, AskForPlaceholder(p))
  }

  ghost function SafeMarker(p: Replica): int { MinOf(p.execute, p.executeByNode) }

  function UpdateLastExecute(p: Replica, node: ID, lastExecute: int): Replica {
    p.(executeByNode := p.executeByNode[node := lastExecute])
  }

  ghost function CleanupLog(p: Replica): Replica {
    var marker := SafeMarker(p);
    p.(log := map s | s in p.log.Keys && !(p.lastCleanupMarker <= s < marker) :: p.log[s],
       lastCleanupMarker := marker)
  }
}
