// What a replica's state owes to the record of a run, and why every small step of a handler keeps it.

module PigPaxosReplicaInvariant {
  import opened Ballots
  import opened Quorums
  import opened Store
  import opened Options
  import opened PigPaxosLog
  import opened PigPaxosRuns

  // ---- invariants of one replica --------------------------------------------------------------

  /** Slot s is executed, committed, or held with a ballot of at least b. */
  predicate Covered(p: Replica, s: int, b: Ballot) {
    s < p.execute || (s in p.log && (p.log[s].commit || p.log[s].ballot >= b))
  }

  predicate Done(p: Replica, s: int) { s < p.execute || (s in p.log && p.log[s].commit) }

  ghost predicate Backed(h: History, b: Ballot, s: int) {
    Grounded(h, b, s) || Adoption(b, s) in h.adopted
  }

  ghost predicate EntryOk(h: History, p: Replica, s: int, e: Entry) {
    && s <= p.slot
    && (e.ballot == 0 ==> e.commit)
    && (!e.commit ==> e.ballot <= p.ballot)
    && (e.ballot != 0 ==> Proposal(e.ballot, s, e.command) in h.proposed)
    && (e.commit && e.ballot != 0 ==> Backed(h, e.ballot, s))
  }

  ghost predicate LogOk(h: History, p: Replica) {
    && 0 <= p.execute <= p.slot + 1
    && forall s :: s in p.log ==> EntryOk(h, p, s, p.log[s])
  }

  /** Everything a promise reported is still reflected in the log that merged it. */
  ghost predicate Merged(p: Replica, pr: Promise) {
    forall s :: s in pr.log ==> Covered(p, s, pr.log[s].ballot)
  }

  /** What the replica itself proposed, voted for and counted is reflected in its log. */
  ghost predicate OwnProposals(h: History, p: Replica) {
    forall x :: x in h.proposed && BallotID(x.ballot) == p.id ==>
      && x.ballot <= p.ballot && x.slot <= p.slot && Covered(p, x.slot, x.ballot)
      && (p.p3PendingBallot != 0 ==> x.ballot <= p.p3PendingBallot)
  }

  ghost predicate OwnVotes(h: History, p: Replica) {
    forall v :: v in h.votes && v.id == p.id ==>
      v.ballot <= p.ballot && v.slot <= p.slot && Covered(p, v.slot, v.ballot)
  }

  ghost predicate Remembers(p: Replica, past: Past) { forall s :: past.Has(s) ==> Done(p, s) }

  ghost predicate OwnCounts(h: History, p: Replica) {
    forall c :: c in h.counted && c.leader == p.id ==> Merged(p, c.promise) && Remembers(p, c.past)
  }

  ghost predicate Vouched(h: History, leader: ID, b: Ballot, q: ID) {
    q == leader || exists c :: c in h.counted && c.leader == leader && c.promise.id == q && c.promise.ballot == b
  }

  ghost predicate LeaderOk(h: History, p: Replica) {
    && p.quorum.Counts() && p.quorum.acks <= p.cfg.nodes
    && (BallotID(p.ballot) == p.id ==> forall q :: q in p.quorum.acks ==> Vouched(h, p.id, p.ballot, q))
    && p.p3PendingBallot <= p.ballot
    && (p.p3PendingBallot != 0 ==> BallotID(p.p3PendingBallot) == p.id)
    && (p.active ==>
          && BallotID(p.ballot) == p.id && p.ballot != 0 && p.ballot in h.elected && p.p3PendingBallot == p.ballot
          && forall s :: s in p.log && s >= p.execute && !p.log[s].commit ==> p.log[s].ballot == p.ballot)
  }

  ghost predicate AckOk(h: History, id: ID, b: Ballot, s: int, a: ID) {
    (a == id && Vote(id, b, s) in h.votes) || Acked(b, s, a) in h.acked
  }

  ghost predicate VotesOk(h: History, p: Replica) {
    forall s :: s in p.log && !p.log[s].commit && p.log[s].quorum.Some? ==>
      var e := p.log[s];
      && s >= p.execute && e.quorum.value.Counts() && e.quorum.value.acks <= p.cfg.nodes
      && (BallotID(e.ballot) == p.id ==>
            && Vote(p.id, e.ballot, s) in h.votes
            && forall a :: a in e.quorum.value.acks ==> AckOk(h, p.id, e.ballot, s, a))
  }

  /** d is the last ballot in which its leader proposed slot d.slot. */
  ghost predicate LastWord(h: History, id: ID, d: Decision) {
    && BallotID(d.ballot) == id
    && forall x :: x in h.proposed && BallotID(x.ballot) == id && x.slot == d.slot ==> x.ballot <= d.ballot
  }

  ghost predicate PendingOk(h: History, p: Replica, s: int) {
    Done(p, s) && exists d :: d in h.decided && d.slot == s && LastWord(h, p.id, d)
  }

  ghost predicate NoticesOk(h: History, p: Replica) {
    forall s :: s in p.p3pendingSlots ==> PendingOk(h, p, s)
  }

  ghost predicate TraceOk(h: History, p: Replica) {
    && |p.executed| == p.execute
    && forall i :: 0 <= i < |p.executed| ==>
         var x := p.executed[i];
         x.slot == i && x.ballot != 0 && Proposal(x.ballot, i, x.command) in h.proposed && Backed(h, x.ballot, i)
  }

  ghost predicate StoreOk(p: Replica) {
    p.db == EmptyTable(p.db.multiversion).ExecuteAll(Commands(p.executed))
  }

  ghost predicate RepInv(h: History, p: Replica) {
    && LogOk(h, p) && OwnProposals(h, p) && OwnVotes(h, p) && OwnCounts(h, p)
    && LeaderOk(h, p) && VotesOk(h, p) && NoticesOk(h, p) && TraceOk(h, p) && StoreOk(p)
  }

  // ---- growth -----------------------------------------------------------------------------

  /** h only grew into g, and everything new of a replica's own kind belongs to id. */
  ghost predicate Grows(h: History, g: History, id: ID) {
    && h.sent <= g.sent && h.proposed <= g.proposed && h.votes <= g.votes && h.promises <= g.promises
    && h.counted <= g.counted && h.acked <= g.acked && h.decided <= g.decided
    && h.announced <= g.announced && h.adopted <= g.adopted
    && (forall b :: b in h.elected ==> b in g.elected && g.elected[b] == h.elected[b])
    && (forall x :: x in g.proposed ==> x in h.proposed || BallotID(x.ballot) == id)
    && (forall v :: v in g.votes ==> v in h.votes || v.id == id)
    && (forall c :: c in g.counted ==> c in h.counted || c.leader == id)
  }

  lemma OthersKeep(h: History, g: History, id: ID, p: Replica)
    requires RepInv(h, p) && p.id != id && Grows(h, g, id)
    ensures RepInv(g, p)
  {
  }

  /** What the rest of the cluster may rely on when a replica moves. */
  ghost predicate Evolves(p: Replica, q: Replica) {
    && q.id == p.id && q.cfg == p.cfg && p.ballot <= q.ballot
    && forall s :: Done(p, s) ==> Done(q, s)
  }

  // ---- every step keeps the invariants of the replica that takes it ------------------------------

  lemma AckSelf(id: ID)
    ensures NO_ACKS.Ack(id).Counts() && NO_ACKS.Ack(id).acks == {id}
  {
    assert NO_ACKS.zones.Keys == (set a | a in NO_ACKS.acks :: Zone(a));
    AckKeepsCounts(NO_ACKS, id);
  }

  lemma StartKeeps(h: History, p: Replica)
    requires RepInv(h, p) && !p.active && p.id in p.cfg.nodes
    requires p.ballot < U64 && N(p.ballot) + 1 < U32 && p.id < U32
    ensures Evolves(p, SendP1a(p).replica) && BallotID(SendP1a(p).replica.ballot) == p.id
    ensures SendP1a(p).replica.ballot < U64
    ensures RepInv(h, SendP1a(p).replica)
  {
    NextExceeds(p.ballot, p.id);
    AckSelf(p.id);
    assert p.ballot < Next(p.ballot, p.id);
  }

  lemma RetryKeeps(h: History, p: Replica)
    requires RepInv(h, p) && !p.active && p.id in p.cfg.nodes
    ensures Evolves(p, RetryP1a(p).replica)
    ensures RepInv(h, RetryP1a(p).replica)
  {
    AckSelf(p.id);
  }

  lemma RaiseKeeps(h: History, p: Replica, b: Ballot)
    requires RepInv(h, p) && b > p.ballot && BallotID(b) != p.id
    ensures Evolves(p, Raise(p, b)) && Evolves(p, StepDown(p, b).replica)
    ensures RepInv(h, Raise(p, b)) && RepInv(h, StepDown(p, b).replica)
  {
  }

  lemma FlushKeeps(h: History, p: Replica)
    requires RepInv(h, p)
    ensures Evolves(p, FlushP3(p).replica)
    ensures RepInv(h, FlushP3(p).replica)
  {
  }

  /** What a delivered promise brings with it. */
  ghost predicate PromiseEntries(h: History, p: Replica, log: map<int, CommandBallot>) {
    forall s :: s in log ==>
      0 != log[s].ballot <= p.ballot && Proposal(log[s].ballot, s, log[s].command) in h.proposed
  }

  lemma UpdateKeeps(h: History, p: Replica, log: map<int, CommandBallot>)
    requires RepInv(h, p) && !p.active && PromiseEntries(h, p, log)
    ensures Evolves(p, Update(p, log))
    ensures RepInv(h, Update(p, log))
    ensures forall s :: s in log ==> Covered(Update(p, log), s, log[s].ballot)
  {
    var q := Update(p, log);
    assert forall s :: s in p.log ==> s in q.log;
    assert forall s, b :: Covered(p, s, b) ==> Covered(q, s, b);
  }

  lemma CountKeeps(h: History, p: Replica, pr: Promise, past: Past)
    requires RepInv(h, p) && Remembers(p, past) && BallotID(p.ballot) == p.id && pr.ballot == p.ballot
    requires pr.id in p.cfg.nodes
    requires Merged(p, pr)
    ensures Evolves(p, CountPromise(p, pr.id))
    ensures RepInv(NoteCounted(h, p.id, pr, past), CountPromise(p, pr.id))
  {
    AckKeepsCounts(p.quorum, pr.id);
    var g := NoteCounted(h, p.id, pr, past);
    assert Counted(p.id, pr, past) in g.counted;
  }

  /** Every reproposed slot is now proposed and voted for in the leader's ballot; nothing else is new. */
  lemma ActivateRecords(h: History, p: Replica)
    ensures var g := NoteElected(Record(h, p.id, Activate(p).sent), p.ballot, p.quorum.acks);
            && (forall s :: Reproposed(p, s) ==>
                  Proposal(p.ballot, s, p.log[s].command) in g.proposed && Vote(p.id, p.ballot, s) in g.votes)
            && (forall x :: x in g.proposed && x !in h.proposed ==> x.ballot == p.ballot && Reproposed(p, x.slot))
            && (forall v :: v in g.votes && v !in h.votes ==>
                  v.id == p.id && v.ballot == p.ballot && Reproposed(p, v.slot))
            && g == h.(sent := g.sent, proposed := g.proposed, votes := g.votes, elected := g.elected)
            && h.proposed <= g.proposed && h.votes <= g.votes && p.ballot in g.elected
  {
    var a := Activate(p);
    forall s | Reproposed(p, s)
      ensures Proposal(p.ballot, s, p.log[s].command) in Proposals(a.sent)
      ensures Vote(p.id, p.ballot, s) in SelfVotes(p.id, a.sent)
    {
      assert P2a(p.ballot, s, p.log[s].command, p.globalExecute, 0, []) in a.sent;
    }
    assert Notices(a.sent) == {};
  }

  /** Covered slots stay covered, and the reproposed ones are covered in the leader's ballot. */
  lemma ActivateCovers(h: History, p: Replica)
    requires RepInv(h, p)
    ensures forall s, b: Ballot :: b <= p.ballot && Covered(p, s, b) ==> Covered(Activate(p).replica, s, b)
    ensures forall s :: Done(p, s) ==> Done(Activate(p).replica, s)
    ensures forall s :: Reproposed(p, s) ==> Covered(Activate(p).replica, s, p.ballot)
  {
  }

  lemma ActivateKeeps(h: History, p: Replica)
    requires RepInv(h, p) && !p.active && BallotID(p.ballot) == p.id && p.ballot != 0 && p.id in p.cfg.nodes
    ensures Evolves(p, Activate(p).replica)
    ensures RepInv(NoteElected(Record(h, p.id, Activate(p).sent), p.ballot, p.quorum.acks), Activate(p).replica)
  {
    AckSelf(p.id);
    ActivateRecords(h, p);
    ActivateCovers(h, p);
  }

  /** The one proposal and the one vote that proposing a command adds. */
  lemma ProposeRecords(h: History, p: Replica, c: Command)
    ensures var g, s := Record(h, p.id, Propose(p, c).sent), p.slot + 1;
            && g.proposed == h.proposed + {Proposal(p.ballot, s, c)} && g.votes == h.votes + {Vote(p.id, p.ballot, s)}
            && g == h.(sent := g.sent, proposed := g.proposed, votes := g.votes, announced := g.announced)
  {
    var m := ProposeMsg(p, c);
    assert m in Propose(p, c).sent;
    assert Proposals({m}) == {Proposal(m.ballot, m.slot, m.command)};
    assert SelfVotes(p.id, {m}) == {Vote(p.id, m.ballot, m.slot)};
  }

  lemma ProposeKeeps(h: History, p: Replica, c: Command)
    requires RepInv(h, p) && p.active && p.id in p.cfg.nodes
    ensures Evolves(p, Propose(p, c).replica)
    ensures RepInv(Record(h, p.id, Propose(p, c).sent), Propose(p, c).replica)
  {
    AckSelf(p.id);
    ProposeRecords(h, p, c);
    ProposedKeeps(h, p, c, Record(h, p.id, Propose(p, c).sent));
  }

  lemma ProposedKeeps(h: History, p: Replica, c: Command, g: History)
    requires RepInv(h, p) && p.active && p.id in p.cfg.nodes && NO_ACKS.Ack(p.id).Counts()
    requires NO_ACKS.Ack(p.id).acks == {p.id} && g.proposed == h.proposed + {Proposal(p.ballot, p.slot + 1, c)}
    requires g.votes == h.votes + {Vote(p.id, p.ballot, p.slot + 1)}
    requires g == h.(sent := g.sent, proposed := g.proposed, votes := g.votes, announced := g.announced)
    ensures Evolves(p, Propose(p, c).replica) && RepInv(g, Propose(p, c).replica)
  {
    var q := Propose(p, c).replica;
    assert forall s, b :: s <= p.slot ==> (Covered(p, s, b) ==> Covered(q, s, b));
  }

  /** Putting entry e in slot s, where e does not lose what the slot already promised. */
  lemma EntryKeeps(h: History, p: Replica, s: int, e: Entry)
    requires RepInv(h, p) && EntryOk(h, p.(slot := Max(p.slot, s)), s, e)
    requires s in p.log && p.log[s].commit ==> e.commit
    requires s in p.log && !p.log[s].commit ==> e.commit || e.ballot >= p.log[s].ballot
    requires p.active ==> s < p.execute || e.commit || e.ballot == p.ballot
    requires !e.commit && e.quorum.Some? ==>
               && s in p.log && !p.log[s].commit && e.quorum == p.log[s].quorum
               && (e.ballot == p.log[s].ballot || BallotID(e.ballot) != p.id)
    ensures Evolves(p, p.(slot := Max(p.slot, s), log := p.log[s := e]))
    ensures RepInv(h, p.(slot := Max(p.slot, s), log := p.log[s := e]))
  {
    var q := p.(slot := Max(p.slot, s), log := p.log[s := e]);
    assert forall t, b :: Covered(p, t, b) ==> Covered(q, t, b);
  }

  lemma SlotKeeps(h: History, p: Replica, s: int)
    requires RepInv(h, p)
    ensures Evolves(p, p.(slot := Max(p.slot, s)))
    ensures RepInv(h, p.(slot := Max(p.slot, s)))
  {
  }

  /** A non-stale P2a makes the replica a follower of its ballot. */
  lemma FollowKeeps(h: History, p: Replica, b: Ballot, ge: int)
    requires RepInv(h, p) && b >= p.ballot
    requires BallotID(b) == p.id ==> b == p.ballot
    ensures Evolves(p, p.(ballot := b, active := false, globalExecute := ge))
    ensures RepInv(h, p.(ballot := b, active := false, globalExecute := ge))
  {
  }

  lemma NoteAdoptionKeeps(h: History, p: Replica, b: Ballot, s: int)
    requires RepInv(h, p)
    ensures RepInv(NoteAdoption(h, b, s), p)
  {
  }

  /** The three ways a P2a of a follower's own ballot changes its log. */
  lemma AcceptOver(h: History, p: Replica, b: Ballot, s: int, c: Command)
    requires RepInv(h, p) && !p.active && p.ballot == b != 0 && Proposal(b, s, c) in h.proposed
    requires s in p.log && !p.log[s].commit && b > p.log[s].ballot
    requires BallotID(b) == p.id && p.log[s].quorum.Some? ==> Covered(p, s, b) && s >= p.execute
    ensures var e := p.log[s];
            var q := p.(slot := Max(p.slot, s),
                        log := p.log[s := e.(ballot := b, command := c, request := e.request && e.command.Equal(c))]);
            RepInv(h, q) && Evolves(p, q)
  {
    var e := p.log[s];
    EntryKeeps(h, p, s, e.(ballot := b, command := c, request := e.request && e.command.Equal(c)));
  }

  lemma AcceptPlaceholder(h: History, p: Replica, b: Ballot, s: int, c: Command)
    requires RepInv(h, p) && !p.active && p.ballot == b != 0 && Proposal(b, s, c) in h.proposed
    requires s in p.log && p.log[s].commit && p.log[s].ballot == 0
    ensures var q := p.(slot := Max(p.slot, s), log := p.log[s := p.log[s].(ballot := b, command := c)]);
            RepInv(NoteAdoption(h, b, s), q) && Evolves(p, q)
  {
    NoteAdoptionKeeps(h, p, b, s);
    EntryKeeps(NoteAdoption(h, b, s), p, s, p.log[s].(ballot := b, command := c));
  }

  lemma AcceptFresh(h: History, p: Replica, b: Ballot, s: int, c: Command)
    requires RepInv(h, p) && !p.active && p.ballot == b != 0 && Proposal(b, s, c) in h.proposed && s !in p.log
    ensures var q := p.(slot := Max(p.slot, s), log := p.log[s := Entry(b, c, false, None, false)]);
            RepInv(h, q) && Evolves(p, q)
  {
    EntryKeeps(h, p, s, Entry(b, c, false, None, false));
  }

  lemma EvolvesOn(p: Replica, q: Replica, r: Replica)
    requires Evolves(p, q) && Evolves(q, r)
    ensures Evolves(p, r)
  {
  }

  lemma AcceptKeeps(h: History, p: Replica, b: Ballot, s: int, c: Command, ge: int)
    requires RepInv(h, p) && b >= p.ballot && b != 0 && Proposal(b, s, c) in h.proposed
    requires BallotID(b) == p.id ==> b == p.ballot
    ensures Evolves(p, Accept(p, b, s, c, ge))
    ensures RepInv(AdoptionNoted(h, p, b, s), Accept(p, b, s, c, ge))
  {
    FollowKeeps(h, p, b, ge);
    var q := p.(ballot := b, active := false, globalExecute := ge);
    if s !in p.log {
      AcceptFresh(h, q, b, s, c);
    } else if !p.log[s].commit && b > p.log[s].ballot {
      AcceptOver(h, q, b, s, c);
    } else if p.log[s].commit && p.log[s].ballot == 0 {
      AcceptPlaceholder(h, q, b, s, c);
    } else {
      SlotKeeps(h, q, s);
    }
    EvolvesOn(p, q, Accept(p, b, s, c, ge));
  }

  lemma NoteVoteKeeps(h: History, p: Replica, s: int)
    requires RepInv(h, p) && s in p.log && p.log[s].ballot == p.ballot
    ensures RepInv(NoteVote(h, p.id, p.ballot, s), p)
  {
  }

  lemma CountVotesKeeps(h: History, p: Replica, s: int, ids: seq<ID>)
    requires RepInv(h, p) && s in p.log && p.log[s].quorum.Some? && !p.log[s].commit
    requires forall a :: a in ids ==> a in p.cfg.nodes
    ensures Evolves(p, CountVotes(p, s, ids))
    ensures RepInv(NoteAcked(h, p.log[s].ballot, s, ids), CountVotes(p, s, ids))
  {
    AckAllCounts(p.log[s].quorum.value, ids);
    AckAllAcks(p.log[s].quorum.value, ids);
  }

  lemma CommitKeeps(h: History, p: Replica, s: int)
    requires RepInv(h, p) && s in p.log && p.log[s].quorum.Some? && !p.log[s].commit
    requires BallotID(p.log[s].ballot) == p.id
    ensures Evolves(p, Commit(p, s))
    ensures RepInv(NoteDecided(h, p.log[s].ballot, s, p.log[s].command, p.log[s].quorum.value.acks), Commit(p, s))
  {
    var e := p.log[s];
    var q := Commit(p, s);
    var d := Decision(e.ballot, s, e.command, e.quorum.value.acks);
    var g := NoteDecided(h, e.ballot, s, e.command, e.quorum.value.acks);
    assert d in g.decided;
    assert LastWord(g, p.id, d);
    assert forall s, b :: Covered(p, s, b) ==> Covered(q, s, b);
    forall t | t in q.p3pendingSlots ensures PendingOk(g, q, t) {
      if t != s { assert PendingOk(h, p, t); }
    }
  }

  /** A committed entry of a nonzero ballot must be backed by a decision or an adoption. */
  lemma CommitNoticeKeeps(h: History, p: Replica, b: Ballot, s: int)
    requires RepInv(h, p)
    requires s in p.log && p.log[s].ballot == b && b != 0 ==> Backed(h, b, s)
    ensures Evolves(p, CommitNotice(p, b, s).replica)
    ensures RepInv(h, CommitNotice(p, b, s).replica)
  {
    if s in p.log {
      var e := p.log[s];
      if e.ballot == b {
        EntryKeeps(h, p, s, e.(commit := true));
      } else if e.request {
        EntryKeeps(h, p, s, e.(request := false));
      } else {
        SlotKeeps(h, p, s);
      }
    } else {
      EntryKeeps(h, p, s, Entry(0, NO_COMMAND, true, None, false));
    }
  }

  lemma RecoverKeeps(h: History, p: Replica, b: Ballot, s: int, c: Command)
    requires RepInv(h, p)
    requires b != 0 ==> Proposal(b, s, c) in h.proposed && Backed(h, b, s)
    ensures Evolves(p, Recover(p, b, s, c))
    ensures RepInv(h, Recover(p, b, s, c))
  {
    if s in p.log {
      EntryKeeps(h, p, s, p.log[s].(command := c, ballot := b, commit := true));
    } else {
      SlotKeeps(h, p, s);
    }
  }

  lemma ExecuteKeeps(h: History, p: Replica)
    requires RepInv(h, p) && Executable(p)
    ensures Evolves(p, ExecuteOne(p))
    ensures RepInv(h, ExecuteOne(p))
  {
    var q := ExecuteOne(p);
    assert forall s, b :: Covered(p, s, b) ==> Covered(q, s, b);
    var cs := Commands(q.executed);
    assert cs[..|cs| - 1] == Commands(p.executed) && cs[|cs| - 1] == p.log[p.execute].command;
  }

  lemma CleanupKeeps(h: History, p: Replica)
    requires RepInv(h, p)
    ensures Evolves(p, CleanupLog(p))
    ensures RepInv(h, CleanupLog(p))
    ensures forall s :: s in p.log && s !in CleanupLog(p).log ==> s < p.execute
  {
    var q := CleanupLog(p);
    assert forall s, b :: Covered(p, s, b) ==> Covered(q, s, b);
  }
}
