// The invariant of a cluster, and why every action keeps it.

module PigPaxosInvariant {
  import opened Ballots
  import opened Quorums
  import opened Store
  import opened Options
  import opened PigPaxosLog
  import opened PigPaxosRuns
  import opened PigPaxosReplicaInvariant

  // ---- invariants of the whole cluster ---------------------------------------------------------

  /** A ballot is 0 or was issued by a node that has not gone back below it. */
  predicate Legit(w: World, b: Ballot) {
    b == 0 || (b < U64 && BallotID(b) in w.replicas && b <= w.replicas[BallotID(b)].ballot)
  }

  ghost predicate Shape(w: World) {
    && w.replicas.Keys == w.cfg.nodes && 0 !in w.cfg.nodes
    && forall id :: id in w.replicas ==> id < U32 && w.replicas[id].id == id && w.replicas[id].cfg == w.cfg
  }

  ghost predicate BallotsOk(w: World) {
    && (forall id {:trigger Legit(w, w.replicas[id].ballot)} :: id in w.replicas ==> Legit(w, w.replicas[id].ballot))
    && (forall m :: m in w.h.sent ==> Legit(w, m.ballot))
  }

  ghost predicate ProposalsOk(h: History) {
    && (forall x :: x in h.proposed ==> x.ballot != 0 && x.ballot in h.elected)
    && (forall x, y :: x in h.proposed && y in h.proposed && x.ballot == y.ballot && x.slot == y.slot ==> x == y)
  }

  ghost predicate MsgOk(w: World, m: Msg) {
    match m
    case P1a(_) => m.ballot != 0
    case P1b(_, _, log) =>
      forall s :: s in log ==> log[s].ballot != 0 && Proposal(log[s].ballot, s, log[s].command) in w.h.proposed
    case P2a(b, s, c, _, pb, ps) =>
      b != 0 && Proposal(b, s, c) in w.h.proposed && forall t :: t in ps ==> Notice(pb, t) in w.h.announced
    case P2b(b, s, ids) => |ids| == 1 && ids[0] in w.cfg.nodes
    case P3(b, ps) => forall t :: t in ps ==> Notice(b, t) in w.h.announced
    case P3RecoverRequest(_, _, _) => true
    case P3RecoverReply(b, s, c) => b != 0 ==> Proposal(b, s, c) in w.h.proposed && Backed(w.h, b, s)
  }

  ghost predicate SentOk(w: World) { forall m :: m in w.h.sent ==> MsgOk(w, m) }

  ghost predicate VotesNet(w: World) {
    forall v :: v in w.h.votes ==> v.id in w.cfg.nodes && v.ballot != 0
  }

  /** A promise accounts for every vote of its sender in a lower ballot, unless it hides the slot. */
  ghost predicate Reports(h: History, pr: Promise) {
    forall v :: v in h.votes && v.id == pr.id && v.ballot < pr.ballot ==>
      pr.Hides(v.slot) || (v.slot in pr.log && pr.log[v.slot].ballot >= v.ballot)
  }

  ghost predicate PromiseOk(w: World, pr: Promise) {
    && pr.id in w.replicas && pr.ballot <= w.replicas[pr.id].ballot && Legit(w, pr.ballot)
    && P1b(pr.ballot, pr.id, pr.log) in w.h.sent
    && (forall s :: s in pr.log ==>
          0 != pr.log[s].ballot <= pr.ballot && Proposal(pr.log[s].ballot, s, pr.log[s].command) in w.h.proposed)
    && Reports(w.h, pr)
  }

  ghost predicate PromisesOk(w: World) { forall pr :: pr in w.h.promises ==> PromiseOk(w, pr) }

  ghost predicate CountedOk(w: World) {
    forall c :: c in w.h.counted ==> c.leader in w.cfg.nodes && c.promise in w.h.promises
  }

  ghost predicate ElectionOk(w: World, b: Ballot, acks: set<ID>) {
    && b != 0 && Legit(w, b) && BallotID(b) in w.cfg.nodes && acks <= w.cfg.nodes && |acks| > w.cfg.n() / 2
    && forall q :: q in acks ==> Vouched(w.h, BallotID(b), b, q) && q in w.replicas && b <= w.replicas[q].ballot
  }

  ghost predicate ElectedOk(w: World) {
    forall b :: b in w.h.elected ==> ElectionOk(w, b, w.h.elected[b])
  }

  ghost predicate NoticeOk(w: World, x: Notice) {
    && Legit(w, x.ballot) && (exists d :: d in w.h.decided && d.slot == x.slot)
    && (x.ballot != 0 ==>
          && BallotID(x.ballot) in w.replicas && Done(w.replicas[BallotID(x.ballot)], x.slot)
          && forall y :: y in w.h.proposed && y.ballot == x.ballot && y.slot == x.slot ==>
               exists d :: d in w.h.decided && d.ballot == x.ballot && d.slot == x.slot)
  }

  ghost predicate AnnouncedOk(w: World) { forall x :: x in w.h.announced ==> NoticeOk(w, x) }

  ghost predicate DecisionOk(w: World, d: Decision) {
    && Proposal(d.ballot, d.slot, d.command) in w.h.proposed
    && d.acks <= w.cfg.nodes && |d.acks| > w.cfg.n() / 2
    && forall a :: a in d.acks ==> Vote(a, d.ballot, d.slot) in w.h.votes || Acked(d.ballot, d.slot, a) in w.h.acked
  }

  ghost predicate DecidedOk(w: World) { forall d :: d in w.h.decided ==> DecisionOk(w, d) }

  /** Below x.ballot, nobody who elected it voted for the slot above ballot k. */
  ghost predicate SafeAbove(h: History, x: Proposal, k: Ballot)
    requires x.ballot in h.elected
  {
    && k < x.ballot && (k == 0 || Proposal(k, x.slot, x.command) in h.proposed)
    && forall v :: v in h.votes && v.slot == x.slot && v.id in h.elected[x.ballot] && v.ballot < x.ballot ==>
       v.ballot <= k
  }

  ghost predicate Safe(h: History)
    requires ProposalsOk(h)
  {
    forall x :: x in h.proposed && Complete(h, x.slot) ==> exists k :: SafeAbove(h, x, k)
  }

  ghost predicate NetInv(w: World) {
    && Shape(w) && BallotsOk(w) && ProposalsOk(w.h) && SentOk(w) && VotesNet(w) && PromisesOk(w) && CountedOk(w)
    && ElectedOk(w) && AnnouncedOk(w) && DecidedOk(w) && Safe(w.h)
  }

  ghost predicate Inv(w: World) {
    NetInv(w) && forall id {:trigger RepInv(w.h, w.replicas[id])} :: id in w.replicas ==> RepInv(w.h, w.replicas[id])
  }

  /** u comes later than w: replicas evolved and the record only grew. */
  ghost predicate Later(w: World, u: World) {
    && u.cfg == w.cfg && u.replicas.Keys == w.replicas.Keys
    && (forall id :: id in w.replicas ==> Evolves(w.replicas[id], u.replicas[id]))
    && w.h.sent <= u.h.sent && w.h.proposed <= u.h.proposed && w.h.votes <= u.h.votes
    && w.h.promises <= u.h.promises && w.h.counted <= u.h.counted && w.h.acked <= u.h.acked
    && w.h.decided <= u.h.decided && w.h.announced <= u.h.announced && w.h.adopted <= u.h.adopted
    && (forall b :: b in w.h.elected ==> b in u.h.elected && u.h.elected[b] == w.h.elected[b])
  }

  ghost predicate NewProposal(w: World, u: World, x: Proposal) {
    && x.ballot != 0 && x.ballot in u.h.elected
    && (forall y :: y in u.h.proposed && y.ballot == x.ballot && y.slot == x.slot ==> y == x)
    && (forall n :: n in w.h.announced ==> !(n.ballot == x.ballot && n.slot == x.slot))
    && (Complete(u.h, x.slot) ==> exists k :: SafeAbove(u.h, x, k))
  }

  ghost predicate NewMsgs(w: World, u: World) {
    forall m :: m in u.h.sent && m !in w.h.sent ==> MsgOk(u, m) && Legit(u, m.ballot)
  }

  ghost predicate NewProposals(w: World, u: World) {
    forall x :: x in u.h.proposed && x !in w.h.proposed ==> NewProposal(w, u, x)
  }

  /** Nobody votes below its own ballot. */
  ghost predicate NewVotes(w: World, u: World) {
    forall v :: v in u.h.votes && v !in w.h.votes ==>
      v.id in w.replicas && v.ballot != 0 && v.ballot >= w.replicas[v.id].ballot
  }

  ghost predicate NewPromises(w: World, u: World) {
    forall pr :: pr in u.h.promises && pr !in w.h.promises ==> PromiseOk(u, pr)
  }

  ghost predicate NewCounts(w: World, u: World) {
    forall c :: c in u.h.counted && c !in w.h.counted ==> c.leader in u.cfg.nodes && c.promise in u.h.promises
  }

  ghost predicate NewElections(w: World, u: World) {
    forall b :: b in u.h.elected && b !in w.h.elected ==> ElectionOk(u, b, u.h.elected[b])
  }

  ghost predicate NewNotices(w: World, u: World) {
    forall x :: x in u.h.announced && x !in w.h.announced ==> NoticeOk(u, x)
  }

  ghost predicate NewDecisions(w: World, u: World) {
    forall d :: d in u.h.decided && d !in w.h.decided ==> DecisionOk(u, d)
  }

  ghost predicate BallotsLegit(u: World) {
    forall id {:trigger Legit(u, u.replicas[id].ballot)} :: id in u.replicas ==> Legit(u, u.replicas[id].ballot)
  }

  /** Everything u records beyond w is in order. */
  ghost predicate NewOk(w: World, u: World) {
    && Shape(u) && BallotsLegit(u) && NewMsgs(w, u) && NewProposals(w, u) && NewVotes(w, u) && NewPromises(w, u)
    && NewCounts(w, u) && NewElections(w, u) && NewNotices(w, u) && NewDecisions(w, u)
  }

  lemma LegitLater(w: World, u: World)
    requires Later(w, u)
    ensures forall b :: Legit(w, b) ==> Legit(u, b)
  {
  }

  lemma BackedLater(w: World, u: World)
    requires Later(w, u)
    ensures forall b, s :: Backed(w.h, b, s) ==> Backed(u.h, b, s)
  {
  }

  lemma MsgLater(w: World, u: World, m: Msg)
    requires MsgOk(w, m) && Later(w, u)
    ensures MsgOk(u, m)
  {
    BackedLater(w, u);
  }

  lemma SentLater(w: World, u: World)
    requires SentOk(w) && Later(w, u) && NewMsgs(w, u)
    ensures SentOk(u)
  {
    forall m | m in u.h.sent ensures MsgOk(u, m) {
      if m in w.h.sent { MsgLater(w, u, m); }
    }
  }

  lemma BallotsLater(w: World, u: World)
    requires BallotsOk(w) && Later(w, u) && NewMsgs(w, u) && BallotsLegit(u)
    ensures BallotsOk(u)
  {
    LegitLater(w, u);
  }

  lemma ProposalsLater(w: World, u: World)
    requires ProposalsOk(w.h) && Later(w, u) && NewProposals(w, u)
    ensures ProposalsOk(u.h)
  {
    assert forall x :: x in u.h.proposed && x !in w.h.proposed ==> NewProposal(w, u, x);
  }

  lemma PromisesLater(w: World, u: World)
    requires PromisesOk(w) && Later(w, u) && NewPromises(w, u) && NewVotes(w, u)
    ensures PromisesOk(u)
  {
    LegitLater(w, u);
    forall pr | pr in w.h.promises ensures PromiseOk(u, pr) {
      assert PromiseOk(w, pr);
    }
  }

  lemma ElectionLater(w: World, u: World, b: Ballot, acks: set<ID>)
    requires ElectionOk(w, b, acks) && Later(w, u)
    ensures ElectionOk(u, b, acks)
  {
    LegitLater(w, u);
    forall q | q in acks ensures Vouched(u.h, BallotID(b), b, q) && q in u.replicas && b <= u.replicas[q].ballot {
      assert Vouched(w.h, BallotID(b), b, q);
    }
  }

  lemma ElectedLater(w: World, u: World)
    requires ElectedOk(w) && Later(w, u) && NewElections(w, u)
    ensures ElectedOk(u)
  {
    forall b | b in u.h.elected ensures ElectionOk(u, b, u.h.elected[b]) {
      if b in w.h.elected { ElectionLater(w, u, b, w.h.elected[b]); }
    }
  }

  lemma AnnouncedLater(w: World, u: World)
    requires AnnouncedOk(w) && Later(w, u) && NewNotices(w, u) && NewProposals(w, u)
    ensures AnnouncedOk(u)
  {
    LegitLater(w, u);
    forall x | x in w.h.announced ensures NoticeOk(u, x) {
      assert NoticeOk(w, x);
      forall y | y in u.h.proposed && y !in w.h.proposed ensures !(y.ballot == x.ballot && y.slot == x.slot) {
        assert NewProposal(w, u, y);
      }
    }
  }

  lemma SafeLater(w: World, u: World)
    requires ProposalsOk(w.h) && ProposalsOk(u.h) && Safe(w.h) && ElectedOk(w) && Later(w, u) && NewProposals(w, u)
    requires NewVotes(w, u)
    ensures Safe(u.h)
  {
    forall x | x in w.h.proposed && Complete(u.h, x.slot) ensures exists k :: SafeAbove(u.h, x, k) {
      assert Complete(w.h, x.slot);
      var k :| SafeAbove(w.h, x, k);
      assert ElectionOk(w, x.ballot, w.h.elected[x.ballot]);
      assert SafeAbove(u.h, x, k);
    }
    forall x | x in u.h.proposed && x !in w.h.proposed && Complete(u.h, x.slot)
      ensures exists k :: SafeAbove(u.h, x, k) {
      assert NewProposal(w, u, x);
    }
  }

  lemma DecidedLater(w: World, u: World)
    requires DecidedOk(w) && Later(w, u) && NewDecisions(w, u)
    ensures DecidedOk(u)
  {
    forall d | d in w.h.decided ensures DecisionOk(u, d) {
      assert DecisionOk(w, d);
    }
  }

  lemma VotesLater(w: World, u: World)
    requires Shape(w) && VotesNet(w) && CountedOk(w) && Later(w, u) && NewVotes(w, u) && NewCounts(w, u)
    ensures VotesNet(u) && CountedOk(u)
  {
  }

  lemma NetLater(w: World, u: World)
    requires NetInv(w) && Later(w, u) && NewOk(w, u)
    ensures NetInv(u)
  {
    SentLater(w, u);
    BallotsLater(w, u);
    ProposalsLater(w, u);
    PromisesLater(w, u);
    ElectedLater(w, u);
    AnnouncedLater(w, u);
    DecidedLater(w, u);
    VotesLater(w, u);
    SafeLater(w, u);
  }

  // ---- the small steps keep the invariant ------------------------------------------------------------

  /** Replica id becomes q and the record becomes g. */
  function Turn(w: World, id: ID, q: Replica, g: History): World { w.(replicas := w.replicas[id := q], h := g) }

  lemma TurnTwice(w: World, id: ID, q: Replica, g: History, r: Replica, f: History)
    ensures Turn(Turn(w, id, q, g), id, r, f) == Turn(w, id, r, f)
  {
  }

  lemma InvLater(w: World, id: ID, q: Replica, g: History)
    requires Inv(w) && id in w.replicas
    requires Later(w, Turn(w, id, q, g)) && NewOk(w, Turn(w, id, q, g)) && Grows(w.h, g, id) && RepInv(g, q)
    ensures Inv(Turn(w, id, q, g))
  {
    NetLater(w, Turn(w, id, q, g));
    forall i | i in w.replicas && i != id ensures RepInv(g, w.replicas[i]) {
      OthersKeep(w.h, g, id, w.replicas[i]);
    }
  }

  /** The ballot a step of replica id may end with: its old one, a new one of its own, or one in use. */
  predicate Fits(w: World, id: ID, b: Ballot) {
    id in w.replicas && (b == w.replicas[id].ballot || (b < U64 && (BallotID(b) == id || Legit(w, b))))
  }

  /** h became g without anything being forgotten. */
  ghost predicate Extends(h: History, g: History) {
    && h.sent <= g.sent && h.proposed <= g.proposed && h.votes <= g.votes && h.promises <= g.promises
    && h.counted <= g.counted && h.acked <= g.acked && h.decided <= g.decided
    && h.announced <= g.announced && h.adopted <= g.adopted
    && (forall b :: b in h.elected ==> b in g.elected && g.elected[b] == h.elected[b])
  }

  lemma TurnLater(w: World, id: ID, q: Replica, g: History)
    requires Shape(w) && id in w.replicas && Evolves(w.replicas[id], q) && Extends(w.h, g)
    ensures Later(w, Turn(w, id, q, g)) && Shape(Turn(w, id, q, g))
  {
  }

  lemma TurnLegit(w: World, id: ID, q: Replica, g: History)
    requires Shape(w) && BallotsOk(w) && id in w.replicas && Evolves(w.replicas[id], q) && Extends(w.h, g)
    requires Fits(w, id, q.ballot)
    ensures BallotsLegit(Turn(w, id, q, g))
  {
    var u := Turn(w, id, q, g);
    TurnLater(w, id, q, g);
    assert Legit(w, w.replicas[id].ballot);
    LegitLater(w, u);
    assert Legit(u, q.ballot);
  }

  /** A record that gains notes but no messages, promises or notices. */
  ghost predicate OnlyNotes(h: History, g: History) {
    g.sent == h.sent && g.proposed == h.proposed && g.promises == h.promises && g.announced == h.announced
  }

  lemma NotedNew(w: World, u: World)
    requires Shape(u) && BallotsLegit(u) && OnlyNotes(w.h, u.h)
    requires NewVotes(w, u) && NewCounts(w, u) && NewElections(w, u) && NewDecisions(w, u)
    ensures NewOk(w, u)
  {
  }

  lemma QuietNew(w: World, id: ID, q: Replica)
    requires Shape(w) && BallotsOk(w) && id in w.replicas && Evolves(w.replicas[id], q) && Fits(w, id, q.ballot)
    ensures Later(w, Turn(w, id, q, w.h)) && NewOk(w, Turn(w, id, q, w.h)) && Grows(w.h, w.h, id)
  {
    TurnLater(w, id, q, w.h);
    TurnLegit(w, id, q, w.h);
    NotedNew(w, Turn(w, id, q, w.h));
  }

  lemma QuietStep(w: World, id: ID, q: Replica)
    requires Inv(w) && id in w.replicas && RepInv(w.h, q) && Evolves(w.replicas[id], q) && Fits(w, id, q.ballot)
    ensures Inv(Turn(w, id, q, w.h))
  {
    QuietNew(w, id, q);
    InvLater(w, id, q, w.h);
  }

  /** A message other than P2a and P1b. */
  ghost predicate Plain(w: World, id: ID, m: Msg) {
    && Legit(w, m.ballot)
    && match m
       case P1a(b) => b != 0
       case P2b(_, _, ids) => ids == [id]
       case P3(b, slots) => forall s :: s in slots ==> NoticeOk(w, Notice(b, s))
       case P3RecoverRequest(_, _, _) => true
       case P3RecoverReply(_, _, _) => MsgOk(w, m)
       case _ => false
  }

  function Say(w: World, id: ID, ms: set<Msg>): World
    requires id in w.replicas
  {
    Turn(w, id, w.replicas[id], Record(w.h, id, ms))
  }

  lemma SayLater(w: World, id: ID, ms: set<Msg>)
    requires Shape(w) && id in w.replicas
    ensures Later(w, Say(w, id, ms)) && Shape(Say(w, id, ms))
  {
    TurnLater(w, id, w.replicas[id], Record(w.h, id, ms));
  }

  lemma NoP2a(ms: set<Msg>, id: ID)
    requires forall m :: m in ms ==> !m.P2a?
    ensures Proposals(ms) == {} && SelfVotes(id, ms) == {}
    ensures forall x :: x in Notices(ms) <==> exists m :: m in ms && m.P3? && m.ballot == x.ballot && x.slot in m.slots
  {
  }

  lemma SaidOk(w: World, id: ID, ms: set<Msg>, m: Msg)
    requires m in ms && Plain(w, id, m) && Shape(w) && id in w.replicas
    ensures MsgOk(Say(w, id, ms), m) && Legit(Say(w, id, ms), m.ballot)
  {
    var u := Say(w, id, ms);
    SayLater(w, id, ms);
    LegitLater(w, u);
    BackedLater(w, u);
    if m.P3? {
      forall t | t in m.slots ensures Notice(m.ballot, t) in u.h.announced {
        assert Notice(m.ballot, t) in Notices(ms);
      }
    }
  }

  lemma SayNotices(w: World, id: ID, ms: set<Msg>)
    requires Shape(w) && id in w.replicas && forall m :: m in ms ==> Plain(w, id, m)
    ensures NewNotices(w, Say(w, id, ms))
  {
    var u := Say(w, id, ms);
    NoP2a(ms, id);
    SayLater(w, id, ms);
    LegitLater(w, u);
    forall x | x in u.h.announced && x !in w.h.announced ensures NoticeOk(u, x) {
      var m :| m in ms && m.P3? && m.ballot == x.ballot && x.slot in m.slots;
      assert x == Notice(m.ballot, x.slot);
      assert NoticeOk(w, x);
    }
  }

  lemma SayNew(w: World, id: ID, ms: set<Msg>)
    requires Shape(w) && BallotsOk(w) && id in w.replicas && forall m :: m in ms ==> Plain(w, id, m)
    ensures NewOk(w, Say(w, id, ms)) && Grows(w.h, Record(w.h, id, ms), id)
  {
    var u := Say(w, id, ms);
    NoP2a(ms, id);
    SayNotices(w, id, ms);
    SayLater(w, id, ms);
    TurnLegit(w, id, w.replicas[id], Record(w.h, id, ms));
    forall m | m in u.h.sent && m !in w.h.sent ensures MsgOk(u, m) && Legit(u, m.ballot) {
      SaidOk(w, id, ms, m);
    }
  }

  lemma SameForReplica(h: History, p: Replica, ms: set<Msg>, id: ID)
    requires RepInv(h, p) && forall m :: m in ms ==> !m.P2a?
    ensures RepInv(Record(h, id, ms), p)
  {
    NoP2a(ms, id);
  }

  lemma SayStep(w: World, id: ID, ms: set<Msg>)
    requires Inv(w) && id in w.replicas && forall m :: m in ms ==> Plain(w, id, m)
    ensures Inv(Say(w, id, ms))
  {
    SayNew(w, id, ms);
    SayLater(w, id, ms);
    SameForReplica(w.h, w.replicas[id], ms, id);
    InvLater(w, id, w.replicas[id], Record(w.h, id, ms));
  }

  /** Move quietly, then send one plain message. */
  lemma MoveAndSay(w: World, id: ID, q: Replica, m: Msg)
    requires Inv(w) && id in w.replicas && RepInv(w.h, q) && Evolves(w.replicas[id], q) && Fits(w, id, q.ballot)
    requires Plain(Turn(w, id, q, w.h), id, m)
    ensures Inv(Apply(w, id, Outcome(q, {m})))
  {
    var u := Turn(w, id, q, w.h);
    QuietStep(w, id, q);
    SayStep(u, id, {m});
    TurnTwice(w, id, q, w.h, q, Record(w.h, id, {m}));
  }

  // -- phase 1

  lemma ReplicaLegit(w: World, id: ID)
    requires Shape(w) && BallotsOk(w) && id in w.replicas
    ensures var p := w.replicas[id];
            Legit(w, p.ballot) && p.ballot < U64 && p.id == id && p.cfg == w.cfg && 0 < id < U32
    ensures Fits(w, id, w.replicas[id].ballot) && id in w.cfg.nodes
  {
  }

  lemma RepOf(w: World, id: ID)
    requires Inv(w) && id in w.replicas
    ensures RepInv(w.h, w.replicas[id])
  {
  }

  lemma OwnP1a(w: World, id: ID, q: Replica, h: History)
    requires id in w.replicas && q.ballot != 0 && BallotID(q.ballot) == id && q.ballot < U64
    ensures Plain(Turn(w, id, q, h), id, P1a(q.ballot))
  {
  }

  /** Replica id asks for promises in a ballot of its own. */
  lemma CandidateStep(w: World, id: ID, q: Replica)
    requires Inv(w) && id in w.replicas && RepInv(w.h, q) && Evolves(w.replicas[id], q)
    requires q.ballot != 0 && BallotID(q.ballot) == id && q.ballot < U64
    ensures Inv(Apply(w, id, Outcome(q, {P1a(q.ballot)})))
  {
    OwnP1a(w, id, q, w.h);
    MoveAndSay(w, id, q, P1a(q.ballot));
  }

  lemma StartStep(w: World, id: ID)
    requires Inv(w) && id in w.replicas && !w.replicas[id].active && N(w.replicas[id].ballot) + 1 < U32
    ensures Inv(Apply(w, id, SendP1a(w.replicas[id])))
  {
    ReplicaLegit(w, id);
    RepOf(w, id);
    StartKeeps(w.h, w.replicas[id]);
    NextIsPositive(w.replicas[id].ballot, id);
    CandidateStep(w, id, SendP1a(w.replicas[id]).replica);
  }

  lemma OwnBallotIsPositive(b: Ballot, id: ID)
    requires BallotID(b) == id && id > 0
    ensures b != 0
  {
  }

  lemma NextIsPositive(b: Ballot, id: ID)
    requires b < U64 && N(b) + 1 < U32 && id < U32
    ensures Next(b, id) != 0
  {
    NextExceeds(b, id);
  }

  lemma RetryStep(w: World, id: ID)
    requires Inv(w) && id in w.replicas && IsLeader(w.replicas[id]) && !w.replicas[id].active
    ensures Inv(Apply(w, id, RetryP1a(w.replicas[id])))
  {
    ReplicaLegit(w, id);
    RepOf(w, id);
    RetryKeeps(w.h, w.replicas[id]);
    OwnBallotIsPositive(w.replicas[id].ballot, id);
    CandidateStep(w, id, RetryP1a(w.replicas[id]).replica);
  }

  lemma ForeignBallot(w: World, id: ID, b: Ballot)
    requires Shape(w) && id in w.replicas && Legit(w, b) && b > w.replicas[id].ballot
    ensures BallotID(b) != id && b < U64 && Fits(w, id, b)
  {
  }

  lemma RaiseStep(w: World, id: ID, b: Ballot)
    requires Inv(w) && id in w.replicas && Legit(w, b) && b > w.replicas[id].ballot
    ensures Inv(Turn(w, id, Raise(w.replicas[id], b), w.h))
  {
    ReplicaLegit(w, id);
    ForeignBallot(w, id, b);
    RaiseKeeps(w.h, w.replicas[id], b);
    QuietStep(w, id, Raise(w.replicas[id], b));
  }

  lemma TrivialKeeps(h: History, p: Replica, q: Replica)
    requires RepInv(h, p)
    requires q == p.(requests := q.requests, executeByNode := q.executeByNode, halted := q.halted)
    ensures Evolves(p, q)
    ensures RepInv(h, q)
  {
  }

  lemma TrivialStep(w: World, id: ID, q: Replica)
    requires Inv(w) && id in w.replicas
    requires var p := w.replicas[id];
             q == p.(requests := q.requests, executeByNode := q.executeByNode, halted := q.halted)
    ensures Inv(Turn(w, id, q, w.h))
  {
    ReplicaLegit(w, id);
    TrivialKeeps(w.h, w.replicas[id], q);
    QuietStep(w, id, q);
  }

  lemma PromiseFits(w: World, pr: Promise, p: Replica)
    requires PromisesOk(w) && pr in w.h.promises && pr.ballot <= p.ballot
    ensures PromiseEntries(w.h, p, pr.log) && pr.id in w.replicas
  {
    assert PromiseOk(w, pr);
  }

  lemma UpdateStep(w: World, id: ID, pr: Promise)
    requires Inv(w) && id in w.replicas && pr in w.h.promises && !w.replicas[id].active
    requires pr.ballot <= w.replicas[id].ballot
    ensures Inv(Turn(w, id, Update(w.replicas[id], pr.log), w.h)) && Merged(Update(w.replicas[id], pr.log), pr)
  {
    ReplicaLegit(w, id);
    PromiseFits(w, pr, w.replicas[id]);
    UpdateKeeps(w.h, w.replicas[id], pr.log);
    QuietStep(w, id, Update(w.replicas[id], pr.log));
  }

  lemma NotesNew(w: World, id: ID, q: Replica, g: History)
    requires Shape(w) && BallotsOk(w) && id in w.replicas && Evolves(w.replicas[id], q) && Fits(w, id, q.ballot)
    requires Extends(w.h, g) && OnlyNotes(w.h, g)
    requires var u := Turn(w, id, q, g); NewVotes(w, u) && NewCounts(w, u) && NewElections(w, u) && NewDecisions(w, u)
    ensures Later(w, Turn(w, id, q, g)) && NewOk(w, Turn(w, id, q, g))
  {
    TurnLater(w, id, q, g);
    TurnLegit(w, id, q, g);
    NotedNew(w, Turn(w, id, q, g));
  }

  lemma CountNew(w: World, id: ID, pr: Promise, past: Past, q: Replica)
    requires Shape(w) && BallotsOk(w) && id in w.replicas && pr in w.h.promises && Evolves(w.replicas[id], q)
    requires Fits(w, id, q.ballot)
    ensures var g := NoteCounted(w.h, id, pr, past);
            Later(w, Turn(w, id, q, g)) && NewOk(w, Turn(w, id, q, g)) && Grows(w.h, g, id)
  {
    NotesNew(w, id, q, NoteCounted(w.h, id, pr, past));
  }

  lemma CountStep(w: World, id: ID, pr: Promise, past: Past)
    requires Inv(w) && id in w.replicas && pr in w.h.promises && pr.ballot == w.replicas[id].ballot
    requires BallotID(pr.ballot) == id && Merged(w.replicas[id], pr) && Remembers(w.replicas[id], past)
    ensures Inv(Turn(w, id, CountPromise(w.replicas[id], pr.id), NoteCounted(w.h, id, pr, past)))
  {
    var p := w.replicas[id];
    ReplicaLegit(w, id);
    PromiseFits(w, pr, p);
    CountKeeps(w.h, p, pr, past);
    CountNew(w, id, pr, past, CountPromise(p, pr.id));
    InvLater(w, id, CountPromise(p, pr.id), NoteCounted(w.h, id, pr, past));
  }

  lemma ElectNew(w: World, id: ID)
    requires Shape(w) && BallotsOk(w) && PromisesOk(w) && CountedOk(w) && id in w.replicas
    requires var p := w.replicas[id];
             LeaderOk(w.h, p) && BallotID(p.ballot) == id && p.ballot != 0 && p.quorum.Majority(p.cfg)
    ensures var p := w.replicas[id]; var g := NoteElected(w.h, p.ballot, p.quorum.acks);
            Later(w, Turn(w, id, p, g)) && NewOk(w, Turn(w, id, p, g)) && Grows(w.h, g, id)
  {
    var p := w.replicas[id];
    var g := NoteElected(w.h, p.ballot, p.quorum.acks);
    ReplicaLegit(w, id);
    forall q | q in p.quorum.acks
      ensures Vouched(g, id, p.ballot, q) && q in w.replicas && p.ballot <= w.replicas[q].ballot {
      assert Vouched(w.h, id, p.ballot, q);
      if q != id {
        var c :| c in w.h.counted && c.leader == id && c.promise.id == q && c.promise.ballot == p.ballot;
        assert PromiseOk(w, c.promise);
      }
    }
    NotesNew(w, id, p, g);
  }

  lemma ElectedSame(h: History, p: Replica, b: Ballot, acks: set<ID>)
    requires RepInv(h, p)
    ensures RepInv(NoteElected(h, b, acks), p)
  {
  }

  lemma ElectStep(w: World, id: ID)
    requires Inv(w) && id in w.replicas
    requires var p := w.replicas[id]; BallotID(p.ballot) == id && p.ballot != 0 && p.quorum.Majority(p.cfg)
    ensures var p := w.replicas[id]; Inv(Turn(w, id, p, NoteElected(w.h, p.ballot, p.quorum.acks)))
  {
    var p := w.replicas[id];
    RepOf(w, id);
    ElectNew(w, id);
    ElectedSame(w.h, p, p.ballot, p.quorum.acks);
    InvLater(w, id, p, NoteElected(w.h, p.ballot, p.quorum.acks));
  }

  // -- phase 2

  /** The votes of a leader's electors in lower ballots are all reflected in the leader's log. */
  lemma LeaderCovers(w: World, id: ID, v: Vote)
    requires PromisesOk(w) && CountedOk(w) && ElectedOk(w) && id in w.replicas
    requires var p := w.replicas[id];
             && p.id == id && OwnVotes(w.h, p) && OwnCounts(w.h, p) && BallotID(p.ballot) == id &&
                p.ballot in w.h.elected
             && v.id in w.h.elected[p.ballot] && v.ballot < p.ballot
    requires v in w.h.votes && Complete(w.h, v.slot)
    ensures Covered(w.replicas[id], v.slot, v.ballot)
  {
    var p := w.replicas[id];
    assert ElectionOk(w, p.ballot, w.h.elected[p.ballot]);
    assert Vouched(w.h, id, p.ballot, v.id);
    if v.id != id {
      var c :| c in w.h.counted && c.leader == id && c.promise.id == v.id && c.promise.ballot == p.ballot;
      assert PromiseOk(w, c.promise);
      assert Merged(p, c.promise) && Remembers(p, c.past);
      if !c.past.Has(v.slot) {
        assert v.slot in c.promise.log && c.promise.log[v.slot].ballot >= v.ballot;
      }
    }
  }

  ghost predicate ActiveReady(w: World, id: ID) {
    && id in w.replicas && RepInv(w.h, w.replicas[id]) && w.replicas[id].id == id
    && BallotID(w.replicas[id].ballot) == id && w.replicas[id].ballot != 0 && w.replicas[id].ballot in w.h.elected
  }

  /** A slot the leader proposes again was held with a ballot above which no elector had voted. */
  lemma ReproposedSafe(w: World, id: ID, s: int)
    requires PromisesOk(w) && CountedOk(w) && ElectedOk(w) && ActiveReady(w, id) && Reproposed(w.replicas[id], s)
    requires var p := w.replicas[id]; Proposal(p.ballot, s, p.log[s].command) !in w.h.proposed
    ensures var p := w.replicas[id]; Complete(w.h, s) ==>
              SafeAbove(w.h, Proposal(p.ballot, s, p.log[s].command), p.log[s].ballot)
  {
    var p := w.replicas[id];
    assert EntryOk(w.h, p, s, p.log[s]);
    if Complete(w.h, s) {
      forall v | v in w.h.votes && v.slot == s && v.id in w.h.elected[p.ballot] && v.ballot < p.ballot
        ensures v.ballot <= p.log[s].ballot
      {
        LeaderCovers(w, id, v);
      }
    }
  }

  /** A fresh slot was never voted for by an elector. */
  lemma FreshSafe(w: World, id: ID, c: Command)
    requires PromisesOk(w) && CountedOk(w) && ElectedOk(w) && ActiveReady(w, id)
    ensures var p := w.replicas[id]; Complete(w.h, p.slot + 1) ==> SafeAbove(w.h, Proposal(p.ballot, p.slot + 1, c), 0)
  {
    var p := w.replicas[id];
    var s := p.slot + 1;
    assert s in p.log ==> EntryOk(w.h, p, s, p.log[s]);
    if Complete(w.h, s) {
      forall v | v in w.h.votes && v.slot == s && v.id in w.h.elected[p.ballot] ensures v.ballot >= p.ballot {
        if v.ballot < p.ballot {
          LeaderCovers(w, id, v);
          assert false;
        }
      }
    }
  }

  /** A slot the leader holds uncommitted in its own ballot was proposed there as it stands. */
  lemma NotProposedYet(h: History, p: Replica, s: int, y: Proposal)
    requires RepInv(h, p) && Reproposed(p, s) && ProposalsOk(h) && BallotID(p.ballot) == p.id
    requires y in h.proposed && y.ballot == p.ballot && y.slot == s
    ensures y == Proposal(p.ballot, s, p.log[s].command)
  {
    assert Covered(p, s, p.ballot);
    assert EntryOk(h, p, s, p.log[s]);
  }

  lemma SafeWithOwnVotes(h: History, id: ID, ms: set<Msg>, x: Proposal, k: Ballot)
    requires x.ballot in h.elected && SafeAbove(h, x, k)
    requires forall m :: m in ms && m.P2a? ==> m.ballot == x.ballot
    ensures SafeAbove(Record(h, id, ms), x, k)
  {
  }

  lemma ActivateProposals(w: World, id: ID)
    requires NetInv(w) && ActiveReady(w, id)
    ensures NewProposals(w, Apply(w, id, Activate(w.replicas[id])))
  {
    var p := w.replicas[id];
    var o := Activate(p);
    var u := Apply(w, id, o);
    forall x | x in u.h.proposed && x !in w.h.proposed ensures NewProposal(w, u, x) {
      var m :| m in o.sent && m.P2a? && x == Proposal(m.ballot, m.slot, m.command);
      var s := m.slot;
      assert Reproposed(p, s) && EntryOk(w.h, p, s, p.log[s]);
      forall y | y in u.h.proposed && y.ballot == x.ballot && y.slot == x.slot ensures y == x {
        if y in w.h.proposed {
          NotProposedYet(w.h, p, s, y);
        }
      }
      forall n | n in w.h.announced ensures !(n.ballot == x.ballot && n.slot == x.slot) {
        assert NoticeOk(w, n);
      }
      if Complete(u.h, s) {
        ReproposedSafe(w, id, s);
        SafeWithOwnVotes(w.h, id, o.sent, x, p.log[s].ballot);
      }
    }
  }

  lemma ActivateMsgs(w: World, id: ID)
    requires Shape(w) && BallotsOk(w) && ActiveReady(w, id)
    ensures NewMsgs(w, Apply(w, id, Activate(w.replicas[id])))
  {
    var p := w.replicas[id];
    var o := Activate(p);
    var u := Apply(w, id, o);
    ReplicaLegit(w, id);
    forall m | m in o.sent ensures MsgOk(u, m) && Legit(u, m.ballot) {
      assert Proposal(m.ballot, m.slot, m.command) in u.h.proposed;
    }
  }

  lemma RecordGrows(h: History, id: ID, ms: set<Msg>)
    requires forall m :: m in ms && m.P2a? ==> BallotID(m.ballot) == id
    ensures Grows(h, Record(h, id, ms), id) && Extends(h, Record(h, id, ms))
  {
  }

  /** Moving to q and sending ms is in order when the new proposals, notices and messages are. */
  lemma SpokenNew(w: World, id: ID, q: Replica, ms: set<Msg>, u: World)
    requires Shape(w) && BallotsOk(w) && id in w.replicas && Evolves(w.replicas[id], q) && Fits(w, id, q.ballot)
    requires forall m :: m in ms && m.P2a? ==> BallotID(m.ballot) == id && w.replicas[id].ballot <= m.ballot != 0
    requires u == Apply(w, id, Outcome(q, ms)) && NewProposals(w, u) && NewNotices(w, u) && NewMsgs(w, u)
    ensures Later(w, u) && NewOk(w, u) && Grows(w.h, u.h, id)
  {
    var g := Record(w.h, id, ms);
    RecordGrows(w.h, id, ms);
    TurnLater(w, id, q, g);
    TurnLegit(w, id, q, g);
  }

  lemma ActivateSends(p: Replica)
    ensures forall m :: m in Activate(p).sent ==> m.P2a? && m.ballot == p.ballot && m.p3Slots == []
    ensures Notices(Activate(p).sent) == {}
  {
  }

  lemma ActivateNew(w: World, id: ID)
    requires NetInv(w) && ActiveReady(w, id) && Evolves(w.replicas[id], Activate(w.replicas[id]).replica)
    ensures var o := Activate(w.replicas[id]); var u := Apply(w, id, o);
            Later(w, u) && NewOk(w, u) && Grows(w.h, u.h, id)
  {
    var o := Activate(w.replicas[id]);
    ReplicaLegit(w, id);
    ActivateProposals(w, id);
    ActivateMsgs(w, id);
    ActivateSends(w.replicas[id]);
    SpokenNew(w, id, o.replica, o.sent, Apply(w, id, o));
  }

  lemma ActivateStep(w: World, id: ID)
    requires Inv(w) && id in w.replicas
    requires var p := w.replicas[id]; !p.active && BallotID(p.ballot) == id && p.ballot != 0 && p.ballot in w.h.elected
    ensures Inv(Apply(w, id, Activate(w.replicas[id])))
  {
    var p := w.replicas[id];
    ReplicaLegit(w, id);
    RepOf(w, id);
    ActivateKeeps(w.h, p);
    ActivateNew(w, id);
    InvLater(w, id, Activate(p).replica, Record(w.h, id, Activate(p).sent));
  }

  /** A pending slot was decided in the very ballot it is announced under, if proposed there at all. */
  lemma PendingNotice(w: World, id: ID, s: int)
    requires BallotsOk(w) && DecidedOk(w) && id in w.replicas && RepInv(w.h, w.replicas[id]) && w.replicas[id].id == id
    requires s in w.replicas[id].p3pendingSlots
    ensures NoticeOk(w, Notice(w.replicas[id].p3PendingBallot, s))
  {
    var p := w.replicas[id];
    assert Legit(w, p.ballot);
    assert PendingOk(w.h, p, s);
    var d :| d in w.h.decided && d.slot == s && LastWord(w.h, id, d);
    assert DecisionOk(w, d);
  }

  lemma FreshSlot(w: World, id: ID, x: Proposal)
    requires AnnouncedOk(w) && ActiveReady(w, id) && x.ballot == w.replicas[id].ballot
    requires x.slot == w.replicas[id].slot + 1
    ensures forall y :: y in w.h.proposed ==> !(y.ballot == x.ballot && y.slot == x.slot)
    ensures forall n :: n in w.h.announced ==> !(n.ballot == x.ballot && n.slot == x.slot)
  {
    var p := w.replicas[id];
    forall n | n in w.h.announced ensures !(n.ballot == x.ballot && n.slot == x.slot) {
      assert NoticeOk(w, n);
      assert n.slot in p.log ==> EntryOk(w.h, p, n.slot, p.log[n.slot]);
    }
  }

  lemma ProposeProposals(w: World, id: ID, c: Command)
    requires AnnouncedOk(w) && PromisesOk(w) && CountedOk(w) && ElectedOk(w) && ActiveReady(w, id)
    ensures NewProposals(w, Apply(w, id, Propose(w.replicas[id], c)))
  {
    var p := w.replicas[id];
    var o := Propose(p, c);
    var u := Apply(w, id, o);
    var x := Proposal(p.ballot, p.slot + 1, c);
    ProposeRecords(w.h, p, c);
    if x !in w.h.proposed {
      FreshSlot(w, id, x);
      if Complete(u.h, x.slot) {
        FreshSafe(w, id, c);
        SafeWithOwnVotes(w.h, id, o.sent, x, 0);
      }
    }
  }

  /** A notice the proposal carries stands where it stood. */
  lemma CarriedNotice(w: World, id: ID, u: World, x: Notice)
    requires Shape(w) && BallotsOk(w) && DecidedOk(w) && ActiveReady(w, id) && Later(w, u)
    requires x.ballot == w.replicas[id].p3PendingBallot && x.slot in w.replicas[id].p3pendingSlots
    requires forall y :: y in u.h.proposed && y !in w.h.proposed ==> y.slot > w.replicas[id].slot
    ensures NoticeOk(u, x)
  {
    var p := w.replicas[id];
    PendingNotice(w, id, x.slot);
    LegitLater(w, u);
    assert NoticeOk(w, x);
    assert PendingOk(w.h, p, x.slot);
    assert x.slot in p.log ==> EntryOk(w.h, p, x.slot, p.log[x.slot]);
  }

  lemma ProposeNotices(w: World, id: ID, c: Command)
    requires Shape(w) && BallotsOk(w) && DecidedOk(w) && ActiveReady(w, id)
    requires Evolves(w.replicas[id], Propose(w.replicas[id], c).replica)
    ensures NewNotices(w, Apply(w, id, Propose(w.replicas[id], c)))
  {
    var p := w.replicas[id];
    var o := Propose(p, c);
    var u := Apply(w, id, o);
    TurnLater(w, id, o.replica, Record(w.h, id, o.sent));
    ProposeRecords(w.h, p, c);
    forall x | x in u.h.announced && x !in w.h.announced ensures NoticeOk(u, x) {
      CarriedNotice(w, id, u, x);
    }
  }

  lemma ProposeMsgs(w: World, id: ID, c: Command)
    requires Shape(w) && BallotsOk(w) && ActiveReady(w, id)
    ensures NewMsgs(w, Apply(w, id, Propose(w.replicas[id], c)))
  {
    var p := w.replicas[id];
    var o := Propose(p, c);
    var u := Apply(w, id, o);
    ReplicaLegit(w, id);
    forall m | m in o.sent ensures MsgOk(u, m) && Legit(u, m.ballot) {
      assert Proposal(m.ballot, m.slot, m.command) in u.h.proposed;
      forall t | t in m.p3Slots ensures Notice(m.p3Ballot, t) in u.h.announced {
        assert Notice(m.p3Ballot, t) in Notices(o.sent);
      }
    }
  }

  lemma ProposeNew(w: World, id: ID, c: Command)
    requires NetInv(w) && ActiveReady(w, id) && Evolves(w.replicas[id], Propose(w.replicas[id], c).replica)
    ensures var o := Propose(w.replicas[id], c); var u := Apply(w, id, o);
            Later(w, u) && NewOk(w, u) && Grows(w.h, u.h, id)
  {
    var o := Propose(w.replicas[id], c);
    ReplicaLegit(w, id);
    ProposeProposals(w, id, c);
    ProposeNotices(w, id, c);
    ProposeMsgs(w, id, c);
    SpokenNew(w, id, o.replica, o.sent, Apply(w, id, o));
  }

  lemma ProposeStep(w: World, id: ID, c: Command)
    requires Inv(w) && id in w.replicas && w.replicas[id].active
    ensures Inv(Apply(w, id, Propose(w.replicas[id], c)))
  {
    var p := w.replicas[id];
    ReplicaLegit(w, id);
    RepOf(w, id);
    ProposeKeeps(w.h, p, c);
    ProposeNew(w, id, c);
    InvLater(w, id, Propose(p, c).replica, Record(w.h, id, Propose(p, c).sent));
  }

  // -- retries and notices

  lemma RetryProposed(h: History, p: Replica)
    requires RepInv(h, p)
    ensures forall m :: m in RetryP2a(p).sent ==>
              m.P2a? && m.ballot == p.ballot && m.p3Slots == [] && Proposal(m.ballot, m.slot, m.command) in h.proposed
    ensures Record(h, p.id, RetryP2a(p).sent).proposed == h.proposed
    ensures Notices(RetryP2a(p).sent) == {}
  {
    if p.execute in p.log { assert EntryOk(h, p, p.execute, p.log[p.execute]); }
  }

  lemma RetryP2aKeeps(h: History, p: Replica)
    requires RepInv(h, p)
    ensures RepInv(Record(h, p.id, RetryP2a(p).sent), p)
  {
    RetryProposed(h, p);
  }

  lemma RetryP2aNew(w: World, id: ID)
    requires Shape(w) && BallotsOk(w) && ProposalsOk(w.h) && id in w.replicas && RepInv(w.h, w.replicas[id])
    ensures var o := RetryP2a(w.replicas[id]);
            Later(w, Apply(w, id, o)) && NewOk(w, Apply(w, id, o)) && Grows(w.h, Record(w.h, id, o.sent), id)
  {
    var p := w.replicas[id];
    var o := RetryP2a(p);
    var g := Record(w.h, id, o.sent);
    ReplicaLegit(w, id);
    RetryProposed(w.h, p);
    TurnLater(w, id, p, g);
    TurnLegit(w, id, p, g);
  }

  lemma RetryP2aStep(w: World, id: ID)
    requires Inv(w) && id in w.replicas
    ensures Inv(Apply(w, id, RetryP2a(w.replicas[id])))
  {
    var p := w.replicas[id];
    ReplicaLegit(w, id);
    RepOf(w, id);
    RetryP2aKeeps(w.h, p);
    RetryP2aNew(w, id);
    InvLater(w, id, p, Record(w.h, id, RetryP2a(p).sent));
  }

  lemma PendingPlain(w: World, id: ID)
    requires Shape(w) && BallotsOk(w) && DecidedOk(w) && id in w.replicas && RepInv(w.h, w.replicas[id])
    ensures Plain(w, id, P3(w.replicas[id].p3PendingBallot, w.replicas[id].p3pendingSlots))
  {
    var p := w.replicas[id];
    ReplicaLegit(w, id);
    forall s | s in p.p3pendingSlots ensures NoticeOk(w, Notice(p.p3PendingBallot, s)) {
      PendingNotice(w, id, s);
    }
  }

  /** Send one plain message, then move quietly. */
  lemma SayAndMove(w: World, id: ID, q: Replica, m: Msg)
    requires Inv(w) && id in w.replicas && Plain(w, id, m)
    requires RepInv(w.h, q) && Evolves(w.replicas[id], q) && Fits(w, id, q.ballot)
    ensures Inv(Apply(w, id, Outcome(q, {m})))
  {
    SayStep(w, id, {m});
    SameForPlain(w, id, q, m);
    QuietStep(Say(w, id, {m}), id, q);
    TurnTwice(w, id, w.replicas[id], Record(w.h, id, {m}), q, Record(w.h, id, {m}));
  }

  lemma SameForPlain(w: World, id: ID, q: Replica, m: Msg)
    requires Plain(w, id, m) && id in w.replicas && RepInv(w.h, q) && Fits(w, id, q.ballot)
    ensures RepInv(Record(w.h, id, {m}), q) && Fits(Say(w, id, {m}), id, q.ballot)
  {
    SameForReplica(w.h, q, {m}, id);
  }

  lemma FlushStep(w: World, id: ID)
    requires Inv(w) && id in w.replicas && w.replicas[id].p3PendingBallot > 0
    ensures Inv(Apply(w, id, FlushP3(w.replicas[id])))
  {
    var p := w.replicas[id];
    ReplicaLegit(w, id);
    RepOf(w, id);
    FlushKeeps(w.h, p);
    PendingPlain(w, id);
    SayAndMove(w, id, FlushP3(p).replica, P3(p.p3PendingBallot, p.p3pendingSlots));
  }

  lemma StepDownStep(w: World, id: ID, b: Ballot)
    requires Inv(w) && id in w.replicas && Legit(w, b) && b > w.replicas[id].ballot
    ensures Inv(Apply(w, id, StepDown(w.replicas[id], b)))
  {
    var p := w.replicas[id];
    ReplicaLegit(w, id);
    ForeignBallot(w, id, b);
    RepOf(w, id);
    RaiseKeeps(w.h, p, b);
    PendingPlain(w, id);
    SayAndMove(w, id, StepDown(p, b).replica, P3(p.p3PendingBallot, p.p3pendingSlots));
  }

  // -- accepting, counting votes, committing

  lemma AcceptNew(w: World, id: ID, q: Replica, g: History, b: Ballot)
    requires Shape(w) && BallotsOk(w) && id in w.replicas && Evolves(w.replicas[id], q) && Fits(w, id, q.ballot)
    requires b != 0 && b >= w.replicas[id].ballot
    requires OnlyNotes(w.h, g) && g == w.h.(votes := g.votes, adopted := g.adopted)
    requires w.h.votes <= g.votes && w.h.adopted <= g.adopted
    requires forall v :: v in g.votes && v !in w.h.votes ==> v.id == id && v.ballot == b
    ensures Later(w, Turn(w, id, q, g)) && NewOk(w, Turn(w, id, q, g)) && Grows(w.h, g, id)
  {
    NotesNew(w, id, q, g);
  }

  function AcceptNotes(h: History, p: Replica, b: Ballot, s: int, c: Command): History {
    var g := AdoptionNoted(h, p, b, s);
    if Holds(p, b, s, c) then NoteVote(g, p.id, b, s) else g
  }

  lemma AcceptNotesOnly(h: History, p: Replica, b: Ballot, s: int, c: Command)
    ensures var g := AcceptNotes(h, p, b, s, c);
            && OnlyNotes(h, g) && g == h.(votes := g.votes, adopted := g.adopted)
            && h.votes <= g.votes && h.adopted <= g.adopted
            && forall v :: v in g.votes && v !in h.votes ==> v.id == p.id && v.ballot == b
  {
  }

  lemma AcceptNotesKeep(h: History, p: Replica, b: Ballot, s: int, c: Command, q: Replica)
    requires RepInv(AdoptionNoted(h, p, b, s), q) && q.id == p.id && q.ballot == b
    requires Holds(p, b, s, c) ==> s in q.log && q.log[s].ballot == b
    ensures RepInv(AcceptNotes(h, p, b, s, c), q)
  {
    if Holds(p, b, s, c) { NoteVoteKeeps(AdoptionNoted(h, p, b, s), q, s); }
  }

  lemma AcceptReady(w: World, id: ID, b: Ballot, s: int, c: Command, ge: int)
    requires Shape(w) && BallotsOk(w) && id in w.replicas && RepInv(w.h, w.replicas[id])
    requires b >= w.replicas[id].ballot && b != 0 && Legit(w, b) && Proposal(b, s, c) in w.h.proposed
    ensures var p := w.replicas[id]; var q := Accept(p, b, s, c, ge);
            RepInv(AcceptNotes(w.h, p, b, s, c), q) && Evolves(p, q) && Fits(w, id, q.ballot)
  {
    var p := w.replicas[id];
    ReplicaLegit(w, id);
    if b > p.ballot { ForeignBallot(w, id, b); }
    AcceptKeeps(w.h, p, b, s, c, ge);
    AcceptNotesKeep(w.h, p, b, s, c, Accept(p, b, s, c, ge));
  }

  /** A replica's vote and adoption, whatever its new state, keep the cluster's invariant. */
  lemma AcceptInv(w: World, id: ID, q: Replica, g: History, b: Ballot)
    requires Inv(w) && id in w.replicas && RepInv(g, q) && Evolves(w.replicas[id], q) && Fits(w, id, q.ballot)
    requires b != 0 && b >= w.replicas[id].ballot
    requires OnlyNotes(w.h, g) && g == w.h.(votes := g.votes, adopted := g.adopted)
    requires w.h.votes <= g.votes && w.h.adopted <= g.adopted
    requires forall v :: v in g.votes && v !in w.h.votes ==> v.id == id && v.ballot == b
    ensures Inv(Turn(w, id, q, g))
  {
    AcceptNew(w, id, q, g, b);
    InvLater(w, id, q, g);
  }

  lemma AcceptStep(w: World, id: ID, b: Ballot, s: int, c: Command, ge: int)
    requires Inv(w) && id in w.replicas && b >= w.replicas[id].ballot && b != 0 && Legit(w, b)
    requires Proposal(b, s, c) in w.h.proposed
    ensures Inv(Turn(w, id, Accept(w.replicas[id], b, s, c, ge), AcceptNotes(w.h, w.replicas[id], b, s, c)))
  {
    var p := w.replicas[id];
    ReplicaLegit(w, id);
    RepOf(w, id);
    AcceptReady(w, id, b, s, c, ge);
    AcceptNotesOnly(w.h, p, b, s, c);
    AcceptInv(w, id, Accept(p, b, s, c, ge), AcceptNotes(w.h, p, b, s, c), b);
  }

  lemma CountVotesStep(w: World, id: ID, s: int, ids: seq<ID>)
    requires Inv(w) && id in w.replicas && s in w.replicas[id].log
    requires var e := w.replicas[id].log[s]; e.quorum.Some? && !e.commit
    requires forall a :: a in ids ==> a in w.cfg.nodes
    ensures var p := w.replicas[id]; Inv(Turn(w, id, CountVotes(p, s, ids), NoteAcked(w.h, p.log[s].ballot, s, ids)))
  {
    var p := w.replicas[id];
    var g := NoteAcked(w.h, p.log[s].ballot, s, ids);
    ReplicaLegit(w, id);
    RepOf(w, id);
    CountVotesKeeps(w.h, p, s, ids);
    NotesNew(w, id, CountVotes(p, s, ids), g);
    InvLater(w, id, CountVotes(p, s, ids), g);
  }

  lemma CommitNew(w: World, id: ID, s: int, q: Replica)
    requires Shape(w) && BallotsOk(w) && id in w.replicas && RepInv(w.h, w.replicas[id]) && w.replicas[id].id == id
    requires Evolves(w.replicas[id], q) && Fits(w, id, q.ballot)
    requires s in w.replicas[id].log && w.replicas[id].cfg == w.cfg
    requires var e := w.replicas[id].log[s];
             e.quorum.Some? && !e.commit && BallotID(e.ballot) == id && e.quorum.value.Majority(w.cfg)
    ensures var e := w.replicas[id].log[s]; var g := NoteDecided(w.h, e.ballot, s, e.command, e.quorum.value.acks);
            Later(w, Turn(w, id, q, g)) && NewOk(w, Turn(w, id, q, g)) && Grows(w.h, g, id)
  {
    var p := w.replicas[id];
    var e := p.log[s];
    var d := Decision(e.ballot, s, e.command, e.quorum.value.acks);
    var g := NoteDecided(w.h, e.ballot, s, e.command, e.quorum.value.acks);
    assert EntryOk(w.h, p, s, e);
    assert forall a :: a in d.acks ==> AckOk(w.h, id, e.ballot, s, a);
    assert DecisionOk(Turn(w, id, q, g), d);
    NotesNew(w, id, q, g);
  }

  lemma CommitStep(w: World, id: ID, s: int)
    requires Inv(w) && id in w.replicas && s in w.replicas[id].log
    requires var e := w.replicas[id].log[s];
             e.quorum.Some? && !e.commit && BallotID(e.ballot) == id && e.quorum.value.Majority(w.cfg)
    ensures var p := w.replicas[id]; var e := p.log[s];
            Inv(Turn(w, id, Commit(p, s), NoteDecided(w.h, e.ballot, s, e.command, e.quorum.value.acks)))
  {
    var p := w.replicas[id];
    var e := p.log[s];
    ReplicaLegit(w, id);
    RepOf(w, id);
    CommitKeeps(w.h, p, s);
    CommitNew(w, id, s, Commit(p, s));
    InvLater(w, id, Commit(p, s), NoteDecided(w.h, e.ballot, s, e.command, e.quorum.value.acks));
  }

  /** P3 soundness at the log: an entry of the announced ballot was decided in that ballot. */
  lemma NoticeBacks(w: World, p: Replica, b: Ballot, s: int)
    requires AnnouncedOk(w) && LogOk(w.h, p) && Notice(b, s) in w.h.announced && b != 0
    requires s in p.log && p.log[s].ballot == b
    ensures Backed(w.h, b, s)
    ensures exists d :: d in w.h.decided && d.ballot == b && d.slot == s
  {
    assert EntryOk(w.h, p, s, p.log[s]);
    assert NoticeOk(w, Notice(b, s));
  }

  lemma CommitNoticeReady(w: World, id: ID, b: Ballot, s: int)
    requires AnnouncedOk(w) && id in w.replicas && RepInv(w.h, w.replicas[id]) && Notice(b, s) in w.h.announced
    ensures var p := w.replicas[id]; var o := CommitNotice(p, b, s);
            && RepInv(w.h, o.replica) && Evolves(p, o.replica) && o.replica.ballot == p.ballot
            && (o.sent == {} || o.sent == {P3RecoverRequest(b, s, p.id)})
  {
    var p := w.replicas[id];
    if s in p.log && p.log[s].ballot == b && b != 0 { NoticeBacks(w, p, b, s); }
    CommitNoticeKeeps(w.h, p, b, s);
  }

  lemma EmptyRecord(h: History, id: ID)
    ensures Record(h, id, {}) == h
  {
    assert Proposals({}) == {} && SelfVotes(id, {}) == {} && Notices({}) == {};
  }

  lemma CommitNoticeStep(w: World, id: ID, b: Ballot, s: int)
    requires Inv(w) && id in w.replicas && Notice(b, s) in w.h.announced && Legit(w, b)
    ensures Inv(Apply(w, id, CommitNotice(w.replicas[id], b, s)))
  {
    var o := CommitNotice(w.replicas[id], b, s);
    ReplicaLegit(w, id);
    CommitNoticeReady(w, id, b, s);
    if o.sent == {} {
      QuietStep(w, id, o.replica);
      EmptyRecord(w.h, id);
    } else {
      SayAndMove(w, id, o.replica, P3RecoverRequest(b, s, id));
    }
  }

  lemma ExecuteStep(w: World, id: ID)
    requires Inv(w) && id in w.replicas && Executable(w.replicas[id])
    ensures Inv(Turn(w, id, ExecuteOne(w.replicas[id]), w.h))
  {
    ReplicaLegit(w, id);
    RepOf(w, id);
    ExecuteKeeps(w.h, w.replicas[id]);
    QuietStep(w, id, ExecuteOne(w.replicas[id]));
  }

  lemma RecoverStep(w: World, id: ID, b: Ballot, s: int, c: Command)
    requires Inv(w) && id in w.replicas && P3RecoverReply(b, s, c) in w.h.sent
    ensures Inv(Turn(w, id, Recover(w.replicas[id], b, s, c), w.h))
  {
    ReplicaLegit(w, id);
    RepOf(w, id);
    assert MsgOk(w, P3RecoverReply(b, s, c));
    RecoverKeeps(w.h, w.replicas[id], b, s, c);
    QuietStep(w, id, Recover(w.replicas[id], b, s, c));
  }

  lemma CleanupStep(w: World, id: ID)
    requires Inv(w) && id in w.replicas
    ensures Inv(Turn(w, id, CleanupLog(w.replicas[id]), w.h))
  {
    ReplicaLegit(w, id);
    RepOf(w, id);
    CleanupKeeps(w.h, w.replicas[id]);
    QuietStep(w, id, CleanupLog(w.replicas[id]));
  }

  // ---- every action keeps the invariant ---------------------------------------------------------------

  lemma RecordTwice(h: History, id: ID, a: set<Msg>, b: set<Msg>)
    ensures Record(Record(h, id, a), id, b) == Record(h, id, a + b)
  {
    assert Proposals(a + b) == Proposals(a) + Proposals(b);
    assert SelfVotes(id, a + b) == SelfVotes(id, a) + SelfVotes(id, b);
    assert Notices(a + b) == Notices(a) + Notices(b);
    var x, y := Record(Record(h, id, a), id, b), Record(h, id, a + b);
    assert x.sent == y.sent && x.proposed == y.proposed && x.votes == y.votes && x.announced == y.announced;
  }

  lemma ApplyTwice(w: World, id: ID, o: Outcome, r: Outcome)
    ensures Apply(Apply(w, id, o), id, r) == Apply(w, id, Outcome(r.replica, o.sent + r.sent))
  {
    RecordTwice(w.h, id, o.sent, r.sent);
  }

  lemma AskPlain(w: World, id: ID)
    requires Shape(w) && BallotsOk(w) && id in w.replicas
    ensures forall m :: m in AskForPlaceholder(w.replicas[id]) ==> Plain(w, id, m)
  {
    ReplicaLegit(w, id);
  }

  /** exec as a whole. */
  lemma {:induction false} ExecSteps(w: World, id: ID)
    requires Inv(w) && id in w.replicas
    ensures Inv(Apply(w, id, Exec(w.replicas[id])))
    decreases Pending(w.replicas[id])
  {
    var p := w.replicas[id];
    if Executable(p) {
      var q := ExecuteOne(p);
      var u := Turn(w, id, q, w.h);
      ExecuteStep(w, id);
      assert p.execute in Pending(p) && p.execute !in Pending(q) && Pending(q) <= Pending(p);
      ExecSteps(u, id);
      TurnTwice(w, id, q, w.h, Exec(q).replica, Record(w.h, id, Exec(q).sent));
    } else {
      AskPlain(w, id);
      SayStep(w, id, AskForPlaceholder(p));
    }
  }

  lemma {:induction false} CommitNoticesBallot(p: Replica, b: Ballot, slots: seq<int>)
    ensures CommitNotices(p, b, slots).replica.ballot == p.ballot
    decreases |slots|
  {
    if slots != [] { CommitNoticesBallot(p, b, slots[..|slots| - 1]); }
  }

  lemma StillReady(w: World, id: ID, o: Outcome, b: Ballot, s: int)
    requires id in w.replicas && Legit(w, b) && Notice(b, s) in w.h.announced
    requires o.replica.ballot == w.replicas[id].ballot
    ensures var u := Apply(w, id, o);
            id in u.replicas && u.replicas[id] == o.replica && Legit(u, b) && Notice(b, s) in u.h.announced
  {
  }

  /** Delivering all slots of one P3. */
  lemma {:induction false} CommitNoticesSteps(w: World, id: ID, b: Ballot, slots: seq<int>)
    requires Inv(w) && id in w.replicas && Legit(w, b) && forall s :: s in slots ==> Notice(b, s) in w.h.announced
    ensures Inv(Apply(w, id, CommitNotices(w.replicas[id], b, slots)))
    decreases |slots|
  {
    var p := w.replicas[id];
    if slots == [] {
      NothingApplied(w, id);
    } else {
      var front, s := slots[..|slots| - 1], slots[|slots| - 1];
      CommitNoticesSteps(w, id, b, front);
      var o := CommitNotices(p, b, front);
      CommitNoticesBallot(p, b, front);
      StillReady(w, id, o, b, s);
      CommitNoticeStep(Apply(w, id, o), id, b, s);
      ApplyTwice(w, id, o, CommitNotice(o.replica, b, s));
    }
  }

  lemma NothingApplied(w: World, id: ID)
    requires id in w.replicas
    ensures Apply(w, id, Outcome(w.replicas[id], {})) == w
  {
    EmptyRecord(w.h, id);
  }

  lemma HandleP3Steps(w: World, id: ID, b: Ballot, slots: seq<int>)
    requires Inv(w) && id in w.replicas && Legit(w, b) && forall s :: s in slots ==> Notice(b, s) in w.h.announced
    ensures Inv(Apply(w, id, HandleP3(w.replicas[id], b, slots)))
  {
    var o := CommitNotices(w.replicas[id], b, slots);
    CommitNoticesSteps(w, id, b, slots);
    ExecSteps(Apply(w, id, o), id);
    ApplyTwice(w, id, o, Exec(o.replica));
  }

  lemma {:induction false} ProposeAllSteps(w: World, id: ID, cs: seq<Command>)
    requires Inv(w) && id in w.replicas && w.replicas[id].active
    ensures var o := ProposeAll(w.replicas[id], cs); Inv(Apply(w, id, o)) && o.replica.active
    decreases |cs|
  {
    var p := w.replicas[id];
    if cs == [] {
      NothingApplied(w, id);
    } else {
      var front, c := cs[..|cs| - 1], cs[|cs| - 1];
      ProposeAllSteps(w, id, front);
      var o := ProposeAll(p, front);
      ProposeStep(Apply(w, id, o), id, c);
      ApplyTwice(w, id, o, Propose(o.replica, c));
    }
  }

  lemma RequestStep(w: World, id: ID, c: Command)
    requires Inv(w) && Enabled(w, Request(id, c))
    ensures Inv(Step(w, Request(id, c)))
  {
    var p := w.replicas[id];
    ReplicaLegit(w, id);
    if p.active {
      ProposeStep(w, id, c);
    } else {
      var q := p.(requests := p.requests + [c]);
      TrivialStep(w, id, q);
      var u := Turn(w, id, q, w.h);
      if BallotID(p.ballot) != p.id {
        StartStep(u, id);
        TurnTwice(w, id, q, w.h, SendP1a(q).replica, Record(w.h, id, SendP1a(q).sent));
      } else {
        EmptyRecord(w.h, id);
      }
    }
  }

  lemma PromiseIsOk(w: World, id: ID)
    requires Shape(w) && BallotsOk(w) && id in w.replicas && RepInv(w.h, w.replicas[id]) && w.replicas[id].ballot != 0
    ensures var p := w.replicas[id]; var m := P1b(p.ballot, p.id, Uncommitted(p));
            var u := Turn(w, id, p, Record(NotePromise(w.h, p), id, {m}));
            PromiseOk(u, PromiseOf(p)) && MsgOk(u, m) && Legit(u, m.ballot)
  {
    var p := w.replicas[id];
    var m := P1b(p.ballot, p.id, Uncommitted(p));
    var g := Record(NotePromise(w.h, p), id, {m});
    ReplicaLegit(w, id);
    NoP2a({m}, id);
    assert forall s :: s in Uncommitted(p) ==> EntryOk(w.h, p, s, p.log[s]);
    forall v | v in g.votes && v.id == p.id && v.ballot < p.ballot
      ensures PromiseOf(p).Hides(v.slot) || (v.slot in Uncommitted(p) && Uncommitted(p)[v.slot].ballot >= v.ballot)
    {
      assert Covered(p, v.slot, v.ballot);
    }
    assert Reports(g, PromiseOf(p));
  }

  lemma PromiseNew(w: World, id: ID)
    requires Shape(w) && BallotsOk(w) && id in w.replicas && RepInv(w.h, w.replicas[id]) && w.replicas[id].ballot != 0
    ensures var p := w.replicas[id];
            var g := Record(NotePromise(w.h, p), id, {P1b(p.ballot, p.id, Uncommitted(p))});
            Later(w, Turn(w, id, p, g)) && NewOk(w, Turn(w, id, p, g)) && Grows(w.h, g, id) && RepInv(g, p)
  {
    var p := w.replicas[id];
    var m := P1b(p.ballot, p.id, Uncommitted(p));
    var g := Record(NotePromise(w.h, p), id, {m});
    ReplicaLegit(w, id);
    NoP2a({m}, id);
    TurnLater(w, id, p, g);
    TurnLegit(w, id, p, g);
    PromiseIsOk(w, id);
  }

  lemma PromiseStep(w: World, id: ID)
    requires Inv(w) && id in w.replicas && w.replicas[id].ballot != 0
    ensures var p := w.replicas[id];
            Inv(Turn(w, id, p, Record(NotePromise(w.h, p), id, {P1b(p.ballot, p.id, Uncommitted(p))})))
  {
    var p := w.replicas[id];
    RepOf(w, id);
    PromiseNew(w, id);
    InvLater(w, id, p, Record(NotePromise(w.h, p), id, {P1b(p.ballot, p.id, Uncommitted(p))}));
  }

  lemma TurnedReplica(w: World, id: ID, q: Replica, g: History)
    requires id in w.replicas
    ensures var u := Turn(w, id, q, g); id in u.replicas && u.replicas[id] == q && u.h == g && u.cfg == w.cfg
  {
  }

  lemma P1aRaised(w: World, id: ID, b: Ballot)
    requires Inv(w) && id in w.replicas && Legit(w, b) && b > w.replicas[id].ballot
    ensures var q := Raise(w.replicas[id], b);
            Inv(Turn(w, id, q, Record(NotePromise(w.h, q), id, {P1b(q.ballot, q.id, Uncommitted(q))})))
  {
    var q := Raise(w.replicas[id], b);
    RaiseStep(w, id, b);
    TurnedReplica(w, id, q, w.h);
    PromiseStep(Turn(w, id, q, w.h), id);
    TurnTwice(w, id, q, w.h, q, Record(NotePromise(w.h, q), id, {P1b(q.ballot, q.id, Uncommitted(q))}));
  }

  lemma P1aLegit(w: World, b: Ballot)
    requires SentOk(w) && BallotsOk(w) && P1a(b) in w.h.sent
    ensures Legit(w, b) && b != 0
  {
    var m := P1a(b);
    assert MsgOk(w, m) && Legit(w, m.ballot);
  }

  lemma P1aStep(w: World, id: ID, b: Ballot)
    requires Inv(w) && Enabled(w, DeliverP1a(id, b))
    ensures Inv(Step(w, DeliverP1a(id, b)))
  {
    P1aLegit(w, b);
    if b > w.replicas[id].ballot {
      P1aRaised(w, id, b);
    } else {
      PromiseStep(w, id);
    }
  }

  lemma RaiseCommutes(p: Replica, b: Ballot, log: map<int, CommandBallot>)
    ensures Raise(Update(p, log), b) == Update(Raise(p, b), log)
  {
  }

  lemma PromiseLegit(w: World, pr: Promise)
    requires PromisesOk(w) && pr in w.h.promises
    ensures Legit(w, pr.ballot)
  {
    assert PromiseOk(w, pr);
  }

  /** A promise of a higher ballot: the replica takes over its entries and its ballot. */
  lemma RaiseMergeStep(w: World, id: ID, pr: Promise)
    requires Inv(w) && id in w.replicas && pr in w.h.promises && pr.ballot > w.replicas[id].ballot
    ensures var q := Raise(Update(w.replicas[id], pr.log), pr.ballot); Inv(Turn(w, id, q, w.h)) && Merged(q, pr)
  {
    var p := w.replicas[id];
    var r := Raise(p, pr.ballot);
    PromiseLegit(w, pr);
    RaiseStep(w, id, pr.ballot);
    TurnedReplica(w, id, r, w.h);
    UpdateStep(Turn(w, id, r, w.h), id, pr);
    RaiseCommutes(p, pr.ballot, pr.log);
    TurnTwice(w, id, r, w.h, Update(r, pr.log), w.h);
  }

  /** Q1 fires: elect, propose again, propose the waiting requests. */
  lemma LeadStep(w: World, id: ID)
    requires Inv(w) && id in w.replicas
    requires var p := w.replicas[id]; !p.active && BallotID(p.ballot) == id && p.ballot != 0 && p.quorum.Majority(p.cfg)
    ensures var p := w.replicas[id]; var g := NoteElected(w.h, p.ballot, p.quorum.acks);
            var a := Activate(p); var r := ProposeAll(a.replica, p.requests);
            Inv(Turn(w, id, r.replica.(requests := []), Record(g, id, a.sent + r.sent)))
  {
    var p := w.replicas[id];
    var g := NoteElected(w.h, p.ballot, p.quorum.acks);
    var a := Activate(p);
    ElectStep(w, id);
    TurnedReplica(w, id, p, g);
    LeadElected(Turn(w, id, p, g), id);
    var r := ProposeAll(a.replica, p.requests);
    TurnTwice(w, id, p, g, r.replica.(requests := []), Record(g, id, a.sent + r.sent));
  }

  lemma LeadElected(w: World, id: ID)
    requires Inv(w) && id in w.replicas
    requires var p := w.replicas[id]; !p.active && BallotID(p.ballot) == id && p.ballot != 0 && p.ballot in w.h.elected
    ensures var p := w.replicas[id]; var a := Activate(p); var r := ProposeAll(a.replica, p.requests);
            Inv(Turn(w, id, r.replica.(requests := []), Record(w.h, id, a.sent + r.sent)))
  {
    var p := w.replicas[id];
    var a := Activate(p);
    var r := ProposeAll(a.replica, p.requests);
    ActivateStep(w, id);
    TurnedReplica(w, id, a.replica, Record(w.h, id, a.sent));
    ProposeAllSteps(Apply(w, id, a), id, p.requests);
    ApplyTwice(w, id, a, r);
    var g := Record(w.h, id, a.sent + r.sent);
    TurnedReplica(w, id, r.replica, g);
    var t := r.replica.(requests := []);
    TrivialStep(Turn(w, id, r.replica, g), id, t);
    TurnTwice(w, id, r.replica, g, t, g);
  }

  /** The world the acknowledging branch of HandleP1b leads to. */
  function Acknowledged(w: World, id: ID, q: Replica, pr: Promise, past: Past): World {
    var counted := CountPromise(q, pr.id);
    var g := NoteCounted(w.h, id, pr, past);
    if !counted.quorum.Majority(q.cfg) then Turn(w, id, counted, g)
    else
      var a := Activate(counted);
      var r := ProposeAll(a.replica, q.requests);
      Turn(w, id, r.replica.(requests := []),
           Record(NoteElected(g, q.ballot, counted.quorum.acks), id, a.sent + r.sent))
  }

  /** The acknowledgement at the end of HandleP1b, once the promise is merged. */
  lemma AckStep(w: World, id: ID, pr: Promise, past: Past)
    requires Inv(w) && id in w.replicas && pr in w.h.promises && pr.ballot == w.replicas[id].ballot
    requires !w.replicas[id].active
    requires BallotID(pr.ballot) == id && Merged(w.replicas[id], pr) && Remembers(w.replicas[id], past)
    ensures Inv(Acknowledged(w, id, w.replicas[id], pr, past))
  {
    var q := w.replicas[id];
    var counted := CountPromise(q, pr.id);
    var g := NoteCounted(w.h, id, pr, past);
    CountStep(w, id, pr, past);
    TurnedReplica(w, id, counted, g);
    PromiseNonzero(w, pr);
    if counted.quorum.Majority(q.cfg) {
      LeadStep(Turn(w, id, counted, g), id);
      var a := Activate(counted);
      var r := ProposeAll(a.replica, q.requests);
      TurnTwice(w, id, counted, g, r.replica.(requests := []),
                Record(NoteElected(g, q.ballot, counted.quorum.acks), id, a.sent + r.sent));
    }
  }

  lemma PromiseNonzero(w: World, pr: Promise)
    requires Shape(w) && PromisesOk(w) && pr in w.h.promises && BallotID(pr.ballot) in w.replicas
    ensures pr.ballot != 0
  {
  }

  lemma MergeShape(w: World, id: ID, pr: Promise)
    requires id in w.replicas && w.replicas[id].id == id && pr.ballot >= w.replicas[id].ballot && !w.replicas[id].active
    requires BallotID(pr.ballot) != id
    ensures var p := w.replicas[id]; var merged := Update(p, pr.log);
            Step(w, DeliverP1b(id, pr)) ==
              Turn(w, id, if pr.ballot > p.ballot then Raise(merged, pr.ballot) else merged, w.h)
  {
    EmptyRecord(w.h, id);
  }

  lemma MergeOnly(w: World, id: ID, pr: Promise)
    requires Inv(w) && Enabled(w, DeliverP1b(id, pr)) && pr.ballot >= w.replicas[id].ballot && !w.replicas[id].active
    requires BallotID(pr.ballot) != id
    ensures Inv(Step(w, DeliverP1b(id, pr)))
  {
    ReplicaLegit(w, id);
    MergeShape(w, id, pr);
    if pr.ballot > w.replicas[id].ballot {
      RaiseMergeStep(w, id, pr);
    } else {
      UpdateStep(w, id, pr);
    }
  }

  lemma AcknowledgedTwice(w: World, id: ID, q: Replica, pr: Promise, past: Past)
    ensures Acknowledged(Turn(w, id, q, w.h), id, q, pr, past) == Acknowledged(w, id, q, pr, past)
  {
  }

  lemma P1bShape(w: World, id: ID, pr: Promise)
    requires id in w.replicas && w.replicas[id].id == id && pr.ballot == w.replicas[id].ballot && !w.replicas[id].active
    requires BallotID(pr.ballot) == id
    ensures Step(w, DeliverP1b(id, pr)) ==
            Acknowledged(w, id, Update(w.replicas[id], pr.log), pr, PastOf(w.replicas[id]))
  {
    EmptyRecord(NoteCounted(w.h, id, pr, PastOf(w.replicas[id])), id);
  }

  lemma UpdateRemembers(p: Replica, log: map<int, CommandBallot>)
    ensures Remembers(Update(p, log), PastOf(p))
  {
  }

  lemma MergeAndAck(w: World, id: ID, pr: Promise)
    requires Inv(w) && Enabled(w, DeliverP1b(id, pr)) && pr.ballot == w.replicas[id].ballot && !w.replicas[id].active
    requires BallotID(pr.ballot) == id
    ensures Inv(Step(w, DeliverP1b(id, pr)))
  {
    var q := Update(w.replicas[id], pr.log);
    ReplicaLegit(w, id);
    UpdateStep(w, id, pr);
    TurnedReplica(w, id, q, w.h);
    UpdateRemembers(w.replicas[id], pr.log);
    AckStep(Turn(w, id, q, w.h), id, pr, PastOf(w.replicas[id]));
    AcknowledgedTwice(w, id, q, pr, PastOf(w.replicas[id]));
    P1bShape(w, id, pr);
  }

  lemma P1bStep(w: World, id: ID, pr: Promise)
    requires Inv(w) && Enabled(w, DeliverP1b(id, pr))
    ensures Inv(Step(w, DeliverP1b(id, pr)))
  {
    PromiseLegit(w, pr);
    if pr.ballot < w.replicas[id].ballot || w.replicas[id].active {
      NothingApplied(w, id);
    } else if BallotID(pr.ballot) != id {
      MergeOnly(w, id, pr);
    } else {
      if pr.ballot > w.replicas[id].ballot { ForeignBallot(w, id, pr.ballot); }
      MergeAndAck(w, id, pr);
    }
  }

  // -- P2a

  lemma P2aFacts(w: World, m: Msg)
    requires SentOk(w) && BallotsOk(w) && AnnouncedOk(w) && m in w.h.sent && m.P2a?
    ensures m.ballot != 0 && Legit(w, m.ballot) && Proposal(m.ballot, m.slot, m.command) in w.h.proposed
    ensures forall t :: t in m.p3Slots ==> Notice(m.p3Ballot, t) in w.h.announced
    ensures |m.p3Slots| > 0 ==> Legit(w, m.p3Ballot)
  {
    assert MsgOk(w, m);
    if |m.p3Slots| > 0 {
      assert m.p3Slots[0] in m.p3Slots;
      assert NoticeOk(w, Notice(m.p3Ballot, m.p3Slots[0]));
    }
  }

  lemma AnswerPlain(w: World, id: ID, s: int)
    requires Shape(w) && BallotsOk(w) && id in w.replicas
    ensures Plain(w, id, P2b(w.replicas[id].ballot, s, [id]))
  {
    ReplicaLegit(w, id);
  }

  /** The answer goes out and the carried notices are handled. */
  lemma AnswerStep(w: World, id: ID, s: int, pb: Ballot, ps: seq<int>)
    requires Inv(w) && id in w.replicas && (|ps| > 0 ==> Legit(w, pb))
    requires forall t :: t in ps ==> Notice(pb, t) in w.h.announced
    ensures var q := w.replicas[id]; var a := Outcome(q, {P2b(q.ballot, s, [id])});
            var r := if |ps| > 0 then HandleP3(q, pb, ps) else Outcome(q, {});
            Inv(Apply(w, id, Outcome(r.replica, a.sent + r.sent)))
  {
    var q := w.replicas[id];
    var a := Outcome(q, {P2b(q.ballot, s, [id])});
    AnswerPlain(w, id, s);
    SayStep(w, id, a.sent);
    var u := Apply(w, id, a);
    TurnedReplica(w, id, q, Record(w.h, id, a.sent));
    if |ps| > 0 {
      StillReady(w, id, a, pb, ps[0]);
      HandleP3Steps(u, id, pb, ps);
      ApplyTwice(w, id, a, HandleP3(q, pb, ps));
    } else {
      assert a.sent + {} == a.sent;
    }
  }

  lemma AnswerTurned(w: World, id: ID, q: Replica, g: History, s: int, pb: Ballot, ps: seq<int>)
    requires id in w.replicas && Inv(Turn(w, id, q, g)) && (|ps| > 0 ==> Legit(Turn(w, id, q, g), pb))
    requires forall t :: t in ps ==> Notice(pb, t) in g.announced
    ensures var a := Outcome(q, {P2b(q.ballot, s, [id])});
            var r := if |ps| > 0 then HandleP3(q, pb, ps) else Outcome(q, {});
            Inv(Turn(w, id, r.replica, Record(g, id, a.sent + r.sent)))
  {
    var a := Outcome(q, {P2b(q.ballot, s, [id])});
    var r := if |ps| > 0 then HandleP3(q, pb, ps) else Outcome(q, {});
    TurnedReplica(w, id, q, g);
    AnswerStep(Turn(w, id, q, g), id, s, pb, ps);
    TurnTwice(w, id, q, g, r.replica, Record(g, id, a.sent + r.sent));
  }

  lemma P2aShape(w: World, id: ID, m: Msg)
    requires id in w.replicas && w.replicas[id].id == id && m.P2a?
    ensures var p := w.replicas[id];
            var q := if m.ballot >= p.ballot then Accept(p, m.ballot, m.slot, m.command, m.globalExecute) else p;
            var g := if m.ballot >= p.ballot then AcceptNotes(w.h, p, m.ballot, m.slot, m.command) else w.h;
            var r := if |m.p3Slots| > 0 then HandleP3(q, m.p3Ballot, m.p3Slots) else Outcome(q, {});
            Step(w, DeliverP2a(id, m)) == Turn(w, id, r.replica, Record(g, id, {P2b(q.ballot, m.slot, [id])} + r.sent))
  {
  }

  lemma AcceptLegit(w: World, id: ID, m: Msg, b: Ballot)
    requires id in w.replicas && Legit(w, b) && m.P2a? && m.ballot >= w.replicas[id].ballot
    ensures var p := w.replicas[id];
            Legit(Turn(w, id, Accept(p, m.ballot, m.slot, m.command, m.globalExecute),
                       AcceptNotes(w.h, p, m.ballot, m.slot, m.command)), b)
    ensures AcceptNotes(w.h, w.replicas[id], m.ballot, m.slot, m.command).announced == w.h.announced
  {
  }

  lemma P2aStep(w: World, id: ID, m: Msg)
    requires Inv(w) && Enabled(w, DeliverP2a(id, m))
    ensures Inv(Step(w, DeliverP2a(id, m)))
  {
    var p := w.replicas[id];
    ReplicaLegit(w, id);
    P2aFacts(w, m);
    P2aShape(w, id, m);
    if m.ballot >= p.ballot {
      AcceptStep(w, id, m.ballot, m.slot, m.command, m.globalExecute);
      AcceptLegit(w, id, m, m.ballot);
      if |m.p3Slots| > 0 { AcceptLegit(w, id, m, m.p3Ballot); }
      AnswerTurned(w, id, Accept(p, m.ballot, m.slot, m.command, m.globalExecute),
                   AcceptNotes(w.h, p, m.ballot, m.slot, m.command), m.slot, m.p3Ballot, m.p3Slots);
    } else {
      AnswerStep(w, id, m.slot, m.p3Ballot, m.p3Slots);
    }
  }

  // -- P2b

  lemma P2bFacts(w: World, a: Action)
    requires Shape(w) && SentOk(w) && BallotsOk(w) && a.DeliverP2b? && Enabled(w, a)
    ensures Legit(w, a.ballot) && forall q :: q in a.ids ==> q in w.cfg.nodes
  {
    forall q | q in a.ids ensures q in w.cfg.nodes {
      if q != a.id { assert MsgOk(w, P2b(a.ballot, a.slot, [q])); }
    }
  }

  lemma NoVotes(h: History, p: Replica, s: int)
    requires LogOk(h, p) && s in p.log && !p.log[s].commit
    ensures p.log[s].ballot <= p.ballot && p.log[s].ballot != 0
  {
    assert EntryOk(h, p, s, p.log[s]);
  }

  /** The world after votes were counted, and perhaps a commit. */
  lemma TallyStep(w: World, id: ID, s: int, ids: seq<ID>)
    requires Inv(w) && id in w.replicas && s in w.replicas[id].log
    requires CountsVotes(w.replicas[id], s, w.replicas[id].log[s].ballot) && forall a :: a in ids ==> a in w.cfg.nodes
    ensures var p := w.replicas[id]; var e := p.log[s]; var v := CountVotes(p, s, ids);
            var g := NoteAcked(w.h, e.ballot, s, ids);
            var t := e.quorum.value.AckAll(ids);
            if !t.Majority(p.cfg) then Inv(Turn(w, id, v, g))
            else var x := Exec(Commit(v, s));
              Inv(Turn(w, id, x.replica, Record(NoteDecided(g, e.ballot, s, e.command, t.acks), id, x.sent)))
  {
    var p := w.replicas[id];
    var e := p.log[s];
    var v := CountVotes(p, s, ids);
    var g := NoteAcked(w.h, e.ballot, s, ids);
    var t := e.quorum.value.AckAll(ids);
    ReplicaLegit(w, id);
    CountVotesStep(w, id, s, ids);
    if t.Majority(p.cfg) {
      var g2 := NoteDecided(g, e.ballot, s, e.command, t.acks);
      TurnedReplica(w, id, v, g);
      CommitStep(Turn(w, id, v, g), id, s);
      TurnTwice(w, id, v, g, Commit(v, s), g2);
      TurnedReplica(w, id, Commit(v, s), g2);
      ExecSteps(Turn(w, id, Commit(v, s), g2), id);
      TurnTwice(w, id, Commit(v, s), g2, Exec(Commit(v, s)).replica, Record(g2, id, Exec(Commit(v, s)).sent));
    }
  }

  lemma P2bTallyShape(w: World, id: ID, s: int, b: Ballot, ids: seq<ID>)
    requires id in w.replicas && w.replicas[id].id == id && CountsVotes(w.replicas[id], s, b)
    requires b <= w.replicas[id].ballot
    ensures var p := w.replicas[id]; var e := p.log[s]; var v := CountVotes(p, s, ids);
            var g := NoteAcked(w.h, b, s, ids);
            var t := e.quorum.value.AckAll(ids); var u := Step(w, DeliverP2b(id, s, b, ids));
            if !t.Majority(p.cfg) then u == Turn(w, id, v, g)
            else var x := Exec(Commit(v, s));
              u == Turn(w, id, x.replica, Record(NoteDecided(g, b, s, e.command, t.acks), id, x.sent))
  {
    var p := w.replicas[id];
    var v := CountVotes(p, s, ids);
    EmptyRecord(NoteAcked(w.h, b, s, ids), id);
    var x := Exec(Commit(v, s));
    assert {} + x.sent == x.sent;
  }

  lemma P2bOtherShape(w: World, id: ID, s: int, b: Ballot, ids: seq<ID>)
    requires id in w.replicas && w.replicas[id].id == id && !CountsVotes(w.replicas[id], s, b)
    ensures var p := w.replicas[id]; var u := Step(w, DeliverP2b(id, s, b, ids));
            if s !in p.log || b < p.log[s].ballot || p.log[s].commit then u == w
            else if b > p.ballot && p.log[s].ballot < b then u == Apply(w, id, StepDown(p, b))
            else b <= p.ballot ==> u == w || u == Turn(w, id, p.(halted := true), w.h)
  {
    EmptyRecord(w.h, id);
  }

  lemma P2bStep(w: World, a: Action)
    requires Inv(w) && a.DeliverP2b? && Enabled(w, a)
    ensures Inv(Step(w, a))
  {
    var p := w.replicas[a.id];
    ReplicaLegit(w, a.id);
    P2bFacts(w, a);
    RepOf(w, a.id);
    if a.slot in p.log && !p.log[a.slot].commit { NoVotes(w.h, p, a.slot); }
    if CountsVotes(p, a.slot, a.ballot) {
      TallyStep(w, a.id, a.slot, a.ids);
      P2bTallyShape(w, a.id, a.slot, a.ballot, a.ids);
    } else {
      P2bOtherShape(w, a.id, a.slot, a.ballot, a.ids);
      if a.ballot > p.ballot { StepDownStep(w, a.id, a.ballot); }
      TrivialStep(w, a.id, p.(halted := true));
    }
  }

  // -- P3 and recovery

  lemma P3Facts(w: World, b: Ballot, slots: seq<int>)
    requires SentOk(w) && BallotsOk(w) && P3(b, slots) in w.h.sent
    ensures Legit(w, b) && forall s :: s in slots ==> Notice(b, s) in w.h.announced
  {
    var m := P3(b, slots);
    assert MsgOk(w, m) && Legit(w, m.ballot);
  }

  lemma RecoveryPlain(w: World, id: ID, s: int)
    requires Shape(w) && BallotsOk(w) && ProposalsOk(w.h) && ElectedOk(w) && id in w.replicas
    requires RepInv(w.h, w.replicas[id])
    requires s in w.replicas[id].log && w.replicas[id].log[s].commit
    ensures var e := w.replicas[id].log[s]; Plain(w, id, P3RecoverReply(e.ballot, s, e.command))
  {
    var e := w.replicas[id].log[s];
    assert EntryOk(w.h, w.replicas[id], s, e);
    if e.ballot != 0 {
      assert ElectionOk(w, e.ballot, w.h.elected[e.ballot]);
    }
  }

  lemma RecoverRequestStep(w: World, id: ID, s: int)
    requires Inv(w) && id in w.replicas
    ensures Inv(Apply(w, id, HandleRecoverRequest(w.replicas[id], s)))
  {
    var p := w.replicas[id];
    RepOf(w, id);
    var a := Outcome(p, if s in p.log && p.log[s].commit then {P3RecoverReply(p.log[s].ballot, s, p.log[s].command)}
                     else {});
    if s in p.log && p.log[s].commit { RecoveryPlain(w, id, s); }
    SayStep(w, id, a.sent);
    TurnedReplica(w, id, p, Record(w.h, id, a.sent));
    ExecSteps(Apply(w, id, a), id);
    ApplyTwice(w, id, a, Exec(p));
  }

  lemma RecoverReplyStep(w: World, id: ID, b: Ballot, s: int, c: Command)
    requires Inv(w) && id in w.replicas && P3RecoverReply(b, s, c) in w.h.sent
    ensures Inv(Apply(w, id, HandleRecoverReply(w.replicas[id], b, s, c)))
  {
    var q := Recover(w.replicas[id], b, s, c);
    RecoverStep(w, id, b, s, c);
    TurnedReplica(w, id, q, w.h);
    ExecSteps(Turn(w, id, q, w.h), id);
    TurnTwice(w, id, q, w.h, Exec(q).replica, Record(w.h, id, Exec(q).sent));
  }

  /** Every action keeps the invariant. */
  lemma StepKeepsInv(w: World, a: Action)
    requires Inv(w) && Enabled(w, a)
    ensures Inv(Step(w, a))
  {
    var p := w.replicas[a.id];
    match a {
      case Request(id, c) => RequestStep(w, id, c);
      case TimeoutP1(id) =>
        if p.active { NothingApplied(w, id); } else { RetryStep(w, id); }
      case TimeoutP2(id) => RetryP2aStep(w, id);
      case TimeoutP3(id) =>
        if p.p3PendingBallot > 0 { FlushStep(w, id); } else { NothingApplied(w, id); }
      case Cleanup(id) =>
        CleanupStep(w, id);
        EmptyRecord(w.h, id);
      case LastExecute(id, node, value) =>
        TrivialStep(w, id, UpdateLastExecute(p, node, value));
        EmptyRecord(w.h, id);
      case DeliverP1a(id, b) => P1aStep(w, id, b);
      case DeliverP1b(id, pr) => P1bStep(w, id, pr);
      case DeliverP2a(id, m) => P2aStep(w, id, m);
      case DeliverP2b(_, _, _, _) => P2bStep(w, a);
      case DeliverP3(id, b, slots) =>
        P3Facts(w, b, slots);
        HandleP3Steps(w, id, b, slots);
      case DeliverRecoverRequest(id, s) => RecoverRequestStep(w, id, s);
      case DeliverRecoverReply(id, b, s, c) => RecoverReplyStep(w, id, b, s, c);
    }
  }

  lemma InitReplica(id: ID, cfg: Config, multiversion: bool)
    ensures RepInv(NO_HISTORY, NewPigPaxos(id, cfg, multiversion))
  {
    assert NO_ACKS.zones.Keys == (set a | a in NO_ACKS.acks :: Zone(a));
  }

  lemma InitInv(cfg: Config, multiversion: bool)
    requires ConfigOk(cfg)
    ensures Inv(Init(cfg, multiversion))
  {
    var w := Init(cfg, multiversion);
    forall id | id in w.replicas ensures RepInv(w.h, w.replicas[id]) {
      InitReplica(id, cfg, multiversion);
    }
    assert Shape(w) && BallotsOk(w);
  }

  lemma {:induction false} RunKeepsInv(w: World, actions: seq<Action>)
    requires Inv(w) && IsRun(w, actions)
    ensures Inv(After(w, actions))
    decreases |actions|
  {
    if actions != [] {
      StepKeepsInv(w, actions[0]);
      RunKeepsInv(Step(w, actions[0]), actions[1..]);
    }
  }

  lemma ReachableInv(w: World)
    requires ConfigOk(w.cfg) && Reachable(w)
    ensures Inv(w)
  {
    var multiversion, actions :|
      IsRun(Init(w.cfg, multiversion), actions) && w == After(Init(w.cfg, multiversion), actions);
    InitInv(w.cfg, multiversion);
    RunKeepsInv(Init(w.cfg, multiversion), actions);
  }
}
