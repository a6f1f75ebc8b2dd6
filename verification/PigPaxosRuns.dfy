// Runs of a PigPaxos cluster: replicas, a growing set of sent messages that may be lost,
// duplicated, reordered or delivered to anyone, and a record of what has happened so far.
//
// A run is a list of actions; each action is one handler or timer of pigpaxos.go executed
// atomically at one replica.

module PigPaxosRuns {
  import opened Ballots
  import opened Quorums
  import opened Store
  import opened Options
  import opened PigPaxosLog

  // ---- what a run records -----------------------------------------------------------------

  /** A P2a for this ballot, slot and command was sent. */
  datatype Proposal = Proposal(ballot: Ballot, slot: int, command: Command)

  /** The replica held the proposal of this ballot in this slot when it answered (or sent) its P2a. */
  datatype Vote = Vote(id: ID, ballot: Ballot, slot: int)

  /** The slots a replica had executed or committed at some moment. */
  datatype Past = Past(execute: int, committed: set<int>)
  {
    predicate Has(s: int) { s < execute || s in committed }
  }

  /** A P1b, with what its sender knew but left out: HandleP1a skips executed and committed slots. */
  datatype Promise = Promise(ballot: Ballot, id: ID, log: map<int, CommandBallot>, past: Past)
  {
    predicate Hides(s: int) { past.Has(s) }
  }

  /** The leader acknowledged this promise in its ballot, knowing this past itself. */
  datatype Counted = Counted(leader: ID, promise: Promise, past: Past)
  {
    /** The promise leaves out a slot that its reader does not know to be settled either. */
    predicate Blind(s: int) { promise.Hides(s) && !past.Has(s) }
  }

  /** The leader's quorum for this ballot and slot was given the ack of this id. */
  datatype Acked = Acked(ballot: Ballot, slot: int, id: ID)

  /** The leader saw a Q2 quorum for this proposal. */
  datatype Decision = Decision(ballot: Ballot, slot: int, command: Command, acks: set<ID>)

  /** A P3 (alone or inside a P2a) announced this slot under this ballot. */
  datatype Notice = Notice(ballot: Ballot, slot: int)

  /** A committed placeholder took the command of a P2a of this ballot. */
  datatype Adoption = Adoption(ballot: Ballot, slot: int)

  datatype History = History(
    sent: set<Msg>,
    proposed: set<Proposal>,
    votes: set<Vote>,
    promises: set<Promise>,
    counted: set<Counted>,
    elected: map<Ballot, set<ID>>,   // the acks with which a ballot's leader first passed Q1
    acked: set<Acked>,
    decided: set<Decision>,
    announced: set<Notice>,
    adopted: set<Adoption>)

  datatype World = World(cfg: Config, replicas: map<ID, Replica>, h: History)

  const NO_HISTORY := History({}, {}, {}, {}, {}, map[], {}, {}, {}, {})

  function Init(cfg: Config, multiversion: bool): World {
    World(cfg, map id | id in cfg.nodes :: NewPigPaxos(id, cfg, multiversion), NO_HISTORY)
  }

  // ---- recording ----------------------------------------------------------------------------

  function Proposals(ms: set<Msg>): set<Proposal> {
    set m | m in ms && m.P2a? :: Proposal(m.ballot, m.slot, m.command)
  }

  function SelfVotes(id: ID, ms: set<Msg>): set<Vote> {
    set m | m in ms && m.P2a? :: Vote(id, m.ballot, m.slot)
  }

  function Notices(ms: set<Msg>): set<Notice> {
    (set m, s | m in ms && m.P3? && s in m.slots :: Notice(m.ballot, s)) +
    (set m, s | m in ms && m.P2a? && s in m.p3Slots :: Notice(m.p3Ballot, s))
  }

  function Record(h: History, id: ID, ms: set<Msg>): History {
    h.(sent := h.sent + ms, proposed := h.proposed + Proposals(ms),
       votes := h.votes + SelfVotes(id, ms), announced := h.announced + Notices(ms))
  }

  /** Replica id moves on as a handler says, and its messages go out. */
  function Apply(w: World, id: ID, o: Outcome): World {
    w.(replicas := w.replicas[id := o.replica], h := Record(w.h, id, o.sent))
  }

  function PastOf(p: Replica): Past { Past(p.execute, set s | s in p.log.Keys && p.log[s].commit) }

  function PromiseOf(p: Replica): Promise { Promise(p.ballot, p.id, Uncommitted(p), PastOf(p)) }

  function NotePromise(h: History, p: Replica): History { h.(promises := h.promises + {PromiseOf(p)}) }

  function NoteVote(h: History, id: ID, b: Ballot, s: int): History { h.(votes := h.votes + {Vote(id, b, s)}) }

  function NoteAdoption(h: History, b: Ballot, s: int): History { h.(adopted := h.adopted + {Adoption(b, s)}) }

  function AdoptionNoted(h: History, p: Replica, b: Ballot, s: int): History {
    if s in p.log && p.log[s].commit && p.log[s].ballot == 0 then NoteAdoption(h, b, s) else h
  }

  function NoteCounted(h: History, leader: ID, pr: Promise, past: Past): History {
    h.(counted := h.counted + {Counted(leader, pr, past)})
  }

  function NoteElected(h: History, b: Ballot, acks: set<ID>): History {
    if b in h.elected then h else h.(elected := h.elected[b := acks])
  }

  function NoteAcked(h: History, b: Ballot, s: int, ids: seq<ID>): History {
    h.(acked := h.acked + set id | id in ids :: Acked(b, s, id))
  }

  function NoteDecided(h: History, b: Ballot, s: int, c: Command, acks: set<ID>): History {
    h.(decided := h.decided + {Decision(b, s, c, acks)})
  }

  // ---- steps of the cluster -----------------------------------------------------------------------

  datatype Action =
    | Request(id: ID, command: Command)
    | TimeoutP1(id: ID)
    | TimeoutP2(id: ID)
    | TimeoutP3(id: ID)
    | Cleanup(id: ID)
    | LastExecute(id: ID, node: ID, value: int)
    | DeliverP1a(id: ID, ballot: Ballot)
    | DeliverP1b(id: ID, promise: Promise)
    | DeliverP2a(id: ID, msg: Msg)
    | DeliverP2b(id: ID, slot: int, ballot: Ballot, ids: seq<ID>)
    | DeliverP3(id: ID, ballot: Ballot, slots: seq<int>)
    | DeliverRecoverRequest(id: ID, slot: int)
    | DeliverRecoverReply(id: ID, ballot: Ballot, slot: int, command: Command)

  /** The promise was made, and its P1b sent. */
  predicate Given(h: History, pr: Promise) { pr in h.promises && P1b(pr.ballot, pr.id, pr.log) in h.sent }

  /**
   * What may happen next.  Only messages that were sent are delivered.  HandleP2b is handed
   * ids by the relay layer: each must have sent its own P2b for that ballot and slot or be the
   * leader itself, and the ballot must be one some message carries (a relay's nack has no ids).
   * A node stays within the 32-bit ballot counter, and a node that has died takes no step.
   */
  ghost predicate Enabled(w: World, a: Action) {
    a.id in w.replicas && !w.replicas[a.id].halted &&
    var p := w.replicas[a.id];
    match a
    case Request(_, _) => !p.active && BallotID(p.ballot) != p.id ==> N(p.ballot) + 1 < U32
    case TimeoutP1(_) => IsLeader(p)
    case DeliverP1a(_, b) => P1a(b) in w.h.sent
    case DeliverP1b(_, pr) => Given(w.h, pr)
    case DeliverP2a(_, m) => m in w.h.sent && m.P2a?
    case DeliverP2b(_, s, b, ids) =>
      (forall q :: q in ids ==> q == a.id || P2b(b, s, [q]) in w.h.sent) && exists m :: m in w.h.sent && m.ballot == b
    case DeliverP3(_, b, slots) => P3(b, slots) in w.h.sent
    case DeliverRecoverRequest(_, s) => exists m :: m in w.h.sent && m.P3RecoverRequest? && m.slot == s
    case DeliverRecoverReply(_, b, s, c) => P3RecoverReply(b, s, c) in w.h.sent
    case _ => true
  }

  ghost function Outcomes(p: Replica, a: Action): Outcome {
    match a
    case Request(_, c) => HandleRequest(p, c)
    case TimeoutP1(_) => RetryP1a(p)
    case TimeoutP2(_) => RetryP2a(p)
    case TimeoutP3(_) => FlushP3(p)
    case Cleanup(_) => Outcome(CleanupLog(p), {})
    case LastExecute(_, node, value) => Outcome(UpdateLastExecute(p, node, value), {})
    case DeliverP1a(_, b) => HandleP1a(p, b)
    case DeliverP1b(_, pr) => HandleP1b(p, pr.ballot, pr.id, pr.log)
    case DeliverP2a(_, m) =>
      if m.P2a? then HandleP2a(p, m.ballot, m.slot, m.command, m.globalExecute, m.p3Ballot, m.p3Slots)
      else Outcome(p, {})
    case DeliverP2b(_, s, b, ids) => HandleP2b(p, s, b, ids)
    case DeliverP3(_, b, slots) => HandleP3(p, b, slots)
    case DeliverRecoverRequest(_, s) => HandleRecoverRequest(p, s)
    case DeliverRecoverReply(_, b, s, c) => HandleRecoverReply(p, b, s, c)
  }

  predicate Counts(p: Replica, pr: Promise) {
    !(pr.ballot < p.ballot || p.active) && BallotID(pr.ballot) == p.id
  }

  /** After its update of the log the replica really holds what the P2a proposes. */
  predicate Holds(p: Replica, b: Ballot, s: int, c: Command) {
    b >= p.ballot && Accept(p, b, s, c, 0).log[s].ballot == b
  }

  predicate CountsVotes(p: Replica, s: int, b: Ballot) {
    s in p.log && !p.log[s].commit && p.log[s].ballot == b && BallotID(b) == p.id && p.log[s].quorum.Some?
  }

  /** What an action adds to the record besides its messages. */
  function Notes(h: History, p: Replica, a: Action): History {
    match a
    case DeliverP1a(_, b) => NotePromise(h, if b > p.ballot then Raise(p, b) else p)
    case DeliverP1b(_, pr) =>
      if !Counts(p, pr) then h
      else
        var g := NoteCounted(h, p.id, pr, PastOf(p));
        var acks := p.quorum.Ack(pr.id);
        if acks.Majority(p.cfg) then NoteElected(g, pr.ballot, acks.acks) else g
    case DeliverP2a(_, m) =>
      if !m.P2a? || m.ballot < p.ballot then h
      else
        var g := AdoptionNoted(h, p, m.ballot, m.slot);
        if Holds(p, m.ballot, m.slot, m.command) then NoteVote(g, p.id, m.ballot, m.slot) else g
    case DeliverP2b(_, s, b, ids) =>
      if !CountsVotes(p, s, b) then h
      else
        var g := NoteAcked(h, b, s, ids);
        var acks := p.log[s].quorum.value.AckAll(ids);
        if acks.Majority(p.cfg) then NoteDecided(g, b, s, p.log[s].command, acks.acks) else g
    case _ => h
  }

  ghost function Step(w: World, a: Action): World
    requires a.id in w.replicas
  {
    var p := w.replicas[a.id];
    Apply(w.(h := Notes(w.h, p, a)), a.id, Outcomes(p, a))
  }

  ghost predicate IsRun(w: World, actions: seq<Action>)
    decreases |actions|
  {
    actions == [] || (Enabled(w, actions[0]) && IsRun(Step(w, actions[0]), actions[1..]))
  }

  ghost function After(w: World, actions: seq<Action>): World
    requires IsRun(w, actions)
    decreases |actions|
  {
    if actions == [] then w else After(Step(w, actions[0]), actions[1..])
  }

  /** An action moves the replica that takes it, and nothing that was sent is lost. */
  lemma Moves(w: World, a: Action)
    requires a.id in w.replicas
    ensures var u, o := Step(w, a), Outcomes(w.replicas[a.id], a);
            u.cfg == w.cfg && u.replicas == w.replicas[a.id := o.replica] && w.h.sent <= u.h.sent && o.sent <= u.h.sent
  {
  }

  /** Some run leads from w to v. */
  ghost predicate Reaches(w: World, v: World) { exists run :: IsRun(w, run) && After(w, run) == v }

  lemma ReachesItself(w: World)
    ensures Reaches(w, w)
  {
    assert IsRun(w, []) && After(w, []) == w;
  }

  lemma IsRunFrom(w: World, a: Action, rest: seq<Action>)
    requires Enabled(w, a) && IsRun(Step(w, a), rest)
    ensures IsRun(w, [a] + rest) && After(w, [a] + rest) == After(Step(w, a), rest)
  {
    assert ([a] + rest)[1..] == rest;
  }

  /** One action, and then what can be reached from there. */
  lemma Then(w: World, a: Action, v: World)
    requires Enabled(w, a) && Reaches(Step(w, a), v)
    ensures Reaches(w, v)
  {
    var rest :| IsRun(Step(w, a), rest) && After(Step(w, a), rest) == v;
    IsRunFrom(w, a, rest);
  }

  /** What is reached from what is reached. */
  lemma Joins(w: World, u: World, v: World)
    requires Reaches(w, u) && Reaches(u, v)
    ensures Reaches(w, v)
  {
    var run :| IsRun(w, run) && After(w, run) == u;
    JoinsRun(w, run, v);
  }

  lemma {:induction false} JoinsRun(w: World, run: seq<Action>, v: World)
    requires IsRun(w, run) && Reaches(After(w, run), v)
    ensures Reaches(w, v)
    decreases |run|
  {
    if run != [] {
      JoinsRun(Step(w, run[0]), run[1..], v);
      Then(w, run[0], v);
    }
  }

  // ---- what a step adds to the record ----------------------------------------------------------------

  /** From h to g nothing is lost, and whatever is new comes from action a at replica p. */
  ghost predicate Added(h: History, p: Replica, a: Action, g: History) {
    && h.votes <= g.votes
    && (forall pr :: pr in g.promises && pr !in h.promises ==> a.DeliverP1a? && pr.past == PastOf(p))
    && (forall c :: c in g.counted && c !in h.counted ==> a.DeliverP1b? && c.promise == a.promise)
    && (forall k :: k in g.acked && k !in h.acked ==>
          && a.DeliverP2b? && CountsVotes(p, a.slot, a.ballot)
          && k.ballot == a.ballot && k.slot == a.slot && k.id in a.ids)
    && h.decided <= g.decided
    && (forall d :: d in g.decided && d !in h.decided ==>
          && a.DeliverP2b? && CountsVotes(p, a.slot, a.ballot) && d.ballot == a.ballot && d.slot == a.slot
          && p.log[a.slot].quorum.value.AckAll(a.ids).Majority(p.cfg))
    && (forall k :: k in g.adopted && k !in h.adopted ==>
          && a.DeliverP2a? && a.msg.P2a? && k.slot == a.msg.slot
          && k.slot in p.log && p.log[k.slot].commit && p.log[k.slot].ballot == 0)
  }

  lemma NotesAdd(h: History, p: Replica, a: Action)
    ensures Added(h, p, a, Notes(h, p, a)) && Notes(h, p, a).sent == h.sent
  {
  }

  lemma RecordAdds(h: History, p: Replica, a: Action, g: History, id: ID, ms: set<Msg>)
    requires Added(h, p, a, g)
    ensures Added(h, p, a, Record(g, id, ms)) && Record(g, id, ms).sent == g.sent + ms
  {
  }

  lemma StepAdds(w: World, a: Action, u: World)
    requires a.id in w.replicas && u == Step(w, a)
    ensures var p := w.replicas[a.id]; Added(w.h, p, a, u.h) && u.h.sent == w.h.sent + Outcomes(p, a).sent
  {
    var p := w.replicas[a.id];
    NotesAdd(w.h, p, a);
    RecordAdds(w.h, p, a, Notes(w.h, p, a), a.id, Outcomes(p, a).sent);
  }

  // ---- conditions on runs -----------------------------------------------------------------------------

  /** A Q2 quorum was counted for s in a ballot no higher than b. */
  ghost predicate Grounded(h: History, b: Ballot, s: int) {
    exists d :: d in h.decided && d.slot == s && d.ballot <= b
  }

  /** No leader counted a promise that was blind for slot s. */
  ghost predicate Complete(h: History, s: int) {
    forall c :: c in h.counted ==> !c.Blind(s)
  }

  /** Every ack a leader counted for slot s came from a replica that really held the proposal. */
  ghost predicate VotesGenuine(h: History, s: int) {
    forall k :: k in h.acked && k.slot == s ==> Vote(k.id, k.ballot, s) in h.votes
  }

  /** Every placeholder of slot s took its command from a ballot no lower than one that decided it. */
  ghost predicate AdoptionsGrounded(h: History, s: int) {
    forall k :: k in h.adopted && k.slot == s ==> Grounded(h, k.ballot, s)
  }

  ghost predicate SafeSlot(h: History, s: int) { Complete(h, s) && VotesGenuine(h, s) && AdoptionsGrounded(h, s) }

  // ---- reachable worlds -------------------------------------------------------------------------------

  ghost predicate ConfigOk(cfg: Config) { forall id :: id in cfg.nodes ==> 0 < id < U32 }

  /** A world some run of some configuration reaches. */
  ghost predicate Reachable(w: World) {
    exists multiversion, actions ::
      IsRun(Init(w.cfg, multiversion), actions) && w == After(Init(w.cfg, multiversion), actions)
  }

  lemma RunReaches(cfg: Config, multiversion: bool, actions: seq<Action>)
    requires IsRun(Init(cfg, multiversion), actions)
    ensures Reachable(After(Init(cfg, multiversion), actions))
  {
    RunKeepsConfig(Init(cfg, multiversion), actions);
  }

  lemma ReachedFromStart(cfg: Config, multiversion: bool, w: World)
    requires Reaches(Init(cfg, multiversion), w)
    ensures Reachable(w)
  {
    var run :| IsRun(Init(cfg, multiversion), run) && After(Init(cfg, multiversion), run) == w;
    RunReaches(cfg, multiversion, run);
  }

  lemma {:induction false} RunKeepsConfig(w: World, actions: seq<Action>)
    requires IsRun(w, actions)
    ensures After(w, actions).cfg == w.cfg
    decreases |actions|
  {
    if actions != [] { RunKeepsConfig(Step(w, actions[0]), actions[1..]); }
  }
}
