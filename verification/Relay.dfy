// Relays of layerpaxos/replica.go: a relay collects the votes of its group for a slot, sends the
// leader the ids that are missing, and the leader rebuilds the voters from them.

module Relays {
  import opened Ballots
  import Fanout
  import opened Sequences
  import Sets

  // ---- removing ids by swapping with the last ------------------------------------------------------

  function IndexOf(s: seq<ID>, id: ID): (i: nat)
    requires id in s
    ensures i < |s| && s[i] == id && forall j :: 0 <= j < i ==> s[j] != id
  {
    if s[0] == id then 0 else 1 + IndexOf(s[1..], id)
  }

  /** The first occurrence of id makes way for the last element. */
  function SwapRemove(s: seq<ID>, id: ID): seq<ID> {
    if id in s then s[IndexOf(s, id) := s[|s| - 1]][..|s| - 1] else s
  }

  function SwapRemoveAll(s: seq<ID>, ids: seq<ID>): seq<ID>
    decreases |ids|
  {
    if ids == [] then s else SwapRemove(SwapRemoveAll(s, ids[..|ids| - 1]), ids[|ids| - 1])
  }

  lemma SwapRemoveCounts(s: seq<ID>, id: ID)
    ensures multiset(SwapRemove(s, id)) == multiset(s) - multiset{id}
  {
    if id in s {
      var i, n := IndexOf(s, id), |s| - 1;
      var t := s[i := s[n]];
      assert s == s[..n] + [s[n]];
      assert SwapRemove(s, id) == t[..n];
      if i < n {
        assert t[..n] == s[..n][i := s[n]];
        assert multiset(t[..n]) == multiset(s[..n]) - multiset{id} + multiset{s[n]};
      } else {
        assert t[..n] == s[..n];
      }
    } else {
      assert multiset(s)[id] == 0;
    }
  }

  lemma {:induction false} SwapRemoveAllCounts(s: seq<ID>, ids: seq<ID>)
    ensures multiset(SwapRemoveAll(s, ids)) == multiset(s) - multiset(ids)
    decreases |ids|
  {
    if ids != [] {
      var front, last := ids[..|ids| - 1], ids[|ids| - 1];
      SwapRemoveAllCounts(s, front);
      SwapRemoveCounts(SwapRemoveAll(s, front), last);
      assert ids == front + [last];
      assert multiset(ids) == multiset(front) + multiset{last};
    }
  }

  /** What is left of a duplicate-free list is duplicate-free, and is exactly what was not removed. */
  lemma SwapRemoveAllMembers(s: seq<ID>, ids: seq<ID>)
    requires Distinct(s)
    ensures Distinct(SwapRemoveAll(s, ids))
    ensures forall id :: id in SwapRemoveAll(s, ids) <==> id in s && id !in ids
  {
    SwapRemoveAllCounts(s, ids);
    DistinctCounts(s);
    DistinctCounts(SwapRemoveAll(s, ids));
    forall id ensures id in SwapRemoveAll(s, ids) <==> id in s && id !in ids {
      assert id in SwapRemoveAll(s, ids) <==> multiset(SwapRemoveAll(s, ids))[id] > 0;
      assert id in s <==> multiset(s)[id] > 0;
      assert id in ids <==> multiset(ids)[id] > 0;
    }
  }

  /** The voters the leader reads off a list of missing ids. */
  function Rebuilt(group: seq<ID>, missing: seq<ID>): seq<ID> {
    if missing == [] then group else SwapRemoveAll(group, missing)
  }

  /** Removing voters and then removing what is left gives the voters back, whatever the list of votes. */
  lemma RebuildUndoes(group: seq<ID>, voted: seq<ID>)
    requires Distinct(group)
    ensures var r := Rebuilt(group, SwapRemoveAll(group, voted));
            Distinct(r) && forall id :: id in r <==> id in group && id in voted
  {
    var missing := SwapRemoveAll(group, voted);
    SwapRemoveAllMembers(group, voted);
    SwapRemoveAllMembers(group, missing);
    if missing == [] {
      forall id | id in group ensures id in voted {
        assert id !in missing;
      }
    }
  }

  /** Search a[..n] for id; if it is there, move the last element into its place and shorten by one. */
  method SwapRemoveInPlace(a: array<ID>, n: nat, id: ID) returns (m: nat)
    requires n <= a.Length
    modifies a
    ensures m <= n && a[..m] == SwapRemove(old(a[..n]), id)
  {
    ghost var s := a[..n];
    for i := 0 to n
      invariant a[..n] == s && forall j :: 0 <= j < i ==> a[j] != id
    {
      if a[i] == id {
        FirstIndex(s, id, i);
        a[i] := a[n - 1];
        assert a[..n] == s[i := s[n - 1]];
        a[n - 1] := 0;
        m := n - 1;
        assert a[..m] == s[i := s[n - 1]][..m];
        return;
      }
    }
    m := n;
  }

  lemma FirstIndex(s: seq<ID>, id: ID, i: nat)
    requires i < |s| && s[i] == id && forall j :: 0 <= j < i ==> s[j] != id
    ensures IndexOf(s, id) == i
  {
  }

  /** A copy of the group without these ids: the relay's missing ids, and the leader's voters. */
  method Subtract(group: seq<ID>, ids: seq<ID>) returns (rest: seq<ID>)
    ensures rest == SwapRemoveAll(group, ids)
  {
    var a := new ID[|group|](i requires 0 <= i < |group| => group[i]);
    assert a[..] == group;
    var n := a.Length;
    for k := 0 to |ids|
      invariant 0 <= n <= a.Length && a[..n] == SwapRemoveAll(group, ids[..k])
    {
      assert ids[..k + 1][..k] == ids[..k];
      n := SwapRemoveInPlace(a, n, ids[k]);
    }
    assert ids[..|ids|] == ids;
    rest := a[..n];
  }

  // ---- a relay as a value -----------------------------------------------------------------------------

  /** The relay groups every node derives from the configuration, and the index back into them. */
  datatype Layout = Layout(groups: seq<seq<ID>>, groupOf: map<ID, nat>)
  {
    /** A Go map yields 0 for an id it does not hold. */
    function GroupOf(id: ID): nat { if id in groupOf then groupOf[id] else 0 }

    ghost predicate Valid() {
      && groups != []
      && (forall g :: 0 <= g < |groups| ==> Distinct(groups[g]))
      && (forall id :: id in groupOf ==> groupOf[id] < |groups|)
      && forall g, id :: 0 <= g < |groups| ==> (id in groups[g] <==> id in groupOf && groupOf[id] == g)
    }
  }

  /** Where a relay sits; small says that it answers with missing ids rather than voters. */
  datatype Place = Place(id: ID, layout: Layout, myGroup: nat, small: bool)
  {
    ghost predicate Valid() { layout.Valid() && myGroup < |layout.groups| && id in layout.groups[myGroup] }

    function Group(): seq<ID> { if myGroup < |layout.groups| then layout.groups[myGroup] else [] }
  }

  /** The votes gathered for one slot, and the route of the P2a that asked for them. */
  datatype Collecting = Collecting(hops: seq<ID>, progress: nat, ballot: Ballot, ids: seq<ID>, since: int)
  {
    predicate Routable() { progress < |hops| }

    function LastProgressHop(): ID { if Routable() then hops[progress] else 0 }
  }

  datatype Reply =
    | Aggregated(to: ID, ballot: Ballot, slot: int, relay: ID, lastExecute: int, missing: seq<ID>)
    | Votes(to: ID, ballot: Ballot, slot: int, ids: seq<ID>)
    | Routed(to: ID, route: Collecting, slot: int)
    | Nack(to: ID, ballot: Ballot, slot: int)
    | Accepting(replyTo: ID, ballot: Ballot, slot: int)   // HandleP2a, whose answer goes to this node

  datatype State = State(relays: map<int, Collecting>, sent: set<Reply>)

  const IDLE := State(map[], {})

  datatype Event =
    | Proposed(now: int, ballot: Ballot, slot: int, hops: seq<ID>, progress: nat)
    | Voted(lastExecute: int, ballot: Ballot, slot: int, ids: seq<ID>)
    | Ticked(lastExecute: int, cutoff: int)
  {
    /** A P2a that has come down to the leaves. */
    predicate AtLeaf() { Proposed? && progress + 1 == Fanout.MAX_DEPTH }

    /** The hop this P2a came from, to which an answer is owed. */
    function Sender(): ID
      requires Proposed?
    {
      if progress < |hops| then hops[progress] else 0
    }
  }

  /** newP2bRelay */
  function Open(s: State, e: Event): State
    requires e.Proposed?
  {
    s.(relays := s.relays[e.slot := Collecting(e.hops, e.progress, e.ballot, [], e.now)])
  }

  /** Above the leaves a relay collects; both refusals go to the owner of the ballot being collected. */
  function Collect(s: State, e: Event): State
    requires e.Proposed?
  {
    if e.slot !in s.relays then Open(s, e)
    else
      var c := s.relays[e.slot];
      if c.ballot < e.ballot then Open(s.(sent := s.sent + {Nack(BallotID(c.ballot), e.ballot, e.slot)}), e)
      else if c.ballot > e.ballot then s.(sent := s.sent + {Nack(BallotID(c.ballot), c.ballot, e.slot)})
      else s
  }

  /** handleP2aRelay: a leaf's answer goes back the way the P2a came, a relay's to its own collection. */
  function OnProposed(p: Place, s: State, e: Event): State
    requires e.Proposed?
  {
    if e.AtLeaf() then
      var back := Collecting(e.hops, e.progress, e.ballot, [], e.now).LastProgressHop();
      s.(sent := s.sent + {Accepting(back, e.ballot, e.slot)})
    else
      var t := Collect(s, e);
      t.(sent := t.sent + {Accepting(p.id, e.ballot, e.slot)})
  }

  predicate Ready(p: Place, c: Collecting) {
    || |c.ids| == |p.Group()| / 2 + 1
    || (|c.ids| == |p.Group()| / 2 && p.layout.GroupOf(BallotID(c.ballot)) == p.myGroup)
  }

  function Answer(p: Place, c: Collecting, slot: int, lastExecute: int): Reply {
    if c.progress != 0 then Routed(c.LastProgressHop(), c, slot)
    else if p.small
    then Aggregated(c.LastProgressHop(), c.ballot, slot, p.id, lastExecute, SwapRemoveAll(p.Group(), c.ids))
    else Votes(c.LastProgressHop(), c.ballot, slot, c.ids)
  }

  /** handleP2bRelay */
  function OnVoted(p: Place, s: State, e: Event): State
    requires e.Voted?
  {
    if e.slot !in s.relays then s
    else
      var c := s.relays[e.slot];
      if c.ballot != e.ballot then s.(sent := s.sent + {Nack(BallotID(c.ballot), e.ballot, e.slot)})
      else
        var d := c.(ids := c.ids + e.ids);
        if Ready(p, d) then State(s.relays - {e.slot}, s.sent + {Answer(p, d, e.slot, e.lastExecute)})
        else s.(relays := s.relays[e.slot := d])
  }

  /** The ticker answers for every slot that has waited too long. */
  function OnTicked(p: Place, s: State, e: Event): State
    requires e.Ticked?
  {
    State(map k | k in s.relays && s.relays[k].since >= e.cutoff :: s.relays[k],
          s.sent + set k | k in s.relays && s.relays[k].since < e.cutoff :: Answer(p, s.relays[k], k, e.lastExecute))
  }

  function OnEvent(p: Place, s: State, e: Event): State {
    match e
    case Proposed(_, _, _, _, _) => OnProposed(p, s, e)
    case Voted(_, _, _, _) => OnVoted(p, s, e)
    case Ticked(_, _) => OnTicked(p, s, e)
  }

  function Run(p: Place, es: seq<Event>): State
    decreases |es|
  {
    if es == [] then IDLE else OnEvent(p, Run(p, es[..|es| - 1]), es[|es| - 1])
  }

  // ---- what the leader reads is what the relay heard ----------------------------------------------------

  /** handleP2bAggregated: the ids the leader counts. */
  function Voters(layout: Layout, m: Reply): seq<ID>
    requires m.Aggregated? && layout.GroupOf(m.relay) < |layout.groups|
  {
    Rebuilt(layout.groups[layout.GroupOf(m.relay)], m.missing)
  }

  /** The ids in the P2bs of this slot and ballot that came in after event j and before event k. */
  ghost function Heard(es: seq<Event>, j: int, k: int, slot: int, ballot: Ballot): set<ID>
    requires 0 <= j && k <= |es|
  {
    set i, id | j < i < k && es[i].Voted? && es[i].slot == slot && es[i].ballot == ballot && id in es[i].ids :: id
  }

  ghost predicate OpensAt(es: seq<Event>, j: int, slot: int, ballot: Ballot) {
    0 <= j < |es| && es[j].Proposed? && es[j].slot == slot && es[j].ballot == ballot
  }

  /** The votes in c are exactly those heard since the P2a at j, and c keeps the route of that P2a. */
  ghost predicate Since(es: seq<Event>, j: int, k: int, slot: int, c: Collecting) {
    && OpensAt(es, j, slot, c.ballot) && !es[j].AtLeaf() && j < k <= |es|
    && (set id | id in c.ids) == Heard(es, j, k, slot, c.ballot)
    && c.hops == es[j].hops && c.progress == es[j].progress && c.since == es[j].now
  }

  /** m tells the leader, or the next hop on the way to it, about slot. */
  predicate Answers(m: Reply, slot: int) { (m.Aggregated? || m.Votes? || m.Routed?) && m.slot == slot }

  /**
   * m was sent at event k - 1, a vote or a tick, with the votes c heard since the P2a at j, to the hop that P2a
   * came from: as missing ids or as votes if that hop is the leader, as a routed message otherwise.
   */
  ghost predicate AnsweredFrom(p: Place, es: seq<Event>, m: Reply, j: int, k: int, c: Collecting) {
    && Answers(m, m.slot) && Since(es, j, k, m.slot, c) && m.to == es[j].Sender()
    && (es[k - 1].Ticked? || (es[k - 1].Voted? && es[k - 1].slot == m.slot && es[k - 1].ballot == c.ballot))
    && (m.Aggregated? ==>
          && p.small && es[j].progress == 0 && m.ballot == c.ballot && m.relay == p.id
          && m.lastExecute == es[k - 1].lastExecute && m.missing == SwapRemoveAll(p.Group(), c.ids))
    && (m.Votes? ==> !p.small && es[j].progress == 0 && m.ballot == c.ballot && m.ids == c.ids)
    && (m.Routed? ==> es[j].progress != 0 && m.route == c)
  }

  /** m tells the owner of the ballot collected since j of the other ballot that event k brought, or of its own. */
  ghost predicate Refused(es: seq<Event>, m: Reply, j: int, k: int) {
    && m.Nack? && 0 <= j < k < |es| && es[j].Proposed? && es[j].slot == m.slot && m.to == BallotID(es[j].ballot)
    && !es[k].Ticked? && es[k].slot == m.slot && es[k].ballot != es[j].ballot && !es[k].AtLeaf()
    && m.ballot == if es[k].Proposed? && es[k].ballot < es[j].ballot then es[j].ballot else es[k].ballot
  }

  /** The P2a at k was handed to the log, to answer this relay, or at a leaf the hop it came from. */
  ghost predicate HandedOn(p: Place, es: seq<Event>, m: Reply, k: int) {
    && m.Accepting? && OpensAt(es, k, m.slot, m.ballot) && m.replyTo == if es[k].AtLeaf() then es[k].Sender() else p.id
  }

  ghost predicate Faithful(p: Place, es: seq<Event>, m: Reply) {
    match m
    case Nack(_, _, _) => exists j, k :: Refused(es, m, j, k)
    case Accepting(_, _, _) => exists k :: HandedOn(p, es, m, k)
    case _ => exists j, k, c: Collecting :: AnsweredFrom(p, es, m, j, k, c)
  }

  ghost predicate RunInv(p: Place, es: seq<Event>, s: State) {
    && (forall slot :: slot in s.relays ==> exists j :: Since(es, j, |es|, slot, s.relays[slot]))
    && (forall m :: m in s.sent ==> Faithful(p, es, m))
  }

  lemma HeardLater(es: seq<Event>, e: Event, j: int, k: int, slot: int, ballot: Ballot)
    requires 0 <= j && k <= |es|
    ensures Heard(es + [e], j, k, slot, ballot) == Heard(es, j, k, slot, ballot)
    ensures j < |es| ==>
              Heard(es + [e], j, |es| + 1, slot, ballot) == Heard(es, j, |es|, slot, ballot) +
              if e.Voted? && e.slot == slot && e.ballot == ballot then (set id | id in e.ids) else {}
  {
    var fs := es + [e];
    assert forall i :: 0 <= i < |es| ==> fs[i] == es[i];
    if j < |es| && e.Voted? && e.slot == slot && e.ballot == ballot {
      forall id | id in e.ids ensures id in Heard(fs, j, |es| + 1, slot, ballot) {
        assert fs[|es|] == e && id in fs[|es|].ids;
      }
    }
  }

  lemma SinceLater(es: seq<Event>, e: Event, j: int, k: int, slot: int, c: Collecting)
    requires Since(es, j, k, slot, c)
    ensures Since(es + [e], j, k, slot, c) && (es + [e])[j] == es[j] && (es + [e])[k - 1] == es[k - 1]
  {
    HeardLater(es, e, j, k, slot, c.ballot);
  }

  lemma FaithfulLater(p: Place, es: seq<Event>, e: Event, m: Reply)
    requires Faithful(p, es, m)
    ensures Faithful(p, es + [e], m)
  {
    var fs := es + [e];
    if m.Nack? {
      var j, k :| Refused(es, m, j, k);
      assert Refused(fs, m, j, k);
    } else if m.Accepting? {
      var k :| HandedOn(p, es, m, k);
      assert HandedOn(p, fs, m, k);
    } else {
      var j, k, c: Collecting :| AnsweredFrom(p, es, m, j, k, c);
      SinceLater(es, e, j, k, m.slot, c);
      assert AnsweredFrom(p, fs, m, j, k, c);
    }
  }

  /** What a relay sends when it answers at the last of these events. */
  lemma AnswerFaithful(p: Place, es: seq<Event>, j: int, c: Collecting, slot: int)
    requires Since(es, j, |es|, slot, c)
    requires var e := es[|es| - 1]; e.Ticked? || (e.Voted? && e.slot == slot && e.ballot == c.ballot)
    ensures var m := Answer(p, c, slot, es[|es| - 1].lastExecute);
            Answers(m, slot) && AnsweredFrom(p, es, m, j, |es|, c) && Faithful(p, es, m)
  {
    var m := Answer(p, c, slot, es[|es| - 1].lastExecute);
    assert AnsweredFrom(p, es, m, j, |es|, c);
  }

  /** What a slot has collected, after one more event that leaves its ballot alone. */
  lemma StillSince(es: seq<Event>, e: Event, j: int, slot: int, c: Collecting, d: Collecting)
    requires Since(es, j, |es|, slot, c) && d == c.(ids := d.ids)
    requires d.ids == if e.Voted? && e.slot == slot && e.ballot == c.ballot then c.ids + e.ids else c.ids
    ensures Since(es + [e], j, |es| + 1, slot, d)
  {
    HeardLater(es, e, j, |es|, slot, c.ballot);
  }

  lemma OpenedNow(es: seq<Event>, e: Event)
    requires e.Proposed? && !e.AtLeaf()
    ensures Since(es + [e], |es|, |es| + 1, e.slot, Collecting(e.hops, e.progress, e.ballot, [], e.now))
  {
  }

  lemma RefusedNow(es: seq<Event>, e: Event, c: Collecting, j: int, m: Reply)
    requires Since(es, j, |es|, m.slot, c) && m.Nack? && m.to == BallotID(c.ballot)
    requires !e.Ticked? && e.slot == m.slot && e.ballot != c.ballot && !e.AtLeaf()
    requires m.ballot == if e.Proposed? && e.ballot < c.ballot then c.ballot else e.ballot
    ensures Refused(es + [e], m, j, |es|)
  {
  }

  lemma SlotKeeps(p: Place, es: seq<Event>, s: State, e: Event, slot: int)
    requires RunInv(p, es, s) && slot in OnEvent(p, s, e).relays
    ensures exists j :: Since(es + [e], j, |es + [e]|, slot, OnEvent(p, s, e).relays[slot])
  {
    var t := OnEvent(p, s, e);
    if e.Proposed? && !e.AtLeaf() && slot == e.slot && (slot !in s.relays || s.relays[slot].ballot < e.ballot) {
      OpenedNow(es, e);
    } else {
      var j :| Since(es, j, |es|, slot, s.relays[slot]);
      StillSince(es, e, j, slot, s.relays[slot], t.relays[slot]);
    }
  }

  /** Whatever an event makes a relay send is justified by the events up to it. */
  lemma SendsFaithfully(p: Place, es: seq<Event>, s: State, e: Event, m: Reply)
    requires RunInv(p, es, s) && m in OnEvent(p, s, e).sent && m !in s.sent
    ensures Faithful(p, es + [e], m)
  {
    var fs := es + [e];
    if m.Accepting? {
      assert HandedOn(p, fs, m, |es|);
    } else if e.Ticked? {
      var k :| k in s.relays && s.relays[k].since < e.cutoff && m == Answer(p, s.relays[k], k, e.lastExecute);
      var j :| Since(es, j, |es|, k, s.relays[k]);
      StillSince(es, e, j, k, s.relays[k], s.relays[k]);
      AnswerFaithful(p, fs, j, s.relays[k], k);
    } else {
      var c := s.relays[e.slot];
      var j :| Since(es, j, |es|, e.slot, c);
      if m.Nack? {
        RefusedNow(es, e, c, j, m);
      } else {
        var d := c.(ids := c.ids + e.ids);
        StillSince(es, e, j, e.slot, c, d);
        AnswerFaithful(p, fs, j, d, e.slot);
      }
    }
  }

  lemma EventKeeps(p: Place, es: seq<Event>, s: State, e: Event)
    requires RunInv(p, es, s)
    ensures RunInv(p, es + [e], OnEvent(p, s, e))
  {
    var t := OnEvent(p, s, e);
    forall slot | slot in t.relays ensures exists j :: Since(es + [e], j, |es + [e]|, slot, t.relays[slot]) {
      SlotKeeps(p, es, s, e, slot);
    }
    forall m | m in t.sent ensures Faithful(p, es + [e], m) {
      if m in s.sent {
        FaithfulLater(p, es, e, m);
      } else {
        SendsFaithfully(p, es, s, e, m);
      }
    }
  }

  lemma {:induction false} RunKeepsInv(p: Place, es: seq<Event>)
    ensures RunInv(p, es, Run(p, es))
    decreases |es|
  {
    if es != [] {
      var front, last := es[..|es| - 1], es[|es| - 1];
      RunKeepsInv(p, front);
      assert es == front + [last];
      EventKeeps(p, front, Run(p, front), last);
    }
  }

  /**
   * m was answered at event k - 1, to the hop that the P2a at j came from, with the votes heard in between, no more
   * and no less, and with what the relay had executed by then.
   */
  ghost predicate HeardExactly(p: Place, es: seq<Event>, m: Reply, voters: seq<ID>, j: int, k: int)
    requires m.Aggregated?
  {
    && OpensAt(es, j, m.slot, m.ballot) && j < k <= |es|
    && (forall id :: id in voters <==> id in p.Group() && id in Heard(es, j, k, m.slot, m.ballot))
    && (es[j].hops != [] ==> m.to == es[j].hops[0])
    && (es[k - 1].Ticked? || (es[k - 1].Voted? && es[k - 1].slot == m.slot)) && m.lastExecute == es[k - 1].lastExecute
  }

  /** In every run of a relay, the leader rebuilds from an answer exactly the group's votes it stands for, once each. */
  lemma VotersWereHeard(p: Place, es: seq<Event>, m: Reply)
    requires p.Valid() && m in Run(p, es).sent && m.Aggregated?
    ensures m.relay == p.id && p.layout.GroupOf(p.id) == p.myGroup
    ensures Distinct(Voters(p.layout, m))
    ensures exists j, k :: HeardExactly(p, es, m, Voters(p.layout, m), j, k)
  {
    RunKeepsInv(p, es);
    var j, k, c: Collecting :| AnsweredFrom(p, es, m, j, k, c);
    assert p.id in p.layout.groups[p.myGroup];
    assert Distinct(p.Group());
    RebuildUndoes(p.Group(), c.ids);
    var voters := Voters(p.layout, m);
    forall id ensures id in voters <==> id in p.Group() && id in Heard(es, j, k, m.slot, m.ballot) {
      assert id in c.ids <==> id in set x | x in c.ids;
    }
    assert HeardExactly(p, es, m, voters, j, k);
  }

  /** m was answered at event k - 1, to the hop that the P2a at j came from, with all the ids heard in between. */
  ghost predicate HeardAll(es: seq<Event>, m: Reply, j: int, k: int)
    requires m.Votes?
  {
    && OpensAt(es, j, m.slot, m.ballot) && j < k <= |es| && (es[j].hops != [] ==> m.to == es[j].hops[0])
    && (set id | id in m.ids) == Heard(es, j, k, m.slot, m.ballot)
  }

  /** Without the compression the ids are those of all votes heard, whoever sent them. */
  lemma PlainVotesWereHeard(p: Place, es: seq<Event>, m: Reply)
    requires m in Run(p, es).sent && m.Votes?
    ensures exists j, k :: HeardAll(es, m, j, k)
  {
    RunKeepsInv(p, es);
    var j, k, c: Collecting :| AnsweredFrom(p, es, m, j, k, c);
    assert HeardAll(es, m, j, k);
  }

  /** Everything a relay ever sends - answers, refusals, P2as handed to the log - has its reason and its address. */
  lemma AllSentIsFaithful(p: Place, es: seq<Event>, m: Reply)
    requires m in Run(p, es).sent
    ensures Faithful(p, es, m)
  {
    RunKeepsInv(p, es);
  }

  // ---- a relay does react ---------------------------------------------------------------------------------

  /** How many votes a relay waits for. */
  function Threshold(p: Place, ballot: Ballot): nat {
    |p.Group()| / 2 + if p.layout.GroupOf(BallotID(ballot)) == p.myGroup then 0 else 1
  }

  lemma RunOneMore(p: Place, es: seq<Event>, e: Event)
    ensures Run(p, es + [e]) == OnEvent(p, Run(p, es), e)
  {
    assert (es + [e])[..|es|] == es;
  }

  predicate Collects(s: State, slot: int, ballot: Ballot) { slot in s.relays && s.relays[slot].ballot >= ballot }

  /**
   * Every P2a is handed to the log, and above the leaves its slot is then collected in at least its ballot; one that
   * is repeated, stale or at a leaf leaves all collections alone.
   */
  lemma ProposalsAreHandedOn(p: Place, es: seq<Event>, e: Event)
    requires e.Proposed?
    ensures exists m :: m in Run(p, es + [e]).sent && HandedOn(p, es + [e], m, |es|)
    ensures var s, t := Run(p, es), Run(p, es + [e]);
            && (!e.AtLeaf() ==> Collects(t, e.slot, e.ballot))
            && (e.AtLeaf() || Collects(s, e.slot, e.ballot) ==> t.relays == s.relays)
            && t.relays - {e.slot} == s.relays - {e.slot}
  {
    RunOneMore(p, es, e);
    var m := Accepting(if e.AtLeaf() then e.Sender() else p.id, e.ballot, e.slot);
    assert m in Run(p, es + [e]).sent && HandedOn(p, es + [e], m, |es|);
  }

  /** A P2a or a P2b of another ballot than the one collected makes the relay write to the owner of the latter. */
  lemma OtherBallotsAreRefused(p: Place, es: seq<Event>, e: Event)
    requires !e.Ticked? && !e.AtLeaf() && e.slot in Run(p, es).relays && Run(p, es).relays[e.slot].ballot != e.ballot
    ensures exists m, j :: m in Run(p, es + [e]).sent && Refused(es + [e], m, j, |es|)
  {
    RunOneMore(p, es, e);
    RunKeepsInv(p, es);
    var c := Run(p, es).relays[e.slot];
    var j :| Since(es, j, |es|, e.slot, c);
    var b := if e.Proposed? && e.ballot < c.ballot then c.ballot else e.ballot;
    RefusedNow(es, e, c, j, Nack(BallotID(c.ballot), b, e.slot));
    assert Nack(BallotID(c.ballot), b, e.slot) in Run(p, es + [e]).sent;
  }

  /**
   * A vote for the ballot collected is gathered; the one that makes their number that of a threshold has all of them
   * answered for, and the slot is forgotten. Other slots are left alone, and so are all by a vote for none of them.
   */
  lemma VotesAreGathered(p: Place, es: seq<Event>, e: Event)
    requires e.Voted?
    ensures var s, t := Run(p, es), Run(p, es + [e]);
            && (e.slot !in s.relays ==> t == s)
            && (e.slot in s.relays && s.relays[e.slot].ballot == e.ballot ==>
                  var c := s.relays[e.slot].(ids := s.relays[e.slot].ids + e.ids);
                  if |c.ids| == Threshold(p, e.ballot) || |c.ids| == |p.Group()| / 2 + 1
                  then t.relays == s.relays - {e.slot} && exists m, j ::
                         m in t.sent && m.slot == e.slot && AnsweredFrom(p, es + [e], m, j, |es + [e]|, c)
                  else t == s.(relays := s.relays[e.slot := c]))
  {
    RunOneMore(p, es, e);
    RunKeepsInv(p, es);
    var s := Run(p, es);
    if e.slot in s.relays && s.relays[e.slot].ballot == e.ballot {
      var c := s.relays[e.slot];
      var d := c.(ids := c.ids + e.ids);
      var j :| Since(es, j, |es|, e.slot, c);
      StillSince(es, e, j, e.slot, c, d);
      AnswerFaithful(p, es + [e], j, d, e.slot);
    }
  }

  /** A tick answers for every slot opened before its cutoff, and leaves the others alone. */
  lemma LateSlotsAreAnswered(p: Place, es: seq<Event>, e: Event, slot: int)
    requires e.Ticked? && slot in Run(p, es).relays
    ensures var c, t := Run(p, es).relays[slot], Run(p, es + [e]);
            if c.since < e.cutoff
            then slot !in t.relays && exists m, j :: m in t.sent && m.slot == slot
                                                     && AnsweredFrom(p, es + [e], m, j, |es + [e]|, c)
            else slot in t.relays && t.relays[slot] == c
  {
    RunOneMore(p, es, e);
    RunKeepsInv(p, es);
    var c := Run(p, es).relays[slot];
    var j :| Since(es, j, |es|, slot, c);
    StillSince(es, e, j, slot, c, c);
    AnswerFaithful(p, es + [e], j, c, slot);
    if c.since < e.cutoff {
      assert Answer(p, c, slot, e.lastExecute) in Run(p, es + [e]).sent;
    }
  }

  // ---- a relay answers at its threshold ------------------------------------------------------------------

  function IdsOf(votes: seq<Event>): seq<ID>
    decreases |votes|
  {
    if votes == [] then [] else IdsOf(votes[..|votes| - 1]) + if votes[|votes| - 1].Voted? then votes[|votes| - 1].ids
      else []
  }

  /** One vote each, for what e proposes. */
  ghost predicate SingleVotes(e: Event, votes: seq<Event>) {
    e.Proposed? && !e.AtLeaf() && forall i :: 0 <= i < |votes| ==>
      votes[i].Voted? && votes[i].slot == e.slot && votes[i].ballot == e.ballot && |votes[i].ids| == 1
  }

  /** Below the threshold a relay accepts for itself, keeps gathering and tells the leader nothing. */
  lemma {:induction false} Gathers(p: Place, e: Event, votes: seq<Event>)
    requires SingleVotes(e, votes) && |votes| < Threshold(p, e.ballot)
    ensures |IdsOf(votes)| == |votes|
    ensures Run(p, [e] + votes) ==
            State(map[e.slot := Collecting(e.hops, e.progress, e.ballot, IdsOf(votes), e.now)],
                  {Accepting(p.id, e.ballot, e.slot)})
    decreases |votes|
  {
    var es := [e] + votes;
    if votes == [] {
      assert es == [e] && es[..0] == [];
    } else {
      var n := |votes| - 1;
      Gathers(p, e, votes[..n]);
      assert es[..|es| - 1] == [e] + votes[..n] && es[|es| - 1] == votes[n];
    }
  }

  /** With the vote that reaches the threshold it answers, once, and forgets. */
  lemma AnswersAtThreshold(p: Place, e: Event, votes: seq<Event>)
    requires SingleVotes(e, votes) && |votes| == Threshold(p, e.ballot) > 0
    ensures var es, s := [e] + votes, Run(p, [e] + votes);
            && s.relays == map[]
            && exists m: Reply, c: Collecting ::
                 && s.sent == {Accepting(p.id, e.ballot, e.slot), m} && c.ids == IdsOf(votes)
                 && AnsweredFrom(p, es, m, 0, |es|, c)
  {
    var es, n := [e] + votes, |votes| - 1;
    Gathers(p, e, votes[..n]);
    assert es[..|es| - 1] == [e] + votes[..n] && es[|es| - 1] == votes[n];
    assert Run(p, es) == OnVoted(p, Run(p, [e] + votes[..n]), votes[n]);
    assert map[e.slot := Collecting(e.hops, e.progress, e.ballot, IdsOf(votes[..n]), e.now)] - {e.slot} == map[];
    var c := Collecting(e.hops, e.progress, e.ballot, IdsOf(votes), e.now);
    VotesHeard(e, votes);
    AnswerFaithful(p, es, 0, c, e.slot);
    assert Run(p, es).sent == {Accepting(p.id, e.ballot, e.slot), Answer(p, c, e.slot, votes[n].lastExecute)};
  }

  /** The single votes after e are what is heard since e. */
  lemma {:induction false} VotesHeard(e: Event, votes: seq<Event>)
    requires SingleVotes(e, votes)
    ensures Since([e] + votes, 0, |votes| + 1, e.slot, Collecting(e.hops, e.progress, e.ballot, IdsOf(votes), e.now))
    decreases |votes|
  {
    if votes == [] {
      OpenedNow([], e);
      assert [] + [e] == [e] + votes;
    } else {
      var n := |votes| - 1;
      VotesHeard(e, votes[..n]);
      var c := Collecting(e.hops, e.progress, e.ballot, IdsOf(votes[..n]), e.now);
      StillSince([e] + votes[..n], votes[n], 0, e.slot, c, c.(ids := IdsOf(votes)));
      assert [e] + votes == [e] + votes[..n] + [votes[n]];
    }
  }

  // ---- the relay in place --------------------------------------------------------------------------------

  /** The slots of left have yet to be looked at. */
  ghost function TickedBut(p: Place, s: State, e: Event, left: set<int>): State
    requires e.Ticked?
  {
    State(map k | k in s.relays && (k in left || s.relays[k].since >= e.cutoff) :: s.relays[k],
          s.sent + set k | k in s.relays && k !in left && s.relays[k].since < e.cutoff ::
            Answer(p, s.relays[k], k, e.lastExecute))
  }

  lemma TickNone(p: Place, s: State, e: Event)
    requires e.Ticked?
    ensures TickedBut(p, s, e, s.relays.Keys) == s && TickedBut(p, s, e, {}) == OnTicked(p, s, e)
  {
  }

  lemma TickOne(p: Place, s: State, e: Event, left: set<int>, k: int)
    requires e.Ticked? && k in left && k in s.relays
    ensures k in TickedBut(p, s, e, left).relays && TickedBut(p, s, e, left).relays[k] == s.relays[k]
    ensures var t := TickedBut(p, s, e, left);
            TickedBut(p, s, e, left - {k}) ==
            if s.relays[k].since < e.cutoff
            then State(t.relays - {k}, t.sent + {Answer(p, s.relays[k], k, e.lastExecute)}) else t
  {
    var t, u := TickedBut(p, s, e, left), TickedBut(p, s, e, left - {k});
    assert u.relays == if s.relays[k].since < e.cutoff then t.relays - {k} else t.relays;
    assert u.sent == if s.relays[k].since < e.cutoff then t.sent + {Answer(p, s.relays[k], k, e.lastExecute)}
           else t.sent;
  }

  class Relay {
    const place: Place
    var relays: map<int, Collecting>
    var sent: set<Reply>

    function View(): State reads this { State(relays, sent) }

    constructor (place: Place)
      ensures View() == IDLE && this.place == place
    {
      this.place, relays, sent := place, map[], {};
    }

    method Send(m: Reply)
      modifies this`sent
      ensures sent == old(sent) + {m}
    {
      sent := sent + {m};
    }

    method newP2bRelay(now: int, ballot: Ballot, slot: int, hops: seq<ID>, progress: nat)
      modifies this`relays
      ensures View() == Open(old(View()), Proposed(now, ballot, slot, hops, progress))
    {
      relays := relays[slot := Collecting(hops, progress, ballot, [], now)];
    }

    method handleP2aRelay(now: int, ballot: Ballot, slot: int, hops: seq<ID>, progress: nat)
      modifies this
      ensures View() == OnProposed(place, old(View()), Proposed(now, ballot, slot, hops, progress))
    {
      if progress + 1 == Fanout.MAX_DEPTH {
        Send(Accepting(Collecting(hops, progress, ballot, [], now).LastProgressHop(), ballot, slot));
      } else {
        if slot !in relays {
          newP2bRelay(now, ballot, slot, hops, progress);
        } else {
          var c := relays[slot];
          if c.ballot < ballot {
            Send(Nack(BallotID(c.ballot), ballot, slot));
            newP2bRelay(now, ballot, slot, hops, progress);
          } else if c.ballot > ballot {
            Send(Nack(BallotID(c.ballot), c.ballot, slot));
          }
        }
        Send(Accepting(place.id, ballot, slot));
      }
    }

    method computeMissingIDsForP2b(ids: seq<ID>) returns (missing: seq<ID>)
      ensures missing == SwapRemoveAll(place.Group(), ids)
    {
      missing := Subtract(place.Group(), ids);
    }

    method readyToRelayP2b(slot: int) returns (ready: bool)
      ensures ready <==> slot in relays && Ready(place, relays[slot])
    {
      if slot !in relays {
        return false;
      }
      var c, n := relays[slot], |place.Group()|;
      if |c.ids| == n / 2 + 1 {
        return true;
      }
      if |c.ids| == n / 2 {
        return place.layout.GroupOf(BallotID(c.ballot)) == place.myGroup;
      }
      return false;
    }

    method reply(c: Collecting, slot: int, lastExecute: int)
      modifies this`sent
      ensures sent == old(sent) + {Answer(place, c, slot, lastExecute)}
    {
      if c.progress == 0 {
        if place.small {
          var missing := computeMissingIDsForP2b(c.ids);
          Send(Aggregated(c.LastProgressHop(), c.ballot, slot, place.id, lastExecute, missing));
        } else {
          Send(Votes(c.LastProgressHop(), c.ballot, slot, c.ids));
        }
      } else {
        Send(Routed(c.LastProgressHop(), c, slot));
      }
    }

    method handleP2bRelay(lastExecute: int, ballot: Ballot, slot: int, ids: seq<ID>)
      modifies this
      ensures View() == OnVoted(place, old(View()), Voted(lastExecute, ballot, slot, ids))
    {
      if slot in relays {
        var c := relays[slot];
        if c.ballot == ballot {
          c := c.(ids := c.ids + ids);
          relays := relays[slot := c];
          var ready := readyToRelayP2b(slot);
          if ready {
            reply(c, slot, lastExecute);
            relays := relays - {slot};
          }
        } else {
          Send(Nack(BallotID(c.ballot), ballot, slot));
        }
      }
    }

    /** The ticker's loop over the slots. */
    method checkP2bTimeouts(lastExecute: int, cutoff: int)
      modifies this
      ensures View() == OnTicked(place, old(View()), Ticked(lastExecute, cutoff))
    {
      ghost var s, e := View(), Ticked(lastExecute, cutoff);
      TickNone(place, s, e);
      var left := relays.Keys;
      while left != {}
        invariant left <= s.relays.Keys && View() == TickedBut(place, s, e, left)
        decreases left
      {
        ghost var some := Sets.Some(left);
        var slot :| slot in left;
        TickOne(place, s, e, left, slot);
        left := left - {slot};
        if relays[slot].since < cutoff {
          reply(relays[slot], slot, lastExecute);
          relays := relays - {slot};
        }
      }
    }
  }
}
