// How many answers relays wait for (readyToRelayP2b), and why the leader's quorum then holds.

module Thresholds {
  import opened Ballots
  import opened Quorums
  import opened Relays
  import opened Sequences
  import Sets

  function Members(s: seq<ID>): set<ID> { set id | id in s }

  /** All ids of all groups. */
  function Everyone(groups: seq<seq<ID>>): set<ID>
    decreases |groups|
  {
    if groups == [] then {} else Everyone(groups[..|groups| - 1]) + Members(groups[|groups| - 1])
  }

  function Total(groups: seq<seq<ID>>): nat
    decreases |groups|
  {
    if groups == [] then 0 else Total(groups[..|groups| - 1]) + |groups[|groups| - 1]|
  }

  /** The leader counts the answers of one relay after another. */
  function CountAll(t: Tally, answers: seq<seq<ID>>): Tally
    decreases |answers|
  {
    if answers == [] then t else CountAll(t, answers[..|answers| - 1]).AckAll(answers[|answers| - 1])
  }

  /** Duplicate-free lists with no id in two of them. */
  ghost predicate Separate(groups: seq<seq<ID>>) {
    && (forall g :: 0 <= g < |groups| ==> Distinct(groups[g]))
    && forall g, h, id :: 0 <= g < |groups| && 0 <= h < |groups| && id in groups[g] && id in groups[h] ==> g == h
  }

  lemma {:induction false} MembersCount(s: seq<ID>)
    requires Distinct(s)
    ensures |Members(s)| == |s|
  {
    if s != [] {
      MembersCount(s[1..]);
      assert Members(s) == Members(s[1..]) + {s[0]};
    }
  }

  lemma {:induction false} InEveryone(groups: seq<seq<ID>>, id: ID)
    ensures id in Everyone(groups) <==> exists g :: 0 <= g < |groups| && id in groups[g]
    decreases |groups|
  {
    if groups != [] {
      var front := groups[..|groups| - 1];
      InEveryone(front, id);
      if g :| 0 <= g < |groups| && id in groups[g] {
        assert g < |front| ==> id in front[g];
      }
      if g :| 0 <= g < |front| && id in front[g] {
        assert id in groups[g];
      }
    }
  }

  /** Disjoint lists: nothing is counted twice. */
  lemma {:induction false} EveryoneCounts(groups: seq<seq<ID>>)
    requires Separate(groups)
    ensures |Everyone(groups)| == Total(groups)
    decreases |groups|
  {
    if groups != [] {
      var n := |groups| - 1;
      var front, last := groups[..n], groups[n];
      EveryoneCounts(front);
      MembersCount(last);
      forall id | id in Everyone(front) ensures id !in Members(last) {
        InEveryone(front, id);
        var g :| 0 <= g < |front| && id in front[g];
        assert id in groups[g];
      }
      assert |Everyone(front) + Members(last)| == |Everyone(front)| + |Members(last)|;
    }
  }

  lemma {:induction false} CountAllAcks(t: Tally, answers: seq<seq<ID>>)
    requires t.Counts()
    ensures CountAll(t, answers).Counts()
    ensures CountAll(t, answers).acks == t.acks + Everyone(answers)
    decreases |answers|
  {
    if answers != [] {
      var front, last := answers[..|answers| - 1], answers[|answers| - 1];
      CountAllAcks(t, front);
      AckAllCounts(CountAll(t, front), last);
      AckAllAcks(CountAll(t, front), last);
      assert CountAll(t, answers).acks == CountAll(t, front).acks + Members(last);
    }
  }

  /** Every group answered with votes of its own members, once each, and not with the leader's own. */
  ghost predicate Answered(groups: seq<seq<ID>>, answers: seq<seq<ID>>, leader: ID) {
    && |answers| == |groups|
    && forall g :: 0 <= g < |groups| ==>
         Distinct(answers[g]) && leader !in answers[g] && forall id :: id in answers[g] ==> id in groups[g]
  }

  lemma StartCounts(leader: ID)
    ensures NO_ACKS.Ack(leader).Counts() && NO_ACKS.Ack(leader).acks == {leader}
  {
    assert NO_ACKS.zones.Keys == (set a | a in NO_ACKS.acks :: Zone(a));
    AckKeepsCounts(NO_ACKS, leader);
  }

  /** The leader's quorum holds its own ack and every vote answered. */
  lemma QuorumSize(groups: seq<seq<ID>>, answers: seq<seq<ID>>, leader: ID)
    requires Separate(groups) && Answered(groups, answers, leader)
    ensures CountAll(NO_ACKS.Ack(leader), answers).Counts()
    ensures CountAll(NO_ACKS.Ack(leader), answers).size == 1 + Total(answers)
  {
    StartCounts(leader);
    CountAllAcks(NO_ACKS.Ack(leader), answers);
    assert Separate(answers);
    EveryoneCounts(answers);
    InEveryone(answers, leader);
    assert |{leader} + Everyone(answers)| == 1 + |Everyone(answers)|;
  }

  /** Half of the group and one more, or half of it where the leader adds its own vote. */
  predicate EarlyEnough(group: seq<ID>, answer: seq<ID>, leader: ID) {
    |answer| >= |group| / 2 + if leader in group then 0 else 1
  }

  /** All but slack of the group, not counting the leader. */
  predicate AllButSlack(group: seq<ID>, answer: seq<ID>, leader: ID, slack: nat) {
    |answer| >= |group| - slack - if leader in group then 1 else 0
  }

  function LeaderGroups(groups: seq<seq<ID>>, leader: ID): nat
    decreases |groups|
  {
    if groups == [] then 0
    else LeaderGroups(groups[..|groups| - 1], leader) + if leader in groups[|groups| - 1] then 1 else 0
  }

  lemma {:induction false} OneLeaderGroup(groups: seq<seq<ID>>, leader: ID)
    requires Separate(groups)
    ensures LeaderGroups(groups, leader) <= 1
    ensures leader !in Everyone(groups) ==> LeaderGroups(groups, leader) == 0
    decreases |groups|
  {
    if groups != [] {
      var n := |groups| - 1;
      OneLeaderGroup(groups[..n], leader);
      InEveryone(groups[..n], leader);
      forall g | 0 <= g < n && leader in groups[..n][g] ensures leader !in groups[n] {
        assert groups[..n][g] == groups[g];
      }
    }
  }

  lemma {:induction false} EarlyTotal(groups: seq<seq<ID>>, answers: seq<seq<ID>>, leader: ID)
    requires |answers| == |groups|
    requires forall g :: 0 <= g < |groups| ==> EarlyEnough(groups[g], answers[g], leader)
    ensures 2 * Total(answers) >= Total(groups) + |groups| - 2 * LeaderGroups(groups, leader)
    decreases |groups|
  {
    if groups != [] {
      var n := |groups| - 1;
      assert EarlyEnough(groups[n], answers[n], leader);
      assert forall g :: 0 <= g < n ==> EarlyEnough(groups[..n][g], answers[..n][g], leader);
      EarlyTotal(groups[..n], answers[..n], leader);
    }
  }

  lemma {:induction false} SlackTotal(groups: seq<seq<ID>>, answers: seq<seq<ID>>, leader: ID, slack: nat)
    requires |answers| == |groups|
    requires forall g :: 0 <= g < |groups| ==> AllButSlack(groups[g], answers[g], leader, slack)
    ensures Total(answers) >= Total(groups) - |groups| * slack - LeaderGroups(groups, leader)
    decreases |groups|
  {
    if groups != [] {
      var n := |groups| - 1;
      assert AllButSlack(groups[n], answers[n], leader, slack);
      assert forall g :: 0 <= g < n ==> AllButSlack(groups[..n][g], answers[..n][g], leader, slack);
      SlackTotal(groups[..n], answers[..n], leader, slack);
      assert |groups| * slack == n * slack + slack;
    }
  }

  /** When every relay answers at its threshold, the leader has a majority: any number of groups of any sizes. */
  lemma EarlyAnswersAddUp(cfg: Config, groups: seq<seq<ID>>, answers: seq<seq<ID>>, leader: ID)
    requires groups != [] && Separate(groups) && Everyone(groups) == cfg.nodes && Answered(groups, answers, leader)
    requires forall g :: 0 <= g < |groups| ==> EarlyEnough(groups[g], answers[g], leader)
    ensures CountAll(NO_ACKS.Ack(leader), answers).Majority(cfg)
  {
    QuorumSize(groups, answers, leader);
    EveryoneCounts(groups);
    OneLeaderGroup(groups, leader);
    EarlyTotal(groups, answers, leader);
  }

  /** With slack, the leader's quorum lacks at most slack nodes of each group. */
  lemma SlackAnswersAddUp(cfg: Config, groups: seq<seq<ID>>, answers: seq<seq<ID>>, leader: ID, slack: nat)
    requires Separate(groups) && Everyone(groups) == cfg.nodes && Answered(groups, answers, leader)
    requires forall g :: 0 <= g < |groups| ==> AllButSlack(groups[g], answers[g], leader, slack)
    ensures CountAll(NO_ACKS.Ack(leader), answers).size >= cfg.n() - |groups| * slack
  {
    QuorumSize(groups, answers, leader);
    EveryoneCounts(groups);
    OneLeaderGroup(groups, leader);
    SlackTotal(groups, answers, leader, slack);
  }

  /** A relay that is ready and has collected its members' votes once each gives the leader enough of them. */
  lemma ReadyIsEarlyEnough(p: Place, c: Collecting)
    requires p.Valid() && Ready(p, c) && BallotID(c.ballot) in p.layout.groupOf
    requires Distinct(c.ids) && forall id :: id in c.ids ==> id in p.Group()
    ensures EarlyEnough(p.Group(), Rebuilt(p.Group(), SwapRemoveAll(p.Group(), c.ids)), BallotID(c.ballot))
  {
    var voters, leader := Rebuilt(p.Group(), SwapRemoveAll(p.Group(), c.ids)), BallotID(c.ballot);
    assert Distinct(p.Group());
    RebuildUndoes(p.Group(), c.ids);
    assert Members(voters) == Members(c.ids);
    MembersCount(voters);
    MembersCount(c.ids);
    assert leader in p.Group() <==> p.layout.GroupOf(leader) == p.myGroup;
  }

  /** The voters the leader rebuilds when relay g of the layout answers with c. */
  function AnswerOf(p: Place, c: Collecting): seq<ID> { Rebuilt(p.Group(), SwapRemoveAll(p.Group(), c.ids)) }

  ghost predicate ReadyRelay(layout: Layout, g: int, p: Place, c: Collecting, leader: ID) {
    && p.Valid() && p.layout == layout && p.myGroup == g && Ready(p, c) && BallotID(c.ballot) == leader
    && Distinct(c.ids) && leader !in c.ids && forall id :: id in c.ids ==> id in p.Group()
  }

  /** Enough of the group's votes, once each, and not the leader's own. */
  ghost predicate GoodAnswer(group: seq<ID>, answer: seq<ID>, leader: ID) {
    && Distinct(answer) && leader !in answer && EarlyEnough(group, answer, leader)
    && forall id :: id in answer ==> id in group
  }

  lemma GoodAnswersAddUp(cfg: Config, groups: seq<seq<ID>>, answers: seq<seq<ID>>, leader: ID)
    requires groups != [] && Separate(groups) && Everyone(groups) == cfg.nodes && |answers| == |groups|
    requires forall g :: 0 <= g < |answers| ==> GoodAnswer(groups[g], answers[g], leader)
    ensures CountAll(NO_ACKS.Ack(leader), answers).Majority(cfg)
  {
    EarlyAnswersAddUp(cfg, groups, answers, leader);
  }

  lemma OneRelayAnswers(layout: Layout, g: int, p: Place, c: Collecting, leader: ID)
    requires layout.Valid() && 0 <= g < |layout.groups| && ReadyRelay(layout, g, p, c, leader)
    requires leader in layout.groupOf
    ensures GoodAnswer(layout.groups[g], AnswerOf(p, c), leader)
  {
    RebuildUndoes(layout.groups[g], c.ids);
    ReadyIsEarlyEnough(p, c);
  }

  lemma LeaderIsGrouped(layout: Layout, leader: ID)
    requires layout.Valid() && leader in Everyone(layout.groups)
    ensures leader in layout.groupOf
  {
    InEveryone(layout.groups, leader);
  }

  lemma LayoutIsSeparate(layout: Layout)
    requires layout.Valid()
    ensures layout.groups != [] && Separate(layout.groups)
  {
    var groups := layout.groups;
    forall g, h, id | 0 <= g < |groups| && 0 <= h < |groups| && id in groups[g] && id in groups[h] ensures g == h {
      assert layout.groupOf[id] == g;
    }
  }

  ghost predicate RelayAnswered(layout: Layout, g: int, p: Place, c: Collecting, answer: seq<ID>, leader: ID) {
    ReadyRelay(layout, g, p, c, leader) && answer == AnswerOf(p, c)
  }

  /** From the relays' thresholds through the missing ids to the leader's quorum. */
  lemma ReadyRelaysGiveMajority(cfg: Config, layout: Layout, places: seq<Place>, cs: seq<Collecting>,
                                answers: seq<seq<ID>>, leader: ID)
    requires layout.Valid() && |places| == |cs| == |answers| == |layout.groups|
    requires Everyone(layout.groups) == cfg.nodes && leader in cfg.nodes
    requires forall g :: 0 <= g < |answers| ==> RelayAnswered(layout, g, places[g], cs[g], answers[g], leader)
    ensures CountAll(NO_ACKS.Ack(leader), answers).Majority(cfg)
  {
    LeaderIsGrouped(layout, leader);
    LayoutIsSeparate(layout);
    forall g | 0 <= g < |answers| ensures GoodAnswer(layout.groups[g], answers[g], leader) {
      assert RelayAnswered(layout, g, places[g], cs[g], answers[g], leader);
      OneRelayAnswers(layout, g, places[g], cs[g], leader);
    }
    GoodAnswersAddUp(cfg, layout.groups, answers, leader);
  }
}
