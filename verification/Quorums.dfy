// Quorum bookkeeping and quorum systems (quorum.go), over the node counts config.go derives
// from the address list.

module Quorums {
  import opened Ballots
  import opened Sets

  /** Configuration: the addressed nodes; n, z and npz are counted from them (config.go). */
  datatype Config = Config(nodes: set<ID>)
  {
    function InZone(z: int): set<ID> { set id | id in nodes && Zone(id) == z }
    function Zones(): set<int> { set id | id in nodes :: Zone(id) }
    function n(): nat { |nodes| }
    function z(): nat { |Zones()| }
    function npz(zone: int): nat { |InZone(zone)| }
  }

  /** The fields of a Quorum that its predicates read. */
  datatype Tally = Tally(size: int, acks: set<ID>, zones: map<int, int>)
  {
    function Ack(id: ID): Tally {
      if id in acks then this
      else Tally(size + 1, acks + {id}, zones[Zone(id) := 1 + if Zone(id) in zones then zones[Zone(id)] else 0])
    }

    function AckAll(ids: seq<ID>): Tally
      decreases |ids|
    {
      if ids == [] then this else AckAll(ids[..|ids| - 1]).Ack(ids[|ids| - 1])
    }

    function AcksIn(z: int): set<ID> { set id | id in acks && Zone(id) == z }

    /** size and zones count exactly the distinct acks. */
    ghost predicate Counts() {
      && size == |acks|
      && zones.Keys == (set id | id in acks :: Zone(id))
      && forall z :: z in zones ==> zones[z] == |AcksIn(z)|
    }

    predicate Majority(cfg: Config) { size > cfg.n() / 2 }

    predicate AllZones(cfg: Config) { |zones| == cfg.z() }

    predicate GridRow(cfg: Config) { AllZones(cfg) }

    predicate GridColumn(cfg: Config) { exists z :: z in zones && zones[z] == cfg.npz(z) }

    function MajorityZones(cfg: Config): set<int> { set z | z in zones && zones[z] > cfg.npz(z) / 2 }

    predicate ZoneMajority(cfg: Config) { MajorityZones(cfg) != {} }

    predicate FGridQ1(cfg: Config, f: int) { |MajorityZones(cfg)| >= cfg.z() - f }

    predicate FGridQ2(cfg: Config, f: int) { |MajorityZones(cfg)| >= f + 1 }
  }

  const NO_ACKS := Tally(0, {}, map[])

  class Quorum {
    var size: int
    var acks: set<ID>
    var zones: map<int, int>
    var nacks: set<ID>
    var nacksMade: bool      // NewQuorum leaves the nacks map nil; Reset makes it

    function View(): Tally reads this { Tally(size, acks, zones) }

    constructor ()
      ensures View() == NO_ACKS && nacks == {} && !nacksMade
    {
      size, acks, zones, nacks, nacksMade := 0, {}, map[], {}, false;
    }

    method ACK(id: ID)
      modifies this`size, this`acks, this`zones
      ensures View() == old(View()).Ack(id)
    {
      if id !in acks {
        acks := acks + {id};
        size := size + 1;
        zones := zones[Zone(id) := (if Zone(id) in zones then zones[Zone(id)] else 0) + 1];
      }
    }

    /** Writing to the nil map of a quorum that was never Reset panics. */
    method NACK(id: ID) returns (panicked: bool)
      modifies this`nacks
      ensures panicked == (id !in old(nacks) && !nacksMade)
      ensures nacks == if panicked then old(nacks) else old(nacks) + {id}
    {
      panicked := id !in nacks && !nacksMade;
      if !panicked {
        nacks := nacks + {id};
      }
    }

    method ADD()
      modifies this`size
      ensures View() == old(View()).(size := old(size) + 1)
    {
      size := size + 1;
    }

    method Reset()
      modifies this
      ensures View() == NO_ACKS && nacks == {} && nacksMade
    {
      size, acks, zones, nacks, nacksMade := 0, {}, map[], {}, true;
    }

    method ZoneMajority(cfg: Config) returns (r: bool)
      ensures r == View().ZoneMajority(cfg)
    {
      var left: set<int> := zones.Keys;
      while left != {}
        invariant left <= zones.Keys
        invariant forall z :: z in zones && z !in left ==> zones[z] <= cfg.npz(z) / 2
      {
        ghost var some := Some(left);
        var z :| z in left;
        left := left - {z};
        if zones[z] > cfg.npz(z) / 2 {
          assert z in View().MajorityZones(cfg);
          return true;
        }
      }
      return false;
    }

    method GridColumn(cfg: Config) returns (r: bool)
      ensures r == View().GridColumn(cfg)
    {
      var left: set<int> := zones.Keys;
      while left != {}
        invariant left <= zones.Keys
        invariant forall z :: z in zones && z !in left ==> zones[z] != cfg.npz(z)
      {
        ghost var some := Some(left);
        var z :| z in left;
        left := left - {z};
        if zones[z] == cfg.npz(z) {
          return true;
        }
      }
      return false;
    }

    method CountMajorityZones(cfg: Config) returns (zone: int)
      ensures zone == |View().MajorityZones(cfg)|
    {
      zone := 0;
      var left: set<int> := zones.Keys;
      ghost var seen: set<int> := {};
      while left != {}
        invariant left <= zones.Keys
        invariant seen == (set z | z in zones && z !in left && zones[z] > cfg.npz(z) / 2)
        invariant zone == |seen|
      {
        ghost var some := Some(left);
        var z :| z in left;
        left := left - {z};
        if zones[z] > cfg.npz(z) / 2 {
          zone := zone + 1;
          seen := seen + {z};
        }
      }
      assert seen == View().MajorityZones(cfg);
    }

    method FGridQ1(cfg: Config, Fz: int) returns (r: bool)
      ensures r == View().FGridQ1(cfg, Fz)
    {
      var zone := CountMajorityZones(cfg);
      return zone >= cfg.z() - Fz;
    }

    method FGridQ2(cfg: Config, Fz: int) returns (r: bool)
      ensures r == View().FGridQ2(cfg, Fz)
    {
      var zone := CountMajorityZones(cfg);
      return zone >= Fz + 1;
    }
  }

  // ---- counting ---------------------------------------------------------------------------

  lemma AckKeepsCounts(t: Tally, id: ID)
    requires t.Counts()
    ensures t.Ack(id).Counts() && t.Ack(id).acks == t.acks + {id}
  {
    if id !in t.acks {
      var u := t.Ack(id);
      assert u.AcksIn(Zone(id)) == t.AcksIn(Zone(id)) + {id};
      if Zone(id) !in t.zones {
        assert t.AcksIn(Zone(id)) == {} by {
          assert forall a :: a in t.acks ==> Zone(a) in t.zones.Keys;
        }
      }
      forall z | z in u.zones && z != Zone(id) ensures u.zones[z] == |u.AcksIn(z)| {
        assert u.AcksIn(z) == t.AcksIn(z);
      }
      assert u.zones.Keys == (set a | a in u.acks :: Zone(a));
    }
  }

  lemma {:induction false} AckAllCounts(t: Tally, ids: seq<ID>)
    requires t.Counts()
    ensures t.AckAll(ids).Counts()
  {
    if ids != [] {
      AckAllCounts(t, ids[..|ids| - 1]);
      AckKeepsCounts(t.AckAll(ids[..|ids| - 1]), ids[|ids| - 1]);
    }
  }

  lemma {:induction false} AckAllAcks(t: Tally, ids: seq<ID>)
    ensures forall id :: id in t.AckAll(ids).acks <==> id in t.acks || id in ids
  {
    if ids != [] {
      AckAllAcks(t, ids[..|ids| - 1]);
      assert ids == ids[..|ids| - 1] + [ids[|ids| - 1]];
    }
  }

  // ---- what the predicates mean for the nodes that acked ------------------------------------------

  /** More than half of the configured nodes of zone z have acked. */
  ghost predicate MostOf(cfg: Config, t: Tally, z: int) { 2 * |t.acks * cfg.InZone(z)| > |cfg.InZone(z)| }

  lemma AcksInZone(cfg: Config, t: Tally, z: int)
    requires t.Counts() && t.acks <= cfg.nodes
    ensures t.AcksIn(z) == t.acks * cfg.InZone(z)
    ensures z in t.zones <==> t.AcksIn(z) != {}
    ensures z in t.MajorityZones(cfg) <==> MostOf(cfg, t, z)
  {
    if z in t.zones {
      var id :| id in t.acks && Zone(id) == z;
      assert id in t.AcksIn(z);
    } else {
      assert forall id :: id in t.AcksIn(z) ==> Zone(id) in t.zones;
    }
  }

  /** Majority needs more than half of the nodes, a row a node of every zone, a column some whole zone. */
  lemma MajorityAndGridsMean(cfg: Config, t: Tally)
    requires t.Counts() && t.acks <= cfg.nodes
    ensures t.Majority(cfg) <==> 2 * |t.acks| > |cfg.nodes|
    ensures t.GridRow(cfg) <==> forall id :: id in cfg.nodes ==> t.acks * cfg.InZone(Zone(id)) != {}
    ensures t.GridColumn(cfg) <==> exists id :: id in cfg.nodes && cfg.InZone(Zone(id)) <= t.acks
  {
    ZonesConfigured(cfg, t);
    forall id | id in cfg.nodes ensures Zone(id) in t.zones <==> t.acks * cfg.InZone(Zone(id)) != {} {
      AcksInZone(cfg, t, Zone(id));
    }
    RowMeans(cfg, t);
    ColumnMeans(cfg, t);
  }

  lemma RowMeans(cfg: Config, t: Tally)
    requires t.Counts() && t.acks <= cfg.nodes
    ensures t.GridRow(cfg) <==> forall id :: id in cfg.nodes ==> Zone(id) in t.zones
  {
    ZonesConfigured(cfg, t);
    assert |t.zones| == |t.zones.Keys|;
    SubsetSize(t.zones.Keys, cfg.Zones());
    if forall id :: id in cfg.nodes ==> Zone(id) in t.zones {
      assert t.zones.Keys == cfg.Zones();
    }
  }

  lemma ColumnMeans(cfg: Config, t: Tally)
    requires t.Counts() && t.acks <= cfg.nodes
    ensures t.GridColumn(cfg) <==> exists id :: id in cfg.nodes && cfg.InZone(Zone(id)) <= t.acks
  {
    if t.GridColumn(cfg) {
      var z :| z in t.zones && t.zones[z] == cfg.npz(z);
      AcksInZone(cfg, t, z);
      SubsetSize(t.AcksIn(z), cfg.InZone(z));
      var id :| id in t.acks && Zone(id) == z;
      assert cfg.InZone(Zone(id)) <= t.acks;
    }
    if id :| id in cfg.nodes && cfg.InZone(Zone(id)) <= t.acks {
      AcksInZone(cfg, t, Zone(id));
      assert id in t.AcksIn(Zone(id)) && t.AcksIn(Zone(id)) == cfg.InZone(Zone(id));
    }
  }

  /** Majorities in this many zones. */
  ghost predicate MostOfZones(cfg: Config, t: Tally, zs: set<int>) {
    zs <= cfg.Zones() && forall z :: z in zs ==> MostOf(cfg, t, z)
  }

  /** A zone majority is one zone's, a phase 1 grid all but F zones', a phase 2 grid F + 1 zones' majorities. */
  lemma FlexibleGridsMean(cfg: Config, t: Tally, f: int)
    requires t.Counts() && t.acks <= cfg.nodes
    ensures t.ZoneMajority(cfg) <==> exists zs :: MostOfZones(cfg, t, zs) && |zs| >= 1
    ensures t.FGridQ1(cfg, f) <==> exists zs :: MostOfZones(cfg, t, zs) && |zs| >= |cfg.Zones()| - f
    ensures t.FGridQ2(cfg, f) <==> exists zs :: MostOfZones(cfg, t, zs) && |zs| >= f + 1
  {
    ZonesConfigured(cfg, t);
    var all := t.MajorityZones(cfg);
    forall z ensures z in all <==> MostOf(cfg, t, z) {
      AcksInZone(cfg, t, z);
    }
    assert MostOfZones(cfg, t, all);
    forall zs | MostOfZones(cfg, t, zs) ensures |zs| <= |all| {
      SubsetSize(zs, all);
    }
    assert all != {} <==> |all| >= 1;
  }

  // ---- intersection -----------------------------------------------------------------------

  lemma MajoritiesShare(cfg: Config, p: Tally, q: Tally)
    requires p.Counts() && q.Counts() && p.acks <= cfg.nodes && q.acks <= cfg.nodes
    requires p.Majority(cfg) && q.Majority(cfg)
    ensures p.acks * q.acks != {}
  {
    Overlap(cfg.nodes, p.acks, q.acks);
  }

  lemma ZonesConfigured(cfg: Config, t: Tally)
    requires t.Counts() && t.acks <= cfg.nodes
    ensures t.zones.Keys <= cfg.Zones()
    ensures forall z :: t.AcksIn(z) <= cfg.InZone(z)
  {
    forall z | z in t.zones ensures z in cfg.Zones() {
      var id :| id in t.acks && Zone(id) == z;
      assert id in cfg.nodes;
    }
  }

  /** A phase 1 and a phase 2 flexible-grid quorum share a node, whatever the parameter f. */
  lemma FlexibleGridsShare(cfg: Config, p: Tally, q: Tally, f: int)
    requires p.Counts() && q.Counts() && p.acks <= cfg.nodes && q.acks <= cfg.nodes
    requires p.FGridQ1(cfg, f) && q.FGridQ2(cfg, f)
    ensures p.acks * q.acks != {}
  {
    ZonesConfigured(cfg, p);
    ZonesConfigured(cfg, q);
    Overlap(cfg.Zones(), p.MajorityZones(cfg), q.MajorityZones(cfg));
    var z :| z in p.MajorityZones(cfg) * q.MajorityZones(cfg);
    Overlap(cfg.InZone(z), p.AcksIn(z), q.AcksIn(z));
    var id :| id in p.AcksIn(z) * q.AcksIn(z);
    assert id in p.acks * q.acks;
  }

  /** A row holds a node of every zone, a column every node of some zone. */
  lemma RowAndColumnShare(cfg: Config, row: Tally, column: Tally)
    requires row.Counts() && column.Counts() && row.acks <= cfg.nodes && column.acks <= cfg.nodes
    requires row.GridRow(cfg) && column.GridColumn(cfg)
    ensures row.acks * column.acks != {}
  {
    ZonesConfigured(cfg, row);
    ZonesConfigured(cfg, column);
    assert |row.zones| == |row.zones.Keys|;
    SubsetSize(row.zones.Keys, cfg.Zones());
    var z :| z in column.zones && column.zones[z] == cfg.npz(z);
    SubsetSize(column.AcksIn(z), cfg.InZone(z));
    var id :| id in row.acks && Zone(id) == z;
    assert id in column.AcksIn(z);
    assert id in row.acks * column.acks;
  }
}
