/**
 * The cluster builder: replication groups are planned one by one with the
 * port provider in effect at the time of the call, and build() turns them
 * into cluster-mode servers and the two flat port lists, masters and slaves,
 * in group order.
 */
module Builder {
  import opened Common
  import opened Members
  import opened Settings
  import opened Ports
  import Planner
  import opened Cluster

  type Group = Planner.ReplicationGroup

  /** A server as buildMaster and buildSlaves configure it: its port, the four cluster lines, not started. */
  function ClusterServer(p: int): Member
  {
    Member([p], ClusterSettings(p), false)
  }

  /** f applied to every element of s, in order. */
  function MapSeq<A, B>(f: A -> B, s: seq<A>): seq<B>
  {
    seq(|s|, k requires 0 <= k < |s| => f(s[k]))
  }

  lemma MapSeqAppend<A, B>(f: A -> B, x: seq<A>, y: seq<A>)
    ensures MapSeq(f, x + y) == MapSeq(f, x) + MapSeq(f, y)
  {
    assert forall k :: 0 <= k < |x| ==> (x + y)[k] == x[k];
    assert forall k :: |x| <= k < |x| + |y| ==> (x + y)[k] == y[k - |x|];
  }

  /** One cluster server per port, in the order of the ports. */
  function ServersOn(ports: seq<int>): seq<Member>
  {
    MapSeq(ClusterServer, ports)
  }

  /** The ports of one group, master first. */
  function GroupPorts(g: Group): seq<int>
  {
    [g.masterPort] + g.slavePorts
  }

  /** The servers of one group: its master, then its slaves. */
  function GroupServers(g: Group): seq<Member>
  {
    ServersOn(GroupPorts(g))
  }

  /** The servers build() makes for the groups, group by group. */
  function ServersFor(groups: seq<Group>): seq<Member>
  {
    if groups == [] then [] else ServersFor(groups[..|groups| - 1]) + GroupServers(groups[|groups| - 1])
  }

  /** All ports of the groups, group by group, master first in each. */
  function PortsOf(groups: seq<Group>): seq<int>
  {
    if groups == [] then [] else PortsOf(groups[..|groups| - 1]) + GroupPorts(groups[|groups| - 1])
  }

  /** The master port of every group, in group order. */
  function MasterPortsOf(groups: seq<Group>): seq<int>
  {
    if groups == [] then [] else MasterPortsOf(groups[..|groups| - 1]) + [groups[|groups| - 1].masterPort]
  }

  /** The slave ports of every group, group by group. */
  function SlavePortsOf(groups: seq<Group>): seq<int>
  {
    if groups == [] then [] else SlavePortsOf(groups[..|groups| - 1]) + groups[|groups| - 1].slavePorts
  }

  /** How many servers the groups call for: one master plus the slaves of each. */
  function ServerCount(groups: seq<Group>): nat
  {
    if groups == [] then 0 else ServerCount(groups[..|groups| - 1]) + 1 + |groups[|groups| - 1].slavePorts|
  }

  // ----- facts about the built servers -----

  /** The built servers are the cluster servers of the group ports, position by position. */
  lemma {:induction false} ServersArePorts(groups: seq<Group>)
    ensures ServersFor(groups) == ServersOn(PortsOf(groups))
    decreases |groups|
  {
    if groups != [] {
      var init, g := groups[..|groups| - 1], groups[|groups| - 1];
      ServersArePorts(init);
      MapSeqAppend(ClusterServer, PortsOf(init), GroupPorts(g));
    }
  }

  /** Members that expose one port each expose exactly those ports, in order. */
  lemma {:induction false} FlattenSinglePorts(ms: seq<Member>, ps: seq<int>)
    requires |ms| == |ps|
    requires forall i :: 0 <= i < |ms| ==> ms[i].ports == [ps[i]]
    ensures Flatten(ms) == ps
    decreases |ms|
  {
    if ms != [] {
      var k := |ms| - 1;
      FlattenSinglePorts(ms[..k], ps[..k]);
      assert ps == ps[..k] + [ps[k]];
    }
  }

  /**
   * The built servers: as many as the groups call for, each on its own port
   * with the cluster settings for that port, none running, and together
   * exposing the group ports in group order.
   */
  lemma BuiltServers(groups: seq<Group>)
    ensures |ServersFor(groups)| == |PortsOf(groups)| == ServerCount(groups)
    ensures Flatten(ServersFor(groups)) == PortsOf(groups)
    ensures NoneActive(ServersFor(groups))
    ensures forall i :: 0 <= i < |ServersFor(groups)| ==>
      ServersFor(groups)[i].ports == [PortsOf(groups)[i]] &&
      ServersFor(groups)[i].settings == ClusterSettings(PortsOf(groups)[i])
  {
    ServersArePorts(groups);
    PortsCount(groups);
    ServersOnAt(PortsOf(groups));
    FlattenSinglePorts(ServersOn(PortsOf(groups)), PortsOf(groups));
  }

  lemma ServersOnAt(ps: seq<int>)
    ensures |ServersOn(ps)| == |ps|
    ensures forall i :: 0 <= i < |ps| ==>
      ServersOn(ps)[i].ports == [ps[i]] && ServersOn(ps)[i].settings == ClusterSettings(ps[i]) && !ServersOn(ps)[i].active
  {
    forall i | 0 <= i < |ps|
      ensures ServersOn(ps)[i] == ClusterServer(ps[i])
    {
    }
  }

  lemma {:induction false} PortsCount(groups: seq<Group>)
    ensures |PortsOf(groups)| == ServerCount(groups)
    ensures |MasterPortsOf(groups)| == |groups|
    ensures |PortsOf(groups)| == |MasterPortsOf(groups)| + |SlavePortsOf(groups)|
    decreases |groups|
  {
    if groups != [] {
      PortsCount(groups[..|groups| - 1]);
    }
  }

  /** The two port lists split the server ports: every port is a master port or a slave port, as often as it occurs. */
  lemma {:induction false} PortsPartition(groups: seq<Group>)
    ensures multiset(PortsOf(groups)) == multiset(MasterPortsOf(groups)) + multiset(SlavePortsOf(groups))
    decreases |groups|
  {
    if groups != [] {
      var g := groups[|groups| - 1];
      PortsPartition(groups[..|groups| - 1]);
      assert multiset(GroupPorts(g)) == multiset([g.masterPort]) + multiset(g.slavePorts);
    }
  }

  /** Servers with different node files have different ports, and distinct ports never share a node file. */
  lemma DistinctSettings(groups: seq<Group>, i: nat, j: nat)
    requires i < |PortsOf(groups)| && j < |PortsOf(groups)|
    ensures |ServersFor(groups)| == |PortsOf(groups)|
    ensures ServersFor(groups)[i].settings == ServersFor(groups)[j].settings <==> PortsOf(groups)[i] == PortsOf(groups)[j]
  {
    BuiltServers(groups);
    if ServersFor(groups)[i].settings == ServersFor(groups)[j].settings {
      ClusterSettingsInjective(PortsOf(groups)[i], PortsOf(groups)[j]);
    }
  }

  /** Adding a group at the end adds its servers, its ports and its count at the end. */
  lemma Snoc(gs: seq<Group>, g: Group)
    ensures ServersFor(gs + [g]) == ServersFor(gs) + GroupServers(g)
    ensures PortsOf(gs + [g]) == PortsOf(gs) + GroupPorts(g)
    ensures MasterPortsOf(gs + [g]) == MasterPortsOf(gs) + [g.masterPort]
    ensures SlavePortsOf(gs + [g]) == SlavePortsOf(gs) + g.slavePorts
    ensures ServerCount(gs + [g]) == ServerCount(gs) + 1 + |g.slavePorts|
  {
    assert (gs + [g])[..|gs|] == gs;
  }

  lemma {:induction false} ServersForAppend(a: seq<Group>, b: seq<Group>)
    ensures ServersFor(a + b) == ServersFor(a) + ServersFor(b)
    decreases |b|
  {
    if b == [] {
      assert a + b == a;
    } else {
      var c, g := b[..|b| - 1], b[|b| - 1];
      assert b == c + [g];
      ServersForAppend(a, c);
      ServersForAppendStep(a, b, c, g);
    }
  }

  lemma ServersForAppendStep(a: seq<Group>, b: seq<Group>, c: seq<Group>, g: Group)
    requires b == c + [g]
    requires ServersFor(a + c) == ServersFor(a) + ServersFor(c)
    ensures ServersFor(a + b) == ServersFor(a) + ServersFor(b)
  {
    assert a + b == (a + c) + [g];
    Snoc(a + c, g);
    Snoc(c, g);
    AppendAssoc(ServersFor(a), ServersFor(c), GroupServers(g));
  }

  lemma {:induction false} ServerCountAppend(a: seq<Group>, b: seq<Group>)
    ensures ServerCount(a + b) == ServerCount(a) + ServerCount(b)
    decreases |b|
  {
    if b == [] {
      assert a + b == a;
    } else {
      var c, g := b[..|b| - 1], b[|b| - 1];
      assert b == c + [g];
      assert a + b == (a + c) + [g];
      ServerCountAppend(a, c);
      Snoc(a + c, g);
      Snoc(c, g);
    }
  }

  /**
   * Group order: the servers of group k follow those of the groups before it,
   * its master first, so the master of group k sits at the position that
   * counts the servers of groups 0 .. k-1.
   */
  lemma InGroupOrder(groups: seq<Group>, k: nat)
    requires k < |groups|
    ensures ServersFor(groups) == ServersFor(groups[..k]) + GroupServers(groups[k]) + ServersFor(groups[k + 1..])
    ensures ServerCount(groups[..k]) < |ServersFor(groups)|
    ensures ServersFor(groups)[ServerCount(groups[..k])] == ClusterServer(groups[k].masterPort)
  {
    assert groups == groups[..k] + [groups[k]] + groups[k + 1..];
    assert ServersFor([groups[k]]) == GroupServers(groups[k]) by {
      assert [groups[k]][..0] == [];
    }
    ServersForAppend(groups[..k] + [groups[k]], groups[k + 1..]);
    ServersForAppend(groups[..k], [groups[k]]);
    ServersArePorts(groups[..k]);
    PortsCount(groups[..k]);
  }

  /** One more group built: the servers extend by that group's servers. */
  lemma StepServers(groups: seq<Group>, i: nat, servers: seq<Member>)
    requires i < |groups|
    requires servers == ServersFor(groups[..i]) + [ClusterServer(groups[i].masterPort)] + ServersOn(groups[i].slavePorts)
    ensures servers == ServersFor(groups[..i + 1])
  {
    var g := groups[i];
    assert groups[..i + 1][..i] == groups[..i] && groups[..i + 1][i] == g;
    MapSeqAppend(ClusterServer, [g.masterPort], g.slavePorts);
    OneServer(g.masterPort);
    AppendAssoc(ServersFor(groups[..i]), [ClusterServer(g.masterPort)], ServersOn(g.slavePorts));
  }

  lemma OneServer(p: int)
    ensures ServersOn([p]) == [ClusterServer(p)]
  {
    assert ServersOn([p])[0] == ClusterServer(p);
  }

  /** One more group built: the master list extends by that group's master port. */
  lemma StepMasters(groups: seq<Group>, i: nat, m0: seq<int>, ms: seq<int>)
    requires i < |groups|
    requires ms == m0 + MasterPortsOf(groups[..i]) + [groups[i].masterPort]
    ensures ms == m0 + MasterPortsOf(groups[..i + 1])
  {
    assert groups[..i + 1][..i] == groups[..i] && groups[..i + 1][i] == groups[i];
  }

  /** One more group built: the slave list extends by that group's slave ports. */
  lemma StepSlaves(groups: seq<Group>, i: nat, s0: seq<int>, ss: seq<int>)
    requires i < |groups|
    requires ss == s0 + SlavePortsOf(groups[..i]) + groups[i].slavePorts
    ensures ss == s0 + SlavePortsOf(groups[..i + 1])
  {
    assert groups[..i + 1][..i] == groups[..i] && groups[..i + 1][i] == groups[i];
  }

  lemma PrefixStep<T>(a: seq<T>, s: seq<T>, i: nat)
    requires i < |s|
    ensures a + s[..i] + [s[i]] == a + s[..i + 1]
  {
    assert s[..i + 1] == s[..i] + [s[i]];
  }

  /** One more slave built: the server list extends by that slave's server. */
  lemma SlaveStep(ports: seq<int>, i: nat, servers: seq<Member>, out: seq<Member>)
    requires i < |ports|
    requires out == servers + ServersOn(ports[..i]) + [ClusterServer(ports[i])]
    ensures out == servers + ServersOn(ports[..i + 1])
  {
    assert ports[..i + 1] == ports[..i] + [ports[i]];
    MapSeqAppend(ClusterServer, ports[..i], [ports[i]]);
    OneServer(ports[i]);
    AppendAssoc(servers, ServersOn(ports[..i]), [ClusterServer(ports[i])]);
  }

  datatype BuildError = PortUnavailable

  /**
   * The builder. The two port lists are its own and are handed to every
   * cluster it builds; groups and provider are reassigned by its methods.
   */
  class RedisClusterBuilder {
    var provider: PortProvider
    var groups: seq<Group>
    const mastersPorts: PortList
    const slavesPorts: PortList

    predicate Valid()
      reads this
    {
      mastersPorts != slavesPorts
    }

    /** A new builder: no groups, empty port lists, and the default sequential provider given as its answers. */
    constructor (defaultAnswers: nat -> Option<int>)
      ensures Valid()
      ensures fresh(provider) && provider.answers == defaultAnswers && provider.used == 0
      ensures groups == []
      ensures fresh(mastersPorts) && fresh(slavesPorts) && mastersPorts.items == [] && slavesPorts.items == []
    {
      provider := new PortProvider(defaultAnswers);
      groups := [];
      mastersPorts := new PortList();
      slavesPorts := new PortList();
    }

    /** serverPorts(ports): later groups draw from a new predefined-list provider. */
    method ServerPorts(answers: nat -> Option<int>)
      modifies this
      ensures fresh(provider) && provider.answers == answers && provider.used == 0
      ensures groups == old(groups)
    {
      provider := new PortProvider(answers);
    }

    /** ephemeralServers(): later groups draw from a new ephemeral-port provider. */
    method EphemeralServers(answers: nat -> Option<int>)
      modifies this
      ensures fresh(provider) && provider.answers == answers && provider.used == 0
      ensures groups == old(groups)
    {
      provider := new PortProvider(answers);
    }

    /** ephemeral(): the same as ephemeralServers(). */
    method Ephemeral(answers: nat -> Option<int>)
      modifies this
      ensures fresh(provider) && provider.answers == answers && provider.used == 0
      ensures groups == old(groups)
    {
      EphemeralServers(answers);
    }

    /**
     * replicationGroup(name, slaveCount): plans a group with the current
     * provider and adds it; when the provider fails, the error propagates and
     * no group is added (the ports already drawn stay consumed).
     */
    method ReplicationGroup(masterName: string, slaveCount: int) returns (r: Outcome<BuildError>)
      modifies this, provider
      ensures provider == old(provider)
      ensures provider.used == old(provider.used) + Planner.PlanCalls(slaveCount, provider.answers, old(provider.used))
      ensures var plan := Planner.Plan(masterName, slaveCount, provider.answers, old(provider.used));
        (plan.Some? ==> r == Pass && groups == old(groups) + [plan.value]) &&
        (plan.None? ==> r == Fail(PortUnavailable) && groups == old(groups))
    {
      var g := Planner.NewReplicationGroup(masterName, slaveCount, provider);
      if g.None? {
        return Fail(PortUnavailable);
      }
      groups := groups + [g.value];
      r := Pass;
    }

    /** buildMaster(g): records the master port and configures its server. */
    method BuildMaster(g: Group) returns (m: Member)
      modifies mastersPorts
      ensures mastersPorts.items == old(mastersPorts.items) + [g.masterPort]
      ensures m == ClusterServer(g.masterPort)
    {
      mastersPorts.Add(g.masterPort);
      m := ClusterServer(g.masterPort);
    }

    /** buildSlaves(servers, g): records each slave port and adds its server, in the group's order. */
    method BuildSlaves(servers: seq<Member>, g: Group) returns (out: seq<Member>)
      modifies slavesPorts
      ensures slavesPorts.items == old(slavesPorts.items) + g.slavePorts
      ensures out == servers + ServersOn(g.slavePorts)
    {
      out := servers;
      var i := 0;
      while i < |g.slavePorts|
        invariant 0 <= i <= |g.slavePorts|
        invariant slavesPorts.items == old(slavesPorts.items) + g.slavePorts[..i]
        invariant out == servers + ServersOn(g.slavePorts[..i])
      {
        var sp := g.slavePorts[i];
        slavesPorts.Add(sp);
        out := out + [ClusterServer(sp)];
        PrefixStep(old(slavesPorts.items), g.slavePorts, i);
        SlaveStep(g.slavePorts, i, servers, out);
        i := i + 1;
      }
      assert g.slavePorts[..|g.slavePorts|] == g.slavePorts;
    }

    /** buildServers(): every group in order, its master then its slaves; the port lists grow alongside. */
    method BuildServers() returns (servers: seq<Member>)
      requires Valid()
      modifies mastersPorts, slavesPorts
      ensures servers == ServersFor(groups)
      ensures mastersPorts.items == old(mastersPorts.items) + MasterPortsOf(groups)
      ensures slavesPorts.items == old(slavesPorts.items) + SlavePortsOf(groups)
    {
      servers := [];
      var i := 0;
      while i < |groups|
        invariant 0 <= i <= |groups|
        invariant servers == ServersFor(groups[..i])
        invariant mastersPorts.items == old(mastersPorts.items) + MasterPortsOf(groups[..i])
        invariant slavesPorts.items == old(slavesPorts.items) + SlavePortsOf(groups[..i])
      {
        var g := groups[i];
        var m := BuildMaster(g);
        servers := servers + [m];
        servers := BuildSlaves(servers, g);
        StepServers(groups, i, servers);
        StepMasters(groups, i, old(mastersPorts.items), mastersPorts.items);
        StepSlaves(groups, i, old(slavesPorts.items), slavesPorts.items);
        i := i + 1;
      }
      assert groups[..|groups|] == groups;
    }

    /**
     * build(): a new cluster over the built servers, without sentinels, holding
     * the builder's own port lists. The lists are appended to, not reset, so a
     * second build() lists every port twice, in the clusters already built too.
     */
    method Build() returns (c: RedisCluster)
      requires Valid()
      modifies mastersPorts, slavesPorts
      ensures fresh(c) && c.trace == []
      ensures c.sentinels == [] && c.servers == ServersFor(groups)
      ensures c.mastersPorts == mastersPorts && c.slavesPorts == slavesPorts
      ensures mastersPorts.items == old(mastersPorts.items) + MasterPortsOf(groups)
      ensures slavesPorts.items == old(slavesPorts.items) + SlavePortsOf(groups)
    {
      var servers := BuildServers();
      c := new RedisCluster([], servers, mastersPorts, slavesPorts);
    }
  }

  // ----- clients -----

  /**
   * Two builds from one builder: both clusters hold the builder's lists, which
   * now list every port twice.
   */
  method BuildTwice(b: RedisClusterBuilder) returns (c1: RedisCluster, c2: RedisCluster)
    requires b.Valid()
    modifies b.mastersPorts, b.slavesPorts
    ensures c1.mastersPorts == b.mastersPorts && c2.mastersPorts == b.mastersPorts
    ensures c1.slavesPorts == b.slavesPorts && c2.slavesPorts == b.slavesPorts
    ensures b.mastersPorts.items == old(b.mastersPorts.items) + MasterPortsOf(b.groups) + MasterPortsOf(b.groups)
    ensures b.slavesPorts.items == old(b.slavesPorts.items) + SlavePortsOf(b.groups) + SlavePortsOf(b.groups)
    ensures c1.servers == c2.servers == ServersFor(b.groups)
  {
    c1 := b.Build();
    c2 := b.Build();
  }

  /** A provider over a fixed list: call k answers the k-th port while there is one. */
  function ListAnswers(ports: seq<int>): nat -> Option<int>
  {
    (k: nat) => if k < |ports| then Some(ports[k]) else None
  }

  /** The three groups of the scenario below, and what the builder derives from them. */
  lemma ScenarioGroups(gs: seq<Group>)
    requires gs == [Planner.ReplicationGroup("master1", 7001, [8001]),
                    Planner.ReplicationGroup("master2", 7002, [8002]),
                    Planner.ReplicationGroup("master3", 7003, [8003])]
    ensures MasterPortsOf(gs) == [7001, 7002, 7003]
    ensures SlavePortsOf(gs) == [8001, 8002, 8003]
    ensures PortsOf(gs) == [7001, 8001, 7002, 8002, 7003, 8003]
  {
    Snoc([], gs[0]);
    assert [] + [gs[0]] == gs[..1];
    Snoc(gs[..1], gs[1]);
    assert gs[..1] + [gs[1]] == gs[..2];
    Snoc(gs[..2], gs[2]);
    assert gs[..2] + [gs[2]] == gs;
  }

  /** A group of one slave drawn from a provider of exactly two ports: the first is the master's. */
  lemma PairPlan(name: string, m: int, sp: int)
    ensures Planner.Plan(name, 1, ListAnswers([m, sp]), 0) == Some(Planner.ReplicationGroup(name, m, [sp]))
  {
    Planner.PlanExactly(name, 1, ListAnswers([m, sp]), 0);
    var g := Planner.Plan(name, 1, ListAnswers([m, sp]), 0).value;
    assert g.slavePorts == [sp];
  }

  /**
   * The set-up of the predefined-ports cluster test: one provider over two
   * ports per group, three groups of one master and one slave each.
   */
  method PredefinedPortsScenario(defaultAnswers: nat -> Option<int>) returns (c: RedisCluster)
    ensures c.sentinels == [] && NoneActive(c.servers)
    ensures c.mastersPorts.items == [7001, 7002, 7003]
    ensures c.slavesPorts.items == [8001, 8002, 8003]
    ensures Flatten(c.servers) == [7001, 8001, 7002, 8002, 7003, 8003]
  {
    var b := new RedisClusterBuilder(defaultAnswers);
    b.ServerPorts(ListAnswers([7001, 8001]));
    PairPlan("master1", 7001, 8001);
    var r1 := b.ReplicationGroup("master1", 1);
    b.ServerPorts(ListAnswers([7002, 8002]));
    PairPlan("master2", 7002, 8002);
    var r2 := b.ReplicationGroup("master2", 1);
    b.ServerPorts(ListAnswers([7003, 8003]));
    PairPlan("master3", 7003, 8003);
    var r3 := b.ReplicationGroup("master3", 1);
    ScenarioGroups(b.groups);
    assert NoneActive(ServersFor(b.groups)) && Flatten(ServersFor(b.groups)) == PortsOf(b.groups) by {
      BuiltServers(b.groups);
    }
    c := b.Build();
  }
}
