/**
 * RedisCluster: a fixed list of sentinels and of servers, the master and
 * slave port lists it shares with the builder that made it, and the trace of
 * what it has done to the outside world. start() runs the member starts and
 * the cluster setup, stop() the member stops; both report the first failure.
 */
module Cluster {
  import opened Common
  import opened Members
  import opened Slots
  import opened Trace
  import opened Ports
  import opened Bootstrap

  lemma AppendAssoc<T>(a: seq<T>, b: seq<T>, c: seq<T>)
    ensures a + b + c == a + (b + c)
  {
  }

  class RedisCluster {
    var sentinels: seq<Member>
    var servers: seq<Member>
    /** The builder's own lists, not copies: later appends by the builder show here. */
    const mastersPorts: PortList
    const slavesPorts: PortList
    /** Every externally visible action of this cluster so far, in order. */
    var trace: seq<Event>

    /** The member lists are copied; the port lists are shared. */
    constructor (sentinels: seq<Member>, servers: seq<Member>, mastersPorts: PortList, slavesPorts: PortList)
      ensures this.sentinels == sentinels && this.servers == servers
      ensures this.mastersPorts == mastersPorts && this.slavesPorts == slavesPorts
      ensures trace == []
    {
      this.servers := servers;
      this.sentinels := sentinels;
      this.mastersPorts := mastersPorts;
      this.slavesPorts := slavesPorts;
      trace := [];
    }

    /** isActive(): true iff every sentinel and every server is running. */
    method IsActive() returns (r: bool)
      ensures r == (AllActive(sentinels) && AllActive(servers))
    {
      var i := 0;
      while i < |sentinels|
        invariant 0 <= i <= |sentinels|
        invariant forall j :: 0 <= j < i ==> sentinels[j].active
      {
        if !sentinels[i].active {
          return false;
        }
        i := i + 1;
      }
      i := 0;
      while i < |servers|
        invariant 0 <= i <= |servers|
        invariant forall j :: 0 <= j < i ==> servers[j].active
      {
        if !servers[i].active {
          return false;
        }
        i := i + 1;
      }
      return true;
    }

    /** The ports of the members of ms, member by member. */
    static method CollectPorts(ms: seq<Member>) returns (ports: seq<int>)
      ensures ports == Flatten(ms)
      ensures forall p :: p in ports <==> exists i :: 0 <= i < |ms| && p in ms[i].ports
    {
      ports := [];
      var i := 0;
      while i < |ms|
        invariant 0 <= i <= |ms|
        invariant ports == Flatten(ms[..i])
      {
        assert ms[..i + 1][..i] == ms[..i];
        ports := ports + ms[i].ports;
        i := i + 1;
      }
      assert ms[..|ms|] == ms;
      forall p {
        FlattenMembers(ms, p);
      }
    }

    /** sentinelPorts(): the sentinels' ports in list order. */
    method SentinelPorts() returns (ports: seq<int>)
      ensures ports == Flatten(sentinels)
    {
      ports := CollectPorts(sentinels);
    }

    /** serverPorts(): the servers' ports in list order. */
    method ServerPorts() returns (ports: seq<int>)
      ensures ports == Flatten(servers)
    {
      ports := CollectPorts(servers);
    }

    /** ports(): the sentinel ports followed by the server ports. */
    method Ports() returns (ports: seq<int>)
      ensures ports == Flatten(sentinels) + Flatten(servers)
      ensures ports == Flatten(sentinels + servers)
    {
      var s := SentinelPorts();
      var v := ServerPorts();
      ports := s + v;
      FlattenAppend(sentinels, servers);
    }

    /** sentinels(): a copy of the sentinel list. */
    method Sentinels() returns (r: seq<Member>)
      ensures r == sentinels
    {
      r := sentinels;
    }

    /** servers(): a copy of the server list. */
    method Servers() returns (r: seq<Member>)
      ensures r == servers
    {
      r := servers;
    }

    /**
     * The start loop of start() over one member list: start the members in
     * order; k is the index of the first one that refuses, or |ms|. Only the
     * members before k are running afterwards.
     */
    static method StartAll(ms: seq<Member>, role: Role, env: Env) returns (out: seq<Member>, events: seq<Event>, k: nat)
      ensures k == FirstRefused(env.startOk, role, |ms|)
      ensures out == SetActive(ms, k, true) && events == StartedEvents(role, k)
    {
      out, events, k := ms, [], 0;
      while k < |ms|
        invariant 0 <= k <= |ms|
        invariant forall j :: 0 <= j < k ==> env.startOk(role, j)
        invariant out == SetActive(ms, k, true) && events == StartedEvents(role, k)
      {
        if !env.startOk(role, k) {
          FirstRefusedAt(env.startOk, role, |ms|, k);
          return;
        }
        SetActiveStep(ms, k, true);
        out := out[k := out[k].(active := true)];
        events := events + [Started(role, k)];
        k := k + 1;
      }
      FirstRefusedAt(env.startOk, role, |ms|, k);
    }

    /**
     * start(): start every sentinel, then every server, then set up the
     * cluster. The first failure is returned as it happens; members already
     * started stay running.
     */
    method Start(env: Env) returns (r: Outcome<StartError>)
      modifies this
      ensures var s := StartSpec(old(sentinels), old(servers), mastersPorts.items, slavesPorts.items, env);
        trace == old(trace) + s.events && sentinels == s.sentinels && servers == s.servers &&
        r == s.outcome
    {
      var sen, sentinelEvents, ks := StartAll(sentinels, Sentinel, env);
      sentinels, trace := sen, trace + sentinelEvents;
      if ks < |sen| {
        return Fail(MemberStartFailed(Sentinel, ks));
      }
      var srv, serverEvents, kv := StartAll(servers, Server, env);
      servers, trace := srv, trace + serverEvents;
      AppendAssoc(old(trace), sentinelEvents, serverEvents);
      if kv < |srv| {
        return Fail(MemberStartFailed(Server, kv));
      }
      r := SetUp(env);
      AppendAssoc(old(trace), sentinelEvents + serverEvents, Setup(mastersPorts.items, slavesPorts.items, env).events);
    }

    /**
     * The cluster setup of start(): the seed is mastersPorts[0]; phase A meets
     * and assigns slots master by master, phase B meets slave by slave, each
     * followed by its settling wait.
     */
    method SetUp(env: Env) returns (r: Outcome<StartError>)
      modifies this
      ensures var s := Setup(mastersPorts.items, slavesPorts.items, env);
        trace == old(trace) + s.events && r == s.outcome
      ensures sentinels == old(sentinels) && servers == old(servers)
    {
      var masters, slaves := mastersPorts.items, slavesPorts.items;
      if |masters| == 0 {
        return Fail(NoMasters);
      }
      var n := |masters|;
      var badMaster := SetUpMasters(masters, env);
      if badMaster < n {
        return Fail(MasterSetupFailed(masters[badMaster]));
      }
      ghost var phaseA := MasterBlocks(masters, n, env) + [Wait(n * MASTER_SETTLE_MS)];
      trace := trace + [Wait(n * MASTER_SETTLE_MS)];
      AppendAssoc(old(trace), MasterBlocks(masters, n, env), [Wait(n * MASTER_SETTLE_MS)]);
      var badSlave := SetUpSlaves(slaves, masters[0], env);
      if badSlave < |slaves| {
        AppendAssoc(old(trace), phaseA, SlaveBlocks(slaves, badSlave + 1, masters[0]));
        return Fail(SlaveSetupFailed(slaves[badSlave]));
      }
      trace := trace + [Wait(SLAVE_SETTLE_MS)];
      AppendAssoc(old(trace), phaseA, SlaveBlocks(slaves, |slaves|, masters[0]));
      AppendAssoc(old(trace), phaseA + SlaveBlocks(slaves, |slaves|, masters[0]), [Wait(SLAVE_SETTLE_MS)]);
      r := Pass;
    }

    /**
     * Phase A: the step for each master in index order, up to and including
     * the first one that fails; the result is that master's index, or |masters|.
     */
    method SetUpMasters(masters: seq<int>, env: Env) returns (bad: nat)
      requires 0 < |masters|
      modifies this
      ensures bad == FirstBadMaster(masters, |masters|, env)
      ensures trace == old(trace) + MasterBlocks(masters, if bad < |masters| then bad + 1 else bad, env)
      ensures sentinels == old(sentinels) && servers == old(servers)
    {
      bad := 0;
      while bad < |masters|
        invariant 0 <= bad <= |masters|
        invariant forall j :: 0 <= j < bad ==> MasterOk(masters, j, env)
        invariant trace == old(trace) + MasterBlocks(masters, bad, env)
        invariant sentinels == old(sentinels) && servers == old(servers)
      {
        var ok := SetUpMaster(masters, bad, env);
        AppendAssoc(old(trace), MasterBlocks(masters, bad, env), MasterBlock(masters, bad, env));
        if !ok {
          assert FirstBadMaster(masters, |masters|, env) == bad;
          return;
        }
        bad := bad + 1;
      }
      assert FirstBadMaster(masters, |masters|, env) == bad;
    }

    /**
     * Phase B: the step for each slave in order, up to and including the
     * first one whose MEET fails; the result is that slave's index, or |slaves|.
     */
    method SetUpSlaves(slaves: seq<int>, seed: int, env: Env) returns (bad: nat)
      modifies this
      ensures bad == FirstBadSlave(slaves, |slaves|, env)
      ensures trace == old(trace) + SlaveBlocks(slaves, if bad < |slaves| then bad + 1 else bad, seed)
      ensures sentinels == old(sentinels) && servers == old(servers)
    {
      bad := 0;
      while bad < |slaves|
        invariant 0 <= bad <= |slaves|
        invariant forall j :: 0 <= j < bad ==> env.meetOk(slaves[j])
        invariant trace == old(trace) + SlaveBlocks(slaves, bad, seed)
        invariant sentinels == old(sentinels) && servers == old(servers)
      {
        var ok := SetUpSlave(slaves[bad], seed, env);
        AppendAssoc(old(trace), SlaveBlocks(slaves, bad, seed), SlaveBlock(slaves[bad], seed));
        if !ok {
          assert FirstBadSlave(slaves, |slaves|, env) == bad;
          return;
        }
        bad := bad + 1;
      }
      assert FirstBadSlave(slaves, |slaves|, env) == bad;
    }

    /**
     * The step for master i: open a connection, MEET the seed unless the skip
     * test says not to, pipeline the slot batch and sync, and close the
     * connection whether or not a step failed.
     */
    method SetUpMaster(masters: seq<int>, i: nat, env: Env) returns (ok: bool)
      requires i < |masters|
      modifies this
      ensures trace == old(trace) + MasterBlock(masters, i, env)
      ensures ok == MasterOk(masters, i, env)
      ensures sentinels == old(sentinels) && servers == old(servers)
    {
      var p, seed := masters[i], masters[0];
      ghost var before := trace;
      trace := trace + [Open(p)];
      ok := true;
      if i != seed {
        trace := trace + [Send(p, Meet(HOST, seed))];
        ok := env.meetOk(p);
      }
      if ok {
        trace := trace + [Send(p, AddSlots(SlotsOf(i, |masters|))), Sync(p)];
        ok := env.slotsOk(p);
      }
      trace := trace + [Close(p)];
      ghost var cmds := MasterCommands(masters, i, env);
      assert trace == before + ([Open(p)] + cmds + [Close(p)]);
    }

    /** The step for one slave: open a connection, MEET the seed, close it. */
    method SetUpSlave(sp: int, seed: int, env: Env) returns (ok: bool)
      modifies this
      ensures trace == old(trace) + SlaveBlock(sp, seed)
      ensures ok == env.meetOk(sp)
      ensures sentinels == old(sentinels) && servers == old(servers)
    {
      ghost var before := trace;
      trace := trace + [Open(sp)];
      trace := trace + [Send(sp, Meet(HOST, seed))];
      ok := env.meetOk(sp);
      trace := trace + [Close(sp)];
      assert trace == before + ([Open(sp)] + [Send(sp, Meet(HOST, seed))] + [Close(sp)]);
    }

    /**
     * The stop loop of stop() over one member list: stop the members in
     * order; k is the index of the first one that refuses, or |ms|. Only the
     * members before k are stopped afterwards.
     */
    static method StopAll(ms: seq<Member>, role: Role, env: Env) returns (out: seq<Member>, events: seq<Event>, k: nat)
      ensures k == FirstRefused(env.stopOk, role, |ms|)
      ensures out == SetActive(ms, k, false) && events == StoppedEvents(role, k)
    {
      out, events, k := ms, [], 0;
      while k < |ms|
        invariant 0 <= k <= |ms|
        invariant forall j :: 0 <= j < k ==> env.stopOk(role, j)
        invariant out == SetActive(ms, k, false) && events == StoppedEvents(role, k)
      {
        if !env.stopOk(role, k) {
          FirstRefusedAt(env.stopOk, role, |ms|, k);
          return;
        }
        SetActiveStep(ms, k, false);
        out := out[k := out[k].(active := false)];
        events := events + [Stopped(role, k)];
        k := k + 1;
      }
      FirstRefusedAt(env.stopOk, role, |ms|, k);
    }

    /**
     * stop(): stop every sentinel, then every server; the first failure is
     * returned as it happens and later members are left as they were.
     */
    method Stop(env: Env) returns (r: Outcome<StopError>)
      modifies this
      ensures var s := StopSpec(old(sentinels), old(servers), env);
        trace == old(trace) + s.events && sentinels == s.sentinels && servers == s.servers &&
        r == s.outcome
    {
      var sen, sentinelEvents, ks := StopAll(sentinels, Sentinel, env);
      sentinels, trace := sen, trace + sentinelEvents;
      if ks < |sen| {
        return Fail(MemberStopFailed(Sentinel, ks));
      }
      var srv, serverEvents, kv := StopAll(servers, Server, env);
      servers, trace := srv, trace + serverEvents;
      AppendAssoc(old(trace), sentinelEvents, serverEvents);
      r := if kv < |srv| then Fail(MemberStopFailed(Server, kv)) else Pass;
    }
  }
}
