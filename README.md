# Embedded Redis cluster: builder and bootstrap, modelled in Dafny

This project models the cluster part of an embedded-Redis tool for Java tests.
`RedisClusterBuilder` collects replication groups (one master port and its
slave ports, drawn from a port provider) and builds a `RedisCluster` of
cluster-mode Redis servers. `RedisCluster.start()` starts every member
process and then turns the running servers into a Redis Cluster itself,
without external tooling. `stop()` stops the members again.

What the model covers:

- **Planning** (`planner.dfy`, `ports.dfy`). A replication group takes its
  master port and then one port per slave from the provider in effect when
  `replicationGroup` is called. A later `serverPorts`/`ephemeralServers` call
  affects only later groups. A provider is a class with an answer oracle
  (`answers` for call *k*, or none when that call fails) and a call counter.
  A negative slave count asks for no slaves, as `while (slaveCount-- > 0)` does.
- **Building** (`builder.dfy`, `settings.dfy`). Every group gives a master
  server, then its slave servers. Each server is configured with the four
  cluster lines, whose node file is `nodes-slave-<port>.conf` for masters
  too. The master and slave port lists are fields of the builder that
  `build()` appends to and hands to the cluster by reference. A second
  `build()` on the same builder therefore lists every port twice, in the
  clusters already built as well (`Builder.BuildTwice`).
- **Starting** (`bootstrap.dfy`, `cluster.dfy`, `trace.dfy`, `slots.dfy`).
  `start()` starts the sentinels, then the servers. It then takes
  `mastersPorts[0]` as the seed and runs two phases:
  - phase A, for every master in order: open a connection, send
    `CLUSTER MEET 127.0.0.1 <seed>` unless the skip test says not to,
    pipeline `CLUSTER ADDSLOTS` for the slots `s` with `s mod N == i`, sync,
    and close;
  - a wait of `N * 300` ms;
  - phase B, for every slave: open, MEET the seed, close;
  - a wait of 500 ms.

  Everything the cluster does to the outside world is recorded as a trace of
  events (`Started`, `Stopped`, `Open`, `Send`, `Sync`, `Close`, `Wait`). The
  methods of the `RedisCluster` class are proved to produce exactly the trace
  of the specification functions `StartSpec`, `Setup` and `StopSpec`. The
  lemmas in `bootstrap_facts.dfy` and `start_stop.dfy` then prove what these
  specifications guarantee:
  - the 16384 slots are partitioned among the masters by residue;
  - connections are opened in list order and each is closed before the next;
  - every MEET names the seed;
  - exactly when start succeeds, and where a failure stops.
- **The environment.** The network and member processes are replaced by an
  oracle `Env` that decides which member start or stop, which MEET and which
  slot sync fails. A connection that cannot be made shows up as the failure
  of the first command on it.

Behaviour of the code that the model keeps as written:

- **Seed-skip test.** The skip test at `RedisCluster.java:73` compares the
  loop index `i` with the seed's port number, not with the seed's index 0,
  although the comment above the loop says the seed is to be left out.
  - With real ports (port ≥ N) no master is skipped: the seed sends MEET to
    itself (`BootstrapFacts.SeedMeetsItself`). Whatever the outcome, this is
    the first MEET of the setup's trace (`BootstrapFacts.SeedMeetsItselfInTrace`).
  - A seed port p with 0 < p < N would skip master p instead
    (`BootstrapFacts.SeedSkipMisses`).
  - The model uses the test as written (`Bootstrap.SendsMeet`).
- **No rollback, fail-fast stop.** A failure during `start()` is returned as
  it happens. No member is stopped on any failure path of `start()`, so the
  members already started keep running. `stop()` ends at the first member
  whose stop fails and reports only that failure; later members are left as
  they were.
- **Empty master list.** `mastersPorts.get(0)` throws, after every member has
  started (`Bootstrap.NoMasters`).
- **Three-argument constructor call.** `build()` at
  `RedisClusterBuilder.java:48-49` calls the cluster constructor with three
  arguments: servers, master ports and slave ports. The only constructor,
  `RedisCluster.java:20-29`, takes sentinels first. The model reads the call
  as that constructor with an empty sentinel list, matching the builder's
  lack of sentinels.

## Model

| member | source | states |
|---|---|---|
| Ports.PortProvider.Next | src/main/java/redis/embedded/RedisClusterBuilder.java:95 | each `next()` call consumes one answer of the provider, in call order, and returns that answer or the failure |
| Ports.PortList.Add | src/main/java/redis/embedded/RedisClusterBuilder.java:77 | the port is appended at the end of the shared list |
| Planner.NewReplicationGroup | src/main/java/redis/embedded/RedisClusterBuilder.java:93-99 | the group built is the plan over the provider's answers from its current call: master first, then one port per slave, or None when a call fails; the provider advances by exactly the calls made, the failed one included |
| Planner.PlanExactly | src/main/java/redis/embedded/RedisClusterBuilder.java:95-98 | planning succeeds iff the 1 + max(slaveCount, 0) consecutive calls all answer; the master port is the first answer and the slave ports are the rest, in call order |
| Planner.DrawExactly | src/main/java/redis/embedded/RedisClusterBuilder.java:96-98 | a draw of n ports succeeds iff each of the n calls answers, and then yields the answers in call order |
| Planner.DrawCallsExactly | src/main/java/redis/embedded/RedisClusterBuilder.java:96-98 | a successful draw makes every call; a failed one stops right after its first failing call, all earlier calls having answered |
| Planner.DrawStops | src/main/java/redis/embedded/RedisClusterBuilder.java:96-98 | once a draw has failed, asking for more ports fails too and makes no further call |
| Builder.RedisClusterBuilder.constructor | src/main/java/redis/embedded/RedisClusterBuilder.java:13-18 | a new builder has no groups, two fresh empty port lists, and the default provider unused |
| Builder.RedisClusterBuilder.ServerPorts | src/main/java/redis/embedded/RedisClusterBuilder.java:25-28 | later groups draw from a fresh provider over the given answers; existing groups are unchanged |
| Builder.RedisClusterBuilder.EphemeralServers | src/main/java/redis/embedded/RedisClusterBuilder.java:30-33 | later groups draw from a fresh ephemeral provider; existing groups are unchanged |
| Builder.RedisClusterBuilder.Ephemeral | src/main/java/redis/embedded/RedisClusterBuilder.java:36-39 | the same effect as ephemeralServers() |
| Builder.RedisClusterBuilder.ReplicationGroup | src/main/java/redis/embedded/RedisClusterBuilder.java:41-44 | when the current provider supplies every port, the planned group is appended; otherwise the error is reported and no group is added, though the calls made stay consumed |
| Builder.RedisClusterBuilder.BuildMaster | src/main/java/redis/embedded/RedisClusterBuilder.java:76-86 | the master port is appended to the master list and the server returned is on that port with the four cluster lines, not running |
| Builder.RedisClusterBuilder.BuildSlaves | src/main/java/redis/embedded/RedisClusterBuilder.java:61-74 | each slave port is appended to the slave list and its server to the server list, in the group's order |
| Builder.RedisClusterBuilder.BuildServers | src/main/java/redis/embedded/RedisClusterBuilder.java:52-59 | the servers are those of the groups in group order, each master before its slaves; the master and slave lists grow by the groups' master and slave ports |
| Builder.RedisClusterBuilder.Build | src/main/java/redis/embedded/RedisClusterBuilder.java:46-50 | a fresh cluster with no sentinels, the built servers and the builder's own two lists (shared, not copied), which have been appended to rather than reset |
| Builder.BuildTwice | src/main/java/redis/embedded/RedisClusterBuilder.java:46-50 | two builds share the builder's lists, which then hold every master and slave port twice, and both clusters see this |
| Builder.BuiltServers | src/main/java/redis/embedded/RedisClusterBuilder.java:52-86 | one server per port the groups call for, each on its own port with the cluster settings of that port and not running, exposing the group ports in group order |
| Builder.ServersArePorts | src/main/java/redis/embedded/RedisClusterBuilder.java:52-59 | the built servers are, position by position, the cluster servers of the group ports |
| Builder.PortsCount | src/main/java/redis/embedded/RedisClusterBuilder.java:52-86 | there are as many server ports as servers called for, one master port per group, and master plus slave ports account for every server port |
| Builder.PortsPartition | src/main/java/redis/embedded/RedisClusterBuilder.java:52-86 | as multisets, the server ports are exactly the master ports plus the slave ports |
| Builder.DistinctSettings | src/main/java/redis/embedded/RedisClusterBuilder.java:61-86 | two built servers have the same settings iff they are on the same port |
| Builder.InGroupOrder | src/main/java/redis/embedded/RedisClusterBuilder.java:52-59 | the servers of group k sit between those of the earlier and the later groups, and group k's master is at the position counting the servers of the groups before it |
| Builder.ScenarioGroups | src/test/java/redis/embedded/RedisClusterTest.java:20-31 | the three test groups give master ports 7001, 7002, 7003, slave ports 8001, 8002, 8003 and server ports 7001, 8001, 7002, 8002, 7003, 8003 |
| Builder.PairPlan | src/test/java/redis/embedded/RedisClusterTest.java:28-30 | a one-slave group drawn from a two-port list takes the first port as master and the second as slave |
| Builder.PredefinedPortsScenario | src/test/java/redis/embedded/RedisClusterTest.java:20-31 | the test's builder calls give a cluster without sentinels whose servers are not running, with master list 7001, 7002, 7003, slave list 8001, 8002, 8003 and server ports in group order |
| Settings.NatText | src/main/java/redis/embedded/RedisClusterBuilder.java:68 | the decimal text of a port is a non-empty digit string |
| Settings.ParseNatText | src/main/java/redis/embedded/RedisClusterBuilder.java:68 | reading the decimal text of n back gives n |
| Settings.IntTextRoundTrip | src/main/java/redis/embedded/RedisClusterBuilder.java:68 | the text Java gives an int, minus sign included, has the expected shape and reads back as that int |
| Settings.NodeFileInjective | src/main/java/redis/embedded/RedisClusterBuilder.java:68 | two ports with the same node file name are the same port |
| Settings.ClusterSettingsInjective | src/main/java/redis/embedded/RedisClusterBuilder.java:78-85 | two ports with the same four cluster lines are the same port, so distinct nodes never share a cluster state file |
| Slots.SlotsOfIsFilter | src/main/java/redis/embedded/RedisCluster.java:79-81 | the batch of master i is exactly the code's filter of 0 .. 16383 for residue i, in increasing order |
| Slots.SlotsFromExactly | src/main/java/redis/embedded/RedisCluster.java:79-81 | the filter from lo holds exactly the slots lo <= s < 16384 with s mod n == i, increasing |
| Slots.SlotsOfExactly | src/main/java/redis/embedded/RedisCluster.java:79-81 | slot s is in master i's batch iff 0 <= s < 16384 and s mod n == i, and the batch is strictly increasing |
| Slots.IncreasingUnique | src/main/java/redis/embedded/RedisCluster.java:79-81 | two strictly increasing slot lists with the same members are equal, so the batch is determined by its set of slots |
| Slots.SlotOwnedOnce | src/main/java/redis/embedded/RedisCluster.java:77-82 | every slot is in the batch of master s mod n and of no other master |
| Slots.SlotsDisjoint | src/main/java/redis/embedded/RedisCluster.java:77-82 | the batches of two distinct masters share no slot |
| Slots.SlotsCover | src/main/java/redis/embedded/RedisCluster.java:69-82 | together the batches of masters 0 .. n-1 cover all 16384 slots |
| Members.FirstRefused | src/main/java/redis/embedded/RedisCluster.java:48-53 | the index of the first member whose start or stop fails: every call before it succeeds and it fails, or n when all succeed |
| Members.FlattenAppend | src/main/java/redis/embedded/RedisCluster.java:141-146 | the ports of two member lists concatenated are the ports of the first list followed by those of the second |
| Members.FlattenMembers | src/main/java/redis/embedded/RedisCluster.java:152-158 | a port is collected iff some member of the list exposes it |
| Members.SetActiveKeepsPorts | src/main/java/redis/embedded/RedisCluster.java:47-53 | starting or stopping members changes no member's ports |
| Trace.SessionReads | src/main/java/redis/embedded/RedisCluster.java:70-94 | a connection's life opens exactly one connection, to its port, and shows the MEETs and slot batches of its commands |
| Trace.SessionBracketed | src/main/java/redis/embedded/RedisCluster.java:89-94 | a connection is closed after its commands, each of which was sent on it |
| Bootstrap.FirstBadMaster | src/main/java/redis/embedded/RedisCluster.java:69-95 | the first master whose MEET or slot sync fails: every master before it succeeds and it fails, or N when none fails |
| Bootstrap.FirstBadSlave | src/main/java/redis/embedded/RedisCluster.java:107-122 | the first slave whose MEET fails: every slave before it succeeds and it fails, or the slave count when none fails |
| BootstrapFacts.MasterCommandsOnConnection | src/main/java/redis/embedded/RedisCluster.java:71-82 | every command of master i's step goes to masters[i] on its own connection |
| BootstrapFacts.MasterBlockReads | src/main/java/redis/embedded/RedisCluster.java:71-75 | master i's step opens one connection, to masters[i], and sends MEET iff the skip test lets it |
| BootstrapFacts.MasterBlockBatches | src/main/java/redis/embedded/RedisCluster.java:77-82 | a step that gets past its MEET sends exactly one slot batch, the residue class of i, to masters[i] |
| BootstrapFacts.MasterBlockShape | src/main/java/redis/embedded/RedisCluster.java:70-94 | master i's step opens and closes its connection, MEETs only the seed and ends with the close, whether or not it failed |
| BootstrapFacts.MasterBlocksOpens | src/main/java/redis/embedded/RedisCluster.java:69-71 | phase A contacts masters 0 .. k-1 in index order |
| BootstrapFacts.MasterBlocksMeets | src/main/java/redis/embedded/RedisCluster.java:69-75 | phase A's MEETs come from the masters the skip test lets through, in index order |
| BootstrapFacts.MasterBlocksBatches | src/main/java/redis/embedded/RedisCluster.java:69-95 | when every step succeeds, phase A sends exactly the slot assignment: master i gets the slots of residue i |
| BootstrapFacts.SlotAssignmentPartitions | src/main/java/redis/embedded/RedisCluster.java:77-82 | each slot is in the batch of exactly one assignment entry, the one of index s mod N |
| BootstrapFacts.MasterBlocksShape | src/main/java/redis/embedded/RedisCluster.java:69-95 | phase A keeps the connection discipline, starts and stops no member, only MEETs the seed and ends with a Close |
| BootstrapFacts.SlaveBlocksFacts | src/main/java/redis/embedded/RedisCluster.java:107-122 | phase B contacts the slaves in list order, each sending one MEET, to the seed only, and no slots; it keeps the connection discipline and ends with the last slave's Close |
| BootstrapFacts.StartedEventsAre | src/main/java/redis/embedded/RedisCluster.java:48-53 | starting k members yields k start events in index order |
| BootstrapFacts.StoppedEventsAre | src/main/java/redis/embedded/RedisCluster.java:132-137 | stopping k members yields k stop events in index order |
| BootstrapFacts.MasterMeetSourcesAre | src/main/java/redis/embedded/RedisCluster.java:73-75 | the MEET senders are all masters except the one whose index equals the seed's port number, if any |
| BootstrapFacts.MasterMeetCount | src/main/java/redis/embedded/RedisCluster.java:73-75 | phase A sends N MEETs, or N - 1 when the seed's port number is the index of a master |
| BootstrapFacts.SeedMeetsItself | src/main/java/redis/embedded/RedisCluster.java:60-75 | when the seed port is at least N, every master, the seed included, MEETs the seed, against the comment's stated intent |
| BootstrapFacts.SeedMeetsItselfInTrace | src/main/java/redis/embedded/RedisCluster.java:60-95 | for every outcome of the setup, when the seed port is at least N, the first MEET in the trace is sent by the seed to itself |
| BootstrapFacts.SeedSkipMisses | src/main/java/redis/embedded/RedisCluster.java:73 | the skip test spares exactly the seed only for seed port 0; a seed port p with 0 < p < N spares master p instead |
| Cluster.RedisCluster.constructor | src/main/java/redis/embedded/RedisCluster.java:20-29 | the member lists are copied, the port lists are the caller's own objects, and nothing has happened yet |
| Cluster.RedisCluster.IsActive | src/main/java/redis/embedded/RedisCluster.java:32-44 | true iff every sentinel and every server is running |
| Cluster.RedisCluster.CollectPorts | src/main/java/redis/embedded/RedisCluster.java:152-158 | the members' ports member by member, and a port occurs iff some member exposes it |
| Cluster.RedisCluster.SentinelPorts | src/main/java/redis/embedded/RedisCluster.java:152-158 | the sentinels' ports in list order |
| Cluster.RedisCluster.ServerPorts | src/main/java/redis/embedded/RedisCluster.java:164-170 | the servers' ports in list order |
| Cluster.RedisCluster.Ports | src/main/java/redis/embedded/RedisCluster.java:141-146 | sentinel ports followed by server ports, which are the ports of all members in that order |
| Cluster.RedisCluster.Sentinels | src/main/java/redis/embedded/RedisCluster.java:148-150 | a copy of the sentinel list |
| Cluster.RedisCluster.Servers | src/main/java/redis/embedded/RedisCluster.java:160-162 | a copy of the server list |
| Cluster.RedisCluster.StartAll | src/main/java/redis/embedded/RedisCluster.java:48-53 | members are started in order up to the first refusal; exactly those before it are running, and one start event is recorded for each |
| Cluster.RedisCluster.Start | src/main/java/redis/embedded/RedisCluster.java:47-128 | the trace, the members and the outcome are those of the start specification |
| Cluster.RedisCluster.SetUp | src/main/java/redis/embedded/RedisCluster.java:60-127 | the trace grows by the setup specification's events and the outcome is its outcome; the members are unchanged |
| Cluster.RedisCluster.SetUpMasters | src/main/java/redis/embedded/RedisCluster.java:69-95 | masters are processed in index order up to and including the first failing one, whose index is returned (N when none fails) |
| Cluster.RedisCluster.SetUpSlaves | src/main/java/redis/embedded/RedisCluster.java:107-122 | slaves are processed in order up to and including the first whose MEET fails, whose index is returned |
| Cluster.RedisCluster.SetUpMaster | src/main/java/redis/embedded/RedisCluster.java:70-94 | master i's step as specified (open, MEET unless skipped, batch and sync unless the MEET failed, close); it succeeds iff its MEET and its sync do |
| Cluster.RedisCluster.SetUpSlave | src/main/java/redis/embedded/RedisCluster.java:108-121 | open, MEET the seed, close; it succeeds iff the MEET does |
| Cluster.RedisCluster.StopAll | src/main/java/redis/embedded/RedisCluster.java:132-137 | members are stopped in order up to the first refusal; exactly those before it are stopped, and one stop event is recorded for each |
| Cluster.RedisCluster.Stop | src/main/java/redis/embedded/RedisCluster.java:131-138 | the trace, the members and the outcome are those of the stop specification |
| StartStop.SetupSucceedsIff | src/main/java/redis/embedded/RedisCluster.java:60-127 | the setup succeeds iff there is a master, every master step succeeds and every slave MEET succeeds |
| StartStop.SetupSuccess | src/main/java/redis/embedded/RedisCluster.java:60-127 | a successful setup opens connections to the masters and then the slaves, in order; MEETs come from the masters the skip test lets through and from every slave; the batches are exactly the slot assignment; the 500 ms wait is last |
| StartStop.SetupMasterFailure | src/main/java/redis/embedded/RedisCluster.java:84-88 | a failing master ends the setup with an error naming its port, right after its connection is closed; masters up to it were contacted, the earlier ones got their batches, and no slave was contacted |
| StartStop.SetupSlaveFailure | src/main/java/redis/embedded/RedisCluster.java:111-115 | a failing slave MEET ends the setup with an error naming its port, right after its connection is closed; all slots were assigned and slaves up to it were contacted |
| StartStop.SetupShape | src/main/java/redis/embedded/RedisCluster.java:60-127 | whatever the outcome, the setup keeps the connection discipline, starts and stops no member and MEETs only the seed; without masters it does nothing |
| StartStop.StartMembers | src/main/java/redis/embedded/RedisCluster.java:48-53 | once every member starts, every sentinel and every server is running with its ports unchanged |
| StartStop.StartRunsSetup | src/main/java/redis/embedded/RedisCluster.java:47-128 | once every member starts, start() reports the setup's outcome, leaves every member running whatever that outcome is, and its trace reads as the setup's |
| StartStop.StartSucceedsIff | src/main/java/redis/embedded/RedisCluster.java:47-128 | start() succeeds iff every member starts, there is a master, and every master step and every slave MEET succeeds |
| StartStop.StartSuccess | src/main/java/redis/embedded/RedisCluster.java:47-128 | after a successful start every member is running, the masters were contacted in order and then the slaves, all 16384 slots were handed out as the slot assignment, and the final wait was last |
| StartStop.StartSentinelRefused | src/main/java/redis/embedded/RedisCluster.java:48-50 | a sentinel that fails to start ends start() with that error; the earlier sentinels are running, the rest and all servers are untouched, and no connection is opened |
| StartStop.StartServerRefused | src/main/java/redis/embedded/RedisCluster.java:51-53 | a server that fails to start ends start() with that error; every sentinel and the earlier servers are running, the rest are untouched, and no connection is opened |
| StartStop.StartWithoutMasters | src/main/java/redis/embedded/RedisCluster.java:60 | with no master, start() fails after every member has started; those members stay running and no connection is opened |
| StartStop.StartShape | src/main/java/redis/embedded/RedisCluster.java:47-128 | whatever the outcome, member starts come before everything else, no member is stopped, the connection discipline holds, MEETs go only to the seed, and ports are unchanged |
| StartStop.TestClusterStart | src/test/java/redis/embedded/RedisClusterTest.java:20-32 | a successful start of the test cluster MEETs 7001 from all three masters (7001 itself included) and from the three slaves, and gives 7001, 7002, 7003 the slots of residue 0, 1, 2 modulo 3 |
| StartStop.StopSucceedsIff | src/main/java/redis/embedded/RedisCluster.java:131-138 | stop() succeeds iff every sentinel and every server stops |
| StartStop.StopSuccess | src/main/java/redis/embedded/RedisCluster.java:131-138 | after a successful stop no member is running, ports are unchanged, and the sentinels and then the servers were stopped once each, in list order |
| StartStop.StopSentinelRefused | src/main/java/redis/embedded/RedisCluster.java:132-134 | a sentinel that fails to stop ends stop() with that error; the earlier sentinels are stopped, the rest and all servers keep their state |
| StartStop.StopServerRefused | src/main/java/redis/embedded/RedisCluster.java:135-137 | a server that fails to stop ends stop() with that error; every sentinel and the earlier servers are stopped, the rest keep their state |

## Left out

- Network I/O with Jedis is not modelled: an oracle decides whether each MEET reply and each pipeline sync fails, and a connection that cannot be made counts as the failure of its first command.
- Cluster.RedisCluster.SetUpMaster: the pipeline sends one `CLUSTER ADDSLOTS` per slot, while the model records one batch event per master holding the same slots in the same order. The per-slot replies are not modelled; only whether the sync throws is.
- `Thread.sleep` is kept only as `Wait` events carrying the delay; clocks and real convergence of the cluster's gossip are outside the model.
- Bootstrap.Setup: the first wait is `N * 300` on unbounded integers. Java's int multiplication would wrap only for more than seven million masters, which no real cluster has.
- `InterruptedException` from the waits is not modelled.
- Exception messages are modelled by the failing port or member index, not as strings. Stack traces copied from the cause are not modelled.
- Member processes (`RedisServer`, `RedisServerBuilder`, sentinels) are not part of this model. A member is its ports, its configuration lines and a running flag, the shape of the `Redis` interface in `Redis.java`. Its start and stop succeed or fail as the oracle says.
- Member objects are values, so aliasing between member objects is not modelled. The port lists, which the builder and its clusters do share, are objects.
- The port provider implementations (sequence from 6379, predefined list, ephemeral OS port) are not part of this model. Each is an answer oracle given to the builder. `Builder.ListAnswers` stands for the predefined list of the test.
- `withServerBuilder` and the `reset()`/`port()`/`setting()` calls on the server builder template are folded into `Builder.ClusterServer`, since the template is reset before every server.
- The static `RedisCluster.builder()` factory is the builder's constructor.
- From the tests, only the predefined-ports cluster set-up and start are modelled. The ephemeral-port cluster and the `JedisCluster` get/set checks need a running Redis.
