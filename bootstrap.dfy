/**
 * The cluster start protocol as a specification over a trace of events:
 * member start, then phase A (for every master: open a connection, maybe
 * CLUSTER MEET the seed, pipeline CLUSTER ADDSLOTS for its residue class of
 * the 16384 hash slots, sync, close) and phase B (for every slave: open,
 * CLUSTER MEET the seed, close), with the two settling waits. The network and
 * the member processes are replaced by an oracle (Env) that decides which
 * calls fail.
 */
module Bootstrap {
  import opened Common
  import opened Members
  import opened Slots
  import opened Trace

  /** Settling delay after phase A, per master, in milliseconds. */
  const MASTER_SETTLE_MS: nat := 300
  /** Settling delay after phase B, in milliseconds. */
  const SLAVE_SETTLE_MS: nat := 500

  /**
   * Which calls fail: member start and stop per (role, index), the MEET reply
   * and the pipelined ADDSLOTS sync per port. A connection that cannot be made
   * shows up as the failure of the first command on it.
   */
  datatype Env = Env(
    startOk: (Role, nat) -> bool,
    stopOk: (Role, nat) -> bool,
    meetOk: int -> bool,
    slotsOk: int -> bool)

  datatype StartError =
    | MemberStartFailed(role: Role, index: nat)
    | NoMasters                      // mastersPorts.get(0) on an empty list
    | MasterSetupFailed(port: int)   // a master's step failed; the error names its port (RedisCluster.java:84-88)
    | SlaveSetupFailed(port: int)    // a slave's MEET failed; the error names its port (RedisCluster.java:111-115)

  datatype StopError = MemberStopFailed(role: Role, index: nat)

  // ----- member lifecycle events -----

  function StartedEvents(role: Role, k: nat): seq<Event>
  {
    if k == 0 then [] else StartedEvents(role, k - 1) + [Started(role, k - 1)]
  }

  function StoppedEvents(role: Role, k: nat): seq<Event>
  {
    if k == 0 then [] else StoppedEvents(role, k - 1) + [Stopped(role, k - 1)]
  }

  // ----- phase A: masters -----

  /**
   * The seed-skip test as the code writes it: it compares the loop INDEX i
   * with the seed's PORT number, not with the seed's index 0.
   */
  predicate SendsMeet(i: nat, seed: int)
  {
    i != seed
  }

  /** Master i completes its step: its MEET (if sent) and its slot batch succeed. */
  predicate MasterOk(masters: seq<int>, i: nat, env: Env)
    requires i < |masters|
  {
    (SendsMeet(i, masters[0]) ==> env.meetOk(masters[i])) && env.slotsOk(masters[i])
  }

  /**
   * The commands master i is sent: MEET the seed (when the test lets it),
   * then, unless that MEET failed, the pipelined ADDSLOTS batch and its sync.
   */
  function MasterCommands(masters: seq<int>, i: nat, env: Env): seq<Event>
    requires i < |masters|
  {
    var p := masters[i];
    var meet := if SendsMeet(i, masters[0]) then [Send(p, Meet(HOST, masters[0]))] else [];
    if SendsMeet(i, masters[0]) && !env.meetOk(p) then meet
    else meet + [Send(p, AddSlots(SlotsOf(i, |masters|))), Sync(p)]
  }

  /** The step for master i; the connection is closed on success and on failure. */
  function MasterBlock(masters: seq<int>, i: nat, env: Env): seq<Event>
    requires i < |masters|
  {
    Session(masters[i], MasterCommands(masters, i, env))
  }

  /** The steps of masters 0 .. k-1, in index order. */
  function MasterBlocks(masters: seq<int>, k: nat, env: Env): seq<Event>
    requires k <= |masters|
  {
    if k == 0 then [] else MasterBlocks(masters, k - 1, env) + MasterBlock(masters, k - 1, env)
  }

  /** The first of masters 0 .. k-1 whose step fails, or k. */
  function FirstBadMaster(masters: seq<int>, k: nat, env: Env): (r: nat)
    requires k <= |masters|
    ensures r <= k
    ensures forall j :: 0 <= j < r ==> MasterOk(masters, j, env)
    ensures r < k ==> !MasterOk(masters, r, env)
  {
    if k == 0 then 0
    else
      var r := FirstBadMaster(masters, k - 1, env);
      if r < k - 1 then r else if MasterOk(masters, k - 1, env) then k else k - 1
  }

  /** The slot assignment phase A is meant to make: master i of n gets SlotsOf(i, n). */
  function SlotAssignment(masters: seq<int>, k: nat): seq<(int, seq<nat>)>
    requires 0 < |masters| && k <= |masters|
  {
    seq(k, i requires 0 <= i < k => (masters[i], SlotsOf(i, |masters|)))
  }

  /** The masters, among 0 .. k-1, that send MEET, in index order. */
  function MasterMeetSources(masters: seq<int>, k: nat): seq<int>
    requires 0 < |masters| && k <= |masters|
  {
    if k == 0 then []
    else MasterMeetSources(masters, k - 1) + (if SendsMeet(k - 1, masters[0]) then [masters[k - 1]] else [])
  }

  // ----- phase B: slaves -----

  function SlaveBlock(sp: int, seed: int): seq<Event>
  {
    Session(sp, [Send(sp, Meet(HOST, seed))])
  }

  function SlaveBlocks(slaves: seq<int>, k: nat, seed: int): seq<Event>
    requires k <= |slaves|
  {
    if k == 0 then [] else SlaveBlocks(slaves, k - 1, seed) + SlaveBlock(slaves[k - 1], seed)
  }

  /** The first of slaves 0 .. k-1 whose MEET fails, or k. */
  function FirstBadSlave(slaves: seq<int>, k: nat, env: Env): (r: nat)
    requires k <= |slaves|
    ensures r <= k
    ensures forall j :: 0 <= j < r ==> env.meetOk(slaves[j])
    ensures r < k ==> !env.meetOk(slaves[r])
  {
    if k == 0 then 0
    else
      var r := FirstBadSlave(slaves, k - 1, env);
      if r < k - 1 then r else if env.meetOk(slaves[k - 1]) then k else k - 1
  }

  // ----- start and stop -----

  datatype SetupResult = SetupResult(events: seq<Event>, outcome: Outcome<StartError>)

  /**
   * Turning the running servers into a cluster: take mastersPorts[0] as the
   * seed, run phase A, the settling wait of 300 ms per master, phase B and the
   * final wait of 500 ms. The first failing node ends the setup with an error
   * naming its port.
   */
  function Setup(masters: seq<int>, slaves: seq<int>, env: Env): SetupResult
  {
    if |masters| == 0 then SetupResult([], Fail(NoMasters))
    else
      var n := |masters|;
      var fm := FirstBadMaster(masters, n, env);
      if fm < n then
        SetupResult(MasterBlocks(masters, fm + 1, env), Fail(MasterSetupFailed(masters[fm])))
      else
        var phaseA := MasterBlocks(masters, n, env) + [Wait(n * MASTER_SETTLE_MS)];
        var fs := FirstBadSlave(slaves, |slaves|, env);
        if fs < |slaves| then
          SetupResult(phaseA + SlaveBlocks(slaves, fs + 1, masters[0]), Fail(SlaveSetupFailed(slaves[fs])))
        else
          SetupResult(phaseA + SlaveBlocks(slaves, |slaves|, masters[0]) + [Wait(SLAVE_SETTLE_MS)], Pass)
  }

  datatype StartResult = StartResult(
    events: seq<Event>, sentinels: seq<Member>, servers: seq<Member>, outcome: Outcome<StartError>)

  /**
   * What start() does: start sentinels, then servers (a failing start
   * propagates), then the setup. Nothing is stopped or undone on failure.
   */
  function StartSpec(sentinels: seq<Member>, servers: seq<Member>, masters: seq<int>, slaves: seq<int>, env: Env): StartResult
  {
    var ks := FirstRefused(env.startOk, Sentinel, |sentinels|);
    if ks < |sentinels| then
      StartResult(StartedEvents(Sentinel, ks), SetActive(sentinels, ks, true), servers,
                  Fail(MemberStartFailed(Sentinel, ks)))
    else
      var kv := FirstRefused(env.startOk, Server, |servers|);
      var started := StartedEvents(Sentinel, ks) + StartedEvents(Server, kv);
      var sen := SetActive(sentinels, ks, true);
      var srv := SetActive(servers, kv, true);
      if kv < |servers| then StartResult(started, sen, srv, Fail(MemberStartFailed(Server, kv)))
      else
        var setup := Setup(masters, slaves, env);
        StartResult(started + setup.events, sen, srv, setup.outcome)
  }

  datatype StopResult = StopResult(
    events: seq<Event>, sentinels: seq<Member>, servers: seq<Member>, outcome: Outcome<StopError>)

  /** What stop() does: stop sentinels, then servers, in order, up to the first failure. */
  function StopSpec(sentinels: seq<Member>, servers: seq<Member>, env: Env): StopResult
  {
    var ks := FirstRefused(env.stopOk, Sentinel, |sentinels|);
    if ks < |sentinels| then
      StopResult(StoppedEvents(Sentinel, ks), SetActive(sentinels, ks, false), servers,
                 Fail(MemberStopFailed(Sentinel, ks)))
    else
      var kv := FirstRefused(env.stopOk, Server, |servers|);
      StopResult(StoppedEvents(Sentinel, ks) + StoppedEvents(Server, kv),
                 SetActive(sentinels, ks, false), SetActive(servers, kv, false),
                 if kv < |servers| then Fail(MemberStopFailed(Server, kv)) else Pass)
  }
}
