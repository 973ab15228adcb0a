/**
 * What start() and stop() guarantee, read off their specifications: exactly
 * when they succeed, what a successful start does to the cluster, which error
 * a failure reports and in what state it leaves the members and the nodes.
 */
module StartStop {
  import opened Common
  import opened Members
  import opened Slots
  import opened Trace
  import opened Bootstrap
  import opened BootstrapFacts

  /** A settling wait reads nothing and keeps the connection discipline. */
  lemma WaitFacts(w: nat, seed: int)
    ensures Opens([Wait(w)]) == [] && Meets([Wait(w)]) == [] && Batches([Wait(w)]) == []
    ensures WellBracketed([Wait(w)]) && MeetsOnly([Wait(w)], seed) && NoLifecycle([Wait(w)])
  {
    GatherOne(Wait(w), OpenedPort);
    GatherOne(Wait(w), MeetSender);
    GatherOne(Wait(w), SlotBatch);
    assert [Wait(w)][1..] == [];
  }

  /** Reading across a settling wait and a trailing one, from what each part shows. */
  lemma GatherWaits<T>(a: seq<Event>, b: seq<Event>, w1: nat, w2: nat, f: Event -> seq<T>, x: seq<T>, y: seq<T>)
    requires Gather(a, f) == x && Gather(b, f) == y && f(Wait(w1)) == [] && f(Wait(w2)) == []
    ensures Gather(a + [Wait(w1)] + b, f) == x + y
    ensures Gather(a + [Wait(w1)] + b + [Wait(w2)], f) == x + y
  {
    GatherOne(Wait(w1), f);
    GatherOne(Wait(w2), f);
    GatherAppend(a, [Wait(w1)], f);
    GatherAppend(a + [Wait(w1)], b, f);
    GatherAppend(a + [Wait(w1)] + b, [Wait(w2)], f);
  }

  /** Reading a concatenation, from what each part shows. */
  lemma GatherPair<T>(a: seq<Event>, b: seq<Event>, f: Event -> seq<T>, x: seq<T>, y: seq<T>)
    requires Gather(a, f) == x && Gather(b, f) == y
    ensures Gather(a + b, f) == x + y
  {
    GatherAppend(a, b, f);
  }

  /** Connection discipline, no member lifecycle, and MEETs only to the seed. */
  predicate AdminShaped(t: seq<Event>, seed: int)
  {
    WellBracketed(t) && NoLifecycle(t) && MeetsOnly(t, seed)
  }

  lemma ShapeWaits(a: seq<Event>, b: seq<Event>, w1: nat, w2: nat, seed: int)
    requires AdminShaped(a, seed) && AdminShaped(b, seed)
    ensures AdminShaped(a + [Wait(w1)] + b, seed)
    ensures AdminShaped(a + [Wait(w1)] + b + [Wait(w2)], seed)
  {
    WaitFacts(w1, seed);
    WaitFacts(w2, seed);
    ConcatShape(a, [Wait(w1)], seed);
    ConcatShape(a + [Wait(w1)], b, seed);
    ConcatShape(a + [Wait(w1)] + b, [Wait(w2)], seed);
  }

  // ----- the setup -----

  /** The setup ends normally exactly when there is a master and every node step succeeds. */
  lemma SetupSucceedsIff(masters: seq<int>, slaves: seq<int>, env: Env)
    ensures Setup(masters, slaves, env).outcome == Pass <==>
      |masters| > 0 &&
      (forall i :: 0 <= i < |masters| ==> MasterOk(masters, i, env)) &&
      (forall j :: 0 <= j < |slaves| ==> env.meetOk(slaves[j]))
  {
    if |masters| > 0 && (forall i :: 0 <= i < |masters| ==> MasterOk(masters, i, env)) {
      assert FirstBadMaster(masters, |masters|, env) == |masters|;
    }
  }

  /**
   * A successful setup opens one connection per master, then one per slave,
   * in list order; MEETs come from the masters the skip test lets through and
   * from every slave; the batches sent are exactly the slot assignment; and
   * the final 500 ms wait comes last.
   */
  lemma SetupSuccess(masters: seq<int>, slaves: seq<int>, env: Env)
    requires Setup(masters, slaves, env).outcome == Pass
    ensures var t := Setup(masters, slaves, env).events;
      |masters| > 0 &&
      Opens(t) == masters + slaves &&
      Meets(t) == MasterMeetSources(masters, |masters|) + slaves &&
      Batches(t) == SlotAssignment(masters, |masters|) &&
      t[|t| - 1] == Wait(SLAVE_SETTLE_MS)
  {
    SetupSucceedsIff(masters, slaves, env);
    var n := |masters|;
    var seed := masters[0];
    assert FirstBadMaster(masters, n, env) == n;
    assert FirstBadSlave(slaves, |slaves|, env) == |slaves|;
    var a, w1 := MasterBlocks(masters, n, env), n * MASTER_SETTLE_MS;
    var b, w2 := SlaveBlocks(slaves, |slaves|, seed), SLAVE_SETTLE_MS;
    assert Setup(masters, slaves, env).events == a + [Wait(w1)] + b + [Wait(w2)];
    MasterBlocksOpens(masters, n, env);
    MasterBlocksMeets(masters, n, env);
    MasterBlocksBatches(masters, n, env);
    SlaveBlocksFacts(slaves, |slaves|, seed);
    GatherWaits(a, b, w1, w2, OpenedPort, masters[..n], slaves[..|slaves|]);
    GatherWaits(a, b, w1, w2, MeetSender, MasterMeetSources(masters, n), slaves[..|slaves|]);
    GatherWaits(a, b, w1, w2, SlotBatch, SlotAssignment(masters, n), []);
    assert masters[..n] == masters;
    assert slaves[..|slaves|] == slaves;
  }

  /**
   * A failing master step ends the setup right after that master's connection
   * is closed: masters 0 .. fm were contacted, no slave was, and masters
   * before fm got their batches.
   */
  lemma SetupMasterFailure(masters: seq<int>, slaves: seq<int>, env: Env)
    requires |masters| > 0 && FirstBadMaster(masters, |masters|, env) < |masters|
    ensures var fm := FirstBadMaster(masters, |masters|, env);
      var t := Setup(masters, slaves, env).events;
      Setup(masters, slaves, env).outcome == Fail(MasterSetupFailed(masters[fm])) &&
      Opens(t) == masters[..fm + 1] &&
      |Batches(t)| >= fm && Batches(t)[..fm] == SlotAssignment(masters, fm) &&
      t[|t| - 1] == Close(masters[fm])
  {
    var fm := FirstBadMaster(masters, |masters|, env);
    var prev, last := MasterBlocks(masters, fm, env), MasterBlock(masters, fm, env);
    assert Setup(masters, slaves, env).events == prev + last;
    MasterBlocksOpens(masters, fm + 1, env);
    MasterBlocksBatches(masters, fm, env);
    MasterBlockShape(masters, fm, env);
    GatherPair(prev, last, SlotBatch, SlotAssignment(masters, fm), Batches(last));
    assert (SlotAssignment(masters, fm) + Batches(last))[..fm] == SlotAssignment(masters, fm);
  }

  /**
   * A failing slave MEET ends the setup right after that slave's connection is
   * closed: every master was contacted and every slot assigned, and slaves
   * 0 .. fs were contacted.
   */
  lemma SetupSlaveFailure(masters: seq<int>, slaves: seq<int>, env: Env)
    requires |masters| > 0 && FirstBadMaster(masters, |masters|, env) == |masters|
    requires FirstBadSlave(slaves, |slaves|, env) < |slaves|
    ensures var fs := FirstBadSlave(slaves, |slaves|, env);
      var t := Setup(masters, slaves, env).events;
      Setup(masters, slaves, env).outcome == Fail(SlaveSetupFailed(slaves[fs])) &&
      Opens(t) == masters + slaves[..fs + 1] &&
      Batches(t) == SlotAssignment(masters, |masters|) &&
      t[|t| - 1] == Close(slaves[fs])
  {
    SlaveFailureReads(masters, slaves, FirstBadSlave(slaves, |slaves|, env) + 1, env);
  }

  /** What phase A, its wait and the first k slave steps show, k > 0. */
  lemma SlaveFailureReads(masters: seq<int>, slaves: seq<int>, k: nat, env: Env)
    requires |masters| > 0 && 0 < k <= |slaves|
    requires forall j :: 0 <= j < |masters| ==> MasterOk(masters, j, env)
    ensures var n := |masters|;
      var t := MasterBlocks(masters, n, env) + [Wait(n * MASTER_SETTLE_MS)] + SlaveBlocks(slaves, k, masters[0]);
      Opens(t) == masters + slaves[..k] && Batches(t) == SlotAssignment(masters, n) &&
      t[|t| - 1] == Close(slaves[k - 1])
  {
    var n, seed := |masters|, masters[0];
    var a, w1 := MasterBlocks(masters, n, env), n * MASTER_SETTLE_MS;
    var b := SlaveBlocks(slaves, k, seed);
    MasterBlocksOpens(masters, n, env);
    MasterBlocksBatches(masters, n, env);
    SlaveBlocksFacts(slaves, k, seed);
    GatherWaits(a, b, w1, 0, OpenedPort, masters[..n], slaves[..k]);
    GatherWaits(a, b, w1, 0, SlotBatch, SlotAssignment(masters, n), []);
    assert masters[..n] == masters;
  }

  /**
   * Whatever its outcome, the setup keeps the connection discipline, starts
   * and stops no member, and MEETs only the seed; without masters it does
   * nothing at all.
   */
  lemma SetupShape(masters: seq<int>, slaves: seq<int>, env: Env)
    ensures var t := Setup(masters, slaves, env).events;
      WellBracketed(t) && NoLifecycle(t) &&
      (|masters| > 0 ==> MeetsOnly(t, masters[0])) &&
      (|masters| == 0 ==> t == [])
  {
    if |masters| > 0 {
      var n := |masters|;
      var fm := FirstBadMaster(masters, n, env);
      if fm < n {
        MasterBlocksShape(masters, fm + 1, env);
        assert Setup(masters, slaves, env).events == MasterBlocks(masters, fm + 1, env);
      } else {
        PhasesShape(masters, slaves, env);
      }
    } else {
      assert WellBracketed([]);
    }
  }

  /** Phase A, its wait and k slave steps keep the shape, with or without the final wait. */
  lemma PhaseShapes(masters: seq<int>, slaves: seq<int>, k: nat, env: Env)
    requires |masters| > 0 && k <= |slaves|
    ensures var n, seed := |masters|, masters[0];
      var a, b := MasterBlocks(masters, n, env) + [Wait(n * MASTER_SETTLE_MS)], SlaveBlocks(slaves, k, seed);
      AdminShaped(a + b, seed) && AdminShaped(a + b + [Wait(SLAVE_SETTLE_MS)], seed)
  {
    var n, seed := |masters|, masters[0];
    MasterBlocksShape(masters, n, env);
    SlaveBlocksFacts(slaves, k, seed);
    ShapeWaits(MasterBlocks(masters, n, env), SlaveBlocks(slaves, k, seed), n * MASTER_SETTLE_MS, SLAVE_SETTLE_MS, seed);
  }

  lemma PhasesShape(masters: seq<int>, slaves: seq<int>, env: Env)
    requires |masters| > 0 && FirstBadMaster(masters, |masters|, env) == |masters|
    ensures AdminShaped(Setup(masters, slaves, env).events, masters[0])
  {
    var fs := FirstBadSlave(slaves, |slaves|, env);
    if fs < |slaves| {
      PhaseShapes(masters, slaves, fs + 1, env);
    } else {
      PhaseShapes(masters, slaves, |slaves|, env);
    }
  }

  /** Starting or stopping the first k members sets their flags and leaves the rest as they were. */
  lemma SetSome(ms: seq<Member>, k: nat, b: bool)
    requires k <= |ms|
    ensures var s := SetActive(ms, k, b);
      |s| == |ms| && (forall i :: 0 <= i < k ==> s[i].active == b) && s[k..] == ms[k..]
  {
    var s := SetActive(ms, k, b);
    assert forall i :: 0 <= i < |ms| - k ==> s[k..][i] == ms[k..][i];
  }

  // ----- start -----

  /** No member is stopped in t. */
  predicate NoStops(t: seq<Event>)
  {
    forall k :: 0 <= k < |t| ==> !t[k].Stopped?
  }

  /** Every member start in t comes before every other event. */
  predicate StartsFirst(t: seq<Event>)
  {
    forall a, b :: 0 <= a < b < |t| && IsLifecycle(t[b]) ==> IsLifecycle(t[a])
  }

  /** Member starts followed by administrative traffic keep their order and their discipline. */
  lemma StartsThenAdmin(p: seq<Event>, q: seq<Event>, seed: int)
    requires forall k :: 0 <= k < |p| ==> p[k].Started?
    requires AdminShaped(q, seed)
    ensures WellBracketed(p + q) && MeetsOnly(p + q, seed) && NoStops(p + q) && StartsFirst(p + q)
  {
    LifecycleBracketed(p);
    BracketedAppend(p, q, None);
    ConcatShape(p, q, seed);
    forall k | 0 <= k < |p + q|
      ensures !(p + q)[k].Stopped?
    {
      if k >= |p| {
        assert (p + q)[k] == q[k - |p|];
      }
    }
    forall k | |p| <= k < |p + q|
      ensures !IsLifecycle((p + q)[k])
    {
      assert (p + q)[k] == q[k - |p|];
    }
    forall k | 0 <= k < |p|
      ensures IsLifecycle((p + q)[k])
    {
      assert (p + q)[k] == p[k];
    }
  }

  /** The member-start prefix: sentinels 0 .. ns-1, then servers 0 .. nv-1, and nothing else. */
  lemma StartedPrefix(ns: nat, nv: nat)
    ensures var t := StartedEvents(Sentinel, ns) + StartedEvents(Server, nv);
      |t| == ns + nv &&
      (forall j :: 0 <= j < ns ==> t[j] == Started(Sentinel, j)) &&
      (forall j :: ns <= j < ns + nv ==> t[j] == Started(Server, j - ns)) &&
      Opens(t) == [] && Meets(t) == [] && Batches(t) == []
  {
    var a, b := StartedEvents(Sentinel, ns), StartedEvents(Server, nv);
    StartedEventsAre(Sentinel, ns);
    StartedEventsAre(Server, nv);
    LifecycleReads(Sentinel, ns);
    LifecycleReads(Server, nv);
    GatherPair(a, b, OpenedPort, [], []);
    GatherPair(a, b, MeetSender, [], []);
    GatherPair(a, b, SlotBatch, [], []);
    forall j | ns <= j < ns + nv
      ensures (a + b)[j] == Started(Server, j - ns)
    {
      assert (a + b)[j] == b[j - ns];
    }
  }

  /** What the member-start prefix p says about p followed by any trace t. */
  lemma AfterStarts(p: seq<Event>, t: seq<Event>, ns: nat, nv: nat)
    requires |p| == ns + nv
    requires forall j :: 0 <= j < ns ==> p[j] == Started(Sentinel, j)
    requires forall j :: ns <= j < ns + nv ==> p[j] == Started(Server, j - ns)
    requires Opens(p) == [] && Meets(p) == [] && Batches(p) == []
    ensures |p + t| == ns + nv + |t| && (p + t)[ns + nv..] == t
    ensures forall j :: 0 <= j < ns ==> (p + t)[j] == Started(Sentinel, j)
    ensures forall j :: ns <= j < ns + nv ==> (p + t)[j] == Started(Server, j - ns)
    ensures Opens(p + t) == Opens(t) && Meets(p + t) == Meets(t) && Batches(p + t) == Batches(t)
  {
    GatherPair(p, t, OpenedPort, [], Opens(t));
    GatherPair(p, t, MeetSender, [], Meets(t));
    GatherPair(p, t, SlotBatch, [], Batches(t));
    assert (p + t)[|p|..] == t;
    assert forall j :: 0 <= j < |p| ==> (p + t)[j] == p[j];
  }

  /**
   * Once every member has started, start() is the member-start prefix followed
   * by the setup: it reports the setup's outcome, leaves every member running
   * whatever that outcome (nothing is rolled back), and its trace reads as the
   * setup's.
   */
  lemma StartRunsSetup(sentinels: seq<Member>, servers: seq<Member>, masters: seq<int>, slaves: seq<int>, env: Env)
    requires forall j :: 0 <= j < |sentinels| ==> env.startOk(Sentinel, j)
    requires forall j :: 0 <= j < |servers| ==> env.startOk(Server, j)
    ensures var r := StartSpec(sentinels, servers, masters, slaves, env);
      var s := Setup(masters, slaves, env);
      var m := |sentinels| + |servers|;
      r.outcome == s.outcome &&
      AllActive(r.sentinels) && AllActive(r.servers) &&
      Flatten(r.sentinels) == Flatten(sentinels) && Flatten(r.servers) == Flatten(servers) &&
      |r.events| == m + |s.events| && r.events[m..] == s.events &&
      (forall j :: 0 <= j < |sentinels| ==> r.events[j] == Started(Sentinel, j)) &&
      (forall j :: |sentinels| <= j < m ==> r.events[j] == Started(Server, j - |sentinels|)) &&
      Opens(r.events) == Opens(s.events) && Meets(r.events) == Meets(s.events) &&
      Batches(r.events) == Batches(s.events)
  {
    var ns, nv := |sentinels|, |servers|;
    StartEventsSplit(sentinels, servers, masters, slaves, env);
    StartMembers(sentinels, servers, masters, slaves, env);
    StartedPrefix(ns, nv);
    AfterStarts(StartedEvents(Sentinel, ns) + StartedEvents(Server, nv), Setup(masters, slaves, env).events, ns, nv);
  }

  lemma StartEventsSplit(sentinels: seq<Member>, servers: seq<Member>, masters: seq<int>, slaves: seq<int>, env: Env)
    requires forall j :: 0 <= j < |sentinels| ==> env.startOk(Sentinel, j)
    requires forall j :: 0 <= j < |servers| ==> env.startOk(Server, j)
    ensures StartSpec(sentinels, servers, masters, slaves, env).events ==
      StartedEvents(Sentinel, |sentinels|) + StartedEvents(Server, |servers|) + Setup(masters, slaves, env).events
  {
    assert FirstRefused(env.startOk, Sentinel, |sentinels|) == |sentinels|;
    assert FirstRefused(env.startOk, Server, |servers|) == |servers|;
  }

  lemma StartMembers(sentinels: seq<Member>, servers: seq<Member>, masters: seq<int>, slaves: seq<int>, env: Env)
    requires forall j :: 0 <= j < |sentinels| ==> env.startOk(Sentinel, j)
    requires forall j :: 0 <= j < |servers| ==> env.startOk(Server, j)
    ensures var r := StartSpec(sentinels, servers, masters, slaves, env);
      r.outcome == Setup(masters, slaves, env).outcome &&
      AllActive(r.sentinels) && AllActive(r.servers) &&
      Flatten(r.sentinels) == Flatten(sentinels) && Flatten(r.servers) == Flatten(servers)
  {
    var ns, nv := |sentinels|, |servers|;
    assert FirstRefused(env.startOk, Sentinel, ns) == ns;
    assert FirstRefused(env.startOk, Server, nv) == nv;
    SetActiveKeepsPorts(sentinels, ns, true);
    SetActiveKeepsPorts(servers, nv, true);
  }

  /**
   * start() returns normally exactly when every sentinel and every server
   * starts, there is at least one master, every master step succeeds and
   * every slave MEET succeeds.
   */
  lemma StartSucceedsIff(sentinels: seq<Member>, servers: seq<Member>, masters: seq<int>, slaves: seq<int>, env: Env)
    ensures StartSpec(sentinels, servers, masters, slaves, env).outcome == Pass <==>
      (forall j :: 0 <= j < |sentinels| ==> env.startOk(Sentinel, j)) &&
      (forall j :: 0 <= j < |servers| ==> env.startOk(Server, j)) &&
      |masters| > 0 &&
      (forall i :: 0 <= i < |masters| ==> MasterOk(masters, i, env)) &&
      (forall j :: 0 <= j < |slaves| ==> env.meetOk(slaves[j]))
  {
    SetupSucceedsIff(masters, slaves, env);
    if (forall j :: 0 <= j < |sentinels| ==> env.startOk(Sentinel, j)) &&
       (forall j :: 0 <= j < |servers| ==> env.startOk(Server, j)) {
      StartRunsSetup(sentinels, servers, masters, slaves, env);
    }
  }

  /**
   * After a successful start every member is running, the masters and then
   * the slaves were contacted in list order, MEETs came from the masters the
   * skip test lets through and from every slave, all 16384 slots were handed
   * out as the slot assignment, and the final wait came last.
   */
  lemma StartSuccess(sentinels: seq<Member>, servers: seq<Member>, masters: seq<int>, slaves: seq<int>, env: Env)
    requires StartSpec(sentinels, servers, masters, slaves, env).outcome == Pass
    ensures var r := StartSpec(sentinels, servers, masters, slaves, env);
      |masters| > 0 &&
      AllActive(r.sentinels) && AllActive(r.servers) &&
      Opens(r.events) == masters + slaves &&
      Meets(r.events) == MasterMeetSources(masters, |masters|) + slaves &&
      Batches(r.events) == SlotAssignment(masters, |masters|) &&
      r.events[|r.events| - 1] == Wait(SLAVE_SETTLE_MS)
  {
    StartSucceedsIff(sentinels, servers, masters, slaves, env);
    StartRunsSetup(sentinels, servers, masters, slaves, env);
    SetupSuccess(masters, slaves, env);
    var r, s := StartSpec(sentinels, servers, masters, slaves, env), Setup(masters, slaves, env);
    var m := |sentinels| + |servers|;
    assert r.events[|r.events| - 1] == r.events[m..][|s.events| - 1];
  }

  /**
   * A sentinel that fails to start ends start() at once: the sentinels before
   * it are running, it and the rest are untouched, no server is started and
   * no connection is opened.
   */
  lemma StartSentinelRefused(sentinels: seq<Member>, servers: seq<Member>, masters: seq<int>, slaves: seq<int>, env: Env)
    requires FirstRefused(env.startOk, Sentinel, |sentinels|) < |sentinels|
    ensures var k := FirstRefused(env.startOk, Sentinel, |sentinels|);
      var r := StartSpec(sentinels, servers, masters, slaves, env);
      r.outcome == Fail(MemberStartFailed(Sentinel, k)) &&
      (forall i :: 0 <= i < k ==> r.sentinels[i].active) &&
      |r.sentinels| == |sentinels| && r.sentinels[k..] == sentinels[k..] && r.servers == servers &&
      |r.events| == k && (forall j :: 0 <= j < k ==> r.events[j] == Started(Sentinel, j)) &&
      Opens(r.events) == []
  {
    var k := FirstRefused(env.startOk, Sentinel, |sentinels|);
    SetSome(sentinels, k, true);
    StartedEventsAre(Sentinel, k);
    LifecycleReads(Sentinel, k);
  }

  /**
   * A server that fails to start ends start() at once: every sentinel and the
   * servers before it are running, it and the rest are untouched, and no
   * connection is opened.
   */
  lemma StartServerRefused(sentinels: seq<Member>, servers: seq<Member>, masters: seq<int>, slaves: seq<int>, env: Env)
    requires forall j :: 0 <= j < |sentinels| ==> env.startOk(Sentinel, j)
    requires FirstRefused(env.startOk, Server, |servers|) < |servers|
    ensures var k := FirstRefused(env.startOk, Server, |servers|);
      var r := StartSpec(sentinels, servers, masters, slaves, env);
      r.outcome == Fail(MemberStartFailed(Server, k)) &&
      AllActive(r.sentinels) &&
      (forall i :: 0 <= i < k ==> r.servers[i].active) &&
      |r.servers| == |servers| && r.servers[k..] == servers[k..] &&
      |r.events| == |sentinels| + k && Opens(r.events) == []
  {
    var ns, k := |sentinels|, FirstRefused(env.startOk, Server, |servers|);
    assert FirstRefused(env.startOk, Sentinel, ns) == ns;
    SetSome(sentinels, ns, true);
    SetSome(servers, k, true);
    StartedPrefix(ns, k);
  }

  /**
   * With an empty master list start() fails on the seed lookup after every
   * member has started; those members stay running and no connection is opened.
   */
  lemma StartWithoutMasters(sentinels: seq<Member>, servers: seq<Member>, slaves: seq<int>, env: Env)
    requires forall j :: 0 <= j < |sentinels| ==> env.startOk(Sentinel, j)
    requires forall j :: 0 <= j < |servers| ==> env.startOk(Server, j)
    ensures var r := StartSpec(sentinels, servers, [], slaves, env);
      r.outcome == Fail(NoMasters) && AllActive(r.sentinels) && AllActive(r.servers) &&
      |r.events| == |sentinels| + |servers| && Opens(r.events) == []
  {
    StartRunsSetup(sentinels, servers, [], slaves, env);
    SetupShape([], slaves, env);
    GatherNothing([], OpenedPort);
  }

  /**
   * Whatever its outcome, start() starts members before anything else, stops
   * none, keeps the connection discipline, MEETs only the seed and leaves
   * every member's ports as they were.
   */
  lemma StartShape(sentinels: seq<Member>, servers: seq<Member>, masters: seq<int>, slaves: seq<int>, env: Env)
    ensures var r := StartSpec(sentinels, servers, masters, slaves, env);
      WellBracketed(r.events) && NoStops(r.events) && StartsFirst(r.events) &&
      (|masters| > 0 ==> MeetsOnly(r.events, masters[0])) &&
      Flatten(r.sentinels) == Flatten(sentinels) && Flatten(r.servers) == Flatten(servers)
  {
    var ns := FirstRefused(env.startOk, Sentinel, |sentinels|);
    var nv := FirstRefused(env.startOk, Server, |servers|);
    var seed := if |masters| > 0 then masters[0] else 0;
    SetActiveKeepsPorts(sentinels, ns, true);
    SetActiveKeepsPorts(servers, nv, true);
    StartedEventsAre(Sentinel, ns);
    StartedEventsAre(Server, nv);
    var p := StartedEvents(Sentinel, ns) + StartedEvents(Server, nv);
    assert forall k :: 0 <= k < |p| ==> p[k].Started? by {
      StartedPrefix(ns, nv);
    }
    assert AdminShaped([], seed) by {
      assert WellBracketed([]);
    }
    var r := StartSpec(sentinels, servers, masters, slaves, env);
    if ns < |sentinels| {
      StartsThenAdmin(StartedEvents(Sentinel, ns), [], seed);
      assert r.events == StartedEvents(Sentinel, ns) + [];
    } else if nv < |servers| {
      StartsThenAdmin(p, [], seed);
      assert r.events == p + [];
    } else {
      SetupShape(masters, slaves, env);
      StartsThenAdmin(p, Setup(masters, slaves, env).events, seed);
    }
  }

  /**
   * The test cluster: three groups (7001, 8001), (7002, 8002), (7003, 8003).
   * A successful start MEETs the seed 7001 from all three masters (7001 itself
   * included) and from the three slaves, and hands the masters the slots of
   * residue 0, 1 and 2 modulo 3.
   */
  lemma TestClusterStart(servers: seq<Member>, masters: seq<int>, slaves: seq<int>, env: Env)
    requires masters == [7001, 7002, 7003] && slaves == [8001, 8002, 8003]
    requires StartSpec([], servers, masters, slaves, env).outcome == Pass
    ensures var t := StartSpec([], servers, masters, slaves, env).events;
      Meets(t) == [7001, 7002, 7003, 8001, 8002, 8003] &&
      MeetsOnly(t, 7001) &&
      Batches(t) == [(7001, SlotsOf(0, 3)), (7002, SlotsOf(1, 3)), (7003, SlotsOf(2, 3))]
  {
    var t := StartSpec([], servers, masters, slaves, env).events;
    assert Meets(t) == MasterMeetSources(masters, 3) + slaves && Batches(t) == SlotAssignment(masters, 3) by {
      StartSuccess([], servers, masters, slaves, env);
    }
    assert MeetsOnly(t, 7001) by {
      StartShape([], servers, masters, slaves, env);
    }
    assert MasterMeetSources(masters, 3) == masters by {
      SeedMeetsItself(masters);
    }
    assert SlotAssignment(masters, 3) == [(7001, SlotsOf(0, 3)), (7002, SlotsOf(1, 3)), (7003, SlotsOf(2, 3))] by {
      var a := SlotAssignment(masters, 3);
      assert a == [a[0], a[1], a[2]];
    }
  }

  // ----- stop -----

  /** stop() returns normally exactly when every sentinel and every server stops. */
  lemma StopSucceedsIff(sentinels: seq<Member>, servers: seq<Member>, env: Env)
    ensures StopSpec(sentinels, servers, env).outcome == Pass <==>
      (forall j :: 0 <= j < |sentinels| ==> env.stopOk(Sentinel, j)) &&
      (forall j :: 0 <= j < |servers| ==> env.stopOk(Server, j))
  {
    if (forall j :: 0 <= j < |sentinels| ==> env.stopOk(Sentinel, j)) {
      assert FirstRefused(env.stopOk, Sentinel, |sentinels|) == |sentinels|;
    }
  }

  /**
   * After a successful stop no member is running, ports are unchanged, and the
   * sentinels and then the servers were stopped once each, in list order.
   */
  lemma StopSuccess(sentinels: seq<Member>, servers: seq<Member>, env: Env)
    requires StopSpec(sentinels, servers, env).outcome == Pass
    ensures var r := StopSpec(sentinels, servers, env);
      var ns := |sentinels|;
      NoneActive(r.sentinels) && NoneActive(r.servers) &&
      Flatten(r.sentinels) == Flatten(sentinels) && Flatten(r.servers) == Flatten(servers) &&
      |r.events| == ns + |servers| &&
      (forall j :: 0 <= j < ns ==> r.events[j] == Stopped(Sentinel, j)) &&
      (forall j :: ns <= j < |r.events| ==> r.events[j] == Stopped(Server, j - ns))
  {
    StopSucceedsIff(sentinels, servers, env);
    var ns, nv := |sentinels|, |servers|;
    assert FirstRefused(env.stopOk, Sentinel, ns) == ns;
    assert FirstRefused(env.stopOk, Server, nv) == nv;
    SetActiveKeepsPorts(sentinels, ns, false);
    SetActiveKeepsPorts(servers, nv, false);
    SetSome(sentinels, ns, false);
    SetSome(servers, nv, false);
    StoppedPrefix(ns, nv);
  }

  /** The stop events of ns sentinels followed by those of nv servers, position by position. */
  lemma StoppedPrefix(ns: nat, nv: nat)
    ensures var t := StoppedEvents(Sentinel, ns) + StoppedEvents(Server, nv);
      |t| == ns + nv &&
      (forall j :: 0 <= j < ns ==> t[j] == Stopped(Sentinel, j)) &&
      (forall j :: ns <= j < ns + nv ==> t[j] == Stopped(Server, j - ns))
  {
    var a, b := StoppedEvents(Sentinel, ns), StoppedEvents(Server, nv);
    StoppedEventsAre(Sentinel, ns);
    StoppedEventsAre(Server, nv);
    forall j | ns <= j < ns + nv
      ensures (a + b)[j] == Stopped(Server, j - ns)
    {
      assert (a + b)[j] == b[j - ns];
    }
  }

  /**
   * A sentinel that fails to stop ends stop() at once: the sentinels before it
   * are stopped, it and the rest keep their state, and no server is stopped.
   */
  lemma StopSentinelRefused(sentinels: seq<Member>, servers: seq<Member>, env: Env)
    requires FirstRefused(env.stopOk, Sentinel, |sentinels|) < |sentinels|
    ensures var k := FirstRefused(env.stopOk, Sentinel, |sentinels|);
      var r := StopSpec(sentinels, servers, env);
      r.outcome == Fail(MemberStopFailed(Sentinel, k)) &&
      (forall i :: 0 <= i < k ==> !r.sentinels[i].active) &&
      |r.sentinels| == |sentinels| && r.sentinels[k..] == sentinels[k..] && r.servers == servers &&
      |r.events| == k && (forall j :: 0 <= j < k ==> r.events[j] == Stopped(Sentinel, j))
  {
    var k := FirstRefused(env.stopOk, Sentinel, |sentinels|);
    SetSome(sentinels, k, false);
    StoppedEventsAre(Sentinel, k);
  }

  /**
   * A server that fails to stop ends stop() at once: every sentinel and the
   * servers before it are stopped, it and the rest keep their state.
   */
  lemma StopServerRefused(sentinels: seq<Member>, servers: seq<Member>, env: Env)
    requires forall j :: 0 <= j < |sentinels| ==> env.stopOk(Sentinel, j)
    requires FirstRefused(env.stopOk, Server, |servers|) < |servers|
    ensures var k := FirstRefused(env.stopOk, Server, |servers|);
      var r := StopSpec(sentinels, servers, env);
      r.outcome == Fail(MemberStopFailed(Server, k)) &&
      NoneActive(r.sentinels) &&
      (forall i :: 0 <= i < k ==> !r.servers[i].active) &&
      |r.servers| == |servers| && r.servers[k..] == servers[k..] &&
      |r.events| == |sentinels| + k
  {
    var ns, k := |sentinels|, FirstRefused(env.stopOk, Server, |servers|);
    assert FirstRefused(env.stopOk, Sentinel, ns) == ns;
    SetSome(sentinels, ns, false);
    SetSome(servers, k, false);
    StoppedEventsAre(Sentinel, ns);
    StoppedEventsAre(Server, k);
  }
}
