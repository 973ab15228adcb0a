/**
 * What the start and stop specifications guarantee about the trace: the slot
 * partition, the MEET topology (including the seed-skip defect as written),
 * the order of phases, the open/close pairing, and where a failure stops.
 */
module BootstrapFacts {
  import opened Common
  import opened Members
  import opened Slots
  import opened Trace
  import opened Bootstrap

  // ----- building blocks -----

  /** Reading a trace distributes over concatenation. */
  lemma Concat(a: seq<Event>, b: seq<Event>)
    ensures Opens(a + b) == Opens(a) + Opens(b)
    ensures Meets(a + b) == Meets(a) + Meets(b)
    ensures Batches(a + b) == Batches(a) + Batches(b)
  {
    GatherAppend(a, b, OpenedPort);
    GatherAppend(a, b, MeetSender);
    GatherAppend(a, b, SlotBatch);
  }

  /** The connection discipline and the MEET target survive concatenation. */
  lemma ConcatShape(a: seq<Event>, b: seq<Event>, seed: int)
    ensures WellBracketed(a) && WellBracketed(b) ==> WellBracketed(a + b)
    ensures AdminOnly(a) && AdminOnly(b) ==> AdminOnly(a + b)
    ensures MeetsOnly(a, seed) && MeetsOnly(b, seed) ==> MeetsOnly(a + b, seed)
    ensures NoLifecycle(a) && NoLifecycle(b) ==> NoLifecycle(a + b)
  {
    if WellBracketed(a) && WellBracketed(b) {
      BracketedAppend(a, b, None);
    }
    if MeetsOnly(a, seed) && MeetsOnly(b, seed) {
      forall k | 0 <= k < |a + b| && (a + b)[k].Send? && (a + b)[k].cmd.Meet?
        ensures (a + b)[k].cmd == Meet(HOST, seed)
      {
        if k >= |a| {
          assert (a + b)[k] == b[k - |a|];
        }
      }
    }
    if NoLifecycle(a) && NoLifecycle(b) {
      forall k | 0 <= k < |a + b|
        ensures !IsLifecycle((a + b)[k])
      {
        if k >= |a| {
          assert (a + b)[k] == b[k - |a|];
        }
      }
    }
  }

  /** The step of master i talks only to masters[i], on one connection. */
  lemma MasterCommandsOnConnection(masters: seq<int>, i: nat, env: Env)
    requires i < |masters|
    ensures forall k :: 0 <= k < |MasterCommands(masters, i, env)| ==>
      OnConnection(MasterCommands(masters, i, env)[k], masters[i])
  {
  }

  /** The step of master i opens one connection and sends MEET iff the skip test lets it. */
  lemma MasterBlockReads(masters: seq<int>, i: nat, env: Env)
    requires i < |masters|
    ensures Opens(MasterBlock(masters, i, env)) == [masters[i]]
    ensures Meets(MasterBlock(masters, i, env)) == if SendsMeet(i, masters[0]) then [masters[i]] else []
  {
    var p, seed := masters[i], masters[0];
    var cmds := MasterCommands(masters, i, env);
    var meet := if SendsMeet(i, seed) then [Send(p, Meet(HOST, seed))] else [];
    var slots := [Send(p, AddSlots(SlotsOf(i, |masters|))), Sync(p)];
    MasterCommandsOnConnection(masters, i, env);
    SessionReads(p, cmds);
    GatherAppend(meet, slots, MeetSender);
    GatherTwo(slots[0], slots[1], MeetSender);
    if SendsMeet(i, seed) {
      GatherOne(meet[0], MeetSender);
    }
  }

  /** A step that gets past its MEET sends exactly one batch: the residue class of i. */
  lemma MasterBlockBatches(masters: seq<int>, i: nat, env: Env)
    requires i < |masters|
    requires SendsMeet(i, masters[0]) ==> env.meetOk(masters[i])
    ensures Batches(MasterBlock(masters, i, env)) == [(masters[i], SlotsOf(i, |masters|))]
  {
    var p, seed := masters[i], masters[0];
    var cmds := MasterCommands(masters, i, env);
    var meet := if SendsMeet(i, seed) then [Send(p, Meet(HOST, seed))] else [];
    var slots := [Send(p, AddSlots(SlotsOf(i, |masters|))), Sync(p)];
    MasterCommandsOnConnection(masters, i, env);
    SessionReads(p, cmds);
    GatherAppend(meet, slots, SlotBatch);
    GatherTwo(slots[0], slots[1], SlotBatch);
    if SendsMeet(i, seed) {
      GatherOne(meet[0], SlotBatch);
    }
  }

  /** The step of master i keeps the connection discipline and ends by closing it. */
  lemma MasterBlockShape(masters: seq<int>, i: nat, env: Env)
    requires i < |masters|
    ensures var b := MasterBlock(masters, i, env);
      WellBracketed(b) && AdminOnly(b) && MeetsOnly(b, masters[0]) && b[|b| - 1] == Close(masters[i])
  {
    MasterCommandsOnConnection(masters, i, env);
    SessionBracketed(masters[i], MasterCommands(masters, i, env));
  }

  /** Phase A contacts the masters in index order. */
  lemma {:induction false} MasterBlocksOpens(masters: seq<int>, k: nat, env: Env)
    requires 0 < |masters| && k <= |masters|
    ensures Opens(MasterBlocks(masters, k, env)) == masters[..k]
    decreases k
  {
    if k > 0 {
      MasterBlocksOpens(masters, k - 1, env);
      MasterBlocksOpensStep(masters, k, env);
    }
  }

  lemma MasterBlocksOpensStep(masters: seq<int>, k: nat, env: Env)
    requires 0 < k <= |masters|
    requires Opens(MasterBlocks(masters, k - 1, env)) == masters[..k - 1]
    ensures Opens(MasterBlocks(masters, k, env)) == masters[..k]
  {
    var prev, b := MasterBlocks(masters, k - 1, env), MasterBlock(masters, k - 1, env);
    assert Opens(b) == [masters[k - 1]] by {
      MasterBlockReads(masters, k - 1, env);
    }
    assert Opens(MasterBlocks(masters, k, env)) == Opens(prev) + Opens(b) by {
      assert MasterBlocks(masters, k, env) == prev + b;
      GatherAppend(prev, b, OpenedPort);
    }
    assert masters[..k] == masters[..k - 1] + [masters[k - 1]];
  }

  /** Phase A's MEETs come from the masters the skip test lets through, in index order. */
  lemma {:induction false} MasterBlocksMeets(masters: seq<int>, k: nat, env: Env)
    requires 0 < |masters| && k <= |masters|
    ensures Meets(MasterBlocks(masters, k, env)) == MasterMeetSources(masters, k)
    decreases k
  {
    if k > 0 {
      var prev, b := MasterBlocks(masters, k - 1, env), MasterBlock(masters, k - 1, env);
      MasterBlocksMeets(masters, k - 1, env);
      assert Meets(b) == if SendsMeet(k - 1, masters[0]) then [masters[k - 1]] else [] by {
        MasterBlockReads(masters, k - 1, env);
      }
      assert Meets(MasterBlocks(masters, k, env)) == Meets(prev) + Meets(b) by {
        assert MasterBlocks(masters, k, env) == prev + b;
        GatherAppend(prev, b, MeetSender);
      }
    }
  }

  /** When every step succeeds, phase A sends exactly the intended slot assignment. */
  lemma {:induction false} MasterBlocksBatches(masters: seq<int>, k: nat, env: Env)
    requires 0 < |masters| && k <= |masters|
    requires forall j :: 0 <= j < k ==> MasterOk(masters, j, env)
    ensures Batches(MasterBlocks(masters, k, env)) == SlotAssignment(masters, k)
    decreases k
  {
    if k > 0 {
      var last := (masters[k - 1], SlotsOf(k - 1, |masters|));
      MasterBlocksBatches(masters, k - 1, env);
      assert Batches(MasterBlocks(masters, k, env)) == Batches(MasterBlocks(masters, k - 1, env)) + [last] by {
        assert MasterOk(masters, k - 1, env);
        MasterBlocksBatchesStep(masters, k, env);
      }
      SlotAssignmentStep(masters, k);
    }
  }

  /** The assignment of k + 1 masters extends that of k by master k's entry. */
  lemma SlotAssignmentStep(masters: seq<int>, k: nat)
    requires 0 < k <= |masters|
    ensures SlotAssignment(masters, k) == SlotAssignment(masters, k - 1) + [(masters[k - 1], SlotsOf(k - 1, |masters|))]
  {
    var prev, last := SlotAssignment(masters, k - 1), (masters[k - 1], SlotsOf(k - 1, |masters|));
    assert forall i :: 0 <= i < k - 1 ==> (prev + [last])[i] == prev[i];
  }

  /**
   * The full assignment partitions the slot space: every slot 0 .. 16383 is in
   * the batch of exactly one entry, and that entry is the one of index s mod n.
   */
  lemma SlotAssignmentPartitions(masters: seq<int>, s: int)
    requires 0 < |masters| && 0 <= s < SLOT_COUNT
    ensures var a := SlotAssignment(masters, |masters|);
      s % |masters| < |a| && s in a[s % |masters|].1 &&
      forall i :: 0 <= i < |a| && s in a[i].1 ==> i == s % |masters|
  {
    SlotOwnedOnce(s, |masters|);
  }

  lemma MasterBlocksBatchesStep(masters: seq<int>, k: nat, env: Env)
    requires 0 < k <= |masters|
    requires MasterOk(masters, k - 1, env)
    ensures Batches(MasterBlocks(masters, k, env)) ==
      Batches(MasterBlocks(masters, k - 1, env)) + [(masters[k - 1], SlotsOf(k - 1, |masters|))]
  {
    var prev, b := MasterBlocks(masters, k - 1, env), MasterBlock(masters, k - 1, env);
    assert Batches(b) == [(masters[k - 1], SlotsOf(k - 1, |masters|))] by {
      MasterBlockBatches(masters, k - 1, env);
    }
    assert Batches(MasterBlocks(masters, k, env)) == Batches(prev) + Batches(b) by {
      assert MasterBlocks(masters, k, env) == prev + b;
      GatherAppend(prev, b, SlotBatch);
    }
  }

  /** Phase A keeps the connection discipline, only MEETs the seed, and ends with a Close. */
  lemma {:induction false} MasterBlocksShape(masters: seq<int>, k: nat, env: Env)
    requires 0 < |masters| && k <= |masters|
    ensures var t := MasterBlocks(masters, k, env);
      WellBracketed(t) && AdminOnly(t) && MeetsOnly(t, masters[0]) &&
      (k > 0 ==> t[|t| - 1] == Close(masters[k - 1]))
    decreases k
  {
    if k > 0 {
      MasterBlocksShape(masters, k - 1, env);
      MasterBlockShape(masters, k - 1, env);
      ConcatShape(MasterBlocks(masters, k - 1, env), MasterBlock(masters, k - 1, env), masters[0]);
    } else {
      assert WellBracketed([]);
    }
  }

  /** Phase B read off: slaves contacted in list order, each sending one MEET to the seed. */
  lemma {:induction false} SlaveBlocksFacts(slaves: seq<int>, k: nat, seed: int)
    requires k <= |slaves|
    ensures var t := SlaveBlocks(slaves, k, seed);
      Opens(t) == slaves[..k] && Meets(t) == slaves[..k] && Batches(t) == [] &&
      WellBracketed(t) && AdminOnly(t) && MeetsOnly(t, seed) &&
      (k > 0 ==> t[|t| - 1] == Close(slaves[k - 1]))
    decreases k
  {
    if k > 0 {
      var prev := SlaveBlocks(slaves, k - 1, seed);
      var sp := slaves[k - 1];
      var cmds := [Send(sp, Meet(HOST, seed))];
      var b := SlaveBlock(sp, seed);
      SlaveBlocksFacts(slaves, k - 1, seed);
      SessionReads(sp, cmds);
      SessionBracketed(sp, cmds);
      GatherOne(cmds[0], MeetSender);
      GatherOne(cmds[0], SlotBatch);
      Concat(prev, b);
      ConcatShape(prev, b, seed);
      assert slaves[..k] == slaves[..k - 1] + [sp];
    } else {
      assert WellBracketed([]);
    }
  }

  /** Member start events: k of them, in index order. */
  lemma {:induction false} StartedEventsAre(role: Role, k: nat)
    ensures |StartedEvents(role, k)| == k
    ensures forall j :: 0 <= j < k ==> StartedEvents(role, k)[j] == Started(role, j)
    decreases k
  {
    if k > 0 {
      StartedEventsAre(role, k - 1);
    }
  }

  /** Member stop events: k of them, in index order. */
  lemma {:induction false} StoppedEventsAre(role: Role, k: nat)
    ensures |StoppedEvents(role, k)| == k
    ensures forall j :: 0 <= j < k ==> StoppedEvents(role, k)[j] == Stopped(role, j)
    decreases k
  {
    if k > 0 {
      StoppedEventsAre(role, k - 1);
    }
  }

  /** Lifecycle events open no connection and send nothing. */
  lemma LifecycleReads(role: Role, k: nat)
    ensures Opens(StartedEvents(role, k)) == [] && Meets(StartedEvents(role, k)) == []
    ensures Batches(StartedEvents(role, k)) == [] && Opens(StoppedEvents(role, k)) == []
    ensures WellBracketed(StartedEvents(role, k)) && WellBracketed(StoppedEvents(role, k))
  {
    StartedEventsAre(role, k);
    StoppedEventsAre(role, k);
    var s, t := StartedEvents(role, k), StoppedEvents(role, k);
    GatherNothing(s, OpenedPort);
    GatherNothing(s, MeetSender);
    GatherNothing(s, SlotBatch);
    GatherNothing(t, OpenedPort);
    LifecycleBracketed(s);
    LifecycleBracketed(t);
  }

  // ----- the MEET topology of phase A -----

  /**
   * The masters that MEET the seed, as the skip test is written: every master
   * except the one whose INDEX equals the seed's port number, if there is one.
   */
  lemma {:induction false} MasterMeetSourcesAre(masters: seq<int>, k: nat)
    requires 0 < |masters| && k <= |masters|
    ensures var seed := masters[0];
      MasterMeetSources(masters, k) ==
        if 0 <= seed < k then masters[..seed] + masters[seed + 1..k] else masters[..k]
    decreases k
  {
    var seed := masters[0];
    if k > 0 {
      MasterMeetSourcesAre(masters, k - 1);
      if 0 <= seed < k - 1 {
        assert masters[seed + 1..k] == masters[seed + 1..k - 1] + [masters[k - 1]];
      } else if seed == k - 1 {
        assert masters[seed + 1..k] == [];
      } else {
        assert masters[..k] == masters[..k - 1] + [masters[k - 1]];
      }
    }
  }

  /** Phase A sends N MEETs, or N - 1 when the seed's port number is a master index. */
  lemma MasterMeetCount(masters: seq<int>)
    requires 0 < |masters|
    ensures |MasterMeetSources(masters, |masters|)| ==
      if 0 <= masters[0] < |masters| then |masters| - 1 else |masters|
  {
    MasterMeetSourcesAre(masters, |masters|);
  }

  /**
   * When the seed's port is at least N, as every usable port is, no master is
   * skipped: all N masters MEET the seed, and the first MEET of phase A is the
   * seed meeting itself, although the skip test is meant to spare the seed.
   */
  lemma SeedMeetsItself(masters: seq<int>)
    requires 0 < |masters| && masters[0] >= |masters|
    ensures MasterMeetSources(masters, |masters|) == masters
    ensures SendsMeet(0, masters[0])
  {
    MasterMeetSourcesAre(masters, |masters|);
    assert masters[..|masters|] == masters;
  }

  /**
   * Whatever the outcome of the setup, with a seed port of at least N its
   * first MEET is sent by the seed to itself: master 0 always gets past the
   * skip test, and its step is the first thing the setup does.
   */
  lemma SeedMeetsItselfInTrace(masters: seq<int>, slaves: seq<int>, env: Env)
    requires 0 < |masters| && masters[0] >= |masters|
    ensures var t := Setup(masters, slaves, env).events;
      |Meets(t)| > 0 && Meets(t)[0] == masters[0] && masters[0] in Meets(t)
  {
    var n := |masters|;
    var fm := FirstBadMaster(masters, n, env);
    var k := if fm < n then fm + 1 else n;
    var a := MasterBlocks(masters, k, env);
    MasterBlocksMeets(masters, k, env);
    MasterMeetSourcesAre(masters, k);
    assert Meets(a) == masters[..k];
    var t := Setup(masters, slaves, env).events;
    var rest := t[|a|..];
    assert t == a + rest;
    Concat(a, rest);
  }

  /**
   * The skip test spares exactly the seed only when the seed's port number is
   * 0; a seed port p with 0 < p < N spares master p instead, which then sends
   * no MEET at all.
   */
  lemma SeedSkipMisses(masters: seq<int>)
    requires 0 < |masters|
    ensures masters[0] == 0 ==> MasterMeetSources(masters, |masters|) == masters[1..]
    ensures 0 < masters[0] < |masters| ==>
      SendsMeet(0, masters[0]) && !SendsMeet(masters[0], masters[0]) &&
      MasterMeetSources(masters, |masters|) == masters[..masters[0]] + masters[masters[0] + 1..]
  {
    MasterMeetSourcesAre(masters, |masters|);
    assert masters[..0] + masters[1..] == masters[1..];
  }
}
