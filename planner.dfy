/**
 * Replication-group planning: a group is one master port and its slave
 * ports, drawn from the provider in effect when the group is declared.
 */
module Planner {
  import opened Common
  import opened Ports

  datatype ReplicationGroup = ReplicationGroup(masterName: string, masterPort: int, slavePorts: seq<int>)

  /** How many slaves `while (slaveCount-- > 0)` asks for: none when the count is not positive. */
  function SlaveTotal(slaveCount: int): nat
  {
    if slaveCount > 0 then slaveCount else 0
  }

  /** The answers of calls from .. from+count-1, or None when one of them fails. */
  function Draw(answers: nat -> Option<int>, from: nat, count: nat): Option<seq<int>>
    decreases count
  {
    if count == 0 then Some([])
    else match Draw(answers, from, count - 1)
      case None => None
      case Some(ps) =>
        match answers(from + count - 1)
        case None => None
        case Some(p) => Some(ps + [p])
  }

  /** How many calls a draw of `count` ports makes: it stops at the first failing call. */
  function DrawCalls(answers: nat -> Option<int>, from: nat, count: nat): nat
    decreases count
  {
    if count == 0 then 0
    else if Draw(answers, from, count - 1).None? then DrawCalls(answers, from, count - 1)
    else count
  }

  /** A draw succeeds iff every call answers, and then yields the answers in call order. */
  lemma {:induction false} DrawExactly(answers: nat -> Option<int>, from: nat, count: nat)
    ensures Draw(answers, from, count).Some? <==> forall j :: from <= j < from + count ==> answers(j).Some?
    ensures Draw(answers, from, count).Some? ==>
      |Draw(answers, from, count).value| == count &&
      forall k :: 0 <= k < count ==> answers(from + k).Some? && Draw(answers, from, count).value[k] == answers(from + k).value
    decreases count
  {
    if count > 0 {
      DrawExactly(answers, from, count - 1);
    }
  }

  /** Once a draw has failed, drawing more ports fails too, after the same calls. */
  lemma {:induction false} DrawStops(answers: nat -> Option<int>, from: nat, c: nat, n: nat)
    requires c <= n && Draw(answers, from, c).None?
    ensures Draw(answers, from, n).None? && DrawCalls(answers, from, n) == DrawCalls(answers, from, c)
    decreases n
  {
    if c < n {
      DrawStops(answers, from, c, n - 1);
    }
  }

  /**
   * A failed draw stops right after its first failing call: all earlier calls
   * answered and the last call made failed. A successful one makes every call.
   */
  lemma {:induction false} DrawCallsExactly(answers: nat -> Option<int>, from: nat, count: nat)
    ensures DrawCalls(answers, from, count) <= count
    ensures Draw(answers, from, count).Some? ==> DrawCalls(answers, from, count) == count
    ensures Draw(answers, from, count).None? ==>
      var c := DrawCalls(answers, from, count);
      c >= 1 && answers(from + c - 1).None? &&
      forall j :: from <= j < from + c - 1 ==> answers(j).Some?
    decreases count
  {
    if count > 0 {
      DrawCallsExactly(answers, from, count - 1);
      DrawExactly(answers, from, count - 1);
    }
  }

  /** One more answered call extends a successful draw by that answer. */
  lemma DrawStep(answers: nat -> Option<int>, from: nat, c: nat, ps: seq<int>, p: int)
    requires Draw(answers, from, c) == Some(ps) && DrawCalls(answers, from, c) == c
    requires answers(from + c) == Some(p)
    ensures Draw(answers, from, c + 1) == Some(ps + [p]) && DrawCalls(answers, from, c + 1) == c + 1
  {
  }

  /** The group a declaration plans, when the provider supplies all its ports. */
  function Plan(masterName: string, slaveCount: int, answers: nat -> Option<int>, from: nat): Option<ReplicationGroup>
  {
    match Draw(answers, from, 1 + SlaveTotal(slaveCount))
    case None => None
    case Some(ps) => Some(ReplicationGroup(masterName, ps[0], ps[1..]))
  }

  /** Ports a declaration takes from the provider, failed call included. */
  function PlanCalls(slaveCount: int, answers: nat -> Option<int>, from: nat): nat
  {
    DrawCalls(answers, from, 1 + SlaveTotal(slaveCount))
  }

  /**
   * A planned group uses 1 + slaveCount consecutive answers: the first is the
   * master port, the rest are the slave ports in call order. Planning fails iff
   * one of those calls fails.
   */
  lemma PlanExactly(masterName: string, slaveCount: int, answers: nat -> Option<int>, from: nat)
    ensures Plan(masterName, slaveCount, answers, from).Some? <==>
      forall j :: from <= j <= from + SlaveTotal(slaveCount) ==> answers(j).Some?
    ensures Plan(masterName, slaveCount, answers, from).Some? ==>
      var g := Plan(masterName, slaveCount, answers, from).value;
      g.masterName == masterName &&
      g.masterPort == answers(from).value &&
      |g.slavePorts| == SlaveTotal(slaveCount) &&
      (forall k :: 0 <= k < |g.slavePorts| ==>
         answers(from + 1 + k).Some? && g.slavePorts[k] == answers(from + 1 + k).value) &&
      PlanCalls(slaveCount, answers, from) == 1 + |g.slavePorts|
  {
    var n := 1 + SlaveTotal(slaveCount);
    DrawExactly(answers, from, n);
    DrawCallsExactly(answers, from, n);
    if Draw(answers, from, n).Some? {
      var ps := Draw(answers, from, n).value;
      forall k | 0 <= k < |ps| - 1
        ensures answers(from + 1 + k).Some? && ps[1..][k] == answers(from + 1 + k).value
      {
        assert ps[1..][k] == ps[k + 1];
      }
    }
  }

  /** A draw of every port the declaration asks for gives the group of those ports. */
  lemma PlanOfDraw(masterName: string, slaveCount: int, answers: nat -> Option<int>, from: nat, m: int, sp: seq<int>)
    requires |sp| == SlaveTotal(slaveCount)
    requires Draw(answers, from, 1 + |sp|) == Some([m] + sp) && DrawCalls(answers, from, 1 + |sp|) == 1 + |sp|
    ensures Plan(masterName, slaveCount, answers, from) == Some(ReplicationGroup(masterName, m, sp))
    ensures PlanCalls(slaveCount, answers, from) == 1 + |sp|
  {
    assert ([m] + sp)[1..] == sp;
  }

  /** A draw that has failed after c calls makes the whole declaration fail after those calls. */
  lemma PlanFails(masterName: string, slaveCount: int, answers: nat -> Option<int>, from: nat, c: nat)
    requires c <= 1 + SlaveTotal(slaveCount) && Draw(answers, from, c).None?
    ensures Plan(masterName, slaveCount, answers, from) == None
    ensures PlanCalls(slaveCount, answers, from) == DrawCalls(answers, from, c)
  {
    DrawStops(answers, from, c, 1 + SlaveTotal(slaveCount));
  }

  /**
   * The constructor of a group: takes the master port and then one port per
   * slave from the provider, and propagates a failing call.
   */
  method NewReplicationGroup(masterName: string, slaveCount: int, provider: PortProvider)
    returns (r: Option<ReplicationGroup>)
    modifies provider
    ensures r == Plan(masterName, slaveCount, provider.answers, old(provider.used))
    ensures provider.used == old(provider.used) + PlanCalls(slaveCount, provider.answers, old(provider.used))
  {
    ghost var from, answers := provider.used, provider.answers;
    var masterPort := provider.Next();
    if masterPort.None? {
      PlanFails(masterName, slaveCount, answers, from, 1);
      return None;
    }
    DrawStep(answers, from, 0, [], masterPort.value);
    var slavePorts: seq<int> := [];
    assert [masterPort.value] + slavePorts == [] + [masterPort.value];
    var remaining := slaveCount;
    while remaining > 0
      invariant SlaveTotal(slaveCount) == |slavePorts| + SlaveTotal(remaining)
      invariant provider.used == from + 1 + |slavePorts|
      invariant Draw(answers, from, 1 + |slavePorts|) == Some([masterPort.value] + slavePorts)
      invariant DrawCalls(answers, from, 1 + |slavePorts|) == 1 + |slavePorts|
      decreases remaining
    {
      remaining := remaining - 1;
      var p := provider.Next();
      if p.None? {
        PlanFails(masterName, slaveCount, answers, from, 2 + |slavePorts|);
        return None;
      }
      DrawStep(answers, from, 1 + |slavePorts|, [masterPort.value] + slavePorts, p.value);
      assert [masterPort.value] + (slavePorts + [p.value]) == [masterPort.value] + slavePorts + [p.value];
      slavePorts := slavePorts + [p.value];
    }
    PlanOfDraw(masterName, slaveCount, answers, from, masterPort.value, slavePorts);
    r := Some(ReplicationGroup(masterName, masterPort.value, slavePorts));
  }
}
