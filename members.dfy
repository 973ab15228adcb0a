/**
 * Cluster members: the shape of the `Redis` interface (isActive, start, stop,
 * ports) as a value, and the sequence-level notions the cluster uses over them.
 */
module Members {

  /** Which of the cluster's two member lists a member belongs to. */
  datatype Role = Sentinel | Server

  /**
   * One member process as the cluster sees it: the ports it exposes, the
   * configuration lines it was built with, and whether it is running.
   */
  datatype Member = Member(ports: seq<int>, settings: seq<string>, active: bool)

  /** The ports of all members, member by member, in list order. */
  function Flatten(ms: seq<Member>): seq<int>
  {
    if ms == [] then [] else Flatten(ms[..|ms| - 1]) + ms[|ms| - 1].ports
  }

  lemma {:induction false} FlattenAppend(a: seq<Member>, b: seq<Member>)
    ensures Flatten(a + b) == Flatten(a) + Flatten(b)
    decreases |b|
  {
    if b == [] {
      assert a + b == a;
    } else {
      assert (a + b)[..|a + b| - 1] == a + b[..|b| - 1];
      FlattenAppend(a, b[..|b| - 1]);
    }
  }

  lemma {:induction false} FlattenMembers(ms: seq<Member>, p: int)
    ensures p in Flatten(ms) <==> exists i :: 0 <= i < |ms| && p in ms[i].ports
    decreases |ms|
  {
    if ms != [] {
      var init := ms[..|ms| - 1];
      FlattenMembers(init, p);
      if p in Flatten(init) {
        var i :| 0 <= i < |init| && p in init[i].ports;
        assert ms[i] == init[i];
      }
      if i :| 0 <= i < |ms| && p in ms[i].ports {
        if i < |init| {
          assert init[i] == ms[i];
        }
      }
    }
  }

  /** Every member in the list is running. */
  predicate AllActive(ms: seq<Member>)
  {
    forall i :: 0 <= i < |ms| ==> ms[i].active
  }

  /** No member in the list is running. */
  predicate NoneActive(ms: seq<Member>)
  {
    forall i :: 0 <= i < |ms| ==> !ms[i].active
  }

  /** The list after the first k members had their running flag set to b. */
  function SetActive(ms: seq<Member>, k: nat, b: bool): seq<Member>
    requires k <= |ms|
  {
    seq(|ms|, i requires 0 <= i < |ms| => if i < k then ms[i].(active := b) else ms[i])
  }

  /**
   * The index of the first of n members of the given role whose call (start
   * or stop, as `ok` says) fails, or n when none does.
   */
  function FirstRefused(ok: (Role, nat) -> bool, role: Role, n: nat): (r: nat)
    ensures r <= n
    ensures forall j :: 0 <= j < r ==> ok(role, j)
    ensures r < n ==> !ok(role, r)
  {
    if n == 0 then 0
    else
      var r := FirstRefused(ok, role, n - 1);
      if r < n - 1 then r else if ok(role, n - 1) then n else n - 1
  }

  /** The first refusal is at i when every call before i succeeds and call i fails. */
  lemma FirstRefusedAt(ok: (Role, nat) -> bool, role: Role, n: nat, i: nat)
    requires i <= n && forall j :: 0 <= j < i ==> ok(role, j)
    requires i < n ==> !ok(role, i)
    ensures FirstRefused(ok, role, n) == i
  {
  }

  /** Setting the flag of member k extends a prefix update by one. */
  lemma SetActiveStep(ms: seq<Member>, k: nat, b: bool)
    requires k < |ms|
    ensures SetActive(ms, k, b)[k := ms[k].(active := b)] == SetActive(ms, k + 1, b)
  {
  }

  /** Starting or stopping members changes only their running flags, never their ports. */
  lemma {:induction false} SetActiveKeepsPorts(ms: seq<Member>, k: nat, b: bool)
    requires k <= |ms|
    ensures Flatten(SetActive(ms, k, b)) == Flatten(ms)
    decreases |ms|
  {
    if ms != [] {
      var r := SetActive(ms, k, b);
      var init := ms[..|ms| - 1];
      var k' := if k < |ms| then k else |ms| - 1;
      assert r[..|r| - 1] == SetActive(init, k', b);
      SetActiveKeepsPorts(init, k', b);
    }
  }
}
