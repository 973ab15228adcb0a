/**
 * The hash-slot space of Redis Cluster (16384 slots) and the residue
 * partition the bootstrap uses to hand slots to masters.
 */
module Slots {

  /** Number of hash slots in a Redis cluster. */
  const SLOT_COUNT: nat := 16384

  predicate Increasing(s: seq<nat>)
  {
    forall a, b :: 0 <= a < b < |s| ==> s[a] < s[b]
  }

  /**
   * The slot filter as the code states it: the slots lo <= s < SLOT_COUNT with
   * s mod n == i, in increasing order.
   */
  function SlotsFrom(lo: nat, i: nat, n: nat): seq<nat>
    requires n > 0
    decreases SLOT_COUNT - lo
  {
    if lo >= SLOT_COUNT then []
    else (if lo % n == i then [lo] else []) + SlotsFrom(lo + 1, i, n)
  }

  /** The slots s, s + n, s + 2n, ... below SLOT_COUNT. */
  function Progression(s: nat, n: nat): seq<nat>
    requires n > 0
    decreases SLOT_COUNT - s
  {
    if s >= SLOT_COUNT then [] else [s] + Progression(s + n, n)
  }

  /**
   * The batch of master i of n: its residue class, stepped through directly.
   * SlotsOfIsFilter shows it is the code's filter over [0, SLOT_COUNT).
   */
  function SlotsOf(i: nat, n: nat): seq<nat>
    requires n > 0
  {
    if i < n then Progression(i, n) else []
  }

  lemma MulAtLeast(n: nat, k: int)
    ensures k >= 1 ==> n * k >= n
  {
    if k >= 1 {
      assert n * k == n * (k - 1) + n;
    }
  }

  /** Euclidean division is unique: a quotient and a remainder in [0, n) determine d % n. */
  lemma ModUnique(d: int, n: nat, q: int, r: int)
    requires n > 0 && 0 <= r < n && d == n * q + r
    ensures d % n == r
  {
    var q0, r0 := d / n, d % n;
    assert n * (q - q0) == r0 - r;
    MulAtLeast(n, q - q0);
    MulAtLeast(n, q0 - q);
  }

  lemma ModStep(d: int, n: nat)
    requires n > 0 && d >= n
    ensures (d - n) % n == d % n
  {
    ModUnique(d - n, n, d / n - 1, d % n);
  }

  /** A non-negative d is a multiple of n iff it is 0 or n plus a multiple of n. */
  lemma MultipleStep(d: int, n: nat)
    requires n > 0 && d >= 0
    ensures d % n == 0 <==> d == 0 || (d >= n && (d - n) % n == 0)
  {
    if d >= n {
      ModStep(d, n);
    } else {
      ModUnique(d, n, 0, d);
    }
  }

  lemma {:induction false} ProgressionMembers(s: nat, n: nat)
    requires n > 0
    ensures forall x :: x in Progression(s, n) <==> s <= x < SLOT_COUNT && (x - s) % n == 0
    decreases SLOT_COUNT - s
  {
    if s < SLOT_COUNT {
      ProgressionMembers(s + n, n);
      assert Progression(s, n) == [s] + Progression(s + n, n);
      forall x
        ensures x in Progression(s, n) <==> s <= x < SLOT_COUNT && (x - s) % n == 0
      {
        if x >= s {
          MultipleStep(x - s, n);
        }
      }
    }
  }

  lemma {:induction false} ProgressionIncreasing(s: nat, n: nat)
    requires n > 0
    ensures Increasing(Progression(s, n))
    decreases SLOT_COUNT - s
  {
    if s < SLOT_COUNT {
      ProgressionIncreasing(s + n, n);
      ProgressionMembers(s + n, n);
      var rest := Progression(s + n, n);
      assert forall a :: 0 <= a < |rest| ==> rest[a] in rest;
      assert Progression(s, n) == [s] + rest;
    }
  }

  /** The progression from s holds exactly s plus the multiples of n below SLOT_COUNT, increasing. */
  lemma ProgressionExactly(s: nat, n: nat)
    requires n > 0
    ensures forall x :: x in Progression(s, n) <==> s <= x < SLOT_COUNT && (x - s) % n == 0
    ensures Increasing(Progression(s, n))
  {
    ProgressionMembers(s, n);
    ProgressionIncreasing(s, n);
  }

  /** For a residue i < n: s has residue i iff s lies i plus a multiple of n. */
  lemma {:induction false} ResidueOffset(s: nat, i: nat, n: nat)
    requires i < n
    ensures s % n == i <==> s >= i && (s - i) % n == 0
    decreases s
  {
    if s >= n {
      ModStep(s, n);
      ResidueOffset(s - n, i, n);
      if s - i >= n {
        ModStep(s - i, n);
      } else {
        ModUnique(s - i, n, 0, s - i);
      }
    } else {
      ModUnique(s, n, 0, s);
      if s >= i {
        ModUnique(s - i, n, 0, s - i);
      }
    }
  }

  /**
   * The batch for master i holds exactly the slots of residue i, each once and
   * in increasing order.
   */
  lemma SlotsOfExactly(i: nat, n: nat)
    requires n > 0
    ensures forall s :: s in SlotsOf(i, n) <==> 0 <= s < SLOT_COUNT && s % n == i
    ensures Increasing(SlotsOf(i, n))
  {
    if i < n {
      ProgressionExactly(i, n);
      forall s: nat
        ensures s % n == i <==> s >= i && (s - i) % n == 0
      {
        ResidueOffset(s, i, n);
      }
    }
  }

  lemma {:induction false} SlotsFromExactly(lo: nat, i: nat, n: nat)
    requires n > 0
    ensures forall s :: s in SlotsFrom(lo, i, n) <==> lo <= s < SLOT_COUNT && s % n == i
    ensures Increasing(SlotsFrom(lo, i, n))
    decreases SLOT_COUNT - lo
  {
    if lo < SLOT_COUNT {
      SlotsFromExactly(lo + 1, i, n);
      var rest := SlotsFrom(lo + 1, i, n);
      assert forall a :: 0 <= a < |rest| ==> rest[a] in rest;
    }
  }

  /** The head of an increasing sequence is below everything after it. */
  lemma HeadIsLeast(a: seq<nat>)
    requires Increasing(a) && a != []
    ensures Increasing(a[1..])
    ensures forall x :: x in a[1..] ==> a[0] < x
    ensures forall x :: x in a <==> x == a[0] || x in a[1..]
  {
    assert a == [a[0]] + a[1..];
    forall x | x in a[1..] ensures a[0] < x {
      var k :| 0 <= k < |a[1..]| && a[1..][k] == x;
      assert a[k + 1] == x;
    }
  }

  /** Two increasing sequences with the same members have the same head and tails with the same members. */
  lemma SameHeads(a: seq<nat>, b: seq<nat>)
    requires Increasing(a) && Increasing(b) && a != [] && b != []
    requires forall x :: x in a <==> x in b
    ensures a[0] == b[0]
    ensures forall x :: x in a[1..] <==> x in b[1..]
  {
    HeadIsLeast(a);
    HeadIsLeast(b);
    assert a[0] in b && b[0] in a;
  }

  /** Two increasing sequences with the same elements are the same sequence. */
  lemma {:induction false} IncreasingUnique(a: seq<nat>, b: seq<nat>)
    requires Increasing(a) && Increasing(b)
    requires forall x :: x in a <==> x in b
    ensures a == b
    decreases |a|
  {
    if a == [] {
      assert forall k :: 0 <= k < |b| ==> b[k] in a;
    } else {
      assert a[0] in b;
      SameHeads(a, b);
      HeadIsLeast(a);
      HeadIsLeast(b);
      IncreasingUnique(a[1..], b[1..]);
      assert a == [a[0]] + a[1..] && b == [b[0]] + b[1..];
    }
  }

  /** The stepped batch is exactly the code's filter over the slot range. */
  lemma SlotsOfIsFilter(i: nat, n: nat)
    requires n > 0
    ensures SlotsOf(i, n) == SlotsFrom(0, i, n)
  {
    SlotsOfExactly(i, n);
    SlotsFromExactly(0, i, n);
    IncreasingUnique(SlotsOf(i, n), SlotsFrom(0, i, n));
  }

  /** Every slot has exactly one owner among n masters: the master of index s mod n. */
  lemma SlotOwnedOnce(s: int, n: nat)
    requires n > 0 && 0 <= s < SLOT_COUNT
    ensures s % n < n && s in SlotsOf(s % n, n)
    ensures forall i :: 0 <= i < n && s in SlotsOf(i, n) ==> i == s % n
  {
    SlotsOfExactly(s % n, n);
    forall i | 0 <= i < n && s in SlotsOf(i, n)
      ensures i == s % n
    {
      SlotsOfExactly(i, n);
    }
  }

  /** Batches of distinct masters share no slot. */
  lemma SlotsDisjoint(i: nat, j: nat, n: nat)
    requires n > 0 && i != j
    ensures forall s :: s in SlotsOf(i, n) ==> s !in SlotsOf(j, n)
  {
    SlotsOfExactly(i, n);
    SlotsOfExactly(j, n);
  }

  /** The batches of masters 0 .. n-1 together cover the whole slot range. */
  lemma SlotsCover(n: nat)
    requires n > 0
    ensures forall s :: 0 <= s < SLOT_COUNT ==> s % n < n && s in SlotsOf(s % n, n)
  {
    forall s | 0 <= s < SLOT_COUNT
      ensures s in SlotsOf(s % n, n)
    {
      SlotOwnedOnce(s, n);
    }
  }
}
