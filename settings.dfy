/**
 * The configuration lines the builder gives every cluster node, and the
 * decimal port text (Java's Integer.toString) used in the node file name.
 */
module Settings {

  function DigitChar(d: nat): char
    requires d < 10
  {
    (48 + d) as char
  }

  function DigitValue(c: char): nat
    requires '0' <= c <= '9'
  {
    c as int - 48
  }

  /** A non-empty string of decimal digits. */
  predicate IsDigits(s: string)
  {
    |s| >= 1 && forall k :: 0 <= k < |s| ==> '0' <= s[k] <= '9'
  }

  /** The decimal text of n, without leading zeros. */
  function NatText(n: nat): (s: string)
    ensures IsDigits(s)
    decreases n
  {
    if n < 10 then [DigitChar(n)] else NatText(n / 10) + [DigitChar(n % 10)]
  }

  /** The value of a decimal digit string. */
  function ParseNat(s: string): nat
    requires IsDigits(s)
    decreases |s|
  {
    if |s| == 1 then DigitValue(s[0])
    else 10 * ParseNat(s[..|s| - 1]) + DigitValue(s[|s| - 1])
  }

  lemma {:induction false} ParseNatText(n: nat)
    ensures ParseNat(NatText(n)) == n
    decreases n
  {
    if n >= 10 {
      var s := NatText(n);
      assert s[..|s| - 1] == NatText(n / 10);
      ParseNatText(n / 10);
    }
  }

  /** The text Java's string concatenation gives an int: a minus sign for negatives. */
  function IntText(p: int): string
  {
    if p < 0 then "-" + NatText(-p) else NatText(p)
  }

  /** The shape of IntText's output: optional minus sign, then digits. */
  predicate IsIntText(s: string)
  {
    IsDigits(s) || (|s| >= 2 && s[0] == '-' && IsDigits(s[1..]))
  }

  function ParseInt(s: string): int
    requires IsIntText(s)
  {
    if s[0] == '-' then -(ParseNat(s[1..]) as int) else ParseNat(s)
  }

  /** Port text can be read back, so two different ports never share a text. */
  lemma IntTextRoundTrip(p: int)
    ensures IsIntText(IntText(p)) && ParseInt(IntText(p)) == p
  {
    if p < 0 {
      var t := NatText(-p);
      assert IntText(p) == "-" + t;
      assert ("-" + t)[0] == '-' && ("-" + t)[1..] == t;
      ParseNatText(-p);
    } else {
      var t := NatText(p);
      assert IntText(p) == t && '0' <= t[0] <= '9';
      ParseNatText(p);
    }
  }

  const NODE_FILE_PREFIX: string := "nodes-slave-"
  const NODE_FILE_SUFFIX: string := ".conf"

  /** The cluster state file of the node on port p; masters use the same prefix. */
  function NodeFile(p: int): string
  {
    NODE_FILE_PREFIX + IntText(p) + NODE_FILE_SUFFIX
  }

  /** The four cluster lines every built node receives, in the order given. */
  function ClusterSettings(p: int): seq<string>
  {
    ["cluster-enabled yes",
     "cluster-config-file " + NodeFile(p),
     "cluster-node-timeout 5000",
     "appendonly no"]
  }

  /** Distinct ports give distinct node files. */
  lemma NodeFileInjective(p: int, q: int)
    requires NodeFile(p) == NodeFile(q)
    ensures p == q
  {
    var f := NodeFile(p);
    assert f[12..|f| - 5] == IntText(p);
    assert NodeFile(q)[12..|NodeFile(q)| - 5] == IntText(q);
    IntTextRoundTrip(p);
    IntTextRoundTrip(q);
  }

  /**
   * The settings identify the port: the node file line differs for distinct
   * ports, so no two nodes of a cluster with distinct ports share a state file.
   */
  lemma ClusterSettingsInjective(p: int, q: int)
    requires ClusterSettings(p) == ClusterSettings(q)
    ensures p == q
  {
    var a, b := ClusterSettings(p)[1], ClusterSettings(q)[1];
    assert a[20..] == NodeFile(p);
    assert b[20..] == NodeFile(q);
    NodeFileInjective(p, q);
  }
}
