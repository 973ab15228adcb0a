/**
 * Port supply and port lists. The provider implementations (sequence,
 * predefined list, ephemeral OS port) are not part of this model: a provider
 * is an oracle that fixes, for each successive call of next(), the port it
 * returns or that the call fails.
 */
module Ports {
  import opened Common

  /** A port provider: call number k (from 0) answers `answers(k)`. */
  class PortProvider {
    const answers: nat -> Option<int>
    var used: nat

    constructor (answers: nat -> Option<int>)
      ensures this.answers == answers && used == 0
    {
      this.answers := answers;
      used := 0;
    }

    /** next(): the port of the current call, or None when that call fails. */
    method Next() returns (r: Option<int>)
      modifies this
      ensures used == old(used) + 1
      ensures r == answers(old(used))
    {
      r := answers(used);
      used := used + 1;
    }
  }

  /** A mutable list of ports that more than one object may hold a reference to. */
  class PortList {
    var items: seq<int>

    constructor ()
      ensures items == []
    {
      items := [];
    }

    method Add(p: int)
      modifies this
      ensures items == old(items) + [p]
    {
      items := items + [p];
    }
  }
}
