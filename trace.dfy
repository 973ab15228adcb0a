/**
 * The trace of externally visible actions a cluster performs, what can be
 * read off a trace (connections opened, MEET senders, slot batches), and the
 * connection discipline: every command travels on an open connection to its
 * own port, and every connection opened is closed before the next one opens.
 */
module Trace {
  import opened Common
  import opened Members

  /** The host every administrative connection and every MEET names. */
  const HOST: string := "127.0.0.1"

  /** The administrative commands the bootstrap sends. */
  datatype Command = Meet(host: string, target: int) | AddSlots(slots: seq<nat>)

  /** What the cluster does to the outside world, in order. */
  datatype Event =
    | Started(role: Role, index: nat)
    | Stopped(role: Role, index: nat)
    | Open(port: int)
    | Send(port: int, cmd: Command)
    | Sync(port: int)
    | Close(port: int)
    | Wait(millis: nat)

  /** A command (or pipeline sync) on the connection to port p. */
  predicate OnConnection(e: Event, p: int)
  {
    (e.Send? || e.Sync?) && e.port == p
  }

  /** A start or stop of a member process. */
  predicate IsLifecycle(e: Event)
  {
    e.Started? || e.Stopped?
  }

  /** An event of an administrative connection: open, command, sync or close. */
  predicate IsAdmin(e: Event)
  {
    e.Open? || e.Send? || e.Sync? || e.Close?
  }

  /** Every event of t belongs to an administrative connection. */
  predicate AdminOnly(t: seq<Event>)
  {
    forall k :: 0 <= k < |t| ==> IsAdmin(t[k])
  }

  /** No member process is started or stopped in t. */
  predicate NoLifecycle(t: seq<Event>)
  {
    forall k :: 0 <= k < |t| ==> !IsLifecycle(t[k])
  }

  /** Every CLUSTER MEET in t names the seed port on HOST. */
  predicate MeetsOnly(t: seq<Event>, seed: int)
  {
    forall k :: 0 <= k < |t| && t[k].Send? && t[k].cmd.Meet? ==> t[k].cmd == Meet(HOST, seed)
  }

  /** One connection's life: open, the commands, close (the close runs in a finally block). */
  function Session(p: int, cmds: seq<Event>): seq<Event>
  {
    [Open(p)] + cmds + [Close(p)]
  }

  // ----- reading a trace -----

  /** Everything f reads off the events of t, in trace order. */
  function Gather<T>(t: seq<Event>, f: Event -> seq<T>): seq<T>
  {
    if t == [] then [] else f(t[0]) + Gather(t[1..], f)
  }

  function OpenedPort(e: Event): seq<int>
  {
    if e.Open? then [e.port] else []
  }

  function MeetSender(e: Event): seq<int>
  {
    if e.Send? && e.cmd.Meet? then [e.port] else []
  }

  function SlotBatch(e: Event): seq<(int, seq<nat>)>
  {
    if e.Send? && e.cmd.AddSlots? then [(e.port, e.cmd.slots)] else []
  }

  /** The ports connections were opened to, in order. */
  function Opens(t: seq<Event>): seq<int> { Gather(t, OpenedPort) }

  /** The ports that sent CLUSTER MEET, in order. */
  function Meets(t: seq<Event>): seq<int> { Gather(t, MeetSender) }

  /** The (port, slots) of every CLUSTER ADDSLOTS batch, in order. */
  function Batches(t: seq<Event>): seq<(int, seq<nat>)> { Gather(t, SlotBatch) }

  lemma {:induction false} GatherAppend<T>(a: seq<Event>, b: seq<Event>, f: Event -> seq<T>)
    ensures Gather(a + b, f) == Gather(a, f) + Gather(b, f)
    decreases |a|
  {
    if a == [] {
      assert a + b == b;
    } else {
      assert (a + b)[1..] == a[1..] + b;
      GatherAppend(a[1..], b, f);
    }
  }

  lemma GatherOne<T>(e: Event, f: Event -> seq<T>)
    ensures Gather([e], f) == f(e)
  {
    assert [e][1..] == [];
  }

  lemma GatherTwo<T>(e1: Event, e2: Event, f: Event -> seq<T>)
    ensures Gather([e1, e2], f) == f(e1) + f(e2)
  {
    assert [e1, e2][1..] == [e2];
    GatherOne(e2, f);
  }

  lemma {:induction false} GatherNothing<T>(t: seq<Event>, f: Event -> seq<T>)
    requires forall k :: 0 <= k < |t| ==> f(t[k]) == []
    ensures Gather(t, f) == []
    decreases |t|
  {
    if t != [] {
      GatherNothing(t[1..], f);
    }
  }

  /** What a session shows: one connection to p, and whatever its commands show. */
  lemma SessionReads(p: int, cmds: seq<Event>)
    requires forall k :: 0 <= k < |cmds| ==> OnConnection(cmds[k], p)
    ensures Opens(Session(p, cmds)) == [p]
    ensures Meets(Session(p, cmds)) == Meets(cmds)
    ensures Batches(Session(p, cmds)) == Batches(cmds)
  {
    GatherAppend([Open(p)] + cmds, [Close(p)], OpenedPort);
    GatherAppend([Open(p)], cmds, OpenedPort);
    GatherNothing(cmds, OpenedPort);
    GatherOne(Open(p), OpenedPort);
    GatherOne(Close(p), OpenedPort);
    GatherAppend([Open(p)] + cmds, [Close(p)], MeetSender);
    GatherAppend([Open(p)], cmds, MeetSender);
    GatherOne(Open(p), MeetSender);
    GatherOne(Close(p), MeetSender);
    GatherAppend([Open(p)] + cmds, [Close(p)], SlotBatch);
    GatherAppend([Open(p)], cmds, SlotBatch);
    GatherOne(Open(p), SlotBatch);
    GatherOne(Close(p), SlotBatch);
  }

  // ----- connection discipline -----

  /**
   * Scanning t with `conn` the connection currently open (None: none is):
   * Open only when none is open, commands only on the open connection to
   * their own port, Close only of the open connection, lifecycle events and
   * waits only outside connections, and nothing left open at the end.
   */
  predicate Bracketed(t: seq<Event>, conn: Option<int>)
    decreases |t|
  {
    if t == [] then conn.None?
    else match t[0]
      case Open(p) => conn.None? && Bracketed(t[1..], Some(p))
      case Close(p) => conn == Some(p) && Bracketed(t[1..], None)
      case Send(p, _) => conn == Some(p) && Bracketed(t[1..], conn)
      case Sync(p) => conn == Some(p) && Bracketed(t[1..], conn)
      case _ => conn.None? && Bracketed(t[1..], conn)
  }

  /** Every Open has exactly one matching Close, with only its own commands between. */
  predicate WellBracketed(t: seq<Event>)
  {
    Bracketed(t, None)
  }

  lemma {:induction false} BracketedAppend(a: seq<Event>, b: seq<Event>, conn: Option<int>)
    requires Bracketed(a, conn) && WellBracketed(b)
    ensures Bracketed(a + b, conn)
    decreases |a|
  {
    if a == [] {
      assert a + b == b;
    } else {
      assert (a + b)[0] == a[0];
      assert (a + b)[1..] == a[1..] + b;
      match a[0]
      case Open(p) => BracketedAppend(a[1..], b, Some(p));
      case Close(p) => BracketedAppend(a[1..], b, None);
      case Send(p, _) => BracketedAppend(a[1..], b, conn);
      case Sync(p) => BracketedAppend(a[1..], b, conn);
      case Started(_, _) => BracketedAppend(a[1..], b, conn);
      case Stopped(_, _) => BracketedAppend(a[1..], b, conn);
      case Wait(_) => BracketedAppend(a[1..], b, conn);
    }
  }

  lemma {:induction false} CommandsBracketed(p: int, cmds: seq<Event>)
    requires forall k :: 0 <= k < |cmds| ==> OnConnection(cmds[k], p)
    ensures Bracketed(cmds + [Close(p)], Some(p))
    decreases |cmds|
  {
    if cmds == [] {
      assert cmds + [Close(p)] == [Close(p)];
      assert [Close(p)][1..] == [];
    } else {
      assert (cmds + [Close(p)])[1..] == cmds[1..] + [Close(p)];
      CommandsBracketed(p, cmds[1..]);
    }
  }

  /** A session opens and closes one connection and sends only on it. */
  lemma SessionBracketed(p: int, cmds: seq<Event>)
    requires forall k :: 0 <= k < |cmds| ==> OnConnection(cmds[k], p)
    ensures WellBracketed(Session(p, cmds))
  {
    CommandsBracketed(p, cmds);
    assert Session(p, cmds)[1..] == cmds + [Close(p)];
  }

  lemma {:induction false} LifecycleBracketed(t: seq<Event>)
    requires forall k :: 0 <= k < |t| ==> IsLifecycle(t[k]) || t[k].Wait?
    ensures WellBracketed(t)
    decreases |t|
  {
    if t != [] {
      LifecycleBracketed(t[1..]);
    }
  }
}
