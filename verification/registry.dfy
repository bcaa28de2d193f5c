/** The connection registry and the broadcast fan-out (`wsMap` and
    `sendWebSocketData` in netmon.go). The registry maps each connection to a
    liveness flag; a session only ever flips flags, and only the fan-out
    removes entries. Which writes fail is an input to the fan-out. */
module Registry {
  import opened Messages

  /** An opaque connection handle, unique by identity. */
  datatype Conn = Conn(id: nat)

  /** Connection to liveness flag (Go's `map[*websocket.Conn]bool`). */
  type Registry = map<Conn, bool>

  /** The connections currently flagged live. */
  function Live(reg: Registry): (live: set<Conn>)
    ensures live <= reg.Keys
    ensures forall c | c in reg :: (c in live <==> reg[c])
  {
    set c | c in reg && reg[c]
  }

  /** The outcome of one broadcast: the registry left behind, the connections
      a write was attempted on, and those the write reached. */
  datatype Fanout = Fanout(registry: Registry, written: set<Conn>, delivered: set<Conn>)

  /** The fan-out as a whole: entries flagged dead are removed, live entries
      whose write fails are removed, live entries whose write succeeds stay
      and stay live, and no entry is added. Writes go to exactly the live
      entries. */
  function Broadcast(reg: Registry, failing: set<Conn>): (r: Fanout)
    ensures r.registry.Keys <= reg.Keys
    ensures forall c | c in reg && !reg[c] :: c !in r.registry
    ensures forall c | c in reg && reg[c] && c in failing :: c !in r.registry
    ensures forall c | c in reg && reg[c] && c !in failing :: c in r.registry && r.registry[c]
    ensures r.written == Live(reg)
    ensures r.delivered == r.written - failing
  {
    Fanout(
      map c | c in reg && reg[c] && c !in failing :: true,
      Live(reg),
      Live(reg) - failing)
  }

  /** After a broadcast every remaining entry is live, and the live entries
      are exactly those the message reached. */
  lemma BroadcastLeavesOnlyLive(reg: Registry, failing: set<Conn>)
    ensures var r := Broadcast(reg, failing);
      && Live(r.registry) == r.registry.Keys
      && r.registry.Keys == r.delivered
  {
  }

  /** A broadcast over a registry that already had one leaves it unchanged
      when no write fails: the fan-out is idempotent on a clean registry. */
  lemma BroadcastIdempotent(reg: Registry, failing: set<Conn>)
    ensures var once := Broadcast(reg, failing).registry;
      Broadcast(once, {}).registry == once
  {
  }

  /** Go's `sendWebSocketData`: visit every entry once, in an unspecified
      order; delete a dead entry, otherwise write the envelope and delete the
      entry if the write fails. Returns the resulting registry and the
      envelope written to each connection. It computes exactly `Broadcast`. */
  method SendWebSocketData(reg: Registry, failing: set<Conn>, messageType: string, data: string)
    returns (reg': Registry, sent: map<Conn, Envelope>)
    ensures reg' == Broadcast(reg, failing).registry
    ensures sent.Keys == Live(reg)
    ensures forall c | c in sent :: sent[c] == Envelope(messageType, data)
  {
    reg' := reg;
    sent := map[];
    var pending := reg.Keys;
    while pending != {}
      invariant pending <= reg.Keys
      invariant forall c | c in pending :: c in reg' && reg'[c] == reg[c]
      invariant forall c | c in reg && c !in pending :: (c in reg' <==> reg[c] && c !in failing)
      invariant forall c | c in reg' :: c in reg && reg'[c] == reg[c]
      invariant sent.Keys == set c | c in reg && c !in pending && reg[c]
      invariant forall c | c in sent :: sent[c] == Envelope(messageType, data)
      decreases pending
    {
      var c :| c in pending;
      if !reg'[c] {
        reg' := reg' - {c};
      } else {
        sent := sent[c := Envelope(messageType, data)];
        if c in failing {
          reg' := reg' - {c};
        }
      }
      pending := pending - {c};
    }
  }

  /** Registering a new connection (Go: `wsMap[c] = true`). */
  function Register(reg: Registry, c: Conn): (reg': Registry)
    ensures reg'.Keys == reg.Keys + {c}
    ensures c in Live(reg')
    ensures forall d | d in reg && d != c :: reg'[d] == reg[d]
  {
    reg[c := true]
  }

  /** Marking a connection dead after a failed read or write
      (Go: `wsMap[c] = false`). The entry is kept, so that only the fan-out
      removes entries. */
  function MarkDead(reg: Registry, c: Conn): (reg': Registry)
    ensures reg'.Keys == reg.Keys + {c}
    ensures c in reg' && c !in Live(reg')
    ensures forall d | d in reg && d != c :: reg'[d] == reg[d]
  {
    reg[c := false]
  }

  /** A session's write into its own entry (`wsMap[c] = true` or `false`). */
  datatype FlagWrite = FlagWrite(conn: Conn, live: bool)

  /** The values written into one connection's entry, in order. */
  function WritesTo(c: Conn, writes: seq<FlagWrite>): (flags: seq<bool>)
    ensures |flags| <= |writes|
    decreases |writes|
  {
    if writes == [] then []
    else
      var w := writes[|writes| - 1];
      WritesTo(c, writes[..|writes| - 1]) + (if w.conn == c then [w.live] else [])
  }

  /** Session writes applied in order. */
  function ApplyWrites(reg: Registry, writes: seq<FlagWrite>): (reg': Registry)
    ensures reg.Keys <= reg'.Keys
    decreases |writes|
  {
    if writes == [] then reg
    else
      var before := ApplyWrites(reg, writes[..|writes| - 1]);
      var w := writes[|writes| - 1];
      if w.live then Register(before, w.conn) else MarkDead(before, w.conn)
  }

  /** After session writes, an entry nobody wrote is as it was, and a
      written entry exists and holds the last value written to it. */
  lemma {:induction false} ApplyWritesEntry(reg: Registry, writes: seq<FlagWrite>, c: Conn)
    ensures var reg' := ApplyWrites(reg, writes);
      var flags := WritesTo(c, writes);
      && (flags == [] ==> (c in reg' <==> c in reg) && (c in reg ==> reg'[c] == reg[c]))
      && (flags != [] ==> c in reg' && reg'[c] == flags[|flags| - 1])
    decreases |writes|
  {
    if writes != [] {
      ApplyWritesEntry(reg, writes[..|writes| - 1], c);
    }
  }

  /** `ApplyWritesEntry` for every connection at once. */
  lemma ApplyWritesEntries(reg: Registry, writes: seq<FlagWrite>)
    ensures forall c | WritesTo(c, writes) == [] ::
      (c in ApplyWrites(reg, writes) <==> c in reg) && (c in reg ==> ApplyWrites(reg, writes)[c] == reg[c])
    ensures forall c | WritesTo(c, writes) != [] ::
      c in ApplyWrites(reg, writes) && ApplyWrites(reg, writes)[c] == WritesTo(c, writes)[|WritesTo(c, writes)| - 1]
  {
    forall c {
      ApplyWritesEntry(reg, writes, c);
    }
  }
}
