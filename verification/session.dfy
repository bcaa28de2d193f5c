/** The per-connection session handler (`WsHandler` in netmon.go): register
    the connection, send the whole history as an `init` notification, then
    turn every inbound message into one measurement trigger until the first
    read error. The upgrade, the init write and each read are inputs.

    Other sessions and the pipeline run concurrently with a session, so the
    session is described by the flag values it writes into its own registry
    entry, in order, rather than by a final registry. */
module Session {
  import opened Wrappers
  import opened Messages
  import opened Json
  import opened Registry

  /** The payload of the `init` notification: the encoding of the whole
      history, or an explicit empty array when there is none yet (a nil
      slice would encode as `null`). */
  function InitPayload(encode: Encoder, history: seq<PerfJson>): (r: Option<string>)
    ensures history == [] ==> r == Some("[]")
    ensures r.Some? ==> |r.value| >= 2 && r.value[0] == '[' && r.value[|r.value| - 1] == ']'
    ensures r.None? <==> exists i | 0 <= i < |history| :: encode(history[i]).None?
  {
    if |history| > 0 then MarshalSlice(encode, history) else Some("[]")
  }

  /** A client never receives `null` as its initial payload. */
  lemma InitPayloadNeverNull(encode: Encoder, history: seq<PerfJson>)
    ensures InitPayload(encode, history) != Some("null")
  {
  }

  /** The payload a newcomer gets after one more record is the previous
      payload with that record's encoding, which is the data of the `result`
      notification for it, added as the last array element. */
  lemma InitPayloadAppend(encode: Encoder, history: seq<PerfJson>, p: PerfJson, d: string)
    requires encode(p) == Some(d)
    requires InitPayload(encode, history).Some?
    ensures var prev := InitPayload(encode, history).value;
      InitPayload(encode, history + [p]) ==
        Some(if history == [] then "[" + d + "]" else prev[..|prev| - 1] + "," + d + "]")
  {
    var h' := history + [p];
    if history == [] {
      assert h' == [p];
    } else {
      ElementsAppend(encode, history, p, d);
      var body := Elements(encode, history).value;
      var prev := "[" + body + "]";
      assert InitPayload(encode, history) == Some(prev);
      assert prev[..|prev| - 1] == "[" + body;
      assert Elements(encode, h') == Some(body + "," + d);
      assert InitPayload(encode, h') == Some("[" + (body + "," + d) + "]");
      assert "[" + (body + "," + d) + "]" == prev[..|prev| - 1] + "," + d + "]";
    }
  }

  /** One inbound read: a message (its content is irrelevant) or an error. */
  datatype ReadOutcome = Received(message: string) | ReadFailed

  /** How the read loop ended: the number of triggers sent, and whether it
      stopped on a read error (otherwise the connection is still open after
      the given reads). */
  datatype ReadLoopEnd = ReadLoopEnd(triggers: nat, failed: bool)

  /** The read loop: one trigger per message, stopping at the first read
      error. */
  function ReadLoop(inbound: seq<ReadOutcome>): (r: ReadLoopEnd)
    ensures r.triggers <= |inbound|
    ensures forall i | 0 <= i < r.triggers :: inbound[i].Received?
    ensures r.failed <==> r.triggers < |inbound|
    ensures r.failed ==> inbound[r.triggers] == ReadFailed
    decreases |inbound|
  {
    if inbound == [] then ReadLoopEnd(0, false)
    else if inbound[0].ReadFailed? then ReadLoopEnd(0, true)
    else
      var rest := ReadLoop(inbound[1..]);
      ReadLoopEnd(rest.triggers + 1, rest.failed)
  }

  /** The message contents never matter: two read sequences with the same
      successes and failures produce the same triggers. */
  lemma {:induction false} ReadLoopIgnoresContent(inbound: seq<ReadOutcome>, other: seq<ReadOutcome>)
    requires |inbound| == |other|
    requires forall i | 0 <= i < |inbound| :: inbound[i].Received? == other[i].Received?
    ensures ReadLoop(inbound) == ReadLoop(other)
    decreases |inbound|
  {
    if inbound != [] && inbound[0].Received? {
      ReadLoopIgnoresContent(inbound[1..], other[1..]);
    }
  }

  /** With no read error, every message yields exactly one trigger. */
  lemma ReadLoopCountsMessages(inbound: seq<ReadOutcome>)
    requires forall i | 0 <= i < |inbound| :: inbound[i].Received?
    ensures ReadLoop(inbound) == ReadLoopEnd(|inbound|, false)
  {
  }

  /** What one session did: the connection it registered (if the upgrade
      succeeded), the flag values it wrote into that entry in order, the
      `init` notification it attempted to write, and the triggers it sent. */
  datatype SessionTrace = SessionTrace(
    conn: Option<Conn>,
    flags: seq<bool>,
    init: Option<Envelope>,
    triggers: nat)

  /** Go's `WsHandler`, given the upgrade result, whether the init write
      succeeds, and the reads that follow. */
  function HandleSession(
    encode: Encoder,
    history: seq<PerfJson>,
    upgrade: Option<Conn>,
    initWriteOk: bool,
    inbound: seq<ReadOutcome>): (t: SessionTrace)
    ensures t.conn == upgrade
    ensures upgrade.None? ==> t.flags == [] && t.init.None? && t.triggers == 0
    ensures upgrade.Some? ==> 1 <= |t.flags| <= 2 && t.flags[0]
    ensures forall i | 1 <= i < |t.flags| :: !t.flags[i]
    ensures t.init.Some? ==> t.init.value.kind == InitType && InitPayload(encode, history) == Some(t.init.value.data)
    ensures upgrade.Some? ==> (t.init.Some? <==> InitPayload(encode, history).Some?)
    ensures t.triggers > 0 ==> t.init.Some? && initWriteOk
    ensures t.init.Some? && initWriteOk ==> t.triggers == ReadLoop(inbound).triggers
    ensures |t.flags| == 2 <==> t.init.Some? && (!initWriteOk || ReadLoop(inbound).failed)
  {
    match upgrade
    case None => SessionTrace(None, [], None, 0)
    case Some(c) =>
      match InitPayload(encode, history)
      case None =>
        // Encoding the history failed: the handler returns with the entry
        // still flagged live; the next broadcast finds the closed connection.
        SessionTrace(upgrade, [true], None, 0)
      case Some(payload) =>
        var init := Envelope(InitType, payload);
        if !initWriteOk then SessionTrace(upgrade, [true, false], Some(init), 0)
        else
          var loop := ReadLoop(inbound);
          SessionTrace(upgrade, if loop.failed then [true, false] else [true], Some(init), loop.triggers)
  }

  /** The registry writes a session makes, applied in order to whatever the
      registry holds at the time. */
  function ApplyFlags(reg: Registry, c: Conn, flags: seq<bool>): (reg': Registry)
    ensures flags != [] ==> reg'.Keys == reg.Keys + {c}
    ensures flags != [] ==> reg'[c] == flags[|flags| - 1]
    ensures forall d | d in reg && d != c :: d in reg' && reg'[d] == reg[d]
    decreases |flags|
  {
    if flags == [] then reg
    else
      var next := if flags[0] then Register(reg, c) else MarkDead(reg, c);
      ApplyFlags(next, c, flags[1..])
  }

  /** A session never removes any entry, touches no entry but its own, and
      leaves its own entry dead exactly when the init write or a read
      failed. */
  lemma SessionNeverDeletes(
    reg: Registry, encode: Encoder, history: seq<PerfJson>,
    c: Conn, initWriteOk: bool, inbound: seq<ReadOutcome>)
    ensures var t := HandleSession(encode, history, Some(c), initWriteOk, inbound);
      var reg' := ApplyFlags(reg, c, t.flags);
      && reg'.Keys == reg.Keys + {c}
      && (forall d | d in reg && d != c :: reg'[d] == reg[d])
      && (!reg'[c] <==> InitPayload(encode, history).Some? && (!initWriteOk || ReadLoop(inbound).failed))
  {
  }
}
