/** The shared handler context (`HandlerContext` in netmon.go) seen as one
    interleaving of the actors that touch it: sessions writing their own
    liveness flag, and the pipeline processing triggers. A session write can
    land between two triggers, or inside one, while the tool runs between
    the waiting status and the report. Goroutine scheduling is an input. */
module Server {
  import opened Wrappers
  import opened Decimal
  import opened Json
  import opened Registry
  import opened Session
  import opened Pipeline

  /** One action on the shared state. */
  datatype Event =
    | Flag(write: FlagWrite)                          // a session's `wsMap[c] = live` between triggers
    | Trigger(inputs: StepInputs, during: seq<FlagWrite>)  // one trigger, and the writes made while the tool runs

  /** Applies the events in order. */
  function Interleave(server: Int64, encode: Encoder, st: State, events: seq<Event>): (r: StepResult)
    decreases |events|
  {
    if events == [] then StepResult(st, [])
    else
      match events[0]
      case Flag(w) =>
        var next := State(st.history, if w.live then Register(st.registry, w.conn) else MarkDead(st.registry, w.conn));
        Interleave(server, encode, next, events[1..])
      case Trigger(inputs, during) =>
        var first := StepWith(server, encode, st, inputs, during);
        var rest := Interleave(server, encode, first.state, events[1..]);
        StepResult(rest.state, first.emitted + rest.emitted)
  }

  /** The values one connection's session writes during a run, in order,
      wherever they land. */
  function FlagsOf(c: Conn, events: seq<Event>): (flags: seq<bool>)
    decreases |events|
  {
    if events == [] then []
    else
      var rest := FlagsOf(c, events[1..]);
      match events[0]
      case Flag(w) => WritesTo(c, [w]) + rest
      case Trigger(_, during) => WritesTo(c, during) + rest
  }

  /** A connection that is not live (never registered, flagged dead, or
      evicted by a fan-out) and whose session never flags it live again
      receives no notification for the rest of the run. Since a session
      writes `true` only once, as its first write, this covers every
      connection whose failure has been observed. */
  lemma {:induction false} DeadStaysSilent(server: Int64, encode: Encoder, st: State, events: seq<Event>, c: Conn)
    requires c !in Live(st.registry)
    requires true !in FlagsOf(c, events)
    ensures c !in Live(Interleave(server, encode, st, events).state.registry)
    ensures ReceivedBy(c, Interleave(server, encode, st, events).emitted) == []
    decreases |events|
  {
    if events != [] {
      var tail := events[1..];
      match events[0]
      case Flag(w) =>
        var next := State(st.history, if w.live then Register(st.registry, w.conn) else MarkDead(st.registry, w.conn));
        assert true !in WritesTo(c, [w]);
        DeadStaysSilent(server, encode, next, tail, c);
      case Trigger(inputs, during) =>
        var first := StepWith(server, encode, st, inputs, during);
        var rest := Interleave(server, encode, first.state, tail);
        assert true !in WritesTo(c, during);
        DeadStaysSilent(server, encode, first.state, tail, c);
        ReceivedByAppend(c, first.emitted, rest.emitted);
        if |first.emitted| == 2 {
          assert first.emitted[1..][1..] == [];
        } else {
          assert first.emitted[1..] == [];
        }
    }
  }

  /** Only the fan-out removes registry entries: a run without triggers
      keeps every entry, and history changes only through triggers. */
  lemma {:induction false} OnlyFanoutDeletes(server: Int64, encode: Encoder, st: State, events: seq<Event>)
    requires forall i | 0 <= i < |events| :: events[i].Flag?
    ensures st.registry.Keys <= Interleave(server, encode, st, events).state.registry.Keys
    ensures Interleave(server, encode, st, events).state.history == st.history
    ensures Interleave(server, encode, st, events).emitted == []
    decreases |events|
  {
    if events != [] {
      var w := events[0].write;
      var next := State(st.history, if w.live then Register(st.registry, w.conn) else MarkDead(st.registry, w.conn));
      OnlyFanoutDeletes(server, encode, next, events[1..]);
    }
  }

  /** A whole session's writes, replayed against the shared state, add its
      own entry and remove nothing. */
  lemma SessionFlagsOnlyAdd(server: Int64, encode: Encoder, st: State, c: Conn,
                            initWriteOk: bool, inbound: seq<ReadOutcome>)
    ensures var t := HandleSession(encode, st.history, Some(c), initWriteOk, inbound);
      var events := seq(|t.flags|, i requires 0 <= i < |t.flags| => Flag(FlagWrite(c, t.flags[i])));
      && st.registry.Keys + {c} == Interleave(server, encode, st, events).state.registry.Keys
  {
    var t := HandleSession(encode, st.history, Some(c), initWriteOk, inbound);
    var events := seq(|t.flags|, i requires 0 <= i < |t.flags| => Flag(FlagWrite(c, t.flags[i])));
    FlagEventsApply(server, encode, st, c, t.flags, events);
  }

  lemma {:induction false} FlagEventsApply(server: Int64, encode: Encoder, st: State, c: Conn, flags: seq<bool>, events: seq<Event>)
    requires |events| == |flags|
    requires forall i | 0 <= i < |flags| :: events[i] == Flag(FlagWrite(c, flags[i]))
    ensures Interleave(server, encode, st, events).state == State(st.history, ApplyFlags(st.registry, c, flags))
    decreases |flags|
  {
    if flags != [] {
      var next := State(st.history, if flags[0] then Register(st.registry, c) else MarkDead(st.registry, c));
      FlagEventsApply(server, encode, next, c, flags[1..], events[1..]);
    }
  }
}
