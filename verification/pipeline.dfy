/** The request pipeline (`speedtestHandler` in netmon.go). Triggers are
    processed one at a time: announce, measure, record, report. A step takes
    the history, the registry and the outcomes of the outside world (which
    writes fail, what the process stages returned, whether encoding
    succeeds, which session writes land while the tool runs) to the next
    history, the next registry and the notifications sent, each with the
    connections it reached. */
module Pipeline {
  import opened Wrappers
  import opened Decimal
  import opened Messages
  import opened Json
  import opened Registry
  import opened Runner
  import opened Session

  const WaitingStatus: string := "Request made. Waiting for response."
  const ErrorStatus: string := "Error executing SpeedTest."

  /** One broadcast notification and the connections it reached. */
  datatype Notification = Notification(message: Envelope, recipients: set<Conn>)

  /** The state the pipeline owns or shares: the append-only history and the
      connection registry. */
  datatype State = State(history: seq<PerfJson>, registry: Registry)

  /** The outside world's answers for one trigger: which connections fail
      the announcing write, what running the tool produced, and which fail
      the reporting write. */
  datatype StepInputs = StepInputs(
    announceFailures: set<Conn>,
    process: ProcessOutcome,
    reportFailures: set<Conn>)

  datatype StepResult = StepResult(state: State, emitted: seq<Notification>)

  /** One call of `sendWebSocketData`, as seen by the pipeline: the envelope
      reaches exactly the live entries whose write succeeds, and those are
      the entries left, all live. */
  function Notify(reg: Registry, failing: set<Conn>, kind: string, data: string): (r: (Registry, Notification))
    ensures r.1.message == Envelope(kind, data)
    ensures r.1.recipients == Live(reg) - failing
    ensures r.0.Keys == r.1.recipients && Live(r.0) == r.0.Keys
  {
    var f := Broadcast(reg, failing);
    (f.registry, Notification(Envelope(kind, data), f.delivered))
  }

  /** One iteration of the `speedtestHandler` loop, with the session writes
      that land while the tool runs: after the waiting status went out and
      before the outcome is reported. A connection registered then hears the
      outcome without having heard the status. */
  function StepWith(server: Int64, encode: Encoder, st: State, inputs: StepInputs, during: seq<FlagWrite>): (r: StepResult)
    ensures 1 <= |r.emitted| <= 2
    ensures r.emitted[0].message == Envelope(StatusType, WaitingStatus)
    ensures r.emitted[0].recipients == Live(st.registry) - inputs.announceFailures
    ensures Classify(inputs.process).Failure? ==>
      && r.state.history == st.history
      && |r.emitted| == 2
      && r.emitted[1].message == Envelope(StatusType, ErrorStatus)
    ensures Classify(inputs.process).Success? ==>
      && r.state.history == st.history + [Classify(inputs.process).value]
      && (|r.emitted| == 2 <==> encode(Classify(inputs.process).value).Some?)
      && (|r.emitted| == 2 ==>
            r.emitted[1].message == Envelope(ResultType, encode(Classify(inputs.process).value).value))
    ensures |r.emitted| == 2 ==>
      forall c | c in r.emitted[1].recipients :: c in r.emitted[0].recipients || true in WritesTo(c, during)
    ensures |r.emitted| == 2 ==>
      forall c | c in r.emitted[0].recipients && WritesTo(c, during) == [] && c !in inputs.reportFailures ::
        c in r.emitted[1].recipients
    ensures |r.emitted| == 2 ==> Live(r.state.registry) == r.state.registry.Keys == r.emitted[1].recipients
    ensures forall c | c in Live(r.state.registry) :: c in Live(st.registry) || true in WritesTo(c, during)
  {
    var (afterAnnounce, announce) := Notify(st.registry, inputs.announceFailures, StatusType, WaitingStatus);
    var measuring := ApplyWrites(afterAnnounce, during);
    ApplyWritesEntries(afterAnnounce, during);
    match GetSpeedTestInfo(server, inputs.process).result
    case Failure(_) =>
      var (afterReport, report) := Notify(measuring, inputs.reportFailures, StatusType, ErrorStatus);
      StepResult(State(st.history, afterReport), [announce, report])
    case Success(perf) =>
      // The record joins the history before it is encoded, so a record that
      // fails to encode is kept but never reported.
      var history := st.history + [perf];
      match encode(perf)
      case None => StepResult(State(history, measuring), [announce])
      case Some(data) =>
        var (afterReport, report) := Notify(measuring, inputs.reportFailures, ResultType, data);
        StepResult(State(history, afterReport), [announce, report])
  }

  /** A trigger during which no session writes its flag. Then only the
      clients live when the trigger is taken hear anything of it. */
  function Step(server: Int64, encode: Encoder, st: State, inputs: StepInputs): (r: StepResult)
    ensures 1 <= |r.emitted| <= 2
    ensures r.emitted[0].message == Envelope(StatusType, WaitingStatus)
    ensures r.emitted[0].recipients == Live(st.registry) - inputs.announceFailures
    ensures |r.emitted| == 2 ==> r.emitted[1].recipients <= r.emitted[0].recipients
    ensures Classify(inputs.process).Failure? ==>
      && r.state.history == st.history
      && |r.emitted| == 2
      && r.emitted[1].message == Envelope(StatusType, ErrorStatus)
    ensures Classify(inputs.process).Success? ==>
      && r.state.history == st.history + [Classify(inputs.process).value]
      && (|r.emitted| == 2 <==> encode(Classify(inputs.process).value).Some?)
      && (|r.emitted| == 2 ==>
            r.emitted[1].message == Envelope(ResultType, encode(Classify(inputs.process).value).value))
    ensures r.state.registry.Keys <= st.registry.Keys
    ensures Live(r.state.registry) == r.state.registry.Keys
    ensures r.state.registry.Keys == r.emitted[|r.emitted| - 1].recipients
  {
    StepWith(server, encode, st, inputs, [])
  }

  /** The notifications one client received, in order. */
  function ReceivedBy(c: Conn, emitted: seq<Notification>): (view: seq<Envelope>)
    ensures |view| <= |emitted|
    decreases |emitted|
  {
    if emitted == [] then []
    else
      var rest := ReceivedBy(c, emitted[1..]);
      if c in emitted[0].recipients then [emitted[0].message] + rest else rest
  }

  lemma {:induction false} ReceivedByAppend(c: Conn, a: seq<Notification>, b: seq<Notification>)
    ensures ReceivedBy(c, a + b) == ReceivedBy(c, a) + ReceivedBy(c, b)
    decreases |a|
  {
    if a != [] {
      assert (a + b)[0] == a[0];
      assert (a + b)[1..] == a[1..] + b;
      ReceivedByAppend(c, a[1..], b);
    } else {
      assert a + b == b;
    }
  }

  /** What every client sees of one trigger during which no session writes
      its flag: nothing, or the waiting status first; a result or error
      status only after it; and a client that was live when the trigger was
      taken and whose writes succeeded sees exactly the status followed by
      the outcome. */
  lemma StatusPrecedesOutcome(server: Int64, encode: Encoder, st: State, inputs: StepInputs, c: Conn)
    ensures var view := ReceivedBy(c, Step(server, encode, st, inputs).emitted);
      && |view| <= 2
      && (view != [] ==> view[0] == Envelope(StatusType, WaitingStatus))
      && (forall i | 0 <= i < |view| && view[i].kind != StatusType :: i == 1 && view[i].kind == ResultType)
    ensures var view := ReceivedBy(c, Step(server, encode, st, inputs).emitted);
      c in Live(st.registry) && c !in inputs.announceFailures && c !in inputs.reportFailures ==>
        match Classify(inputs.process)
        case Failure(_) =>
          view == [Envelope(StatusType, WaitingStatus), Envelope(StatusType, ErrorStatus)]
        case Success(p) =>
          view == [Envelope(StatusType, WaitingStatus)]
                  + (if encode(p).Some? then [Envelope(ResultType, encode(p).value)] else [])
  {
    var e := Step(server, encode, st, inputs).emitted;
    TagsDistinct();
    if |e| == 2 {
      assert e[1..][1..] == [];
    } else {
      assert e[1..] == [];
    }
  }

  /** A broadcast reaches every healthy client alike: two clients that were
      live and whose writes succeeded see the same notifications. */
  lemma BroadcastNotUnicast(server: Int64, encode: Encoder, st: State, inputs: StepInputs, c: Conn, d: Conn)
    requires c in Live(st.registry) && d in Live(st.registry)
    requires c !in inputs.announceFailures + inputs.reportFailures
    requires d !in inputs.announceFailures + inputs.reportFailures
    ensures ReceivedBy(c, Step(server, encode, st, inputs).emitted)
         == ReceivedBy(d, Step(server, encode, st, inputs).emitted)
  {
    StatusPrecedesOutcome(server, encode, st, inputs, c);
    StatusPrecedesOutcome(server, encode, st, inputs, d);
  }

  /** With session writes during the measurement, a client that hears the
      outcome without the waiting status first is one that was not reached
      by the status and whose session flagged it live while the tool ran. */
  lemma UnannouncedOnlyIfJoinedDuring(server: Int64, encode: Encoder, st: State, inputs: StepInputs,
                                      during: seq<FlagWrite>, c: Conn)
    ensures var view := ReceivedBy(c, StepWith(server, encode, st, inputs, during).emitted);
      && |view| <= 2
      && (view != [] && view[0] != Envelope(StatusType, WaitingStatus) ==>
            && c !in Live(st.registry) - inputs.announceFailures
            && true in WritesTo(c, during)
            && |view| == 1)
  {
    var e := StepWith(server, encode, st, inputs, during).emitted;
    if |e| == 2 {
      assert e[1..][1..] == [];
    } else {
      assert e[1..] == [];
    }
  }

  /** Who hears the outcome of a trigger with session writes during the
      measurement: a client whose report write succeeds and that is live
      when the report goes out. That is, its last write during the
      measurement was `true`, or it had none and the waiting status reached
      it. A client whose session marked it dead meanwhile hears nothing of
      the outcome. */
  lemma OutcomeRecipients(server: Int64, encode: Encoder, st: State, inputs: StepInputs,
                          during: seq<FlagWrite>, c: Conn)
    ensures var r := StepWith(server, encode, st, inputs, during);
      var flags := WritesTo(c, during);
      |r.emitted| == 2 ==>
        (c in r.emitted[1].recipients <==>
          && c !in inputs.reportFailures
          && (if flags == [] then c in r.emitted[0].recipients else flags[|flags| - 1]))
  {
    var afterAnnounce := Notify(st.registry, inputs.announceFailures, StatusType, WaitingStatus).0;
    ApplyWritesEntry(afterAnnounce, during, c);
  }

  /** A connection whose session registers while the tool runs, whatever
      other sessions write meanwhile, and whose report write succeeds, hears
      the outcome of that trigger and nothing else: no waiting status
      precedes it. */
  lemma JoinedDuringMeasurement(server: Int64, encode: Encoder, st: State, inputs: StepInputs,
                                during: seq<FlagWrite>, c: Conn)
    requires c !in st.registry
    requires WritesTo(c, during) == [true]
    requires c !in inputs.reportFailures
    ensures var view := ReceivedBy(c, StepWith(server, encode, st, inputs, during).emitted);
      match Classify(inputs.process)
      case Failure(_) => view == [Envelope(StatusType, ErrorStatus)]
      case Success(p) => view == (if encode(p).Some? then [Envelope(ResultType, encode(p).value)] else [])
  {
    var afterAnnounce := Notify(st.registry, inputs.announceFailures, StatusType, WaitingStatus).0;
    ApplyWritesEntry(afterAnnounce, during, c);
    var e := StepWith(server, encode, st, inputs, during).emitted;
    if |e| == 2 {
      assert e[1..][1..] == [];
    } else {
      assert e[1..] == [];
    }
  }

  /** A sequence of triggers processed one after another. */
  function Run(server: Int64, encode: Encoder, st: State, triggers: seq<StepInputs>): (r: StepResult)
    decreases |triggers|
  {
    if triggers == [] then StepResult(st, [])
    else
      var first := Step(server, encode, st, triggers[0]);
      var rest := Run(server, encode, first.state, triggers[1..]);
      StepResult(rest.state, first.emitted + rest.emitted)
  }

  /** The records of the measurements that succeeded, in completion order. */
  function Successes(triggers: seq<StepInputs>): (rs: seq<PerfJson>)
    ensures |rs| <= |triggers|
    decreases |triggers|
  {
    if triggers == [] then []
    else
      match Classify(triggers[0].process)
      case Success(p) => [p] + Successes(triggers[1..])
      case Failure(_) => Successes(triggers[1..])
  }

  /** History is append-only: after any run it is the starting history
      followed by exactly the successful measurements, in order. */
  lemma {:induction false} RunAppendsSuccesses(server: Int64, encode: Encoder, st: State, triggers: seq<StepInputs>)
    ensures Run(server, encode, st, triggers).state.history == st.history + Successes(triggers)
    decreases |triggers|
  {
    if triggers != [] {
      var first := Step(server, encode, st, triggers[0]);
      RunAppendsSuccesses(server, encode, first.state, triggers[1..]);
    }
  }

  /** N successful measurements from an empty history leave a history of
      length N, and a session opened then sends exactly those records in its
      init notification. */
  lemma NewcomerSeesAllSuccesses(server: Int64, encode: Encoder, reg: Registry, triggers: seq<StepInputs>,
                                 c: Conn, initWriteOk: bool, inbound: seq<ReadOutcome>)
    requires forall i | 0 <= i < |triggers| :: RunSucceeded(triggers[i].process)
    ensures var h := Run(server, encode, State([], reg), triggers).state.history;
      && |h| == |triggers|
      && h == Successes(triggers)
      && (InitPayload(encode, Successes(triggers)).Some? ==>
            HandleSession(encode, h, Some(c), initWriteOk, inbound).init
              == Some(Envelope(InitType, InitPayload(encode, Successes(triggers)).value)))
  {
    RunAppendsSuccesses(server, encode, State([], reg), triggers);
    AllSucceed(triggers);
  }

  lemma {:induction false} AllSucceed(triggers: seq<StepInputs>)
    requires forall i | 0 <= i < |triggers| :: RunSucceeded(triggers[i].process)
    ensures |Successes(triggers)| == |triggers|
    decreases |triggers|
  {
    if triggers != [] {
      AllSucceed(triggers[1..]);
    }
  }

  /** In a run of triggers with no session writes, a connection absent
      from the registry (never registered, or evicted after a failed write)
      receives nothing from any later trigger and stays absent. A later
      `false` from its own session would put the entry back, dead; that case
      is `Server.DeadStaysSilent`. */
  lemma {:induction false} EvictedStaysSilent(server: Int64, encode: Encoder, st: State, triggers: seq<StepInputs>, c: Conn)
    requires c !in st.registry
    ensures c !in Run(server, encode, st, triggers).state.registry
    ensures ReceivedBy(c, Run(server, encode, st, triggers).emitted) == []
    decreases |triggers|
  {
    if triggers != [] {
      var first := Step(server, encode, st, triggers[0]);
      var rest := Run(server, encode, first.state, triggers[1..]);
      EvictedStaysSilent(server, encode, first.state, triggers[1..], c);
      ReceivedByAppend(c, first.emitted, rest.emitted);
      assert c !in Live(st.registry);
      if |first.emitted| == 2 {
        assert first.emitted[1..][1..] == [];
      } else {
        assert first.emitted[1..] == [];
      }
    }
  }

  /** How many of the notifications carry the waiting status. */
  function CountWaiting(emitted: seq<Notification>): (n: nat)
    ensures n <= |emitted|
    decreases |emitted|
  {
    if emitted == [] then 0
    else (if emitted[0].message == Envelope(StatusType, WaitingStatus) then 1 else 0) + CountWaiting(emitted[1..])
  }

  lemma {:induction false} CountWaitingAppend(a: seq<Notification>, b: seq<Notification>)
    ensures CountWaiting(a + b) == CountWaiting(a) + CountWaiting(b)
    decreases |a|
  {
    if a != [] {
      assert (a + b)[0] == a[0];
      assert (a + b)[1..] == a[1..] + b;
      CountWaitingAppend(a[1..], b);
    } else {
      assert a + b == b;
    }
  }

  /** Every trigger is announced exactly once, whatever its outcome. */
  lemma {:induction false} OneAnnouncementPerTrigger(server: Int64, encode: Encoder, st: State, triggers: seq<StepInputs>)
    ensures CountWaiting(Run(server, encode, st, triggers).emitted) == |triggers|
    decreases |triggers|
  {
    if triggers != [] {
      var first := Step(server, encode, st, triggers[0]);
      var rest := Run(server, encode, first.state, triggers[1..]);
      OneAnnouncementPerTrigger(server, encode, first.state, triggers[1..]);
      CountWaitingAppend(first.emitted, rest.emitted);
      assert WaitingStatus != ErrorStatus;
      TagsDistinct();
      if |first.emitted| == 2 {
        assert first.emitted[1..][1..] == [];
      } else {
        assert first.emitted[1..] == [];
      }
    }
  }
}
