/** The measurement runner (`getSpeedTestInfo` in netmon.go): which command
    line is run for a configured server ID, and how the outcomes of the
    process stages become a record or an error. The process itself is not
    modelled; what each stage returned is an input. */
module Runner {
  import opened Wrappers
  import opened Decimal
  import opened Messages

  /** Errors from the process and decoding libraries. `Eof` is `io.EOF`
      from the decoder; `SystemError` stands for any other error value they
      return. None of them is the program's own error type. */
  datatype StageError =
    | Eof
    | SystemError(text: string)

  /** Errors that reach the pipeline: a stage's error, returned as it is, or
      the program's own `GetSpeedError`. */
  datatype Error =
    | StageFailure(cause: StageError)
    | GetSpeedError(errorString: string)

  const NoOutputText: string := "No output provided from test."

  /** The text of an error (Go's `Error()` method). For `GetSpeedError` it is
      exactly the stored string. */
  function ErrorText(e: Error): (t: string)
    ensures e.GetSpeedError? ==> t == e.errorString
    ensures e.StageFailure? && e.cause.SystemError? ==> t == e.cause.text
    ensures e == StageFailure(Eof) ==> t == "EOF"
  {
    match e
    case StageFailure(Eof) => "EOF"
    case StageFailure(SystemError(text)) => text
    case GetSpeedError(s) => s
  }

  /** A command line: the program and its arguments. */
  datatype Command = Command(program: string, args: seq<string>)

  /** The server ID text: the decimal server number when it is above -1, the
      empty string otherwise. A non-empty ID is plain digits that read back
      to the server number. */
  function ServerId(server: Int64): (id: string)
    ensures id != "" <==> server >= 0
    ensures id != "" ==> AllDigits(id) && Atoi(id) == Success(server as int)
  {
    if server > -1 then
      ItoaAtoiRoundTrip(server);
      Itoa(server)
    else ""
  }

  /** The tool's arguments: JSON output, plus a server selection when the
      server ID text is non-empty. */
  function Arguments(serverId: string): seq<string> {
    if serverId != "" then ["--json", "--server", serverId] else ["--json"]
  }

  function SpeedTestCommand(server: Int64): Command {
    Command("speedtest-cli", Arguments(ServerId(server)))
  }

  /** A non-negative server selects that server, and the argument carries its
      number in a form that reads back to it; every negative server (not only
      -1) leaves the choice to the tool. */
  lemma CommandSelectsServer(server: Int64)
    ensures SpeedTestCommand(server).program == "speedtest-cli"
    ensures server >= 0 ==>
      && SpeedTestCommand(server).args == ["--json", "--server", Itoa(server)]
      && Atoi(SpeedTestCommand(server).args[2]) == Success(server as int)
    ensures server < 0 ==> SpeedTestCommand(server).args == ["--json"]
  {
  }

  /** What decoding the tool's standard output produced. */
  datatype DecodeOutcome = Decoded(perf: PerfJson) | DecodeError(err: StageError)

  /** The outcome of each stage of running the tool: creating the output
      pipe, starting the process, decoding one JSON document, and waiting for
      the exit. `None` means the stage succeeded. */
  datatype ProcessOutcome = ProcessOutcome(
    pipe: Option<StageError>,
    start: Option<StageError>,
    decode: DecodeOutcome,
    wait: Option<StageError>)

  /** Whether every stage of the run succeeded. */
  predicate RunSucceeded(o: ProcessOutcome) {
    o.pipe.None? && o.start.None? && o.decode.Decoded? && o.wait.None?
  }

  /** The stage errors that are passed through as they are. */
  predicate PassedThrough(o: ProcessOutcome, e: StageError) {
    || o.pipe == Some(e)
    || (o.pipe.None? && o.start == Some(e))
    || (o.pipe.None? && o.start.None? && o.decode == DecodeError(e) && e != Eof)
    || (o.pipe.None? && o.start.None? && o.decode.Decoded? && o.wait == Some(e))
  }

  /** Go's `getSpeedTestInfo` after the command is chosen: the first failing
      stage decides the error; an end-of-file from the decoder (the tool wrote
      nothing) becomes the program's own "no output" error; a failed wait after
      a successful decode is still an error. */
  function Classify(o: ProcessOutcome): (r: Result<PerfJson, Error>)
    ensures r.Success? <==> RunSucceeded(o)
    ensures r.Success? ==> o.decode == Decoded(r.value)
    ensures r.Failure? ==>
      || (r.error.StageFailure? && PassedThrough(o, r.error.cause))
      || (o.pipe.None? && o.start.None? && o.decode == DecodeError(Eof)
          && r.error == GetSpeedError(NoOutputText))
  {
    if o.pipe.Some? then Failure(StageFailure(o.pipe.value))
    else if o.start.Some? then Failure(StageFailure(o.start.value))
    else
      match o.decode
      case DecodeError(err) =>
        if err == Eof then Failure(GetSpeedError(NoOutputText)) else Failure(StageFailure(err))
      case Decoded(perf) =>
        if o.wait.Some? then Failure(StageFailure(o.wait.value)) else Success(perf)
  }

  /** The program's own error arises exactly when the decoder hits end of
      file after the pipe and the start succeeded (the tool wrote nothing),
      and its text is then the fixed message. Every other failure is a
      stage's error returned as it is. */
  lemma NoOutputIsItsOwnError(o: ProcessOutcome)
    ensures (Classify(o).Failure? && Classify(o).error.GetSpeedError?)
        <==> (o.pipe.None? && o.start.None? && o.decode == DecodeError(Eof))
    ensures Classify(o).Failure? && Classify(o).error.GetSpeedError? ==>
      ErrorText(Classify(o).error) == "No output provided from test."
  {
  }

  /** Stages after the first failing one are never consulted: replacing
      them leaves the outcome unchanged. */
  lemma LaterStagesIgnored(o: ProcessOutcome, start: Option<StageError>, decode: DecodeOutcome, wait: Option<StageError>)
    ensures o.pipe.Some? ==>
      Classify(o.(start := start, decode := decode, wait := wait)) == Classify(o) == Failure(StageFailure(o.pipe.value))
    ensures o.pipe.None? && o.start.Some? ==>
      Classify(o.(decode := decode, wait := wait)) == Classify(o)
    ensures o.pipe.None? && o.start.None? && o.decode.DecodeError? ==>
      Classify(o.(wait := wait)) == Classify(o)
  {
  }

  /** One full invocation: the command run and what it produced. */
  datatype Invocation = Invocation(command: Command, result: Result<PerfJson, Error>)

  /** Go's `getSpeedTestInfo(server)` with the process outcomes as input. */
  function GetSpeedTestInfo(server: Int64, o: ProcessOutcome): (inv: Invocation)
    ensures inv.command.program == "speedtest-cli"
    ensures |inv.command.args| > 0 && inv.command.args[0] == "--json"
    ensures |inv.command.args| == 3 <==> server >= 0
    ensures inv.result.Success? <==> RunSucceeded(o)
  {
    Invocation(SpeedTestCommand(server), Classify(o))
  }
}
