# netmon — a Dafny model of the broadcast and measurement core

netmon runs `speedtest-cli` on a timer or on demand. It keeps every
measurement in an in-memory, append-only history and pushes each new one to
all connected WebSocket clients. A client that connects first receives the
whole history as an `init` notification. After that, any message it sends is
a request for a new measurement.

This project models the sequential decision logic of that server. Every
outcome of the outside world is an input rather than an effect. That covers
process stages, JSON decoding and encoding, socket reads and writes, and the
order in which goroutines act.

| file | module | models |
|---|---|---|
| wrappers.dfy | `Wrappers` | `Option` and `Result`, in place of Go's `(value, error)` pairs |
| decimal.dfy | `Decimal` | `strconv.Itoa` and `strconv.Atoi` for a 64-bit `int` |
| messages.dfy | `Messages` | the three tags, the `{type, data}` envelope, the measurement record, the CSV column indices and `parseFields` |
| json.dfy | `Json` | `json.Marshal` of a slice of records, built on a per-record encoder that may fail |
| runner.dfy | `Runner` | `getSpeedTestInfo`: the command line, and how stage outcomes become a record or an error |
| registry.dfy | `Registry` | the connection map and `sendWebSocketData` |
| session.dfy | `Session` | `WsHandler`: the init payload, the liveness flags it writes, and the read-to-trigger loop |
| pipeline.dfy | `Pipeline` | one iteration of `speedtestHandler`, and runs of several triggers |
| server.dfy | `Server` | the shared handler context under any interleaving of session flag writes and triggers |

The main modelling choices:

- A Go `float64` is kept as an uninterpreted 64-bit pattern (`Float64`).
  `strconv.ParseFloat` is an oracle `string -> Option<Float64>`.
- Encoding one record is an oracle `PerfJson -> Option<string>`. Encoding a
  slice follows Go's rules: `null` for a nil slice, otherwise the element
  encodings joined by commas in brackets. It fails if any element fails.
- Connections are opaque handles, `Conn(id)`. The set of connections whose
  write fails is an input to each broadcast.
- A notification records the envelope and the connections it reached: those
  that were live and whose write succeeded.
- A session is described by the flag values it writes into its own entry.
  Other actors change the map while a session runs, so a final map would not
  describe it. `Server.Interleave` puts these writes and pipeline triggers in
  any order. A write can also land inside a trigger, while the tool runs
  between the waiting status and the report (`Pipeline.StepWith`).
- Running the tool has four stages that can fail: creating the stdout pipe,
  starting the process, decoding its output and waiting for its exit. The
  error of any of them is returned unchanged, except end of file from the
  decoder, which becomes the program's own `GetSpeedError`.

## Model

| member | source | states |
|---|---|---|
| Decimal.Itoa | netmon.go:43 | the server ID text is never empty; it is all digits for a non-negative number, and a minus sign followed by digits otherwise |
| Decimal.Atoi | messages/messages.go:53 | text is accepted exactly when it is an optional sign followed by at least one digit (no spaces, underscores or other characters) and its value fits the 64-bit range; the result is that signed value; every failure carries the "Atoi" error naming the whole input |
| Decimal.ItoaAtoiRoundTrip | netmon.go:42-43 | reading back the decimal text of any 64-bit server number gives that number |
| Decimal.AtoiCanonical | messages/messages.go:53 | the converse round trip: any accepted text is the decimal text of its value with a leading plus sign, redundant leading zeros and the sign of a negative zero removed |
| Messages.TagsDistinct | messages/messages.go:114-121 | the tags "status", "result" and "init" are non-empty and pairwise distinct |
| Messages.Index | messages/messages.go:10-19 | every CSV field's column is below the column count 8 |
| Messages.IndicesFollowDeclarationOrder | messages/messages.go:10-19 | the columns are 0..7 in the order serverNum, companyName, location, date, distance, ping, download, upload; no two fields share a column |
| Messages.ParseFields | messages/messages.go:49-74 | needs at least eight fields; an invalid server number fails at once with Atoi's error; on success the server number is Atoi's value, company, location and date are copied verbatim from columns 1-3, and each float field is the parser's value for its own column |
| Messages.ParseFieldsFailsAtFirstFailure | messages/messages.go:53-73 | parsing succeeds exactly when no column fails, in the read order server number, distance, ping, upload, download; otherwise the error is the one for the first failing column |
| Messages.ParseFieldsReadsOnlyConsulted | messages/messages.go:53-73 | columns after the first failure are never read: field lists that agree on the consulted columns give the same outcome |
| Json.Elements | netmon.go:116 | encoding a list of records fails exactly when some record fails to encode; a single record's list is that record's encoding |
| Json.MarshalSlice | netmon.go:112-116 | a nil slice encodes as "null"; a non-empty one fails exactly when some record fails, and otherwise is bracketed |
| Runner.ServerId | netmon.go:41-46 | the server ID text is non-empty exactly when the server is at or above 0, and then it is plain digits that read back to the server number |
| Runner.CommandSelectsServer | netmon.go:41-54 | the program is speedtest-cli; a server at or above 0 gives the arguments --json --server and its decimal number, which reads back to the server; every negative server (not only -1) gives just --json |
| Runner.Classify | netmon.go:55-70 | the run succeeds exactly when every stage succeeds, yielding the decoded record; an error from pipe, start, decode (other than end of file) or wait is returned unchanged, including a failed wait after a successful decode; end of file becomes the fixed no-output error |
| Runner.NoOutputIsItsOwnError | netmon.go:55-66 | the run fails with the program's own GetSpeedError exactly when pipe creation and start succeed and the decoder hits end of file; its text is then "No output provided from test." |
| Runner.LaterStagesIgnored | netmon.go:55-67 | stages after the first failing one do not affect the outcome |
| Runner.GetSpeedTestInfo | netmon.go:40-73 | the command always runs speedtest-cli with --json first and has three arguments exactly when the server is at or above 0; the result is a record exactly when every stage succeeded |
| Registry.Broadcast | netmon.go:156-173 | entries flagged false are removed; true entries whose write fails are removed; true entries whose write succeeds stay true; no key is added; writes go to exactly the true entries; delivery reaches those whose write succeeds |
| Registry.BroadcastLeavesOnlyLive | netmon.go:158-171 | after a broadcast every remaining entry is live, and the remaining entries are exactly those the message reached |
| Registry.BroadcastIdempotent | netmon.go:158-171 | a second broadcast with no failing writes leaves the registry as the first left it |
| Registry.SendWebSocketData | netmon.go:156-173 | the entry-by-entry loop that deletes dead or failed entries yields the same registry as Broadcast, and writes the given {type, data} envelope to exactly the entries that were live |
| Registry.ApplyWritesEntry | netmon.go:106-143 | after a session's flag writes, an entry no session wrote is exactly as before (present or absent), and a written entry is present and holds the last value written to it |
| Registry.Register | netmon.go:106 | registering adds the connection as live and leaves every other entry unchanged |
| Registry.MarkDead | netmon.go:141-143 | marking dead keeps the entry present but not live, and leaves every other entry unchanged |
| Session.InitPayload | netmon.go:111-124 | the init payload is "[]" for an empty history; otherwise it fails exactly when some record fails to encode; it is always a bracketed array |
| Session.InitPayloadNeverNull | netmon.go:112-124 | a client is never sent "null" as its initial payload |
| Session.InitPayloadAppend | netmon.go:111-126 | after one more record, a newcomer's payload is the previous payload with that record's encoding appended as the last element; that encoding is also the data of the result notification |
| Session.ReadLoop | netmon.go:137-149 | one trigger per successfully read message; the first read error ends the loop, with no triggers after it |
| Session.ReadLoopIgnoresContent | netmon.go:138-148 | message contents never influence the triggers, only whether each read succeeded |
| Session.ReadLoopCountsMessages | netmon.go:137-149 | with no read error, n messages give exactly n triggers |
| Session.HandleSession | netmon.go:92-150 | a failed upgrade does nothing. Otherwise the first write is true and later writes are false, at most one of them. The init message is sent with type "init" and the init payload. Triggers come only after a successful init write, and equal the read loop's count. The entry is set false exactly when the init write or a read failed |
| Session.ApplyFlags | netmon.go:106 | replaying a session's writes adds only its own entry, ending with its last written flag, and leaves every other entry as it was |
| Session.SessionNeverDeletes | netmon.go:127-144 | a session removes no entry and touches no entry but its own; its entry ends dead exactly when the init write or a read failed |
| Pipeline.Notify | netmon.go:156-173 | one broadcast reaches exactly the live entries whose write succeeds, carrying the given envelope; those are the entries left, all live |
| Pipeline.StepWith | netmon.go:183-206 | with session writes landing while the tool runs: the waiting status goes to every healthy live client; the history changes as for a step; the outcome reaches only clients that got the status or were flagged live during the measurement, and every client that got the status, was not written and whose report write succeeds; a client live afterwards was live before or was flagged live during the measurement. Exactly which clients hear the outcome, and that one marked dead by its session during the measurement does not, is stated by Pipeline.OutcomeRecipients |
| Pipeline.Step | netmon.go:183-206 | for a trigger with no session write during the measurement: the first notification is the status "Request made. Waiting for response." to every healthy live client. A failed measurement leaves history unchanged and is followed by the status "Error executing SpeedTest.". A success appends exactly that record to history before encoding, and a result follows only when encoding succeeds. The registry only loses entries and ends with only live ones |
| Pipeline.StatusPrecedesOutcome | netmon.go:185-205 | for a trigger with no session write during the measurement, each client sees the waiting status first, and a result only right after it. A client live when the trigger is taken whose writes succeed sees exactly waiting then error status on failure. On success it sees waiting then the result, and the result only when encoding succeeded |
| Pipeline.OutcomeRecipients | netmon.go:187-205 | with session writes during the measurement, a client hears the outcome exactly when its report write succeeds and either its last write then was "live" or it had no write then and the waiting status reached it; a client marked dead by its session while the tool runs hears no outcome |
| Pipeline.UnannouncedOnlyIfJoinedDuring | netmon.go:185-205 | with session writes during the measurement, a client that hears the outcome without the waiting status first was not reached by the status, was flagged live while the tool ran, and hears only that one notification |
| Pipeline.JoinedDuringMeasurement | netmon.go:187-205 | a connection registered while the tool runs (its only write then is the registration, whatever other sessions write), whose report write succeeds, hears only the outcome of that trigger: the error status on failure, or the result when encoding succeeds, with no waiting status before it |
| Pipeline.BroadcastNotUnicast | netmon.go:187-205 | two healthy live clients receive the same notifications for a trigger |
| Pipeline.RunAppendsSuccesses | netmon.go:183-206 | after any run the history is the starting history followed by exactly the successful records, in completion order |
| Pipeline.NewcomerSeesAllSuccesses | netmon.go:114-126 | N successful measurements from an empty history leave N records, and a session opened then writes an init notification holding exactly those records |
| Pipeline.EvictedStaysSilent | netmon.go:158-170 | in a run of triggers with no session writes, a connection absent from the registry receives nothing from any later trigger and stays absent |
| Pipeline.OneAnnouncementPerTrigger | netmon.go:185-187 | every trigger produces exactly one waiting-status notification, whatever its outcome |
| Server.DeadStaysSilent | netmon.go:127-173 | a connection that is not live, and whose session never flags it live again (between triggers or during a measurement), receives no notification for the rest of any interleaving and stays not live |
| Server.OnlyFanoutDeletes | netmon.go:152-155 | without a trigger no entry is removed, history is unchanged and nothing is sent |
| Server.SessionFlagsOnlyAdd | netmon.go:127-133 | replaying a whole session's writes against the shared state adds its own entry and removes none |

## Left out

- Running `speedtest-cli` is not modelled. Creating the pipe, starting,
  reading stdout and waiting (netmon.go:47-72) are external process I/O; only
  the outcome of each stage is an input.
- `encoding/json` on records is not modelled. Decoding the tool's output and
  encoding a record (including the `{type, data}` envelope written by
  `WriteJSON`) depend on float formatting, so they are oracles. The model
  keeps only slice marshalling, built from the record oracle.
- Goroutines, the `reqChan` channel and the mutex are not modelled
  (netmon.go:80, 88, 148, 233-236). Triggers are handled one at a time, and
  `Server.Interleave` takes the interleaving as an input. The channel is
  unbuffered in the code, and the mutex is never locked.
- A session write that lands inside one broadcast's own pass over the map is
  not modelled. In Go that is an unsynchronised map write during iteration,
  which the runtime may abort. Writes land between broadcasts only.
- A session's read of the history for its init payload is taken at one
  point; the model does not relate that point to a trigger running at the
  same time. A session registered before a trigger's announcement that reads
  the history after the append gets the new record twice: in its init
  payload and as the result.
- `speedtestTimer` (netmon.go:211-216) is not modelled: it sleeps on the wall
  clock. Each of its ticks is one trigger in a run.
- `main`, flag parsing, the HTTP and file servers, the WebSocket upgrade and
  `CheckOrigin`, and `conn.Close` calls are not modelled. The upgrade result
  is an input (`Option<Conn>`).
- The `Print` methods and float formatting (messages/messages.go:35-45,
  102-112) are not modelled. Float values in `parseFields` come from the parse
  oracle.
- Logging is not modelled; it never changes state.
- netmon-client/netmon-client.go is not part of this model. It is a
  WebSocket dial plus a stdin and signal loop.
- Messages.ParseFields: on failure Go also returns the partly filled record.
  The model returns only the error. `parseFields` has no callers
  (messages/messages.go:47-48), and nothing is promised about that record.
- Decimal.Atoi: the error keeps the function name and input text but not the
  syntax-versus-range kind inside Go's `NumError`.
- Session.HandleSession: the infinite read loop is modelled on a finite list
  of reads. A session whose reads all succeed is still open at the end.
