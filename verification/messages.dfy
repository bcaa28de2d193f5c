/** The message vocabulary shared by server and clients (messages/messages.go):
    the three notification tags, the `{type, data}` envelope, the measurement
    record decoded from the tool's JSON output, and the CSV-record parser. */
module Messages {
  import opened Wrappers
  import opened Decimal

  /** A Go `float64`, kept as its uninterpreted bit pattern: the model never
      computes with measured values, it only carries them. */
  datatype Float64 = Float64(bits: bv64)

  const StatusType: string := "status"
  const ResultType: string := "result"
  const InitType: string := "init"

  /** The envelope every server-to-client message travels in: a tag and an
      already-serialised payload (Go's `messages.Result`). */
  datatype Envelope = Envelope(kind: string, data: string)

  /** The tags are pairwise distinct, so a client can tell the three kinds of
      notification apart by tag alone. */
  lemma TagsDistinct()
    ensures StatusType != ResultType && ResultType != InitType && StatusType != InitType
    ensures |StatusType| > 0 && |ResultType| > 0 && |InitType| > 0
  {
  }

  /** The server block of the measurement tool's JSON output. */
  datatype ServerInfo = ServerInfo(
    id: string,
    sponsor: string,
    location: string,
    country: string,
    cc: string,
    url: string,
    host: string,
    lon: string,
    lat: string,
    distance: Float64,
    latency: Float64,
    share: string)

  /** One completed measurement as decoded from the tool (Go's `PerfJSON`). */
  datatype PerfJson = PerfJson(
    server: ServerInfo,
    bytesSent: Float64,
    bytesReceived: Float64,
    upload: Float64,
    download: Float64,
    timestamp: string,
    ping: Float64)

  // ---------------------------------------------------------------------------
  // CSV records

  /** The columns of the tool's CSV output, in the order of their indices. */
  datatype CsvField = ServerNum | CompanyName | Location | Date | Distance | Ping | Download | Upload

  const FieldCount: nat := 8

  const FieldOrder: seq<CsvField> :=
    [ServerNum, CompanyName, Location, Date, Distance, Ping, Download, Upload]

  /** The column a field is read from. */
  function Index(f: CsvField): (i: nat)
    ensures i < FieldCount
  {
    match f
    case ServerNum => 0
    case CompanyName => 1
    case Location => 2
    case Date => 3
    case Distance => 4
    case Ping => 5
    case Download => 6
    case Upload => 7
  }

  /** The indices are 0..7 in declaration order: `Index` and `FieldOrder` are
      inverse to each other, so no two fields share a column. */
  lemma IndicesFollowDeclarationOrder()
    ensures |FieldOrder| == FieldCount
    ensures forall i | 0 <= i < FieldCount :: Index(FieldOrder[i]) == i
    ensures forall f: CsvField :: FieldOrder[Index(f)] == f
    ensures forall f: CsvField, g: CsvField :: Index(f) == Index(g) ==> f == g
  {
  }

  /** A record parsed from the CSV output (Go's `Perf`). */
  datatype Perf = Perf(
    serverNum: int,
    companyName: string,
    location: string,
    date: string,
    distance: Float64,
    ping: Float64,
    download: Float64,
    upload: Float64)

  /** `strconv.ParseFloat(s, 64)` as an oracle: the parsed value, or `None`
      when it fails. */
  type FloatParser = string -> Option<Float64>

  /** The error `strconv.ParseFloat` returns for a text it rejects. */
  function FloatError(text: string): NumError {
    NumError("ParseFloat", text)
  }

  /** Parses one numeric column, failing with ParseFloat's error. */
  function ParseNumber(parseFloat: FloatParser, fields: seq<string>, f: CsvField): (r: Result<Float64, NumError>)
    requires |fields| >= FieldCount
    ensures r.Success? <==> parseFloat(fields[Index(f)]).Some?
    ensures r.Success? ==> r.value == parseFloat(fields[Index(f)]).value
    ensures r.Failure? ==> r.error == FloatError(fields[Index(f)])
  {
    match parseFloat(fields[Index(f)])
    case Some(x) => Success(x)
    case None => Failure(FloatError(fields[Index(f)]))
  }

  /** The order in which `parseFields` reads the columns. Upload (column 7) is
      read before download (column 6). */
  const ReadOrder: seq<CsvField> :=
    [ServerNum, CompanyName, Location, Date, Distance, Ping, Upload, Download]

  /** Go's `parseFields`: the server number through `Atoi`, the three text
      columns copied, then the numeric columns in `ReadOrder`, stopping at the
      first failure. Go indexes up to column 7 without a bounds check, so
      callers must supply at least eight fields. */
  function ParseFields(fields: seq<string>, parseFloat: FloatParser): (r: Result<Perf, NumError>)
    requires |fields| >= FieldCount
    ensures Atoi(fields[0]).Failure? ==> r == Failure(NumError("Atoi", fields[0]))
    ensures r.Success? ==>
      && Atoi(fields[0]) == Success(r.value.serverNum)
      && r.value.companyName == fields[1]
      && r.value.location == fields[2]
      && r.value.date == fields[3]
      && Some(r.value.distance) == parseFloat(fields[4])
      && Some(r.value.ping) == parseFloat(fields[5])
      && Some(r.value.download) == parseFloat(fields[6])
      && Some(r.value.upload) == parseFloat(fields[7])
  {
    match Atoi(fields[Index(ServerNum)])
    case Failure(e) => Failure(e)
    case Success(serverNum) =>
      var companyName := fields[Index(CompanyName)];
      var location := fields[Index(Location)];
      var date := fields[Index(Date)];
      match ParseNumber(parseFloat, fields, Distance)
      case Failure(e) => Failure(e)
      case Success(distance) =>
        match ParseNumber(parseFloat, fields, Ping)
        case Failure(e) => Failure(e)
        case Success(ping) =>
          match ParseNumber(parseFloat, fields, Upload)
          case Failure(e) => Failure(e)
          case Success(upload) =>
            match ParseNumber(parseFloat, fields, Download)
            case Failure(e) => Failure(e)
            case Success(download) =>
              Success(Perf(serverNum, companyName, location, date, distance, ping, download, upload))
  }

  /** Whether a column parses on its own terms: the server number through
      `Atoi`, the numeric columns through the float oracle, text always. */
  predicate FieldParses(fields: seq<string>, parseFloat: FloatParser, f: CsvField)
    requires |fields| >= FieldCount
  {
    match f
    case ServerNum => Atoi(fields[0]).Success?
    case CompanyName => true
    case Location => true
    case Date => true
    case _ => parseFloat(fields[Index(f)]).Some?
  }

  /** Position in `ReadOrder` of the first column that fails to parse, or
      `|ReadOrder|` when none does. */
  function FirstFailure(fields: seq<string>, parseFloat: FloatParser, from: nat): (k: nat)
    requires |fields| >= FieldCount
    requires from <= |ReadOrder|
    ensures from <= k <= |ReadOrder|
    ensures forall j | from <= j < k :: FieldParses(fields, parseFloat, ReadOrder[j])
    ensures k < |ReadOrder| ==> !FieldParses(fields, parseFloat, ReadOrder[k])
    decreases |ReadOrder| - from
  {
    if from == |ReadOrder| then from
    else if !FieldParses(fields, parseFloat, ReadOrder[from]) then from
    else FirstFailure(fields, parseFloat, from + 1)
  }

  /** The columns `parseFields` actually consults: every column in read order
      up to and including the first one that fails. */
  function Consulted(fields: seq<string>, parseFloat: FloatParser): (cs: seq<CsvField>)
    requires |fields| >= FieldCount
    ensures |cs| > 0 && cs[0] == ServerNum
    ensures cs <= ReadOrder
  {
    var k := FirstFailure(fields, parseFloat, 0);
    if k < |ReadOrder| then ReadOrder[..k + 1] else ReadOrder
  }

  /** The outcome is decided by the first failing column in read order: it
      succeeds exactly when no column fails, and otherwise returns that
      column's own error. */
  lemma ParseFieldsFailsAtFirstFailure(fields: seq<string>, parseFloat: FloatParser)
    requires |fields| >= FieldCount
    ensures var k := FirstFailure(fields, parseFloat, 0);
      && (ParseFields(fields, parseFloat).Success? <==> k == |ReadOrder|)
      && (k < |ReadOrder| ==>
            ParseFields(fields, parseFloat) == Failure(
              if k == 0 then NumError("Atoi", fields[0])
              else FloatError(fields[Index(ReadOrder[k])])))
  {
    var k := FirstFailure(fields, parseFloat, 0);
    assert FieldParses(fields, parseFloat, ReadOrder[1]);
    assert FieldParses(fields, parseFloat, ReadOrder[2]) by {
      assert ReadOrder[2] == Location;
    }
    assert FieldParses(fields, parseFloat, ReadOrder[3]) by {
      assert ReadOrder[3] == Date;
    }
    if k > 4 {
      assert FieldParses(fields, parseFloat, ReadOrder[4]);
    }
    if k > 5 {
      assert FieldParses(fields, parseFloat, ReadOrder[5]);
    }
    if k > 6 {
      assert FieldParses(fields, parseFloat, ReadOrder[6]);
    }
    if k > 7 {
      assert FieldParses(fields, parseFloat, ReadOrder[7]);
    }
  }

  /** Columns after the first failure are never read: two field lists that
      agree on the consulted columns parse to the same outcome, whatever the
      remaining columns hold. */
  lemma ParseFieldsReadsOnlyConsulted(fields: seq<string>, other: seq<string>, parseFloat: FloatParser)
    requires |fields| >= FieldCount && |other| >= FieldCount
    requires forall f | f in Consulted(fields, parseFloat) :: fields[Index(f)] == other[Index(f)]
    ensures FirstFailure(other, parseFloat, 0) == FirstFailure(fields, parseFloat, 0)
    ensures Consulted(other, parseFloat) == Consulted(fields, parseFloat)
    ensures ParseFields(other, parseFloat) == ParseFields(fields, parseFloat)
  {
    var cs := Consulted(fields, parseFloat);
    var k := FirstFailure(fields, parseFloat, 0);
    forall j | 0 <= j <= k && j < |ReadOrder|
      ensures fields[Index(ReadOrder[j])] == other[Index(ReadOrder[j])]
    {
      assert ReadOrder[j] in cs;
    }
    FirstFailureAgrees(fields, other, parseFloat, 0, k);
    ParseFieldsFailsAtFirstFailure(fields, parseFloat);
    ParseFieldsFailsAtFirstFailure(other, parseFloat);
    if k == |ReadOrder| {
      assert forall i | 0 <= i < FieldCount :: fields[i] == other[i] by {
        forall i | 0 <= i < FieldCount
          ensures fields[i] == other[i]
        {
          IndicesFollowDeclarationOrder();
          assert FieldOrder[i] in ReadOrder;
          assert FieldOrder[i] in cs;
        }
      }
    }
  }

  lemma {:induction false} FirstFailureAgrees(fields: seq<string>, other: seq<string>, parseFloat: FloatParser, from: nat, k: nat)
    requires |fields| >= FieldCount && |other| >= FieldCount
    requires from <= |ReadOrder|
    requires k == FirstFailure(fields, parseFloat, from)
    requires forall j | 0 <= j <= k && j < |ReadOrder| :: fields[Index(ReadOrder[j])] == other[Index(ReadOrder[j])]
    ensures FirstFailure(other, parseFloat, from) == FirstFailure(fields, parseFloat, from)
    decreases |ReadOrder| - from
  {
    if from < |ReadOrder| {
      assert fields[Index(ReadOrder[from])] == other[Index(ReadOrder[from])];
      if from < k {
        FirstFailureAgrees(fields, other, parseFloat, from + 1, k);
      }
    }
  }
}
