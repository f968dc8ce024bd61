/** Decoded wire messages in both directions, with the payloads the codec retains (src/codec.rs). */
module Messages {

  datatype Option<+T> = None | Some(value: T)

  type Byte = x: int | 0 <= x < 256
  type Bytes = seq<Byte>
  type U16 = x: int | 0 <= x < 0x1_0000
  type I16 = x: int | -0x8000 <= x < 0x8000
  type U32 = x: int | 0 <= x < 0x1_0000_0000
  type I32 = x: int | -0x8000_0000 <= x < 0x8000_0000

  const U64_MAX: nat := 0xFFFF_FFFF_FFFF_FFFF

  /** `u64::saturating_add(1)`. */
  function SaturatingSucc(n: nat): (r: nat) {
    if n < U64_MAX then n + 1 else n
  }

  datatype Target = Statement | Portal

  datatype FrontendMessage =
    | Parse(parseStatement: Bytes, query: Bytes, parameterTypes: seq<U32>)
    | Bind(bindPortal: Bytes, bindStatement: Bytes, parameterFormats: seq<I16>,
           parameters: seq<Option<Bytes>>, resultFormats: seq<I16>)
    | Describe(describeTarget: Target, describeName: Bytes)
    | Close(closeTarget: Target, closeName: Bytes)
    | Execute(executePortal: Bytes, maxRows: I32)
    | FunctionCall(functionOid: U32, argumentFormats: seq<I16>, arguments: seq<Option<Bytes>>, resultFormat: I16)
    | Query(sql: Bytes)
    | Flush
    | Sync
    | Terminate
    | CopyData(copyData: Bytes)
    | CopyDone
    | CopyFail(reason: Bytes)
    | PasswordResponse(password: Bytes)

  datatype Field = Field(name: Bytes, tableOid: U32, column: I16, typeOid: U32,
                         typeSize: I16, typeModifier: I32, format: I16)

  type Salt = b: Bytes | |b| == 4 witness [0, 0, 0, 0]

  datatype Authentication =
    | AuthOk
    | KerberosV5
    | CleartextPassword
    | Md5Password(salt: Salt)
    | Gss
    | GssContinue(gssData: Bytes)
    | Sspi
    | Sasl(mechanisms: seq<Bytes>)
    | SaslContinue(saslData: Bytes)
    | SaslFinal(saslFinal: Bytes)

  datatype TransactionStatus = Idle | InTransaction | FailedTransaction

  datatype Diagnostic = Diagnostic(code: Byte, text: Bytes)

  datatype BackendMessage =
    | RowDescription(fields: seq<Field>)
    | AuthenticationRequest(authentication: Authentication)
    | ParseComplete
    | BindComplete
    | CloseComplete
    | CommandComplete(tag: Bytes)
    | CopyData(data: Bytes)
    | CopyDone
    | CopyInResponse(inFormat: Byte, inColumns: seq<I16>)
    | CopyOutResponse(outFormat: Byte, outColumns: seq<I16>)
    | CopyBothResponse(bothFormat: Byte, bothColumns: seq<I16>)
    | DataRow(columns: seq<Option<Bytes>>)
    | EmptyQueryResponse
    | ErrorResponse(error: seq<Diagnostic>)
    | NoData
    | ParameterStatus(parameter: Bytes, setting: Bytes)
    | NoticeResponse(notice: seq<Diagnostic>)
    | NotificationResponse(notifier: U32, channel: Bytes, payload: Bytes)
    | BackendKeyData(processId: U32, secretKey: Bytes)
    | ReadyForQuery(status: TransactionStatus)
    | ParameterDescription(types: seq<U32>)
    | PortalSuspended
    | FunctionCallResponse(result: Bytes)
    | NegotiateProtocolVersion(major: U16, minor: U16, unsupported: seq<Bytes>)

  /** The type byte of a backend message on the wire; no two kinds share one. */
  function BackendTag(m: BackendMessage): Byte {
    match m
    case RowDescription(_) => 84
    case AuthenticationRequest(_) => 82
    case ParseComplete => 49
    case BindComplete => 50
    case CloseComplete => 51
    case CommandComplete(_) => 67
    case CopyData(_) => 100
    case CopyDone => 99
    case CopyInResponse(_, _) => 71
    case CopyOutResponse(_, _) => 72
    case CopyBothResponse(_, _) => 87
    case DataRow(_) => 68
    case EmptyQueryResponse => 73
    case ErrorResponse(_) => 69
    case NoData => 110
    case ParameterStatus(_, _) => 83
    case NoticeResponse(_) => 78
    case NotificationResponse(_, _, _) => 65
    case BackendKeyData(_, _) => 75
    case ReadyForQuery(_) => 90
    case ParameterDescription(_) => 116
    case PortalSuspended => 115
    case FunctionCallResponse(_) => 86
    case NegotiateProtocolVersion(_, _, _) => 118
  }

  /** Backend messages that are causally independent of session progress (src/demux.rs:146-154). */
  predicate IsAsynchronous(m: BackendMessage) {
    m.NoticeResponse? || m.ParameterStatus? || m.NotificationResponse? || m.BackendKeyData?
  }

  /* ---------- which messages can be put on the wire ---------- */

  predicate NoNul(b: Bytes) {
    forall i :: 0 <= i < |b| ==> b[i] != 0
  }

  predicate FitsCount(n: nat) {
    n < 0x1_0000
  }

  predicate ValuesFit(vs: seq<Option<Bytes>>) {
    forall i :: 0 <= i < |vs| ==> vs[i].Some? ==> |vs[i].value| < 0x8000_0000
  }

  /** A client message that `to_frame` accepts (`is_reconstructable`, src/codec.rs:228-443). */
  predicate FrontendEncodable(m: FrontendMessage) {
    match m
    case Parse(statement, query, types) => NoNul(statement) && NoNul(query) && FitsCount(|types|)
    case Bind(portal, statement, formats, values, results) =>
      NoNul(portal) && NoNul(statement) && FitsCount(|formats|) && FitsCount(|values|) && ValuesFit(values)
        && FitsCount(|results|)
    case Describe(_, name) => NoNul(name)
    case Close(_, name) => NoNul(name)
    case Execute(portal, _) => NoNul(portal)
    case FunctionCall(_, formats, values, _) => FitsCount(|formats|) && FitsCount(|values|) && ValuesFit(values)
    case Query(sql) => NoNul(sql)
    case CopyFail(reason) => NoNul(reason)
    case _ => true
  }

  predicate DiagnosticsFit(ds: seq<Diagnostic>) {
    forall i :: 0 <= i < |ds| ==> ds[i].code != 0 && NoNul(ds[i].text)
  }

  predicate StringsFit(ss: seq<Bytes>) {
    forall i :: 0 <= i < |ss| ==> NoNul(ss[i])
  }

  /** A backend message that `to_frame` accepts (src/codec.rs:501-890). */
  predicate BackendEncodable(m: BackendMessage) {
    match m
    case RowDescription(fields) => FitsCount(|fields|) && forall i :: 0 <= i < |fields| ==> NoNul(fields[i].name)
    case AuthenticationRequest(a) => a.Sasl? ==> StringsFit(a.mechanisms)
    case CommandComplete(tag) => NoNul(tag)
    case CopyInResponse(_, columns) => FitsCount(|columns|)
    case CopyOutResponse(_, columns) => FitsCount(|columns|)
    case CopyBothResponse(_, columns) => FitsCount(|columns|)
    case DataRow(columns) => FitsCount(|columns|) && ValuesFit(columns)
    case ErrorResponse(ds) => DiagnosticsFit(ds)
    case NoticeResponse(ds) => DiagnosticsFit(ds)
    case ParameterStatus(name, setting) => NoNul(name) && NoNul(setting)
    case NotificationResponse(_, channel, payload) => NoNul(channel) && NoNul(payload)
    case BackendKeyData(_, key) => 4 <= |key| <= 256
    case ParameterDescription(types) => FitsCount(|types|)
    case NegotiateProtocolVersion(_, _, options) => |options| < 0x1_0000_0000 && StringsFit(options)
    case _ => true
  }
}
