/** Backend messages to and from tagged frames (src/codec.rs:501-925, 805-1125): decoding and encoding
    are inverse to each other, except that an offered SASL mechanism without a name is lost. */
module BackendCodec {
  import opened Messages
  import opened Wire

  /* ---------- parts ---------- */

  function PutField(f: Field): Bytes {
    PutCstr(f.name) + (PutU32(f.tableOid) + (PutI16(f.column) + (PutU32(f.typeOid)
      + (PutI16(f.typeSize) + (PutI32(f.typeModifier) + PutI16(f.format))))))
  }

  function TakeField(b: Bytes): Taken<Field> {
    match TakeCstr(b) case Malformed => Malformed case Took(name, b1) =>
    match TakeU32(b1) case Malformed => Malformed case Took(table, b2) =>
    match TakeI16(b2) case Malformed => Malformed case Took(column, b3) =>
    match TakeU32(b3) case Malformed => Malformed case Took(oid, b4) =>
    match TakeI16(b4) case Malformed => Malformed case Took(size, b5) =>
    match TakeI32(b5) case Malformed => Malformed case Took(modifier, b6) =>
    match TakeI16(b6) case Malformed => Malformed case Took(format, b7) =>
    Took(Field(name, table, column, oid, size, modifier, format), b7)
  }

  /** Diagnostic fields up to a zero code. */
  function PutDiagnostics(ds: seq<Diagnostic>): Bytes {
    if ds == [] then [0] else [ds[0].code] + (PutCstr(ds[0].text) + PutDiagnostics(ds[1..]))
  }

  function TakeDiagnostics(b: Bytes): Taken<seq<Diagnostic>>
    decreases |b|
  {
    if b == [] then Malformed
    else if b[0] == 0 then Took([], b[1..])
    else match TakeCstr(b[1..]) case Malformed => Malformed case Took(text, rest) =>
      match TakeDiagnostics(rest) case Malformed => Malformed case Took(ds, rest') =>
      Took([Diagnostic(b[0], text)] + ds, rest')
  }

  /** Mechanism names up to an empty one. */
  function PutMechanisms(ms: seq<Bytes>): Bytes {
    if ms == [] then [0] else PutCstr(ms[0]) + PutMechanisms(ms[1..])
  }

  function TakeMechanisms(b: Bytes): Taken<seq<Bytes>>
    decreases |b|
  {
    if b == [] then Malformed
    else if b[0] == 0 then Took([], b[1..])
    else match TakeCstr(b) case Malformed => Malformed case Took(m, rest) =>
      match TakeMechanisms(rest) case Malformed => Malformed case Took(ms, rest') =>
      Took([m] + ms, rest')
  }

  /** The loop of `decode_diagnostic`. */
  method ReadDiagnostics(b: Bytes) returns (r: Taken<seq<Diagnostic>>)
    ensures r == TakeDiagnostics(b)
  {
    var fields, body := [], b;
    PrependNil(TakeDiagnostics(b));
    while true
      invariant TakeDiagnostics(b) == Prepend(fields, TakeDiagnostics(body))
      decreases |body|
    {
      if body == [] { return Malformed; }
      var code := body[0];
      if code == 0 {
        assert fields + [] == fields;
        return Took(fields, body[1..]);
      }
      var text := ReadCstr(body[1..]);
      if text.Malformed? { return Malformed; }
      var rest := TakeDiagnostics(text.rest);
      assert rest.Took? ==>
        fields + ([Diagnostic(code, text.value)] + rest.value) == fields + [Diagnostic(code, text.value)] + rest.value;
      fields, body := fields + [Diagnostic(code, text.value)], text.rest;
    }
  }

  /** The loop over offered mechanisms. */
  method ReadMechanisms(b: Bytes) returns (r: Taken<seq<Bytes>>)
    ensures r == TakeMechanisms(b)
  {
    var mechanisms, body := [], b;
    PrependNil(TakeMechanisms(b));
    while body != [] && body[0] != 0
      invariant TakeMechanisms(b) == Prepend(mechanisms, TakeMechanisms(body))
      decreases |body|
    {
      var name := ReadCstr(body);
      if name.Malformed? { return Malformed; }
      var rest := TakeMechanisms(name.rest);
      assert rest.Took? ==> mechanisms + ([name.value] + rest.value) == mechanisms + [name.value] + rest.value;
      mechanisms, body := mechanisms + [name.value], name.rest;
    }
    if body == [] { return Malformed; }
    assert mechanisms + [] == mechanisms;
    r := Took(mechanisms, body[1..]);
  }

  /* ---------- encoding ---------- */

  function AuthenticationBody(a: Authentication): Bytes {
    match a
    case AuthOk => PutU32(0)
    case KerberosV5 => PutU32(2)
    case CleartextPassword => PutU32(3)
    case Md5Password(salt) => PutU32(5) + salt
    case Gss => PutU32(7)
    case GssContinue(data) => PutU32(8) + data
    case Sspi => PutU32(9)
    case Sasl(mechanisms) => PutU32(10) + PutMechanisms(mechanisms)
    case SaslContinue(data) => PutU32(11) + data
    case SaslFinal(data) => PutU32(12) + data
  }

  function StatusByte(s: TransactionStatus): Byte {
    match s
    case Idle => 73
    case InTransaction => 84
    case FailedTransaction => 69
  }

  function NegotiateBody(major: U16, minor: U16, options: seq<Bytes>): Bytes
    requires |options| < 0x1_0000_0000
  {
    PutU16(major) + (PutU16(minor) + (PutU32(|options|) + PutMany(PutCstr, options)))
  }

  function CopyBody(format: Byte, columns: seq<I16>): Bytes
    requires FitsCount(|columns|)
  {
    [format] + PutList(PutI16, columns)
  }

  function Body(m: BackendMessage): Bytes
    requires BackendEncodable(m)
  {
    match m
    case RowDescription(fields) => PutList(PutField, fields)
    case AuthenticationRequest(a) => AuthenticationBody(a)
    case CommandComplete(tag) => PutCstr(tag)
    case CopyData(data) => data
    case CopyInResponse(format, columns) => CopyBody(format, columns)
    case CopyOutResponse(format, columns) => CopyBody(format, columns)
    case CopyBothResponse(format, columns) => CopyBody(format, columns)
    case DataRow(columns) => PutList(PutNullable, columns)
    case ErrorResponse(ds) => PutDiagnostics(ds)
    case ParameterStatus(name, setting) => PutCstr(name) + PutCstr(setting)
    case NoticeResponse(ds) => PutDiagnostics(ds)
    case NotificationResponse(process, channel, payload) => PutU32(process) + (PutCstr(channel) + PutCstr(payload))
    case BackendKeyData(process, key) => PutU32(process) + key
    case ReadyForQuery(status) => [StatusByte(status)]
    case ParameterDescription(types) => PutList(PutU32, types)
    case FunctionCallResponse(data) => data
    case NegotiateProtocolVersion(major, minor, options) => NegotiateBody(major, minor, options)
    case _ => []
  }

  function WriteField(f: Field): Option<Bytes> {
    Join(WriteCstr(f.name), Join(WriteU32(f.tableOid), Join(WriteI16(f.column), Join(WriteU32(f.typeOid),
      Join(WriteI16(f.typeSize), Join(Some(PutI32(f.typeModifier)), WriteI16(f.format)))))))
  }

  function WriteDiagnostic(d: Diagnostic): Option<Bytes> {
    if d.code == 0 then None else Join(Some([d.code]), WriteCstr(d.text))
  }

  function WriteDiagnostics(ds: seq<Diagnostic>): Option<Bytes> {
    Join(WriteEach(WriteDiagnostic, ds), Some([0]))
  }

  function WriteAuthentication(a: Authentication): Option<Bytes> {
    if a.Sasl? then Join(WriteU32(10), Join(WriteEach(WriteCstr, a.mechanisms), Some([0])))
    else Some(AuthenticationBody(a))
  }

  function WriteCopy(format: Byte, columns: seq<I16>): Option<Bytes> {
    Join(Some([format]), WriteList(WriteI16, columns))
  }

  function WriteNegotiate(major: U16, minor: U16, options: seq<Bytes>): Option<Bytes> {
    if |options| >= 0x1_0000_0000 then None
    else Join(Some(PutU16(major)), Join(Some(PutU16(minor)), Join(WriteU32(|options|), WriteEach(WriteCstr, options))))
  }

  /** The body, part by part; the first part that cannot be written ends it. */
  function Written(m: BackendMessage): Option<Bytes> {
    match m
    case RowDescription(fields) => WriteList(WriteField, fields)
    case AuthenticationRequest(a) => WriteAuthentication(a)
    case CommandComplete(tag) => WriteCstr(tag)
    case CopyData(data) => Some(data)
    case CopyInResponse(format, columns) => WriteCopy(format, columns)
    case CopyOutResponse(format, columns) => WriteCopy(format, columns)
    case CopyBothResponse(format, columns) => WriteCopy(format, columns)
    case DataRow(columns) => WriteList(WriteNullable, columns)
    case ErrorResponse(ds) => WriteDiagnostics(ds)
    case ParameterStatus(name, setting) => Join(WriteCstr(name), WriteCstr(setting))
    case NoticeResponse(ds) => WriteDiagnostics(ds)
    case NotificationResponse(process, channel, payload) =>
      Join(WriteU32(process), Join(WriteCstr(channel), WriteCstr(payload)))
    case BackendKeyData(process, key) => if 4 <= |key| <= 256 then Join(WriteU32(process), Some(key)) else None
    case ReadyForQuery(status) => Some([StatusByte(status)])
    case ParameterDescription(types) => WriteList(WriteU32, types)
    case FunctionCallResponse(data) => Some(data)
    case NegotiateProtocolVersion(major, minor, options) => WriteNegotiate(major, minor, options)
    case _ => Some([])
  }

  /** `to_frame`. */
  function ToFrame(m: BackendMessage): Option<Frame> {
    match Written(m)
    case None => None
    case Some(body) => Some(Frame(BackendTag(m), body))
  }

  predicate DiagnosticFits(d: Diagnostic) {
    d.code != 0 && NoNul(d.text)
  }

  function PutDiagnostic(d: Diagnostic): Bytes {
    [d.code] + PutCstr(d.text)
  }

  lemma {:induction false} DiagnosticsLayout(ds: seq<Diagnostic>)
    ensures PutDiagnostics(ds) == PutMany(PutDiagnostic, ds) + [0]
    decreases ds
  {
    if ds != [] {
      DiagnosticsLayout(ds[1..]);
      var rest := PutMany(PutDiagnostic, ds[1..]);
      assert [ds[0].code] + (PutCstr(ds[0].text) + (rest + [0])) == ([ds[0].code] + PutCstr(ds[0].text)) + rest + [0];
    } else {
      assert [] + [0] == [0];
    }
  }

  lemma {:induction false} MechanismsLayout(ms: seq<Bytes>)
    ensures PutMechanisms(ms) == PutMany(PutCstr, ms) + [0]
    decreases ms
  {
    if ms != [] {
      MechanismsLayout(ms[1..]);
      assert PutCstr(ms[0]) + (PutMany(PutCstr, ms[1..]) + [0]) == PutCstr(ms[0]) + PutMany(PutCstr, ms[1..]) + [0];
    } else {
      assert [] + [0] == [0];
    }
  }

  lemma DiagnosticsWritten(ds: seq<Diagnostic>)
    ensures WriteDiagnostics(ds) == if DiagnosticsFit(ds) then Some(PutDiagnostics(ds)) else None
  {
    assert Writes(WriteDiagnostic, DiagnosticFits, PutDiagnostic);
    EachWritten(WriteDiagnostic, DiagnosticFits, PutDiagnostic, ds);
    DiagnosticsLayout(ds);
    hide PutDiagnostics, WriteEach, PutMany;
    assert All(DiagnosticFits, ds) <==> DiagnosticsFit(ds) by {
      if All(DiagnosticFits, ds) {
        forall i | 0 <= i < |ds| ensures ds[i].code != 0 && NoNul(ds[i].text) { assert DiagnosticFits(ds[i]); }
      }
    }
  }

  lemma StringsWritten(ss: seq<Bytes>)
    ensures WriteEach(WriteCstr, ss) == if StringsFit(ss) then Some(PutMany(PutCstr, ss)) else None
  {
    hide WriteCstr, PutCstr;
    CstrWritten();
    EachWritten(WriteCstr, NoNul, PutCstr, ss);
    assert All(NoNul, ss) <==> StringsFit(ss) by {
      if All(NoNul, ss) {
        forall i | 0 <= i < |ss| ensures NoNul(ss[i]) { assert All(NoNul, ss); }
      }
    }
  }

  lemma AuthenticationWritten(a: Authentication)
    ensures WriteAuthentication(a) == if a.Sasl? && !StringsFit(a.mechanisms) then None else Some(AuthenticationBody(a))
  {
    if a.Sasl? {
      StringsWritten(a.mechanisms);
      MechanismsLayout(a.mechanisms);
    }
  }

  lemma FieldsWritten(fields: seq<Field>)
    ensures WriteList(WriteField, fields) ==
      if FitsCount(|fields|) && (forall i :: 0 <= i < |fields| ==> NoNul(fields[i].name))
      then Some(PutList(PutField, fields)) else None
  {
    assert Writes(WriteField, NamedField, PutField);
    ListWritten(WriteField, NamedField, PutField, fields);
    hide WriteList, PutList, PutField, WriteField;
    assert All(NamedField, fields) <==> (forall i :: 0 <= i < |fields| ==> NoNul(fields[i].name)) by {
      if All(NamedField, fields) {
        forall i | 0 <= i < |fields| ensures NoNul(fields[i].name) { assert NamedField(fields[i]); }
      }
    }
  }

  predicate HasList(m: BackendMessage) {
    || m.RowDescription? || m.AuthenticationRequest? || m.CopyInResponse? || m.CopyOutResponse? || m.CopyBothResponse?
    || m.DataRow? || m.ErrorResponse? || m.NoticeResponse? || m.ParameterDescription? || m.NegotiateProtocolVersion?
  }

  lemma ListsAreWritten(m: BackendMessage)
    requires HasList(m)
    ensures Written(m) == if BackendEncodable(m) then Some(Body(m)) else None
  {
    hide WriteList, WriteEach, WriteDiagnostics, WriteAuthentication, PutList, PutMany, PutDiagnostics,
      AuthenticationBody;
    hide PutI32, PutU32, PutU16, PutI16, ValuesFit, DiagnosticsFit, StringsFit, FitsCount;
    match m
    case RowDescription(fields) => FieldsWritten(fields);
    case AuthenticationRequest(a) => AuthenticationWritten(a);
    case CopyInResponse(_, columns) => ListsWritten([], columns, []);
    case CopyOutResponse(_, columns) => ListsWritten([], columns, []);
    case CopyBothResponse(_, columns) => ListsWritten([], columns, []);
    case DataRow(columns) => ListsWritten([], [], columns);
    case ErrorResponse(ds) => DiagnosticsWritten(ds);
    case NoticeResponse(ds) => DiagnosticsWritten(ds);
    case ParameterDescription(types) => ListsWritten(types, [], []);
    case NegotiateProtocolVersion(_, _, options) => StringsWritten(options);
  }

  lemma OthersAreWritten(m: BackendMessage)
    requires !HasList(m)
    ensures Written(m) == if BackendEncodable(m) then Some(Body(m)) else None
  {
    hide PutU32;
  }

  /** A backend message has a frame exactly when each of its parts can be represented, and then the
      frame is their layout. */
  lemma ToFrameExactly(m: BackendMessage)
    ensures ToFrame(m) == if BackendEncodable(m) then Some(Frame(BackendTag(m), Body(m))) else None
  {
    hide Written, BackendEncodable, Body, BackendTag, HasList;
    if HasList(m) { ListsAreWritten(m); } else { OthersAreWritten(m); }
  }

  /* ---------- decoding ---------- */

  function DecodeAuthentication(b: Bytes): Option<Authentication> {
    match TakeU32(b) case Malformed => None case Took(kind, rest) =>
    if kind == 5 then (if |rest| == 4 then Some(Md5Password(rest)) else None)
    else if kind == 8 then Some(GssContinue(rest))
    else if kind == 10 then
      match TakeMechanisms(rest) case Malformed => None case Took(ms, rest') =>
      if rest' == [] then Some(Sasl(ms)) else None
    else if kind == 11 then Some(SaslContinue(rest))
    else if kind == 12 then Some(SaslFinal(rest))
    else if rest != [] then None
    else if kind == 0 then Some(AuthOk)
    else if kind == 2 then Some(KerberosV5)
    else if kind == 3 then Some(CleartextPassword)
    else if kind == 7 then Some(Gss)
    else if kind == 9 then Some(Sspi)
    else None
  }

  method ReadAuthentication(b: Bytes) returns (a: Option<Authentication>)
    ensures a == DecodeAuthentication(b)
  {
    var kind := TakeU32(b);
    if kind.Malformed? { return None; }
    var auth, body := AuthOk, kind.rest;
    match kind.value {
      case 0 =>
      case 2 => auth := KerberosV5;
      case 3 => auth := CleartextPassword;
      case 5 =>
        if |body| < 4 { return None; }
        assert |body| == 4 ==> body[..4] == body;
        auth, body := Md5Password(body[..4]), body[4..];
      case 7 => auth := Gss;
      case 8 => auth, body := GssContinue(body), [];
      case 9 => auth := Sspi;
      case 10 =>
        var mechanisms := ReadMechanisms(body);
        if mechanisms.Malformed? { return None; }
        auth, body := Sasl(mechanisms.value), mechanisms.rest;
      case 11 => auth, body := SaslContinue(body), [];
      case 12 => auth, body := SaslFinal(body), [];
      case _ => return None;
    }
    a := if body == [] then Some(auth) else None;
  }

  function DecodeCopy(b: Bytes): Option<(Byte, seq<I16>)> {
    if b == [] then None
    else match TakeList(TakeI16, 2, b[1..]) case Malformed => None case Took(columns, rest) =>
      if rest == [] then Some((b[0], columns)) else None
  }

  function DecodeDiagnostics(b: Bytes): Option<seq<Diagnostic>> {
    match TakeDiagnostics(b) case Malformed => None case Took(ds, rest) => if rest == [] then Some(ds) else None
  }

  method ReadDiagnosticBody(b: Bytes) returns (ds: Option<seq<Diagnostic>>)
    ensures ds == DecodeDiagnostics(b)
  {
    var fields := ReadDiagnostics(b);
    if fields.Malformed? || fields.rest != [] { return None; }
    ds := Some(fields.value);
  }

  function DecodeList<T>(take: Bytes -> Taken<T>, min: nat, b: Bytes): Option<seq<T>> {
    match TakeList(take, min, b) case Malformed => None case Took(xs, rest) => if rest == [] then Some(xs) else None
  }

  function DecodeStatus(b: Bytes): Option<BackendMessage> {
    match TakeCstr(b) case Malformed => None case Took(name, b1) =>
    match TakeCstr(b1) case Malformed => None case Took(setting, b2) =>
    if b2 == [] then Some(ParameterStatus(name, setting)) else None
  }

  function DecodeNotification(b: Bytes): Option<BackendMessage> {
    match TakeU32(b) case Malformed => None case Took(process, b1) =>
    match TakeCstr(b1) case Malformed => None case Took(channel, b2) =>
    match TakeCstr(b2) case Malformed => None case Took(payload, b3) =>
    if b3 == [] then Some(NotificationResponse(process, channel, payload)) else None
  }

  function DecodeKey(b: Bytes): Option<BackendMessage> {
    match TakeU32(b) case Malformed => None case Took(process, key) =>
    if 4 <= |key| <= 256 then Some(BackendKeyData(process, key)) else None
  }

  function DecodeReady(b: Bytes): Option<BackendMessage> {
    if |b| != 1 then None
    else if b[0] == 73 then Some(ReadyForQuery(Idle))
    else if b[0] == 84 then Some(ReadyForQuery(InTransaction))
    else if b[0] == 69 then Some(ReadyForQuery(FailedTransaction))
    else None
  }

  function DecodeNegotiate(b: Bytes): Option<BackendMessage> {
    match TakeU16(b) case Malformed => None case Took(major, b1) =>
    match TakeU16(b1) case Malformed => None case Took(minor, b2) =>
    match TakeU32(b2) case Malformed => None case Took(n, b3) =>
    match TakeCounted(TakeCstr, 1, n, b3) case Malformed => None case Took(options, b4) =>
    if b4 == [] then Some(NegotiateProtocolVersion(major, minor, options)) else None
  }

  /** The kinds without a body, by tag. */
  function EmptyKind(tag: Byte): Option<BackendMessage> {
    if tag == 49 then Some(ParseComplete)
    else if tag == 50 then Some(BindComplete)
    else if tag == 51 then Some(CloseComplete)
    else if tag == 99 then Some(BackendMessage.CopyDone)
    else if tag == 73 then Some(EmptyQueryResponse)
    else if tag == 110 then Some(NoData)
    else if tag == 115 then Some(PortalSuspended)
    else None
  }

  function Decode(f: Frame): Option<BackendMessage> {
    var b := f.body;
    if EmptyKind(f.tag).Some? then (if b == [] then EmptyKind(f.tag) else None)
    else if f.tag == 67 then match DecodeCstr(b) case None => None case Some(tag) => Some(CommandComplete(tag))
    else if f.tag == 100 then Some(BackendMessage.CopyData(b))
    else if f.tag == 68 then match DecodeList(TakeNullable, 4, b) case None => None case Some(vs) => Some(DataRow(vs))
    else if f.tag == 69 then match DecodeDiagnostics(b) case None => None case Some(ds) => Some(ErrorResponse(ds))
    else if f.tag == 71 then match DecodeCopy(b) case None => None case Some(c) => Some(CopyInResponse(c.0, c.1))
    else if f.tag == 72 then match DecodeCopy(b) case None => None case Some(c) => Some(CopyOutResponse(c.0, c.1))
    else if f.tag == 87 then match DecodeCopy(b) case None => None case Some(c) => Some(CopyBothResponse(c.0, c.1))
    else if f.tag == 116 then match DecodeList(TakeU32, 4, b) case None => None case Some(ts) =>
      Some(ParameterDescription(ts))
    else if f.tag == 84 then match DecodeList(TakeField, 19, b) case None => None case Some(fs) =>
      Some(RowDescription(fs))
    else if f.tag == 86 then Some(FunctionCallResponse(b))
    else if f.tag == 82 then match DecodeAuthentication(b) case None => None case Some(a) =>
      Some(AuthenticationRequest(a))
    else if f.tag == 83 then DecodeStatus(b)
    else if f.tag == 78 then match DecodeDiagnostics(b) case None => None case Some(ds) => Some(NoticeResponse(ds))
    else if f.tag == 65 then DecodeNotification(b)
    else if f.tag == 75 then DecodeKey(b)
    else if f.tag == 90 then DecodeReady(b)
    else if f.tag == 118 then DecodeNegotiate(b)
    else None
  }

  /* ---------- parts are inverse ---------- */

  lemma FieldUndoes(f: Field, rest: Bytes)
    requires NoNul(f.name)
    ensures TakeField(PutField(f) + rest) == Took(f, rest)
  {
    hide PutCstr, TakeCstr, PutU32, TakeU32, PutI16, TakeI16, PutI32, TakeI32;
    CstrUndoes(f.name);
    U32Inverse(f.tableOid);
    I16Inverse(f.column);
    U32Inverse(f.typeOid);
    I16Inverse(f.typeSize);
    I32Inverse(f.typeModifier);
    I16Inverse(f.format);
    var r6 := PutI16(f.format) + rest;
    var r5 := PutI32(f.typeModifier) + r6;
    var r4 := PutI16(f.typeSize) + r5;
    var r3 := PutU32(f.typeOid) + r4;
    var r2 := PutI16(f.column) + r3;
    var r1 := PutU32(f.tableOid) + r2;
    assert PutField(f) + rest == PutCstr(f.name) + r1;
  }

  lemma FieldRestores(b: Bytes)
    requires TakeField(b).Took?
    ensures NoNul(TakeField(b).value.name) && b == PutField(TakeField(b).value) + TakeField(b).rest
    ensures |TakeField(b).rest| + 19 <= |b|
  {
    hide PutCstr, TakeCstr, PutU32, TakeU32, PutI16, TakeI16, PutI32, TakeI32;
    CstrRestores();
    CstrIsLonger(b);
    U32Inverse(0);
    I16Inverse(0);
    I32Inverse(0);
    var f, rest := TakeField(b).value, TakeField(b).rest;
    var r6 := PutI16(f.format) + rest;
    var r5 := PutI32(f.typeModifier) + r6;
    var r4 := PutI16(f.typeSize) + r5;
    var r3 := PutU32(f.typeOid) + r4;
    var r2 := PutI16(f.column) + r3;
    var r1 := PutU32(f.tableOid) + r2;
    assert b == PutCstr(f.name) + r1;
    assert PutField(f) + rest == PutCstr(f.name) + r1;
  }

  lemma CstrIsLonger(b: Bytes)
    requires TakeCstr(b).Took?
    ensures |TakeCstr(b).rest| < |b|
  {
  }

  lemma FieldsConsume()
    ensures Consumes(TakeField, 19) && Restores(TakeField, PutField)
    ensures forall b: Bytes :: TakeField(b).Took? ==> NamedField(TakeField(b).value)
  {
    forall b: Bytes | TakeField(b).Took?
      ensures |TakeField(b).rest| + 19 <= |b| && b == PutField(TakeField(b).value) + TakeField(b).rest
        && NamedField(TakeField(b).value)
    {
      FieldRestores(b);
    }
  }

  predicate NamedField(f: Field) {
    NoNul(f.name)
  }

  lemma {:induction false} DiagnosticsUndo(ds: seq<Diagnostic>, rest: Bytes)
    requires DiagnosticsFit(ds)
    ensures TakeDiagnostics(PutDiagnostics(ds) + rest) == Took(ds, rest)
    decreases ds
  {
    hide PutCstr, TakeCstr;
    if ds == [] {
      assert (PutDiagnostics(ds) + rest)[1..] == rest;
    } else {
      var after := PutDiagnostics(ds[1..]) + rest;
      assert PutDiagnostics(ds) + rest == [ds[0].code] + (PutCstr(ds[0].text) + after);
      hide TakeDiagnostics, PutDiagnostics;
      DiagnosticsUndo(ds[1..], rest);
      DiagnosticFirst(ds[0], after);
      assert [ds[0]] + ds[1..] == ds;
    }
  }

  lemma DiagnosticFirst(d: Diagnostic, after: Bytes)
    requires DiagnosticFits(d) && TakeDiagnostics(after).Took?
    ensures var r := TakeDiagnostics(after);
      TakeDiagnostics([d.code] + (PutCstr(d.text) + after)) == Took([d] + r.value, r.rest)
  {
    hide PutCstr, TakeCstr;
    var b := [d.code] + (PutCstr(d.text) + after);
    assert b[1..] == PutCstr(d.text) + after;
    CstrUndoes(d.text);
    assert TakeCstr(b[1..]) == Took(d.text, after);
  }

  lemma {:induction false} DiagnosticsRestore(b: Bytes)
    requires TakeDiagnostics(b).Took?
    ensures var r := TakeDiagnostics(b); DiagnosticsFit(r.value) && b == PutDiagnostics(r.value) + r.rest
    decreases |b|
  {
    hide PutCstr, TakeCstr;
    if b[0] == 0 {
      assert b == [0] + b[1..];
    } else {
      CstrRestores();
      var text, rest := TakeCstr(b[1..]).value, TakeCstr(b[1..]).rest;
      DiagnosticsRestore(rest);
      var ds, rest' := TakeDiagnostics(rest).value, TakeDiagnostics(rest).rest;
      assert b == [b[0]] + b[1..];
      assert ([Diagnostic(b[0], text)] + ds)[1..] == ds;
      assert [b[0]] + (PutCstr(text) + (PutDiagnostics(ds) + rest')) ==
        [b[0]] + (PutCstr(text) + PutDiagnostics(ds)) + rest';
    }
  }

  lemma {:induction false} MechanismsUndo(ms: seq<Bytes>, rest: Bytes)
    requires StringsFit(ms) && AllNamed(ms)
    ensures TakeMechanisms(PutMechanisms(ms) + rest) == Took(ms, rest)
    decreases ms
  {
    if ms == [] {
      assert (PutMechanisms(ms) + rest)[1..] == rest;
    } else {
      var after := PutMechanisms(ms[1..]) + rest;
      assert PutMechanisms(ms) + rest == PutCstr(ms[0]) + after;
      CstrUndoes(ms[0]);
      MechanismsUndo(ms[1..], rest);
      assert [ms[0]] + ms[1..] == ms;
    }
  }

  /** An empty name ends the list early and leaves bytes behind. */
  lemma {:induction false} MechanismsLeave(ms: seq<Bytes>, rest: Bytes)
    requires StringsFit(ms) && !AllNamed(ms)
    ensures var r := TakeMechanisms(PutMechanisms(ms) + rest); r.Took? && |r.rest| > |rest|
    decreases ms
  {
    var after := PutMechanisms(ms[1..]) + rest;
    assert PutMechanisms(ms) + rest == PutCstr(ms[0]) + after;
    if ms[0] == [] {
      assert (PutCstr(ms[0]) + after)[1..] == after;
      MechanismsEnd(ms[1..]);
    } else {
      CstrUndoes(ms[0]);
      MechanismsLeave(ms[1..], rest);
    }
  }

  lemma MechanismsEnd(ms: seq<Bytes>)
    ensures |PutMechanisms(ms)| > 0
  {
  }

  lemma {:induction false} MechanismsRestore(b: Bytes)
    requires TakeMechanisms(b).Took?
    ensures var r := TakeMechanisms(b); StringsFit(r.value) && b == PutMechanisms(r.value) + r.rest
    decreases |b|
  {
    if b[0] == 0 {
      assert b == [0] + b[1..];
    } else {
      CstrRestores();
      var m, rest := TakeCstr(b).value, TakeCstr(b).rest;
      MechanismsRestore(rest);
      var ms, rest' := TakeMechanisms(rest).value, TakeMechanisms(rest).rest;
      assert ([m] + ms)[1..] == ms;
      assert PutCstr(m) + (PutMechanisms(ms) + rest') == PutCstr(m) + PutMechanisms(ms) + rest';
    }
  }

  /* ---------- encode, then decode ---------- */

  lemma AuthenticationRoundTrips(a: Authentication)
    requires a.Sasl? ==> StringsFit(a.mechanisms)
    ensures DecodeAuthentication(AuthenticationBody(a)) ==
      if a.Sasl? && !AllNamed(a.mechanisms) then None else Some(a)
  {
    hide PutU32, TakeU32;
    match a
    case AuthOk => Lone(0);
    case KerberosV5 => Lone(2);
    case CleartextPassword => Lone(3);
    case Md5Password(salt) => U32Inverse(5);
    case Gss => Lone(7);
    case GssContinue(_) => U32Inverse(8);
    case Sspi => Lone(9);
    case Sasl(mechanisms) =>
      U32Inverse(10);
      assert PutMechanisms(mechanisms) + [] == PutMechanisms(mechanisms);
      if AllNamed(mechanisms) { MechanismsUndo(mechanisms, []); } else { MechanismsLeave(mechanisms, []); }
    case SaslContinue(_) => U32Inverse(11);
    case SaslFinal(_) => U32Inverse(12);
  }

  lemma Lone(n: U32)
    ensures TakeU32(PutU32(n)) == Took(n, [])
  {
    U32Inverse(n);
    assert PutU32(n) + [] == PutU32(n);
  }

  lemma CopyRoundTrips(format: Byte, columns: seq<I16>)
    requires FitsCount(|columns|)
    ensures DecodeCopy(CopyBody(format, columns)) == Some((format, columns))
  {
    hide PutList, TakeList;
    I16sUndo(columns);
    IntegersConsume();
    ListEnds(TakeI16, PutI16, 2, columns);
    assert CopyBody(format, columns)[1..] == PutList(PutI16, columns);
  }

  lemma FieldsRoundTrip(fields: seq<Field>)
    requires FitsCount(|fields|) && forall i :: 0 <= i < |fields| ==> NoNul(fields[i].name)
    ensures DecodeList(TakeField, 19, PutList(PutField, fields)) == Some(fields)
  {
    hide PutList, TakeList, PutField, TakeField;
    FieldsConsume();
    forall i | 0 <= i < |fields| ensures Undoes(TakeField, PutField, fields[i]) {
      forall rest: Bytes ensures TakeField(PutField(fields[i]) + rest) == Took(fields[i], rest) {
        FieldUndoes(fields[i], rest);
      }
    }
    ListEnds(TakeField, PutField, 19, fields);
  }

  lemma ValuesRoundTrip(values: seq<Option<Bytes>>)
    requires FitsCount(|values|) && ValuesFit(values)
    ensures DecodeList(TakeNullable, 4, PutList(PutNullable, values)) == Some(values)
  {
    hide PutList, TakeList;
    ValuesUndo(values);
    IntegersConsume();
    ListEnds(TakeNullable, PutNullable, 4, values);
  }

  lemma TypesRoundTrip(types: seq<U32>)
    requires FitsCount(|types|)
    ensures DecodeList(TakeU32, 4, PutList(PutU32, types)) == Some(types)
  {
    hide PutList, TakeList;
    U32sUndo(types);
    IntegersConsume();
    ListEnds(TakeU32, PutU32, 4, types);
  }

  lemma DiagnosticsRoundTrip(ds: seq<Diagnostic>)
    requires DiagnosticsFit(ds)
    ensures DecodeDiagnostics(PutDiagnostics(ds)) == Some(ds)
  {
    DiagnosticsUndo(ds, []);
    assert PutDiagnostics(ds) + [] == PutDiagnostics(ds);
  }

  lemma StatusRoundTrips(name: Bytes, setting: Bytes)
    requires NoNul(name) && NoNul(setting)
    ensures DecodeStatus(PutCstr(name) + PutCstr(setting)) == Some(ParameterStatus(name, setting))
  {
    hide PutCstr, TakeCstr;
    CstrUndoes(name);
    CstrEnds(setting);
  }

  lemma NotificationRoundTrips(process: U32, channel: Bytes, payload: Bytes)
    requires NoNul(channel) && NoNul(payload)
    ensures DecodeNotification(PutU32(process) + (PutCstr(channel) + PutCstr(payload))) ==
      Some(NotificationResponse(process, channel, payload))
  {
    hide PutCstr, TakeCstr, PutU32, TakeU32;
    U32Inverse(process);
    CstrUndoes(channel);
    CstrEnds(payload);
  }

  lemma NegotiateRoundTrips(major: U16, minor: U16, options: seq<Bytes>)
    requires |options| < 0x1_0000_0000 && StringsFit(options)
    ensures DecodeNegotiate(NegotiateBody(major, minor, options)) ==
      Some(NegotiateProtocolVersion(major, minor, options))
  {
    hide PutU16, TakeU16, PutU32, TakeU32, PutCstr, TakeCstr;
    U16Inverse(major);
    U16Inverse(minor);
    U32Inverse(|options|);
    forall i | 0 <= i < |options| ensures Undoes(TakeCstr, PutCstr, options[i]) { CstrUndoes(options[i]); }
    ManyUndoes(TakeCstr, PutCstr, options, []);
    assert PutMany(PutCstr, options) + [] == PutMany(PutCstr, options);
    IntegersConsume();
    CheckedIsUnchecked(TakeCstr, 1, |options|, PutMany(PutCstr, options));
  }

  /** A SASL offer with a nameless mechanism is the one encodable message that does not survive. */
  predicate LosesName(m: BackendMessage) {
    m.AuthenticationRequest? && m.authentication.Sasl? && !AllNamed(m.authentication.mechanisms)
  }

  /** Every backend message that can be encoded decodes back to itself, except exactly a SASL offer
      with an empty mechanism name, which does not decode at all. */
  lemma RoundTrips(m: BackendMessage)
    requires ToFrame(m).Some?
    ensures Decode(ToFrame(m).value) == if LosesName(m) then None else Some(m)
  {
    ToFrameExactly(m);
    hide ToFrame;
    hide PutCstr, TakeCstr, PutU32, DecodeAuthentication, AuthenticationBody, DecodeStatus, DecodeNotification,
      DecodeNegotiate;
    hide NegotiateBody, AllNamed, PutList, CopyBody, PutDiagnostics, DecodeCopy, DecodeDiagnostics, DecodeList;
    match m
    case AuthenticationRequest(a) => AuthenticationRoundTrips(a);
    case CommandComplete(tag) => CstrEnds(tag);
    case ParameterStatus(name, setting) => StatusRoundTrips(name, setting);
    case NotificationResponse(process, channel, payload) => NotificationRoundTrips(process, channel, payload);
    case BackendKeyData(process, key) => U32Inverse(process);
    case NegotiateProtocolVersion(major, minor, options) => NegotiateRoundTrips(major, minor, options);
    case _ =>
      if !LosesName(m) { ListsRoundTrip(m); }
  }

  lemma ListsRoundTrip(m: BackendMessage)
    requires BackendEncodable(m) && !m.AuthenticationRequest? && !m.CommandComplete? && !m.ParameterStatus?
    requires !m.NotificationResponse? && !m.BackendKeyData? && !m.NegotiateProtocolVersion?
    ensures Decode(Frame(BackendTag(m), Body(m))) == Some(m)
  {
    hide PutList, CopyBody, PutDiagnostics, DecodeCopy, DecodeDiagnostics, DecodeList;
    match m
    case RowDescription(fields) => FieldsRoundTrip(fields);
    case CopyInResponse(format, columns) => CopyRoundTrips(format, columns);
    case CopyOutResponse(format, columns) => CopyRoundTrips(format, columns);
    case CopyBothResponse(format, columns) => CopyRoundTrips(format, columns);
    case DataRow(columns) => ValuesRoundTrip(columns);
    case ErrorResponse(ds) => DiagnosticsRoundTrip(ds);
    case NoticeResponse(ds) => DiagnosticsRoundTrip(ds);
    case ParameterDescription(types) => TypesRoundTrip(types);
    case _ =>
  }

  /* ---------- decode, then encode ---------- */

  predicate Encodes(m: BackendMessage, f: Frame) {
    ToFrame(m) == Some(f)
  }

  predicate LaidOut(m: BackendMessage, f: Frame) {
    BackendEncodable(m) && f == Frame(BackendTag(m), Body(m))
  }

  lemma AuthenticationRestores(b: Bytes)
    requires DecodeAuthentication(b).Some?
    ensures var a := DecodeAuthentication(b).value;
      (a.Sasl? ==> StringsFit(a.mechanisms)) && b == AuthenticationBody(a)
  {
    hide PutU32, TakeU32, TakeMechanisms, PutMechanisms, StringsFit;
    U32Inverse(0);
    var kind, rest := TakeU32(b).value, TakeU32(b).rest;
    if kind == 10 {
      OfferRestores(rest);
    } else if rest == [] {
      assert PutU32(kind) + rest == PutU32(kind);
    }
  }

  lemma OfferRestores(b: Bytes)
    requires TakeMechanisms(b).Took? && TakeMechanisms(b).rest == []
    ensures StringsFit(TakeMechanisms(b).value) && b == PutMechanisms(TakeMechanisms(b).value)
  {
    MechanismsRestore(b);
    var ms := TakeMechanisms(b).value;
    assert PutMechanisms(ms) + [] == PutMechanisms(ms);
  }

  lemma CopyRestores(b: Bytes)
    requires DecodeCopy(b).Some?
    ensures var c := DecodeCopy(b).value; FitsCount(|c.1|) && b == CopyBody(c.0, c.1)
  {
    hide PutList, TakeList;
    I16sRestore(b[1..]);
    var columns := DecodeCopy(b).value.1;
    assert PutList(PutI16, columns) + [] == PutList(PutI16, columns);
    assert b == [b[0]] + b[1..];
  }

  lemma FieldsRestore(b: Bytes)
    requires DecodeList(TakeField, 19, b).Some?
    ensures var fs := DecodeList(TakeField, 19, b).value;
      FitsCount(|fs|) && (forall i :: 0 <= i < |fs| ==> NoNul(fs[i].name)) && b == PutList(PutField, fs)
  {
    hide PutList, TakeList, PutField, TakeField;
    FieldsConsume();
    ListRestores(TakeField, PutField, 19, b);
    ListHolds(TakeField, NamedField, 19, b);
    var fs := DecodeList(TakeField, 19, b).value;
    assert PutList(PutField, fs) + [] == PutList(PutField, fs);
    forall i | 0 <= i < |fs| ensures NoNul(fs[i].name) { assert NamedField(fs[i]); }
  }

  lemma ListsRestore(b: Bytes)
    ensures DecodeList(TakeNullable, 4, b).Some? ==>
      var vs := DecodeList(TakeNullable, 4, b).value; FitsCount(|vs|) && ValuesFit(vs) && b == PutList(PutNullable, vs)
    ensures DecodeList(TakeU32, 4, b).Some? ==>
      var ts := DecodeList(TakeU32, 4, b).value; FitsCount(|ts|) && b == PutList(PutU32, ts)
  {
    hide PutList, TakeList;
    if DecodeList(TakeNullable, 4, b).Some? {
      ValuesRestore(b);
      var vs := DecodeList(TakeNullable, 4, b).value;
      assert PutList(PutNullable, vs) + [] == PutList(PutNullable, vs);
    }
    if DecodeList(TakeU32, 4, b).Some? {
      U32sRestore(b);
      var ts := DecodeList(TakeU32, 4, b).value;
      assert PutList(PutU32, ts) + [] == PutList(PutU32, ts);
    }
  }

  lemma DiagnosticsBodyRestores(b: Bytes)
    requires DecodeDiagnostics(b).Some?
    ensures DiagnosticsFit(DecodeDiagnostics(b).value) && b == PutDiagnostics(DecodeDiagnostics(b).value)
  {
    DiagnosticsRestore(b);
    var ds := DecodeDiagnostics(b).value;
    assert PutDiagnostics(ds) + [] == PutDiagnostics(ds);
  }

  lemma StatusRestores(b: Bytes)
    requires DecodeStatus(b).Some?
    ensures LaidOut(DecodeStatus(b).value, Frame(83, b))
  {
    hide PutCstr, TakeCstr;
    CstrRestores();
    var setting := TakeCstr(TakeCstr(b).rest).value;
    assert PutCstr(setting) + [] == PutCstr(setting);
  }

  lemma NotificationRestores(b: Bytes)
    requires DecodeNotification(b).Some?
    ensures LaidOut(DecodeNotification(b).value, Frame(65, b))
  {
    hide PutCstr, TakeCstr, PutU32, TakeU32;
    CstrRestores();
    U32Inverse(0);
    var payload := TakeCstr(TakeCstr(TakeU32(b).rest).rest).value;
    assert PutCstr(payload) + [] == PutCstr(payload);
  }

  lemma KeyRestores(b: Bytes)
    requires DecodeKey(b).Some?
    ensures LaidOut(DecodeKey(b).value, Frame(75, b))
  {
    U32Inverse(0);
  }

  lemma ReadyRestores(b: Bytes)
    requires DecodeReady(b).Some?
    ensures LaidOut(DecodeReady(b).value, Frame(90, b))
  {
    assert b == [b[0]];
  }

  lemma NegotiateRestores(b: Bytes)
    requires DecodeNegotiate(b).Some?
    ensures LaidOut(DecodeNegotiate(b).value, Frame(118, b))
  {
    hide PutU16, TakeU16, PutU32, TakeU32, PutCstr, TakeCstr;
    U16Inverse(0);
    U32Inverse(0);
    CstrRestores();
    var b2 := TakeU16(TakeU16(b).rest).rest;
    var n, b3 := TakeU32(b2).value, TakeU32(b2).rest;
    ManyRestores(TakeCstr, PutCstr, n, b3);
    ManyHold(TakeCstr, NoNul, n, b3);
    var options := TakeMany(TakeCstr, n, b3).value;
    assert PutMany(PutCstr, options) + [] == PutMany(PutCstr, options);
  }

  /** Every backend frame that decodes re-encodes to the identical frame. */
  lemma DecodedRestores(f: Frame)
    requires Decode(f).Some?
    ensures Encodes(Decode(f).value, f)
  {
    hide DecodeList, DecodeCopy, DecodeDiagnostics, DecodeAuthentication, DecodeStatus, DecodeNotification;
    hide DecodeKey, DecodeReady, DecodeNegotiate, DecodeCstr, ToFrame;
    ToFrameExactly(Decode(f).value);
    var b := f.body;
    if f.tag == 83 { StatusRestores(b); }
    else if f.tag == 65 { NotificationRestores(b); }
    else if f.tag == 75 { KeyRestores(b); }
    else if f.tag == 90 { ReadyRestores(b); }
    else if f.tag == 118 { NegotiateRestores(b); }
    else { PartsRestore(f); }
  }

  lemma PartsRestore(f: Frame)
    requires Decode(f).Some? && f.tag !in {65, 75, 83, 90, 118}
    ensures LaidOut(Decode(f).value, f)
  {
    hide PutCstr, DecodeList, DecodeCopy, DecodeDiagnostics, DecodeAuthentication, DecodeCstr, AuthenticationBody,
      CopyBody, PutDiagnostics, PutList;
    var b := f.body;
    if f.tag == 67 { CstrBodyRestores(b); }
    else if f.tag == 69 || f.tag == 78 { DiagnosticsBodyRestores(b); }
    else if f.tag == 71 || f.tag == 72 || f.tag == 87 { CopyRestores(b); }
    else if f.tag == 84 { FieldsRestore(b); }
    else if f.tag == 82 { AuthenticationRestores(b); }
    else { ListsRestore(b); }
  }
}
