/** Client messages to and from tagged frames (src/codec.rs:228-475, 927-1125): decoding and encoding
    are inverse to each other in both directions. */
module FrontendCodec {
  import opened Messages
  import opened Wire

  function TargetByte(t: Target): Byte {
    if t.Statement? then 83 else 80
  }

  /* ---------- encoding ---------- */

  function ParseBody(statement: Bytes, query: Bytes, types: seq<U32>): Bytes
    requires FitsCount(|types|)
  {
    PutCstr(statement) + (PutCstr(query) + PutList(PutU32, types))
  }

  function BindBody(portal: Bytes, statement: Bytes, formats: seq<I16>, values: seq<Option<Bytes>>,
                    results: seq<I16>): Bytes
    requires FitsCount(|formats|) && FitsCount(|values|) && FitsCount(|results|)
  {
    PutCstr(portal) + (PutCstr(statement) + (PutList(PutI16, formats)
      + (PutList(PutNullable, values) + PutList(PutI16, results))))
  }

  function CallBody(oid: U32, formats: seq<I16>, values: seq<Option<Bytes>>, result: I16): Bytes
    requires FitsCount(|formats|) && FitsCount(|values|)
  {
    PutU32(oid) + (PutList(PutI16, formats) + (PutList(PutNullable, values) + PutI16(result)))
  }

  function Tag(m: FrontendMessage): Byte {
    match m
    case Parse(_, _, _) => 80
    case Bind(_, _, _, _, _) => 66
    case Describe(_, _) => 68
    case Close(_, _) => 67
    case Execute(_, _) => 69
    case FunctionCall(_, _, _, _) => 70
    case Query(_) => 81
    case Flush => 72
    case Sync => 83
    case Terminate => 88
    case CopyData(_) => 100
    case CopyDone => 99
    case CopyFail(_) => 102
    case PasswordResponse(_) => 112
  }

  /** The layout of a message whose parts can be represented. */
  function Body(m: FrontendMessage): Bytes
    requires FrontendEncodable(m)
  {
    match m
    case Parse(statement, query, types) => ParseBody(statement, query, types)
    case Bind(portal, statement, formats, values, results) => BindBody(portal, statement, formats, values, results)
    case Describe(target, name) => [TargetByte(target)] + PutCstr(name)
    case Close(target, name) => [TargetByte(target)] + PutCstr(name)
    case Execute(portal, rows) => PutCstr(portal) + PutI32(rows)
    case FunctionCall(oid, formats, values, result) => CallBody(oid, formats, values, result)
    case Query(sql) => PutCstr(sql)
    case CopyData(data) => data
    case CopyFail(reason) => PutCstr(reason)
    case PasswordResponse(data) => data
    case _ => []
  }

  /** `to_frame`, part by part; the first part that cannot be written ends it. */
  function ToFrame(m: FrontendMessage): Option<Frame> {
    match Written(m)
    case None => None
    case Some(body) => Some(Frame(Tag(m), body))
  }

  function Written(m: FrontendMessage): Option<Bytes> {
    match m
    case Parse(statement, query, types) =>
      Join(WriteCstr(statement), Join(WriteCstr(query), WriteList(WriteU32, types)))
    case Bind(portal, statement, formats, values, results) =>
      Join(WriteCstr(portal), Join(WriteCstr(statement),
        Join(WriteList(WriteI16, formats), Join(WriteList(WriteNullable, values), WriteList(WriteI16, results)))))
    case Describe(target, name) => Join(Some([TargetByte(target)]), WriteCstr(name))
    case Close(target, name) => Join(Some([TargetByte(target)]), WriteCstr(name))
    case Execute(portal, rows) => Join(WriteCstr(portal), Some(PutI32(rows)))
    case FunctionCall(oid, formats, values, result) =>
      Join(WriteU32(oid), Join(WriteList(WriteI16, formats), Join(WriteList(WriteNullable, values), WriteI16(result))))
    case Query(sql) => WriteCstr(sql)
    case CopyData(data) => Some(data)
    case CopyFail(reason) => WriteCstr(reason)
    case PasswordResponse(data) => Some(data)
    case _ => Some([])
  }

  /** A client message has a frame exactly when each of its parts can be represented, and then the
      frame is their layout. */
  lemma ToFrameExactly(m: FrontendMessage)
    ensures ToFrame(m) == if FrontendEncodable(m) then Some(Frame(Tag(m), Body(m))) else None
  {
    hide WriteList, PutList, PutI32, PutU32, PutI16, ValuesFit, FitsCount;
    match m
    case Parse(_, _, types) => ListsWritten(types, [], []);
    case Bind(_, _, formats, values, results) =>
      ListsWritten([], formats, values);
      ListsWritten([], results, []);
    case FunctionCall(_, formats, values, _) => ListsWritten([], formats, values);
    case _ =>
  }

  method ParseToFrame(statement: Bytes, query: Bytes, types: seq<U32>) returns (f: Option<Frame>)
    ensures f == ToFrame(Parse(statement, query, types))
  {
    if 0 in statement || 0 in query { return None; }
    var list := WriteCounted(WriteU32, types);
    if list.None? { return None; }
    var body := statement + [0] + (query + [0]) + list.value;
    assert body == (statement + [0]) + ((query + [0]) + list.value);
    f := Some(Frame(80, body));
  }

  method BindToFrame(portal: Bytes, statement: Bytes, formats: seq<I16>, values: seq<Option<Bytes>>, results: seq<I16>)
    returns (f: Option<Frame>)
    ensures f == ToFrame(Bind(portal, statement, formats, values, results))
  {
    if 0 in portal || 0 in statement { return None; }
    var formatList := WriteCounted(WriteI16, formats);
    if formatList.None? { return None; }
    var valueList := WriteCounted(WriteNullable, values);
    if valueList.None? { return None; }
    var resultList := WriteCounted(WriteI16, results);
    if resultList.None? { return None; }
    var body := portal + [0] + (statement + [0]) + formatList.value + valueList.value + resultList.value;
    assert body == (portal + [0]) + ((statement + [0]) + (formatList.value + (valueList.value + resultList.value)));
    f := Some(Frame(66, body));
  }

  /* ---------- decoding ---------- */

  function TakeTarget(b: Bytes): Taken<Target> {
    if b == [] then Malformed
    else if b[0] == 83 then Took(Statement, b[1..])
    else if b[0] == 80 then Took(Portal, b[1..])
    else Malformed
  }

  function DecodeParse(b: Bytes): Option<FrontendMessage> {
    match TakeCstr(b) case Malformed => None case Took(statement, b1) =>
    match TakeCstr(b1) case Malformed => None case Took(query, b2) =>
    match TakeList(TakeU32, 4, b2) case Malformed => None case Took(types, b3) =>
    if b3 == [] then Some(Parse(statement, query, types)) else None
  }

  function DecodeBind(b: Bytes): Option<FrontendMessage> {
    match TakeCstr(b) case Malformed => None case Took(portal, b1) =>
    match TakeCstr(b1) case Malformed => None case Took(statement, b2) =>
    match TakeList(TakeI16, 2, b2) case Malformed => None case Took(formats, b3) =>
    match TakeList(TakeNullable, 4, b3) case Malformed => None case Took(values, b4) =>
    match TakeList(TakeI16, 2, b4) case Malformed => None case Took(results, b5) =>
    if b5 == [] then Some(Bind(portal, statement, formats, values, results)) else None
  }

  method ReadParse(b: Bytes) returns (m: Option<FrontendMessage>)
    ensures m == DecodeParse(b)
  {
    var statement := ReadCstr(b);
    if statement.Malformed? { return None; }
    var query := ReadCstr(statement.rest);
    if query.Malformed? { return None; }
    var types := ReadList(TakeU32, 4, query.rest);
    if types.Malformed? || types.rest != [] { return None; }
    m := Some(Parse(statement.value, query.value, types.value));
  }

  method ReadBind(b: Bytes) returns (m: Option<FrontendMessage>)
    ensures m == DecodeBind(b)
  {
    var portal := ReadCstr(b);
    if portal.Malformed? { return None; }
    var statement := ReadCstr(portal.rest);
    if statement.Malformed? { return None; }
    var formats := ReadList(TakeI16, 2, statement.rest);
    if formats.Malformed? { return None; }
    var values := ReadList(TakeNullable, 4, formats.rest);
    if values.Malformed? { return None; }
    var results := ReadList(TakeI16, 2, values.rest);
    if results.Malformed? || results.rest != [] { return None; }
    m := Some(Bind(portal.value, statement.value, formats.value, values.value, results.value));
  }

  function DecodeNamed(b: Bytes, describe: bool): Option<FrontendMessage> {
    match TakeTarget(b) case Malformed => None case Took(target, b1) =>
    match TakeCstr(b1) case Malformed => None case Took(name, b2) =>
    if b2 != [] then None
    else if describe then Some(Describe(target, name)) else Some(Close(target, name))
  }

  function DecodeExecute(b: Bytes): Option<FrontendMessage> {
    match TakeCstr(b) case Malformed => None case Took(portal, b1) =>
    match TakeI32(b1) case Malformed => None case Took(rows, b2) =>
    if b2 == [] then Some(Execute(portal, rows)) else None
  }

  function DecodeCall(b: Bytes): Option<FrontendMessage> {
    match TakeU32(b) case Malformed => None case Took(oid, b1) =>
    match TakeList(TakeI16, 2, b1) case Malformed => None case Took(formats, b2) =>
    match TakeList(TakeNullable, 4, b2) case Malformed => None case Took(values, b3) =>
    match TakeI16(b3) case Malformed => None case Took(result, b4) =>
    if b4 == [] then Some(FunctionCall(oid, formats, values, result)) else None
  }

  function DecodeEmpty(b: Bytes, m: FrontendMessage): Option<FrontendMessage> {
    if b == [] then Some(m) else None
  }

  function Decode(f: Frame): Option<FrontendMessage> {
    var b := f.body;
    if f.tag == 80 then DecodeParse(b)
    else if f.tag == 66 then DecodeBind(b)
    else if f.tag == 68 then DecodeNamed(b, true)
    else if f.tag == 67 then DecodeNamed(b, false)
    else if f.tag == 69 then DecodeExecute(b)
    else if f.tag == 70 then DecodeCall(b)
    else if f.tag == 72 then DecodeEmpty(b, Flush)
    else if f.tag == 81 then match DecodeCstr(b) case None => None case Some(sql) => Some(Query(sql))
    else if f.tag == 83 then DecodeEmpty(b, Sync)
    else if f.tag == 88 then DecodeEmpty(b, Terminate)
    else if f.tag == 99 then DecodeEmpty(b, FrontendMessage.CopyDone)
    else if f.tag == 100 then Some(FrontendMessage.CopyData(b))
    else if f.tag == 102 then match DecodeCstr(b) case None => None case Some(reason) => Some(CopyFail(reason))
    else if f.tag == 112 then Some(PasswordResponse(b))
    else None
  }

  /* ---------- encode, then decode ---------- */

  lemma ParseRoundTrips(statement: Bytes, query: Bytes, types: seq<U32>)
    requires NoNul(statement) && NoNul(query) && FitsCount(|types|)
    ensures DecodeParse(ParseBody(statement, query, types)) == Some(Parse(statement, query, types))
  {
    hide PutCstr, TakeCstr, PutList, TakeList;
    CstrUndoes(statement);
    CstrUndoes(query);
    U32sUndo(types);
    IntegersConsume();
    ListEnds(TakeU32, PutU32, 4, types);
  }

  lemma BindRoundTrips(portal: Bytes, statement: Bytes, formats: seq<I16>, values: seq<Option<Bytes>>,
                       results: seq<I16>)
    requires NoNul(portal) && NoNul(statement)
    requires FitsCount(|formats|) && FitsCount(|values|) && FitsCount(|results|) && ValuesFit(values)
    ensures DecodeBind(BindBody(portal, statement, formats, values, results)) ==
      Some(Bind(portal, statement, formats, values, results))
  {
    hide PutCstr, TakeCstr, PutList, TakeList;
    CstrUndoes(portal);
    CstrUndoes(statement);
    I16sUndo(formats);
    ValuesUndo(values);
    I16sUndo(results);
    IntegersConsume();
    ListUndoes(TakeI16, PutI16, 2, formats, PutList(PutNullable, values) + PutList(PutI16, results));
    ListUndoes(TakeNullable, PutNullable, 4, values, PutList(PutI16, results));
    ListEnds(TakeI16, PutI16, 2, results);
  }

  lemma CallRoundTrips(oid: U32, formats: seq<I16>, values: seq<Option<Bytes>>, result: I16)
    requires FitsCount(|formats|) && FitsCount(|values|) && ValuesFit(values)
    ensures DecodeCall(CallBody(oid, formats, values, result)) == Some(FunctionCall(oid, formats, values, result))
  {
    hide PutU32, TakeU32, PutI16, TakeI16, PutList, TakeList;
    U32Inverse(oid);
    I16sUndo(formats);
    ValuesUndo(values);
    I16Inverse(result);
    IntegersConsume();
    ListUndoes(TakeI16, PutI16, 2, formats, PutList(PutNullable, values) + PutI16(result));
    ListUndoes(TakeNullable, PutNullable, 4, values, PutI16(result));
    assert PutI16(result) + [] == PutI16(result);
  }

  lemma NamedRoundTrips(target: Target, name: Bytes, describe: bool)
    requires NoNul(name)
    ensures DecodeNamed([TargetByte(target)] + PutCstr(name), describe) ==
      Some(if describe then Describe(target, name) else Close(target, name))
  {
    hide PutCstr, TakeCstr;
    CstrEnds(name);
    assert ([TargetByte(target)] + PutCstr(name))[1..] == PutCstr(name);
  }

  lemma ExecuteRoundTrips(portal: Bytes, rows: I32)
    requires NoNul(portal)
    ensures DecodeExecute(PutCstr(portal) + PutI32(rows)) == Some(Execute(portal, rows))
  {
    hide PutCstr, TakeCstr, PutI32, TakeI32;
    CstrUndoes(portal);
    I32Inverse(rows);
    assert PutI32(rows) + [] == PutI32(rows);
  }

  /** Every client message that can be encoded decodes back to itself. */
  lemma RoundTrips(m: FrontendMessage)
    requires ToFrame(m).Some?
    ensures Decode(ToFrame(m).value) == Some(m)
  {
    ToFrameExactly(m);
    hide ToFrame, PutCstr, TakeCstr, PutI32, DecodeParse, DecodeBind, DecodeNamed, DecodeExecute, DecodeCall;
    match m
    case Parse(statement, query, types) => ParseRoundTrips(statement, query, types);
    case Bind(portal, statement, formats, values, results) =>
      BindRoundTrips(portal, statement, formats, values, results);
    case Describe(target, name) => NamedRoundTrips(target, name, true);
    case Close(target, name) => NamedRoundTrips(target, name, false);
    case Execute(portal, rows) => ExecuteRoundTrips(portal, rows);
    case FunctionCall(oid, formats, values, result) => CallRoundTrips(oid, formats, values, result);
    case Query(sql) => CstrEnds(sql);
    case CopyFail(reason) => CstrEnds(reason);
    case _ =>
  }

  /* ---------- decode, then encode ---------- */

  /** The frame `m` encodes to. */
  predicate Encodes(m: FrontendMessage, f: Frame) {
    ToFrame(m) == Some(f)
  }

  predicate LaidOut(m: FrontendMessage, f: Frame) {
    FrontendEncodable(m) && f == Frame(Tag(m), Body(m))
  }

  lemma ParseRestores(b: Bytes)
    requires DecodeParse(b).Some?
    ensures LaidOut(DecodeParse(b).value, Frame(80, b))
  {
    hide PutCstr, TakeCstr, PutList, TakeList;
    CstrRestores();
    var b1 := TakeCstr(b).rest;
    var b2 := TakeCstr(b1).rest;
    U32sRestore(b2);
    var types := TakeList(TakeU32, 4, b2).value;
    assert PutList(PutU32, types) + [] == PutList(PutU32, types);
  }

  lemma BindRestores(b: Bytes)
    requires DecodeBind(b).Some?
    ensures LaidOut(DecodeBind(b).value, Frame(66, b))
  {
    hide PutCstr, TakeCstr, PutList, TakeList;
    CstrRestores();
    var b1 := TakeCstr(b).rest;
    var b2 := TakeCstr(b1).rest;
    I16sRestore(b2);
    var b3 := TakeList(TakeI16, 2, b2).rest;
    ValuesRestore(b3);
    var b4 := TakeList(TakeNullable, 4, b3).rest;
    I16sRestore(b4);
    var results := TakeList(TakeI16, 2, b4).value;
    assert PutList(PutI16, results) + [] == PutList(PutI16, results);
  }

  lemma CallRestores(b: Bytes)
    requires DecodeCall(b).Some?
    ensures LaidOut(DecodeCall(b).value, Frame(70, b))
  {
    hide PutU32, TakeU32, PutI16, TakeI16, PutList, TakeList;
    U32Inverse(0);
    var b1 := TakeU32(b).rest;
    I16sRestore(b1);
    var b2 := TakeList(TakeI16, 2, b1).rest;
    ValuesRestore(b2);
    var b3 := TakeList(TakeNullable, 4, b2).rest;
    I16Inverse(0);
    var result := TakeI16(b3).value;
    assert PutI16(result) + [] == PutI16(result);
  }

  lemma NamedRestores(b: Bytes, describe: bool)
    requires DecodeNamed(b, describe).Some?
    ensures LaidOut(DecodeNamed(b, describe).value, Frame(if describe then 68 else 67, b))
  {
    hide PutCstr, TakeCstr;
    CstrRestores();
    var target, b1 := TakeTarget(b).value, TakeTarget(b).rest;
    var name := TakeCstr(b1).value;
    assert b == [b[0]] + b1;
    assert PutCstr(name) + [] == PutCstr(name);
  }

  lemma ExecuteRestores(b: Bytes)
    requires DecodeExecute(b).Some?
    ensures LaidOut(DecodeExecute(b).value, Frame(69, b))
  {
    hide PutCstr, TakeCstr, PutI32, TakeI32;
    CstrRestores();
    I32Inverse(0);
    var b1 := TakeCstr(b).rest;
    var rows := TakeI32(b1).value;
    assert PutI32(rows) + [] == PutI32(rows);
  }

  /** Every client frame that decodes re-encodes to the identical frame. */
  lemma DecodedRestores(f: Frame)
    requires Decode(f).Some?
    ensures Encodes(Decode(f).value, f)
  {
    hide PutCstr, TakeCstr, PutI32, DecodeParse, DecodeBind, DecodeNamed, DecodeExecute, DecodeCall, DecodeCstr,
      ToFrame;
    ToFrameExactly(Decode(f).value);
    var b := f.body;
    if f.tag == 80 { ParseRestores(b); }
    else if f.tag == 66 { BindRestores(b); }
    else if f.tag == 68 { NamedRestores(b, true); }
    else if f.tag == 67 { NamedRestores(b, false); }
    else if f.tag == 69 { ExecuteRestores(b); }
    else if f.tag == 70 { CallRestores(b); }
    else { PlainRestores(f); }
  }

  lemma PlainRestores(f: Frame)
    requires Decode(f).Some? && f.tag !in {66, 67, 68, 69, 70, 80}
    ensures LaidOut(Decode(f).value, f)
  {
    hide PutCstr, DecodeCstr;
    if f.tag == 81 || f.tag == 102 { CstrBodyRestores(f.body); }
  }
}
