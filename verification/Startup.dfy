/** The untagged packets before normal framing (src/startup.rs:22-79, src/pre_startup.rs:127-205,
    535-559). */
module Startup {
  import opened Messages
  import opened Wire

  /** A startup message; the source keeps parameters in an ordered map. */
  datatype StartupMessage = StartupMessage(major: U16, minor: U16, parameters: map<Bytes, Bytes>)

  datatype PreStartupMessage =
    | SslRequest
    | GssEncRequest
    | CancelRequest(processId: U32, secretKey: Bytes)
    | Start(message: StartupMessage)

  const CANCEL_REQUEST_CODE: U32 := 80877102
  const SSL_REQUEST_CODE: U32 := 80877103
  const GSSENC_REQUEST_CODE: U32 := 80877104
  const I32_MAX: nat := 0x7FFF_FFFF

  /** An enumeration of the map: every name once, in whatever order the map is walked. */
  ghost predicate Enumerates(names: seq<Bytes>, parameters: map<Bytes, Bytes>) {
    && (forall i :: 0 <= i < |names| ==> names[i] in parameters)
    && (forall i, j :: 0 <= i < j < |names| ==> names[i] != names[j])
    && (forall n :: n in parameters ==> n in names)
  }

  /* ---------- startup packets ---------- */

  function PutParameters(names: seq<Bytes>, parameters: map<Bytes, Bytes>): Bytes
    requires forall i :: 0 <= i < |names| ==> names[i] in parameters
  {
    if names == [] then [0]
    else PutCstr(names[0]) + (PutCstr(parameters[names[0]]) + PutParameters(names[1..], parameters))
  }

  /** The parameters as the encoder writes them; None at the first string that cannot be written. */
  function WriteParameters(names: seq<Bytes>, parameters: map<Bytes, Bytes>): Option<Bytes>
    requires forall i :: 0 <= i < |names| ==> names[i] in parameters
  {
    if names == [] then Some([0])
    else Join(WriteCstr(names[0]), Join(WriteCstr(parameters[names[0]]), WriteParameters(names[1..], parameters)))
  }

  predicate ParametersFit(names: seq<Bytes>, parameters: map<Bytes, Bytes>) {
    forall i :: 0 <= i < |names| ==> names[i] in parameters && NoNul(names[i]) && NoNul(parameters[names[i]])
  }

  lemma {:induction false} ParametersWritten(names: seq<Bytes>, parameters: map<Bytes, Bytes>)
    requires forall i :: 0 <= i < |names| ==> names[i] in parameters
    ensures WriteParameters(names, parameters) ==
      if ParametersFit(names, parameters) then Some(PutParameters(names, parameters)) else None
    decreases names
  {
    if names != [] {
      ParametersWritten(names[1..], parameters);
      if ParametersFit(names[1..], parameters) {
        assert forall i :: 1 <= i < |names| ==> names[i] == names[1..][i - 1];
      }
    }
  }

  /** `StartupMessage::encode`, walking the parameters in the order of `names`. */
  function EncodeStartup(m: StartupMessage, names: seq<Bytes>): Option<Bytes>
    requires forall i :: 0 <= i < |names| ==> names[i] in m.parameters
  {
    match WriteParameters(names, m.parameters)
    case None => None
    case Some(p) =>
      var body := PutU16(m.major) + (PutU16(m.minor) + p);
      if |body| + 4 > I32_MAX then None else Some(PutU32(|body| + 4) + body)
  }

  /** A startup message encodes exactly when no string of it holds a zero byte and its packet has a
      length. */
  lemma EncodesExactly(m: StartupMessage, names: seq<Bytes>)
    requires forall i :: 0 <= i < |names| ==> names[i] in m.parameters
    ensures var p := PutParameters(names, m.parameters);
      EncodeStartup(m, names) ==
        if ParametersFit(names, m.parameters) && |p| + 8 <= I32_MAX
        then Some(PutU32(|p| + 8) + (PutU16(m.major) + (PutU16(m.minor) + p))) else None
  {
    ParametersWritten(names, m.parameters);
  }

  /** The encoder: placeholder, version, parameters and, once it is known, the length. */
  method StartupToPacket(m: StartupMessage, names: seq<Bytes>) returns (packet: Option<Bytes>)
    requires forall i :: 0 <= i < |names| ==> names[i] in m.parameters
    ensures packet == EncodeStartup(m, names)
  {
    var output := [];
    var i := 0;
    assert names[0..] == names;
    JoinEmpty(WriteParameters(names, m.parameters));
    while i < |names|
      invariant 0 <= i <= |names|
        && WriteParameters(names, m.parameters) == Join(Some(output), WriteParameters(names[i..], m.parameters))
    {
      var name, value := names[i], m.parameters[names[i]];
      ghost var rest := WriteParameters(names[i + 1..], m.parameters);
      assert names[i..][0] == name && names[i..][1..] == names[i + 1..];
      if 0 in name { return None; }
      if 0 in value { return None; }
      JoinAssociates(WriteCstr(name), WriteCstr(value), rest);
      JoinAssociates(Some(output), Join(WriteCstr(name), WriteCstr(value)), rest);
      output := output + (name + [0] + (value + [0]));
      i := i + 1;
    }
    var body := PutU16(m.major) + (PutU16(m.minor) + (output + [0]));
    packet := if |body| + 4 > I32_MAX then None else Some(PutU32(|body| + 4) + body);
  }

  /** The parameter loop; None for a missing terminator, a broken string or a repeated name. */
  function TakeParameters(b: Bytes, seen: map<Bytes, Bytes>): Taken<map<Bytes, Bytes>>
    decreases |b|
  {
    if b == [] then Malformed
    else if b[0] == 0 then Took(seen, b[1..])
    else match TakeCstr(b) case Malformed => Malformed case Took(name, b1) =>
      match TakeCstr(b1) case Malformed => Malformed case Took(value, b2) =>
      if name in seen then Malformed else TakeParameters(b2, seen[name := value])
  }

  method ReadParameters(b: Bytes) returns (r: Taken<map<Bytes, Bytes>>)
    ensures r == TakeParameters(b, map[])
  {
    var packet, parameters := b, map[];
    while true
      invariant TakeParameters(b, map[]) == TakeParameters(packet, parameters)
      decreases |packet|
    {
      if packet == [] { return Malformed; }
      if packet[0] == 0 { return Took(parameters, packet[1..]); }
      var name := ReadCstr(packet);
      if name.Malformed? { return Malformed; }
      var value := ReadCstr(name.rest);
      if value.Malformed? || name.value in parameters { return Malformed; }
      parameters, packet := parameters[name.value := value.value], value.rest;
    }
  }

  /** `StartupMessage::decode` of one whole packet. */
  function DecodeStartup(b: Bytes): Option<StartupMessage> {
    if |b| < 8 || TakeU32(b).value != |b| then None
    else
      var b1 := TakeU32(b).rest;
      var b2 := TakeU16(b1).rest;
      match TakeParameters(TakeU16(b2).rest, map[])
      case Malformed => None
      case Took(parameters, rest) =>
        if rest == [] then Some(StartupMessage(TakeU16(b1).value, TakeU16(b2).value, parameters)) else None
  }

  method ReadStartup(b: Bytes) returns (m: Option<StartupMessage>)
    ensures m == DecodeStartup(b)
  {
    if |b| < 8 { return None; }
    var length := TakeU32(b);
    if length.value != |b| { return None; }
    var major := TakeU16(length.rest);
    var minor := TakeU16(major.rest);
    var parameters := ReadParameters(minor.rest);
    if parameters.Malformed? || parameters.rest != [] { return None; }
    m := Some(StartupMessage(major.value, minor.value, parameters.value));
  }

  /** The first `n` enumerated parameters. */
  function Prefix(names: seq<Bytes>, parameters: map<Bytes, Bytes>, n: nat): map<Bytes, Bytes>
    requires n <= |names| && forall i :: 0 <= i < |names| ==> names[i] in parameters
  {
    if n == 0 then map[] else Prefix(names, parameters, n - 1)[names[n - 1] := parameters[names[n - 1]]]
  }

  lemma {:induction false} PrefixHas(names: seq<Bytes>, parameters: map<Bytes, Bytes>, n: nat)
    requires n <= |names| && forall i :: 0 <= i < |names| ==> names[i] in parameters
    ensures forall k :: k in Prefix(names, parameters, n) <==> k in names[..n]
    ensures forall k :: k in Prefix(names, parameters, n) ==> Prefix(names, parameters, n)[k] == parameters[k]
  {
    if n > 0 {
      PrefixHas(names, parameters, n - 1);
      assert names[..n] == names[..n - 1] + [names[n - 1]];
    }
  }

  lemma {:induction false} ParametersUndo(names: seq<Bytes>, parameters: map<Bytes, Bytes>, n: nat)
    requires n <= |names| && ParametersFit(names, parameters) && AllNamed(names)
    requires forall i, j :: 0 <= i < j < |names| ==> names[i] != names[j]
    ensures TakeParameters(PutParameters(names[n..], parameters), Prefix(names, parameters, n)) ==
      Took(Prefix(names, parameters, |names|), [])
    decreases |names| - n
  {
    hide PutCstr, TakeCstr;
    if n < |names| {
      var name, value := names[n], parameters[names[n]];
      var after := PutParameters(names[n + 1..], parameters);
      var b := PutParameters(names[n..], parameters);
      assert names[n..][1..] == names[n + 1..];
      assert b == PutCstr(name) + (PutCstr(value) + after);
      CstrUndoes(name);
      CstrUndoes(value);
      NamedFirst(name, PutCstr(value) + after);
      PrefixHas(names, parameters, n);
      assert name !in names[..n];
      ParametersUndo(names, parameters, n + 1);
    }
  }

  lemma NamedFirst(name: Bytes, rest: Bytes)
    requires NoNul(name) && name != []
    ensures (PutCstr(name) + rest)[0] != 0
  {
  }

  lemma ParametersDecode(names: seq<Bytes>, parameters: map<Bytes, Bytes>)
    requires Enumerates(names, parameters) && ParametersFit(names, parameters) && AllNamed(names)
    ensures TakeParameters(PutParameters(names, parameters), map[]) == Took(parameters, [])
  {
    hide TakeParameters, PutParameters;
    ParametersUndo(names, parameters, 0);
    assert names[0..] == names;
    PrefixHas(names, parameters, |names|);
    assert names[..|names|] == names;
    assert Prefix(names, parameters, |names|) == parameters;
  }

  /** An encoded startup message decodes back to itself when every parameter has a name. */
  lemma StartupRoundTrips(m: StartupMessage, names: seq<Bytes>)
    requires Enumerates(names, m.parameters) && EncodeStartup(m, names).Some? && AllNamed(names)
    ensures DecodeStartup(EncodeStartup(m, names).value) == Some(m)
  {
    hide TakeU32, TakeU16, PutU32, PutU16, PutParameters, TakeParameters, EncodeStartup, Enumerates, AllNamed,
      ParametersFit;
    StartupParts(m, names);
    ParametersDecode(names, m.parameters);
  }

  /** The header of an encoded packet. */
  lemma StartupParts(m: StartupMessage, names: seq<Bytes>)
    requires Enumerates(names, m.parameters) && EncodeStartup(m, names).Some?
    ensures ParametersFit(names, m.parameters)
    ensures var b := EncodeStartup(m, names).value;
      var b1 := TakeU32(b).rest;
      var b2 := TakeU16(b1).rest;
      && 9 <= |b| <= I32_MAX && TakeU32(b) == Took(|b|, b1)
      && TakeU16(b1) == Took(m.major, b2) && TakeU16(b2) == Took(m.minor, PutParameters(names, m.parameters))
  {
    EncodesExactly(m, names);
    hide EncodeStartup;
    var after := PutParameters(names, m.parameters);
    var body := PutU16(m.major) + (PutU16(m.minor) + after);
    U32Inverse(|body| + 4);
    U16Inverse(m.major);
    U16Inverse(m.minor);
    assert |after| >= 1;
  }

  /** A nameless parameter ends the list early. */
  lemma {:induction false} NamelessLeaves(names: seq<Bytes>, parameters: map<Bytes, Bytes>, seen: map<Bytes, Bytes>)
    requires ParametersFit(names, parameters) && !AllNamed(names)
    ensures var r := TakeParameters(PutParameters(names, parameters), seen); r.Malformed? || r.rest != []
    decreases names
  {
    var name, value := names[0], parameters[names[0]];
    var after := PutParameters(names[1..], parameters);
    var b := PutParameters(names, parameters);
    assert b == PutCstr(name) + (PutCstr(value) + after);
    if name == [] {
      assert b[0] == 0 && |b[1..]| > 0;
    } else {
      CstrUndoes(name);
      CstrUndoes(value);
      NamedFirst(name, PutCstr(value) + after);
      if name !in seen { NamelessLeaves(names[1..], parameters, seen[name := value]); }
    }
  }

  /** And otherwise not at all: the round trip needs exactly that. */
  lemma StartupRoundTripsExactly(m: StartupMessage, names: seq<Bytes>)
    requires Enumerates(names, m.parameters) && EncodeStartup(m, names).Some?
    ensures DecodeStartup(EncodeStartup(m, names).value) == if [] in m.parameters then None else Some(m)
  {
    StartupParts(m, names);
    if [] in m.parameters {
      assert !AllNamed(names) by {
        assert [] in names;
      }
      NamelessLeaves(names, m.parameters, map[]);
    } else {
      StartupRoundTrips(m, names);
    }
  }

  /** The parameters found behind those already seen: each once, all of them named, and laid out as the
      encoder would. */
  ghost predicate Restored(b: Bytes, seen: map<Bytes, Bytes>, all: map<Bytes, Bytes>, rest: Bytes, names: seq<Bytes>) {
    && ParametersFit(names, all) && AllNamed(names)
    && (forall i :: 0 <= i < |names| ==> names[i] !in seen)
    && (forall i, j :: 0 <= i < j < |names| ==> names[i] != names[j])
    && (forall n :: n in all <==> n in seen || n in names)
    && (forall n :: n in seen ==> n in all && all[n] == seen[n])
    && b == PutParameters(names, all) + rest
  }

  lemma {:induction false} ParametersRestore(b: Bytes, seen: map<Bytes, Bytes>) returns (names: seq<Bytes>)
    requires TakeParameters(b, seen).Took?
    ensures Restored(b, seen, TakeParameters(b, seen).value, TakeParameters(b, seen).rest, names)
    decreases |b|
  {
    hide TakeCstr, PutCstr;
    if b[0] == 0 {
      names := [];
      assert b == [0] + b[1..];
    } else {
      CstrRestores();
      var name, b1 := TakeCstr(b).value, TakeCstr(b).rest;
      var value, b2 := TakeCstr(b1).value, TakeCstr(b1).rest;
      FirstIsNamed(b);
      FirstIsNamed(b1);
      var more := ParametersRestore(b2, seen[name := value]);
      names := [name] + more;
      OneMoreRestored(b, seen, name, value, b2, TakeParameters(b, seen).value, TakeParameters(b, seen).rest, more);
    }
  }

  lemma FirstIsNamed(b: Bytes)
    requires TakeCstr(b).Took?
    ensures b[0] != 0 ==> TakeCstr(b).value != []
    ensures |TakeCstr(b).rest| < |b|
  {
  }

  lemma OneMoreRestored(b: Bytes, seen: map<Bytes, Bytes>, name: Bytes, value: Bytes, b2: Bytes,
                        all: map<Bytes, Bytes>, rest: Bytes, more: seq<Bytes>)
    requires name != [] && NoNul(name) && NoNul(value) && name !in seen
    requires b == PutCstr(name) + (PutCstr(value) + b2) && Restored(b2, seen[name := value], all, rest, more)
    ensures Restored(b, seen, all, rest, [name] + more)
  {
    hide PutCstr, NoNul;
    var names := [name] + more;
    assert name in seen[name := value] && all[name] == value;
    assert names[1..] == more;
    assert forall n :: n in names <==> n == name || n in more;
    assert PutCstr(name) + (PutCstr(value) + (PutParameters(more, all) + rest))
        == PutCstr(name) + (PutCstr(value) + PutParameters(more, all)) + rest;
  }

  /** Decoding accepts nothing else: every accepted packet is what its message encodes to, with the
      parameters in the order they came in. */
  lemma StartupRestores(b: Bytes) returns (names: seq<Bytes>)
    requires DecodeStartup(b).Some? && |b| <= I32_MAX
    ensures var m := DecodeStartup(b).value;
      Enumerates(names, m.parameters) && AllNamed(names) && EncodeStartup(m, names) == Some(b)
  {
    hide PutU32, PutU16, TakeU32, TakeU16, EncodeStartup, TakeParameters, Restored, PutParameters;
    var b3 := StartupHeader(b);
    names := ParametersRestore(b3, map[]);
    var m := DecodeStartup(b).value;
    EnumeratesAll(b3, m.parameters, names);
    EncodesExactly(m, names);
  }

  lemma EnumeratesAll(b: Bytes, parameters: map<Bytes, Bytes>, names: seq<Bytes>)
    requires Restored(b, map[], parameters, [], names)
    ensures Enumerates(names, parameters) && AllNamed(names) && ParametersFit(names, parameters)
    ensures b == PutParameters(names, parameters)
  {
    hide PutParameters;
    assert PutParameters(names, parameters) + [] == PutParameters(names, parameters);
  }

  lemma StartupHeader(b: Bytes) returns (b3: Bytes)
    requires DecodeStartup(b).Some?
    ensures var m := DecodeStartup(b).value;
      && |b| == |b3| + 8 && TakeParameters(b3, map[]) == Took(m.parameters, [])
      && (|b| <= I32_MAX ==> b == PutU32(|b|) + (PutU16(m.major) + (PutU16(m.minor) + b3)))
  {
    hide TakeParameters;
    var b1 := TakeU32(b).rest;
    var b2 := TakeU16(b1).rest;
    b3 := TakeU16(b2).rest;
    U32Restores(b);
    U16Restores(b1);
    U16Restores(b2);
    hide PutU32, PutU16;
  }

  lemma U16Restores(b: Bytes)
    requires |b| >= 2
    ensures b == PutU16(TakeU16(b).value) + TakeU16(b).rest
  {
    assert b == [b[0], b[1]] + b[2..];
  }

  /* ---------- the first packet ---------- */

  function RequestPacket(code: U32): Bytes {
    PutU32(8) + PutU32(code)
  }

  /** `to_packet`. */
  function ToPacket(m: PreStartupMessage, names: seq<Bytes>): Option<Bytes>
    requires m.Start? ==> forall i :: 0 <= i < |names| ==> names[i] in m.message.parameters
  {
    match m
    case SslRequest => Some(RequestPacket(SSL_REQUEST_CODE))
    case GssEncRequest => Some(RequestPacket(GSSENC_REQUEST_CODE))
    case CancelRequest(id, key) =>
      if 4 <= |key| <= 256 then Some(PutU32(12 + |key|) + (PutU32(CANCEL_REQUEST_CODE) + (PutU32(id) + key))) else None
    case Start(message) => EncodeStartup(message, names)
  }

  /** What the decoder says, and what it leaves in the buffer. */
  datatype PreStep = NeedMore | Refused(left: Bytes) | Got(message: PreStartupMessage, rest: Bytes)

  function DecodePacket(packet: Bytes): Option<PreStartupMessage>
    requires |packet| >= 8
  {
    var code := TakeU32(packet[4..]).value;
    if code == SSL_REQUEST_CODE && |packet| == 8 then Some(SslRequest)
    else if code == GSSENC_REQUEST_CODE && |packet| == 8 then Some(GssEncRequest)
    else if code == CANCEL_REQUEST_CODE then
      if 16 <= |packet| <= 268 then Some(CancelRequest(TakeU32(packet[8..]).value, packet[12..])) else None
    else match DecodeStartup(packet)
      case None => None
      case Some(m) => Some(Start(m))
  }

  /** `decode_pre_startup_with_limit`. */
  function DecodePreStartup(b: Bytes, max: nat): PreStep {
    if !(8 <= max <= I32_MAX) then Refused(b)
    else if |b| < 4 then NeedMore
    else
      var length: int := TakeU32(b).value;
      if length < 8 || length > I32_MAX || length > max then Refused(b)
      else if |b| < length then NeedMore
      else match DecodePacket(b[..length])
        case None => Refused(b[length..])
        case Some(m) => Got(m, b[length..])
  }

  /** The requests, byte for byte. */
  lemma RequestBytes(names: seq<Bytes>, id: U32, key: Bytes)
    ensures ToPacket(SslRequest, names) == Some([0, 0, 0, 8, 4, 210, 22, 47])
    ensures ToPacket(GssEncRequest, names) == Some([0, 0, 0, 8, 4, 210, 22, 48])
    ensures ToPacket(CancelRequest(id, key), names).Some? <==> 4 <= |key| <= 256
    ensures 4 <= |key| <= 256 ==>
      ToPacket(CancelRequest(id, key), names) ==
      Some([0, 0, (12 + |key|) / 256, (12 + |key|) % 256, 4, 210, 22, 46] + PutU32(id) + key)
  {
    hide PutU32;
    SmallNumber(8);
    CodesWritten();
    assert [0, 0, 0, 8] + [4, 210, 22, 47] == [0, 0, 0, 8, 4, 210, 22, 47];
    assert [0, 0, 0, 8] + [4, 210, 22, 48] == [0, 0, 0, 8, 4, 210, 22, 48];
    if 4 <= |key| <= 256 {
      var n := 12 + |key|;
      SmallNumber(n);
      assert PutU32(n) + (PutU32(CANCEL_REQUEST_CODE) + (PutU32(id) + key))
          == PutU32(n) + PutU32(CANCEL_REQUEST_CODE) + PutU32(id) + key;
      assert PutU32(n) + PutU32(CANCEL_REQUEST_CODE) == [0, 0, n / 256, n % 256, 4, 210, 22, 46];
    }
  }

  lemma SmallNumber(n: U16)
    ensures PutU32(n) == [0, 0, n / 256, n % 256]
  {
  }

  lemma CodesWritten()
    ensures PutU32(CANCEL_REQUEST_CODE) == [4, 210, 22, 46]
    ensures PutU32(SSL_REQUEST_CODE) == [4, 210, 22, 47]
    ensures PutU32(GSSENC_REQUEST_CODE) == [4, 210, 22, 48]
  {
  }

  /** What a whole packet is taken for, exactly. */
  lemma PacketsExactly(p: Bytes)
    requires |p| >= 8
    ensures var m := DecodePacket(p);
      && (m == Some(SslRequest) <==> |p| == 8 && p[4..8] == [4, 210, 22, 47])
      && (m == Some(GssEncRequest) <==> |p| == 8 && p[4..8] == [4, 210, 22, 48])
      && (m.Some? && m.value.CancelRequest? <==> 16 <= |p| <= 268 && p[4..8] == [4, 210, 22, 46])
      && (m.Some? && m.value.CancelRequest? ==> m.value == CancelRequest(BigEndian(p[8..]), p[12..]))
      && (m.Some? && m.value.Start? <==>
            && p[4..8] != [4, 210, 22, 46] && !(|p| == 8 && p[4..7] == [4, 210, 22] && (p[7] == 47 || p[7] == 48))
            && DecodeStartup(p).Some?)
      && (m.Some? && m.value.Start? ==> Some(m.value.message) == DecodeStartup(p))
  {
    TakesBigEndian(p[4..]);
    CodeBytes(p);
    if |p| >= 12 { TakesBigEndian(p[8..]); }
    hide TakeU32, DecodeStartup;
  }

  lemma CodeBytes(p: Bytes)
    requires |p| >= 8
    ensures BigEndian(p[4..]) == 80877102 <==> p[4..8] == [4, 210, 22, 46]
    ensures BigEndian(p[4..]) == 80877103 <==> p[4..8] == [4, 210, 22, 47]
    ensures BigEndian(p[4..]) == 80877104 <==> p[4..8] == [4, 210, 22, 48]
    ensures p[4..8] == p[4..7] + [p[7]]
  {
    assert p[4..8] == [p[4], p[5], p[6], p[7]];
  }

  /** What the decoder waits for and what it refuses, exactly. */
  lemma PreStartupExactly(b: Bytes, max: nat)
    ensures var step := DecodePreStartup(b, max);
      if !(8 <= max < 0x8000_0000) then step == Refused(b)
      else if |b| < 4 then step.NeedMore?
      else
        var n := BigEndian(b);
        if n < 8 || n > max then step == Refused(b)
        else if |b| < n then step.NeedMore?
        else
          var m := DecodePacket(b[..n]);
          step == if m.Some? then Got(m.value, b[n..]) else Refused(b[n..])
  {
    if |b| >= 4 { TakesBigEndian(b); }
    hide TakeU32, DecodePacket;
  }

  /** Nothing is decided differently, and nothing consumed, because a read came in pieces. */
  lemma PreStartupExtends(a: Bytes, b: Bytes, max: nat)
    requires !DecodePreStartup(a, max).NeedMore?
    ensures DecodePreStartup(a + b, max) ==
      match DecodePreStartup(a, max)
      case Refused(left) => Refused(left + b)
      case Got(m, rest) => Got(m, rest + b)
      case NeedMore => NeedMore
  {
    hide TakeU32, DecodePacket;
    if 8 <= max <= I32_MAX && |a| >= 4 {
      U32Extends(a, b);
      var length: int := TakeU32(a).value;
      if 8 <= length <= max {
        CutExtends(a, b, length);
        DecodeAt(a, max);
        DecodeAt(a + b, max);
      }
    }
  }

  lemma CutExtends(a: Bytes, b: Bytes, n: nat)
    requires n <= |a|
    ensures (a + b)[..n] == a[..n] && (a + b)[n..] == a[n..] + b
  {
  }

  /** A whole packet within the limit is decided by its own bytes. */
  lemma DecodeAt(b: Bytes, max: nat)
    requires 8 <= max <= I32_MAX && |b| >= 4 && 8 <= TakeU32(b).value as int <= max && TakeU32(b).value as int <= |b|
    ensures var length: int := TakeU32(b).value;
      DecodePreStartup(b, max) ==
        match DecodePacket(b[..length])
        case None => Refused(b[length..])
        case Some(m) => Got(m, b[length..])
  {
    hide TakeU32, DecodePacket;
  }

  /** Reading one packet from chunks: one more is read only while the packet is incomplete, and what
      was not read yet stays behind what is left. */
  function PreFed(buffer: Bytes, chunks: seq<Bytes>, max: nat): PreStep
    decreases chunks
  {
    match DecodePreStartup(buffer, max)
    case NeedMore => if chunks == [] then NeedMore else PreFed(buffer + chunks[0], chunks[1..], max)
    case Refused(left) => Refused(left + Concat(chunks))
    case Got(m, rest) => Got(m, rest + Concat(chunks))
  }

  /** However the first packet is cut into reads, the same decision is made and the same bytes are
      left. */
  lemma {:induction false} PreStartupChunking(buffer: Bytes, chunks: seq<Bytes>, max: nat)
    ensures PreFed(buffer, chunks, max) == DecodePreStartup(buffer + Concat(chunks), max)
    decreases chunks
  {
    hide DecodePreStartup;
    if !DecodePreStartup(buffer, max).NeedMore? {
      PreStartupExtends(buffer, Concat(chunks), max);
    } else if chunks == [] {
      assert buffer + Concat(chunks) == buffer;
    } else {
      PreStartupChunking(buffer + chunks[0], chunks[1..], max);
      assert buffer + chunks[0] + Concat(chunks[1..]) == buffer + Concat(chunks);
    }
  }

  /** Messages whose packet is not mistaken for another: a startup message whose version spells the
      cancellation code is. */
  predicate Distinct(m: PreStartupMessage) {
    m.Start? ==> !(m.message.major == 1234 && m.message.minor == 5678)
  }

  lemma RequestRoundTrips(code: U32, rest: Bytes, max: nat)
    requires 8 <= max <= I32_MAX && (code == SSL_REQUEST_CODE || code == GSSENC_REQUEST_CODE)
    ensures DecodePreStartup(RequestPacket(code) + rest, max) ==
      Got(if code == SSL_REQUEST_CODE then SslRequest else GssEncRequest, rest)
  {
    hide PutU32, TakeU32;
    var p := RequestPacket(code);
    U32Inverse(8);
    U32Inverse(code);
    assert p + rest == PutU32(8) + (PutU32(code) + rest);
    assert (p + rest)[..8] == p && (p + rest)[8..] == rest;
    assert p[4..] == PutU32(code) + [];
  }

  lemma CancelRoundTrips(id: U32, key: Bytes, rest: Bytes, max: nat)
    requires 8 <= max <= I32_MAX && 4 <= |key| <= 256 && 12 + |key| <= max
    ensures DecodePreStartup(ToPacket(CancelRequest(id, key), []).value + rest, max) ==
      Got(CancelRequest(id, key), rest)
  {
    hide PutU32, TakeU32;
    var n := 12 + |key|;
    var p := PutU32(n) + (PutU32(CANCEL_REQUEST_CODE) + (PutU32(id) + key));
    U32Inverse(n);
    U32Inverse(CANCEL_REQUEST_CODE);
    U32Inverse(id);
    assert p + rest == PutU32(n) + (PutU32(CANCEL_REQUEST_CODE) + (PutU32(id) + key) + rest);
    assert (p + rest)[..n] == p && (p + rest)[n..] == rest;
    assert p[4..] == PutU32(CANCEL_REQUEST_CODE) + (PutU32(id) + key);
    assert p[8..] == PutU32(id) + key && p[12..] == key;
  }

  /** A startup packet that is not mistaken is decoded as its body says. */
  lemma StartDecodes(m: StartupMessage, names: seq<Bytes>, rest: Bytes, max: nat)
    requires 8 <= max <= I32_MAX && Enumerates(names, m.parameters) && EncodeStartup(m, names).Some?
    requires |EncodeStartup(m, names).value| <= max && Distinct(Start(m))
    ensures DecodePreStartup(EncodeStartup(m, names).value + rest, max) ==
      if [] in m.parameters then Refused(rest) else Got(Start(m), rest)
  {
    var p := EncodeStartup(m, names).value;
    StartupParts(m, names);
    StartupRoundTripsExactly(m, names);
    VersionCode(m, names);
    hide EncodeStartup, DecodeStartup;
    assert TakeU32(p + rest).value == TakeU32(p).value;
    assert (p + rest)[..|p|] == p && (p + rest)[|p|..] == rest;
  }

  /** The version stands where a request code would. */
  lemma VersionCode(m: StartupMessage, names: seq<Bytes>)
    requires Enumerates(names, m.parameters) && EncodeStartup(m, names).Some?
    ensures var p := EncodeStartup(m, names).value;
      |p| >= 9 && var major: int := m.major; TakeU32(p[4..]).value == major * 0x1_0000 + m.minor
  {
    StartupParts(m, names);
    var p := EncodeStartup(m, names).value;
    assert p[4..] == TakeU32(p).rest;
  }

  /** Pre-startup packets within the limit round-trip, in front of whatever follows, if and only if no
      startup parameter is nameless and a startup version is not 1234.5678. */
  lemma PreStartupRoundTrips(m: PreStartupMessage, names: seq<Bytes>, rest: Bytes, max: nat)
    requires 8 <= max <= I32_MAX && (m.Start? ==> Enumerates(names, m.message.parameters))
    requires ToPacket(m, names).Some? && |ToPacket(m, names).value| <= max
    ensures DecodePreStartup(ToPacket(m, names).value + rest, max) == Got(m, rest) <==>
      (m.Start? ==> [] !in m.message.parameters && Distinct(m))
  {
    hide DecodePreStartup, EncodeStartup;
    match m
    case SslRequest => RequestRoundTrips(SSL_REQUEST_CODE, rest, max);
    case GssEncRequest => RequestRoundTrips(GSSENC_REQUEST_CODE, rest, max);
    case CancelRequest(id, key) => CancelRoundTrips(id, key, rest, max);
    case Start(message) =>
      if Distinct(m) {
        StartDecodes(message, names, rest, max);
      } else {
        CancelVersionIsMistaken(message, names, rest, max);
      }
  }

  /** With version 1234.5678 a startup packet is read as a cancellation when it is as long as one can
      be, and refused otherwise. */
  lemma CancelVersionIsMistaken(m: StartupMessage, names: seq<Bytes>, rest: Bytes, max: nat)
    requires 8 <= max <= I32_MAX && Enumerates(names, m.parameters) && EncodeStartup(m, names).Some?
    requires |EncodeStartup(m, names).value| <= max && !Distinct(Start(m))
    ensures var p := EncodeStartup(m, names).value;
      DecodePreStartup(p + rest, max) ==
        if 16 <= |p| <= 268 then Got(CancelRequest(TakeU32(p[8..]).value, p[12..]), rest) else Refused(rest)
  {
    var p := EncodeStartup(m, names).value;
    StartupParts(m, names);
    VersionCode(m, names);
    hide EncodeStartup, DecodeStartup;
    assert TakeU32(p + rest).value == TakeU32(p).value;
    assert (p + rest)[..|p|] == p && (p + rest)[|p|..] == rest;
  }

  method ReadPacket(packet: Bytes) returns (m: Option<PreStartupMessage>)
    requires |packet| >= 8
    ensures m == DecodePacket(packet)
  {
    var code := TakeU32(packet[4..]).value;
    if code == SSL_REQUEST_CODE && |packet| == 8 { return Some(SslRequest); }
    if code == GSSENC_REQUEST_CODE && |packet| == 8 { return Some(GssEncRequest); }
    if code == CANCEL_REQUEST_CODE {
      if !(16 <= |packet| <= 268) { return None; }
      return Some(CancelRequest(TakeU32(packet[8..]).value, packet[12..]));
    }
    var start := ReadStartup(packet);
    m := if start.None? then None else Some(Start(start.value));
  }

  /** The read buffer before normal framing. */
  class PreStartupBuffer {
    var buffer: Bytes

    /** Takes one packet off the buffer; an incomplete packet is left in place, a refused one is
        consumed once its length was accepted. */
    method Next(max: nat) returns (step: PreStep)
      modifies this
      ensures step == DecodePreStartup(old(buffer), max)
      ensures buffer == match step case NeedMore => old(buffer) case Refused(left) => left case Got(_, rest) => rest
    {
      if !(8 <= max <= I32_MAX) { return Refused(buffer); }
      if |buffer| < 4 { return NeedMore; }
      var length: int := TakeU32(buffer).value;
      if length < 8 || length > I32_MAX || length > max { return Refused(buffer); }
      if |buffer| < length { return NeedMore; }
      var packet := buffer[..length];
      buffer := buffer[length..];
      var message := ReadPacket(packet);
      step := if message.None? then Refused(buffer) else Got(message.value, buffer);
    }
  }
}
