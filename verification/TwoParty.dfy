/** The client and server grammars over two unbounded FIFO channels: neither side ever meets a
    message it cannot take, and the pair never gets stuck before it terminates. */
module TwoParty {
  import opened Messages
  import C = ClientGrammar
  import G = ServerGrammar

  /** Both machines, the messages in flight each way, and whether the client's current extended
      batch has sent anything yet. */
  datatype System = System(client: C.State, begun: bool, up: seq<FrontendMessage>, down: seq<BackendMessage>,
                           server: G.State)

  datatype Move =
    | Decides(choice: C.Silent)
    | ClientSends(request: FrontendMessage)
    | ClientTakes
    | ServerSends(response: BackendMessage)
    | ServerTakes

  const INITIAL := System(C.Ready, false, [], [], G.Ready)

  function Next(s: System, move: Move): Option<System> {
    match move
    case Decides(d) => (
      match C.Decide(s.client, d)
      case None => None
      case Some(c) => Some(s.(client := c, begun := false)))
    case ClientSends(m) => (
      match C.Send(s.client, m)
      case None => None
      case Some(c) => Some(s.(client := c, begun := true, up := s.up + [m])))
    case ClientTakes =>
      if s.down == [] then None
      else (
        match C.Receive(s.client, s.down[0])
        case None => None
        case Some(c) => Some(s.(client := c, down := s.down[1..])))
    case ServerSends(m) => (
      match G.Send(s.server, m)
      case None => None
      case Some(t) => Some(s.(server := t, down := s.down + [m])))
    case ServerTakes =>
      if s.up == [] then None
      else (
        match G.Receive(s.server, s.up[0])
        case None => None
        case Some(t) => Some(s.(server := t, up := s.up[1..])))
  }

  /* ---------- what can go wrong ---------- */

  /** States in which the client reads its channel. */
  predicate ClientReads(c: C.State) {
    !c.Ready? && !c.Building? && !c.BoundBuilding? && !c.CopyBothServerDone? && !c.Terminated?
  }

  /** States in which the server reads its channel. */
  predicate ServerReads(s: G.State) {
    || s.Ready? || s.Building? || s.ExtendedError? || s.SimpleCopyIn? || s.ExtendedCopyIn?
    || s.SimpleCopyBoth? || s.SimpleCopyBothServerDone? || s.ExtendedCopyBoth? || s.ExtendedCopyBothServerDone?
  }

  /** A side that reads finds a message it has no transition for. */
  predicate Unexpected(s: System) {
    || (s.down != [] && ClientReads(s.client) && C.Receive(s.client, s.down[0]).None?)
    || (s.up != [] && ServerReads(s.server) && G.Receive(s.server, s.up[0]).None?)
  }

  predicate Finished(s: System) {
    s.client.Terminated? && s.server.Terminated? && s.up == [] && s.down == []
  }

  ghost predicate Stuck(s: System) {
    forall move :: Next(s, move).None?
  }

  /* ---------- the runs the property is about ---------- */

  /** Messages of an extended batch before its Sync. */
  predicate InBatch(m: FrontendMessage) {
    m.Parse? || m.Bind? || m.Describe? || m.Execute? || m.Close? || m.Flush?
  }

  predicate OpensBatch(m: FrontendMessage) {
    m.Parse? || m.Bind? || m.Describe? || m.Close?
  }

  /** No Reset, no COPY BOTH, no COPY begun from Execute, and batches that open properly. */
  predicate Disciplined(s: System, move: Move) {
    match move
    case Decides(d) => !d.Reset?
    case ClientSends(m) => (s.client.Building? || s.client.BoundBuilding?) && !s.begun ==> OpensBatch(m)
    case ServerSends(m) =>
      !m.CopyBothResponse? && (s.server.ExecuteResponse? ==> !m.CopyInResponse? && !m.CopyOutResponse?)
    case _ => true
  }

  /* ---------- the invariant ---------- */

  predicate IsBuilding(c: C.State) {
    c.Building? || c.BoundBuilding?
  }

  /** What the client will read with: a client that is still building reads later, awaiting Ready. */
  function Reader(c: C.State): C.State {
    if IsBuilding(c) then C.AwaitingReady else c
  }

  /** What a listening client expects; COPY BOTH is never expected. */
  function Expect(c: C.State, m: BackendMessage): Option<C.State> {
    if (c.Simple? || c.FunctionCalling? || c.CopyOut? || c.AwaitingReady? || c.Draining?) && !m.CopyBothResponse?
    then C.Receive(c, m) else None
  }

  /** The client after reading a whole channel. */
  function Absorb(c: C.State, ms: seq<BackendMessage>): Option<C.State> {
    if ms == [] then Some(c)
    else match Absorb(c, ms[..|ms| - 1])
      case None => None
      case Some(d) => Expect(d, ms[|ms| - 1])
  }

  predicate AllInBatch(up: seq<FrontendMessage>, n: nat)
    requires n <= |up|
  {
    forall i :: 0 <= i < n ==> InBatch(up[i])
  }

  /** What is left of a batch on the way: everything up to its Sync, which a building client has not sent. */
  predicate BatchLeft(up: seq<FrontendMessage>, building: bool) {
    if building then AllInBatch(up, |up|)
    else up != [] && up[|up| - 1].Sync? && AllInBatch(up, |up| - 1)
  }

  /** COPY data, closed by its end or not. */
  predicate CopyLeft(up: seq<FrontendMessage>, ended: bool) {
    if ended then
      && up != [] && (up[|up| - 1].CopyDone? || up[|up| - 1].CopyFail?)
      && forall i :: 0 <= i < |up| - 1 ==> up[i].CopyData?
    else forall i :: 0 <= i < |up| ==> up[i].CopyData?
  }

  predicate Answering(s: G.State) {
    s.Building? || s.ParseResponse? || s.BindResponse? || s.DescribeResponse? || s.ExecuteResponse? || s.CloseResponse?
  }

  /** Where the server and its channel can be when the client, having read everything, is in `v`. */
  predicate Agrees(v: C.State, building: bool, begun: bool, up: seq<FrontendMessage>, s: G.State) {
    match v
    case Ready => !building && s.Ready? && up == []
    case Simple => !building && ((s.Ready? && |up| == 1 && up[0].Query?) || (s.Simple? && up == []))
    case FunctionCalling =>
      !building && ((s.Ready? && |up| == 1 && up[0].FunctionCall?) || (s.FunctionResponse? && up == []))
    case CopyIn => !building && s.SimpleCopyIn? && CopyLeft(up, false)
    case CopyOut => !building && s.SimpleCopyOut? && up == []
    case AwaitingReady =>
      || (s.Ready? && BatchLeft(up, building)
        && (if building && !begun then up == [] else up != [] && OpensBatch(up[0])))
      || (Answering(s) && BatchLeft(up, building) && (building ==> begun))
      || (!building && s.SimpleCopyIn? && CopyLeft(up, true))
      || (!building && up == [] && (s.SyncResponse? || s.SimpleCopyInDone? || s.SimpleCopyInFailed?
                                    || s.SimpleCopyOutDone? || s.SimpleCopyReady? || s.FunctionReady?))
    case Draining =>
      || (s.ExtendedError? && BatchLeft(up, building) && (building ==> begun))
      || (!building && up == [] && (s.SyncResponse? || s.SimpleError? || s.SimpleCopyReady? || s.FunctionReady?))
    case Terminated => !building && ((s.Ready? && |up| == 1 && up[0].Terminate?) || (s.Terminated? && up == []))
    case _ => false
  }

  predicate Invariant(s: System) {
    && Absorb(Reader(s.client), s.down).Some?
    && Agrees(Absorb(Reader(s.client), s.down).value, IsBuilding(s.client), s.begun, s.up, s.server)
  }

  /* ---------- every disciplined move keeps it ---------- */

  /** What the server says, the client will expect. */
  lemma ServerSendsAgree(v: C.State, building: bool, begun: bool, up: seq<FrontendMessage>, s: G.State,
                         m: BackendMessage)
    requires Agrees(v, building, begun, up, s) && G.Send(s, m).Some?
    requires !m.CopyBothResponse? && (s.ExecuteResponse? ==> !m.CopyInResponse? && !m.CopyOutResponse?)
    ensures Expect(v, m).Some? && Agrees(Expect(v, m).value, building, begun, up, G.Send(s, m).value)
  {
    match v
    case AwaitingReady => AwaitedAgree(building, begun, up, s, m);
    case Draining => DrainedAgree(building, begun, up, s, m);
    case _ =>
  }

  lemma AwaitedAgree(building: bool, begun: bool, up: seq<FrontendMessage>, s: G.State, m: BackendMessage)
    requires Agrees(C.AwaitingReady, building, begun, up, s) && G.Send(s, m).Some?
    requires !m.CopyBothResponse? && (s.ExecuteResponse? ==> !m.CopyInResponse? && !m.CopyOutResponse?)
    ensures Expect(C.AwaitingReady, m).Some?
      && Agrees(Expect(C.AwaitingReady, m).value, building, begun, up, G.Send(s, m).value)
  {
  }

  lemma DrainedAgree(building: bool, begun: bool, up: seq<FrontendMessage>, s: G.State, m: BackendMessage)
    requires Agrees(C.Draining, building, begun, up, s) && G.Send(s, m).Some? && !m.CopyBothResponse?
    ensures Expect(C.Draining, m).Some? && Agrees(Expect(C.Draining, m).value, building, begun, up, G.Send(s, m).value)
  {
  }

  /** What the server reads, it takes. */
  lemma ServerTakesAgree(v: C.State, building: bool, begun: bool, up: seq<FrontendMessage>, s: G.State)
    requires Agrees(v, building, begun, up, s) && up != [] && ServerReads(s)
    ensures G.Receive(s, up[0]).Some? && Agrees(v, building, begun, up[1..], G.Receive(s, up[0]).value)
  {
    match v
    case Simple =>
    case FunctionCalling =>
    case CopyIn =>
    case AwaitingReady =>
    case Draining =>
    case _ =>
  }

  /** What the client sends keeps agreement. */
  lemma ClientSendsAgree(c: C.State, begun: bool, up: seq<FrontendMessage>, s: G.State, v: C.State, m: FrontendMessage)
    requires C.Send(c, m).Some? && Agrees(v, IsBuilding(c), begun, up, s)
    requires !IsBuilding(c) ==> v == c
    requires IsBuilding(c) && !begun ==> OpensBatch(m)
    ensures !IsBuilding(c) ==> Agrees(Reader(C.Send(c, m).value), IsBuilding(C.Send(c, m).value), true, up + [m], s)
    ensures IsBuilding(c) ==>
      Agrees(v, IsBuilding(C.Send(c, m).value), true, up + [m], s) && Reader(C.Send(c, m).value) == C.AwaitingReady
  {
    var ups := up + [m];
    assert ups[|ups| - 1] == m;
    match c
    case Ready =>
    case CopyIn =>
    case Building =>
    case BoundBuilding =>
    case _ =>
  }

  lemma {:induction false} AbsorbFirst(c: C.State, ms: seq<BackendMessage>)
    requires ms != []
    ensures Absorb(c, ms) == match Expect(c, ms[0]) case None => None case Some(d) => Absorb(d, ms[1..])
    decreases ms
  {
    if |ms| > 1 {
      AbsorbFirst(c, ms[..|ms| - 1]);
      match Expect(c, ms[0])
      case None =>
      case Some(d) => assert ms[..|ms| - 1][1..] == ms[1..][..|ms[1..]| - 1];
    }
  }

  /** A client that may speak, and is not building a batch, has read everything. */
  lemma SpeakerHasRead(c: C.State, down: seq<BackendMessage>)
    requires Absorb(c, down).Some? && (c.Ready? || c.CopyIn? || c.CopyBoth? || c.CopyBothServerDone?)
    ensures down == []
  {
    if down != [] { AbsorbFirst(c, down); }
  }

  lemma MoveKeepsInvariant(s: System, move: Move)
    requires Invariant(s) && Disciplined(s, move) && Next(s, move).Some?
    ensures Invariant(Next(s, move).value)
  {
    match move
    case Decides(d) => DecisionKeepsInvariant(s, d);
    case ClientSends(m) => ClientSendKeepsInvariant(s, m);
    case ClientTakes => ClientTakesAgree(s);
    case ServerSends(m) => ServerSendKeepsInvariant(s, m);
    case ServerTakes => ServerTakeKeepsInvariant(s);
  }

  lemma DecisionKeepsInvariant(s: System, d: C.Silent)
    requires Invariant(s) && !d.Reset? && Next(s, Decides(d)).Some?
    ensures Invariant(Next(s, Decides(d)).value)
  {
    SpeakerHasRead(s.client, s.down);
  }

  lemma ClientSendKeepsInvariant(s: System, m: FrontendMessage)
    requires Invariant(s) && Disciplined(s, ClientSends(m)) && Next(s, ClientSends(m)).Some?
    ensures Invariant(Next(s, ClientSends(m)).value)
  {
    if !IsBuilding(s.client) {
      SenderSpeaks(s.client, m);
      SpeakerHasRead(s.client, s.down);
    }
    hide Agrees, C.Send;
    ClientSendsAgree(s.client, s.begun, s.up, s.server, Absorb(Reader(s.client), s.down).value, m);
  }

  lemma SenderSpeaks(c: C.State, m: FrontendMessage)
    requires C.Send(c, m).Some? && !IsBuilding(c)
    ensures c.Ready? || c.CopyIn? || c.CopyBoth? || c.CopyBothServerDone?
  {
  }

  lemma ServerSendKeepsInvariant(s: System, m: BackendMessage)
    requires Invariant(s) && Disciplined(s, ServerSends(m)) && Next(s, ServerSends(m)).Some?
    ensures Invariant(Next(s, ServerSends(m)).value)
  {
    hide Agrees, Expect, Absorb;
    AbsorbSnoc(Reader(s.client), s.down, m);
    ServerSendsAgree(Absorb(Reader(s.client), s.down).value, IsBuilding(s.client), s.begun, s.up, s.server, m);
  }

  lemma AbsorbSnoc(c: C.State, ms: seq<BackendMessage>, m: BackendMessage)
    ensures Absorb(c, ms + [m]) == match Absorb(c, ms) case None => None case Some(d) => Expect(d, m)
  {
    hide Expect;
    assert (ms + [m])[..|ms + [m]| - 1] == ms;
  }

  lemma ServerTakeKeepsInvariant(s: System)
    requires Invariant(s) && Next(s, ServerTakes).Some?
    ensures Invariant(Next(s, ServerTakes).value)
  {
    TakerReads(s.server, s.up[0]);
    hide Agrees;
    ServerTakesAgree(Absorb(Reader(s.client), s.down).value, IsBuilding(s.client), s.begun, s.up, s.server);
  }

  lemma TakerReads(s: G.State, m: FrontendMessage)
    requires G.Receive(s, m).Some?
    ensures ServerReads(s)
  {
  }

  lemma ClientTakesAgree(s: System)
    requires Invariant(s) && Next(s, ClientTakes).Some?
    ensures Invariant(Next(s, ClientTakes).value)
  {
    TakerListens(s.client, s.down[0]);
    hide Agrees;
    AbsorbFirst(s.client, s.down);
  }

  lemma TakerListens(c: C.State, m: BackendMessage)
    requires C.Receive(c, m).Some?
    ensures !IsBuilding(c) && !IsBuilding(C.Receive(c, m).value)
  {
  }

  /* ---------- safety ---------- */

  lemma InvariantIsSafe(s: System)
    requires Invariant(s)
    ensures !Unexpected(s)
  {
    var v := Absorb(Reader(s.client), s.down).value;
    if s.up != [] && ServerReads(s.server) {
      ServerTakesAgree(v, IsBuilding(s.client), s.begun, s.up, s.server);
    }
    if s.down != [] && ClientReads(s.client) {
      AbsorbFirst(s.client, s.down);
    }
  }

  /** Some response from every state in which the server answers. */
  lemma ServerCanSpeak(s: G.State) returns (m: BackendMessage)
    requires !ServerReads(s) && !s.Terminated?
    ensures G.Send(s, m).Some? && !m.CopyInResponse? && !m.CopyOutResponse? && !m.CopyBothResponse?
  {
    match s
    case ParseResponse => m := ParseComplete;
    case BindResponse => m := BindComplete;
    case DescribeResponse => m := NoData;
    case ExecuteResponse => m := CommandComplete([]);
    case CloseResponse => m := CloseComplete;
    case FunctionResponse => m := FunctionCallResponse([]);
    case SimpleCopyInDone => m := CommandComplete([]);
    case SimpleCopyInFailed => m := ErrorResponse([]);
    case SimpleCopyOut => m := BackendMessage.CopyDone;
    case SimpleCopyOutDone => m := CommandComplete([]);
    case ExtendedCopyInDone => m := CommandComplete([]);
    case ExtendedCopyInFailed => m := ErrorResponse([]);
    case ExtendedCopyOut => m := BackendMessage.CopyDone;
    case ExtendedCopyOutDone => m := CommandComplete([]);
    case SimpleCopyBothClientDone => m := BackendMessage.CopyDone;
    case SimpleCopyBothDone => m := CommandComplete([]);
    case SimpleCopyBothFailed => m := ErrorResponse([]);
    case ExtendedCopyBothClientDone => m := BackendMessage.CopyDone;
    case ExtendedCopyBothDone => m := CommandComplete([]);
    case ExtendedCopyBothFailed => m := ErrorResponse([]);
    case _ => m := ReadyForQuery(Idle);
  }

  /** Unless both sides have terminated, someone can move, and without breaking the discipline. */
  lemma InvariantIsLive(s: System) returns (move: Move)
    requires Invariant(s) && !Finished(s)
    ensures Disciplined(s, move) && Next(s, move).Some?
  {
    var v := Absorb(Reader(s.client), s.down).value;
    if s.client.Ready? {
      move := ClientSends(FrontendMessage.Query([]));
    } else if IsBuilding(s.client) {
      move := ClientSends(FrontendMessage.Parse([], [], []));
    } else if s.client.CopyIn? {
      move := ClientSends(FrontendMessage.CopyDone);
    } else if s.down != [] {
      AbsorbFirst(s.client, s.down);
      move := ClientTakes;
    } else if ServerReads(s.server) && s.up != [] {
      ServerTakesAgree(v, false, s.begun, s.up, s.server);
      move := ServerTakes;
    } else {
      ServerMustSpeak(v, s.begun, s.up, s.server);
      var m := ServerCanSpeak(s.server);
      move := ServerSends(m);
    }
  }

  /** A waiting client waits for a server that has something to read or to say. */
  lemma ServerMustSpeak(v: C.State, begun: bool, up: seq<FrontendMessage>, s: G.State)
    requires Agrees(v, false, begun, up, s) && !v.Ready? && !v.CopyIn? && !(ServerReads(s) && up != [])
    requires !(v.Terminated? && s.Terminated? && up == [])
    ensures !ServerReads(s) && !s.Terminated?
  {
  }

  function Run(s: System, moves: seq<Move>): Option<System>
    decreases moves
  {
    if moves == [] then Some(s)
    else match Next(s, moves[0])
      case None => None
      case Some(t) => Run(t, moves[1..])
  }

  predicate DisciplinedRun(s: System, moves: seq<Move>)
    decreases moves
  {
    moves != [] ==>
      && Disciplined(s, moves[0])
      && (Next(s, moves[0]).Some? ==> DisciplinedRun(Next(s, moves[0]).value, moves[1..]))
  }

  lemma {:induction false} RunsKeepInvariant(s: System, moves: seq<Move>)
    requires Invariant(s) && DisciplinedRun(s, moves) && Run(s, moves).Some?
    ensures Invariant(Run(s, moves).value)
    decreases moves
  {
    if moves != [] {
      MoveKeepsInvariant(s, moves[0]);
      RunsKeepInvariant(Next(s, moves[0]).value, moves[1..]);
    }
  }

  /** Two-party safety: in every disciplined run no side meets an unexpected message, and until
      both have terminated a disciplined move remains possible. */
  lemma TwoPartySafety(moves: seq<Move>)
    requires DisciplinedRun(INITIAL, moves) && Run(INITIAL, moves).Some?
    ensures !Unexpected(Run(INITIAL, moves).value)
    ensures var s := Run(INITIAL, moves).value;
      Finished(s) || exists move :: Disciplined(s, move) && Next(s, move).Some?
  {
    RunsKeepInvariant(INITIAL, moves);
    var s := Run(INITIAL, moves).value;
    InvariantIsSafe(s);
    if !Finished(s) {
      var move := InvariantIsLive(s);
    }
  }

  /* ---------- each restriction is needed ---------- */

  /** A batch may open with exactly these messages: after any other one the server, still Ready,
      finds something it cannot take. */
  lemma OpenersAreExact(s: System, m: FrontendMessage)
    requires Invariant(s) && s.client.Building? && !s.begun && C.Send(s.client, m).Some?
    ensures Unexpected(Next(s, ClientSends(m)).value) <==> !OpensBatch(m)
  {
    assert s.up == [] && s.up + [m] == [m];
    assert !ClientReads(C.Send(s.client, m).value) || m.Sync?;
    assert G.Receive(G.Ready, m).Some? <==> OpensBatch(m);
  }

  /** A COPY response to Execute is exactly what the client cannot take there. */
  lemma CopyFromExecuteIsUnexpected(v: C.State, building: bool, begun: bool, up: seq<FrontendMessage>, s: G.State,
                                    m: BackendMessage)
    requires Agrees(v, building, begun, up, s) && s.ExecuteResponse? && G.Send(s, m).Some?
    ensures C.Receive(v, m).None? <==> m.CopyInResponse? || m.CopyOutResponse? || m.CopyBothResponse?
  {
  }

  const IN_COPY_BOTH := System(C.CopyBoth, true, [], [], G.SimpleCopyBoth)

  lemma EntersCopyBoth(query: FrontendMessage, both: BackendMessage)
    requires query.Query? && both.CopyBothResponse?
    ensures Run(INITIAL, [ClientSends(query), ServerTakes, ServerSends(both), ClientTakes]) == Some(IN_COPY_BOTH)
  {
    var s0 := System(C.Simple, true, [query], [], G.Ready);
    var s1 := System(C.Simple, true, [], [], G.Simple);
    var s2 := System(C.Simple, true, [], [both], G.SimpleCopyBoth);
    assert [] + [query] == [query] && [query][1..] == [] && [] + [both] == [both] && [both][1..] == [];
    RunsFour(INITIAL, ClientSends(query), ServerTakes, ServerSends(both), ClientTakes, s0, s1, s2, IN_COPY_BOTH);
  }

  /** COPY messages on their way to the server. */
  predicate AllCopy(up: seq<FrontendMessage>) {
    forall i :: 0 <= i < |up| ==> up[i].CopyData? || up[i].CopyDone? || up[i].CopyFail?
  }

  /** The server fails and is Ready, with the client still in COPY BOTH. */
  function Fails(s: System, error: BackendMessage): System {
    s.(down := [error], server := G.SimpleCopyReady)
  }

  function FailsAndIsReady(s: System, error: BackendMessage, ready: BackendMessage): System {
    s.(down := [error] + [ready], server := G.Ready)
  }

  lemma ServerFails(s: System, error: BackendMessage, ready: BackendMessage)
    requires s.down == [] && s.server.SimpleCopyBoth? && error.ErrorResponse? && ready.ReadyForQuery?
    ensures Next(s, ServerSends(error)) == Some(Fails(s, error))
    ensures Next(Fails(s, error), ServerSends(ready)) == Some(FailsAndIsReady(s, error, ready))
  {
    assert [] + [error] == [error];
  }

  /** In COPY BOTH a server error and its ReadyForQuery leave a server that finds something it cannot
      take at that moment exactly when COPY messages were on the way, however many. */
  lemma CopyBothGoesWrong(s: System, error: BackendMessage, ready: BackendMessage)
    requires s.client.CopyBoth? && s.down == [] && s.server.SimpleCopyBoth? && AllCopy(s.up)
    requires error.ErrorResponse? && ready.ReadyForQuery?
    ensures var t := Run(s, [ServerSends(error), ServerSends(ready)]);
      t.Some? && (Unexpected(t.value) <==> s.up != [])
  {
    ServerFails(s, error, ready);
    RunsTwo(s, ServerSends(error), ServerSends(ready), Fails(s, error), FailsAndIsReady(s, error, ready));
    hide Run;
    CopyMeetsReady(FailsAndIsReady(s, error, ready));
  }

  lemma CopyMeetsReady(s: System)
    requires s.client.CopyBoth? && s.server.Ready? && AllCopy(s.up) && s.down != [] && s.down[0].ErrorResponse?
    ensures Unexpected(s) <==> s.up != []
  {
  }

  /** And whatever was on the way, the client may still send COPY data, which then goes wrong. */
  lemma CopyBothCanAlwaysGoWrong(s: System, error: BackendMessage, ready: BackendMessage, data: FrontendMessage)
    requires s.client.CopyBoth? && s.down == [] && s.server.SimpleCopyBoth? && AllCopy(s.up)
    requires error.ErrorResponse? && ready.ReadyForQuery? && data.CopyData?
    ensures var t := Run(s, [ServerSends(error), ServerSends(ready), ClientSends(data)]);
      t.Some? && Unexpected(t.value)
  {
    ServerFails(s, error, ready);
    var s2 := FailsAndIsReady(s, error, ready);
    var s3 := s2.(begun := true, up := s.up + [data]);
    RunsThree(s, ServerSends(error), ServerSends(ready), ClientSends(data), Fails(s, error), s2, s3);
    hide Run, Next;
    CopyMeetsReady(s3);
  }

  /** Only a client that sent nothing and reads the error first is safe: from then on it is back under
      the invariant. */
  lemma CopyBothErrorReadFirst(s: System, error: BackendMessage, ready: BackendMessage)
    requires s.client.CopyBoth? && s.down == [] && s.server.SimpleCopyBoth? && s.up == []
    requires error.ErrorResponse? && ready.ReadyForQuery?
    ensures var t := Run(s, [ServerSends(error), ServerSends(ready), ClientTakes]);
      t.Some? && Invariant(t.value)
  {
    ServerFails(s, error, ready);
    var s2 := FailsAndIsReady(s, error, ready);
    var s3 := s2.(client := C.Draining, down := [ready]);
    TakesError(s2, error, ready);
    hide Next, Invariant;
    RunsThree(s, ServerSends(error), ServerSends(ready), ClientTakes, Fails(s, error), s2, s3);
    DrainsToReady(s3, ready);
  }

  lemma TakesError(s: System, error: BackendMessage, ready: BackendMessage)
    requires s.client.CopyBoth? && s.down == [error] + [ready] && error.ErrorResponse?
    ensures Next(s, ClientTakes) == Some(s.(client := C.Draining, down := [ready]))
  {
    assert ([error] + [ready])[1..] == [ready];
  }

  lemma DrainsToReady(s: System, ready: BackendMessage)
    requires s.client.Draining? && s.down == [ready] && s.up == [] && s.server.Ready? && ready.ReadyForQuery?
    ensures Invariant(s)
  {
    assert [ready][..0] == [];
    assert Absorb(C.Draining, [ready]) == Expect(C.Draining, ready);
  }

  lemma RunsTwo(s: System, a: Move, b: Move, s0: System, s1: System)
    requires Next(s, a) == Some(s0) && Next(s0, b) == Some(s1)
    ensures Run(s, [a, b]) == Some(s1)
  {
    assert [a, b][1..] == [b] && [b][1..] == [];
    assert Run(s1, []) == Some(s1);
    assert Run(s0, [b]) == Some(s1);
  }

  lemma RunsThree(s: System, a: Move, b: Move, c: Move, s0: System, s1: System, s2: System)
    requires Next(s, a) == Some(s0) && Next(s0, b) == Some(s1) && Next(s1, c) == Some(s2)
    ensures Run(s, [a, b, c]) == Some(s2)
  {
    assert [a, b, c][1..] == [b, c] && [b, c][1..] == [c] && [c][1..] == [];
    assert Run(s2, []) == Some(s2);
    assert Run(s1, [c]) == Some(s2);
    assert Run(s0, [b, c]) == Some(s2);
  }

  lemma RunsFour(s: System, a: Move, b: Move, c: Move, d: Move, s0: System, s1: System, s2: System, s3: System)
    requires Next(s, a) == Some(s0) && Next(s0, b) == Some(s1) && Next(s1, c) == Some(s2) && Next(s2, d) == Some(s3)
    ensures Run(s, [a, b, c, d]) == Some(s3)
  {
    assert [a, b, c, d][1..] == [b, c, d];
    RunsThree(s0, b, c, d, s1, s2, s3);
  }

  /** Reset sends nothing of its own, so the pair is stuck at once, whenever it happens. */
  lemma ResetIsStuck(s: System)
    requires Invariant(s) && s.client.Ready?
    ensures Next(s, Decides(C.Reset)).Some? && Stuck(Next(s, Decides(C.Reset)).value)
  {
    SpeakerHasRead(s.client, s.down);
    var t := Next(s, Decides(C.Reset)).value;
    forall move ensures Next(t, move).None? {
      match move
      case _ =>
    }
  }
}
