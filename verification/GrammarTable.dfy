/** The grammars read the other way: for every message, the phases that take it and where they go.
    The tables in ServerGrammar.dfy and ClientGrammar.dfy are written phase by phase; these lemmas say
    exactly, for every phase and every message, what is taken and what is not. */
module GrammarTables {
  import opened Messages
  import G = ServerGrammar
  import C = ClientGrammar

  /* ---------- what the server may say ---------- */

  /** Phases of an extended operation in which an error ends the batch. */
  predicate FailsBatch(s: G.State) {
    || s.ParseResponse? || s.BindResponse? || s.DescribeResponse? || s.ExecuteResponse? || s.CloseResponse?
    || s.ExtendedCopyInDone? || s.ExtendedCopyInFailed? || s.ExtendedCopyOut?
    || s.ExtendedCopyBoth? || s.ExtendedCopyBothClientDone? || s.ExtendedCopyBothFailed?
  }

  /** Phases of a simple COPY in which an error leaves only the ReadyForQuery. */
  predicate FailsCopy(s: G.State) {
    || s.SimpleCopyInDone? || s.SimpleCopyInFailed? || s.SimpleCopyOut?
    || s.SimpleCopyBoth? || s.SimpleCopyBothClientDone? || s.SimpleCopyBothFailed?
  }

  /** Phases in which the server streams COPY data. */
  predicate Streams(s: G.State) {
    || s.SimpleCopyOut? || s.SimpleCopyBoth? || s.SimpleCopyBothClientDone?
    || s.ExtendedCopyOut? || s.ExtendedCopyBoth? || s.ExtendedCopyBothClientDone?
  }

  function AfterServerCopyDone(s: G.State): Option<G.State> {
    match s
    case SimpleCopyOut => Some(G.SimpleCopyOutDone)
    case ExtendedCopyOut => Some(G.ExtendedCopyOutDone)
    case SimpleCopyBoth => Some(G.SimpleCopyBothServerDone)
    case ExtendedCopyBoth => Some(G.ExtendedCopyBothServerDone)
    case SimpleCopyBothClientDone => Some(G.SimpleCopyBothDone)
    case ExtendedCopyBothClientDone => Some(G.ExtendedCopyBothDone)
    case _ => None
  }

  function AfterCommandComplete(s: G.State): Option<G.State> {
    if s.Simple? then Some(s)
    else if s.SimpleCopyInDone? || s.SimpleCopyOutDone? || s.SimpleCopyBothDone? then Some(G.SimpleCopyReady)
    else if s.ExecuteResponse? || s.ExtendedCopyInDone? || s.ExtendedCopyOutDone? || s.ExtendedCopyBothDone? then
      Some(G.Building)
    else None
  }

  function AfterError(s: G.State): Option<G.State> {
    if s.Simple? then Some(G.SimpleError)
    else if s.FunctionResponse? then Some(G.FunctionReady)
    else if FailsCopy(s) then Some(G.SimpleCopyReady)
    else if FailsBatch(s) then Some(G.ExtendedError)
    else None
  }

  function Only(taken: bool, t: G.State): Option<G.State> {
    if taken then Some(t) else None
  }

  /** For every response, the phases that take it and where they go. */
  function Said(s: G.State, m: BackendMessage): Option<G.State> {
    match m
    case RowDescription(_) =>
      if s.DescribeResponse? then Some(G.Building) else Only(s.Simple? || s.ExecuteResponse?, s)
    case DataRow(_) => Only(s.Simple? || s.ExecuteResponse?, s)
    case EmptyQueryResponse => Only(s.Simple? || s.ExecuteResponse?, s)
    case CommandComplete(_) => AfterCommandComplete(s)
    case PortalSuspended => Only(s.ExecuteResponse?, G.Building)
    case ParseComplete => Only(s.ParseResponse?, G.Building)
    case BindComplete => Only(s.BindResponse?, G.Building)
    case CloseComplete => Only(s.CloseResponse?, G.Building)
    case NoData => Only(s.DescribeResponse?, G.Building)
    case ParameterDescription(_) => Only(s.DescribeResponse?, s)
    case FunctionCallResponse(_) => Only(s.FunctionResponse?, G.FunctionReady)
    case ReadyForQuery(_) =>
      Only(s.Simple? || s.SimpleError? || s.SyncResponse? || s.FunctionReady? || s.SimpleCopyReady?, G.Ready)
    case ErrorResponse(_) => AfterError(s)
    case CopyInResponse(_, _) =>
      if s.Simple? then Some(G.SimpleCopyIn) else Only(s.ExecuteResponse?, G.ExtendedCopyIn)
    case CopyOutResponse(_, _) =>
      if s.Simple? then Some(G.SimpleCopyOut) else Only(s.ExecuteResponse?, G.ExtendedCopyOut)
    case CopyBothResponse(_, _) =>
      if s.Simple? then Some(G.SimpleCopyBoth) else Only(s.ExecuteResponse?, G.ExtendedCopyBoth)
    case CopyData(_) => Only(Streams(s), s)
    case CopyDone => AfterServerCopyDone(s)
    case AuthenticationRequest(_) => None
    case NegotiateProtocolVersion(_, _, _) => None
    case ParameterStatus(_, _) => None
    case NoticeResponse(_) => None
    case NotificationResponse(_, _, _) => None
    case BackendKeyData(_, _) => None
  }

  /** The phases between and behind COPY. */
  predicate InCopy(s: G.State) {
    || CopiesIn(s) || Streams(s) || s.SimpleCopyInDone? || s.SimpleCopyInFailed? || s.SimpleCopyOutDone?
    || s.SimpleCopyBothDone? || s.SimpleCopyBothFailed? || s.SimpleCopyReady? || s.ExtendedCopyInDone?
    || s.ExtendedCopyInFailed? || s.ExtendedCopyOutDone? || s.ExtendedCopyBothDone? || s.ExtendedCopyBothFailed?
  }

  lemma SaidStreaming(s: G.State, m: BackendMessage)
    requires Streams(s)
    ensures G.Send(s, m) == Said(s, m)
  {
  }

  lemma SaidCopyingIn(s: G.State, m: BackendMessage)
    requires CopiesIn(s) && !Streams(s)
    ensures G.Send(s, m) == Said(s, m)
  {
  }

  lemma SaidAround(s: G.State, m: BackendMessage)
    requires InCopy(s) && !CopiesIn(s) && !Streams(s)
    ensures G.Send(s, m) == Said(s, m)
  {
  }

  lemma SaidInQueries(s: G.State, m: BackendMessage)
    requires s.Simple? || s.ExecuteResponse? || s.DescribeResponse?
    ensures G.Send(s, m) == Said(s, m)
  {
  }

  lemma SaidElsewhere(s: G.State, m: BackendMessage)
    requires !InCopy(s) && !s.Simple? && !s.ExecuteResponse? && !s.DescribeResponse?
    ensures G.Send(s, m) == Said(s, m)
  {
  }

  /** Every response, in every phase: exactly these are taken, with exactly these targets. */
  lemma ResponsesExactly(s: G.State, m: BackendMessage)
    ensures G.Send(s, m) == Said(s, m)
  {
    hide Said, InCopy, Streams, CopiesIn;
    if Streams(s) {
      SaidStreaming(s, m);
    } else if CopiesIn(s) {
      SaidCopyingIn(s, m);
    } else if InCopy(s) {
      SaidAround(s, m);
    } else if s.Simple? || s.ExecuteResponse? || s.DescribeResponse? {
      SaidInQueries(s, m);
    } else {
      SaidElsewhere(s, m);
    }
  }

  /* ---------- what the server takes ---------- */

  /** Phases in which the client streams COPY data. */
  predicate CopiesIn(s: G.State) {
    || s.SimpleCopyIn? || s.ExtendedCopyIn? || s.SimpleCopyBoth? || s.ExtendedCopyBoth?
    || s.SimpleCopyBothServerDone? || s.ExtendedCopyBothServerDone?
  }

  function AfterClientCopyDone(s: G.State): Option<G.State> {
    match s
    case SimpleCopyIn => Some(G.SimpleCopyInDone)
    case ExtendedCopyIn => Some(G.ExtendedCopyInDone)
    case SimpleCopyBoth => Some(G.SimpleCopyBothClientDone)
    case ExtendedCopyBoth => Some(G.ExtendedCopyBothClientDone)
    case SimpleCopyBothServerDone => Some(G.SimpleCopyBothDone)
    case ExtendedCopyBothServerDone => Some(G.ExtendedCopyBothDone)
    case _ => None
  }

  function AfterCopyFail(s: G.State): Option<G.State> {
    match s
    case SimpleCopyIn => Some(G.SimpleCopyInFailed)
    case ExtendedCopyIn => Some(G.ExtendedCopyInFailed)
    case SimpleCopyBoth => Some(G.SimpleCopyBothFailed)
    case SimpleCopyBothServerDone => Some(G.SimpleCopyBothFailed)
    case ExtendedCopyBoth => Some(G.ExtendedCopyBothFailed)
    case ExtendedCopyBothServerDone => Some(G.ExtendedCopyBothFailed)
    case _ => None
  }

  /** For every client message, the phases that take it: a failed batch takes everything and keeps failing
      up to its Sync. */
  function Asked(s: G.State, m: FrontendMessage): Option<G.State> {
    if s.ExtendedError? then Some(if m.Sync? then G.SyncResponse else s)
    else
      match m
      case Query(_) => Only(s.Ready?, G.Simple)
      case FunctionCall(_, _, _, _) => Only(s.Ready?, G.FunctionResponse)
      case Terminate => Only(s.Ready?, G.Terminated)
      case Parse(_, _, _) => Only(s.Ready? || s.Building?, G.ParseResponse)
      case Bind(_, _, _, _, _) => Only(s.Ready? || s.Building?, G.BindResponse)
      case Describe(_, _) => Only(s.Ready? || s.Building?, G.DescribeResponse)
      case Execute(_, _) => Only(s.Ready? || s.Building?, G.ExecuteResponse)
      case Close(_, _) => Only(s.Ready? || s.Building?, G.CloseResponse)
      case Flush => Only(s.Building?, G.Building)
      case Sync => Only(s.Building?, G.SyncResponse)
      case CopyData(_) => Only(CopiesIn(s), s)
      case CopyDone => AfterClientCopyDone(s)
      case CopyFail(_) => AfterCopyFail(s)
      case PasswordResponse(_) => None
  }

  lemma AskedInCopy(s: G.State, m: FrontendMessage)
    requires CopiesIn(s)
    ensures G.Receive(s, m) == Asked(s, m)
  {
  }

  lemma AskedElsewhere(s: G.State, m: FrontendMessage)
    requires !CopiesIn(s)
    ensures G.Receive(s, m) == Asked(s, m)
  {
  }

  /** Every client message, in every phase: exactly these are taken, with exactly these targets. */
  lemma RequestsExactly(s: G.State, m: FrontendMessage)
    ensures G.Receive(s, m) == Asked(s, m)
  {
    hide Asked, CopiesIn;
    if CopiesIn(s) { AskedInCopy(s, m); } else { AskedElsewhere(s, m); }
  }

  /* ---------- the client's side ---------- */

  function OnlyClient(taken: bool, t: C.State): Option<C.State> {
    if taken then Some(t) else None
  }

  predicate Resets(c: C.State) {
    c.Resetting? || c.ResetComplete?
  }

  /** Messages of a batch while the client waits for its end, in error or not. */
  predicate WaitsFor(c: C.State) {
    c.AwaitingReady? || c.Draining?
  }

  /** Every response, in every state of the client. */
  lemma ClientTakesExactly(c: C.State, m: BackendMessage)
    ensures C.Receive(c, m) ==
      match m
      case RowDescription(_) => OnlyClient(c.Simple? || WaitsFor(c) || Resets(c), c)
      case DataRow(_) => OnlyClient(c.Simple? || WaitsFor(c) || Resets(c), c)
      case EmptyQueryResponse => OnlyClient(c.Simple? || WaitsFor(c) || Resets(c), c)
      case CommandComplete(_) =>
        if Resets(c) then Some(C.ResetComplete) else OnlyClient(c.Simple? || WaitsFor(c), c)
      case ParseComplete => OnlyClient(WaitsFor(c), c)
      case BindComplete => OnlyClient(WaitsFor(c), c)
      case CloseComplete => OnlyClient(WaitsFor(c), c)
      case NoData => OnlyClient(WaitsFor(c), c)
      case ParameterDescription(_) => OnlyClient(WaitsFor(c), c)
      case PortalSuspended => OnlyClient(WaitsFor(c), c)
      case FunctionCallResponse(_) => OnlyClient(c.FunctionCalling?, C.AwaitingReady)
      case CopyInResponse(_, _) => OnlyClient(c.Simple?, C.CopyIn)
      case CopyOutResponse(_, _) => OnlyClient(c.Simple?, C.CopyOut)
      case CopyBothResponse(_, _) => OnlyClient(c.Simple?, C.CopyBoth)
      case CopyData(_) => OnlyClient(c.CopyOut? || c.CopyBoth? || c.CopyBothClientDone?, c)
      case CopyDone =>
        if c.CopyBoth? then Some(C.CopyBothServerDone)
        else OnlyClient(c.CopyOut? || c.CopyBothClientDone?, C.AwaitingReady)
      case ReadyForQuery(_) => OnlyClient(c.Simple? || WaitsFor(c) || c.ResetComplete?, C.Ready)
      case ErrorResponse(_) =>
        OnlyClient(c.Simple? || c.FunctionCalling? || c.AwaitingReady? || c.CopyIn? || c.CopyOut? || c.CopyBoth?
                   || c.CopyBothClientDone? || Resets(c), C.Draining)
      case _ => None
  {
    match m
    case CommandComplete(_) =>
    case CopyDone =>
    case ErrorResponse(_) =>
    case ReadyForQuery(_) =>
    case _ =>
  }

  predicate Builds(c: C.State) {
    c.Building? || c.BoundBuilding?
  }

  /** Every client message, in every state of the client; Execute needs a Bind in front of it. */
  lemma ClientSendsExactly(c: C.State, m: FrontendMessage)
    ensures C.Send(c, m) ==
      match m
      case Query(_) => OnlyClient(c.Ready?, C.Simple)
      case FunctionCall(_, _, _, _) => OnlyClient(c.Ready?, C.FunctionCalling)
      case Terminate => OnlyClient(c.Ready?, C.Terminated)
      case Parse(_, _, _) => OnlyClient(Builds(c), c)
      case Describe(_, _) => OnlyClient(Builds(c), c)
      case Close(_, _) => OnlyClient(Builds(c), c)
      case Flush => OnlyClient(Builds(c), c)
      case Bind(_, _, _, _, _) => OnlyClient(Builds(c), C.BoundBuilding)
      case Execute(_, _) => OnlyClient(c.BoundBuilding?, c)
      case Sync => OnlyClient(Builds(c), C.AwaitingReady)
      case CopyData(_) => OnlyClient(c.CopyIn? || c.CopyBoth? || c.CopyBothServerDone?, c)
      case CopyDone =>
        if c.CopyBoth? then Some(C.CopyBothClientDone)
        else OnlyClient(c.CopyIn? || c.CopyBothServerDone?, C.AwaitingReady)
      case CopyFail(_) => OnlyClient(c.CopyIn?, C.AwaitingReady)
      case PasswordResponse(_) => None
  {
  }

  lemma ClientDecidesExactly(c: C.State, d: C.Silent)
    ensures C.Decide(c, d) == OnlyClient(c.Ready?, if d.Reset? then C.Resetting else C.Building)
  {
  }
}
