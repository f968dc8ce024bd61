/** The server-role grammar `grammar::backend` (src/grammar.rs:365-635).

    Each line of the source table names a source state, an event, a target state and the wire
    messages that project onto the event.  An event is unique within its source state, so the
    pair of generated functions `project_*` and `transition` is the partial function from a state
    and a message to the target state.  `Receive` is that function for the peer-initiated
    (external) lines and `Send` for the role-initiated (internal) lines. */
module ServerGrammar {
  import opened Messages

  datatype State =
    | Ready
    | Simple
    | SimpleError
    | Building
    | ParseResponse
    | BindResponse
    | DescribeResponse
    | ExecuteResponse
    | CloseResponse
    | ExtendedError
    | SyncResponse
    | FunctionResponse
    | FunctionReady
    | SimpleCopyIn
    | SimpleCopyInDone
    | SimpleCopyInFailed
    | SimpleCopyOut
    | SimpleCopyOutDone
    | SimpleCopyReady
    | ExtendedCopyIn
    | ExtendedCopyInDone
    | ExtendedCopyInFailed
    | ExtendedCopyOut
    | ExtendedCopyOutDone
    | SimpleCopyBoth
    | SimpleCopyBothClientDone
    | SimpleCopyBothServerDone
    | SimpleCopyBothDone
    | SimpleCopyBothFailed
    | ExtendedCopyBoth
    | ExtendedCopyBothClientDone
    | ExtendedCopyBothServerDone
    | ExtendedCopyBothDone
    | ExtendedCopyBothFailed
    | Terminated

  /** Peer-initiated transitions: what the server does with a client message. */
  function Receive(s: State, m: FrontendMessage): Option<State> {
    match s
    case Ready => (
      match m
      case Query(_) => Some(Simple)
      case Parse(_, _, _) => Some(ParseResponse)
      case Bind(_, _, _, _, _) => Some(BindResponse)
      case Describe(_, _) => Some(DescribeResponse)
      case Execute(_, _) => Some(ExecuteResponse)
      case Close(_, _) => Some(CloseResponse)
      case FunctionCall(_, _, _, _) => Some(FunctionResponse)
      case Terminate => Some(Terminated)
      case _ => None)
    case Building => (
      match m
      case Parse(_, _, _) => Some(ParseResponse)
      case Bind(_, _, _, _, _) => Some(BindResponse)
      case Describe(_, _) => Some(DescribeResponse)
      case Execute(_, _) => Some(ExecuteResponse)
      case Close(_, _) => Some(CloseResponse)
      case Flush => Some(Building)
      case Sync => Some(SyncResponse)
      case _ => None)
    case ExtendedError =>
      if m.Sync? then Some(SyncResponse) else Some(ExtendedError)
    case SimpleCopyIn => (
      match m
      case CopyData(_) => Some(SimpleCopyIn)
      case CopyDone => Some(SimpleCopyInDone)
      case CopyFail(_) => Some(SimpleCopyInFailed)
      case _ => None)
    case ExtendedCopyIn => (
      match m
      case CopyData(_) => Some(ExtendedCopyIn)
      case CopyDone => Some(ExtendedCopyInDone)
      case CopyFail(_) => Some(ExtendedCopyInFailed)
      case _ => None)
    case SimpleCopyBoth => (
      match m
      case CopyData(_) => Some(SimpleCopyBoth)
      case CopyDone => Some(SimpleCopyBothClientDone)
      case CopyFail(_) => Some(SimpleCopyBothFailed)
      case _ => None)
    case SimpleCopyBothServerDone => (
      match m
      case CopyData(_) => Some(SimpleCopyBothServerDone)
      case CopyDone => Some(SimpleCopyBothDone)
      case CopyFail(_) => Some(SimpleCopyBothFailed)
      case _ => None)
    case ExtendedCopyBoth => (
      match m
      case CopyData(_) => Some(ExtendedCopyBoth)
      case CopyDone => Some(ExtendedCopyBothClientDone)
      case CopyFail(_) => Some(ExtendedCopyBothFailed)
      case _ => None)
    case ExtendedCopyBothServerDone => (
      match m
      case CopyData(_) => Some(ExtendedCopyBothServerDone)
      case CopyDone => Some(ExtendedCopyBothDone)
      case CopyFail(_) => Some(ExtendedCopyBothFailed)
      case _ => None)
    case _ => None
  }

  /** Role-initiated transitions: what the server may say. */
  function Send(s: State, m: BackendMessage): Option<State> {
    match s
    case Simple => (
      match m
      case RowDescription(_) => Some(Simple)
      case DataRow(_) => Some(Simple)
      case CommandComplete(_) => Some(Simple)
      case EmptyQueryResponse => Some(Simple)
      case CopyInResponse(_, _) => Some(SimpleCopyIn)
      case CopyOutResponse(_, _) => Some(SimpleCopyOut)
      case CopyBothResponse(_, _) => Some(SimpleCopyBoth)
      case ReadyForQuery(_) => Some(Ready)
      case ErrorResponse(_) => Some(SimpleError)
      case _ => None)
    case SimpleError => if m.ReadyForQuery? then Some(Ready) else None
    case ParseResponse => (
      match m
      case ParseComplete => Some(Building)
      case ErrorResponse(_) => Some(ExtendedError)
      case _ => None)
    case BindResponse => (
      match m
      case BindComplete => Some(Building)
      case ErrorResponse(_) => Some(ExtendedError)
      case _ => None)
    case DescribeResponse => (
      match m
      case ParameterDescription(_) => Some(DescribeResponse)
      case RowDescription(_) => Some(Building)
      case NoData => Some(Building)
      case ErrorResponse(_) => Some(ExtendedError)
      case _ => None)
    case ExecuteResponse => (
      match m
      case RowDescription(_) => Some(ExecuteResponse)
      case DataRow(_) => Some(ExecuteResponse)
      case EmptyQueryResponse => Some(ExecuteResponse)
      case CopyInResponse(_, _) => Some(ExtendedCopyIn)
      case CopyOutResponse(_, _) => Some(ExtendedCopyOut)
      case CopyBothResponse(_, _) => Some(ExtendedCopyBoth)
      case CommandComplete(_) => Some(Building)
      case PortalSuspended => Some(Building)
      case ErrorResponse(_) => Some(ExtendedError)
      case _ => None)
    case CloseResponse => (
      match m
      case CloseComplete => Some(Building)
      case ErrorResponse(_) => Some(ExtendedError)
      case _ => None)
    case SyncResponse => if m.ReadyForQuery? then Some(Ready) else None
    case FunctionResponse => (
      match m
      case FunctionCallResponse(_) => Some(FunctionReady)
      case ErrorResponse(_) => Some(FunctionReady)
      case _ => None)
    case FunctionReady => if m.ReadyForQuery? then Some(Ready) else None
    case SimpleCopyInDone => (
      match m
      case CommandComplete(_) => Some(SimpleCopyReady)
      case ErrorResponse(_) => Some(SimpleCopyReady)
      case _ => None)
    case SimpleCopyInFailed => if m.ErrorResponse? then Some(SimpleCopyReady) else None
    case SimpleCopyOut => (
      match m
      case CopyData(_) => Some(SimpleCopyOut)
      case CopyDone => Some(SimpleCopyOutDone)
      case ErrorResponse(_) => Some(SimpleCopyReady)
      case _ => None)
    case SimpleCopyOutDone => if m.CommandComplete? then Some(SimpleCopyReady) else None
    case SimpleCopyReady => if m.ReadyForQuery? then Some(Ready) else None
    case ExtendedCopyInDone => (
      match m
      case CommandComplete(_) => Some(Building)
      case ErrorResponse(_) => Some(ExtendedError)
      case _ => None)
    case ExtendedCopyInFailed => if m.ErrorResponse? then Some(ExtendedError) else None
    case ExtendedCopyOut => (
      match m
      case CopyData(_) => Some(ExtendedCopyOut)
      case CopyDone => Some(ExtendedCopyOutDone)
      case ErrorResponse(_) => Some(ExtendedError)
      case _ => None)
    case ExtendedCopyOutDone => if m.CommandComplete? then Some(Building) else None
    case SimpleCopyBoth => (
      match m
      case CopyData(_) => Some(SimpleCopyBoth)
      case CopyDone => Some(SimpleCopyBothServerDone)
      case ErrorResponse(_) => Some(SimpleCopyReady)
      case _ => None)
    case SimpleCopyBothClientDone => (
      match m
      case CopyData(_) => Some(SimpleCopyBothClientDone)
      case CopyDone => Some(SimpleCopyBothDone)
      case ErrorResponse(_) => Some(SimpleCopyReady)
      case _ => None)
    case SimpleCopyBothDone => if m.CommandComplete? then Some(SimpleCopyReady) else None
    case SimpleCopyBothFailed => if m.ErrorResponse? then Some(SimpleCopyReady) else None
    case ExtendedCopyBoth => (
      match m
      case CopyData(_) => Some(ExtendedCopyBoth)
      case CopyDone => Some(ExtendedCopyBothServerDone)
      case ErrorResponse(_) => Some(ExtendedError)
      case _ => None)
    case ExtendedCopyBothClientDone => (
      match m
      case CopyData(_) => Some(ExtendedCopyBothClientDone)
      case CopyDone => Some(ExtendedCopyBothDone)
      case ErrorResponse(_) => Some(ExtendedError)
      case _ => None)
    case ExtendedCopyBothDone => if m.CommandComplete? then Some(Building) else None
    case ExtendedCopyBothFailed => if m.ErrorResponse? then Some(ExtendedError) else None
    case _ => None
  }

  /** One message of a sequential session, in either direction. */
  datatype Message = FromClient(request: FrontendMessage) | FromServer(response: BackendMessage)

  function Step(s: State, m: Message): Option<State> {
    match m
    case FromClient(request) => Receive(s, request)
    case FromServer(response) => Send(s, response)
  }

  /** Runs the grammar over a whole message sequence; None as soon as one message is illegal. */
  function Run(s: State, ms: seq<Message>): Option<State>
    decreases ms
  {
    if ms == [] then Some(s)
    else match Step(s, ms[0])
      case None => None
      case Some(t) => Run(t, ms[1..])
  }

  lemma {:induction false} RunConcat(s: State, ms: seq<Message>, ns: seq<Message>)
    ensures Run(s, ms + ns) == match Run(s, ms) case None => None case Some(t) => Run(t, ns)
    decreases ms
  {
    if ms == [] {
      assert ms + ns == ns;
    } else {
      assert (ms + ns)[1..] == ms[1..] + ns;
      match Step(s, ms[0])
      case None =>
      case Some(t) => RunConcat(t, ms[1..], ns);
    }
  }
}
