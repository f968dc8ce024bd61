/** The client-role grammar `grammar::frontend` (src/grammar.rs:10-160), read like the server's:
    `Send` for the role-initiated lines that carry a message, `Receive` for the peer-initiated ones. */
module ClientGrammar {
  import opened Messages

  datatype State =
    | Ready
    | FunctionCalling
    | Simple
    | Building
    | BoundBuilding
    | AwaitingReady
    | CopyIn
    | CopyOut
    | CopyBoth
    | CopyBothClientDone
    | CopyBothServerDone
    | Draining
    | Resetting
    | ResetComplete
    | Terminated

  /** Role-initiated transitions without a message of their own. */
  datatype Silent = BeginExtended | Reset

  function Decide(s: State, d: Silent): Option<State> {
    if !s.Ready? then None
    else match d
      case BeginExtended => Some(Building)
      case Reset => Some(Resetting)
  }

  function Send(s: State, m: FrontendMessage): Option<State> {
    match s
    case Ready => (
      match m
      case Query(_) => Some(Simple)
      case FunctionCall(_, _, _, _) => Some(FunctionCalling)
      case Terminate => Some(Terminated)
      case _ => None)
    case Building => (
      match m
      case Parse(_, _, _) => Some(Building)
      case Describe(_, _) => Some(Building)
      case Bind(_, _, _, _, _) => Some(BoundBuilding)
      case Close(_, _) => Some(Building)
      case Flush => Some(Building)
      case Sync => Some(AwaitingReady)
      case _ => None)
    case BoundBuilding => (
      match m
      case Parse(_, _, _) => Some(BoundBuilding)
      case Describe(_, _) => Some(BoundBuilding)
      case Bind(_, _, _, _, _) => Some(BoundBuilding)
      case Execute(_, _) => Some(BoundBuilding)
      case Close(_, _) => Some(BoundBuilding)
      case Flush => Some(BoundBuilding)
      case Sync => Some(AwaitingReady)
      case _ => None)
    case CopyIn => (
      match m
      case CopyData(_) => Some(CopyIn)
      case CopyDone => Some(AwaitingReady)
      case CopyFail(_) => Some(AwaitingReady)
      case _ => None)
    case CopyBoth => (
      match m
      case CopyData(_) => Some(CopyBoth)
      case CopyDone => Some(CopyBothClientDone)
      case _ => None)
    case CopyBothServerDone => (
      match m
      case CopyData(_) => Some(CopyBothServerDone)
      case CopyDone => Some(AwaitingReady)
      case _ => None)
    case _ => None
  }

  function Receive(s: State, m: BackendMessage): Option<State> {
    match s
    case FunctionCalling => (
      match m
      case FunctionCallResponse(_) => Some(AwaitingReady)
      case ErrorResponse(_) => Some(Draining)
      case _ => None)
    case Simple => (
      match m
      case RowDescription(_) => Some(Simple)
      case DataRow(_) => Some(Simple)
      case CommandComplete(_) => Some(Simple)
      case EmptyQueryResponse => Some(Simple)
      case CopyInResponse(_, _) => Some(CopyIn)
      case CopyOutResponse(_, _) => Some(CopyOut)
      case CopyBothResponse(_, _) => Some(CopyBoth)
      case ReadyForQuery(_) => Some(Ready)
      case ErrorResponse(_) => Some(Draining)
      case _ => None)
    case AwaitingReady => (
      match m
      case ParseComplete => Some(AwaitingReady)
      case BindComplete => Some(AwaitingReady)
      case CloseComplete => Some(AwaitingReady)
      case RowDescription(_) => Some(AwaitingReady)
      case NoData => Some(AwaitingReady)
      case ParameterDescription(_) => Some(AwaitingReady)
      case DataRow(_) => Some(AwaitingReady)
      case CommandComplete(_) => Some(AwaitingReady)
      case PortalSuspended => Some(AwaitingReady)
      case EmptyQueryResponse => Some(AwaitingReady)
      case ReadyForQuery(_) => Some(Ready)
      case ErrorResponse(_) => Some(Draining)
      case _ => None)
    case CopyIn => if m.ErrorResponse? then Some(Draining) else None
    case CopyOut => (
      match m
      case CopyData(_) => Some(CopyOut)
      case CopyDone => Some(AwaitingReady)
      case ErrorResponse(_) => Some(Draining)
      case _ => None)
    case CopyBoth => (
      match m
      case CopyData(_) => Some(CopyBoth)
      case CopyDone => Some(CopyBothServerDone)
      case ErrorResponse(_) => Some(Draining)
      case _ => None)
    case CopyBothClientDone => (
      match m
      case CopyData(_) => Some(CopyBothClientDone)
      case CopyDone => Some(AwaitingReady)
      case ErrorResponse(_) => Some(Draining)
      case _ => None)
    case Draining => (
      match m
      case RowDescription(_) => Some(Draining)
      case DataRow(_) => Some(Draining)
      case CommandComplete(_) => Some(Draining)
      case EmptyQueryResponse => Some(Draining)
      case ParseComplete => Some(Draining)
      case BindComplete => Some(Draining)
      case CloseComplete => Some(Draining)
      case NoData => Some(Draining)
      case ParameterDescription(_) => Some(Draining)
      case PortalSuspended => Some(Draining)
      case ReadyForQuery(_) => Some(Ready)
      case _ => None)
    case Resetting => (
      match m
      case RowDescription(_) => Some(Resetting)
      case DataRow(_) => Some(Resetting)
      case EmptyQueryResponse => Some(Resetting)
      case CommandComplete(_) => Some(ResetComplete)
      case ErrorResponse(_) => Some(Draining)
      case _ => None)
    case ResetComplete => (
      match m
      case RowDescription(_) => Some(ResetComplete)
      case DataRow(_) => Some(ResetComplete)
      case CommandComplete(_) => Some(ResetComplete)
      case EmptyQueryResponse => Some(ResetComplete)
      case ReadyForQuery(_) => Some(Ready)
      case ErrorResponse(_) => Some(Draining)
      case _ => None)
    case _ => None
  }
}
