/** The pipeline ledger as a value: every operation of `Pipeline` (src/pipeline.rs:462-1430) as a
    function from one ledger to the next.  The class in Pipeline.dfy updates its fields in place
    and is proved against these functions. */
module Ledgers {
  import opened Messages
  import G = ServerGrammar

  datatype RequestState = Ready | Extended(bound: bool) | ExtendedError | CopyIn | CopyOut | CopyBoth | Terminated

  datatype PipelineState =
    PublicReady | PublicExtended | PublicExtendedError | PublicCopyIn | PublicCopyOut | PublicCopyBoth
      | PublicTerminated

  datatype Origin = Forwarded | Local

  datatype Handling = Forward | Locally

  datatype Kind =
    Query | FunctionCall | Parse | Bind | Describe | Execute | Close | Flush | Sync
    | CopyData | CopyDone | CopyFail | Terminate

  datatype Operation = Operation(id: nat, kind: Kind, origin: Origin, discarded: bool, responseState: G.State)

  /** Operation-count limits are non-zero (src/pipeline.rs:53-58). */
  type Limit = n: nat | 1 <= n witness 1

  datatype Ledger = Ledger(limit: Limit, operations: seq<Operation>, requestState: RequestState,
                           responseState: Option<PipelineState>, nextId: nat)

  function Empty(limit: Limit): Ledger {
    Ledger(limit, [], Ready, None, 0)
  }

  function Public(s: RequestState): PipelineState {
    match s
    case Ready => PublicReady
    case Extended(_) => PublicExtended
    case ExtendedError => PublicExtendedError
    case CopyIn => PublicCopyIn
    case CopyOut => PublicCopyOut
    case CopyBoth => PublicCopyBoth
    case Terminated => PublicTerminated
  }

  function StateOf(l: Ledger): PipelineState {
    if l.responseState.Some? then l.responseState.value else Public(l.requestState)
  }

  /* ---------- classifiers ---------- */

  /** The grammar state whose client choices decide legality in a request state. */
  function Generated(s: RequestState): G.State {
    match s
    case Ready => G.Ready
    case Extended(_) => G.Building
    case ExtendedError => G.ExtendedError
    case CopyIn => G.ExtendedCopyIn
    case CopyOut => G.ExtendedCopyOut
    case CopyBoth => G.ExtendedCopyBoth
    case Terminated => G.Terminated
  }

  function ClassifyDiscard(m: FrontendMessage): Option<Kind> {
    match m
    case Parse(_, _, _) => Some(Kind.Parse)
    case Bind(_, _, _, _, _) => Some(Kind.Bind)
    case Describe(_, _) => Some(Kind.Describe)
    case Execute(_, _) => Some(Kind.Execute)
    case Close(_, _) => Some(Kind.Close)
    case Flush => Some(Kind.Flush)
    case Query(_) => Some(Kind.Query)
    case FunctionCall(_, _, _, _) => Some(Kind.FunctionCall)
    case CopyData(_) => Some(Kind.CopyData)
    case CopyDone => Some(Kind.CopyDone)
    case CopyFail(_) => Some(Kind.CopyFail)
    case Terminate => Some(Kind.Terminate)
    case PasswordResponse(_) => None
    case Sync => None // classified before the discard rule
  }

  function ClassifyFrontend(s: RequestState, m: FrontendMessage): Option<(Kind, RequestState)> {
    match s
    case Ready => (
      match m
      case Query(_) => Some((Kind.Query, Ready))
      case FunctionCall(_, _, _, _) => Some((Kind.FunctionCall, Ready))
      case Parse(_, _, _) => Some((Kind.Parse, Extended(false)))
      case Bind(_, _, _, _, _) => Some((Kind.Bind, Extended(true)))
      case Describe(_, _) => Some((Kind.Describe, Extended(false)))
      case Execute(_, _) => Some((Kind.Execute, Extended(true)))
      case Close(_, _) => Some((Kind.Close, Extended(false)))
      case Terminate => Some((Kind.Terminate, Terminated))
      case _ => None)
    case Extended(bound) => (
      match m
      case Bind(_, _, _, _, _) => Some((Kind.Bind, Extended(true)))
      case Execute(_, _) => Some((Kind.Execute, Extended(true)))
      case Parse(_, _, _) => Some((Kind.Parse, Extended(bound)))
      case Describe(_, _) => Some((Kind.Describe, Extended(bound)))
      case Close(_, _) => Some((Kind.Close, Extended(bound)))
      case Flush => Some((Kind.Flush, Extended(bound)))
      case Sync => Some((Kind.Sync, Ready))
      case _ => None)
    case ExtendedError =>
      if m.Sync? then Some((Kind.Sync, Ready))
      else if ClassifyDiscard(m).Some? then Some((ClassifyDiscard(m).value, ExtendedError))
      else None
    case CopyIn => (
      match m
      case CopyData(_) => Some((Kind.CopyData, CopyIn))
      case CopyDone => Some((Kind.CopyDone, Extended(true)))
      case CopyFail(_) => Some((Kind.CopyFail, ExtendedError))
      case _ => None)
    case CopyBoth => (
      match m
      case CopyData(_) => Some((Kind.CopyData, CopyBoth))
      case CopyDone => Some((Kind.CopyDone, CopyBoth))
      case _ => None)
    case _ => None
  }

  function ProjectFrontend(s: RequestState, m: FrontendMessage): Option<(Kind, RequestState)> {
    if G.Receive(Generated(s), m).None? then None else ClassifyFrontend(s, m)
  }

  /** Whether `frontend_phase` has an answer; where it has none the source is `unreachable!`. */
  predicate HasFrontendPhase(s: RequestState, head: Option<Kind>) {
    match s
    case Ready => true
    case Extended(_) => true
    case ExtendedError => true
    case CopyIn => head == Some(Kind.Query) || head == Some(Kind.Execute)
    case CopyBoth => head == Some(Kind.Query) || head == Some(Kind.Execute)
    case _ => false
  }

  function InitialResponseState(k: Kind): G.State {
    match k
    case Query => G.Simple
    case FunctionCall => G.FunctionResponse
    case Parse => G.ParseResponse
    case Bind => G.BindResponse
    case Describe => G.DescribeResponse
    case Execute => G.ExecuteResponse
    case Close => G.CloseResponse
    case Sync => G.SyncResponse
    case _ => G.Terminated
  }

  predicate ResponseFits(op: Operation, m: BackendMessage) {
    G.Send(op.responseState, m).Some?
  }

  predicate ResponseIsTerminal(k: Kind, m: BackendMessage) {
    match k
    case Query => m.ReadyForQuery?
    case FunctionCall => m.ReadyForQuery?
    case Sync => m.ReadyForQuery?
    case Parse => m.ParseComplete? || m.ErrorResponse?
    case Bind => m.BindComplete? || m.ErrorResponse?
    case Describe => m.RowDescription? || m.NoData? || m.ErrorResponse?
    case Execute => m.CommandComplete? || m.PortalSuspended? || m.ErrorResponse?
    case Close => m.CloseComplete? || m.ErrorResponse?
    case CopyDone => m.CopyDone? || m.CommandComplete? || m.ErrorResponse?
    case CopyFail => m.ErrorResponse?
    case _ => true
  }

  predicate IsExtendedKind(k: Kind) {
    !k.Query? && !k.FunctionCall? && !k.Terminate?
  }

  function ResponseCopyState(s: G.State): Option<RequestState> {
    if s.SimpleCopyIn? || s.ExtendedCopyIn? then Some(CopyIn)
    else if s.SimpleCopyOut? || s.ExtendedCopyOut? then Some(CopyOut)
    else if s.SimpleCopyBoth? || s.SimpleCopyBothClientDone? || s.SimpleCopyBothServerDone?
            || s.ExtendedCopyBoth? || s.ExtendedCopyBothClientDone? || s.ExtendedCopyBothServerDone?
    then Some(CopyBoth)
    else None
  }

  /* ---------- operation sequences ---------- */

  /** Operations that never receive a response of their own. */
  predicate Inert(op: Operation) {
    op.kind.Flush? || op.kind.CopyData? || op.kind.CopyDone? || op.kind.CopyFail? || op.kind.Terminate? || op.discarded
  }

  /** The first position from `i` on whose operation is not inert, or the length. */
  function LiveFrom(ops: seq<Operation>, i: nat): (k: nat)
    requires i <= |ops|
    ensures i <= k <= |ops|
    ensures forall j :: i <= j < k ==> Inert(ops[j])
    ensures k < |ops| ==> !Inert(ops[k])
    decreases |ops| - i
  {
    if i < |ops| && Inert(ops[i]) then LiveFrom(ops, i + 1) else i
  }

  function RemoveInertHeads(ops: seq<Operation>): seq<Operation> {
    ops[LiveFrom(ops, 0)..]
  }

  /** What `RemoveInertHeads` drops. */
  function InertHeads(ops: seq<Operation>): seq<Operation> {
    ops[..LiveFrom(ops, 0)]
  }

  /** The first position from `i` on that holds a `Sync`, or the length. */
  function SyncFrom(ops: seq<Operation>, i: nat): (k: nat)
    requires i <= |ops|
    ensures i <= k <= |ops|
    ensures forall j :: i <= j < k ==> !ops[j].kind.Sync?
    ensures k < |ops| ==> ops[k].kind.Sync?
    decreases |ops| - i
  {
    if i < |ops| && !ops[i].kind.Sync? then SyncFrom(ops, i + 1) else i
  }

  predicate HasSync(ops: seq<Operation>) {
    SyncFrom(ops, 0) < |ops|
  }

  /** Marks every operation before the first `Sync` as discarded. */
  function DiscardToSync(ops: seq<Operation>): seq<Operation> {
    var k := SyncFrom(ops, 0);
    seq(|ops|, i requires 0 <= i < |ops| => ops[i].(discarded := ops[i].discarded || i < k))
  }

  /** The newest live `Sync` among the first `n` operations. */
  function LastLiveSync(ops: seq<Operation>, n: nat): (k: Option<nat>)
    requires n <= |ops|
    ensures k.Some? ==> k.value < n && ops[k.value].kind.Sync? && !ops[k.value].discarded
  {
    if n == 0 then None
    else if ops[n - 1].kind.Sync? && !ops[n - 1].discarded then Some(n - 1)
    else LastLiveSync(ops, n - 1)
  }

  /** Marks the newest live `Sync` as discarded. */
  function IgnoreLastSync(ops: seq<Operation>): seq<Operation> {
    match LastLiveSync(ops, |ops|)
    case None => ops
    case Some(k) => ops[k := ops[k].(discarded := true)]
  }

  /** The head's response state after it sees a client message. */
  function TouchHead(ops: seq<Operation>, m: FrontendMessage): (r: seq<Operation>)
    ensures |r| == |ops|
    ensures forall i :: 1 <= i < |ops| ==> r[i] == ops[i]
    ensures ops != [] ==> r[0] == ops[0].(responseState := r[0].responseState)
  {
    if ops == [] then ops
    else match G.Receive(ops[0].responseState, m)
      case None => ops
      case Some(t) => ops[0 := ops[0].(responseState := t)]
  }

  /* ---------- client messages ---------- */

  datatype FrontendAction = ForwardIt(forwarded: nat, message: FrontendMessage) | DiscardIt(dropped: nat)

  datatype Admission = Immediate(action: FrontendAction) | Waiting(action: FrontendAction)

  datatype FrontendResult =
    | Admitted(admission: Admission, ledger: Ledger)
    | Capacity
    | Illegal(state: PipelineState)
    | Unreachable // the source aborts in `frontend_phase`

  predicate Full(l: Ledger) {
    |l.operations| == l.limit && !l.requestState.CopyIn? && !l.requestState.CopyBoth?
  }

  function HeadKind(l: Ledger): Option<Kind> {
    if l.operations == [] then None else Some(l.operations[0].kind)
  }

  function AcceptFrontend(l: Ledger, m: FrontendMessage, handling: Handling): FrontendResult {
    if Full(l) then Capacity
    else if ProjectFrontend(l.requestState, m).None? then Illegal(StateOf(l))
    else if !HasFrontendPhase(l.requestState, HeadKind(l)) then Unreachable
    else
      var (kind, next) := ProjectFrontend(l.requestState, m).value;
      CommitFrontend(l, m, handling, kind, next)
  }

  /** The record a message of this kind leaves in the ledger. */
  function NewOperation(l: Ledger, handling: Handling, kind: Kind, next: RequestState): Operation {
    Operation(l.nextId, kind, if handling.Forward? then Forwarded else Local,
              next.ExtendedError? && !kind.Sync?, InitialResponseState(kind))
  }

  /** The operations after a message is recorded and before inert heads are dropped. */
  function Enqueued(l: Ledger, m: FrontendMessage, handling: Handling, kind: Kind, next: RequestState): seq<Operation> {
    var ops := if l.requestState.CopyIn? && (kind.CopyDone? || kind.CopyFail?)
               then IgnoreLastSync(l.operations) else l.operations;
    TouchHead(ops, m) + [NewOperation(l, handling, kind, next)]
  }

  function CommitFrontend(l: Ledger, m: FrontendMessage, handling: Handling, kind: Kind,
                          next: RequestState): (r: FrontendResult)
    ensures r.Admitted?
  {
    var discarded := next.ExtendedError? && !kind.Sync?;
    var action := if handling.Forward? && !discarded then ForwardIt(l.nextId, m) else DiscardIt(l.nextId);
    Admitted(
      if l.operations == [] then Immediate(action) else Waiting(action),
      l.(operations := RemoveInertHeads(Enqueued(l, m, handling, kind, next)),
         requestState := next,
         nextId := SaturatingSucc(l.nextId)))
  }

  /* ---------- server and local responses ---------- */

  predicate AnyFits(ops: seq<Operation>, i: nat, m: BackendMessage)
    requires i <= |ops|
    decreases |ops| - i
  {
    i < |ops| && (ResponseFits(ops[i], m) || AnyFits(ops, i + 1, m))
  }

  predicate AnyForwardedFits(ops: seq<Operation>, i: nat, m: BackendMessage)
    requires i <= |ops|
    decreases |ops| - i
  {
    i < |ops| && ((ops[i].origin.Forwarded? && ResponseFits(ops[i], m)) || AnyForwardedFits(ops, i + 1, m))
  }

  datatype PreparedResponse = Asynchronous | Emit | Deferred | Rejected

  function PrepareResponse(l: Ledger, localId: Option<nat>, m: BackendMessage): PreparedResponse {
    if IsAsynchronous(m) then Asynchronous
    else if l.operations == [] then Rejected
    else
      var head := l.operations[0];
      if localId.Some? && head.id != localId.value then Deferred
      else if localId.Some? && head.origin.Forwarded? then Rejected
      else if localId.None? && head.origin.Local? then
        if AnyForwardedFits(l.operations, 1, m) then Deferred else Rejected
      else if head.discarded || !ResponseFits(head, m) then
        if AnyFits(l.operations, 1, m) then Deferred else Rejected
      else Emit
  }

  /** An extended-query error at the response head. */
  function EnterExtendedError(l: Ledger): Ledger {
    l.(operations := DiscardToSync(l.operations),
       responseState := None,
       requestState := if HasSync(l.operations) then l.requestState else ExtendedError)
  }

  /** The head's response `m`, which must fit it, advances or completes the head; inert
      operations behind a completed head are still in place. */
  function Settled(l: Ledger, m: BackendMessage): Ledger
    requires l.operations != [] && ResponseFits(l.operations[0], m)
  {
    var head := l.operations[0];
    var next := G.Send(head.responseState, m).value;
    var copy := ResponseCopyState(next);
    var terminal := ResponseIsTerminal(head.kind, m);
    var l1 :=
      if terminal then
        var popped := l.(operations := l.operations[1..]);
        if m.ErrorResponse? && IsExtendedKind(head.kind) then EnterExtendedError(popped) else popped
      else
        l.(operations := l.operations[0 := head.(responseState := next)],
           responseState := if copy.Some? then Some(Public(copy.value)) else None);
    var l2 := if copy == Some(CopyIn) || copy == Some(CopyBoth) then l1.(requestState := copy.value) else l1;
    if terminal then l2.(responseState := None) else l2
  }

  function CommitResponse(l: Ledger, m: BackendMessage): Ledger
    requires l.operations != [] && ResponseFits(l.operations[0], m)
  {
    var settled := Settled(l, m);
    settled.(operations := RemoveInertHeads(settled.operations))
  }

  /** The position from `i` on of the operation with this id, or the length. */
  function PositionOf(ops: seq<Operation>, i: nat, id: nat): (k: nat)
    requires i <= |ops|
    ensures i <= k <= |ops|
    ensures k < |ops| ==> ops[k].id == id
    ensures forall j :: i <= j < k ==> ops[j].id != id
    decreases |ops| - i
  {
    if i < |ops| && ops[i].id != id then PositionOf(ops, i + 1, id) else i
  }

  /** A local error that must wait still dooms what follows it up to the next `Sync`. */
  function ProjectDeferredLocalError(l: Ledger, id: nat): Ledger {
    var ops := l.operations;
    var at := PositionOf(ops, 0, id);
    if at == |ops| || ops[at].origin.Forwarded? || !IsExtendedKind(ops[at].kind) then l
    else
      var k := SyncFrom(ops, at + 1);
      l.(operations := seq(|ops|, i requires 0 <= i < |ops| => ops[i].(discarded := ops[i].discarded || at < i < k)),
         requestState := if k < |ops| then l.requestState else ExtendedError)
  }

  datatype BackendAction = Emitted | DeferredAction | Refused(state: PipelineState)

  datatype ResponseResult = Answer(action: BackendAction, ledger: Ledger)

  /** `accept_backend` when `localId` is None and `try_emit_local` otherwise. */
  function AcceptResponse(l: Ledger, localId: Option<nat>, m: BackendMessage): ResponseResult {
    match PrepareResponse(l, localId, m)
    case Asynchronous => Answer(Emitted, l)
    case Rejected => Answer(Refused(StateOf(l)), l)
    case Deferred =>
      Answer(DeferredAction,
             if m.ErrorResponse? && localId.Some? then ProjectDeferredLocalError(l, localId.value) else l)
    case Emit => Answer(Emitted, CommitResponse(l, m))
  }

  /* ---------- attribution ---------- */

  /** Attributes a backend message to the first live forwarded operation it fits. */
  function BackendOperationId(l: Ledger, m: BackendMessage): Option<nat> {
    if IsAsynchronous(m) then None else FirstFit(l.operations, 0, m)
  }

  function FirstFit(ops: seq<Operation>, i: nat, m: BackendMessage): Option<nat>
    requires i <= |ops|
    decreases |ops| - i
  {
    if i == |ops| then None
    else if ops[i].origin.Forwarded? && !ops[i].discarded && ResponseFits(ops[i], m) then Some(ops[i].id)
    else FirstFit(ops, i + 1, m)
  }
}
