/** Every step of the ledger, exactly: which client messages are admitted and what they leave, and what an
    emitted or deferred response leaves.  Stated message by message and position by position. */
module LedgerSteps {
  import opened Messages
  import opened Ledgers
  import opened Verdicts
  import G = ServerGrammar

  /* ---------- which operations still wait for something ---------- */

  /** Flush, COPY input and Terminate get no response of their own, and neither does what was discarded. */
  predicate Silent(op: Operation) {
    match op.kind
    case Query | FunctionCall | Parse | Bind | Describe | Execute | Close | Sync => op.discarded
    case Flush | CopyData | CopyDone | CopyFail | Terminate => true
  }

  /** `after` is `before` without the silent operations at its front. */
  ghost predicate Trimmed(before: seq<Operation>, after: seq<Operation>) {
    exists d :: TrimmedBy(before, after, d)
  }

  predicate TrimmedBy(before: seq<Operation>, after: seq<Operation>, d: int) {
    && 0 <= d <= |before| && after == before[d..]
    && (forall j :: 0 <= j < d ==> Silent(before[j]))
    && (after != [] ==> !Silent(after[0]))
  }

  lemma HeadsAreTrimmed(ops: seq<Operation>)
    ensures Trimmed(ops, RemoveInertHeads(ops))
  {
    assert TrimmedBy(ops, RemoveInertHeads(ops), LiveFrom(ops, 0));
  }

  /** So there is no other way to trim. */
  lemma TrimmedOnce(before: seq<Operation>, a: seq<Operation>, b: seq<Operation>)
    requires Trimmed(before, a) && Trimmed(before, b)
    ensures a == b
  {
    var d :| TrimmedBy(before, a, d);
    var e :| TrimmedBy(before, b, e);
    assert d < |before| ==> a[0] == before[d];
    assert e < |before| ==> b[0] == before[e];
  }

  /** `k` is the first `Sync` from `i` on, or the end. */
  predicate FirstSync(ops: seq<Operation>, i: nat, k: int) {
    && i <= k <= |ops| && (k < |ops| ==> ops[k].kind.Sync?)
    && forall j :: i <= j < k ==> !ops[j].kind.Sync?
  }

  /** Everything from `i` up to the first `Sync` is discarded, and nothing else is touched. */
  ghost predicate Doomed(before: seq<Operation>, i: nat, after: seq<Operation>) {
    && |after| == |before|
    && forall j, k :: 0 <= j < |before| && FirstSync(before, i, k) ==>
      after[j] == if i <= j < k then before[j].(discarded := true) else before[j]
  }

  predicate SyncAhead(ops: seq<Operation>, i: nat) {
    exists k :: i <= k < |ops| && ops[k].kind.Sync?
  }

  lemma SyncFromIsFirst(ops: seq<Operation>, i: nat)
    requires i <= |ops|
    ensures forall k :: FirstSync(ops, i, k) <==> k == SyncFrom(ops, i)
    ensures SyncAhead(ops, i) <==> SyncFrom(ops, i) < |ops|
  {
  }

  /* ---------- client messages ---------- */

  function KindOf(m: FrontendMessage): Kind {
    match m
    case Query(_) => Kind.Query
    case FunctionCall(_, _, _, _) => Kind.FunctionCall
    case Parse(_, _, _) => Kind.Parse
    case Bind(_, _, _, _, _) => Kind.Bind
    case Describe(_, _) => Kind.Describe
    case Execute(_, _) => Kind.Execute
    case Close(_, _) => Kind.Close
    case Flush => Kind.Flush
    case Sync => Kind.Sync
    case CopyData(_) => Kind.CopyData
    case CopyDone => Kind.CopyDone
    case CopyFail(_) => Kind.CopyFail
    case Terminate => Kind.Terminate
    case PasswordResponse(_) => Kind.Terminate // never admitted
  }

  /** The request states in which the client may send `m`. */
  predicate MaySend(s: RequestState, m: FrontendMessage) {
    match m
    case Query(_) => s.Ready? || s.ExtendedError?
    case FunctionCall(_, _, _, _) => s.Ready? || s.ExtendedError?
    case Terminate => s.Ready? || s.ExtendedError?
    case Parse(_, _, _) => s.Ready? || s.Extended? || s.ExtendedError?
    case Bind(_, _, _, _, _) => s.Ready? || s.Extended? || s.ExtendedError?
    case Describe(_, _) => s.Ready? || s.Extended? || s.ExtendedError?
    case Execute(_, _) => s.Ready? || s.Extended? || s.ExtendedError?
    case Close(_, _) => s.Ready? || s.Extended? || s.ExtendedError?
    case Flush => s.Extended? || s.ExtendedError?
    case Sync => s.Extended? || s.ExtendedError?
    case CopyData(_) => s.CopyIn? || s.CopyBoth? || s.ExtendedError?
    case CopyDone => s.CopyIn? || s.CopyBoth? || s.ExtendedError?
    case CopyFail(_) => s.CopyIn? || s.ExtendedError?
    case PasswordResponse(_) => false
  }

  /** Where the request side goes with an admitted `m`. */
  function RequestAfter(s: RequestState, m: FrontendMessage): RequestState {
    if m.Sync? then Ready
    else if s.ExtendedError? then ExtendedError
    else match m
      case Bind(_, _, _, _, _) => Extended(true)
      case Execute(_, _) => Extended(true)
      case Parse(_, _, _) => if s.Ready? then Extended(false) else s
      case Describe(_, _) => if s.Ready? then Extended(false) else s
      case Close(_, _) => if s.Ready? then Extended(false) else s
      case CopyDone => if s.CopyIn? then Extended(true) else s
      case CopyFail(_) => ExtendedError
      case Terminate => Terminated
      case _ => s
  }

  /** What a client message is dropped for: an extended query that has failed, or its own COPY failure. */
  predicate Dropped(s: RequestState, m: FrontendMessage) {
    !m.Sync? && (s.ExtendedError? || m.CopyFail?)
  }

  function AwaitedFrom(k: Kind): G.State {
    match k
    case Query => G.Simple
    case FunctionCall => G.FunctionResponse
    case Parse => G.ParseResponse
    case Bind => G.BindResponse
    case Describe => G.DescribeResponse
    case Execute => G.ExecuteResponse
    case Close => G.CloseResponse
    case Sync => G.SyncResponse
    case Flush | CopyData | CopyDone | CopyFail | Terminate => G.Terminated
  }

  /** Position `k` holds the newest `Sync` that is still awaited. */
  predicate NewestSync(ops: seq<Operation>, k: int) {
    && 0 <= k < |ops| && ops[k].kind.Sync? && !ops[k].discarded
    && forall j :: k < j < |ops| ==> !(ops[j].kind.Sync? && !ops[j].discarded)
  }

  /** The recorded operations: the old ones in place, with the head's phase moved on by a message it
      accepts and, when COPY input ends, the newest awaited `Sync` given up; and the new one behind them. */
  ghost predicate RecordedAs(l: Ledger, m: FrontendMessage, handling: Handling, ops: seq<Operation>) {
    && |ops| == |l.operations| + 1
    && (forall i :: 0 <= i < |l.operations| ==> RecordKept(l, m, i, ops[i]))
    && ops[|l.operations|] == Operation(l.nextId, KindOf(m), if handling.Forward? then Forwarded else Local,
                                        Dropped(l.requestState, m), AwaitedFrom(KindOf(m)))
  }

  predicate RecordKept(l: Ledger, m: FrontendMessage, i: int, op: Operation)
    requires 0 <= i < |l.operations|
  {
    var was := l.operations[i];
    var moved := G.Receive(was.responseState, m);
    && op.id == was.id && op.kind == was.kind && op.origin == was.origin
    && op.responseState == (if i == 0 && moved.Some? then moved.value else was.responseState)
    && (op.discarded <==>
          was.discarded || (l.requestState.CopyIn? && (m.CopyDone? || m.CopyFail?) && NewestSync(l.operations, i)))
  }

  predicate TooMany(l: Ledger) {
    |l.operations| == l.limit && !l.requestState.CopyIn? && !l.requestState.CopyBoth?
  }

  /** COPY input that has no simple query or Execute to belong to. */
  predicate Astray(l: Ledger) {
    && (l.requestState.CopyIn? || l.requestState.CopyBoth?)
    && (l.operations == [] || !(l.operations[0].kind.Query? || l.operations[0].kind.Execute?))
  }

  /** The action names the message's own id; only a message handed on and not dropped is forwarded. */
  predicate ActionTaken(l: Ledger, m: FrontendMessage, handling: Handling, a: Admission) {
    && (a.Immediate? <==> l.operations == [])
    && a.action == if handling.Forward? && !Dropped(l.requestState, m) then ForwardIt(l.nextId, m)
      else DiscardIt(l.nextId)
  }

  /** The state shown outside: that of an open COPY response, and otherwise that of the request side. */
  function PublicOf(l: Ledger): PipelineState {
    match l.responseState
    case Some(p) => p
    case None =>
      match l.requestState
      case Ready => PublicReady
      case Extended(_) => PublicExtended
      case ExtendedError => PublicExtendedError
      case CopyIn => PublicCopyIn
      case CopyOut => PublicCopyOut
      case CopyBoth => PublicCopyBoth
      case Terminated => PublicTerminated
  }

  lemma ProjectsExactly(s: RequestState, m: FrontendMessage)
    ensures ProjectFrontend(s, m) == if MaySend(s, m) then Some((KindOf(m), RequestAfter(s, m))) else None
  {
  }

  lemma {:induction false} LastSyncIsNewest(ops: seq<Operation>, n: nat)
    requires n <= |ops| && forall j :: n <= j < |ops| ==> !(ops[j].kind.Sync? && !ops[j].discarded)
    ensures forall k :: NewestSync(ops, k) <==> LastLiveSync(ops, n) == Some(k)
  {
    if n > 0 && !(ops[n - 1].kind.Sync? && !ops[n - 1].discarded) { LastSyncIsNewest(ops, n - 1); }
  }

  lemma SyncGivenUp(ops: seq<Operation>)
    ensures |IgnoreLastSync(ops)| == |ops|
    ensures forall i :: 0 <= i < |ops| ==>
      IgnoreLastSync(ops)[i] == ops[i].(discarded := ops[i].discarded || NewestSync(ops, i))
  {
    LastSyncIsNewest(ops, |ops|);
    hide NewestSync;
  }

  lemma RecordsExactly(l: Ledger, m: FrontendMessage, handling: Handling)
    requires MaySend(l.requestState, m)
    ensures RecordedAs(l, m, handling, Enqueued(l, m, handling, KindOf(m), RequestAfter(l.requestState, m)))
  {
    hide G.Receive, NewestSync, IgnoreLastSync, LastLiveSync;
    SyncGivenUp(l.operations);
    var ops := Enqueued(l, m, handling, KindOf(m), RequestAfter(l.requestState, m));
    forall i | 0 <= i < |l.operations| ensures RecordKept(l, m, i, ops[i]) {
    }
  }

  /** Admission, exactly. */
  lemma AdmissionsExactly(l: Ledger, m: FrontendMessage, handling: Handling)
    ensures var r := AcceptFrontend(l, m, handling);
      && (r.Capacity? <==> TooMany(l))
      && (r.Illegal? <==> !TooMany(l) && !MaySend(l.requestState, m))
      && (r.Unreachable? <==> !TooMany(l) && MaySend(l.requestState, m) && Astray(l))
      && (r.Admitted? <==> !TooMany(l) && MaySend(l.requestState, m) && !Astray(l))
      && (r.Admitted? ==>
            && ActionTaken(l, m, handling, r.admission)
            && r.ledger.limit == l.limit && r.ledger.responseState == l.responseState
            && r.ledger.requestState == RequestAfter(l.requestState, m)
            && r.ledger.nextId == (if l.nextId < U64_MAX then l.nextId + 1 else l.nextId)
            && exists ops :: RecordedAs(l, m, handling, ops) && Trimmed(ops, r.ledger.operations))
    ensures AcceptFrontend(l, m, handling).Illegal? ==>
      AcceptFrontend(l, m, handling).state == PublicOf(l)
  {
    hide ProjectFrontend, RemoveInertHeads, Enqueued, RecordedAs, Trimmed, MaySend, RequestAfter, KindOf, Dropped;
    ProjectsExactly(l.requestState, m);
    if AcceptFrontend(l, m, handling).Admitted? {
      RecordsExactly(l, m, handling);
      HeadsAreTrimmed(Enqueued(l, m, handling, KindOf(m), RequestAfter(l.requestState, m)));
      DropsExactly(l.requestState, m);
    }
    if MaySend(l.requestState, m) { OnlyCopyStrays(l, m); }
  }

  lemma DropsExactly(s: RequestState, m: FrontendMessage)
    requires MaySend(s, m)
    ensures Dropped(s, m) <==> RequestAfter(s, m).ExtendedError? && !KindOf(m).Sync?
  {
  }

  lemma OnlyCopyStrays(l: Ledger, m: FrontendMessage)
    requires MaySend(l.requestState, m)
    ensures HasFrontendPhase(l.requestState, HeadKind(l)) <==> !Astray(l)
  {
  }

  /* ---------- responses ---------- */

  /** The responses that end an operation, by response; kinds that get none end with any. */
  predicate Ends(k: Kind, m: BackendMessage) {
    || k.Flush? || k.CopyData? || k.Terminate?
    || match m
       case ReadyForQuery(_) => k.Query? || k.FunctionCall? || k.Sync?
       case ErrorResponse(_) => !k.Query? && !k.FunctionCall? && !k.Sync?
       case CommandComplete(_) => k.Execute? || k.CopyDone?
       case PortalSuspended => k.Execute?
       case ParseComplete => k.Parse?
       case BindComplete => k.Bind?
       case CloseComplete => k.Close?
       case RowDescription(_) => k.Describe?
       case NoData => k.Describe?
       case CopyDone => k.CopyDone?
       case _ => false
  }

  /** The COPY a response phase is in. */
  function OpenCopy(s: G.State): Option<RequestState> {
    match s
    case SimpleCopyIn | ExtendedCopyIn => Some(RequestState.CopyIn)
    case SimpleCopyOut | ExtendedCopyOut => Some(RequestState.CopyOut)
    case SimpleCopyBoth | SimpleCopyBothClientDone | SimpleCopyBothServerDone => Some(RequestState.CopyBoth)
    case ExtendedCopyBoth | ExtendedCopyBothClientDone | ExtendedCopyBothServerDone => Some(RequestState.CopyBoth)
    case _ => None
  }

  /** The request side follows a COPY the client takes part in. */
  function Joined(s: RequestState, copy: Option<RequestState>): RequestState {
    if copy.Some? && !copy.value.CopyOut? then copy.value else s
  }

  /** An error of the extended protocol, which dooms everything up to the next `Sync`. */
  predicate Fatal(k: Kind, m: BackendMessage) {
    m.ErrorResponse? && !k.Query? && !k.FunctionCall? && !k.Terminate?
  }

  /** What the head's own response leaves. */
  ghost predicate AnsweredAs(l: Ledger, m: BackendMessage, l': Ledger)
    requires l.operations != [] && TakesIt(l.operations[0], m)
  {
    var head, rest := l.operations[0], l.operations[1..];
    var next := G.Send(head.responseState, m).value;
    && l'.limit == l.limit && l'.nextId == l.nextId
    && if !Ends(head.kind, m) then
         && Trimmed([head.(responseState := next)] + rest, l'.operations)
         && l'.requestState == Joined(l.requestState, OpenCopy(next))
         && l'.responseState == (match OpenCopy(next)
                                 case Some(CopyIn) => Some(PublicCopyIn)
                                 case Some(CopyOut) => Some(PublicCopyOut)
                                 case Some(_) => Some(PublicCopyBoth)
                                 case None => None)
       else if Fatal(head.kind, m) then
         && (exists ops :: Doomed(rest, 0, ops) && Trimmed(ops, l'.operations))
         && l'.requestState == Joined(if SyncAhead(rest, 0) then l.requestState else ExtendedError, OpenCopy(next))
         && l'.responseState.None?
       else
         && Trimmed(rest, l'.operations)
         && l'.requestState == Joined(l.requestState, OpenCopy(next)) && l'.responseState.None?
  }

  lemma DiscardsExactly(ops: seq<Operation>)
    ensures Doomed(ops, 0, DiscardToSync(ops)) && (HasSync(ops) <==> SyncAhead(ops, 0))
  {
    SyncFromIsFirst(ops, 0);
    hide FirstSync;
  }

  lemma EndsExactly(k: Kind, m: BackendMessage)
    ensures ResponseIsTerminal(k, m) <==> Ends(k, m)
  {
  }

  lemma CopiesExactly(s: G.State)
    ensures ResponseCopyState(s) == OpenCopy(s)
    ensures OpenCopy(s).Some? ==> OpenCopy(s).value.CopyIn? || OpenCopy(s).value.CopyOut? || OpenCopy(s).value.CopyBoth?
  {
  }

  lemma GoesOn(l: Ledger, m: BackendMessage)
    requires l.operations != [] && TakesIt(l.operations[0], m) && !Ends(l.operations[0].kind, m)
    ensures AnsweredAs(l, m, CommitResponse(l, m))
  {
    hide G.Send, ResponseIsTerminal, Ends, ResponseCopyState, OpenCopy, RemoveInertHeads, Trimmed;
    var head, rest := l.operations[0], l.operations[1..];
    var next := G.Send(head.responseState, m).value;
    EndsExactly(head.kind, m);
    CopiesExactly(next);
    HeadsAreTrimmed(Settled(l, m).operations);
    assert l.operations[0 := head.(responseState := next)] == [head.(responseState := next)] + rest;
  }

  lemma IsOver(l: Ledger, m: BackendMessage)
    requires l.operations != [] && TakesIt(l.operations[0], m) && Ends(l.operations[0].kind, m)
    ensures AnsweredAs(l, m, CommitResponse(l, m))
  {
    hide G.Send, ResponseIsTerminal, Ends, ResponseCopyState, OpenCopy, RemoveInertHeads, DiscardToSync, HasSync,
      Doomed, Trimmed, SyncAhead;
    var head, rest := l.operations[0], l.operations[1..];
    EndsExactly(head.kind, m);
    CopiesExactly(G.Send(head.responseState, m).value);
    DiscardsExactly(rest);
    HeadsAreTrimmed(Settled(l, m).operations);
  }

  /** Emission, exactly: an asynchronous message leaves the ledger alone, and a response is the head's. */
  lemma EmissionsExactly(l: Ledger, localId: Option<nat>, m: BackendMessage)
    requires AcceptResponse(l, localId, m).action.Emitted?
    ensures var l' := AcceptResponse(l, localId, m).ledger;
      if Unsolicited(m) then l' == l
      else l.operations != [] && TakesIt(l.operations[0], m) && AnsweredAs(l, m, l')
  {
    hide AnsweredAs, CommitResponse, Ends;
    if !Unsolicited(m) {
      if Ends(l.operations[0].kind, m) { IsOver(l, m); } else { GoesOn(l, m); }
    }
  }

  /** The first operation with this id. */
  predicate Holds(l: Ledger, id: nat, p: int) {
    0 <= p < |l.operations| && l.operations[p].id == id && forall j :: 0 <= j < p ==> l.operations[j].id != id
  }

  /** A local operation whose error would be fatal to what follows it. */
  predicate CanDoom(op: Operation) {
    op.origin.Local? && !op.kind.Query? && !op.kind.FunctionCall? && !op.kind.Terminate?
  }

  /** Deferral, exactly: it leaves the ledger alone, except that a local error of the extended protocol
      dooms what is recorded behind its operation up to the next `Sync`. */
  lemma DeferralsExactly(l: Ledger, localId: Option<nat>, m: BackendMessage)
    requires AcceptResponse(l, localId, m).action.DeferredAction?
    ensures var l' := AcceptResponse(l, localId, m).ledger;
      && (!m.ErrorResponse? || localId.None? ==> l' == l)
      && (m.ErrorResponse? && localId.Some? ==>
            && ((forall p :: !(Holds(l, localId.value, p) && CanDoom(l.operations[p]))) ==> l' == l)
            && (forall p :: Holds(l, localId.value, p) && CanDoom(l.operations[p]) ==>
                  && Doomed(l.operations, p + 1, l'.operations)
                  && l' == l.(operations := l'.operations,
                              requestState := if SyncAhead(l.operations, p + 1) then l.requestState
                                else ExtendedError)))
  {
    hide Doomed, SyncAhead, ProjectDeferredLocalError, PrepareResponse, CommitResponse;
    if m.ErrorResponse? && localId.Some? {
      var at := PositionOf(l.operations, 0, localId.value);
      assert forall p :: Holds(l, localId.value, p) <==> p == at < |l.operations|;
      DoomsExactly(l, localId.value);
    }
  }

  lemma DoomsExactly(l: Ledger, id: nat)
    ensures var at, l' := PositionOf(l.operations, 0, id), ProjectDeferredLocalError(l, id);
      if at == |l.operations| || !CanDoom(l.operations[at]) then l' == l
      else
        && Doomed(l.operations, at + 1, l'.operations)
        && l' == l.(operations := l'.operations,
                    requestState := if SyncAhead(l.operations, at + 1) then l.requestState else ExtendedError)
  {
    hide FirstSync, SyncAhead;
    var at := PositionOf(l.operations, 0, id);
    if at < |l.operations| && CanDoom(l.operations[at]) {
      SyncFromIsFirst(l.operations, at + 1);
      var k, ops := SyncFrom(l.operations, at + 1), ProjectDeferredLocalError(l, id).operations;
      assert |ops| == |l.operations|;
      assert forall j :: 0 <= j < |ops| ==>
        ops[j] == if at + 1 <= j < k then l.operations[j].(discarded := true) else l.operations[j];
    }
  }
}
