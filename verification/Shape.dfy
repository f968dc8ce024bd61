/** What every operation of the ledger keeps, COPY included: the response head is live and in a
    grammar phase of its own kind, and everything behind it has not started. */
module Shape {
  import opened Messages
  import opened Ledgers
  import G = ServerGrammar

  /** The response states an operation of this kind can be in. */
  predicate Phase(k: Kind, s: G.State) {
    match k
    case Query =>
      s.Simple? || s.SimpleError? || s.SimpleCopyIn? || s.SimpleCopyInDone? || s.SimpleCopyInFailed?
      || s.SimpleCopyOut? || s.SimpleCopyOutDone? || s.SimpleCopyReady? || s.SimpleCopyBoth?
      || s.SimpleCopyBothClientDone? || s.SimpleCopyBothServerDone? || s.SimpleCopyBothDone? || s.SimpleCopyBothFailed?
    case Execute =>
      s.ExecuteResponse? || s.ExtendedCopyIn? || s.ExtendedCopyInDone? || s.ExtendedCopyInFailed?
      || s.ExtendedCopyOut? || s.ExtendedCopyOutDone? || s.ExtendedCopyBoth?
      || s.ExtendedCopyBothClientDone? || s.ExtendedCopyBothServerDone? || s.ExtendedCopyBothDone?
        || s.ExtendedCopyBothFailed?
    case FunctionCall => s.FunctionResponse? || s.FunctionReady?
    case _ => s == InitialResponseState(k)
  }

  /** Kinds that end with a `ReadyForQuery` of their own. */
  predicate Owes(k: Kind) {
    k.Query? || k.FunctionCall? || k.Sync?
  }

  predicate InertKind(k: Kind) {
    k.Flush? || k.CopyData? || k.CopyDone? || k.CopyFail? || k.Terminate?
  }

  /** Resting states between two operations of the sequential server. */
  predicate Resting(s: G.State) {
    s.Ready? || s.Building? || s.ExtendedError?
  }

  /** Completion agrees with the grammar: a fitting response is terminal exactly when the grammar
      comes to rest, and the resting state says how the operation ended. */
  lemma CompletionAgreesWithGrammar(k: Kind, s: G.State, m: BackendMessage)
    requires Phase(k, s) && !InertKind(k) && G.Send(s, m).Some?
    ensures var t := G.Send(s, m).value;
      && (ResponseIsTerminal(k, m) <==> Resting(t))
      && (!Resting(t) ==> Phase(k, t))
      && (t.Ready? <==> m.ReadyForQuery?)
      && (m.ReadyForQuery? ==> Owes(k))
      && (t.Ready? <==> Resting(t) && Owes(k))
      && (t.ExtendedError? <==> Resting(t) && m.ErrorResponse?)
      && (Resting(t) && m.ErrorResponse? ==> IsExtendedKind(k))
  {
    match k
    case Query =>
    case FunctionCall =>
    case Execute =>
    case Sync =>
    case Parse =>
    case Bind =>
    case Describe =>
    case Close =>
  }

  lemma ClientMessageKeepsPhase(k: Kind, s: G.State, m: FrontendMessage)
    requires Phase(k, s) && !InertKind(k) && G.Receive(s, m).Some?
    ensures Phase(k, G.Receive(s, m).value)
    ensures !s.SimpleCopyIn? && !s.ExtendedCopyIn? ==>
      !G.Receive(s, m).value.SimpleCopyIn? && !G.Receive(s, m).value.ExtendedCopyIn?
  {
  }

  predicate HeadLive(l: Ledger) {
    l.operations != [] ==> !Inert(l.operations[0]) && Phase(l.operations[0].kind, l.operations[0].responseState)
  }

  predicate TailFresh(ops: seq<Operation>) {
    forall i :: 1 <= i < |ops| ==> ops[i].responseState == InitialResponseState(ops[i].kind)
  }

  /** COPY IN is only ever projected while its own operation is the head and still copying in. */
  predicate CopyInAtHead(l: Ledger) {
    && !l.requestState.CopyOut?
    && (l.requestState.CopyIn? ==>
          && l.operations != []
          && (l.operations[0].responseState.SimpleCopyIn? || l.operations[0].responseState.ExtendedCopyIn?))
  }

  predicate Shaped(l: Ledger) {
    HeadLive(l) && TailFresh(l.operations) && CopyInAtHead(l)
  }

  lemma DroppingInertHeadsKeepsLife(ops: seq<Operation>, l: Ledger)
    requires TailFresh(ops)
    requires ops != [] ==> Inert(ops[0]) || Phase(ops[0].kind, ops[0].responseState)
    requires l.operations == RemoveInertHeads(ops)
    ensures HeadLive(l) && TailFresh(l.operations)
  {
    var k := LiveFrom(ops, 0);
    if l.operations != [] && k > 0 {
      assert l.operations[0] == ops[k];
      assert !InertKind(ops[k].kind);
    }
  }

  lemma TouchingTheHead(ops: seq<Operation>, m: FrontendMessage)
    requires ops != [] && !InertKind(ops[0].kind) && Phase(ops[0].kind, ops[0].responseState)
    ensures Phase(ops[0].kind, TouchHead(ops, m)[0].responseState)
  {
    if G.Receive(ops[0].responseState, m).Some? {
      ClientMessageKeepsPhase(ops[0].kind, ops[0].responseState, m);
    }
  }

  lemma FreshPhase(k: Kind)
    ensures InertKind(k) || Phase(k, InitialResponseState(k))
  {
  }

  /** The queue a message is appended to: the old one, with at most flags and the head's phase changed. */
  lemma EnqueuedKeepsQueue(l: Ledger, m: FrontendMessage, handling: Handling, kind: Kind, next: RequestState)
    ensures var ops := Enqueued(l, m, handling, kind, next);
      && |ops| == |l.operations| + 1
      && ops[|l.operations|] == NewOperation(l, handling, kind, next)
      && (forall i :: 0 <= i < |l.operations| ==>
        ops[i].id == l.operations[i].id && ops[i].kind == l.operations[i].kind)
      && (forall i :: 1 <= i < |l.operations| ==> ops[i].responseState == l.operations[i].responseState)
      && (l.operations != [] ==> ops[0].responseState == TouchHead(l.operations, m)[0].responseState)
  {
    var ops := if l.requestState.CopyIn? && (kind.CopyDone? || kind.CopyFail?)
               then IgnoreLastSync(l.operations) else l.operations;
    assert |ops| == |l.operations| && forall i :: 0 <= i < |ops| ==>
      ops[i] == l.operations[i].(discarded := ops[i].discarded);
  }

  lemma EnqueuedIsFresh(l: Ledger, m: FrontendMessage, handling: Handling, kind: Kind, next: RequestState)
    requires HeadLive(l) && TailFresh(l.operations)
    ensures var ops := Enqueued(l, m, handling, kind, next);
      ops != [] && TailFresh(ops) && (Inert(ops[0]) || Phase(ops[0].kind, ops[0].responseState))
  {
    EnqueuedKeepsQueue(l, m, handling, kind, next);
    if l.operations == [] {
      FreshPhase(kind);
    } else {
      TouchingTheHead(l.operations, m);
    }
  }

  lemma CopyDataKeepsCopyIn(l: Ledger, m: FrontendMessage, handling: Handling)
    requires HeadLive(l) && CopyInAtHead(l) && l.requestState.CopyIn? && m.CopyData?
    ensures var ops := Enqueued(l, m, handling, Kind.CopyData, RequestState.CopyIn);
      LiveFrom(ops, 0) == 0 && ops == l.operations + [NewOperation(l, handling, Kind.CopyData, RequestState.CopyIn)]
  {
    var head := l.operations[0];
    assert G.Receive(head.responseState, m) == Some(head.responseState);
    assert TouchHead(l.operations, m) == l.operations;
  }

  /** The operation kind of a client message; a password never becomes an operation. */
  function KindOf(m: FrontendMessage): Option<Kind> {
    if m.Sync? then Some(Kind.Sync) else ClassifyDiscard(m)
  }

  lemma Classification(s: RequestState, m: FrontendMessage)
    requires ProjectFrontend(s, m).Some?
    ensures var (kind, next) := ProjectFrontend(s, m).value;
      && KindOf(m) == Some(kind)
      && (next.CopyIn? <==> s.CopyIn? && m.CopyData?)
      && (next.CopyBoth? <==> s.CopyBoth?)
      && !next.CopyOut?
      && !s.CopyOut? && !s.Terminated?
      && (next.ExtendedError? ==> s.ExtendedError? || s.CopyIn?)
  {
    match s
    case Ready =>
    case Extended(_) =>
    case ExtendedError =>
    case CopyIn =>
    case CopyBoth =>
    case _ =>
  }

  /** The ledger an admitted message leaves. */
  lemma AdmittedLedger(l: Ledger, m: FrontendMessage, handling: Handling)
    requires AcceptFrontend(l, m, handling).Admitted?
    ensures ProjectFrontend(l.requestState, m).Some? && !Full(l)
    ensures var (kind, next) := ProjectFrontend(l.requestState, m).value;
      AcceptFrontend(l, m, handling).ledger ==
        l.(operations := RemoveInertHeads(Enqueued(l, m, handling, kind, next)),
           requestState := next, nextId := SaturatingSucc(l.nextId))
  {
  }

  lemma FrontendKeepsShape(l: Ledger, m: FrontendMessage, handling: Handling)
    requires Shaped(l) && AcceptFrontend(l, m, handling).Admitted?
    ensures Shaped(AcceptFrontend(l, m, handling).ledger)
  {
    AdmittedLedger(l, m, handling);
    Classification(l.requestState, m);
    var (kind, next) := ProjectFrontend(l.requestState, m).value;
    var l' := AcceptFrontend(l, m, handling).ledger;
    EnqueuedIsFresh(l, m, handling, kind, next);
    DroppingInertHeadsKeepsLife(Enqueued(l, m, handling, kind, next), l');
    assert CopyInAtHead(l') by {
      if next.CopyIn? { CopyDataKeepsCopyIn(l, m, handling); }
    }
  }

  /** A response that does not complete the head only moves the head's own phase. */
  lemma AdvancingTheHead(l: Ledger, m: BackendMessage)
    requires HeadLive(l) && TailFresh(l.operations) && l.operations != [] && ResponseFits(l.operations[0], m)
    requires !ResponseIsTerminal(l.operations[0].kind, m)
    ensures var head := l.operations[0];
      var next := G.Send(head.responseState, m).value;
      CommitResponse(l, m).operations == Settled(l, m).operations == l.operations[0 := head.(responseState := next)]
    ensures LiveFrom(Settled(l, m).operations, 0) == 0
    ensures HeadLive(CommitResponse(l, m)) && TailFresh(CommitResponse(l, m).operations)
  {
    var head := l.operations[0];
    CompletionAgreesWithGrammar(head.kind, head.responseState, m);
    var ops := l.operations[0 := head.(responseState := G.Send(head.responseState, m).value)];
    assert Settled(l, m).operations == ops;
    assert !Inert(ops[0]);
  }

  /** A response that completes the head leaves no COPY projection behind. */
  lemma CompletingTheHead(l: Ledger, m: BackendMessage)
    requires HeadLive(l) && l.operations != [] && ResponseFits(l.operations[0], m)
    requires ResponseIsTerminal(l.operations[0].kind, m)
    ensures var tail := l.operations[1..];
      Settled(l, m) ==
        l.(operations := if m.ErrorResponse? then DiscardToSync(tail) else tail,
           requestState := if m.ErrorResponse? && !HasSync(tail) then ExtendedError else l.requestState,
           responseState := None)
  {
    var head := l.operations[0];
    CompletionAgreesWithGrammar(head.kind, head.responseState, m);
  }

  lemma CompletionKeepsLife(l: Ledger, m: BackendMessage)
    requires HeadLive(l) && TailFresh(l.operations) && l.operations != [] && ResponseFits(l.operations[0], m)
    requires ResponseIsTerminal(l.operations[0].kind, m)
    ensures HeadLive(CommitResponse(l, m)) && TailFresh(CommitResponse(l, m).operations)
  {
    CompletingTheHead(l, m);
    var ops := Settled(l, m).operations;
    assert forall i :: 0 <= i < |ops| ==>
      ops[i].kind == l.operations[i + 1].kind && ops[i].responseState == l.operations[i + 1].responseState;
    DroppingInertHeadsKeepsLife(ops, CommitResponse(l, m));
  }

  lemma CopyInCannotEmit(s: G.State, m: BackendMessage)
    requires s.SimpleCopyIn? || s.ExtendedCopyIn?
    ensures G.Send(s, m).None?
  {
  }

  lemma AdvanceProjectsCopy(l: Ledger, m: BackendMessage)
    requires l.operations != [] && ResponseFits(l.operations[0], m)
    requires !ResponseIsTerminal(l.operations[0].kind, m)
    ensures var copy := ResponseCopyState(G.Send(l.operations[0].responseState, m).value);
      CommitResponse(l, m).requestState ==
        if copy == Some(CopyIn) || copy == Some(CopyBoth) then copy.value else l.requestState
  {
  }

  lemma EmittingKeepsShape(l: Ledger, m: BackendMessage)
    requires Shaped(l) && l.operations != [] && ResponseFits(l.operations[0], m)
    ensures Shaped(CommitResponse(l, m))
  {
    assert !l.requestState.CopyIn? by {
      if l.requestState.CopyIn? { CopyInCannotEmit(l.operations[0].responseState, m); }
    }
    if ResponseIsTerminal(l.operations[0].kind, m) {
      CompletionKeepsLife(l, m);
      assert CopyInAtHead(CommitResponse(l, m)) by { CompletingTheHead(l, m); }
    } else {
      AdvancingTheHead(l, m);
      AdvanceProjectsCopy(l, m);
    }
  }

  lemma ResponseKeepsShape(l: Ledger, localId: Option<nat>, m: BackendMessage)
    requires Shaped(l)
    ensures Shaped(AcceptResponse(l, localId, m).ledger)
  {
    match PrepareResponse(l, localId, m)
    case Emit => EmittingKeepsShape(l, m);
    case _ =>
  }

  /** For every shaped ledger the source's `unreachable!` fires exactly when COPY BOTH outlived its
      operation and the client sends COPY data or its end. */
  lemma AbortsExactlyAfterStaleCopyBoth(l: Ledger, m: FrontendMessage, handling: Handling)
    requires Shaped(l)
    ensures AcceptFrontend(l, m, handling).Unreachable? <==>
      && l.requestState.CopyBoth?
      && (m.CopyData? || m.CopyDone?)
      && HeadKind(l) != Some(Kind.Query) && HeadKind(l) != Some(Kind.Execute)
  {
  }
}
