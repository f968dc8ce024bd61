/** Ledgers that never entered COPY IN or COPY BOTH and never parked a local error: nothing
    discarded stays queued, and the request state is the projection of the queue. */
module CalmLedgers {
  import opened Messages
  import opened Ledgers
  import opened Shape
  import G = ServerGrammar

  /** Where the sequential server rests when an operation of this kind succeeds. */
  function After(k: Kind): G.State {
    if Owes(k) then G.Ready else G.Building
  }

  /** Where the sequential server rests when it starts an operation of kind `k` at rest in `s` and
      the operation succeeds; None when `k` cannot start there. */
  function Advance(s: G.State, k: Kind): Option<G.State> {
    match s
    case Ready => (
      match k
      case Query => Some(G.Ready)
      case FunctionCall => Some(G.Ready)
      case Parse => Some(G.Building)
      case Bind => Some(G.Building)
      case Describe => Some(G.Building)
      case Execute => Some(G.Building)
      case Close => Some(G.Building)
      case Terminate => Some(G.Terminated)
      case _ => None)
    case Building => (
      match k
      case Parse => Some(G.Building)
      case Bind => Some(G.Building)
      case Describe => Some(G.Building)
      case Execute => Some(G.Building)
      case Close => Some(G.Building)
      case Flush => Some(G.Building)
      case Sync => Some(G.Ready)
      case _ => None)
    case _ => None
  }

  /** Where the server rests when the operations from position `i` on succeed in turn. */
  function Project(s: G.State, ops: seq<Operation>, i: nat): Option<G.State>
    requires i <= |ops|
    decreases |ops| - i
  {
    if i == |ops| then Some(s)
    else match Advance(s, ops[i].kind)
      case None => None
      case Some(t) => Project(t, ops, i + 1)
  }

  /** Response phases in which the server is the only one to speak. */
  predicate ServerSpeaks(s: G.State) {
    s.Simple? || s.SimpleError? || s.SimpleCopyOut? || s.SimpleCopyOutDone? || s.SimpleCopyReady?
    || s.ParseResponse? || s.BindResponse? || s.DescribeResponse? || s.ExecuteResponse? || s.CloseResponse?
    || s.ExtendedCopyOut? || s.ExtendedCopyOutDone? || s.SyncResponse? || s.FunctionResponse? || s.FunctionReady?
  }

  /** No COPY IN or COPY BOTH was entered; local errors may be parked. */
  predicate Quiet(l: Ledger) {
    && Shaped(l)
    && !l.requestState.CopyIn? && !l.requestState.CopyBoth?
    && |l.operations| <= l.limit
    && (l.operations != [] ==> ServerSpeaks(l.operations[0].responseState))
  }

  /** Nor was a local error parked. */
  predicate Calm(l: Ledger) {
    && Quiet(l)
    && NoneDiscarded(l.operations)
    && (l.requestState.ExtendedError? ==> l.operations == [])
    && (l.operations != [] ==> Project(After(l.operations[0].kind), l.operations, 1) == Some(Generated(l.requestState)))
  }

  /* ---------- the projection ---------- */

  lemma {:induction false} ProjectSnoc(s: G.State, ops: seq<Operation>, i: nat, op: Operation)
    requires i <= |ops|
    ensures Project(s, ops + [op], i) ==
      match Project(s, ops, i) case None => None case Some(t) => Advance(t, op.kind)
    decreases |ops| - i
  {
    if i == |ops| {
      match Advance(s, op.kind)
      case None =>
      case Some(t) => assert Project(t, ops + [op], i + 1) == Some(t);
    } else {
      match Advance(s, ops[i].kind)
      case None =>
      case Some(t) => ProjectSnoc(t, ops, i + 1, op);
    }
  }

  /** The projection only looks at kinds. */
  lemma {:induction false} ProjectByKinds(s: G.State, a: seq<Operation>, b: seq<Operation>, i: nat)
    requires i <= |a| == |b| && forall j :: i <= j < |a| ==> a[j].kind == b[j].kind
    ensures Project(s, a, i) == Project(s, b, i)
    decreases |a| - i
  {
    if i < |a| {
      match Advance(s, a[i].kind)
      case None =>
      case Some(t) => ProjectByKinds(t, a, b, i + 1);
    }
  }

  /** The projection does not depend on what was dropped from the front. */
  lemma {:induction false} ProjectShift(s: G.State, ops: seq<Operation>, rest: seq<Operation>, k: nat, i: nat)
    requires k <= |ops| && rest == ops[k..] && i <= |rest|
    ensures Project(s, rest, i) == Project(s, ops, k + i)
    decreases |rest| - i
  {
    if i < |rest| {
      match Advance(s, rest[i].kind)
      case None =>
      case Some(t) => ProjectShift(t, ops, rest, k, i + 1);
    }
  }

  /** Admission advances the projection. */
  lemma AdmissionAdvances(s: RequestState, m: FrontendMessage)
    requires !s.CopyIn? && !s.CopyBoth? && !s.ExtendedError? && ProjectFrontend(s, m).Some?
    ensures var (kind, next) := ProjectFrontend(s, m).value;
      Advance(Generated(s), kind) == Some(Generated(next)) && !next.ExtendedError?
  {
  }

  /** Starting an operation at rest enters its own phase, or none when it has no response. */
  lemma StartingAnOperation(s: G.State, m: FrontendMessage, k: Kind)
    requires KindOf(m) == Some(k) && Advance(s, k).Some?
    ensures G.Receive(s, m) == if InertKind(k) then Advance(s, k) else Some(InitialResponseState(k))
    ensures !InertKind(k) ==> Advance(s, k) == Some(After(k)) && ServerSpeaks(InitialResponseState(k))
  {
  }

  lemma ServerSpeaksAlone(s: G.State, m: FrontendMessage)
    requires ServerSpeaks(s)
    ensures G.Receive(s, m).None?
  {
  }

  lemma ServerKeepsTheFloor(k: Kind, s: G.State, m: BackendMessage)
    requires ServerSpeaks(s) && Phase(k, s) && !InertKind(k) && G.Send(s, m).Some?
    requires !m.CopyInResponse? && !m.CopyBothResponse?
    ensures var t := G.Send(s, m).value;
      && (!ResponseIsTerminal(k, m) ==> ServerSpeaks(t) && Phase(k, t))
      && (ResponseIsTerminal(k, m) ==> t == if m.ErrorResponse? then G.ExtendedError else After(k))
  {
    CompletionAgreesWithGrammar(k, s, m);
  }

  predicate NoneDiscarded(ops: seq<Operation>) {
    forall i :: 0 <= i < |ops| ==> !ops[i].discarded
  }

  /** Behind a popped head the first `Sync` and the first live operation are one position nearer. */
  lemma {:induction false} PopShifts(ops: seq<Operation>, tail: seq<Operation>, i: nat)
    requires ops != [] && tail == ops[1..] && i <= |tail|
    ensures SyncFrom(tail, i) == SyncFrom(ops, i + 1) - 1
    ensures LiveFrom(tail, i) == LiveFrom(ops, i + 1) - 1
    decreases |tail| - i
  {
    if i < |tail| { PopShifts(ops, tail, i + 1); }
  }

  lemma LiveIs(ops: seq<Operation>, k: nat)
    requires k <= |ops| && (forall j :: 0 <= j < k ==> Inert(ops[j])) && (k < |ops| ==> !Inert(ops[k]))
    ensures LiveFrom(ops, 0) == k
  {
  }

  lemma MarkingDropsToSync(ops: seq<Operation>)
    requires NoneDiscarded(ops)
    ensures RemoveInertHeads(DiscardToSync(ops)) == ops[SyncFrom(ops, 0)..]
  {
    var k, marked := SyncFrom(ops, 0), DiscardToSync(ops);
    LiveIs(marked, k);
    assert marked[k..] == ops[k..];
  }

  /** After an extended error at the head nothing up to the first `Sync` survives. */
  lemma ErrorDropsToSync(ops: seq<Operation>)
    requires ops != [] && NoneDiscarded(ops)
    ensures RemoveInertHeads(DiscardToSync(ops[1..])) == ops[SyncFrom(ops, 1)..]
    ensures HasSync(ops[1..]) <==> SyncFrom(ops, 1) < |ops|
  {
    PopShifts(ops, ops[1..], 0);
    MarkingDropsToSync(ops[1..]);
  }

  /** After a success at the head the inert operations behind it go too. */
  lemma SuccessDropsInert(ops: seq<Operation>)
    requires ops != []
    ensures RemoveInertHeads(ops[1..]) == ops[LiveFrom(ops, 1)..]
  {
    PopShifts(ops, ops[1..], 0);
  }

  /** From within a batch the queue stays in it up to its first `Sync`. */
  lemma {:induction false} ProjectThroughSync(ops: seq<Operation>, i: nat)
    requires i <= |ops| && Project(G.Building, ops, i).Some?
    ensures var k := SyncFrom(ops, i);
      if k == |ops| then Project(G.Building, ops, i) == Some(G.Building)
      else Project(G.Ready, ops, k + 1) == Project(G.Building, ops, i)
    decreases |ops| - i
  {
    if i < |ops| && !ops[i].kind.Sync? { ProjectThroughSync(ops, i + 1); }
  }

  /** Passing over the inert operations at the front of a queue advances the projection over them. */
  lemma {:induction false} ProjectOverInert(s: G.State, ops: seq<Operation>, i: nat)
    requires i <= |ops| && Project(s, ops, i).Some? && NoneDiscarded(ops)
    ensures var k := LiveFrom(ops, i);
      k < |ops| ==>
        && Project(After(ops[k].kind), ops, k + 1) == Project(s, ops, i)
        && ServerSpeaks(InitialResponseState(ops[k].kind))
    decreases |ops| - i
  {
    if i < |ops| && Inert(ops[i]) { ProjectOverInert(Advance(s, ops[i].kind).value, ops, i + 1); }
  }

  /* ---------- every step keeps calm ---------- */

  /** In a quiet ledger an admitted message is appended, unless it is inert and alone. */
  lemma AdmissionAppends(l: Ledger, m: FrontendMessage, handling: Handling)
    requires Quiet(l) && AcceptFrontend(l, m, handling).Admitted?
    ensures var (kind, next) := ProjectFrontend(l.requestState, m).value;
      var op := NewOperation(l, handling, kind, next);
      && Enqueued(l, m, handling, kind, next) == l.operations + [op]
      && AcceptFrontend(l, m, handling).ledger ==
           l.(operations := if l.operations == [] && Inert(op) then [] else l.operations + [op],
              requestState := next, nextId := SaturatingSucc(l.nextId))
      && |l.operations| < l.limit
  {
    AdmittedLedger(l, m, handling);
    Classification(l.requestState, m);
    var (kind, next) := ProjectFrontend(l.requestState, m).value;
    var op := NewOperation(l, handling, kind, next);
    if l.operations != [] {
      ServerSpeaksAlone(l.operations[0].responseState, m);
    }
    var ops := Enqueued(l, m, handling, kind, next);
    assert ops == l.operations + [op];
    if l.operations != [] {
      assert ops[0] == l.operations[0];
      assert LiveFrom(ops, 0) == 0;
    } else {
      assert ops[1..] == [];
    }
  }

  lemma StartsSpeak(k: Kind)
    requires !InertKind(k)
    ensures ServerSpeaks(InitialResponseState(k))
  {
  }

  lemma AdmissionKeepsQuiet(l: Ledger, m: FrontendMessage, handling: Handling)
    requires Quiet(l) && AcceptFrontend(l, m, handling).Admitted?
    ensures Quiet(AcceptFrontend(l, m, handling).ledger)
  {
    FrontendKeepsShape(l, m, handling);
    AdmissionAppends(l, m, handling);
    Classification(l.requestState, m);
    var (kind, next) := ProjectFrontend(l.requestState, m).value;
    if !InertKind(kind) { StartsSpeak(kind); }
  }

  /** A response that leaves the head outstanding changes its phase and the COPY projection only. */
  lemma AdvancesTo(l: Ledger, m: BackendMessage)
    requires Quiet(l) && l.operations != [] && ResponseFits(l.operations[0], m)
      && !ResponseIsTerminal(l.operations[0].kind, m)
    requires !m.CopyInResponse? && !m.CopyBothResponse?
    ensures var t := G.Send(l.operations[0].responseState, m).value;
      && ServerSpeaks(t)
      && CommitResponse(l, m) ==
           l.(operations := l.operations[0 := l.operations[0].(responseState := t)],
              responseState := if ResponseCopyState(t).Some? then Some(Public(ResponseCopyState(t).value)) else None)
  {
    AdvancingTheHead(l, m);
    ServerKeepsTheFloor(l.operations[0].kind, l.operations[0].responseState, m);
  }

  lemma EmissionKeepsQuiet(l: Ledger, m: BackendMessage)
    requires Quiet(l) && l.operations != [] && ResponseFits(l.operations[0], m)
    requires !m.CopyInResponse? && !m.CopyBothResponse?
    ensures Quiet(CommitResponse(l, m))
  {
    EmittingKeepsShape(l, m);
    if ResponseIsTerminal(l.operations[0].kind, m) {
      CompletionKeepsQuiet(l, m);
    } else {
      AdvancesTo(l, m);
    }
  }

  lemma CompletionKeepsQuiet(l: Ledger, m: BackendMessage)
    requires Quiet(l) && l.operations != [] && ResponseFits(l.operations[0], m)
      && ResponseIsTerminal(l.operations[0].kind, m)
    requires Shaped(CommitResponse(l, m))
    ensures Quiet(CommitResponse(l, m))
  {
    CompletingTheHead(l, m);
    var ops, l' := Settled(l, m).operations, CommitResponse(l, m);
    var k := LiveFrom(ops, 0);
    if l'.operations != [] {
      assert l'.operations[0] == ops[k] && ops[k].responseState == l.operations[k + 1].responseState;
      StartsSpeak(ops[k].kind);
    }
  }

  /** Parking a local error keeps the ledger quiet. */
  lemma ParkingKeepsQuiet(l: Ledger, id: nat)
    requires Quiet(l)
    ensures Quiet(ProjectDeferredLocalError(l, id))
  {
  }

  /** Behind a queue, an operation the projection can start keeps the ledger calm. */
  lemma AppendingKeepsCalm(l: Ledger, l': Ledger, op: Operation)
    requires Calm(l) && l.operations != [] && |l.operations| < l.limit
    requires !op.discarded && Advance(Generated(l.requestState), op.kind) == Some(Generated(l'.requestState))
    requires l'.operations == l.operations + [op] && Quiet(l') && !l'.requestState.ExtendedError?
    ensures Calm(l')
  {
    ProjectSnoc(After(l.operations[0].kind), l.operations, 1, op);
  }

  /** A single operation at the head keeps the ledger calm. */
  lemma LoneKeepsCalm(l': Ledger, op: Operation)
    requires l'.operations == [op] && !op.discarded && After(op.kind) == Generated(l'.requestState)
    requires Quiet(l') && !l'.requestState.ExtendedError?
    ensures Calm(l')
  {
  }

  /** An operation that finds the ledger empty. */
  lemma FirstOperation(l: Ledger, m: FrontendMessage, handling: Handling)
    requires !l.requestState.CopyIn? && !l.requestState.CopyBoth? && ProjectFrontend(l.requestState, m).Some?
    ensures var (kind, next) := ProjectFrontend(l.requestState, m).value;
      var op := NewOperation(l, handling, kind, next);
      && !next.CopyIn? && !next.CopyBoth?
      && (!Inert(op) ==>
            && !op.discarded && ServerSpeaks(op.responseState) && !next.ExtendedError?
            && After(kind) == Generated(next))
  {
    Classification(l.requestState, m);
    var (kind, next) := ProjectFrontend(l.requestState, m).value;
    if !l.requestState.ExtendedError? {
      AdmissionAdvances(l.requestState, m);
      StartingAnOperation(Generated(l.requestState), m, kind);
    }
  }

  lemma AdmissionKeepsCalm(l: Ledger, m: FrontendMessage, handling: Handling)
    requires Calm(l) && AcceptFrontend(l, m, handling).Admitted?
    ensures Calm(AcceptFrontend(l, m, handling).ledger)
  {
    AdmissionKeepsQuiet(l, m, handling);
    AdmissionAppends(l, m, handling);
    var (kind, next) := ProjectFrontend(l.requestState, m).value;
    var op, l' := NewOperation(l, handling, kind, next), AcceptFrontend(l, m, handling).ledger;
    if l.operations == [] {
      FirstOperation(l, m, handling);
      if !Inert(op) { LoneKeepsCalm(l', op); }
    } else {
      AdmissionAdvances(l.requestState, m);
      Classification(l.requestState, m);
      AppendingKeepsCalm(l, l', op);
    }
  }

  /** Moving the head's phase on, without a new COPY projection, keeps the ledger calm. */
  lemma AdvanceKeepsCalm(l: Ledger, l': Ledger, t: G.State)
    requires Calm(l) && l.operations != [] && Quiet(l')
    requires l'.operations == l.operations[0 := l.operations[0].(responseState := t)]
    requires l'.requestState == l.requestState
    ensures Calm(l')
  {
    ProjectByKinds(After(l.operations[0].kind), l.operations, l'.operations, 1);
  }

  lemma EmissionKeepsCalm(l: Ledger, m: BackendMessage)
    requires Calm(l) && l.operations != [] && ResponseFits(l.operations[0], m)
    requires !m.CopyInResponse? && !m.CopyBothResponse?
    ensures Calm(CommitResponse(l, m))
  {
    EmissionKeepsQuiet(l, m);
    if ResponseIsTerminal(l.operations[0].kind, m) {
      CompletionKeepsCalm(l, m);
    } else {
      AdvancesTo(l, m);
      AdvanceKeepsCalm(l, CommitResponse(l, m), G.Send(l.operations[0].responseState, m).value);
    }
  }

  /** `l'` is what a failure of the head leaves of `l`. */
  predicate Fails(l: Ledger, l': Ledger)
    requires l.operations != []
  {
    var k := SyncFrom(l.operations, 1);
    && l'.operations == l.operations[k..]
    && l'.requestState == (if k < |l.operations| then l.requestState else ExtendedError)
    && l'.nextId == l.nextId && l'.limit == l.limit && l'.responseState == None
  }

  /** `l'` is what a success of the head leaves of `l`. */
  predicate Succeeds(l: Ledger, l': Ledger)
    requires l.operations != []
  {
    && l'.operations == l.operations[LiveFrom(l.operations, 1)..]
    && l'.requestState == l.requestState
    && l'.nextId == l.nextId && l'.limit == l.limit && l'.responseState == None
  }

  /** In a calm ledger a terminal response either succeeds or fails, in these exact senses. */
  lemma CalmCompletion(l: Ledger, m: BackendMessage)
    requires Calm(l) && l.operations != [] && ResponseFits(l.operations[0], m)
      && ResponseIsTerminal(l.operations[0].kind, m)
    ensures if m.ErrorResponse? then Fails(l, CommitResponse(l, m)) else Succeeds(l, CommitResponse(l, m))
  {
    CompletingTheHead(l, m);
    if m.ErrorResponse? { ErrorDropsToSync(l.operations); } else { SuccessDropsInert(l.operations); }
  }

  lemma FailureKeepsCalm(l: Ledger, l': Ledger)
    requires Calm(l) && l.operations != [] && After(l.operations[0].kind) == G.Building && Fails(l, l') && Quiet(l')
    ensures Calm(l')
  {
    ProjectThroughSync(l.operations, 1);
    var k := SyncFrom(l.operations, 1);
    if k < |l.operations| { ProjectShift(G.Ready, l.operations, l'.operations, k, 1); }
  }

  lemma SuccessKeepsCalm(l: Ledger, l': Ledger)
    requires Calm(l) && l.operations != [] && Succeeds(l, l') && Quiet(l')
    ensures Calm(l')
  {
    hide Project, LiveFrom, Shaped;
    ProjectOverInert(After(l.operations[0].kind), l.operations, 1);
    var k := LiveFrom(l.operations, 1);
    if k < |l.operations| { ProjectShift(After(l.operations[k].kind), l.operations, l'.operations, k, 1); }
  }

  lemma CompletionKeepsCalm(l: Ledger, m: BackendMessage)
    requires Calm(l) && l.operations != [] && ResponseFits(l.operations[0], m)
      && ResponseIsTerminal(l.operations[0].kind, m)
    requires Quiet(CommitResponse(l, m))
    ensures Calm(CommitResponse(l, m))
  {
    CalmCompletion(l, m);
    if m.ErrorResponse? {
      assert After(l.operations[0].kind) == G.Building by {
        CompletionAgreesWithGrammar(l.operations[0].kind, l.operations[0].responseState, m);
      }
      FailureKeepsCalm(l, CommitResponse(l, m));
    } else {
      SuccessKeepsCalm(l, CommitResponse(l, m));
    }
  }
}
