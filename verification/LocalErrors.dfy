/** A local error that must wait: from the moment it is parked until it goes out, everything the
    client sends up to the next `Sync` is doomed, and nothing else is. */
module LocalErrors {
  import opened Messages
  import opened Ledgers
  import opened Shape
  import opened Histories
  import opened CalmLedgers
  import opened Confluence
  import G = ServerGrammar

  /** The position of an operation id, when it is outstanding. */
  function At(l: Ledger, id: nat): int {
    id - Base(l)
  }

  predicate Outstanding(l: Ledger, id: nat) {
    0 <= At(l, id) < |l.operations|
  }

  /** Operation `id` is a live local extended-query operation. */
  predicate Rejected(l: Ledger, id: nat) {
    && Outstanding(l, id)
    && var op := l.operations[At(l, id)];
      !Inert(op) && op.origin.Local? && IsExtendedKind(op.kind)
  }

  /** Everything between `id` and `sync` is discarded, and `sync` is a kept `Sync`; with no `sync`
      yet, everything behind `id` is discarded and the client is still being skipped. */
  predicate Doomed(l: Ledger, id: nat, sync: Option<nat>) {
    && Rejected(l, id)
    && (sync.Some? ==>
          && Outstanding(l, sync.value) && id < sync.value
          && l.operations[At(l, sync.value)].kind.Sync? && !l.operations[At(l, sync.value)].discarded)
    && (sync.None? ==> l.requestState.ExtendedError?)
    && forall i :: At(l, id) < i < (if sync.Some? then At(l, sync.value) else |l.operations|) ==>
         l.operations[i].discarded && !l.operations[i].kind.Sync?
  }

  /** Operation `id` was dropped or discarded by an earlier error of its batch. */
  predicate Gone(l: Ledger, id: nat) {
    At(l, id) < 0 || (Outstanding(l, id) && l.operations[At(l, id)].discarded)
  }

  /** Parking an error dooms what follows its operation up to the first `Sync` behind it: everything
      accepted later when there is none, and otherwise exactly when that `Sync` was not forgiven. */
  lemma ParkingDooms(l: Ledger, id: nat)
    requires Window(l) && Rejected(l, id)
    ensures var l', k := ProjectDeferredLocalError(l, id), SyncFrom(l.operations, At(l, id) + 1);
      if k == |l.operations| then Doomed(l', id, None)
      else Doomed(l', id, Some(Base(l) + k)) <==> !l.operations[k].discarded
  {
    hide ProjectDeferredLocalError, Window, Marks, Doomed, Inert, IsExtendedKind, SyncFrom;
    ParkingMarks(l, id);
    MarkingDooms(l, ProjectDeferredLocalError(l, id), id, SyncFrom(l.operations, At(l, id) + 1));
  }

  lemma ParkingMarks(l: Ledger, id: nat)
    requires Window(l) && Rejected(l, id)
    ensures Marks(l, ProjectDeferredLocalError(l, id), id, SyncFrom(l.operations, At(l, id) + 1))
  {
    FoundAt(l, id);
  }

  /** `l'` is `l` with everything between `id` and position `k` discarded. */
  predicate Marks(l: Ledger, l': Ledger, id: nat, k: nat) {
    && |l'.operations| == |l.operations| && l'.nextId == l.nextId
    && l'.requestState == (if k < |l.operations| then l.requestState else ExtendedError)
    && forall i :: 0 <= i < |l.operations| ==>
         l'.operations[i] == l.operations[i].(discarded := l.operations[i].discarded || At(l, id) < i < k)
  }

  lemma MarkingDooms(l: Ledger, l': Ledger, id: nat, k: nat)
    requires Rejected(l, id) && Marks(l, l', id, k) && At(l, id) < k <= |l.operations|
    requires (forall i :: At(l, id) < i < k ==> !l.operations[i].kind.Sync?)
      && (k < |l.operations| ==> l.operations[k].kind.Sync?)
    ensures k == |l.operations| ==> Doomed(l', id, None)
    ensures k < |l.operations| ==> (Doomed(l', id, Some(Base(l) + k)) <==> !l.operations[k].discarded)
  {
    if k < |l.operations| { assert l'.operations[k] == l.operations[k].(discarded := l.operations[k].discarded); }
  }

  lemma FoundAt(l: Ledger, id: nat)
    requires Window(l) && Outstanding(l, id)
    ensures PositionOf(l.operations, 0, id) == At(l, id)
  {
    assert l.operations[At(l, id)].id == id;
  }

  /* ---------- client messages ---------- */

  /** The end of COPY IN data, which forgives the newest live `Sync`. */
  predicate Forgives(l: Ledger, m: FrontendMessage) {
    l.requestState.CopyIn? && (m.CopyDone? || m.CopyFail?)
  }

  function Forgiven(l: Ledger, m: FrontendMessage): Option<nat> {
    if Forgives(l, m) then LastLiveSync(l.operations, |l.operations|) else None
  }

  lemma {:induction false} NewestLiveSync(ops: seq<Operation>, n: nat, j: nat)
    requires j < n <= |ops| && ops[j].kind.Sync? && !ops[j].discarded
    ensures LastLiveSync(ops, n).Some? && LastLiveSync(ops, n).value >= j
  {
    if j < n - 1 { NewestLiveSync(ops, n - 1, j); }
  }

  /** `l'` is `l` with one more operation; at most one `Sync` was forgiven. */
  predicate Grows(l: Ledger, l': Ledger, op: Operation, forgiven: Option<nat>) {
    && |l'.operations| == |l.operations| + 1 && l'.operations[|l.operations|] == op && l'.nextId == l.nextId + 1
    && forall i :: 0 <= i < |l.operations| ==>
         && l'.operations[i].kind == l.operations[i].kind && l'.operations[i].origin == l.operations[i].origin
         && l'.operations[i].discarded == (l.operations[i].discarded || forgiven == Some(i))
  }

  lemma EnqueuedFlags(l: Ledger, m: FrontendMessage, handling: Handling, kind: Kind, next: RequestState)
    requires KindOf(m) == Some(kind)
    ensures var ops := Enqueued(l, m, handling, kind, next);
      && |ops| == |l.operations| + 1
      && forall i :: 0 <= i < |l.operations| ==>
           && ops[i].kind == l.operations[i].kind && ops[i].origin == l.operations[i].origin
           && ops[i].discarded == (l.operations[i].discarded || Forgiven(l, m) == Some(i))
  {
    assert (kind.CopyDone? || kind.CopyFail?) <==> (m.CopyDone? || m.CopyFail?);
    var base := if Forgives(l, m) then IgnoreLastSync(l.operations) else l.operations;
    assert |base| == |l.operations| && forall i :: 0 <= i < |base| ==>
      base[i] == l.operations[i].(discarded := l.operations[i].discarded || Forgiven(l, m) == Some(i));
  }

  /** The head of a shaped ledger survives every admission. */
  lemma HeadSurvives(l: Ledger, m: FrontendMessage)
    requires Shaped(l) && l.operations != []
    ensures Forgiven(l, m) != Some(0) && !Inert(l.operations[0])
  {
  }

  lemma AdmissionGrows(l: Ledger, m: FrontendMessage, handling: Handling)
    requires Shaped(l) && l.operations != [] && AcceptFrontend(l, m, handling).Admitted? && l.nextId < U64_MAX
    ensures ProjectFrontend(l.requestState, m).Some?
    ensures var (op, next) := Admits(l, m, handling);
      Grows(l, AcceptFrontend(l, m, handling).ledger, op, Forgiven(l, m))
        && AcceptFrontend(l, m, handling).ledger.requestState == next
  {
    AdmittedLedger(l, m, handling);
    assert KindOf(m) == Some(ProjectFrontend(l.requestState, m).value.0) by { Classification(l.requestState, m); }
    var (kind, next) := ProjectFrontend(l.requestState, m).value;
    EnqueuedFlags(l, m, handling, kind, next);
    HeadSurvives(l, m);
    var ops := Enqueued(l, m, handling, kind, next);
    assert !Inert(ops[0]);
    assert ops[|l.operations|] == NewOperation(l, handling, kind, next) by {
      EnqueuedKeepsQueue(l, m, handling, kind, next);
    }
    hide Enqueued, Forgiven;
    assert LiveFrom(ops, 0) == 0;
  }

  /** One more operation behind the span.  Without a `Sync` yet it joins the span or closes it; a kept
      `Sync` stays kept unless it is the one forgiven. */
  lemma GrowingKeepsDoom(l: Ledger, l': Ledger, op: Operation, forgiven: Option<nat>, id: nat, sync: Option<nat>)
    requires Doomed(l, id, sync) && Grows(l, l', op, forgiven) && forgiven != Some(At(l, id))
    requires sync.None? ==>
      forgiven.None? && if op.kind.Sync? then !op.discarded else op.discarded && l'.requestState.ExtendedError?
    ensures sync.None? ==> Doomed(l', id, if op.kind.Sync? then Some(l.nextId) else None)
    ensures sync.Some? ==> (Doomed(l', id, sync) <==> forgiven != Some(At(l, sync.value)))
    ensures !Gone(l', id)
  {
  }

  lemma DoomedSkips(l: Ledger, id: nat)
    requires Doomed(l, id, None)
    ensures l.requestState.ExtendedError?
  {
  }

  lemma AdmitsKind(l: Ledger, m: FrontendMessage, handling: Handling)
    requires ProjectFrontend(l.requestState, m).Some?
    ensures var (op, next) := Admits(l, m, handling);
      && (op.kind.Sync? <==> m.Sync?)
      && (l.requestState.ExtendedError? ==>
            op.discarded == !m.Sync? && next == if m.Sync? then Ready else ExtendedError)
  {
    ProjectedInError(l.requestState, m);
  }

  /** The forgiven `Sync` is never the rejected operation itself. */
  lemma RejectedIsNotForgiven(l: Ledger, id: nat, sync: Option<nat>, m: FrontendMessage)
    requires Doomed(l, id, sync)
    ensures Forgiven(l, m) != Some(At(l, id)) && (sync.None? ==> Forgiven(l, m).None?)
  {
    if sync.Some? { NewestLiveSync(l.operations, |l.operations|, At(l, sync.value)); }
  }

  lemma AdmissionKeepsDoom(l: Ledger, id: nat, sync: Option<nat>, m: FrontendMessage, handling: Handling)
    requires Shaped(l) && Doomed(l, id, sync) && l.nextId < U64_MAX && AcceptFrontend(l, m, handling).Admitted?
    ensures var l' := AcceptFrontend(l, m, handling).ledger;
      && (sync.None? ==> Doomed(l', id, if m.Sync? then Some(l.nextId) else None))
      && (sync.Some? ==> (Doomed(l', id, sync) <==> Forgiven(l, m) != Some(At(l, sync.value))))
      && !Gone(l', id)
  {
    RejectedIsNotForgiven(l, id, sync, m);
    if sync.None? { DoomedSkips(l, id); }
    assert l.operations != [];
    hide Doomed, AcceptFrontend, Forgiven, Gone, Grows;
    AdmissionGrows(l, m, handling);
    var (op, next) := Admits(l, m, handling);
    AdmitsKind(l, m, handling);
    GrowingKeepsDoom(l, AcceptFrontend(l, m, handling).ledger, op, Forgiven(l, m), id, sync);
  }

  /** While an error is parked and no `Sync` came, the client is skipped: a message is admitted as a
      discard, except that the `Sync` is kept, and forwarded unless it is handled locally. */
  lemma DoomedAdmission(l: Ledger, id: nat, m: FrontendMessage, handling: Handling)
    requires Shaped(l) && Doomed(l, id, None) && l.nextId < U64_MAX && AcceptFrontend(l, m, handling).Admitted?
    ensures var r := AcceptFrontend(l, m, handling);
      && r.admission.action == (if m.Sync? && handling.Forward? then ForwardIt(l.nextId, m) else DiscardIt(l.nextId))
      && r.ledger.requestState == (if m.Sync? then Ready else ExtendedError)
      && Doomed(r.ledger, id, if m.Sync? then Some(l.nextId) else None)
  {
    hide AcceptFrontend;
    AdmissionKeepsDoom(l, id, None, m, handling);
    AdmissionActions(l, m, handling);
    AdmissionGrows(l, m, handling);
    AdmitsKind(l, m, handling);
  }

  /** A message other than a password is refused then only for capacity. */
  lemma DoomedAcceptsAll(l: Ledger, id: nat, m: FrontendMessage, handling: Handling)
    requires Doomed(l, id, None) && !m.PasswordResponse? && |l.operations| != l.limit
    ensures AcceptFrontend(l, m, handling).Admitted?
  {
  }

  /** `l'` keeps what stands behind the first `k` operations of `l`, with more discarded up to `n`. */
  predicate KeepsFrom(l: Ledger, l': Ledger, k: nat, n: nat) {
    && l'.nextId == l.nextId && |l'.operations| + k == |l.operations|
    && forall i :: 0 <= i < |l'.operations| ==>
         l'.operations[i] == l.operations[i + k].(discarded := l.operations[i + k].discarded || i + k < n)
  }

  lemma KeptBehindKeepsDoom(l: Ledger, l': Ledger, k: nat, n: nat, id: nat, sync: Option<nat>)
    requires Doomed(l, id, sync) && KeepsFrom(l, l', k, n) && k <= At(l, id) && n <= At(l, id)
    requires sync.None? ==> l'.requestState.ExtendedError?
    ensures Doomed(l', id, sync)
  {
    var p := At(l, id);
    assert l'.operations[p - k] == l.operations[p];
    if sync.Some? { assert l'.operations[At(l, sync.value) - k] == l.operations[At(l, sync.value)]; }
  }

  lemma DropKeeps(l: Ledger, l': Ledger, ops: seq<Operation>, k: nat, n: nat)
    requires |ops| + 1 == |l.operations| && k <= |ops| && l'.operations == ops[k..] && l'.nextId == l.nextId
    requires forall i :: 0 <= i < |ops| ==>
      ops[i] == l.operations[i + 1].(discarded := l.operations[i + 1].discarded || i + 1 < n)
    ensures KeepsFrom(l, l', k + 1, n)
  {
    forall i | 0 <= i < |l'.operations|
      ensures l'.operations[i] ==
        l.operations[i + k + 1].(discarded := l.operations[i + k + 1].discarded || i + k + 1 < n)
    {
      assert l'.operations[i] == ops[i + k];
    }
  }

  lemma MarkedTail(tail: seq<Operation>)
    ensures var ops := DiscardToSync(tail);
      && |ops| == |tail|
      && forall i :: 0 <= i < |tail| ==> ops[i] == tail[i].(discarded := tail[i].discarded || i < SyncFrom(tail, 0))
  {
  }

  lemma EndLeaves(l: Ledger, error: bool, l': Ledger)
    requires l.operations != [] && Ends(l, error, l')
    ensures var tail := l.operations[1..];
      var ops := if error then DiscardToSync(tail) else tail;
      l'.operations == ops[LiveFrom(ops, 0)..] && l'.nextId == l.nextId
  {
    hide DiscardToSync, LiveFrom, HasSync;
  }

  /** What the end of the head keeps. */
  lemma EndKeeps(l: Ledger, error: bool, l': Ledger)
    requires l.operations != [] && Ends(l, error, l')
    ensures var tail := l.operations[1..];
      var ops := if error then DiscardToSync(tail) else tail;
      KeepsFrom(l, l', LiveFrom(ops, 0) + 1, if error then SyncFrom(tail, 0) + 1 else 0)
  {
    var tail := l.operations[1..];
    var ops := if error then DiscardToSync(tail) else tail;
    var n := if error then SyncFrom(tail, 0) + 1 else 0;
    hide KeepsFrom, DiscardToSync, SyncFrom, LiveFrom, Ends;
    EndLeaves(l, error, l');
    MarkedTail(tail);
    DropKeeps(l, l', ops, LiveFrom(ops, 0), n);
  }

  lemma LiveReach(tail: seq<Operation>, error: bool, i: nat)
    requires i < |tail| && !Inert(tail[i]) && (error ==> SyncFrom(tail, 0) <= i)
    ensures LiveFrom(if error then DiscardToSync(tail) else tail, 0) <= i
  {
    if error { assert DiscardToSync(tail)[i] == tail[i]; }
  }

  /** The end of an earlier operation: the rejected one is still there, or its batch failed before it. */
  lemma EndKeepsDoom(l: Ledger, error: bool, l': Ledger, id: nat, sync: Option<nat>)
    requires Doomed(l, id, sync) && At(l, id) >= 1 && Ends(l, error, l')
    ensures Doomed(l', id, sync) || Gone(l', id)
  {
    hide LiveFrom, SyncFrom, DiscardToSync, KeepsFrom, Gone, Ends, Doomed;
    DoomedFacts(l, error, l', id, sync);
    EndKeeps(l, error, l');
    var tail := l.operations[1..];
    var ops := if error then DiscardToSync(tail) else tail;
    var k, n := LiveFrom(ops, 0) + 1, if error then SyncFrom(tail, 0) + 1 else 0;
    if n <= At(l, id) {
      LiveReach(tail, error, At(l, id) - 1);
      KeptBehindKeepsDoom(l, l', k, n, id, sync);
    } else {
      DoomedBefore(l, l', k, n, id);
    }
  }

  lemma DoomedFacts(l: Ledger, error: bool, l': Ledger, id: nat, sync: Option<nat>)
    requires Doomed(l, id, sync) && At(l, id) >= 1 && Ends(l, error, l')
    ensures At(l, id) < |l.operations| && !Inert(l.operations[1..][At(l, id) - 1])
    ensures sync.None? ==> l'.requestState.ExtendedError?
  {
  }

  lemma DoomedBefore(l: Ledger, l': Ledger, k: nat, n: nat, id: nat)
    requires Outstanding(l, id) && KeepsFrom(l, l', k, n) && At(l, id) < n
    ensures Gone(l', id)
  {
    if k <= At(l, id) { assert l'.operations[At(l, id) - k].discarded; }
  }

  /** A response after which the head is in COPY IN or COPY BOTH projects that onto the client. */
  predicate Reprojects(l: Ledger, m: BackendMessage)
    requires l.operations != [] && ResponseFits(l.operations[0], m)
  {
    var copy := ResponseCopyState(G.Send(l.operations[0].responseState, m).value);
    copy == Some(RequestState.CopyIn) || copy == Some(RequestState.CopyBoth)
  }

  /** While the server speaks these are exactly the responses that enter COPY IN or COPY BOTH. */
  lemma QuietReprojects(l: Ledger, m: BackendMessage)
    requires Quiet(l) && l.operations != [] && ResponseFits(l.operations[0], m)
    ensures Reprojects(l, m) <==> m.CopyInResponse? || m.CopyBothResponse?
  {
  }

  lemma ReprojectingAdvances(l: Ledger, m: BackendMessage)
    requires HeadLive(l) && l.operations != [] && ResponseFits(l.operations[0], m) && Reprojects(l, m)
    ensures !ResponseIsTerminal(l.operations[0].kind, m)
  {
    CompletionAgreesWithGrammar(l.operations[0].kind, l.operations[0].responseState, m);
  }

  lemma AdvancingKeepsDoom(l: Ledger, l': Ledger, t: G.State, id: nat, sync: Option<nat>)
    requires Doomed(l, id, sync) && At(l, id) >= 1
    requires l'.operations == l.operations[0 := l.operations[0].(responseState := t)] && l'.nextId == l.nextId
    ensures Doomed(l', id, sync) <==> (sync.None? ==> l'.requestState.ExtendedError?)
    ensures !Gone(l', id)
  {
  }

  lemma OthersGoFirst(l: Ledger, id: nat, localId: Option<nat>, m: BackendMessage)
    requires Window(l) && Rejected(l, id) && PrepareResponse(l, localId, m).Emit? && localId != Some(id)
    ensures At(l, id) >= 1 && l.operations != [] && ResponseFits(l.operations[0], m)
  {
  }

  lemma EmissionKeepsIds(l: Ledger, m: BackendMessage)
    requires l.operations != [] && ResponseFits(l.operations[0], m)
    ensures CommitResponse(l, m).nextId == l.nextId
  {
  }

  /** An emission for another operation keeps the span, or takes the rejected operation with an error,
      unless it ends the skipping. */
  lemma EmissionKeepsDoom(l: Ledger, id: nat, sync: Option<nat>, localId: Option<nat>, m: BackendMessage)
    requires Shaped(l) && Window(l) && Doomed(l, id, sync) && PrepareResponse(l, localId, m).Emit?
      && localId != Some(id)
    ensures l.operations != [] && ResponseFits(l.operations[0], m)
    ensures var l' := CommitResponse(l, m);
      Doomed(l', id, sync) || Gone(l', id) <==> !(sync.None? && Reprojects(l, m))
  {
    OthersGoFirst(l, id, localId, m);
    EmittedKeepsDoom(l, id, sync, m);
  }

  lemma EmittedKeepsDoom(l: Ledger, id: nat, sync: Option<nat>, m: BackendMessage)
    requires Shaped(l) && Doomed(l, id, sync) && l.operations != [] && ResponseFits(l.operations[0], m)
      && At(l, id) >= 1
    ensures var l' := CommitResponse(l, m);
      Doomed(l', id, sync) || Gone(l', id) <==> !(sync.None? && Reprojects(l, m))
  {
    if sync.None? { DoomedSkips(l, id); }
    EmissionKeepsIds(l, m);
    hide Doomed, Gone, CommitResponse;
    if ResponseIsTerminal(l.operations[0].kind, m) {
      CompletionEnds(l, m);
      EndKeepsDoom(l, m.ErrorResponse?, CommitResponse(l, m), id, sync);
      if Reprojects(l, m) { ReprojectingAdvances(l, m); }
    } else {
      AdvancingTheHead(l, m);
      AdvanceProjectsCopy(l, m);
      AdvancingKeepsDoom(l, CommitResponse(l, m), G.Send(l.operations[0].responseState, m).value, id, sync);
    }
  }

  /** Parking another error, or the same one again. */
  lemma OtherParkingKeepsDoom(l: Ledger, id: nat, sync: Option<nat>, other: nat)
    requires Window(l) && Doomed(l, id, sync)
    ensures var l' := ProjectDeferredLocalError(l, other); Doomed(l', id, sync) || Gone(l', id)
  {
    var at := PositionOf(l.operations, 0, other);
    if at < |l.operations| {
      var k := SyncFrom(l.operations, at + 1);
      assert at == At(l, other);
    }
  }

  /** The steps that break a doom: a response that projects COPY onto a client being skipped, and the
      end of COPY IN data that forgives the kept `Sync`. */
  predicate Breaks(l: Ledger, step: Step, sync: Option<nat>) {
    match step
    case Client(m, handling) =>
      sync.Some? && AcceptFrontend(l, m, handling).Admitted? && Forgiven(l, m).Some?
        && Forgiven(l, m).value == At(l, sync.value)
    case Reply(localId, m) => sync.None? && PrepareResponse(l, localId, m).Emit? && Reprojects(l, m)
  }

  /** The `Sync` that closes the span, one step later. */
  function SyncAfter(l: Ledger, step: Step, sync: Option<nat>): Option<nat> {
    if sync.None? && step.Client? && step.message.Sync? && AcceptFrontend(l, step.message, step.handling).Admitted?
    then Some(l.nextId) else sync
  }

  /** The step does not emit for `id` itself. */
  predicate ForOthers(l: Ledger, step: Step, id: nat) {
    step.Reply? && PrepareResponse(l, step.localId, step.response).Emit? ==> step.localId != Some(id)
  }

  lemma UnemittedDoesNotBreak(l: Ledger, step: Step, sync: Option<nat>)
    requires step.Reply? && !PrepareResponse(l, step.localId, step.response).Emit?
    ensures !Breaks(l, step, sync)
  {
  }

  /** Every step, COPY included, keeps the doomed span exactly (closing it with an accepted `Sync`) or
      sees the operation go with an earlier error of its batch, if and only if it does not break it. */
  lemma StepKeepsDoom(h: History, step: Step, id: nat, sync: Option<nat>)
    requires Inv(h) && Doomed(h.ledger, id, sync) && ForOthers(h.ledger, step, id) && Unsaturated(Apply(h, step))
    ensures var l' := Apply(h, step).ledger;
      Doomed(l', id, SyncAfter(h.ledger, step, sync)) || Gone(l', id) <==> !Breaks(h.ledger, step, sync)
  {
    match step
    case Client(m, handling) =>
      if AcceptFrontend(h.ledger, m, handling).Admitted? {
        AdmissionHistory(h, m, handling);
        hide Doomed, Gone, Forgiven, AcceptFrontend;
        AdmissionKeepsDoom(h.ledger, id, sync, m, handling);
      }
    case Reply(localId, m) =>
      if PrepareResponse(h.ledger, localId, m).Emit? {
        hide Doomed, Gone, Reprojects, CommitResponse;
        EmissionKeepsDoom(h.ledger, id, sync, localId, m);
      } else {
        UnemittedDoesNotBreak(h.ledger, step, sync);
        if localId.Some? { OtherParkingKeepsDoom(h.ledger, id, sync, localId.value); }
      }
  }

  /** The end of a rejected head with an error. */
  lemma ErrorClears(l: Ledger, id: nat, sync: Option<nat>, l': Ledger)
    requires Doomed(l, id, sync) && At(l, id) == 0 && Ends(l, true, l')
    ensures l'.operations == if sync.Some? then l.operations[At(l, sync.value)..] else []
    ensures l'.requestState == if sync.Some? then l.requestState else ExtendedError
  {
    var tail := l.operations[1..];
    var q := if sync.Some? then At(l, sync.value) - 1 else |tail|;
    hide RemoveInertHeads, DiscardToSync, HasSync;
    SpanIsCleared(tail, q);
    assert tail[q..] == l.operations[q + 1..];
  }

  lemma SpanIsCleared(tail: seq<Operation>, q: nat)
    requires q <= |tail| && forall j :: 0 <= j < q ==> tail[j].discarded && !tail[j].kind.Sync?
    requires q < |tail| ==> tail[q].kind.Sync? && !tail[q].discarded
    ensures RemoveInertHeads(DiscardToSync(tail)) == tail[q..]
    ensures HasSync(tail) <==> q < |tail|
  {
    SyncIs(tail, q);
    LiveIs(DiscardToSync(tail), q);
    assert DiscardToSync(tail) == tail;
  }

  /** When the error goes out, the whole doomed span is removed and the `Sync` becomes the head;
      with no `Sync` yet nothing is outstanding and the client is still skipped. */
  lemma EmittedErrorClearsTheSpan(l: Ledger, id: nat, sync: Option<nat>, error: BackendMessage)
    requires Shaped(l) && Window(l) && Doomed(l, id, sync)
    requires error.ErrorResponse? && PrepareResponse(l, Some(id), error).Emit?
    ensures var l' := CommitResponse(l, error);
      && At(l, id) == 0
      && l'.operations == (if sync.Some? then l.operations[At(l, sync.value)..] else [])
      && l'.requestState == (if sync.Some? then l.requestState else ExtendedError)
      && l'.nextId == l.nextId && l'.responseState == None
  {
    HeadIsRejected(l, id, error);
    assert ResponseIsTerminal(l.operations[0].kind, error) by {
      ErrorEndsExtended(l.operations[0].kind, l.operations[0].responseState, error);
    }
    CompletionEnds(l, error);
    ErrorClears(l, id, sync, CommitResponse(l, error));
  }

  lemma HeadIsRejected(l: Ledger, id: nat, error: BackendMessage)
    requires Window(l) && Rejected(l, id) && PrepareResponse(l, Some(id), error).Emit?
    ensures At(l, id) == 0 && ResponseFits(l.operations[0], error)
  {
  }

  lemma SyncIs(ops: seq<Operation>, k: nat)
    requires k <= |ops| && (forall j :: 0 <= j < k ==> !ops[j].kind.Sync?) && (k < |ops| ==> ops[k].kind.Sync?)
    ensures SyncFrom(ops, 0) == k
  {
  }

  lemma ErrorEndsExtended(k: Kind, s: G.State, error: BackendMessage)
    requires Phase(k, s) && IsExtendedKind(k) && !InertKind(k) && error.ErrorResponse? && G.Send(s, error).Some?
    ensures ResponseIsTerminal(k, error)
  {
  }

  /** A rejected operation that is gone can never answer: its pending responses wait behind every
      other operation and are refused once nothing is outstanding. */
  lemma GoneNeverAnswers(l: Ledger, id: nat, m: BackendMessage)
    requires Shaped(l) && Window(l) && Gone(l, id) && !IsAsynchronous(m)
    ensures PrepareResponse(l, Some(id), m) ==
      if l.operations == [] then PreparedResponse.Rejected else PreparedResponse.Deferred
  {
  }

  /* ---------- whole runs ---------- */

  /** A run that neither emits for `id` nor breaks its doom. */
  predicate Undisturbed(h: History, steps: seq<Step>, id: nat, sync: Option<nat>)
    decreases steps
  {
    steps != [] ==>
      && ForOthers(h.ledger, steps[0], id) && !Breaks(h.ledger, steps[0], sync)
      && Undisturbed(Apply(h, steps[0]), steps[1..], id, SyncAfter(h.ledger, steps[0], sync))
  }

  function FinalSync(h: History, steps: seq<Step>, sync: Option<nat>): Option<nat>
    decreases steps
  {
    if steps == [] then sync else FinalSync(Apply(h, steps[0]), steps[1..], SyncAfter(h.ledger, steps[0], sync))
  }

  lemma KeptStaysGone(l: Ledger, l': Ledger, k: nat, n: nat, id: nat)
    requires Gone(l, id) && KeepsFrom(l, l', k, n)
    ensures Gone(l', id)
  {
    if k <= At(l, id) { assert l'.operations[At(l, id) - k].discarded; }
  }

  lemma GrowingStaysGone(l: Ledger, l': Ledger, op: Operation, forgiven: Option<nat>, id: nat)
    requires Gone(l, id) && Grows(l, l', op, forgiven)
    ensures Gone(l', id)
  {
  }

  lemma AdmittedStaysGone(l: Ledger, id: nat, m: FrontendMessage, handling: Handling)
    requires Shaped(l) && Gone(l, id) && l.nextId < U64_MAX && id < l.nextId && AcceptFrontend(l, m, handling).Admitted?
    ensures Gone(AcceptFrontend(l, m, handling).ledger, id)
  {
    AdmittedLedger(l, m, handling);
    if l.operations != [] {
      hide AcceptFrontend, Gone, Forgiven;
      AdmissionGrows(l, m, handling);
      var (op, next) := Admits(l, m, handling);
      GrowingStaysGone(l, AcceptFrontend(l, m, handling).ledger, op, Forgiven(l, m), id);
    }
  }

  lemma EmittedStaysGone(l: Ledger, id: nat, m: BackendMessage)
    requires Shaped(l) && Gone(l, id) && l.operations != [] && ResponseFits(l.operations[0], m)
    ensures Gone(CommitResponse(l, m), id)
  {
    hide CommitResponse, KeepsFrom, DiscardToSync, SyncFrom, LiveFrom, Ends, Gone;
    EmissionKeepsIds(l, m);
    if ResponseIsTerminal(l.operations[0].kind, m) {
      CompletionEnds(l, m);
      EndKeeps(l, m.ErrorResponse?, CommitResponse(l, m));
      var tail := l.operations[1..];
      var ops := if m.ErrorResponse? then DiscardToSync(tail) else tail;
      var n := if m.ErrorResponse? then SyncFrom(tail, 0) + 1 else 0;
      KeptStaysGone(l, CommitResponse(l, m), LiveFrom(ops, 0) + 1, n, id);
    } else {
      AdvancingTheHead(l, m);
      AdvancedStaysGone(l, CommitResponse(l, m), G.Send(l.operations[0].responseState, m).value, id);
    }
  }

  lemma AdvancedStaysGone(l: Ledger, l': Ledger, t: G.State, id: nat)
    requires Gone(l, id) && l.operations != [] && l'.nextId == l.nextId
    requires l'.operations == l.operations[0 := l.operations[0].(responseState := t)]
    ensures Gone(l', id)
  {
  }

  lemma ParkedStaysGone(l: Ledger, id: nat, localId: Option<nat>, m: BackendMessage)
    requires Gone(l, id) && !PrepareResponse(l, localId, m).Emit?
    ensures Gone(AcceptResponse(l, localId, m).ledger, id)
  {
  }

  /** What is gone stays gone, whatever happens. */
  lemma StepStaysGone(h: History, step: Step, id: nat)
    requires Inv(h) && Gone(h.ledger, id) && id < h.ledger.nextId && Unsaturated(Apply(h, step))
    ensures Gone(Apply(h, step).ledger, id)
  {
    hide Gone, CommitResponse, AcceptFrontend, Shaped, Window, KindsMatch, EmissionsReach, Conserved;
    hide Enqueued, Settled, InertHeads, ProjectDeferredLocalError;
    match step
    case Client(m, handling) =>
      if AcceptFrontend(h.ledger, m, handling).Admitted? {
        AdmissionHistory(h, m, handling);
        AdmittedStaysGone(h.ledger, id, m, handling);
      }
    case Reply(localId, m) =>
      if PrepareResponse(h.ledger, localId, m).Emit? {
        EmittedStaysGone(h.ledger, id, m);
      } else {
        ParkedStaysGone(h.ledger, id, localId, m);
      }
  }

  /** From the parking of a local error to its emission, in every run that does not break the doom: the
      span behind the operation stays exactly the doomed one up to the `Sync` accepted for it, or the
      operation itself went with an earlier error of its batch. */
  lemma {:induction false} DoomLasts(h: History, steps: seq<Step>, id: nat, sync: Option<nat>)
    requires Inv(h) && (Doomed(h.ledger, id, sync) || Gone(h.ledger, id)) && id < h.ledger.nextId
    requires Undisturbed(h, steps, id, sync) && Unsaturated(Replay(h, steps))
    ensures Doomed(Replay(h, steps).ledger, id, FinalSync(h, steps, sync)) || Gone(Replay(h, steps).ledger, id)
    decreases steps
  {
    if steps != [] {
      var h' := Apply(h, steps[0]);
      RequestsOnlyGrow(h', steps[1..]);
      StepKeepsInv(h, steps[0]);
      if Gone(h.ledger, id) { StepStaysGone(h, steps[0], id); } else { StepKeepsDoom(h, steps[0], id, sync); }
      IdsOnlyGrow(h, steps[0]);
      DoomLasts(h', steps[1..], id, SyncAfter(h.ledger, steps[0], sync));
    }
  }

  lemma IdsOnlyGrow(h: History, step: Step)
    ensures h.ledger.nextId <= Apply(h, step).ledger.nextId
  {
  }

  /* ---------- what breaking means ---------- */

  /** A response that projects COPY ends the skipping: the parked error no longer discards, and COPY
      data is forwarded again. */
  lemma CopyReopens(l: Ledger, id: nat, localId: Option<nat>, m: BackendMessage, data: FrontendMessage)
    requires Shaped(l) && Doomed(l, id, None) && PrepareResponse(l, localId, m).Emit? && Reprojects(l, m)
      && data.CopyData?
    ensures var l' := CommitResponse(l, m);
      && !Doomed(l', id, None) && (l'.requestState.CopyIn? || l'.requestState.CopyBoth?)
      && AcceptFrontend(l', data, Forward).Admitted?
      && AcceptFrontend(l', data, Forward).admission.action == ForwardIt(l.nextId, data)
  {
    ReprojectingAdvances(l, m);
    AdvancingTheHead(l, m);
    AdvanceProjectsCopy(l, m);
    EmissionKeepsIds(l, m);
    CopierKind(l.operations[0].kind, G.Send(l.operations[0].responseState, m).value);
    DataIsForwarded(CommitResponse(l, m), data);
  }

  lemma CopierKind(k: Kind, t: G.State)
    requires ResponseCopyState(t).Some? && !InertKind(k) && Phase(k, t)
    ensures k.Query? || k.Execute?
  {
  }

  lemma DataIsForwarded(l: Ledger, data: FrontendMessage)
    requires (l.requestState.CopyIn? || l.requestState.CopyBoth?) && data.CopyData?
    requires HeadKind(l) == Some(Kind.Query) || HeadKind(l) == Some(Kind.Execute)
    ensures AcceptFrontend(l, data, Forward).Admitted?
    ensures AcceptFrontend(l, data, Forward).admission.action == ForwardIt(l.nextId, data)
  {
  }

  /** During a COPY IN the client's end of the data forgives the kept `Sync` when it is the newest live
      one, so the span is no longer bounded by it. */
  lemma CopyEndForgivesKeptSync(l: Ledger, id: nat, sync: nat, end: FrontendMessage, handling: Handling)
    requires Shaped(l) && Doomed(l, id, Some(sync)) && l.nextId < U64_MAX
    requires l.requestState.CopyIn? && (end.CopyDone? || end.CopyFail?)
    requires LastLiveSync(l.operations, |l.operations|) == Some(At(l, sync))
    ensures AcceptFrontend(l, end, handling).Admitted?
    ensures var l' := AcceptFrontend(l, end, handling).ledger;
      Outstanding(l', sync) && l'.operations[At(l', sync)].discarded && !Doomed(l', id, Some(sync)) && !Gone(l', id)
  {
    CopyEndIsTaken(l, end, handling);
    ForgivenSync(l, id, sync);
    hide AcceptFrontend, Shaped, Gone, LastLiveSync, Doomed, Grows, Outstanding;
    AdmissionGrows(l, end, handling);
    var (op, next) := Admits(l, end, handling);
    SyncIsForgiven(l, AcceptFrontend(l, end, handling).ledger, op, sync);
    AdmissionKeepsDoom(l, id, Some(sync), end, handling);
  }

  lemma ForgivenSync(l: Ledger, id: nat, sync: nat)
    requires Doomed(l, id, Some(sync))
    ensures l.operations != [] && Outstanding(l, sync) && At(l, sync) >= 0
  {
  }

  lemma SyncIsForgiven(l: Ledger, l': Ledger, op: Operation, sync: nat)
    requires Outstanding(l, sync) && Grows(l, l', op, Some(At(l, sync)))
    ensures Outstanding(l', sync) && l'.operations[At(l', sync)].discarded
  {
  }

  lemma CopyEndIsTaken(l: Ledger, end: FrontendMessage, handling: Handling)
    requires Shaped(l) && l.requestState.CopyIn? && (end.CopyDone? || end.CopyFail?)
    ensures AcceptFrontend(l, end, handling).Admitted?
  {
  }
}
