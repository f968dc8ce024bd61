/** The order in which the two directions are served cannot change a quiet ledger: a client message
    and a response that are both acceptable commute, and so do whole interleavings. */
module Confluence {
  import opened Messages
  import opened Ledgers
  import opened Shape
  import opened Histories
  import opened CalmLedgers
  import G = ServerGrammar

  /** The ledger takes this step now, and the step does not enter COPY IN or COPY BOTH. */
  predicate Enabled(l: Ledger, step: Step) {
    match step
    case Client(m, handling) => AcceptFrontend(l, m, handling).Admitted?
    case Reply(localId, m) =>
      var prepared := PrepareResponse(l, localId, m);
      prepared.Asynchronous? || (prepared.Emit? && !m.CopyInResponse? && !m.CopyBothResponse?)
  }

  function Next(l: Ledger, step: Step): Ledger
    requires Enabled(l, step)
  {
    match step
    case Client(m, handling) => AcceptFrontend(l, m, handling).ledger
    case Reply(localId, m) => AcceptResponse(l, localId, m).ledger
  }

  lemma StepKeepsQuiet(l: Ledger, step: Step)
    requires Quiet(l) && Enabled(l, step)
    ensures Quiet(Next(l, step))
  {
    match step
    case Client(m, handling) => AdmissionKeepsQuiet(l, m, handling);
    case Reply(localId, m) =>
      if PrepareResponse(l, localId, m).Emit? { EmissionKeepsQuiet(l, m); }
  }

  /** No COPY IN or COPY BOTH is entered anywhere in the run; refusals and parked local errors are allowed. */
  predicate QuietRun(h: History, steps: seq<Step>)
    decreases steps
  {
    steps != [] ==>
      && (steps[0].Reply? && PrepareResponse(h.ledger, steps[0].localId, steps[0].response).Emit? ==>
            !steps[0].response.CopyInResponse? && !steps[0].response.CopyBothResponse?)
      && QuietRun(Apply(h, steps[0]), steps[1..])
  }

  lemma AppliedStepKeepsQuiet(h: History, step: Step)
    requires Quiet(h.ledger)
    requires step.Reply? && PrepareResponse(h.ledger, step.localId, step.response).Emit? ==>
      !step.response.CopyInResponse? && !step.response.CopyBothResponse?
    ensures Quiet(Apply(h, step).ledger)
  {
    match step
    case Client(m, handling) =>
      if AcceptFrontend(h.ledger, m, handling).Admitted? { AdmissionKeepsQuiet(h.ledger, m, handling); }
    case Reply(localId, m) =>
      if PrepareResponse(h.ledger, localId, m).Emit? {
        EmissionKeepsQuiet(h.ledger, m);
      } else if localId.Some? {
        ParkingKeepsQuiet(h.ledger, localId.value);
      }
  }

  /** So every ledger such a run reaches is quiet: the results below apply to it, its length is
      within the limit, and no client message can reach the source's `unreachable!`. */
  lemma {:induction false} QuietRunsStayQuiet(h: History, steps: seq<Step>)
    requires Quiet(h.ledger) && QuietRun(h, steps)
    ensures Quiet(Replay(h, steps).ledger) && |Replay(h, steps).ledger.operations| <= Replay(h, steps).ledger.limit
    ensures forall m, handling :: !AcceptFrontend(Replay(h, steps).ledger, m, handling).Unreachable?
    decreases steps
  {
    if steps == [] {
      forall m, handling ensures !AcceptFrontend(h.ledger, m, handling).Unreachable? {
        AbortsExactlyAfterStaleCopyBoth(h.ledger, m, handling);
      }
    } else {
      AppliedStepKeepsQuiet(h, steps[0]);
      QuietRunsStayQuiet(Apply(h, steps[0]), steps[1..]);
    }
  }

  predicate CopiesOut(s: G.State) {
    s.SimpleCopyOut? || s.ExtendedCopyOut?
  }

  /** The public state says COPY OUT exactly while the head copies out, and follows the request state
      otherwise. */
  predicate Reports(l: Ledger) {
    l.responseState == if l.operations != [] && CopiesOut(l.operations[0].responseState) then Some(PublicCopyOut)
      else None
  }

  lemma CopyStateOfSpeaker(s: G.State)
    requires ServerSpeaks(s)
    ensures ResponseCopyState(s) == if CopiesOut(s) then Some(RequestState.CopyOut) else None
  {
  }

  lemma FreshNeverCopies(k: Kind)
    ensures !CopiesOut(InitialResponseState(k))
  {
  }

  lemma AdmissionKeepsReports(l: Ledger, m: FrontendMessage, handling: Handling)
    requires Quiet(l) && Reports(l) && AcceptFrontend(l, m, handling).Admitted?
    ensures Reports(AcceptFrontend(l, m, handling).ledger)
  {
    AdmissionAppends(l, m, handling);
    var (kind, next) := ProjectFrontend(l.requestState, m).value;
    FreshNeverCopies(kind);
  }

  lemma EmissionKeepsReports(l: Ledger, m: BackendMessage)
    requires Quiet(l) && Reports(l) && l.operations != [] && ResponseFits(l.operations[0], m)
    requires !m.CopyInResponse? && !m.CopyBothResponse?
    ensures Reports(CommitResponse(l, m))
  {
    hide CommitResponse, ResponseCopyState, ServerSpeaks;
    if ResponseIsTerminal(l.operations[0].kind, m) {
      CompletionKeepsReports(l, m);
    } else {
      AdvancesTo(l, m);
      CopyStateOfSpeaker(G.Send(l.operations[0].responseState, m).value);
    }
  }

  lemma CompletionKeepsReports(l: Ledger, m: BackendMessage)
    requires Quiet(l) && l.operations != [] && ResponseFits(l.operations[0], m)
      && ResponseIsTerminal(l.operations[0].kind, m)
    ensures Reports(CommitResponse(l, m))
  {
    CompletingTheHead(l, m);
    var ops, l' := Settled(l, m).operations, CommitResponse(l, m);
    if l'.operations != [] {
      var k := LiveFrom(ops, 0);
      assert l'.operations[0] == ops[k] && ops[k].responseState == l.operations[k + 1].responseState;
      FreshNeverCopies(ops[k].kind);
    }
  }

  lemma AppliedStepKeepsReports(h: History, step: Step)
    requires Quiet(h.ledger) && Reports(h.ledger)
    requires step.Reply? && PrepareResponse(h.ledger, step.localId, step.response).Emit? ==>
      !step.response.CopyInResponse? && !step.response.CopyBothResponse?
    ensures Reports(Apply(h, step).ledger)
  {
    match step
    case Client(m, handling) =>
      if AcceptFrontend(h.ledger, m, handling).Admitted? { AdmissionKeepsReports(h.ledger, m, handling); }
    case Reply(localId, m) =>
      if PrepareResponse(h.ledger, localId, m).Emit? { EmissionKeepsReports(h.ledger, m); }
  }

  /** In every quiet run the public state is COPY OUT exactly while the head copies out, and otherwise
      the image of the request state. */
  lemma {:induction false} QuietRunsReportTheirState(h: History, steps: seq<Step>)
    requires Quiet(h.ledger) && Reports(h.ledger) && QuietRun(h, steps)
    ensures var l := Replay(h, steps).ledger;
      StateOf(l) == if l.operations != [] && CopiesOut(l.operations[0].responseState) then PublicCopyOut
        else Public(l.requestState)
    decreases steps
  {
    if steps != [] {
      AppliedStepKeepsQuiet(h, steps[0]);
      AppliedStepKeepsReports(h, steps[0]);
      QuietRunsReportTheirState(Apply(h, steps[0]), steps[1..]);
    }
  }

  /* ---------- one client message against one response ---------- */

  lemma {:induction false} LiveFromSnoc(ops: seq<Operation>, op: Operation, i: nat)
    requires i <= |ops|
    ensures LiveFrom(ops + [op], i) ==
      if LiveFrom(ops, i) < |ops| || !Inert(op) then LiveFrom(ops, i) else |ops| + 1
    decreases |ops| - i
  {
    if i < |ops| { LiveFromSnoc(ops, op, i + 1); }
  }

  lemma {:induction false} SyncFromSnoc(ops: seq<Operation>, op: Operation, i: nat)
    requires i <= |ops|
    ensures SyncFrom(ops + [op], i) ==
      if SyncFrom(ops, i) < |ops| || op.kind.Sync? then SyncFrom(ops, i) else |ops| + 1
    decreases |ops| - i
  {
    if i < |ops| { SyncFromSnoc(ops, op, i + 1); }
  }

  /** Appending before or after inert heads are dropped is the same. */
  lemma DropThenAppend(ops: seq<Operation>, op: Operation)
    ensures RemoveInertHeads(ops + [op]) ==
      if RemoveInertHeads(ops) == [] && Inert(op) then [] else RemoveInertHeads(ops) + [op]
  {
    LiveFromSnoc(ops, op, 0);
    var k := LiveFrom(ops, 0);
    assert (ops + [op])[k..] == ops[k..] + [op];
  }

  /** What an error does to a queue before and after one more operation. */
  lemma DiscardThenAppend(ops: seq<Operation>, op: Operation)
    ensures HasSync(ops) ==> DiscardToSync(ops + [op]) == DiscardToSync(ops) + [op]
    ensures !HasSync(ops) ==> RemoveInertHeads(DiscardToSync(ops)) == []
    ensures !HasSync(ops) && op.kind.Sync? && !op.discarded ==> RemoveInertHeads(DiscardToSync(ops + [op])) == [op]
    ensures !HasSync(ops) && !op.kind.Sync? ==> RemoveInertHeads(DiscardToSync(ops + [op])) == []
    ensures HasSync(ops + [op]) <==> HasSync(ops) || op.kind.Sync?
  {
    SyncFromSnoc(ops, op, 0);
    if !HasSync(ops) {
      var n, marked, longer := |ops|, DiscardToSync(ops), DiscardToSync(ops + [op]);
      LiveIs(marked, n);
      LiveIs(longer, if op.kind.Sync? && !op.discarded then n else n + 1);
    }
  }

  /** `l'` is `l` after admitting an operation that projects to `next`. */
  predicate Appends(l: Ledger, op: Operation, next: RequestState, l': Ledger) {
    l' == l.(operations := if l.operations == [] && Inert(op) then [] else l.operations + [op],
             requestState := next, nextId := SaturatingSucc(l.nextId))
  }

  lemma AdvanceCommutes(l: Ledger, l1: Ledger, l2: Ledger, l12: Ledger, l21: Ledger, op: Operation, next: RequestState,
                        t: G.State)
    requires l.operations != [] && Appends(l, op, next, l1) && Appends(l2, op, next, l21)
    requires l2 == l.(operations := l.operations[0 := l.operations[0].(responseState := t)],
                      responseState := l2.responseState)
    requires l12 == l1.(operations := l1.operations[0 := l1.operations[0].(responseState := t)],
                        responseState := l2.responseState)
    ensures l12 == l21
  {
  }

  /** `l'` is what the end of the head leaves of `l`, an error or not. */
  predicate Ends(l: Ledger, error: bool, l': Ledger)
    requires l.operations != []
  {
    var tail := l.operations[1..];
    l' == l.(operations := RemoveInertHeads(if error then DiscardToSync(tail) else tail),
             requestState := if error && !HasSync(tail) then ExtendedError else l.requestState,
             responseState := None)
  }

  lemma CompletionEnds(l: Ledger, m: BackendMessage)
    requires Shaped(l) && l.operations != [] && ResponseFits(l.operations[0], m)
      && ResponseIsTerminal(l.operations[0].kind, m)
    ensures Ends(l, m.ErrorResponse?, CommitResponse(l, m))
  {
    CompletingTheHead(l, m);
  }

  /** Unless the batch is doomed the same operation is admitted on both sides of the end of the head. */
  lemma EndCommutes(l: Ledger, error: bool, l1: Ledger, l2: Ledger, l12: Ledger, l21: Ledger, op: Operation,
                    next: RequestState)
    requires l.operations != [] && Appends(l, op, next, l1) && Appends(l2, op, next, l21)
    requires Ends(l, error, l2) && Ends(l1, error, l12) && (error ==> HasSync(l.operations[1..]))
    ensures l12 == l21
  {
    hide RemoveInertHeads, DiscardToSync, HasSync;
    var tail := l.operations[1..];
    assert l1.operations[1..] == tail + [op];
    DiscardThenAppend(tail, op);
    DropThenAppend(if error then DiscardToSync(tail) else tail, op);
  }

  /** An error with no `Sync` outstanding dooms the message, unless it is the `Sync`. */
  lemma DoomCommutes(l: Ledger, l1: Ledger, l2: Ledger, l12: Ledger, l21: Ledger, op: Operation, next: RequestState,
                     op': Operation, next': RequestState)
    requires l.operations != [] && Appends(l, op, next, l1) && Appends(l2, op', next', l21)
    requires Ends(l, true, l2) && Ends(l1, true, l12) && !HasSync(l.operations[1..])
    requires if op.kind.Sync? then op' == op && next' == next && !op.discarded else Inert(op') && next' == ExtendedError
    ensures l12 == l21
  {
    var tail := l.operations[1..];
    assert l1.operations[1..] == tail + [op];
    DiscardThenAppend(tail, op);
  }

  /** Whether the error `m` of the head dooms what the client sends next. */
  predicate DoomsBatch(l: Ledger, m: BackendMessage)
    requires l.operations != []
  {
    m.ErrorResponse? && ResponseIsTerminal(l.operations[0].kind, m) && !HasSync(l.operations[1..])
  }

  /** What a client message projects to in the error state. */
  lemma ProjectedInError(s: RequestState, m: FrontendMessage)
    requires ProjectFrontend(s, m).Some?
    ensures KindOf(m) == Some(ProjectFrontend(s, m).value.0)
    ensures ProjectFrontend(ExtendedError, m) == Some((KindOf(m).value, if m.Sync? then Ready else ExtendedError))
    ensures m.Sync? ==> ProjectFrontend(s, m).value.1 == Ready
  {
    Classification(s, m);
  }

  /** A response leaves the request state alone unless it dooms the batch. */
  lemma RequestStateAfter(l: Ledger, m: BackendMessage)
    requires Quiet(l) && l.operations != [] && ResponseFits(l.operations[0], m)
    requires !m.CopyInResponse? && !m.CopyBothResponse?
    ensures var l2 := CommitResponse(l, m);
      && l2.requestState == (if DoomsBatch(l, m) then ExtendedError else l.requestState)
      && l2.nextId == l.nextId && l2.limit == l.limit && |l2.operations| <= |l.operations|
  {
    if ResponseIsTerminal(l.operations[0].kind, m) { CompletionEnds(l, m); } else { AdvancesTo(l, m); }
  }

  lemma StillAdmitted(l: Ledger, m: FrontendMessage, handling: Handling, r: BackendMessage)
    requires Quiet(l) && AcceptFrontend(l, m, handling).Admitted?
    requires l.operations != [] && ResponseFits(l.operations[0], r) && !r.CopyInResponse? && !r.CopyBothResponse?
    ensures AcceptFrontend(CommitResponse(l, r), m, handling).Admitted?
  {
    hide CommitResponse, AcceptFrontend, ProjectFrontend, DoomsBatch, ResponseFits, Shaped;
    AdmittedHasRoom(l, m, handling);
    RequestStateAfter(l, r);
    ProjectedInError(l.requestState, m);
    RoomAdmits(CommitResponse(l, r), m, handling);
  }

  lemma AdmittedHasRoom(l: Ledger, m: FrontendMessage, handling: Handling)
    requires Quiet(l) && AcceptFrontend(l, m, handling).Admitted?
    ensures |l.operations| < l.limit && ProjectFrontend(l.requestState, m).Some?
  {
  }

  /** Outside COPY IN and COPY BOTH nothing else is asked of a message. */
  lemma RoomAdmits(l: Ledger, m: FrontendMessage, handling: Handling)
    requires |l.operations| < l.limit && !l.requestState.CopyIn? && !l.requestState.CopyBoth?
    requires ProjectFrontend(l.requestState, m).Some?
    ensures AcceptFrontend(l, m, handling).Admitted?
  {
    hide RemoveInertHeads, Enqueued;
  }

  /** Whether a response may go out depends on the head alone. */
  lemma HeadDecides(l: Ledger, l1: Ledger, localId: Option<nat>, r: BackendMessage)
    requires l.operations != [] && l1.operations != [] && l1.operations[0] == l.operations[0]
    requires PrepareResponse(l, localId, r).Emit?
    ensures PrepareResponse(l1, localId, r).Emit?
  {
  }

  lemma StillFits(l: Ledger, m: FrontendMessage, handling: Handling, localId: Option<nat>, r: BackendMessage)
    requires Quiet(l) && AcceptFrontend(l, m, handling).Admitted? && PrepareResponse(l, localId, r).Emit?
    ensures PrepareResponse(AcceptFrontend(l, m, handling).ledger, localId, r).Emit?
  {
    var l1 := AcceptFrontend(l, m, handling).ledger;
    assert l1.operations != [] && l1.operations[0] == l.operations[0] by { AdmissionAppends(l, m, handling); }
    HeadDecides(l, l1, localId, r);
  }

  /** The operation and request state an admission leaves. */
  function Admits(l: Ledger, m: FrontendMessage, handling: Handling): (Operation, RequestState)
    requires ProjectFrontend(l.requestState, m).Some?
  {
    var (kind, next) := ProjectFrontend(l.requestState, m).value;
    (NewOperation(l, handling, kind, next), next)
  }

  lemma AdmitsAppends(l: Ledger, m: FrontendMessage, handling: Handling)
    requires Quiet(l) && AcceptFrontend(l, m, handling).Admitted?
    ensures ProjectFrontend(l.requestState, m).Some?
    ensures var (op, next) := Admits(l, m, handling);
      Appends(l, op, next, AcceptFrontend(l, m, handling).ledger)
  {
    AdmittedLedger(l, m, handling);
    AdmissionAppends(l, m, handling);
  }

  lemma AdmitsAfter(l: Ledger, m: FrontendMessage, handling: Handling, r: BackendMessage)
    requires Quiet(l) && ProjectFrontend(l.requestState, m).Some?
    requires l.operations != [] && ResponseFits(l.operations[0], r) && !r.CopyInResponse? && !r.CopyBothResponse?
    ensures ProjectFrontend(CommitResponse(l, r).requestState, m).Some?
    ensures var (op, next) := Admits(l, m, handling);
      var (op', next') := Admits(CommitResponse(l, r), m, handling);
      && (op.kind.Sync? <==> m.Sync?)
      && (op.discarded <==> next.ExtendedError? && !op.kind.Sync?)
      && (if DoomsBatch(l, r) && !op.kind.Sync? then op'.discarded && next' == ExtendedError
        else op' == op && next' == next)
  {
    RequestStateAfter(l, r);
    ProjectedInError(l.requestState, m);
  }

  lemma LedgersCommute(l: Ledger, m: FrontendMessage, handling: Handling, r: BackendMessage)
    requires Quiet(l) && AcceptFrontend(l, m, handling).Admitted?
    requires l.operations != [] && ResponseFits(l.operations[0], r) && !r.CopyInResponse? && !r.CopyBothResponse?
    requires var l1 := AcceptFrontend(l, m, handling).ledger;
      Quiet(l1) && l1.operations != [] && l1.operations[0] == l.operations[0]
    requires var l2 := CommitResponse(l, r);
      Quiet(l2) && AcceptFrontend(l2, m, handling).Admitted?
    ensures CommitResponse(AcceptFrontend(l, m, handling).ledger, r) ==
            AcceptFrontend(CommitResponse(l, r), m, handling).ledger
  {
    var l1, l2 := AcceptFrontend(l, m, handling).ledger, CommitResponse(l, r);
    var l12, l21 := CommitResponse(l1, r), AcceptFrontend(l2, m, handling).ledger;
    AdmitsAppends(l, m, handling);
    AdmitsAppends(l2, m, handling);
    AdmitsAfter(l, m, handling, r);
    var (op, next) := Admits(l, m, handling);
    var (op', next') := Admits(l2, m, handling);
    if !ResponseIsTerminal(l.operations[0].kind, r) {
      AdvancesTo(l, r);
      AdvancesTo(l1, r);
      AdvanceCommutes(l, l1, l2, l12, l21, op, next, G.Send(l.operations[0].responseState, r).value);
    } else {
      CompletionEnds(l, r);
      CompletionEnds(l1, r);
      if DoomsBatch(l, r) {
        DoomCommutes(l, l1, l2, l12, l21, op, next, op', next');
      } else {
        EndCommutes(l, r.ErrorResponse?, l1, l2, l12, l21, op, next);
      }
    }
  }

  /** Race confluence: when a client message and a response are both acceptable, each is still
      acceptable after the other, and both orders leave the same ledger. */
  lemma Diamond(l: Ledger, c: Step, r: Step)
    requires Quiet(l) && c.Client? && r.Reply? && Enabled(l, c) && Enabled(l, r)
    ensures Enabled(Next(l, c), r) && Enabled(Next(l, r), c)
    ensures Next(Next(l, c), r) == Next(Next(l, r), c)
  {
    hide AcceptFrontend, CommitResponse, ResponseFits, Quiet;
    var m, handling := c.message, c.handling;
    if PrepareResponse(l, r.localId, r.response).Emit? {
      StepKeepsQuiet(l, c);
      StepKeepsQuiet(l, r);
      StillAdmitted(l, m, handling, r.response);
      StillFits(l, m, handling, r.localId, r.response);
      AdmissionAppends(l, m, handling);
      LedgersCommute(l, m, handling, r.response);
    }
  }

  function ActionOf(r: FrontendResult): FrontendAction
    requires r.Admitted?
  {
    r.admission.action
  }

  /** Only the forward-or-discard action can depend on the order, and exactly when a forwarded
      message other than `Sync` races an error that dooms its batch. */
  lemma ActionsDifferExactlyWhenDoomed(l: Ledger, m: FrontendMessage, handling: Handling, localId: Option<nat>,
                                       r: BackendMessage)
    requires Quiet(l) && Enabled(l, Client(m, handling)) && PrepareResponse(l, localId, r).Emit?
    requires !r.CopyInResponse? && !r.CopyBothResponse?
    ensures var first := AcceptFrontend(l, m, handling);
      var second := AcceptFrontend(CommitResponse(l, r), m, handling);
      && second.Admitted?
      && (ActionOf(first) != ActionOf(second) <==>
            DoomsBatch(l, r) && !m.Sync? && handling.Forward? && !l.requestState.ExtendedError?)
      && (ActionOf(first) != ActionOf(second) ==> ActionOf(first).ForwardIt? && ActionOf(second).DiscardIt?)
  {
    StillAdmitted(l, m, handling, r);
    AdmissionActions(l, m, handling);
    AdmitsAfter(l, m, handling, r);
    Classification(l.requestState, m);
    RequestStateAfter(l, r);
    AdmissionActions(CommitResponse(l, r), m, handling);
  }

  lemma AdmissionActions(l: Ledger, m: FrontendMessage, handling: Handling)
    requires AcceptFrontend(l, m, handling).Admitted?
    ensures ProjectFrontend(l.requestState, m).Some?
    ensures var (op, next) := Admits(l, m, handling);
      ActionOf(AcceptFrontend(l, m, handling)) ==
        if handling.Forward? && !op.discarded then ForwardIt(l.nextId, m) else DiscardIt(l.nextId)
  {
  }

  /* ---------- whole interleavings ---------- */

  /** The ledger after a run in which every step is taken; None as soon as one is not. */
  function Plays(l: Ledger, steps: seq<Step>): Option<Ledger>
    decreases steps
  {
    if steps == [] then Some(l)
    else if Enabled(l, steps[0]) then Plays(Next(l, steps[0]), steps[1..])
    else None
  }

  /** One direction of an interleaving. */
  function Direction(steps: seq<Step>, client: bool): seq<Step>
    decreases steps
  {
    if steps == [] then []
    else if steps[0].Client? == client then [steps[0]] + Direction(steps[1..], client)
    else Direction(steps[1..], client)
  }

  /** The interleaving without the first step of one direction. */
  function Without(steps: seq<Step>, client: bool): seq<Step>
    decreases steps
  {
    if steps == [] then []
    else if steps[0].Client? == client then steps[1..]
    else [steps[0]] + Without(steps[1..], client)
  }

  lemma {:induction false} WithoutDirections(steps: seq<Step>, client: bool)
    requires Direction(steps, client) != []
    ensures Direction(Without(steps, client), client) == Direction(steps, client)[1..]
    ensures Direction(Without(steps, client), !client) == Direction(steps, !client)
    decreases steps
  {
    if steps[0].Client? != client {
      WithoutDirections(steps[1..], client);
      assert Without(steps, client)[1..] == Without(steps[1..], client);
    }
  }

  lemma {:induction false} NoDirections(steps: seq<Step>)
    requires Direction(steps, true) == [] && Direction(steps, false) == []
    ensures steps == []
  {
  }

  /** The first step of a direction, when it is acceptable at once, may be taken at once. */
  lemma {:induction false} TakenEarly(l: Ledger, steps: seq<Step>, client: bool)
    requires Quiet(l) && Plays(l, steps).Some? && Direction(steps, client) != []
    requires Enabled(l, Direction(steps, client)[0])
    ensures Plays(Next(l, Direction(steps, client)[0]), Without(steps, client)) == Plays(l, steps)
    decreases steps
  {
    var x, early := steps[0], Direction(steps, client)[0];
    if x.Client? != client {
      DirectionHas(steps, client);
      StepKeepsQuiet(l, x);
      if client { Diamond(l, early, x); } else { Diamond(l, x, early); }
      TakenEarly(Next(l, x), steps[1..], client);
      assert Without(steps, client)[1..] == Without(steps[1..], client);
    }
  }

  lemma {:induction false} DirectionHas(steps: seq<Step>, client: bool)
    ensures forall i :: 0 <= i < |Direction(steps, client)| ==> Direction(steps, client)[i].Client? == client
    decreases steps
  {
    if steps != [] { DirectionHas(steps[1..], client); }
  }

  /** Any two complete interleavings of the same client messages and the same responses leave the
      same ledger: operations, request state, response state and next id. */
  lemma {:induction false} InterleavingsAgree(l: Ledger, a: seq<Step>, b: seq<Step>)
    requires Quiet(l) && Plays(l, a).Some? && Plays(l, b).Some?
    requires Direction(a, true) == Direction(b, true) && Direction(a, false) == Direction(b, false)
    ensures Plays(l, a) == Plays(l, b)
    decreases a
  {
    if a == [] {
      NoDirections(b);
    } else {
      var client := a[0].Client?;
      assert Direction(a, client)[0] == a[0] && Direction(a, client)[1..] == Direction(a[1..], client);
      TakenEarly(l, b, client);
      WithoutDirections(b, client);
      StepKeepsQuiet(l, a[0]);
      InterleavingsAgree(Next(l, a[0]), a[1..], Without(b, client));
    }
  }
}
