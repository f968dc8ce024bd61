/** Whole runs of the ledger, and what holds after every one of them, COPY included. */
module Histories {
  import opened Messages
  import opened Ledgers
  import opened Shape
  import G = ServerGrammar

  /** One call on the ledger: `accept_frontend`, or `accept_backend`/`try_emit_local`. */
  datatype Step = Client(message: FrontendMessage, handling: Handling)
    | Reply(localId: Option<nat>, response: BackendMessage)

  /** An emitted response together with the operation it was emitted for. */
  datatype Emission = Emission(id: nat, message: BackendMessage)

  /** A ledger with everything a run did to it: the accepted client messages (by operation id), the
      emitted responses and the operations dropped without a completion, each in order. */
  datatype History = History(ledger: Ledger, requests: seq<FrontendMessage>, emitted: seq<Emission>,
                             dropped: seq<Operation>)

  function Start(limit: Limit): History {
    History(Empty(limit), [], [], [])
  }

  /** A refused, deferred or illegal step records nothing, and asynchronous messages are no
      operation's response. */
  function Apply(h: History, step: Step): History {
    var l := h.ledger;
    match step
    case Client(m, handling) => (
      match AcceptFrontend(l, m, handling)
      case Admitted(_, l') =>
        var (kind, next) := ProjectFrontend(l.requestState, m).value;
        History(l', h.requests + [m], h.emitted, h.dropped + InertHeads(Enqueued(l, m, handling, kind, next)))
      case _ => h)
    case Reply(localId, m) =>
      if PrepareResponse(l, localId, m).Emit? then
        History(CommitResponse(l, m), h.requests, h.emitted + [Emission(l.operations[0].id, m)],
                h.dropped + InertHeads(Settled(l, m).operations))
      else
        h.(ledger := AcceptResponse(l, localId, m).ledger)
  }

  function Replay(h: History, steps: seq<Step>): History
    decreases steps
  {
    if steps == [] then h else Replay(Apply(h, steps[0]), steps[1..])
  }

  lemma {:induction false} ReplaySnoc(h: History, steps: seq<Step>, step: Step)
    ensures Replay(h, steps + [step]) == Apply(Replay(h, steps), step)
    decreases steps
  {
    if steps == [] {
      assert (steps + [step])[1..] == [];
    } else {
      assert (steps + [step])[1..] == steps[1..] + [step];
      ReplaySnoc(Apply(h, steps[0]), steps[1..], step);
    }
  }

  /* ---------- identities ---------- */

  /** Fewer than 2^64 operations were ever accepted, so the id counter has not saturated. */
  predicate Unsaturated(h: History) {
    |h.requests| <= U64_MAX
  }

  /** Outstanding ids are the contiguous window that ends at the next id. */
  predicate Window(l: Ledger) {
    && |l.operations| <= l.nextId
    && forall i :: 0 <= i < |l.operations| ==> l.operations[i].id == l.nextId - |l.operations| + i
  }

  /** The oldest outstanding id, or the next id when nothing is outstanding. */
  function Base(l: Ledger): (b: int) {
    l.nextId - |l.operations|
  }

  /** Emissions never go back to an earlier operation. */
  predicate Ordered(es: seq<Emission>) {
    forall i, j :: 0 <= i < j < |es| ==> es[i].id <= es[j].id
  }

  /** Every emission belongs to a completed operation or to the head. */
  predicate EmissionsReach(h: History) {
    forall i :: 0 <= i < |h.emitted| ==>
      h.emitted[i].id < Base(h.ledger) + (if h.ledger.operations == [] then 0 else 1)
  }

  predicate KindsMatch(h: History) {
    forall i :: 0 <= i < |h.ledger.operations| ==>
      && h.ledger.operations[i].id < |h.requests|
      && KindOf(h.requests[h.ledger.operations[i].id]) == Some(h.ledger.operations[i].kind)
  }

  /* ---------- obligations ---------- */

  /** How many of these operations owe a `ReadyForQuery`. */
  function Owed(ops: seq<Operation>): nat {
    if ops == [] then 0 else Owed(ops[..|ops| - 1]) + (if Owes(ops[|ops| - 1].kind) then 1 else 0)
  }

  /** How many client messages asked for a `ReadyForQuery`. */
  function Asked(ms: seq<FrontendMessage>): nat {
    if ms == [] then 0
    else
      var last := ms[|ms| - 1];
      Asked(ms[..|ms| - 1]) + (if last.Query? || last.FunctionCall? || last.Sync? then 1 else 0)
  }

  /** How many `ReadyForQuery` messages were emitted. */
  function Readies(es: seq<Emission>): nat {
    if es == [] then 0 else Readies(es[..|es| - 1]) + (if es[|es| - 1].message.ReadyForQuery? then 1 else 0)
  }

  predicate Conserved(h: History) {
    && Asked(h.requests) == Readies(h.emitted) + Owed(h.ledger.operations) + Owed(h.dropped)
    && forall i :: 0 <= i < |h.dropped| ==> Owes(h.dropped[i].kind) ==> h.dropped[i].discarded
  }

  lemma {:induction false} OwedConcat(a: seq<Operation>, b: seq<Operation>)
    ensures Owed(a + b) == Owed(a) + Owed(b)
    decreases |b|
  {
    if b == [] {
      assert a + b == a;
    } else {
      assert (a + b)[..|a + b| - 1] == a + b[..|b| - 1];
      OwedConcat(a, b[..|b| - 1]);
    }
  }

  lemma {:induction false} OwedByKinds(a: seq<Operation>, b: seq<Operation>)
    requires |a| == |b| && forall i :: 0 <= i < |a| ==> a[i].kind == b[i].kind
    ensures Owed(a) == Owed(b)
    decreases |a|
  {
    if a != [] { OwedByKinds(a[..|a| - 1], b[..|b| - 1]); }
  }

  lemma CleanupConserves(ops: seq<Operation>)
    ensures Owed(ops) == Owed(InertHeads(ops)) + Owed(RemoveInertHeads(ops))
    ensures forall i :: 0 <= i < |InertHeads(ops)| ==> Owes(InertHeads(ops)[i].kind) ==> InertHeads(ops)[i].discarded
  {
    assert ops == InertHeads(ops) + RemoveInertHeads(ops);
    OwedConcat(InertHeads(ops), RemoveInertHeads(ops));
  }

  /* ---------- the invariant of every run ---------- */

  /** Identity, order and obligations; the grammar side of the invariant is `Shaped`. */
  predicate Bookkeeping(h: History) {
    && h.ledger.nextId == |h.requests|
    && Window(h.ledger)
    && KindsMatch(h)
    && Ordered(h.emitted) && EmissionsReach(h)
    && Conserved(h)
  }

  predicate Inv(h: History) {
    Shaped(h.ledger) && Bookkeeping(h)
  }

  /** The operations `a` are those of `b` from position `k` on, apart from flags and response states. */
  predicate SameRecords(a: seq<Operation>, b: seq<Operation>, k: nat) {
    |a| + k == |b| && forall i :: 0 <= i < |a| ==> a[i].id == b[i + k].id && a[i].kind == b[i + k].kind
  }

  /** From `h` to `h'` one request was recorded as the last of `ops` and inert heads were dropped. */
  predicate Recorded(h: History, h': History, m: FrontendMessage, ops: seq<Operation>) {
    && |ops| > 0 && SameRecords(ops[..|ops| - 1], h.ledger.operations, 0)
    && ops[|ops| - 1].id == h.ledger.nextId && KindOf(m) == Some(ops[|ops| - 1].kind)
    && h'.ledger.operations == ops[LiveFrom(ops, 0)..]
    && h'.ledger.nextId == h.ledger.nextId + 1
    && h'.requests == h.requests + [m] && h'.emitted == h.emitted && h'.dropped == h.dropped + InertHeads(ops)
  }

  lemma RecordingKeepsWindow(h: History, h': History, m: FrontendMessage, ops: seq<Operation>)
    requires Bookkeeping(h) && Recorded(h, h', m, ops)
    ensures Window(h'.ledger) && h'.ledger.nextId == |h'.requests|
    ensures EmissionsReach(h')
  {
    hide Conserved, KindsMatch, Ordered, Inert, KindOf;
    assert forall i :: 0 <= i < |ops| - 1 ==> ops[i].id == ops[..|ops| - 1][i].id;
  }

  lemma RecordingKeepsKinds(h: History, h': History, m: FrontendMessage, ops: seq<Operation>)
    requires Bookkeeping(h) && Recorded(h, h', m, ops)
    ensures KindsMatch(h')
  {
    hide Conserved, Window, Ordered, EmissionsReach, Inert;
    var k, ops' := LiveFrom(ops, 0), h'.ledger.operations;
    forall i | 0 <= i < |ops'|
      ensures ops'[i].id < |h'.requests| && KindOf(h'.requests[ops'[i].id]) == Some(ops'[i].kind)
    {
      if k + i < |ops| - 1 { assert ops'[i] == ops[..|ops| - 1][k + i]; }
    }
  }

  lemma RecordingConserves(h: History, h': History, m: FrontendMessage, ops: seq<Operation>)
    requires Bookkeeping(h) && Recorded(h, h', m, ops)
    ensures Conserved(h')
  {
    hide Window, KindsMatch, Ordered, EmissionsReach, Readies, LiveFrom, Inert;
    assert Owed(ops) == Owed(h.ledger.operations) + (if Owes(ops[|ops| - 1].kind) then 1 else 0) by {
      OwedByKinds(ops[..|ops| - 1], h.ledger.operations);
    }
    assert Asked(h'.requests) == Asked(h.requests) + (if Owes(ops[|ops| - 1].kind) then 1 else 0) by {
      assert h'.requests[..|h'.requests| - 1] == h.requests;
    }
    CleanupConserves(ops);
    OwedConcat(h.dropped, InertHeads(ops));
  }

  lemma AdmissionHistory(h: History, m: FrontendMessage, handling: Handling)
    requires AcceptFrontend(h.ledger, m, handling).Admitted?
    ensures ProjectFrontend(h.ledger.requestState, m).Some?
    ensures var l := h.ledger;
      var (kind, next) := ProjectFrontend(l.requestState, m).value;
      var ops := Enqueued(l, m, handling, kind, next);
      Apply(h, Client(m, handling)) ==
        History(l.(operations := RemoveInertHeads(ops), requestState := next, nextId := SaturatingSucc(l.nextId)),
                h.requests + [m], h.emitted, h.dropped + InertHeads(ops))
  {
    AdmittedLedger(h.ledger, m, handling);
  }

  lemma EnqueuedRecords(l: Ledger, m: FrontendMessage, handling: Handling)
    requires ProjectFrontend(l.requestState, m).Some?
    ensures var (kind, next) := ProjectFrontend(l.requestState, m).value;
      var ops := Enqueued(l, m, handling, kind, next);
      && |ops| > 0 && SameRecords(ops[..|ops| - 1], l.operations, 0)
      && ops[|ops| - 1].id == l.nextId && KindOf(m) == Some(ops[|ops| - 1].kind)
  {
    var (kind, next) := ProjectFrontend(l.requestState, m).value;
    assert KindOf(m) == Some(kind) by { Classification(l.requestState, m); }
    EnqueuedKeepsQueue(l, m, handling, kind, next);
  }

  lemma AdmissionKeepsBooks(h: History, m: FrontendMessage, handling: Handling)
    requires Inv(h) && AcceptFrontend(h.ledger, m, handling).Admitted? && |h.requests| < U64_MAX
    ensures Bookkeeping(Apply(h, Client(m, handling)))
  {
    AdmissionHistory(h, m, handling);
    EnqueuedRecords(h.ledger, m, handling);
    var (kind, next) := ProjectFrontend(h.ledger.requestState, m).value;
    var ops := Enqueued(h.ledger, m, handling, kind, next);
    var h' := Apply(h, Client(m, handling));
    assert Recorded(h, h', m, ops);
    RecordingKeepsBooks(h, h', m, ops);
  }

  lemma RecordingKeepsBooks(h: History, h': History, m: FrontendMessage, ops: seq<Operation>)
    requires Bookkeeping(h) && Recorded(h, h', m, ops)
    ensures Bookkeeping(h')
  {
    RecordingKeepsWindow(h, h', m, ops);
    RecordingKeepsKinds(h, h', m, ops);
    RecordingConserves(h, h', m, ops);
  }

  lemma AdmissionKeepsInv(h: History, m: FrontendMessage, handling: Handling)
    requires Inv(h) && AcceptFrontend(h.ledger, m, handling).Admitted? && |h.requests| < U64_MAX
    ensures Inv(Apply(h, Client(m, handling)))
  {
    FrontendKeepsShape(h.ledger, m, handling);
    AdmissionKeepsBooks(h, m, handling);
  }

  /** From `h` to `h'` the head answered with `m`, leaving `ops` before inert heads were dropped. */
  predicate Answered(h: History, h': History, m: BackendMessage, ops: seq<Operation>) {
    && h.ledger.operations != []
    && (|| (SameRecords(ops, h.ledger.operations, 1) && (m.ReadyForQuery? <==> Owes(h.ledger.operations[0].kind)))
        || (SameRecords(ops, h.ledger.operations, 0) && !m.ReadyForQuery? && LiveFrom(ops, 0) == 0))
    && h'.ledger.operations == ops[LiveFrom(ops, 0)..]
    && h'.ledger.nextId == h.ledger.nextId
    && h'.requests == h.requests
    && h'.emitted == h.emitted + [Emission(h.ledger.operations[0].id, m)]
    && h'.dropped == h.dropped + InertHeads(ops)
  }

  lemma AnsweringKeepsWindow(h: History, h': History, m: BackendMessage, ops: seq<Operation>)
    requires Bookkeeping(h) && Answered(h, h', m, ops)
    ensures Window(h'.ledger) && h'.ledger.nextId == |h'.requests|
    ensures Ordered(h'.emitted) && EmissionsReach(h')
  {
  }

  lemma AnsweringKeepsKinds(h: History, h': History, m: BackendMessage, ops: seq<Operation>)
    requires Bookkeeping(h) && Answered(h, h', m, ops)
    ensures KindsMatch(h')
  {
    var k, ops' := LiveFrom(ops, 0), h'.ledger.operations;
    forall i | 0 <= i < |ops'|
      ensures ops'[i].id < |h'.requests| && KindOf(h'.requests[ops'[i].id]) == Some(ops'[i].kind)
    {
      assert ops'[i] == ops[k + i];
    }
  }

  lemma AnsweringOwes(before: seq<Operation>, m: BackendMessage, ops: seq<Operation>)
    requires before != []
    requires || (SameRecords(ops, before, 1) && (m.ReadyForQuery? <==> Owes(before[0].kind)))
             || (SameRecords(ops, before, 0) && !m.ReadyForQuery?)
    ensures Owed(before) == Owed(ops) + (if m.ReadyForQuery? then 1 else 0)
  {
    if SameRecords(ops, before, 1) {
      OwedByKinds(ops, before[1..]);
      assert before == [before[0]] + before[1..];
      OwedConcat([before[0]], before[1..]);
    } else {
      OwedByKinds(ops, before);
    }
  }

  lemma AnsweringConserves(h: History, h': History, m: BackendMessage, ops: seq<Operation>)
    requires Bookkeeping(h) && Answered(h, h', m, ops)
    ensures Conserved(h')
  {
    AnsweringOwes(h.ledger.operations, m, ops);
    CleanupConserves(ops);
    OwedConcat(h.dropped, InertHeads(ops));
    assert h'.emitted[..|h'.emitted| - 1] == h.emitted;
  }

  lemma EmissionAnswers(h: History, localId: Option<nat>, m: BackendMessage)
    requires Inv(h) && PrepareResponse(h.ledger, localId, m).Emit?
    ensures Answered(h, Apply(h, Reply(localId, m)), m, Settled(h.ledger, m).operations)
  {
    var l := h.ledger;
    var head, ops := l.operations[0], Settled(l, m).operations;
    if ResponseIsTerminal(head.kind, m) {
      assert SameRecords(ops, l.operations, 1) by { CompletingTheHead(l, m); }
      assert m.ReadyForQuery? <==> Owes(head.kind) by { CompletionAgreesWithGrammar(head.kind, head.responseState, m); }
    } else {
      assert SameRecords(ops, l.operations, 0) && LiveFrom(ops, 0) == 0 by { AdvancingTheHead(l, m); }
      assert !m.ReadyForQuery? by { CompletionAgreesWithGrammar(head.kind, head.responseState, m); }
    }
    EmissionHistory(h, localId, m);
  }

  lemma EmissionHistory(h: History, localId: Option<nat>, m: BackendMessage)
    requires PrepareResponse(h.ledger, localId, m).Emit?
    ensures h.ledger.operations != [] && ResponseFits(h.ledger.operations[0], m)
    ensures var l, h' := h.ledger, Apply(h, Reply(localId, m));
      && h' == History(CommitResponse(l, m), h.requests, h.emitted + [Emission(l.operations[0].id, m)],
                       h.dropped + InertHeads(Settled(l, m).operations))
      && h'.ledger.nextId == l.nextId && h'.ledger.limit == l.limit
  {
  }

  lemma AnsweringKeepsBooks(h: History, h': History, m: BackendMessage, ops: seq<Operation>)
    requires Bookkeeping(h) && Answered(h, h', m, ops)
    ensures Bookkeeping(h')
  {
    AnsweringKeepsWindow(h, h', m, ops);
    AnsweringKeepsKinds(h, h', m, ops);
    AnsweringConserves(h, h', m, ops);
  }

  lemma EmissionKeepsInv(h: History, localId: Option<nat>, m: BackendMessage)
    requires Inv(h) && PrepareResponse(h.ledger, localId, m).Emit?
    ensures Inv(Apply(h, Reply(localId, m)))
  {
    hide Shaped, Bookkeeping, Answered, CommitResponse, Settled;
    EmissionAnswers(h, localId, m);
    EmittingKeepsShape(h.ledger, m);
    AnsweringKeepsBooks(h, Apply(h, Reply(localId, m)), m, Settled(h.ledger, m).operations);
  }

  /** Parking a local error changes flags only. */
  lemma ParkingKeepsRecords(l: Ledger, localId: Option<nat>, m: BackendMessage)
    requires !PrepareResponse(l, localId, m).Emit?
    ensures SameRecords(AcceptResponse(l, localId, m).ledger.operations, l.operations, 0)
    ensures AcceptResponse(l, localId, m).ledger.nextId == l.nextId
  {
  }

  lemma QuietReplyKeepsInv(h: History, localId: Option<nat>, m: BackendMessage)
    requires Inv(h) && !PrepareResponse(h.ledger, localId, m).Emit?
    ensures Inv(Apply(h, Reply(localId, m)))
  {
    ResponseKeepsShape(h.ledger, localId, m);
    ParkingKeepsRecords(h.ledger, localId, m);
    SameRecordsKeepBooks(h, AcceptResponse(h.ledger, localId, m).ledger);
  }

  lemma SameRecordsKeepBooks(h: History, l': Ledger)
    requires Bookkeeping(h) && SameRecords(l'.operations, h.ledger.operations, 0) && l'.nextId == h.ledger.nextId
    ensures Bookkeeping(h.(ledger := l'))
  {
    OwedByKinds(l'.operations, h.ledger.operations);
  }

  lemma StepKeepsInv(h: History, step: Step)
    requires Inv(h) && Unsaturated(Apply(h, step))
    ensures Inv(Apply(h, step))
  {
    match step
    case Client(m, handling) =>
      if AcceptFrontend(h.ledger, m, handling).Admitted? { AdmissionKeepsInv(h, m, handling); }
    case Reply(localId, m) =>
      if PrepareResponse(h.ledger, localId, m).Emit? {
        EmissionKeepsInv(h, localId, m);
      } else {
        QuietReplyKeepsInv(h, localId, m);
      }
  }

  lemma {:induction false} RequestsOnlyGrow(h: History, steps: seq<Step>)
    ensures |h.requests| <= |Replay(h, steps).requests|
    decreases steps
  {
    if steps != [] { RequestsOnlyGrow(Apply(h, steps[0]), steps[1..]); }
  }

  lemma StepCounts(h: History, step: Step)
    requires h.ledger.nextId == |h.requests|
    ensures Apply(h, step).ledger.nextId < U64_MAX ==> Apply(h, step).ledger.nextId == |Apply(h, step).requests|
  {
    hide RemoveInertHeads, Enqueued, InertHeads;
  }

  lemma StepStaysSaturated(h: History, step: Step)
    requires h.ledger.nextId >= U64_MAX
    ensures Apply(h, step).ledger.nextId >= U64_MAX
  {
    hide RemoveInertHeads, Enqueued, InertHeads;
  }

  lemma {:induction false} RunStaysSaturated(h: History, steps: seq<Step>)
    requires h.ledger.nextId >= U64_MAX
    ensures Replay(h, steps).ledger.nextId >= U64_MAX
    decreases steps
  {
    hide Apply;
    if steps != [] {
      StepStaysSaturated(h, steps[0]);
      RunStaysSaturated(Apply(h, steps[0]), steps[1..]);
    }
  }

  /** While the counter is below its end it counts every accepted request. */
  lemma {:induction false} IdsCountRequests(h: History, steps: seq<Step>)
    requires h.ledger.nextId == |h.requests| && Replay(h, steps).ledger.nextId < U64_MAX
    ensures Replay(h, steps).ledger.nextId == |Replay(h, steps).requests|
    decreases steps
  {
    hide Apply;
    if steps != [] {
      StepCounts(h, steps[0]);
      var h' := Apply(h, steps[0]);
      if h'.ledger.nextId >= U64_MAX { RunStaysSaturated(h', steps[1..]); }
      IdsCountRequests(h', steps[1..]);
    }
  }

  /** Every run keeps the invariant: outstanding ids are the contiguous window ending at the next
      id, the head is live, emissions are in id order, and every accepted obligation is answered by
      one `ReadyForQuery`, outstanding, or dropped as discarded. */
  lemma {:induction false} RunsKeepInv(h: History, steps: seq<Step>)
    requires Inv(h) && Unsaturated(Replay(h, steps))
    ensures Inv(Replay(h, steps))
    decreases steps
  {
    if steps != [] {
      RequestsOnlyGrow(Apply(h, steps[0]), steps[1..]);
      StepKeepsInv(h, steps[0]);
      RunsKeepInv(Apply(h, steps[0]), steps[1..]);
    }
  }

  /** FIFO and conservation, spelt out for every run from an empty ledger: outstanding ids are the
      contiguous window ending at the next id, the head is neither inert nor discarded, emitted
      responses carry non-decreasing ids, and accepted Query, FunctionCall and Sync messages equal
      the ReadyForQuery messages emitted, those outstanding and those dropped as discarded. */
  lemma EveryRunIsOrderedAndConserving(limit: Limit, steps: seq<Step>)
    requires Unsaturated(Replay(Start(limit), steps))
    ensures var h := Replay(Start(limit), steps);
      var ops := h.ledger.operations;
      && h.ledger.nextId == |h.requests|
      && (forall i :: 0 <= i < |ops| ==> ops[i].id == |h.requests| - |ops| + i)
      && (ops != [] ==> !Inert(ops[0]) && !ops[0].discarded)
      && (forall i, j :: 0 <= i < j < |h.emitted| ==> h.emitted[i].id <= h.emitted[j].id)
      && Asked(h.requests) == Readies(h.emitted) + Owed(ops) + Owed(h.dropped)
      && (forall i :: 0 <= i < |h.dropped| && Owes(h.dropped[i].kind) ==> h.dropped[i].discarded)
  {
    RunsKeepInv(Start(limit), steps);
  }
}
