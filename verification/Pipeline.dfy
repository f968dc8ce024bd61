/** `Pipeline` (src/pipeline.rs:549-1264): the ledger as the proxy keeps it, with its fields updated
    in place.  Every method is proved against the ledger functions. */
module Pipelines {
  import opened Messages
  import opened Ledgers
  import opened Batches
  import opened Verdicts
  import G = ServerGrammar

  /** What the caller of `accept_frontend` sees. */
  datatype FrontendOutcome = Taken(admission: Admission) | AtCapacity | IllegalIn(state: PipelineState) | Aborted

  function OutcomeOf(r: FrontendResult): FrontendOutcome {
    match r
    case Admitted(admission, _) => Taken(admission)
    case Capacity => AtCapacity
    case Illegal(state) => IllegalIn(state)
    case Unreachable => Aborted
  }

  datatype Replacement = Prepared(pipeline: Pipeline) | Refusal(error: BackendSequenceError)

  datatype Sequence = PreparedSequence(pipeline: Pipeline, admissions: seq<Admission>)
    | SequenceRefused(at: nat, failure: FrontendOutcome)

  class Pipeline {
    const limit: Limit
    var operations: seq<Operation>
    var requestState: RequestState
    var responseState: Option<PipelineState>
    var nextId: nat

    ghost function Contents(): Ledger
      reads this
    {
      Ledger(limit, operations, requestState, responseState, nextId)
    }

    constructor (limit: Limit)
      ensures Contents() == Empty(limit)
    {
      this.limit := limit;
      operations := [];
      requestState := Ready;
      responseState := None;
      nextId := 0;
    }

    constructor Snapshot(other: Pipeline)
      ensures Contents() == other.Contents()
    {
      limit := other.limit;
      operations := other.operations;
      requestState := other.requestState;
      responseState := other.responseState;
      nextId := other.nextId;
    }

    function State(): (s: PipelineState)
      reads this
      ensures s == StateOf(Contents())
    {
      if responseState.Some? then responseState.value else Public(requestState)
    }

    /* ---------- attribution ---------- */

    method BackendOperationId(m: BackendMessage) returns (id: Option<nat>)
      ensures id == Ledgers.BackendOperationId(Contents(), m) && Attributed(Contents(), m, id)
    {
      AttributionExactly(Contents(), m, Ledgers.BackendOperationId(Contents(), m));
      hide Attributed;
      if IsAsynchronous(m) { return None; }
      var i := 0;
      while i < |operations|
        invariant i <= |operations| && FirstFit(operations, 0, m) == FirstFit(operations, i, m)
      {
        if operations[i].origin.Forwarded? && !operations[i].discarded && ResponseFits(operations[i], m) {
          return Some(operations[i].id);
        }
        i := i + 1;
      }
      return None;
    }

    method BackendOperationIds(ms: seq<BackendMessage>) returns (ids: seq<Option<nat>>)
      ensures ids == AttributedIds(Contents(), ms)
    {
      hide Ledgers.AcceptResponse, Ledgers.BackendOperationId, AttributedIds;
      var projection := new Pipeline.Snapshot(this);
      ids := [];
      var i := 0;
      assert ms[0..] == ms;
      assert [] + AttributedIds(Contents(), ms) == AttributedIds(Contents(), ms);
      while i < |ms|
        invariant i <= |ms| && fresh(projection)
        invariant AttributedIds(Contents(), ms) == ids + AttributedIds(projection.Contents(), ms[i..])
      {
        AttributedStep(ids, projection.Contents(), ms, i);
        var id := projection.BackendOperationId(ms[i]);
        var _ := projection.AcceptResponse(None, ms[i]);
        ids := ids + [id];
        i := i + 1;
      }
      AttributedEnd(ids, projection.Contents(), ms);
    }

    /* ---------- client messages ---------- */

    method RemoveInertHeads()
      modifies this`operations
      ensures operations == Ledgers.RemoveInertHeads(old(operations))
    {
      ghost var k := 0;
      while operations != [] && Inert(operations[0])
        invariant k <= |old(operations)| && operations == old(operations)[k..]
        invariant LiveFrom(old(operations), 0) == LiveFrom(old(operations), k)
        decreases |operations|
      {
        operations := operations[1..];
        k := k + 1;
      }
    }

    /** The newest live Sync, searched from the back. */
    method IgnoreLastSync()
      modifies this`operations
      ensures operations == Ledgers.IgnoreLastSync(old(operations))
    {
      var i := |operations|;
      while i > 0
        invariant 0 <= i <= |operations| && LastLiveSync(operations, |operations|) == LastLiveSync(operations, i)
      {
        if operations[i - 1].kind.Sync? && !operations[i - 1].discarded {
          operations := operations[i - 1 := operations[i - 1].(discarded := true)];
          return;
        }
        i := i - 1;
      }
    }

    /** The head sees the client message. */
    method TouchHead(m: FrontendMessage)
      modifies this`operations
      ensures operations == Ledgers.TouchHead(old(operations), m)
    {
      if operations != [] {
        var target := G.Receive(operations[0].responseState, m);
        if target.Some? { operations := operations[0 := operations[0].(responseState := target.value)]; }
      }
    }

    method AcceptFrontend(m: FrontendMessage, handling: Handling) returns (r: FrontendOutcome)
      modifies this
      ensures var spec := Ledgers.AcceptFrontend(old(Contents()), m, handling);
        && r == OutcomeOf(spec)
        && Contents() == (if spec.Admitted? then spec.ledger else old(Contents()))
    {
      hide Ledgers.CommitFrontend, ProjectFrontend, HasFrontendPhase;
      if |operations| == limit && !requestState.CopyIn? && !requestState.CopyBoth? {
        return AtCapacity;
      }
      var projected := ProjectFrontend(requestState, m);
      if projected.None? {
        return IllegalIn(State());
      }
      if !HasFrontendPhase(requestState, if operations == [] then None else Some(operations[0].kind)) {
        return Aborted;
      }
      var admission := CommitFrontend(m, handling, projected.value.0, projected.value.1);
      r := Taken(admission);
    }

    method CommitFrontend(m: FrontendMessage, handling: Handling, kind: Kind, next: RequestState)
      returns (admission: Admission)
      modifies this
      ensures Ledgers.CommitFrontend(old(Contents()), m, handling, kind, next) == Admitted(admission, Contents())
    {
      hide Ledgers.CommitFrontend, Ledgers.RemoveInertHeads, Enqueued;
      var waiting, id := operations != [], nextId;
      var discarded := next.ExtendedError? && !kind.Sync?;
      Enqueue(m, handling, kind, next);
      nextId := SaturatingSucc(nextId);
      requestState := next;
      var action := if handling.Forward? && !discarded then ForwardIt(id, m) else DiscardIt(id);
      admission := if waiting then Waiting(action) else Immediate(action);
      RemoveInertHeads();
      CommittedLedger(old(Contents()), m, handling, kind, next);
    }

    /** Records the message behind the others: a COPY IN end forgives the pending Sync and the head
        sees the message first. */
    method Enqueue(m: FrontendMessage, handling: Handling, kind: Kind, next: RequestState)
      modifies this`operations
      ensures operations == Enqueued(old(Contents()), m, handling, kind, next)
    {
      hide Ledgers.IgnoreLastSync, Ledgers.TouchHead, Enqueued, NewOperation;
      var forgives := requestState.CopyIn? && (kind.CopyDone? || kind.CopyFail?);
      if forgives { IgnoreLastSync(); }
      TouchHead(m);
      var origin, discarded := if handling.Forward? then Forwarded else Local, next.ExtendedError? && !kind.Sync?;
      operations := operations + [Operation(nextId, kind, origin, discarded, InitialResponseState(kind))];
      EnqueuedParts(old(Contents()), m, handling, kind, next);
    }

    /* ---------- responses ---------- */

    method PrepareResponse(localId: Option<nat>, m: BackendMessage) returns (p: PreparedResponse)
      ensures p == Ledgers.PrepareResponse(Contents(), localId, m) && Judged(Contents(), localId, m, p)
    {
      VerdictsExactly(Contents(), localId, m, Ledgers.PrepareResponse(Contents(), localId, m));
      hide Judged;
      if IsAsynchronous(m) { return Asynchronous; }
      if operations == [] { return PreparedResponse.Rejected; }
      var head := operations[0];
      if localId.Some? {
        if head.id != localId.value { return PreparedResponse.Deferred; }
        if head.origin.Forwarded? { return PreparedResponse.Rejected; }
      } else if head.origin.Local? {
        var i := 1;
        while i < |operations|
          invariant 1 <= i <= |operations| && AnyForwardedFits(operations, 1, m) == AnyForwardedFits(operations, i, m)
        {
          if operations[i].origin.Forwarded? && ResponseFits(operations[i], m) { return PreparedResponse.Deferred; }
          i := i + 1;
        }
        return PreparedResponse.Rejected;
      }
      if head.discarded || !ResponseFits(head, m) {
        var i := 1;
        while i < |operations|
          invariant 1 <= i <= |operations| && AnyFits(operations, 1, m) == AnyFits(operations, i, m)
        {
          if ResponseFits(operations[i], m) { return PreparedResponse.Deferred; }
          i := i + 1;
        }
        return PreparedResponse.Rejected;
      }
      return Emit;
    }

    /** Marks operations from `from` on as discarded, up to the first Sync. */
    method DiscardFrom(from: nat) returns (syncAccepted: bool)
      requires from <= |operations|
      modifies this`operations
      ensures var ops, k := old(operations), SyncFrom(old(operations), from);
        && syncAccepted == (k < |ops|)
        && operations == seq(|ops|,
                             i requires 0 <= i < |ops| => ops[i].(discarded := ops[i].discarded || from <= i < k))
    {
      ghost var ops := operations;
      syncAccepted := false;
      var i := from;
      while i < |operations|
        invariant from <= i <= |operations| == |ops| && !syncAccepted && SyncFrom(ops, from) == SyncFrom(ops, i)
        invariant forall j :: 0 <= j < |ops| ==>
          operations[j] == ops[j].(discarded := ops[j].discarded || from <= j < i)
      {
        if operations[i].kind.Sync? {
          syncAccepted := true;
          break;
        }
        operations := operations[i := operations[i].(discarded := true)];
        i := i + 1;
      }
      assert i == SyncFrom(ops, from);
    }

    method EnterExtendedError()
      modifies this
      ensures Contents() == Ledgers.EnterExtendedError(old(Contents()))
    {
      responseState := None;
      var syncAccepted := DiscardFrom(0);
      if !syncAccepted { requestState := ExtendedError; }
      assert operations == DiscardToSync(old(operations));
    }

    method ProjectDeferredLocalError(id: nat)
      modifies this
      ensures Contents() == Ledgers.ProjectDeferredLocalError(old(Contents()), id)
    {
      var at := 0;
      while at < |operations| && operations[at].id != id
        invariant at <= |operations| && PositionOf(operations, 0, id) == PositionOf(operations, at, id)
      {
        at := at + 1;
      }
      if at == |operations| || operations[at].origin.Forwarded? || !IsExtendedKind(operations[at].kind) { return; }
      var syncAccepted := DiscardFrom(at + 1);
      if !syncAccepted { requestState := ExtendedError; }
      assert operations == Ledgers.ProjectDeferredLocalError(old(Contents()), id).operations;
    }

    method CommitResponse(m: BackendMessage)
      requires operations != [] && ResponseFits(operations[0], m)
      modifies this
      ensures Contents() == Ledgers.CommitResponse(old(Contents()), m)
    {
      Settle(m);
      RemoveInertHeads();
    }

    /** The head advances or completes, and the COPY projections follow. */
    method Settle(m: BackendMessage)
      requires operations != [] && ResponseFits(operations[0], m)
      modifies this
      ensures Contents() == Settled(old(Contents()), m)
    {
      hide ResponseIsTerminal, ResponseCopyState, IsExtendedKind, Ledgers.EnterExtendedError;
      var head := operations[0];
      var next := G.Send(head.responseState, m).value;
      var terminal := ResponseIsTerminal(head.kind, m);
      var copy := ResponseCopyState(next);
      if terminal {
        operations := operations[1..];
        if m.ErrorResponse? && IsExtendedKind(head.kind) { EnterExtendedError(); }
      } else {
        operations := operations[0 := head.(responseState := next)];
      }
      if !terminal { responseState := if copy.Some? then Some(Public(copy.value)) else None; }
      if copy == Some(RequestState.CopyIn) || copy == Some(RequestState.CopyBoth) { requestState := copy.value; }
      if terminal { responseState := None; }
    }

    /** `accept_backend` when `localId` is None and `try_emit_local` otherwise. */
    method AcceptResponse(localId: Option<nat>, m: BackendMessage) returns (action: BackendAction)
      modifies this
      ensures Ledgers.AcceptResponse(old(Contents()), localId, m) == Answer(action, Contents())
      ensures action.Refused? <==> Judged(old(Contents()), localId, m, PreparedResponse.Rejected)
      ensures action.DeferredAction? <==> Judged(old(Contents()), localId, m, PreparedResponse.Deferred)
      ensures action.Refused? ==> Contents() == old(Contents())
    {
      RefusalIsHarmless(Contents(), localId, m);
      hide Judged;
      var prepared := PrepareResponse(localId, m);
      if prepared.Deferred? && m.ErrorResponse? && localId.Some? {
        ProjectDeferredLocalError(localId.value);
      }
      match prepared
      case Asynchronous => action := Emitted;
      case Deferred => action := DeferredAction;
      case Rejected => action := Refused(State());
      case Emit =>
        CommitResponse(m);
        action := Emitted;
    }

    /* ---------- batches ---------- */

    method PrepareBackendReplacements(sources: seq<BackendMessage>, replacements: seq<BackendMessage>)
      returns (r: Replacement)
      ensures match PrepareReplacements(Contents(), sources, replacements, BackendEncodable)
        case Accepted(l) => r.Prepared? && fresh(r.pipeline) && r.pipeline.Contents() == l
        case Declined(error) => r == Refusal(error)
    {
      if |sources| != |replacements| {
        return Refusal(Cardinality(|sources|, |replacements|));
      }
      var s, refused := ReplaySpan(sources, m => true);
      if refused.Some? { return Refusal(Source(refused.value)); }
      var t, refused' := ReplaySpan(replacements, BackendEncodable);
      if refused'.Some? { return Refusal(Batches.Replacement(refused'.value)); }
      if s.operations != t.operations || s.requestState != t.requestState || s.responseState != t.responseState {
        return Refusal(DifferentSpan);
      }
      return Prepared(t);
    }

    /** Plays a span against a copy of the ledger, up to the first message that does not go out. */
    method ReplaySpan(ms: seq<BackendMessage>, encodable: BackendMessage -> bool)
      returns (p: Pipeline, refused: Option<BackendMessage>)
      ensures fresh(p) && refused == FirstRefused(Contents(), ms, encodable)
      ensures refused.None? ==> EmitAll(Contents(), ms) == Some(p.Contents())
    {
      p := new Pipeline.Snapshot(this);
      var i := 0;
      assert ms[0..] == ms;
      while i < |ms|
        invariant i <= |ms| && fresh(p)
        invariant FirstRefused(Contents(), ms, encodable) == FirstRefused(p.Contents(), ms[i..], encodable)
        invariant EmitAll(Contents(), ms) == EmitAll(p.Contents(), ms[i..])
      {
        assert ms[i..][0] == ms[i] && ms[i..][1..] == ms[i + 1..];
        if !encodable(ms[i]) { return p, Some(ms[i]); }
        var action := p.AcceptResponse(None, ms[i]);
        if !action.Emitted? { return p, Some(ms[i]); }
        i := i + 1;
      }
      refused := None;
    }

    /** Admits a sequence against a copy of the ledger. */
    method PrepareFrontendSequence(ms: seq<FrontendMessage>, handling: Handling) returns (r: Sequence)
      ensures match PrepareSequence(Contents(), ms, handling, FrontendEncodable)
        case AllAdmitted(admissions, l) =>
          r.PreparedSequence? && fresh(r.pipeline) && r.pipeline.Contents() == l && r.admissions == admissions
        case SequenceFailed(at, failure) => r == SequenceRefused(at, OutcomeOf(failure))
    {
      hide Ledgers.AcceptFrontend, FrontendEncodable, PrepareSequence, StateOf;
      var p := new Pipeline.Snapshot(this);
      var admissions := [];
      var i := 0;
      SequenceNil(Contents(), handling);
      while i < |ms|
        invariant i <= |ms| && fresh(p)
        invariant PrepareSequence(Contents(), ms[..i], handling, FrontendEncodable) ==
          AllAdmitted(admissions, p.Contents())
      {
        SequenceSnoc(Contents(), ms[..i], ms[i], handling, FrontendEncodable);
        SequencePrefix(Contents(), ms, i + 1, handling);
        assert ms[..i + 1] == ms[..i] + [ms[i]];
        if !FrontendEncodable(ms[i]) { return SequenceRefused(i, IllegalIn(p.State())); }
        var outcome := p.AcceptFrontend(ms[i], handling);
        if !outcome.Taken? { return SequenceRefused(i, outcome); }
        admissions := admissions + [outcome.admission];
        i := i + 1;
      }
      assert ms[..i] == ms;
      r := PreparedSequence(p, admissions);
    }

    /** Makes a prepared ledger the live one in a single update (`commit_frontend_sequence`, and the
        assignment of prepared replacements). */
    method Become(prepared: Pipeline)
      requires prepared.limit == limit
      modifies this
      ensures Contents() == old(prepared.Contents())
    {
      operations, requestState, responseState, nextId :=
        prepared.operations, prepared.requestState, prepared.responseState, prepared.nextId;
    }
  }

  lemma EnqueuedParts(l: Ledger, m: FrontendMessage, handling: Handling, kind: Kind, next: RequestState)
    ensures var forgives := l.requestState.CopyIn? && (kind.CopyDone? || kind.CopyFail?);
      var ops := if forgives then IgnoreLastSync(l.operations) else l.operations;
      Enqueued(l, m, handling, kind, next) ==
        TouchHead(ops, m) + [Operation(l.nextId, kind, if handling.Forward? then Forwarded else Local,
                                       next.ExtendedError? && !kind.Sync?, InitialResponseState(kind))]
  {
    hide IgnoreLastSync, TouchHead;
  }

  lemma CommittedLedger(l: Ledger, m: FrontendMessage, handling: Handling, kind: Kind, next: RequestState)
    ensures var discarded := next.ExtendedError? && !kind.Sync?;
      var action := if handling.Forward? && !discarded then ForwardIt(l.nextId, m) else DiscardIt(l.nextId);
      CommitFrontend(l, m, handling, kind, next) ==
        Admitted(if l.operations != [] then Waiting(action) else Immediate(action),
                 Ledger(l.limit, RemoveInertHeads(Enqueued(l, m, handling, kind, next)), next, l.responseState,
                        SaturatingSucc(l.nextId)))
  {
  }

  lemma SequenceNil(l: Ledger, handling: Handling)
    ensures PrepareSequence(l, [], handling, FrontendEncodable) == AllAdmitted([], l)
  {
  }

  /** A sequence that fails early fails in the same way however it continues. */
  lemma {:induction false} SequencePrefix(l: Ledger, ms: seq<FrontendMessage>, n: nat, handling: Handling)
    requires n <= |ms|
    ensures PrepareSequence(l, ms[..n], handling, FrontendEncodable).SequenceFailed? ==>
      PrepareSequence(l, ms, handling, FrontendEncodable) == PrepareSequence(l, ms[..n], handling, FrontendEncodable)
    decreases ms
  {
    hide FrontendEncodable, AcceptFrontend, StateOf;
    if n > 0 && FrontendEncodable(ms[0]) && AcceptFrontend(l, ms[0], handling).Admitted? {
      SequencePrefix(AcceptFrontend(l, ms[0], handling).ledger, ms[1..], n - 1, handling);
      assert ms[..n][1..] == ms[1..][..n - 1];
    }
  }
}
