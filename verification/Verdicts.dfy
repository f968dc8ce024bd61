/** What becomes of a response, exactly, on every ledger: emitted, deferred, refused or asynchronous,
    and to which operation it is attributed. */
module Verdicts {
  import opened Messages
  import opened Ledgers
  import opened LocalResponses
  import G = ServerGrammar

  /* ---------- verdicts ---------- */

  /** Messages that belong to no operation. */
  predicate Unsolicited(m: BackendMessage) {
    match m
    case NoticeResponse(_) => true
    case ParameterStatus(_, _) => true
    case NotificationResponse(_, _, _) => true
    case BackendKeyData(_, _) => true
    case _ => false
  }

  predicate TakesIt(op: Operation, m: BackendMessage) {
    G.Send(op.responseState, m).Some?
  }

  /** An operation behind the head could take `m`; a server message is not for a local one. */
  ghost predicate LaterTakes(l: Ledger, m: BackendMessage, forwarded: bool) {
    exists k ::
      1 <= k < |l.operations| && TakesIt(l.operations[k], m) && (forwarded ==> l.operations[k].origin.Forwarded?)
  }

  /** The head is the one addressed: by the server a forwarded one, locally the one with that id. */
  predicate Addressed(l: Ledger, localId: Option<nat>) {
    && l.operations != []
    && match localId
       case None => l.operations[0].origin.Forwarded?
       case Some(id) => l.operations[0].origin.Local? && l.operations[0].id == id
  }

  predicate HeadTakes(l: Ledger, m: BackendMessage)
    requires l.operations != []
  {
    !l.operations[0].discarded && TakesIt(l.operations[0], m)
  }

  /** `verdict` is the one that fits: each holds exactly here. */
  ghost predicate Judged(l: Ledger, localId: Option<nat>, m: BackendMessage, verdict: PreparedResponse) {
    match verdict
    case Asynchronous => Unsolicited(m)
    case Emit => !Unsolicited(m) && Addressed(l, localId) && HeadTakes(l, m)
    case Rejected =>
      && !Unsolicited(m)
      && (|| l.operations == []
          || (localId == Some(l.operations[0].id) && l.operations[0].origin.Forwarded?)
          || (localId.None? && l.operations[0].origin.Local? && !LaterTakes(l, m, true))
          || (Addressed(l, localId) && !HeadTakes(l, m) && !LaterTakes(l, m, false)))
    case Deferred =>
      && !Unsolicited(m) && l.operations != []
      && (|| (localId.Some? && localId.value != l.operations[0].id)
          || (localId.None? && l.operations[0].origin.Local? && LaterTakes(l, m, true))
          || (Addressed(l, localId) && !HeadTakes(l, m) && LaterTakes(l, m, false)))
  }

  lemma {:induction false} AnyIsExists(ops: seq<Operation>, i: nat, m: BackendMessage)
    requires i <= |ops|
    ensures AnyFits(ops, i, m) <==> exists k :: i <= k < |ops| && TakesIt(ops[k], m)
    ensures AnyForwardedFits(ops, i, m) <==>
      exists k :: i <= k < |ops| && TakesIt(ops[k], m) && ops[k].origin.Forwarded?
    decreases |ops| - i
  {
    if i < |ops| {
      AnyIsExists(ops, i + 1, m);
      assert ResponseFits(ops[i], m) == TakesIt(ops[i], m);
    }
  }

  lemma SameTest(op: Operation, m: BackendMessage)
    ensures ResponseFits(op, m) == TakesIt(op, m)
  {
  }

  lemma LaterIsAny(l: Ledger, m: BackendMessage)
    ensures l.operations != [] ==> AnyFits(l.operations, 1, m) == LaterTakes(l, m, false)
    ensures l.operations != [] ==> AnyForwardedFits(l.operations, 1, m) == LaterTakes(l, m, true)
  {
    hide AnyFits, AnyForwardedFits, TakesIt;
    if l.operations != [] { AnyIsExists(l.operations, 1, m); }
  }

  /** Every verdict, on every ledger, if and only if. */
  lemma VerdictsExactly(l: Ledger, localId: Option<nat>, m: BackendMessage, verdict: PreparedResponse)
    ensures PrepareResponse(l, localId, m) == verdict <==> Judged(l, localId, m, verdict)
  {
    LaterIsAny(l, m);
    hide AnyFits, AnyForwardedFits, LaterTakes, TakesIt, ResponseFits;
    if l.operations != [] { SameTest(l.operations[0], m); }
  }

  /** What is refused changes nothing, and so does what is deferred, unless it is a local error. */
  lemma RefusalIsHarmless(l: Ledger, localId: Option<nat>, m: BackendMessage)
    ensures AcceptResponse(l, localId, m).action.Refused? <==> Judged(l, localId, m, PreparedResponse.Rejected)
    ensures AcceptResponse(l, localId, m).action.DeferredAction? <==> Judged(l, localId, m, PreparedResponse.Deferred)
    ensures AcceptResponse(l, localId, m).action.Refused? ==> AcceptResponse(l, localId, m).ledger == l
    ensures AcceptResponse(l, localId, m).action.DeferredAction? && !(localId.Some? && m.ErrorResponse?) ==>
      AcceptResponse(l, localId, m).ledger == l
  {
    VerdictsExactly(l, localId, m, PreparedResponse.Rejected);
    VerdictsExactly(l, localId, m, PreparedResponse.Deferred);
    hide PrepareResponse, Judged;
  }

  /** A local response that neither its operation, at the head, nor any later one could take is dropped
      from the queue with an error; nothing waits behind it. */
  lemma UnfitLocalIsDropped(l: Ledger, queue: seq<Pending>)
    requires queue != [] && queue[0].messages != [] && !Unsolicited(queue[0].messages[0])
    requires Addressed(l, Some(queue[0].operation))
    requires !HeadTakes(l, queue[0].messages[0]) && !LaterTakes(l, queue[0].messages[0], false)
    ensures Drain(l, queue) == Drained(l, Popped(queue), [], true)
  {
    VerdictsExactly(l, Some(queue[0].operation), queue[0].messages[0], PreparedResponse.Rejected);
    hide PrepareResponse, LaterTakes;
  }

  /* ---------- attribution ---------- */

  /** A live forwarded operation that could take `m`. */
  predicate Claims(op: Operation, m: BackendMessage) {
    op.origin.Forwarded? && !op.discarded && TakesIt(op, m)
  }

  predicate FirstToClaim(ops: seq<Operation>, m: BackendMessage, k: int) {
    0 <= k < |ops| && Claims(ops[k], m) && forall j :: 0 <= j < k ==> !Claims(ops[j], m)
  }

  /** `m` belongs to the first operation that claims it, or to none. */
  ghost predicate Attributed(l: Ledger, m: BackendMessage, id: Option<nat>) {
    match id
    case None => Unsolicited(m) || forall k :: 0 <= k < |l.operations| ==> !Claims(l.operations[k], m)
    case Some(n) => !Unsolicited(m) && exists k :: FirstToClaim(l.operations, m, k) && l.operations[k].id == n
  }

  lemma {:induction false} FirstClaim(ops: seq<Operation>, i: nat, m: BackendMessage) returns (k: nat)
    requires i <= |ops|
    ensures i <= k <= |ops| && (forall j :: i <= j < k ==> !Claims(ops[j], m)) && (k < |ops| ==> Claims(ops[k], m))
    ensures FirstFit(ops, i, m) == if k == |ops| then None else Some(ops[k].id)
    decreases |ops| - i
  {
    if i < |ops| && !Claims(ops[i], m) {
      assert ResponseFits(ops[i], m) == TakesIt(ops[i], m);
      k := FirstClaim(ops, i + 1, m);
    } else {
      assert i < |ops| ==> ResponseFits(ops[i], m);
      k := i;
    }
  }

  /** Attribution, on every ledger, if and only if. */
  lemma AttributionExactly(l: Ledger, m: BackendMessage, id: Option<nat>)
    ensures BackendOperationId(l, m) == id <==> Attributed(l, m, id)
  {
    hide FirstFit, Claims;
    var k := FirstClaim(l.operations, 0, m);
    if k < |l.operations| { assert FirstToClaim(l.operations, m, k); }
    if id.Some? {
      forall j | FirstToClaim(l.operations, m, j) ensures j == k { OnlyFirst(l.operations, m, j, k); }
    }
  }

  lemma OnlyFirst(ops: seq<Operation>, m: BackendMessage, j: int, k: nat)
    requires FirstToClaim(ops, m, j) && k <= |ops| && forall i :: 0 <= i < k ==> !Claims(ops[i], m)
    requires k < |ops| ==> Claims(ops[k], m)
    ensures j == k
  {
    hide Claims;
  }
}
