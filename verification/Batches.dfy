/** Attribution of responses, one-to-one replacement of held responses, and client sequences that
    are admitted all or nothing. */
module Batches {
  import opened Messages
  import opened Ledgers
  import opened Shape
  import G = ServerGrammar

  /* ---------- attribution ---------- */

  /** The ledger after an upstream span in which every message goes out; None when one does not. */
  function EmitAll(l: Ledger, ms: seq<BackendMessage>): Option<Ledger>
    decreases ms
  {
    if ms == [] then Some(l)
    else match PrepareResponse(l, None, ms[0])
      case Asynchronous => EmitAll(l, ms[1..])
      case Emit => EmitAll(CommitResponse(l, ms[0]), ms[1..])
      case _ => None
  }

  /** The operation each message of a span is attributed to, against a private copy of the ledger
      that takes every message it can. */
  function AttributedIds(l: Ledger, ms: seq<BackendMessage>): seq<Option<nat>>
    decreases ms
  {
    if ms == [] then []
    else [BackendOperationId(l, ms[0])] + AttributedIds(AcceptResponse(l, None, ms[0]).ledger, ms[1..])
  }

  /** One more id of a span, behind those already known. */
  lemma AttributedStep(ids: seq<Option<nat>>, l: Ledger, ms: seq<BackendMessage>, i: nat)
    requires i < |ms|
    ensures ids + AttributedIds(l, ms[i..]) ==
      ids + [BackendOperationId(l, ms[i])] + AttributedIds(AcceptResponse(l, None, ms[i]).ledger, ms[i + 1..])
  {
    hide AcceptResponse, BackendOperationId;
    assert ms[i..][1..] == ms[i + 1..];
    var rest := AttributedIds(AcceptResponse(l, None, ms[i]).ledger, ms[i + 1..]);
    assert ids + ([BackendOperationId(l, ms[i])] + rest) == ids + [BackendOperationId(l, ms[i])] + rest;
  }

  lemma AttributedEnd(ids: seq<Option<nat>>, l: Ledger, ms: seq<BackendMessage>)
    ensures ids + AttributedIds(l, ms[|ms|..]) == ids
  {
  }

  /** The heads a span is really emitted against; asynchronous messages belong to none. */
  function EmittedIds(l: Ledger, ms: seq<BackendMessage>): seq<Option<nat>>
    requires EmitAll(l, ms).Some?
    decreases ms
  {
    if ms == [] then []
    else
      [if IsAsynchronous(ms[0]) then None else Some(l.operations[0].id)]
      + EmittedIds(AcceptResponse(l, None, ms[0]).ledger, ms[1..])
  }

  lemma {:induction false} NothingFits(ops: seq<Operation>, i: nat, m: BackendMessage)
    requires i <= |ops| && (!AnyForwardedFits(ops, i, m) || !AnyFits(ops, i, m))
    ensures FirstFit(ops, i, m) == None
    decreases |ops| - i
  {
    if i < |ops| { NothingFits(ops, i + 1, m); }
  }

  /** Attribution agrees with projection: what would go out is attributed to the head, and what
      belongs to nothing is attributed to nothing. */
  lemma AttributionAgrees(l: Ledger, m: BackendMessage)
    ensures PrepareResponse(l, None, m).Emit? ==> BackendOperationId(l, m) == Some(l.operations[0].id)
    ensures PrepareResponse(l, None, m).Rejected? || PrepareResponse(l, None, m).Asynchronous? ==>
      BackendOperationId(l, m) == None
  {
    if PrepareResponse(l, None, m).Rejected? && l.operations != [] {
      NothingFits(l.operations, 1, m);
    }
  }

  /** For every span that can be forwarded, the ids shown to middleware are those of replaying it. */
  lemma {:induction false} SpanAttributionAgrees(l: Ledger, ms: seq<BackendMessage>)
    requires EmitAll(l, ms).Some?
    ensures AttributedIds(l, ms) == EmittedIds(l, ms)
    decreases ms
  {
    if ms != [] {
      AttributionAgrees(l, ms[0]);
      SpanAttributionAgrees(AcceptResponse(l, None, ms[0]).ledger, ms[1..]);
    }
  }

  /* ---------- replacement ---------- */

  datatype BackendSequenceError =
    | Cardinality(expected: nat, actual: nat)
    | Source(source: BackendMessage)
    | Replacement(replacement: BackendMessage)
    | DifferentSpan

  datatype Replaced = Accepted(ledger: Ledger) | Declined(error: BackendSequenceError)

  /** The first message of a span that does not go out, or that cannot be encoded. */
  function FirstRefused(l: Ledger, ms: seq<BackendMessage>, encodable: BackendMessage -> bool): Option<BackendMessage>
    decreases ms
  {
    if ms == [] then None
    else
      var r := AcceptResponse(l, None, ms[0]);
      if encodable(ms[0]) && r.action.Emitted? then FirstRefused(r.ledger, ms[1..], encodable) else Some(ms[0])
  }

  function PrepareReplacements(l: Ledger, sources: seq<BackendMessage>, replacements: seq<BackendMessage>,
                               encodable: BackendMessage -> bool): Replaced
  {
    if |sources| != |replacements| then Declined(Cardinality(|sources|, |replacements|))
    else if FirstRefused(l, sources, m => true).Some? then Declined(Source(FirstRefused(l, sources, m => true).value))
    else if FirstRefused(l, replacements, encodable).Some? then
      Declined(Replacement(FirstRefused(l, replacements, encodable).value))
    else
      FirstRefusedEmits(l, sources, m => true);
      FirstRefusedEmits(l, replacements, encodable);
      var s, r := EmitAll(l, sources).value, EmitAll(l, replacements).value;
      if s.operations == r.operations && s.requestState == r.requestState && s.responseState == r.responseState
      then Accepted(r)
      else Declined(DifferentSpan)
  }

  lemma {:induction false} FirstRefusedEmits(l: Ledger, ms: seq<BackendMessage>, encodable: BackendMessage -> bool)
    ensures FirstRefused(l, ms, encodable).None? <==>
      EmitAll(l, ms).Some? && forall i :: 0 <= i < |ms| ==> encodable(ms[i])
    decreases ms
  {
    if ms != [] {
      FirstRefusedEmits(AcceptResponse(l, None, ms[0]).ledger, ms[1..], encodable);
      assert forall i :: 1 <= i < |ms| ==> ms[i] == ms[1..][i - 1];
    }
  }

  lemma {:induction false} EmissionKeepsIds(l: Ledger, ms: seq<BackendMessage>)
    requires EmitAll(l, ms).Some?
    ensures EmitAll(l, ms).value.nextId == l.nextId && EmitAll(l, ms).value.limit == l.limit
    decreases ms
  {
    if ms != [] { EmissionKeepsIds(AcceptResponse(l, None, ms[0]).ledger, ms[1..]); }
  }

  /** A replacement is invisible to the ledger: when it is accepted the ledger is exactly the one
      that forwarding the sources leaves. */
  lemma ReplacementIsForwarding(l: Ledger, sources: seq<BackendMessage>, replacements: seq<BackendMessage>,
                                encodable: BackendMessage -> bool)
    requires PrepareReplacements(l, sources, replacements, encodable).Accepted?
    ensures EmitAll(l, sources) == Some(PrepareReplacements(l, sources, replacements, encodable).ledger)
  {
    FirstRefusedEmits(l, sources, m => true);
    FirstRefusedEmits(l, replacements, encodable);
    EmissionKeepsIds(l, sources);
    EmissionKeepsIds(l, replacements);
  }

  /** And it is accepted exactly when the spans have equal length, every replacement can be encoded,
      and both spans go out and leave the same ledger. */
  lemma ReplacementAcceptedExactly(l: Ledger, sources: seq<BackendMessage>, replacements: seq<BackendMessage>,
                                   encodable: BackendMessage -> bool)
    ensures PrepareReplacements(l, sources, replacements, encodable).Accepted? <==>
      && |sources| == |replacements|
      && (forall i :: 0 <= i < |replacements| ==> encodable(replacements[i]))
      && EmitAll(l, sources).Some?
      && EmitAll(l, replacements) == EmitAll(l, sources)
  {
    FirstRefusedEmits(l, sources, m => true);
    FirstRefusedEmits(l, replacements, encodable);
    if EmitAll(l, sources).Some? { EmissionKeepsIds(l, sources); }
    if EmitAll(l, replacements).Some? { EmissionKeepsIds(l, replacements); }
    hide EmitAll, FirstRefused;
  }

  /** Two responses of the same kind. */
  predicate SameKind(a: BackendMessage, b: BackendMessage) {
    BackendTag(a) == BackendTag(b)
  }

  predicate Replying(s: G.State) {
    || s.Simple? || s.ExecuteResponse? || s.DescribeResponse? || s.ParseResponse? || s.BindResponse? || s.CloseResponse?
  }

  lemma QueriesIgnorePayload(s: G.State, a: BackendMessage, b: BackendMessage)
    requires SameKind(a, b) && Replying(s)
    ensures G.Send(s, a) == G.Send(s, b)
  {
  }

  predicate InCopy(s: G.State) {
    || s.SimpleCopyIn? || s.SimpleCopyInDone? || s.SimpleCopyInFailed? || s.SimpleCopyOut? || s.SimpleCopyOutDone?
    || s.SimpleCopyBoth? || s.SimpleCopyBothClientDone? || s.SimpleCopyBothServerDone? || s.SimpleCopyBothDone?
    || s.SimpleCopyBothFailed? || s.SimpleCopyReady?
  }

  lemma CopiesIgnorePayload(s: G.State, a: BackendMessage, b: BackendMessage)
    requires SameKind(a, b) && InCopy(s)
    ensures G.Send(s, a) == G.Send(s, b)
  {
    match s
    case SimpleCopyOut =>
    case SimpleCopyBoth =>
    case SimpleCopyBothClientDone =>
    case SimpleCopyBothServerDone =>
    case _ =>
  }

  lemma SendIgnoresPayload(s: G.State, a: BackendMessage, b: BackendMessage)
    requires SameKind(a, b)
    ensures G.Send(s, a) == G.Send(s, b)
  {
    if Replying(s) {
      QueriesIgnorePayload(s, a, b);
    } else if InCopy(s) {
      CopiesIgnorePayload(s, a, b);
    }
  }

  lemma FitIgnoresPayload(op: Operation, a: BackendMessage, b: BackendMessage)
    requires SameKind(a, b)
    ensures ResponseFits(op, a) == ResponseFits(op, b)
  {
    SendIgnoresPayload(op.responseState, a, b);
  }

  lemma {:induction false} AnyFitIgnoresPayload(ops: seq<Operation>, i: nat, a: BackendMessage, b: BackendMessage)
    requires i <= |ops| && forall j :: i <= j < |ops| ==> ResponseFits(ops[j], a) == ResponseFits(ops[j], b)
    ensures AnyFits(ops, i, a) == AnyFits(ops, i, b)
    decreases |ops| - i
  {
    hide ResponseFits;
    if i < |ops| { AnyFitIgnoresPayload(ops, i + 1, a, b); }
  }

  lemma {:induction false} ForwardedFitIgnoresPayload(ops: seq<Operation>, i: nat, a: BackendMessage, b: BackendMessage)
    requires i <= |ops| && forall j :: i <= j < |ops| ==> ResponseFits(ops[j], a) == ResponseFits(ops[j], b)
    ensures AnyForwardedFits(ops, i, a) == AnyForwardedFits(ops, i, b)
    decreases |ops| - i
  {
    hide ResponseFits;
    if i < |ops| { ForwardedFitIgnoresPayload(ops, i + 1, a, b); }
  }

  lemma TerminalIgnoresPayload(k: Kind, a: BackendMessage, b: BackendMessage)
    requires SameKind(a, b)
    ensures ResponseIsTerminal(k, a) == ResponseIsTerminal(k, b)
    ensures IsAsynchronous(a) == IsAsynchronous(b) && a.ErrorResponse? == b.ErrorResponse?
  {
  }

  lemma PrepareIgnoresPayload(l: Ledger, a: BackendMessage, b: BackendMessage)
    requires IsAsynchronous(a) == IsAsynchronous(b)
    requires forall j :: 0 <= j < |l.operations| ==>
      ResponseFits(l.operations[j], a) == ResponseFits(l.operations[j], b)
    ensures PrepareResponse(l, None, a) == PrepareResponse(l, None, b)
  {
    hide ResponseFits, IsAsynchronous;
    if l.operations != [] {
      AnyFitIgnoresPayload(l.operations, 1, a, b);
      ForwardedFitIgnoresPayload(l.operations, 1, a, b);
    }
  }

  lemma CommitIgnoresPayload(l: Ledger, a: BackendMessage, b: BackendMessage)
    requires l.operations != [] && ResponseFits(l.operations[0], a) && ResponseFits(l.operations[0], b)
      && SameKind(a, b)
    ensures CommitResponse(l, a) == CommitResponse(l, b)
  {
    SendIgnoresPayload(l.operations[0].responseState, a, b);
    TerminalIgnoresPayload(l.operations[0].kind, a, b);
    hide ResponseFits, ResponseIsTerminal, SameKind, ResponseCopyState;
  }

  lemma PrepareSameKind(l: Ledger, a: BackendMessage, b: BackendMessage)
    requires SameKind(a, b)
    ensures PrepareResponse(l, None, a) == PrepareResponse(l, None, b)
  {
    hide SameKind, IsAsynchronous, ResponseFits, PrepareResponse;
    TerminalIgnoresPayload(Kind.Sync, a, b);
    forall j | 0 <= j < |l.operations|
      ensures ResponseFits(l.operations[j], a) == ResponseFits(l.operations[j], b)
    {
      FitIgnoresPayload(l.operations[j], a, b);
    }
    PrepareIgnoresPayload(l, a, b);
  }

  lemma EmittedFits(l: Ledger, m: BackendMessage)
    requires PrepareResponse(l, None, m).Emit?
    ensures l.operations != [] && ResponseFits(l.operations[0], m)
  {
  }

  /** The ledger looks at kinds only, so rewriting payloads changes nothing. */
  lemma {:induction false} RewritingPayloadsEmits(l: Ledger, a: seq<BackendMessage>, b: seq<BackendMessage>)
    requires |a| == |b| && forall i :: 0 <= i < |a| ==> SameKind(a[i], b[i])
    ensures EmitAll(l, a) == EmitAll(l, b)
    decreases a
  {
    hide SameKind, ResponseFits, PrepareResponse, CommitResponse;
    if a != [] {
      PrepareSameKind(l, a[0], b[0]);
      match PrepareResponse(l, None, a[0])
      case Asynchronous => RewritingPayloadsEmits(l, a[1..], b[1..]);
      case Emit =>
        EmittedFits(l, a[0]);
        EmittedFits(l, b[0]);
        CommitIgnoresPayload(l, a[0], b[0]);
        RewritingPayloadsEmits(CommitResponse(l, a[0]), a[1..], b[1..]);
      case _ =>
    }
  }

  /** A forwardable span is replaced by any encodable span of the same kinds. */
  lemma PayloadRewritesAreAccepted(l: Ledger, a: seq<BackendMessage>, b: seq<BackendMessage>,
                                   encodable: BackendMessage -> bool)
    requires |a| == |b| && forall i :: 0 <= i < |a| ==> SameKind(a[i], b[i]) && encodable(b[i])
    requires EmitAll(l, a).Some?
    ensures PrepareReplacements(l, a, b, encodable) == Accepted(EmitAll(l, a).value)
  {
    RewritingPayloadsEmits(l, a, b);
    FirstRefusedEmits(l, a, m => true);
    FirstRefusedEmits(l, b, encodable);
  }

  /* ---------- client sequences ---------- */

  /** The ledger after every message of a sequence is admitted, or the first refusal. */
  datatype SequenceResult =
    | AllAdmitted(admissions: seq<Admission>, ledger: Ledger)
    | SequenceFailed(at: nat, failure: FrontendResult)

  function PrepareSequence(l: Ledger, ms: seq<FrontendMessage>, handling: Handling,
                           encodable: FrontendMessage -> bool): SequenceResult
    decreases ms
  {
    if ms == [] then AllAdmitted([], l)
    else if !encodable(ms[0]) then SequenceFailed(0, Illegal(StateOf(l)))
    else match AcceptFrontend(l, ms[0], handling)
      case Admitted(admission, l') => (
        match PrepareSequence(l', ms[1..], handling, encodable)
        case AllAdmitted(rest, l'') => AllAdmitted([admission] + rest, l'')
        case SequenceFailed(at, failure) => SequenceFailed(at + 1, failure))
      case failure => SequenceFailed(0, failure)
  }

  function ActionId(a: FrontendAction): nat {
    if a.ForwardIt? then a.forwarded else a.dropped
  }

  /** A sequence that is admitted takes consecutive ids from the one announced for its first message. */
  lemma {:induction false} SequenceIds(l: Ledger, ms: seq<FrontendMessage>, handling: Handling,
                                       encodable: FrontendMessage -> bool)
    requires PrepareSequence(l, ms, handling, encodable).AllAdmitted? && l.nextId + |ms| <= U64_MAX
    ensures var r := PrepareSequence(l, ms, handling, encodable);
      && |r.admissions| == |ms| && r.ledger.nextId == l.nextId + |ms|
      && forall i :: 0 <= i < |ms| ==> ActionId(r.admissions[i].action) == l.nextId + i
    decreases ms
  {
    if ms != [] {
      SequenceIds(AcceptFrontend(l, ms[0], handling).ledger, ms[1..], handling, encodable);
    }
  }

  /** Appending to a sequence is admitting one more message behind it. */
  lemma {:induction false} SequenceSnoc(l: Ledger, ms: seq<FrontendMessage>, m: FrontendMessage, handling: Handling,
                                        encodable: FrontendMessage -> bool)
    ensures PrepareSequence(l, ms + [m], handling, encodable) ==
      match PrepareSequence(l, ms, handling, encodable)
      case SequenceFailed(at, failure) => SequenceFailed(at, failure)
      case AllAdmitted(admissions, l') =>
        if !encodable(m) then SequenceFailed(|ms|, Illegal(StateOf(l')))
        else match AcceptFrontend(l', m, handling)
          case Admitted(admission, l'') => AllAdmitted(admissions + [admission], l'')
          case failure => SequenceFailed(|ms|, failure)
    decreases ms
  {
    hide AcceptFrontend, StateOf;
    if ms == [] {
      assert (ms + [m])[1..] == [];
    } else {
      assert (ms + [m])[1..] == ms[1..] + [m];
      match AcceptFrontend(l, ms[0], handling)
      case Admitted(_, l') => SequenceSnoc(l', ms[1..], m, handling, encodable);
      case _ =>
    }
  }
}
