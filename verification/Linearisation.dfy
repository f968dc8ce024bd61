/** Pipelining is unobservable: reordering each request to stand directly before its own responses
    turns every calm run into a legal run of the sequential server grammar. */
module Linearisation {
  import opened Messages
  import opened Ledgers
  import opened Shape
  import opened Histories
  import opened CalmLedgers
  import G = ServerGrammar

  /** The responses emitted for one operation, in order. */
  function Replies(es: seq<Emission>, id: nat): seq<G.Message> {
    if es == [] then []
    else
      var last := es[|es| - 1];
      Replies(es[..|es| - 1], id) + (if last.id == id then [G.FromServer(last.message)] else [])
  }

  /** The first `n` accepted requests, each directly followed by the responses emitted for it. */
  function Linear(requests: seq<FrontendMessage>, es: seq<Emission>, n: nat): seq<G.Message>
    requires n <= |requests|
  {
    if n == 0 then []
    else Linear(requests, es, n - 1) + [G.FromClient(requests[n - 1])] + Replies(es, n - 1)
  }

  /** How many requests the server has begun: all that left the ledger, and the head. */
  function Begun(l: Ledger): int {
    Base(l) + (if l.operations == [] then 0 else 1)
  }

  /** Where the sequential server stands. */
  function Standing(l: Ledger): G.State {
    if l.operations == [] then Generated(l.requestState) else l.operations[0].responseState
  }

  predicate Linearised(h: History) {
    Inv(h) && Calm(h.ledger) && Stands(h.ledger, h.requests, h.emitted)
  }

  /* ---------- the linear order under one more request or response ---------- */

  lemma {:induction false} LinearFrame(requests: seq<FrontendMessage>, m: FrontendMessage, es: seq<Emission>, n: nat)
    requires n <= |requests|
    ensures Linear(requests + [m], es, n) == Linear(requests, es, n)
  {
    if n > 0 { LinearFrame(requests, m, es, n - 1); }
  }

  lemma {:induction false} NoReplies(es: seq<Emission>, id: nat)
    requires forall i :: 0 <= i < |es| ==> es[i].id < id
    ensures Replies(es, id) == []
  {
    if es != [] { NoReplies(es[..|es| - 1], id); }
  }

  lemma {:induction false} LinearBefore(requests: seq<FrontendMessage>, es: seq<Emission>, e: Emission, n: nat)
    requires n <= |requests| && n <= e.id
    ensures Linear(requests, es + [e], n) == Linear(requests, es, n)
  {
    if n > 0 {
      LinearBefore(requests, es, e, n - 1);
      assert (es + [e])[..|es + [e]| - 1] == es;
    }
  }

  /** A response of the last begun request extends the linear order by itself. */
  lemma LinearAnswer(requests: seq<FrontendMessage>, es: seq<Emission>, e: Emission)
    requires e.id < |requests|
    ensures Linear(requests, es + [e], e.id + 1) == Linear(requests, es, e.id + 1) + [G.FromServer(e.message)]
  {
    LinearBefore(requests, es, e, e.id);
    assert (es + [e])[..|es + [e]| - 1] == es;
  }

  lemma RunOne(s: G.State, ms: seq<G.Message>, m: G.Message)
    ensures G.Run(s, ms + [m]) == match G.Run(s, ms) case None => None case Some(t) => G.Step(t, m)
  {
    G.RunConcat(s, ms, [m]);
    match G.Run(s, ms)
    case None =>
    case Some(t) =>
      assert [m][1..] == [];
      match G.Step(t, m)
      case None =>
      case Some(u) => assert G.Run(u, [m][1..]) == Some(u);
  }

  /** Where the server stands after the first `n` requests and their responses. */
  function LinearRun(requests: seq<FrontendMessage>, es: seq<Emission>, n: nat): Option<G.State> {
    if n <= |requests| then G.Run(G.Ready, Linear(requests, es, n)) else None
  }

  function LinearRuns(requests: seq<FrontendMessage>, es: seq<Emission>): nat -> Option<G.State> {
    (n: nat) => LinearRun(requests, es, n)
  }

  /** Receiving the next request, which has no response yet. */
  lemma BeginNext(requests: seq<FrontendMessage>, es: seq<Emission>, n: nat, s: G.State)
    requires n < |requests| && LinearRun(requests, es, n) == Some(s)
    requires forall i :: 0 <= i < |es| ==> es[i].id < n
    ensures LinearRun(requests, es, n + 1) == G.Receive(s, requests[n])
  {
    NoReplies(es, n);
    assert Linear(requests, es, n + 1) == Linear(requests, es, n) + [G.FromClient(requests[n])];
    RunOne(G.Ready, Linear(requests, es, n), G.FromClient(requests[n]));
  }

  /** The queue holds consecutive requests, its first one being number `base`. */
  predicate Queued(requests: seq<FrontendMessage>, ops: seq<Operation>, base: nat) {
    && base + |ops| <= |requests|
    && forall i :: 0 <= i < |ops| ==> KindOf(requests[base + i]) == Some(ops[i].kind)
  }

  lemma QueueOf(h: History)
    requires Bookkeeping(h)
    ensures Queued(h.requests, h.ledger.operations, Base(h.ledger))
  {
  }

  /** What receiving a request of kind `k` does to a server at rest or in its error state. */
  predicate ReceivesKind(before: Option<G.State>, k: Kind, after: Option<G.State>) {
    before.Some? ==>
      var s := before.value;
      && (Advance(s, k).Some? ==> after == if InertKind(k) then Advance(s, k) else Some(InitialResponseState(k)))
      && (s.ExtendedError? ==> after == Some(if k.Sync? then G.SyncResponse else G.ExtendedError))
  }

  lemma BeginKind(requests: seq<FrontendMessage>, es: seq<Emission>, n: nat, k: Kind)
    requires n < |requests| && KindOf(requests[n]) == Some(k)
    requires forall i :: 0 <= i < |es| ==> es[i].id < n
    ensures ReceivesKind(LinearRun(requests, es, n), k, LinearRun(requests, es, n + 1))
  {
    if LinearRun(requests, es, n).Some? {
      var s := LinearRun(requests, es, n).value;
      BeginNext(requests, es, n, s);
      if Advance(s, k).Some? { StartingAnOperation(s, requests[n], k); }
    }
  }

  /** From position `from` of a queue on, `run` receives the queued requests one by one. */
  ghost predicate Receives(run: nat -> Option<G.State>, base: nat, ops: seq<Operation>, from: nat) {
    forall i {:trigger ops[i]} :: from <= i < |ops| ==> ReceivesKind(run(base + i), ops[i].kind, run(base + i + 1))
  }

  lemma LinearReceives(requests: seq<FrontendMessage>, es: seq<Emission>, base: nat, ops: seq<Operation>)
    requires Queued(requests, ops, base)
    requires forall j :: 0 <= j < |es| ==> es[j].id <= base
    ensures Receives(LinearRuns(requests, es), base, ops, 1)
  {
    forall i | 1 <= i < |ops|
      ensures ReceivesKind(LinearRun(requests, es, base + i), ops[i].kind, LinearRun(requests, es, base + i + 1))
    {
      BeginKind(requests, es, base + i, ops[i].kind);
    }
  }

  /** From position `i` of a queue the server passes over inert requests and begins the next live one. */
  lemma {:induction false} PassInert(run: nat -> Option<G.State>, base: nat, ops: seq<Operation>, i: nat, s: G.State)
    requires 1 <= i <= |ops| && Receives(run, base, ops, 1) && NoneDiscarded(ops)
    requires run(base + i) == Some(s) && Project(s, ops, i).Some?
    ensures var k := LiveFrom(ops, i);
      if k == |ops| then run(base + k) == Project(s, ops, i)
      else run(base + k + 1) == Some(InitialResponseState(ops[k].kind))
    decreases |ops| - i
  {
    if i < |ops| && Inert(ops[i]) {
      PassInert(run, base, ops, i + 1, Advance(s, ops[i].kind).value);
    }
  }

  /** In its error state the server passes over everything up to `Sync`. */
  lemma {:induction false} PassToSync(run: nat -> Option<G.State>, base: nat, ops: seq<Operation>, i: nat)
    requires 1 <= i <= |ops| && Receives(run, base, ops, 1)
    requires run(base + i) == Some(G.ExtendedError)
    ensures var k := SyncFrom(ops, i);
      if k == |ops| then run(base + k) == Some(G.ExtendedError) else run(base + k + 1) == Some(G.SyncResponse)
    decreases |ops| - i
  {
    if i < |ops| && !ops[i].kind.Sync? {
      PassToSync(run, base, ops, i + 1);
    }
  }

  /* ---------- every step keeps the linear order legal ---------- */

  /** A calm step: nothing enters COPY IN or COPY BOTH, and no local error is parked. */
  predicate CalmStep(h: History, step: Step) {
    step.Reply? ==>
      var prepared := PrepareResponse(h.ledger, step.localId, step.response);
      && (prepared.Emit? ==> !step.response.CopyInResponse? && !step.response.CopyBothResponse?)
      && (prepared.Deferred? ==> !(step.localId.Some? && step.response.ErrorResponse?))
  }

  lemma ReceiveWhileResting(s: RequestState, m: FrontendMessage)
    requires !s.CopyIn? && !s.CopyBoth? && ProjectFrontend(s, m).Some?
    ensures var (kind, next) := ProjectFrontend(s, m).value;
      G.Receive(Generated(s), m) ==
        Some(if InertKind(kind) || (next.ExtendedError? && !kind.Sync?) then Generated(next)
          else InitialResponseState(kind))
  {
  }

  /** The legal linear order, on the parts of a history. */
  predicate Stands(l: Ledger, requests: seq<FrontendMessage>, es: seq<Emission>) {
    0 <= Begun(l) && LinearRun(requests, es, Begun(l)) == Some(Standing(l))
  }

  lemma AdmissionStands(l: Ledger, m: FrontendMessage, handling: Handling, requests: seq<FrontendMessage>,
                        es: seq<Emission>)
    requires Calm(l) && AcceptFrontend(l, m, handling).Admitted?
    requires l.nextId == |requests| < U64_MAX && |l.operations| <= l.nextId && Stands(l, requests, es)
    requires forall i :: 0 <= i < |es| ==> es[i].id < Begun(l)
    ensures Stands(AcceptFrontend(l, m, handling).ledger, requests + [m], es)
  {
    var l' := AcceptFrontend(l, m, handling).ledger;
    assert LinearRun(requests + [m], es, Begun(l)) == Some(Standing(l)) by { LinearFrame(requests, m, es, Begun(l)); }
    if l.operations == [] {
      FirstRequestIsReceived(l, m, handling);
      BeginNext(requests + [m], es, l.nextId, Generated(l.requestState));
    } else {
      assert l'.operations != [] && l'.operations[0] == l.operations[0] && Base(l') == Base(l) by {
        AdmissionAppends(l, m, handling);
      }
    }
  }

  lemma FirstRequestIsReceived(l: Ledger, m: FrontendMessage, handling: Handling)
    requires Calm(l) && AcceptFrontend(l, m, handling).Admitted? && l.operations == [] && l.nextId < U64_MAX
    ensures var l' := AcceptFrontend(l, m, handling).ledger;
      Begun(l') == l.nextId + 1 && G.Receive(Generated(l.requestState), m) == Some(Standing(l'))
  {
    AdmissionAppends(l, m, handling);
    ReceiveWhileResting(l.requestState, m);
  }

  lemma FailureStands(run: nat -> Option<G.State>, l: Ledger, l': Ledger)
    requires l.operations != [] && TailFresh(l.operations) && 0 <= Base(l) && Fails(l, l')
    requires Receives(run, Base(l), l.operations, 1) && run(Base(l) + 1) == Some(G.ExtendedError)
    ensures 0 <= Begun(l') && run(Begun(l')) == Some(Standing(l'))
  {
    PassToSync(run, Base(l), l.operations, 1);
  }

  lemma AnswerStands(run: nat -> Option<G.State>, l: Ledger, l': Ledger)
    requires l.operations != [] && TailFresh(l.operations) && 0 <= Base(l) && Succeeds(l, l')
      && NoneDiscarded(l.operations)
    requires Receives(run, Base(l), l.operations, 1) && run(Base(l) + 1) == Some(After(l.operations[0].kind))
    requires Project(After(l.operations[0].kind), l.operations, 1) == Some(Generated(l.requestState))
    ensures 0 <= Begun(l') && run(Begun(l')) == Some(Standing(l'))
  {
    PassInert(run, Base(l), l.operations, 1, After(l.operations[0].kind));
  }

  /** Whichever way the head ends, the server stands at the next head or at rest. */
  lemma EndStands(run: nat -> Option<G.State>, l: Ledger, m: BackendMessage)
    requires Calm(l) && l.operations != [] && ResponseFits(l.operations[0], m)
      && ResponseIsTerminal(l.operations[0].kind, m)
    requires 0 <= Base(l) && Receives(run, Base(l), l.operations, 1)
    requires run(Base(l) + 1) == Some(if m.ErrorResponse? then G.ExtendedError else After(l.operations[0].kind))
    ensures var l' := CommitResponse(l, m); 0 <= Begun(l') && run(Begun(l')) == Some(Standing(l'))
  {
    CalmCompletion(l, m);
    if m.ErrorResponse? {
      FailureStands(run, l, CommitResponse(l, m));
    } else {
      AnswerStands(run, l, CommitResponse(l, m));
    }
  }

  lemma AdvanceStands(l: Ledger, m: BackendMessage, requests: seq<FrontendMessage>, es: seq<Emission>)
    requires Shaped(l) && l.operations != [] && ResponseFits(l.operations[0], m)
      && !ResponseIsTerminal(l.operations[0].kind, m)
    requires 0 <= Base(l) && LinearRun(requests, es, Base(l) + 1) == G.Send(l.operations[0].responseState, m)
    ensures Stands(CommitResponse(l, m), requests, es)
  {
    AdvancingTheHead(l, m);
  }

  /** A response of the head extends the linear order by one legal step. */
  lemma EmissionExtends(l: Ledger, m: BackendMessage, requests: seq<FrontendMessage>, es: seq<Emission>)
    requires l.operations != [] && ResponseFits(l.operations[0], m) && l.operations[0].id == Base(l) < |requests|
    requires Stands(l, requests, es)
    ensures LinearRun(requests, es + [Emission(l.operations[0].id, m)], Base(l) + 1) ==
      G.Send(l.operations[0].responseState, m)
  {
    var head := l.operations[0];
    LinearAnswer(requests, es, Emission(head.id, m));
    RunOne(G.Ready, Linear(requests, es, head.id + 1), G.FromServer(m));
  }

  lemma CompletionStands(l: Ledger, m: BackendMessage, requests: seq<FrontendMessage>, es: seq<Emission>)
    requires Calm(l) && l.operations != [] && ResponseFits(l.operations[0], m)
      && ResponseIsTerminal(l.operations[0].kind, m)
    requires !m.CopyInResponse? && !m.CopyBothResponse?
    requires 0 <= Base(l) && Queued(requests, l.operations, Base(l))
    requires forall i :: 0 <= i < |es| ==> es[i].id <= Base(l)
    requires LinearRun(requests, es, Base(l) + 1) == G.Send(l.operations[0].responseState, m)
    ensures Stands(CommitResponse(l, m), requests, es)
  {
    assert LinearRun(requests, es, Base(l) + 1) ==
      Some(if m.ErrorResponse? then G.ExtendedError else After(l.operations[0].kind)) by {
      ServerKeepsTheFloor(l.operations[0].kind, l.operations[0].responseState, m);
    }
    LinearReceives(requests, es, Base(l), l.operations);
    EndStands(LinearRuns(requests, es), l, m);
  }

  lemma EmissionStands(l: Ledger, m: BackendMessage, requests: seq<FrontendMessage>, es: seq<Emission>)
    requires Calm(l) && l.operations != [] && ResponseFits(l.operations[0], m)
    requires !m.CopyInResponse? && !m.CopyBothResponse?
    requires 0 <= Base(l) && l.operations[0].id == Base(l) < |requests|
    requires Queued(requests, l.operations, Base(l)) && Stands(l, requests, es)
    requires forall i :: 0 <= i < |es| ==> es[i].id <= Base(l)
    ensures Stands(CommitResponse(l, m), requests, es + [Emission(l.operations[0].id, m)])
  {
    EmissionExtends(l, m, requests, es);
    if ResponseIsTerminal(l.operations[0].kind, m) {
      CompletionStands(l, m, requests, es + [Emission(l.operations[0].id, m)]);
    } else {
      AdvanceStands(l, m, requests, es + [Emission(l.operations[0].id, m)]);
    }
  }

  lemma AdmissionLinearises(h: History, m: FrontendMessage, handling: Handling)
    requires Linearised(h) && AcceptFrontend(h.ledger, m, handling).Admitted? && |h.requests| < U64_MAX
    ensures Linearised(Apply(h, Client(m, handling)))
  {
    AdmissionKeepsInv(h, m, handling);
    AdmissionKeepsCalm(h.ledger, m, handling);
    AdmissionStands(h.ledger, m, handling, h.requests, h.emitted);
    AdmissionHistory(h, m, handling);
  }

  lemma EmissionLinearises(h: History, localId: Option<nat>, m: BackendMessage)
    requires Linearised(h) && PrepareResponse(h.ledger, localId, m).Emit?
    requires !m.CopyInResponse? && !m.CopyBothResponse?
    ensures Linearised(Apply(h, Reply(localId, m)))
  {
    EmissionKeepsInv(h, localId, m);
    EmissionHistory(h, localId, m);
    EmissionKeepsCalm(h.ledger, m);
    QueueOf(h);
    EmissionStands(h.ledger, m, h.requests, h.emitted);
  }

  lemma StepLinearises(h: History, step: Step)
    requires Linearised(h) && CalmStep(h, step) && Unsaturated(Apply(h, step))
    ensures Linearised(Apply(h, step))
  {
    match step
    case Client(m, handling) =>
      if AcceptFrontend(h.ledger, m, handling).Admitted? { AdmissionLinearises(h, m, handling); }
    case Reply(localId, m) =>
      if PrepareResponse(h.ledger, localId, m).Emit? { EmissionLinearises(h, localId, m); }
  }

  predicate CalmRun(h: History, steps: seq<Step>)
    decreases steps
  {
    steps != [] ==> CalmStep(h, steps[0]) && CalmRun(Apply(h, steps[0]), steps[1..])
  }

  lemma {:induction false} CalmRunsLinearise(h: History, steps: seq<Step>)
    requires Linearised(h) && CalmRun(h, steps) && Unsaturated(Replay(h, steps))
    ensures Linearised(Replay(h, steps))
    decreases steps
  {
    if steps != [] {
      RequestsOnlyGrow(Apply(h, steps[0]), steps[1..]);
      StepLinearises(h, steps[0]);
      CalmRunsLinearise(Apply(h, steps[0]), steps[1..]);
    }
  }

  /** The history `h` is that of a calm run from an empty ledger. */
  ghost predicate CalmlyReached(h: History, limit: Limit) {
    Unsaturated(h) && exists steps :: CalmRun(Start(limit), steps) && h == Replay(Start(limit), steps)
  }

  lemma CalmHistoriesLinearise(h: History, limit: Limit)
    requires CalmlyReached(h, limit)
    ensures Linearised(h)
  {
    var steps :| CalmRun(Start(limit), steps) && h == Replay(Start(limit), steps);
    CalmRunsLinearise(Start(limit), steps);
  }

  /** Linearisation: after every calm run from an empty ledger, the requests that left the ledger
      and the head, each directly before its own responses, form a legal run of the sequential
      server from Ready.  The run ends in the head's response phase, or in the projected request
      state when nothing is outstanding. */
  lemma LinearisationTheorem(h: History, limit: Limit)
    requires CalmlyReached(h, limit)
    ensures 0 <= Begun(h.ledger) <= |h.requests|
    ensures G.Run(G.Ready, Linear(h.requests, h.emitted, Begun(h.ledger))) == Some(Standing(h.ledger))
  {
    CalmHistoriesLinearise(h, limit);
  }
}
