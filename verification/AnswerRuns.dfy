/** Whole answers: a forwarded operation is answered by rows, descriptions, COPY OUT data or a single
    completion, of every length, each message emitted when it comes, and is then complete. */
module AnswerRuns {
  import opened Messages
  import opened Ledgers
  import opened Shape
  import opened Histories
  import opened CalmLedgers
  import opened Confluence
  import opened CopyRuns
  import G = ServerGrammar

  /* ---------- steps ---------- */

  function SaysAll(ms: seq<BackendMessage>): seq<Step> {
    seq(|ms|, i requires 0 <= i < |ms| => Says(ms[i]))
  }

  /** Every message of `ms` is emitted, one after the other, and leaves `l'`. */
  predicate Reaches(l: Ledger, ms: seq<BackendMessage>, l': Ledger) {
    Takes(l, SaysAll(ms)) == Some(l')
  }

  lemma ReachesNothing(l: Ledger)
    ensures Reaches(l, [], l)
  {
  }

  lemma ReachesConcat(l: Ledger, a: seq<BackendMessage>, l1: Ledger, b: seq<BackendMessage>, l2: Ledger)
    requires Reaches(l, a, l1) && Reaches(l1, b, l2)
    ensures Reaches(l, a + b, l2)
  {
    hide Takes;
    TakesConcat(l, SaysAll(a), SaysAll(b));
    assert SaysAll(a) + SaysAll(b) == SaysAll(a + b);
  }

  lemma ReachesOne(l: Ledger, m: BackendMessage, l': Ledger)
    requires Take(l, Says(m)) == Some(l')
    ensures Reaches(l, [m], l')
  {
    hide Take;
    TakesOne(l, Says(m));
    assert SaysAll([m]) == [Says(m)];
  }

  lemma ReachesThen(l: Ledger, a: seq<BackendMessage>, l1: Ledger, m: BackendMessage, l2: Ledger)
    requires Reaches(l, a, l1) && Take(l1, Says(m)) == Some(l2)
    ensures Reaches(l, a + [m], l2)
  {
    hide Take, Reaches;
    ReachesOne(l1, m, l2);
    ReachesConcat(l, a, l1, [m], l2);
  }

  /* ---------- the head ---------- */

  /** The server's answer to the head is expected. */
  predicate Headed(l: Ledger) {
    Shaped(l) && l.operations != [] && l.operations[0].origin.Forwarded?
  }

  function Shown(t: G.State): Option<PipelineState> {
    var copy := ResponseCopyState(t);
    if copy.Some? then Some(Public(copy.value)) else None
  }

  /** The head in phase `t`, which is no COPY towards the server. */
  function Phased(l: Ledger, t: G.State): Ledger
    requires l.operations != []
  {
    l.(operations := l.operations[0 := l.operations[0].(responseState := t)], responseState := Shown(t))
  }

  /** The head is complete; operations without an answer behind it go with it. */
  function Completed(l: Ledger): Ledger
    requires l.operations != []
  {
    l.(operations := RemoveInertHeads(l.operations[1..]), responseState := None)
  }

  predicate CopiesToServer(t: G.State) {
    ResponseCopyState(t) == Some(RequestState.CopyIn) || ResponseCopyState(t) == Some(RequestState.CopyBoth)
  }

  lemma Advances(l: Ledger, m: BackendMessage, t: G.State)
    requires Headed(l) && !l.requestState.CopyIn?
    requires G.Send(l.operations[0].responseState, m) == Some(t) && !Resting(t) && !CopiesToServer(t)
    ensures Take(l, Says(m)) == Some(Phased(l, t)) && Headed(Phased(l, t))
  {
    var head := l.operations[0];
    TakenIsSynchronous(head.responseState, m);
    CompletionAgreesWithGrammar(head.kind, head.responseState, m);
    AdvancingTheHead(l, m);
    hide IsAsynchronous, Phase, InitialResponseState, LiveFrom;
  }

  lemma TakenIsSynchronous(s: G.State, m: BackendMessage)
    requires G.Send(s, m).Some?
    ensures !IsAsynchronous(m)
  {
  }

  lemma Completes(l: Ledger, m: BackendMessage, t: G.State)
    requires Headed(l) && G.Send(l.operations[0].responseState, m) == Some(t) && Resting(t) && !m.ErrorResponse?
    ensures Take(l, Says(m)) == Some(Completed(l))
  {
    var head := l.operations[0];
    CompletionAgreesWithGrammar(head.kind, head.responseState, m);
    CompletionEnds(l, m);
    TakenIsSynchronous(head.responseState, m);
  }

  lemma CompletedIsShaped(l: Ledger)
    requires Headed(l) && !l.requestState.CopyIn?
    ensures Shaped(Completed(l))
  {
    var tail := l.operations[1..];
    if tail != [] { FreshPhase(tail[0].kind); }
    DroppingInertHeadsKeepsLife(tail, Completed(l));
  }

  lemma PhasedTwice(l: Ledger, t: G.State, u: G.State)
    requires l.operations != []
    ensures Phased(Phased(l, t), u) == Phased(l, u) && Completed(Phased(l, t)) == Completed(l)
    ensures Phased(l, t).operations[0].responseState == t && Phased(l, t).requestState == l.requestState
  {
    assert Phased(l, t).operations[1..] == l.operations[1..];
  }

  /* ---------- streams of any length ---------- */

  /** Messages a phase takes any number of. */
  predicate Repeats(s: G.State, m: BackendMessage) {
    match s
    case Simple => m.RowDescription? || m.DataRow? || m.CommandComplete? || m.EmptyQueryResponse?
    case ExecuteResponse => m.RowDescription? || m.DataRow? || m.EmptyQueryResponse?
    case DescribeResponse => m.ParameterDescription?
    case SimpleCopyOut => m.CopyData?
    case ExtendedCopyOut => m.CopyData?
    case _ => false
  }

  predicate AllRepeat(s: G.State, ms: seq<BackendMessage>) {
    forall i :: 0 <= i < |ms| ==> Repeats(s, ms[i])
  }

  lemma RepeatsStays(s: G.State, m: BackendMessage)
    requires Repeats(s, m)
    ensures G.Send(s, m) == Some(s) && !Resting(s) && !CopiesToServer(s)
  {
  }

  /** For every number of them. */
  lemma {:induction false} StreamPasses(l: Ledger, s: G.State, ms: seq<BackendMessage>) returns (l': Ledger)
    requires Headed(l) && !l.requestState.CopyIn? && l.operations[0].responseState == s && AllRepeat(s, ms)
    ensures Reaches(l, ms, l') && l' == if ms == [] then l else Phased(l, s)
    ensures Headed(l') && Completed(l') == Completed(l) && l'.operations[0] == l.operations[0]
    ensures l'.requestState == l.requestState && forall t :: Phased(l', t) == Phased(l, t)
    decreases ms
  {
    if ms == [] {
      ReachesNothing(l);
      return l;
    }
    hide Take, Reaches, Shaped, Completed, Repeats;
    RepeatsStays(s, ms[0]);
    Advances(l, ms[0], s);
    PhasedTwice(l, s, s);
    ReachesOne(l, ms[0], Phased(l, s));
    l' := StreamPasses(Phased(l, s), s, ms[1..]);
    ReachesConcat(l, [ms[0]], Phased(l, s), ms[1..], l');
    assert [ms[0]] + ms[1..] == ms;
    forall t ensures Phased(l', t) == Phased(l, t) { PhasedTwice(l, s, t); }
  }

  /* ---------- whole answers ---------- */

  /** How the server answers one operation, with any number of rows, descriptions or COPY data. */
  datatype Script =
    | Single(completion: BackendMessage)
    | Results(results: seq<BackendMessage>, ready: BackendMessage)
    | FailedResults(results: seq<BackendMessage>, error: BackendMessage, ready: BackendMessage)
    | CopiedOut(results: seq<BackendMessage>, copyOut: BackendMessage, data: seq<BackendMessage>,
                done: BackendMessage, complete: BackendMessage, ready: BackendMessage)
    | Rows(rows: seq<BackendMessage>, end: BackendMessage)
    | RowsCopiedOut(rows: seq<BackendMessage>, copyOut: BackendMessage, data: seq<BackendMessage>,
                    done: BackendMessage, complete: BackendMessage)
    | Description(parameters: seq<BackendMessage>, description: BackendMessage)
    | Returned(outcome: BackendMessage, ready: BackendMessage)

  function Text(script: Script): seq<BackendMessage> {
    match script
    case Single(completion) => [completion]
    case Results(results, ready) => results + [ready]
    case FailedResults(results, error, ready) => results + [error] + [ready]
    case CopiedOut(results, copyOut, data, done, complete, ready) =>
      results + [copyOut] + data + [done] + [complete] + [ready]
    case Rows(rows, end) => rows + [end]
    case RowsCopiedOut(rows, copyOut, data, done, complete) => rows + [copyOut] + data + [done] + [complete]
    case Description(parameters, description) => parameters + [description]
    case Returned(outcome, ready) => [outcome] + [ready]
  }

  /** `script` is an answer to an operation of this kind. */
  predicate Answers(k: Kind, script: Script) {
    match script
    case Single(m) =>
      || (k.Parse? && m.ParseComplete?) || (k.Bind? && m.BindComplete?) || (k.Close? && m.CloseComplete?)
      || (k.Sync? && m.ReadyForQuery?)
    case Results(results, ready) => k.Query? && AllRepeat(G.Simple, results) && ready.ReadyForQuery?
    case FailedResults(results, error, ready) =>
      k.Query? && AllRepeat(G.Simple, results) && error.ErrorResponse? && ready.ReadyForQuery?
    case CopiedOut(results, copyOut, data, done, complete, ready) =>
      && k.Query? && AllRepeat(G.Simple, results) && copyOut.CopyOutResponse? && AllRepeat(G.SimpleCopyOut, data)
      && done.CopyDone? && complete.CommandComplete? && ready.ReadyForQuery?
    case Rows(rows, end) =>
      k.Execute? && AllRepeat(G.ExecuteResponse, rows) && (end.CommandComplete? || end.PortalSuspended?)
    case RowsCopiedOut(rows, copyOut, data, done, complete) =>
      && k.Execute? && AllRepeat(G.ExecuteResponse, rows) && copyOut.CopyOutResponse?
      && AllRepeat(G.ExtendedCopyOut, data) && done.CopyDone? && complete.CommandComplete?
    case Description(parameters, description) =>
      k.Describe? && AllRepeat(G.DescribeResponse, parameters) && (description.RowDescription? || description.NoData?)
    case Returned(outcome, ready) =>
      k.FunctionCall? && (outcome.FunctionCallResponse? || outcome.ErrorResponse?) && ready.ReadyForQuery?
  }

  /** The head has not been answered yet. */
  predicate Unanswered(l: Ledger) {
    Headed(l) && !l.requestState.CopyIn? && l.operations[0].responseState == InitialResponseState(l.operations[0].kind)
  }

  /** Phase by phase: `m` takes the head from `s` to `t`. */
  lemma Moves(l: Ledger, s: G.State, m: BackendMessage, t: G.State)
    requires Headed(l) && !l.requestState.CopyIn? && l.operations[0].responseState == s
    requires G.Send(s, m) == Some(t) && !Resting(t) && !CopiesToServer(t)
    ensures Take(l, Says(m)) == Some(Phased(l, t)) && Headed(Phased(l, t))
    ensures Completed(Phased(l, t)) == Completed(l) && Phased(l, t).operations[0].responseState == t
    ensures Phased(l, t).requestState == l.requestState
  {
    hide Take, Shaped;
    Advances(l, m, t);
    PhasedTwice(l, t, t);
  }

  lemma CopyOutCompletes(l: Ledger, simple: bool, copyOut: BackendMessage, data: seq<BackendMessage>,
                         done: BackendMessage)
    returns (l': Ledger)
    requires Headed(l) && !l.requestState.CopyIn?
    requires l.operations[0].responseState == if simple then G.Simple else G.ExecuteResponse
    requires copyOut.CopyOutResponse? && AllRepeat(if simple then G.SimpleCopyOut else G.ExtendedCopyOut, data)
    requires done.CopyDone?
    ensures Reaches(l, [copyOut] + data + [done], l') && Headed(l') && Completed(l') == Completed(l)
    ensures l'.requestState == l.requestState
    ensures l'.operations[0].responseState == if simple then G.SimpleCopyOutDone else G.ExtendedCopyOutDone
  {
    var s, out, ended := if simple then G.Simple else G.ExecuteResponse,
      if simple then G.SimpleCopyOut else G.ExtendedCopyOut,
      if simple then G.SimpleCopyOutDone else G.ExtendedCopyOutDone;
    assert G.Send(s, copyOut) == Some(out) && G.Send(out, done) == Some(ended);
    assert !Resting(out) && !Resting(ended) && !CopiesToServer(out) && !CopiesToServer(ended);
    hide Take, Reaches, Shaped, Completed, Phased, AllRepeat;
    Moves(l, s, copyOut, out);
    ReachesOne(l, copyOut, Phased(l, out));
    var l1 := StreamPasses(Phased(l, out), out, data);
    ReachesConcat(l, [copyOut], Phased(l, out), data, l1);
    Moves(l1, out, done, ended);
    ReachesThen(l, [copyOut] + data, l1, done, Phased(l1, ended));
    l' := Phased(l1, ended);
  }

  lemma QueryAnswered(l: Ledger, script: Script)
    requires Unanswered(l) && Answers(l.operations[0].kind, script)
    requires script.Results? || script.FailedResults?
    ensures Reaches(l, Text(script), Completed(l))
  {
    hide Take, Reaches, Shaped, Completed, Phased, AllRepeat;
    var l1 := StreamPasses(l, G.Simple, script.results);
    if script.Results? {
      Completes(l1, script.ready, G.Ready);
      ReachesThen(l, script.results, l1, script.ready, Completed(l));
    } else {
      Moves(l1, G.Simple, script.error, G.SimpleError);
      ReachesThen(l, script.results, l1, script.error, Phased(l1, G.SimpleError));
      Completes(Phased(l1, G.SimpleError), script.ready, G.Ready);
      ReachesThen(l, script.results + [script.error], Phased(l1, G.SimpleError), script.ready, Completed(l));
    }
  }

  lemma CopyOutQueryAnswered(l: Ledger, script: Script)
    requires Unanswered(l) && Answers(l.operations[0].kind, script) && script.CopiedOut?
    ensures Reaches(l, Text(script), Completed(l))
  {
    hide Take, Reaches, Shaped, Completed, Phased, AllRepeat;
    var l1 := StreamPasses(l, G.Simple, script.results);
    var l2 := CopyOutCompletes(l1, true, script.copyOut, script.data, script.done);
    var first, out := script.results, [script.copyOut] + script.data + [script.done];
    ReachesConcat(l, first, l1, out, l2);
    CopyOutEnds(l2, script.complete, script.ready);
    ReachesConcat(l, first + out, l2, [script.complete] + [script.ready], Completed(l));
    assert first + out + ([script.complete] + [script.ready]) == Text(script);
  }

  lemma CopyOutEnds(l: Ledger, complete: BackendMessage, ready: BackendMessage)
    requires Headed(l) && !l.requestState.CopyIn? && l.operations[0].responseState == G.SimpleCopyOutDone
    requires complete.CommandComplete? && ready.ReadyForQuery?
    ensures Reaches(l, [complete] + [ready], Completed(l))
  {
    hide Take, Reaches, Shaped, Completed, Phased;
    Moves(l, G.SimpleCopyOutDone, complete, G.SimpleCopyReady);
    ReachesOne(l, complete, Phased(l, G.SimpleCopyReady));
    Completes(Phased(l, G.SimpleCopyReady), ready, G.Ready);
    ReachesThen(l, [complete], Phased(l, G.SimpleCopyReady), ready, Completed(l));
  }

  lemma ExecuteAnswered(l: Ledger, script: Script)
    requires Unanswered(l) && Answers(l.operations[0].kind, script) && (script.Rows? || script.RowsCopiedOut?)
    ensures Reaches(l, Text(script), Completed(l))
  {
    hide Take, Reaches, Shaped, Completed, Phased, AllRepeat;
    var l1 := StreamPasses(l, G.ExecuteResponse, script.rows);
    if script.Rows? {
      Completes(l1, script.end, G.Building);
      ReachesThen(l, script.rows, l1, script.end, Completed(l));
    } else {
      var l2 := CopyOutCompletes(l1, false, script.copyOut, script.data, script.done);
      var first, out := script.rows, [script.copyOut] + script.data + [script.done];
      ReachesConcat(l, first, l1, out, l2);
      Completes(l2, script.complete, G.Building);
      ReachesThen(l, first + out, l2, script.complete, Completed(l));
      assert first + out + [script.complete] == Text(script);
    }
  }

  lemma OthersAnswered(l: Ledger, script: Script)
    requires Unanswered(l) && Answers(l.operations[0].kind, script)
    requires script.Single? || script.Description? || script.Returned?
    ensures Reaches(l, Text(script), Completed(l))
  {
    hide Take, Reaches, Shaped, Completed, Phased, AllRepeat;
    match script
    case Single(m) =>
      Completes(l, m, if m.ReadyForQuery? then G.Ready else G.Building);
      ReachesOne(l, m, Completed(l));
    case Description(parameters, description) =>
      var l1 := StreamPasses(l, G.DescribeResponse, parameters);
      Completes(l1, description, G.Building);
      ReachesThen(l, parameters, l1, description, Completed(l));
    case Returned(outcome, ready) =>
      Moves(l, G.FunctionResponse, outcome, G.FunctionReady);
      ReachesOne(l, outcome, Phased(l, G.FunctionReady));
      Completes(Phased(l, G.FunctionReady), ready, G.Ready);
      ReachesThen(l, [outcome], Phased(l, G.FunctionReady), ready, Completed(l));
  }

  /** Whatever is queued behind it, a forwarded head is answered by every such script message by message
      and is complete exactly at its end. */
  lemma AnswersComplete(l: Ledger, script: Script)
    requires Unanswered(l) && Answers(l.operations[0].kind, script)
    ensures Reaches(l, Text(script), Completed(l))
  {
    hide Reaches, Unanswered, Answers, Text, Completed;
    if script.Results? || script.FailedResults? {
      QueryAnswered(l, script);
    } else if script.CopiedOut? {
      CopyOutQueryAnswered(l, script);
    } else if script.Rows? || script.RowsCopiedOut? {
      ExecuteAnswered(l, script);
    } else {
      OthersAnswered(l, script);
    }
  }

  /* ---------- whole queues and whole sessions ---------- */

  /** Nothing is handled locally, discarded or answered yet. */
  predicate AllWaiting(ops: seq<Operation>) {
    forall i :: 0 <= i < |ops| ==>
      ops[i].origin.Forwarded? && !ops[i].discarded && ops[i].responseState == InitialResponseState(ops[i].kind)
  }

  /** One answer for every operation that gets one. */
  predicate Scripted(ops: seq<Operation>, scripts: seq<Script>) {
    |scripts| == |ops| && forall i :: 0 <= i < |ops| ==> !InertKind(ops[i].kind) ==> Answers(ops[i].kind, scripts[i])
  }

  /** The answers from position `i` on, in order. */
  function Replies(ops: seq<Operation>, scripts: seq<Script>, i: nat): seq<BackendMessage>
    requires |scripts| == |ops| && i <= |ops|
    decreases |ops| - i
  {
    if i == |ops| then []
    else (if InertKind(ops[i].kind) then [] else Text(scripts[i])) + Replies(ops, scripts, i + 1)
  }

  lemma {:induction false} RepliesSkip(ops: seq<Operation>, scripts: seq<Script>, i: nat, k: nat)
    requires |scripts| == |ops| && i <= k <= |ops| && forall j :: i <= j < k ==> InertKind(ops[j].kind)
    ensures Replies(ops, scripts, i) == Replies(ops, scripts, k)
    decreases k - i
  {
    if i < k {
      RepliesSkip(ops, scripts, i + 1, k);
      assert [] + Replies(ops, scripts, i + 1) == Replies(ops, scripts, i + 1);
    }
  }

  lemma NextLive(ops: seq<Operation>, i: nat, k: nat)
    requires i < |ops| && k == LiveFrom(ops, i + 1)
    ensures RemoveInertHeads(ops[i..][1..]) == ops[k..]
  {
    var tail := ops[i + 1..];
    assert ops[i..][1..] == tail;
    LiveIs(tail, k - (i + 1));
    assert tail[k - (i + 1)..] == ops[k..];
  }

  lemma {:induction false} QueueAnswered(l: Ledger, ops: seq<Operation>, scripts: seq<Script>, i: nat)
    requires Shaped(l) && !l.requestState.CopyIn? && l.responseState == None
    requires AllWaiting(ops) && Scripted(ops, scripts)
    requires i <= |ops| && l.operations == ops[i..] && (i < |ops| ==> !InertKind(ops[i].kind))
    ensures Reaches(l, Replies(ops, scripts, i), l.(operations := []))
    decreases |ops| - i
  {
    if i == |ops| {
      ReachesNothing(l);
    } else {
      assert l.operations[0] == ops[i];
      AnswersComplete(l, scripts[i]);
      CompletedIsShaped(l);
      var k := LiveFrom(ops, i + 1);
      NextLive(ops, i, k);
      RepliesSkip(ops, scripts, i + 1, k);
      hide Reaches, Shaped, Scripted, AllWaiting, Answers, Text;
      QueueAnswered(Completed(l), ops, scripts, k);
      ReachesConcat(l, Text(scripts[i]), Completed(l), Replies(ops, scripts, k), l.(operations := []));
    }
  }

  /** A ledger of forwarded requests that wait for their answers. */
  predicate Waits(l: Ledger) {
    Quiet(l) && !l.requestState.ExtendedError? && l.responseState == None && AllWaiting(l.operations)
  }

  lemma RequestWaits(l: Ledger, m: FrontendMessage)
    requires Waits(l) && AcceptFrontend(l, m, Forward).Admitted?
    ensures Waits(AcceptFrontend(l, m, Forward).ledger)
  {
    hide AcceptFrontend, ProjectFrontend, Shaped, ServerSpeaks, InitialResponseState;
    AdmitsAppends(l, m, Forward);
    AdmissionKeepsQuiet(l, m, Forward);
    Classification(l.requestState, m);
  }

  lemma {:induction false} RequestsWait(l: Ledger, requests: seq<FrontendMessage>)
    requires Waits(l) && Takes(l, SendAll(requests)).Some?
    ensures Waits(Takes(l, SendAll(requests)).value)
    decreases requests
  {
    if requests != [] {
      RequestWaits(l, requests[0]);
      assert SendAll(requests)[1..] == SendAll(requests[1..]);
      RequestsWait(AcceptFrontend(l, requests[0], Forward).ledger, requests[1..]);
    }
  }

  lemma WaitingStarts(l: Ledger)
    requires Waits(l)
    ensures Shaped(l) && !l.requestState.CopyIn? && (l.operations != [] ==> !InertKind(l.operations[0].kind))
  {
  }

  /** Whatever requests are accepted one behind the other on an idle ledger, and whatever answers the
      server gives to each of them in turn, every message is emitted when it comes and nothing is left
      outstanding. */
  lemma SessionCompletes(l: Ledger, requests: seq<FrontendMessage>, scripts: seq<Script>)
    requires AtRest(l) && Takes(l, SendAll(requests)).Some?
    requires Scripted(Takes(l, SendAll(requests)).value.operations, scripts)
    ensures var queued := Takes(l, SendAll(requests)).value;
      Takes(l, SendAll(requests) + SaysAll(Replies(queued.operations, scripts, 0))) == Some(queued.(operations := []))
  {
    assert Waits(l);
    RequestsWait(l, requests);
    var queued := Takes(l, SendAll(requests)).value;
    WaitingStarts(queued);
    assert queued.operations[0..] == queued.operations;
    QueueAnswered(queued, queued.operations, scripts, 0);
    hide Takes, Scripted;
    TakesConcat(l, SendAll(requests), SaysAll(Replies(queued.operations, scripts, 0)));
  }
}
