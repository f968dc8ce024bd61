/** The request state is a prediction: it is where the sequential server stands once every
    outstanding operation has been answered without an extended-query error, whatever the answers
    are.  Checking a pipelined message against it is therefore the lock-step check. */
module Projection {
  import opened Messages
  import opened Ledgers
  import opened Shape
  import opened Histories
  import opened CalmLedgers
  import opened Linearisation
  import G = ServerGrammar

  predicate OnlyServer(ms: seq<G.Message>) {
    forall i :: 0 <= i < |ms| ==> ms[i].FromServer?
  }

  /** From `s` these responses bring the server to rest, and not in its error state. */
  predicate Answers(s: G.State, ms: seq<G.Message>) {
    OnlyServer(ms) && (G.Run(s, ms) == Some(G.Ready) || G.Run(s, ms) == Some(G.Building))
  }

  /** One answer for each outstanding operation: what the head still lacks, whole responses for the
      live operations behind it, and nothing for the inert ones. */
  predicate Completion(ops: seq<Operation>, answers: seq<seq<G.Message>>) {
    && |answers| == |ops|
    && forall i :: 0 <= i < |ops| ==>
         if Inert(ops[i]) then answers[i] == [] else Answers(ops[i].responseState, answers[i])
  }

  /** The outstanding requests from position `i` on, each directly before its answer. */
  function Remaining(requests: seq<FrontendMessage>, base: nat, answers: seq<seq<G.Message>>, i: nat): seq<G.Message>
    requires i <= |answers| && base + |answers| <= |requests|
    decreases |answers| - i
  {
    if i == |answers| then []
    else [G.FromClient(requests[base + i])] + answers[i] + Remaining(requests, base, answers, i + 1)
  }

  /** The whole session in sequential order, outstanding operations included. */
  function Session(h: History, answers: seq<seq<G.Message>>): seq<G.Message>
    requires 0 <= Base(h.ledger) && Base(h.ledger) + |answers| <= |h.requests| && Begun(h.ledger) <= |h.requests|
  {
    Linear(h.requests, h.emitted, Begun(h.ledger))
    + (if answers == [] then [] else answers[0] + Remaining(h.requests, Base(h.ledger), answers, 1))
  }

  lemma RestIsSilent(s: G.State, ms: seq<G.Message>)
    requires Resting(s) && OnlyServer(ms) && G.Run(s, ms).Some?
    ensures ms == []
  {
  }

  /** An answer without an extended-query error rests where its kind says. */
  lemma {:induction false} AnswerRestsAfter(k: Kind, s: G.State, ms: seq<G.Message>)
    requires Phase(k, s) && !InertKind(k) && Answers(s, ms)
    ensures G.Run(s, ms) == Some(After(k))
    decreases ms
  {
    if ms != [] {
      var m := ms[0].response;
      CompletionAgreesWithGrammar(k, s, m);
      var t := G.Send(s, m).value;
      if Resting(t) {
        RestIsSilent(t, ms[1..]);
      } else {
        AnswerRestsAfter(k, t, ms[1..]);
      }
    }
  }

  /** One more request and its answer. */
  lemma OneAnswered(s: G.State, m: FrontendMessage, k: Kind, answer: seq<G.Message>)
    requires KindOf(m) == Some(k) && Advance(s, k).Some?
    requires if InertKind(k) then answer == [] else Answers(InitialResponseState(k), answer)
    ensures G.Run(s, [G.FromClient(m)] + answer) == Advance(s, k)
  {
    var first := [G.FromClient(m)];
    StartingAnOperation(s, m, k);
    RunOne(s, [], first[0]);
    assert [] + first == first;
    if InertKind(k) {
      assert first + answer == first;
    } else {
      FreshPhase(k);
      AnswerRestsAfter(k, InitialResponseState(k), answer);
      G.RunConcat(s, first, answer);
    }
  }

  lemma {:induction false} RemainingRuns(requests: seq<FrontendMessage>, base: nat, ops: seq<Operation>,
                                         answers: seq<seq<G.Message>>, i: nat, s: G.State)
    requires 1 <= i <= |ops| && Queued(requests, ops, base) && NoneDiscarded(ops) && TailFresh(ops)
    requires Completion(ops, answers) && Project(s, ops, i).Some?
    ensures G.Run(s, Remaining(requests, base, answers, i)) == Project(s, ops, i)
    decreases |ops| - i
  {
    if i < |ops| {
      var first, rest := [G.FromClient(requests[base + i])], Remaining(requests, base, answers, i + 1);
      var t := Advance(s, ops[i].kind).value;
      OneAnswered(s, requests[base + i], ops[i].kind, answers[i]);
      G.RunConcat(s, first + answers[i], rest);
      RemainingRuns(requests, base, ops, answers, i + 1, t);
    }
  }

  /** Projection correctness: in every history of a calm run, and for every completion of its
      outstanding operations, the sequential server ends in the image of the request state. */
  lemma ProjectionIsCorrect(h: History, answers: seq<seq<G.Message>>)
    requires Linearised(h) && Completion(h.ledger.operations, answers)
    ensures G.Run(G.Ready, Session(h, answers)) == Some(Generated(h.ledger.requestState))
  {
    var l := h.ledger;
    var begun := Linear(h.requests, h.emitted, Begun(l));
    if l.operations == [] {
      assert Session(h, answers) == begun;
    } else {
      QueueOf(h);
      var head, rest := l.operations[0], Remaining(h.requests, Base(l), answers, 1);
      AnswerRestsAfter(head.kind, head.responseState, answers[0]);
      RemainingRuns(h.requests, Base(l), l.operations, answers, 1, After(head.kind));
      G.RunConcat(head.responseState, answers[0], rest);
      G.RunConcat(G.Ready, begun, answers[0] + rest);
    }
  }

  /** Behind any number of outstanding requests, a message is admitted exactly when the sequential
      server would take it at the end of the completed session; a password is no operation and the
      count limit is the only other reason to refuse. */
  lemma PipelinedLegalityIsLockStep(h: History, answers: seq<seq<G.Message>>, m: FrontendMessage, handling: Handling)
    requires Linearised(h) && Completion(h.ledger.operations, answers)
    ensures AcceptFrontend(h.ledger, m, handling).Admitted? <==>
      && |h.ledger.operations| < h.ledger.limit
      && !m.PasswordResponse?
      && G.Run(G.Ready, Session(h, answers)).Some?
      && G.Receive(G.Run(G.Ready, Session(h, answers)).value, m).Some?
  {
    ProjectionIsCorrect(h, answers);
    ClassifiedWhenReceived(h.ledger.requestState, m);
  }

  /** An admitted message is immediate exactly when the sequential server, having said what was
      emitted, would take it now; otherwise it waits behind responses still owed. */
  lemma ImmediateExactlyWhenServerListens(h: History, m: FrontendMessage, handling: Handling)
    requires Linearised(h) && AcceptFrontend(h.ledger, m, handling).Admitted?
    ensures 0 <= Begun(h.ledger) <= |h.requests|
    ensures var now := G.Run(G.Ready, Linear(h.requests, h.emitted, Begun(h.ledger)));
      && now.Some?
      && (AcceptFrontend(h.ledger, m, handling).admission.Immediate? <==> G.Receive(now.value, m).Some?)
  {
    AdmittedLedger(h.ledger, m, handling);
    if h.ledger.operations != [] { ServerSpeaksAlone(h.ledger.operations[0].responseState, m); }
  }

  lemma ClassifiedWhenReceived(s: RequestState, m: FrontendMessage)
    requires !s.CopyIn? && !s.CopyBoth? && !s.CopyOut?
    ensures ProjectFrontend(s, m).Some? <==> G.Receive(Generated(s), m).Some? && !m.PasswordResponse?
  {
  }

  /* ---------- a completion always exists ---------- */

  lemma AnswerFirst(s: G.State, m: BackendMessage, rest: seq<G.Message>)
    requires G.Send(s, m).Some? && Answers(G.Send(s, m).value, rest)
    ensures Answers(s, [G.FromServer(m)] + rest)
  {
    assert ([G.FromServer(m)] + rest)[1..] == rest;
  }

  lemma LastAnswer(s: G.State, m: BackendMessage)
    requires G.Send(s, m) == Some(G.Ready) || G.Send(s, m) == Some(G.Building)
    ensures Answers(s, [G.FromServer(m)])
  {
    AnswerFirst(s, m, []);
    assert [G.FromServer(m)] + [] == [G.FromServer(m)];
  }

  lemma DoneAnswers(s: G.State)
    requires s.SimpleCopyOutDone? || s.ExtendedCopyOutDone? || s.FunctionReady?
    ensures exists ms :: Answers(s, ms)
  {
    if s.SimpleCopyOutDone? {
      LastAnswer(G.SimpleCopyReady, ReadyForQuery(Idle));
      AnswerFirst(s, CommandComplete([]), [G.FromServer(ReadyForQuery(Idle))]);
    } else {
      LastAnswer(s, if s.FunctionReady? then ReadyForQuery(Idle) else CommandComplete([]));
    }
  }

  lemma AnswersThrough(s: G.State, m: BackendMessage)
    requires G.Send(s, m).Some? && exists ms :: Answers(G.Send(s, m).value, ms)
    ensures exists ms :: Answers(s, ms)
  {
    var ms :| Answers(G.Send(s, m).value, ms);
    AnswerFirst(s, m, ms);
  }

  /** Wherever the server speaks it can answer. */
  lemma AnswerExists(s: G.State)
    requires ServerSpeaks(s)
    ensures exists ms :: Answers(s, ms)
  {
    match s
    case ParseResponse => LastAnswer(s, ParseComplete);
    case BindResponse => LastAnswer(s, BindComplete);
    case DescribeResponse => LastAnswer(s, NoData);
    case CloseResponse => LastAnswer(s, CloseComplete);
    case ExecuteResponse => LastAnswer(s, CommandComplete([]));
    case ExtendedCopyOut => DoneAnswers(G.ExtendedCopyOutDone); AnswersThrough(s, BackendMessage.CopyDone);
    case SimpleCopyOut => DoneAnswers(G.SimpleCopyOutDone); AnswersThrough(s, BackendMessage.CopyDone);
    case FunctionResponse => DoneAnswers(G.FunctionReady); AnswersThrough(s, FunctionCallResponse([]));
    case ExtendedCopyOutDone => DoneAnswers(s);
    case SimpleCopyOutDone => DoneAnswers(s);
    case _ => LastAnswer(s, ReadyForQuery(Idle));
  }

  ghost function SomeAnswer(s: G.State): (ms: seq<G.Message>)
    requires ServerSpeaks(s)
    ensures Answers(s, ms)
  {
    AnswerExists(s);
    var ms :| Answers(s, ms);
    ms
  }

  lemma {:induction false} ProjectedStartsSpeak(s: G.State, ops: seq<Operation>, i: nat, j: nat)
    requires i <= j < |ops| && Project(s, ops, i).Some? && !InertKind(ops[j].kind)
    ensures ServerSpeaks(InitialResponseState(ops[j].kind))
    decreases |ops| - i
  {
    if i < j { ProjectedStartsSpeak(Advance(s, ops[i].kind).value, ops, i + 1, j); }
  }

  /** Every calm ledger has a completion, so the prediction is about something. */
  lemma CompletionExists(l: Ledger)
    requires Calm(l)
    ensures exists answers :: Completion(l.operations, answers)
  {
    var ops := l.operations;
    forall i | 0 <= i < |ops| && !Inert(ops[i])
      ensures ServerSpeaks(ops[i].responseState)
    {
      if i > 0 { ProjectedStartsSpeak(After(ops[0].kind), ops, 1, i); }
    }
    var answers := seq(|ops|, i requires 0 <= i < |ops| =>
      if Inert(ops[i]) then [] else SomeAnswer(ops[i].responseState));
    assert Completion(ops, answers);
  }
}
