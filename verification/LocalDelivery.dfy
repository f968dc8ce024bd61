/** When a locally answered operation gets its turn: its responses go out exactly when nothing older is
    left waiting in front of them, and otherwise never. */
module LocalDelivery {
  import opened Messages
  import opened Ledgers
  import opened Shape
  import opened Histories
  import opened CalmLedgers
  import opened Confluence
  import opened LocalErrors
  import opened LocalResponses
  import opened Drivers
  import G = ServerGrammar

  predicate AllAsynchronous(ms: seq<BackendMessage>) {
    forall i :: 0 <= i < |ms| ==> IsAsynchronous(ms[i])
  }

  /** Nothing in the first `j` entries has to wait for its operation. */
  predicate Clear(queue: seq<Pending>, j: nat)
    requires j <= |queue|
  {
    forall i :: 0 <= i < j ==> AllAsynchronous(queue[i].messages)
  }

  /** The front of the queue waits for an operation older than everything outstanding. */
  predicate FrontWaits(l: Ledger, queue: seq<Pending>) {
    && queue != [] && queue[0].messages != [] && !IsAsynchronous(queue[0].messages[0])
    && queue[0].operation < l.nextId
    && forall i :: 0 <= i < |l.operations| ==> queue[0].operation < l.operations[i].id
  }

  lemma AbsentDefers(l: Ledger, id: nat, m: BackendMessage)
    requires l.operations != [] && forall i :: 0 <= i < |l.operations| ==> id < l.operations[i].id
    ensures AcceptResponse(l, Some(id), m) == Answer(if IsAsynchronous(m) then Emitted else DeferredAction, l)
  {
    NotFound(l.operations, 0, id);
  }

  lemma {:induction false} NotFound(ops: seq<Operation>, i: nat, id: nat)
    requires i <= |ops| && forall k :: 0 <= k < |ops| ==> id < ops[k].id
    ensures PositionOf(ops, i, id) == |ops|
    decreases |ops| - i
  {
    if i < |ops| { NotFound(ops, i + 1, id); }
  }

  lemma WaitingDrain(l: Ledger, queue: seq<Pending>)
    requires l.operations != [] && FrontWaits(l, queue)
    ensures Drain(l, queue) == Drained(l, queue, [], false)
  {
    hide AcceptResponse;
    AbsentDefers(l, queue[0].operation, queue[0].messages[0]);
  }

  lemma AsynchronousFront(l: Ledger, queue: seq<Pending>)
    requires queue != [] && queue[0].messages != [] && IsAsynchronous(queue[0].messages[0])
    ensures var d := Drain(l, Popped(queue)); Drain(l, queue) == d.(sent := [queue[0].messages[0]] + d.sent)
  {
  }

  /** An entry whose operation is gone sends its leading asynchronous messages; then it either is used
      up or holds everything behind it back. */
  lemma {:induction false} DrainThroughGone(l: Ledger, queue: seq<Pending>)
    requires l.operations != [] && queue != [] && queue[0].operation < l.nextId
    requires forall i :: 0 <= i < |l.operations| ==> queue[0].operation < l.operations[i].id
    ensures var d := Drain(l, queue);
      if AllAsynchronous(queue[0].messages) then
        d == Drain(l, queue[1..]).(sent := queue[0].messages + Drain(l, queue[1..]).sent)
      else
        d.ledger == l && !d.refused && AllAsynchronous(d.sent) && FrontWaits(l, d.queue) && d.queue[1..] == queue[1..]
    decreases |queue[0].messages|
  {
    hide AcceptResponse, Backlog;
    var ms := queue[0].messages;
    if ms == [] {
      assert ms + Drain(l, queue[1..]).sent == Drain(l, queue[1..]).sent;
    } else if !IsAsynchronous(ms[0]) {
      WaitingDrain(l, queue);
    } else {
      AsynchronousFront(l, queue);
      PoppedParts(queue);
      var q := Popped(queue);
      assert q[0].operation == queue[0].operation;
      hide Popped;
      DrainThroughGone(l, q);
      AsynchronousHead(ms);
      if AllAsynchronous(ms) {
        assert [ms[0]] + (ms[1..] + Drain(l, queue[1..]).sent) == ms + Drain(l, queue[1..]).sent;
      }
    }
  }

  lemma AsynchronousHead(ms: seq<BackendMessage>)
    requires ms != [] && IsAsynchronous(ms[0])
    ensures AllAsynchronous(ms) <==> AllAsynchronous(ms[1..])
  {
    if AllAsynchronous(ms[1..]) {
      assert forall i :: 1 <= i < |ms| ==> ms[i] == ms[1..][i - 1];
    }
  }

  /** The entry of the oldest outstanding operation stands at `j`. */
  predicate HeadEntry(l: Ledger, queue: seq<Pending>, j: nat) {
    Window(l) && l.operations != [] && QueueOrdered(queue, l.nextId) && j < |queue|
      && queue[j].operation == l.operations[0].id
  }

  lemma EarlierEntriesAreGone(l: Ledger, queue: seq<Pending>, j: nat, i: nat)
    requires HeadEntry(l, queue, j) && i < j
    ensures Gone(l, queue[i].operation)
    ensures forall k :: 0 <= k < |l.operations| ==> queue[i].operation < l.operations[k].id
  {
  }

  lemma EntryInFront(l: Ledger, queue: seq<Pending>, j: nat)
    requires HeadEntry(l, queue, j) && j > 0
    ensures l.operations != [] && j < |queue| && queue[0].operation < l.nextId
    ensures forall k :: 0 <= k < |l.operations| ==> queue[0].operation < l.operations[k].id
  {
    EarlierEntriesAreGone(l, queue, j, 0);
  }

  lemma RestOfQueue(l: Ledger, queue: seq<Pending>, j: nat)
    requires HeadEntry(l, queue, j) && j > 0
    ensures HeadEntry(l, queue[1..], j - 1) && queue[j..] == queue[1..][j - 1..]
    ensures Clear(queue, j) <==> AllAsynchronous(queue[0].messages) && Clear(queue[1..], j - 1)
  {
    assert forall i :: 0 <= i < |queue| - 1 ==> queue[1..][i] == queue[i + 1];
    if AllAsynchronous(queue[0].messages) && Clear(queue[1..], j - 1) {
      assert forall i :: 1 <= i < j ==> queue[i] == queue[1..][i - 1];
    }
  }

  lemma {:induction false} DrainClear(l: Ledger, queue: seq<Pending>, j: nat)
    requires HeadEntry(l, queue, j) && Clear(queue, j)
    ensures var e := Drain(l, queue[j..]);
      AllAsynchronous(Contents(queue[..j])) && Drain(l, queue) == e.(sent := Contents(queue[..j]) + e.sent)
    decreases j
  {
    if j == 0 {
      assert queue[0..] == queue && queue[..0] == [];
      assert [] + Drain(l, queue).sent == Drain(l, queue).sent;
    } else {
      hide Drain, FrontWaits, AllAsynchronous, Clear, HeadEntry, Contents;
      EntryInFront(l, queue, j);
      DrainThroughGone(l, queue);
      RestOfQueue(l, queue, j);
      DrainClear(l, queue[1..], j - 1);
      ContentsOfPrefix(queue, j);
      AsynchronousConcat(queue[0].messages, Contents(queue[1..][..j - 1]));
      SentBehind(queue[0].messages, Contents(queue[1..][..j - 1]), Drain(l, queue[j..]).sent);
    }
  }

  /** `left` ends with everything from entry `j` of `queue` on. */
  predicate Keeps(left: seq<Pending>, queue: seq<Pending>, j: nat)
    requires j <= |queue|
  {
    |queue| - j <= |left| && left[|left| - (|queue| - j)..] == queue[j..]
  }

  lemma KeepsRest(left: seq<Pending>, queue: seq<Pending>, j: nat)
    requires 0 < j <= |queue| && Keeps(left, queue[1..], j - 1)
    ensures Keeps(left, queue, j)
  {
    assert queue[1..][j - 1..] == queue[j..];
  }

  lemma {:induction false} DrainBlocked(l: Ledger, queue: seq<Pending>, j: nat)
    requires HeadEntry(l, queue, j) && !Clear(queue, j)
    ensures var d := Drain(l, queue);
      && d.ledger == l && !d.refused && AllAsynchronous(d.sent) && FrontWaits(l, d.queue) && Keeps(d.queue, queue, j)
    decreases j
  {
    assert j > 0;
    hide Drain, FrontWaits, AllAsynchronous, Clear, HeadEntry, Keeps;
    EntryInFront(l, queue, j);
    DrainThroughGone(l, queue);
    RestOfQueue(l, queue, j);
    if AllAsynchronous(queue[0].messages) {
      DrainBlocked(l, queue[1..], j - 1);
      AsynchronousConcat(queue[0].messages, Drain(l, queue[1..]).sent);
      KeepsRest(Drain(l, queue[1..]).queue, queue, j);
    } else {
      var d := Drain(l, queue);
      WaitingHasFront(l, d.queue);
      SameTail(d.queue, queue, j);
    }
  }

  /** Behind the entries in front of it the drain either reaches the head's entry with the ledger as it
      was, or stops for good in front of it. */
  lemma DrainReachesHead(l: Ledger, queue: seq<Pending>, j: nat)
    requires HeadEntry(l, queue, j)
    ensures var d, e := Drain(l, queue), Drain(l, queue[j..]);
      if Clear(queue, j) then
        AllAsynchronous(Contents(queue[..j])) && d == e.(sent := Contents(queue[..j]) + e.sent)
      else
        d.ledger == l && !d.refused && AllAsynchronous(d.sent) && FrontWaits(l, d.queue) && Keeps(d.queue, queue, j)
  {
    hide Drain, FrontWaits, AllAsynchronous, Clear, Window, Contents;
    if Clear(queue, j) { DrainClear(l, queue, j); } else { DrainBlocked(l, queue, j); }
  }

  lemma WaitingHasFront(l: Ledger, queue: seq<Pending>)
    requires FrontWaits(l, queue)
    ensures queue != []
  {
  }

  lemma SameTail(a: seq<Pending>, b: seq<Pending>, j: nat)
    requires a != [] && b != [] && a[1..] == b[1..] && 0 < j <= |b|
    ensures Keeps(a, b, j)
  {
    assert |a[1..]| == |b[1..]|;
    assert a[j..] == a[1..][j - 1..] && b[j..] == b[1..][j - 1..];
  }

  lemma ContentsOfPrefix(queue: seq<Pending>, j: nat)
    requires 0 < j <= |queue|
    ensures Contents(queue[..j]) == queue[0].messages + Contents(queue[1..][..j - 1])
  {
    assert queue[..j][1..] == queue[1..][..j - 1];
  }

  lemma AsynchronousConcat(a: seq<BackendMessage>, b: seq<BackendMessage>)
    requires AllAsynchronous(a) && AllAsynchronous(b)
    ensures AllAsynchronous(a + b)
  {
  }

  lemma SentBehind(a: seq<BackendMessage>, b: seq<BackendMessage>, c: seq<BackendMessage>)
    ensures a + (b + c) == (a + b) + c
  {
  }

  /** The drain sends a local head its response, behind any asynchronous messages of its entry, if and
      only if every entry in front of it, all of whose operations are gone, has only asynchronous
      messages left. */
  lemma LocalHeadIsAnsweredExactly(l: Ledger, queue: seq<Pending>, j: nat, k: nat)
    requires HeadEntry(l, queue, j) && k < |queue[j].messages| && AllAsynchronous(queue[j].messages[..k])
    requires PrepareResponse(l, Some(l.operations[0].id), queue[j].messages[k]).Emit?
    ensures forall i :: 0 <= i < j ==> Gone(l, queue[i].operation)
    ensures var d := Drain(l, queue);
      && (!AllAsynchronous(d.sent) <==> Clear(queue, j))
      && (Clear(queue, j) ==> Contents(queue[..j]) + queue[j].messages[..k + 1] <= d.sent)
      && (!Clear(queue, j) ==> d.ledger == l && FrontWaits(l, d.queue))
  {
    forall i | 0 <= i < j ensures Gone(l, queue[i].operation) { EarlierEntriesAreGone(l, queue, j, i); }
    hide FrontWaits, Gone, Drain, Clear, Contents, PrepareResponse;
    DrainReachesHead(l, queue, j);
    HeadIsSent(l, queue[j..], k);
    if Clear(queue, j) {
      SentBehindPrefix(Contents(queue[..j]), queue[j].messages[..k + 1], Drain(l, queue[j..]).sent,
                       Drain(l, queue).sent, k);
    }
  }

  lemma SentBehindPrefix(before: seq<BackendMessage>, ms: seq<BackendMessage>, tail: seq<BackendMessage>,
                         sent: seq<BackendMessage>, k: nat)
    requires ms <= tail && sent == before + tail && k < |ms| && !IsAsynchronous(ms[k])
    ensures before + ms <= sent && !AllAsynchronous(sent)
  {
    assert sent[|before| + k] == ms[k];
  }

  lemma {:induction false} HeadIsSent(l: Ledger, queue: seq<Pending>, k: nat)
    requires queue != [] && k < |queue[0].messages| && AllAsynchronous(queue[0].messages[..k])
    requires PrepareResponse(l, Some(queue[0].operation), queue[0].messages[k]).Emit?
    ensures queue[0].messages[..k + 1] <= Drain(l, queue).sent && !IsAsynchronous(queue[0].messages[k])
    decreases k
  {
    var ms := queue[0].messages;
    if k == 0 {
      FirstIsSent(l, queue);
    } else {
      assert IsAsynchronous(ms[..k][0]);
      AsynchronousFront(l, queue);
      PoppedParts(queue);
      assert Popped(queue)[0].operation == queue[0].operation;
      hide Drain, Popped, PrepareResponse;
      assert ms[1..][..k - 1] == ms[..k][1..] && ms[1..][k - 1] == ms[k];
      AsynchronousHead(ms[..k]);
      HeadIsSent(l, Popped(queue), k - 1);
      assert [ms[0]] + ms[1..][..k] == ms[..k + 1];
    }
  }

  lemma FirstIsSent(l: Ledger, queue: seq<Pending>)
    requires queue != [] && queue[0].messages != []
    requires PrepareResponse(l, Some(queue[0].operation), queue[0].messages[0]).Emit?
    ensures Drain(l, queue).sent != [] && Drain(l, queue).sent[0] == queue[0].messages[0]
    ensures !IsAsynchronous(queue[0].messages[0])
  {
  }

  /* ---------- blocked for good ---------- */

  /** A local operation is the head while the queue waits for one that is gone. */
  predicate Stuck(d: Driver) {
    Shaped(d.ledger) && d.ledger.operations != [] && d.ledger.operations[0].origin.Local?
      && FrontWaits(d.ledger, d.queue)
  }

  /** What an action lets out to the client. */
  function Lets(d: Driver, a: Action): seq<BackendMessage> {
    match a
    case Hear(m) => if AcceptResponse(d.ledger, None, m).action.Emitted? then [m] else []
    case Try =>
      if d.queue == [] || d.queue[0].messages == [] then []
      else
        var m := d.queue[0].messages[0];
        if AcceptResponse(d.ledger, Some(d.queue[0].operation), m).action.Emitted? then [m] else []
    case _ => []
  }

  function LetsOut(d: Driver, actions: seq<Action>): seq<BackendMessage>
    decreases actions
  {
    if actions == [] then [] else Lets(d, actions[0]) + LetsOut(Act(d, actions[0]), actions[1..])
  }

  lemma HeadStays(l: Ledger, m: FrontendMessage, handling: Handling)
    requires Shaped(l) && l.operations != [] && AcceptFrontend(l, m, handling).Admitted?
    ensures var l' := AcceptFrontend(l, m, handling).ledger;
      && Shaped(l') && |l'.operations| == |l.operations| + 1 && l'.operations[0].origin == l.operations[0].origin
      && (forall i :: 0 <= i < |l.operations| ==> l'.operations[i].id == l.operations[i].id)
      && l'.operations[|l.operations|].id == l.nextId && (l.nextId <= l'.nextId || l'.nextId == U64_MAX)
  {
    FrontendKeepsShape(l, m, handling);
    AdmittedLedger(l, m, handling);
    assert KindOf(m) == Some(ProjectFrontend(l.requestState, m).value.0) by { Classification(l.requestState, m); }
    var (kind, next) := ProjectFrontend(l.requestState, m).value;
    EnqueuedFlags(l, m, handling, kind, next);
    EnqueuedKeepsQueue(l, m, handling, kind, next);
    HeadSurvives(l, m);
    var ops := Enqueued(l, m, handling, kind, next);
    assert !Inert(ops[0]);
    hide Enqueued, Forgiven;
    assert LiveFrom(ops, 0) == 0;
  }

  lemma AskKeepsStuck(d: Driver, m: FrontendMessage, handling: Handling, queue: seq<Pending>)
    requires Stuck(d) && AcceptFrontend(d.ledger, m, handling).Admitted? && d.ledger.nextId < U64_MAX
    requires queue != [] && queue[0] == d.queue[0]
    ensures var l' := AcceptFrontend(d.ledger, m, handling).ledger;
      Stuck(Driver(l', queue)) && l'.operations[0].id == d.ledger.operations[0].id
  {
    hide Shaped, AcceptFrontend;
    HeadStays(d.ledger, m, handling);
  }

  lemma ServerCannotAnswerLocal(l: Ledger, m: BackendMessage)
    requires l.operations != [] && l.operations[0].origin.Local?
    ensures AcceptResponse(l, None, m).ledger == l && (AcceptResponse(l, None, m).action.Emitted? ==> IsAsynchronous(m))
  {
  }

  lemma ActKeepsStuck(d: Driver, a: Action)
    requires Stuck(d) && d.ledger.nextId < U64_MAX
    ensures Stuck(Act(d, a)) && Act(d, a).ledger.operations[0].id == d.ledger.operations[0].id
    ensures AllAsynchronous(Lets(d, a))
  {
    hide Shaped, AcceptFrontend, AcceptResponse;
    match a
    case Ask(m) => if AcceptFrontend(d.ledger, m, Forward).Admitted? { AskKeepsStuck(d, m, Forward, d.queue); }
    case AnswerLocally(request, responses) =>
      if AcceptFrontend(d.ledger, request, Locally).Admitted? {
        AskKeepsStuck(d, request, Locally, d.queue + [Pending(d.ledger.nextId, responses)]);
      }
    case Hear(m) => ServerCannotAnswerLocal(d.ledger, m);
    case Try => AbsentDefers(d.ledger, d.queue[0].operation, d.queue[0].messages[0]);
  }

  /** Once stuck, stuck: whatever the client and the server still send, the head stays and nothing but
      asynchronous messages reaches the client. */
  lemma {:induction false} StuckForever(d: Driver, actions: seq<Action>)
    requires Stuck(d) && Run(d, actions).ledger.nextId < U64_MAX
    ensures Stuck(Run(d, actions)) && Run(d, actions).ledger.operations[0].id == d.ledger.operations[0].id
    ensures AllAsynchronous(LetsOut(d, actions))
    decreases actions
  {
    hide Act, Lets, Stuck;
    if actions != [] {
      RunsKeepSaturation(Act(d, actions[0]), actions[1..]);
      ActSaturates(d, actions[0]);
      ActKeepsStuck(d, actions[0]);
      StuckForever(Act(d, actions[0]), actions[1..]);
    }
  }

  lemma ActSaturates(d: Driver, a: Action)
    ensures d.ledger.nextId >= U64_MAX ==> Act(d, a).ledger.nextId >= U64_MAX
  {
    hide AcceptFrontend, AcceptResponse, Accepted;
    match a
    case Ask(m) => AcceptedIds(d.ledger, m, Forward);
    case AnswerLocally(request, _) => AcceptedIds(d.ledger, request, Locally);
    case Hear(m) => ResponsesKeepIds(d.ledger, None, m);
    case Try =>
      if d.queue != [] && d.queue[0].messages != [] {
        ResponsesKeepIds(d.ledger, Some(d.queue[0].operation), d.queue[0].messages[0]);
      }
  }

  lemma {:induction false} RunsKeepSaturation(d: Driver, actions: seq<Action>)
    ensures d.ledger.nextId >= U64_MAX ==> Run(d, actions).ledger.nextId >= U64_MAX
    decreases actions
  {
    hide Act;
    if actions != [] {
      ActSaturates(d, actions[0]);
      RunsKeepSaturation(Act(d, actions[0]), actions[1..]);
    }
  }

  /** A blocked local head leaves the driver stuck. */
  lemma BlockedHeadIsStuck(l: Ledger, queue: seq<Pending>, j: nat)
    requires Shaped(l) && HeadEntry(l, queue, j) && l.operations[0].origin.Local? && !Clear(queue, j)
    ensures Stuck(Driver(Drain(l, queue).ledger, Drain(l, queue).queue))
  {
    hide Shaped, Window, FrontWaits, Drain;
    DrainReachesHead(l, queue, j);
  }

  /* ---------- how it comes about ---------- */

  function New(id: nat, kind: Kind, origin: Origin): Operation {
    Operation(id, kind, origin, false, InitialResponseState(kind))
  }

  lemma Enters(l: Ledger, m: FrontendMessage, handling: Handling, kind: Kind, next: RequestState)
    requires Quiet(l) && |l.operations| < l.limit && l.nextId < U64_MAX
    requires ProjectFrontend(l.requestState, m) == Some((kind, next)) && !next.ExtendedError? && !InertKind(kind)
    ensures AcceptFrontend(l, m, handling).Admitted?
    ensures var l' := Accepted(l, m, handling);
      && Quiet(l')
      && l' == l.(operations := l.operations + [New(l.nextId, kind, if handling.Forward? then Forwarded else Local)],
                  requestState := next, nextId := l.nextId + 1)
  {
    assert AcceptFrontend(l, m, handling).Admitted?;
    AdmitsAppends(l, m, handling);
    AdmissionKeepsQuiet(l, m, handling);
  }

  lemma OtherTries(d: Driver, m: BackendMessage)
    requires d.queue != [] && d.queue[0].messages != [] && d.queue[0].messages[0] == m && !IsAsynchronous(m)
      && !m.ErrorResponse?
    requires d.ledger.operations != [] && d.ledger.operations[0].id != d.queue[0].operation
    ensures Act(d, Try) == d
  {
  }

  lemma DropsToSync(tail: seq<Operation>, p: Operation, sync: Operation, query: Operation)
    requires tail == [p, sync, query] && p.kind.Parse? && sync.kind.Sync? && !sync.discarded
    ensures HasSync(tail) && RemoveInertHeads(DiscardToSync(tail)) == [sync, query]
  {
    assert SyncFrom(tail, 0) == 1 by { assert SyncFrom(tail, 1) == 1; }
    var ops := DiscardToSync(tail);
    assert ops == [p.(discarded := true), sync, query];
    assert LiveFrom(ops, 0) == 1 by { assert LiveFrom(ops, 1) == 1; }
  }

  lemma HeadTakes(l: Ledger, kind: Kind, id: nat, m: BackendMessage)
    requires l.operations != [] && l.operations[0] == New(id, kind, Forwarded)
    requires (kind.Parse? && m.ErrorResponse?) || (kind.Sync? && m.ReadyForQuery?)
    ensures ResponseFits(l.operations[0], m) && ResponseIsTerminal(kind, m)
    ensures AcceptResponse(l, None, m).ledger == CommitResponse(l, m)
  {
  }

  lemma ErrorDropsTheRest(l: Ledger, n: nat, error: BackendMessage)
    requires l.operations ==
      [New(n, Kind.Parse, Forwarded), New(n + 1, Kind.Parse, Local), New(n + 2, Kind.Sync, Forwarded),
       New(n + 3, Kind.Query, Local)]
    requires Shaped(l) && error.ErrorResponse?
    ensures AcceptResponse(l, None, error).ledger ==
      l.(operations := [New(n + 2, Kind.Sync, Forwarded), New(n + 3, Kind.Query, Local)], responseState := None)
  {
    HeadTakes(l, Kind.Parse, n, error);
    hide Shaped, AcceptResponse, CommitResponse, ResponseFits, ResponseIsTerminal;
    CompletionEnds(l, error);
    DropsToSync(l.operations[1..], New(n + 1, Kind.Parse, Local), New(n + 2, Kind.Sync, Forwarded),
                New(n + 3, Kind.Query, Local));
  }

  lemma ReadyEndsSync(l: Ledger, n: nat, ready: BackendMessage)
    requires l.operations == [New(n + 2, Kind.Sync, Forwarded), New(n + 3, Kind.Query, Local)]
    requires Shaped(l) && ready.ReadyForQuery?
    ensures AcceptResponse(l, None, ready).ledger ==
      l.(operations := [New(n + 3, Kind.Query, Local)], responseState := None)
  {
    HeadTakes(l, Kind.Sync, n + 2, ready);
    hide Shaped, AcceptResponse, CommitResponse, ResponseFits, ResponseIsTerminal;
    CompletionEnds(l, ready);
    assert l.operations[1..] == [New(n + 3, Kind.Query, Local)];
    assert LiveFrom(l.operations[1..], 0) == 0;
  }

  lemma RunStep(d: Driver, actions: seq<Action>, i: nat)
    requires i < |actions|
    ensures Run(d, actions[i..]) == Run(Act(d, actions[i]), actions[i + 1..])
  {
    assert actions[i..][1..] == actions[i + 1..];
  }

  /** A pipelined batch whose second statement is answered locally, followed by a query answered
      locally: when the server rejects the first statement the driver ends up stuck. */
  lemma StuckIsReached(d: Driver, parse: FrontendMessage, local: FrontendMessage, sync: FrontendMessage,
                       query: FrontendMessage, a: BackendMessage, b: BackendMessage, error: BackendMessage,
                       ready: BackendMessage)
    requires Quiet(d.ledger) && d.ledger.operations == [] && d.ledger.requestState == Ready && d.queue == []
    requires d.ledger.nextId + 4 < U64_MAX && d.ledger.limit >= 4
    requires parse.Parse? && local.Parse? && sync.Sync? && query.Query?
    requires a.ParseComplete? && error.ErrorResponse? && ready.ReadyForQuery?
    ensures Stuck(Run(d, [Ask(parse), AnswerLocally(local, [a]), Try, Ask(sync), AnswerLocally(query, [b]), Try]
                         + [Hear(error), Try, Hear(ready), Try]))
  {
    hide Act, Stuck, Quiet, Run;
    var first := [Ask(parse), AnswerLocally(local, [a]), Try, Ask(sync), AnswerLocally(query, [b]), Try];
    var second := [Hear(error), Try, Hear(ready), Try];
    var d4 := BatchIsQueued(d, parse, local, sync, query, a, b);
    var d6 := BatchFails(d4, d.ledger.nextId, a, b, error, ready);
    RunConcat(d, first, second);
    RunSix(d, first);
    RunFour(d4, second);
  }

  lemma RunFour(d: Driver, actions: seq<Action>)
    requires |actions| == 4
    ensures Run(d, actions) == Act(Act(Act(Act(d, actions[0]), actions[1]), actions[2]), actions[3])
  {
    hide Act;
    assert actions[0..] == actions && actions[4..] == [];
    RunStep(d, actions, 0);
    var d1 := Act(d, actions[0]);
    RunStep(d1, actions, 1);
    var d2 := Act(d1, actions[1]);
    RunStep(d2, actions, 2);
    RunStep(Act(d2, actions[2]), actions, 3);
  }

  lemma RunSix(d: Driver, actions: seq<Action>)
    requires |actions| == 6
    ensures Run(d, actions) ==
      Act(Act(Act(Act(Act(Act(d, actions[0]), actions[1]), actions[2]), actions[3]), actions[4]), actions[5])
  {
    hide Act, Run;
    RunConcat(d, actions[..4], actions[4..]);
    assert actions[..4] + actions[4..] == actions;
    RunFour(d, actions[..4]);
    RunTwo(Run(d, actions[..4]), actions[4..]);
  }

  lemma RunTwo(d: Driver, actions: seq<Action>)
    requires |actions| == 2
    ensures Run(d, actions) == Act(Act(d, actions[0]), actions[1])
  {
    hide Act;
    assert actions[0..] == actions && actions[2..] == [];
    RunStep(d, actions, 0);
    RunStep(Act(d, actions[0]), actions, 1);
  }

  lemma BatchIsQueued(d: Driver, parse: FrontendMessage, local: FrontendMessage, sync: FrontendMessage,
                      query: FrontendMessage, a: BackendMessage, b: BackendMessage) returns (d4: Driver)
    requires Quiet(d.ledger) && d.ledger.operations == [] && d.ledger.requestState == Ready && d.queue == []
    requires d.ledger.nextId + 4 < U64_MAX && d.ledger.limit >= 4
    requires parse.Parse? && local.Parse? && sync.Sync? && query.Query? && a.ParseComplete?
    ensures var d1 := Act(d, Ask(parse));
      var d2 := Act(d1, AnswerLocally(local, [a]));
      var d3 := Act(d2, Ask(sync));
      d4 == Act(d3, AnswerLocally(query, [b])) && Act(d2, Try) == d2
    ensures Quiet(d4.ledger) && d4.queue == [Pending(d.ledger.nextId + 1, [a]), Pending(d.ledger.nextId + 3, [b])]
    ensures var n := d.ledger.nextId;
      d4.ledger == d.ledger.(nextId := n + 4, operations :=
        [New(n, Kind.Parse, Forwarded), New(n + 1, Kind.Parse, Local), New(n + 2, Kind.Sync, Forwarded),
         New(n + 3, Kind.Query, Local)])
  {
    hide AcceptFrontend, Quiet, New;
    Enters(d.ledger, parse, Forward, Kind.Parse, Extended(false));
    var d1 := Act(d, Ask(parse));
    Enters(d1.ledger, local, Locally, Kind.Parse, Extended(false));
    var d2 := Act(d1, AnswerLocally(local, [a]));
    NewIds(d.ledger.nextId, Kind.Parse, Forwarded);
    OtherTries(d2, a);
    Enters(d2.ledger, sync, Forward, Kind.Sync, Ready);
    var d3 := Act(d2, Ask(sync));
    Enters(d3.ledger, query, Locally, Kind.Query, Ready);
    d4 := Act(d3, AnswerLocally(query, [b]));
  }

  lemma NewIds(id: nat, kind: Kind, origin: Origin)
    ensures New(id, kind, origin).id == id
  {
  }

  lemma BatchFails(d4: Driver, n: nat, a: BackendMessage, b: BackendMessage, error: BackendMessage,
                   ready: BackendMessage)
    returns (d6: Driver)
    requires Quiet(d4.ledger) && d4.queue == [Pending(n + 1, [a]), Pending(n + 3, [b])] && d4.ledger.nextId == n + 4
    requires d4.ledger.operations ==
      [New(n, Kind.Parse, Forwarded), New(n + 1, Kind.Parse, Local), New(n + 2, Kind.Sync, Forwarded),
       New(n + 3, Kind.Query, Local)]
    requires a.ParseComplete? && error.ErrorResponse? && ready.ReadyForQuery?
    ensures var d5 := Act(d4, Hear(error));
      Act(d4, Try) == d4 && Act(d5, Try) == d5 && d6 == Act(d5, Hear(ready)) && Act(d6, Try) == d6
    ensures Stuck(d6)
  {
    OtherTries(d4, a);
    ErrorDropsTheRest(d4.ledger, n, error);
    ResponseKeepsShape(d4.ledger, None, error);
    var d5 := Act(d4, Hear(error));
    OtherTries(d5, a);
    ReadyEndsSync(d5.ledger, n, ready);
    ResponseKeepsShape(d5.ledger, None, ready);
    d6 := Act(d5, Hear(ready));
    OtherTries(d6, a);
  }
}
