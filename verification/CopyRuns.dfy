/** COPY through the ledger: extended COPY IN drains for every number of data messages, simple
    COPY IN and COPY BOTH leave their projection behind, and only the latter can abort. */
module CopyRuns {
  import opened Messages
  import opened Ledgers
  import opened Shape
  import opened Histories
  import opened CalmLedgers
  import opened Confluence
  import G = ServerGrammar

  /** The ledger after a run in which every client message is admitted and every response emitted. */
  function Takes(l: Ledger, steps: seq<Step>): Option<Ledger>
    decreases steps
  {
    if steps == [] then Some(l)
    else match Take(l, steps[0])
      case None => None
      case Some(l') => Takes(l', steps[1..])
  }

  function Take(l: Ledger, step: Step): Option<Ledger> {
    match step
    case Client(m, handling) => (
      match AcceptFrontend(l, m, handling)
      case Admitted(_, l') => Some(l')
      case _ => None)
    case Reply(localId, m) =>
      if PrepareResponse(l, localId, m).Emit? then Some(CommitResponse(l, m)) else None
  }

  lemma {:induction false} TakesConcat(l: Ledger, a: seq<Step>, b: seq<Step>)
    ensures Takes(l, a + b) == match Takes(l, a) case None => None case Some(l') => Takes(l', b)
    decreases a
  {
    if a == [] {
      assert a + b == b;
    } else {
      assert (a + b)[1..] == a[1..] + b;
      match Take(l, a[0])
      case None =>
      case Some(l') => TakesConcat(l', a[1..], b);
    }
  }

  lemma TakesTwo(l: Ledger, a: Step, b: Step, l': Ledger)
    requires Take(l, a) == Some(l')
    ensures Takes(l, [a, b]) == Take(l', b)
  {
    assert [a, b][1..] == [b] && [b][1..] == [];
    match Take(l', b)
    case None =>
    case Some(l'') => assert Takes(l'', [b][1..]) == Some(l'');
  }

  lemma TakesNone(l: Ledger, a: Step, b: Step)
    requires Take(l, a) == None
    ensures Takes(l, [a, b]) == None
  {
  }

  lemma TakesOne(l: Ledger, a: Step)
    ensures Takes(l, [a]) == Take(l, a)
  {
    assert [a][1..] == [];
    match Take(l, a)
    case None =>
    case Some(l') => assert Takes(l', [a][1..]) == Some(l');
  }

  function Sends(m: FrontendMessage): Step { Client(m, Forward) }

  function Says(m: BackendMessage): Step { Reply(None, m) }

  /** An idle ledger, whatever was accepted before. */
  predicate AtRest(l: Ledger) {
    l.operations == [] && l.requestState == Ready && l.responseState == None
  }

  /** How many operations COPY IN starts with: a Query, or an Execute and its Sync. */
  function Opening(simple: bool): nat {
    if simple then 1 else 2
  }

  /** A queue that copies in: the head in phase `s`, behind an Execute its Sync, then records that
      get no response. */
  predicate CopyQueue(ops: seq<Operation>, simple: bool, s: G.State, forgiven: bool) {
    && |ops| >= Opening(simple)
    && ops[0].kind == (if simple then Kind.Query else Kind.Execute)
    && ops[0].origin.Forwarded? && !ops[0].discarded && ops[0].responseState == s
    && (!simple ==> ops[1].kind.Sync? && ops[1].discarded == forgiven)
    && forall i :: Opening(simple) <= i < |ops| ==> InertKind(ops[i].kind)
  }

  function CopyInState(simple: bool): G.State {
    if simple then G.SimpleCopyIn else G.ExtendedCopyIn
  }

  /** `c` was idle as `l` and has taken `n` COPY IN data messages. */
  predicate Copying(c: Ledger, l: Ledger, simple: bool, n: nat) {
    && c == l.(operations := c.operations, requestState := RequestState.CopyIn, responseState := Some(PublicCopyIn),
               nextId := l.nextId + Opening(simple) + n)
    && |c.operations| == Opening(simple) + n
    && CopyQueue(c.operations, simple, CopyInState(simple), false)
  }

  /** During COPY IN a message of kind `kind` leaves the queue `ops`, whatever the capacity. */
  lemma TakesInCopyIn(c: Ledger, m: FrontendMessage, kind: Kind, next: RequestState, ops: seq<Operation>)
    requires c.requestState.CopyIn? && (HeadKind(c) == Some(Kind.Query) || HeadKind(c) == Some(Kind.Execute))
    requires ProjectFrontend(RequestState.CopyIn, m) == Some((kind, next))
    requires ops == Enqueued(c, m, Forward, kind, next) && LiveFrom(ops, 0) == 0 && c.nextId < U64_MAX
    ensures Take(c, Sends(m)) == Some(c.(operations := ops, requestState := next, nextId := c.nextId + 1))
    ensures AcceptFrontend(c, m, Forward).admission.action.DiscardIt? <==> next.ExtendedError? && !kind.Sync?
  {
  }

  lemma TakesData(c: Ledger, l: Ledger, simple: bool, n: nat, m: FrontendMessage)
    requires Copying(c, l, simple, n) && m.CopyData? && c.nextId < U64_MAX
    ensures Take(c, Sends(m)).Some? && Copying(Take(c, Sends(m)).value, l, simple, n + 1)
  {
    CopyDataKeepsCopyIn(c, m, Forward);
    var ops := Enqueued(c, m, Forward, Kind.CopyData, RequestState.CopyIn);
    TakesInCopyIn(c, m, Kind.CopyData, RequestState.CopyIn, ops);
  }

  predicate AllData(ms: seq<FrontendMessage>) {
    forall i :: 0 <= i < |ms| ==> ms[i].CopyData?
  }

  function SendAll(ms: seq<FrontendMessage>): seq<Step> {
    if ms == [] then [] else [Sends(ms[0])] + SendAll(ms[1..])
  }

  lemma {:induction false} TakesAllData(c: Ledger, l: Ledger, simple: bool, n: nat, data: seq<FrontendMessage>)
    requires Copying(c, l, simple, n) && AllData(data) && c.nextId + |data| < U64_MAX
    ensures Takes(c, SendAll(data)).Some? && Copying(Takes(c, SendAll(data)).value, l, simple, n + |data|)
    decreases data
  {
    if data != [] {
      TakesData(c, l, simple, n, data[0]);
      var c' := Take(c, Sends(data[0])).value;
      TakesAllData(c', l, simple, n + 1, data[1..]);
      assert SendAll(data)[1..] == SendAll(data[1..]);
    }
  }

  /* ---------- the end of the data ---------- */

  /** How the client ends COPY IN. */
  predicate IsEnd(m: FrontendMessage) {
    m.CopyDone? || m.CopyFail?
  }

  function EndedState(simple: bool, end: FrontendMessage): G.State {
    if simple then (if end.CopyFail? then G.SimpleCopyInFailed else G.SimpleCopyInDone)
    else (if end.CopyFail? then G.ExtendedCopyInFailed else G.ExtendedCopyInDone)
  }

  function EndKind(end: FrontendMessage): Kind {
    if end.CopyFail? then Kind.CopyFail else Kind.CopyDone
  }

  function EndedRequest(end: FrontendMessage): RequestState {
    if end.CopyFail? then ExtendedError else Extended(true)
  }

  /** `c` has also taken the end of the data. */
  predicate Ended(c: Ledger, l: Ledger, simple: bool, n: nat, end: FrontendMessage) {
    && c == l.(operations := c.operations, requestState := EndedRequest(end), responseState := Some(PublicCopyIn),
               nextId := l.nextId + Opening(simple) + n + 1)
    && |c.operations| == Opening(simple) + n + 1
    && CopyQueue(c.operations, simple, EndedState(simple, end), true)
  }

  lemma {:induction false} LastSyncInFront(ops: seq<Operation>, simple: bool, s: G.State, n: nat)
    requires CopyQueue(ops, simple, s, false) && Opening(simple) <= n <= |ops|
    ensures LastLiveSync(ops, n) == if simple then None else Some(1)
    decreases n
  {
    if n > Opening(simple) { LastSyncInFront(ops, simple, s, n - 1); }
  }

  /** The end of the data forgives the Sync that was pipelined behind the Execute. */
  lemma EndForgivesSync(ops: seq<Operation>, simple: bool)
    requires CopyQueue(ops, simple, CopyInState(simple), false)
    ensures CopyQueue(IgnoreLastSync(ops), simple, CopyInState(simple), true)
    ensures |IgnoreLastSync(ops)| == |ops|
  {
    LastSyncInFront(ops, simple, CopyInState(simple), |ops|);
  }

  lemma EndTouchesHead(ops: seq<Operation>, simple: bool, end: FrontendMessage)
    requires CopyQueue(ops, simple, CopyInState(simple), true) && IsEnd(end)
    ensures CopyQueue(TouchHead(ops, end), simple, EndedState(simple, end), true)
  {
  }

  lemma EndProjects(end: FrontendMessage)
    requires IsEnd(end)
    ensures ProjectFrontend(RequestState.CopyIn, end) == Some((EndKind(end), EndedRequest(end)))
  {
  }

  lemma CopyHead(c: Ledger, simple: bool)
    requires CopyQueue(c.operations, simple, CopyInState(simple), false)
    ensures HeadKind(c) == Some(Kind.Query) || HeadKind(c) == Some(Kind.Execute)
  {
  }

  lemma EndIsQueued(c: Ledger, simple: bool, end: FrontendMessage)
    requires CopyQueue(c.operations, simple, CopyInState(simple), false) && c.requestState.CopyIn? && IsEnd(end)
    ensures var ops := Enqueued(c, end, Forward, EndKind(end), EndedRequest(end));
      |ops| == |c.operations| + 1 && CopyQueue(ops, simple, EndedState(simple, end), true) && LiveFrom(ops, 0) == 0
  {
    EndForgivesSync(c.operations, simple);
    EndTouchesHead(IgnoreLastSync(c.operations), simple, end);
  }

  /** The end of the data is always taken; a CopyFail is recorded but not forwarded. */
  lemma TakesEnd(c: Ledger, l: Ledger, simple: bool, n: nat, end: FrontendMessage)
    requires Copying(c, l, simple, n) && IsEnd(end) && c.nextId < U64_MAX
    ensures Take(c, Sends(end)).Some? && Ended(Take(c, Sends(end)).value, l, simple, n, end)
    ensures AcceptFrontend(c, end, Forward).admission.action.DiscardIt? <==> end.CopyFail?
  {
    hide CopyQueue, AcceptFrontend, Take;
    var ops := Enqueued(c, end, Forward, EndKind(end), EndedRequest(end));
    EndIsQueued(c, simple, end);
    EndProjects(end);
    CopyHead(c, simple);
    TakesInCopyIn(c, end, EndKind(end), EndedRequest(end), ops);
  }

  /* ---------- extended COPY IN ---------- */

  function SyncAt(id: nat): Operation {
    Operation(id, Kind.Sync, Forwarded, false, G.SyncResponse)
  }

  const SYNC := Sends(FrontendMessage.Sync)

  /** A ledger at rest, or in a batch with nothing outstanding, takes Sync. */
  lemma TakesFirst(l: Ledger, m: FrontendMessage, kind: Kind, next: RequestState)
    requires l.operations == [] && ProjectFrontend(l.requestState, m) == Some((kind, next)) && l.nextId < U64_MAX
    requires !l.requestState.CopyIn? && !l.requestState.CopyBoth? && !InertKind(kind) && !next.ExtendedError?
    ensures Take(l, Sends(m)) ==
      Some(l.(operations := [Operation(l.nextId, kind, Forwarded, false, InitialResponseState(kind))],
              requestState := next, nextId := l.nextId + 1))
  {
    var op := Operation(l.nextId, kind, Forwarded, false, InitialResponseState(kind));
    assert Enqueued(l, m, Forward, kind, next) == [op];
    assert LiveFrom([op], 0) == 0;
    Classification(l.requestState, m);
  }

  /** Execute and Sync on a ledger at rest. */
  lemma ExecuteHead(id: nat)
    ensures var op := Operation(id, Kind.Execute, Forwarded, false, InitialResponseState(Kind.Execute));
      !Inert(op) && op.responseState.ExecuteResponse? && G.Receive(op.responseState, FrontendMessage.Sync).None?
  {
  }

  lemma TakesExecuteSync(l: Ledger, execute: FrontendMessage)
    requires AtRest(l) && execute.Execute? && l.limit >= 2 && l.nextId + 2 < U64_MAX
    ensures Takes(l, [Sends(execute), SYNC]) ==
      Some(l.(operations :=
        [Operation(l.nextId, Kind.Execute, Forwarded, false, G.ExecuteResponse), SyncAt(l.nextId + 1)],
              nextId := l.nextId + 2))
  {
    TakesFirst(l, execute, Kind.Execute, Extended(true));
    ExecuteHead(l.nextId);
    hide Take, Takes, Inert;
    var l1 := Take(l, Sends(execute)).value;
    TakesTwo(l, Sends(execute), SYNC, l1);
    TakesSyncBehind(l1);
    assert l1.operations + [SyncAt(l1.nextId)] == [l1.operations[0], SyncAt(l.nextId + 1)];
  }

  /** With a limit of one the Sync behind the Execute is refused. */
  lemma LimitOneRefusesSync(l: Ledger, execute: FrontendMessage)
    requires AtRest(l) && execute.Execute? && l.limit == 1 && l.nextId + 2 < U64_MAX
    ensures Takes(l, [Sends(execute), SYNC]) == None
  {
    hide Take, Takes;
    TakesFirst(l, execute, Kind.Execute, Extended(true));
    var l1 := Take(l, Sends(execute)).value;
    TakesTwo(l, Sends(execute), SYNC, l1);
    TakesSyncBehind(l1);
  }

  /** Sync behind a head that does not look at it. */
  lemma TakesSyncBehind(c: Ledger)
    requires c.operations != [] && !Inert(c.operations[0])
      && G.Receive(c.operations[0].responseState, FrontendMessage.Sync).None?
    requires c.requestState.Extended? || c.requestState.ExtendedError?
    requires c.nextId < U64_MAX
    ensures Take(c, SYNC) ==
      if |c.operations| == c.limit then None
      else Some(c.(operations := c.operations + [SyncAt(c.nextId)], requestState := Ready, nextId := c.nextId + 1))
  {
    var ops := Enqueued(c, FrontendMessage.Sync, Forward, Kind.Sync, Ready);
    assert ops == c.operations + [SyncAt(c.nextId)];
    assert LiveFrom(ops, 0) == 0;
  }

  /** The head announces COPY IN. */
  lemma TakesCopyIn(c: Ledger, simple: bool, response: BackendMessage)
    requires CopyQueue(c.operations, simple, if simple then G.Simple else G.ExecuteResponse, false)
      && response.CopyInResponse?
    requires |c.operations| == Opening(simple)
    ensures Take(c, Says(response)).Some?
    ensures var c' := Take(c, Says(response)).value;
      && c' == c.(operations := c'.operations, requestState := RequestState.CopyIn, responseState := Some(PublicCopyIn))
      && |c'.operations| == Opening(simple) && CopyQueue(c'.operations, simple, CopyInState(simple), false)
  {
    assert LiveFrom(Settled(c, response).operations, 0) == 0;
  }

  /** Behind the copying head everything goes, error or not: the forgiven Sync still stops the
      discarding, and is dropped itself. */
  lemma QueueDrops(queue: seq<Operation>, s: G.State, tail: seq<Operation>)
    requires CopyQueue(queue, false, s, true) && tail == queue[1..]
    ensures HasSync(tail) && DiscardToSync(tail) == tail && RemoveInertHeads(tail) == []
  {
    assert tail[0] == queue[1] && SyncFrom(tail, 0) == 0;
    LiveIs(tail, |tail|);
  }

  /** Up to one live operation, when there is one. */
  lemma QueueDropsTo(queue: seq<Operation>, s: G.State, op: Operation, tail: seq<Operation>)
    requires CopyQueue(queue, false, s, true) && tail == queue[1..] + [op] && !Inert(op)
    ensures HasSync(tail) && DiscardToSync(tail) == tail && RemoveInertHeads(tail) == [op]
  {
    assert tail[0] == queue[1] && SyncFrom(tail, 0) == 0;
    LiveIs(tail, |tail| - 1);
  }

  /** What the server may say to the end of the data. */
  predicate IsVerdict(end: FrontendMessage, m: BackendMessage) {
    m.ErrorResponse? || (m.CommandComplete? && end.CopyDone?)
  }

  lemma VerdictCompletes(c: Ledger, end: FrontendMessage, verdict: BackendMessage)
    requires c.operations != [] && c.operations[0].kind.Execute? && c.operations[0].origin.Forwarded?
    requires !c.operations[0].discarded && c.operations[0].responseState == EndedState(false, end)
    requires IsEnd(end) && IsVerdict(end, verdict)
    ensures PrepareResponse(c, None, verdict).Emit? && HeadLive(c) && ResponseIsTerminal(c.operations[0].kind, verdict)
  {
  }

  lemma VerdictDrops(c: Ledger, end: FrontendMessage, verdict: BackendMessage)
    requires CopyQueue(c.operations, false, EndedState(false, end), true)
    requires IsEnd(end) && IsVerdict(end, verdict)
    ensures Take(c, Says(verdict)) == Some(c.(operations := [], responseState := None))
  {
    VerdictCompletes(c, end, verdict);
    CompletingTheHead(c, verdict);
    QueueDrops(c.operations, EndedState(false, end), c.operations[1..]);
  }

  lemma VerdictDropsTo(c: Ledger, queue: seq<Operation>, end: FrontendMessage, op: Operation, verdict: BackendMessage)
    requires CopyQueue(queue, false, EndedState(false, end), true) && c.operations == queue + [op] && !Inert(op)
    requires IsEnd(end) && IsVerdict(end, verdict)
    ensures Take(c, Says(verdict)) == Some(c.(operations := [op], responseState := None))
  {
    assert c.operations[0] == queue[0] && c.operations[1..] == queue[1..] + [op];
    VerdictCompletes(c, end, verdict);
    CompletingTheHead(c, verdict);
    QueueDropsTo(queue, EndedState(false, end), op, c.operations[1..]);
  }

  /** An outstanding Sync is answered. */
  lemma TakesReady(c: Ledger, ready: BackendMessage)
    requires |c.operations| == 1 && c.operations[0] == SyncAt(c.operations[0].id) && ready.ReadyForQuery?
    ensures Take(c, Says(ready)) == Some(c.(operations := [], responseState := None))
  {
    CompletingTheHead(c, ready);
    assert c.operations[1..] == [];
  }

  lemma SyncAlone(l: Ledger)
    requires l.operations == [] && (l.requestState.Extended? || l.requestState.ExtendedError?) && l.nextId < U64_MAX
    ensures Take(l, SYNC) == Some(l.(operations := [SyncAt(l.nextId)], requestState := Ready, nextId := l.nextId + 1))
  {
    TakesFirst(l, FrontendMessage.Sync, Kind.Sync, Ready);
  }

  lemma ReadyIdles(l: Ledger, id: nat, ready: BackendMessage)
    requires AtRest(l) && ready.ReadyForQuery?
    ensures Takes(l.(operations := [SyncAt(id)], nextId := id + 1), [Says(ready)]) == Some(l.(nextId := id + 1))
  {
    hide Take;
    var drained := l.(operations := [SyncAt(id)], nextId := id + 1);
    TakesReady(drained, ready);
    TakesOne(drained, Says(ready));
  }

  /** Once all the data is taken the verdict may come before the final Sync. */
  lemma VerdictFirst(c: Ledger, l: Ledger, n: nat, end: FrontendMessage, verdict: BackendMessage)
    requires AtRest(l) && Ended(c, l, false, n, end) && c.nextId < U64_MAX && IsEnd(end) && IsVerdict(end, verdict)
    ensures Takes(c, [Says(verdict), SYNC]) == Some(l.(operations := [SyncAt(c.nextId)], nextId := c.nextId + 1))
  {
    hide Take;
    VerdictDrops(c, end, verdict);
    SyncAlone(c.(operations := [], responseState := None));
    TakesTwo(c, Says(verdict), SYNC, c.(operations := [], responseState := None));
  }

  lemma SyncBehindEnded(c: Ledger, l: Ledger, n: nat, end: FrontendMessage)
    requires Ended(c, l, false, n, end) && c.nextId < U64_MAX && IsEnd(end)
    ensures Take(c, SYNC) ==
      if n + 3 == l.limit then None
      else Some(c.(operations := c.operations + [SyncAt(c.nextId)], requestState := Ready, nextId := c.nextId + 1))
  {
    hide Take;
    TakesSyncBehind(c);
  }

  /** Or after it, when the Sync is admitted. */
  lemma SyncFirst(c: Ledger, l: Ledger, n: nat, end: FrontendMessage, verdict: BackendMessage)
    requires AtRest(l) && Ended(c, l, false, n, end) && c.nextId < U64_MAX && IsEnd(end) && IsVerdict(end, verdict)
    ensures Takes(c, [SYNC, Says(verdict)]) ==
      if n + 3 == l.limit then None else Some(l.(operations := [SyncAt(c.nextId)], nextId := c.nextId + 1))
  {
    hide Take, Takes, CopyQueue, SYNC;
    SyncBehindEnded(c, l, n, end);
    if n + 3 == l.limit {
      TakesNone(c, SYNC, Says(verdict));
    } else {
      var synced := c.(operations := c.operations + [SyncAt(c.nextId)], requestState := Ready, nextId := c.nextId + 1);
      TakesTwo(c, SYNC, Says(verdict), synced);
      VerdictDropsTo(synced, c.operations, end, SyncAt(c.nextId), verdict);
    }
  }

  /** The client's whole COPY IN, up to and including the end of the data. */
  function CopyInRun(open: seq<Step>, response: BackendMessage, data: seq<FrontendMessage>,
                     end: FrontendMessage): seq<Step> {
    open + [Says(response)] + SendAll(data) + [Sends(end)]
  }

  lemma CopyInEnds(l: Ledger, open: seq<Step>, simple: bool, response: BackendMessage, data: seq<FrontendMessage>,
                   end: FrontendMessage)
    requires AtRest(l) && Opens(l, open, simple) && l.nextId + |data| + 3 < U64_MAX
    requires response.CopyInResponse? && AllData(data) && IsEnd(end)
    ensures var steps := CopyInRun(open, response, data, end);
      Takes(l, steps).Some? && Ended(Takes(l, steps).value, l, simple, |data|, end)
  {
    var c := Takes(l, open).value;
    TakesCopyIn(c, simple, response);
    var c0 := Take(c, Says(response)).value;
    TakesAllData(c0, l, simple, 0, data);
    var c1 := Takes(c0, SendAll(data)).value;
    TakesEnd(c1, l, simple, |data|, end);
    TakesOne(c, Says(response));
    TakesOne(c1, Sends(end));
    TakesConcat(l, open, [Says(response)]);
    TakesConcat(l, open + [Says(response)], SendAll(data));
    TakesConcat(l, open + [Says(response)] + SendAll(data), [Sends(end)]);
  }

  /** What opens a COPY IN: the operations it starts with, taken from an idle ledger. */
  predicate Opens(l: Ledger, open: seq<Step>, simple: bool) {
    && Takes(l, open).Some?
    && var c := Takes(l, open).value;
      && c == l.(operations := c.operations, requestState := c.requestState, nextId := l.nextId + Opening(simple))
      && |c.operations| == Opening(simple)
      && CopyQueue(c.operations, simple, if simple then G.Simple else G.ExecuteResponse, false)
  }

  lemma ExtendedOpens(l: Ledger, execute: FrontendMessage)
    requires AtRest(l) && execute.Execute? && l.limit >= 2 && l.nextId + 2 < U64_MAX
    ensures Opens(l, [Sends(execute), SYNC], false)
  {
    hide Take, Takes;
    TakesExecuteSync(l, execute);
  }

  /** Extended COPY IN drains for every number of data messages: after Execute, Sync, the server's
      invitation, the data and its end, the final Sync and the server's verdict leave exactly one
      outstanding ReadyForQuery, and that message leaves the ledger idle.  The verdict may always
      come first; the Sync may come first exactly when capacity admits it. */
  lemma ExtendedCopyInDrains(l: Ledger, execute: FrontendMessage, response: BackendMessage, data: seq<FrontendMessage>,
                             end: FrontendMessage, verdict: BackendMessage, ready: BackendMessage)
    requires AtRest(l) && l.limit >= 2 && l.nextId + |data| + 3 < U64_MAX
    requires execute.Execute? && response.CopyInResponse? && AllData(data) && IsEnd(end) && ready.ReadyForQuery?
    requires IsVerdict(end, verdict)
    ensures var steps := CopyInRun([Sends(execute), SYNC], response, data, end);
      var id := l.nextId + |data| + 3;
      var drained := l.(operations := [SyncAt(id)], nextId := id + 1);
      && Takes(l, steps + [Says(verdict), SYNC]) == Some(drained)
      && Takes(l, steps + [SYNC, Says(verdict)]) == (if |data| + 3 == l.limit then None else Some(drained))
      && Takes(drained, [Says(ready)]) == Some(l.(nextId := id + 1))
  {
    hide *;
    var open := [Sends(execute), SYNC];
    ExtendedOpens(l, execute);
    CopyInEnds(l, open, false, response, data, end);
    DrainsAfter(l, CopyInRun(open, response, data, end), |data|, end, verdict);
    ReadyIdles(l, l.nextId + |data| + 3, ready);
  }

  lemma DrainsAfter(l: Ledger, steps: seq<Step>, n: nat, end: FrontendMessage, verdict: BackendMessage)
    requires AtRest(l) && l.nextId + n + 3 < U64_MAX && IsEnd(end) && IsVerdict(end, verdict)
    requires Takes(l, steps).Some? && Ended(Takes(l, steps).value, l, false, n, end)
    ensures var id := l.nextId + n + 3;
      var drained := l.(operations := [SyncAt(id)], nextId := id + 1);
      && Takes(l, steps + [Says(verdict), SYNC]) == Some(drained)
      && Takes(l, steps + [SYNC, Says(verdict)]) == (if n + 3 == l.limit then None else Some(drained))
  {
    hide Take;
    var c := Takes(l, steps).value;
    VerdictFirst(c, l, n, end, verdict);
    SyncFirst(c, l, n, end, verdict);
    TakesConcat(l, steps, [Says(verdict), SYNC]);
    TakesConcat(l, steps, [SYNC, Says(verdict)]);
  }

  /* ---------- simple COPY IN ---------- */

  lemma SimpleOpens(l: Ledger, query: FrontendMessage)
    requires AtRest(l) && query.Query? && l.nextId < U64_MAX
    ensures Opens(l, [Sends(query)], true)
  {
    hide Take, Takes;
    TakesFirst(l, query, Kind.Query, Ready);
    TakesOne(l, Sends(query));
  }

  /** The verdict of a simple COPY IN is not the end of its query. */
  lemma SimpleVerdict(c: Ledger, end: FrontendMessage, verdict: BackendMessage)
    requires CopyQueue(c.operations, true, EndedState(true, end), true) && IsEnd(end) && IsVerdict(end, verdict)
    ensures Take(c, Says(verdict)).Some?
    ensures var c' := Take(c, Says(verdict)).value;
      && c' == c.(operations := c'.operations, responseState := None)
      && |c'.operations| == |c.operations| && CopyQueue(c'.operations, true, G.SimpleCopyReady, true)
  {
    assert LiveFrom(Settled(c, verdict).operations, 0) == 0;
  }

  lemma SimpleReady(c: Ledger, ready: BackendMessage)
    requires CopyQueue(c.operations, true, G.SimpleCopyReady, true) && ready.ReadyForQuery?
    ensures Take(c, Says(ready)) == Some(c.(operations := [], responseState := None))
  {
    CompletingTheHead(c, ready);
    var tail := c.operations[1..];
    LiveIs(tail, |tail|);
    assert RemoveInertHeads(tail) == [];
  }

  lemma SimpleEnds(c: Ledger, l: Ledger, n: nat, end: FrontendMessage, verdict: BackendMessage, ready: BackendMessage)
    requires AtRest(l) && Ended(c, l, true, n, end) && IsEnd(end) && IsVerdict(end, verdict) && ready.ReadyForQuery?
    ensures Takes(c, [Says(verdict), Says(ready)]) == Some(l.(requestState := EndedRequest(end), nextId := c.nextId))
  {
    hide Take, CopyQueue;
    SimpleVerdict(c, end, verdict);
    var c' := Take(c, Says(verdict)).value;
    TakesTwo(c, Says(verdict), Says(ready), c');
    SimpleReady(c', ready);
  }

  /** Simple COPY IN does not return the request state to Ready: for every number of data messages
      the ledger ends empty, but inside a batch after CopyDone and in the error state after
      CopyFail, although the server is Ready. */
  lemma SimpleCopyInStrands(l: Ledger, query: FrontendMessage, response: BackendMessage, data: seq<FrontendMessage>,
                            end: FrontendMessage, verdict: BackendMessage, ready: BackendMessage)
    requires AtRest(l) && l.nextId + |data| + 3 < U64_MAX
    requires query.Query? && response.CopyInResponse? && AllData(data) && IsEnd(end) && ready.ReadyForQuery?
    requires IsVerdict(end, verdict)
    ensures var steps := CopyInRun([Sends(query)], response, data, end);
      Takes(l, steps + [Says(verdict), Says(ready)]) ==
        Some(l.(requestState := EndedRequest(end), nextId := l.nextId + |data| + 2))
  {
    hide Take, Takes, CopyInRun, CopyQueue;
    SimpleOpens(l, query);
    CopyInEnds(l, [Sends(query)], true, response, data, end);
    var steps := CopyInRun([Sends(query)], response, data, end);
    SimpleEnds(Takes(l, steps).value, l, |data|, end, verdict, ready);
    TakesConcat(l, steps, [Says(verdict), Says(ready)]);
  }

  /** So the next query, which the server would take, is refused after CopyDone and silently
      dropped after CopyFail; what is forwarded is exactly what may continue a batch. */
  lemma StrandedQueries(l: Ledger, end: FrontendMessage, m: FrontendMessage)
    requires AtRest(l) && IsEnd(end)
    ensures var stranded := AcceptFrontend(l.(requestState := EndedRequest(end)), m, Forward);
      && (stranded.Admitted? && stranded.admission.action.ForwardIt? <==>
            if end.CopyFail? then m.Sync? else G.Receive(G.Building, m).Some?)
      && (m.Query? && end.CopyDone? ==> stranded.Illegal?)
      && (m.Query? && end.CopyFail? ==> stranded.Admitted? && stranded.admission.action.DiscardIt?)
      && (m.Query? ==> G.Receive(G.Ready, m).Some?)
  {
  }

  /* ---------- COPY BOTH ---------- */

  /** `s` belongs to COPY BOTH. */
  predicate BothPhase(s: G.State) {
    || s.SimpleCopyBoth? || s.SimpleCopyBothClientDone? || s.SimpleCopyBothServerDone?
    || s.SimpleCopyBothDone? || s.SimpleCopyBothFailed?
    || s.ExtendedCopyBoth? || s.ExtendedCopyBothClientDone? || s.ExtendedCopyBothServerDone?
    || s.ExtendedCopyBothDone? || s.ExtendedCopyBothFailed?
  }

  /** A lone query in phase `s`. */
  function Lone(l: Ledger, s: G.State): Ledger {
    l.(operations := [Operation(l.nextId, Kind.Query, Forwarded, false, s)], nextId := l.nextId + 1)
  }

  lemma LoneAdvances(c: Ledger, m: BackendMessage, t: G.State)
    requires |c.operations| == 1 && c.operations[0].kind.Query? && c.operations[0].origin.Forwarded?
      && !c.operations[0].discarded
    requires G.Send(c.operations[0].responseState, m) == Some(t) && !m.ReadyForQuery? && !IsAsynchronous(m)
    ensures Take(c, Says(m)).Some?
    ensures var c' := Take(c, Says(m)).value;
      && c'.operations == [c.operations[0].(responseState := t)] && c'.nextId == c.nextId && c'.limit == c.limit
      && c'.requestState ==
        (if t.SimpleCopyBoth? then RequestState.CopyBoth
         else if t.SimpleCopyReady? then c.requestState else c'.requestState)
  {
    assert LiveFrom(Settled(c, m).operations, 0) == 0;
  }

  lemma LoneReady(c: Ledger, ready: BackendMessage)
    requires |c.operations| == 1 && c.operations[0].kind.Query? && c.operations[0].origin.Forwarded?
      && !c.operations[0].discarded
    requires c.operations[0].responseState == G.SimpleCopyReady && ready.ReadyForQuery?
    ensures Take(c, Says(ready)) == Some(c.(operations := [], responseState := None))
  {
    CompletingTheHead(c, ready);
    assert c.operations[1..] == [];
  }

  /** Operation `id` is local and extended, and no `Sync` was accepted behind it. */
  predicate ParksOpen(l: Ledger, id: nat) {
    var at := PositionOf(l.operations, 0, id);
    && at < |l.operations| && l.operations[at].origin.Local? && IsExtendedKind(l.operations[at].kind)
    && SyncFrom(l.operations, at + 1) == |l.operations|
  }

  /** The response starts a COPY IN or makes the client be skipped up to its next `Sync`. */
  predicate LeavesCopyBoth(l: Ledger, step: Step) {
    && step.Reply?
    && match PrepareResponse(l, step.localId, step.response)
       case Emit => step.response.CopyInResponse? || DoomsBatch(l, step.response)
       case Deferred => step.response.ErrorResponse? && step.localId.Some? && ParksOpen(l, step.localId.value)
       case _ => false
  }

  lemma CopyInTarget(s: G.State, m: BackendMessage)
    requires G.Send(s, m).Some?
    ensures ResponseCopyState(G.Send(s, m).value) == Some(RequestState.CopyIn) <==> m.CopyInResponse?
  {
  }

  lemma EmissionFromCopyBoth(l: Ledger, m: BackendMessage)
    requires Shaped(l) && l.requestState.CopyBoth? && l.operations != [] && ResponseFits(l.operations[0], m)
    ensures CommitResponse(l, m).requestState ==
      if m.CopyInResponse? then RequestState.CopyIn
      else if DoomsBatch(l, m) then ExtendedError else RequestState.CopyBoth
  {
    var head := l.operations[0];
    CopyInTarget(head.responseState, m);
    CompletionAgreesWithGrammar(head.kind, head.responseState, m);
    if ResponseIsTerminal(head.kind, m) {
      CompletionEnds(l, m);
    } else {
      AdvanceProjectsCopy(l, m);
    }
  }

  /** When the request state leaves CopyBoth, exactly: COPY BOTH has no other end, whoever opened it
      and however it was answered. */
  lemma CopyBothExits(h: History, step: Step)
    requires Shaped(h.ledger) && h.ledger.requestState.CopyBoth?
    ensures Apply(h, step).ledger.requestState ==
      if !LeavesCopyBoth(h.ledger, step) then RequestState.CopyBoth
      else if step.response.CopyInResponse? then RequestState.CopyIn
      else ExtendedError
  {
    match step
    case Client(m, handling) =>
      if AcceptFrontend(h.ledger, m, handling).Admitted? {
        AdmittedLedger(h.ledger, m, handling);
        Classification(h.ledger.requestState, m);
      }
    case Reply(localId, m) =>
      if PrepareResponse(h.ledger, localId, m).Emit? { EmissionFromCopyBoth(h.ledger, m); }
  }

  predicate NeverLeaves(h: History, steps: seq<Step>)
    decreases steps
  {
    steps != [] ==> !LeavesCopyBoth(h.ledger, steps[0]) && NeverLeaves(Apply(h, steps[0]), steps[1..])
  }

  /** Over whole runs: without such a response the request state stays behind, whatever completes. */
  lemma {:induction false} CopyBothStays(h: History, steps: seq<Step>)
    requires Inv(h) && h.ledger.requestState.CopyBoth? && Unsaturated(Replay(h, steps)) && NeverLeaves(h, steps)
    ensures Replay(h, steps).ledger.requestState.CopyBoth?
    decreases steps
  {
    if steps != [] {
      CopyBothExits(h, steps[0]);
      RequestsOnlyGrow(Apply(h, steps[0]), steps[1..]);
      StepKeepsInv(h, steps[0]);
      CopyBothStays(Apply(h, steps[0]), steps[1..]);
    }
  }

  lemma DrainedCopyBothStep(h: History, step: Step)
    requires h.ledger.operations == [] && h.ledger.requestState.CopyBoth?
    ensures Apply(h, step).ledger == h.ledger
  {
    hide RemoveInertHeads, Enqueued, Settled, CommitResponse, InertHeads;
  }

  /** A ledger that drains in CopyBoth never changes again. */
  lemma {:induction false} DrainedCopyBothIsForever(h: History, steps: seq<Step>)
    requires h.ledger.operations == [] && h.ledger.requestState.CopyBoth?
    ensures Replay(h, steps).ledger == h.ledger
    decreases steps
  {
    if steps != [] {
      DrainedCopyBothStep(h, steps[0]);
      DrainedCopyBothIsForever(Apply(h, steps[0]), steps[1..]);
    }
  }

  /** The way out: when the failure skips the batch, a `Sync` returns the client to Ready. */
  lemma SkippedCopyBothTakesSync(l: Ledger, m: BackendMessage, sync: FrontendMessage, handling: Handling)
    requires Shaped(l) && l.requestState.CopyBoth? && l.operations != [] && ResponseFits(l.operations[0], m)
      && DoomsBatch(l, m)
    requires sync.Sync? && |l.operations| <= l.limit
    ensures var r := AcceptFrontend(CommitResponse(l, m), sync, handling);
      r.Admitted? && r.ledger.requestState == Ready
  {
    EmissionFromCopyBoth(l, m);
    CompletionEnds(l, m);
    assert |CommitResponse(l, m).operations| < |l.operations|;
    SyncIsTaken(CommitResponse(l, m), sync, handling);
  }

  lemma SyncIsTaken(l: Ledger, sync: FrontendMessage, handling: Handling)
    requires l.requestState.ExtendedError? && sync.Sync? && |l.operations| < l.limit
    ensures AcceptFrontend(l, sync, handling).Admitted?
      && AcceptFrontend(l, sync, handling).ledger.requestState == Ready
  {
  }

  /** COPY BOTH outlives its operation: a query that enters it and fails leaves the ledger empty
      with request state CopyBoth. */
  lemma CopyBothStrands(l: Ledger, query: FrontendMessage, both: BackendMessage, error: BackendMessage,
                        ready: BackendMessage)
    requires AtRest(l) && l.nextId < U64_MAX
    requires query.Query? && both.CopyBothResponse? && error.ErrorResponse? && ready.ReadyForQuery?
    ensures Takes(l, [Sends(query), Says(both)] + [Says(error), Says(ready)]) ==
      Some(l.(requestState := RequestState.CopyBoth, nextId := l.nextId + 1))
  {
    hide Take, Takes;
    TakesFirst(l, query, Kind.Query, Ready);
    var c0 := Take(l, Sends(query)).value;
    TakesTwo(l, Sends(query), Says(both), c0);
    LoneAdvances(c0, both, G.SimpleCopyBoth);
    var c1 := Take(c0, Says(both)).value;
    LoneAdvances(c1, error, G.SimpleCopyReady);
    var c2 := Take(c1, Says(error)).value;
    TakesTwo(c1, Says(error), Says(ready), c2);
    LoneReady(c2, ready);
    TakesConcat(l, [Sends(query), Says(both)], [Says(error), Says(ready)]);
  }

  /** From there nothing is ever accepted again: COPY data and its end abort the process and every
      other message, in either direction, is refused. */
  lemma StrandedCopyBothIsDead(l: Ledger, m: FrontendMessage, handling: Handling, localId: Option<nat>,
                               r: BackendMessage)
    requires AtRest(l)
    ensures var dead := l.(requestState := RequestState.CopyBoth);
      && AcceptFrontend(dead, m, handling) ==
           (if m.CopyData? || m.CopyDone? then Unreachable else Illegal(PublicCopyBoth))
      && (!IsAsynchronous(r) ==> PrepareResponse(dead, localId, r).Rejected?)
  {
  }

  /** No COPY BOTH has been entered. */
  predicate NoBoth(l: Ledger) {
    Shaped(l) && !l.requestState.CopyBoth? && (l.operations != [] ==> !BothPhase(l.operations[0].responseState))
  }

  predicate NoBothRun(h: History, steps: seq<Step>)
    decreases steps
  {
    steps != [] ==>
      && (steps[0].Reply? && PrepareResponse(h.ledger, steps[0].localId, steps[0].response).Emit? ==>
            !steps[0].response.CopyBothResponse?)
      && NoBothRun(Apply(h, steps[0]), steps[1..])
  }

  lemma NoBothSend(s: G.State, m: BackendMessage)
    requires !BothPhase(s) && G.Send(s, m).Some? && !m.CopyBothResponse?
    ensures !BothPhase(G.Send(s, m).value) && ResponseCopyState(G.Send(s, m).value) != Some(RequestState.CopyBoth)
  {
  }

  lemma NoBothReceive(s: G.State, m: FrontendMessage)
    requires !BothPhase(s) && G.Receive(s, m).Some?
    ensures !BothPhase(G.Receive(s, m).value)
  {
  }

  lemma NoBothTouch(ops: seq<Operation>, m: FrontendMessage)
    requires ops != [] && !BothPhase(ops[0].responseState)
    ensures !BothPhase(TouchHead(ops, m)[0].responseState)
  {
    if G.Receive(ops[0].responseState, m).Some? { NoBothReceive(ops[0].responseState, m); }
  }

  lemma FreshNoBoth(k: Kind)
    ensures !BothPhase(InitialResponseState(k))
  {
  }

  lemma AdmissionKeepsNoBoth(l: Ledger, m: FrontendMessage, handling: Handling)
    requires NoBoth(l) && AcceptFrontend(l, m, handling).Admitted?
    ensures NoBoth(AcceptFrontend(l, m, handling).ledger)
  {
    FrontendKeepsShape(l, m, handling);
    AdmittedLedger(l, m, handling);
    Classification(l.requestState, m);
    var (kind, next) := ProjectFrontend(l.requestState, m).value;
    var ops, l' := Enqueued(l, m, handling, kind, next), AcceptFrontend(l, m, handling).ledger;
    EnqueuedKeepsQueue(l, m, handling, kind, next);
    if l'.operations != [] {
      var k := LiveFrom(ops, 0);
      assert l'.operations[0] == ops[k];
      if k == 0 && l.operations != [] {
        NoBothTouch(l.operations, m);
      } else {
        FreshNoBoth(ops[k].kind);
      }
    }
  }

  lemma EmissionKeepsNoBoth(l: Ledger, m: BackendMessage)
    requires NoBoth(l) && l.operations != [] && ResponseFits(l.operations[0], m) && !m.CopyBothResponse?
    ensures NoBoth(CommitResponse(l, m))
  {
    EmittingKeepsShape(l, m);
    var l' := CommitResponse(l, m);
    if ResponseIsTerminal(l.operations[0].kind, m) {
      CompletingTheHead(l, m);
      var ops := Settled(l, m).operations;
      if l'.operations != [] {
        var k := LiveFrom(ops, 0);
        assert l'.operations[0] == ops[k] && ops[k].responseState == l.operations[k + 1].responseState;
        FreshNoBoth(ops[k].kind);
      }
    } else {
      NoBothSend(l.operations[0].responseState, m);
      AdvancingTheHead(l, m);
      AdvanceProjectsCopy(l, m);
    }
  }

  /** In every run without a CopyBothResponse the source's `unreachable!` is unreachable: COPY IN
      is only projected while a Query or Execute is the head and copying in. */
  lemma {:induction false} RunsWithoutCopyBothNeverAbort(h: History, steps: seq<Step>, m: FrontendMessage,
                                                         handling: Handling)
    requires NoBoth(h.ledger) && NoBothRun(h, steps)
    ensures !AcceptFrontend(Replay(h, steps).ledger, m, handling).Unreachable?
    decreases steps
  {
    if steps == [] {
      AbortsExactlyAfterStaleCopyBoth(h.ledger, m, handling);
    } else {
      AppliedStepKeepsNoBoth(h, steps[0]);
      RunsWithoutCopyBothNeverAbort(Apply(h, steps[0]), steps[1..], m, handling);
    }
  }

  lemma AppliedStepKeepsNoBoth(h: History, step: Step)
    requires NoBoth(h.ledger)
    requires step.Reply? && PrepareResponse(h.ledger, step.localId, step.response).Emit? ==>
      !step.response.CopyBothResponse?
    ensures NoBoth(Apply(h, step).ledger)
  {
    match step
    case Client(m, handling) =>
      if AcceptFrontend(h.ledger, m, handling).Admitted? { AdmissionKeepsNoBoth(h.ledger, m, handling); }
    case Reply(localId, m) =>
      if PrepareResponse(h.ledger, localId, m).Emit? {
        EmissionKeepsNoBoth(h.ledger, m);
      } else {
        ResponseKeepsShape(h.ledger, localId, m);
      }
  }
}
