/** The forwarding driver `IntermediaryConnection` (src/intermediary_component.rs:1404-1894).
    Middleware decisions and received messages are inputs; a transport may fail at any send. */
module Connections {
  import opened Messages
  import opened Ledgers
  import opened Batches
  import opened Pipelines
  import opened BackendHolds
  import opened LocalResponses
  import opened Drivers
  import opened LocalDelivery
  import H = Histories
  import G = ServerGrammar

  /** Both bounds are positive (src/intermediary_component.rs:406-418). */
  datatype HoldLimits = HoldLimits(maxMessages: nat, maxBytes: nat)

  predicate ValidLimits(limits: Option<HoldLimits>) {
    limits.Some? ==> limits.value.maxMessages >= 1 && 1 <= limits.value.maxBytes <= USIZE_MAX
  }

  /** A client message on its way, as middleware prepared it. */
  datatype Retained = Retained(source: FrontendMessage, messages: seq<FrontendMessage>)

  /** What middleware decides, after the role interceptors had their turn. */
  datatype FrontendDecision =
    | FrontendFails
    | ForwardOne(message: FrontendMessage)
    | ForwardThenFlush(source: FrontendMessage, primary: FrontendMessage, flush: FrontendMessage)
    | SuppressFrontend
    | Respond(request: FrontendMessage, responses: seq<BackendMessage>)

  datatype BackendDecision =
    | BackendFails
    | ForwardBack(message: BackendMessage)
    | SuppressBack(suppressed: BackendMessage)
    | Expand(messages: seq<BackendMessage>)
    | Hold

  datatype BatchDecision = BatchFails | KeepHolding | ReplaceOneToOne(messages: seq<BackendMessage>)

  datatype Error =
    | Io
    | Panicked
    | Middleware
    | FrontendRefused(outcome: FrontendOutcome)
    | BackendRefused
    | DeferredResponse
    | EmptyExpansion
    | HoldingDisabled
    | HoldCapacity
    | HoldRefused
    | Unencodable
    | BatchRefused(error: BackendSequenceError)

  datatype Flushing =
    | Empty
    | Kept
    | Released(messages: seq<BackendMessage>)
    | FlushFailed(error: Error, committed: bool)

  datatype Forwarding = Done | Held | Failed(error: Error)

  predicate IsBarrier(m: BackendMessage) {
    || m.CommandComplete? || m.PortalSuspended? || m.EmptyQueryResponse? || m.ErrorResponse? || m.ReadyForQuery?
    || m.CopyInResponse? || m.CopyOutResponse? || m.CopyBothResponse? || m.CopyDone?
    || m.NoticeResponse? || m.NotificationResponse? || m.ParameterStatus? || m.BackendKeyData?
  }

  /** Responses inside a result: they neither end one, nor open or close a COPY, nor come unasked. */
  predicate Streamed(m: BackendMessage) {
    match m
    case RowDescription(_) | DataRow(_) | CopyData(_) => true
    case ParseComplete | BindComplete | CloseComplete | NoData | ParameterDescription(_) => true
    case FunctionCallResponse(_) | AuthenticationRequest(_) | NegotiateProtocolVersion(_, _, _) => true
    case _ => false
  }

  /** Every other kind is a barrier: the ends of a result or command, errors, COPY boundaries and the
      asynchronous messages. */
  lemma BarriersExactly(m: BackendMessage)
    ensures IsBarrier(m) <==> !Streamed(m)
    ensures !Streamed(m) <==>
      || m.CommandComplete? || m.PortalSuspended? || m.EmptyQueryResponse? || m.ErrorResponse? || m.ReadyForQuery?
      || m.CopyInResponse? || m.CopyOutResponse? || m.CopyBothResponse? || m.CopyDone?
      || IsAsynchronous(m)
  {
  }

  ghost predicate HasReady(ms: seq<BackendMessage>) {
    exists k :: 0 <= k < |ms| && ms[k].ReadyForQuery?
  }

  /** The hold stays within its bounds: never more messages than allowed, and only the newest message
      may carry the bytes past theirs. */
  predicate WithinLimits(limits: Option<HoldLimits>, held: seq<BackendMessage>) {
    match limits
    case None => held == []
    case Some(l) => |held| <= l.maxMessages && (held != [] ==> TotalBytes(held, |held| - 1) < l.maxBytes)
  }

  predicate HoldFull(limits: Option<HoldLimits>, count: nat, bytes: nat) {
    limits.Some? && (count >= limits.value.maxMessages || bytes >= limits.value.maxBytes)
  }

  /** A hold that is not full has room for one more message. */
  lemma RoomForOne(limits: Option<HoldLimits>, held: seq<BackendMessage>, m: BackendMessage)
    requires ValidLimits(limits) && limits.Some? && WithinLimits(limits, held)
    requires !HoldFull(limits, |held|, Capped(TotalBytes(held, |held|)))
    ensures WithinLimits(limits, held + [m])
  {
    hide RetainedBytes;
    TotalOfPrefix(held, m, |held|);
    assert (held + [m])[..|held|] == held;
  }

  /** The messages of a sequence that are forwarded, in order. */
  function Outgoing(admissions: seq<Admission>): seq<FrontendMessage> {
    if admissions == [] then []
    else
      var last := admissions[|admissions| - 1].action;
      Outgoing(admissions[..|admissions| - 1]) + (if last.ForwardIt? then [last.message] else [])
  }

  lemma {:induction false} OutgoingPrefix(admissions: seq<Admission>, n: nat)
    requires n <= |admissions|
    ensures Outgoing(admissions[..n]) <= Outgoing(admissions)
    decreases |admissions|
  {
    if n < |admissions| {
      var most := admissions[..|admissions| - 1];
      OutgoingPrefix(most, n);
      assert most[..n] == admissions[..n];
    } else {
      assert admissions[..n] == admissions;
    }
  }

  /* ---------- the driver only ever makes these calls ---------- */

  function NewDriver(limit: Limit): Driver {
    Driver(Ledgers.Empty(limit), [])
  }

  /** Ledger and local queue are what these calls leave. */
  ghost predicate Traces(limit: Limit, trace: seq<Action>, l: Ledger, queue: seq<Pending>) {
    Run(NewDriver(limit), trace) == Driver(l, queue)
  }

  lemma TraceAct(limit: Limit, trace: seq<Action>, l: Ledger, queue: seq<Pending>, a: Action)
    requires Traces(limit, trace, l, queue)
    ensures Traces(limit, trace + [a], Act(Driver(l, queue), a).ledger, Act(Driver(l, queue), a).queue)
  {
    hide Act;
    RunSnoc(NewDriver(limit), trace, a);
  }

  function Heard(ms: seq<BackendMessage>): seq<Action> {
    if ms == [] then [] else [Hear(ms[0])] + Heard(ms[1..])
  }

  lemma EmitFirst(l: Ledger, ms: seq<BackendMessage>)
    requires ms != [] && EmitAll(l, ms).Some?
    ensures EmitAll(AcceptResponse(l, None, ms[0]).ledger, ms[1..]) == EmitAll(l, ms)
  {
  }

  lemma {:induction false} TraceSpan(limit: Limit, trace: seq<Action>, l: Ledger, queue: seq<Pending>,
                                     ms: seq<BackendMessage>)
    requires Traces(limit, trace, l, queue) && EmitAll(l, ms).Some?
    ensures Traces(limit, trace + Heard(ms), EmitAll(l, ms).value, queue)
    decreases ms
  {
    hide Traces, AcceptResponse, EmitAll;
    if ms == [] {
      NothingEmitted(l);
      assert trace + Heard(ms) == trace;
    } else {
      EmitFirst(l, ms);
      TraceAct(limit, trace, l, queue, Hear(ms[0]));
      TraceSpan(limit, trace + [Hear(ms[0])], AcceptResponse(l, None, ms[0]).ledger, queue, ms[1..]);
      assert trace + [Hear(ms[0])] + Heard(ms[1..]) == trace + Heard(ms);
    }
  }

  lemma NothingEmitted(l: Ledger)
    ensures EmitAll(l, []) == Some(l)
  {
  }

  function Asked(ms: seq<FrontendMessage>): seq<Action> {
    if ms == [] then [] else [Ask(ms[0])] + Asked(ms[1..])
  }

  lemma {:induction false} TraceSequence(limit: Limit, trace: seq<Action>, l: Ledger, queue: seq<Pending>,
                                         ms: seq<FrontendMessage>)
    requires Traces(limit, trace, l, queue) && PrepareSequence(l, ms, Forward, FrontendEncodable).AllAdmitted?
    ensures Traces(limit, trace + Asked(ms), PrepareSequence(l, ms, Forward, FrontendEncodable).ledger, queue)
    decreases ms
  {
    hide AcceptFrontend, FrontendEncodable, Traces;
    if ms == [] {
      assert trace + Asked(ms) == trace;
    } else {
      TraceAct(limit, trace, l, queue, Ask(ms[0]));
      TraceSequence(limit, trace + [Ask(ms[0])], AcceptFrontend(l, ms[0], Forward).ledger, queue, ms[1..]);
      assert trace + [Ask(ms[0])] + Asked(ms[1..]) == trace + Asked(ms);
    }
  }

  /* ---------- what the client gets to see ---------- */

  /** Ledger and local queue, with what was sent to the client so far. */
  datatype Service = Service(ledger: Ledger, queue: seq<Pending>, sent: seq<BackendMessage>)

  /** Projects `projected`, of which the client sees `seen`, and then drains the local queue; None when a
      response is deferred or refused on the way. */
  function Serve(s: Service, projected: seq<BackendMessage>, seen: seq<BackendMessage>): Option<Service> {
    match EmitAll(s.ledger, projected)
    case None => None
    case Some(l) =>
      var d := Drain(l, s.queue);
      if d.refused then None else Some(Service(d.ledger, d.queue, s.sent + (seen + d.sent)))
  }

  /** The messages a decision projects, and those of them it sends. */
  function Projected(decision: BackendDecision): seq<BackendMessage> {
    match decision
    case ForwardBack(m) => [m]
    case SuppressBack(m) => [m]
    case Expand(ms) => ms
    case _ => []
  }

  function Seen(decision: BackendDecision): seq<BackendMessage> {
    if decision.SuppressBack? then [] else Projected(decision)
  }

  /** Batch policy replaces the held span by one that can be encoded and leaves the ledger the span itself
      would leave. */
  predicate Replaceable(l: Ledger, held: seq<BackendMessage>, decision: BatchDecision) {
    decision.ReplaceOneToOne? && PrepareReplacements(l, held, decision.messages, BackendEncodable).Accepted?
  }

  /** What is still held once a received response was given its chance to release the hold. */
  function HeldBehind(l: Ledger, held: seq<BackendMessage>, m: BackendMessage, barrier: BatchDecision)
    : seq<BackendMessage>
  {
    if Streamed(m) || !Replaceable(l, held, barrier) then held else []
  }

  /** What is still held once a full hold was offered to policy. */
  function HeldAtCapacity(l: Ledger, full: bool, held: seq<BackendMessage>, capacity: BatchDecision)
    : seq<BackendMessage>
  {
    if full && Replaceable(l, held, capacity) then [] else held
  }

  /** Why a span that is not replaceable stays held. */
  predicate StaysHeld(l: Ledger, held: seq<BackendMessage>, decision: BatchDecision, error: Error) {
    match decision
    case BatchFails => error == Middleware
    case KeepHolding => error == HoldRefused || error == HoldCapacity
    case ReplaceOneToOne(ms) =>
      if exists k :: 0 <= k < |ms| && !BackendEncodable(ms[k]) then error == Unencodable
      else
        var p := PrepareReplacements(l, held, ms, BackendEncodable);
        p.Declined? && error == BatchRefused(p.error)
  }

  /** Releasing the hold when `needed`. */
  function Freed(s: Service, needed: bool, held: seq<BackendMessage>, decision: BatchDecision): Option<Service> {
    if !needed || held == [] then Some(s)
    else if Replaceable(s.ledger, held, decision) then Serve(s, held, decision.messages)
    else None
  }

  /** A received response behind the hold it may have to release. */
  function Processed(s: Service, held: seq<BackendMessage>, m: BackendMessage, barrier: BatchDecision,
                     decision: BackendDecision): Option<Service> {
    match Freed(s, IsBarrier(m), held, barrier)
    case None => None
    case Some(s') => Serve(s', Projected(decision), Seen(decision))
  }

  /** A drain behind messages already written: on a write failure exactly one message is lost, and a
      later drain goes on behind it. */
  predicate Flushed(l: Ledger, queue: seq<Pending>, before: seq<BackendMessage>, l': Ledger, queue': seq<Pending>,
                    written: seq<BackendMessage>, r: Forwarding) {
    var d := Drain(l, queue);
    var all := before + d.sent;
    if r == Failed(Io) then
      var e := Drain(l', queue');
      && d.ledger == e.ledger && d.queue == e.queue && d.refused == e.refused
      && |written| < |all| && all == written + [all[|written|]] + e.sent
    else
      l' == d.ledger && queue' == d.queue && written == all && r == if d.refused then Failed(BackendRefused) else Done
  }

  /** `written` of the drain is done, and the rest is the drain from here. */
  predicate Resumes(l: Ledger, queue: seq<Pending>, l': Ledger, queue': seq<Pending>, written: seq<BackendMessage>) {
    var e := Drain(l', queue');
    Drain(l, queue) == e.(sent := written + e.sent)
  }

  lemma NothingDrained(l: Ledger, queue: seq<Pending>)
    ensures Resumes(l, queue, l, queue, [])
  {
    assert [] + Drain(l, queue).sent == Drain(l, queue).sent;
  }

  lemma DrainTurn(l: Ledger, queue: seq<Pending>)
    requires queue != []
    ensures queue[0].messages == [] ==> Drain(l, queue) == Drain(l, queue[1..])
    ensures queue[0].messages != [] ==>
      var m := queue[0].messages[0];
      var a := Ledgers.AcceptResponse(l, Some(queue[0].operation), m);
      && (a.action.Emitted? ==>
        Drain(l, queue) == Drain(a.ledger, Popped(queue)).(sent := [m] + Drain(a.ledger, Popped(queue)).sent))
      && (a.action.DeferredAction? ==> Drain(l, queue) == Drained(a.ledger, queue, [], false))
      && (a.action.Refused? ==> Drain(l, queue) == Drained(a.ledger, Popped(queue), [], true))
  {
  }

  /** One turn of the loop. */
  lemma ResumesTurn(l: Ledger, queue: seq<Pending>, l': Ledger, queue': seq<Pending>, written: seq<BackendMessage>)
    requires Resumes(l, queue, l', queue', written) && queue' != []
    ensures queue'[0].messages == [] ==> Resumes(l, queue, l', queue'[1..], written)
    ensures queue'[0].messages != [] ==>
      var m := queue'[0].messages[0];
      var a := Ledgers.AcceptResponse(l', Some(queue'[0].operation), m);
      && (a.action.Emitted? ==>
            && Resumes(l, queue, a.ledger, Popped(queue'), written + [m])
            && Flushed(l, queue, [], a.ledger, Popped(queue'), written, Failed(Io)))
      && (a.action.DeferredAction? ==> Flushed(l, queue, [], a.ledger, queue', written, Done))
      && (a.action.Refused? ==> Flushed(l, queue, [], a.ledger, Popped(queue'), written, Failed(BackendRefused)))
  {
    hide Drain, Ledgers.AcceptResponse;
    DrainTurn(l', queue');
    var d := Drain(l, queue);
    assert [] + d.sent == d.sent && written + [] == written;
    if queue'[0].messages != [] {
      var m := queue'[0].messages[0];
      var e := Drain(Ledgers.AcceptResponse(l', Some(queue'[0].operation), m).ledger, Popped(queue'));
      assert written + ([m] + e.sent) == written + [m] + e.sent;
    }
  }

  lemma ResumesEnd(l: Ledger, queue: seq<Pending>, l': Ledger, written: seq<BackendMessage>)
    requires Resumes(l, queue, l', [], written)
    ensures Flushed(l, queue, [], l', [], written, Done)
  {
    assert [] + Drain(l, queue).sent == Drain(l, queue).sent && written + [] == written;
  }

  lemma TryTurn(l: Ledger, queue: seq<Pending>)
    requires queue != []
    ensures var d := Act(Driver(l, queue), Try);
      if queue[0].messages == [] then d == Driver(l, queue[1..])
      else
        var a := Ledgers.AcceptResponse(l, Some(queue[0].operation), queue[0].messages[0]);
        d == Driver(a.ledger, if a.action.DeferredAction? then queue else Popped(queue))
  {
  }

  lemma ServedByFlush(s: Service, projected: seq<BackendMessage>, seen: seq<BackendMessage>, l': Ledger,
                      queue': seq<Pending>, written: seq<BackendMessage>)
    requires s.sent == [] && EmitAll(s.ledger, projected).Some?
    requires Flushed(EmitAll(s.ledger, projected).value, s.queue, seen, l', queue', written, Done)
    ensures Serve(s, projected, seen) == Some(Service(l', queue', written))
  {
    hide EmitAll, Drain;
    assert [] + written == written;
  }

  /** Why a response did not reach the client: it was emitted but not written, deferred or refused. */
  function ErrorOf(action: BackendAction): Error {
    match action
    case Emitted => Io
    case DeferredAction => DeferredResponse
    case Refused(_) => BackendRefused
  }

  /** Projection stopped at message `k`: it was not for the client to have now, or could not be written. */
  predicate StoppedAt(l: Ledger, ms: seq<BackendMessage>, k: nat, l': Ledger, r: Forwarding) {
    && k < |ms| && EmitAll(l, ms[..k]).Some?
    && var a := Ledgers.AcceptResponse(EmitAll(l, ms[..k]).value, None, ms[k]);
      l' == a.ledger && r == Failed(ErrorOf(a.action))
  }

  /** A release that fails changes nothing, or has committed the span and stops among its replacements or
      the local responses behind them. */
  predicate ReleaseFails(s: Service, held: seq<BackendMessage>, decision: BatchDecision, s': Service,
                         written: seq<BackendMessage>, error: Error) {
    || (s' == s && written == [] && !Replaceable(s.ledger, held, decision)
      && StaysHeld(s.ledger, held, decision, error))
    || (&& Replaceable(s.ledger, held, decision) && EmitAll(s.ledger, held).Some?
        && var l := EmitAll(s.ledger, held).value;
          || (error.Io? && written < decision.messages && s' == s.(ledger := l))
          || Flushed(l, s.queue, decision.messages, s'.ledger, s'.queue, written, Failed(error)))
  }

  /** A decision that fails leaves its source pending with nothing changed, or stops at one of its
      messages or at the local responses behind them. */
  predicate DecisionFails(s: Service, decision: BackendDecision, s': Service, written: seq<BackendMessage>,
                          r: Forwarding) {
    || (&& s' == s && written == []
        && (|| (decision.BackendFails? && r == Failed(Middleware))
            || (decision.Hold? && r == Failed(HoldingDisabled))
            || (decision == Expand([]) && r == Failed(EmptyExpansion))))
    || (&& s'.queue == s.queue && written <= Seen(decision)
        && StoppedAt(s.ledger, Projected(decision), |written|, s'.ledger, r))
    || (&& EmitAll(s.ledger, Projected(decision)).Some?
        && Flushed(EmitAll(s.ledger, Projected(decision)).value, s.queue, Seen(decision),
                   s'.ledger, s'.queue, written, r))
  }

  /** Everything a pending source can lead to. */
  predicate DecisionOutcome(s: Service, decision: BackendDecision, s': Service, written: seq<BackendMessage>,
                            r: Forwarding) {
    if r.Failed? then DecisionFails(s, decision, s', written, r)
    else Serve(s, Projected(decision), Seen(decision)) == Some(s'.(sent := written))
  }

  /** The service behind a release, with the release's own writes taken off `written`. */
  predicate Follows(freed: Option<Service>, written: seq<BackendMessage>) {
    freed.Some? && freed.value.sent <= written
  }

  function Rest(freed: Service, written: seq<BackendMessage>): seq<BackendMessage>
    requires freed.sent <= written
  {
    written[|freed.sent|..]
  }

  /** Everything a received response can lead to. */
  predicate ResponseOutcome(s: Service, held: seq<BackendMessage>, m: BackendMessage, barrier: BatchDecision,
                           decision: BackendDecision, s': Service, written: seq<BackendMessage>, r: Forwarding) {
    var freed := Freed(s, IsBarrier(m), held, barrier);
    if !r.Failed? then Processed(s, held, m, barrier, decision) == Some(s'.(sent := written))
    else
      || (IsBarrier(m) && held != [] && ReleaseFails(s, held, barrier, s', written, r.error))
      || (&& Follows(freed, written)
          && DecisionFails(freed.value.(sent := []), decision, s', Rest(freed.value, written), r))
  }

  /** Nothing but replacements of the whole held span was written before anything else. */
  predicate SpanFirst(l: Ledger, held: seq<BackendMessage>, barrier: BatchDecision, written: seq<BackendMessage>,
                      r: Forwarding) {
    written != [] || !r.Failed? ==>
      && Replaceable(l, held, barrier) && |barrier.messages| == |held|
      && (barrier.messages <= written || (r.Failed? && written <= barrier.messages))
  }

  /** Everything an attempt to forward a prepared sequence can lead to: it is committed with its primary
      under the id shown for it and written in order, or stays retained under that id, or is lost with the
      process. */
  predicate Attempted(prepared: Retained, id: nat, l: Ledger, l': Ledger, retained: Option<Retained>, id': nat,
                      upstream: seq<FrontendMessage>, r: Forwarding) {
    match PrepareSequence(l, prepared.messages, Forward, FrontendEncodable)
    case AllAdmitted(admissions, end) =>
      && retained.None? && l' == end && (r.Done? || r == Failed(Io))
      && upstream <= Outgoing(admissions) && (r.Done? ==> upstream == Outgoing(admissions))
      && admissions != [] && ActionId(admissions[0].action) == id
    case SequenceFailed(_, failure) =>
      && l' == l && upstream == []
      && (if failure.Unreachable? then retained.None? && r == Failed(Panicked)
          else retained == Some(prepared) && id' == id && r == Failed(FrontendRefused(OutcomeOf(failure))))
  }

  /** The sequence a forwarding decision prepares. */
  function SequenceFor(decision: FrontendDecision): (p: Retained)
    requires decision.ForwardOne? || decision.ForwardThenFlush?
    ensures p.messages != []
  {
    match decision
    case ForwardOne(m) => Retained(m, [m])
    case ForwardThenFlush(source, primary, flush) => Retained(source, [primary, flush])
  }

  /** What was written to the client and to the server. */
  datatype Writes = Writes(down: seq<BackendMessage>, up: seq<FrontendMessage>)

  /** What one call of `forward_next` came to: the pending source, a hold that stayed full, the retained
      sequence, a read that failed, a response or a client message. */
  datatype Turn = Source | Room | Retry | Nothing | Server | Client

  /** Everything a client message shown under `id` can lead to. */
  predicate RequestOutcome(s: Service, id: nat, decision: FrontendDecision, s': Service, retained: Option<Retained>,
                           id': nat, w: Writes, r: Forwarding) {
    match decision
    case FrontendFails => s' == s && retained.None? && w == Writes([], []) && r == Failed(Middleware)
    case SuppressFrontend => s' == s && retained.None? && w == Writes([], []) && r == Done
    case Respond(request, responses) => (
      && retained.None? && w.up == []
      && match AcceptFrontend(s.ledger, request, Locally)
         case Admitted(_, l) => Flushed(l, s.queue + [Pending(id, responses)], [], s'.ledger, s'.queue, w.down, r)
         case refusal =>
           && s' == s && w.down == []
           && r == Failed(if refusal.Unreachable? then Panicked else FrontendRefused(OutcomeOf(refusal))))
    case _ =>
      s'.queue == s.queue && w.down == []
        && Attempted(SequenceFor(decision), id, s.ledger, s'.ledger, retained, id', w.up, r)
  }

  lemma {:induction false} EmitSnoc(l: Ledger, ms: seq<BackendMessage>, m: BackendMessage)
    requires EmitAll(l, ms).Some?
    ensures var a := AcceptResponse(EmitAll(l, ms).value, None, m);
      EmitAll(l, ms + [m]) == if a.action.Emitted? then Some(a.ledger) else None
    decreases ms
  {
    if ms == [] {
      assert (ms + [m])[1..] == [];
    } else {
      EmitFirst(l, ms);
      assert (ms + [m])[1..] == ms[1..] + [m];
      EmitSnoc(AcceptResponse(l, None, ms[0]).ledger, ms[1..], m);
    }
  }

  class Connection {
    const pipeline: Pipeline
    const hold: BackendHold
    const limits: Option<HoldLimits>
    var pendingFrontend: Option<Retained>
    var pendingLocal: seq<Pending>
    /** The operation id middleware was shown for the retained client message. */
    ghost var shown: nat
    /** Every call the driver made on the ledger. */
    ghost var trace: seq<Action>

    ghost predicate Valid()
      reads this, pipeline, hold
    {
      && ValidLimits(limits)
      && hold.Valid()
      && WithinLimits(limits, hold.held)
      && (hold.pending.Some? ==> !IsFull())
      && (pendingFrontend.Some? ==> shown == pipeline.nextId && pendingFrontend.value.messages != [])
      && Traces(pipeline.limit, trace, pipeline.Contents(), pendingLocal)
    }

    predicate IsFull()
      reads this, hold
    {
      HoldFull(limits, |hold.held|, hold.heldBytes)
    }

    constructor (limit: Limit, limits: Option<HoldLimits>)
      requires ValidLimits(limits)
      ensures Valid() && fresh(pipeline) && fresh(hold) && pipeline.Contents() == Ledgers.Empty(limit)
    {
      pipeline := new Pipeline(limit);
      hold := new BackendHold();
      this.limits := limits;
      pendingFrontend, pendingLocal, shown, trace := None, [], 0, [];
    }

    ghost function State(): Service
      reads this, pipeline
    {
      Service(pipeline.Contents(), pendingLocal, [])
    }

    /* ---------- local responses ---------- */

    /** Drains the local queue; on a transport failure the messages already emitted stay emitted. */
    method FlushLocalResponses() returns (r: Forwarding, written: seq<BackendMessage>)
      requires Valid()
      modifies this`pendingLocal, this`trace, pipeline
      ensures Valid() && pipeline.nextId == old(pipeline.nextId) && old(trace) <= trace && !r.Held?
      ensures Flushed(old(pipeline.Contents()), old(pendingLocal), [], pipeline.Contents(), pendingLocal, written, r)
    {
      hide Traces, RetainedBytes, TotalBytes, Ledgers.AcceptResponse, Resumes, Flushed, Act, Drain;
      ghost var l0, q0 := pipeline.Contents(), pendingLocal;
      written := [];
      NothingDrained(l0, q0);
      while pendingLocal != []
        invariant Valid() && pipeline.nextId == old(pipeline.nextId) && old(trace) <= trace
        invariant Resumes(l0, q0, pipeline.Contents(), pendingLocal, written)
        decreases Backlog(pendingLocal)
      {
        var front := pendingLocal[0];
        ResumesTurn(l0, q0, pipeline.Contents(), pendingLocal, written);
        TryTurn(pipeline.Contents(), pendingLocal);
        TraceAct(pipeline.limit, trace, pipeline.Contents(), pendingLocal, Try);
        trace := trace + [Try];
        if front.messages == [] {
          pendingLocal := pendingLocal[1..];
        } else {
          var m := front.messages[0];
          ResponsesKeepIds(pipeline.Contents(), Some(front.operation), m);
          var action := pipeline.AcceptResponse(Some(front.operation), m);
          match action
          case Emitted =>
            pendingLocal := Popped(pendingLocal);
            if * { return Failed(Io), written; }
            written := written + [m];
          case DeferredAction => return Done, written;
          case Refused(_) =>
            pendingLocal := Popped(pendingLocal);
            return Failed(BackendRefused), written;
        }
      }
      ResumesEnd(l0, q0, pipeline.Contents(), written);
      r := Done;
    }

    /* ---------- releasing the hold ---------- */

    /** Offers the held span to batch policy.  Every refusal leaves ledger and hold as they were; a
        release leaves the ledger that forwarding the held messages leaves, before local responses
        are drained behind it. */
    method FlushHold(decision: BatchDecision)
      returns (r: Flushing, written: seq<BackendMessage>, ghost ids: seq<Option<nat>>)
      requires Valid()
      modifies this`pendingLocal, this`trace, pipeline, hold`held, hold`heldBytes
      ensures Valid() && pipeline.nextId == old(pipeline.nextId) && old(trace) <= trace
      ensures r.Empty? <==> old(hold.held) == []
      ensures !r.Empty? ==> ids == AttributedIds(old(pipeline.Contents()), old(hold.held))
      ensures r.Kept? <==> old(hold.held) != [] && decision.KeepHolding?
      ensures r.Empty? || r.Kept? || (r.FlushFailed? && !r.committed) ==>
        State() == old(State()) && hold.held == old(hold.held) && written == []
      ensures r.FlushFailed? && !r.committed ==>
        && !Replaceable(old(pipeline.Contents()), old(hold.held), decision)
        && StaysHeld(old(pipeline.Contents()), old(hold.held), decision, r.error)
      ensures r.Released? || (r.FlushFailed? && r.committed) ==>
        Replaceable(old(pipeline.Contents()), old(hold.held), decision)
      ensures r.Released? ==>
        decision == ReplaceOneToOne(r.messages) && hold.held == []
        && Serve(old(State()), old(hold.held), r.messages) == Some(State().(sent := written))
      ensures r.FlushFailed? && r.committed ==>
        decision.ReplaceOneToOne? && hold.held == [] && EmitAll(old(pipeline.Contents()), old(hold.held)).Some?
        && var l := EmitAll(old(pipeline.Contents()), old(hold.held)).value;
          || (r.error.Io? && written < decision.messages && State() == old(State()).(ledger := l))
          || Flushed(l, old(pendingLocal), decision.messages, pipeline.Contents(), pendingLocal, written,
                     Failed(r.error))
    {
      hide Traces, RetainedBytes, BackendEncodable, PrepareReplacements, EmitAll, AttributedIds, Drain;
      ids, written := [], [];
      if hold.held == [] { return Flushing.Empty, [], ids; }
      var attributed := pipeline.BackendOperationIds(hold.held);
      ids := attributed;
      if decision.BatchFails? { return FlushFailed(Middleware, false), [], ids; }
      if decision.KeepHolding? { return Kept, [], ids; }
      var messages := decision.messages;
      var i := 0;
      while i < |messages|
        invariant i <= |messages| && forall k :: 0 <= k < i ==> BackendEncodable(messages[k])
      {
        if !BackendEncodable(messages[i]) {
          UnencodableStays(pipeline.Contents(), hold.held, messages, i);
          return FlushFailed(Unencodable, false), [], ids;
        }
        i := i + 1;
      }
      var prepared := pipeline.PrepareBackendReplacements(hold.held, messages);
      if prepared.Refusal? { return FlushFailed(BatchRefused(prepared.error), false), [], ids; }
      ReplacementIsForwarding(pipeline.Contents(), hold.held, messages, BackendEncodable);
      EmissionKeepsIds(pipeline.Contents(), hold.held);
      TraceSpan(pipeline.limit, trace, pipeline.Contents(), pendingLocal, hold.held);
      trace := trace + Heard(hold.held);
      pipeline.Become(prepared.pipeline);
      var _ := hold.Clear();
      ghost var l := pipeline.Contents();
      var failed;
      written, failed := SendAll(messages);
      if failed { return FlushFailed(Io, true), written, ids; }
      var local, answered := FlushLocalResponses();
      FlushedBehind(l, old(pendingLocal), messages, pipeline.Contents(), pendingLocal, answered, local);
      written := written + answered;
      if local.Failed? { return FlushFailed(local.error, true), written, ids; }
      ServedByFlush(old(State()), old(hold.held), messages, pipeline.Contents(), pendingLocal, written);
      r := Released(messages);
    }

    /** Writes messages one by one; the transport may fail at any of them. */
    method SendAll(messages: seq<BackendMessage>) returns (written: seq<BackendMessage>, failed: bool)
      ensures if failed then written < messages else written == messages
    {
      var i := 0;
      while i < |messages|
        invariant i <= |messages|
      {
        if * { return messages[..i], true; }
        i := i + 1;
      }
      return messages, false;
    }

    /* ---------- server to client ---------- */

    /** Projects and sends one response. */
    method EmitBackend(m: BackendMessage) returns (r: Forwarding, written: seq<BackendMessage>)
      requires Valid()
      modifies this`trace, pipeline
      ensures Valid() && pipeline.nextId == old(pipeline.nextId) && old(trace) <= trace
      ensures var a := Ledgers.AcceptResponse(old(pipeline.Contents()), None, m);
        && pipeline.Contents() == a.ledger
        && (r.Done? ==> a.action.Emitted? && written == [m])
        && (!r.Done? ==> written == [] && r == Failed(ErrorOf(a.action)))
    {
      hide Traces, RetainedBytes, TotalBytes, Ledgers.AcceptResponse;
      ResponsesKeepIds(pipeline.Contents(), None, m);
      TraceAct(pipeline.limit, trace, pipeline.Contents(), pendingLocal, Hear(m));
      var action := pipeline.AcceptResponse(None, m);
      trace := trace + [Hear(m)];
      match action
      case Emitted =>
        if * { return Failed(Io), []; }
        return Done, [m];
      case DeferredAction => return Failed(DeferredResponse), [];
      case Refused(_) => return Failed(BackendRefused), [];
    }

    /** Projects and, unless suppressed, sends what middleware decided, up to the first message that is
        deferred, refused or not written. */
    method EmitDecided(decision: BackendDecision) returns (r: Forwarding, written: seq<BackendMessage>)
      requires Valid() && (decision.ForwardBack? || decision.SuppressBack? || decision.Expand?)
      modifies this`trace, pipeline
      ensures Valid() && pipeline.nextId == old(pipeline.nextId) && old(trace) <= trace && !r.Held?
      ensures r.Done? ==>
        && EmitAll(old(pipeline.Contents()), Projected(decision)) == Some(pipeline.Contents())
        && written == Seen(decision)
      ensures r.Failed? ==>
        && StoppedAt(old(pipeline.Contents()), Projected(decision), |written|, pipeline.Contents(), r)
        && written <= Seen(decision)
    {
      hide Traces, RetainedBytes, TotalBytes, Ledgers.AcceptResponse, EmitAll;
      ghost var l := pipeline.Contents();
      NothingEmitted(l);
      written := [];
      match decision
      case SuppressBack(m) =>
        assert [m][..0] == [] && [] + [m] == [m];
        EmitSnoc(l, [], m);
        ResponsesKeepIds(pipeline.Contents(), None, m);
        TraceAct(pipeline.limit, trace, pipeline.Contents(), pendingLocal, Hear(m));
        var action := pipeline.AcceptResponse(None, m);
        trace := trace + [Hear(m)];
        if action.DeferredAction? { return Failed(DeferredResponse), []; }
        if action.Refused? { return Failed(BackendRefused), []; }
        r := Done;
      case ForwardBack(m) =>
        assert [m][..0] == [] && [] + [m] == [m];
        EmitSnoc(l, [], m);
        r, written := EmitBackend(m);
      case Expand(messages) =>
        var i := 0;
        while i < |messages|
          invariant Valid() && pipeline.nextId == old(pipeline.nextId) && old(trace) <= trace
          invariant i <= |messages| && written == messages[..i]
            && EmitAll(l, messages[..i]) == Some(pipeline.Contents())
        {
          EmitSnoc(l, messages[..i], messages[i]);
          assert messages[..i] + [messages[i]] == messages[..i + 1];
          var sent;
          r, sent := EmitBackend(messages[i]);
          if r.Failed? { return; }
          written := written + sent;
          i := i + 1;
        }
        assert messages[..i] == messages;
        r := Done;
    }

    /** Decides the fate of the pending source.  It stays pending exactly when middleware fails,
        expands to nothing, or holds without limits.  Middleware is shown the operation the source is
        attributed to. */
    method ProcessPendingBackend(decision: BackendDecision)
      returns (r: Forwarding, written: seq<BackendMessage>, ghost operation: Option<nat>)
      requires Valid() && hold.pending.Some?
      modifies this`pendingLocal, this`trace, pipeline, hold
      ensures Valid() && pipeline.nextId == old(pipeline.nextId) && old(trace) <= trace
      ensures operation == Ledgers.BackendOperationId(old(pipeline.Contents()), old(hold.pending).value.0)
      ensures hold.pending.Some? <==>
        decision.BackendFails? || decision == Expand([]) || (decision.Hold? && limits.None?)
      ensures hold.pending.Some? ==>
        hold.pending == old(hold.pending) && State() == old(State()) && r.Failed? && written == []
      ensures hold.held ==
        if decision.Hold? && limits.Some? then old(hold.held) + [old(hold.pending).value.0] else old(hold.held)
      ensures !r.Failed? ==> (r.Held? <==> decision.Hold?)
      ensures DecisionOutcome(old(State()), decision, State(), written, r)
    {
      hide Traces, RetainedBytes, TotalBytes, Ledgers.AcceptResponse, Ledgers.BackendOperationId, Drain, EmitAll,
        StoppedAt;
      var attributed := pipeline.BackendOperationId(hold.pending.value.0);
      operation := attributed;
      written := [];
      NothingEmitted(pipeline.Contents());
      match decision {
        case BackendFails => return Failed(Middleware), [], operation;
        case Hold =>
          if limits.None? { return Failed(HoldingDisabled), [], operation; }
          RoomForOne(limits, hold.held, hold.pending.value.0);
          hold.HoldPending();
          r := Held;
        case _ =>
          if decision == Expand([]) { return Failed(EmptyExpansion), [], operation; }
          var _ := hold.TakePending();
          r, written := EmitDecided(decision);
          if r.Failed? { return; }
      }
      ghost var l := pipeline.Contents();
      var local, answered := FlushLocalResponses();
      FlushedBehind(l, old(pendingLocal), Seen(decision), pipeline.Contents(), pendingLocal, answered, local);
      written := written + answered;
      if local.Failed? { return local, written, operation; }
      ServedByFlush(old(State()), Projected(decision), Seen(decision), pipeline.Contents(), pendingLocal, written);
    }

    /** A received response becomes the pending source; a protocol barrier first releases the hold. */
    method ProcessBackend(m: BackendMessage, barrier: BatchDecision, decision: BackendDecision)
      returns (r: Forwarding, written: seq<BackendMessage>)
      requires Valid() && hold.pending.None? && !IsFull()
      modifies this`pendingLocal, this`trace, pipeline, hold
      ensures Valid() && pipeline.nextId == old(pipeline.nextId) && old(trace) <= trace
      ensures hold.pending.Some? ==> hold.pending.value.0 == m && r.Failed?
      ensures hold.held == HeldBehind(old(pipeline.Contents()), old(hold.held), m, barrier)
        + (if decision.Hold? && limits.Some? && hold.pending.None? then [m] else [])
      ensures Streamed(m) || old(hold.held) == [] ==> DecisionOutcome(old(State()), decision, State(), written, r)
      ensures !Streamed(m) && old(hold.held) != [] ==>
        && SpanFirst(old(pipeline.Contents()), old(hold.held), barrier, written, r)
        && (!Replaceable(old(pipeline.Contents()), old(hold.held), barrier) ==>
              && State() == old(State()) && hold.held == old(hold.held) && hold.pending.Some?
              && (barrier.KeepHolding? ==> r == Failed(HoldRefused)))
      ensures !r.Failed? && HasReady(Projected(decision)) ==>
        && (hold.held != [] <==> Streamed(m) && old(hold.held) != [])
        && (m.ReadyForQuery? ==> hold.held == [])
      ensures ResponseOutcome(old(State()), old(hold.held), m, barrier, decision, State(), written, r)
      ensures !r.Failed? ==>
        hold.pending.None? && hold.held ==
          (if Streamed(m) then old(hold.held) else []) + (if decision.Hold? then [m] else [])
    {
      hide Traces, RetainedBytes, TotalBytes, IsBarrier, Streamed, ResponseOutcome, DecisionOutcome, ReleaseFails,
        Freed,
        Replaceable, SpanFirst;
      ghost var before, held := State(), hold.held;
      BarriersExactly(m);
      hold.SetPending(m);
      written := [];
      if IsBarrier(m) && hold.held != [] {
        var error;
        error, written := Release(barrier, HoldRefused);
        if error.Some? {
          ReleaseStopped(before, held, m, barrier, decision, State(), written, error.value);
          SpanGoesFirst(before, held, m, barrier, decision, State(), written, Failed(error.value));
          return Failed(error.value), written;
        }
      } else {
        NotNeeded(before, IsBarrier(m), held, barrier);
      }
      ghost var s := State();
      var outcome, sent, _ := ProcessPendingBackend(decision);
      DecidedBehind(before, held, m, barrier, decision, s.(sent := written), State(), sent, outcome);
      assert [] + sent == sent;
      r, written := outcome, written + sent;
      if !Streamed(m) && held != [] { SpanGoesFirst(before, held, m, barrier, decision, State(), written, r); }
    }

    /** Releases the hold; policy that keeps it is an error. */
    method Release(decision: BatchDecision, refused: Error) returns (error: Option<Error>, written: seq<BackendMessage>)
      requires Valid() && (refused == HoldRefused || refused == HoldCapacity)
      modifies this`pendingLocal, this`trace, pipeline, hold`held, hold`heldBytes
      ensures Valid() && pipeline.nextId == old(pipeline.nextId) && old(trace) <= trace
      ensures hold.held ==
        if Replaceable(old(pipeline.Contents()), old(hold.held), decision) then [] else old(hold.held)
      ensures error.None? ==>
        hold.held == [] && Freed(old(State()), true, old(hold.held), decision) == Some(State().(sent := written))
      ensures error.Some? ==> ReleaseFails(old(State()), old(hold.held), decision, State(), written, error.value)
      ensures !Replaceable(old(pipeline.Contents()), old(hold.held), decision) ==> State() == old(State())
      ensures old(hold.held) != [] && decision.KeepHolding? ==> error == Some(refused)
      ensures old(hold.held) != [] && error.None? ==> Replaceable(old(pipeline.Contents()), old(hold.held), decision)
    {
      hide Traces, RetainedBytes, Serve, Flushed, EmitAll;
      var flushed, out, _ := FlushHold(decision);
      if flushed.FlushFailed? { return Some(flushed.error), out; }
      if flushed.Kept? { return Some(refused), out; }
      return None, out;
    }

    /** Makes room, or reports that policy keeps a full hold. */
    method EnsureRoom(capacity: BatchDecision) returns (error: Option<Error>, written: seq<BackendMessage>)
      requires Valid() && hold.pending.None?
      modifies this`pendingLocal, this`trace, pipeline, hold`held, hold`heldBytes
      ensures Valid() && hold.pending.None? && pipeline.nextId == old(pipeline.nextId) && old(trace) <= trace
      ensures hold.held == HeldAtCapacity(old(pipeline.Contents()), old(IsFull()), old(hold.held), capacity)
      ensures old(IsFull()) <==>
        limits.Some?
        && (|old(hold.held)| >= limits.value.maxMessages
            || TotalBytes(old(hold.held), |old(hold.held)|) >= limits.value.maxBytes)
      ensures old(IsFull()) && capacity.KeepHolding? ==> error == Some(HoldCapacity)
      ensures error.None? ==>
        && !IsFull() && hold.held == (if old(IsFull()) then [] else old(hold.held))
        && Freed(old(State()), old(IsFull()), old(hold.held), capacity) == Some(State().(sent := written))
      ensures error.Some? ==>
        old(IsFull()) && ReleaseFails(old(State()), old(hold.held), capacity, State(), written, error.value)
    {
      hide Traces, RetainedBytes, ReleaseFails, Freed, Replaceable;
      if IsFull() {
        error, written := Release(capacity, HoldCapacity);
      } else {
        NotNeeded(State(), false, hold.held, capacity);
        error, written := None, [];
      }
    }

    /** `forward_backend`: retries a pending source, or reads one more response. */
    method ForwardBackend(received: Option<BackendMessage>, capacity: BatchDecision, barrier: BatchDecision,
                          decision: BackendDecision)
      returns (r: Forwarding, written: seq<BackendMessage>)
      requires Valid()
      modifies this`pendingLocal, this`trace, pipeline, hold
      ensures Valid() && pipeline.nextId == old(pipeline.nextId) && old(trace) <= trace
      ensures hold.pending.Some? ==>
        r.Failed? && (hold.pending == old(hold.pending) || (received.Some? && hold.pending.value.0 == received.value))
      ensures old(hold.pending).Some? ==>
        && DecisionOutcome(old(State()), decision, State(), written, r)
        && hold.held ==
          old(hold.held) + (if decision.Hold? && limits.Some? then [old(hold.pending).value.0] else [])
      ensures old(hold.pending).None? ==>
        var freed := Freed(old(State()), old(IsFull()), old(hold.held), capacity);
        var held := HeldAtCapacity(old(pipeline.Contents()), old(IsFull()), old(hold.held), capacity);
        || (&& old(IsFull()) && r.Failed? && hold.held == held
          && ReleaseFails(old(State()), old(hold.held), capacity, State(), written, r.error))
        || (&& Follows(freed, written)
            && var at, rest := freed.value.(sent := []), Rest(freed.value, written);
              if received.None? then State() == at && rest == [] && r == Failed(Io) && hold.held == held
              else
                && ResponseOutcome(at, held, received.value, barrier, decision, State(), rest, r)
                && hold.held == HeldBehind(at.ledger, held, received.value, barrier)
                  + (if decision.Hold? && limits.Some? && hold.pending.None? then [received.value] else []))
    {
      hide Traces, RetainedBytes, TotalBytes, ResponseOutcome, DecisionOutcome, ReleaseFails, Freed, Replaceable,
        SpanFirst;
      if hold.pending.Some? {
        var outcome, out, _ := ProcessPendingBackend(decision);
        return outcome, out;
      }
      var error;
      error, written := EnsureRoom(capacity);
      if error.Some? { return Failed(error.value), written; }
      if received.None? { return Failed(Io), written; }
      var sent;
      r, sent := ProcessBackend(received.value, barrier, decision);
      assert (written + sent)[|written|..] == sent;
      written := written + sent;
    }

    /** Deliberate teardown releases the held span, or says that policy refused. */
    method PrepareBackendTeardown(decision: BatchDecision) returns (r: Flushing, written: seq<BackendMessage>)
      requires Valid()
      modifies this`pendingLocal, this`trace, pipeline, hold`held, hold`heldBytes
      ensures Valid() && !r.Kept? && hold.pending == old(hold.pending) && old(trace) <= trace
      ensures hold.held ==
        if Replaceable(old(pipeline.Contents()), old(hold.held), decision) then [] else old(hold.held)
      ensures r.Empty? <==> old(hold.held) == []
      ensures r.Released? || r.Empty? ==>
        hold.held == [] && Freed(old(State()), true, old(hold.held), decision) == Some(State().(sent := written))
      ensures r.FlushFailed? ==>
        && ReleaseFails(old(State()), old(hold.held), decision, State(), written, r.error)
        && (decision.KeepHolding? ==> r == FlushFailed(HoldRefused, false))
    {
      hide Serve, Flushed, EmitAll, Traces, RetainedBytes;
      var flushed, out, _ := FlushHold(decision);
      written := out;
      r := if flushed.Kept? then FlushFailed(HoldRefused, false) else flushed;
    }

    /* ---------- client to server ---------- */

    /** Writes the forwarded messages of a committed sequence in order, up to a transport failure. */
    method WriteUpstream(admissions: seq<Admission>) returns (written: seq<FrontendMessage>, failed: bool)
      ensures written <= Outgoing(admissions) && (!failed ==> written == Outgoing(admissions))
    {
      written := [];
      var i := 0;
      while i < |admissions|
        invariant i <= |admissions| && written == Outgoing(admissions[..i])
      {
        assert admissions[..i + 1][..i] == admissions[..i];
        OutgoingPrefix(admissions, i);
        if admissions[i].action.ForwardIt? {
          if * { return written, true; }
          written := written + [admissions[i].action.message];
        }
        i := i + 1;
      }
      assert admissions[..i] == admissions;
      failed := false;
    }

    /** Commits a prepared sequence, or retains it for a retry with nothing changed; when admission
        aborts the process the sequence was already taken and is lost. */
    method ForwardPrepared(prepared: Retained, ghost id: nat) returns (r: Forwarding, written: seq<FrontendMessage>)
      requires Valid() && pendingFrontend.None? && id == pipeline.nextId && prepared.messages != []
      modifies this, pipeline
      ensures Valid() && !r.Held? && pendingLocal == old(pendingLocal) && old(trace) <= trace
      ensures Attempted(prepared, id, old(pipeline.Contents()), pipeline.Contents(), pendingFrontend, shown, written, r)
    {
      hide Traces, RetainedBytes, TotalBytes, PrepareSequence, FrontendEncodable;
      var sequence := pipeline.PrepareFrontendSequence(prepared.messages, Forward);
      if sequence.SequenceRefused? {
        if sequence.failure.Aborted? { return Failed(Panicked), []; }
        pendingFrontend, shown := Some(prepared), id;
        return Failed(FrontendRefused(sequence.failure)), [];
      }
      SequenceFacts(pipeline.Contents(), prepared.messages, Forward);
      TraceSequence(pipeline.limit, trace, pipeline.Contents(), pendingLocal, prepared.messages);
      trace := trace + Asked(prepared.messages);
      pipeline.Become(sequence.pipeline);
      var failed;
      written, failed := WriteUpstream(sequence.admissions);
      r := if failed then Failed(Io) else Done;
    }

    /** Shows a client message to middleware under the next operation id and acts on the decision.
        What is committed at once, forwarded or local, carries that id; what has to wait keeps it. */
    method ProcessFrontend(decision: FrontendDecision) returns (r: Forwarding, w: Writes, ghost operation: nat)
      requires Valid() && pendingFrontend.None?
      modifies this, pipeline
      ensures Valid() && operation == old(pipeline.nextId) && old(trace) <= trace
      ensures pendingFrontend.Some? ==> shown == operation && State() == old(State())
      ensures RequestOutcome(old(State()), operation, decision, State(), pendingFrontend, shown, w, r)
    {
      hide Traces, RetainedBytes, TotalBytes, PrepareSequence, FrontendEncodable, Ledgers.AcceptFrontend, Flushed;
      operation, w := pipeline.nextId, Writes([], []);
      match decision {
        case FrontendFails => r := Failed(Middleware);
        case SuppressFrontend => r := Done;
        case Respond(request, responses) =>
          ghost var before := pipeline.Contents();
          TraceAct(pipeline.limit, trace, before, pendingLocal, AnswerLocally(request, responses));
          var outcome := pipeline.AcceptFrontend(request, Locally);
          if !outcome.Taken? {
            return Failed(if outcome.Aborted? then Panicked else FrontendRefused(outcome)), w, operation;
          }
          LocalIsDiscarded(before, request);
          trace := trace + [AnswerLocally(request, responses)];
          pendingLocal := pendingLocal + [Pending(outcome.admission.action.dropped, responses)];
          var flushed, down := FlushLocalResponses();
          r, w := flushed, Writes(down, []);
        case ForwardOne(m) =>
          var outcome, up := ForwardPrepared(Retained(m, [m]), operation);
          r, w := outcome, Writes([], up);
        case ForwardThenFlush(source, primary, flush) =>
          var outcome, up := ForwardPrepared(Retained(source, [primary, flush]), operation);
          r, w := outcome, Writes([], up);
      }
    }

    /** `forward_frontend`: retries the retained sequence under the id it was shown with, or handles
        the next client message. */
    method ForwardFrontend(received: bool, decision: FrontendDecision)
      returns (r: Forwarding, w: Writes, ghost retried: bool)
      requires Valid()
      modifies this, pipeline
      ensures Valid() && retried == old(pendingFrontend).Some? && old(trace) <= trace
      ensures retried ==>
        && pendingLocal == old(pendingLocal) && w.down == []
        && Attempted(old(pendingFrontend).value, old(shown), old(pipeline.Contents()), pipeline.Contents(),
                     pendingFrontend, shown, w.up, r)
      ensures !retried ==>
        if received then
          RequestOutcome(old(State()), old(pipeline.nextId), decision, State(), pendingFrontend, shown, w, r)
        else State() == old(State()) && pendingFrontend.None? && w == Writes([], []) && r == Failed(Io)
    {
      hide Traces, RetainedBytes, TotalBytes, Attempted, RequestOutcome;
      if pendingFrontend.Some? {
        retried := true;
        var prepared := pendingFrontend.value;
        pendingFrontend := None;
        var outcome, up := ForwardPrepared(prepared, shown);
        r, w := outcome, Writes([], up);
      } else {
        retried := false;
        if !received { return Failed(Io), Writes([], []), false; }
        var outcome, writes, _ := ProcessFrontend(decision);
        r, w := outcome, writes;
      }
    }

    /** `forward_next`: pending work first, then whichever side is ready; with a retained client
        sequence only the server side is served.  `turn` says what the call came to. */
    method ForwardNext(serveClient: bool, received: Option<BackendMessage>, capacity: BatchDecision,
                       barrier: BatchDecision, backend: BackendDecision, frontend: FrontendDecision)
      returns (r: Forwarding, w: Writes, ghost turn: Turn)
      requires Valid()
      modifies this, pipeline, hold
      ensures Valid() && old(trace) <= trace
      ensures old(pendingFrontend).Some? && pendingFrontend.Some? ==>
        pendingFrontend == old(pendingFrontend) && shown == old(shown) && pipeline.nextId == old(pipeline.nextId)
      ensures old(pendingFrontend).Some? && pendingFrontend.None? ==> turn.Retry?
      ensures turn.Source? <==> old(hold.pending).Some?
      ensures turn.Source? ==>
        && w.up == [] && DecisionOutcome(old(State()), backend, State(), w.down, r)
        && hold.held == old(hold.held) + (if backend.Hold? && limits.Some? then [old(hold.pending).value.0] else [])
      ensures !turn.Source? ==>
        var held := HeldAtCapacity(old(pipeline.Contents()), old(IsFull()), old(hold.held), capacity);
        if turn.Server? && received.Some? then
          var freed := Freed(old(State()), old(IsFull()), old(hold.held), capacity);
          freed.Some? && hold.held == HeldBehind(freed.value.ledger, held, received.value, barrier)
            + (if backend.Hold? && limits.Some? && hold.pending.None? then [received.value] else [])
        else hold.held == held
      ensures turn.Room? ==>
        old(IsFull()) && r.Failed? && w.up == []
        && ReleaseFails(old(State()), old(hold.held), capacity, State(), w.down, r.error)
      ensures turn.Retry? || turn.Nothing? || turn.Server? || turn.Client? ==>
        var freed := Freed(old(State()), old(IsFull()), old(hold.held), capacity);
        Follows(freed, w.down) &&
          var at, rest := freed.value.(sent := []), Rest(freed.value, w.down);
          match turn
          case Retry =>
            && old(pendingFrontend).Some? && at.ledger.nextId == old(shown) && pendingLocal == at.queue && rest == []
            && Attempted(old(pendingFrontend).value, old(shown), at.ledger, pipeline.Contents(), pendingFrontend,
                         shown, w.up, r)
          case Server =>
            && received.Some? && w.up == []
            && ResponseOutcome(at, if old(IsFull()) then [] else old(hold.held), received.value, barrier, backend,
                               State(), rest, r)
          case Client =>
            && serveClient && old(pendingFrontend).None?
            && RequestOutcome(at, at.ledger.nextId, frontend, State(), pendingFrontend, shown, Writes(rest, w.up), r)
          case _ => State() == at && rest == [] && w.up == [] && r == Failed(Io)
    {
      hide Traces, RetainedBytes, TotalBytes, PrepareSequence, FrontendEncodable, Freed;
      hide ResponseOutcome, DecisionOutcome, RequestOutcome, ReleaseFails, Replaceable, SpanFirst, HeldBehind, Streamed;
      if hold.pending.Some? {
        var outcome, down, _ := ProcessPendingBackend(backend);
        return outcome, Writes(down, []), Turn.Source;
      }
      var error, first := EnsureRoom(capacity);
      if error.Some? { return Failed(error.value), Writes(first, []), Room; }
      if pendingFrontend.Some? {
        var prepared := pendingFrontend.value;
        pendingFrontend := None;
        var outcome, up := ForwardPrepared(prepared, shown);
        if outcome != Failed(FrontendRefused(AtCapacity)) { return outcome, Writes(first, up), Retry; }
      }
      hide Attempted;
      if pendingFrontend.Some? || !serveClient {
        if received.None? { return Failed(Io), Writes(first, []), Nothing; }
        var outcome, down := ProcessBackend(received.value, barrier, backend);
        assert (first + down)[|first|..] == down;
        return outcome, Writes(first + down, []), Server;
      } else {
        if * { return Failed(Io), Writes(first, []), Nothing; }
        var outcome, writes, _ := ProcessFrontend(frontend);
        assert (first + writes.down)[|first|..] == writes.down;
        return outcome, Writes(first + writes.down, writes.up), Client;
      }
    }
  }

  lemma UnencodableStays(l: Ledger, held: seq<BackendMessage>, messages: seq<BackendMessage>, k: nat)
    requires k < |messages| && !BackendEncodable(messages[k])
    ensures !Replaceable(l, held, ReplaceOneToOne(messages))
  {
    hide BackendEncodable, EmitAll, FirstRefused;
    FirstRefusedEmits(l, messages, BackendEncodable);
  }

  lemma FlushedBehind(l: Ledger, queue: seq<Pending>, before: seq<BackendMessage>, l': Ledger, queue': seq<Pending>,
                      answered: seq<BackendMessage>, r: Forwarding)
    requires Flushed(l, queue, [], l', queue', answered, r)
    ensures Flushed(l, queue, before, l', queue', before + answered, r)
  {
    hide Drain;
    var d, e := Drain(l, queue), Drain(l', queue');
    assert [] + d.sent == d.sent;
    if r == Failed(Io) {
      var lost := d.sent[|answered|];
      assert (before + d.sent)[|before + answered|] == lost;
      assert before + (answered + [lost] + e.sent) == before + answered + [lost] + e.sent;
    }
  }

  lemma NotNeeded(s: Service, needed: bool, held: seq<BackendMessage>, decision: BatchDecision)
    requires !needed || held == []
    ensures Freed(s, needed, held, decision) == Some(s)
  {
  }

  lemma ReleaseStopped(s: Service, held: seq<BackendMessage>, m: BackendMessage, barrier: BatchDecision,
                       decision: BackendDecision, s': Service, written: seq<BackendMessage>, error: Error)
    requires IsBarrier(m) && held != [] && ReleaseFails(s, held, barrier, s', written, error)
    ensures ResponseOutcome(s, held, m, barrier, decision, s', written, Failed(error))
  {
    hide ReleaseFails, IsBarrier, Freed;
  }

  /** Whatever comes of a response that is a barrier to a non-empty hold, the held span is written first. */
  lemma SpanGoesFirst(s: Service, held: seq<BackendMessage>, m: BackendMessage, barrier: BatchDecision,
                      decision: BackendDecision, s': Service, written: seq<BackendMessage>, r: Forwarding)
    requires held != [] && s.sent == [] && !Streamed(m)
    requires ResponseOutcome(s, held, m, barrier, decision, s', written, r)
    ensures SpanFirst(s.ledger, held, barrier, written, r)
  {
    hide EmitAll, Drain, DecisionFails, StaysHeld, Replaceable, Freed, IsBarrier, Streamed, ReleaseFails, Serve;
    BarriersExactly(m);
    var freed := Freed(s, true, held, barrier);
    if r.Failed? && ReleaseFails(s, held, barrier, s', written, r.error) {
      FailedReleaseWrites(s, held, barrier, s', written, r.error);
    } else {
      ReleaseWrites(s, held, barrier);
      if !r.Failed? { ServingAppends(freed.value, Projected(decision), Seen(decision)); }
    }
  }

  /** A successful call emits a ReadyForQuery for the server past a held response exactly when middleware
      makes it out of a streamed response; one that arrived as such leaves nothing held. */
  lemma ReadyWaitsExactly(s: Service, held: seq<BackendMessage>, m: BackendMessage, barrier: BatchDecision,
                          decision: BackendDecision, s': Service, written: seq<BackendMessage>, r: Forwarding)
    requires s.sent == [] && ResponseOutcome(s, held, m, barrier, decision, s', written, r)
    requires !r.Failed? && HasReady(Projected(decision))
    ensures HeldBehind(s.ledger, held, m, barrier) != [] <==> Streamed(m) && held != []
    ensures m.ReadyForQuery? ==> HeldBehind(s.ledger, held, m, barrier) == []
  {
    hide ResponseOutcome, Replaceable, HasReady, Projected;
    if !Streamed(m) && held != [] {
      SpanGoesFirst(s, held, m, barrier, decision, s', written, r);
    }
  }

  /** The input that shows it: a query's RowDescription is held, and the DataRow behind it is replaced by
      ReadyForQuery.  The query is over for the client, and the held response fits nothing any more. */
  lemma HeldRowIsOvertaken(limit: Limit, sql: Bytes, fields: seq<Field>, row: seq<Option<Bytes>>,
                           status: TransactionStatus, barrier: BatchDecision)
    ensures var asked := AcceptFrontend(Ledgers.Empty(limit), FrontendMessage.Query(sql), Forward);
      && asked.Admitted?
      && var held, m, ready := [RowDescription(fields)], DataRow(row), ReadyForQuery(status);
        var after := AcceptResponse(asked.ledger, None, ready).ledger;
        && ResponseOutcome(Service(asked.ledger, [], []), held, m, barrier, ForwardBack(ready), Service(after, [], []),
                           [ready], Done)
        && after.operations == [] && HeldBehind(asked.ledger, held, m, barrier) == held
        && EmitAll(asked.ledger, held).Some? && EmitAll(after, held).None?
  {
    hide AcceptFrontend, AcceptResponse, IsBarrier, Replaceable, EmitAll, Serve, AwaitsQuery, Freed;
    QueryAlone(limit, sql);
    var l := AcceptFrontend(Ledgers.Empty(limit), FrontendMessage.Query(sql), Forward).ledger;
    var held, m, ready := [RowDescription(fields)], DataRow(row), ReadyForQuery(status);
    var after := AcceptResponse(l, None, ready).ledger;
    QueryHears(l, ready);
    QueryHears(l, held[0]);
    NothingToHear(after, held[0]);
    BarriersExactly(m);
    ServedAlone(l, ready);
    EmitOne(l, held[0]);
    EmitOne(after, held[0]);
    NotNeeded(Service(l, [], []), false, held, barrier);
  }

  lemma ServedAlone(l: Ledger, m: BackendMessage)
    requires AcceptResponse(l, None, m).action.Emitted?
    ensures Serve(Service(l, [], []), [m], [m]) == Some(Service(AcceptResponse(l, None, m).ledger, [], [m]))
  {
    hide AcceptResponse, EmitAll;
    EmitOne(l, m);
    assert [] + ([m] + []) == [m];
  }

  /** One forwarded query, answered by nothing yet. */
  predicate AwaitsQuery(l: Ledger) {
    |l.operations| == 1 && l.operations[0].kind == Kind.Query && l.operations[0].origin.Forwarded?
      && !l.operations[0].discarded && l.operations[0].responseState == G.Simple
  }

  lemma QueryAlone(limit: Limit, sql: Bytes)
    ensures var asked := AcceptFrontend(Ledgers.Empty(limit), FrontendMessage.Query(sql), Forward);
      asked.Admitted? && AwaitsQuery(asked.ledger)
  {
  }

  lemma QueryHears(l: Ledger, m: BackendMessage)
    requires AwaitsQuery(l) && (m.RowDescription? || m.ReadyForQuery?)
    ensures AcceptResponse(l, None, m).action.Emitted?
    ensures m.ReadyForQuery? ==> AcceptResponse(l, None, m).ledger.operations == []
  {
  }

  lemma NothingToHear(l: Ledger, m: BackendMessage)
    requires l.operations == [] && m.RowDescription?
    ensures !AcceptResponse(l, None, m).action.Emitted?
  {
  }

  lemma EmitOne(l: Ledger, m: BackendMessage)
    ensures var a := AcceptResponse(l, None, m); EmitAll(l, [m]) == if a.action.Emitted? then Some(a.ledger) else None
  {
    hide AcceptResponse;
    NothingEmitted(l);
    EmitSnoc(l, [], m);
    assert [] + [m] == [m];
  }

  lemma ReleaseWrites(s: Service, held: seq<BackendMessage>, barrier: BatchDecision)
    requires held != [] && s.sent == [] && Freed(s, true, held, barrier).Some?
    ensures Replaceable(s.ledger, held, barrier) && |barrier.messages| == |held|
      && barrier.messages <= Freed(s, true, held, barrier).value.sent
  {
    hide EmitAll, Drain, FirstRefused;
  }

  lemma FailedReleaseWrites(s: Service, held: seq<BackendMessage>, barrier: BatchDecision, s': Service,
                            written: seq<BackendMessage>, error: Error)
    requires ReleaseFails(s, held, barrier, s', written, error)
    ensures SpanFirst(s.ledger, held, barrier, written, Failed(error))
  {
    hide EmitAll, Drain, FirstRefused, StaysHeld;
    if written != [] {
      var d := Drain(EmitAll(s.ledger, held).value, s.queue);
      assert written <= barrier.messages + d.sent;
    }
  }

  lemma ServingAppends(s: Service, projected: seq<BackendMessage>, seen: seq<BackendMessage>)
    requires Serve(s, projected, seen).Some?
    ensures s.sent <= Serve(s, projected, seen).value.sent
  {
    hide EmitAll, Drain;
  }

  /** The decision about a response, behind the release its arrival asked for. */
  lemma DecidedBehind(s: Service, held: seq<BackendMessage>, m: BackendMessage, barrier: BatchDecision,
                      decision: BackendDecision, freed: Service, s': Service, sent: seq<BackendMessage>, r: Forwarding)
    requires Freed(s, IsBarrier(m), held, barrier) == Some(freed) && s'.sent == []
    requires DecisionOutcome(freed.(sent := []), decision, s', sent, r)
    ensures ResponseOutcome(s, held, m, barrier, decision, s', freed.sent + sent, r)
  {
    hide Freed, DecisionFails, ReleaseFails, Serve, IsBarrier, Projected, Seen;
    if r.Failed? {
      assert (freed.sent + sent)[|freed.sent|..] == sent;
    } else {
      ServedBehind(freed.(sent := []), freed.sent, Projected(decision), Seen(decision));
      assert s'.(sent := freed.sent + sent) == s'.(sent := sent).(sent := freed.sent + sent);
    }
  }

  lemma ServedBehind(s: Service, sent: seq<BackendMessage>, projected: seq<BackendMessage>, seen: seq<BackendMessage>)
    requires Serve(s, projected, seen).Some? && s.sent == []
    ensures Serve(s.(sent := sent), projected, seen) ==
      Some(Serve(s, projected, seen).value.(sent := sent + Serve(s, projected, seen).value.sent))
  {
    hide EmitAll, Drain;
    var d := Drain(EmitAll(s.ledger, projected).value, s.queue);
    assert [] + (seen + d.sent) == seen + d.sent;
  }

  /** So at every moment the driver's ledger is ordered, live at its head and conserving, and its local
      queue is in operation order. */
  lemma DriverLedgerIsSound(c: Connection)
    requires c.Valid() && c.pipeline.nextId < U64_MAX
    ensures var h := H.Replay(H.Start(c.pipeline.limit), StepsOf(NewDriver(c.pipeline.limit), c.trace));
      h.ledger == c.pipeline.Contents() && H.Inv(h)
    ensures QueueOrdered(c.pendingLocal, c.pipeline.nextId)
  {
    hide RetainedBytes, TotalBytes;
    var d := NewDriver(c.pipeline.limit);
    DriverRunsTheLedger(H.Start(c.pipeline.limit), d, c.trace);
    RunsKeepOrder(d, c.trace);
    H.IdsCountRequests(H.Start(c.pipeline.limit), StepsOf(d, c.trace));
    H.RunsKeepInv(H.Start(c.pipeline.limit), StepsOf(d, c.trace));
  }

  /** And its hold is bounded: without limits nothing is held; with them never more messages than
      allowed, and fewer bytes than allowed plus those of the newest message. */
  lemma HoldIsBounded(c: Connection)
    requires c.Valid()
    ensures match c.limits
      case None => c.hold.held == []
      case Some(l) =>
        && |c.hold.held| <= l.maxMessages
        && (c.hold.held != [] ==>
              TotalBytes(c.hold.held, |c.hold.held|) < l.maxBytes + RetainedBytes(c.hold.held[|c.hold.held| - 1]))
  {
    hide RetainedBytes, Traces;
  }

  /** A driver that once was stuck is stuck at every later moment. */
  lemma StuckDriversStayStuck(limit: Limit, before: seq<Action>, after: seq<Action>)
    requires before <= after && Run(NewDriver(limit), after).ledger.nextId < U64_MAX
      && Stuck(Run(NewDriver(limit), before))
    ensures var was, now := Run(NewDriver(limit), before), Run(NewDriver(limit), after);
      Stuck(now) && now.ledger.operations[0].id == was.ledger.operations[0].id
  {
    hide Stuck, Run;
    assert after == before + after[|before|..];
    RunConcat(NewDriver(limit), before, after[|before|..]);
    StuckForever(Run(NewDriver(limit), before), after[|before|..]);
  }

  /** A sequence that is admitted keeps the limit, and its first message takes the next id. */
  lemma {:induction false} SequenceFacts(l: Ledger, ms: seq<FrontendMessage>, handling: Handling)
    requires PrepareSequence(l, ms, handling, FrontendEncodable).AllAdmitted?
    ensures var r := PrepareSequence(l, ms, handling, FrontendEncodable);
      && r.ledger.limit == l.limit
      && (ms != [] ==> r.admissions != [] && ActionId(r.admissions[0].action) == l.nextId)
    decreases ms
  {
    if ms != [] { SequenceFacts(AcceptFrontend(l, ms[0], handling).ledger, ms[1..], handling); }
  }

  /** A locally handled message is never forwarded, so the source's `unreachable!` is just that. */
  lemma LocalIsDiscarded(l: Ledger, m: FrontendMessage)
    requires AcceptFrontend(l, m, Locally).Admitted?
    ensures AcceptFrontend(l, m, Locally).admission.action == DiscardIt(l.nextId)
  {
  }
}
