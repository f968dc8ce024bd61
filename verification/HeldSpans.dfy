/** Attribution behind a held span: middleware is shown an operation for every source while the ledger
    has not moved yet, and here is when it is the one the source will go out for. */
module HeldSpans {
  import opened Messages
  import opened Ledgers
  import opened Shape
  import opened Histories
  import opened CalmLedgers
  import opened Confluence
  import opened LocalErrors
  import opened Batches
  import opened Verdicts
  import G = ServerGrammar

  /** `l'` holds what is left of `l` behind its first `k` operations; discards only grow. */
  predicate Trails(l: Ledger, l': Ledger, k: nat) {
    && |l'.operations| + k == |l.operations| && l'.nextId == l.nextId
    && forall i :: 0 <= i < |l'.operations| ==>
         && l'.operations[i].id == l.operations[i + k].id && l'.operations[i].kind == l.operations[i + k].kind
         && l'.operations[i].origin == l.operations[i + k].origin
         && (l.operations[i + k].discarded ==> l'.operations[i].discarded)
  }

  lemma KeptTrails(l: Ledger, l': Ledger, k: nat, n: nat)
    requires KeepsFrom(l, l', k, n)
    ensures Trails(l, l', k)
  {
  }

  lemma AdvancedTrails(l: Ledger, l': Ledger, t: G.State)
    requires l.operations != [] && l'.nextId == l.nextId
    requires l'.operations == l.operations[0 := l.operations[0].(responseState := t)]
    ensures Trails(l, l', 0)
  {
  }

  lemma EmissionTrails(l: Ledger, m: BackendMessage) returns (k: nat)
    requires Shaped(l) && l.operations != [] && ResponseFits(l.operations[0], m)
    ensures Trails(l, CommitResponse(l, m), k)
  {
    hide CommitResponse, Trails, KeepsFrom, DiscardToSync, LiveFrom, SyncFrom, Ends;
    LocalErrors.EmissionKeepsIds(l, m);
    if ResponseIsTerminal(l.operations[0].kind, m) {
      CompletionEnds(l, m);
      EndKeeps(l, m.ErrorResponse?, CommitResponse(l, m));
      var tail := l.operations[1..];
      var ops := if m.ErrorResponse? then DiscardToSync(tail) else tail;
      var n := if m.ErrorResponse? then SyncFrom(tail, 0) + 1 else 0;
      k := LiveFrom(ops, 0) + 1;
      KeptTrails(l, CommitResponse(l, m), k, n);
    } else {
      AdvancingTheHead(l, m);
      AdvancedTrails(l, CommitResponse(l, m), G.Send(l.operations[0].responseState, m).value);
      k := 0;
    }
  }

  lemma TrailsFurther(l: Ledger, l1: Ledger, l2: Ledger, j: nat, k: nat)
    requires Trails(l, l1, j) && Trails(l1, l2, k)
    ensures Trails(l, l2, j + k)
  {
  }

  lemma {:induction false} SpanTrails(l: Ledger, ms: seq<BackendMessage>) returns (k: nat)
    requires Shaped(l) && EmitAll(l, ms).Some?
    ensures Trails(l, EmitAll(l, ms).value, k) && Shaped(EmitAll(l, ms).value)
    decreases ms
  {
    hide EmitAll, PrepareResponse, CommitResponse, Trails, Shaped, ResponseFits, IsAsynchronous;
    EmitStep(l, ms);
    if ms == [] {
      TrailsItself(l);
      return 0;
    }
    if IsAsynchronous(ms[0]) {
      k := SpanTrails(l, ms[1..]);
    } else {
      var i := EmissionTrails(l, ms[0]);
      EmittingKeepsShape(l, ms[0]);
      var j := SpanTrails(CommitResponse(l, ms[0]), ms[1..]);
      TrailsFurther(l, CommitResponse(l, ms[0]), EmitAll(l, ms).value, i, j);
      k := i + j;
    }
  }

  lemma TrailsItself(l: Ledger)
    ensures Trails(l, l, 0)
  {
  }

  lemma EmitStep(l: Ledger, ms: seq<BackendMessage>)
    requires EmitAll(l, ms).Some?
    ensures ms == [] ==> EmitAll(l, ms).value == l
    ensures ms != [] && IsAsynchronous(ms[0]) ==> EmitAll(l, ms[1..]) == EmitAll(l, ms)
    ensures ms != [] && !IsAsynchronous(ms[0]) ==>
      && l.operations != [] && ResponseFits(l.operations[0], ms[0])
      && EmitAll(CommitResponse(l, ms[0]), ms[1..]) == EmitAll(l, ms)
  {
    hide CommitResponse;
  }

  /** Once the held span is released the source goes out for the operation at position `p`; it is shown
      that operation if and only if the operation could take it already and none before it claims it. */
  lemma HeldAttributionExactly(l: Ledger, held: seq<BackendMessage>, m: BackendMessage)
    requires Shaped(l) && Window(l) && EmitAll(l, held).Some? && PrepareResponse(EmitAll(l, held).value, None, m).Emit?
    ensures var l', p := EmitAll(l, held).value, |l.operations| - |EmitAll(l, held).value.operations|;
      && 0 <= p < |l.operations| && l'.operations != [] && l.operations[p].id == l'.operations[0].id
      && (BackendOperationId(l, m) == Some(l'.operations[0].id) <==>
            TakesIt(l.operations[p], m) && forall j :: 0 <= j < p ==> !Claims(l.operations[j], m))
  {
    hide EmitAll, PrepareResponse, BackendOperationId, Shaped, Window, Trails, Attributed, TakesIt, Claims;
    var l' := EmitAll(l, held).value;
    var p := SpanTrails(l, held);
    EmittedFacts(l', m);
    TrailingHead(l, l', p);
    AttributionExactly(l, m, Some(l'.operations[0].id));
    OneClaim(l, m, p);
  }

  lemma EmittedFacts(l: Ledger, m: BackendMessage)
    requires PrepareResponse(l, None, m).Emit?
    ensures l.operations != [] && l.operations[0].origin.Forwarded? && !l.operations[0].discarded && !Unsolicited(m)
  {
    VerdictsExactly(l, None, m, PreparedResponse.Emit);
  }

  lemma TrailingHead(l: Ledger, l': Ledger, p: nat)
    requires Trails(l, l', p) && l'.operations != []
    ensures p == |l.operations| - |l'.operations| < |l.operations|
    ensures l.operations[p].id == l'.operations[0].id && l.operations[p].origin == l'.operations[0].origin
    ensures l.operations[p].discarded ==> l'.operations[0].discarded
  {
  }

  lemma OneClaim(l: Ledger, m: BackendMessage, p: nat)
    requires Window(l) && p < |l.operations| && l.operations[p].origin.Forwarded? && !l.operations[p].discarded
    requires !Unsolicited(m)
    ensures Attributed(l, m, Some(l.operations[p].id)) <==>
      TakesIt(l.operations[p], m) && forall j :: 0 <= j < p ==> !Claims(l.operations[j], m)
  {
    assert FirstToClaim(l.operations, m, p) <==>
      TakesIt(l.operations[p], m) && forall j :: 0 <= j < p ==> !Claims(l.operations[j], m);
    forall k | FirstToClaim(l.operations, m, k) && l.operations[k].id == l.operations[p].id ensures k == p {
      SameId(l, k, p);
    }
    hide TakesIt, Claims, Window, Unsolicited;
  }

  lemma SameId(l: Ledger, j: nat, k: nat)
    requires Window(l) && j < |l.operations| && k < |l.operations| && l.operations[j].id == l.operations[k].id
    ensures j == k
  {
  }

  /** COPY OUT data behind a held CopyOutResponse is the case that fails: it will go out for the Execute
      at the head, but nothing outstanding claims it yet, so middleware is shown no operation. */
  lemma HeldCopyOutIsUnattributed(l: Ledger, out: BackendMessage, data: BackendMessage)
    requires Shaped(l) && l.operations != [] && l.operations[0].origin.Forwarded?
    requires l.operations[0].responseState == G.ExecuteResponse && out.CopyOutResponse? && data.CopyData?
    ensures EmitAll(l, [out]).Some? && PrepareResponse(EmitAll(l, [out]).value, None, data).Emit?
    ensures BackendOperationId(l, data) == None
  {
    CopyOutOpens(l, out, data);
    var l' := CommitResponse(l, out);
    VerdictsExactly(l, None, out, PreparedResponse.Emit);
    VerdictsExactly(l', None, data, PreparedResponse.Emit);
    hide CommitResponse, PrepareResponse, Shaped, BackendOperationId;
    assert [out][1..] == [] && EmitAll(l', []) == Some(l');
    NothingClaimsData(l, data);
    AttributionExactly(l, data, None);
  }

  lemma CopyOutOpens(l: Ledger, out: BackendMessage, data: BackendMessage)
    requires Shaped(l) && l.operations != [] && l.operations[0].origin.Forwarded?
    requires l.operations[0].responseState == G.ExecuteResponse && out.CopyOutResponse? && data.CopyData?
    ensures ResponseFits(l.operations[0], out) && !l.operations[0].discarded
    ensures var ops := CommitResponse(l, out).operations;
      ops != [] && ops[0] == l.operations[0].(responseState := G.ExtendedCopyOut) && TakesIt(ops[0], data)
  {
    AdvancingTheHead(l, out);
  }

  lemma NothingClaimsData(l: Ledger, data: BackendMessage)
    requires Shaped(l) && l.operations != [] && l.operations[0].responseState == G.ExecuteResponse && data.CopyData?
    ensures forall k :: 0 <= k < |l.operations| ==> !Claims(l.operations[k], data)
  {
    forall k | 0 <= k < |l.operations| ensures !Claims(l.operations[k], data) {
      FreshTakesNoData(l.operations[k].kind, data);
    }
  }

  lemma FreshTakesNoData(k: Kind, data: BackendMessage)
    requires data.CopyData?
    ensures G.Send(InitialResponseState(k), data).None?
  {
  }
}
