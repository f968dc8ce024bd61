/** Generation-tagged statements and portals (src/resources.rs:179-460, 831-854). */
module Resources {
  import opened Messages

  /** One namespace: the live upstream names, and what each client name was rewritten to. */
  datatype Space = Space(live: map<Bytes, nat>, names: map<Bytes, (Bytes, nat)>)

  /** What a caller holds: a name with the generation it was allocated under. */
  datatype Token = Token(clientName: Bytes, upstream: Bytes, generation: nat)

  datatype Scope = Scope(statements: Space, portals: Space, nextGeneration: nat)

  const EMPTY := Scope(Space(map[], map[]), Space(map[], map[]), 0)

  predicate Live(s: Space, t: Token) {
    t.upstream in s.live && s.live[t.upstream] == t.generation
  }

  /** A name in use; the unnamed resource may always be replaced. */
  predicate Collides(s: Space, client: Bytes, upstream: Bytes) {
    (upstream != [] && upstream in s.live) || (client != [] && client in s.names)
  }

  function Insert(s: Space, client: Bytes, upstream: Bytes, g: nat): Space {
    Space(s.live[upstream := g], s.names[client := (upstream, g)])
  }

  function Remove(s: Space, t: Token): Space {
    Space(s.live - {t.upstream},
          map c | c in s.names && (s.names[c].0 != t.upstream || s.names[c].1 != t.generation) :: s.names[c])
  }

  /** A boundary destroys the unnamed resource and every client name that stood for it. */
  function DropUnnamed(s: Space): Space {
    Space(s.live - {[]}, map c | c in s.names && s.names[c].0 != [] :: s.names[c])
  }

  function Resolve(s: Space, client: Bytes): Option<Token> {
    if client in s.names then Some(Token(client, s.names[client].0, s.names[client].1)) else None
  }

  datatype Event =
    | Prepare(client: Bytes, upstream: Bytes)
    | Bind(statement: Token, portalClient: Bytes, portalUpstream: Bytes)
    | CloseStatement(closedStatement: Token)
    | ClosePortal(closedPortal: Token)
    | QueryBoundary
    | TransactionEnd

  /** Whether the call succeeds; a call that does not succeed changes nothing. */
  predicate Succeeds(s: Scope, e: Event) {
    match e
    case Prepare(client, upstream) => !Collides(s.statements, client, upstream)
    case Bind(statement, client, upstream) => Live(s.statements, statement) && !Collides(s.portals, client, upstream)
    case CloseStatement(t) => Live(s.statements, t)
    case ClosePortal(t) => Live(s.portals, t)
    case _ => true
  }

  function Apply(s: Scope, e: Event): Scope {
    if !Succeeds(s, e) then s
    else match e
      case Prepare(client, upstream) =>
        s.(statements := Insert(s.statements, client, upstream, s.nextGeneration),
           nextGeneration := SaturatingSucc(s.nextGeneration))
      case Bind(_, client, upstream) =>
        s.(portals := Insert(s.portals, client, upstream, s.nextGeneration),
           nextGeneration := SaturatingSucc(s.nextGeneration))
      case CloseStatement(t) => s.(statements := Remove(s.statements, t))
      case ClosePortal(t) => s.(portals := Remove(s.portals, t))
      case QueryBoundary => s.(statements := DropUnnamed(s.statements))
      case TransactionEnd => s.(portals := DropUnnamed(s.portals))
  }

  function Run(s: Scope, events: seq<Event>): Scope
    decreases events
  {
    if events == [] then s else Run(Apply(s, events[0]), events[1..])
  }

  /* ---------- tokens never revive ---------- */

  predicate Older(s: Space, g: nat) {
    forall u :: u in s.live ==> s.live[u] < g
  }

  /** Every live generation was allocated, and the counter has not saturated. */
  predicate Allocated(s: Scope) {
    Older(s.statements, s.nextGeneration) && Older(s.portals, s.nextGeneration) && s.nextGeneration < U64_MAX
  }

  function In(s: Scope, statement: bool): Space {
    if statement then s.statements else s.portals
  }

  lemma GenerationsGrow(s: Scope, e: Event)
    ensures s.nextGeneration <= Apply(s, e).nextGeneration
  {
  }

  lemma {:induction false} RunsGrow(s: Scope, events: seq<Event>)
    ensures s.nextGeneration <= Run(s, events).nextGeneration
    decreases events
  {
    if events != [] {
      GenerationsGrow(s, events[0]);
      RunsGrow(Apply(s, events[0]), events[1..]);
    }
  }

  lemma StepKeepsAllocated(s: Scope, e: Event)
    requires Allocated(s) && Apply(s, e).nextGeneration < U64_MAX
    ensures Allocated(Apply(s, e))
  {
  }

  lemma StepDoesNotRevive(s: Scope, e: Event, statement: bool, t: Token)
    requires Allocated(s) && t.generation < s.nextGeneration && !Live(In(s, statement), t)
    ensures !Live(In(Apply(s, e), statement), t)
  {
  }

  /** A statement or portal token that was allocated and is not live is never live again. */
  lemma {:induction false} TokensNeverRevive(s: Scope, events: seq<Event>, statement: bool, t: Token)
    requires Allocated(s) && t.generation < s.nextGeneration && !Live(In(s, statement), t)
    requires Run(s, events).nextGeneration < U64_MAX
    ensures !Live(In(Run(s, events), statement), t)
    decreases events
  {
    if events != [] {
      RunsGrow(Apply(s, events[0]), events[1..]);
      StepKeepsAllocated(s, events[0]);
      StepDoesNotRevive(s, events[0], statement, t);
      GenerationsGrow(s, events[0]);
      TokensNeverRevive(Apply(s, events[0]), events[1..], statement, t);
    }
  }

  lemma {:induction false} RunsKeepAllocated(s: Scope, events: seq<Event>)
    requires Allocated(s) && Run(s, events).nextGeneration < U64_MAX
    ensures Allocated(Run(s, events))
    decreases events
  {
    if events != [] {
      RunsGrow(Apply(s, events[0]), events[1..]);
      StepKeepsAllocated(s, events[0]);
      RunsKeepAllocated(Apply(s, events[0]), events[1..]);
    }
  }

  lemma {:induction false} RunConcat(s: Scope, a: seq<Event>, b: seq<Event>)
    ensures Run(s, a + b) == Run(Run(s, a), b)
    decreases a
  {
    if a == [] {
      assert a + b == b;
    } else {
      assert (a + b)[1..] == a[1..] + b;
      RunConcat(Apply(s, a[0]), a[1..], b);
    }
  }

  /** Over whole runs: live, then not live, means never live again. */
  lemma DeadStaysDead(before: seq<Event>, between: seq<Event>, after: seq<Event>, statement: bool, t: Token)
    requires Run(EMPTY, before + between + after).nextGeneration < U64_MAX
    requires Live(In(Run(EMPTY, before), statement), t) && !Live(In(Run(EMPTY, before + between), statement), t)
    ensures !Live(In(Run(EMPTY, before + between + after), statement), t)
  {
    RunConcat(EMPTY, before, between);
    RunConcat(EMPTY, before + between, after);
    var s0 := Run(EMPTY, before);
    var s1 := Run(s0, between);
    RunsGrow(s1, after);
    RunsGrow(s0, between);
    RunsKeepAllocated(EMPTY, before);
    RunsKeepAllocated(s0, between);
    assert t.generation < s0.nextGeneration;
    TokensNeverRevive(s1, after, statement, t);
  }

  /** What each event does to liveness, exactly: a success makes its own token live and ends the life
      of what held its upstream name, a close ends one name, a boundary ends the unnamed resource of
      its own namespace, and nothing else changes. */
  lemma LifeAfter(s: Scope, e: Event, statement: bool, t: Token)
    requires Succeeds(s, e)
    ensures Live(In(Apply(s, e), statement), t) <==>
      match e
      case Prepare(_, upstream) =>
        if statement && t.upstream == upstream then t.generation == s.nextGeneration else Live(In(s, statement), t)
      case Bind(_, _, upstream) =>
        if !statement && t.upstream == upstream then t.generation == s.nextGeneration else Live(In(s, statement), t)
      case CloseStatement(c) => Live(In(s, statement), t) && !(statement && t.upstream == c.upstream)
      case ClosePortal(c) => Live(In(s, statement), t) && !(!statement && t.upstream == c.upstream)
      case QueryBoundary => Live(In(s, statement), t) && !(statement && t.upstream == [])
      case TransactionEnd => Live(In(s, statement), t) && !(!statement && t.upstream == [])
  {
  }

  /* ---------- exactly when a call takes effect ---------- */

  /** Success, name by name: a new name is unnamed or not in use, and a token that is bound or closed is
      the one its upstream name is live under. */
  lemma SuccessExactly(s: Scope, e: Event)
    ensures Succeeds(s, e) <==>
      match e
      case Prepare(client, upstream) =>
        && (upstream == [] || upstream !in s.statements.live)
        && (client == [] || client !in s.statements.names)
      case Bind(t, client, upstream) =>
        && t.upstream in s.statements.live && s.statements.live[t.upstream] == t.generation
        && (upstream == [] || upstream !in s.portals.live)
        && (client == [] || client !in s.portals.names)
      case CloseStatement(t) => t.upstream in s.statements.live && s.statements.live[t.upstream] == t.generation
      case ClosePortal(t) => t.upstream in s.portals.live && s.portals.live[t.upstream] == t.generation
      case QueryBoundary => true
      case TransactionEnd => true
    ensures !Succeeds(s, e) ==> Apply(s, e) == s
    ensures Apply(s, e).nextGeneration ==
      if (e.Prepare? || e.Bind?) && Succeeds(s, e) && s.nextGeneration < U64_MAX then s.nextGeneration + 1
      else s.nextGeneration
  {
  }

  /** A statement that is not live cannot be bound: the attempt changes nothing. */
  lemma DeadStatementsDoNotBind(s: Scope, t: Token, client: Bytes, upstream: Bytes)
    requires !Live(s.statements, t)
    ensures Apply(s, Event.Bind(t, client, upstream)) == s
  {
    SuccessExactly(s, Event.Bind(t, client, upstream));
  }

  /** Over whole runs: once a statement was live and is not, no later Bind with its token changes the
      scope, and neither does closing it again. */
  lemma DeadStatementsNeverBind(before: seq<Event>, between: seq<Event>, after: seq<Event>, t: Token,
                                client: Bytes, upstream: Bytes)
    requires Run(EMPTY, before + between + after).nextGeneration < U64_MAX
    requires Live(Run(EMPTY, before).statements, t) && !Live(Run(EMPTY, before + between).statements, t)
    ensures var s := Run(EMPTY, before + between + after);
      Apply(s, Event.Bind(t, client, upstream)) == s && Apply(s, CloseStatement(t)) == s
  {
    DeadStaysDead(before, between, after, true, t);
    DeadStatementsDoNotBind(Run(EMPTY, before + between + after), t, client, upstream);
  }

  /** What each event does to client names, exactly: a success makes its own name stand for the new
      resource, a close forgets the names of the closed resource, a boundary those of the unnamed one. */
  lemma NamesAfter(s: Scope, e: Event, statement: bool, client: Bytes)
    requires Succeeds(s, e)
    ensures var was := Resolve(In(s, statement), client);
      Resolve(In(Apply(s, e), statement), client) ==
      match e
      case Prepare(c, upstream) =>
        if statement && client == c then Some(Token(c, upstream, s.nextGeneration)) else was
      case Bind(_, c, upstream) =>
        if !statement && client == c then Some(Token(c, upstream, s.nextGeneration)) else was
      case CloseStatement(t) =>
        if statement && was.Some? && was.value.upstream == t.upstream && was.value.generation == t.generation then None
        else was
      case ClosePortal(t) =>
        if !statement && was.Some? && was.value.upstream == t.upstream && was.value.generation == t.generation then None
        else was
      case QueryBoundary => if statement && was.Some? && was.value.upstream == [] then None else was
      case TransactionEnd => if !statement && was.Some? && was.value.upstream == [] then None else was
  {
  }

  /* ---------- name resolution ---------- */

  /** A client name that stands for a named resource stands for a live one. */
  predicate Resolves(s: Space) {
    forall c :: c in s.names ==> s.names[c].0 != [] ==> s.names[c].0 in s.live && s.live[s.names[c].0] == s.names[c].1
  }

  lemma InsertResolves(s: Space, client: Bytes, upstream: Bytes, g: nat)
    requires Resolves(s) && !Collides(s, client, upstream)
    ensures Resolves(Insert(s, client, upstream, g))
  {
  }

  lemma RemoveResolves(s: Space, t: Token)
    requires Resolves(s) && Live(s, t)
    ensures Resolves(Remove(s, t))
  {
  }

  lemma DropResolves(s: Space)
    requires Resolves(s)
    ensures Resolves(DropUnnamed(s))
  {
  }

  lemma StepResolves(s: Scope, e: Event)
    requires Resolves(s.statements) && Resolves(s.portals)
    ensures Resolves(Apply(s, e).statements) && Resolves(Apply(s, e).portals)
  {
    if Succeeds(s, e) {
      match e
      case Prepare(client, upstream) => InsertResolves(s.statements, client, upstream, s.nextGeneration);
      case Bind(_, client, upstream) => InsertResolves(s.portals, client, upstream, s.nextGeneration);
      case CloseStatement(t) => RemoveResolves(s.statements, t);
      case ClosePortal(t) => RemoveResolves(s.portals, t);
      case QueryBoundary => DropResolves(s.statements);
      case TransactionEnd => DropResolves(s.portals);
    }
  }

  /** After every run, resolving a client name to a named upstream resource yields a live token. */
  lemma {:induction false} NamesResolveToLive(s: Scope, events: seq<Event>, statement: bool, client: Bytes)
    requires Resolves(s.statements) && Resolves(s.portals)
    ensures var t := Resolve(In(Run(s, events), statement), client);
      t.Some? && t.value.upstream != [] ==> Live(In(Run(s, events), statement), t.value)
    decreases events
  {
    if events != [] {
      StepResolves(s, events[0]);
      NamesResolveToLive(Apply(s, events[0]), events[1..], statement, client);
    }
  }

  /* ---------- exactly when names and resources correspond ---------- */

  /** Client names and live resources correspond one to one, whatever the names. */
  ghost predicate OneToOne(s: Space) {
    && (forall c :: c in s.names ==> s.names[c].0 in s.live && s.live[s.names[c].0] == s.names[c].1)
    && (forall c, d :: c in s.names && d in s.names && s.names[c].0 == s.names[d].0 ==> c == d)
    && (forall u :: u in s.live ==> exists c :: c in s.names && s.names[c].0 == u)
  }

  /** The live unnamed resource is replaced only through the unnamed client name standing for it, and
      the unnamed client name is moved only within the resource it stands for. */
  predicate ReplacesItself(s: Space, client: Bytes, upstream: Bytes) {
    && (upstream == [] && [] in s.live ==> client == [] && [] in s.names && s.names[[]].0 == [])
    && (client == [] && [] in s.names ==> s.names[[]].0 == upstream)
  }

  lemma InsertKeepsOneToOne(s: Space, client: Bytes, upstream: Bytes, g: nat)
    requires OneToOne(s) && !Collides(s, client, upstream) && ReplacesItself(s, client, upstream)
    ensures OneToOne(Insert(s, client, upstream, g))
  {
    var s' := Insert(s, client, upstream, g);
    forall u | u in s'.live ensures exists c :: c in s'.names && s'.names[c].0 == u {
      if u == upstream {
        assert client in s'.names;
      } else {
        var c :| c in s.names && s.names[c].0 == u;
        assert c in s'.names && s'.names[c].0 == u;
      }
    }
  }

  lemma InsertBreaksOneToOne(s: Space, client: Bytes, upstream: Bytes, g: nat)
    requires OneToOne(s) && Older(s, g) && !Collides(s, client, upstream) && !ReplacesItself(s, client, upstream)
    ensures !OneToOne(Insert(s, client, upstream, g))
  {
    var s' := Insert(s, client, upstream, g);
    if client == [] && [] in s.names && s.names[[]].0 != upstream {
      var u := s.names[[]].0;
      assert u in s'.live;
    } else {
      var c :| c in s.names && s.names[c].0 == [];
      assert c in s'.names;
    }
  }

  lemma RemoveKeepsOneToOne(s: Space, t: Token)
    requires OneToOne(s) && Live(s, t)
    ensures OneToOne(Remove(s, t))
  {
    var s' := Remove(s, t);
    forall u | u in s'.live ensures exists c :: c in s'.names && s'.names[c].0 == u {
      var c :| c in s.names && s.names[c].0 == u;
      assert c in s'.names && s'.names[c].0 == u;
    }
  }

  lemma DropKeepsOneToOne(s: Space)
    requires OneToOne(s)
    ensures OneToOne(DropUnnamed(s))
  {
    var s' := DropUnnamed(s);
    forall u | u in s'.live ensures exists c :: c in s'.names && s'.names[c].0 == u {
      var c :| c in s.names && s.names[c].0 == u;
      assert c in s'.names && s'.names[c].0 == u;
    }
  }

  /** A call that fails, closes or ends something is harmless; an insertion must replace itself. */
  predicate Harmless(s: Scope, e: Event) {
    Succeeds(s, e) ==>
      match e
      case Prepare(client, upstream) => ReplacesItself(s.statements, client, upstream)
      case Bind(_, client, upstream) => ReplacesItself(s.portals, client, upstream)
      case _ => true
  }

  ghost predicate BothOneToOne(s: Scope) {
    OneToOne(s.statements) && OneToOne(s.portals)
  }

  /** One call keeps the correspondence if and only if it is harmless. */
  lemma OneToOneExactly(s: Scope, e: Event)
    requires BothOneToOne(s) && Allocated(s)
    ensures BothOneToOne(Apply(s, e)) <==> Harmless(s, e)
  {
    hide OneToOne, ReplacesItself, Older;
    if Succeeds(s, e) {
      match e
      case Prepare(client, upstream) => InsertOneToOne(s.statements, client, upstream, s.nextGeneration);
      case Bind(_, client, upstream) => InsertOneToOne(s.portals, client, upstream, s.nextGeneration);
      case CloseStatement(t) => RemoveKeepsOneToOne(s.statements, t);
      case ClosePortal(t) => RemoveKeepsOneToOne(s.portals, t);
      case QueryBoundary => DropKeepsOneToOne(s.statements);
      case TransactionEnd => DropKeepsOneToOne(s.portals);
    }
  }

  lemma InsertOneToOne(s: Space, client: Bytes, upstream: Bytes, g: nat)
    requires OneToOne(s) && Older(s, g) && !Collides(s, client, upstream)
    ensures OneToOne(Insert(s, client, upstream, g)) <==> ReplacesItself(s, client, upstream)
  {
    hide *;
    if ReplacesItself(s, client, upstream) {
      InsertKeepsOneToOne(s, client, upstream, g);
    } else {
      InsertBreaksOneToOne(s, client, upstream, g);
    }
  }

  /** At every moment of the run. */
  ghost predicate AlwaysOneToOne(s: Scope, events: seq<Event>)
    decreases events
  {
    BothOneToOne(s) && (events != [] ==> AlwaysOneToOne(Apply(s, events[0]), events[1..]))
  }

  predicate AllHarmless(s: Scope, events: seq<Event>)
    decreases events
  {
    events != [] ==> Harmless(s, events[0]) && AllHarmless(Apply(s, events[0]), events[1..])
  }

  /** Over whole runs: the correspondence holds throughout if and only if every call is harmless. */
  lemma {:induction false} NamesCorrespondExactly(s: Scope, events: seq<Event>)
    requires BothOneToOne(s) && Allocated(s) && Run(s, events).nextGeneration < U64_MAX
    ensures AlwaysOneToOne(s, events) <==> AllHarmless(s, events)
    decreases events
  {
    hide BothOneToOne, Harmless, Apply, Allocated;
    if events != [] {
      OneToOneExactly(s, events[0]);
      if Harmless(s, events[0]) {
        RunsGrow(Apply(s, events[0]), events[1..]);
        StepKeepsAllocated(s, events[0]);
        NamesCorrespondExactly(Apply(s, events[0]), events[1..]);
      } else {
        NotThroughout(Apply(s, events[0]), events[1..]);
      }
    }
  }

  lemma NotThroughout(s: Scope, events: seq<Event>)
    requires !BothOneToOne(s)
    ensures !AlwaysOneToOne(s, events)
  {
  }

  /* ---------- the bijection ---------- */

  /** Unnamed stands for unnamed and nothing else does. */
  predicate UnnamedApart(s: Space) {
    forall c :: c in s.names ==> (c == [] <==> s.names[c].0 == [])
  }

  /** Client names and live resources correspond one to one, unnamed to unnamed. */
  ghost predicate Bijective(s: Space) {
    OneToOne(s) && UnnamedApart(s)
  }

  /** Unnamed is rewritten to unnamed and nothing else is. */
  predicate KeepsUnnamed(e: Event) {
    match e
    case Prepare(client, upstream) => client == [] <==> upstream == []
    case Bind(_, client, upstream) => client == [] <==> upstream == []
    case _ => true
  }

  lemma UnnamedReplacesItself(s: Space, client: Bytes, upstream: Bytes)
    requires Bijective(s) && (client == [] <==> upstream == [])
    ensures ReplacesItself(s, client, upstream)
  {
    if upstream == [] && [] in s.live {
      var c :| c in s.names && s.names[c].0 == [];
      assert c == [];
    }
  }

  lemma InsertBijective(s: Space, client: Bytes, upstream: Bytes, g: nat)
    requires Bijective(s) && !Collides(s, client, upstream) && (client == [] <==> upstream == [])
    ensures Bijective(Insert(s, client, upstream, g))
  {
    hide OneToOne;
    UnnamedReplacesItself(s, client, upstream);
    InsertKeepsOneToOne(s, client, upstream, g);
  }

  lemma RemoveBijective(s: Space, t: Token)
    requires Bijective(s) && Live(s, t)
    ensures Bijective(Remove(s, t))
  {
    hide OneToOne;
    RemoveKeepsOneToOne(s, t);
  }

  lemma DropBijective(s: Space)
    requires Bijective(s)
    ensures Bijective(DropUnnamed(s))
  {
    hide OneToOne;
    DropKeepsOneToOne(s);
  }

  lemma StepBijective(s: Scope, e: Event)
    requires Bijective(s.statements) && Bijective(s.portals) && KeepsUnnamed(e)
    ensures Bijective(Apply(s, e).statements) && Bijective(Apply(s, e).portals)
  {
    hide Bijective;
    if Succeeds(s, e) {
      match e
      case Prepare(client, upstream) => InsertBijective(s.statements, client, upstream, s.nextGeneration);
      case Bind(_, client, upstream) => InsertBijective(s.portals, client, upstream, s.nextGeneration);
      case CloseStatement(t) => RemoveBijective(s.statements, t);
      case ClosePortal(t) => RemoveBijective(s.portals, t);
      case QueryBoundary => DropBijective(s.statements);
      case TransactionEnd => DropBijective(s.portals);
    }
  }

  /** In every run that rewrites unnamed to unnamed only, client names and live resources correspond
      one to one. */
  lemma {:induction false} NamesAreBijective(s: Scope, events: seq<Event>)
    requires Bijective(s.statements) && Bijective(s.portals)
    requires forall i :: 0 <= i < |events| ==> KeepsUnnamed(events[i])
    ensures Bijective(Run(s, events).statements) && Bijective(Run(s, events).portals)
    decreases events
  {
    if events != [] {
      StepBijective(s, events[0]);
      NamesAreBijective(Apply(s, events[0]), events[1..]);
    }
  }

  /** A named client resource rewritten to the unnamed one goes stale when another takes its place. */
  lemma NamedToUnnamedGoesStale(a: Bytes, b: Bytes)
    requires a != [] && b != [] && a != b
    ensures var s := Run(EMPTY, [Prepare(a, []), Prepare(b, [])]).statements;
      a in s.names && !Live(s, Resolve(s, a).value)
  {
    var events := [Prepare(a, []), Prepare(b, [])];
    var s1 := Apply(EMPTY, Prepare(a, []));
    assert events[1..] == [Prepare(b, [])] && events[1..][1..] == [];
    assert Run(s1, events[1..]) == Apply(s1, Prepare(b, []));
  }

  /** And the unnamed client name rewritten to a named resource loses it: the resource stays live with
      no client name left for it. */
  lemma UnnamedToNamedIsLost(u: Bytes, v: Bytes)
    requires u != [] && v != [] && u != v
    ensures var s := Run(EMPTY, [Prepare([], u), Prepare([], v)]).statements;
      u in s.live && forall c :: c in s.names ==> s.names[c].0 != u
  {
    var events := [Prepare([], u), Prepare([], v)];
    var s1 := Apply(EMPTY, Prepare([], u));
    assert events[1..] == [Prepare([], v)] && events[1..][1..] == [];
    assert Run(s1, events[1..]) == Apply(s1, Prepare([], v));
  }

  /* ---------- the scope as it is updated ---------- */

  datatype Failure = StatementNameCollision | PortalNameCollision | UnknownStatement | UnknownPortal

  datatype Outcome = Ok(token: Token) | Failed(failure: Failure)

  class ResourceScope {
    var statements: map<Bytes, nat>
    var clientStatements: map<Bytes, (Bytes, nat)>
    var portals: map<Bytes, nat>
    var clientPortals: map<Bytes, (Bytes, nat)>
    var nextGeneration: nat

    ghost function Contents(): Scope
      reads this
    {
      Scope(Space(statements, clientStatements), Space(portals, clientPortals), nextGeneration)
    }

    constructor ()
      ensures Contents() == EMPTY
    {
      statements, clientStatements, portals, clientPortals, nextGeneration := map[], map[], map[], map[], 0;
    }

    /** Reserves a generation; the collision test comes before anything is changed. */
    method Allocate(client: Bytes, upstream: Bytes, statement: bool) returns (g: Option<nat>)
      modifies this`nextGeneration
      ensures var collides := Collides(In(old(Contents()), statement), client, upstream);
        if collides then g == None && nextGeneration == old(nextGeneration)
        else g == Some(old(nextGeneration)) && nextGeneration == SaturatingSucc(old(nextGeneration))
    {
      var resources := if statement then statements else portals;
      var names := if statement then clientStatements else clientPortals;
      if (upstream != [] && upstream in resources) || (client != [] && client in names) { return None; }
      g := Some(nextGeneration);
      nextGeneration := SaturatingSucc(nextGeneration);
    }

    /** The collision branch behind the insertion cannot be taken: allocation has already excluded it. */
    method Prepare(client: Bytes, upstream: Bytes) returns (r: Outcome)
      modifies this
      ensures var e := Event.Prepare(client, upstream);
        && Contents() == Apply(old(Contents()), e)
        && r == (if Succeeds(old(Contents()), e) then Ok(Token(client, upstream, old(nextGeneration)))
          else Failed(StatementNameCollision))
      ensures r.Ok? <==>
        (upstream == [] || upstream !in old(statements)) && (client == [] || client !in old(clientStatements))
      ensures !r.Ok? ==> Contents() == old(Contents())
    {
      var g := Allocate(client, upstream, true);
      if g.None? { return Failed(StatementNameCollision); }
      var occupied := upstream in statements;
      statements := statements[upstream := g.value];
      if occupied && upstream != [] {
        assert false;
        return Failed(StatementNameCollision);
      }
      clientStatements := clientStatements[client := (upstream, g.value)];
      r := Ok(Token(client, upstream, g.value));
    }

    method Bind(statement: Token, client: Bytes, upstream: Bytes) returns (r: Outcome)
      modifies this
      ensures var e := Event.Bind(statement, client, upstream);
        && Contents() == Apply(old(Contents()), e)
        && r == (if Succeeds(old(Contents()), e) then Ok(Token(client, upstream, old(nextGeneration)))
                 else if Live(old(Contents()).statements, statement) then Failed(PortalNameCollision)
                   else Failed(UnknownStatement))
      ensures !Live(old(Contents()).statements, statement) ==>
        r == Failed(UnknownStatement) && Contents() == old(Contents())
      ensures r.Ok? <==>
        && statement.upstream in old(statements) && old(statements)[statement.upstream] == statement.generation
        && (upstream == [] || upstream !in old(portals)) && (client == [] || client !in old(clientPortals))
      ensures !r.Ok? ==> Contents() == old(Contents())
    {
      if !(statement.upstream in statements && statements[statement.upstream] == statement.generation) {
        return Failed(UnknownStatement);
      }
      var g := Allocate(client, upstream, false);
      if g.None? { return Failed(PortalNameCollision); }
      var occupied := upstream in portals;
      portals := portals[upstream := g.value];
      if occupied && upstream != [] {
        assert false;
        return Failed(PortalNameCollision);
      }
      clientPortals := clientPortals[client := (upstream, g.value)];
      r := Ok(Token(client, upstream, g.value));
    }

    method CloseStatement(t: Token) returns (r: Outcome)
      modifies this
      ensures Contents() == Apply(old(Contents()), Event.CloseStatement(t))
      ensures r == if Live(old(Contents()).statements, t) then Ok(t) else Failed(UnknownStatement)
      ensures r.Ok? <==> t.upstream in old(statements) && old(statements)[t.upstream] == t.generation
      ensures !r.Ok? ==> Contents() == old(Contents())
    {
      if !(t.upstream in statements && statements[t.upstream] == t.generation) { return Failed(UnknownStatement); }
      statements := statements - {t.upstream};
      clientStatements := map c | c in clientStatements
        && (clientStatements[c].0 != t.upstream || clientStatements[c].1 != t.generation) :: clientStatements[c];
      r := Ok(t);
    }

    method ClosePortal(t: Token) returns (r: Outcome)
      modifies this
      ensures Contents() == Apply(old(Contents()), Event.ClosePortal(t))
      ensures r == if Live(old(Contents()).portals, t) then Ok(t) else Failed(UnknownPortal)
      ensures r.Ok? <==> t.upstream in old(portals) && old(portals)[t.upstream] == t.generation
      ensures !r.Ok? ==> Contents() == old(Contents())
    {
      if !(t.upstream in portals && portals[t.upstream] == t.generation) { return Failed(UnknownPortal); }
      portals := portals - {t.upstream};
      clientPortals := map c | c in clientPortals
        && (clientPortals[c].0 != t.upstream || clientPortals[c].1 != t.generation) :: clientPortals[c];
      r := Ok(t);
    }

    method SimpleQueryBoundary()
      modifies this
      ensures Contents() == Apply(old(Contents()), QueryBoundary)
    {
      statements := statements - {[]};
      clientStatements := map c | c in clientStatements && clientStatements[c].0 != [] :: clientStatements[c];
    }

    method TransactionEnded()
      modifies this
      ensures Contents() == Apply(old(Contents()), TransactionEnd)
    {
      portals := portals - {[]};
      clientPortals := map c | c in clientPortals && clientPortals[c].0 != [] :: clientPortals[c];
    }
  }
}
