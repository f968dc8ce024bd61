/** What the forwarding driver does to its ledger and its queue of local responses, one call at a
    time (src/intermediary_component.rs:1454-1521, 1732-1791). */
module Drivers {
  import opened Messages
  import opened Ledgers
  import opened LocalResponses
  import H = Histories

  datatype Driver = Driver(ledger: Ledger, queue: seq<Pending>)

  /** A forwarded client message, a client message answered locally, a response projected for the
      client, and one turn of the loop that sends local responses. */
  datatype Action =
    | Ask(message: FrontendMessage)
    | AnswerLocally(request: FrontendMessage, responses: seq<BackendMessage>)
    | Hear(response: BackendMessage)
    | Try

  function Act(d: Driver, a: Action): Driver {
    match a
    case Ask(m) => d.(ledger := Accepted(d.ledger, m, Forward))
    case AnswerLocally(request, responses) =>
      if AcceptFrontend(d.ledger, request, Locally).Admitted? then
        Driver(Accepted(d.ledger, request, Locally), d.queue + [Pending(d.ledger.nextId, responses)])
      else d
    case Hear(m) => d.(ledger := AcceptResponse(d.ledger, None, m).ledger)
    case Try =>
      if d.queue == [] then d
      else if d.queue[0].messages == [] then d.(queue := d.queue[1..])
      else
        var r := AcceptResponse(d.ledger, Some(d.queue[0].operation), d.queue[0].messages[0]);
        Driver(r.ledger, if r.action.DeferredAction? then d.queue else Popped(d.queue))
  }

  /** The ledger after a client message, unchanged when it is refused. */
  function Accepted(l: Ledger, m: FrontendMessage, handling: Handling): Ledger {
    match AcceptFrontend(l, m, handling)
    case Admitted(_, l') => l'
    case _ => l
  }

  function Run(d: Driver, actions: seq<Action>): Driver
    decreases actions
  {
    if actions == [] then d else Run(Act(d, actions[0]), actions[1..])
  }

  lemma {:induction false} RunConcat(d: Driver, a: seq<Action>, b: seq<Action>)
    ensures Run(d, a + b) == Run(Run(d, a), b)
    decreases a
  {
    hide Act;
    if a == [] {
      assert a + b == b;
    } else {
      assert (a + b)[1..] == a[1..] + b;
      RunConcat(Act(d, a[0]), a[1..], b);
    }
  }

  lemma RunSnoc(d: Driver, actions: seq<Action>, a: Action)
    ensures Run(d, actions + [a]) == Act(Run(d, actions), a)
  {
    hide Act;
    RunConcat(d, actions, [a]);
    assert Run(Run(d, actions), [a]) == Act(Run(d, actions), a);
  }

  /* ---------- the driver only ever runs the ledger ---------- */

  /** The ledger step an action takes, if any. */
  function StepOf(d: Driver, a: Action): seq<H.Step> {
    match a
    case Ask(m) => [H.Client(m, Forward)]
    case AnswerLocally(request, _) => [H.Client(request, Locally)]
    case Hear(m) => [H.Reply(None, m)]
    case Try =>
      if d.queue == [] || d.queue[0].messages == [] then []
      else [H.Reply(Some(d.queue[0].operation), d.queue[0].messages[0])]
  }

  function StepsOf(d: Driver, actions: seq<Action>): seq<H.Step>
    decreases actions
  {
    if actions == [] then [] else StepOf(d, actions[0]) + StepsOf(Act(d, actions[0]), actions[1..])
  }

  lemma ActIsStep(h: H.History, d: Driver, a: Action)
    requires h.ledger == d.ledger
    ensures H.Replay(h, StepOf(d, a)).ledger == Act(d, a).ledger
  {
    if StepOf(d, a) != [] {
      var step := StepOf(d, a)[0];
      assert StepOf(d, a) == [step] && [step][1..] == [];
      assert H.Replay(H.Apply(h, step), []) == H.Apply(h, step);
    }
  }

  lemma {:induction false} ReplayConcat(h: H.History, a: seq<H.Step>, b: seq<H.Step>)
    ensures H.Replay(h, a + b) == H.Replay(H.Replay(h, a), b)
    decreases a
  {
    hide H.Apply;
    if a == [] {
      assert a + b == b;
    } else {
      assert (a + b)[1..] == a[1..] + b;
      ReplayConcat(H.Apply(h, a[0]), a[1..], b);
    }
  }

  /** Whatever the driver does, its ledger is the one a run of ledger steps leaves. */
  lemma {:induction false} DriverRunsTheLedger(h: H.History, d: Driver, actions: seq<Action>)
    requires h.ledger == d.ledger
    ensures H.Replay(h, StepsOf(d, actions)).ledger == Run(d, actions).ledger
    decreases actions
  {
    hide Act, StepOf;
    if actions != [] {
      ActIsStep(h, d, actions[0]);
      var h', d' := H.Replay(h, StepOf(d, actions[0])), Act(d, actions[0]);
      DriverRunsTheLedger(h', d', actions[1..]);
      ReplayConcat(h, StepOf(d, actions[0]), StepsOf(d', actions[1..]));
    }
  }

  /* ---------- the queue is in operation order ---------- */

  predicate QueueOrdered(queue: seq<Pending>, bound: nat) {
    && (forall i, j :: 0 <= i < j < |queue| ==> queue[i].operation < queue[j].operation)
    && (forall i :: 0 <= i < |queue| ==> queue[i].operation < bound)
  }

  /** Until the ids saturate, local responses are queued in the order of their operations. */
  predicate InOrder(d: Driver) {
    d.ledger.nextId < U64_MAX ==> QueueOrdered(d.queue, d.ledger.nextId)
  }

  lemma AcceptedIds(l: Ledger, m: FrontendMessage, handling: Handling)
    ensures l.nextId <= Accepted(l, m, handling).nextId || l.nextId >= U64_MAX
    ensures AcceptFrontend(l, m, handling).Admitted? && l.nextId < U64_MAX ==>
      Accepted(l, m, handling).nextId == l.nextId + 1
    ensures l.nextId >= U64_MAX ==> Accepted(l, m, handling).nextId >= U64_MAX
  {
  }

  lemma ActKeepsOrder(d: Driver, a: Action)
    requires InOrder(d)
    ensures InOrder(Act(d, a))
  {
    hide AcceptFrontend, AcceptResponse, Accepted;
    match a
    case Ask(m) => AcceptedIds(d.ledger, m, Forward);
    case AnswerLocally(request, _) => AcceptedIds(d.ledger, request, Locally);
    case Hear(m) => ResponsesKeepIds(d.ledger, None, m);
    case Try =>
      if d.queue != [] && d.queue[0].messages != [] {
        ResponsesKeepIds(d.ledger, Some(d.queue[0].operation), d.queue[0].messages[0]);
      }
  }

  lemma {:induction false} RunsKeepOrder(d: Driver, actions: seq<Action>)
    requires InOrder(d)
    ensures InOrder(Run(d, actions))
    decreases actions
  {
    hide Act, InOrder;
    if actions != [] {
      ActKeepsOrder(d, actions[0]);
      RunsKeepOrder(Act(d, actions[0]), actions[1..]);
    }
  }
}
