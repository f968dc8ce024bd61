/** Draining the queue of locally synthesised responses (src/intermediary_component.rs:1771-1791). */
module LocalResponses {
  import opened Messages
  import opened Ledgers

  datatype Pending = Pending(operation: nat, messages: seq<BackendMessage>)

  /** How a drain ends: with the queue it leaves, what went out, and whether a response was refused. */
  datatype Drained = Drained(ledger: Ledger, queue: seq<Pending>, sent: seq<BackendMessage>, refused: bool)

  function Backlog(queue: seq<Pending>): nat {
    if queue == [] then 0 else 1 + |queue[0].messages| + Backlog(queue[1..])
  }

  /** The queue without the first message of its first entry. */
  function Popped(queue: seq<Pending>): (q: seq<Pending>)
    requires queue != [] && queue[0].messages != []
    ensures Backlog(q) < Backlog(queue)
  {
    var q := [queue[0].(messages := queue[0].messages[1..])] + queue[1..];
    assert q[1..] == queue[1..];
    q
  }

  /** Responses go out in queue order for as long as their operation is the head. */
  function Drain(l: Ledger, queue: seq<Pending>): Drained
    decreases Backlog(queue)
  {
    if queue == [] then Drained(l, [], [], false)
    else if queue[0].messages == [] then Drain(l, queue[1..])
    else
      var m := queue[0].messages[0];
      var r := AcceptResponse(l, Some(queue[0].operation), m);
      if r.action.Emitted? then
        var rest := Drain(r.ledger, Popped(queue));
        rest.(sent := [m] + rest.sent)
      else if r.action.DeferredAction? then Drained(r.ledger, queue, [], false)
      else Drained(r.ledger, Popped(queue), [], true)
  }

  lemma ResponsesKeepIds(l: Ledger, localId: Option<nat>, m: BackendMessage)
    ensures var l' := AcceptResponse(l, localId, m).ledger; l'.nextId == l.nextId && l'.limit == l.limit
  {
  }

  /** Everything a queue holds, in order. */
  function Contents(queue: seq<Pending>): seq<BackendMessage> {
    if queue == [] then [] else queue[0].messages + Contents(queue[1..])
  }

  /** Nothing is lost or reordered: what goes out and what stays queued is what was queued, except for
      a response that is refused, which is dropped where it stood. */
  lemma {:induction false} DrainKeepsOrder(l: Ledger, queue: seq<Pending>)
    ensures var d := Drain(l, queue);
      && (!d.refused ==> d.sent + Contents(d.queue) == Contents(queue))
      && (d.refused ==> exists m :: d.sent + [m] + Contents(d.queue) == Contents(queue))
      && d.ledger.nextId == l.nextId && d.ledger.limit == l.limit
    decreases Backlog(queue)
  {
    hide AcceptResponse;
    if queue != [] {
      if queue[0].messages == [] {
        DrainKeepsOrder(l, queue[1..]);
        assert Contents(queue) == Contents(queue[1..]);
      } else {
        var m := queue[0].messages[0];
        var r := AcceptResponse(l, Some(queue[0].operation), m);
        ResponsesKeepIds(l, Some(queue[0].operation), m);
        PoppedContents(queue);
        if r.action.Emitted? {
          DrainKeepsOrder(r.ledger, Popped(queue));
          SentFirst(m, Drain(r.ledger, Popped(queue)), Contents(Popped(queue)));
        } else if r.action.DeferredAction? {
          assert [] + Contents(queue) == Contents(queue);
        } else {
          assert [] + [m] + Contents(Popped(queue)) == Contents(queue);
        }
      }
    }
  }

  lemma ContentsStep(queue: seq<Pending>)
    requires queue != []
    ensures Contents(queue) == queue[0].messages + Contents(queue[1..])
  {
  }

  lemma PoppedParts(queue: seq<Pending>)
    requires queue != [] && queue[0].messages != []
    ensures var q := Popped(queue); q != [] && q[0].messages == queue[0].messages[1..] && q[1..] == queue[1..]
  {
  }

  lemma HeadFirst(ms: seq<BackendMessage>, rest: seq<BackendMessage>)
    requires ms != []
    ensures ms + rest == [ms[0]] + (ms[1..] + rest)
  {
  }

  lemma PoppedContents(queue: seq<Pending>)
    requires queue != [] && queue[0].messages != []
    ensures Contents(queue) == [queue[0].messages[0]] + Contents(Popped(queue))
  {
    hide Contents, Backlog, Popped;
    var ms, q := queue[0].messages, Popped(queue);
    PoppedParts(queue);
    ContentsStep(queue);
    ContentsStep(q);
    HeadFirst(ms, Contents(queue[1..]));
  }

  lemma SentFirst(m: BackendMessage, d: Drained, all: seq<BackendMessage>)
    ensures !d.refused && d.sent + Contents(d.queue) == all ==> [m] + d.sent + Contents(d.queue) == [m] + all
    ensures d.refused && (exists x :: d.sent + [x] + Contents(d.queue) == all) ==>
      exists x :: ([m] + d.sent) + [x] + Contents(d.queue) == [m] + all
  {
    if !d.refused && d.sent + Contents(d.queue) == all {
      assert [m] + d.sent + Contents(d.queue) == [m] + (d.sent + Contents(d.queue));
    }
    if d.refused && exists x :: d.sent + [x] + Contents(d.queue) == all {
      var x :| d.sent + [x] + Contents(d.queue) == all;
      assert ([m] + d.sent) + [x] + Contents(d.queue) == [m] + (d.sent + [x] + Contents(d.queue));
    }
  }
}
