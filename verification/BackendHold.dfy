/** `BackendHold` (src/backend_hold.rs): one pending backend source, and the span retained behind
    back-pressure with its byte count. */
module BackendHolds {
  import opened Messages
  import opened Wire
  import B = BackendCodec

  /** `usize` on the 64-bit targets. */
  const USIZE_MAX: nat := U64_MAX

  /** The bytes a retained message is charged with: its frame, or nothing when it cannot be encoded. */
  function RetainedBytes(m: BackendMessage): nat {
    match B.ToFrame(m)
    case None => 0
    case Some(f) => |f.body| + 5
  }

  /** That is what goes on the wire for it: tag, length and body. */
  lemma RetainedIsWireSize(m: BackendMessage)
    ensures RetainedBytes(m) ==
      if BackendEncodable(m) then |[BackendTag(m)]| + |PutU32(0)| + |B.Body(m)| else 0
  {
    B.ToFrameExactly(m);
  }

  /** What the first `n` retained messages really occupy. */
  function TotalBytes(ms: seq<BackendMessage>, n: nat): nat
    requires n <= |ms|
  {
    if n == 0 then 0 else TotalBytes(ms, n - 1) + RetainedBytes(ms[n - 1])
  }

  lemma {:induction false} TotalOfPrefix(ms: seq<BackendMessage>, m: BackendMessage, n: nat)
    requires n <= |ms|
    ensures TotalBytes(ms + [m], n) == TotalBytes(ms, n)
  {
    if n > 0 { TotalOfPrefix(ms, m, n - 1); }
  }

  /** `saturating_add` keeps the sum until it would pass the limit of the type. */
  function Capped(n: nat): nat {
    if n > USIZE_MAX then USIZE_MAX else n
  }

  class BackendHold {
    var pending: Option<(BackendMessage, nat)>
    var held: seq<BackendMessage>
    var heldBytes: nat

    /** The byte counts are those of the stored messages. */
    ghost predicate Valid()
      reads this
    {
      && (pending.Some? ==> pending.value.1 == RetainedBytes(pending.value.0))
      && heldBytes == Capped(TotalBytes(held, |held|))
    }

    constructor ()
      ensures Valid() && pending == None && held == []
    {
      pending, held, heldBytes := None, [], 0;
    }

    /** Storing a second source would trip the source's assertion, so callers must not. */
    method SetPending(m: BackendMessage)
      requires Valid() && pending.None?
      modifies this`pending
      ensures Valid() && pending.Some? && pending.value.0 == m
    {
      pending := Some((m, RetainedBytes(m)));
    }

    method TakePending() returns (m: Option<BackendMessage>)
      requires Valid()
      modifies this`pending
      ensures Valid() && pending.None?
      ensures m == if old(pending).None? then None else Some(old(pending).value.0)
    {
      m := if pending.None? then None else Some(pending.value.0);
      pending := None;
    }

    /** Retaining without a pending source would trip the source's `expect`. */
    method HoldPending()
      requires Valid() && pending.Some?
      modifies this
      ensures Valid() && pending.None? && held == old(held) + [old(pending).value.0]
    {
      var (m, bytes) := pending.value;
      TotalOfPrefix(held, m, |held|);
      pending := None;
      held := held + [m];
      heldBytes := if heldBytes + bytes > USIZE_MAX then USIZE_MAX else heldBytes + bytes;
    }

    method Clear() returns (ms: seq<BackendMessage>)
      requires Valid()
      modifies this`held, this`heldBytes
      ensures Valid() && held == [] && ms == old(held)
    {
      ms := held;
      heldBytes := 0;
      held := [];
    }
  }
}
