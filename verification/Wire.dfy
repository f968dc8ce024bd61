/** The building blocks of message bodies (src/codec.rs:1126-1360): big-endian integers, strings ended
    by a zero byte, nullable values and counted lists.  Every `Take` is proved the two-sided inverse
    of its `Put`. */
module Wire {
  import opened Messages

  /** A tagged frame without its length field. */
  datatype Frame = Frame(tag: Byte, body: Bytes)

  /** What a decoder takes off the front of a body. */
  datatype Taken<+T> = Took(value: T, rest: Bytes) | Malformed

  /** A stream that arrives in pieces. */
  function Concat(chunks: seq<Bytes>): Bytes {
    if chunks == [] then [] else chunks[0] + Concat(chunks[1..])
  }

  /* ---------- integers ---------- */

  function PutU16(n: U16): (b: Bytes)
    ensures |b| == 2
  {
    [n / 256, n % 256]
  }

  function TakeU16(b: Bytes): Taken<U16> {
    if |b| < 2 then Malformed
    else
      var hi: int, lo: int := b[0], b[1];
      Took(hi * 256 + lo, b[2..])
  }

  function PutU32(n: U32): (b: Bytes)
    ensures |b| == 4
  {
    PutU16(n / 0x1_0000) + PutU16(n % 0x1_0000)
  }

  function TakeU32(b: Bytes): Taken<U32> {
    if |b| < 4 then Malformed
    else
      var hi: int, lo: int := TakeU16(b).value, TakeU16(b[2..]).value;
      Took(hi * 0x1_0000 + lo, b[4..])
  }

  /** The number in the first four bytes, most significant first. */
  function BigEndian(b: Bytes): nat
    requires |b| >= 4
  {
    var b0: int, b1: int, b2: int, b3: int := b[0], b[1], b[2], b[3];
    b0 * 0x100_0000 + b1 * 0x1_0000 + b2 * 0x100 + b3
  }

  lemma TakesBigEndian(b: Bytes)
    ensures if |b| >= 4 then TakeU32(b) == Took(BigEndian(b), b[4..]) else TakeU32(b).Malformed?
  {
  }

  /** Two's complement. */
  function PutI16(n: I16): (b: Bytes)
    ensures |b| == 2
  {
    PutU16(if n < 0 then n + 0x1_0000 else n)
  }

  function TakeI16(b: Bytes): Taken<I16> {
    match TakeU16(b)
    case Malformed => Malformed
    case Took(n, rest) => Took(if n >= 0x8000 then n - 0x1_0000 else n, rest)
  }

  function PutI32(n: I32): (b: Bytes)
    ensures |b| == 4
  {
    PutU32(if n < 0 then n + 0x1_0000_0000 else n)
  }

  function TakeI32(b: Bytes): Taken<I32> {
    match TakeU32(b)
    case Malformed => Malformed
    case Took(n, rest) => Took(if n >= 0x8000_0000 then n - 0x1_0000_0000 else n, rest)
  }

  /** `take` undoes `put` on `x`, whatever follows. */
  ghost predicate Undoes<T(!new)>(take: Bytes -> Taken<T>, put: T -> Bytes, x: T) {
    forall rest: Bytes :: take(put(x) + rest) == Took(x, rest)
  }

  /** `put` restores every byte that `take` took. */
  ghost predicate Restores<T(!new)>(take: Bytes -> Taken<T>, put: T -> Bytes) {
    forall b: Bytes :: take(b).Took? ==> b == put(take(b).value) + take(b).rest
  }

  lemma U16Inverse(n: U16)
    ensures Undoes(TakeU16, PutU16, n) && Restores(TakeU16, PutU16)
  {
    forall rest: Bytes ensures TakeU16(PutU16(n) + rest) == Took(n, rest) {
      assert (PutU16(n) + rest)[2..] == rest;
    }
    forall b: Bytes | TakeU16(b).Took? ensures b == PutU16(TakeU16(b).value) + TakeU16(b).rest {
      assert b == [b[0], b[1]] + b[2..];
    }
  }

  lemma U32Extends(a: Bytes, b: Bytes)
    requires |a| >= 4
    ensures TakeU32(a).Took? && TakeU32(a + b) == Took(TakeU32(a).value, TakeU32(a).rest + b)
  {
    assert (a + b)[2..] == a[2..] + b && (a + b)[4..] == a[4..] + b;
  }

  lemma U32Undoes(n: U32, rest: Bytes)
    ensures TakeU32(PutU32(n) + rest) == Took(n, rest)
  {
    var hi, lo := n / 0x1_0000, n % 0x1_0000;
    var b := PutU32(n) + rest;
    U16Inverse(hi);
    U16Inverse(lo);
    assert b == PutU16(hi) + (PutU16(lo) + rest);
    assert b[2..] == PutU16(lo) + rest && b[4..] == rest;
  }

  lemma U32Restores(b: Bytes)
    requires TakeU32(b).Took?
    ensures b == PutU32(TakeU32(b).value) + TakeU32(b).rest
  {
    U16Inverse(0);
    var hi: int, lo: int := TakeU16(b).value, TakeU16(b[2..]).value;
    assert TakeU16(b).rest == b[2..] && TakeU16(b[2..]).rest == b[4..];
    Halves(hi, lo);
    assert PutU16(hi) + (PutU16(lo) + b[4..]) == PutU16(hi) + PutU16(lo) + b[4..];
  }

  lemma Halves(hi: int, lo: int)
    requires 0 <= lo < 0x1_0000
    ensures (hi * 0x1_0000 + lo) / 0x1_0000 == hi && (hi * 0x1_0000 + lo) % 0x1_0000 == lo
  {
  }

  lemma U32Inverse(n: U32)
    ensures Undoes(TakeU32, PutU32, n) && Restores(TakeU32, PutU32)
  {
    forall rest: Bytes ensures TakeU32(PutU32(n) + rest) == Took(n, rest) { U32Undoes(n, rest); }
    forall b: Bytes | TakeU32(b).Took? ensures b == PutU32(TakeU32(b).value) + TakeU32(b).rest { U32Restores(b); }
  }

  lemma I16Inverse(n: I16)
    ensures Undoes(TakeI16, PutI16, n) && Restores(TakeI16, PutI16)
  {
    U16Inverse(if n < 0 then n + 0x1_0000 else n);
  }

  lemma I32Inverse(n: I32)
    ensures Undoes(TakeI32, PutI32, n) && Restores(TakeI32, PutI32)
  {
    U32Inverse(if n < 0 then n + 0x1_0000_0000 else n);
  }

  /* ---------- strings ---------- */

  /** The first zero byte from `i` on, or the length. */
  function NulFrom(b: Bytes, i: nat): (k: nat)
    requires i <= |b|
    ensures i <= k <= |b|
    ensures forall j :: i <= j < k ==> b[j] != 0
    ensures k < |b| ==> b[k] == 0
    decreases |b| - i
  {
    if i < |b| && b[i] != 0 then NulFrom(b, i + 1) else i
  }

  /** The search for the end of a string. */
  method FindNul(b: Bytes) returns (k: nat)
    ensures k == NulFrom(b, 0)
  {
    k := 0;
    while k < |b| && b[k] != 0
      invariant k <= |b| && NulFrom(b, 0) == NulFrom(b, k)
    {
      k := k + 1;
    }
  }

  method ReadCstr(b: Bytes) returns (r: Taken<Bytes>)
    ensures r == TakeCstr(b)
  {
    var k := FindNul(b);
    r := if k == |b| then Malformed else Took(b[..k], b[k + 1..]);
  }

  function PutCstr(s: Bytes): Bytes {
    s + [0]
  }

  function TakeCstr(b: Bytes): Taken<Bytes> {
    var k := NulFrom(b, 0);
    if k == |b| then Malformed else Took(b[..k], b[k + 1..])
  }

  lemma CstrUndoes(s: Bytes)
    requires NoNul(s)
    ensures Undoes(TakeCstr, PutCstr, s)
  {
    forall rest: Bytes ensures TakeCstr(PutCstr(s) + rest) == Took(s, rest) {
      var b := PutCstr(s) + rest;
      assert b[|s|] == 0;
      assert NulFrom(b, 0) == |s| by {
        assert forall j :: 0 <= j < |s| ==> b[j] == s[j];
      }
      assert b[..|s|] == s && b[|s| + 1..] == rest;
    }
  }

  lemma CstrRestores()
    ensures Restores(TakeCstr, PutCstr)
    ensures forall b: Bytes :: TakeCstr(b).Took? ==> NoNul(TakeCstr(b).value)
  {
    forall b: Bytes | TakeCstr(b).Took? ensures b == PutCstr(TakeCstr(b).value) + TakeCstr(b).rest {
      var k := NulFrom(b, 0);
      assert b == b[..k] + [b[k]] + b[k + 1..];
    }
  }

  /** A body that is one string. */
  function DecodeCstr(b: Bytes): Option<Bytes> {
    match TakeCstr(b) case Malformed => None case Took(s, rest) => if rest == [] then Some(s) else None
  }

  lemma CstrBodyRestores(b: Bytes)
    requires DecodeCstr(b).Some?
    ensures NoNul(DecodeCstr(b).value) && b == PutCstr(DecodeCstr(b).value)
  {
    CstrRestores();
    assert PutCstr(DecodeCstr(b).value) + [] == PutCstr(DecodeCstr(b).value);
  }

  predicate AllNamed(names: seq<Bytes>) {
    forall i :: 0 <= i < |names| ==> names[i] != []
  }

  /* ---------- nullable values ---------- */

  predicate ValueFits(v: Option<Bytes>) {
    v.Some? ==> |v.value| < 0x8000_0000
  }

  /** The layout of a value, behind a length field of 32 bits. */
  function PutNullable(v: Option<Bytes>): Bytes {
    match v
    case None => PutI32(-1)
    case Some(b) => PutU32(|b| % 0x1_0000_0000) + b
  }

  function TakeNullable(b: Bytes): Taken<Option<Bytes>> {
    match TakeI32(b)
    case Malformed => Malformed
    case Took(n, rest) =>
      if n == -1 then Took(None, rest)
      else if n < 0 || n > |rest| then Malformed
      else Took(Some(rest[..n]), rest[n..])
  }

  lemma NullableUndoes(v: Option<Bytes>)
    requires ValueFits(v)
    ensures Undoes(TakeNullable, PutNullable, v)
  {
    hide PutI32, TakeI32, PutU32;
    forall rest: Bytes ensures TakeNullable(PutNullable(v) + rest) == Took(v, rest) {
      match v
      case None => I32Inverse(-1);
      case Some(b) =>
        I32Inverse(|b|);
        LengthField(|b|);
        assert PutNullable(v) + rest == PutI32(|b|) + (b + rest);
        assert (b + rest)[..|b|] == b && (b + rest)[|b|..] == rest;
    }
  }

  lemma LengthField(n: nat)
    requires n < 0x8000_0000
    ensures PutI32(n) == PutU32(n % 0x1_0000_0000)
  {
  }

  lemma NullableRestores()
    ensures Restores(TakeNullable, PutNullable)
    ensures forall b: Bytes :: TakeNullable(b).Took? ==> ValueFits(TakeNullable(b).value)
  {
    hide PutI32, TakeI32;
    forall b: Bytes | TakeNullable(b).Took?
      ensures b == PutNullable(TakeNullable(b).value) + TakeNullable(b).rest
    {
      I32Inverse(0);
      var n, rest := TakeI32(b).value, TakeI32(b).rest;
      if n != -1 {
        assert rest == rest[..n] + rest[n..];
        LengthField(n);
        assert PutI32(n) + (rest[..n] + rest[n..]) == PutI32(n) + rest[..n] + rest[n..];
      }
    }
  }

  /* ---------- lists ---------- */

  function PutMany<T>(put: T -> Bytes, xs: seq<T>): Bytes {
    if xs == [] then [] else put(xs[0]) + PutMany(put, xs[1..])
  }

  function TakeMany<T>(take: Bytes -> Taken<T>, n: nat, b: Bytes): Taken<seq<T>> {
    if n == 0 then Took([], b)
    else match take(b)
      case Malformed => Malformed
      case Took(x, rest) => (
        match TakeMany(take, n - 1, rest)
        case Malformed => Malformed
        case Took(xs, rest') => Took([x] + xs, rest'))
  }

  lemma {:induction false} ManyUndoes<T(!new)>(take: Bytes -> Taken<T>, put: T -> Bytes, xs: seq<T>, rest: Bytes)
    requires forall i :: 0 <= i < |xs| ==> Undoes(take, put, xs[i])
    ensures TakeMany(take, |xs|, PutMany(put, xs) + rest) == Took(xs, rest)
  {
    if xs == [] {
      assert PutMany(put, xs) + rest == rest;
    } else {
      var after := PutMany(put, xs[1..]) + rest;
      assert PutMany(put, xs) + rest == put(xs[0]) + after;
      assert Undoes(take, put, xs[0]);
      ManyUndoes(take, put, xs[1..], rest);
      assert [xs[0]] + xs[1..] == xs;
    }
  }

  lemma {:induction false} ManyRestores<T(!new)>(take: Bytes -> Taken<T>, put: T -> Bytes, n: nat, b: Bytes)
    requires Restores(take, put) && TakeMany(take, n, b).Took?
    ensures var r := TakeMany(take, n, b); |r.value| == n && b == PutMany(put, r.value) + r.rest
  {
    if n > 0 {
      var x, rest := take(b).value, take(b).rest;
      ManyRestores(take, put, n - 1, rest);
      var xs, rest' := TakeMany(take, n - 1, rest).value, TakeMany(take, n - 1, rest).rest;
      assert ([x] + xs)[1..] == xs;
      assert put(x) + (PutMany(put, xs) + rest') == put(x) + PutMany(put, xs) + rest';
    }
  }

  lemma {:induction false} ManyHold<T(!new)>(take: Bytes -> Taken<T>, ok: T -> bool, n: nat, b: Bytes)
    requires (forall c: Bytes :: take(c).Took? ==> ok(take(c).value)) && TakeMany(take, n, b).Took?
    ensures forall i :: 0 <= i < |TakeMany(take, n, b).value| ==> ok(TakeMany(take, n, b).value[i])
  {
    if n > 0 { ManyHold(take, ok, n - 1, take(b).rest); }
  }

  /** Each element takes at least `min` bytes. */
  ghost predicate Consumes<T(!new)>(take: Bytes -> Taken<T>, min: nat) {
    forall b: Bytes :: take(b).Took? ==> |take(b).rest| + min <= |b|
  }

  /** The count check before a list rejects nothing the element loop would accept. */
  lemma {:induction false} PreCheckIsFree<T(!new)>(take: Bytes -> Taken<T>, min: nat, n: nat, b: Bytes)
    requires Consumes(take, min) && TakeMany(take, n, b).Took?
    ensures n * min <= |b|
  {
    if n > 0 {
      PreCheckIsFree(take, min, n - 1, take(b).rest);
      assert n * min == (n - 1) * min + min;
    }
  }

  /** A list behind its count, checked against the bytes that remain. */
  function TakeCounted<T>(take: Bytes -> Taken<T>, min: nat, n: nat, b: Bytes): Taken<seq<T>> {
    if n * min > |b| then Malformed else TakeMany(take, n, b)
  }

  lemma CheckedIsUnchecked<T(!new)>(take: Bytes -> Taken<T>, min: nat, n: nat, b: Bytes)
    requires Consumes(take, min)
    ensures TakeCounted(take, min, n, b) == TakeMany(take, n, b)
  {
    if TakeMany(take, n, b).Took? { PreCheckIsFree(take, min, n, b); }
  }

  function Prepend<T>(items: seq<T>, r: Taken<seq<T>>): Taken<seq<T>> {
    match r
    case Malformed => Malformed
    case Took(xs, rest) => Took(items + xs, rest)
  }

  lemma PrependNil<T>(r: Taken<seq<T>>)
    ensures Prepend([], r) == r
  {
    if r.Took? { assert [] + r.value == r.value; }
  }

  lemma PrependStep<T>(items: seq<T>, take: Bytes -> Taken<T>, n: nat, b: Bytes)
    requires n > 0 && take(b).Took?
    ensures Prepend(items, TakeMany(take, n, b)) ==
      Prepend(items + [take(b).value], TakeMany(take, n - 1, take(b).rest))
  {
    var r := TakeMany(take, n - 1, take(b).rest);
    if r.Took? { assert items + ([take(b).value] + r.value) == items + [take(b).value] + r.value; }
  }

  /** The element loop of the decoders. */
  method ReadMany<T>(take: Bytes -> Taken<T>, n: nat, b: Bytes) returns (r: Taken<seq<T>>)
    ensures r == TakeMany(take, n, b)
  {
    var items, body, i := [], b, 0;
    PrependNil(TakeMany(take, n, b));
    while i < n
      invariant 0 <= i <= n
      invariant TakeMany(take, n, b) == Prepend(items, TakeMany(take, n - i, body))
    {
      var first := take(body);
      if first.Malformed? { return Malformed; }
      PrependStep(items, take, n - i, body);
      items, body := items + [first.value], first.rest;
      i := i + 1;
    }
    assert items + [] == items;
    r := Took(items, body);
  }

  /* ---------- counted lists ---------- */

  /** A list behind a 16-bit count. */
  function PutList<T>(put: T -> Bytes, xs: seq<T>): Bytes
    requires FitsCount(|xs|)
  {
    PutU16(|xs|) + PutMany(put, xs)
  }

  function TakeList<T>(take: Bytes -> Taken<T>, min: nat, b: Bytes): Taken<seq<T>> {
    match TakeU16(b)
    case Malformed => Malformed
    case Took(n, rest) => TakeCounted(take, min, n, rest)
  }

  method ReadList<T>(take: Bytes -> Taken<T>, min: nat, b: Bytes) returns (r: Taken<seq<T>>)
    ensures r == TakeList(take, min, b)
  {
    var count := TakeU16(b);
    if count.Malformed? || count.value * min > |count.rest| { return Malformed; }
    r := ReadMany(take, count.value, count.rest);
  }

  lemma ListUndoes<T(!new)>(take: Bytes -> Taken<T>, put: T -> Bytes, min: nat, xs: seq<T>, rest: Bytes)
    requires FitsCount(|xs|) && Consumes(take, min) && forall i :: 0 <= i < |xs| ==> Undoes(take, put, xs[i])
    ensures TakeList(take, min, PutList(put, xs) + rest) == Took(xs, rest)
  {
    U16Inverse(|xs|);
    assert PutList(put, xs) + rest == PutU16(|xs|) + (PutMany(put, xs) + rest);
    ManyUndoes(take, put, xs, rest);
    CheckedIsUnchecked(take, min, |xs|, PutMany(put, xs) + rest);
  }

  lemma ListRestores<T(!new)>(take: Bytes -> Taken<T>, put: T -> Bytes, min: nat, b: Bytes)
    requires Restores(take, put) && TakeList(take, min, b).Took?
    ensures var r := TakeList(take, min, b); FitsCount(|r.value|) && b == PutList(put, r.value) + r.rest
  {
    U16Inverse(0);
    var n, rest := TakeU16(b).value, TakeU16(b).rest;
    ManyRestores(take, put, n, rest);
    var r := TakeMany(take, n, rest);
    assert PutU16(n) + (PutMany(put, r.value) + r.rest) == PutU16(n) + PutMany(put, r.value) + r.rest;
  }

  lemma ListHolds<T(!new)>(take: Bytes -> Taken<T>, ok: T -> bool, min: nat, b: Bytes)
    requires (forall c: Bytes :: take(c).Took? ==> ok(take(c).value)) && TakeList(take, min, b).Took?
    ensures forall i :: 0 <= i < |TakeList(take, min, b).value| ==> ok(TakeList(take, min, b).value[i])
  {
    ManyHold(take, ok, TakeU16(b).value, TakeU16(b).rest);
  }

  lemma IntegersConsume()
    ensures Consumes(TakeU32, 4) && Consumes(TakeI16, 2) && Consumes(TakeNullable, 4) && Consumes(TakeCstr, 1)
  {
  }

  lemma CstrEnds(s: Bytes)
    requires NoNul(s)
    ensures TakeCstr(PutCstr(s)) == Took(s, [])
  {
    CstrUndoes(s);
    assert PutCstr(s) + [] == PutCstr(s);
  }

  lemma ListEnds<T(!new)>(take: Bytes -> Taken<T>, put: T -> Bytes, min: nat, xs: seq<T>)
    requires FitsCount(|xs|) && Consumes(take, min) && forall i :: 0 <= i < |xs| ==> Undoes(take, put, xs[i])
    ensures TakeList(take, min, PutList(put, xs)) == Took(xs, [])
  {
    ListUndoes(take, put, min, xs, []);
    assert PutList(put, xs) + [] == PutList(put, xs);
  }

  lemma I16sUndo(xs: seq<I16>)
    ensures forall i :: 0 <= i < |xs| ==> Undoes(TakeI16, PutI16, xs[i])
  {
    forall i | 0 <= i < |xs| ensures Undoes(TakeI16, PutI16, xs[i]) { I16Inverse(xs[i]); }
  }

  lemma U32sUndo(xs: seq<U32>)
    ensures forall i :: 0 <= i < |xs| ==> Undoes(TakeU32, PutU32, xs[i])
  {
    forall i | 0 <= i < |xs| ensures Undoes(TakeU32, PutU32, xs[i]) { U32Inverse(xs[i]); }
  }

  lemma ValuesUndo(xs: seq<Option<Bytes>>)
    requires ValuesFit(xs)
    ensures forall i :: 0 <= i < |xs| ==> Undoes(TakeNullable, PutNullable, xs[i])
  {
    forall i | 0 <= i < |xs| ensures Undoes(TakeNullable, PutNullable, xs[i]) { NullableUndoes(xs[i]); }
  }

  lemma I16sRestore(b: Bytes)
    requires TakeList(TakeI16, 2, b).Took?
    ensures var r := TakeList(TakeI16, 2, b); FitsCount(|r.value|) && b == PutList(PutI16, r.value) + r.rest
  {
    I16Inverse(0);
    ListRestores(TakeI16, PutI16, 2, b);
  }

  lemma U32sRestore(b: Bytes)
    requires TakeList(TakeU32, 4, b).Took?
    ensures var r := TakeList(TakeU32, 4, b); FitsCount(|r.value|) && b == PutList(PutU32, r.value) + r.rest
  {
    U32Inverse(0);
    ListRestores(TakeU32, PutU32, 4, b);
  }

  lemma ValuesRestore(b: Bytes)
    requires TakeList(TakeNullable, 4, b).Took?
    ensures var r := TakeList(TakeNullable, 4, b);
      FitsCount(|r.value|) && ValuesFit(r.value) && b == PutList(PutNullable, r.value) + r.rest
  {
    NullableRestores();
    ListRestores(TakeNullable, PutNullable, 4, b);
    ListHolds(TakeNullable, ValueFits, 4, b);
    var vs := TakeList(TakeNullable, 4, b).value;
    forall i | 0 <= i < |vs| && vs[i].Some? ensures |vs[i].value| < 0x8000_0000 { assert ValueFits(vs[i]); }
  }

  /* ---------- writing that can fail ---------- */

  /** One part behind another; nothing when either cannot be written. */
  function Join(a: Option<Bytes>, b: Option<Bytes>): Option<Bytes> {
    if a.Some? && b.Some? then Some(a.value + b.value) else None
  }

  function WriteCstr(s: Bytes): Option<Bytes> {
    if 0 in s then None else Some(s + [0])
  }

  function WriteCount(n: nat): Option<Bytes> {
    if n < 0x1_0000 then Some(PutU16(n)) else None
  }

  function WriteNullable(v: Option<Bytes>): Option<Bytes> {
    match v
    case None => Some(PutI32(-1))
    case Some(b) => if |b| < 0x8000_0000 then Some(PutI32(|b|) + b) else None
  }

  function WriteU32(n: U32): Option<Bytes> {
    Some(PutU32(n))
  }

  function WriteI16(n: I16): Option<Bytes> {
    Some(PutI16(n))
  }

  function WriteEach<T>(write: T -> Option<Bytes>, xs: seq<T>): Option<Bytes> {
    if xs == [] then Some([]) else Join(write(xs[0]), WriteEach(write, xs[1..]))
  }

  function WriteList<T>(write: T -> Option<Bytes>, xs: seq<T>): Option<Bytes> {
    Join(WriteCount(|xs|), WriteEach(write, xs))
  }

  lemma JoinEmpty(a: Option<Bytes>)
    ensures Join(Some([]), a) == a && Join(a, Some([])) == a
  {
    if a.Some? { assert [] + a.value == a.value && a.value + [] == a.value; }
  }

  lemma JoinAssociates(a: Option<Bytes>, b: Option<Bytes>, c: Option<Bytes>)
    ensures Join(Join(a, b), c) == Join(a, Join(b, c))
  {
    if a.Some? && b.Some? && c.Some? { assert a.value + b.value + c.value == a.value + (b.value + c.value); }
  }

  /** The element loop of the encoders; it stops at the first element that cannot be written. */
  method WriteMany<T>(write: T -> Option<Bytes>, xs: seq<T>) returns (b: Option<Bytes>)
    ensures b == WriteEach(write, xs)
  {
    var body := [];
    var i := 0;
    assert xs[0..] == xs;
    JoinEmpty(WriteEach(write, xs));
    while i < |xs|
      invariant 0 <= i <= |xs| && WriteEach(write, xs) == Join(Some(body), WriteEach(write, xs[i..]))
    {
      assert xs[i..][0] == xs[i] && xs[i..][1..] == xs[i + 1..];
      var part := write(xs[i]);
      if part.None? { return None; }
      JoinAssociates(Some(body), part, WriteEach(write, xs[i + 1..]));
      body := body + part.value;
      i := i + 1;
    }
    JoinEmpty(Some(body));
    b := Some(body);
  }

  method WriteCounted<T>(write: T -> Option<Bytes>, xs: seq<T>) returns (b: Option<Bytes>)
    ensures b == WriteList(write, xs)
  {
    if |xs| >= 0x1_0000 { return None; }
    var items := WriteMany(write, xs);
    b := Join(Some(PutU16(|xs|)), items);
  }

  /** `write` writes what `put` lays out, exactly for the values that are `ok`. */
  ghost predicate Writes<T(!new)>(write: T -> Option<Bytes>, ok: T -> bool, put: T -> Bytes) {
    forall x: T :: write(x) == if ok(x) then Some(put(x)) else None
  }

  predicate Anything<T>(x: T) {
    true
  }

  predicate All<T>(ok: T -> bool, xs: seq<T>) {
    forall i :: 0 <= i < |xs| ==> ok(xs[i])
  }

  lemma CstrWritten()
    ensures Writes(WriteCstr, NoNul, PutCstr)
  {
  }

  lemma NullableWritten()
    ensures Writes(WriteNullable, ValueFits, PutNullable)
  {
    hide PutI32, PutU32;
    forall v: Option<Bytes> ensures WriteNullable(v) == if ValueFits(v) then Some(PutNullable(v)) else None {
      if v.Some? && |v.value| < 0x8000_0000 { LengthField(|v.value|); }
    }
  }

  lemma IntegersWritten()
    ensures Writes(WriteU32, Anything<U32>, PutU32) && Writes(WriteI16, Anything<I16>, PutI16)
  {
  }

  lemma {:induction false} EachWritten<T(!new)>(write: T -> Option<Bytes>, ok: T -> bool, put: T -> Bytes, xs: seq<T>)
    requires Writes(write, ok, put)
    ensures WriteEach(write, xs) == if All(ok, xs) then Some(PutMany(put, xs)) else None
    decreases xs
  {
    if xs != [] {
      EachWritten(write, ok, put, xs[1..]);
      assert write(xs[0]) == if ok(xs[0]) then Some(put(xs[0])) else None;
      assert All(ok, xs) <==> ok(xs[0]) && All(ok, xs[1..]) by {
        if ok(xs[0]) && All(ok, xs[1..]) {
          assert forall i :: 1 <= i < |xs| ==> xs[i] == xs[1..][i - 1];
        }
      }
    }
  }

  /** A list can be written exactly when its count fits and each of its elements can be. */
  lemma ListWritten<T(!new)>(write: T -> Option<Bytes>, ok: T -> bool, put: T -> Bytes, xs: seq<T>)
    requires Writes(write, ok, put)
    ensures WriteList(write, xs) == if FitsCount(|xs|) && All(ok, xs) then Some(PutList(put, xs)) else None
  {
    EachWritten(write, ok, put, xs);
  }

  lemma ListsWritten(types: seq<U32>, formats: seq<I16>, values: seq<Option<Bytes>>)
    ensures WriteList(WriteU32, types) == if FitsCount(|types|) then Some(PutList(PutU32, types)) else None
    ensures WriteList(WriteI16, formats) == if FitsCount(|formats|) then Some(PutList(PutI16, formats)) else None
    ensures WriteList(WriteNullable, values) ==
      if FitsCount(|values|) && ValuesFit(values) then Some(PutList(PutNullable, values)) else None
  {
    hide WriteList, PutList;
    IntegersWritten();
    NullableWritten();
    ListWritten(WriteU32, Anything<U32>, PutU32, types);
    ListWritten(WriteI16, Anything<I16>, PutI16, formats);
    ListWritten(WriteNullable, ValueFits, PutNullable, values);
    assert All(ValueFits, values) <==> ValuesFit(values) by {
      if All(ValueFits, values) {
        forall i | 0 <= i < |values| && values[i].Some? ensures |values[i].value| < 0x8000_0000 {
          assert ValueFits(values[i]);
        }
      }
    }
  }
}
