/**
 * The output buffer of a test command: a byte stream decoded as it arrives (UTF-8, section 4 of RFC 3629),
 * of which only the two ends are kept.
 */
module LimitedOutput {
  type Byte = b: int | 0 <= b < 256

  /** What a replaced byte decodes to. */
  const RUNE_ERROR := 0xFFFD

  const LIMIT := 10000

  // ---- decoding -------------------------------------------------------------------------------------

  predicate Within(b: Byte, lo: int, hi: int) {
    lo <= b <= hi
  }

  predicate Continues(b: Byte) {
    Within(b, 0x80, 0xBF)
  }

  /** The length a first byte announces; ASCII and bytes that cannot start a rune announce 1. */
  function Announced(b: Byte): (n: nat)
    ensures 1 <= n <= 4
  {
    if Within(b, 0xC2, 0xDF) then 2
    else if Within(b, 0xE0, 0xEF) then 3
    else if Within(b, 0xF0, 0xF4) then 4
    else 1
  }

  /** The second byte allowed after `b`: no overlong form, no surrogate, nothing above U+10FFFF. */
  predicate SecondOk(b: Byte, c: Byte) {
    if b == 0xE0 then Within(c, 0xA0, 0xBF)
    else if b == 0xED then Within(c, 0x80, 0x9F)
    else if b == 0xF0 then Within(c, 0x90, 0xBF)
    else if b == 0xF4 then Within(c, 0x80, 0x8F)
    else Continues(c)
  }

  /** utf8.FullRune: the bytes begin with a whole rune, or with an encoding already known to be invalid. */
  predicate FullRune(p: seq<Byte>) {
    && p != []
    && (|p| >= Announced(p[0])
        || (|p| > 1 && !SecondOk(p[0], p[1]))
        || (|p| > 2 && !Continues(p[2])))
  }

  /** The bytes begin with a valid encoding. */
  predicate Wellformed(p: seq<Byte>) {
    && p != []
    && (p[0] < 0x80
        || (&& Announced(p[0]) > 1 && |p| >= Announced(p[0]) && SecondOk(p[0], p[1])
            && (Announced(p[0]) > 2 ==> Continues(p[2]))
            && (Announced(p[0]) > 3 ==> Continues(p[3]))))
  }

  /** The bits of a byte below a power of two. */
  function Low(b: Byte, m: nat): nat
    requires m > 0
  {
    var n: nat := b;
    n % m
  }

  /** utf8.DecodeRune: the rune and its width; an invalid encoding is the error rune of width 1. */
  function DecodeRune(p: seq<Byte>): (r: (nat, nat))
    requires p != []
    ensures 1 <= r.1 <= |p| && r.1 <= 4
  {
    if !Wellformed(p) then (RUNE_ERROR, 1)
    else
      var n := Announced(p[0]);
      if n == 1 then (p[0], 1)
      else if n == 2 then (Low(p[0], 0x20) * 0x40 + Low(p[1], 0x40), 2)
      else if n == 3 then (Low(p[0], 0x10) * 0x1000 + Low(p[1], 0x40) * 0x40 + Low(p[2], 0x40), 3)
      else
        (Low(p[0], 0x08) * 0x40000 + Low(p[1], 0x40) * 0x1000 + Low(p[2], 0x40) * 0x40 + Low(p[3], 0x40), 4)
  }

  /** All runes of a stream that are complete. */
  function Runes(p: seq<Byte>): seq<nat>
    decreases |p|
  {
    if !FullRune(p) then [] else [DecodeRune(p).0] + Runes(p[DecodeRune(p).1..])
  }

  /** The bytes after them. */
  function Rest(p: seq<Byte>): seq<Byte>
    decreases |p|
  {
    if !FullRune(p) then p else Rest(p[DecodeRune(p).1..])
  }

  // ---- encoding ---------------------------------------------------------------------------------------

  /** `string([]rune)`, one rune: surrogates and numbers out of range are written as the error rune. */
  function EncodeRune(r: nat): seq<Byte> {
    if r < 0x80 then [r]
    else if r < 0x800 then [0xC0 + r / 0x40, 0x80 + r % 0x40]
    else if 0xD800 <= r <= 0xDFFF || r > 0x10FFFF then [0xEF, 0xBF, 0xBD]
    else if r < 0x10000 then [0xE0 + r / 0x1000, 0x80 + r / 0x40 % 0x40, 0x80 + r % 0x40]
    else [0xF0 + r / 0x40000, 0x80 + r / 0x1000 % 0x40, 0x80 + r / 0x40 % 0x40, 0x80 + r % 0x40]
  }

  function Encode(rs: seq<nat>): seq<Byte> {
    if rs == [] then [] else EncodeRune(rs[0]) + Encode(rs[1..])
  }

  lemma EncodeInvertsTwo(p: seq<Byte>)
    requires Wellformed(p) && Announced(p[0]) == 2
    ensures EncodeRune(DecodeRune(p).0) == p[..2]
  {
  }

  lemma EncodeInvertsThree(p: seq<Byte>)
    requires Wellformed(p) && Announced(p[0]) == 3
    ensures EncodeRune(DecodeRune(p).0) == p[..3]
  {
    var a: int, b: int, c: int := p[0] - 0xE0, p[1] - 0x80, p[2] - 0x80;
    var r := DecodeRune(p).0;
    assert r == a * 0x1000 + b * 0x40 + c;
    assert r / 0x1000 == a && r / 0x40 == a * 0x40 + b && r % 0x40 == c;
  }

  lemma FourDigits(a: nat, b: nat, c: nat, d: nat)
    requires a <= 4 && b < 0x40 && c < 0x40 && d < 0x40 && (a == 0 ==> b >= 0x10) && (a == 4 ==> b < 0x10)
    ensures var r := a * 0x40000 + b * 0x1000 + c * 0x40 + d;
      EncodeRune(r) == [0xF0 + a, 0x80 + b, 0x80 + c, 0x80 + d]
  {
    var r := a * 0x40000 + b * 0x1000 + c * 0x40 + d;
    assert r / 0x40000 == a;
    assert r / 0x1000 == a * 0x40 + b;
    assert r / 0x40 == (a * 0x40 + b) * 0x40 + c;
  }

  lemma LowOfFirst(b: Byte)
    requires Within(b, 0xF0, 0xF4)
    ensures Low(b, 0x08) == b - 0xF0
  {
  }

  lemma LowOfNext(b: Byte)
    requires Continues(b)
    ensures Low(b, 0x40) == b - 0x80
  {
  }

  lemma EncodeInvertsFour(p: seq<Byte>)
    requires Wellformed(p) && Announced(p[0]) == 4
    ensures EncodeRune(DecodeRune(p).0) == p[..4]
  {
    LowOfFirst(p[0]);
    LowOfNext(p[1]);
    LowOfNext(p[2]);
    LowOfNext(p[3]);
    hide Low;
    FourDigits(Low(p[0], 0x08), Low(p[1], 0x40), Low(p[2], 0x40), Low(p[3], 0x40));
    hide EncodeRune;
  }

  /** Encoding undoes the decoding of a valid encoding, byte for byte. */
  lemma EncodeInverts(p: seq<Byte>)
    requires Wellformed(p)
    ensures EncodeRune(DecodeRune(p).0) == p[..DecodeRune(p).1]
  {
    if Announced(p[0]) == 2 {
      EncodeInvertsTwo(p);
    } else if Announced(p[0]) == 3 {
      EncodeInvertsThree(p);
    } else if Announced(p[0]) == 4 {
      EncodeInvertsFour(p);
    }
  }

  /** Every complete encoding of the stream is valid. */
  predicate ValidUtf8(p: seq<Byte>) {
    FullRune(p) ==> Wellformed(p) && ValidUtf8(p[DecodeRune(p).1..])
  }

  lemma EncodeFirst(r: nat, rs: seq<nat>)
    ensures Encode([r] + rs) == EncodeRune(r) + Encode(rs)
  {
    assert ([r] + rs)[1..] == rs;
  }

  lemma {:induction false} RoundTrip(p: seq<Byte>)
    requires ValidUtf8(p)
    ensures Encode(Runes(p)) + Rest(p) == p
    decreases |p|
  {
    hide FullRune, DecodeRune, EncodeRune, Wellformed, Runes, Rest, Encode;
    if FullRune(p) {
      Unfold(p);
      var (r, n) := DecodeRune(p);
      EncodeInverts(p);
      RoundTrip(p[n..]);
      EncodeFirst(r, Runes(p[n..]));
      assert p == p[..n] + p[n..];
      Associate(p[..n], Encode(Runes(p[n..])), Rest(p[n..]));
    } else {
      NothingWhole(p);
      EncodeNothing(p);
    }
  }

  lemma EncodeNothing(p: seq<Byte>)
    ensures Encode([]) + p == p
  {
  }

  // ---- the stream in pieces -----------------------------------------------------------------------------

  /** A rune that is complete stays the same when more bytes follow. */
  lemma FullStays(p: seq<Byte>, q: seq<Byte>)
    requires FullRune(p)
    ensures FullRune(p + q) && DecodeRune(p + q) == DecodeRune(p)
  {
    assert forall k :: 0 <= k < |p| ==> (p + q)[k] == p[k];
  }

  /** Decoding a stream in two pieces: what the first piece leaves is put before the second. */
  lemma {:induction false} Pieces(p: seq<Byte>, q: seq<Byte>)
    ensures Runes(p + q) == Runes(p) + Runes(Rest(p) + q)
    ensures Rest(p + q) == Rest(Rest(p) + q)
    decreases |p|
  {
    hide FullRune, DecodeRune, Runes, Rest;
    if FullRune(p) {
      FullStays(p, q);
      Unfold(p);
      Unfold(p + q);
      var (r, n) := DecodeRune(p);
      assert (p + q)[n..] == p[n..] + q;
      Pieces(p[n..], q);
      Associate([r], Runes(p[n..]), Runes(Rest(p) + q));
    } else {
      NothingWhole(p);
      assert [] + Runes(p + q) == Runes(p + q);
    }
  }

  lemma Associate<T>(a: seq<T>, b: seq<T>, c: seq<T>)
    ensures a + (b + c) == (a + b) + c
  {
  }

  /** The first rune, and what follows it. */
  lemma Unfold(p: seq<Byte>)
    requires FullRune(p)
    ensures p != [] && 1 <= DecodeRune(p).1 <= |p|
    ensures Runes(p) == [DecodeRune(p).0] + Runes(p[DecodeRune(p).1..]) && Rest(p) == Rest(p[DecodeRune(p).1..])
  {
  }

  lemma NothingWhole(p: seq<Byte>)
    ensures p == [] || !FullRune(p) ==> Runes(p) == [] && Rest(p) == p
  {
  }

  /** At most three bytes ever wait for the rest of their rune. */
  lemma {:induction false} RestIsShort(p: seq<Byte>)
    ensures |Rest(p)| <= 3 && !FullRune(Rest(p))
  {
    if FullRune(p) {
      RestIsShort(p[DecodeRune(p).1..]);
    }
  }

  // ---- the two ends --------------------------------------------------------------------------------------

  function First(rs: seq<nat>): seq<nat> {
    if |rs| <= LIMIT then rs else rs[..LIMIT]
  }

  /** The last `LIMIT` runes of those after the first `LIMIT`. */
  function Last(rs: seq<nat>): seq<nat> {
    if |rs| <= LIMIT then []
    else if |rs| <= 2 * LIMIT then rs[LIMIT..]
    else rs[|rs| - LIMIT..]
  }

  /** "\n[truncated]\n" */
  const MARKER: seq<Byte> := [10, 91, 116, 114, 117, 110, 99, 97, 116, 101, 100, 93, 10]

  /** Decode everything, keep both ends. */
  function Kept(stream: seq<Byte>): seq<Byte> {
    var rs := Runes(stream);
    Encode(First(rs)) + (if |rs| > 2 * LIMIT then MARKER else []) + Encode(Last(rs)) + Rest(stream)
  }

  /** The marker stands exactly for a loss: without it the two ends are the whole stream. */
  lemma MarkerIffDropped(rs: seq<nat>)
    ensures |rs| > 2 * LIMIT <==> First(rs) + Last(rs) != rs
    ensures First(rs) <= rs && Last(rs) == rs[|rs| - |Last(rs)|..]
    ensures |First(rs)| <= LIMIT && |Last(rs)| <= LIMIT
  {
    if |rs| <= 2 * LIMIT && |rs| > LIMIT {
      assert rs[..LIMIT] + rs[LIMIT..] == rs;
    }
  }

  lemma {:induction false} EncodeAppend(a: seq<nat>, b: seq<nat>)
    ensures Encode(a + b) == Encode(a) + Encode(b)
  {
    if a == [] {
      assert a + b == b;
    } else {
      EncodeAppend(a[1..], b);
      assert a == [a[0]] + a[1..];
      Associate([a[0]], a[1..], b);
      EncodeFirst(a[0], a[1..]);
      EncodeFirst(a[0], a[1..] + b);
      hide Encode, EncodeRune;
      Associate(EncodeRune(a[0]), Encode(a[1..]), Encode(b));
    }
  }

  /** A valid stream of at most 20000 runes comes out unchanged. */
  lemma ShortOutputIsExact(stream: seq<Byte>)
    requires ValidUtf8(stream) && |Runes(stream)| <= 2 * LIMIT
    ensures Kept(stream) == stream
  {
    var rs := Runes(stream);
    MarkerIffDropped(rs);
    EncodeAppend(First(rs), Last(rs));
    RoundTrip(stream);
    assert Encode(First(rs)) + [] == Encode(First(rs));
  }

  function Tail(rs: seq<nat>): seq<nat> {
    if |rs| > LIMIT then rs[|rs| - LIMIT..] else rs
  }

  lemma EndsStep(rs: seq<nat>, r: nat)
    ensures |rs| < LIMIT ==> First(rs + [r]) == First(rs) + [r] && Last(rs + [r]) == Last(rs)
    ensures |rs| >= LIMIT ==> First(rs + [r]) == First(rs)
    ensures |rs| >= LIMIT ==> |First(rs)| == LIMIT && Last(rs + [r]) == Tail(Last(rs) + [r])
    ensures |rs| < LIMIT ==> |First(rs)| < LIMIT
  {
  }

  class Buffer {
    var head: seq<nat>
    var tail: seq<nat>
    var pending: seq<Byte>
    var total: nat
    ghost var stream: seq<Byte>

    constructor ()
      ensures Valid() && stream == []
    {
      head, tail, pending, total, stream := [], [], [], 0, [];
    }

    /** The buffer is a function of all bytes written so far, in whatever pieces they came. */
    ghost predicate Valid()
      reads this
    {
      && head == First(Runes(stream)) && tail == Last(Runes(stream))
      && total == |Runes(stream)| && pending == Rest(stream)
    }

    /** A rune goes to the head while there is room, else to the tail, whose front gives way. */
    method Keep(r: nat, ghost rs: seq<nat>)
      requires head == First(rs) && tail == Last(rs)
      modifies this`head, this`tail
      ensures head == First(rs + [r]) && tail == Last(rs + [r])
    {
      EndsStep(rs, r);
      hide First, Last;
      if |head| < LIMIT {
        head := head + [r];
      } else {
        tail := tail + [r];
        if |tail| > LIMIT {
          tail := tail[|tail| - LIMIT..];
        }
      }
    }

    method Write(p: seq<Byte>) returns (n: nat)
      requires Valid()
      modifies this
      ensures Valid() && stream == old(stream) + p && n == |p|
      ensures |head| <= LIMIT && |tail| <= LIMIT && |pending| <= 3
    {
      ghost var all, seen := stream + p, Runes(stream);
      Pieces(stream, p);
      pending := pending + p;
      hide FullRune, DecodeRune, Runes, Rest, First, Last;
      while |pending| > 0
        invariant stream == old(stream) && seen + Runes(pending) == Runes(all) && Rest(pending) == Rest(all)
        invariant head == First(seen) && tail == Last(seen) && total == |seen|
        decreases |pending|
      {
        if !FullRune(pending) {
          break;
        }
        Unfold(pending);
        var (r, width) := DecodeRune(pending);
        Associate(seen, [r], Runes(pending[width..]));
        Keep(r, seen);
        pending, total, seen := pending[width..], total + 1, seen + [r];
      }
      NothingWhole(pending);
      assert seen + [] == seen;
      stream := all;
      MarkerIffDropped(seen);
      RestIsShort(all);
      n := |p|;
    }

    method String() returns (s: seq<Byte>)
      requires Valid()
      ensures s == Kept(stream)
    {
      var sep: seq<Byte> := [];
      if total > 2 * LIMIT {
        sep := MARKER;
      }
      s := Encode(head) + sep + Encode(tail) + pending;
    }
  }
}
