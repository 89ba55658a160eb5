/** Bytes on the wire: NUL-terminated strings, big-endian integers and UTF-8. */
module Wire {
  import opened Text

  type byte = b: int | 0 <= b < 256

  type Bytes = seq<byte>

  predicate NulFree(b: Bytes) { forall i :: 0 <= i < |b| ==> b[i] != 0 }

  /** Position of the first NUL. */
  function NulAt(b: Bytes): (r: Option<nat>)
    ensures r.Some? ==> r.value < |b| && b[r.value] == 0 && NulFree(b[..r.value])
    ensures r.None? ==> NulFree(b)
  {
    if b == [] then None
    else if b[0] == 0 then Some(0)
    else
      var r := NulAt(b[1..]);
      assert r.Some? ==> b[..r.value + 1] == [b[0]] + b[1..][..r.value];
      assert b == [b[0]] + b[1..];
      Shift(1, r)
  }

  lemma {:induction false} NulAtAfter(a: Bytes, rest: Bytes)
    requires NulFree(a)
    ensures NulAt(a + [0] + rest) == Some(|a|)
  {
    if a == [] {
      assert a + [0] + rest == [0] + rest;
    } else {
      assert (a + [0] + rest)[1..] == a[1..] + [0] + rest;
      NulAtAfter(a[1..], rest);
    }
  }

  /** A NUL-terminated string at the start of `b`, and what follows it. */
  function TakeCString(b: Bytes): (r: Option<(Bytes, Bytes)>)
    ensures r.Some? ==> NulFree(r.value.0) && b == r.value.0 + [0] + r.value.1
  {
    match NulAt(b)
    case None => None
    case Some(k) => Some((b[..k], b[k + 1..]))
  }

  lemma TakeCStringOf(a: Bytes, rest: Bytes)
    requires NulFree(a)
    ensures TakeCString(a + [0] + rest) == Some((a, rest))
  {
    NulAtAfter(a, rest);
    var b := a + [0] + rest;
    assert b[..|a|] == a && b[|a| + 1..] == rest;
  }

  /** Cutting at the first NUL is unambiguous. */
  lemma CStringInjective(a1: Bytes, r1: Bytes, a2: Bytes, r2: Bytes)
    requires NulFree(a1) && NulFree(a2) && a1 + [0] + r1 == a2 + [0] + r2
    ensures a1 == a2 && r1 == r2
  {
    TakeCStringOf(a1, r1);
    TakeCStringOf(a2, r2);
  }

  /** ASCII text as bytes. */
  function Ascii(s: string): (b: Bytes)
    requires forall i :: 0 <= i < |s| ==> s[i] < '\U{0080}'
    ensures |b| == |s| && forall i :: 0 <= i < |s| ==> b[i] == s[i] as int
  {
    if s == "" then [] else [s[0] as int] + Ascii(s[1..])
  }

  // ---------- UTF-8 ----------

  predicate Tail(b: byte) { 0x80 <= b <= 0xBF }

  /** Length of a well-formed UTF-8 sequence at the start of `b`; 0 when there is none. */
  function Utf8Len(b: Bytes): (n: nat)
    ensures n <= |b|
  {
    if b == [] then 0
    else if b[0] < 0x80 then 1
    else if |b| >= 2 && 0xC2 <= b[0] <= 0xDF && Tail(b[1]) then 2
    else if |b| >= 3 && 0xE0 <= b[0] <= 0xEF && Tail(b[1]) && Tail(b[2])
            && (b[0] == 0xE0 ==> b[1] >= 0xA0) && (b[0] == 0xED ==> b[1] <= 0x9F) then 3
    else if |b| >= 4 && 0xF0 <= b[0] <= 0xF4 && Tail(b[1]) && Tail(b[2]) && Tail(b[3])
            && (b[0] == 0xF0 ==> b[1] >= 0x90) && (b[0] == 0xF4 ==> b[1] <= 0x8F) then 4
    else 0
  }

  /** `str::from_utf8` accepts the bytes. */
  predicate ValidUtf8(b: Bytes) {
    b == [] || (Utf8Len(b) > 0 && ValidUtf8(b[Utf8Len(b)..]))
  }

  lemma {:induction false} AsciiIsUtf8(b: Bytes)
    requires forall i :: 0 <= i < |b| ==> b[i] < 0x80
    ensures ValidUtf8(b)
  {
    if b != [] { AsciiIsUtf8(b[1..]); }
  }

  /** The second byte fits the first one of a three- or four-byte sequence. */
  predicate SecondFits(b: Bytes) {
    |b| >= 2 && Tail(b[1])
    && (b[0] == 0xE0 ==> b[1] >= 0xA0) && (b[0] == 0xED ==> b[1] <= 0x9F)
    && (b[0] == 0xF0 ==> b[1] >= 0x90) && (b[0] == 0xF4 ==> b[1] <= 0x8F)
  }

  /** How much of a malformed start one replacement character stands for. */
  function BadLen(b: Bytes): (n: nat)
    requires b != []
    ensures 1 <= n <= |b|
  {
    if 0xE0 <= b[0] <= 0xF4 && SecondFits(b) then
      if b[0] >= 0xF0 && |b| >= 3 && Tail(b[2]) then 3 else 2
    else 1
  }

  const REPLACEMENT: Bytes := [0xEF, 0xBF, 0xBD]

  /** `String::from_utf8_lossy`. */
  function Lossy(b: Bytes): Bytes
    decreases |b|
  {
    if b == [] then []
    else if Utf8Len(b) > 0 then b[..Utf8Len(b)] + Lossy(b[Utf8Len(b)..])
    else REPLACEMENT + Lossy(b[BadLen(b)..])
  }

  /** A well-formed sequence stays one whatever follows it. */
  lemma Utf8LenPrefix(c: Bytes, rest: Bytes)
    requires Utf8Len(c) == |c| && c != []
    ensures Utf8Len(c + rest) == |c|
  {
    var s := c + rest;
    assert forall i :: 0 <= i < |c| ==> s[i] == c[i];
  }

  lemma ValidAfter(c: Bytes, rest: Bytes)
    requires Utf8Len(c) == |c| && c != [] && ValidUtf8(rest)
    ensures ValidUtf8(c + rest)
  {
    Utf8LenPrefix(c, rest);
    assert (c + rest)[|c|..] == rest;
  }

  lemma {:induction false} LossyIsValid(b: Bytes)
    ensures ValidUtf8(Lossy(b))
    decreases |b|
  {
    hide ValidUtf8;
    assert ValidUtf8([]) by { NothingIsValid(); }
    if b != [] {
      if Utf8Len(b) > 0 {
        var c := b[..Utf8Len(b)];
        LossyIsValid(b[Utf8Len(b)..]);
        ValidAfter(c, Lossy(b[Utf8Len(b)..]));
      } else {
        LossyIsValid(b[BadLen(b)..]);
        ValidAfter(REPLACEMENT, Lossy(b[BadLen(b)..]));
      }
    }
  }

  lemma NothingIsValid()
    ensures ValidUtf8([])
  {}

  /** Decoding loses nothing exactly on well-formed text. */
  lemma {:induction false} LossyIff(b: Bytes)
    ensures Lossy(b) == b <==> ValidUtf8(b)
    decreases |b|
  {
    LossyIsValid(b);
    if ValidUtf8(b) && b != [] {
      LossyIff(b[Utf8Len(b)..]);
      assert b == b[..Utf8Len(b)] + b[Utf8Len(b)..];
    }
  }

  // ---------- integers ----------

  const TWO31: int := 0x8000_0000
  const TWO32: int := 0x1_0000_0000

  /** `as i32` and `as i16`: keep the low bits, two's complement. */
  function AsI32(n: int): (r: int)
    ensures -TWO31 <= r < TWO31
  {
    var m := n % TWO32;
    if m < TWO31 then m else m - TWO32
  }

  lemma AsI32Small(n: nat)
    requires n < TWO31
    ensures AsI32(n) == n
  {}

  function AsI16(n: int): (r: int)
    ensures -0x8000 <= r < 0x8000
  {
    var m := n % 0x1_0000;
    if m < 0x8000 then m else m - 0x1_0000
  }

  /** `put_i32`: four bytes, most significant first. */
  function PutI32(n: int): (b: Bytes)
    requires -TWO31 <= n < TWO31
    ensures |b| == 4
  {
    var m := if n < 0 then n + TWO32 else n;
    [m / 0x100_0000, m / 0x1_0000 % 256, m / 256 % 256, m % 256]
  }

  function GetI32(b: Bytes): (n: int)
    requires |b| >= 4
    ensures -TWO31 <= n < TWO31
  {
    var b0: int, b1: int, b2: int, b3: int := b[0], b[1], b[2], b[3];
    var m := b0 * 0x100_0000 + b1 * 0x1_0000 + b2 * 256 + b3;
    if m < TWO31 then m else m - TWO32
  }

  lemma I32RoundTrip(n: int, rest: Bytes)
    requires -TWO31 <= n < TWO31
    ensures GetI32(PutI32(n) + rest) == n
  {
    var m := if n < 0 then n + TWO32 else n;
    assert m / 0x1_0000 == m / 0x100_0000 * 256 + m / 0x1_0000 % 256;
    assert m / 256 == m / 0x1_0000 * 256 + m / 256 % 256;
  }

  function PutI16(n: int): (b: Bytes)
    requires -0x8000 <= n < 0x8000
    ensures |b| == 2
  {
    var m := if n < 0 then n + 0x1_0000 else n;
    [m / 256, m % 256]
  }

  function GetI16(b: Bytes): (n: int)
    requires |b| >= 2
    ensures -0x8000 <= n < 0x8000
  {
    var b0: int, b1: int := b[0], b[1];
    var m := b0 * 256 + b1;
    if m < 0x8000 then m else m - 0x1_0000
  }

  lemma I16RoundTrip(n: int, rest: Bytes)
    requires -0x8000 <= n < 0x8000
    ensures GetI16(PutI16(n) + rest) == n
  {}
}
