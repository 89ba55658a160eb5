/** What UTF-8 is: well-formed bytes are exactly the encodings of texts, and a malformed start is
    replaced once for as long as it could still have become well formed. */
module Utf8 {
  import opened Text
  import opened Wire
  import Scanner

  // ---------- encoding ----------

  /** The bits of a character, six to a byte. */
  function EncodeChar(c: char): (r: Bytes)
    ensures 1 <= |r| <= 4
  {
    var n := c as int;
    if n < 0x80 then [n]
    else if n < 0x800 then [0xC0 + n / 0x40, 0x80 + n % 0x40]
    else if n < 0x1_0000 then [0xE0 + n / 0x1000, 0x80 + n / 0x40 % 0x40, 0x80 + n % 0x40]
    else [0xF0 + n / 0x4_0000, 0x80 + n / 0x1000 % 0x40, 0x80 + n / 0x40 % 0x40, 0x80 + n % 0x40]
  }

  function EncodeText(s: string): Bytes { if s == "" then [] else EncodeChar(s[0]) + EncodeText(s[1..]) }

  /** The number that the first `n` bytes carry. */
  function Carried(b: Bytes, n: nat): int
    requires n <= |b|
  {
    if n == 1 then b[0]
    else if n == 2 then (b[0] as int - 0xC0) * 0x40 + (b[1] as int - 0x80)
    else if n == 3 then (b[0] as int - 0xE0) * 0x1000 + (b[1] as int - 0x80) * 0x40 + (b[2] as int - 0x80)
    else if n == 4 then (b[0] as int - 0xF0) * 0x4_0000 + (b[1] as int - 0x80) * 0x1000 + (b[2] as int - 0x80) * 0x40 + (b[3] as int - 0x80)
    else 0
  }

  predicate IsScalar(n: int) { 0 <= n < 0xD800 || 0xE000 <= n < 0x11_0000 }

  /** A well-formed sequence carries a scalar value, in no more bytes than it takes. */
  lemma CarriesScalar(b: Bytes)
    requires Utf8Len(b) > 0
    ensures var n := Carried(b, Utf8Len(b));
            && IsScalar(n)
            && (Utf8Len(b) == 1 <==> n < 0x80) && (Utf8Len(b) <= 2 <==> n < 0x800) && (Utf8Len(b) <= 3 <==> n < 0x1_0000)
  {}

  function DecodeChar(b: Bytes): char
    requires Utf8Len(b) > 0
  {
    CarriesScalar(b);
    Carried(b, Utf8Len(b)) as char
  }

  lemma TwoDigits(a: int, b: int)
    requires 0 <= b < 0x40
    ensures (a * 0x40 + b) / 0x40 == a && (a * 0x40 + b) % 0x40 == b
  {}

  /** The encoding of the character that was carried. */
  lemma EncodesBack(b: Bytes)
    requires Utf8Len(b) > 0
    ensures EncodeChar(DecodeChar(b)) == b[..Utf8Len(b)]
  {
    CarriesScalar(b);
    var n := Carried(b, Utf8Len(b));
    if Utf8Len(b) == 2 {
      TwoDigits(b[0] as int - 0xC0, b[1] - 0x80);
    } else if Utf8Len(b) == 3 {
      var m := (b[0] as int - 0xE0) * 0x40 + (b[1] as int - 0x80);
      assert n == m * 0x40 + (b[2] as int - 0x80);
      TwoDigits(m, b[2] - 0x80);
      TwoDigits(b[0] as int - 0xE0, b[1] - 0x80);
      Deeper(n);
    } else if Utf8Len(b) == 4 {
      var l := (b[0] as int - 0xF0) * 0x40 + (b[1] as int - 0x80);
      var m := l * 0x40 + (b[2] as int - 0x80);
      assert n == m * 0x40 + (b[3] as int - 0x80);
      TwoDigits(m, b[3] - 0x80);
      TwoDigits(l, b[2] - 0x80);
      TwoDigits(b[0] as int - 0xF0, b[1] - 0x80);
      Deeper(n);
    }
  }

  lemma Deeper(n: int)
    requires n >= 0
    ensures n / 0x40 / 0x40 == n / 0x1000 && n / 0x1000 / 0x40 == n / 0x4_0000
  {}

  /** The encoding of a character is a well-formed sequence, whatever follows it. */
  lemma EncodedIsWellFormed(c: char, rest: Bytes)
    ensures Utf8Len(EncodeChar(c) + rest) == |EncodeChar(c)|
  {
    var n := c as int;
    var s := EncodeChar(c) + rest;
    assert forall i :: 0 <= i < |EncodeChar(c)| ==> s[i] == EncodeChar(c)[i];
    Deeper(n);
    if 0x800 <= n < 0x1_0000 {
      ThreeBytes(n);
    } else if n >= 0x1_0000 {
      FourBytes(n);
    }
  }

  lemma ThreeBytes(n: int)
    requires 0x800 <= n < 0x1_0000 && IsScalar(n)
    ensures var a, b := 0xE0 + n / 0x1000, 0x80 + n / 0x40 % 0x40;
            0xE0 <= a <= 0xEF && 0x80 <= b <= 0xBF && (a == 0xE0 ==> b >= 0xA0) && (a == 0xED ==> b <= 0x9F)
  {
    var m := n / 0x40;
    assert n / 0x1000 == m / 0x40 && m == m / 0x40 * 0x40 + m % 0x40 by { Deeper(n); }
  }

  lemma FourBytes(n: int)
    requires 0x1_0000 <= n < 0x11_0000
    ensures var a, b := 0xF0 + n / 0x4_0000, 0x80 + n / 0x1000 % 0x40;
            0xF0 <= a <= 0xF4 && 0x80 <= b <= 0xBF && (a == 0xF0 ==> b >= 0x90) && (a == 0xF4 ==> b <= 0x8F)
  {
    var m := n / 0x1000;
    assert n / 0x4_0000 == m / 0x40 && m == m / 0x40 * 0x40 + m % 0x40 by { Deeper(n); }
  }

  // ---------- texts ----------

  function DecodeText(b: Bytes): string
    requires ValidUtf8(b)
  {
    if b == [] then "" else [DecodeChar(b)] + DecodeText(b[Utf8Len(b)..])
  }

  lemma {:induction false} TextIsWellFormed(s: string)
    ensures ValidUtf8(EncodeText(s))
  {
    hide Utf8Len, EncodeChar;
    if s != "" {
      var rest := EncodeText(s[1..]);
      EncodedIsWellFormed(s[0], rest);
      assert (EncodeChar(s[0]) + rest)[|EncodeChar(s[0])|..] == rest;
      TextIsWellFormed(s[1..]);
    }
  }

  lemma {:induction false} WellFormedIsText(b: Bytes)
    requires ValidUtf8(b)
    ensures EncodeText(DecodeText(b)) == b
  {
    hide Utf8Len, EncodeChar;
    if b != [] {
      EncodesBack(b);
      WellFormedIsText(b[Utf8Len(b)..]);
      var s := DecodeText(b);
      assert s[1..] == DecodeText(b[Utf8Len(b)..]);
      assert b == b[..Utf8Len(b)] + b[Utf8Len(b)..];
    }
  }

  /** The bytes are well formed exactly when they are the encoding of some text. */
  lemma Utf8Iff(b: Bytes)
    ensures ValidUtf8(b) <==> exists s :: EncodeText(s) == b
  {
    hide Utf8Len, EncodeChar, ValidUtf8;
    if ValidUtf8(b) { WellFormedIsText(b); }
    if s :| EncodeText(s) == b { TextIsWellFormed(s); }
  }

  // ---------- replacement ----------

  /** The bytes are the beginning of a well-formed sequence, and not yet all of one. */
  predicate Begins(p: Bytes, more: Bytes) { more != [] && Utf8Len(p + more) == |p| + |more| }

  ghost predicate CanContinue(p: Bytes) { exists more :: Begins(p, more) }

  /** One replacement character stands for the longest beginning of a sequence, or for one byte. */
  lemma BadLenIsLongest(b: Bytes)
    requires b != [] && Utf8Len(b) == 0
    ensures BadLen(b) > 1 ==> CanContinue(b[..BadLen(b)])
    ensures forall n :: BadLen(b) < n <= |b| ==> !CanContinue(b[..n])
  {
    var k := BadLen(b);
    if k > 1 {
      var more := if b[0] < 0xF0 then [0x80] else if k == 3 then [0x80] else [0x80, 0x80];
      var s := b[..k] + more;
      assert forall i :: 0 <= i < k ==> s[i] == b[i];
      assert Begins(b[..k], more);
    }
    forall n | k < n <= |b| ensures !CanContinue(b[..n]) {
      forall more ensures !Begins(b[..n], more) { TooLong(b, n, more); }
    }
  }

  lemma TooLong(b: Bytes, n: nat, more: Bytes)
    requires b != [] && Utf8Len(b) == 0 && BadLen(b) < n <= |b|
    ensures !Begins(b[..n], more)
  {
    var s := b[..n] + more;
    assert forall i :: 0 <= i < n ==> s[i] == b[i];
  }

  /** The replacement character. */
  lemma ReplacementIs()
    ensures REPLACEMENT == EncodeChar('\U{FFFD}')
  {}

  /** What stripping writes for a character of code: its bytes, each as a character. */
  lemma PushedAre(c: char)
    ensures |Scanner.PushBytes(c)| == |EncodeChar(c)|
    ensures forall i :: 0 <= i < |EncodeChar(c)| ==> Scanner.PushBytes(c)[i] as int == EncodeChar(c)[i] as int
  {}
}
