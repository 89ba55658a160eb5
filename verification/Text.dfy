/** Text utilities shared by the SQL scanners: Rust's `str` helpers, over sequences of
    Unicode scalar values. */
module Text {

  datatype Option<+T> = None | Some(value: T)

  /** Adds `n` to a found position. */
  function Shift(n: nat, o: Option<nat>): Option<nat> {
    match o
    case None => None
    case Some(k) => Some(n + k)
  }

  /** Keeps a found position only when it lies within the first `n` characters. */
  function Within(o: Option<nat>, n: nat): Option<nat> {
    if o.Some? && o.value <= n then o else None
  }

  // ---------- characters ----------

  /** `char::is_whitespace`: the Unicode White_Space property. */
  predicate IsSpace(c: char) {
    || '\t' <= c <= '\r' || c == ' ' || c == '\U{0085}' || c == '\U{00A0}' || c == '\U{1680}'
    || '\U{2000}' <= c <= '\U{200A}' || c == '\U{2028}' || c == '\U{2029}' || c == '\U{202F}'
    || c == '\U{205F}' || c == '\U{3000}'
  }

  predicate IsDigit(c: char) { '0' <= c <= '9' }

  predicate IsAlpha(c: char) { 'a' <= c <= 'z' || 'A' <= c <= 'Z' }

  predicate IsAlnum(c: char) { IsAlpha(c) || IsDigit(c) }

  /** A character of a dollar-quote tag. */
  predicate IsTagChar(c: char) { IsAlnum(c) || c == '_' }

  predicate IsAscii(c: char) { c < '\U{0080}' }

  function Upper(c: char): char { if 'a' <= c <= 'z' then (c as int - 32) as char else c }

  function Lower(c: char): char { if 'A' <= c <= 'Z' then (c as int + 32) as char else c }

  function ToUpper(s: string): (r: string)
    ensures |r| == |s|
    ensures forall i :: 0 <= i < |s| ==> r[i] == Upper(s[i])
  {
    seq(|s|, i requires 0 <= i < |s| => Upper(s[i]))
  }

  function ToLower(s: string): (r: string)
    ensures |r| == |s|
    ensures forall i :: 0 <= i < |s| ==> r[i] == Lower(s[i])
  {
    seq(|s|, i requires 0 <= i < |s| => Lower(s[i]))
  }

  // ---------- trimming and searching ----------

  function TrimStart(s: string): (r: string)
    ensures |r| <= |s|
    ensures r != [] ==> !IsSpace(r[0])
    ensures s != [] && !IsSpace(s[0]) ==> r == s
  {
    if s != [] && IsSpace(s[0]) then TrimStart(s[1..]) else s
  }

  function TrimEnd(s: string): (r: string)
    ensures r <= s
    ensures r != [] ==> !IsSpace(r[|r| - 1])
    ensures s != [] && !IsSpace(s[|s| - 1]) ==> r == s
  {
    if s != [] && IsSpace(s[|s| - 1]) then TrimEnd(s[..|s| - 1]) else s
  }

  function Trim(s: string): string { TrimEnd(TrimStart(s)) }

  /** `str::find`: the first position at which `needle` occurs. */
  function Find(s: string, needle: string): (r: Option<nat>)
    ensures r.Some? ==> r.value + |needle| <= |s| && s[r.value..r.value + |needle|] == needle
  {
    if needle <= s then Some(0)
    else if s == [] then None
    else Shift(1, Find(s[1..], needle))
  }

  predicate Contains(s: string, needle: string) { Find(s, needle).Some? }

  /** Length of the leading run of tag characters. */
  function TagRun(s: string): (n: nat)
    ensures n <= |s|
    ensures forall i :: 0 <= i < n ==> IsTagChar(s[i])
    ensures n < |s| ==> !IsTagChar(s[n])
  {
    if s != [] && IsTagChar(s[0]) then 1 + TagRun(s[1..]) else 0
  }

  /** The words of `str::split_whitespace`. */
  function Words(s: string): seq<string>
    decreases |s|
  {
    var t := TrimStart(s);
    if t == [] then []
    else
      var n := WordLen(t);
      [t[..n]] + Words(t[n..])
  }

  function WordLen(s: string): (n: nat)
    ensures n <= |s|
    ensures s != [] && !IsSpace(s[0]) ==> 1 <= n
  {
    if s != [] && !IsSpace(s[0]) then 1 + WordLen(s[1..]) else 0
  }

  // ---------- comments ----------

  predicate OpensLine(s: string) { |s| >= 2 && s[0] == '-' && s[1] == '-' }

  predicate OpensBlock(s: string) { |s| >= 2 && s[0] == '/' && s[1] == '*' }

  predicate ClosesBlock(s: string) { |s| >= 2 && s[0] == '*' && s[1] == '/' }

  /** `s` is inside `depth` open block comments: length until all are closed. */
  function BlockEnd(s: string, depth: nat): (r: Option<nat>)
    ensures r.Some? ==> r.value <= |s|
    decreases |s|
  {
    if depth == 0 then Some(0)
    else if s == [] then None
    else if OpensBlock(s) then Shift(2, BlockEnd(s[2..], depth + 1))
    else if ClosesBlock(s) then Shift(2, BlockEnd(s[2..], depth - 1))
    else Shift(1, BlockEnd(s[1..], depth))
  }

  lemma BlockEndStep(s: string, depth: nat)
    ensures depth == 0 ==> BlockEnd(s, depth) == Some(0)
    ensures depth > 0 && s == [] ==> BlockEnd(s, depth).None?
    ensures depth > 0 && OpensBlock(s) ==> BlockEnd(s, depth) == Shift(2, BlockEnd(s[2..], depth + 1))
    ensures depth > 0 && ClosesBlock(s) ==> BlockEnd(s, depth) == Shift(2, BlockEnd(s[2..], depth - 1))
    ensures depth > 0 && s != [] && !OpensBlock(s) && !ClosesBlock(s) ==>
              BlockEnd(s, depth) == Shift(1, BlockEnd(s[1..], depth))
  {}

  // ---------- sequences of strings ----------

  function Join(parts: seq<string>, separator: string): string {
    if parts == [] then []
    else if |parts| == 1 then parts[0]
    else parts[0] + separator + Join(parts[1..], separator)
  }

  function Map<A, B>(f: A -> B, s: seq<A>): (r: seq<B>)
    ensures |r| == |s|
    ensures forall i :: 0 <= i < |s| ==> r[i] == f(s[i])
  {
    seq(|s|, i requires 0 <= i < |s| => f(s[i]))
  }

  function Filter<A(!new)>(p: A -> bool, s: seq<A>): (r: seq<A>)
    ensures forall x :: x in r <==> x in s && p(x)
  {
    if s == [] then []
    else if p(s[0]) then
      var r := [s[0]] + Filter(p, s[1..]);
      assert s == [s[0]] + s[1..];
      r
    else
      assert s == [s[0]] + s[1..];
      Filter(p, s[1..])
  }

  lemma {:induction false} FilterConcat<A(!new)>(p: A -> bool, a: seq<A>, b: seq<A>)
    ensures Filter(p, a + b) == Filter(p, a) + Filter(p, b)
  {
    if a == [] {
      assert a + b == b;
    } else {
      assert (a + b)[1..] == a[1..] + b;
      FilterConcat(p, a[1..], b);
    }
  }

  // ---------- order ----------

  /** Lexicographic order on strings: the order of a `BTreeMap<String, _>`. */
  predicate StrLe(a: string, b: string) {
    a == [] || (b != [] && (a[0] < b[0] || (a[0] == b[0] && StrLe(a[1..], b[1..]))))
  }

  predicate StrLt(a: string, b: string) { StrLe(a, b) && a != b }

  lemma {:induction false} StrTotal(a: string, b: string)
    ensures StrLe(a, b) || StrLe(b, a)
    ensures StrLe(a, b) && StrLe(b, a) ==> a == b
  {
    if a != [] && b != [] && a[0] == b[0] {
      StrTotal(a[1..], b[1..]);
      assert a == [a[0]] + a[1..] && b == [b[0]] + b[1..];
    }
  }

  lemma {:induction false} StrTransitive(a: string, b: string, c: string)
    requires StrLe(a, b) && StrLe(b, c)
    ensures StrLe(a, c)
  {
    if a != [] && a[0] == b[0] == c[0] {
      StrTransitive(a[1..], b[1..], c[1..]);
    }
  }

  predicate IsLeast(k: string, s: set<string>) { k in s && forall j :: j in s ==> StrLe(k, j) }

  lemma {:induction false} LeastStep(x: string, k: string, s: set<string>)
    requires IsLeast(k, s)
    ensures IsLeast(if StrLe(x, k) then x else k, s + {x})
  {
    StrTotal(x, k);
    StrTotal(x, x);
    if StrLe(x, k) {
      forall j | j in s ensures StrLe(x, j) { StrTransitive(x, k, j); }
    }
  }

  lemma {:induction false} LeastExists(s: set<string>)
    requires s != {}
    ensures exists k :: IsLeast(k, s)
  {
    var x :| x in s;
    if s - {x} == {} {
      StrTotal(x, x);
      assert s == {x};
      assert IsLeast(x, s);
    } else {
      LeastExists(s - {x});
      var k :| IsLeast(k, s - {x});
      LeastStep(x, k, s - {x});
      assert s - {x} + {x} == s;
    }
  }

  /** The least key: what a `BTreeMap` iteration yields next. */
  function Least(s: set<string>): (k: string)
    requires s != {}
    ensures IsLeast(k, s)
  {
    LeastExists(s);
    assert forall a, b :: IsLeast(a, s) && IsLeast(b, s) ==> a == b by {
      forall a, b | IsLeast(a, s) && IsLeast(b, s) ensures a == b { StrTotal(a, b); }
    }
    var k :| IsLeast(k, s);
    k
  }

  /** The keys of a `BTreeMap` in iteration order. */
  function Sorted(s: set<string>): (r: seq<string>)
    ensures forall k :: k in r <==> k in s
    ensures forall i, j :: 0 <= i < j < |r| ==> StrLt(r[i], r[j])
  {
    if s == {} then [] else
      var k := Least(s);
      var rest := Sorted(s - {k});
      [k] + rest
  }
}
