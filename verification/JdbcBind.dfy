/** Reading a Bind message (session.rs): names, formats and values, from a body that may end
    anywhere. */
module JdbcBind {
  import opened Text
  import opened Wire

  /** A value for the driver: text, or bytes it must make sense of itself. */
  datatype Value = Plain(text: Bytes) | Binary(bytes: Bytes)

  datatype BindMessage = BindMessage(portal: Bytes, statement: Bytes, sent: seq<Option<Value>>)

  // ---------- the helpers, each with what is left ----------

  function TakeText(b: Bytes): (r: (Bytes, Bytes))
    ensures |r.1| <= |b|
  {
    match NulAt(b)
    case None => (Lossy(b), [])
    case Some(k) => (Lossy(b[..k]), b[k + 1..])
  }

  function TakeI16(b: Bytes): (r: (int, Bytes))
    ensures |r.1| <= |b| && r.0 < 0x8000
  {
    if |b| < 2 then (0, []) else (GetI16(b), b[2..])
  }

  function TakeI32(b: Bytes): (r: (int, Bytes))
    ensures |r.1| <= |b|
  {
    if |b| < 4 then (-1, []) else (GetI32(b), b[4..])
  }

  function TakeBytes(b: Bytes, length: nat): (r: (Bytes, Bytes))
    ensures |r.1| <= |b|
  {
    var n := if length <= |b| then length else |b|;
    (b[..n], b[n..])
  }

  function AtLeastZero(n: int): nat { if n < 0 then 0 else n }

  function TakeList(b: Bytes, count: nat): (seq<int>, Bytes)
    decreases count
  {
    if count == 0 then ([], b)
    else
      var (n, rest) := TakeI16(b);
      var (more, left) := TakeList(rest, count - 1);
      ([n] + more, left)
  }

  /** One format for all, or one for each. */
  predicate IsBinary(formats: seq<int>, index: nat) {
    (|formats| == 1 && formats[0] == 1) || (index < |formats| && formats[index] == 1)
  }

  function TakeValue(b: Bytes, formats: seq<int>, index: nat): (Option<Value>, Bytes) {
    var (length, rest) := TakeI32(b);
    if length < 0 then (None, rest)
    else
      var (bytes, left) := TakeBytes(rest, length);
      (Some(if IsBinary(formats, index) then Binary(bytes) else Plain(Lossy(bytes))), left)
  }

  /** The values from `index` on. */
  function TakeValues(b: Bytes, formats: seq<int>, index: nat, count: nat): seq<Option<Value>>
    decreases count - index
  {
    if index >= count then []
    else
      var (v, rest) := TakeValue(b, formats, index);
      [v] + TakeValues(rest, formats, index + 1, count)
  }

  /** What follows the names: formats, then values. */
  function DecodeSent(b: Bytes): seq<Option<Value>> {
    var (n, r1) := TakeI16(b);
    var (formats, r2) := TakeList(r1, AtLeastZero(n));
    var (count, r3) := TakeI16(r2);
    TakeValues(r3, formats, 0, AtLeastZero(count))
  }

  function DecodeBind(body: Bytes): BindMessage {
    var (portal, r1) := TakeText(body);
    var (statement, r2) := TakeText(r1);
    BindMessage(portal, statement, DecodeSent(r2))
  }

  // ---------- the loops ----------

  method ReadList(b: Bytes, count: nat) returns (out: seq<int>, rest: Bytes)
    ensures out == TakeList(b, count).0 && rest == TakeList(b, count).1
  {
    out, rest := [], b;
    for i := 0 to count
      invariant out + TakeList(rest, count - i).0 == TakeList(b, count).0
      invariant TakeList(rest, count - i).1 == TakeList(b, count).1
    {
      var (n, left) := TakeI16(rest);
      out, rest := out + [n], left;
    }
  }

  method ReadBind(body: Bytes) returns (m: BindMessage)
    ensures m == DecodeBind(body)
  {
    hide TakeText, TakeI16, TakeI32, TakeBytes, TakeList, IsBinary, Lossy;
    var (portal, r1) := TakeText(body);
    var (statement, r2) := TakeText(r1);
    var (n, r3) := TakeI16(r2);
    var formats, rest := ReadList(r3, AtLeastZero(n));
    var (c, r5) := TakeI16(rest);
    var count := AtLeastZero(c);
    var sent: seq<Option<Value>> := [];
    rest := r5;
    for index := 0 to count
      invariant sent + TakeValues(rest, formats, index, count) == TakeValues(r5, formats, 0, count)
    {
      var (length, left) := TakeI32(rest);
      if length < 0 {
        sent, rest := sent + [None], left;
      } else {
        var (bytes, more) := TakeBytes(left, length);
        sent := sent + [Some(if IsBinary(formats, index) then Binary(bytes) else Plain(Lossy(bytes)))];
        rest := more;
      }
    }
    m := BindMessage(portal, statement, sent);
  }

  // ---------- writing and reading back ----------

  function PutList(formats: seq<int>): Bytes
    requires forall i :: 0 <= i < |formats| ==> -0x8000 <= formats[i] < 0x8000
  {
    if formats == [] then [] else PutI16(formats[0]) + PutList(formats[1..])
  }

  predicate Fits(v: Option<Bytes>) { v.Some? ==> |v.value| < TWO31 }

  function PutValues(values: seq<Option<Bytes>>): Bytes
    requires forall i :: 0 <= i < |values| ==> Fits(values[i])
  {
    if values == [] then []
    else
      assert Fits(values[0]);
      (match values[0] case None => PutI32(-1) case Some(b) => PutI32(|b|) + b) + PutValues(values[1..])
  }

  /** The format of a value: text when none is given, one for all, or one for each. */
  function FormatOf(formats: seq<int>, index: nat): int {
    if formats == [] then 0
    else if |formats| == 1 then formats[0]
    else if index < |formats| then formats[index]
    else 0
  }

  lemma FormatsApply(formats: seq<int>, index: nat)
    ensures IsBinary(formats, index) <==> FormatOf(formats, index) == 1
  {}

  /** What the driver should get for a value the client sent. */
  function Meant(formats: seq<int>, index: nat, v: Option<Bytes>): Option<Value> {
    match v
    case None => None
    case Some(b) => Some(if FormatOf(formats, index) == 1 then Binary(b) else Plain(Lossy(b)))
  }

  lemma {:induction false} ListReadsBack(formats: seq<int>, rest: Bytes)
    requires forall i :: 0 <= i < |formats| ==> -0x8000 <= formats[i] < 0x8000
    ensures TakeList(PutList(formats) + rest, |formats|) == (formats, rest)
  {
    hide PutI16, GetI16;
    var b := PutList(formats) + rest;
    if formats == [] {
      assert b == rest;
    } else {
      var tail := PutList(formats[1..]) + rest;
      assert b == PutI16(formats[0]) + tail;
      I16RoundTrip(formats[0], tail);
      assert b[2..] == tail;
      ListReadsBack(formats[1..], rest);
      assert formats == [formats[0]] + formats[1..];
    }
  }

  lemma ValueReadsBack(formats: seq<int>, index: nat, v: Option<Bytes>, rest: Bytes)
    requires Fits(v)
    ensures var b := (match v case None => PutI32(-1) case Some(x) => PutI32(|x|) + x) + rest;
            TakeValue(b, formats, index) == (Meant(formats, index, v), rest)
  {
    hide PutI32, GetI32, Lossy, IsBinary, FormatOf;
    FormatsApply(formats, index);
    match v
    case None =>
      I32RoundTrip(-1, rest);
      assert (PutI32(-1) + rest)[4..] == rest;
    case Some(x) =>
      var b := PutI32(|x|) + x + rest;
      assert b == PutI32(|x|) + (x + rest);
      I32RoundTrip(|x|, x + rest);
      assert b[4..] == x + rest;
      assert (x + rest)[..|x|] == x && (x + rest)[|x|..] == rest;
  }

  lemma {:induction false} ValuesReadBack(formats: seq<int>, index: nat, values: seq<Option<Bytes>>, rest: Bytes)
    requires forall i :: 0 <= i < |values| ==> Fits(values[i])
    ensures var r := TakeValues(PutValues(values) + rest, formats, index, index + |values|);
            |r| == |values| && forall i :: 0 <= i < |values| ==> r[i] == Meant(formats, index + i, values[i])
    decreases |values|
  {
    hide TakeValue, Meant, PutI32;
    if values != [] {
      var tail := PutValues(values[1..]) + rest;
      var head := match values[0] case None => PutI32(-1) case Some(x) => PutI32(|x|) + x;
      assert PutValues(values) + rest == head + tail;
      ValueReadsBack(formats, index, values[0], tail);
      ValuesReadBack(formats, index + 1, values[1..], rest);
    }
  }

  predicate Writable(formats: seq<int>, values: seq<Option<Bytes>>) {
    && |formats| < 0x8000 && |values| < 0x8000
    && (forall i :: 0 <= i < |formats| ==> -0x8000 <= formats[i] < 0x8000)
    && (forall i :: 0 <= i < |values| ==> Fits(values[i]))
  }

  function PutSent(formats: seq<int>, values: seq<Option<Bytes>>, rest: Bytes): Bytes
    requires Writable(formats, values)
  {
    PutI16(|formats|) + (PutList(formats) + (PutI16(|values|) + (PutValues(values) + rest)))
  }

  lemma SentReadsBack(formats: seq<int>, values: seq<Option<Bytes>>, rest: Bytes)
    requires Writable(formats, values)
    ensures var sent := DecodeSent(PutSent(formats, values, rest));
            |sent| == |values| && forall i :: 0 <= i < |values| ==> sent[i] == Meant(formats, i, values[i])
  {
    hide PutI16, GetI16, PutList, PutValues, TakeList, TakeValues, Meant;
    var r3 := PutValues(values) + rest;
    var r2 := PutI16(|values|) + r3;
    var r1 := PutList(formats) + r2;
    var b := PutI16(|formats|) + r1;
    assert PutSent(formats, values, rest) == b;
    I16RoundTrip(|formats|, r1);
    assert b[2..] == r1;
    ListReadsBack(formats, r2);
    I16RoundTrip(|values|, r3);
    assert r2[2..] == r3;
    ValuesReadBack(formats, 0, values, rest);
  }

  /** Every Bind a client can write is read as it was meant, whatever follows it: the names, and
      each value with its format, NULL apart from empty, text decoded and bytes kept. */
  lemma BindReadsBack(portal: Bytes, statement: Bytes, formats: seq<int>, values: seq<Option<Bytes>>, rest: Bytes)
    requires NulFree(portal) && NulFree(statement) && Writable(formats, values)
    ensures var m := DecodeBind(portal + [0] + (statement + [0] + PutSent(formats, values, rest)));
            && m.portal == Lossy(portal) && m.statement == Lossy(statement) && |m.sent| == |values|
            && forall i :: 0 <= i < |values| ==> m.sent[i] == Meant(formats, i, values[i])
  {
    hide PutSent, DecodeSent, Lossy, Meant, TakeText, NulFree;
    TextReadsBack(portal, statement + [0] + PutSent(formats, values, rest));
    TextReadsBack(statement, PutSent(formats, values, rest));
    SentReadsBack(formats, values, rest);
  }

  lemma TextReadsBack(a: Bytes, rest: Bytes)
    requires NulFree(a)
    ensures TakeText(a + [0] + rest) == (Lossy(a), rest)
  {
    hide Lossy;
    NulAtAfter(a, rest);
    var b := a + [0] + rest;
    assert b[..|a|] == a && b[|a| + 1..] == rest;
  }

  // ---------- a body that ends too early ----------

  function Nulls(n: nat): seq<Option<Value>> { if n == 0 then [] else [None] + Nulls(n - 1) }

  function TextFormats(n: nat): seq<int> { if n == 0 then [] else [0] + TextFormats(n - 1) }

  lemma {:induction false} NullsLong(n: nat)
    ensures |Nulls(n)| == n
  {
    if n > 0 { NullsLong(n - 1); }
  }

  /** Values that are not there are NULL, and formats that are not there are text. */
  lemma {:induction false} NothingLeft(formats: seq<int>, index: nat, n: nat)
    ensures TakeValues([], formats, index, index + n) == Nulls(n)
    ensures TakeList([], n) == (TextFormats(n), [])
    decreases n
  {
    if n > 0 { NothingLeft(formats, index + 1, n - 1); }
  }

  /** A value whose bytes are cut short is what is there of it. */
  lemma CutValue(formats: seq<int>, index: nat, length: nat, x: Bytes)
    requires length < TWO31 && |x| <= length
    ensures TakeValue(PutI32(length) + x, formats, index) == (Meant(formats, index, Some(x)), [])
  {
    hide PutI32, GetI32, Lossy, IsBinary, FormatOf;
    FormatsApply(formats, index);
    I32RoundTrip(length, x);
    assert (PutI32(length) + x)[4..] == x && x[..|x|] == x;
  }

  /** A length that is cut short is a NULL that takes the rest. */
  lemma CutLength(formats: seq<int>, index: nat, b: Bytes)
    requires |b| < 4
    ensures TakeValue(b, formats, index) == (None, [])
  {}

  /** So a Bind that ends after its names has no values; after the count of its values, or inside
      one, the rest are NULL. */
  lemma CutBind(formats: seq<int>, values: seq<Option<Bytes>>, missing: nat, length: nat, x: Bytes)
    requires Writable(formats, values) && |values| + 1 + missing < 0x8000 && length < TWO31 && |x| <= length
    ensures DecodeSent([]) == []
    ensures var head := PutI16(|formats|) + (PutList(formats) + (PutI16(|values| + 1 + missing) + PutValues(values)));
            var sent := DecodeSent(head + (PutI32(length) + x));
            && |sent| == |values| + 1 + missing
            && (forall i :: 0 <= i < |values| ==> sent[i] == Meant(formats, i, values[i]))
            && sent[|values|] == Meant(formats, |values|, Some(x))
            && sent[|values| + 1..] == Nulls(missing)
  {
    hide PutI16, GetI16, PutI32, PutList, PutValues, TakeList, TakeValues, TakeValue, Meant;
    var cut := PutI32(length) + x;
    var count := |values| + 1 + missing;
    var r3 := PutValues(values) + cut;
    var r2 := PutI16(count) + r3;
    var r1 := PutList(formats) + r2;
    var b := PutI16(|formats|) + r1;
    assert PutI16(|formats|) + (PutList(formats) + (PutI16(count) + PutValues(values))) + cut == b;
    I16RoundTrip(|formats|, r1);
    assert b[2..] == r1;
    ListReadsBack(formats, r2);
    I16RoundTrip(count, r3);
    assert r2[2..] == r3;
    CutValues(formats, 0, values, missing, length, x);
    assert DecodeSent(b) == TakeValues(r3, formats, 0, count);
    NothingLeft([], 0, 0);
  }

  lemma {:induction false} CutValues(formats: seq<int>, index: nat, values: seq<Option<Bytes>>, missing: nat, length: nat, x: Bytes)
    requires (forall i :: 0 <= i < |values| ==> Fits(values[i])) && length < TWO31 && |x| <= length
    ensures var r := TakeValues(PutValues(values) + (PutI32(length) + x), formats, index, index + |values| + 1 + missing);
            && |r| == |values| + 1 + missing
            && (forall i :: 0 <= i < |values| ==> r[i] == Meant(formats, index + i, values[i]))
            && r[|values|] == Meant(formats, index + |values|, Some(x)) && r[|values| + 1..] == Nulls(missing)
    decreases |values|
  {
    hide TakeValue, Meant, PutI32;
    var cut := PutI32(length) + x;
    var count := index + |values| + 1 + missing;
    if values == [] {
      assert PutValues(values) + cut == cut;
      CutValue(formats, index, length, x);
      NothingLeft(formats, index + 1, missing);
      var v := Meant(formats, index, Some(x));
      assert TakeValues(cut, formats, index, count) == [v] + TakeValues([], formats, index + 1, count);
      assert count == index + 1 + missing && |Nulls(missing)| == missing by { NullsLong(missing); }
    } else {
      var tail := PutValues(values[1..]) + cut;
      var head := match values[0] case None => PutI32(-1) case Some(y) => PutI32(|y|) + y;
      assert PutValues(values) + cut == head + tail;
      assert Fits(values[0]);
      ValueReadsBack(formats, index, values[0], tail);
      CutValues(formats, index + 1, values[1..], missing, length, x);
      var r, s := TakeValues(head + tail, formats, index, count), TakeValues(tail, formats, index + 1, count);
      assert r == [Meant(formats, index, values[0])] + s;
    }
  }
}
