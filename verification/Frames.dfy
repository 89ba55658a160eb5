/** The bytes of protocol.rs spelled out: the codes and limits as numbers, what is refused and why,
    and rows read back cell by cell. */
module Frames {
  import opened Text
  import opened Wire
  import opened Prepared
  import opened Protocol

  // ---------- messages ----------

  /** A tag, the length of what follows it in four bytes, and the body. */
  lemma MessageBytes(tag: byte, body: Bytes)
    requires |body| < 0x100
    ensures Encode(Message(tag, body)) ==
            [tag] + (if |body| < 252 then [0, 0, 0, |body| + 4] else [0, 0, 1, |body| - 252]) + body
  {
    AsI32Small(|body| + 4);
  }

  /** What `read` says to any length and any stream. */
  lemma ReadSays(tag: byte, len: int, rest: Bytes)
    requires -TWO31 <= len < TWO31
    ensures Read([tag] + PutI32(len) + rest) ==
            if len < 4 then Bad(BadLength)
            else if len - 4 > 64 * 1024 * 1024 then Bad(TooLarge)
            else if |rest| < len - 4 then Bad(Eof)
            else Good((Message(tag, rest[..len - 4]), rest[len - 4..]))
  {
    hide PutI32, GetI32;
    var s := [tag] + PutI32(len) + rest;
    assert s == [tag] + (PutI32(len) + rest) && s[1..] == PutI32(len) + rest;
    I32RoundTrip(len, rest);
    if 4 <= len && len - 4 <= |rest| {
      assert s[5..len + 1] == rest[..len - 4] && s[len + 1..] == rest[len - 4..];
    }
  }

  lemma ReadNeedsFive(s: Bytes)
    requires |s| < 5
    ensures Read(s) == Bad(Eof)
  {}

  // ---------- startup ----------

  lemma UserIs()
    ensures USER == Ascii("user")
  {
    assert |USER| == 4;
  }

  /** A startup packet is accepted only with a parameter of that name. */
  lemma HasUserIff(params: Params)
    ensures HasUser(params) <==> exists p :: p in params && p.0 == Ascii("user")
  {
    UserIs();
    if HasUser(params) {
      var i :| 0 <= i < |params| && params[i].0 == USER;
      assert params[i] in params;
    }
    if p :| p in params && p.0 == Ascii("user") {
      var i :| 0 <= i < |params| && params[i] == p;
    }
  }

  /** The four packets, code by code. */
  lemma StartupBytes(params: Params, pid: int, key: int)
    requires IsI32(pid) && IsI32(key)
    ensures StartupBody(Startup(params)) == [0, 3, 0, 0] + EncodeParams(params)
    ensures StartupBody(SslRequest) == [0x04, 0xD2, 0x16, 0x2F]
    ensures StartupBody(GssEncRequest) == [0x04, 0xD2, 0x16, 0x30]
    ensures StartupBody(CancelRequest(pid, key)) == [0x04, 0xD2, 0x16, 0x2E] + PutI32(pid) + PutI32(key)
  {}

  /** The same numbers as the protocol has them: 3.0, and 1234.5678 to 1234.5680. */
  lemma OtherCodeIsRefused(code: int, rest: Bytes)
    requires IsI32(code) && code !in {3 * 0x1_0000, 1234 * 0x1_0000 + 5678, 1234 * 0x1_0000 + 5679, 1234 * 0x1_0000 + 5680}
    ensures DecodeStartup(PutI32(code) + rest) == Bad(UnsupportedVersion)
  {
    hide PutI32, GetI32;
    I32RoundTrip(code, rest);
  }

  lemma ShortIsTruncated(b: Bytes)
    ensures |b| < 4 ==> DecodeStartup(b) == Bad(Truncated)
    ensures |b| < 8 ==> DecodeStartup([0x04, 0xD2, 0x16, 0x2E] + b) == Bad(Truncated)
  {
    var s := [0x04, 0xD2, 0x16, 0x2E] + b;
    assert s[4..] == b;
    assert s[0] == 0x04 && s[1] == 0xD2 && s[2] == 0x16 && s[3] == 0x2E;
  }

  /** A user is asked for whatever else is there. */
  lemma WithoutUserIsRefused(params: Params)
    requires Carriable(params) && forall p :: p in params ==> p.0 != Ascii("user")
    ensures DecodeStartup([0, 3, 0, 0] + EncodeParams(params)) == Bad(MissingUser)
  {
    hide EncodeParams, DecodeParams, Carriable;
    var s := [0, 3, 0, 0] + EncodeParams(params);
    assert s[4..] == EncodeParams(params);
    assert s[0] == 0 && s[1] == 3 && s[2] == 0 && s[3] == 0;
    ParamsRoundTrip(params);
    HasUserIff(params);
  }

  /** What the length prefix of a startup packet makes of any stream. */
  lemma StartupSays(len: int, rest: Bytes)
    requires IsI32(len)
    ensures ReadStartup(PutI32(len) + rest) ==
            if len < 8 then Bad(BadLength)
            else if len - 4 > 10_000 then Bad(TooLarge)
            else if |rest| < len - 4 then Bad(Eof)
            else match DecodeStartup(rest[..len - 4])
              case Bad(e) => Bad(e)
              case Good(p) => Good((p, rest[len - 4..]))
  {
    hide PutI32, GetI32, DecodeStartup;
    var s := PutI32(len) + rest;
    I32RoundTrip(len, rest);
    if 8 <= len && len - 4 <= |rest| {
      assert s[4..len] == rest[..len - 4] && s[len..] == rest[len - 4..];
    }
  }

  lemma StartupNeedsFour(s: Bytes)
    requires |s| < 4
    ensures ReadStartup(s) == Bad(Eof)
  {}

  // ---------- startup parameters that end too early ----------

  /** Complete parameters, without the final NUL. */
  function Pairs(params: Params): Bytes {
    if params == [] then [] else params[0].0 + [0] + params[0].1 + [0] + Pairs(params[1..])
  }

  function After(params: Params, end: Decoded<Params>): Decoded<Params> {
    match end
    case Bad(e) => Bad(e)
    case Good(more) => Good(params + more)
  }

  lemma {:induction false} PairsThen(params: Params, rest: Bytes)
    requires Carriable(params)
    ensures DecodeParams(Some(Pairs(params) + rest)) == After(params, DecodeParams(Some(rest)))
  {
    hide ValidUtf8, Part;
    if params == [] {
      assert Pairs(params) + rest == rest;
      assert forall more: Params :: [] + more == more;
    } else {
      var (k, v) := params[0];
      var left := Pairs(params[1..]) + rest;
      assert Pairs(params) + rest == k + [0] + (v + [0] + left);
      PartOf(k, v + [0] + left);
      PartOf(v, left);
      PairsThen(params[1..], rest);
      assert forall more: Params :: [(k, v)] + (params[1..] + more) == params + more;
    }
  }

  lemma PartOfAll(b: Bytes)
    requires NulFree(b)
    ensures Part(b) == (b, None)
  {}

  /** The final NUL may be missing; a value without its NUL, or a name without a value, may not;
      and names and values are text. */
  lemma ParamsSay(params: Params, key: Bytes, value: Bytes, rest: Bytes)
    requires Carriable(params) && key != [] && NulFree(key) && NulFree(value)
    ensures DecodeParams(Some(Pairs(params))) == Good(params)
    ensures DecodeParams(Some(Pairs(params) + key)) == Bad(NoValue)
    ensures DecodeParams(Some(Pairs(params) + (key + [0] + value))) ==
            if ValidUtf8(key) && ValidUtf8(value) then Bad(MissingTerminator) else Bad(BadText)
    ensures !ValidUtf8(key) || !ValidUtf8(value) ==>
              DecodeParams(Some(Pairs(params) + (key + [0] + (value + [0] + rest)))) == Bad(BadText)
  {
    hide ValidUtf8, Part, Pairs;
    PairsThen(params, []);
    assert Pairs(params) + [] == Pairs(params);
    PartOfAll([]);
    PairsThen(params, key);
    PartOfAll(key);
    PairsThen(params, key + [0] + value);
    PartOf(key, value);
    PartOfAll(value);
    PairsThen(params, key + [0] + (value + [0] + rest));
    PartOf(key, value + [0] + rest);
    PartOf(value, rest);
    assert params + [] == params;
  }

  // ---------- rows ----------

  /** A row as a client reads it: each length, and that many bytes; a negative length is NULL. */
  function TakeCells(b: Bytes, count: nat): Option<(Row, Bytes)>
    decreases count
  {
    if count == 0 then Some(([], b))
    else if |b| < 4 then None
    else
      var len := GetI32(b);
      if len > |b| - 4 then None
      else
        var n := if len < 0 then 0 else len;
        match TakeCells(b[4 + n..], count - 1)
        case None => None
        case Some((row, rest)) => Some(([if len < 0 then None else Some(b[4..4 + n])] + row, rest))
  }

  predicate Sendable(row: Row) { forall i :: 0 <= i < |row| && row[i].Some? ==> |row[i].value| < TWO31 }

  /** The first cell, and what is left. */
  lemma CellReadsBack(v: Option<Bytes>, left: Bytes)
    requires v.Some? ==> |v.value| < TWO31
    ensures var b, len := Cell(v) + left, if v.Some? then |v.value| else -1;
            var n := if v.Some? then |v.value| else 0;
            && |b| >= 4 && GetI32(b) == len && 4 + n <= |b| && b[4 + n..] == left
            && (v.Some? ==> b[4..4 + n] == v.value)
  {
    hide PutI32, GetI32, AsI32;
    match v {
      case None =>
        I32RoundTrip(-1, left);
        assert (PutI32(-1) + left)[4..] == left;
      case Some(x) =>
        AsI32Small(|x|);
        var b := PutI32(|x|) + (x + left);
        assert Cell(v) + left == b;
        I32RoundTrip(|x|, x + left);
        assert b[4..4 + |x|] == x && b[4 + |x|..] == left;
    }
  }

  lemma {:induction false} CellsReadBack(row: Row, rest: Bytes)
    requires Sendable(row)
    ensures TakeCells(Cells(row) + rest, |row|) == Some((row, rest))
  {
    hide Cell, GetI32;
    if row == [] {
      assert Cells(row) + rest == rest;
    } else {
      var left := Cells(row[1..]) + rest;
      assert Cells(row) + rest == Cell(row[0]) + left;
      assert row[0].Some? ==> |row[0].value| < TWO31;
      CellReadsBack(row[0], left);
      CellsReadBack(row[1..], rest);
      assert row == [row[0]] + row[1..];
    }
  }

  /** A row that fits is read back by a client, count and cells, NULL apart from empty. */
  lemma RowReadsBack(row: Row)
    requires Sendable(row) && |row| < 0x8000
    ensures |DataRow(row)| >= 2 && GetI16(DataRow(row)) == |row| && TakeCells(DataRow(row)[2..], |row|) == Some((row, []))
  {
    hide PutI16, GetI16, Cells;
    assert AsI16(|row|) == |row|;
    I16RoundTrip(|row|, Cells(row));
    assert DataRow(row)[2..] == Cells(row) && Cells(row) + [] == Cells(row);
    CellsReadBack(row, []);
  }

  /** What `first_column` makes of any body: no column, NULL and a length that does not fit are all
      nothing. */
  lemma FirstColumnSays(count: int, len: int, rest: Bytes)
    requires -0x8000 <= count < 0x8000 && -TWO31 <= len < TWO31
    ensures FirstColumn(PutI16(count) + PutI32(len) + rest) ==
            if count >= 1 && 0 <= len <= |rest| then Some(Lossy(rest[..len])) else None
  {
    hide PutI16, GetI16, PutI32, GetI32, Lossy;
    var body := PutI16(count) + PutI32(len) + rest;
    assert body == PutI16(count) + (PutI32(len) + rest);
    I16RoundTrip(count, PutI32(len) + rest);
    assert body[2..] == PutI32(len) + rest;
    I32RoundTrip(len, rest);
    if 0 <= len <= |rest| { assert body[6..6 + len] == rest[..len]; }
  }

  lemma FirstColumnNeedsSix(body: Bytes)
    requires |body| < 6
    ensures FirstColumn(body) == None
  {}

  // ---------- error fields ----------

  /** Fields end at an empty one, or where the bytes do; what is cut is left out. */
  lemma FieldsSay(f: byte, v: Bytes, rest: Bytes)
    requires f != 0 && NulFree(v)
    ensures DecodeFields([f] + v + [0] + rest) == [(f, Lossy(v))] + DecodeFields(rest)
    ensures DecodeFields([0] + rest) == [] && DecodeFields([]) == [] && DecodeFields([f] + v) == []
  {
    hide Lossy;
    var a := [f] + v;
    FieldIsNulFree(f, v);
    NulAtAfter(a, rest);
    var b := a + [0] + rest;
    assert b[1..|a|] == v && b[|a| + 1..] == rest && b[0] == f;
    NulAtAfter([], rest);
    assert [] + [0] + rest == [0] + rest;
  }

  lemma FieldsBytes(f: byte, v: Bytes, more: Fields)
    ensures EncodeFields([(f, v)] + more) == [f] + v + [0] + EncodeFields(more) && EncodeFields([]) == [0]
  {
    assert ([(f, v)] + more)[1..] == more;
  }
}
