/** Prepared-statement rewriting (prepared.rs): the message bodies, the client's table of
    names and the backend's bounded cache of global names. */
module Prepared {
  import opened Text
  import opened Wire

  datatype Message = Message(tag: byte, body: Bytes)

  const PARSE: byte := 0x50
  const BIND: byte := 0x42
  const DESCRIBE: byte := 0x44
  const CLOSE: byte := 0x43
  const STATEMENT: byte := 0x53

  datatype Error =
    | NoStatementName | NoQueryText | NoPortalName | EmptyBody | Unterminated | NotUtf8
    | UnknownStatement(name: Bytes)

  datatype Result<+T> = Ok(value: T) | Err(error: Error)

  // ---------- message bodies ----------

  datatype ParseParts = ParseParts(name: Bytes, sql: Bytes, types: Bytes)

  function BuildParse(name: Bytes, sql: Bytes, types: Bytes): Bytes { name + [0] + sql + [0] + types }

  function DecodeParse(body: Bytes): Result<ParseParts> {
    match TakeCString(body)
    case None => Err(NoStatementName)
    case Some((name, rest)) =>
      match TakeCString(rest)
      case None => Err(NoQueryText)
      case Some((sql, types)) =>
        if !ValidUtf8(name) || !ValidUtf8(sql) then Err(NotUtf8)
        else Ok(ParseParts(name, sql, types))
  }

  /** A decoded Parse is the body it came from, and only readable bodies decode. */
  lemma DecodeParseSound(body: Bytes)
    requires DecodeParse(body).Ok?
    ensures var p := DecodeParse(body).value;
            && body == BuildParse(p.name, p.sql, p.types)
            && NulFree(p.name) && NulFree(p.sql) && ValidUtf8(p.name) && ValidUtf8(p.sql)
  {
    hide NulAt, ValidUtf8, TakeCString;
    var p, rest := DecodeParse(body).value, TakeCString(body).value.1;
    assert p.name + [0] + (p.sql + [0] + p.types) == BuildParse(p.name, p.sql, p.types);
  }

  /** And every readable Parse decodes to its parts. */
  lemma DecodeParseComplete(name: Bytes, sql: Bytes, types: Bytes)
    requires NulFree(name) && NulFree(sql)
    ensures DecodeParse(BuildParse(name, sql, types)) ==
            if ValidUtf8(name) && ValidUtf8(sql) then Ok(ParseParts(name, sql, types)) else Err(NotUtf8)
  {
    hide TakeCString, ValidUtf8;
    assert BuildParse(name, sql, types) == name + [0] + (sql + [0] + types);
    TakeCStringOf(name, sql + [0] + types);
    TakeCStringOf(sql, types);
  }

  /** A Parse built from its parts decodes to them exactly when it can be read at all. */
  lemma ParseRoundTrip(name: Bytes, sql: Bytes, types: Bytes)
    ensures DecodeParse(BuildParse(name, sql, types)) == Ok(ParseParts(name, sql, types)) <==>
            NulFree(name) && NulFree(sql) && ValidUtf8(name) && ValidUtf8(sql)
  {
    hide DecodeParse, BuildParse, NulFree, ValidUtf8;
    if NulFree(name) && NulFree(sql) { DecodeParseComplete(name, sql, types); }
    if DecodeParse(BuildParse(name, sql, types)) == Ok(ParseParts(name, sql, types)) {
      DecodeParseSound(BuildParse(name, sql, types));
    }
  }

  /** The statement name in a Bind: the second string. */
  function BindStatementName(body: Bytes): Result<Bytes> {
    match TakeCString(body)
    case None => Err(NoPortalName)
    case Some((_, rest)) =>
      match TakeCString(rest)
      case None => Err(NoStatementName)
      case Some((name, _)) => if ValidUtf8(name) then Ok(name) else Err(NotUtf8)
  }

  /** The kind byte and name in a Describe or Close. */
  function DescribeTarget(body: Bytes): Result<(byte, Bytes)> {
    if body == [] then Err(EmptyBody)
    else match TakeCString(body[1..])
      case None => Err(Unterminated)
      case Some((name, _)) => if ValidUtf8(name) then Ok((body[0], name)) else Err(NotUtf8)
  }

  lemma NoCString(b: Bytes)
    requires NulFree(b)
    ensures TakeCString(b) == None
  {}

  /** What is read from any body with the names in it, and what is refused, and why, without. */
  lemma NamesSay(a: Bytes, b: Bytes, rest: Bytes)
    requires NulFree(a) && NulFree(b)
    ensures BindStatementName(a + [0] + (b + [0] + rest)) == if ValidUtf8(b) then Ok(b) else Err(NotUtf8)
    ensures BindStatementName(a + [0] + b) == Err(NoStatementName) && BindStatementName(a) == Err(NoPortalName)
    ensures DecodeParse(a + [0] + b) == Err(NoQueryText) && DecodeParse(a) == Err(NoStatementName)
    ensures forall kind: byte :: DescribeTarget([kind] + (b + [0] + rest)) == if ValidUtf8(b) then Ok((kind, b)) else Err(NotUtf8)
    ensures forall kind: byte :: DescribeTarget([kind] + b) == Err(Unterminated)
    ensures DescribeTarget([]) == Err(EmptyBody)
  {
    hide TakeCString, ValidUtf8, NulFree;
    TakeCStringOf(a, b + [0] + rest);
    TakeCStringOf(b, rest);
    TakeCStringOf(a, b);
    NoCString(a);
    NoCString(b);
    forall kind: byte
      ensures DescribeTarget([kind] + (b + [0] + rest)) == if ValidUtf8(b) then Ok((kind, b)) else Err(NotUtf8)
      ensures DescribeTarget([kind] + b) == Err(Unterminated)
    {
      assert ([kind] + (b + [0] + rest))[1..] == b + [0] + rest && ([kind] + b)[1..] == b;
    }
  }

  /** Offset of the `index`-th string counted from `start`. */
  function StringStart(body: Bytes, start: nat, index: nat): (r: Option<nat>)
    requires start <= |body|
    ensures r.Some? ==> start <= r.value <= |body|
    decreases index
  {
    if index == 0 then Some(start)
    else match NulAt(body[start..])
      case None => None
      case Some(k) => StringStart(body, start + k + 1, index - 1)
  }

  /** `replace_cstring`. At index 0 a leading `S` or `P` is a kind byte, not part of the name. */
  function ReplaceCString(body: Bytes, index: nat, replacement: Bytes): Result<Bytes> {
    var prefix := if index == 0 && |body| > 1 && (body[0] == STATEMENT || body[0] == PARSE) then 1 else 0;
    match StringStart(body, prefix, index)
    case None => Err(Unterminated)
    case Some(start) =>
      match NulAt(body[start..])
      case None => Err(Unterminated)
      case Some(k) => Ok(body[..start] + replacement + [0] + body[start + k + 1..])
  }

  /** The portal name, statement name and everything after them in a Bind. */
  datatype BindParts = BindParts(portal: Bytes, name: Bytes, tail: Bytes)

  function BuildBind(p: BindParts): Bytes { p.portal + [0] + p.name + [0] + p.tail }

  /** Renaming a Bind changes the statement name and nothing else, for every body whose
      statement name can be read. */
  lemma RenameBind(body: Bytes, g: Bytes)
    requires BindStatementName(body).Ok?
    ensures exists p: BindParts ::
              && NulFree(p.portal) && NulFree(p.name)
              && body == BuildBind(p) && BindStatementName(body) == Ok(p.name)
              && ReplaceCString(body, 1, g) == Ok(BuildBind(p.(name := g)))
  {
    hide NulAt, ValidUtf8;
    var (portal, rest) := TakeCString(body).value;
    var (name, tail) := TakeCString(rest).value;
    var p := BindParts(portal, name, tail);
    assert body == portal + [0] + rest == BuildBind(p);
    var start := |portal| + 1;
    assert body[0..] == body;
    TakeCStringOf(portal, rest);
    NulAtAfter(portal, rest);
    assert body[start..] == rest;
    NulAtAfter(name, tail);
    assert StringStart(body, 0, 1) == StringStart(body, start, 0) == Some(start);
    assert body[..start] == portal + [0];
    assert body[start + |name| + 1..] == tail;
    assert ReplaceCString(body, 1, g) == Ok(portal + [0] + g + [0] + tail);
  }

  lemma RenameBindParts(portal: Bytes, name: Bytes, tail: Bytes, g: Bytes)
    requires NulFree(portal) && NulFree(name)
    ensures ReplaceCString(portal + [0] + name + [0] + tail, 1, g) == Ok(portal + [0] + g + [0] + tail)
  {
    hide NulAt;
    var rest := name + [0] + tail;
    var body := portal + [0] + rest;
    assert body == portal + [0] + name + [0] + tail;
    var start := |portal| + 1;
    assert body[0..] == body;
    NulAtAfter(portal, rest);
    assert body[start..] == rest;
    NulAtAfter(name, tail);
    assert StringStart(body, 0, 1) == StringStart(body, start, 0) == Some(start);
    assert body[..start] == portal + [0];
    assert body[start + |name| + 1..] == tail;
  }

  lemma RenameDescribeParts(name: Bytes, tail: Bytes, g: Bytes)
    requires NulFree(name)
    ensures ReplaceCString([STATEMENT] + name + [0] + tail, 0, g) == Ok([STATEMENT] + g + [0] + tail)
  {
    hide NulAt;
    var body := [STATEMENT] + name + [0] + tail;
    assert body[1..] == name + [0] + tail;
    NulAtAfter(name, tail);
    assert body[..1] == [STATEMENT];
    assert body[1 + |name| + 1..] == tail;
  }

  /** A body that does not begin with a kind byte is renamed from its first string on. */
  lemma RenameFirst(name: Bytes, tail: Bytes, g: Bytes)
    requires NulFree(name) && (name == [] || name[0] !in {0x53, 0x50})
    ensures ReplaceCString(name + [0] + tail, 0, g) == Ok(g + [0] + tail)
    ensures ReplaceCString([0x50] + (name + [0] + tail), 0, g) == Ok([0x50] + g + [0] + tail)
    ensures ReplaceCString(name, 0, g) == Err(Unterminated) && ReplaceCString(name, 1, g) == Err(Unterminated)
  {
    hide NulAt;
    var body := name + [0] + tail;
    NulAtAfter(name, tail);
    assert body[0..] == body && body[0] == if name == [] then 0 else name[0];
    assert body[..0] == [] && body[0 + |name| + 1..] == tail;
    assert body[..0] + g == g;
    var kinded := [0x50] + body;
    assert kinded[1..] == body && kinded[..1] == [0x50] && kinded[1 + |name| + 1..] == tail;
    assert name[0..] == name;
    NulAtNone(name);
  }

  lemma NulAtNone(b: Bytes)
    requires NulFree(b)
    ensures NulAt(b) == None
  {}

  /** Renaming a Describe or Close of a statement keeps the kind byte and what follows. */
  lemma RenameDescribe(body: Bytes, g: Bytes)
    requires DescribeTarget(body).Ok? && DescribeTarget(body).value.0 == STATEMENT
    ensures exists tail: Bytes ::
              && body == [STATEMENT] + DescribeTarget(body).value.1 + [0] + tail
              && NulFree(DescribeTarget(body).value.1)
              && ReplaceCString(body, 0, g) == Ok([STATEMENT] + g + [0] + tail)
  {
    hide NulAt, ValidUtf8;
    var (name, tail) := TakeCString(body[1..]).value;
    assert body == [STATEMENT] + body[1..];
    assert body == [STATEMENT] + name + [0] + tail;
    NulAtAfter(name, tail);
    assert body[..1] == [STATEMENT];
    assert body[1 + |name| + 1..] == tail;
    assert ReplaceCString(body, 0, g) == Ok([STATEMENT] + g + [0] + tail);
  }

  /** What a Bind or Describe asks for besides the statement: the portal name or the kind byte,
      and everything after the statement name. */
  datatype Rest = Rest(head: Bytes, tail: Bytes)

  function BindRest(body: Bytes): Rest {
    match TakeCString(body)
    case None => Rest([], [])
    case Some((portal, rest)) =>
      match TakeCString(rest)
      case None => Rest(portal, [])
      case Some((_, tail)) => Rest(portal, tail)
  }

  function DescribeRest(body: Bytes): Rest {
    if body == [] then Rest([], [])
    else match TakeCString(body[1..])
      case None => Rest(body[..1], [])
      case Some((_, tail)) => Rest(body[..1], tail)
  }

  /** Renaming leaves all of that as it was. */
  lemma RenamedKeepsRest(body: Bytes, g: Bytes)
    requires NulFree(g)
    ensures BindStatementName(body).Ok? ==>
              ReplaceCString(body, 1, g).Ok? && BindRest(ReplaceCString(body, 1, g).value) == BindRest(body)
    ensures DescribeTarget(body).Ok? && DescribeTarget(body).value.0 == STATEMENT ==>
              ReplaceCString(body, 0, g).Ok? && DescribeRest(ReplaceCString(body, 0, g).value) == DescribeRest(body)
  {
    hide ReplaceCString, ValidUtf8, TakeCString;
    if BindStatementName(body).Ok? {
      RenameBind(body, g);
      var p: BindParts :|
        && NulFree(p.portal) && NulFree(p.name) && body == BuildBind(p) && ReplaceCString(body, 1, g) == Ok(BuildBind(p.(name := g)));
      BindRestOf(p);
      BindRestOf(p.(name := g));
    }
    if DescribeTarget(body).Ok? && DescribeTarget(body).value.0 == STATEMENT {
      RenameDescribe(body, g);
      var name := DescribeTarget(body).value.1;
      var tail: Bytes :| body == [STATEMENT] + name + [0] + tail && ReplaceCString(body, 0, g) == Ok([STATEMENT] + g + [0] + tail);
      DescribeRestOf(STATEMENT, name, tail);
      DescribeRestOf(STATEMENT, g, tail);
    }
  }

  lemma BindRestOf(p: BindParts)
    requires NulFree(p.portal) && NulFree(p.name)
    ensures BindRest(BuildBind(p)) == Rest(p.portal, p.tail)
  {
    hide TakeCString;
    assert BuildBind(p) == p.portal + [0] + (p.name + [0] + p.tail);
    TakeCStringOf(p.portal, p.name + [0] + p.tail);
    TakeCStringOf(p.name, p.tail);
  }

  lemma DescribeRestOf(kind: byte, name: Bytes, tail: Bytes)
    requires NulFree(name)
    ensures DescribeRest([kind] + name + [0] + tail) == Rest([kind], tail)
  {
    hide TakeCString;
    var body := [kind] + name + [0] + tail;
    assert body[..1] == [kind] && body[1..] == name + [0] + tail;
    TakeCStringOf(name, tail);
  }

  /** Read back, a renamed body names the new statement. */
  lemma RenamedReadsBack(body: Bytes, g: Bytes)
    requires NulFree(g) && ValidUtf8(g)
    ensures BindStatementName(body).Ok? ==>
              && ReplaceCString(body, 1, g).Ok?
              && BindStatementName(ReplaceCString(body, 1, g).value) == Ok(g)
    ensures DescribeTarget(body).Ok? && DescribeTarget(body).value.0 == STATEMENT ==>
              && ReplaceCString(body, 0, g).Ok?
              && DescribeTarget(ReplaceCString(body, 0, g).value) == Ok((STATEMENT, g))
  {
    hide ReplaceCString, ValidUtf8, TakeCString;
    if BindStatementName(body).Ok? {
      RenameBind(body, g);
      var p: BindParts :| NulFree(p.portal) && ReplaceCString(body, 1, g) == Ok(BuildBind(p.(name := g)));
      assert BuildBind(p.(name := g)) == p.portal + [0] + (g + [0] + p.tail);
      TakeCStringOf(p.portal, g + [0] + p.tail);
      TakeCStringOf(g, p.tail);
    }
    if DescribeTarget(body).Ok? && DescribeTarget(body).value.0 == STATEMENT {
      RenameDescribe(body, g);
      var tail: Bytes :| ReplaceCString(body, 0, g) == Ok([STATEMENT] + g + [0] + tail);
      var out := [STATEMENT] + g + [0] + tail;
      assert out[1..] == g + [0] + tail;
      TakeCStringOf(g, tail);
    }
  }

  // ---------- global names ----------

  /** Sixteen digest bytes of a text: SHA-256, cut short. */
  type Digest = Bytes -> Bytes

  function HexDigit(n: nat): byte
    requires n < 16
  {
    if n < 10 then 0x30 + n else 0x57 + n
  }

  function Hex(b: Bytes): Bytes {
    if b == [] then [] else [HexDigit(b[0] / 16), HexDigit(b[0] % 16)] + Hex(b[1..])
  }

  /** The hashed text: SQL and declared parameter types, told apart by a NUL. */
  function HashedText(sql: Bytes, types: Bytes): Bytes { sql + [0] + types }

  const HAVUZ: Bytes := [0x68, 0x61, 0x76, 0x75, 0x7A, 0x5F]

  function GlobalName(d: Digest, sql: Bytes, types: Bytes): Bytes { HAVUZ + Hex(d(HashedText(sql, types))) }

  lemma {:induction false} HexInjective(a: Bytes, b: Bytes)
    requires Hex(a) == Hex(b)
    ensures a == b
  {
    if a != [] && b != [] {
      var x, y := Hex(a), Hex(b);
      assert x[0] == y[0] && x[1] == y[1];
      assert a[0] / 16 == b[0] / 16 && a[0] % 16 == b[0] % 16;
      assert x[2..] == Hex(a[1..]) && y[2..] == Hex(b[1..]);
      HexInjective(a[1..], b[1..]);
      assert a == [a[0]] + a[1..] && b == [b[0]] + b[1..];
    }
  }

  /** Two statements share a global name exactly when their digests agree, and the hashed
      texts of two different statements are different. */
  lemma GlobalNameCollides(d: Digest, sql1: Bytes, types1: Bytes, sql2: Bytes, types2: Bytes)
    requires NulFree(sql1) && NulFree(sql2)
    ensures GlobalName(d, sql1, types1) == GlobalName(d, sql2, types2) <==>
            d(HashedText(sql1, types1)) == d(HashedText(sql2, types2))
    ensures HashedText(sql1, types1) == HashedText(sql2, types2) <==> sql1 == sql2 && types1 == types2
  {
    hide Hex;
    var h1, h2 := d(HashedText(sql1, types1)), d(HashedText(sql2, types2));
    if GlobalName(d, sql1, types1) == GlobalName(d, sql2, types2) {
      assert (HAVUZ + Hex(h1))[6..] == Hex(h1) && (HAVUZ + Hex(h2))[6..] == Hex(h2);
      HexInjective(h1, h2);
    }
    if HashedText(sql1, types1) == HashedText(sql2, types2) {
      CStringInjective(sql1, types1, sql2, types2);
    }
  }

  /** The digits of `{:02x}`. */
  function HexText(b: Bytes): string {
    if b == [] then ""
    else
      var digits := "0123456789abcdef";
      [digits[b[0] / 16], digits[b[0] % 16]] + HexText(b[1..])
  }

  predicate IsAsciiText(s: string) { forall i :: 0 <= i < |s| ==> s[i] < '\U{0080}' }

  lemma HexDigitSays(n: nat)
    requires n < 16
    ensures HexDigit(n) == "0123456789abcdef"[n] as int
  {}

  lemma AsciiConcat(a: string, b: string)
    requires IsAsciiText(a) && IsAsciiText(b)
    ensures IsAsciiText(a + b) && Ascii(a + b) == Ascii(a) + Ascii(b)
  {}

  lemma {:induction false} HexSays(b: Bytes)
    ensures IsAsciiText(HexText(b)) && Hex(b) == Ascii(HexText(b))
  {
    if b != [] {
      HexSays(b[1..]);
      HexDigitSays(b[0] / 16);
      HexDigitSays(b[0] % 16);
      var two := ["0123456789abcdef"[b[0] / 16], "0123456789abcdef"[b[0] % 16]];
      assert IsAsciiText(two);
      AsciiConcat(two, HexText(b[1..]));
      assert Ascii(two) == [HexDigit(b[0] / 16), HexDigit(b[0] % 16)];
    }
  }

  /** The name itself: `havuz_` and the digest of SQL, NUL and types in lower-case hexadecimal. */
  lemma GlobalNameSays(d: Digest, sql: Bytes, types: Bytes)
    ensures IsAsciiText("havuz_" + HexText(d(sql + [0] + types)))
    ensures GlobalName(d, sql, types) == Ascii("havuz_" + HexText(d(sql + [0] + types)))
  {
    hide Hex, HexText;
    var h := d(sql + [0] + types);
    HexSays(h);
    AsciiConcat("havuz_", HexText(h));
    assert HAVUZ == Ascii("havuz_") by { assert |HAVUZ| == 6; }
  }

  lemma {:induction false} HexIsPlain(b: Bytes)
    ensures forall i :: 0 <= i < |Hex(b)| ==> 0 < Hex(b)[i] < 0x80
  {
    if b != [] { HexIsPlain(b[1..]); }
  }

  /** A global name is a readable, non-empty string. */
  lemma GlobalNameIsText(d: Digest, sql: Bytes, types: Bytes)
    ensures var g := GlobalName(d, sql, types); g != [] && NulFree(g) && ValidUtf8(g)
  {
    hide Hex;
    HexIsPlain(d(HashedText(sql, types)));
    AsciiIsUtf8(GlobalName(d, sql, types));
  }
}
