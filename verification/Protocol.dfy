/** Message framing (protocol.rs) and the one result reader (backend.rs). */
module Protocol {
  import opened Text
  import opened Wire
  import opened Prepared

  datatype WireError =
    | Eof | BadLength | TooLarge | Truncated | UnsupportedVersion
    | MissingTerminator | NoValue | BadText | MissingUser

  datatype Decoded<+T> = Good(value: T) | Bad(error: WireError)

  const MAX_MESSAGE_LEN: nat := 0x400_0000
  const MAX_STARTUP_LEN: nat := 10_000

  // ---------- messages ----------

  function Encode(m: Message): Bytes { [m.tag] + PutI32(AsI32(|m.body| + 4)) + m.body }

  /** `Message::read` on a byte stream: the message and what is left of the stream. */
  function Read(stream: Bytes): Decoded<(Message, Bytes)> {
    if |stream| < 5 then Bad(Eof)
    else
      var len := GetI32(stream[1..]);
      if len < 4 then Bad(BadLength)
      else if len - 4 > MAX_MESSAGE_LEN then Bad(TooLarge)
      else if |stream| - 5 < len - 4 then Bad(Eof)
      else Good((Message(stream[0], stream[5..len + 1]), stream[len + 1..]))
  }

  /** A message is read back from the head of any stream exactly when it is within the limit. */
  lemma ReadEncoded(m: Message, rest: Bytes)
    ensures Read(Encode(m) + rest) == Good((m, rest)) <==> |m.body| <= MAX_MESSAGE_LEN
  {
    hide PutI32, GetI32;
    var s := Encode(m) + rest;
    var len := AsI32(|m.body| + 4);
    assert s == [m.tag] + (PutI32(len) + (m.body + rest));
    assert s[1..] == PutI32(len) + (m.body + rest);
    I32RoundTrip(len, m.body + rest);
    if |m.body| <= MAX_MESSAGE_LEN {
      assert len == |m.body| + 4;
      assert s[5..len + 1] == m.body && s[len + 1..] == rest;
    }
  }

  function EncodeAll(ms: seq<Message>): Bytes {
    if ms == [] then [] else Encode(ms[0]) + EncodeAll(ms[1..])
  }

  function ReadAll(stream: Bytes): Decoded<seq<Message>>
    decreases |stream|
  {
    if stream == [] then Good([])
    else match Read(stream)
      case Bad(e) => Bad(e)
      case Good((m, rest)) =>
        match ReadAll(rest)
        case Bad(e) => Bad(e)
        case Good(ms) => Good([m] + ms)
  }

  predicate WithinLimit(ms: seq<Message>) { forall i :: 0 <= i < |ms| ==> |ms[i].body| <= MAX_MESSAGE_LEN }

  /** Whatever is read is within the limit. */
  lemma {:induction false} ReadIsWithinLimit(stream: Bytes)
    requires ReadAll(stream).Good?
    ensures WithinLimit(ReadAll(stream).value)
    decreases |stream|
  {
    if stream != [] { ReadIsWithinLimit(Read(stream).value.1); }
  }

  /** A list of messages is read back from its concatenated encodings exactly when every one
      of them is within the limit. */
  lemma ReadAllEncoded(ms: seq<Message>)
    ensures ReadAll(EncodeAll(ms)) == Good(ms) <==> WithinLimit(ms)
  {
    hide ReadAll, EncodeAll;
    if WithinLimit(ms) { ReadAllWithin(ms); }
    if ReadAll(EncodeAll(ms)) == Good(ms) { ReadIsWithinLimit(EncodeAll(ms)); }
  }

  lemma {:induction false} ReadAllWithin(ms: seq<Message>)
    requires WithinLimit(ms)
    ensures ReadAll(EncodeAll(ms)) == Good(ms)
  {
    hide Encode, Read;
    if ms != [] {
      ReadEncoded(ms[0], EncodeAll(ms[1..]));
      ReadAllWithin(ms[1..]);
      EncodeNotEmpty(ms[0]);
      assert ms == [ms[0]] + ms[1..];
    }
  }

  lemma EncodeNotEmpty(m: Message)
    ensures Encode(m) != []
  {}

  // ---------- startup packets ----------

  type Params = seq<(Bytes, Bytes)>

  datatype StartupPacket =
    | Startup(params: Params)
    | SslRequest
    | CancelRequest(processId: int, secretKey: int)
    | GssEncRequest

  const PROTOCOL_VERSION_3 := 196_608
  const SSL_REQUEST := 80_877_103
  const CANCEL_REQUEST := 80_877_102
  const GSSENC_REQUEST := 80_877_104
  const USER: Bytes := [0x75, 0x73, 0x65, 0x72]

  predicate IsI32(n: int) { -TWO31 <= n < TWO31 }

  function EncodeParams(params: Params): Bytes {
    if params == [] then [0] else params[0].0 + [0] + params[0].1 + [0] + EncodeParams(params[1..])
  }

  /** The packet after its own length prefix. */
  function StartupBody(p: StartupPacket): Bytes
    requires p.CancelRequest? ==> IsI32(p.processId) && IsI32(p.secretKey)
  {
    match p
    case Startup(params) => PutI32(PROTOCOL_VERSION_3) + EncodeParams(params)
    case SslRequest => PutI32(SSL_REQUEST)
    case GssEncRequest => PutI32(GSSENC_REQUEST)
    case CancelRequest(pid, key) => PutI32(CANCEL_REQUEST) + PutI32(pid) + PutI32(key)
  }

  function EncodeStartup(p: StartupPacket): Bytes
    requires p.CancelRequest? ==> IsI32(p.processId) && IsI32(p.secretKey)
  {
    var body := StartupBody(p);
    PutI32(AsI32(|body| + 4)) + body
  }

  /** `body.split(|b| b == 0)`: the last part needs no terminator. */
  function Part(b: Bytes): (Bytes, Option<Bytes>) {
    match NulAt(b)
    case None => (b, None)
    case Some(k) => (b[..k], Some(b[k + 1..]))
  }

  function DecodeParams(b: Option<Bytes>): Decoded<Params>
    decreases if b.Some? then 1 + |b.value| else 0
  {
    match b
    case None => Bad(MissingTerminator)
    case Some(bytes) =>
      var (key, afterKey) := Part(bytes);
      if key == [] then Good([])
      else if afterKey.None? then Bad(NoValue)
      else
        var (value, afterValue) := Part(afterKey.value);
        if !ValidUtf8(key) || !ValidUtf8(value) then Bad(BadText)
        else match DecodeParams(afterValue)
          case Bad(e) => Bad(e)
          case Good(rest) => Good([(key, value)] + rest)
  }

  predicate HasUser(params: Params) { exists i :: 0 <= i < |params| && params[i].0 == USER }

  function DecodeStartup(body: Bytes): Decoded<StartupPacket> {
    if |body| < 4 then Bad(Truncated)
    else
      var code := GetI32(body);
      var rest := body[4..];
      if code == SSL_REQUEST then Good(SslRequest)
      else if code == GSSENC_REQUEST then Good(GssEncRequest)
      else if code == CANCEL_REQUEST then
        if |rest| < 8 then Bad(Truncated) else Good(CancelRequest(GetI32(rest), GetI32(rest[4..])))
      else if code == PROTOCOL_VERSION_3 then
        match DecodeParams(Some(rest))
        case Bad(e) => Bad(e)
        case Good(params) => if HasUser(params) then Good(Startup(params)) else Bad(MissingUser)
      else Bad(UnsupportedVersion)
  }

  function ReadStartup(stream: Bytes): Decoded<(StartupPacket, Bytes)> {
    if |stream| < 4 then Bad(Eof)
    else
      var len := GetI32(stream);
      if len < 8 then Bad(BadLength)
      else if len - 4 > MAX_STARTUP_LEN then Bad(TooLarge)
      else if |stream| < len then Bad(Eof)
      else match DecodeStartup(stream[4..len])
        case Bad(e) => Bad(e)
        case Good(p) => Good((p, stream[len..]))
  }

  /** Parameters that a startup packet can carry. */
  predicate Carriable(params: Params) {
    forall i :: 0 <= i < |params| ==>
      && params[i].0 != [] && NulFree(params[i].0) && NulFree(params[i].1)
      && ValidUtf8(params[i].0) && ValidUtf8(params[i].1)
  }

  lemma PartOf(a: Bytes, rest: Bytes)
    requires NulFree(a)
    ensures Part(a + [0] + rest) == (a, Some(rest))
  {
    NulAtAfter(a, rest);
    var b := a + [0] + rest;
    assert b[..|a|] == a && b[|a| + 1..] == rest;
  }

  lemma {:induction false} ParamsRoundTrip(params: Params)
    requires Carriable(params)
    ensures DecodeParams(Some(EncodeParams(params))) == Good(params)
  {
    hide ValidUtf8, Part;
    if params == [] {
      PartOf([], []);
      assert [] + [0] + [] == [0];
    } else {
      var (k, v) := params[0];
      var rest := EncodeParams(params[1..]);
      assert EncodeParams(params) == k + [0] + (v + [0] + rest);
      PartOf(k, v + [0] + rest);
      PartOf(v, rest);
      ParamsRoundTrip(params[1..]);
      assert params == [(k, v)] + params[1..];
    }
  }

  /** Whatever decodes could have been carried. */
  lemma {:induction false} DecodedIsCarriable(b: Option<Bytes>)
    requires DecodeParams(b).Good?
    ensures Carriable(DecodeParams(b).value)
    decreases if b.Some? then 1 + |b.value| else 0
  {
    hide ValidUtf8, NulAt;
    var (key, afterKey) := Part(b.value);
    if key != [] {
      var (value, afterValue) := Part(afterKey.value);
      DecodedIsCarriable(afterValue);
    }
  }

  /** A packet decodes to itself exactly when its parameters can be carried and name a user;
      the other three kinds always do. */
  lemma StartupRoundTrip(p: StartupPacket)
    requires p.CancelRequest? ==> IsI32(p.processId) && IsI32(p.secretKey)
    ensures DecodeStartup(StartupBody(p)) == Good(p) <==>
            (p.Startup? ==> Carriable(p.params) && HasUser(p.params))
  {
    hide DecodeParams, EncodeParams, Carriable, PutI32, GetI32;
    var body := StartupBody(p);
    match p {
      case Startup(params) =>
        I32RoundTrip(PROTOCOL_VERSION_3, EncodeParams(params));
        assert body[4..] == EncodeParams(params);
        if Carriable(params) { ParamsRoundTrip(params); }
        if DecodeParams(Some(body[4..])).Good? { DecodedIsCarriable(Some(body[4..])); }
      case SslRequest =>
        I32RoundTrip(SSL_REQUEST, []);
        assert body + [] == body;
      case GssEncRequest =>
        I32RoundTrip(GSSENC_REQUEST, []);
        assert body + [] == body;
      case CancelRequest(pid, key) =>
        assert body == PutI32(CANCEL_REQUEST) + (PutI32(pid) + PutI32(key));
        I32RoundTrip(CANCEL_REQUEST, PutI32(pid) + PutI32(key));
        assert body[4..] == PutI32(pid) + PutI32(key);
        I32RoundTrip(pid, PutI32(key));
        assert body[4..][4..] == PutI32(key);
        I32RoundTrip(key, []);
        assert PutI32(key) + [] == PutI32(key);
    }
  }

  lemma StartupBodyLen(p: StartupPacket)
    requires p.CancelRequest? ==> IsI32(p.processId) && IsI32(p.secretKey)
    ensures |StartupBody(p)| >= 4
  {
    hide PutI32, EncodeParams;
  }

  /** The length prefix hands `decode` exactly the body, or refuses an over-long one. */
  lemma ReadStartupFrame(body: Bytes, rest: Bytes)
    requires 4 <= |body| < TWO31 - 4
    ensures var r := ReadStartup(PutI32(AsI32(|body| + 4)) + body + rest);
            && (|body| > MAX_STARTUP_LEN ==> r == Bad(TooLarge))
            && (|body| <= MAX_STARTUP_LEN && DecodeStartup(body).Good? ==> r == Good((DecodeStartup(body).value, rest)))
  {
    hide DecodeStartup, PutI32, GetI32, AsI32;
    var len := |body| + 4;
    AsI32Small(len);
    var s := PutI32(len) + body + rest;
    assert s == PutI32(len) + (body + rest);
    I32RoundTrip(len, body + rest);
    assert s[4..len] == body && s[len..] == rest;
  }

  /** And within the size limit it is read back from the head of any stream. */
  lemma ReadStartupEncoded(p: StartupPacket, rest: Bytes)
    requires p.CancelRequest? ==> IsI32(p.processId) && IsI32(p.secretKey)
    requires p.Startup? ==> Carriable(p.params) && HasUser(p.params)
    ensures |StartupBody(p)| <= MAX_STARTUP_LEN ==> ReadStartup(EncodeStartup(p) + rest) == Good((p, rest))
    ensures MAX_STARTUP_LEN < |StartupBody(p)| < TWO31 - 4 ==> ReadStartup(EncodeStartup(p) + rest) == Bad(TooLarge)
  {
    hide DecodeStartup, Carriable, HasUser, StartupBody, PutI32, ReadStartup, AsI32, GetI32, NulFree, ValidUtf8, EncodeParams;
    var body := StartupBody(p);
    var stream := EncodeStartup(p) + rest;
    assert stream == PutI32(AsI32(|body| + 4)) + body + rest;
    StartupBodyLen(p);
    StartupRoundTrip(p);
    if |body| < TWO31 - 4 { ReadStartupFrame(body, rest); }
  }

  function Prepend(params: Params, rest: Decoded<Params>): Decoded<Params> {
    match rest
    case Bad(e) => Bad(e)
    case Good(more) => Good(params + more)
  }

  /** `decode_params`: the loop over the parts. */
  method ScanParams(body: Bytes) returns (r: Decoded<Params>)
    ensures r == DecodeParams(Some(body))
  {
    hide Part, ValidUtf8;
    var params: Params := [];
    var parts := Some(body);
    assert forall more: Params :: [] + more == more;
    while true
      invariant Prepend(params, DecodeParams(parts)) == DecodeParams(Some(body))
      decreases if parts.Some? then 1 + |parts.value| else 0
    {
      if parts.None? { return Bad(MissingTerminator); }
      var (key, afterKey) := Part(parts.value);
      assert params + [] == params;
      if key == [] { return Good(params); }
      if afterKey.None? { return Bad(NoValue); }
      var (value, afterValue) := Part(afterKey.value);
      PartsShrink(parts.value);
      PartsShrink(afterKey.value);
      if !ValidUtf8(key) || !ValidUtf8(value) { return Bad(BadText); }
      assert forall more: Params :: params + [(key, value)] + more == params + ([(key, value)] + more);
      params := params + [(key, value)];
      parts := afterValue;
    }
  }

  lemma PartsShrink(b: Bytes)
    ensures Part(b).1.Some? ==> |Part(b).1.value| < |b|
  {}

  // ---------- rows ----------

  type Row = seq<Option<Bytes>>

  function Cell(v: Option<Bytes>): Bytes {
    match v
    case None => PutI32(-1)
    case Some(bytes) => PutI32(AsI32(|bytes|)) + bytes
  }

  function Cells(row: Row): Bytes {
    if row == [] then [] else Cell(row[0]) + Cells(row[1..])
  }

  function DataRow(row: Row): Bytes { PutI16(AsI16(|row|)) + Cells(row) }

  method BuildDataRow(row: Row) returns (body: Bytes)
    ensures body == DataRow(row)
  {
    hide Cell;
    body := PutI16(AsI16(|row|));
    for i := 0 to |row|
      invariant body + Cells(row[i..]) == DataRow(row)
    {
      assert row[i..][1..] == row[i + 1..];
      body := body + Cell(row[i]);
    }
    assert row[|row|..] == [];
  }

  /** `first_column`. */
  function FirstColumn(body: Bytes): Option<Bytes> {
    if |body| < 6 then None
    else if GetI16(body) < 1 then None
    else
      var len := GetI32(body[2..]);
      if len < 0 || 6 + len > |body| then None else Some(Lossy(body[6..6 + len]))
  }

  function LossyCell(v: Option<Bytes>): Option<Bytes> { if v.Some? then Some(Lossy(v.value)) else None }

  lemma CellsStep(row: Row)
    requires row != []
    ensures Cells(row) == Cell(row[0]) + Cells(row[1..])
  {}

  /** The first value of a row comes back, with NULL kept apart from empty, when the column
      count survives the conversion to 16 bits as a positive number; it comes back unchanged
      exactly when it is NULL or well-formed text. */
  lemma FirstColumnOfRow(row: Row)
    requires row != [] && row[0].Some? ==> |row[0].value| < TWO31
    ensures FirstColumn(DataRow(row)) == if row != [] && AsI16(|row|) >= 1 then LossyCell(row[0]) else None
    ensures row != [] && AsI16(|row|) >= 1 ==>
              (FirstColumn(DataRow(row)) == row[0] <==> row[0].None? || ValidUtf8(row[0].value))
  {
    hide Lossy, ValidUtf8;
    if row != [] {
      FirstColumnOfSome(row);
      if row[0].Some? { LossyIff(row[0].value); }
    }
  }

  lemma FirstColumnOfSome(row: Row)
    requires row != [] && (row[0].Some? ==> |row[0].value| < TWO31)
    ensures FirstColumn(DataRow(row)) == if AsI16(|row|) >= 1 then LossyCell(row[0]) else None
  {
    hide Lossy, PutI32, GetI32, PutI16, GetI16, AsI16, AsI32, Cells;
    var rest := Cells(row[1..]);
    var body := DataRow(row);
    var n := AsI16(|row|);
    CellsStep(row);
    I16RoundTrip(n, Cells(row));
    assert body[2..] == Cell(row[0]) + rest;
    match row[0] {
      case None =>
        I32RoundTrip(-1, rest);
      case Some(bytes) =>
        var len := |bytes|;
        AsI32Small(len);
        assert Cell(row[0]) + rest == PutI32(len) + (bytes + rest);
        I32RoundTrip(len, bytes + rest);
        assert body == PutI16(n) + PutI32(len) + (bytes + rest);
        assert body[6..6 + len] == bytes;
    }
  }

  // ---------- error fields ----------

  type Fields = seq<(byte, Bytes)>

  function EncodeFields(fields: Fields): Bytes {
    if fields == [] then [0] else [fields[0].0] + fields[0].1 + [0] + EncodeFields(fields[1..])
  }

  function DecodeFields(b: Bytes): Fields
    decreases |b|
  {
    match NulAt(b)
    case None => []
    case Some(k) => if k == 0 then [] else [(b[0], Lossy(b[1..k]))] + DecodeFields(b[k + 1..])
  }

  method ErrorFields(body: Bytes) returns (out: Fields)
    ensures out == DecodeFields(body)
  {
    hide NulAt, Lossy;
    out := [];
    var rest := body;
    var at := NulAt(rest);
    while at.Some? && at.value != 0
      invariant at == NulAt(rest)
      invariant DecodeFields(body) == out + DecodeFields(rest)
      decreases |rest|
    {
      out := out + [(rest[0], Lossy(rest[1..at.value]))];
      rest := rest[at.value + 1..];
      at := NulAt(rest);
    }
  }

  predicate PlainFields(fields: Fields) {
    forall i :: 0 <= i < |fields| ==> fields[i].0 != 0 && NulFree(fields[i].1) && ValidUtf8(fields[i].1)
  }

  lemma {:induction false} LossyIsNulFree(b: Bytes)
    requires NulFree(b)
    ensures NulFree(Lossy(b))
    decreases |b|
  {
    if b != [] { LossyIsNulFree(b[if Utf8Len(b) > 0 then Utf8Len(b) else BadLen(b)..]); }
  }

  lemma {:induction false} DecodedIsPlain(b: Bytes)
    ensures PlainFields(DecodeFields(b))
    decreases |b|
  {
    hide NulAt, Lossy, ValidUtf8;
    match NulAt(b)
    case None =>
    case Some(k) =>
      if k != 0 {
        DecodedIsPlain(b[k + 1..]);
        assert b[..k][0] == b[0] && b[..k][1..] == b[1..k];
        LossyIsNulFree(b[1..k]);
        LossyIsValid(b[1..k]);
      }
  }

  /** An error response is read back field by field exactly when every field is text without a
      NUL. */
  lemma FieldsRoundTrip(fields: Fields)
    ensures DecodeFields(EncodeFields(fields)) == fields <==> PlainFields(fields)
  {
    hide DecodeFields, EncodeFields, PlainFields;
    if PlainFields(fields) { PlainRoundTrip(fields); }
    DecodedIsPlain(EncodeFields(fields));
  }

  lemma {:induction false} PlainRoundTrip(fields: Fields)
    requires PlainFields(fields)
    ensures DecodeFields(EncodeFields(fields)) == fields
  {
    hide NulAt, Lossy, ValidUtf8, NulFree;
    if fields != [] {
      var (f, v) := fields[0];
      var a, rest := [f] + v, EncodeFields(fields[1..]);
      var b := EncodeFields(fields);
      assert b == a + [0] + rest;
      assert NulFree(a) by { FieldIsNulFree(f, v); }
      NulAtAfter(a, rest);
      assert b[1..|a|] == v && b[|a| + 1..] == rest;
      LossyIff(v);
      PlainRoundTrip(fields[1..]);
    }
  }

  lemma FieldIsNulFree(f: byte, v: Bytes)
    requires f != 0 && NulFree(v)
    ensures NulFree([f] + v)
  {}
}
