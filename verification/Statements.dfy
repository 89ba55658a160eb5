/** `ClientStatements` and `BackendStatements` (prepared.rs): the decisions as functions of the
    client's table and the backend's cache, and the two objects that are updated in place. */
module Statements {
  import opened Text
  import opened Wire
  import opened Prepared

  const MAX_STATEMENTS: nat := 256

  /** A statement the client parsed, ready to be replayed onto any backend. */
  datatype PreparedStatement = PreparedStatement(globalName: Bytes, parseMessage: Bytes, sql: Bytes)

  type Table = map<Bytes, PreparedStatement>

  /** What the relay should do with a message. */
  datatype Rewrite =
    | Unchanged
    | Replace(message: Message)
    | ReplayThen(parse: Bytes, globalName: Bytes, message: Message)
    | RenamedParse(globalName: Bytes, message: Message)
    | CloseStatement(globalName: Bytes, clientName: Bytes, message: Message)

  // ---------- the cache ----------

  /** The cache in insertion order, and the name that had to give way. */
  function Inserted(order: seq<Bytes>, g: Bytes): (seq<Bytes>, Option<Bytes>) {
    if g in order then (order, None)
    else if |order| >= MAX_STATEMENTS && order != [] then (order[1..] + [g], Some(order[0]))
    else (order + [g], None)
  }

  function Removed(order: seq<Bytes>, g: Bytes): seq<Bytes> {
    if order == [] then []
    else if order[0] == g then Removed(order[1..], g)
    else [order[0]] + Removed(order[1..], g)
  }

  predicate DistinctNames(s: seq<Bytes>) { forall i, j :: 0 <= i < j < |s| ==> s[i] != s[j] }

  /** The cache never repeats a name and never outgrows its bound. */
  predicate Bounded(order: seq<Bytes>) { DistinctNames(order) && |order| <= MAX_STATEMENTS }

  lemma {:induction false} RemovedMeaning(order: seq<Bytes>, g: Bytes)
    requires DistinctNames(order)
    ensures forall n :: n in Removed(order, g) <==> n in order && n != g
    ensures DistinctNames(Removed(order, g)) && |Removed(order, g)| <= |order|
    ensures g in order ==> |Removed(order, g)| < |order|
    ensures g !in order ==> Removed(order, g) == order
  {
    if order != [] {
      RemovedMeaning(order[1..], g);
      assert order == [order[0]] + order[1..] && order[0] !in order[1..];
    }
  }

  /** Inserting keeps the bound, adds the name, and drops at most the oldest other one. */
  lemma InsertedMeaning(order: seq<Bytes>, g: Bytes)
    requires Bounded(order)
    ensures var (after, evicted) := Inserted(order, g);
            && Bounded(after) && g in after
            && (forall n :: n in after <==> (n in order && evicted != Some(n)) || n == g)
            && (evicted.Some? <==> g !in order && |order| == 256)
            && (evicted.Some? ==> evicted.value == order[0] && evicted.value != g)
  {
    if g !in order && |order| >= MAX_STATEMENTS {
      assert order == [order[0]] + order[1..] && order[0] !in order[1..];
    }
  }

  class BackendStatements {
    var present: set<Bytes>
    var order: seq<Bytes>

    ghost predicate Valid()
      reads this
    {
      Bounded(order) && present == set n | n in order
    }

    constructor ()
      ensures Valid() && order == []
    {
      present, order := {}, [];
    }

    method Has(g: Bytes) returns (r: bool)
      requires Valid()
      ensures r <==> g in order
    {
      r := g in present;
    }

    method Insert(g: Bytes) returns (evicted: Option<Bytes>)
      requires Valid()
      modifies this
      ensures Valid() && (order, evicted) == Inserted(old(order), g)
    {
      InsertedMeaning(order, g);
      if g in present { return None; }
      evicted := None;
      SizeOf(order);
      if |present| >= MAX_STATEMENTS {
        evicted := Some(order[0]);
        present := present - {order[0]};
        order := order[1..];
      }
      present := present + {g};
      order := order + [g];
    }

    method Remove(g: Bytes)
      requires Valid()
      modifies this
      ensures Valid() && order == Removed(old(order), g)
    {
      RemovedMeaning(order, g);
      if g in present {
        present := present - {g};
        order := Removed(order, g);
      }
    }

    method Clear()
      modifies this
      ensures Valid() && order == []
    {
      present, order := {}, [];
    }
  }

  lemma {:induction false} SizeOf(order: seq<Bytes>)
    requires DistinctNames(order)
    ensures |set n | n in order| == |order|
  {
    if order != [] {
      SizeOf(order[1..]);
      assert order == [order[0]] + order[1..] && order[0] !in order[1..];
      assert (set n | n in order) == {order[0]} + (set n | n in order[1..]);
    }
  }

  // ---------- the client's table ----------

  function Entry(d: Digest, sql: Bytes, types: Bytes): PreparedStatement {
    var g := GlobalName(d, sql, types);
    PreparedStatement(g, BuildParse(g, sql, types), sql)
  }

  function OnParse(d: Digest, table: Table, msg: Message): (Table, Result<Rewrite>) {
    match DecodeParse(msg.body)
    case Err(e) => (table, Err(e))
    case Ok(p) =>
      if p.name == [] then (table, Ok(Unchanged))
      else
        var entry := Entry(d, p.sql, p.types);
        (table[p.name := entry], Ok(RenamedParse(entry.globalName, Message(PARSE, entry.parseMessage))))
  }

  /** The client's name becomes the global one; the Parse is replayed first when this backend
      has not seen it. */
  function Redirect(table: Table, msg: Message, name: Bytes, index: nat, cache: seq<Bytes>): Result<Rewrite> {
    if name == [] then Ok(Unchanged)
    else if name !in table then Err(UnknownStatement(name))
    else
      var entry := table[name];
      match ReplaceCString(msg.body, index, entry.globalName)
      case Err(e) => Err(e)
      case Ok(body) =>
        if entry.globalName in cache then Ok(Replace(Message(msg.tag, body)))
        else Ok(ReplayThen(entry.parseMessage, entry.globalName, Message(msg.tag, body)))
  }

  function OnBind(table: Table, msg: Message, cache: seq<Bytes>): Result<Rewrite> {
    match BindStatementName(msg.body)
    case Err(e) => Err(e)
    case Ok(name) => Redirect(table, msg, name, 1, cache)
  }

  function OnDescribeOrClose(table: Table, msg: Message, cache: seq<Bytes>): Result<Rewrite> {
    match DescribeTarget(msg.body)
    case Err(e) => Err(e)
    case Ok((kind, name)) =>
      if kind != STATEMENT then Ok(Unchanged)
      else
        match Redirect(table, msg, name, 0, cache)
        case Err(e) => Err(e)
        case Ok(rewrite) =>
          if msg.tag == CLOSE && name in table then
            match rewrite
            case Replace(m) => Ok(CloseStatement(table[name].globalName, name, m))
            case ReplayThen(_, _, m) => Ok(CloseStatement(table[name].globalName, name, m))
            case Unchanged => Ok(CloseStatement(table[name].globalName, name, msg))
            case other => Ok(other)
          else Ok(rewrite)
  }

  // ---------- what goes to the server, byte by byte ----------

  predicate IsText(s: Bytes) { NulFree(s) && ValidUtf8(s) }

  /** A named Parse goes out under its global name, with its SQL and types as they came, and is
      kept as it went out. */
  lemma ParseForwarded(d: Digest, table: Table, name: Bytes, sql: Bytes, types: Bytes)
    requires IsText(name) && IsText(sql) && name != []
    ensures var g := GlobalName(d, sql, types);
            var out := g + [0] + sql + [0] + types;
            OnParse(d, table, Message(0x50, name + [0] + sql + [0] + types)) ==
            (table[name := PreparedStatement(g, out, sql)], Ok(RenamedParse(g, Message(0x50, out))))
  {
    hide DecodeParse, ValidUtf8, NulFree;
    assert name + [0] + sql + [0] + types == BuildParse(name, sql, types);
    DecodeParseComplete(name, sql, types);
  }

  /** A Bind of a known statement goes out with its portal, formats and values as they came. */
  lemma BindForwarded(table: Table, cache: seq<Bytes>, portal: Bytes, name: Bytes, tail: Bytes)
    requires NulFree(portal) && IsText(name) && name in table && name != []
    ensures var e := table[name];
            var m := Message(0x42, portal + [0] + e.globalName + [0] + tail);
            OnBind(table, Message(0x42, portal + [0] + name + [0] + tail), cache) ==
            Ok(if e.globalName in cache then Replace(m) else ReplayThen(e.parseMessage, e.globalName, m))
  {
    hide ReplaceCString, ValidUtf8, TakeCString, NulFree;
    var body := BuildBind(BindParts(portal, name, tail));
    assert body == portal + [0] + (name + [0] + tail);
    TakeCStringOf(portal, name + [0] + tail);
    TakeCStringOf(name, tail);
    RenameBindParts(portal, name, tail, table[name].globalName);
  }

  /** A Describe of a known statement goes out as it came but for the name, and a Close too,
      never with a replay. */
  lemma DescribeForwarded(table: Table, cache: seq<Bytes>, name: Bytes, tail: Bytes)
    requires IsText(name) && name in table && name != []
    ensures var e := table[name];
            var m := Message(0x44, [0x53] + e.globalName + [0] + tail);
            OnDescribeOrClose(table, Message(0x44, [0x53] + name + [0] + tail), cache) ==
            Ok(if e.globalName in cache then Replace(m) else ReplayThen(e.parseMessage, e.globalName, m))
    ensures var e := table[name];
            var m := Message(0x43, [0x53] + e.globalName + [0] + tail);
            OnDescribeOrClose(table, Message(0x43, [0x53] + name + [0] + tail), cache) ==
            Ok(CloseStatement(e.globalName, name, m))
  {
    hide ReplaceCString, ValidUtf8, TakeCString, NulFree;
    var body := [STATEMENT] + name + [0] + tail;
    assert body[1..] == name + [0] + tail;
    TakeCStringOf(name, tail);
    RenameDescribeParts(name, tail, table[name].globalName);
  }

  /** What names no statement goes out as it came. */
  lemma UnnamedForwarded(table: Table, cache: seq<Bytes>, portal: Bytes, tail: Bytes, kind: byte, name: Bytes)
    requires NulFree(portal) && IsText(name) && kind != 0x53
    ensures OnBind(table, Message(0x42, portal + [0] + [] + [0] + tail), cache) == Ok(Unchanged)
    ensures forall tag :: OnDescribeOrClose(table, Message(tag, [kind] + name + [0] + tail), cache) == Ok(Unchanged)
    ensures [] !in table ==> forall tag :: OnDescribeOrClose(table, Message(tag, [0x53] + [] + [0] + tail), cache) == Ok(Unchanged)
  {
    hide ValidUtf8, TakeCString, NulFree;
    assert portal + [0] + [] + [0] + tail == portal + [0] + ([] + [0] + tail);
    TakeCStringOf(portal, [] + [0] + tail);
    assert NulFree([]) && ValidUtf8([]) by { NothingIsText(); }
    TakeCStringOf([], tail);
    TakeCStringOf(name, tail);
    assert ([kind] + name + [0] + tail)[1..] == name + [0] + tail;
    assert ([STATEMENT] + [] + [0] + tail)[1..] == [] + [0] + tail;
  }

  lemma NothingIsText()
    ensures NulFree([]) && ValidUtf8([])
  {}

  class ClientStatements {
    var byName: Table

    constructor ()
      ensures byName == map[]
    {
      byName := map[];
    }

    method Parse(d: Digest, msg: Message) returns (r: Result<Rewrite>)
      modifies this
      ensures (byName, r) == OnParse(d, old(byName), msg)
    {
      var decoded := DecodeParse(msg.body);
      if decoded.Err? { return Err(decoded.error); }
      var p := decoded.value;
      if p.name == [] { return Ok(Unchanged); }
      var g := GlobalName(d, p.sql, p.types);
      var parseMessage := BuildParse(g, p.sql, p.types);
      byName := byName[p.name := PreparedStatement(g, parseMessage, p.sql)];
      return Ok(RenamedParse(g, Message(PARSE, parseMessage)));
    }

    method Forget(name: Bytes)
      modifies this
      ensures byName == old(byName) - {name}
    {
      byName := byName - {name};
    }
  }
}
