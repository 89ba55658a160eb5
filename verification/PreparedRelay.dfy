/** One message of one client on one backend (prepared.rs, with the relay arms of txn.rs),
    against the same message on a server of the client's own. */
module PreparedRelay {
  import opened Text
  import opened Wire
  import opened Prepared
  import opened Statements

  datatype Stmt = Stmt(sql: Bytes, types: Bytes)

  /** What a message does: on the server, on the client's own server, or to havuz, which may
      refuse it. A statement runs with the portal, formats and values of the Bind, or as the
      Describe asks; other messages are taken as they are. `Unspecified` stands for the unnamed statement of an exchange that never parsed
      one; `Failed` for an error of the statement itself, and `Skipped` for what the server
      ignores after an error. */
  datatype Outcome =
    | Parsed(stmt: Stmt) | Ran(stmt: Stmt, rest: Rest) | Closed | Passed(msg: Message) | Refused
    | Missing | Duplicate | Garbled | Unspecified | Failed | Skipped

  // ---------- the server ----------

  type Server = map<Bytes, Stmt>

  /** A simple query is let pass here, though a server gives up its unnamed statement for one:
      the unnamed statement is never promised beyond a checkout. */
  function ServerOn(server: Server, msg: Message): (Server, Outcome) {
    if msg.tag == PARSE then
      match DecodeParse(msg.body)
      case Err(_) => (server, Garbled)
      case Ok(p) =>
        if p.name != [] && p.name in server then (server, Duplicate)
        else (server[p.name := Stmt(p.sql, p.types)], Parsed(Stmt(p.sql, p.types)))
    else if msg.tag == BIND then
      match BindStatementName(msg.body)
      case Err(_) => (server, Garbled)
      case Ok(name) => (server, if name in server then Ran(server[name], BindRest(msg.body)) else Missing)
    else if msg.tag == DESCRIBE || msg.tag == CLOSE then
      match DescribeTarget(msg.body)
      case Err(_) => (server, Garbled)
      case Ok((kind, name)) =>
        if kind != STATEMENT then (server, Passed(msg))
        else if msg.tag == CLOSE then (server - {name}, Closed)
        else (server, if name in server then Ran(server[name], DescribeRest(msg.body)) else Missing)
    else (server, Passed(msg))
  }

  // ---------- a client with a server of its own ----------

  datatype Private = Private(table: map<Bytes, Stmt>, unnamed: Option<Stmt>)

  function Lookup(p: Private, name: Bytes, rest: Rest): Outcome {
    if name == [] then (if p.unnamed.Some? then Ran(p.unnamed.value, rest) else Unspecified)
    else if name in p.table then Ran(p.table[name], rest)
    else Refused
  }

  /** A later Parse of a name replaces the earlier one; a name never parsed is refused. */
  function PrivateOn(p: Private, msg: Message): (Private, Outcome) {
    if msg.tag == PARSE then
      match DecodeParse(msg.body)
      case Err(_) => (p, Refused)
      case Ok(q) =>
        var stmt := Stmt(q.sql, q.types);
        (if q.name == [] then p.(unnamed := Some(stmt)) else p.(table := p.table[q.name := stmt]), Parsed(stmt))
    else if msg.tag == BIND then
      match BindStatementName(msg.body)
      case Err(_) => (p, Refused)
      case Ok(name) => (p, Lookup(p, name, BindRest(msg.body)))
    else if msg.tag == DESCRIBE || msg.tag == CLOSE then
      match DescribeTarget(msg.body)
      case Err(_) => (p, Refused)
      case Ok((kind, name)) =>
        if kind != STATEMENT then (p, Passed(msg))
        else if msg.tag == DESCRIBE then (p, Lookup(p, name, DescribeRest(msg.body)))
        else if name == [] then (p.(unnamed := None), Closed)
        else if name in p.table then (p.(table := p.table - {name}), Closed)
        else (p, Refused)
    else (p, Passed(msg))
  }

  // ---------- against the protocol ----------

  /** A server that holds what the client's own does. */
  function Plain(p: Private): Server { if p.unnamed.Some? then p.table[[] := p.unnamed.value] else p.table }

  predicate Alike(o: Outcome, own: Outcome) {
    o == own || (own.Refused? && (o.Garbled? || o.Missing?)) || (own.Unspecified? && o.Missing?)
  }

  predicate Reparses(p: Private, msg: Message) {
    msg.tag == PARSE && DecodeParse(msg.body).Ok? && DecodeParse(msg.body).value.name in p.table
  }

  predicate ClosesUnknown(p: Private, msg: Message) {
    && msg.tag == CLOSE && DescribeTarget(msg.body).Ok? && DescribeTarget(msg.body).value.0 == STATEMENT
    && DescribeTarget(msg.body).value.1 != [] && DescribeTarget(msg.body).value.1 !in p.table
  }

  /** Where havuz keeps to section 55.2.3 of the PostgreSQL 16 documentation, and where it does
      not: what is called the client's own server here is a PostgreSQL server exactly up to a
      Parse of a name it has, which replaces the statement, and a Close of one it has not, which
      is refused. */
  lemma PlainServerIff(p: Private, msg: Message)
    requires [] !in p.table
    ensures var (server, o) := ServerOn(Plain(p), msg);
            var (p', own) := PrivateOn(p, msg);
            (Alike(o, own) && server == Plain(p')) <==> !Reparses(p, msg) && !ClosesUnknown(p, msg)
  {
    hide DecodeParse, BindStatementName, DescribeTarget;
    var server, after := ServerOn(Plain(p), msg).0, Plain(PrivateOn(p, msg).0);
    if !Reparses(p, msg) && !ClosesUnknown(p, msg) {
      assert server == after;
    }
  }

  // ---------- the relay ----------

  datatype Backend = Backend(cache: seq<Bytes>, server: Server, discardAll: bool)

  function RewriteOf(d: Digest, table: Table, cache: seq<Bytes>, msg: Message): (Table, Result<Rewrite>) {
    if msg.tag == PARSE then OnParse(d, table, msg)
    else if msg.tag == BIND then (table, OnBind(table, msg, cache))
    else if msg.tag == DESCRIBE || msg.tag == CLOSE then (table, OnDescribeOrClose(table, msg, cache))
    else (table, Ok(Unchanged))
  }

  /** What is neither Parse, Bind, Describe nor Close goes out as it came. */
  lemma OthersForwarded(d: Digest, table: Table, cache: seq<Bytes>, msg: Message)
    requires msg.tag !in {0x50, 0x42, 0x44, 0x43}
    ensures RewriteOf(d, table, cache, msg) == (table, Ok(Unchanged))
  {}

  function Forward(k: Backend, msg: Message): (Backend, Outcome) {
    var (server, o) := ServerOn(k.server, msg);
    (k.(server := server), o)
  }

  /** Closes a name the backend holds, so that it can be parsed again. */
  function Freed(k: Backend, g: Bytes): Backend {
    if g in k.cache then k.(cache := Removed(k.cache, g), server := k.server - {g}) else k
  }

  /** Records a name in the cache and closes the one it displaced, unless `lossy`. */
  function Record(k: Backend, g: Bytes, lossy: bool): Backend {
    var (cache, evicted) := Inserted(k.cache, g);
    k.(cache := cache, server := if evicted.Some? && !lossy then k.server - {evicted.value} else k.server)
  }

  /** One message of the client on the backend it holds. On the retry path, where a failed
      exchange is sent again to the primary, the name displaced by a Parse is not closed. */
  function Relay(d: Digest, table: Table, k: Backend, msg: Message, retry: bool): (Table, Backend, Outcome) {
    var (table', rewrite) := RewriteOf(d, table, k.cache, msg);
    match rewrite
    case Err(_) => (table', k, Refused)
    case Ok(Unchanged) => var (k', o) := Forward(k, msg); (table', k', o)
    case Ok(Replace(m)) => var (k', o) := Forward(k, m); (table', k', o)
    case Ok(RenamedParse(g, m)) =>
      var (k', o) := Forward(Record(Freed(k, g), g, retry), m);
      (table', k', o)
    case Ok(CloseStatement(g, name, m)) =>
      var (k', o) := Forward(k.(cache := Removed(k.cache, g)), m);
      (table' - {name}, k', o)
    case Ok(ReplayThen(parse, g, m)) =>
      var (taught, o) := Forward(k, Message(PARSE, parse));
      if !o.Parsed? then (table', k, o)
      else
        var (k', o') := Forward(Record(taught, g, false), m);
        (table', k', o')
  }

  // ---------- what one message keeps ----------

  function Named(d: Digest, s: Stmt): Bytes { GlobalName(d, s.sql, s.types) }

  predicate Readable(s: Stmt) { NulFree(s.sql) && ValidUtf8(s.sql) }

  /** Global names do not collide on the statements in use. */
  predicate CollisionFree(d: Digest, used: set<Stmt>) {
    && (forall s :: s in used ==> Readable(s))
    && (forall s, t :: s in used && t in used && Named(d, s) == Named(d, t) ==> s == t)
  }

  /** The digest tells the hashed texts of the statements in use apart. */
  predicate InjectiveOn(d: Digest, used: set<Stmt>) {
    forall s, t :: s in used && t in used && d(HashedText(s.sql, s.types)) == d(HashedText(t.sql, t.types)) ==>
      HashedText(s.sql, s.types) == HashedText(t.sql, t.types)
  }

  /** Names do not collide exactly when the digest is injective on what is hashed. */
  lemma CollisionFreeIff(d: Digest, used: set<Stmt>)
    requires forall s :: s in used ==> Readable(s)
    ensures CollisionFree(d, used) <==> InjectiveOn(d, used)
  {
    hide GlobalName, HashedText;
    forall s, t | s in used && t in used
      ensures Named(d, s) == Named(d, t) <==> d(HashedText(s.sql, s.types)) == d(HashedText(t.sql, t.types))
      ensures HashedText(s.sql, s.types) == HashedText(t.sql, t.types) <==> s == t
    {
      assert Readable(s) && Readable(t);
      GlobalNameCollides(d, s.sql, s.types, t.sql, t.types);
    }
  }

  /** The statement of a named Parse is among those in use. */
  predicate Uses(used: set<Stmt>, msg: Message) {
    msg.tag == PARSE && DecodeParse(msg.body).Ok? && DecodeParse(msg.body).value.name != [] ==>
      Stmt(DecodeParse(msg.body).value.sql, DecodeParse(msg.body).value.types) in used
  }

  /** The client's table is its private one, under global names. */
  predicate ClientOk(d: Digest, used: set<Stmt>, table: Table, own: map<Bytes, Stmt>) {
    && table.Keys == own.Keys && [] !in own
    && forall n :: n in own ==> own[n] in used && table[n] == Entry(d, own[n].sql, own[n].types)
  }

  /** Every cached name is on the server, and holds the statement it is the name of. */
  predicate BackendOk(d: Digest, used: set<Stmt>, k: Backend) {
    && Bounded(k.cache)
    && (forall g :: g in k.cache ==> g != [] && g in k.server)
    && (forall g :: g in k.server && g != [] ==> k.server[g] in used && Named(d, k.server[g]) == g)
  }

  /** The cache is exactly the server's set of named statements. */
  predicate Synced(k: Backend) { forall g :: g in k.server && g != [] ==> g in k.cache }

  predicate UnnamedOk(k: Backend, p: Private) {
    p.unnamed.Some? ==> [] in k.server && k.server[[]] == p.unnamed.value
  }

  /** The one step that leaves a statement behind on the server. */
  predicate Loses(d: Digest, k: Backend, msg: Message, retry: bool) {
    && retry && msg.tag == PARSE && DecodeParse(msg.body).Ok? && DecodeParse(msg.body).value.name != []
    && |k.cache| == MAX_STATEMENTS
    && GlobalName(d, DecodeParse(msg.body).value.sql, DecodeParse(msg.body).value.types) !in k.cache
  }

  /** What the server does matches what the client's own server would do; a backend out of step
      may turn down a Parse it already holds, and nothing worse. */
  predicate Matches(k: Backend, o: Outcome, own: Outcome) {
    || (own.Unspecified? && (o.Ran? || o.Missing?))
    || (!own.Unspecified? && o == own)
    || (o == Duplicate && !Synced(k) && (own.Ran? || own.Parsed?))
  }

  predicate StepKeeps(d: Digest, used: set<Stmt>, table: Table, k: Backend, p: Private, msg: Message, retry: bool) {
    var (table', k', o) := Relay(d, table, k, msg, retry);
    var (p', own) := PrivateOn(p, msg);
    && ClientOk(d, used, table', p'.table)
    && BackendOk(d, used, k') && UnnamedOk(k', p') && k'.discardAll == k.discardAll
    && Matches(k, o, own)
    && (Synced(k) ==> (Synced(k') <==> !Loses(d, k, msg, retry)))
  }

  /** Recording a name: bounded, on the server, and the displaced name closed unless lossy. */
  lemma RecordKeeps(d: Digest, used: set<Stmt>, k: Backend, g: Bytes, s: Stmt, lossy: bool)
    requires BackendOk(d, used, k) && g != [] && s in used && Named(d, s) == g
    ensures var k' := Record(k, g, lossy);
            && BackendOk(d, used, k'.(server := k'.server[g := s]))
            && k'.discardAll == k.discardAll
            && (g in k.server ==> g in k'.server && k'.server[g] == k.server[g])
            && (g !in k.server ==> g !in k'.server)
            && ([] in k.server ==> [] in k'.server && k'.server[[]] == k.server[[]])
            && (Synced(k) ==>
                  (Synced(k'.(server := k'.server[g := s])) <==>
                   !(lossy && g !in k.cache && |k.cache| == MAX_STATEMENTS)))
  {
    hide Named, Bounded;
    InsertedMeaning(k.cache, g);
    var k' := Record(k, g, lossy);
    var evicted := Inserted(k.cache, g).1;
    if evicted.Some? {
      OldestIn(k.cache);
      assert evicted.value in k.cache && evicted.value != [];
      if lossy {
        assert evicted.value in k'.server && evicted.value !in k'.cache;
      }
    }
  }

  lemma OldestIn(order: seq<Bytes>)
    ensures order != [] ==> order[0] in order
  {}

  /** What a named Parse does, spelled out. */
  lemma ParseEffect(d: Digest, table: Table, k: Backend, p: Private, msg: Message, retry: bool)
    requires msg.tag == PARSE && DecodeParse(msg.body).Ok? && DecodeParse(msg.body).value.name != []
    ensures var q := DecodeParse(msg.body).value;
            var s := Stmt(q.sql, q.types);
            var g := Named(d, s);
            var k' := Record(Freed(k, g), g, retry);
            && g != []
            && Relay(d, table, k, msg, retry) ==
               (table[q.name := Entry(d, s.sql, s.types)],
                if g in k'.server then k' else k'.(server := k'.server[g := s]),
                if g in k'.server then Duplicate else Parsed(s))
            && PrivateOn(p, msg) == (p.(table := p.table[q.name := s]), Parsed(s))
  {
    hide DecodeParse, GlobalName, BuildParse, Removed, Record, Readable, Freed;
    var q := DecodeParse(msg.body).value;
    DecodeParseSound(msg.body);
    GlobalNameIsText(d, q.sql, q.types);
    DecodeParseComplete(GlobalName(d, q.sql, q.types), q.sql, q.types);
  }

  lemma ParseNamedKeeps(d: Digest, used: set<Stmt>, table: Table, k: Backend, p: Private, msg: Message, retry: bool)
    requires CollisionFree(d, used) && Uses(used, msg) && msg.tag == PARSE
    requires DecodeParse(msg.body).Ok? && DecodeParse(msg.body).value.name != []
    requires ClientOk(d, used, table, p.table) && BackendOk(d, used, k) && UnnamedOk(k, p)
    ensures StepKeeps(d, used, table, k, p, msg, retry)
  {
    hide DecodeParse, GlobalName, Entry, Bounded, Record, Readable, Relay, PrivateOn, Freed;
    var q := DecodeParse(msg.body).value;
    var s := Stmt(q.sql, q.types);
    var g := Named(d, s);
    ParseEffect(d, table, k, p, msg, retry);
    FreeKeeps(d, used, k, g);
    RecordKeeps(d, used, Freed(k, g), g, s, retry);
    var k' := Record(Freed(k, g), g, retry);
    if g in k'.server {
      assert k'.server[g] == s;
      assert k'.server[g := s] == k'.server;
      assert k'.(server := k'.server[g := s]) == k';
    }
  }

  lemma ParseKeeps(d: Digest, used: set<Stmt>, table: Table, k: Backend, p: Private, msg: Message, retry: bool)
    requires CollisionFree(d, used) && Uses(used, msg) && msg.tag == PARSE
    requires ClientOk(d, used, table, p.table) && BackendOk(d, used, k) && UnnamedOk(k, p)
    ensures StepKeeps(d, used, table, k, p, msg, retry)
  {
    hide DecodeParse, GlobalName, Entry, Bounded;
    if DecodeParse(msg.body).Ok? && DecodeParse(msg.body).value.name != [] {
      ParseNamedKeeps(d, used, table, k, p, msg, retry);
    }
  }

  /** Freeing a held name before parsing it again. */
  lemma FreeKeeps(d: Digest, used: set<Stmt>, k: Backend, g: Bytes)
    requires BackendOk(d, used, k) && g != []
    ensures var freed := Freed(k, g);
            && BackendOk(d, used, freed) && freed.discardAll == k.discardAll
            && (Synced(k) ==> Synced(freed) && g !in freed.server)
            && g !in freed.cache
            && (g in k.cache ==> |freed.cache| < MAX_STATEMENTS)
            && (g !in k.cache ==> freed == k)
            && ([] in k.server ==> [] in freed.server && freed.server[[]] == k.server[[]])
  {
    RemovedMeaning(k.cache, g);
  }

  /** A cached name is on the server under the statement the client parsed. */
  lemma CachedRuns(d: Digest, used: set<Stmt>, k: Backend, s: Stmt)
    requires CollisionFree(d, used) && BackendOk(d, used, k) && s in used
    ensures Named(d, s) != []
    ensures Named(d, s) in k.server ==> k.server[Named(d, s)] == s
  {
    hide Bounded, Readable;
    GlobalNameIsText(d, s.sql, s.types);
  }

  /** The message is a Bind or a Describe of this statement. */
  predicate Names(msg: Message, name: Bytes) {
    || (msg.tag == BIND && BindStatementName(msg.body) == Ok(name))
    || (msg.tag == DESCRIBE && DescribeTarget(msg.body) == Ok((STATEMENT, name)))
  }

  /** What it asks for besides the statement. */
  function RestOf(msg: Message): Rest { if msg.tag == BIND then BindRest(msg.body) else DescribeRest(msg.body) }

  /** What a Bind or Describe of a known statement does, spelled out. */
  lemma NamedEffect(d: Digest, used: set<Stmt>, table: Table, k: Backend, p: Private, msg: Message,
                    name: Bytes, retry: bool)
    requires CollisionFree(d, used) && ClientOk(d, used, table, p.table) && BackendOk(d, used, k)
    requires Names(msg, name) && name in p.table
    ensures var s := p.table[name];
            var g := Named(d, s);
            && PrivateOn(p, msg) == (p, Ran(s, RestOf(msg)))
            && Relay(d, table, k, msg, retry) ==
               (table,
                if g in k.cache || g in k.server then k
                else Record(k.(server := k.server[g := s]), g, false),
                if g in k.cache || g !in k.server then Ran(s, RestOf(msg)) else Duplicate)
  {
    hide DecodeParse, GlobalName, BuildParse, Bounded, Record, Readable, ReplaceCString, BindStatementName, DescribeTarget, BindRest, DescribeRest;
    var s := p.table[name];
    var g := Named(d, s);
    GlobalNameIsText(d, s.sql, s.types);
    assert Readable(s);
    TextOf(s);
    DecodeParseComplete(g, s.sql, s.types);
    RenamedReadsBack(msg.body, g);
    RenamedKeepsRest(msg.body, g);
    CachedRuns(d, used, k, s);
    if g !in k.cache && g !in k.server {
      var taught := k.(server := k.server[g := s]);
      TaughtOk(d, used, k, g, s);
      RecordKeeps(d, used, taught, g, s, false);
    }
  }

  lemma TextOf(s: Stmt)
    requires Readable(s)
    ensures NulFree(s.sql) && ValidUtf8(s.sql)
  {}

  lemma TaughtOk(d: Digest, used: set<Stmt>, k: Backend, g: Bytes, s: Stmt)
    requires BackendOk(d, used, k) && g != [] && s in used && Named(d, s) == g
    ensures BackendOk(d, used, k.(server := k.server[g := s]))
  {}

  /** Exactly when a Bind of a known statement is let through: the backend has it cached, or
      does not hold it at all. */
  lemma BindRunsIff(d: Digest, used: set<Stmt>, table: Table, k: Backend, p: Private, msg: Message, retry: bool)
    requires CollisionFree(d, used) && ClientOk(d, used, table, p.table) && BackendOk(d, used, k)
    requires msg.tag == BIND && BindStatementName(msg.body).Ok? && BindStatementName(msg.body).value in p.table
    ensures var s := p.table[BindStatementName(msg.body).value];
            && (Relay(d, table, k, msg, retry).2 == Ran(s, BindRest(msg.body)) <==>
                Named(d, s) in k.cache || Named(d, s) !in k.server)
            && (Relay(d, table, k, msg, retry).2 != Ran(s, BindRest(msg.body)) ==> Relay(d, table, k, msg, retry).2 == Duplicate)
  {
    hide Relay, BindStatementName, PrivateOn, ClientOk, BackendOk, CollisionFree;
    NamedEffect(d, used, table, k, p, msg, BindStatementName(msg.body).value, retry);
  }

  lemma NamedKeeps(d: Digest, used: set<Stmt>, table: Table, k: Backend, p: Private, msg: Message,
                   name: Bytes, retry: bool)
    requires CollisionFree(d, used) && ClientOk(d, used, table, p.table) && BackendOk(d, used, k) && UnnamedOk(k, p)
    requires Names(msg, name) && name in p.table
    ensures StepKeeps(d, used, table, k, p, msg, retry)
  {
    hide Named, Record, Relay, PrivateOn, CollisionFree, BackendOk, Synced, UnnamedOk, ClientOk, Names;
    NamedEffect(d, used, table, k, p, msg, name, retry);
    var s := p.table[name];
    InUse(d, used, table, p.table, name);
    CachedRuns(d, used, k, s);
    TeachKeeps(d, used, k, Named(d, s), s, p);
    NotAParse(msg, name);
    SyncedCaches(k, Named(d, s));
  }

  lemma InUse(d: Digest, used: set<Stmt>, table: Table, own: map<Bytes, Stmt>, name: Bytes)
    requires ClientOk(d, used, table, own) && name in own
    ensures own[name] in used
  {}

  lemma NotAParse(msg: Message, name: Bytes)
    requires Names(msg, name)
    ensures msg.tag != PARSE
  {}

  lemma SyncedCaches(k: Backend, g: Bytes)
    requires g != []
    ensures Synced(k) && g in k.server ==> g in k.cache
  {}

  /** Teaching a backend one more statement keeps it sound, and in step if it was. */
  lemma TeachKeeps(d: Digest, used: set<Stmt>, k: Backend, g: Bytes, s: Stmt, p: Private)
    requires BackendOk(d, used, k) && g != [] && s in used && Named(d, s) == g
    ensures var k' := Record(k.(server := k.server[g := s]), g, false);
            && BackendOk(d, used, k') && k'.discardAll == k.discardAll
            && (Synced(k) ==> Synced(k'))
            && (UnnamedOk(k, p) ==> UnnamedOk(k', p))
  {
    hide Bounded, Named;
    InsertedMeaning(k.cache, g);
    var k' := Record(k.(server := k.server[g := s]), g, false);
    var evicted := Inserted(k.cache, g).1;
    if evicted.Some? { OldestIn(k.cache); }
  }

  /** What a Close of a known statement does, spelled out. */
  lemma CloseEffect(d: Digest, used: set<Stmt>, table: Table, k: Backend, p: Private, msg: Message,
                    name: Bytes, retry: bool)
    requires CollisionFree(d, used) && ClientOk(d, used, table, p.table)
    requires msg.tag == CLOSE && DescribeTarget(msg.body) == Ok((STATEMENT, name)) && name in p.table
    ensures var g := Named(d, p.table[name]);
            && g != []
            && PrivateOn(p, msg) == (p.(table := p.table - {name}), Closed)
            && Relay(d, table, k, msg, retry) ==
               (table - {name}, k.(cache := Removed(k.cache, g), server := k.server - {g}), Closed)
  {
    hide DecodeParse, GlobalName, BuildParse, Bounded, Readable, ReplaceCString, DescribeTarget, Removed;
    var s := p.table[name];
    var g := Named(d, s);
    GlobalNameIsText(d, s.sql, s.types);
    RenamedReadsBack(msg.body, g);
  }

  lemma CloseKeeps(d: Digest, used: set<Stmt>, table: Table, k: Backend, p: Private, msg: Message,
                   name: Bytes, retry: bool)
    requires CollisionFree(d, used) && ClientOk(d, used, table, p.table) && BackendOk(d, used, k) && UnnamedOk(k, p)
    requires msg.tag == CLOSE && DescribeTarget(msg.body) == Ok((STATEMENT, name)) && name in p.table
    ensures StepKeeps(d, used, table, k, p, msg, retry)
  {
    hide GlobalName, Bounded, Relay, PrivateOn, DescribeTarget, Entry, Removed, CollisionFree;
    CloseEffect(d, used, table, k, p, msg, name, retry);
    var g := Named(d, p.table[name]);
    BoundedIsDistinct(k.cache);
    RemovedMeaning(k.cache, g);
    RemovedBounded(k.cache, g);
  }

  lemma BoundedIsDistinct(order: seq<Bytes>)
    requires Bounded(order)
    ensures DistinctNames(order)
  {}

  lemma RemovedBounded(order: seq<Bytes>, g: Bytes)
    requires Bounded(order)
    ensures Bounded(Removed(order, g))
  {
    RemovedMeaning(order, g);
  }

  /** A Bind, Describe or Close that names no known statement, or no statement at all. */
  lemma OtherKeeps(d: Digest, used: set<Stmt>, table: Table, k: Backend, p: Private, msg: Message, retry: bool)
    requires ClientOk(d, used, table, p.table) && BackendOk(d, used, k) && UnnamedOk(k, p)
    requires msg.tag != PARSE
    requires forall name :: name in p.table ==> !Names(msg, name)
    requires forall name :: name in p.table ==> !(msg.tag == CLOSE && DescribeTarget(msg.body) == Ok((STATEMENT, name)))
    ensures StepKeeps(d, used, table, k, p, msg, retry)
  {
    hide GlobalName, Bounded, BindStatementName, DescribeTarget, Entry;
    if msg.tag == BIND && BindStatementName(msg.body).Ok? {
      assert Names(msg, BindStatementName(msg.body).value);
    }
    if (msg.tag == DESCRIBE || msg.tag == CLOSE) && DescribeTarget(msg.body).Ok? {
      var (kind, name) := DescribeTarget(msg.body).value;
      assert kind == STATEMENT && msg.tag == DESCRIBE ==> Names(msg, name);
    }
  }

  /** Every message keeps the tables apart and the cache honest, and does on the server what it
      would do on the client's own. */
  lemma MessageKeeps(d: Digest, used: set<Stmt>, table: Table, k: Backend, p: Private, msg: Message, retry: bool)
    requires CollisionFree(d, used) && Uses(used, msg)
    requires ClientOk(d, used, table, p.table) && BackendOk(d, used, k) && UnnamedOk(k, p)
    ensures StepKeeps(d, used, table, k, p, msg, retry)
  {
    hide CollisionFree, Uses, ClientOk, BackendOk, UnnamedOk, StepKeeps, Names, DescribeTarget;
    if msg.tag == PARSE {
      ParseKeeps(d, used, table, k, p, msg, retry);
    } else if name :| name in p.table && Names(msg, name) {
      NamedKeeps(d, used, table, k, p, msg, name, retry);
    } else if name :| name in p.table && msg.tag == CLOSE && DescribeTarget(msg.body) == Ok((STATEMENT, name)) {
      CloseKeeps(d, used, table, k, p, msg, name, retry);
    } else {
      OtherKeeps(d, used, table, k, p, msg, retry);
    }
  }
}
