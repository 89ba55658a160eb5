/** The statements and messages of the concrete runs, what each message does on the line, and
    how a run is built one step at a time. */
module PreparedSteps {
  import opened Text
  import opened Wire
  import opened Prepared
  import opened Statements
  import opened PreparedRelay
  import opened PreparedWire
  import opened PreparedRetry
  import opened PreparedRuns

  // ---------- messages ----------

  /** The statements and names of the examples: `a`, `aa`, `aaa` and so on. */
  function Word(i: nat): Bytes { seq(i + 1, _ => 0x61) }

  function Statement(i: nat): Stmt { Stmt(Word(i), [0, 0]) }

  function ParseMsg(name: Bytes, s: Stmt): Message { Message(PARSE, BuildParse(name, s.sql, s.types)) }

  function BindMsg(name: Bytes): Message { Message(BIND, BuildBind(BindParts([], name, [0, 0, 0, 0, 0, 0]))) }

  function CloseMsg(name: Bytes): Message { Message(CLOSE, [STATEMENT] + name + [0]) }

  const SyncMsg: Message := Message(SYNC, [])

  const EXECUTE: byte := 0x45

  const ExecuteMsg: Message := Message(EXECUTE, [0, 0, 0, 0, 0])

  lemma WordIsText(i: nat)
    ensures Word(i) != [] && NulFree(Word(i)) && ValidUtf8(Word(i)) && Readable(Statement(i))
  {
    AsciiIsUtf8(Word(i));
  }

  predicate IsName(name: Bytes) { NulFree(name) && ValidUtf8(name) }

  lemma ParseReads(name: Bytes, i: nat)
    requires IsName(name)
    ensures DecodeParse(ParseMsg(name, Statement(i)).body) == Ok(ParseParts(name, Word(i), [0, 0]))
  {
    hide Word, DecodeParse, BuildParse, ValidUtf8, NulFree;
    WordIsText(i);
    DecodeParseComplete(name, Word(i), [0, 0]);
  }

  lemma BindReads(name: Bytes)
    requires IsName(name)
    ensures BindStatementName(BindMsg(name).body) == Ok(name)
  {
    hide TakeCString, ValidUtf8;
    var tail := name + [0] + [0, 0, 0, 0, 0, 0];
    assert BindMsg(name).body == [] + [0] + tail;
    TakeCStringOf([], tail);
    TakeCStringOf(name, [0, 0, 0, 0, 0, 0]);
  }

  lemma CloseReads(name: Bytes)
    requires IsName(name)
    ensures DescribeTarget(CloseMsg(name).body) == Ok((STATEMENT, name))
  {
    hide TakeCString, ValidUtf8;
    assert CloseMsg(name).body[1..] == name + [0] + [];
    TakeCStringOf(name, []);
  }

  // ---------- building a run one step at a time ----------

  /** The run leads there, and if `orderly` leaves nothing half done on the way. */
  ghost predicate Reached(orderly: bool, d: Digest, used: set<Stmt>, steps: seq<Step>, w: World, p: map<nat, Own>) {
    && IsRun(d, used, EMPTY, steps) && Run(d, used, EMPTY, steps) == w && PrivateRun(map[], steps) == p
    && (orderly ==> IsOrderly(d, used, EMPTY, steps))
  }

  lemma ReachedStart(d: Digest, used: set<Stmt>)
    ensures Reached(true, d, used, [], EMPTY, map[])
  {}

  lemma {:induction false} OneMore(d: Digest, used: set<Stmt>, w: World, p: map<nat, Own>, steps: seq<Step>, step: Step)
    requires IsRun(d, used, w, steps) && Enabled(Run(d, used, w, steps), step) && Sends(used, step)
    ensures IsRun(d, used, w, steps + [step])
    ensures Run(d, used, w, steps + [step]) == Next(d, Run(d, used, w, steps), step)
    ensures PrivateRun(p, steps + [step]) == PrivateNext(PrivateRun(p, steps), step)
    ensures IsOrderly(d, used, w, steps + [step]) <==> IsOrderly(d, used, w, steps) && Orderly(d, Run(d, used, w, steps), step)
    decreases |steps|
  {
    hide Enabled, Next, PrivateNext, Sends, Orderly;
    var more := steps + [step];
    if steps == [] {
      assert more == [step] && more[1..] == [];
    } else {
      assert more[0] == steps[0] && more[1..] == steps[1..] + [step];
      OneMore(d, used, Next(d, w, steps[0]), PrivateNext(p, steps[0]), steps[1..], step);
    }
  }

  lemma Then(orderly: bool, d: Digest, used: set<Stmt>, steps: seq<Step>, w: World, p: map<nat, Own>, step: Step)
    requires Reached(orderly, d, used, steps, w, p) && Enabled(w, step) && Sends(used, step)
    requires orderly ==> Orderly(d, w, step)
    ensures Reached(orderly, d, used, steps + [step], Next(d, w, step), PrivateNext(p, step))
  {
    hide IsRun, Run, PrivateRun, Enabled, Next, PrivateNext, Sends, Orderly, IsOrderly;
    OneMore(d, used, EMPTY, map[], steps, step);
  }

  /** A run may stop being orderly. */
  lemma AnyWay(d: Digest, used: set<Stmt>, steps: seq<Step>, w: World, p: map<nat, Own>)
    requires Reached(true, d, used, steps, w, p)
    ensures Reached(false, d, used, steps, w, p)
  {}

  // ---------- what the messages do on the line ----------

  /** A backend taught one more statement. */
  function Learned(d: Digest, k: Backend, s: Stmt): Backend {
    k.(cache := k.cache + [Named(d, s)], server := k.server[Named(d, s) := s])
  }

  function NameOf(d: Digest, i: nat): Bytes { Named(d, Statement(i)) }

  function ReplayOf(d: Digest, i: nat): Bytes { BuildParse(NameOf(d, i), Word(i), [0, 0]) }

  function EntryOf(d: Digest, i: nat): PreparedStatement { Entry(d, Word(i), [0, 0]) }

  lemma EntryParts(d: Digest, i: nat)
    ensures EntryOf(d, i) == PreparedStatement(NameOf(d, i), ReplayOf(d, i), Word(i))
    ensures NameOf(d, i) != [] && IsName(NameOf(d, i))
  {
    hide Word, GlobalName, BuildParse, ValidUtf8, NulFree;
    GlobalNameIsText(d, Word(i), [0, 0]);
  }

  /** A client that parses one more statement, and a backend taught it, stay sound. */
  lemma LearnedOk(d: Digest, used: set<Stmt>, table: Table, own: map<Bytes, Stmt>, k: Backend, i: nat)
    requires ClientOk(d, used, table, own) && BackendOk(d, used, k) && Statement(i) in used
    requires NameOf(d, i) !in k.cache && |k.cache| < MAX_STATEMENTS
    ensures ClientOk(d, used, table[Word(i) := EntryOf(d, i)], own[Word(i) := Statement(i)])
    ensures BackendOk(d, used, Learned(d, k, Statement(i)))
  {
    hide Word, Entry, Named, NulFree, ValidUtf8;
    WordIsText(i);
    EntryParts(d, i);
    assert EntryOf(d, i) == Entry(d, Statement(i).sql, Statement(i).types);
  }

  /** The server takes the Parse of a statement under its global name. */
  lemma ServesParse(d: Digest, server: Server, i: nat)
    ensures ServerOn(server, Message(PARSE, ReplayOf(d, i))) ==
            if NameOf(d, i) in server then (server, Duplicate)
            else (server[NameOf(d, i) := Statement(i)], Parsed(Statement(i)))
  {
    hide Word, DecodeParse, BuildParse, GlobalName, ValidUtf8, NulFree;
    EntryParts(d, i);
    WordIsText(i);
    DecodeParseComplete(NameOf(d, i), Word(i), [0, 0]);
  }

  lemma ParseRewrites(d: Digest, table: Table, cache: seq<Bytes>, name: Bytes, i: nat)
    requires IsName(name) && name != []
    ensures RewriteOf(d, table, cache, ParseMsg(name, Statement(i))) ==
            (table[name := EntryOf(d, i)], Ok(RenamedParse(NameOf(d, i), Message(PARSE, ReplayOf(d, i)))))
  {
    hide Word, DecodeParse, BuildParse, GlobalName;
    ParseReads(name, i);
    EntryParts(d, i);
  }

  /** The Bind under its global name, and how the server takes it. */
  lemma BindRewrites(d: Digest, table: Table, cache: seq<Bytes>, name: Bytes, i: nat, server: Server) returns (m: Message)
    requires IsName(name) && name != [] && name in table && table[name] == EntryOf(d, i)
    ensures m.tag == BIND
    ensures RewriteOf(d, table, cache, BindMsg(name)) ==
            (table, Ok(if NameOf(d, i) in cache then Replace(m) else ReplayThen(ReplayOf(d, i), NameOf(d, i), m)))
    ensures ServerOn(server, m) == (server, if NameOf(d, i) in server then Ran(server[NameOf(d, i)], BindRest(BindMsg(name).body)) else Missing)
  {
    hide Word, BuildBind, BuildParse, GlobalName, BindStatementName, ReplaceCString, BindRest;
    BindReads(name);
    EntryParts(d, i);
    RenamedReadsBack(BindMsg(name).body, NameOf(d, i));
    RenamedKeepsRest(BindMsg(name).body, NameOf(d, i));
    m := Message(BIND, ReplaceCString(BindMsg(name).body, 1, NameOf(d, i)).value);
  }

  lemma SyncRelay(d: Digest, table: Table, l: Line, retry: bool)
    ensures WireRelay(d, table, l, SyncMsg, false, retry) == Relayed(table, l.(skipping := false), Served(Passed(SyncMsg)))
  {}

  lemma ExecuteRelay(d: Digest, table: Table, l: Line, fails: bool)
    requires !l.skipping
    ensures WireRelay(d, table, l, ExecuteMsg, fails, false) ==
            if fails then Relayed(table, Answered(l.(skipping := true), ErrorReply), Served(Failed))
            else Relayed(table, Answered(l, Data), Served(Passed(ExecuteMsg)))
  {}

  /** A Parse of a statement that is new to the backend, which has room. */
  lemma ParseRelay(d: Digest, table: Table, l: Line, name: Bytes, i: nat, retry: bool)
    requires !l.skipping && IsName(name) && name != []
    requires NameOf(d, i) !in l.k.cache && NameOf(d, i) !in l.k.server && |l.k.cache| < MAX_STATEMENTS
    ensures WireRelay(d, table, l, ParseMsg(name, Statement(i)), false, retry) ==
            Relayed(table[name := EntryOf(d, i)], Answered(l.(k := Learned(d, l.k, Statement(i))), ParseDone),
                    Served(Parsed(Statement(i))))
  {
    hide Word, RewriteOf, BuildParse, GlobalName, ServerOn, Entry;
    ParseRewrites(d, table, l.k.cache, name, i);
    ServesParse(d, l.k.server, i);
  }

  /** A Bind of a statement the backend has cached, and holds or not. */
  lemma BindRelay(d: Digest, table: Table, l: Line, name: Bytes, i: nat, retry: bool)
    requires !l.skipping && IsName(name) && name != [] && name in table && table[name] == EntryOf(d, i)
    requires NameOf(d, i) in l.k.cache
    ensures WireRelay(d, table, l, BindMsg(name), false, retry) ==
            if NameOf(d, i) in l.k.server then Relayed(table, Answered(l, Data), Served(Ran(l.k.server[NameOf(d, i)], BindRest(BindMsg(name).body))))
            else Relayed(table, Answered(l.(skipping := true), ErrorReply), Served(Missing))
  {
    hide Word, RewriteOf, BuildParse, BuildBind, GlobalName, ServerOn, Entry;
    var m := BindRewrites(d, table, l.k.cache, name, i, l.k.server);
  }

  /** A Close of a statement of the client's own. */
  lemma CloseRelay(d: Digest, table: Table, l: Line, name: Bytes, i: nat)
    requires !l.skipping && IsName(name) && name != [] && name in table && table[name] == EntryOf(d, i)
    ensures var r := WireRelay(d, table, l, CloseMsg(name), false, false); r.table == table - {name} && r.event == Served(Closed)
  {
    hide Word, GlobalName, EntryOf, RewriteOf, Removed;
    var m := CloseRewrites(d, table, l.k.cache, name, i);
  }

  lemma CloseRewrites(d: Digest, table: Table, cache: seq<Bytes>, name: Bytes, i: nat) returns (m: Message)
    requires IsName(name) && name != [] && name in table && table[name] == EntryOf(d, i)
    ensures m.tag == CLOSE && DescribeTarget(m.body) == Ok((STATEMENT, NameOf(d, i)))
    ensures RewriteOf(d, table, cache, CloseMsg(name)) == (table, Ok(CloseStatement(NameOf(d, i), name, m)))
  {
    hide Word, GlobalName, BuildParse, DescribeTarget, ReplaceCString, EntryOf, NameOf;
    CloseReads(name);
    EntryParts(d, i);
    RenamedReadsBack(CloseMsg(name).body, NameOf(d, i));
    m := Message(CLOSE, ReplaceCString(CloseMsg(name).body, 0, NameOf(d, i)).value);
  }

  /** A Bind that has to be replayed, with answers waiting: they are gone afterwards. */
  lemma ReplayRelay(d: Digest, table: Table, l: Line, name: Bytes, i: nat, retry: bool)
    requires !l.skipping && IsName(name) && name != [] && name in table && table[name] == EntryOf(d, i)
    requires NameOf(d, i) !in l.k.cache && NameOf(d, i) !in l.k.server && |l.k.cache| < MAX_STATEMENTS
    requires forall j :: 0 <= j < |l.pending| ==> l.pending[j].kind == Data
    ensures WireRelay(d, table, l, BindMsg(name), false, retry) ==
            Relayed(table, Answered(l.(k := Learned(d, l.k, Statement(i)), pending := [], order := OrderAfter(l, ParseDone, Some(ParseDone))), Data),
                    Served(Ran(Statement(i), BindRest(BindMsg(name).body))))
  {
    hide Word, RewriteOf, BuildParse, BuildBind, GlobalName, ServerOn, Entry, FirstOf;
    var m := BindRewrites(d, table, l.k.cache, name, i, l.k.server[NameOf(d, i) := Statement(i)]);
    ServesParse(d, l.k.server, i);
    FirstAfter(l.pending, ParseDone);
    var sent := l.pending + [Reply(None, ParseDone)];
    assert sent[|l.pending| + 1..] == [] && sent[|l.pending|].kind == ParseDone;
  }

  lemma {:induction false} FirstAfter(pending: seq<Reply>, want: Kind)
    requires want != Data && forall j :: 0 <= j < |pending| ==> pending[j].kind == Data
    ensures FirstOf(pending + [Reply(None, want)], want) == Some(|pending|)
  {
    var all := pending + [Reply(None, want)];
    if pending != [] {
      assert all[1..] == pending[1..] + [Reply(None, want)];
      FirstAfter(pending[1..], want);
    }
  }

  lemma SyncUses(used: set<Stmt>)
    ensures Uses(used, SyncMsg) && Uses(used, ExecuteMsg)
    ensures forall c, fails :: Sends(used, Send(c, SyncMsg, fails)) && Sends(used, Send(c, ExecuteMsg, fails))
  {}

  lemma ParseUses(used: set<Stmt>, c: nat, name: Bytes, i: nat, fails: bool)
    requires IsName(name) && Statement(i) in used
    ensures Sends(used, Send(c, ParseMsg(name, Statement(i)), fails)) && Uses(used, ParseMsg(name, Statement(i)))
  {
    hide DecodeParse, Word;
    ParseReads(name, i);
  }

  lemma OtherUses(used: set<Stmt>, c: nat, msg: Message, fails: bool)
    requires msg.tag != PARSE
    ensures Sends(used, Send(c, msg, fails)) && Uses(used, msg)
  {}

  lemma NotSync(msg: Message)
    ensures msg.tag == PARSE || msg.tag == BIND || msg.tag == CLOSE || msg.tag == EXECUTE ==> !IsSync(msg)
    ensures IsSync(SyncMsg)
  {}

  lemma OneStatement(d: Digest, i: nat)
    ensures CollisionFree(d, {Statement(i)})
  {
    hide Word, GlobalName;
    WordIsText(i);
  }

  // ---------- messages in a run ----------

  /** A message of this client that does not end its exchange. */
  lemma MessageSent(orderly: bool, d: Digest, used: set<Stmt>, steps: seq<Step>, w: World, p: map<nat, Own>, c: nat, msg: Message, fails: bool, r: Relayed)
    requires Reached(orderly, d, used, steps, w, p) && Holds(w, c) && c in p && Uses(used, msg) && !IsSync(msg)
    requires WireRelay(d, w.tables[c], LineOf(w, c), msg, fails, false) == r && !r.event.Dead?
    requires orderly ==> !LineOf(w, c).skipping && (fails ==> msg.tag != PARSE)
    ensures Reached(orderly, d, used, steps + [Send(c, msg, fails)], Seated(w, c, r.table, w.held[c], r.line, w.buffers[c] + [msg]),
                    p[c := Own(p[c].start, p[c].sent + [msg])])
  {
    hide Reached, WireRelay, Uses, IsSync;
    Then(orderly, d, used, steps, w, p, Send(c, msg, fails));
  }

  /** The second message of the first client's exchange. */
  lemma SecondSent(d: Digest, used: set<Stmt>, steps: seq<Step>, w: World, start: Private, first: Message, msg: Message, r: Relayed)
    requires Reached(true, d, used, steps, w, map[0 := Own(start, [first])]) && Holds(w, 0) && w.held[0] == 0 && w.buffers[0] == [first]
    requires Uses(used, msg) && !IsSync(msg) && !LineOf(w, 0).skipping
    requires WireRelay(d, w.tables[0], LineOf(w, 0), msg, false, false) == r && !r.event.Dead?
    ensures Reached(true, d, used, steps + [Send(0, msg, false)], Seated(w, 0, r.table, 0, r.line, [first, msg]),
                    map[0 := Own(start, [first, msg])])
  {
    hide Reached, WireRelay, Uses, IsSync, Seated;
    var p := map[0 := Own(start, [first])];
    MessageSent(true, d, used, steps, w, p, 0, msg, false, r);
    assert [first] + [msg] == [first, msg];
    assert p[0 := Own(start, [first, msg])] == map[0 := Own(start, [first, msg])];
  }

  /** The Sync that ends it. */
  lemma SyncSent(orderly: bool, d: Digest, used: set<Stmt>, steps: seq<Step>, w: World, p: map<nat, Own>, c: nat)
    requires Reached(orderly, d, used, steps, w, p) && Holds(w, c) && c in p
    ensures Reached(orderly, d, used, steps + [Send(c, SyncMsg, false)],
                    Seated(w, c, w.tables[c], w.held[c], Fresh(LineOf(w, c).k), []),
                    p[c := Own(AfterAll(p[c].start, p[c].sent + [SyncMsg]), [])])
  {
    hide Reached, WireRelay, AfterAll;
    SyncUses(used);
    NotSync(SyncMsg);
    SyncRelay(d, w.tables[c], LineOf(w, c), false);
    Then(orderly, d, used, steps, w, p, Send(c, SyncMsg, false));
  }

  lemma PrivateParse(p: Private, name: Bytes, i: nat)
    requires IsName(name)
    ensures PrivateOn(p, ParseMsg(name, Statement(i))) ==
            (if name == [] then p.(unnamed := Some(Statement(i))) else p.(table := p.table[name := Statement(i)]),
             Parsed(Statement(i)))
  {
    hide DecodeParse, Word;
    ParseReads(name, i);
  }

  lemma EndsExchange(o: Own, msg: Message, after: Private)
    requires o.sent == [msg] && PrivateOn(o.start, msg).0 == after
    ensures AfterAll(o.start, o.sent + [SyncMsg]) == after && IsSync(SyncMsg)
  {
    AfterAllOne(o.start, [msg], SyncMsg);
    AfterAllOne(o.start, [], msg);
    assert [] + [msg] == [msg];
  }

  /** Parsing one statement and ending the exchange, from any world of this shape. */
  lemma ParseThenSync(orderly: bool, d: Digest, used: set<Stmt>, steps: seq<Step>, w: World, p: map<nat, Own>, c: nat, name: Bytes, i: nat)
    requires Reached(orderly, d, used, steps, w, p) && Holds(w, c) && w.buffers[c] == [] && c in p && p[c].sent == []
    requires IsName(name) && name != [] && Statement(i) in used && Finished(LineOf(w, c))
    requires var k, g := LineOf(w, c).k, NameOf(d, i); g !in k.cache && g !in k.server && |k.cache| < MAX_STATEMENTS
    ensures var s := Statement(i);
            Reached(orderly, d, used, steps + [Send(c, ParseMsg(name, s), false)] + [Send(c, SyncMsg, false)],
                    Seated(w, c, w.tables[c][name := EntryOf(d, i)], w.held[c], Fresh(Learned(d, LineOf(w, c).k, s)), []),
                    p[c := Own(p[c].start.(table := p[c].start.table[name := s]), [])])
  {
    hide Reached, Word, EntryOf, NameOf, GlobalName, DecodeParse, PrivateOn, BuildParse, WireRelay, AfterAll, LineOf, IsSync,
      Learned;
    var s, msg := Statement(i), ParseMsg(name, Statement(i));
    ParseUses(used, c, name, i, false);
    NotSync(msg);
    ParseRelay(d, w.tables[c], LineOf(w, c), name, i, false);
    var r := WireRelay(d, w.tables[c], LineOf(w, c), msg, false, false);
    MessageSent(orderly, d, used, steps, w, p, c, msg, false, r);
    var w1, p1 := Seated(w, c, r.table, w.held[c], r.line, w.buffers[c] + [msg]), p[c := Own(p[c].start, p[c].sent + [msg])];
    SeatedHolds(w, c, r.table, r.line, w.buffers[c] + [msg]);
    SyncSent(orderly, d, used, steps + [Send(c, msg, false)], w1, p1, c);
    PrivateParse(p[c].start, name, i);
    var start := p[c].start.(table := p[c].start.table[name := s]);
    assert p1[c].sent == [msg];
    EndsExchange(p1[c], msg, start);
    SeatedTwice(w, c, r.table, r.line, w.buffers[c] + [msg], Fresh(r.line.k), []);
    assert p1[c := Own(start, [])] == p[c := Own(start, [])];
  }

  lemma SeatedHolds(w: World, c: nat, table: Table, l: Line, buffer: seq<Message>)
    requires Holds(w, c)
    ensures var n := Seated(w, c, table, w.held[c], l, buffer);
            Holds(n, c) && LineOf(n, c) == l && n.tables[c] == table && n.buffers[c] == buffer && n.held == w.held
  {
    assert w.held[c := w.held[c]] == w.held;
  }

  lemma SeatedTwice(w: World, c: nat, table: Table, l: Line, buffer: seq<Message>, l': Line, buffer': seq<Message>)
    requires Holds(w, c)
    ensures var n := Seated(w, c, table, w.held[c], l, buffer);
            Seated(n, c, table, w.held[c], l', buffer') == Seated(w, c, table, w.held[c], l', buffer')
  {
    var n := Seated(w, c, table, w.held[c], l, buffer);
    assert n.backends[w.held[c] := l'] == w.backends[w.held[c] := l'];
    assert n.buffers[c := buffer'] == w.buffers[c := buffer'];
  }
}
