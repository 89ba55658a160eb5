/** What needs no good behaviour of anybody: on every run, whatever fails or is left half done, a
    statement that a client runs under one of its names is its own. */
module PreparedOwn {
  import opened Text
  import opened Wire
  import opened Prepared
  import opened Statements
  import opened PreparedRelay
  import opened PreparedWire
  import opened PreparedRetry
  import opened PreparedRuns

  // ---------- the server ----------

  /** Every named statement on the server stands under its own global name. The cache plays no
      part. */
  predicate ServerOk(d: Digest, used: set<Stmt>, server: Server) {
    forall g :: g in server && g != [] ==> server[g] in used && Named(d, server[g]) == g
  }

  /** A named Parse on its way to the server carries a statement under its own global name. */
  predicate CarriesOwn(d: Digest, used: set<Stmt>, msg: Message) {
    msg.tag == PARSE && DecodeParse(msg.body).Ok? && DecodeParse(msg.body).value.name != [] ==>
      var q := DecodeParse(msg.body).value;
      Stmt(q.sql, q.types) in used && Named(d, Stmt(q.sql, q.types)) == q.name
  }

  lemma ServerOnKeeps(d: Digest, used: set<Stmt>, server: Server, msg: Message)
    requires ServerOk(d, used, server) && CarriesOwn(d, used, msg)
    ensures ServerOk(d, used, ServerOn(server, msg).0) && ServerOk(d, used, AfterFailure(server, msg))
  {
    hide Named, DecodeParse, BindStatementName, DescribeTarget;
  }

  /** What runs under a name is what stands there. */
  lemma ServerOnRuns(server: Server, msg: Message, name: Bytes)
    requires Names(msg, name)
    ensures forall s, rest :: ServerOn(server, msg).1 == Ran(s, rest) ==> name in server && server[name] == s && rest == RestOf(msg)
  {
    hide BindStatementName, DescribeTarget, DecodeParse;
  }

  lemma ServeKeepsOwn(d: Digest, used: set<Stmt>, l: Line, msg: Message, fails: bool)
    requires ServerOk(d, used, l.k.server) && CarriesOwn(d, used, msg)
    ensures ServerOk(d, used, Serve(l, msg, fails).0.k.server)
  {
    hide ServerOk, ServerOn, AfterFailure, CarriesOwn;
    ServerOnKeeps(d, used, l.k.server, msg);
  }

  lemma ServeRuns(l: Line, msg: Message, fails: bool, name: Bytes)
    requires Names(msg, name)
    ensures forall s, rest :: Serve(l, msg, fails).1 == Ran(s, rest) ==> name in l.k.server && l.k.server[name] == s && rest == RestOf(msg)
  {
    hide ServerOn, AfterFailure, Names, RestOf;
    ServerOnRuns(l.k.server, msg, name);
  }

  lemma SidesKeepOwn(d: Digest, used: set<Stmt>, l: Line, g: Bytes, parse: Bytes, lossy: bool)
    requires ServerOk(d, used, l.k.server)
    ensures SideFree(l, g).Heard? ==> ServerOk(d, used, SideFree(l, g).line.k.server)
    ensures SideRecord(l, g, lossy).Heard? ==> ServerOk(d, used, SideRecord(l, g, lossy).line.k.server)
    ensures SideParse(l, parse).Heard? && CarriesOwn(d, used, Message(PARSE, parse)) ==> ServerOk(d, used, SideParse(l, parse).line.k.server)
  {
    hide FirstOf, OrderAfter, ServerOn, Named, Inserted, Removed, CarriesOwn;
    if CarriesOwn(d, used, Message(PARSE, parse)) { ServerOnKeeps(d, used, l.k.server, Message(PARSE, parse)); }
  }

  // ---------- what is sent ----------

  /** The Parse of a statement in use, under its global name. */
  lemma ReplayCarriesOwn(d: Digest, used: set<Stmt>, s: Stmt)
    requires CollisionFree(d, used) && s in used
    ensures CarriesOwn(d, used, Message(PARSE, BuildParse(Named(d, s), s.sql, s.types)))
  {
    hide DecodeParse, GlobalName, Readable;
    GlobalNameIsText(d, s.sql, s.types);
    assert Readable(s);
    TextOf(s);
    DecodeParseComplete(Named(d, s), s.sql, s.types);
  }

  /** The client's statement of that name, as it is asked for on the server. */
  lemma NamedRewrites(d: Digest, used: set<Stmt>, table: Table, cache: seq<Bytes>, p: Private, msg: Message, name: Bytes)
    requires CollisionFree(d, used) && ClientOk(d, used, table, p.table) && Names(msg, name) && name != []
    ensures name !in p.table ==> RewriteOf(d, table, cache, msg).1.Err?
    ensures name in p.table ==>
              var s := p.table[name];
              var g := Named(d, s);
              match RewriteOf(d, table, cache, msg).1
              case Ok(Replace(m)) => Names(m, g) && RestOf(m) == RestOf(msg)
              case Ok(ReplayThen(parse, h, m)) => Names(m, g) && RestOf(m) == RestOf(msg) && h == g && parse == BuildParse(g, s.sql, s.types)
              case _ => false
  {
    hide GlobalName, BuildParse, BindStatementName, DescribeTarget, ReplaceCString, DecodeParse, Entry, ValidUtf8, NulFree, BindRest,
      DescribeRest;
    if name in p.table {
      var s := p.table[name];
      assert table[name] == Entry(d, s.sql, s.types);
      EntryIs(d, s);
      GlobalNameIsText(d, s.sql, s.types);
      RenamedReadsBack(msg.body, Named(d, s));
      RenamedKeepsRest(msg.body, Named(d, s));
    }
  }

  /** Whatever goes to the server carries statements under their own names. */
  lemma RewriteCarriesOwn(d: Digest, used: set<Stmt>, table: Table, cache: seq<Bytes>, p: Private, msg: Message)
    requires CollisionFree(d, used) && Uses(used, msg) && ClientOk(d, used, table, p.table)
    ensures match RewriteOf(d, table, cache, msg).1
            case Err(_) => true
            case Ok(Unchanged) => CarriesOwn(d, used, msg)
            case Ok(Replace(m)) => CarriesOwn(d, used, m)
            case Ok(RenamedParse(_, m)) => CarriesOwn(d, used, m)
            case Ok(CloseStatement(_, _, m)) => CarriesOwn(d, used, m)
            case Ok(ReplayThen(parse, _, m)) => CarriesOwn(d, used, m) && CarriesOwn(d, used, Message(PARSE, parse))
  {
    hide GlobalName, BuildParse, BindStatementName, DescribeTarget, ReplaceCString, DecodeParse, CollisionFree, ClientOk, ValidUtf8,
      NulFree;
    RewriteKeepsTag(d, table, cache, msg);
    if msg.tag == PARSE {
      if DecodeParse(msg.body).Ok? && DecodeParse(msg.body).value.name != [] {
        var q := DecodeParse(msg.body).value;
        EntryIs(d, Stmt(q.sql, q.types));
        ReplayCarriesOwn(d, used, Stmt(q.sql, q.types));
      }
    } else if RewriteOf(d, table, cache, msg).1.Ok? && RewriteOf(d, table, cache, msg).1.value.ReplayThen? {
      var name := ReplayedName(d, used, table, cache, p, msg);
      NamedRewrites(d, used, table, cache, p, msg, name);
      ReplayCarriesOwn(d, used, p.table[name]);
    }
  }

  /** Only a statement of the client's own is replayed. */
  lemma ReplayedName(d: Digest, used: set<Stmt>, table: Table, cache: seq<Bytes>, p: Private, msg: Message) returns (name: Bytes)
    requires ClientOk(d, used, table, p.table) && msg.tag != PARSE
    requires RewriteOf(d, table, cache, msg).1.Ok? && RewriteOf(d, table, cache, msg).1.value.ReplayThen?
    ensures name in p.table && name != [] && Names(msg, name) && p.table[name] in used
  {
    hide GlobalName, BuildParse, BindStatementName, DescribeTarget, ReplaceCString, Entry;
    name := if msg.tag == BIND then BindStatementName(msg.body).value else DescribeTarget(msg.body).value.1;
  }

  // ---------- one message ----------

  /** What becomes of the client's table, and whether havuz refuses, does not depend on the cache. */
  lemma RewriteAnyCache(d: Digest, table: Table, a: seq<Bytes>, b: seq<Bytes>, msg: Message)
    ensures RewriteOf(d, table, a, msg).0 == RewriteOf(d, table, b, msg).0
    ensures RewriteOf(d, table, a, msg).1.Err? <==> RewriteOf(d, table, b, msg).1.Err?
    ensures Forgets(RewriteOf(d, table, a, msg).1) == Forgets(RewriteOf(d, table, b, msg).1)
  {
    hide DecodeParse, BindStatementName, DescribeTarget, ReplaceCString, Entry;
  }

  function Forgets(rewrite: Result<Rewrite>): set<Bytes> {
    if rewrite.Ok? && rewrite.value.CloseStatement? then {rewrite.value.clientName} else {}
  }

  lemma WireTable(d: Digest, table: Table, l: Line, msg: Message, fails: bool, retry: bool)
    ensures var (t, rewrite) := RewriteOf(d, table, l.k.cache, msg);
            var r := WireRelay(d, table, l, msg, fails, retry);
            r.table == t - Forgets(rewrite) && (r.event.Refusal? <==> rewrite.Err?)
  {
    hide RewriteOf, Serve, SideParse, SideFree, SideRecord, Removed;
    var (t, _) := RewriteOf(d, table, l.k.cache, msg);
    assert t - {} == t;
  }

  lemma RelayTable(d: Digest, table: Table, k: Backend, msg: Message, retry: bool)
    ensures var (t, rewrite) := RewriteOf(d, table, k.cache, msg);
            var (t', _, o) := Relay(d, table, k, msg, retry);
            t' == t - Forgets(rewrite) && (o == Refused <==> rewrite.Err?)
  {
    hide RewriteOf, Forward, Record, Freed, Removed;
    forall k, m ensures Forward(k, m).1 != Refused { NeverRefused(k, m); }
    var (t, _) := RewriteOf(d, table, k.cache, msg);
    assert t - {} == t;
  }

  /** The client's table does not depend on the backend. */
  lemma TableOf(d: Digest, table: Table, l: Line, msg: Message, fails: bool, retry: bool)
    ensures WireRelay(d, table, l, msg, fails, retry).table == Relay(d, table, Backend([], map[], true), msg, retry).0
    ensures WireRelay(d, table, l, msg, fails, retry).event.Refusal? <==>
            Relay(d, table, Backend([], map[], true), msg, retry).2 == Refused
  {
    hide RewriteOf, WireRelay, Relay, Forgets;
    WireTable(d, table, l, msg, fails, retry);
    RelayTable(d, table, Backend([], map[], true), msg, retry);
    RewriteAnyCache(d, table, l.k.cache, [], msg);
  }

  lemma UnnamedApart(p: Private, msg: Message)
    ensures PrivateOn(p, msg).0.table == PrivateOn(p.(unnamed := None), msg).0.table
    ensures (PrivateOn(p, msg).1 == Refused) == (PrivateOn(p.(unnamed := None), msg).1 == Refused)
  {
    hide DecodeParse, BindStatementName, DescribeTarget;
  }

  /** The table stays the private one, and havuz refuses what the private one does not have. */
  lemma TableKept(d: Digest, used: set<Stmt>, table: Table, l: Line, p: Private, msg: Message, fails: bool, retry: bool)
    requires CollisionFree(d, used) && Uses(used, msg) && ClientOk(d, used, table, p.table)
    ensures ClientOk(d, used, WireRelay(d, table, l, msg, fails, retry).table, PrivateOn(p, msg).0.table)
    ensures WireRelay(d, table, l, msg, fails, retry).event.Refusal? <==> PrivateOn(p, msg).1 == Refused
  {
    hide CollisionFree, Uses, ClientOk, WireRelay, Relay, PrivateOn, Synced, Loses;
    var none, p0 := Backend([], map[], true), p.(unnamed := None);
    TableOf(d, table, l, msg, fails, retry);
    UnnamedApart(p, msg);
    MessageKeeps(d, used, table, none, p0, msg, retry);
    assert StepKeeps(d, used, table, none, p0, msg, retry);
  }

  lemma ServerKept(d: Digest, used: set<Stmt>, table: Table, l: Line, p: Private, msg: Message, fails: bool, retry: bool)
    requires CollisionFree(d, used) && Uses(used, msg) && ClientOk(d, used, table, p.table) && ServerOk(d, used, l.k.server)
    ensures ServerOk(d, used, WireRelay(d, table, l, msg, fails, retry).line.k.server)
  {
    hide CollisionFree, Uses, ClientOk, ServerOk, RewriteOf, Serve, SideParse, SideFree, SideRecord, Removed, CarriesOwn;
    RewriteCarriesOwn(d, used, table, l.k.cache, p, msg);
    var (table', rewrite) := RewriteOf(d, table, l.k.cache, msg);
    match rewrite {
      case Err(_) =>
      case Ok(Unchanged) => ServeKeepsOwn(d, used, l, msg, fails);
      case Ok(Replace(m)) => ServeKeepsOwn(d, used, l, m, fails);
      case Ok(CloseStatement(g, _, m)) => ServeKeepsOwn(d, used, WithCache(l, Removed(l.k.cache, g)), m, fails);
      case Ok(RenamedParse(g, m)) =>
        SidesKeepOwn(d, used, l, g, [], retry);
        if SideFree(l, g).Heard? {
          var freed := SideFree(l, g).line;
          SidesKeepOwn(d, used, freed, g, [], retry);
          if SideRecord(freed, g, retry).Heard? { ServeKeepsOwn(d, used, SideRecord(freed, g, retry).line, m, fails); }
        }
      case Ok(ReplayThen(parse, g, m)) =>
        SidesKeepOwn(d, used, l, g, parse, false);
        if SideParse(l, parse).Heard? {
          var taught := SideParse(l, parse).line;
          SidesKeepOwn(d, used, taught, g, [], false);
          if SideRecord(taught, g, false).Heard? { ServeKeepsOwn(d, used, SideRecord(taught, g, false).line, m, fails); }
        }
    }
  }

  /** What stands under the global name of a statement in use is that statement. */
  lemma OneUnderItsName(d: Digest, used: set<Stmt>, server: Server, s: Stmt)
    requires CollisionFree(d, used) && ServerOk(d, used, server) && s in used
    ensures Named(d, s) in server ==> server[Named(d, s)] == s
  {
    hide Readable, GlobalName;
    GlobalNameIsText(d, s.sql, s.types);
  }

  /** What runs under a name of the client's is the client's own. */
  lemma MessageRunsOwn(d: Digest, used: set<Stmt>, table: Table, l: Line, p: Private, msg: Message, name: Bytes, fails: bool, retry: bool)
    requires CollisionFree(d, used) && Uses(used, msg) && ClientOk(d, used, table, p.table) && ServerOk(d, used, l.k.server)
    requires Names(msg, name) && name != []
    ensures forall s, rest :: WireRelay(d, table, l, msg, fails, retry).event == Served(Ran(s, rest)) ==>
              name in p.table && p.table[name] == s && rest == RestOf(msg)
  {
    hide CollisionFree, Uses, ServerOk, RewriteOf, Serve, SideParse, SideFree, SideRecord, Removed, CarriesOwn, Names, Named, BuildParse, RestOf;
    NamedRewrites(d, used, table, l.k.cache, p, msg, name);
    RewriteCarriesOwn(d, used, table, l.k.cache, p, msg);
    var (table', rewrite) := RewriteOf(d, table, l.k.cache, msg);
    if name in p.table {
      var s := p.table[name];
      var g := Named(d, s);
      match rewrite {
        case Ok(Replace(m)) =>
          ServeRuns(l, m, fails, g);
          OneUnderItsName(d, used, l.k.server, s);
        case Ok(ReplayThen(parse, h, m)) =>
          SidesKeepOwn(d, used, l, g, parse, false);
          if SideParse(l, parse).Heard? {
            var taught := SideParse(l, parse).line;
            SidesKeepOwn(d, used, taught, g, [], false);
            if SideRecord(taught, g, false).Heard? {
              var recorded := SideRecord(taught, g, false).line;
              ServeRuns(recorded, m, fails, g);
              OneUnderItsName(d, used, recorded.k.server, s);
            }
          }
      }
    }
  }

  // ---------- whole runs ----------

  ghost predicate OwnInv(d: Digest, used: set<Stmt>, w: World, p: map<nat, Own>) {
    && w.tables.Keys == w.buffers.Keys && w.tables.Keys <= p.Keys
    && (forall c :: c in w.tables ==> ClientInStep(d, used, w.tables[c], w.buffers[c], p[c]))
    && (forall c :: c in w.tables && c !in w.held ==> w.buffers[c] == [])
    && (forall b :: b in w.backends ==> ServerOk(d, used, w.backends[b].k.server))
  }

  lemma SentInStep(d: Digest, used: set<Stmt>, table: Table, o: Own, buffer: seq<Message>, l: Line, msg: Message, fails: bool)
    requires CollisionFree(d, used) && Uses(used, msg) && ClientInStep(d, used, table, buffer, o)
    ensures ClientInStep(d, used, WireRelay(d, table, l, msg, fails, false).table, if IsSync(msg) then [] else buffer + [msg], SentOwn(o, msg))
  {
    hide CollisionFree, Uses, ClientOk, WireRelay, PrivateOn, AfterAll, AllUse, IsSync;
    TableKept(d, used, table, l, Now(o), msg, fails, false);
    SentOwnNow(used, o, msg);
    NothingUses(used);
  }

  lemma SendKeepsOwn(d: Digest, used: set<Stmt>, w: World, p: map<nat, Own>, c: nat, msg: Message, fails: bool)
    requires CollisionFree(d, used) && OwnInv(d, used, w, p) && Enabled(w, Send(c, msg, fails)) && Uses(used, msg)
    ensures OwnInv(d, used, Next(d, w, Send(c, msg, fails)), PrivateNext(p, Send(c, msg, fails)))
  {
    hide CollisionFree, Uses, ClientInStep, ServerOk, WireRelay, AfterAll, IsSync;
    SentInStep(d, used, w.tables[c], p[c], w.buffers[c], LineOf(w, c), msg, fails);
    assert ClientOk(d, used, w.tables[c], Now(p[c]).table) by { InStepIsOk(d, used, w.tables[c], w.buffers[c], p[c]); }
    ServerKept(d, used, w.tables[c], LineOf(w, c), Now(p[c]), msg, fails, false);
  }

  lemma InStepIsOk(d: Digest, used: set<Stmt>, table: Table, buffer: seq<Message>, o: Own)
    requires ClientInStep(d, used, table, buffer, o)
    ensures ClientOk(d, used, table, Now(o).table) && buffer == o.sent && AllUse(used, o.sent) && [] !in o.start.table
  {}

  /** A second pass, however it goes. */
  lemma {:induction false} PassKeepsOwn(d: Digest, used: set<Stmt>, table: Table, l: Line, p: Private, sent: seq<Message>, fails: seq<bool>)
    requires CollisionFree(d, used) && AllUse(used, sent) && ClientOk(d, used, table, p.table) && ServerOk(d, used, l.k.server)
    ensures var r := WirePass(d, table, l, sent, fails);
            ServerOk(d, used, r.line.k.server) && (!r.ended ==> ClientOk(d, used, r.table, AfterAll(p, sent).table))
    decreases |sent|
  {
    hide CollisionFree, Uses, ClientOk, ServerOk, WireRelay, PrivateOn;
    if sent != [] {
      TableKept(d, used, table, l, p, sent[0], First(fails), true);
      ServerKept(d, used, table, l, p, sent[0], First(fails), true);
      var r := WireRelay(d, table, l, sent[0], First(fails), true);
      if !EndsSession(r.event) { PassKeepsOwn(d, used, r.table, r.line, PrivateOn(p, sent[0]).0, sent[1..], Later(fails)); }
    }
  }

  /** The second pass starts from the table of the whole exchange; if it gets to its end, the
      client is where sending the exchange once would leave it. */
  lemma RetriedTable(d: Digest, used: set<Stmt>, table: Table, o: Own, l: Line, msg: Message, failing: seq<bool>)
    requires CollisionFree(d, used) && Uses(used, msg) && IsSync(msg) && ServerOk(d, used, l.k.server)
    requires ClientInStep(d, used, table, o.sent, o)
    ensures var r := WirePass(d, table, l, o.sent + [msg], failing);
            ServerOk(d, used, r.line.k.server) && (!r.ended ==> ClientInStep(d, used, r.table, [], RetriedOwn(o, msg)))
  {
    hide CollisionFree, Uses, ClientInStep, ServerOk, WirePass, AfterAll, IsSync, AllUse, ClientOk;
    var sent := o.sent + [msg];
    InStepIsOk(d, used, table, o.sent, o);
    SentOwnNow(used, o, msg);
    RetryTable(d, used, table, o, msg);
    PassKeepsOwn(d, used, table, l, Again(o.start, sent), sent, failing);
    var r := WirePass(d, table, l, sent, failing);
    if !r.ended {
      TwiceIsOnce(o.start, sent);
      NamesStayNamed(o.start.(unnamed := None), sent);
      RetriedInStep(d, used, r.table, RetriedOwn(o, msg));
    }
  }

  lemma RetryKeepsOwn(d: Digest, used: set<Stmt>, w: World, p: map<nat, Own>, c: nat, msg: Message, b: nat, failing: seq<bool>)
    requires CollisionFree(d, used) && OwnInv(d, used, w, p) && Enabled(w, Retry(c, msg, b, failing)) && Uses(used, msg)
    ensures OwnInv(d, used, Next(d, w, Retry(c, msg, b, failing)), PrivateNext(p, Retry(c, msg, b, failing)))
  {
    hide CollisionFree, Uses, ClientInStep, ServerOk, WirePass, AfterAll, IsSync;
    assert w.buffers[c] == p[c].sent by { InStepIsOk(d, used, w.tables[c], w.buffers[c], p[c]); }
    RetriedTable(d, used, w.tables[c], p[c], Anew(w, b), msg, failing);
  }

  /** The table after the first pass. */
  lemma RetryTable(d: Digest, used: set<Stmt>, table: Table, o: Own, msg: Message)
    requires CollisionFree(d, used) && Uses(used, msg) && IsSync(msg) && ClientOk(d, used, table, Now(o).table)
    ensures ClientOk(d, used, table, Again(o.start, o.sent + [msg]).table)
  {
    hide AfterAll, ClientOk, CollisionFree, Uses;
    AfterAllOne(o.start, o.sent, msg);
  }

  lemma RetriedInStep(d: Digest, used: set<Stmt>, table: Table, o: Own)
    requires o.sent == [] && [] !in o.start.table && ClientOk(d, used, table, o.start.table)
    ensures ClientInStep(d, used, table, [], o)
  {
    hide ClientOk;
  }

  lemma CheckedOutInStep(d: Digest, used: set<Stmt>, table: Table, o: Own)
    requires ClientInStep(d, used, table, [], o)
    ensures ClientInStep(d, used, table, [], NewCheckout(o))
  {
    hide ClientOk, AllUse;
  }

  lemma StepKeepsOwn(d: Digest, used: set<Stmt>, w: World, p: map<nat, Own>, step: Step)
    requires CollisionFree(d, used) && OwnInv(d, used, w, p) && Enabled(w, step) && Sends(used, step)
    ensures OwnInv(d, used, Next(d, w, step), PrivateNext(p, step))
  {
    hide CollisionFree, Uses, ClientInStep, Named, WireRelay, WirePass, AfterAll;
    match step {
      case Send(c, msg, fails) => SendKeepsOwn(d, used, w, p, c, msg, fails);
      case Retry(c, msg, b, failing) => RetryKeepsOwn(d, used, w, p, c, msg, b, failing);
      case Connect(c) => NewOk(d, used);
      case Acquire(c, b) => CheckedOutInStep(d, used, w.tables[c], p[c]);
      case Release(c) => CheckedOutInStep(d, used, w.tables[c], p[c]);
      case _ =>
    }
  }

  lemma {:induction false} RunKeepsOwn(d: Digest, used: set<Stmt>, w: World, p: map<nat, Own>, steps: seq<Step>)
    requires CollisionFree(d, used) && OwnInv(d, used, w, p) && IsRun(d, used, w, steps)
    ensures OwnInv(d, used, Run(d, used, w, steps), PrivateRun(p, steps))
    decreases |steps|
  {
    hide CollisionFree, OwnInv, Next, PrivateNext, Sends, Enabled;
    if steps != [] {
      StepKeepsOwn(d, used, w, p, steps[0]);
      RunKeepsOwn(d, used, Next(d, w, steps[0]), PrivateNext(p, steps[0]), steps[1..]);
    }
  }

  lemma EmptyOwn(d: Digest, used: set<Stmt>)
    ensures OwnInv(d, used, EMPTY, map[])
  {}

  /** Safety, on every run, whoever fails, leaves or is left half way. Wherever a client's Bind or
      Describe of a named statement lands, if the server runs a statement for it, that is the one
      of this client's latest Parse of the name, SQL and types, with the portal, formats and
      values of the Bind; and havuz refuses a message
      exactly when the client's own server would have nothing for it. */
  lemma RunsOwnStatements(d: Digest, used: set<Stmt>, steps: seq<Step>, c: nat, msg: Message, fails: bool)
    requires CollisionFree(d, used) && IsRun(d, used, EMPTY, steps)
    requires Holds(Run(d, used, EMPTY, steps), c) && Uses(used, msg)
    ensures c in PrivateRun(map[], steps)
    ensures var own, e := Now(PrivateRun(map[], steps)[c]), Relays(d, Run(d, used, EMPTY, steps), c, msg, fails).event;
            && (e.Refusal? <==> PrivateOn(own, msg).1 == Refused)
            && forall name, s, rest :: Names(msg, name) && name != [] && e == Served(Ran(s, rest)) ==>
                 name in own.table && own.table[name] == s && rest == RestOf(msg)
  {
    hide CollisionFree, IsRun, Run, PrivateRun, Uses, WireRelay, PrivateOn, Now, ServerOk, ClientInStep, Names;
    EmptyOwn(d, used);
    RunKeepsOwn(d, used, EMPTY, map[], steps);
    var w, p := Run(d, used, EMPTY, steps), PrivateRun(map[], steps);
    var own, l := Now(p[c]), LineOf(w, c);
    InStepIsOk(d, used, w.tables[c], w.buffers[c], p[c]);
    TableKept(d, used, w.tables[c], l, own, msg, fails, false);
    forall name | Names(msg, name) && name != []
      ensures forall s, rest :: Relays(d, w, c, msg, fails).event == Served(Ran(s, rest)) ==>
                name in own.table && own.table[name] == s && rest == RestOf(msg)
    {
      MessageRunsOwn(d, used, w.tables[c], l, own, msg, name, fails, false);
    }
  }

  // ---------- second passes ----------

  /** A Bind or Describe of a named statement. */
  ghost predicate UsesName(msg: Message) { exists name :: name != [] && Names(msg, name) }

  /** Whatever ran under a name is what that private server would have run. */
  ghost predicate RanOwn(p: Private, sent: seq<Message>, events: seq<Event>)
    decreases |sent|
  {
    sent == [] || events == [] ||
    (var (p', own) := PrivateOn(p, sent[0]);
     && (UsesName(sent[0]) && events[0].Served? && events[0].outcome.Ran? ==> events[0].outcome == own)
     && RanOwn(p', sent[1..], events[1..]))
  }

  lemma NamedLookup(p: Private, msg: Message, name: Bytes)
    requires Names(msg, name) && name != []
    ensures PrivateOn(p, msg).1 == if name in p.table then Ran(p.table[name], RestOf(msg)) else Refused
  {
    hide DecodeParse, BindStatementName, DescribeTarget;
  }

  lemma {:induction false} PassRunsOwn(d: Digest, used: set<Stmt>, table: Table, l: Line, p: Private, q: Private,
                                       sent: seq<Message>, fails: seq<bool>)
    requires CollisionFree(d, used) && AllUse(used, sent) && AnsweredSame(p, q, sent)
    requires ClientOk(d, used, table, q.table) && ServerOk(d, used, l.k.server)
    ensures RanOwn(p, sent, WirePass(d, table, l, sent, fails).events)
    decreases |sent|
  {
    hide CollisionFree, Uses, ClientOk, ServerOk, WireRelay, PrivateOn, Names;
    if sent != [] {
      var r := WireRelay(d, table, l, sent[0], First(fails), true);
      if UsesName(sent[0]) {
        var name :| name != [] && Names(sent[0], name);
        MessageRunsOwn(d, used, table, l, q, sent[0], name, First(fails), true);
        NamedLookup(p, sent[0], name);
        NamedLookup(q, sent[0], name);
      }
      if !EndsSession(r.event) {
        TableKept(d, used, table, l, q, sent[0], First(fails), true);
        ServerKept(d, used, table, l, q, sent[0], First(fails), true);
        PassRunsOwn(d, used, r.table, r.line, PrivateOn(p, sent[0]).0, PrivateOn(q, sent[0]).0, sent[1..], Later(fails));
        var rest := WirePass(d, r.table, r.line, sent[1..], Later(fails));
        assert ([r.event] + rest.events)[1..] == rest.events;
      }
    }
  }

  /** On every run, and on any backend: the second pass of an exchange that may be replayed runs
      under every name what the client's own server would have run. */
  lemma RetriedRunsOwnNames(d: Digest, used: set<Stmt>, steps: seq<Step>, c: nat, msg: Message, b: nat, failing: seq<bool>)
    requires CollisionFree(d, used) && IsRun(d, used, EMPTY, steps)
    requires Enabled(Run(d, used, EMPTY, steps), Retry(c, msg, b, failing)) && Uses(used, msg)
    ensures c in PrivateRun(map[], steps)
    ensures var w, start := Run(d, used, EMPTY, steps), PrivateRun(map[], steps)[c].start;
            Replayable(start, Exchange(w, c, msg)) ==>
              RanOwn(start, Exchange(w, c, msg), Replayed(d, w, c, msg, b, failing).events)
  {
    hide CollisionFree, IsRun, Run, PrivateRun, Uses, WirePass, ServerOk, ClientInStep, Replayable, AfterAll, ClientOk, AllUse, RanOwn,
      AnsweredSame, IsSync;
    EmptyOwn(d, used);
    RunKeepsOwn(d, used, EMPTY, map[], steps);
    var w, p := Run(d, used, EMPTY, steps), PrivateRun(map[], steps);
    var o, sent := p[c], Exchange(w, c, msg);
    InStepIsOk(d, used, w.tables[c], w.buffers[c], o);
    SentOwnNow(used, o, msg);
    RetryTable(d, used, w.tables[c], o, msg);
    if Replayable(o.start, sent) {
      ReplayableIff(o.start, sent);
      PassRunsOwn(d, used, w.tables[c], Anew(w, b), o.start, Again(o.start, sent), sent, failing);
    }
  }
}
