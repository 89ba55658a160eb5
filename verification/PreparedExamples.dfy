/** Concrete runs on which a pooled client can tell that its server is shared. */
module PreparedExamples {
  import opened Text
  import opened Wire
  import opened Prepared
  import opened Statements
  import opened PreparedRelay
  import opened PreparedWire
  import opened PreparedRetry
  import opened PreparedRuns
  import opened PreparedSteps

  // ---------- a client that has parsed one statement ----------

  function Arrival(discardAll: bool): seq<Step> {
    [Connect(0)] + [Open(0, discardAll)] + [Open(1, true)] + [Acquire(0, 0)]
  }

  function New(discardAll: bool): Backend { Backend([], map[], discardAll) }

  function Arrived(discardAll: bool): World {
    World(map[0 := map[]], map[0 := Fresh(New(discardAll)), 1 := Fresh(New(true))], map[0 := 0], map[0 := []])
  }

  const Newcomer: Own := Own(Private(map[], None), [])

  lemma ReachedOpened(d: Digest, used: set<Stmt>, discardAll: bool)
    ensures Reached(true, d, used, [Connect(0)] + [Open(0, discardAll)] + [Open(1, true)], Arrived(discardAll).(held := map[]),
                    map[0 := Newcomer])
  {
    hide Reached;
    ReachedStart(d, used);
    var p := map[0 := Newcomer];
    var w1 := World(map[0 := map[]], map[], map[], map[0 := []]);
    Then(true, d, used, [], EMPTY, map[], Connect(0));
    assert [] + [Connect(0)] == [Connect(0)];
    var w2 := w1.(backends := map[0 := Fresh(New(discardAll))]);
    Then(true, d, used, [Connect(0)], w1, p, Open(0, discardAll));
    assert Next(d, w1, Open(0, discardAll)) == w2;
    Then(true, d, used, [Connect(0)] + [Open(0, discardAll)], w2, p, Open(1, true));
    assert Next(d, w2, Open(1, true)) == Arrived(discardAll).(held := map[]);
  }

  lemma ReachedArrival(d: Digest, used: set<Stmt>, discardAll: bool)
    ensures Reached(true, d, used, Arrival(discardAll), Arrived(discardAll), map[0 := Newcomer])
  {
    hide Reached;
    var w, p := Arrived(discardAll).(held := map[]), map[0 := Newcomer];
    ReachedOpened(d, used, discardAll);
    Then(true, d, used, [Connect(0)] + [Open(0, discardAll)] + [Open(1, true)], w, p, Acquire(0, 0));
    assert Next(d, w, Acquire(0, 0)) == Arrived(discardAll) && PrivateNext(p, Acquire(0, 0)) == p;
  }

  /** The client parses `a` under the name `a`, on the first backend. */
  function Prepares(discardAll: bool): seq<Step> {
    Arrival(discardAll) + [Send(0, ParseMsg(Word(0), Statement(0)), false)] + [Send(0, SyncMsg, false)]
  }

  function KnownTable(d: Digest): Table { map[Word(0) := EntryOf(d, 0)] }

  function KnownBackend(d: Digest, discardAll: bool): Backend { Learned(d, New(discardAll), Statement(0)) }

  function Known(d: Digest, discardAll: bool): World {
    World(map[0 := KnownTable(d)], map[0 := Fresh(KnownBackend(d, discardAll)), 1 := Fresh(New(true))], map[0 := 0], map[0 := []])
  }

  const KnownOwn: Private := Private(map[Word(0) := Statement(0)], None)
  const Knows: Own := Own(KnownOwn, [])

  lemma ReachedKnown(d: Digest, used: set<Stmt>, discardAll: bool)
    requires Statement(0) in used
    ensures Reached(true, d, used, Prepares(discardAll), Known(d, discardAll), map[0 := Knows])
  {
    hide Reached, Word, EntryOf, GlobalName, BuildParse, Learned;
    ReachedArrival(d, used, discardAll);
    WordIsText(0);
    var w := Arrived(discardAll);
    ParseThenSync(true, d, used, Arrival(discardAll), w, map[0 := Newcomer], 0, Word(0), 0);
    var after := Seated(w, 0, w.tables[0][Word(0) := EntryOf(d, 0)], 0, Fresh(KnownBackend(d, discardAll)), []);
    var goal := Known(d, discardAll);
    assert after.tables == goal.tables && after.backends == goal.backends && after.held == goal.held && after.buffers == goal.buffers;
    assert Newcomer.start.table[Word(0) := Statement(0)] == KnownOwn.table;
    assert map[0 := Newcomer][0 := Knows] == map[0 := Knows];
  }

  lemma NoneOk(d: Digest, used: set<Stmt>)
    ensures ClientOk(d, used, map[], map[])
    ensures forall discardAll :: BackendOk(d, used, New(discardAll))
  {}

  /** What the client knows and what the first backend holds are sound. */
  lemma KnownOk(d: Digest, used: set<Stmt>, discardAll: bool)
    requires Statement(0) in used
    ensures ClientOk(d, used, KnownTable(d), KnownOwn.table)
    ensures BackendOk(d, used, KnownBackend(d, discardAll))
  {
    hide ClientOk, BackendOk, Word, EntryOf, Learned;
    NoneOk(d, used);
    LearnedOk(d, used, map[], map[], New(discardAll), 0);
    assert map[][Word(0) := EntryOf(d, 0)] == KnownTable(d);
    assert map[][Word(0) := Statement(0)] == KnownOwn.table;
  }

  // ---------- RESET ALL ----------

  const RESET_RUN: seq<Step> := Prepares(false) + [Release(0)] + [Reset(0)] + [Acquire(0, 0)]

  /** A reset with RESET ALL between two checkouts, and the client loses its session on the very
      backend it prepared its statement on. */
  lemma ResetAllTurnsDown(d: Digest)
    ensures var used := {Statement(0)};
            && IsRun(d, used, EMPTY, RESET_RUN) && IsOrderly(d, used, EMPTY, RESET_RUN)
            && Holds(Run(d, used, EMPTY, RESET_RUN), 0)
            && Relays(d, Run(d, used, EMPTY, RESET_RUN), 0, BindMsg(Word(0)), false).event == Dead
  {
    hide Word, EntryOf, GlobalName, WireRelay, BindStatementName, Run, IsRun, IsOrderly, PrivateRun, CollisionFree, ClientOk, BackendOk,
      BuildBind, Learned;
    var used, w0, p0 := {Statement(0)}, Known(d, false), map[0 := Knows];
    OneStatement(d, 0);
    ReachedKnown(d, used, false);
    Then(true, d, used, Prepares(false), w0, p0, Release(0));
    var w1, p1 := Next(d, w0, Release(0)), PrivateNext(p0, Release(0));
    Then(true, d, used, Prepares(false) + [Release(0)], w1, p1, Reset(0));
    var w2, p2 := Next(d, w1, Reset(0)), PrivateNext(p1, Reset(0));
    Then(true, d, used, Prepares(false) + [Release(0)] + [Reset(0)], w2, p2, Acquire(0, 0));
    KnownOk(d, used, false);
    WordIsText(0);
    BindReads(Word(0));
    var k := KnownBackend(d, false);
    ResetKeeps(d, used, k);
    LearnedHolds(d, New(false), 0);
    assert KnownOwn.table[Word(0)] == Statement(0);
    TurnedDownDies(d, used, KnownTable(d), ResetBackend(k), KnownOwn, BindMsg(Word(0)), Word(0));
  }

  lemma LearnedHolds(d: Digest, k: Backend, i: nat)
    ensures var g := Named(d, Statement(i));
            g in Learned(d, k, Statement(i)).server && g in Learned(d, k, Statement(i)).cache
    ensures Learned(d, k, Statement(i)).discardAll == k.discardAll
  {
    hide Word, GlobalName;
    var c := Learned(d, k, Statement(i)).cache;
    assert c[|k.cache|] == Named(d, Statement(i));
  }

  // ---------- retried exchanges ----------

  function BoundLine(d: Digest): Line { Answered(Fresh(KnownBackend(d, true)), Data) }

  function BoundWorld(d: Digest): World {
    Known(d, true).(backends := map[0 := BoundLine(d), 1 := Fresh(New(true))], buffers := map[0 := [BindMsg(Word(0))]])
  }

  const BoundSteps: seq<Step> := Prepares(true) + [Send(0, BindMsg(Word(0)), false)]

  lemma ReachedBound(d: Digest, used: set<Stmt>)
    requires Statement(0) in used
    ensures Reached(true, d, used, BoundSteps, BoundWorld(d), map[0 := Own(KnownOwn, [BindMsg(Word(0))])])
    ensures PrivateOn(KnownOwn, BindMsg(Word(0))) == (KnownOwn, Ran(Statement(0), BindRest(BindMsg(Word(0)).body)))
  {
    hide Reached, Word, EntryOf, NameOf, GlobalName, WireRelay, PrivateOn, BuildBind, AfterAll, Learned, IsSync, BindStatementName;
    var w, msg := Known(d, true), BindMsg(Word(0));
    ReachedKnown(d, used, true);
    WordIsText(0);
    NotSync(msg);
    OtherUses(used, 0, msg, false);
    LearnedHolds(d, New(true), 0);
    assert KnownBackend(d, true).server[NameOf(d, 0)] == Statement(0) by { LearnedIs(d, New(true), 0); }
    NameIs(d, 0);
    BindRelay(d, KnownTable(d), Fresh(KnownBackend(d, true)), Word(0), 0, false);
    MessageSent(true, d, used, Prepares(true), w, map[0 := Knows], 0, msg, false, Relayed(KnownTable(d), BoundLine(d), Served(Ran(Statement(0), BindRest(msg.body)))));
    var n, goal := Seated(w, 0, KnownTable(d), 0, BoundLine(d), [] + [msg]), BoundWorld(d);
    assert [] + [msg] == [msg];
    assert n.tables == goal.tables && n.backends == goal.backends && n.held == goal.held && n.buffers == goal.buffers;
    assert map[0 := Knows][0 := Own(KnownOwn, [msg])] == map[0 := Own(KnownOwn, [msg])];
    BindIsRead(KnownOwn, Word(0), 0);
  }

  lemma NameIs(d: Digest, i: nat)
    ensures NameOf(d, i) == Named(d, Statement(i))
  {
    hide Word, GlobalName;
  }

  lemma LearnedIs(d: Digest, k: Backend, i: nat)
    ensures var g := NameOf(d, i); g in Learned(d, k, Statement(i)).server && Learned(d, k, Statement(i)).server[g] == Statement(i)
  {
    hide Word, GlobalName;
  }

  lemma BindIsRead(p: Private, name: Bytes, i: nat)
    requires IsName(name) && name != [] && name in p.table && p.table[name] == Statement(i)
    ensures PrivateOn(p, BindMsg(name)) == (p, Ran(Statement(i), BindRest(BindMsg(name).body)))
  {
    hide Word, BindStatementName, BuildBind;
    BindReads(name);
  }

  function Reparse(): Message { ParseMsg(Word(0), Statement(1)) }

  const REPARSE_RUN: seq<Step> := BoundSteps + [Send(0, Reparse(), false)]

  function ReparseLine(d: Digest): Line { WireRelay(d, KnownTable(d), BoundLine(d), Reparse(), false, false).line }

  function ReparseTable(d: Digest): Table { KnownTable(d)[Word(0) := EntryOf(d, 1)] }

  function ReparseWorld(d: Digest): World {
    Seated(BoundWorld(d), 0, ReparseTable(d), 0, ReparseLine(d), [BindMsg(Word(0)), Reparse()])
  }

  lemma BoundParts(d: Digest)
    ensures var w := BoundWorld(d);
            && Holds(w, 0) && LineOf(w, 0) == BoundLine(d) && w.held[0] == 0
            && w.tables[0] == KnownTable(d) && w.buffers[0] == [BindMsg(Word(0))]
  {
    hide BoundLine, KnownTable, Word;
  }

  lemma ReparseServed(d: Digest, used: set<Stmt>)
    requires CollisionFree(d, used) && Statement(0) in used && Statement(1) in used
    ensures Uses(used, Reparse()) && !IsSync(Reparse()) && !BoundLine(d).skipping
    ensures WireRelay(d, KnownTable(d), BoundLine(d), Reparse(), false, false) ==
            Relayed(ReparseTable(d), ReparseLine(d), Served(Parsed(Statement(1))))
  {
    hide Word, EntryOf, NameOf, GlobalName, WireRelay, CollisionFree, BuildParse, Learned, IsSync, BoundLine, KnownTable, KnownBackend, Uses;
    WordIsText(0);
    ParseUses(used, 0, Word(0), 1, false);
    NotSync(Reparse());
    NewToKnown(d, used);
    ParseRelay(d, KnownTable(d), BoundLine(d), Word(0), 1, false);
  }

  lemma ReachedReparse(d: Digest, used: set<Stmt>)
    requires CollisionFree(d, used) && Statement(0) in used && Statement(1) in used
    ensures Reached(true, d, used, REPARSE_RUN, ReparseWorld(d), map[0 := Own(KnownOwn, [BindMsg(Word(0)), Reparse()])])
  {
    hide Reached, Word, WireRelay, CollisionFree, BuildBind, IsSync, BoundLine, BoundWorld, KnownTable, Seated, LineOf, Holds, Uses,
      Reparse, ReparseTable, ReparseLine, BindMsg;
    ReachedBound(d, used);
    BoundParts(d);
    ReparseServed(d, used);
    SecondSent(d, used, BoundSteps, BoundWorld(d), KnownOwn, BindMsg(Word(0)), Reparse(),
               Relayed(ReparseTable(d), ReparseLine(d), Served(Parsed(Statement(1)))));
  }

  /** The exchange binds `a` and then parses it anew; the replica dies before answering. The
      second pass looks `a` up in the table the first one left, and runs the other statement. */
  lemma RetryRunsReparsed(d: Digest)
    requires CollisionFree(d, {Statement(0), Statement(1)})
    ensures var used := {Statement(0), Statement(1)};
            && IsRun(d, used, EMPTY, REPARSE_RUN) && IsOrderly(d, used, EMPTY, REPARSE_RUN)
            && Enabled(Run(d, used, EMPTY, REPARSE_RUN), Retry(0, SyncMsg, 1, []))
            && PrivateRun(map[], REPARSE_RUN) == map[0 := Own(KnownOwn, [BindMsg(Word(0)), Reparse()])]
            && PrivateOn(KnownOwn, BindMsg(Word(0))).1 == Ran(Statement(0), BindRest(BindMsg(Word(0)).body))
            && |Replayed(d, Run(d, used, EMPTY, REPARSE_RUN), 0, SyncMsg, 1, []).events| > 0
            && Replayed(d, Run(d, used, EMPTY, REPARSE_RUN), 0, SyncMsg, 1, []).events[0] == Served(Ran(Statement(1), BindRest(BindMsg(Word(0)).body)))
  {
    hide Word, EntryOf, NameOf, GlobalName, WireRelay, PrivateOn, CollisionFree, BuildBind, BuildParse, Run, IsRun, IsOrderly, PrivateRun,
      Learned, IsSync, BoundLine, ReparseLine;
    ReachedReparse(d, {Statement(0), Statement(1)});
    NotSync(Reparse());
    WordIsText(0);
    BindIsRead(KnownOwn, Word(0), 0);
    var n := ReparseWorld(d);
    ReplayRelay(d, ReparseTable(d), Fresh(New(true)), Word(0), 1, true);
    assert n.backends[1] == Fresh(New(true)) && n.tables[0] == ReparseTable(d);
    assert n.buffers[0] + [SyncMsg] == [BindMsg(Word(0)), Reparse(), SyncMsg];
  }

  /** The second statement is new to a backend that has the first. */
  lemma NewToKnown(d: Digest, used: set<Stmt>)
    requires CollisionFree(d, used) && Statement(0) in used && Statement(1) in used
    ensures !BoundLine(d).skipping && BoundLine(d).k == KnownBackend(d, true)
    ensures var k := KnownBackend(d, true); NameOf(d, 1) !in k.cache && NameOf(d, 1) !in k.server && |k.cache| < MAX_STATEMENTS
    ensures NameOf(d, 1) != NameOf(d, 0)
  {
    hide Word, GlobalName;
    WordsDiffer(0, 1);
  }

  lemma WordsDiffer(i: nat, j: nat)
    ensures i != j ==> Word(i) != Word(j) && Statement(i) != Statement(j)
  {
    assert |Word(i)| == i + 1 && |Word(j)| == j + 1;
  }

  const CLOSE_RUN: seq<Step> := BoundSteps + [Send(0, CloseMsg(Word(0)), false)]

  lemma UnknownBind(d: Digest, l: Line)
    ensures WireRelay(d, map[], l, BindMsg(Word(0)), false, true) == Relayed(map[], l, Refusal)
  {
    hide Word, BindStatementName;
    WordIsText(0);
    BindReads(Word(0));
  }

  /** The exchange binds `a` and then closes it; the second pass no longer knows `a`, and the
      session ends. */
  lemma RetryEndsSession(d: Digest)
    ensures var used := {Statement(0)};
            && IsRun(d, used, EMPTY, CLOSE_RUN) && IsOrderly(d, used, EMPTY, CLOSE_RUN)
            && Enabled(Run(d, used, EMPTY, CLOSE_RUN), Retry(0, SyncMsg, 1, []))
            && Replayed(d, Run(d, used, EMPTY, CLOSE_RUN), 0, SyncMsg, 1, []).ended
  {
    hide Word, EntryOf, GlobalName, WireRelay, PrivateOn, BuildBind, Run, IsRun, IsOrderly, PrivateRun, AfterAll, Learned, IsSync, BoundLine;
    var used, bind, close := {Statement(0)}, BindMsg(Word(0)), CloseMsg(Word(0));
    var w, p := BoundWorld(d), map[0 := Own(KnownOwn, [bind])];
    ReachedBound(d, used);
    OtherUses(used, 0, close, false);
    NotSync(close);
    NotSync(SyncMsg);
    assert !BoundLine(d).skipping by { BoundIsServed(d); }
    WordIsText(0);
    CloseRelay(d, KnownTable(d), BoundLine(d), Word(0), 0);
    assert KnownTable(d) - {Word(0)} == map[];
    var r := WireRelay(d, KnownTable(d), BoundLine(d), close, false, false);
    MessageSent(true, d, used, BoundSteps, w, p, 0, close, false, r);
    UnknownBind(d, Fresh(New(true)));
    var n := Seated(w, 0, map[], 0, r.line, [bind] + [close]);
    assert n.backends[1] == Fresh(New(true)) && n.tables[0] == map[] && n.buffers[0] + [SyncMsg] == [bind, close, SyncMsg];
  }

  lemma BoundIsServed(d: Digest)
    ensures !BoundLine(d).skipping && BoundLine(d).k == KnownBackend(d, true)
    ensures BoundLine(d).pending == [Reply(Some(0), Data)] == BoundLine(d).issued && BoundLine(d).order.Straight?
  {
    hide KnownBackend;
    assert [] + [Reply(Some(0), Data)] == [Reply(Some(0), Data)];
  }

  /** Closing `a` and parsing it anew may be replayed, though `a` is used before it is parsed:
      the second pass closes the new statement and parses it again. */
  lemma CloseThenParseReplays()
    ensures var sent := [CloseMsg(Word(0))] + ([Reparse()] + [SyncMsg]);
            Replayable(KnownOwn, sent) && ClosesFirst(sent, Word(0))
  {
    hide Word, BuildParse, Replayable, ClosesFirst, ActOf, Look;
    WordIsText(0);
    CloseActs(Word(0));
    ParseActs(Word(0), 1);
    KnownLook();
    assert ActOf(SyncMsg) == Other by { SyncActs(); }
    ClosedAndParsed(KnownOwn, CloseMsg(Word(0)), Reparse(), SyncMsg, Word(0));
  }

  lemma SyncActs()
    ensures ActOf(SyncMsg) == Other
  {}

  lemma ClosedAndParsed(p: Private, close: Message, parse: Message, end: Message, name: Bytes)
    requires name != [] && Look(p, name).Some? && ActOf(close) == CloseOf(name)
    requires ActOf(parse).ParseOf? && ActOf(parse).name == name && ActOf(end) == Other
    ensures var sent := [close] + ([parse] + [end]); Replayable(p, sent) && ClosesFirst(sent, name)
  {
    hide PrivateOn, ActOf, Look;
    var e3 := [end];
    var e2 := [parse] + e3;
    var e1 := [close] + e2;
    assert e1[0] == close && e1[1..] == e2 && e2[0] == parse && e2[1..] == e3 && e3[0] == end && e3[1..] == [];
    var p1 := PrivateOn(p, close).0;
    var p2 := PrivateOn(p1, parse).0;
    PrivateByAct(p, close);
    PrivateByAct(p1, parse);
    PrivateByAct(p2, end);
    assert NoneRefused(p2, e3) && AfterAll(p2, e3) == p2;
    assert NoneRefused(p1, e2) && AfterAll(p1, e2) == p2;
    assert NoneRefused(p, e1) && AfterAll(p, e1) == p2;
    forall n ensures !Reads(e1, n) && (ClosesFirst(e1, n) <==> n == name) {
      assert !Reads(e3, n) && !ClosesFirst(e3, n);
      assert !Reads(e2, n) && !ClosesFirst(e2, n);
    }
  }

  lemma KnownLook()
    ensures Look(KnownOwn, Word(0)) == Some(Statement(0))
  {
    hide Word;
    WordIsText(0);
  }

  lemma CloseActs(name: Bytes)
    requires IsName(name)
    ensures ActOf(CloseMsg(name)) == CloseOf(name)
  {
    hide DescribeTarget;
    CloseReads(name);
  }

  lemma ParseActs(name: Bytes, i: nat)
    requires IsName(name)
    ensures ActOf(ParseMsg(name, Statement(i))) == ParseOf(name, Statement(i))
  {
    hide DecodeParse, Word, BuildParse;
    ParseReads(name, i);
  }

  // ---------- the unnamed statement ----------

  lemma EmptyIsName()
    ensures IsName([])
  {}

  lemma UnnamedParse(d: Digest, table: Table, l: Line, i: nat)
    requires !l.skipping
    ensures WireRelay(d, table, l, ParseMsg([], Statement(i)), false, false) ==
            Relayed(table, Answered(l.(k := l.k.(server := l.k.server[[] := Statement(i)])), ParseDone), Served(Parsed(Statement(i))))
  {
    hide DecodeParse, Word, BuildParse;
    EmptyIsName();
    ParseReads([], i);
  }

  lemma UnnamedBind(d: Digest, table: Table, l: Line, retry: bool)
    requires !l.skipping && [] in l.k.server
    ensures WireRelay(d, table, l, BindMsg([]), false, retry) == Relayed(table, Answered(l, Data), Served(Ran(l.k.server[[]], BindRest(BindMsg([]).body))))
  {
    hide BindStatementName, BuildBind;
    EmptyIsName();
    BindReads([]);
  }

  /** Client `c` parses an unnamed statement and ends the exchange. */
  lemma UnnamedThenSync(d: Digest, used: set<Stmt>, steps: seq<Step>, w: World, p: map<nat, Own>, c: nat, i: nat)
    requires Reached(true, d, used, steps, w, p) && Holds(w, c) && w.buffers[c] == [] && c in p && p[c].sent == []
    requires Statement(i) in used && Finished(LineOf(w, c))
    ensures var s, k := Statement(i), LineOf(w, c).k;
            Reached(true, d, used, steps + [Send(c, ParseMsg([], s), false)] + [Send(c, SyncMsg, false)],
                    Seated(w, c, w.tables[c], w.held[c], Fresh(k.(server := k.server[[] := s])), []),
                    p[c := Own(p[c].start.(unnamed := Some(s)), [])])
  {
    hide Reached, Word, DecodeParse, PrivateOn, BuildParse, WireRelay, AfterAll, LineOf, IsSync;
    var s, k, msg := Statement(i), LineOf(w, c).k, ParseMsg([], Statement(i));
    EmptyIsName();
    ParseUses(used, c, [], i, false);
    NotSync(msg);
    UnnamedParse(d, w.tables[c], LineOf(w, c), i);
    var r := WireRelay(d, w.tables[c], LineOf(w, c), msg, false, false);
    MessageSent(true, d, used, steps, w, p, c, msg, false, r);
    var w1, p1 := Seated(w, c, r.table, w.held[c], r.line, w.buffers[c] + [msg]), p[c := Own(p[c].start, p[c].sent + [msg])];
    SeatedHolds(w, c, r.table, r.line, w.buffers[c] + [msg]);
    SyncSent(true, d, used, steps + [Send(c, msg, false)], w1, p1, c);
    PrivateParse(p[c].start, [], i);
    var start := p[c].start.(unnamed := Some(s));
    assert p1[c].sent == [msg];
    EndsExchange(p1[c], msg, start);
    SeatedTwice(w, c, r.table, r.line, w.buffers[c] + [msg], Fresh(r.line.k), []);
    assert p1[c := Own(start, [])] == p[c := Own(start, [])];
  }

  /** Client 1 leaves its unnamed statement on the second backend. */
  const NEIGHBOUR_RUN: seq<Step> :=
    Arrival(true) + [Connect(1)] + [Acquire(1, 1)] + [Send(1, ParseMsg([], Statement(1)), false)] + [Send(1, SyncMsg, false)] + [Release(1)]

  function Both(): World {
    World(map[0 := map[], 1 := map[]], map[0 := Fresh(New(true)), 1 := Fresh(New(true))], map[0 := 0, 1 := 1], map[0 := [], 1 := []])
  }

  lemma ReachedBoth(d: Digest, used: set<Stmt>)
    ensures Reached(true, d, used, Arrival(true) + [Connect(1)] + [Acquire(1, 1)], Both(), map[0 := Newcomer, 1 := Newcomer])
  {
    hide Reached;
    var w0, p0 := Arrived(true), map[0 := Newcomer];
    ReachedArrival(d, used, true);
    Then(true, d, used, Arrival(true), w0, p0, Connect(1));
    var w1, p1 := Both().(held := map[0 := 0]), map[0 := Newcomer, 1 := Newcomer];
    assert Next(d, w0, Connect(1)) == w1 && PrivateNext(p0, Connect(1)) == p1;
    Then(true, d, used, Arrival(true) + [Connect(1)], w1, p1, Acquire(1, 1));
    assert Next(d, w1, Acquire(1, 1)) == Both() && PrivateNext(p1, Acquire(1, 1)) == p1;
  }

  function Neighboured(): Backend { New(true).(server := map[[] := Statement(1)]) }

  function Neighbour(): World {
    World(map[0 := map[], 1 := map[]], map[0 := Fresh(New(true)), 1 := Fresh(Neighboured())], map[0 := 0], map[0 := [], 1 := []])
  }

  lemma ReachedNeighbour(d: Digest, used: set<Stmt>)
    requires Statement(1) in used
    ensures Reached(true, d, used, NEIGHBOUR_RUN, Neighbour(), map[0 := Newcomer, 1 := Newcomer])
  {
    hide Reached, Word, BuildParse, Arrival;
    var s2 := Arrival(true) + [Connect(1)] + [Acquire(1, 1)];
    var w2, p2 := Both(), map[0 := Newcomer, 1 := Newcomer];
    ReachedBoth(d, used);
    UnnamedThenSync(d, used, s2, w2, p2, 1, 1);
    var w3 := Neighbour().(held := map[0 := 0, 1 := 1]);
    var p3 := map[0 := Newcomer, 1 := Own(Private(map[], Some(Statement(1))), [])];
    var put := Seated(w2, 1, map[], 1, Fresh(Neighboured()), []);
    assert put.tables == w3.tables && put.backends == w3.backends && put.held == w3.held && put.buffers == w3.buffers;
    assert p2[1 := p3[1]] == p3;
    var s3 := s2 + [Send(1, ParseMsg([], Statement(1)), false)] + [Send(1, SyncMsg, false)];
    assert Reached(true, d, used, s3, w3, p3);
    Then(true, d, used, s3, w3, p3, Release(1));
    ReleasedNeighbour(d, w3, p3);
  }

  lemma ReleasedNeighbour(d: Digest, w: World, p: map<nat, Own>)
    requires w == Neighbour().(held := map[0 := 0, 1 := 1])
    requires p == map[0 := Newcomer, 1 := Own(Private(map[], Some(Statement(1))), [])]
    ensures Enabled(w, Release(1))
    ensures Next(d, w, Release(1)) == Neighbour() && PrivateNext(p, Release(1)) == map[0 := Newcomer, 1 := Newcomer]
  {
    hide Word;
    assert map[0 := 0, 1 := 1] - {1} == map[0 := 0];
    assert p[1 := Newcomer] == map[0 := Newcomer, 1 := Newcomer];
  }

  const UNNAMED_RUN: seq<Step> :=
    NEIGHBOUR_RUN + [Send(0, ParseMsg([], Statement(0)), false)] + [Send(0, SyncMsg, false)] + [Send(0, BindMsg([]), false)]

  lemma OwnUnnamed(p: Private, i: nat)
    requires p.unnamed == Some(Statement(i))
    ensures PrivateOn(p, BindMsg([])).1 == Ran(Statement(i), BindRest(BindMsg([]).body))
  {
    hide BindStatementName, BuildBind, Word;
    EmptyIsName();
    BindReads([]);
  }

  /** Client 0 parsed its unnamed statement in an earlier exchange of the same checkout. When
      the exchange that binds it is retried, the other client's unnamed statement runs, as long
      as the backend needed no parameters: a simple query, havuz's own delta included, makes a
      server give its unnamed statement up, and then there is none. */
  lemma RetryRunsNeighboursUnnamed(d: Digest)
    ensures var used := {Statement(0), Statement(1)};
            && IsRun(d, used, EMPTY, UNNAMED_RUN) && IsOrderly(d, used, EMPTY, UNNAMED_RUN)
            && Enabled(Run(d, used, EMPTY, UNNAMED_RUN), Retry(0, SyncMsg, 1, []))
            && 0 in PrivateRun(map[], UNNAMED_RUN)
            && PrivateOn(PrivateRun(map[], UNNAMED_RUN)[0].start, BindMsg([])).1 == Ran(Statement(0), BindRest(BindMsg([]).body))
            && |Replayed(d, Run(d, used, EMPTY, UNNAMED_RUN), 0, SyncMsg, 1, []).events| > 0
            && Replayed(d, Run(d, used, EMPTY, UNNAMED_RUN), 0, SyncMsg, 1, []).events[0] == Served(Ran(Statement(1), BindRest(BindMsg([]).body)))
  {
    hide Word, WireRelay, PrivateOn, BuildBind, BuildParse, Run, IsRun, IsOrderly, PrivateRun, AfterAll, IsSync;
    var used, bind := {Statement(0), Statement(1)}, BindMsg([]);
    var w0, p0 := Neighbour(), map[0 := Newcomer, 1 := Newcomer];
    ReachedNeighbour(d, used);
    UnnamedThenSync(d, used, NEIGHBOUR_RUN, w0, p0, 0, 0);
    var s1 := NEIGHBOUR_RUN + [Send(0, ParseMsg([], Statement(0)), false)] + [Send(0, SyncMsg, false)];
    var k := New(true).(server := map[[] := Statement(0)]);
    var w1, p1 := Seated(w0, 0, map[], 0, Fresh(k), []), p0[0 := Own(Private(map[], Some(Statement(0))), [])];
    assert Reached(true, d, used, s1, w1, p1);
    OtherUses(used, 0, bind, false);
    NotSync(bind);
    NotSync(SyncMsg);
    UnnamedBind(d, map[], Fresh(k), false);
    var r := WireRelay(d, map[], Fresh(k), bind, false, false);
    MessageSent(true, d, used, s1, w1, p1, 0, bind, false, r);
    var w2 := Seated(w1, 0, r.table, 0, r.line, [] + [bind]);
    UnnamedBind(d, map[], Fresh(Neighboured()), true);
    assert w2.backends[1] == Fresh(Neighboured()) && w2.tables[0] == map[] && w2.buffers[0] + [SyncMsg] == [bind, SyncMsg];
    OwnUnnamed(p1[0].start, 0);
  }
}
