/** A run on which a retry drops a statement from a full cache without closing it, and a client
    loses its session later. */
module PreparedLossy {
  import opened Text
  import opened Wire
  import opened Prepared
  import opened Statements
  import opened PreparedRelay
  import opened PreparedWire
  import opened PreparedRetry
  import opened PreparedRuns
  import opened PreparedSteps
  import opened PreparedExamples

  /** The statements of the run: one more than the cache holds. */
  function Used(): set<Stmt> { set i: nat | i <= MAX_STATEMENTS :: Statement(i) }

  lemma InUsed(i: nat)
    requires i <= MAX_STATEMENTS
    ensures Statement(i) in Used()
  {
    hide Word;
  }

  // ---------- filling the second backend ----------

  function Full(d: Digest, i: nat): Backend { if i == 0 then New(true) else Learned(d, Full(d, i - 1), Statement(i - 1)) }

  function FullTable(d: Digest, i: nat): Table {
    if i == 0 then map[] else FullTable(d, i - 1)[Word(i - 1) := EntryOf(d, i - 1)]
  }

  function FullOwn(i: nat): map<Bytes, Stmt> { if i == 0 then map[] else FullOwn(i - 1)[Word(i - 1) := Statement(i - 1)] }

  function Filling(i: nat): seq<Step> {
    if i == 0 then Arrival(true) + [Release(0)] + [Acquire(0, 1)]
    else Filling(i - 1) + [Send(0, ParseMsg(Word(i - 1), Statement(i - 1)), false)] + [Send(0, SyncMsg, false)]
  }

  function FullWorld(d: Digest, i: nat): World {
    World(map[0 := FullTable(d, i)], map[0 := Fresh(New(true)), 1 := Fresh(Full(d, i))], map[0 := 1], map[0 := []])
  }

  function Holding(i: nat): map<nat, Own> { map[0 := Own(Private(FullOwn(i), None), [])] }

  /** The names on the second backend are those of the first `i` statements, oldest first. */
  lemma {:induction false} FullShape(d: Digest, i: nat)
    ensures |Full(d, i).cache| == i && Full(d, i).discardAll && (i > 0 ==> Full(d, i).cache[0] == NameOf(d, 0))
    ensures forall g :: g in Full(d, i).cache || g in Full(d, i).server ==> exists j: nat :: j < i && g == NameOf(d, j)
    ensures forall j: nat :: j < i ==> NameOf(d, j) in Full(d, i).server
  {
    hide Word, GlobalName;
    if i > 0 {
      FullShape(d, i - 1);
      forall g | g in Full(d, i).cache || g in Full(d, i).server ensures exists j: nat :: j < i && g == NameOf(d, j) {
        if g != NameOf(d, i - 1) {
          var j: nat :| j < i - 1 && g == NameOf(d, j);
        }
      }
    }
  }

  lemma NamesDiffer(d: Digest, i: nat, j: nat)
    requires CollisionFree(d, Used()) && i <= MAX_STATEMENTS && j <= MAX_STATEMENTS && i != j
    ensures NameOf(d, i) != NameOf(d, j)
  {
    hide Word, GlobalName, Used;
    InUsed(i);
    InUsed(j);
    WordsDiffer(i, j);
  }

  lemma NewName(d: Digest, i: nat)
    requires CollisionFree(d, Used()) && i <= MAX_STATEMENTS
    ensures NameOf(d, i) !in Full(d, i).cache && NameOf(d, i) !in Full(d, i).server && |Full(d, i).cache| == i
  {
    hide Word, GlobalName, Full, CollisionFree, Used, NameOf;
    FullShape(d, i);
    forall j: nat | j < i ensures NameOf(d, j) != NameOf(d, i) { NamesDiffer(d, i, j); }
  }

  /** The client's table and the filled backend are sound. */
  lemma {:induction false} FullOk(d: Digest, i: nat)
    requires CollisionFree(d, Used()) && i <= MAX_STATEMENTS
    ensures ClientOk(d, Used(), FullTable(d, i), FullOwn(i)) && BackendOk(d, Used(), Full(d, i))
  {
    hide ClientOk, BackendOk, Word, CollisionFree, Used, EntryOf, NameOf, Learned;
    if i > 0 {
      FullOk(d, i - 1);
      NewName(d, i - 1);
      InUsed(i - 1);
      LearnedOk(d, Used(), FullTable(d, i - 1), FullOwn(i - 1), Full(d, i - 1), i - 1);
    } else {
      NoneOk(d, Used());
    }
  }

  lemma ReachedSecond(d: Digest, used: set<Stmt>)
    ensures Reached(true, d, used, Filling(0), FullWorld(d, 0), map[0 := Newcomer])
  {
    hide Reached;
    var w0, p := Arrived(true), map[0 := Newcomer];
    ReachedArrival(d, used, true);
    Then(true, d, used, Arrival(true), w0, p, Release(0));
    var w1 := w0.(held := map[]);
    assert Next(d, w0, Release(0)) == w1 && PrivateNext(p, Release(0)) == p;
    Then(true, d, used, Arrival(true) + [Release(0)], w1, p, Acquire(0, 1));
    assert Next(d, w1, Acquire(0, 1)) == FullWorld(d, 0) && PrivateNext(p, Acquire(0, 1)) == p;
  }

  lemma FullNext(d: Digest, j: nat)
    ensures Seated(FullWorld(d, j), 0, FullTable(d, j)[Word(j) := EntryOf(d, j)], 1, Fresh(Learned(d, Full(d, j), Statement(j))), []) ==
            FullWorld(d, j + 1)
    ensures Holding(j)[0 := Own(Private(FullOwn(j)[Word(j) := Statement(j)], None), [])] == Holding(j + 1)
  {
    hide Word, GlobalName, EntryOf, Learned;
    var w := FullWorld(d, j);
    assert w.tables[0 := FullTable(d, j + 1)] == map[0 := FullTable(d, j + 1)];
    assert w.backends[1 := Fresh(Full(d, j + 1))] == map[0 := Fresh(New(true)), 1 := Fresh(Full(d, j + 1))];
    assert w.held[0 := 1] == map[0 := 1] && w.buffers[0 := []] == map[0 := []];
  }

  lemma {:induction false} ReachedFull(d: Digest, i: nat)
    requires CollisionFree(d, Used()) && i <= MAX_STATEMENTS
    ensures Reached(true, d, Used(), Filling(i), FullWorld(d, i), Holding(i))
  {
    hide Reached, Word, GlobalName, EntryOf, NameOf, CollisionFree, BuildParse, Arrival, Used, Learned;
    if i == 0 {
      ReachedSecond(d, Used());
    } else {
      var j := i - 1;
      ReachedFull(d, j);
      NewName(d, j);
      WordIsText(j);
      InUsed(j);
      ParseThenSync(true, d, Used(), Filling(j), FullWorld(d, j), Holding(j), 0, Word(j), j);
      FullNext(d, j);
    }
  }

  // ---------- the retry ----------

  const LAST: nat := MAX_STATEMENTS

  function OneTooMany(): Message { ParseMsg(Word(LAST), Statement(LAST)) }

  function Away(): seq<Step> { Filling(LAST) + [Release(0)] + [Acquire(0, 0)] }

  /** The client moves to the first backend and parses the last statement there. */
  function Moving(): seq<Step> { Away() + [Send(0, OneTooMany(), false)] }

  function MovedTable(d: Digest): Table { FullTable(d, LAST)[Word(LAST) := EntryOf(d, LAST)] }

  function MovedLine(d: Digest): Line { Answered(Fresh(Learned(d, New(true), Statement(LAST))), ParseDone) }

  function AwayWorld(d: Digest, table: Table, l: Line, buffer: seq<Message>): World {
    World(map[0 := table], map[0 := l, 1 := Fresh(Full(d, LAST))], map[0 := 0], map[0 := buffer])
  }

  lemma ReachedAway(d: Digest)
    requires CollisionFree(d, Used())
    ensures Reached(true, d, Used(), Away(), AwayWorld(d, FullTable(d, LAST), Fresh(New(true)), []), Holding(LAST))
  {
    hide Reached, Word, CollisionFree, Filling, Full, FullTable, FullOwn, Used;
    var w0, p := FullWorld(d, LAST), Holding(LAST);
    ReachedFull(d, LAST);
    Then(true, d, Used(), Filling(LAST), w0, p, Release(0));
    var w1 := w0.(held := map[]);
    assert Next(d, w0, Release(0)) == w1 && PrivateNext(p, Release(0)) == p;
    Then(true, d, Used(), Filling(LAST) + [Release(0)], w1, p, Acquire(0, 0));
    assert Next(d, w1, Acquire(0, 0)) == AwayWorld(d, FullTable(d, LAST), Fresh(New(true)), []) && PrivateNext(p, Acquire(0, 0)) == p;
  }

  lemma AwaySeated(d: Digest, table: Table, l: Line, buffer: seq<Message>, table': Table, l': Line, buffer': seq<Message>)
    ensures Seated(AwayWorld(d, table, l, buffer), 0, table', 0, l', buffer') == AwayWorld(d, table', l', buffer')
  {
    hide Full;
    var w := AwayWorld(d, table, l, buffer);
    assert w.tables[0 := table'] == map[0 := table'] && w.backends[0 := l'] == map[0 := l', 1 := Fresh(Full(d, LAST))];
    assert w.held[0 := 0] == map[0 := 0] && w.buffers[0 := buffer'] == map[0 := buffer'];
  }

  function MovedOwn(): map<nat, Own> { map[0 := Own(Private(FullOwn(LAST), None), [OneTooMany()])] }

  lemma ReachedMoved(d: Digest)
    requires CollisionFree(d, Used())
    ensures Reached(true, d, Used(), Moving(), AwayWorld(d, MovedTable(d), MovedLine(d), [OneTooMany()]), MovedOwn())
  {
    hide Reached, WireRelay, Word, CollisionFree, Away, Full, FullTable, FullOwn, BuildParse, EntryOf, NameOf, GlobalName, IsSync, Used, Learned;
    var l := Fresh(New(true));
    ReachedAway(d);
    WordIsText(LAST);
    InUsed(LAST);
    ParseUses(Used(), 0, Word(LAST), LAST, false);
    NotSync(OneTooMany());
    ParseRelay(d, FullTable(d, LAST), l, Word(LAST), LAST, false);
    MessageSent(true, d, Used(), Away(), AwayWorld(d, FullTable(d, LAST), l, []), Holding(LAST), 0, OneTooMany(), false,
                Relayed(MovedTable(d), MovedLine(d), Served(Parsed(Statement(LAST)))));
    assert [] + [OneTooMany()] == [OneTooMany()];
    AwaySeated(d, FullTable(d, LAST), l, [], MovedTable(d), MovedLine(d), [OneTooMany()]);
    assert Holding(LAST)[0 := Own(Private(FullOwn(LAST), None), [OneTooMany()])] == MovedOwn();
  }

  /** The oldest name makes room in the cache, and stays on the server. */
  function Overfull(d: Digest): Backend {
    var k, g := Full(d, LAST), NameOf(d, LAST);
    if |k.cache| == 0 then k else Backend(k.cache[1..] + [g], k.server[g := Statement(LAST)], true)
  }

  /** A Parse into a full cache, on the second pass. */
  lemma OverfullRelay(d: Digest, table: Table)
    requires CollisionFree(d, Used())
    ensures var r := WireRelay(d, table, Fresh(Full(d, LAST)), OneTooMany(), false, true);
            && r.table == table[Word(LAST) := EntryOf(d, LAST)] && r.line.k == Overfull(d) && r.event == Served(Parsed(Statement(LAST)))
            && !r.line.skipping
  {
    hide Word, RewriteOf, BuildParse, GlobalName, ServerOn, EntryOf, Full, CollisionFree, Used, NameOf;
    var k := Full(d, LAST);
    FullShape(d, LAST);
    NewName(d, LAST);
    WordIsText(LAST);
    ParseRewrites(d, table, k.cache, Word(LAST), LAST);
    ServesParse(d, k.server, LAST);
  }

  lemma OverfullPass(d: Digest, table: Table)
    requires CollisionFree(d, Used())
    ensures var r := WirePass(d, table, Fresh(Full(d, LAST)), [OneTooMany()] + [SyncMsg], []);
            !r.ended && r.table == table[Word(LAST) := EntryOf(d, LAST)] && r.line.k == Overfull(d)
    ensures CalmAll(d, table, Fresh(Full(d, LAST)), [OneTooMany()] + [SyncMsg], [])
  {
    hide Word, CollisionFree, Full, BuildParse, EntryOf, WireRelay, Overfull, Used, RewriteOf;
    var sent, l := [OneTooMany()] + [SyncMsg], Fresh(Full(d, LAST));
    assert sent[0] == OneTooMany() && sent[1..] == [SyncMsg] && [SyncMsg][0] == SyncMsg && [SyncMsg][1..] == [];
    OverfullRelay(d, table);
    var r := WireRelay(d, table, l, OneTooMany(), false, true);
    SyncRelay(d, r.table, r.line, true);
    var after := WireRelay(d, r.table, r.line, SyncMsg, false, true);
    assert WirePass(d, after.table, after.line, [], []) == WireReplay(after.table, after.line, [], false);
    assert WirePass(d, r.table, r.line, [SyncMsg], []).events == [after.event];
    assert CalmAll(d, r.table, r.line, [SyncMsg], []) by { assert Calm(d, r.table, r.line, SyncMsg, false); }
  }

  function LossyRun(): seq<Step> { Moving() + [Retry(0, SyncMsg, 1, [])] }

  lemma {:induction false} FullDistinct(d: Digest, i: nat)
    requires CollisionFree(d, Used()) && i <= MAX_STATEMENTS
    ensures DistinctNames(Full(d, i).cache)
  {
    hide Word, GlobalName, CollisionFree, Used;
    if i > 0 {
      FullDistinct(d, i - 1);
      NewName(d, i - 1);
    }
  }

  /** The first statement is no longer cached on the second backend, but it is still there. */
  lemma OldestIsLost(d: Digest)
    requires CollisionFree(d, Used())
    ensures NameOf(d, 0) in Overfull(d).server && NameOf(d, 0) !in Overfull(d).cache
    ensures BackendOk(d, Used(), Overfull(d))
  {
    hide Word, GlobalName, Full, CollisionFree, Used;
    FullShape(d, LAST);
    FullDistinct(d, LAST);
    FullOk(d, LAST);
    NamesDiffer(d, 0, LAST);
    NewName(d, LAST);
    InUsed(LAST);
    EntryParts(d, LAST);
    var k := Full(d, LAST);
    assert k.cache == [k.cache[0]] + k.cache[1..];
  }

  lemma MovedOk(d: Digest)
    requires CollisionFree(d, Used())
    ensures var own := FullOwn(LAST)[Word(LAST) := Statement(LAST)];
            && ClientOk(d, Used(), MovedTable(d), own)
            && Word(0) in own && own[Word(0)] == Statement(0)
    ensures MovedTable(d)[Word(LAST) := EntryOf(d, LAST)] == MovedTable(d)
  {
    hide Word, GlobalName, Full, CollisionFree, Used, FullTable, FullOwn, Entry;
    FullOk(d, LAST);
    WordIsText(LAST);
    InUsed(LAST);
    OwnFirst(LAST);
    WordsDiffer(0, LAST);
  }

  lemma {:induction false} OwnFirst(i: nat)
    ensures i > 0 ==> Word(0) in FullOwn(i) && FullOwn(i)[Word(0)] == Statement(0)
  {
    hide Word;
    if i > 0 {
      OwnFirst(i - 1);
      WordsDiffer(0, i - 1);
    }
  }

  /** After the retry the client binds the statement it parsed first, and loses its session. */
  lemma RetryLosesStatement(d: Digest)
    requires CollisionFree(d, Used())
    ensures IsRun(d, Used(), EMPTY, LossyRun()) && IsOrderly(d, Used(), EMPTY, LossyRun())
    ensures Holds(Run(d, Used(), EMPTY, LossyRun()), 0)
    ensures Relays(d, Run(d, Used(), EMPTY, LossyRun()), 0, BindMsg(Word(0)), false).event == Dead
  {
    hide Word, CollisionFree, Moving, Full, FullTable, FullOwn, BuildParse, BuildBind, EntryOf, GlobalName, IsRun, Run, IsOrderly, PrivateRun,
      WireRelay, WirePass, CalmAll, Overfull, Used, IsSync, BackendOk, ClientOk, BindStatementName, AfterAll, MovedTable, MovedLine;
    var w, step := AwayWorld(d, MovedTable(d), MovedLine(d), [OneTooMany()]), Retry(0, SyncMsg, 1, []);
    ReachedMoved(d);
    SyncUses(Used());
    NotSync(SyncMsg);
    OverfullPass(d, MovedTable(d));
    MovedOk(d);
    Then(true, d, Used(), Moving(), w, MovedOwn(), step);
    var n := Next(d, w, step);
    assert n.backends[1] == Fresh(Overfull(d)) && n.held[0] == 1 && n.tables[0] == MovedTable(d);
    OldestIsLost(d);
    WordIsText(0);
    BindReads(Word(0));
    var own := FullOwn(LAST)[Word(LAST) := Statement(LAST)];
    assert NameOf(d, 0) == Named(d, Statement(0));
    TurnedDownDies(d, Used(), MovedTable(d), Overfull(d), Private(own, None), BindMsg(Word(0)), Word(0));
  }
}
