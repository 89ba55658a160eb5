/** Runs on which answers are lost, a line is handed on half read, or a cache is left wrong. */
module PreparedReplies {
  import opened Text
  import opened Wire
  import opened Prepared
  import opened Statements
  import opened PreparedRelay
  import opened PreparedWire
  import opened PreparedOrder
  import opened PreparedRetry
  import opened PreparedRuns
  import opened PreparedSteps
  import opened PreparedExamples

  // ---------- a client with two statements, on a backend that has neither ----------

  function TwoSteps(): seq<Step> {
    Prepares(true) + [Send(0, ParseMsg(Word(1), Statement(1)), false)] + [Send(0, SyncMsg, false)]
  }

  function Moving(): seq<Step> { TwoSteps() + [Release(0)] + [Acquire(0, 1)] }

  function TwoTable(d: Digest): Table { KnownTable(d)[Word(1) := EntryOf(d, 1)] }

  const TwoOwn: Private := Private(KnownOwn.table[Word(1) := Statement(1)], None)

  function TwoWorld(d: Digest): World {
    World(map[0 := TwoTable(d)], map[0 := Fresh(Learned(d, KnownBackend(d, true), Statement(1))), 1 := Fresh(New(true))],
          map[0 := 0], map[0 := []])
  }

  lemma ReachedTwo(d: Digest, used: set<Stmt>)
    requires CollisionFree(d, used) && Statement(0) in used && Statement(1) in used
    ensures Reached(true, d, used, TwoSteps(), TwoWorld(d), map[0 := Own(TwoOwn, [])])
  {
    hide Reached, Word, EntryOf, NameOf, GlobalName, BuildParse, Learned, CollisionFree, KnownTable, KnownBackend, Prepares;
    ReachedKnown(d, used, true);
    WordIsText(1);
    NewToKnown(d, used);
    var w, p := Known(d, true), map[0 := Knows];
    ParseThenSync(true, d, used, Prepares(true), w, p, 0, Word(1), 1);
    TwoIsSeated(d);
    assert p[0 := Own(TwoOwn, [])] == map[0 := Own(TwoOwn, [])];
  }

  lemma TwoIsSeated(d: Digest)
    ensures Seated(Known(d, true), 0, TwoTable(d), 0, Fresh(Learned(d, KnownBackend(d, true), Statement(1))), []) == TwoWorld(d)
  {
    hide Word, EntryOf, Learned, KnownTable, KnownBackend, TwoTable;
    var n, goal := Seated(Known(d, true), 0, TwoTable(d), 0, Fresh(Learned(d, KnownBackend(d, true), Statement(1))), []), TwoWorld(d);
    assert n.tables == goal.tables && n.backends == goal.backends && n.held == goal.held && n.buffers == goal.buffers;
  }

  function MovedWorld(d: Digest): World { TwoWorld(d).(held := map[0 := 1]) }

  lemma ReachedMoved(d: Digest, used: set<Stmt>)
    requires CollisionFree(d, used) && Statement(0) in used && Statement(1) in used
    ensures Reached(true, d, used, Moving(), MovedWorld(d), map[0 := Own(TwoOwn, [])])
  {
    hide Reached, Word, TwoTable, Learned, CollisionFree, TwoSteps;
    ReachedTwo(d, used);
    var w, p := TwoWorld(d), map[0 := Own(TwoOwn, [])];
    Then(true, d, used, TwoSteps(), w, p, Release(0));
    var w1 := w.(held := map[]);
    assert Next(d, w, Release(0)) == w1 && PrivateNext(p, Release(0)) == p;
    Then(true, d, used, TwoSteps() + [Release(0)], w1, p, Acquire(0, 1));
    assert Next(d, w1, Acquire(0, 1)) == MovedWorld(d) && PrivateNext(p, Acquire(0, 1)) == p;
  }

  // ---------- answers that are lost ----------

  /** The client's line while it runs its exchange on the second backend. */
  function OnLine(d: Digest, l: Line, buffer: seq<Message>): World {
    MovedWorld(d).(backends := MovedWorld(d).backends[1 := l], buffers := map[0 := buffer])
  }

  /** One more message of that exchange. */
  lemma MoreOnLine(d: Digest, used: set<Stmt>, steps: seq<Step>, l: Line, buffer: seq<Message>, msg: Message, fails: bool, r: Relayed)
    requires Reached(true, d, used, steps, OnLine(d, l, buffer), map[0 := Own(TwoOwn, buffer)])
    requires Uses(used, msg) && !IsSync(msg) && !l.skipping && (fails ==> msg.tag != PARSE)
    requires WireRelay(d, TwoTable(d), l, msg, fails, false) == r && !r.event.Dead? && r.table == TwoTable(d)
    ensures Reached(true, d, used, steps + [Send(0, msg, fails)], OnLine(d, r.line, buffer + [msg]), map[0 := Own(TwoOwn, buffer + [msg])])
  {
    hide Reached, WireRelay, Uses, IsSync, TwoTable, Learned, Word;
    var w, p := OnLine(d, l, buffer), map[0 := Own(TwoOwn, buffer)];
    MessageSent(true, d, used, steps, w, p, 0, msg, fails, r);
    var n, goal := Seated(w, 0, TwoTable(d), 1, r.line, buffer + [msg]), OnLine(d, r.line, buffer + [msg]);
    assert n.tables == goal.tables && n.backends == goal.backends && n.held == goal.held && n.buffers == goal.buffers;
    assert p[0 := Own(TwoOwn, buffer + [msg])] == map[0 := Own(TwoOwn, buffer + [msg])];
  }

  lemma TwoEntries(d: Digest)
    ensures Word(0) in TwoTable(d) && TwoTable(d)[Word(0)] == EntryOf(d, 0)
    ensures Word(1) in TwoTable(d) && TwoTable(d)[Word(1)] == EntryOf(d, 1)
    ensures forall i :: IsName(Word(i)) && Word(i) != []
  {
    hide Word, EntryOf, NulFree, ValidUtf8;
    WordsDiffer(0, 1);
    forall i ensures IsName(Word(i)) && Word(i) != [] { WordIsText(i); }
  }

  const BIND_A: Message := BindMsg(Word(0))
  const BIND_AA: Message := BindMsg(Word(1))

  /** Bind `a`, which has to be replayed, and run it. */
  function FirstRun(fails: bool): seq<Step> { Moving() + [Send(0, BIND_A, false)] + [Send(0, ExecuteMsg, fails)] }

  function FirstLine(d: Digest, fails: bool): Line {
    var bound := Answered(Fresh(Learned(d, New(true), Statement(0))), Data);
    if fails then Answered(bound.(skipping := true), ErrorReply) else Answered(bound, Data)
  }

  lemma ReachedFirst(d: Digest, used: set<Stmt>, fails: bool)
    requires CollisionFree(d, used) && Statement(0) in used && Statement(1) in used
    ensures Reached(true, d, used, FirstRun(fails), OnLine(d, FirstLine(d, fails), [BIND_A, ExecuteMsg]),
                    map[0 := Own(TwoOwn, [BIND_A, ExecuteMsg])])
  {
    hide Reached, WireRelay, Word, TwoTable, EntryOf, NameOf, GlobalName, Learned, CollisionFree, BuildBind, OnLine, IsSync;
    ReachedMoved(d, used);
    TwoEntries(d);
    NotSync(BIND_A);
    NotSync(ExecuteMsg);
    OtherUses(used, 0, BIND_A, false);
    OtherUses(used, 0, ExecuteMsg, fails);
    var l := Fresh(New(true));
    assert OnLine(d, l, []) == MovedWorld(d) by { StartOnLine(d); }
    ReplayRelay(d, TwoTable(d), l, Word(0), 0, false);
    var bound := Answered(Fresh(Learned(d, New(true), Statement(0))), Data);
    MoreOnLine(d, used, Moving(), l, [], BIND_A, false, Relayed(TwoTable(d), bound, Served(Ran(Statement(0), BindRest(BIND_A.body)))));
    assert [] + [BIND_A] == [BIND_A] && [BIND_A] + [ExecuteMsg] == [BIND_A, ExecuteMsg];
    ExecuteRelay(d, TwoTable(d), bound, fails);
    MoreOnLine(d, used, Moving() + [Send(0, BIND_A, false)], bound, [BIND_A], ExecuteMsg, fails,
               WireRelay(d, TwoTable(d), bound, ExecuteMsg, fails, false));
  }

  lemma StartOnLine(d: Digest)
    ensures OnLine(d, Fresh(New(true)), []) == MovedWorld(d)
  {
    hide TwoTable, Learned;
    assert MovedWorld(d).backends[1 := Fresh(New(true))] == MovedWorld(d).backends;
  }

  /** The second statement is as new to the backend as the first was. */
  lemma SecondIsNew(d: Digest, used: set<Stmt>)
    requires CollisionFree(d, used) && Statement(0) in used && Statement(1) in used
    ensures var k := Learned(d, New(true), Statement(0));
            NameOf(d, 1) !in k.cache && NameOf(d, 1) !in k.server && |k.cache| < MAX_STATEMENTS
  {
    NewToKnown(d, used);
  }

  lemma FirstPending(d: Digest)
    ensures FirstLine(d, false).pending == [Reply(Some(0), Data), Reply(Some(1), Data)] == FirstLine(d, false).issued
    ensures !FirstLine(d, false).skipping && FirstLine(d, false).order.Straight? && FirstLine(d, false).told == []
    ensures FirstLine(d, true).pending == [Reply(Some(0), Data), Reply(Some(1), ErrorReply)] && FirstLine(d, true).skipping
    ensures forall fails :: FirstLine(d, fails).k == Learned(d, New(true), Statement(0))
  {
    hide Learned;
    assert [] + [Reply(Some(0), Data)] == [Reply(Some(0), Data)];
    assert [Reply(Some(0), Data)] + [Reply(Some(1), Data)] == [Reply(Some(0), Data), Reply(Some(1), Data)];
    assert [Reply(Some(0), Data)] + [Reply(Some(1), ErrorReply)] == [Reply(Some(0), Data), Reply(Some(1), ErrorReply)];
  }

  function LostRun(): seq<Step> { FirstRun(false) + [Send(0, BIND_AA, false)] }

  /** Bind `a`, Execute, Bind `aa` in one exchange on a backend that has neither statement: the
      replay of `aa` swallows the answers to the first two messages, and the client reads only
      the third. */
  lemma ReplaySwallowsAnswers(d: Digest)
    requires CollisionFree(d, {Statement(0), Statement(1)})
    ensures var used := {Statement(0), Statement(1)};
            && IsRun(d, used, EMPTY, LostRun()) && IsOrderly(d, used, EMPTY, LostRun())
            && Holds(Run(d, used, EMPTY, LostRun()), 0)
            && var r := Relays(d, Run(d, used, EMPTY, LostRun()), 0, SyncMsg, false);
               r.line.pending == [Reply(Some(2), Data)] && |r.line.issued| == 3 && !Right(r.line)
  {
    hide Reached, WireRelay, Word, TwoTable, EntryOf, NameOf, GlobalName, Learned, CollisionFree, BuildBind, IsSync, FirstLine, FirstRun,
      IsRun, IsOrderly, Run, PrivateRun, Right, OrderAfter;
    var used := {Statement(0), Statement(1)};
    ReachedFirst(d, used, false);
    FirstPending(d);
    TwoEntries(d);
    SecondIsNew(d, used);
    NotSync(BIND_AA);
    OtherUses(used, 0, BIND_AA, false);
    var l := FirstLine(d, false);
    ReplayRelay(d, TwoTable(d), l, Word(1), 1, false);
    var r := WireRelay(d, TwoTable(d), l, BIND_AA, false, false);
    assert [] + [Reply(Some(2), Data)] == [Reply(Some(2), Data)];
    MoreOnLine(d, used, FirstRun(false), l, [BIND_A, ExecuteMsg], BIND_AA, false, r);
    ReachedRun(d, used, LostRun(), OnLine(d, r.line, [BIND_A, ExecuteMsg] + [BIND_AA]), map[0 := Own(TwoOwn, [BIND_A, ExecuteMsg] + [BIND_AA])]);
    SyncRelay(d, TwoTable(d), r.line, false);
    SyncLeaves(d, TwoTable(d), r.line, false);
    ShortIsWrong(WireRelay(d, TwoTable(d), r.line, SyncMsg, false, false).line);
  }

  lemma ReachedRun(d: Digest, used: set<Stmt>, steps: seq<Step>, w: World, p: map<nat, Own>)
    requires Reached(true, d, used, steps, w, p)
    ensures IsRun(d, used, EMPTY, steps) && IsOrderly(d, used, EMPTY, steps) && Run(d, used, EMPTY, steps) == w
  {}

  /** With the first statement failing when it is run, its error is taken for a rejected replay,
      and the client loses its session. */
  lemma EarlierErrorKillsSession(d: Digest)
    requires CollisionFree(d, {Statement(0), Statement(1)})
    ensures var used := {Statement(0), Statement(1)};
            && IsRun(d, used, EMPTY, FirstRun(true)) && IsOrderly(d, used, EMPTY, FirstRun(true))
            && Holds(Run(d, used, EMPTY, FirstRun(true)), 0)
            && Relays(d, Run(d, used, EMPTY, FirstRun(true)), 0, BIND_AA, false).event == Dead
  {
    hide Reached, WireRelay, Word, TwoTable, EntryOf, NameOf, GlobalName, Learned, CollisionFree, BuildBind, FirstLine, FirstRun,
      IsRun, IsOrderly, Run, PrivateRun;
    var used := {Statement(0), Statement(1)};
    ReachedFirst(d, used, true);
    FirstPending(d);
    TwoEntries(d);
    SecondIsNew(d, used);
    ReachedRun(d, used, FirstRun(true), OnLine(d, FirstLine(d, true), [BIND_A, ExecuteMsg]), map[0 := Own(TwoOwn, [BIND_A, ExecuteMsg])]);
    DeadReplay(d, TwoTable(d), FirstLine(d, true), Word(1), 1);
  }

  lemma DeadReplay(d: Digest, table: Table, l: Line, name: Bytes, i: nat)
    requires l.skipping && IsName(name) && name != [] && name in table && table[name] == EntryOf(d, i) && NameOf(d, i) !in l.k.cache
    requires l.pending == [Reply(Some(0), Data), Reply(Some(1), ErrorReply)]
    ensures WireRelay(d, table, l, BindMsg(name), false, false).event == Dead
  {
    hide Word, RewriteOf, BuildParse, BuildBind, GlobalName, ServerOn, EntryOf;
    var m := BindRewrites(d, table, l.k.cache, name, i, l.k.server);
    assert l.pending[1..] == [Reply(Some(1), ErrorReply)];
    assert FirstOf([Reply(Some(1), ErrorReply)], ParseDone) == Some(0);
    assert FirstOf(l.pending, ParseDone) == Some(1);
  }

  // ---------- a name that is freed ----------

  function FreeRun(): seq<Step> {
    Prepares(true) + [Send(0, ParseMsg(Word(1), Statement(1)), false)] + [Send(0, ParseMsg(Word(2), Statement(0)), false)]
  }

  /** Parse `aa`, then parse under another name a statement that the backend has: freeing its
      name swallows the first ParseComplete. */
  lemma FreeSwallowsAnswer(d: Digest)
    requires CollisionFree(d, {Statement(0), Statement(1)})
    ensures var used := {Statement(0), Statement(1)};
            && IsRun(d, used, EMPTY, FreeRun()) && IsOrderly(d, used, EMPTY, FreeRun())
            && Holds(Run(d, used, EMPTY, FreeRun()), 0)
            && var r := Relays(d, Run(d, used, EMPTY, FreeRun()), 0, SyncMsg, false);
               r.line.pending == [Reply(Some(1), ParseDone)] && |r.line.issued| == 2 && !Right(r.line)
  {
    hide Reached, WireRelay, Word, EntryOf, NameOf, GlobalName, Learned, CollisionFree, BuildParse, IsSync, IsRun, IsOrderly, Run, PrivateRun,
      KnownTable, Prepares, Right;
    var used := {Statement(0), Statement(1)};
    var w, p, first, second := Known(d, true), map[0 := Knows], ParseMsg(Word(1), Statement(1)), ParseMsg(Word(2), Statement(0));
    ReachedKnown(d, used, true);
    NewToKnown(d, used);
    WordIsText(1);
    WordIsText(2);
    ParseUses(used, 0, Word(1), 1, false);
    ParseUses(used, 0, Word(2), 0, false);
    NotSync(first);
    NotSync(second);
    var l := Fresh(KnownBackend(d, true));
    ParseRelay(d, KnownTable(d), l, Word(1), 1, false);
    var r1 := WireRelay(d, KnownTable(d), l, first, false, false);
    MessageSent(true, d, used, Prepares(true), w, p, 0, first, false, r1);
    var w1, p1 := Seated(w, 0, r1.table, 0, r1.line, [] + [first]), p[0 := Own(KnownOwn, [] + [first])];
    LearnedKeeps(d, 1);
    assert [] + [Reply(Some(0), ParseDone)] == [Reply(Some(0), ParseDone)];
    FreeRelay(d, r1.table, r1.line, Word(2), 0);
    var r2 := WireRelay(d, r1.table, r1.line, second, false, false);
    MessageSent(true, d, used, Prepares(true) + [Send(0, first, false)], w1, p1, 0, second, false, r2);
    var w2 := Seated(w1, 0, r2.table, 0, r2.line, [] + [first] + [second]);
    ReachedRun(d, used, FreeRun(), w2, p1[0 := Own(KnownOwn, [] + [first] + [second])]);
    SyncRelay(d, r2.table, r2.line, false);
    SyncLeaves(d, r2.table, r2.line, false);
    ShortIsWrong(WireRelay(d, r2.table, r2.line, SyncMsg, false, false).line);
  }

  /** The backend of the known statement, taught another one. */
  lemma LearnedKeeps(d: Digest, i: nat)
    requires NameOf(d, i) != NameOf(d, 0)
    ensures var k := Learned(d, KnownBackend(d, true), Statement(i));
            NameOf(d, 0) in k.cache && |k.cache| == 2 && DistinctNames(k.cache)
  {
    hide Word, GlobalName;
    assert Learned(d, KnownBackend(d, true), Statement(i)).cache[0] == NameOf(d, 0);
  }

  /** A Parse of a statement the backend has, with one ParseComplete waiting. */
  lemma FreeRelay(d: Digest, table: Table, l: Line, name: Bytes, i: nat)
    requires !l.skipping && IsName(name) && name != [] && NameOf(d, i) in l.k.cache && |l.k.cache| == 2
    requires l.pending == [Reply(Some(0), ParseDone)] == l.issued && l.told == [] && DistinctNames(l.k.cache)
    ensures var r := WireRelay(d, table, l, ParseMsg(name, Statement(i)), false, false);
            && !r.event.Dead? && r.line.pending == [Reply(Some(1), ParseDone)] && |r.line.issued| == 2 && r.line.told == []
  {
    hide Word, RewriteOf, BuildParse, GlobalName, ServerOn, EntryOf, Removed, OrderAfter;
    ParseRewrites(d, table, l.k.cache, name, i);
    var g := NameOf(d, i);
    RemovedMeaning(l.k.cache, g);
    var sent := l.pending + [Reply(None, CloseDone)];
    assert sent[1..] == [Reply(None, CloseDone)];
    assert FirstOf([Reply(None, CloseDone)], CloseDone) == Some(0);
    assert FirstOf(sent, CloseDone) == Some(1);
    assert sent[2..] == [];
    ServesParse(d, l.k.server - {g}, i);
    assert [] + [Reply(Some(1), ParseDone)] == [Reply(Some(1), ParseDone)];
  }

  // ---------- lines handed on half read ----------

  const PARSE_A: Message := ParseMsg(Word(0), Statement(0))

  function LeaveRun(): seq<Step> { Arrival(true) + [Send(0, PARSE_A, false)] + [Leave(0)] + [Connect(1)] + [Acquire(1, 0)] }

  function ParsedLine(d: Digest): Line { Answered(Fresh(Learned(d, New(true), Statement(0))), ParseDone) }

  function ParsedWorld(d: Digest): World { Seated(Arrived(true), 0, KnownTable(d), 0, ParsedLine(d), [PARSE_A]) }

  lemma ReachedParsed(d: Digest, used: set<Stmt>)
    requires Statement(0) in used
    ensures Reached(true, d, used, Arrival(true) + [Send(0, PARSE_A, false)], ParsedWorld(d), map[0 := Own(Newcomer.start, [PARSE_A])])
  {
    hide Reached, WireRelay, Word, EntryOf, NameOf, GlobalName, Learned, BuildParse, IsSync, Arrival;
    ReachedArrival(d, used, true);
    WordIsText(0);
    ParseUses(used, 0, Word(0), 0, false);
    NotSync(PARSE_A);
    ParseRelay(d, map[], Fresh(New(true)), Word(0), 0, false);
    assert map[][Word(0) := EntryOf(d, 0)] == KnownTable(d) by { KnownTableIs(d); }
    MessageSent(true, d, used, Arrival(true), Arrived(true), map[0 := Newcomer], 0, PARSE_A, false,
                Relayed(KnownTable(d), ParsedLine(d), Served(Parsed(Statement(0)))));
    assert [] + [PARSE_A] == [PARSE_A];
    assert map[0 := Newcomer][0 := Own(Newcomer.start, [PARSE_A])] == map[0 := Own(Newcomer.start, [PARSE_A])];
  }

  /** A client leaves after a Parse and without a Sync; the next one sends a Sync and reads a
      ParseComplete it never asked for. */
  lemma LeavingHandsOnReplies(d: Digest)
    ensures var used := {Statement(0)};
            && IsRun(d, used, EMPTY, LeaveRun()) && Holds(Run(d, used, EMPTY, LeaveRun()), 1)
            && Run(d, used, EMPTY, LeaveRun()).buffers[1] == []
            && var l := Relays(d, Run(d, used, EMPTY, LeaveRun()), 1, SyncMsg, false).line;
               l.pending == [Reply(None, ParseDone)] && l.issued == [] && !Right(l)
  {
    hide Reached, WireRelay, Word, Learned, KnownTable, IsSync, IsRun, Run, PrivateRun, Arrival;
    var used, s1, w1, p1 := {Statement(0)}, Arrival(true) + [Send(0, PARSE_A, false)], ParsedWorld(d), map[0 := Own(Newcomer.start, [PARSE_A])];
    ReachedParsed(d, used);
    AnyWay(d, used, s1, w1, p1);
    Then(false, d, used, s1, w1, p1, Leave(0));
    var w2 := Without(w1, 0);
    Then(false, d, used, s1 + [Leave(0)], w2, p1, Connect(1));
    var w3, p3 := Next(d, w2, Connect(1)), PrivateNext(p1, Connect(1));
    Then(false, d, used, s1 + [Leave(0)] + [Connect(1)], w3, p3, Acquire(1, 0));
    assert w3.backends[0] == ParsedLine(d);
    ReachedAnyRun(d, used, LeaveRun(), Next(d, w3, Acquire(1, 0)), PrivateNext(p3, Acquire(1, 0)));
    var l := Taken(ParsedLine(d));
    SyncRelay(d, map[], l, false);
    assert l.pending == [Reply(None, ParseDone)] by { ParsedPending(d); }
    SyncLeaves(d, map[], l, false);
  }

  lemma ParsedPending(d: Digest)
    ensures ParsedLine(d).pending == [Reply(Some(0), ParseDone)] && Taken(ParsedLine(d)).pending == [Reply(None, ParseDone)]
    ensures Taken(ParsedLine(d)).issued == [] && Taken(ParsedLine(d)).told == []
  {
    hide Learned;
    var p := ParsedLine(d).pending;
    assert p == [Reply(Some(0), ParseDone)] && p[1..] == [];
    assert Strangers(p) == [Reply(None, ParseDone)] + Strangers([]);
  }

  lemma SyncLeaves(d: Digest, table: Table, l: Line, retry: bool)
    ensures var m := WireRelay(d, table, l, SyncMsg, false, retry).line; m.pending == l.pending && m.issued == l.issued && m.told == l.told
  {}

  lemma ReachedAnyRun(d: Digest, used: set<Stmt>, steps: seq<Step>, w: World, p: map<nat, Own>)
    requires Reached(false, d, used, steps, w, p)
    ensures IsRun(d, used, EMPTY, steps) && Run(d, used, EMPTY, steps) == w
  {}

  const PARSE_AA: Message := ParseMsg(Word(1), Statement(1))
  const CLOSE_A: Message := CloseMsg(Word(0))

  function HalfRun(): seq<Step> { Prepares(true) + [Send(0, PARSE_AA, false)] + [Send(0, CLOSE_A, false)] }

  lemma UnknownClose(d: Digest, table: Table, l: Line, retry: bool)
    requires Word(0) !in table
    ensures WireRelay(d, table, l, CLOSE_A, false, retry) == Relayed(table, if retry then l else TurnedAway(l), Refusal)
  {
    hide Word, DescribeTarget, TurnedAway;
    WordIsText(0);
    CloseReads(Word(0));
  }

  // ---------- going on after a refusal ----------

  /** A Close of a statement the client never had, then a Parse. */
  function RefusedRun(): seq<Step> { Arrival(true) + [Send(0, CLOSE_A, false)] + [Send(0, PARSE_A, false)] }

  /** The line after the refusal. */
  function RefusedLine(): Line { TurnedAway(Fresh(New(true))) }

  lemma RefusedParts()
    ensures var l := RefusedLine();
            && l.k == New(true) && !l.skipping && l.pending == []
            && l.told == l.issued == [Reply(Some(0), ErrorReply), Reply(Some(1), Ready)]
  {}

  function RefusedWorld(): World { Seated(Arrived(true), 0, map[], 0, RefusedLine(), [CLOSE_A]) }

  lemma ReachedRefused(d: Digest, used: set<Stmt>)
    ensures Reached(true, d, used, Arrival(true) + [Send(0, CLOSE_A, false)], RefusedWorld(), map[0 := Own(Newcomer.start, [CLOSE_A])])
    ensures var w := RefusedWorld();
            Holds(w, 0) && LineOf(w, 0) == RefusedLine() && w.held[0] == 0 && w.tables[0] == map[] && w.buffers[0] == [CLOSE_A]
  {
    hide Reached, WireRelay, Word, IsSync, Arrival, RefusedLine;
    ReachedArrival(d, used, true);
    NotSync(CLOSE_A);
    OtherUses(used, 0, CLOSE_A, false);
    assert RefusedLine() == TurnedAway(Fresh(New(true))) by { RefusedIs(); }
    UnknownClose(d, map[], Fresh(New(true)), false);
    MessageSent(true, d, used, Arrival(true), Arrived(true), map[0 := Newcomer], 0, CLOSE_A, false, Relayed(map[], RefusedLine(), Refusal));
    assert [] + [CLOSE_A] == [CLOSE_A];
    assert map[0 := Newcomer][0 := Own(Newcomer.start, [CLOSE_A])] == map[0 := Own(Newcomer.start, [CLOSE_A])];
  }

  lemma RefusedIs()
    ensures RefusedLine() == TurnedAway(Fresh(New(true)))
  {}

  function RefusedTable(d: Digest): Table { map[Word(0) := EntryOf(d, 0)] }

  function CarriedOnLine(d: Digest): Line { Answered(RefusedLine().(k := Learned(d, New(true), Statement(0))), ParseDone) }

  lemma CarriedOn(d: Digest, used: set<Stmt>)
    requires Statement(0) in used
    ensures Uses(used, PARSE_A) && !IsSync(PARSE_A) && !RefusedLine().skipping
    ensures WireRelay(d, map[], RefusedLine(), PARSE_A, false, false) ==
            Relayed(RefusedTable(d), CarriedOnLine(d), Served(Parsed(Statement(0))))
    ensures Received(CarriedOnLine(d)) == [Reply(Some(0), ErrorReply), Reply(Some(1), Ready), Reply(Some(2), ParseDone), Reply(None, Ready)]
  {
    hide WireRelay, Word, EntryOf, NameOf, Learned, RefusedLine;
    RefusedParts();
    WordIsText(0);
    ParseUses(used, 0, Word(0), 0, false);
    NotSync(PARSE_A);
    ParseRelay(d, map[], RefusedLine(), Word(0), 0, false);
    assert map[][Word(0) := EntryOf(d, 0)] == RefusedTable(d);
    assert [] + [Reply(Some(2), ParseDone)] == [Reply(Some(2), ParseDone)];
    var l := CarriedOnLine(d);
    assert Received(l) == l.told + l.pending + [Reply(None, Ready)];
  }

  /** One exchange that is answered with two ReadyForQuery: the refusal brings its own, and the
      Parse after it is carried out all the same. */
  lemma RefusalEndsTwice(d: Digest)
    ensures var used := {Statement(0)};
            && IsRun(d, used, EMPTY, RefusedRun()) && IsOrderly(d, used, EMPTY, RefusedRun())
            && Holds(Run(d, used, EMPTY, RefusedRun()), 0)
            && var r := Relays(d, Run(d, used, EMPTY, RefusedRun()), 0, SyncMsg, false);
               Word(0) in r.table &&
               Received(r.line) == [Reply(Some(0), ErrorReply), Reply(Some(1), Ready), Reply(Some(2), ParseDone), Reply(None, Ready)]
  {
    hide Reached, WireRelay, Word, IsSync, Arrival, RefusedLine, RefusedWorld, IsRun, IsOrderly, Run, PrivateRun, EntryOf, CarriedOnLine,
      Seated, Uses, LineOf, Holds;
    var used, s1, w, l := {Statement(0)}, Arrival(true) + [Send(0, CLOSE_A, false)], RefusedWorld(), CarriedOnLine(d);
    ReachedRefused(d, used);
    CarriedOn(d, used);
    SecondSent(d, used, s1, w, Newcomer.start, CLOSE_A, PARSE_A, Relayed(RefusedTable(d), l, Served(Parsed(Statement(0)))));
    var w2 := Seated(w, 0, RefusedTable(d), 0, l, [CLOSE_A, PARSE_A]);
    ReachedRun(d, used, RefusedRun(), w2, map[0 := Own(Newcomer.start, [CLOSE_A, PARSE_A])]);
    SeatedHolds(w, 0, RefusedTable(d), l, [CLOSE_A, PARSE_A]);
    SyncLeaves(d, RefusedTable(d), l, false);
    SyncRelay(d, RefusedTable(d), l, false);
    assert Received(WireRelay(d, RefusedTable(d), l, SyncMsg, false, false).line) == Received(l);
  }

  /** Behind a Parse whose answer waits, a refusal is read first. */
  lemma RefusalOvertakes(d: Digest, table: Table, l: Line)
    requires Word(0) !in table && l.told == [] && l.pending == l.issued == [Reply(Some(0), ParseDone)]
    ensures var r := WireRelay(d, table, l, CLOSE_A, false, false);
            && Received(r.line) == [Reply(Some(1), ErrorReply), Reply(Some(2), Ready), Reply(Some(0), ParseDone), Reply(None, Ready)]
            && !Right(r.line)
  {
    hide Word, WireRelay;
    UnknownClose(d, table, l, false);
    var m := TurnedAway(l);
    assert Received(m)[0].kind == ErrorReply && (m.issued + [Reply(None, Ready)])[0].kind == ParseDone;
  }

  /** The client on the first backend, in the middle of an exchange. */
  function Busy(table: Table, l: Line, buffer: seq<Message>): World {
    World(map[0 := table], map[0 := l, 1 := Fresh(New(true))], map[0 := 0], map[0 := buffer])
  }

  lemma BusySeated(table: Table, l: Line, buffer: seq<Message>, table': Table, l': Line, buffer': seq<Message>)
    ensures Seated(Busy(table, l, buffer), 0, table', 0, l', buffer') == Busy(table', l', buffer')
  {
    var w := Busy(table, l, buffer);
    assert w.tables[0 := table'] == map[0 := table'] && w.backends[0 := l'] == map[0 := l', 1 := Fresh(New(true))];
    assert w.held[0 := 0] == map[0 := 0] && w.buffers[0 := buffer'] == map[0 := buffer'];
  }

  function HalfLine(d: Digest): Line { Answered(Fresh(Learned(d, KnownBackend(d, true), Statement(1))), ParseDone) }

  lemma ReachedParsing(d: Digest, used: set<Stmt>)
    requires CollisionFree(d, used) && Statement(0) in used && Statement(1) in used
    ensures Reached(true, d, used, Prepares(true) + [Send(0, PARSE_AA, false)], Busy(TwoTable(d), HalfLine(d), [PARSE_AA]),
                    map[0 := Own(KnownOwn, [PARSE_AA])])
  {
    hide Reached, WireRelay, Word, EntryOf, NameOf, GlobalName, Learned, CollisionFree, BuildParse, IsSync, KnownBackend, Prepares, KnownTable;
    var l := Fresh(KnownBackend(d, true));
    ReachedKnown(d, used, true);
    NewToKnown(d, used);
    WordIsText(1);
    ParseUses(used, 0, Word(1), 1, false);
    NotSync(PARSE_AA);
    ParseRelay(d, KnownTable(d), l, Word(1), 1, false);
    assert Known(d, true) == Busy(KnownTable(d), l, []);
    MessageSent(true, d, used, Prepares(true), Busy(KnownTable(d), l, []), map[0 := Knows], 0, PARSE_AA, false,
                Relayed(TwoTable(d), HalfLine(d), Served(Parsed(Statement(1)))));
    assert [] + [PARSE_AA] == [PARSE_AA];
    BusySeated(KnownTable(d), l, [], TwoTable(d), HalfLine(d), [PARSE_AA]);
    assert map[0 := Knows][0 := Own(KnownOwn, [PARSE_AA])] == map[0 := Own(KnownOwn, [PARSE_AA])];
  }

  lemma ReachedHalf(d: Digest, used: set<Stmt>) returns (table: Table, l: Line)
    requires CollisionFree(d, used) && Statement(0) in used && Statement(1) in used
    ensures Reached(true, d, used, HalfRun(), Busy(table, l, [PARSE_AA, CLOSE_A]), map[0 := Own(KnownOwn, [PARSE_AA, CLOSE_A])])
    ensures Word(0) !in table
  {
    hide Reached, WireRelay, Word, EntryOf, NameOf, GlobalName, Learned, CollisionFree, BuildParse, IsSync, KnownBackend, Prepares, TwoTable;
    ReachedParsing(d, used);
    TwoEntries(d);
    OtherUses(used, 0, CLOSE_A, false);
    NotSync(CLOSE_A);
    CloseRelay(d, TwoTable(d), HalfLine(d), Word(0), 0);
    var r := WireRelay(d, TwoTable(d), HalfLine(d), CLOSE_A, false, false);
    table, l := r.table, r.line;
    MessageSent(true, d, used, Prepares(true) + [Send(0, PARSE_AA, false)], Busy(TwoTable(d), HalfLine(d), [PARSE_AA]),
                map[0 := Own(KnownOwn, [PARSE_AA])], 0, CLOSE_A, false, r);
    assert [PARSE_AA] + [CLOSE_A] == [PARSE_AA, CLOSE_A];
    BusySeated(TwoTable(d), HalfLine(d), [PARSE_AA], table, l, [PARSE_AA, CLOSE_A]);
    assert map[0 := Own(KnownOwn, [PARSE_AA])][0 := Own(KnownOwn, [PARSE_AA, CLOSE_A])] == map[0 := Own(KnownOwn, [PARSE_AA, CLOSE_A])];
  }

  /** The exchange parses `aa` and closes `a`; in the second pass `a` is unknown, the session
      ends, and its backend goes back with the exchange half done. */
  lemma EndedRetryHandsOnReplies(d: Digest)
    requires CollisionFree(d, {Statement(0), Statement(1)})
    ensures var used := {Statement(0), Statement(1)};
            && IsRun(d, used, EMPTY, HalfRun()) && IsOrderly(d, used, EMPTY, HalfRun())
            && Enabled(Run(d, used, EMPTY, HalfRun()), Retry(0, SyncMsg, 1, []))
            && var after := Next(d, Run(d, used, EMPTY, HalfRun()), Retry(0, SyncMsg, 1, []));
               Idle(after, 1) && !Finished(after.backends[1]) && after.backends[1].pending == [Reply(Some(0), ParseDone)]
  {
    hide Reached, WirePass, Word, CollisionFree, IsSync, IsRun, IsOrderly, Run, PrivateRun, HalfRun;
    var used := {Statement(0), Statement(1)};
    var table, l := ReachedHalf(d, used);
    NotSync(SyncMsg);
    ReachedRun(d, used, HalfRun(), Busy(table, l, [PARSE_AA, CLOSE_A]), map[0 := Own(KnownOwn, [PARSE_AA, CLOSE_A])]);
    HalfPass(d, table);
    assert [PARSE_AA, CLOSE_A] + [SyncMsg] == [PARSE_AA] + ([CLOSE_A] + [SyncMsg]);
  }

  lemma HalfPass(d: Digest, table: Table)
    requires Word(0) !in table
    ensures var r := WirePass(d, table, Fresh(New(true)), [PARSE_AA] + ([CLOSE_A] + [SyncMsg]), []);
            r.ended && r.line.pending == [Reply(Some(0), ParseDone)]
  {
    hide WireRelay, Word, EntryOf, NameOf, GlobalName, Learned, BuildParse;
    WordIsText(1);
    WordsDiffer(0, 1);
    var sent := [PARSE_AA] + ([CLOSE_A] + [SyncMsg]);
    assert sent[0] == PARSE_AA && sent[1..] == [CLOSE_A] + [SyncMsg];
    ParseRelay(d, table, Fresh(New(true)), Word(1), 1, true);
    var r := WireRelay(d, table, Fresh(New(true)), PARSE_AA, false, true);
    assert [] + [Reply(Some(0), ParseDone)] == [Reply(Some(0), ParseDone)];
    UnknownClose(d, r.table, r.line, true);
    assert ([CLOSE_A] + [SyncMsg])[0] == CLOSE_A;
  }

  // ---------- a Parse after an error ----------

  /** The server ignores the Parse, and the name enters the cache. */
  lemma SkippedParse(d: Digest, table: Table, l: Line, name: Bytes, i: nat)
    requires l.skipping && IsName(name) && name != [] && NameOf(d, i) !in l.k.cache && |l.k.cache| < MAX_STATEMENTS
    ensures WireRelay(d, table, l, ParseMsg(name, Statement(i)), false, false) ==
            Relayed(table[name := EntryOf(d, i)], WithCache(l, l.k.cache + [NameOf(d, i)]), Served(Skipped))
  {
    hide Word, RewriteOf, BuildParse, GlobalName, ServerOn, EntryOf;
    ParseRewrites(d, table, l.k.cache, name, i);
  }

  predicate IsNamedParse(msg: Message) {
    msg.tag == PARSE && DecodeParse(msg.body).Ok? && DecodeParse(msg.body).value.name != []
  }

  function StmtOf(msg: Message): Stmt
    requires IsNamedParse(msg)
  {
    Stmt(DecodeParse(msg.body).value.sql, DecodeParse(msg.body).value.types)
  }

  /** What is sent for a named Parse, and that it carries the global name. */
  lemma NamedParseRewrites(d: Digest, table: Table, cache: seq<Bytes>, msg: Message) returns (table': Table, m: Message)
    requires IsNamedParse(msg)
    ensures m.tag == PARSE && RewriteOf(d, table, cache, msg) == (table', Ok(RenamedParse(Named(d, StmtOf(msg)), m)))
    ensures Named(d, StmtOf(msg)) != []
    ensures forall server :: AfterFailure(server, m) == server
  {
    hide DecodeParse, GlobalName, BuildParse;
    var q := DecodeParse(msg.body).value;
    var g := GlobalName(d, q.sql, q.types);
    DecodeParseSound(msg.body);
    GlobalNameIsText(d, q.sql, q.types);
    DecodeParseComplete(g, q.sql, q.types);
    table' := RewriteOf(d, table, cache, msg).0;
    m := Message(PARSE, BuildParse(g, q.sql, q.types));
  }

  lemma FreeSkipped(l: Line, g: Bytes)
    requires l.skipping
    ensures var h := SideFree(l, g);
            h.Heard? ==> h.line.skipping && h.line.k == l.k.(cache := if g in l.k.cache then Removed(l.k.cache, g) else l.k.cache)
  {
    hide FirstOf, Removed;
  }

  lemma RecordSkipped(l: Line, g: Bytes)
    requires l.skipping
    ensures var h := SideRecord(l, g, false); h.Heard? ==> h.line.skipping && h.line.k == l.k.(cache := Inserted(l.k.cache, g).0)
  {
    hide FirstOf, Inserted;
  }

  lemma RecordedUnsent(d: Digest, used: set<Stmt>, k: Backend, g: Bytes)
    requires BackendOk(d, used, k) && g != []
    ensures var order := if g in k.cache then Removed(k.cache, g) else k.cache;
            BackendOk(d, used, k.(cache := Inserted(order, g).0)) <==> g in k.server
  {
    hide Named, Removed, Inserted;
    RemovedMeaning(k.cache, g);
    InsertedMeaning(if g in k.cache then Removed(k.cache, g) else k.cache, g);
  }

  /** On a line that ignores messages, a named Parse that gets through leaves the cache right
      exactly when the server held the statement before. */
  lemma SkippedParseIff(d: Digest, used: set<Stmt>, table: Table, l: Line, msg: Message, fails: bool)
    requires BackendOk(d, used, l.k) && l.skipping && IsNamedParse(msg)
    requires !WireRelay(d, table, l, msg, fails, false).event.Dead?
    ensures BackendOk(d, used, WireRelay(d, table, l, msg, fails, false).line.k) <==> Named(d, StmtOf(msg)) in l.k.server
  {
    hide RewriteOf, SideFree, SideRecord, BackendOk, Named, StmtOf, IsNamedParse, Inserted, Removed;
    var table', m := NamedParseRewrites(d, table, l.k.cache, msg);
    var g := Named(d, StmtOf(msg));
    FreeSkipped(l, g);
    RecordSkipped(SideFree(l, g).line, g);
    RecordedUnsent(d, used, l.k, g);
  }

  lemma FreedAndRecorded(d: Digest, used: set<Stmt>, k: Backend, g: Bytes)
    requires BackendOk(d, used, k) && g != []
    ensures BackendOk(d, used, Record(Freed(k, g), g, false)) <==> g in k.server && g !in k.cache
  {
    hide Named, Removed, Inserted;
    var freed := Freed(k, g);
    RemovedMeaning(k.cache, g);
    InsertedMeaning(freed.cache, g);
    assert g in Record(freed, g, false).cache;
  }

  /** A named Parse that fails leaves the cache right exactly when the server held the statement
      and the cache did not have it. */
  lemma FailedParseIff(d: Digest, used: set<Stmt>, table: Table, l: Line, msg: Message)
    requires BackendOk(d, used, l.k) && !l.skipping && Clean(l) && IsNamedParse(msg)
    ensures var g := Named(d, StmtOf(msg));
            BackendOk(d, used, WireRelay(d, table, l, msg, true, false).line.k) <==> g in l.k.server && g !in l.k.cache
  {
    hide RewriteOf, SideFree, SideRecord, BackendOk, Named, StmtOf, IsNamedParse, Record, Freed, ServerOn, AfterFailure, Clean;
    var table', m := NamedParseRewrites(d, table, l.k.cache, msg);
    var g := Named(d, StmtOf(msg));
    FreeClean(l, g);
    var freed := SideFree(l, g).line;
    RecordClean(freed, g, false);
    var recorded := SideRecord(freed, g, false).line;
    assert recorded.k.(server := AfterFailure(recorded.k.server, m)) == recorded.k;
    FreedAndRecorded(d, used, l.k, g);
  }

  function NextDoorSteps(): seq<Step> {
    Arrival(true) + [Connect(1)] + [Acquire(1, 1)] + [Send(1, PARSE_A, false)] + [Send(1, SyncMsg, false)] + [Release(1)]
  }

  function NextDoor(d: Digest): World {
    World(map[0 := map[], 1 := KnownTable(d)], map[0 := Fresh(New(true)), 1 := Fresh(KnownBackend(d, true))], map[0 := 0],
          map[0 := [], 1 := []])
  }

  lemma NextDoorSeated(d: Digest)
    ensures Seated(Both(), 1, KnownTable(d), 1, Fresh(KnownBackend(d, true)), []) == NextDoor(d).(held := map[0 := 0, 1 := 1])
    ensures map[0 := Newcomer, 1 := Newcomer][1 := Knows] == map[0 := Newcomer, 1 := Knows]
  {
    hide KnownTable, KnownBackend;
    var n := Seated(Both(), 1, KnownTable(d), 1, Fresh(KnownBackend(d, true)), []);
    var w1 := NextDoor(d).(held := map[0 := 0, 1 := 1]);
    assert n.tables == w1.tables && n.backends == w1.backends && n.held == w1.held && n.buffers == w1.buffers;
  }

  lemma ReachedNextDoor(d: Digest, used: set<Stmt>)
    requires Statement(0) in used
    ensures Reached(true, d, used, NextDoorSteps(), NextDoor(d), map[0 := Newcomer, 1 := Knows])
  {
    hide Reached, Word, EntryOf, NameOf, GlobalName, BuildParse, Learned, Arrival, Seated, NextDoor;
    var s0 := Arrival(true) + [Connect(1)] + [Acquire(1, 1)];
    var w, p := Both(), map[0 := Newcomer, 1 := Newcomer];
    ReachedBoth(d, used);
    WordIsText(0);
    ParseThenSync(true, d, used, s0, w, p, 1, Word(0), 0);
    assert map[][Word(0) := EntryOf(d, 0)] == KnownTable(d) && map[][Word(0) := Statement(0)] == KnownOwn.table;
    NextDoorSeated(d);
    var w1, p1 := NextDoor(d).(held := map[0 := 0, 1 := 1]), map[0 := Newcomer, 1 := Knows];
    ReleasedNextDoor(d, w1, p1);
    Then(true, d, used, s0 + [Send(1, PARSE_A, false)] + [Send(1, SyncMsg, false)], w1, p1, Release(1));
  }

  lemma ReleasedNextDoor(d: Digest, w: World, p: map<nat, Own>)
    requires w == NextDoor(d).(held := map[0 := 0, 1 := 1]) && p == map[0 := Newcomer, 1 := Knows]
    ensures Enabled(w, Release(1)) && Next(d, w, Release(1)) == NextDoor(d) && PrivateNext(p, Release(1)) == p
  {
    hide Word, EntryOf, Learned;
    assert map[0 := 0, 1 := 1] - {1} == map[0 := 0];
    assert p[1 := Knows] == p;
  }

  function ForgottenBackend(d: Digest): Backend { New(true).(cache := [NameOf(d, 0)]) }

  function Forgotten(d: Digest): World {
    NextDoor(d).(tables := map[0 := KnownTable(d), 1 := KnownTable(d)],
                 backends := map[0 := Fresh(ForgottenBackend(d)), 1 := Fresh(KnownBackend(d, true))])
  }

  function SkippedSteps(): seq<Step> {
    NextDoorSteps() + [Send(0, ExecuteMsg, true)] + [Send(0, PARSE_A, false)] + [Send(0, SyncMsg, false)]
  }

  function FailedLine(): Line { Answered(Fresh(New(true)).(skipping := true), ErrorReply) }

  function IgnoredLine(d: Digest): Line { WithCache(FailedLine(), [NameOf(d, 0)]) }

  function FailedSteps(): seq<Step> { NextDoorSteps() + [Send(0, ExecuteMsg, true)] }

  function OnFirst(d: Digest, table: Table, l: Line, buffer: seq<Message>): World {
    World(map[0 := table, 1 := KnownTable(d)], map[0 := l, 1 := Fresh(KnownBackend(d, true))], map[0 := 0], map[0 := buffer, 1 := []])
  }

  function WithKnows(o: Own): map<nat, Own> { map[0 := o, 1 := Knows] }

  lemma FirstSeated(d: Digest, table: Table, l: Line, buffer: seq<Message>, table': Table, l': Line, buffer': seq<Message>)
    ensures Seated(OnFirst(d, table, l, buffer), 0, table', 0, l', buffer') == OnFirst(d, table', l', buffer')
  {
    hide KnownTable, KnownBackend;
    var w := OnFirst(d, table, l, buffer);
    assert w.tables[0 := table'] == map[0 := table', 1 := KnownTable(d)];
    assert w.backends[0 := l'] == map[0 := l', 1 := Fresh(KnownBackend(d, true))];
    assert w.held[0 := 0] == map[0 := 0];
    assert w.buffers[0 := buffer'] == map[0 := buffer', 1 := []];
  }

  lemma KnowsAgain(o: Own, o': Own)
    ensures WithKnows(o)[0 := o'] == WithKnows(o')
  {
    hide Word;
  }

  lemma ReachedFailed(d: Digest, used: set<Stmt>)
    requires Statement(0) in used
    ensures Reached(false, d, used, FailedSteps(), OnFirst(d, map[], FailedLine(), [ExecuteMsg]), WithKnows(Own(Newcomer.start, [ExecuteMsg])))
  {
    hide Reached, WireRelay, Word, GlobalName, Learned, BuildParse, IsSync, NextDoorSteps, KnownBackend, KnownTable;
    ReachedNextDoor(d, used);
    var w, l := OnFirst(d, map[], Fresh(New(true)), []), Fresh(New(true));
    assert NextDoor(d) == w && map[0 := Newcomer, 1 := Knows] == WithKnows(Newcomer);
    AnyWay(d, used, NextDoorSteps(), w, WithKnows(Newcomer));
    OtherUses(used, 0, ExecuteMsg, true);
    NotSync(ExecuteMsg);
    ExecuteRelay(d, map[], l, true);
    MessageSent(false, d, used, NextDoorSteps(), w, WithKnows(Newcomer), 0, ExecuteMsg, true, Relayed(map[], FailedLine(), Served(Failed)));
    assert [] + [ExecuteMsg] == [ExecuteMsg];
    FirstSeated(d, map[], l, [], map[], FailedLine(), [ExecuteMsg]);
    KnowsAgain(Newcomer, Own(Newcomer.start, [ExecuteMsg]));
  }

  lemma ReachedIgnored(d: Digest, used: set<Stmt>)
    requires Statement(0) in used
    ensures Reached(false, d, used, FailedSteps() + [Send(0, PARSE_A, false)], OnFirst(d, KnownTable(d), IgnoredLine(d), [ExecuteMsg, PARSE_A]),
                    WithKnows(Own(Newcomer.start, [ExecuteMsg, PARSE_A])))
  {
    hide Reached, WireRelay, Word, EntryOf, NameOf, GlobalName, Learned, BuildParse, IsSync, FailedSteps, KnownBackend;
    ReachedFailed(d, used);
    WordIsText(0);
    ParseUses(used, 0, Word(0), 0, false);
    NotSync(PARSE_A);
    SkippedParse(d, map[], FailedLine(), Word(0), 0);
    assert [] + [NameOf(d, 0)] == [NameOf(d, 0)];
    assert map[][Word(0) := EntryOf(d, 0)] == KnownTable(d);
    MessageSent(false, d, used, FailedSteps(), OnFirst(d, map[], FailedLine(), [ExecuteMsg]), WithKnows(Own(Newcomer.start, [ExecuteMsg])), 0,
                PARSE_A, false, Relayed(KnownTable(d), IgnoredLine(d), Served(Skipped)));
    assert [ExecuteMsg] + [PARSE_A] == [ExecuteMsg, PARSE_A];
    FirstSeated(d, map[], FailedLine(), [ExecuteMsg], KnownTable(d), IgnoredLine(d), [ExecuteMsg, PARSE_A]);
    KnowsAgain(Own(Newcomer.start, [ExecuteMsg]), Own(Newcomer.start, [ExecuteMsg, PARSE_A]));
  }

  lemma ReachedForgotten(d: Digest, used: set<Stmt>) returns (p: map<nat, Own>)
    requires Statement(0) in used
    ensures Reached(false, d, used, SkippedSteps(), Forgotten(d), p) && 1 in p && p[1] == Knows && 0 in p && p[0].sent == []
  {
    hide Reached, Word, EntryOf, NameOf, GlobalName, Learned, BuildParse, IsSync, NextDoorSteps, KnownBackend, KnownTable, AfterAll;
    var sent := [ExecuteMsg, PARSE_A];
    ReachedIgnored(d, used);
    var w, p2 := OnFirst(d, KnownTable(d), IgnoredLine(d), sent), WithKnows(Own(Newcomer.start, sent));
    SyncSent(false, d, used, FailedSteps() + [Send(0, PARSE_A, false)], w, p2, 0);
    p := p2[0 := Own(AfterAll(p2[0].start, p2[0].sent + [SyncMsg]), [])];
    FirstSeated(d, KnownTable(d), IgnoredLine(d), sent, KnownTable(d), Fresh(ForgottenBackend(d)), []);
    assert IgnoredLine(d).k == ForgottenBackend(d);
    assert OnFirst(d, KnownTable(d), Fresh(ForgottenBackend(d)), []) == Forgotten(d);
  }

  /** From there, the neighbour that parsed the same statement elsewhere finds it missing. */
  lemma NeighbourMisses(d: Digest, used: set<Stmt>, steps: seq<Step>, p: map<nat, Own>)
    requires Reached(false, d, used, steps, Forgotten(d), p) && 1 in p && p[1] == Knows && 0 in p && p[0].sent == []
    ensures var run := steps + [Release(0)] + [Acquire(1, 0)];
            && IsRun(d, used, EMPTY, run) && Holds(Run(d, used, EMPTY, run), 1)
            && 1 in PrivateRun(map[], run) && PrivateOn(Now(PrivateRun(map[], run)[1]), BIND_A).1 == Ran(Statement(0), BindRest(BIND_A.body))
            && Relays(d, Run(d, used, EMPTY, run), 1, BIND_A, false).event == Served(Missing)
  {
    hide Reached, WireRelay, Word, EntryOf, NameOf, GlobalName, Learned, BuildParse, BuildBind, IsRun, Run, PrivateRun, KnownBackend, PrivateOn;
    var w, run := Forgotten(d), steps + [Release(0)] + [Acquire(1, 0)];
    Then(false, d, used, steps, w, p, Release(0));
    var w1, p1 := Next(d, w, Release(0)), PrivateNext(p, Release(0));
    Then(false, d, used, steps + [Release(0)], w1, p1, Acquire(1, 0));
    var w2, p2 := Next(d, w1, Acquire(1, 0)), PrivateNext(p1, Acquire(1, 0));
    ReachedAnyRun(d, used, run, w2, p2);
    assert PrivateRun(map[], run) == p2 by { ReachedPrivate(d, used, run, w2, p2); }
    assert Now(p2[1]) == KnownOwn;
    WordIsText(0);
    BindIsRead(KnownOwn, Word(0), 0);
    assert ForgottenBackend(d).cache[0] == NameOf(d, 0);
    BindRelay(d, KnownTable(d), Fresh(ForgottenBackend(d)), Word(0), 0, false);
  }

  /** After an error of its own, a client parses a statement in the same exchange. The server
      ignores it, the cache does not, and the neighbour that parsed the same statement elsewhere
      finds it missing. */
  lemma ParseAfterErrorHurtsNeighbour(d: Digest)
    ensures var used, run := {Statement(0)}, SkippedSteps() + [Release(0)] + [Acquire(1, 0)];
            && IsRun(d, used, EMPTY, run) && Holds(Run(d, used, EMPTY, run), 1)
            && 1 in PrivateRun(map[], run) && PrivateOn(Now(PrivateRun(map[], run)[1]), BIND_A).1 == Ran(Statement(0), BindRest(BIND_A.body))
            && Relays(d, Run(d, used, EMPTY, run), 1, BIND_A, false).event == Served(Missing)
  {
    hide Reached, WireRelay, Word, IsRun, Run, PrivateRun, SkippedSteps, PrivateOn, Forgotten;
    var p := ReachedForgotten(d, {Statement(0)});
    NeighbourMisses(d, {Statement(0)}, SkippedSteps(), p);
  }

  // ---------- a Parse that fails ----------

  function FailingSteps(): seq<Step> { NextDoorSteps() + [Send(0, PARSE_A, true)] + [Send(0, SyncMsg, false)] }

  /** A Parse that fails, of a statement that is new to the backend. */
  lemma FailingParse(d: Digest, table: Table, l: Line, name: Bytes, i: nat)
    requires !l.skipping && IsName(name) && name != [] && NameOf(d, i) !in l.k.cache && |l.k.cache| < MAX_STATEMENTS
    ensures WireRelay(d, table, l, ParseMsg(name, Statement(i)), true, false) ==
            Relayed(table[name := EntryOf(d, i)],
                    Answered(WithCache(l, l.k.cache + [NameOf(d, i)]).(skipping := true), ErrorReply), Served(Failed))
  {
    hide Word, RewriteOf, BuildParse, DecodeParse, GlobalName, ServerOn, EntryOf, NameOf;
    ParseRewrites(d, table, l.k.cache, name, i);
    EntryParts(d, i);
    WordIsText(i);
    DecodeParseComplete(NameOf(d, i), Word(i), [0, 0]);
  }

  lemma ReachedFailing(d: Digest, used: set<Stmt>) returns (p: map<nat, Own>)
    requires Statement(0) in used
    ensures Reached(false, d, used, FailingSteps(), Forgotten(d), p) && 1 in p && p[1] == Knows && 0 in p && p[0].sent == []
  {
    hide Reached, WireRelay, Word, EntryOf, NameOf, GlobalName, Learned, BuildParse, IsSync, NextDoorSteps, KnownBackend, KnownTable, AfterAll;
    ReachedNextDoor(d, used);
    var l, w := Fresh(New(true)), OnFirst(d, map[], Fresh(New(true)), []);
    assert NextDoor(d) == w && map[0 := Newcomer, 1 := Knows] == WithKnows(Newcomer);
    AnyWay(d, used, NextDoorSteps(), w, WithKnows(Newcomer));
    WordIsText(0);
    ParseUses(used, 0, Word(0), 0, true);
    NotSync(PARSE_A);
    FailingParse(d, map[], l, Word(0), 0);
    assert [] + [NameOf(d, 0)] == [NameOf(d, 0)];
    assert map[][Word(0) := EntryOf(d, 0)] == KnownTable(d) by { KnownTableIs(d); }
    var after := Answered(Fresh(ForgottenBackend(d)).(skipping := true), ErrorReply);
    MessageSent(false, d, used, NextDoorSteps(), w, WithKnows(Newcomer), 0, PARSE_A, true, Relayed(KnownTable(d), after, Served(Failed)));
    assert [] + [PARSE_A] == [PARSE_A];
    FirstSeated(d, map[], l, [], KnownTable(d), after, [PARSE_A]);
    var w2, p2 := OnFirst(d, KnownTable(d), after, [PARSE_A]), WithKnows(Own(Newcomer.start, [PARSE_A]));
    KnowsAgain(Newcomer, Own(Newcomer.start, [PARSE_A]));
    SyncSent(false, d, used, NextDoorSteps() + [Send(0, PARSE_A, true)], w2, p2, 0);
    p := p2[0 := Own(AfterAll(p2[0].start, p2[0].sent + [SyncMsg]), [])];
    FirstSeated(d, KnownTable(d), after, [PARSE_A], KnownTable(d), Fresh(ForgottenBackend(d)), []);
    assert OnFirst(d, KnownTable(d), Fresh(ForgottenBackend(d)), []) == Forgotten(d);
  }

  lemma KnownTableIs(d: Digest)
    ensures map[][Word(0) := EntryOf(d, 0)] == KnownTable(d)
  {
    hide Word, EntryOf;
  }

  /** A Parse fails on one backend; the neighbour that parsed the same statement on another finds
      it missing there. */
  lemma FailedParseHurtsNeighbour(d: Digest)
    ensures var used, run := {Statement(0)}, FailingSteps() + [Release(0)] + [Acquire(1, 0)];
            && IsRun(d, used, EMPTY, run) && Holds(Run(d, used, EMPTY, run), 1)
            && 1 in PrivateRun(map[], run) && PrivateOn(Now(PrivateRun(map[], run)[1]), BIND_A).1 == Ran(Statement(0), BindRest(BIND_A.body))
            && Relays(d, Run(d, used, EMPTY, run), 1, BIND_A, false).event == Served(Missing)
  {
    hide Reached, WireRelay, Word, IsRun, Run, PrivateRun, FailingSteps, PrivateOn, Forgotten;
    var p := ReachedFailing(d, {Statement(0)});
    NeighbourMisses(d, {Statement(0)}, FailingSteps(), p);
  }

  lemma ReachedPrivate(d: Digest, used: set<Stmt>, steps: seq<Step>, w: World, p: map<nat, Own>)
    requires Reached(false, d, used, steps, w, p)
    ensures PrivateRun(map[], steps) == p
  {}
}
