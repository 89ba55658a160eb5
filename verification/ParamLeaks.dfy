/** Runs, step by step, that break one clause each of what the parameter relay relies on. */
module ParamLeaks {
  import opened Text
  import opened Params
  import opened Delta
  import opened Sync
  import opened ClientSettings
  import opened ParamRuns
  import opened ParamExamples

  // ---------- building a run one step at a time ----------

  ghost predicate Reached(steps: seq<Step>, w: World, p: map<nat, Private>) {
    CanTake(EMPTY, steps) && Run(EMPTY, steps) == w && PrivateRun(map[], steps) == p
  }

  lemma {:induction false} OneMore(w: World, p: map<nat, Private>, steps: seq<Step>, step: Step)
    requires CanTake(w, steps) && Enabled(Run(w, steps), step)
    ensures CanTake(w, steps + [step])
    ensures Run(w, steps + [step]) == Next(Run(w, steps), step)
    ensures PrivateRun(p, steps + [step]) == PrivateStep(PrivateRun(p, steps), step)
    decreases |steps|
  {
    hide Enabled, Next, PrivateStep;
    var more := steps + [step];
    if steps == [] {
      assert more == [step] && more[1..] == [];
    } else {
      assert more[0] == steps[0] && more[1..] == steps[1..] + [step];
      OneMore(Next(w, steps[0]), PrivateStep(p, steps[0]), steps[1..], step);
    }
  }

  lemma Then(steps: seq<Step>, w: World, p: map<nat, Private>, step: Step)
    requires Reached(steps, w, p) && Enabled(w, step)
    ensures Reached(steps + [step], Next(w, step), PrivateStep(p, step))
  {
    hide CanTake, Run, PrivateRun, Enabled, Next, PrivateStep;
    OneMore(EMPTY, map[], steps, step);
  }

  lemma ReachedStart()
    ensures Reached([], EMPTY, map[])
  {}

  /** What an exchange leaves that starts outside a transaction and ends so. */
  function Left(m: Settings, q: Query): Settings { Executed(Txn(m, m), q).actual }

  // ---------- one client, two backends ----------

  const ARRIVAL: seq<Step> := [Connect(0, map[], false)] + [Open(0)] + [Open(1)]

  const FRESH: Backend := Backend(map[], Conn(map[], None))

  /** The client believes `desired`, as the first backend is recorded; the server has `actual`. */
  function Between(desired: Settings, actual: Settings, reached: set<string>): World {
    World(map[0 := Session(desired, false, false, None, false, reached)],
          map[0 := Backend(desired, Conn(actual, None)), 1 := FRESH])
  }

  function Alone(actual: Settings): map<nat, Private> { map[0 := Private(Conn(actual, None), false)] }

  lemma NothingCarried()
    ensures AllCarried(map[])
  {}

  lemma ReachedArrival()
    ensures Reached(ARRIVAL, Between(map[], map[], {}), Alone(map[]))
  {
    hide Reached, AllCarried, READ_ONLY_GUC, READ_ONLY_SET;
    NothingCarried();
    ReachedStart();
    var s := Session(map[], false, false, None, false, {});
    Then([], EMPTY, map[], Connect(0, map[], false));
    var w1 := World(map[0 := s], map[]);
    assert [] + [Connect(0, map[], false)] == [Connect(0, map[], false)];
    assert Next(EMPTY, Connect(0, map[], false)) == w1 && PrivateStep(map[], Connect(0, map[], false)) == Alone(map[]);
    Then([Connect(0, map[], false)], w1, Alone(map[]), Open(0));
    var w2 := World(map[0 := s], map[0 := FRESH]);
    assert Next(w1, Open(0)) == w2;
    Then([Connect(0, map[], false)] + [Open(0)], w2, Alone(map[]), Open(1));
    assert Next(w2, Open(1)) == Between(map[], map[], {});
  }

  /** Checking out a backend that is recorded as the client wants it sends nothing. */
  lemma CheckoutSame(s: Session, k: Backend)
    requires s.desired == k.applied
    ensures Checkout(s, k) == k
  {
    hide DeltaOf;
    DeltaEmptyIffEqual(s.desired, k.applied);
    Scanner.SplitStep("");
    assert RunSql(k.conn.actual, Batch([])) == k.conn.actual;
  }

  /** An exchange that neither pins nor stays open. */
  predicate IsQuick(reached: set<string>, q: Query) {
    && !q.open && !q.pins && !AnyPins(q.sent) && (q.sent == [] || Allowed(false, q.sent) != [])
    && forall t :: t in q.ran ==> t in reached || t in q.sent
  }

  function Idle(desired: Settings, reached: set<string>): Session { Session(desired, false, false, None, false, reached) }

  lemma QuickSettles(desired: Settings, actual: Settings, reached: set<string>, q: Query)
    requires IsQuick(reached, q)
    ensures var s, k := Idle(desired, reached), Backend(desired, Conn(actual, None));
            var after := if q.errored then desired else CommitAll(desired, Actions(q.sent));
            && SettledSession(s, 0, q) == Idle(after, reached + set t | t in q.sent)
            && SettledBackend(s, k, q) == Backend(after, Conn(Left(actual, q), None))
            && Sendable(s, q) && !Blocked(false, q) && ServerRun(Conn(actual, None), q) == Conn(Left(actual, q), None)
  {
    hide Actions, Executed, Filter, CommitAll, SqlPins;
    AllAllowed(q.sent);
    CommitSkipsPins(desired, Actions(q.sent));
    assert Filter(NotAPin, Actions(q.sent)) == [] ==> CommitAll(desired, Actions(q.sent)) == desired by { CommitNothing(desired); }
  }

  /** One exchange of the only client, on the first backend. */
  lemma NextOf(w: World, s: Session, k: Backend, q: Query)
    requires w == World(map[0 := s], map[0 := k, 1 := FRESH]) && Sendable(s, q) && !Blocked(s.readOnly, q)
    requires s.held == Some(0) || (s.held.None? && s.desired == k.applied)
    ensures var step := Exchange(0, 0, q);
            && Enabled(w, step)
            && Next(w, step) == World(map[0 := SettledSession(s, 0, q)], map[0 := SettledBackend(s, k, q), 1 := FRESH])
  {
    hide Sendable, Blocked, SettledSession, SettledBackend, Checkout;
    if s.held.None? {
      CheckoutSame(s, k);
      assert Free(w, 0);
    }
    var n := Next(w, Exchange(0, 0, q));
    assert n.sessions == map[0 := SettledSession(s, 0, q)];
    assert n.backends == map[0 := SettledBackend(s, k, q), 1 := FRESH];
  }

  /** What a quick exchange of this client does on the first backend. */
  lemma QuickNext(desired: Settings, actual: Settings, reached: set<string>, q: Query)
    requires IsQuick(reached, q)
    ensures var w, step := Between(desired, actual, reached), Exchange(0, 0, q);
            && Enabled(w, step)
            && Next(w, step) == Between(if q.errored then desired else CommitAll(desired, Actions(q.sent)),
                                        Left(actual, q), reached + set t | t in q.sent)
            && PrivateStep(Alone(actual), step) == Alone(Left(actual, q))
  {
    hide Actions, Left, CommitAll, IsQuick, SettledSession, SettledBackend, Sendable, Blocked, ServerRun, Next, Enabled;
    QuickSettles(desired, actual, reached, q);
    NextOf(Between(desired, actual, reached), Idle(desired, reached), Backend(desired, Conn(actual, None)), q);
  }

  lemma ExchangeNext(steps: seq<Step>, desired: Settings, actual: Settings, reached: set<string>, q: Query)
    requires Reached(steps, Between(desired, actual, reached), Alone(actual)) && IsQuick(reached, q)
    ensures Reached(steps + [Exchange(0, 0, q)],
                    Between(if q.errored then desired else CommitAll(desired, Actions(q.sent)),
                            Left(actual, q), reached + set t | t in q.sent),
                    Alone(Left(actual, q)))
  {
    hide Reached, Actions, Left, CommitAll, IsQuick, Between, Alone, Enabled, Next, PrivateStep;
    QuickNext(desired, actual, reached, q);
    Then(steps, Between(desired, actual, reached), Alone(actual), Exchange(0, 0, q));
  }

  /** The next client on that backend sees what the server has, and should see nothing. */
  lemma NextClientSees(steps: seq<Step>, actual: Settings, reached: set<string>)
    requires Reached(steps, Between(map[], actual, reached), Alone(actual))
    ensures var all := steps + [Connect(1, map[], false)];
            && CanTake(EMPTY, all) && CanRun(Run(EMPTY, all), 1, 0)
            && Borrowed(Run(EMPTY, all), 1, 0).1.conn.actual == actual
            && 1 in PrivateRun(map[], all) && PrivateRun(map[], all)[1].conn.actual == map[]
  {
    hide CanTake, Run, PrivateRun, AllCarried, Checkout, READ_ONLY_GUC, READ_ONLY_SET;
    NothingCarried();
    var w := Between(map[], actual, reached);
    Then(steps, w, Alone(actual), Connect(1, map[], false));
    var n := Next(w, Connect(1, map[], false));
    CheckoutSame(n.sessions[1], n.backends[0]);
  }

  /** The same client on the other backend sees what havuz believes. */
  lemma ElsewhereSees(steps: seq<Step>, desired: Settings, actual: Settings, reached: set<string>)
    requires Reached(steps, Between(desired, actual, reached), Alone(actual)) && AllCarried(desired)
    ensures CanTake(EMPTY, steps) && CanRun(Run(EMPTY, steps), 0, 1)
    ensures Borrowed(Run(EMPTY, steps), 0, 1).1.conn.actual == desired
    ensures 0 in PrivateRun(map[], steps) && PrivateRun(map[], steps)[0].conn.actual == actual
  {
    hide CanTake, Run, PrivateRun, AllCarried, RunSql, DeltaOf, Batch;
    CarriedReadsBack(desired, map[]);
    var w := Between(desired, actual, reached);
    assert Free(w, 1);
  }

  // ---------- an error after a commit ----------

  function Failing(): Query { Query([FailingBatch()], [FailingBatch()], true, 3, false, false, None) }

  lemma FailingRuns()
    ensures Actions([FailingBatch()]) == [TRACK_A] && Left(map[], Failing()) == CARRIES_A
  {
    hide ActionsForSql, Scanner.Split, FailingBatch, RunAll, Commits, FailingPieces;
    FailingBatchStages();
    ActionsOfOne(FailingBatch());
    FailingPrefix();
    assert |FailingPieces()| == 4 by { FourPieces(); }
  }

  lemma FourPieces()
    ensures |FailingPieces()| == 4
  {}

  function FailingRun(): seq<Step> { ARRIVAL + [Exchange(0, 0, Failing())] + [Connect(1, map[], false)] }

  /** `BEGIN; SET a = 1; COMMIT; SELECT 1/0`: the server keeps `a`, havuz forgets it, and the
      next client runs with it. */
  lemma CommittedThenErroredLeaks()
    ensures CanTake(EMPTY, FailingRun()) && CanRun(Run(EMPTY, FailingRun()), 1, 0)
    ensures Borrowed(Run(EMPTY, FailingRun()), 1, 0).1.conn.actual == CARRIES_A
    ensures 1 in PrivateRun(map[], FailingRun()) && PrivateRun(map[], FailingRun())[1].conn.actual == map[]
  {
    hide Reached, Actions, Left, FailingBatch, CanTake, Run, PrivateRun, CARRIES_A, TRACK_A, Borrowed, CanRun;
    ReachedArrival();
    FailingRuns();
    AllAllowed([FailingBatch()]);
    TrackIsNoPin();
    PinsAreSeen([FailingBatch()]);
    ExchangeNext(ARRIVAL, map[], map[], {}, Failing());
    NextClientSees(ARRIVAL + [Exchange(0, 0, Failing())], CARRIES_A, {} + set t | t in [FailingBatch()]);
  }

  // ---------- parsed and not executed, executed and not parsed ----------

  /** A Parse of the SET and a Sync. */
  const PARSE_ONLY: Query := Query([SET_A], [], false, 0, false, false, None)

  /** A Bind and Execute of it, and a Sync. */
  const EXECUTE_ONLY: Query := Query([], [SET_A], false, 0, false, false, None)

  lemma CommitA()
    ensures CommitAll(map[], [TRACK_A]) == CARRIES_A
  {
    assert [TRACK_A][1..] == [];
    CommitNothing(CARRIES_A);
    assert Apply(map[], TRACK_A) == CARRIES_A;
  }

  /** One statement that neither commits nor undoes. */
  lemma OneRuns(t: Txn, text: string)
    requires Scanner.Split(text) == [text] && !Commits(text) && !Undoes(text)
    ensures Fold(t, Pieces([text])) == Txn(Apply(t.actual, ClassifySet(text)), t.base)
  {
    hide ActionsForSql, Scanner.Split, ClassifySet, Commits, Undoes;
    ActionsOfOne(text);
    assert [text][1..] == [];
    assert Fold(t, [text]) == Fold(RunOne(t, text), []);
  }

  lemma SetARuns(t: Txn)
    ensures Fold(t, Pieces([SET_A])) == Txn(t.actual["a" := SET_A], t.base)
  {
    hide Scanner.Split, SET_A, ClassifySet, Verb, Commits, Undoes, Fold;
    SetAIsTracked();
    VerbsMean(SET_A);
    OneRuns(t, SET_A);
  }

  lemma ParseOnlyRuns()
    ensures Actions([SET_A]) == [TRACK_A] && Left(map[], PARSE_ONLY) == map[] && Left(map[], EXECUTE_ONLY) == CARRIES_A
  {
    hide ActionsForSql, Scanner.Split, SET_A, ClassifySet;
    SetAStages();
    ActionsOfOne(SET_A);
    SetARuns(Txn(map[], map[]));
    assert Pieces([]) == [];
  }

  lemma ReachedParsed()
    ensures Reached(ARRIVAL + [Exchange(0, 0, PARSE_ONLY)], Between(CARRIES_A, map[], {SET_A}), Alone(map[]))
  {
    hide Reached, Actions, Left, SET_A, CARRIES_A, CommitAll;
    ReachedArrival();
    ParseOnlyRuns();
    CommitA();
    AllAllowed([SET_A]);
    TrackIsNoPin();
    PinsAreSeen([SET_A]);
    ExchangeNext(ARRIVAL, map[], map[], {}, PARSE_ONLY);
    assert {} + (set t | t in [SET_A]) == {SET_A};
  }

  /** `SET a = 1` that is parsed and never executed is believed: on the next backend the client
      runs with `a`, which its own server never set. */
  lemma ParsedOnlyIsBelieved()
    ensures var steps := ARRIVAL + [Exchange(0, 0, PARSE_ONLY)];
            && CanTake(EMPTY, steps) && CanRun(Run(EMPTY, steps), 0, 1)
            && Borrowed(Run(EMPTY, steps), 0, 1).1.conn.actual == CARRIES_A
            && 0 in PrivateRun(map[], steps) && PrivateRun(map[], steps)[0].conn.actual == map[]
  {
    hide CanTake, Run, PrivateRun, SET_A, AllCarried, Borrowed, CanRun, CARRIES_A;
    ReachedParsed();
    CarriesAIsCarried();
    ElsewhereSees(ARRIVAL + [Exchange(0, 0, PARSE_ONLY)], CARRIES_A, map[], {SET_A});
  }

  const RESET_A := ResetText("a")
  const RESET_QUERY: Query := Simple(RESET_A, false)

  lemma ResetAText()
    ensures RESET_A != [] && (forall i :: 0 <= i < |RESET_A| ==> Ordinary(RESET_A[i])) && RESET_A == "RESET" + " a"
  {}

  lemma ResetIsPlain()
    ensures IsPlain("RESET", " a")
  {
    assert ToUpper("RESET") == "RESET";
  }

  lemma ResetAStages()
    ensures ActionsForSql(RESET_A) == [Reset("a")] && Scanner.Split(RESET_A) == [RESET_A] && ClassifySet(RESET_A) == Reset("a")
  {
    hide ClassifySet, Scanner.Split, Keyword, RESET_A, IsParameterName, IsPlain, Ordinary;
    ResetAText();
    OrdinaryStandsAlone(RESET_A);
    ShortName("a");
    ResetReadsBack("a");
    assert ClassifySet(RESET_A) == Reset("a") by { NotResetWord(); ResetAIs(); }
    ResetIsPlain();
    KeywordIs("RESET", " a");
    assert Map(ClassifySet, [RESET_A]) == [Reset("a")];
    assert Filter(IsAction, [Reset("a")]) == [Reset("a")] by { assert [Reset("a")][1..] == []; }
    StagesThese(RESET_A, [RESET_A], [Reset("a")]);
  }

  lemma ResetAIs()
    ensures RESET_A == ResetText("a")
  {}

  lemma ResetVerb()
    ensures !Commits(RESET_A) && !Undoes(RESET_A)
  {
    hide Verb, IsPlain;
    ResetAText();
    ResetIsPlain();
    VerbIs("RESET", " a");
  }

  lemma ResetRuns()
    ensures Actions([RESET_A]) == [Reset("a")] && Left(map[], RESET_QUERY) == map[]
    ensures CommitAll(CARRIES_A, [Reset("a")]) == map[]
  {
    hide ActionsForSql, Scanner.Split, RESET_A, SET_A, ClassifySet, Commits, Undoes;
    ResetAStages();
    ActionsOfOne(RESET_A);
    ResetVerb();
    OneRuns(Txn(map[], map[]), RESET_A);
    assert [Reset("a")][1..] == [];
    CommitNothing(map[]);
    assert Apply(CARRIES_A, Reset("a")) == map[] && Apply(map[], Reset("a")) == map[];
  }

  function ExecuteRun(): seq<Step> {
    ARRIVAL + [Exchange(0, 0, PARSE_ONLY)] + [Exchange(0, 0, RESET_QUERY)] + [Exchange(0, 0, EXECUTE_ONLY)]
      + [Connect(1, map[], false)]
  }

  /** A SET parsed earlier is not noticed when it is executed again: after `RESET a` the client
      executes its prepared `SET a = 1`, and the next client runs with it. */
  lemma ExecutedAgainLeaks()
    ensures CanTake(EMPTY, ExecuteRun()) && CanRun(Run(EMPTY, ExecuteRun()), 1, 0)
    ensures Borrowed(Run(EMPTY, ExecuteRun()), 1, 0).1.conn.actual == CARRIES_A
    ensures 1 in PrivateRun(map[], ExecuteRun()) && PrivateRun(map[], ExecuteRun())[1].conn.actual == map[]
  {
    hide Reached, CanTake, Run, PrivateRun, SET_A, RESET_A, CARRIES_A, Actions, Left, Borrowed, CanRun, CommitAll;
    var s1 := ARRIVAL + [Exchange(0, 0, PARSE_ONLY)];
    ReachedParsed();
    ResetRuns();
    AllAllowed([RESET_A]);
    PinsAreSeen([RESET_A]);
    ExchangeNext(s1, CARRIES_A, map[], {SET_A}, RESET_QUERY);
    var reached := {SET_A} + set t | t in [RESET_A];
    var s2 := s1 + [Exchange(0, 0, RESET_QUERY)];
    ParseOnlyRuns();
    NoActions();
    CommitNothing(map[]);
    ExchangeNext(s2, map[], map[], reached, EXECUTE_ONLY);
    assert reached + (set t | t in []) == reached;
    NextClientSees(s2 + [Exchange(0, 0, EXECUTE_ONLY)], CARRIES_A, reached);
  }

  lemma NoActions()
    ensures Actions([]) == []
  {}

  // ---------- a batch that leaves its transaction open ----------

  function OpenQuery(): Query { Simple(OpenBatch(), true) }

  lemma OpenRuns()
    ensures Actions([OpenBatch()]) == [TRACK_A] && Executed(Txn(map[], map[]), OpenQuery()) == Txn(CARRIES_A, map[])
  {
    hide ActionsForSql, Scanner.Split, OpenBatch, SET_A, BEGIN, Fold;
    OpenBatchStages();
    ActionsOfOne(OpenBatch());
    FoldBeginSet(map[]);
    assert map[]["a" := SET_A] == CARRIES_A;
  }

  function Opened(): World {
    World(map[0 := Session(CARRIES_A, false, true, Some(0), false, {OpenBatch()})],
          map[0 := Backend(CARRIES_A, Conn(CARRIES_A, Some(map[]))), 1 := FRESH])
  }

  lemma OpenSettles()
    ensures var s, k, q := Idle(map[], {}), FRESH, OpenQuery();
            && SettledSession(s, 0, q) == Session(CARRIES_A, false, true, Some(0), false, {OpenBatch()})
            && SettledBackend(s, k, q) == Backend(CARRIES_A, Conn(CARRIES_A, Some(map[])))
            && Sendable(s, q) && !Blocked(false, q) && ServerRun(k.conn, q) == Conn(CARRIES_A, Some(map[]))
  {
    hide Actions, Executed, OpenBatch, CARRIES_A, Filter, CommitAll, TRACK_A;
    OpenRuns();
    AllAllowed([OpenBatch()]);
    TrackIsNoPin();
    PinsAreSeen([OpenBatch()]);
    FilterAll(NotAPin, [TRACK_A]);
    CommitA();
    assert {} + (set t | t in [OpenBatch()]) == {OpenBatch()};
  }

  lemma ReachedOpened()
    ensures Reached(ARRIVAL + [Exchange(0, 0, OpenQuery())], Opened(),
                    map[0 := Private(Conn(CARRIES_A, Some(map[])), false)])
  {
    hide Reached, OpenBatch, CARRIES_A, SettledSession, SettledBackend, Sendable, Blocked, ServerRun, Next, Enabled;
    var w, q := Between(map[], map[], {}), OpenQuery();
    ReachedArrival();
    OpenSettles();
    NextOf(w, Idle(map[], {}), FRESH, q);
    Then(ARRIVAL, w, Alone(map[]), Exchange(0, 0, q));
    assert PrivateStep(Alone(map[]), Exchange(0, 0, q)) == map[0 := Private(Conn(CARRIES_A, Some(map[])), false)];
  }

  lemma TrackIsNoPin()
    ensures NotAPin(TRACK_A) && TRACK_A != Pin
  {}

  function OpenRun(): seq<Step> { ARRIVAL + [Exchange(0, 0, OpenQuery())] + [Exchange(0, 0, ROLLBACK)] }

  lemma UndoneSettles(text: string)
    requires ActionsForSql(text) == [] && Scanner.Split(text) == [text] && Undoes(text)
    ensures var s, k, q := Opened().sessions[0], Opened().backends[0], Simple(text, false);
            && SettledSession(s, 0, q) == Idle(CARRIES_A, {OpenBatch()} + {text})
            && SettledBackend(s, k, q) == Backend(CARRIES_A, Conn(map[], None))
            && Sendable(s, q) && !Blocked(false, q) && ServerRun(k.conn, q) == Conn(map[], None)
  {
    hide OpenBatch, CARRIES_A, ActionsForSql, Scanner.Split, Fold, Undoes;
    ActionsOfOne(text);
    AllAllowed([text]);
    PinsAreSeen([text]);
    CommitNothing(CARRIES_A);
    UndoesOne(Txn(CARRIES_A, map[]), text);
    assert {OpenBatch()} + (set t | t in [text]) == {OpenBatch()} + {text};
  }

  /** The transaction is undone by a text that stages nothing. */
  lemma Undone(steps: seq<Step>, text: string)
    requires Reached(steps, Opened(), map[0 := Private(Conn(CARRIES_A, Some(map[])), false)])
    requires ActionsForSql(text) == [] && Scanner.Split(text) == [text] && Undoes(text)
    ensures Reached(steps + [Exchange(0, 0, Simple(text, false))],
                    Between(CARRIES_A, map[], {OpenBatch()} + {text}), Alone(map[]))
  {
    hide Reached, OpenBatch, CARRIES_A, ActionsForSql, Scanner.Split, Undoes, SettledSession, SettledBackend, Sendable, Blocked, ServerRun, Next, Enabled;
    var w, q := Opened(), Simple(text, false);
    var p := map[0 := Private(Conn(CARRIES_A, Some(map[])), false)];
    UndoneSettles(text);
    NextOf(w, w.sessions[0], w.backends[0], q);
    Then(steps, w, p, Exchange(0, 0, q));
    assert PrivateStep(p, Exchange(0, 0, q)) == Alone(map[]);
  }

  lemma RollbackIsUndo()
    ensures Undoes("ROLLBACK")
  {
    hide Verb;
    var text := "ROLLBACK";
    assert ToUpper(text) == text && |text| == 8;
    VerbOfWord(text);
  }

  lemma ReachedRolledBack()
    ensures Reached(OpenRun(), Between(CARRIES_A, map[], {OpenBatch()} + {"ROLLBACK"}), Alone(map[]))
  {
    hide Reached, OpenBatch, CARRIES_A, ActionsForSql, Opened, Between, Scanner.Split, Undoes;
    ReachedOpened();
    RollbackStagesNothing();
    RollbackIsUndo();
    Undone(ARRIVAL + [Exchange(0, 0, OpenQuery())], "ROLLBACK");
  }

  /** `BEGIN; SET a = 1`, then ROLLBACK: on the next backend the client runs with `a`. */
  lemma RolledBackIsBelieved()
    ensures CanTake(EMPTY, OpenRun()) && CanRun(Run(EMPTY, OpenRun()), 0, 1)
    ensures Borrowed(Run(EMPTY, OpenRun()), 0, 1).1.conn.actual == CARRIES_A
    ensures 0 in PrivateRun(map[], OpenRun()) && PrivateRun(map[], OpenRun())[0].conn.actual == map[]
  {
    hide CanTake, Run, PrivateRun, SET_A, AllCarried, Borrowed, CanRun, CARRIES_A, OpenRun, OpenBatch;
    ReachedRolledBack();
    CarriesAIsCarried();
    ElsewhereSees(OpenRun(), CARRIES_A, map[], {OpenBatch()} + {"ROLLBACK"});
  }

  // ---------- a retry inside a transaction ----------

  lemma BeginRuns(m: Settings)
    ensures Fold(Txn(m, m), Pieces([BEGIN])) == Txn(m, m) && Pieces([BEGIN]) == [BEGIN]
  {
    hide ActionsForSql, BEGIN, Scanner.Split, Verb, Commits, Undoes, ClassifySet, Fold;
    BeginStagesNothing();
    ActionsOfOne(BEGIN);
    AroundSet();
    VerbsMean(BEGIN);
    OneRuns(Txn(m, m), BEGIN);
  }

  lemma BeginSettles()
    ensures var s, k, q := Idle(map[], {}), FRESH, Simple(BEGIN, true);
            && SettledSession(s, 0, q) == Session(map[], false, true, Some(0), false, {BEGIN})
            && SettledBackend(s, k, q) == Backend(map[], Conn(map[], Some(map[])))
            && Sendable(s, q) && !Blocked(false, q) && ServerRun(k.conn, q) == Conn(map[], Some(map[]))
  {
    hide ActionsForSql, BEGIN, Fold, Pieces;
    BeginStagesNothing();
    ActionsOfOne(BEGIN);
    AllAllowed([BEGIN]);
    PinsAreSeen([BEGIN]);
    CommitNothing(map[]);
    BeginRuns(map[]);
    assert {} + (set t | t in [BEGIN]) == {BEGIN};
  }

  lemma BeginStagesNothing()
    ensures ActionsForSql(BEGIN) == [] && Scanner.Split(BEGIN) == [BEGIN]
  {
    hide ActionsForSql, BEGIN, Scanner.Split;
    BeginIsPlain();
    BeginIsWord();
    WordStagesNothing(BEGIN);
  }

  lemma BeginIsWord()
    ensures BEGIN != [] && (forall i :: 0 <= i < |BEGIN| ==> IsAlnum(BEGIN[i])) && ToUpper(BEGIN) != "SET" && ToUpper(BEGIN) != "RESET"
  {
    assert ToUpper("BEGIN") == "BEGIN";
  }

  function Begun(): World {
    World(map[0 := Session(map[], false, true, Some(0), false, {BEGIN})],
          map[0 := Backend(map[], Conn(map[], Some(map[]))), 1 := FRESH])
  }

  lemma SetInsideSettles()
    ensures var s, k, q := Begun().sessions[0], Begun().backends[0], Simple(SET_A, true);
            && SettledSession(s, 0, q) == Session(map[], true, true, Some(0), false, {BEGIN} + {SET_A})
            && SettledBackend(s, k, q) == Backend(map[], Conn(CARRIES_A, Some(map[])))
            && Sendable(s, q) && !Blocked(false, q) && ServerRun(k.conn, q) == Conn(CARRIES_A, Some(map[]))
  {
    hide Actions, ActionsForSql, BEGIN, SET_A, TRACK_A, Fold, CommitAll, Pieces;
    SetAStages();
    ActionsOfOne(SET_A);
    AllAllowed([SET_A]);
    TrackIsNoPin();
    SetARuns(Txn(map[], map[]));
    CommitNothing(map[]);
    assert {BEGIN} + (set t | t in [SET_A]) == {BEGIN} + {SET_A};
  }

  function HeldRun(): seq<Step> {
    ARRIVAL + [Exchange(0, 0, Simple(BEGIN, true))] + [Exchange(0, 0, Simple(SET_A, true))] + [Lost(0, 0)]
  }

  lemma ReachedBegun()
    ensures Reached(ARRIVAL + [Exchange(0, 0, Simple(BEGIN, true))], Begun(),
                    map[0 := Private(Conn(map[], Some(map[])), false)])
  {
    hide Reached, BEGIN, SettledSession, SettledBackend, Sendable, Blocked, ServerRun, Next, Enabled;
    var w, q := Between(map[], map[], {}), Simple(BEGIN, true);
    ReachedArrival();
    BeginSettles();
    NextOf(w, Idle(map[], {}), FRESH, q);
    Then(ARRIVAL, w, Alone(map[]), Exchange(0, 0, q));
    assert PrivateStep(Alone(map[]), Exchange(0, 0, q)) == map[0 := Private(Conn(map[], Some(map[])), false)];
  }

  /** BEGIN, then `SET a = 1` as exchanges of their own; the backend dies under the next one, and
      it is sent again to another: outside the transaction, and without `a`. */
  lemma RetryForgetsTransaction()
    ensures CanTake(EMPTY, HeldRun()) && CanRun(Run(EMPTY, HeldRun()), 0, 1)
    ensures Borrowed(Run(EMPTY, HeldRun()), 0, 1).1.conn == Conn(map[], None)
    ensures 0 in PrivateRun(map[], HeldRun()) && PrivateRun(map[], HeldRun())[0].conn == Conn(CARRIES_A, Some(map[]))
  {
    hide CanTake, Run, PrivateRun, BEGIN, SET_A, CARRIES_A, SettledSession, SettledBackend, Sendable, Blocked, ServerRun, Checkout,
      AllCarried;
    var w1, q := Begun(), Simple(SET_A, true);
    var s1 := ARRIVAL + [Exchange(0, 0, Simple(BEGIN, true))];
    var p1 := map[0 := Private(Conn(map[], Some(map[])), false)];
    ReachedBegun();
    SetInsideSettles();
    NextOf(w1, w1.sessions[0], w1.backends[0], q);
    Then(s1, w1, p1, Exchange(0, 0, q));
    var w2 := World(map[0 := Session(map[], true, true, Some(0), false, {BEGIN} + {SET_A})],
                    map[0 := Backend(map[], Conn(CARRIES_A, Some(map[]))), 1 := FRESH]);
    var p2 := map[0 := Private(Conn(CARRIES_A, Some(map[])), false)];
    assert PrivateStep(p1, Exchange(0, 0, q)) == p2;
    Then(s1 + [Exchange(0, 0, q)], w2, p2, Lost(0, 0));
    var w3 := Next(w2, Lost(0, 0));
    CheckoutSame(w3.sessions[0], FRESH);
    assert w3.backends[1] == FRESH && Free(w3, 1);
  }

  // ---------- undone inside one exchange ----------

  const GROUPS: seq<string> := [BEGIN] + ([SET_A] + ["ROLLBACK"])

  /** BEGIN, `SET a = 1` and ROLLBACK, each parsed, bound and executed, under one Sync. */
  const UNDONE_INSIDE: Query := Query(GROUPS, GROUPS, false, 0, false, false, None)

  lemma PiecesOf(text: string, rest: seq<string>)
    ensures Pieces([text] + rest) == Scanner.Split(text) + Pieces(rest)
    ensures Actions([text] + rest) == ActionsForSql(text) + Actions(rest)
  {
    hide ActionsForSql, Scanner.Split;
    assert ([text] + rest)[1..] == rest;
  }

  lemma {:induction false} FoldConcat(t: Txn, a: seq<string>, b: seq<string>)
    ensures Fold(t, a + b) == Fold(Fold(t, a), b)
    decreases |a|
  {
    hide RunOne;
    if a == [] {
      assert a + b == b;
    } else {
      assert (a + b)[0] == a[0] && (a + b)[1..] == a[1..] + b;
      FoldConcat(RunOne(t, a[0]), a[1..], b);
    }
  }

  lemma GroupsRun()
    ensures Actions(GROUPS) == [TRACK_A] && Left(map[], UNDONE_INSIDE) == map[]
  {
    hide ActionsForSql, Scanner.Split, BEGIN, SET_A, TRACK_A, Fold, Pieces, Actions;
    BeginStagesNothing();
    SetAStages();
    SetAIsTracked();
    RollbackStagesNothing();
    PiecesOf(BEGIN, [SET_A] + ["ROLLBACK"]);
    PiecesOf(SET_A, ["ROLLBACK"]);
    ActionsOfOne("ROLLBACK");
    var t := Txn(map[], map[]);
    BeginRuns(map[]);
    SetARuns(t);
    ActionsOfOne(SET_A);
    RollbackUndoes(Txn(map["a" := SET_A], map[]));
    FoldConcat(t, [BEGIN], [SET_A] + ["ROLLBACK"]);
    FoldConcat(t, [SET_A], ["ROLLBACK"]);
    assert map[]["a" := SET_A] == map["a" := SET_A];
  }

  /** Undone in another message of the same exchange, the SET is believed all the same, and
      nothing pins: on the next backend the client runs with `a`. */
  lemma UndoneInsideIsBelieved()
    ensures var steps := ARRIVAL + [Exchange(0, 0, UNDONE_INSIDE)];
            && CanTake(EMPTY, steps) && CanRun(Run(EMPTY, steps), 0, 1)
            && Borrowed(Run(EMPTY, steps), 0, 1).1.conn.actual == CARRIES_A
            && 0 in PrivateRun(map[], steps) && PrivateRun(map[], steps)[0].conn.actual == map[]
  {
    hide Reached, CanTake, Run, PrivateRun, SET_A, BEGIN, CARRIES_A, TRACK_A, GROUPS, Actions, Left, Borrowed, CanRun, AllCarried, CommitAll;
    ReachedArrival();
    GroupsRun();
    GroupsAreSome();
    AllAllowed(GROUPS);
    TrackIsNoPin();
    PinsAreSeen(GROUPS);
    CommitA();
    CarriesAIsCarried();
    ExchangeNext(ARRIVAL, map[], map[], {}, UNDONE_INSIDE);
    ElsewhereSees(ARRIVAL + [Exchange(0, 0, UNDONE_INSIDE)], CARRIES_A, map[], {} + set t | t in GROUPS);
  }

  lemma GroupsAreSome()
    ensures GROUPS != []
  {}

  // ---------- set and undone by one message ----------

  /** `ROLLBACK; SET a = 1` */
  function UndoneFirst(): string { Batch(["ROLLBACK", SET_A]) }

  lemma UndoneFirstText()
    ensures UndoneFirst() == "ROLLBACK; SET a = 1"
  {
    hide Batch;
    JoinTwo("ROLLBACK", SET_A);
    assert "ROLLBACK" + "; " + SET_A == "ROLLBACK; SET a = 1";
  }

  lemma RollbackIsPlain()
    ensures var s := "ROLLBACK"; IsPlain(s, "") && s + "" == s && s != [] && forall i :: 0 <= i < |s| ==> Ordinary(s[i])
  {
    assert ToUpper("ROLLBACK") == "ROLLBACK";
  }

  lemma RollbackStands()
    ensures SelfContained("ROLLBACK") && ClassifySet("ROLLBACK").NotASet? && Keyword("ROLLBACK") == "ROLLBACK"
  {
    hide SelfContained, ClassifySet, Keyword, IsPlain, Ordinary;
    RollbackIsPlain();
    OrdinaryStandsAlone("ROLLBACK");
    PlainIsNoSet("ROLLBACK", "");
    KeywordIs("ROLLBACK", "");
  }

  lemma KeywordUndoes(st: string)
    requires Keyword(st) == "ROLLBACK"
    ensures UndoesTheBatch(st)
  {
    hide TakeWord, ToUpper, Scanner.StripNoise;
  }

  lemma UndoneFirstSplits()
    ensures Scanner.Split(UndoneFirst()) == ["ROLLBACK", " " + SET_A]
    ensures Map(ClassifySet, ["ROLLBACK", " " + SET_A]) == [NotASet, TRACK_A]
    ensures UndoesTheBatch("ROLLBACK")
  {
    hide SelfContained, ClassifySet, Keyword, SET_A, TRACK_A, Scanner.Split, Batch, UndoesTheBatch, Verb;
    RollbackStands();
    SetAIsTracked();
    Standing("ROLLBACK");
    Standing(SET_A);
    SplitBatch("ROLLBACK", [SET_A]);
    assert ["ROLLBACK"] + [SET_A] == ["ROLLBACK", SET_A] && ["ROLLBACK"] + Map(Space, [SET_A]) == ["ROLLBACK", " " + SET_A];
    KeywordUndoes("ROLLBACK");
  }

  /** The message is dropped, and no statement of it pins. */
  lemma UndoneFirstIsDropped()
    ensures Dropped(UndoneFirst()) && !SqlPins(UndoneFirst()) && ActionsForSql(UndoneFirst()) == [Pin]
  {
    hide ClassifySet, SET_A, TRACK_A, Scanner.Split, UndoneFirst, UndoesTheBatch, StatementPins, Filter;
    UndoneFirstSplits();
    var pieces := ["ROLLBACK", " " + SET_A];
    OneAction();
    TrackIsNoPin();
    forall st | ClassifySet(st) != Pin ensures !StatementPins(st) { NoPinNoPin(st); }
    assert Map(ClassifySet, pieces)[0] == ClassifySet(pieces[0]) && Map(ClassifySet, pieces)[1] == ClassifySet(pieces[1]);
    assert pieces[0] == "ROLLBACK";
  }

  lemma NoPinNoPin(st: string)
    requires ClassifySet(st) != Pin
    ensures !StatementPins(st)
  {
    hide ClassifySet, Words, ToUpper, Scanner.StripNoise;
    ClassifiedTwice(st);
  }

  lemma UndoneFirstRuns(m: Settings)
    ensures Fold(Txn(m, m), ["ROLLBACK", " " + SET_A]).actual == m["a" := SET_A]
  {
    hide ClassifySet, SET_A, Verb, Commits, Undoes, Scanner.StripNoise, Keyword, SelfContained;
    SetAIsTracked();
    VerbsMean(" " + SET_A);
    RollbackIsUndo();
    FoldTwo(Txn(m, m), "ROLLBACK", " " + SET_A);
  }

  const UNDONE_FIRST: Query := Simple(UndoneFirst(), false)

  lemma UndoneFirstLeaves()
    ensures Actions([UndoneFirst()]) == [Pin] && !AnyPins([UndoneFirst()]) && CommitAll(map[], [Pin]) == map[]
    ensures Left(map[], UNDONE_FIRST) == CARRIES_A
  {
    hide ActionsForSql, Scanner.Split, UndoneFirst, SET_A, SqlPins, Dropped, Fold;
    UndoneFirstSplits();
    UndoneFirstIsDropped();
    ActionsOfOne(UndoneFirst());
    OnePins(UndoneFirst());
    UndoneFirstRuns(map[]);
    assert [Pin][1..] == [];
    CommitNothing(map[]);
    assert CommitAll(map[], [Pin]) == CommitAll(Apply(map[], Pin), []);
    assert map[]["a" := SET_A] == CARRIES_A;
  }

  lemma ReachedUndoneFirst()
    ensures Reached(ARRIVAL + [Exchange(0, 0, UNDONE_FIRST)], Between(map[], CARRIES_A, {} + set t | t in [UndoneFirst()]), Alone(CARRIES_A))
  {
    hide Reached, Actions, Left, CARRIES_A, CommitAll, UndoneFirst, AnyPins;
    ReachedArrival();
    UndoneFirstLeaves();
    AllAllowed([UndoneFirst()]);
    ExchangeNext(ARRIVAL, map[], map[], {}, UNDONE_FIRST);
  }

  /** `ROLLBACK; SET a = 1` outside a transaction: the server keeps `a`, havuz neither believes
      nor pins it. The next client on that backend runs with `a`, and the client itself runs
      without it elsewhere. */
  lemma UndoneFirstLeaks()
    ensures var steps := ARRIVAL + [Exchange(0, 0, UNDONE_FIRST)];
            var more := steps + [Connect(1, map[], false)];
            && CanTake(EMPTY, more) && CanRun(Run(EMPTY, more), 1, 0) && Borrowed(Run(EMPTY, more), 1, 0).1.conn.actual == CARRIES_A
            && 1 in PrivateRun(map[], more) && PrivateRun(map[], more)[1].conn.actual == map[]
            && CanTake(EMPTY, steps) && CanRun(Run(EMPTY, steps), 0, 1) && Borrowed(Run(EMPTY, steps), 0, 1).1.conn.actual == map[]
            && 0 in PrivateRun(map[], steps) && PrivateRun(map[], steps)[0].conn.actual == CARRIES_A
  {
    hide Reached, CanTake, Run, PrivateRun, CARRIES_A, Borrowed, CanRun, AllCarried, UndoneFirst;
    var steps, reached := ARRIVAL + [Exchange(0, 0, UNDONE_FIRST)], {} + set t | t in [UndoneFirst()];
    ReachedUndoneFirst();
    NothingCarried();
    NextClientSees(steps, CARRIES_A, reached);
    ElsewhereSees(steps, map[], CARRIES_A, reached);
  }
}
