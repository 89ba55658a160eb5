/** Any number of clients sharing any number of backends (the relay in txn.rs, flow.rs and
    backend.rs): every statement runs under the parameters its client would have on a
    connection of its own. */
module ParamRuns {
  import opened Text
  import opened Params
  import opened Delta
  import opened Sync
  import opened ClientSettings

  // ---------- the server ----------

  /** Session parameters of one server connection; `saved` is what a ROLLBACK restores,
      present while a transaction block is open. */
  datatype Conn = Conn(actual: Settings, saved: Option<Settings>)

  /** One exchange, up to its sync point, and how the server answered it. `sent` are the texts
      of its Query and Parse messages and `ran` the texts the server executed, so a simple
      query has the same text in both; before an error the server got through the first `done`
      statements. `unread` is what a statement whose parameters havuz cannot read leaves
      behind, and `pins` a reason to pin other than parameters. */
  datatype Query = Query(sent: seq<string>, ran: seq<string>, errored: bool, done: nat, open: bool, pins: bool,
                         unread: Option<Txn>)

  /** The parameters now, and what undoing the transaction would restore. */
  datatype Txn = Txn(actual: Settings, base: Settings)

  function Pieces(texts: seq<string>): seq<string> {
    if texts == [] then [] else Scanner.Split(texts[0]) + Pieces(texts[1..])
  }

  /** The statement as the server begins to read it: past blanks and comments, which nest. */
  function Unnoised(s: string): (r: string)
    ensures |r| <= |s|
    decreases |s|
  {
    var t := TrimStart(s);
    if OpensLine(t) then
      match Scanner.LineEnd(t)
      case None => ""
      case Some(n) => Unnoised(t[n + 1..])
    else if OpensBlock(t) then
      match BlockEnd(t[2..], 1)
      case None => ""
      case Some(n) => Unnoised(t[2 + n..])
    else t
  }

  function LetterRun(s: string): (n: nat)
    ensures n <= |s|
  {
    if s != [] && IsAlpha(s[0]) then 1 + LetterRun(s[1..]) else 0
  }

  /** The first word to the server, and what follows it. */
  function Verb(statement: string): string {
    var t := Unnoised(statement);
    ToUpper(t[..LetterRun(t)])
  }

  function AfterVerb(statement: string): string {
    var t := Unnoised(statement);
    t[LetterRun(t)..]
  }

  /** The statement ends a transaction and keeps what it did. */
  predicate Commits(statement: string) {
    || Verb(statement) == "COMMIT" || Verb(statement) == "END"
    || (Verb(statement) == "PREPARE" && Verb(AfterVerb(statement)) == "TRANSACTION")
  }

  /** The statement undoes what its transaction did. */
  predicate Undoes(statement: string) { Verb(statement) == "ROLLBACK" || Verb(statement) == "ABORT" }

  function RunOne(t: Txn, statement: string): Txn {
    var m := Apply(t.actual, ClassifySet(statement));
    if Undoes(statement) then Txn(t.base, t.base)
    else if Commits(statement) then Txn(m, m)
    else Txn(m, t.base)
  }

  /** Statement by statement, in a transaction that a BEGIN only makes explicit. */
  function Fold(t: Txn, statements: seq<string>): Txn
    decreases |statements|
  {
    if statements == [] then t else Fold(RunOne(t, statements[0]), statements[1..])
  }

  function Done(q: Query): seq<string> {
    var pieces := Pieces(q.ran);
    pieces[..if q.done <= |pieces| then q.done else |pieces|]
  }

  /** An error undoes everything since the last commit. */
  function Executed(t: Txn, q: Query): Txn {
    if q.unread.Some? then q.unread.value
    else if q.errored then var u := Fold(t, Done(q)); Txn(u.base, u.base)
    else Fold(t, Pieces(q.ran))
  }

  function Start(k: Conn): Txn { Txn(k.actual, if k.saved.Some? then k.saved.value else k.actual) }

  function ServerRun(k: Conn, q: Query): Conn {
    var t := Executed(Start(k), q);
    Conn(t.actual, if q.open then Some(t.base) else None)
  }

  /** The texts that are forwarded: a read-only session is refused the ones that would end it. */
  function Allowed(readOnly: bool, texts: seq<string>): seq<string> {
    if texts == [] then []
    else (if readOnly && DefeatsReadOnly(texts[0]) then [] else [texts[0]]) + Allowed(readOnly, texts[1..])
  }

  /** Nothing of the exchange reaches the server. */
  predicate Blocked(readOnly: bool, q: Query) { q.sent != [] && Allowed(readOnly, q.sent) == [] && q.ran == [] }

  // ---------- clients on private connections ----------

  datatype Private = Private(conn: Conn, readOnly: bool)

  function Startup(desired: Settings, readOnly: bool): Settings {
    if readOnly then desired[READ_ONLY_GUC := READ_ONLY_SET] else desired
  }

  function PrivateStep(p: map<nat, Private>, step: Step): map<nat, Private> {
    match step
    case Connect(c, desired, readOnly) => p[c := Private(Conn(Startup(desired, readOnly), None), readOnly)]
    case Open(_) => p
    case Exchange(c, _, q) =>
      if c !in p || Blocked(p[c].readOnly, q) then p
      else p[c := p[c].(conn := ServerRun(p[c].conn, q))]
    case Lost(_, _) => p
    case Leave(c) => p - {c}
  }

  function PrivateRun(p: map<nat, Private>, steps: seq<Step>): map<nat, Private>
    decreases |steps|
  {
    if steps == [] then p else PrivateRun(PrivateStep(p, steps[0]), steps[1..])
  }

  // ---------- clients on shared backends ----------

  /** `reached` are the texts of this client that ever got to a server. */
  datatype Session = Session(desired: Settings, pinned: bool, inTxn: bool, held: Option<nat>, readOnly: bool,
                             reached: set<string>)

  datatype Backend = Backend(applied: Settings, conn: Conn)

  datatype World = World(sessions: map<nat, Session>, backends: map<nat, Backend>)

  datatype Step =
    | Connect(client: nat, desired: Settings, readOnly: bool)
    | Open(backend: nat)
    | Exchange(client: nat, backend: nat, query: Query)
    | Lost(client: nat, backend: nat)
    | Leave(client: nat)

  function Actions(texts: seq<string>): seq<SetAction> {
    if texts == [] then [] else ActionsForSql(texts[0]) + Actions(texts[1..])
  }

  /** What the forwarded messages of the exchange would do to the client's parameters. */
  function Seen(s: Session, q: Query): seq<SetAction> { Actions(Allowed(s.readOnly, q.sent)) }

  /** Some statement of a forwarded message pins by itself. */
  predicate AnyPins(texts: seq<string>) { exists t :: t in texts && SqlPins(t) }

  /** The session may not be multiplexed after this exchange. */
  predicate MustPin(s: Session, q: Query) {
    s.pinned || q.pins || AnyPins(Allowed(s.readOnly, q.sent)) || (s.inTxn && Seen(s, q) != [])
  }

  /** `sync_params`: the delta is executed as one batch and recorded as applied. */
  function Checkout(s: Session, k: Backend): Backend {
    Backend(s.desired, k.conn.(actual := RunSql(k.conn.actual, Batch(DeltaOf(s.desired, k.applied)))))
  }

  predicate NotAPin(a: SetAction) { !a.Pin? }

  /** What the exchange stages, and what `settle_params` then believes. */
  function Staged(s: Session, q: Query): seq<SetAction> { if s.inTxn then [] else Filter(NotAPin, Seen(s, q)) }

  function SettledSession(s: Session, b: nat, q: Query): Session {
    var desired := if q.errored then s.desired else CommitAll(s.desired, Staged(s, q));
    var pinned := MustPin(s, q);
    Session(desired, pinned, q.open, if pinned || q.open then Some(b) else None, s.readOnly,
            s.reached + set t | t in Allowed(s.readOnly, q.sent))
  }

  function SettledBackend(s: Session, k: Backend, q: Query): Backend {
    Backend(if q.errored || Staged(s, q) == [] then k.applied else CommitAll(s.desired, Staged(s, q)),
            ServerRun(k.conn, q))
  }

  /** The backend the client's statement runs on: the one it holds, or one it checks out. */
  function Borrowed(w: World, c: nat, b: nat): (nat, Backend)
    requires CanRun(w, c, b)
  {
    var s := w.sessions[c];
    if s.held.Some? then (s.held.value, w.backends[s.held.value])
    else (b, Checkout(s, w.backends[b]))
  }

  predicate Free(w: World, b: nat) {
    b in w.backends && forall c :: c in w.sessions ==> w.sessions[c].held != Some(b)
  }

  /** The client is connected, and holds a backend or finds this one free. */
  predicate CanRun(w: World, c: nat, b: nat) {
    && c in w.sessions
    && (w.sessions[c].held.None? ==> Free(w, b))
    && (w.sessions[c].held.Some? ==> w.sessions[c].held.value in w.backends)
  }

  /** A server runs only texts that reached it. */
  predicate Sendable(s: Session, q: Query) {
    forall t :: t in q.ran ==> t in s.reached || t in Allowed(s.readOnly, q.sent)
  }

  predicate Enabled(w: World, step: Step) {
    match step
    case Connect(c, desired, _) => c !in w.sessions && AllCarried(desired)
    case Open(b) => b !in w.backends
    case Exchange(c, b, q) => CanRun(w, c, b) && Sendable(w.sessions[c], q)
    case Lost(c, b) => CanRun(w, c, b) && (w.sessions[c].held.Some? ==> w.sessions[c].held == Some(b))
    case Leave(c) => c in w.sessions
  }

  function Next(w: World, step: Step): World
    requires Enabled(w, step)
  {
    match step
    case Connect(c, desired, readOnly) =>
      w.(sessions := w.sessions[c := Session(Startup(desired, readOnly), false, false, None, readOnly, {})])
    case Open(b) => w.(backends := w.backends[b := Backend(map[], Conn(map[], None))])
    case Exchange(c, b, q) =>
      if Blocked(w.sessions[c].readOnly, q) then w
      else
        var (h, k) := Borrowed(w, c, b);
        World(w.sessions[c := SettledSession(w.sessions[c], h, q)],
              w.backends[h := SettledBackend(w.sessions[c], k, q)])
    case Lost(c, b) =>
      // The backend dies before it answers; the exchange is sent again elsewhere.
      World(w.sessions[c := w.sessions[c].(held := None)], w.backends - {b})
    case Leave(c) =>
      var s := w.sessions[c];
      World(w.sessions - {c},
            if s.held.Some? && s.held.value in w.backends && (s.pinned || s.inTxn)
            then w.backends[s.held.value := Backend(map[], Conn(map[], None))]
            else w.backends)
  }

  /** Every SET of the exchange is kept as text that stands on its own, under a name that can
      be written into a RESET. */
  predicate Portables(actions: seq<SetAction>) {
    forall a :: a in actions && a.Track? ==> StandsAlone(a.name, a.statement)
  }

  /** An exchange that does not pin, as the relay relies on it: everything it would carry can
      be replayed; what was staged is what ran; if it sets anything, no transaction is left open
      behind it and no statement of any of its messages undoes one; and an exchange that commits
      by itself and fails has no SET in it. */
  predicate Reliable(s: Session, q: Query) {
    && q.unread.None?
    && Portables(Seen(s, q))
    && (!q.errored ==>
          && Actions(q.ran) == Seen(s, q)
          && (Seen(s, q) != [] ==>
                && !q.open
                && (forall t :: t in q.ran ==> !Dropped(t))
                && (forall st :: st in Pieces(q.ran) ==> !Undoes(st))))
    && (q.errored ==> Actions(q.ran) == [] || forall st :: st in Pieces(q.ran) ==> !Commits(st))
  }

  /** And a backend that dies takes nothing with it but what the client carries anyway. */
  predicate Honest(w: World, step: Step)
    requires Enabled(w, step)
  {
    && (step.Exchange? && !Blocked(w.sessions[step.client].readOnly, step.query)
          && !MustPin(w.sessions[step.client], step.query) ==>
          Reliable(w.sessions[step.client], step.query))
    && (step.Lost? ==> w.sessions[step.client].held.None?)
  }

  /** A sequence of steps that can be taken, and one in which every exchange is honest. */
  predicate CanTake(w: World, steps: seq<Step>)
    decreases |steps|
  {
    steps == [] || (Enabled(w, steps[0]) && CanTake(Next(w, steps[0]), steps[1..]))
  }

  function Run(w: World, steps: seq<Step>): World
    requires CanTake(w, steps)
    decreases |steps|
  {
    if steps == [] then w else Run(Next(w, steps[0]), steps[1..])
  }

  predicate IsRun(w: World, steps: seq<Step>)
    decreases |steps|
  {
    steps == [] || (Enabled(w, steps[0]) && Honest(w, steps[0]) && IsRun(Next(w, steps[0]), steps[1..]))
  }

  // ---------- one exchange ----------

  predicate ReadOnlyKept(s: Session) {
    s.readOnly ==> READ_ONLY_GUC in s.desired && s.desired[READ_ONLY_GUC] == READ_ONLY_SET
  }

  /** A session and the backend it holds, against the same client's private connection. */
  predicate InStep(s: Session, k: Backend, own: Conn) {
    && k.conn == own
    && (own.saved.Some? <==> s.inTxn)
    && ReadOnlyKept(s)
    && (!s.pinned ==>
          && AllCarried(s.desired)
          && own.actual == s.desired == k.applied
          && (own.saved.Some? ==> own.saved.value == s.desired))
  }

  predicate Clean(k: Backend) {
    k.applied == k.conn.actual && k.conn.saved.None? && forall n :: n in k.applied ==> Portable(n)
  }

  lemma {:induction false} CommitKeepsCarried(m: Settings, actions: seq<SetAction>)
    requires AllCarried(m) && forall a :: a in actions && a.Track? ==> Carried(a.name, a.statement)
    ensures AllCarried(CommitAll(m, actions))
    decreases |actions|
  {
    hide Carried;
    if actions != [] {
      assert actions[0] in actions;
      CommitKeepsCarried(Apply(m, actions[0]), actions[1..]);
    }
  }

  lemma ActionsAreCarried(sql: string)
    requires Portables(ActionsForSql(sql))
    ensures forall a :: a in ActionsForSql(sql) && a.Track? ==> Carried(a.name, a.statement)
  {
    hide ClassifySet, Scanner.Split, UndoesTheBatch, Carried, StandsAlone;
    var statements := Scanner.Split(sql);
    var classified := Map(ClassifySet, statements);
    forall a | a in ActionsForSql(sql) && a.Track? ensures Carried(a.name, a.statement) {
      assert a in classified;
      var i :| 0 <= i < |classified| && a == classified[i];
      TrackedIsCarried(statements[i], a.name, a.statement);
    }
  }

  lemma {:induction false} AllActionsAreCarried(texts: seq<string>)
    requires Portables(Actions(texts))
    ensures forall a :: a in Actions(texts) && a.Track? ==> Carried(a.name, a.statement)
  {
    hide ActionsForSql, Carried, StandsAlone;
    if texts != [] {
      assert forall a :: a in ActionsForSql(texts[0]) ==> a in Actions(texts);
      assert forall a :: a in Actions(texts[1..]) ==> a in Actions(texts);
      ActionsAreCarried(texts[0]);
      AllActionsAreCarried(texts[1..]);
    }
  }

  lemma {:induction false} CommitConcat(m: Settings, a: seq<SetAction>, b: seq<SetAction>)
    ensures CommitAll(m, a + b) == CommitAll(CommitAll(m, a), b)
    decreases |a|
  {
    hide Apply;
    if a == [] {
      assert a + b == b;
    } else {
      assert (a + b)[0] == a[0] && (a + b)[1..] == a[1..] + b;
      CommitConcat(Apply(m, a[0]), a[1..], b);
    }
  }

  predicate Heeded(sql: string) { !Dropped(sql) }

  /** Believing what texts stage is running them one after the other, as havuz reads them, but
      for those that both set and undo. */
  lemma {:induction false} CommitTexts(m: Settings, texts: seq<string>)
    ensures CommitAll(m, Actions(texts)) == RunAll(m, Pieces(Filter(Heeded, texts)))
    decreases |texts|
  {
    hide ActionsForSql, Scanner.Split, ClassifySet, Dropped;
    if texts != [] {
      var head, rest := ActionsForSql(texts[0]), Actions(texts[1..]);
      var kept := Filter(Heeded, texts[1..]);
      CommitMatchesServer(m, texts[0]);
      CommitConcat(m, head, rest);
      if Heeded(texts[0]) {
        assert ([texts[0]] + kept)[1..] == kept;
        RunConcat(m, Scanner.Split(texts[0]), Pieces(kept));
      }
      CommitTexts(CommitAll(m, head), texts[1..]);
    }
  }

  /** A pin among the actions changes nothing that is believed. */
  lemma {:induction false} CommitSkipsPins(m: Settings, actions: seq<SetAction>)
    ensures CommitAll(m, Filter(NotAPin, actions)) == CommitAll(m, actions)
    decreases |actions|
  {
    if actions != [] {
      var rest := Filter(NotAPin, actions[1..]);
      CommitSkipsPins(Apply(m, actions[0]), actions[1..]);
      if NotAPin(actions[0]) {
        assert ([actions[0]] + rest)[1..] == rest;
      }
    }
  }

  /** What pins is seen. */
  lemma {:induction false} PinsAreSeen(texts: seq<string>)
    ensures Pin !in Actions(texts) ==> !AnyPins(texts)
  {
    hide ActionsForSql, SqlPins;
    if texts != [] {
      PinsAreActions(texts[0]);
      PinsAreSeen(texts[1..]);
      assert forall t :: t in texts ==> t == texts[0] || t in texts[1..];
    }
  }

  /** Texts that stage nothing set nothing, however far they got. */
  lemma {:induction false} InertPieces(texts: seq<string>)
    requires Actions(texts) == []
    ensures forall st :: st in Pieces(texts) ==> ClassifySet(st).NotASet?
  {
    hide ClassifySet, Scanner.Split, UndoesTheBatch;
    if texts != [] {
      assert ActionsForSql(texts[0]) == [] && Actions(texts[1..]) == [];
      InertPieces(texts[1..]);
      var statements := Scanner.Split(texts[0]);
      var classified := Map(ClassifySet, statements);
      assert Filter(IsAction, classified) == [];
      forall st | st in statements ensures ClassifySet(st).NotASet? {
        var i :| 0 <= i < |statements| && statements[i] == st;
        assert classified[i] in classified && classified[i] !in Filter(IsAction, classified);
      }
    }
  }

  lemma {:induction false} FilterAll<A(!new)>(p: A -> bool, s: seq<A>)
    requires forall x :: x in s ==> p(x)
    ensures Filter(p, s) == s
  {
    if s != [] {
      assert s[0] in s;
      FilterAll(p, s[1..]);
    }
  }

  /** An exchange of which every text is refused changes nothing at all, and no other is held back. */
  lemma RefusedIff(w: World, c: nat, b: nat, q: Query)
    requires Enabled(w, Exchange(c, b, q)) && q.ran == []
    ensures var refused := q.sent != [] && w.sessions[c].readOnly && forall t :: t in q.sent ==> DefeatsReadOnly(t);
            && (Blocked(w.sessions[c].readOnly, q) <==> refused)
            && (refused ==> Next(w, Exchange(c, b, q)) == w)
  {
    hide DefeatsReadOnly, SettledSession, SettledBackend, Borrowed;
    NoneAllowedIff(w.sessions[c].readOnly, q.sent);
  }

  lemma {:induction false} NoneAllowedIff(readOnly: bool, texts: seq<string>)
    ensures Allowed(readOnly, texts) == [] <==> texts == [] || (readOnly && forall t :: t in texts ==> DefeatsReadOnly(t))
  {
    hide DefeatsReadOnly;
    if texts != [] {
      NoneAllowedIff(readOnly, texts[1..]);
      assert texts[0] in texts && forall t :: t in texts <==> t == texts[0] || t in texts[1..];
    }
  }

  lemma {:induction false} AllowedAreAllowed(readOnly: bool, texts: seq<string>)
    ensures forall t :: t in Allowed(readOnly, texts) ==> t in texts && (readOnly ==> !DefeatsReadOnly(t))
  {
    hide DefeatsReadOnly;
    if texts != [] { AllowedAreAllowed(readOnly, texts[1..]); }
  }

  lemma {:induction false} AllActionsKeepReadOnly(texts: seq<string>)
    requires forall t :: t in texts ==> !DefeatsReadOnly(t)
    ensures forall a :: a in Actions(texts) ==> KeepsReadOnly(a)
  {
    hide DefeatsReadOnly, ActionsForSql, KeepsReadOnly;
    if texts != [] {
      assert texts[0] in texts;
      ActionsKeepReadOnly(texts[0]);
      AllActionsKeepReadOnly(texts[1..]);
    }
  }

  lemma SettleKeepsReadOnly(s: Session, b: nat, q: Query)
    requires ReadOnlyKept(s)
    ensures ReadOnlyKept(SettledSession(s, b, q))
  {
    hide DefeatsReadOnly, ActionsForSql, READ_ONLY_GUC, READ_ONLY_SET, KeepsReadOnly, Allowed, Actions;
    if s.readOnly && !q.errored && !s.inTxn {
      AllowedAreAllowed(s.readOnly, q.sent);
      AllActionsKeepReadOnly(Allowed(s.readOnly, q.sent));
      CommitKeepsReadOnly(s.desired, Staged(s, q));
    }
  }

  /** Without a statement that undoes, the fold is havuz's own reading. */
  lemma {:induction false} FoldForward(t: Txn, statements: seq<string>)
    requires forall st :: st in statements ==> !Undoes(st)
    ensures Fold(t, statements).actual == RunAll(t.actual, statements)
    decreases |statements|
  {
    hide ClassifySet, Undoes, Commits, Apply;
    if statements != [] {
      assert statements[0] in statements;
      FoldForward(RunOne(t, statements[0]), statements[1..]);
    }
  }

  /** Without a commit there is still the same to go back to. */
  lemma {:induction false} FoldBase(t: Txn, statements: seq<string>)
    requires forall st :: st in statements ==> !Commits(st)
    ensures Fold(t, statements).base == t.base
    decreases |statements|
  {
    hide ClassifySet, Undoes, Commits, Apply;
    if statements != [] {
      assert statements[0] in statements;
      FoldBase(RunOne(t, statements[0]), statements[1..]);
    }
  }

  /** Statements that set nothing change nothing, whatever they commit or undo. */
  lemma {:induction false} FoldInert(m: Settings, statements: seq<string>)
    requires forall st :: st in statements ==> ClassifySet(st).NotASet?
    ensures Fold(Txn(m, m), statements) == Txn(m, m)
    decreases |statements|
  {
    hide ClassifySet, Undoes, Commits;
    if statements != [] {
      assert statements[0] in statements;
      FoldInert(m, statements[1..]);
    }
  }

  /** An exchange that is reliable does to the server what the client is believed to carry
      afterwards. */
  lemma ReliableSettles(s: Session, q: Query)
    requires !MustPin(s, q) && Reliable(s, q) && AllCarried(s.desired)
    ensures var after := if q.errored then s.desired else CommitAll(s.desired, Staged(s, q));
            && Executed(Txn(s.desired, s.desired), q).actual == after && AllCarried(after)
            && (q.errored || Seen(s, q) == [] ==>
                  after == s.desired && Executed(Txn(s.desired, s.desired), q).base == s.desired)
  {
    hide AllCarried, ActionsForSql, Portables, Commits, Undoes, RunAll, Actions, Allowed, Fold, Filter, Dropped, SqlPins;
    var t := Txn(s.desired, s.desired);
    CommitSkipsPins(s.desired, Seen(s, q));
    if Actions(q.ran) == [] { InertPieces(q.ran); }
    if q.errored {
      assert forall st :: st in Done(q) ==> st in Pieces(q.ran);
      if Actions(q.ran) == [] { FoldInert(s.desired, Done(q)); } else { FoldBase(t, Done(q)); }
    } else if Seen(s, q) == [] {
      FoldInert(s.desired, Pieces(q.ran));
      CommitNothing(s.desired);
    } else {
      FoldForward(t, Pieces(q.ran));
      FilterAll(Heeded, q.ran);
      CommitTexts(s.desired, q.ran);
      AllActionsAreCarried(Allowed(s.readOnly, q.sent));
      CommitKeepsCarried(s.desired, Seen(s, q));
    }
  }

  lemma CommitNothing(m: Settings)
    ensures CommitAll(m, []) == m
  {}

  /** An exchange on the held backend leaves it where the private connection would be, and
      what the client carries equal to both unless the session is pinned. */
  lemma ExchangeKeeps(s: Session, k: Backend, b: nat, q: Query)
    requires InStep(s, k, k.conn)
    requires !MustPin(s, q) ==> Reliable(s, q)
    ensures InStep(SettledSession(s, b, q), SettledBackend(s, k, q), ServerRun(k.conn, q))
  {
    hide AllCarried, Actions, Allowed, ReadOnlyKept, Portables, Executed, Filter, Undoes, Commits;
    SettleKeepsReadOnly(s, b, q);
    if !MustPin(s, q) {
      ReliableSettles(s, q);
      CommitNothing(s.desired);
    }
  }

  /** Checking out a clean backend puts it in step, whoever used it before. */
  lemma CheckoutInStep(s: Session, k: Backend)
    requires Clean(k) && AllCarried(s.desired) && !s.inTxn && ReadOnlyKept(s)
    ensures InStep(s, Checkout(s, k), Conn(s.desired, None))
  {
    hide AllCarried, RunSql, DeltaOf, Batch, ReadOnlyKept;
    CarriedReadsBack(s.desired, k.applied);
  }

  // ---------- whole runs ----------

  predicate SessionOk(w: World, p: map<nat, Private>, c: nat)
    requires c in w.sessions && c in p
  {
    var s := w.sessions[c];
    && p[c].readOnly == s.readOnly
    && match s.held
       case Some(h) => h in w.backends && InStep(s, w.backends[h], p[c].conn)
       case None =>
         !s.pinned && !s.inTxn && AllCarried(s.desired) && ReadOnlyKept(s) && p[c].conn == Conn(s.desired, None)
  }

  ghost predicate SessionsOk(w: World, p: map<nat, Private>) {
    w.sessions.Keys == p.Keys && forall c :: c in w.sessions ==> SessionOk(w, p, c)
  }

  ghost predicate OneHolder(w: World) {
    forall c, d :: c in w.sessions && d in w.sessions && c != d && w.sessions[c].held.Some? ==>
      w.sessions[c].held != w.sessions[d].held
  }

  ghost predicate FreeAreClean(w: World) { forall b :: Free(w, b) ==> Clean(w.backends[b]) }

  ghost predicate Inv(w: World, p: map<nat, Private>) { SessionsOk(w, p) && OneHolder(w) && FreeAreClean(w) }

  // ---------- the read-only setting ----------

  lemma ReadOnlyName()
    ensures IsParameterName(READ_ONLY_GUC) && ToLower(READ_ONLY_GUC) == READ_ONLY_GUC && '$' !in READ_ONLY_GUC
    ensures !IsResetWord(READ_ONLY_GUC) && !IsSetWord(READ_ONLY_GUC)
  {
    assert LowerWord("default_") && LowerWord("transaction_") && LowerWord("read_only");
    assert |READ_ONLY_GUC| == 29;
    hide READ_ONLY_GUC;
    LowerWordIsName(READ_ONLY_GUC);
  }

  /** The carried read-only setting is itself one that can be replayed. */
  lemma ReadOnlyIsCarried()
    ensures Carried(READ_ONLY_GUC, READ_ONLY_SET)
  {
    assert SeedText(READ_ONLY_GUC, "on") == READ_ONLY_SET by {
      hide READ_ONLY_GUC;
      assert Quoted("on") == "'on'";
    }
    hide Carried, IsResetWord, IsSetWord, READ_ONLY_GUC, READ_ONLY_SET, SeedText;
    ReadOnlyName();
    SeedIsCarried(READ_ONLY_GUC, "on");
  }

  lemma StartupIsCarried(desired: Settings, readOnly: bool)
    requires AllCarried(desired)
    ensures AllCarried(Startup(desired, readOnly))
  {
    hide Carried, READ_ONLY_GUC, READ_ONLY_SET;
    ReadOnlyIsCarried();
  }

  lemma StillFree(w: World, w': World, b: nat, c: nat)
    requires Free(w', b) && b in w.backends
    requires forall d :: d in w.sessions && d != c ==> d in w'.sessions && w'.sessions[d] == w.sessions[d]
    requires c in w.sessions ==> w.sessions[c].held != Some(b)
    ensures Free(w, b)
  {
    forall d | d in w.sessions ensures w.sessions[d].held != Some(b) {
      if d != c { assert w'.sessions[d] == w.sessions[d]; }
    }
  }

  lemma ConnectKeeps(w: World, p: map<nat, Private>, step: Step)
    requires Inv(w, p) && step.Connect? && Enabled(w, step)
    ensures Inv(Next(w, step), PrivateStep(p, step))
  {
    hide AllCarried, InStep, Clean, READ_ONLY_GUC, READ_ONLY_SET, SessionOk, Startup;
    var w', p' := Next(w, step), PrivateStep(p, step);
    forall c | c in w'.sessions ensures SessionOk(w', p', c) {
      if c == step.client { NewSessionOk(w', p', step); } else { SessionStays(w, p, w', p', c); }
    }
    forall b | Free(w', b) ensures Clean(w'.backends[b]) {
      StillFree(w, w', b, step.client);
    }
  }

  lemma NewSessionOk(w: World, p: map<nat, Private>, step: Step)
    requires step.Connect? && AllCarried(step.desired) && step.client in w.sessions && step.client in p
    requires var started := Startup(step.desired, step.readOnly);
             && w.sessions[step.client] == Session(started, false, false, None, step.readOnly, {})
             && p[step.client] == Private(Conn(started, None), step.readOnly)
    ensures SessionOk(w, p, step.client)
  {
    hide AllCarried, InStep, READ_ONLY_GUC, READ_ONLY_SET;
    StartupIsCarried(step.desired, step.readOnly);
  }

  /** A session that keeps its backend and its private connection stays as it was. */
  lemma SessionStays(w: World, p: map<nat, Private>, w': World, p': map<nat, Private>, c: nat)
    requires c in w.sessions && c in p && SessionOk(w, p, c)
    requires c in w'.sessions && w'.sessions[c] == w.sessions[c] && c in p' && p'[c] == p[c]
    requires w.sessions[c].held.Some? && w.sessions[c].held.value in w.backends ==>
               w.sessions[c].held.value in w'.backends && w'.backends[w.sessions[c].held.value] == w.backends[w.sessions[c].held.value]
    ensures SessionOk(w', p', c)
  {
    hide AllCarried, InStep, ReadOnlyKept;
  }

  lemma OpenKeeps(w: World, p: map<nat, Private>, step: Step)
    requires Inv(w, p) && step.Open? && Enabled(w, step)
    ensures Inv(Next(w, step), PrivateStep(p, step))
  {
    hide SessionOk, AllCarried;
    var w' := Next(w, step);
    forall c | c in w'.sessions ensures SessionOk(w', p, c) { SessionStays(w, p, w', p, c); }
    forall b | Free(w', b) ensures Clean(w'.backends[b]) {
      if b != step.backend { assert Free(w, b); }
    }
  }

  lemma LeaveKeeps(w: World, p: map<nat, Private>, step: Step)
    requires Inv(w, p) && step.Leave? && Enabled(w, step)
    ensures Inv(Next(w, step), PrivateStep(p, step))
  {
    hide SessionOk, AllCarried, Clean;
    var w', p' := Next(w, step), PrivateStep(p, step);
    var s := w.sessions[step.client];
    assert SessionOk(w, p, step.client);
    forall c | c in w'.sessions ensures SessionOk(w', p', c) {
      assert SessionOk(w, p, c);
      SessionStays(w, p, w', p', c);
    }
    forall b | Free(w', b) ensures Clean(w'.backends[b]) {
      if s.held == Some(b) {
        LeftIsClean(w, p, step.client);
      } else {
        StillFree(w, w', b, step.client);
      }
    }
  }

  /** A backend given back is as recorded, or is reset. */
  lemma LeftIsClean(w: World, p: map<nat, Private>, c: nat)
    requires c in w.sessions && c in p && SessionOk(w, p, c) && w.sessions[c].held.Some?
    ensures var s := w.sessions[c];
            s.held.value in w.backends &&
            Clean(if s.pinned || s.inTxn then Backend(map[], Conn(map[], None)) else w.backends[s.held.value])
  {
    hide AllCarried, ReadOnlyKept, Portable;
    var s := w.sessions[c];
    if !s.pinned && !s.inTxn { CarriedArePortable(s.desired); }
  }

  lemma CarriedArePortable(m: Settings)
    requires AllCarried(m)
    ensures forall n :: n in m ==> Portable(n)
  {
    hide Portable, SelfContained, ClassifySet;
    forall n | n in m ensures Portable(n) { assert Carried(n, m[n]); }
  }

  /** The statement of an exchange runs on a connection in step with the private one. */
  lemma BorrowedInStep(w: World, p: map<nat, Private>, c: nat, b: nat)
    requires Inv(w, p) && CanRun(w, c, b)
    ensures InStep(w.sessions[c], Borrowed(w, c, b).1, p[c].conn)
  {
    hide AllCarried, ReadOnlyKept, Clean, InStep, Checkout;
    assert SessionOk(w, p, c);
    var s := w.sessions[c];
    if s.held.None? {
      CheckoutInStep(s, w.backends[b]);
    }
  }

  lemma ExchangeStepKeeps(w: World, p: map<nat, Private>, step: Step)
    requires Inv(w, p) && step.Exchange? && Enabled(w, step) && Honest(w, step)
    ensures Inv(Next(w, step), PrivateStep(p, step))
  {
    hide AllCarried, ReadOnlyKept, DefeatsReadOnly, ActionsForSql, MustPin, ServerRun, Checkout, Carried, Portables,
      Reliable, Allowed, Blocked;
    var Exchange(c, b, q) := step;
    var s := w.sessions[c];
    assert SessionOk(w, p, c);
    if !Blocked(s.readOnly, q) {
      var (h, k) := Borrowed(w, c, b);
      BorrowedInStep(w, p, c, b);
      ExchangeKeeps(s, k, h, q);
      var s', k' := SettledSession(s, h, q), SettledBackend(s, k, q);
      ExchangeIntoWorld(w, p, c, h, s', k', ServerRun(p[c].conn, q));
    }
  }

  /** Replacing one session and the backend it used keeps the invariant. */
  lemma ExchangeIntoWorld(w: World, p: map<nat, Private>, c: nat, h: nat, s': Session, k': Backend, own: Conn)
    requires Inv(w, p) && c in w.sessions
    requires w.sessions[c].held == Some(h) || (w.sessions[c].held.None? && Free(w, h))
    requires InStep(s', k', own) && s'.readOnly == p[c].readOnly
    requires s'.held == (if s'.pinned || s'.inTxn then Some(h) else None)
    ensures Inv(World(w.sessions[c := s'], w.backends[h := k']), p[c := p[c].(conn := own)])
  {
    hide SessionOk, Clean, InStep;
    var w', p' := World(w.sessions[c := s'], w.backends[h := k']), p[c := p[c].(conn := own)];
    assert forall d :: d in w.sessions && d != c ==> w.sessions[d].held != Some(h);
    forall d | d in w'.sessions ensures SessionOk(w', p', d) {
      if d == c { SettledOk(w', p', c, h, own); } else { assert SessionOk(w, p, d); SessionStays(w, p, w', p', d); }
    }
    forall b | Free(w', b) ensures Clean(w'.backends[b]) {
      if b == h {
        assert w'.sessions[c].held != Some(h);
        ReleasedIsClean(s', k', own);
      } else {
        StillFree(w, w', b, c);
      }
    }
  }

  lemma SettledOk(w: World, p: map<nat, Private>, c: nat, h: nat, own: Conn)
    requires c in w.sessions && c in p && h in w.backends && p[c].conn == own
    requires var s := w.sessions[c];
             && InStep(s, w.backends[h], own) && s.readOnly == p[c].readOnly
             && s.held == (if s.pinned || s.inTxn then Some(h) else None)
    ensures SessionOk(w, p, c)
  {
    hide AllCarried, ReadOnlyKept;
  }

  lemma ReleasedIsClean(s: Session, k: Backend, own: Conn)
    requires InStep(s, k, own) && !s.pinned && !s.inTxn
    ensures Clean(k)
  {
    hide AllCarried, ReadOnlyKept, Portable;
    CarriedArePortable(s.desired);
  }

  lemma LostKeeps(w: World, p: map<nat, Private>, step: Step)
    requires Inv(w, p) && step.Lost? && Enabled(w, step) && Honest(w, step)
    ensures Inv(Next(w, step), PrivateStep(p, step))
  {
    hide SessionOk, Clean;
    var w' := Next(w, step);
    assert w'.sessions == w.sessions;
    forall c | c in w'.sessions ensures SessionOk(w', p, c) {
      assert SessionOk(w, p, c);
      SessionStays(w, p, w', p, c);
    }
    forall b | Free(w', b) ensures Clean(w'.backends[b]) { assert Free(w, b); }
  }

  /** A retry while the client holds a transaction or a pin lands on a backend that has only
      what the client carries: in step exactly when there was nothing else. */
  lemma RetriedWhileHeldIff(s: Session, k: Backend, own: Conn)
    requires Clean(k) && AllCarried(s.desired)
    ensures Checkout(s, k).conn == own <==> own == Conn(s.desired, None)
  {
    hide AllCarried, RunSql, DeltaOf, Batch;
    CarriedReadsBack(s.desired, k.applied);
  }

  lemma {:induction false} RunKeeps(w: World, p: map<nat, Private>, steps: seq<Step>)
    requires Inv(w, p) && IsRun(w, steps)
    ensures CanTake(w, steps) && Inv(Run(w, steps), PrivateRun(p, steps))
    decreases |steps|
  {
    hide Inv, Enabled, Honest, Next, PrivateStep;
    if steps != [] {
      match steps[0] {
        case Connect(_, _, _) => ConnectKeeps(w, p, steps[0]);
        case Open(_) => OpenKeeps(w, p, steps[0]);
        case Exchange(_, _, _) => ExchangeStepKeeps(w, p, steps[0]);
        case Lost(_, _) => LostKeeps(w, p, steps[0]);
        case Leave(_) => LeaveKeeps(w, p, steps[0]);
      }
      RunKeeps(Next(w, steps[0]), PrivateStep(p, steps[0]), steps[1..]);
    }
  }

  const EMPTY := World(map[], map[])

  lemma EmptyInv()
    ensures Inv(EMPTY, map[])
  {}

  /** After any run, and wherever the client is sent next, its statement runs under exactly
      the parameters it would have on a private connection. */
  lemma StatementsSeePrivateSettings(steps: seq<Step>, c: nat, b: nat)
    requires IsRun(EMPTY, steps)
    ensures CanTake(EMPTY, steps)
    ensures CanRun(Run(EMPTY, steps), c, b) ==>
              && c in PrivateRun(map[], steps)
              && Borrowed(Run(EMPTY, steps), c, b).1.conn == PrivateRun(map[], steps)[c].conn
  {
    hide IsRun, Run, CanTake, PrivateRun, Inv, Borrowed, AllCarried, ReadOnlyKept;
    EmptyInv();
    RunKeeps(EMPTY, map[], steps);
    if CanRun(Run(EMPTY, steps), c, b) {
      IsClient(Run(EMPTY, steps), PrivateRun(map[], steps), c);
      BorrowedInStep(Run(EMPTY, steps), PrivateRun(map[], steps), c, b);
    }
  }

  lemma IsClient(w: World, p: map<nat, Private>, c: nat)
    requires Inv(w, p) && c in w.sessions
    ensures c in p && p[c].readOnly == w.sessions[c].readOnly
  {
    hide InStep, AllCarried, ReadOnlyKept, Clean;
    assert SessionOk(w, p, c);
  }

  // ---------- read-only sessions, pinned or not ----------

  predicate IsReadOnly(m: Settings) { READ_ONLY_GUC in m && m[READ_ONLY_GUC] == READ_ONLY_SET }

  predicate TxnIsReadOnly(t: Txn) { IsReadOnly(t.actual) && IsReadOnly(t.base) }

  /** In an exchange of a read-only session, what havuz cannot read leaves the setting on. */
  predicate UnreadKeeps(w: World, step: Step)
    requires Enabled(w, step)
  {
    step.Exchange? && w.sessions[step.client].readOnly && step.query.unread.Some? ==> TxnIsReadOnly(step.query.unread.value)
  }

  predicate AllUnreadKeep(w: World, steps: seq<Step>)
    requires CanTake(w, steps)
    decreases |steps|
  {
    steps == [] || (UnreadKeeps(w, steps[0]) && AllUnreadKeep(Next(w, steps[0]), steps[1..]))
  }

  predicate SessionIsReadOnly(s: Session, own: Conn) {
    s.readOnly ==>
      && IsReadOnly(own.actual) && (own.saved.Some? ==> IsReadOnly(own.saved.value))
      && forall t :: t in s.reached ==> !DefeatsReadOnly(t)
  }

  ghost predicate AllReadOnly(w: World, p: map<nat, Private>) {
    && w.sessions.Keys == p.Keys
    && forall c :: c in w.sessions ==> p[c].readOnly == w.sessions[c].readOnly && SessionIsReadOnly(w.sessions[c], p[c].conn)
  }

  lemma PieceKeepsReadOnly(text: string, st: string)
    requires !DefeatsReadOnly(text) && st in Scanner.Split(text)
    ensures KeepsReadOnly(ClassifySet(st))
  {
    hide Scanner.Split, StatementDefeatsReadOnly, KeepsReadOnly, ClassifySet;
    UndefeatedKeepsReadOnly(st);
  }

  lemma {:induction false} PiecesKeepReadOnly(texts: seq<string>)
    requires forall t :: t in texts ==> !DefeatsReadOnly(t)
    ensures forall st :: st in Pieces(texts) ==> KeepsReadOnly(ClassifySet(st))
  {
    hide DefeatsReadOnly, KeepsReadOnly, ClassifySet, Scanner.Split;
    if texts != [] {
      assert texts[0] in texts;
      forall st | st in Scanner.Split(texts[0]) ensures KeepsReadOnly(ClassifySet(st)) { PieceKeepsReadOnly(texts[0], st); }
      PiecesKeepReadOnly(texts[1..]);
    }
  }

  lemma {:induction false} FoldKeepsReadOnly(t: Txn, statements: seq<string>)
    requires TxnIsReadOnly(t) && forall st :: st in statements ==> KeepsReadOnly(ClassifySet(st))
    ensures TxnIsReadOnly(Fold(t, statements))
    decreases |statements|
  {
    hide ClassifySet, READ_ONLY_GUC, READ_ONLY_SET, Undoes, Commits;
    if statements != [] {
      assert statements[0] in statements;
      FoldKeepsReadOnly(RunOne(t, statements[0]), statements[1..]);
    }
  }

  lemma ExchangeStaysReadOnly(s: Session, b: nat, own: Conn, q: Query)
    requires SessionIsReadOnly(s, own) && Sendable(s, q)
    requires s.readOnly && q.unread.Some? ==> TxnIsReadOnly(q.unread.value)
    ensures SessionIsReadOnly(SettledSession(s, b, q), ServerRun(own, q))
  {
    hide DefeatsReadOnly, IsReadOnly, KeepsReadOnly, ClassifySet, Fold, Allowed, Actions, Filter;
    AllowedAreAllowed(s.readOnly, q.sent);
    if s.readOnly {
      PiecesKeepReadOnly(q.ran);
      FoldKeepsReadOnly(Start(own), Pieces(q.ran));
      assert forall st :: st in Done(q) ==> st in Pieces(q.ran);
      FoldKeepsReadOnly(Start(own), Done(q));
    }
  }

  lemma StepStaysReadOnly(w: World, p: map<nat, Private>, step: Step)
    requires AllReadOnly(w, p) && Enabled(w, step)
    requires UnreadKeeps(w, step)
    ensures AllReadOnly(Next(w, step), PrivateStep(p, step))
  {
    hide SessionIsReadOnly, Sendable, SettledSession, SettledBackend, ServerRun, Borrowed, AllCarried, Blocked, READ_ONLY_GUC,
      READ_ONLY_SET;
    match step {
      case Connect(c, desired, readOnly) => StartsReadOnly(desired, readOnly);
      case Open(_) =>
      case Exchange(c, b, q) =>
        var s, h := w.sessions[c], Borrowed(w, c, b).0;
        assert SessionIsReadOnly(s, p[c].conn);
        ExchangeStaysReadOnly(s, h, p[c].conn, q);
        SettledStaysReadOnly(s, h, q);
      case Lost(c, _) =>
        assert SessionIsReadOnly(w.sessions[c], p[c].conn);
        HeldIsNotReadOnly(w.sessions[c], p[c].conn);
      case Leave(_) =>
    }
  }

  lemma HeldIsNotReadOnly(s: Session, own: Conn)
    ensures SessionIsReadOnly(s.(held := None), own) == SessionIsReadOnly(s, own)
  {
    hide IsReadOnly, DefeatsReadOnly;
  }

  lemma StartsReadOnly(desired: Settings, readOnly: bool)
    ensures SessionIsReadOnly(Session(Startup(desired, readOnly), false, false, None, readOnly, {}),
                              Conn(Startup(desired, readOnly), None))
  {
    hide READ_ONLY_GUC, READ_ONLY_SET;
  }

  lemma SettledStaysReadOnly(s: Session, b: nat, q: Query)
    ensures SettledSession(s, b, q).readOnly == s.readOnly
  {}

  lemma {:induction false} RunStaysReadOnly(w: World, p: map<nat, Private>, steps: seq<Step>)
    requires AllReadOnly(w, p) && CanTake(w, steps) && AllUnreadKeep(w, steps)
    ensures AllReadOnly(Run(w, steps), PrivateRun(p, steps))
    decreases |steps|
  {
    hide AllReadOnly, Enabled, Next, PrivateStep, IsReadOnly, UnreadKeeps;
    if steps != [] {
      StepStaysReadOnly(w, p, steps[0]);
      RunStaysReadOnly(Next(w, steps[0]), PrivateStep(p, steps[0]), steps[1..]);
    }
  }

  lemma EmptyReadOnly()
    ensures AllReadOnly(EMPTY, map[])
  {}

  /** On every run on which nothing unread in a read-only session's own exchanges turns it off,
      that session runs every statement with the read-only setting on, pinned or not and
      whatever it or anyone else sent before. */
  lemma ReadOnlyInForce(steps: seq<Step>, c: nat, b: nat)
    requires IsRun(EMPTY, steps)
    ensures CanTake(EMPTY, steps)
    ensures AllUnreadKeep(EMPTY, steps) && CanRun(Run(EMPTY, steps), c, b) && Run(EMPTY, steps).sessions[c].readOnly ==>
              IsReadOnly(Borrowed(Run(EMPTY, steps), c, b).1.conn.actual)
  {
    hide IsRun, Run, CanTake, PrivateRun, Borrowed, AllUnreadKeep, IsReadOnly;
    StatementsSeePrivateSettings(steps, c, b);
    EmptyReadOnly();
    if AllUnreadKeep(EMPTY, steps) { RunStaysReadOnly(EMPTY, map[], steps); }
    var w, p := Run(EMPTY, steps), PrivateRun(map[], steps);
    if c in w.sessions && c in p && AllReadOnly(w, p) { assert SessionIsReadOnly(w.sessions[c], p[c].conn); }
  }

  /** And whatever havuz cannot read, a read-only session that was never pinned runs every
      statement with the setting on. */
  lemma ReadOnlyUntilPinned(steps: seq<Step>, c: nat, b: nat)
    requires IsRun(EMPTY, steps)
    ensures CanTake(EMPTY, steps)
    ensures CanRun(Run(EMPTY, steps), c, b) && Run(EMPTY, steps).sessions[c].readOnly && !Run(EMPTY, steps).sessions[c].pinned ==>
              IsReadOnly(Borrowed(Run(EMPTY, steps), c, b).1.conn.actual)
  {
    hide IsRun, Run, CanTake, PrivateRun, Borrowed, READ_ONLY_GUC, READ_ONLY_SET, AllCarried, Inv;
    EmptyInv();
    RunKeeps(EMPTY, map[], steps);
    var w, p := Run(EMPTY, steps), PrivateRun(map[], steps);
    if CanRun(w, c, b) {
      IsClient(w, p, c);
      BorrowedInStep(w, p, c, b);
    }
  }

  /** A pin, once taken, stays: a session that is not pinned never was. */
  lemma PinsStay(w: World, step: Step, c: nat)
    requires Enabled(w, step) && c in w.sessions && w.sessions[c].pinned
    requires !(step.Leave? && step.client == c)
    ensures c in Next(w, step).sessions && Next(w, step).sessions[c].pinned
  {
    hide Checkout, SettledBackend, Blocked, Sendable, Seen;
  }

  // ---------- exactly when an exchange is handed on in step ----------

  /** A released session that was in step before the exchange. */
  function Released(d: Settings, b: nat): Session { Session(d, false, false, Some(b), false, {}) }

  /** The exact condition for any exchange that neither pins nor leaves a transaction open: what
      is believed afterwards is what was executed. */
  lemma HandedOnInStepIff(d: Settings, b: nat, q: Query)
    requires AllCarried(d) && !MustPin(Released(d, b), q) && Portables(Seen(Released(d, b), q)) && !q.open
    ensures var s, k := Released(d, b), Backend(d, Conn(d, None));
            var s', k' := SettledSession(s, b, q), SettledBackend(s, k, q);
            && s'.held.None?
            && (InStep(s', k', k'.conn) <==>
                Executed(Txn(d, d), q).actual == if q.errored then d else CommitAll(d, Seen(s, q)))
  {
    hide AllCarried, Actions, Allowed, Portables, Executed, Filter, SqlPins;
    var s := Released(d, b);
    CommitSkipsPins(d, Seen(s, q));
    CommitNothing(d);
    AllActionsAreCarried(Allowed(s.readOnly, q.sent));
    CommitKeepsCarried(d, Seen(s, q));
  }

  /** An errored exchange is forgotten, so it is handed on in step exactly when what it had
      committed before the error changes nothing. */
  lemma ErroredIsForgotten(d: Settings, b: nat, q: Query)
    requires AllCarried(d) && !MustPin(Released(d, b), q) && Portables(Seen(Released(d, b), q)) && !q.open
    requires q.errored && q.unread.None?
    ensures var s, k := Released(d, b), Backend(d, Conn(d, None));
            var s', k' := SettledSession(s, b, q), SettledBackend(s, k, q);
            InStep(s', k', k'.conn) <==> Fold(Txn(d, d), Done(q)).base == d
  {
    hide AllCarried, Actions, Allowed, Portables, InStep, SettledSession, SettledBackend, Fold;
    HandedOnInStepIff(d, b, q);
  }

  /** An exchange of Parse and Execute messages is believed when it is parsed, so it is handed
      on in step exactly when what ran, with all that it undid, leaves what the parsed texts
      would leave one after the other, but for those that both set and undo. */
  lemma ParsedIsBelieved(d: Settings, b: nat, q: Query)
    requires AllCarried(d) && !MustPin(Released(d, b), q) && Portables(Seen(Released(d, b), q)) && !q.open
    requires !q.errored && q.unread.None?
    ensures var s, k := Released(d, b), Backend(d, Conn(d, None));
            var s', k' := SettledSession(s, b, q), SettledBackend(s, k, q);
            InStep(s', k', k'.conn) <==> Fold(Txn(d, d), Pieces(q.ran)).actual == RunAll(d, Pieces(Filter(Heeded, q.sent)))
  {
    hide AllCarried, Actions, Portables, InStep, SettledSession, SettledBackend, Fold, Filter, MustPin;
    HandedOnInStepIff(d, b, q);
    AllAllowed(q.sent);
    CommitTexts(d, q.sent);
  }

  /** A message that both sets and undoes, sent as a simple query: nothing of it is believed or
      recorded, and the backend is handed on in step exactly when the message leaves the
      parameters as they were. */
  lemma DroppedInStepIff(d: Settings, sql: string, b: nat)
    requires AllCarried(d) && Dropped(sql) && !SqlPins(sql)
    ensures var s, k, q := Released(d, b), Backend(d, Conn(d, None)), Simple(sql, false);
            var s', k' := SettledSession(s, b, q), SettledBackend(s, k, q);
            && s'.held.None? && s'.desired == d == k'.applied
            && (InStep(s', k', k'.conn) <==> Fold(Txn(d, d), Scanner.Split(sql)).actual == d)
  {
    hide AllCarried, InStep, Fold, Scanner.Split, SqlPins, ClassifySet, UndoesTheBatch;
    var s, q := Released(d, b), Simple(sql, false);
    OneText(s, q);
    ActionsOfOne(sql);
    assert ActionsForSql(sql) == [Pin];
    assert [Pin][1..] == [] && Filter(NotAPin, [Pin]) == [];
    CommitNothing(d);
    assert CommitAll(d, [Pin]) == CommitAll(Apply(d, Pin), []);
    OnePins(sql);
    HandedOnInStepIff(d, b, q);
  }

  lemma OnePins(sql: string)
    ensures AnyPins([sql]) <==> SqlPins(sql)
  {
    hide SqlPins;
    assert sql in [sql];
  }

  lemma {:induction false} AllAllowed(texts: seq<string>)
    ensures Allowed(false, texts) == texts
  {
    if texts != [] { AllAllowed(texts[1..]); }
  }

  // ---------- a SET in a batch that leaves its transaction open ----------

  lemma WordIsOnePiece(s: string)
    requires s != [] && forall i :: 0 <= i < |s| ==> IsAlnum(s[i])
    ensures Scanner.Split(s) == [s]
  {
    hide Scanner.FirstSemi, Scanner.EndsInCode, Scanner.Split;
    OrdinaryPrefix(s, "");
    assert s + "" == s;
    Scanner.FirstSemiStep("");
    Scanner.SplitStep(s);
  }

  lemma WordIsNoSet(s: string)
    requires s != [] && forall i :: 0 <= i < |s| ==> IsAlnum(s[i])
    requires ToUpper(s) != "SET" && ToUpper(s) != "RESET"
    ensures ClassifySet(s).NotASet?
  {
    hide Scanner.StripNoise, Normalized, TakeWord, ToUpper, ClassifySetBody, ClassifyResetBody;
    NormalizedFixed(s);
    TakeWordAt(s, "");
    assert s + "" == s;
  }

  /** A single word other than SET or RESET is one statement and stages nothing. */
  lemma WordStagesNothing(s: string)
    requires s != [] && forall i :: 0 <= i < |s| ==> IsAlnum(s[i])
    requires ToUpper(s) != "SET" && ToUpper(s) != "RESET"
    ensures ActionsForSql(s) == [] && Scanner.Split(s) == [s]
  {
    hide Scanner.Split, ClassifySet, ToUpper, UndoesTheBatch;
    WordIsOnePiece(s);
    WordIsNoSet(s);
    assert Map(ClassifySet, [s]) == [ClassifySet(s)];
    assert Filter(IsAction, [ClassifySet(s)]) == [] by { assert [ClassifySet(s)][1..] == []; }
  }

  lemma RollbackStagesNothing()
    ensures ActionsForSql("ROLLBACK") == [] && Scanner.Split("ROLLBACK") == ["ROLLBACK"]
  {
    hide ActionsForSql, Scanner.Split;
    assert |ToUpper("ROLLBACK")| == 8;
    WordStagesNothing("ROLLBACK");
  }

  /** A simple query that the server answers without an error. */
  function Simple(sql: string, open: bool): Query { Query([sql], [sql], false, 0, open, false, None) }

  const ROLLBACK: Query := Simple("ROLLBACK", false)

  lemma OneText(s: Session, q: Query)
    requires |q.sent| == 1 && !s.readOnly
    ensures Allowed(s.readOnly, q.sent) == q.sent && Seen(s, q) == ActionsForSql(q.sent[0])
  {
    hide ActionsForSql;
    AllAllowed(q.sent);
    ActionsOfOne(q.sent[0]);
    assert [q.sent[0]] == q.sent;
  }

  lemma ActionsOfOne(text: string)
    ensures Actions([text]) == ActionsForSql(text) && Pieces([text]) == Scanner.Split(text)
  {
    hide ActionsForSql, Scanner.Split;
    assert [text][1..] == [];
    assert Actions([text]) == ActionsForSql(text) + Actions([]) && Pieces([text]) == Scanner.Split(text) + Pieces([]);
  }

  /** A single word, as the server begins to read it. */
  lemma VerbOfWord(s: string)
    requires s != [] && forall i :: 0 <= i < |s| ==> IsAlpha(s[i])
    ensures Verb(s) == ToUpper(s)
  {
    hide ToUpper;
    assert !IsSpace(s[0]) && TrimStart(s) == s && Unnoised(s) == s;
    LetterRunAll(s);
    assert s[..|s|] == s;
  }

  lemma {:induction false} LetterRunAll(s: string)
    requires forall i :: 0 <= i < |s| ==> IsAlpha(s[i])
    ensures LetterRun(s) == |s|
  {
    if s != [] { LetterRunAll(s[1..]); }
  }

  lemma RollbackUndoes(t: Txn)
    ensures Fold(t, ["ROLLBACK"]) == Txn(t.base, t.base)
  {
    hide ClassifySet, Commits, Verb;
    var text := "ROLLBACK";
    assert ToUpper(text) == text && |text| == 8;
    VerbOfWord(text);
    UndoesOne(t, text);
  }

  lemma UndoesOne(t: Txn, statement: string)
    requires Undoes(statement)
    ensures Fold(t, [statement]) == Txn(t.base, t.base)
  {
    hide ClassifySet, Commits, Undoes;
    assert [statement][1..] == [];
    assert Fold(t, [statement]) == Fold(RunOne(t, statement), []);
  }

  /** A clause of `Reliable` is needed. When one batch opens a transaction and sets parameters
      in it, they are believed at once; a ROLLBACK then undoes on the server what the batch had
      not committed. The backend is handed on in step exactly when that was nothing. */
  lemma OpenBatchIsBelieved(d: Settings, sql: string, b: nat)
    requires AllCarried(d) && !SqlPins(sql)
    ensures var s, k, begin := Released(d, b), Backend(d, Conn(d, None)), Simple(sql, true);
            var s1, k1 := SettledSession(s, b, begin), SettledBackend(s, k, begin);
            var s2, k2 := SettledSession(s1, b, ROLLBACK), SettledBackend(s1, k1, ROLLBACK);
            var believed, committed := CommitAll(d, ActionsForSql(sql)), Fold(Txn(d, d), Scanner.Split(sql)).base;
            && s2.held.None? && s2.desired == believed == k2.applied && k2.conn == Conn(committed, None)
            && (InStep(s2, k2, k2.conn) <==> committed == believed && AllCarried(believed))
  {
    hide AllCarried, ActionsForSql, Allowed, Filter, Fold, Scanner.Split, SqlPins;
    var s, begin := Released(d, b), Simple(sql, true);
    RollbackStagesNothing();
    PinsAreActions("ROLLBACK");
    OnePins("ROLLBACK");
    OnePins(sql);
    ActionsOfOne("ROLLBACK");
    ActionsOfOne(sql);
    OneText(s, begin);
    OneText(SettledSession(s, b, begin), ROLLBACK);
    CommitSkipsPins(d, ActionsForSql(sql));
    CommitSkipsPins(CommitAll(d, ActionsForSql(sql)), []);
    CommitNothing(d);
    CommitNothing(CommitAll(d, ActionsForSql(sql)));
    RollbackUndoes(Fold(Txn(d, d), Scanner.Split(sql)));
  }
}
