/** Any number of clients over any number of backends: prepared statements behave as if every
    client had a server of its own (prepared.rs, with the relay steps of txn.rs). */
module PreparedRuns {
  import opened Text
  import opened Wire
  import opened Prepared
  import opened Statements
  import opened PreparedRelay
  import opened PreparedWire
  import opened PreparedOrder
  import opened PreparedRetry

  // ---------- the world ----------

  /** `buffers` holds the client's messages since its last sync point. */
  datatype World = World(tables: map<nat, Table>, backends: map<nat, Line>, held: map<nat, nat>,
                         buffers: map<nat, seq<Message>>)

  /** `fails` says whether a statement fails by itself where the message makes the server run
      or look at one. */
  datatype Step =
    | Connect(client: nat)
    | Leave(client: nat)
    | Open(backend: nat, discardAll: bool)
    | Acquire(client: nat, backend: nat)
    | Send(client: nat, msg: Message, fails: bool)
    | Retry(client: nat, msg: Message, backend: nat, failing: seq<bool>)
    | Release(client: nat)
    | Reset(backend: nat)

  predicate Unheld(w: World, b: nat) { forall c :: c in w.held ==> w.held[c] != b }

  predicate Idle(w: World, b: nat) { b in w.backends && Unheld(w, b) }

  predicate Holds(w: World, c: nat) {
    c in w.tables && c in w.buffers && c in w.held && w.held[c] in w.backends
  }

  /** A server that ignores messages until the next Sync never answers a query, here as on a
      connection of the client's own. */
  predicate Enabled(w: World, step: Step) {
    match step
    case Connect(c) => c !in w.tables
    case Leave(c) => c in w.tables
    case Open(b, _) => b !in w.backends
    case Acquire(c, b) => c in w.tables && c !in w.held && Idle(w, b)
    case Send(c, msg, _) => Holds(w, c) && (IsSync(msg) && msg.tag != SYNC ==> !w.backends[w.held[c]].skipping)
    case Retry(c, msg, b, _) => Holds(w, c) && IsSync(msg) && Idle(w, b)
    case Release(c) => Holds(w, c) && w.buffers[c] == []
    case Reset(b) => Idle(w, b) && !w.backends[b].skipping
  }

  /** `reset`: the cache is cleared whether or not the server forgot its statements. */
  function ResetBackend(k: Backend): Backend {
    k.(cache := [], server := if k.discardAll then map[] else k.server)
  }

  function LineOf(w: World, c: nat): Line
    requires Holds(w, c)
  {
    w.backends[w.held[c]]
  }

  /** What one message does. */
  function Relays(d: Digest, w: World, c: nat, msg: Message, fails: bool): Relayed
    requires Holds(w, c)
  {
    WireRelay(d, w.tables[c], LineOf(w, c), msg, fails, false)
  }

  /** The exchange that ends with this message. */
  function Exchange(w: World, c: nat, msg: Message): seq<Message>
    requires Holds(w, c)
  {
    w.buffers[c] + [msg]
  }

  /** The line of a backend, for whoever takes it next. */
  function Anew(w: World, b: nat): Line
    requires b in w.backends
  {
    Taken(w.backends[b])
  }

  /** The second pass of the exchange, from the table the first one left. */
  function Replayed(d: Digest, w: World, c: nat, msg: Message, b: nat, failing: seq<bool>): WireReplay
    requires Holds(w, c) && b in w.backends
  {
    WirePass(d, w.tables[c], Anew(w, b), Exchange(w, c, msg), failing)
  }

  function Without(w: World, c: nat): World {
    World(w.tables - {c}, w.backends, w.held - {c}, w.buffers - {c})
  }

  function Discarded(w: World, b: nat): World { w.(backends := w.backends - {b}) }

  /** The client with its backend. */
  function Seated(w: World, c: nat, table: Table, b: nat, l: Line, buffer: seq<Message>): World {
    World(w.tables[c := table], w.backends[b := l], w.held[c := b], w.buffers[c := buffer])
  }

  function Next(d: Digest, w: World, step: Step): World
    requires Enabled(w, step)
  {
    match step
    case Connect(c) => w.(tables := w.tables[c := map[]], buffers := w.buffers[c := []])
    // The backend goes back as it is, whatever is on its line.
    case Leave(c) => Without(w, c)
    case Open(b, discardAll) => w.(backends := w.backends[b := Fresh(Backend([], map[], discardAll))])
    case Acquire(c, b) => w.(held := w.held[c := b], backends := w.backends[b := Anew(w, b)])
    case Send(c, msg, fails) =>
      var r := Relays(d, w, c, msg, fails);
      var h := w.held[c];
      // A replay that the server turns down costs the backend and the session.
      if r.event.Dead? then Without(Discarded(w, h), c)
      else if IsSync(msg) then Seated(w, c, r.table, h, Fresh(r.line.k), [])
      else Seated(w, c, r.table, h, r.line, Exchange(w, c, msg))
    case Retry(c, msg, b, failing) =>
      var r := Replayed(d, w, c, msg, b, failing);
      var left := Without(Discarded(w, w.held[c]), c);
      // A pass that ends the session gives its backend back as it is.
      if r.ended then left.(backends := left.backends[b := r.line])
      else Seated(left, c, r.table, b, Fresh(r.line.k), [])
    case Release(c) => w.(held := w.held - {c})
    case Reset(b) => w.(backends := w.backends[b := Fresh(ResetBackend(w.backends[b].k))])
  }

  // ---------- the same clients, each with a server of its own ----------

  /** Where the client's own server stood at its last sync point, and what was sent since. */
  datatype Own = Own(start: Private, sent: seq<Message>)

  function Now(o: Own): Private { AfterAll(o.start, o.sent) }

  /** An unnamed statement lasts one checkout; a retried exchange is sent once. */
  function PrivateNext(p: map<nat, Own>, step: Step): map<nat, Own> {
    match step
    case Connect(c) => p[c := Own(Private(map[], None), [])]
    case Send(c, msg, _) =>
      if c !in p then p
      else if IsSync(msg) then p[c := Own(AfterAll(p[c].start, p[c].sent + [msg]), [])]
      else p[c := Own(p[c].start, p[c].sent + [msg])]
    case Retry(c, msg, _, _) =>
      if c !in p then p else p[c := Own(AfterAll(p[c].start.(unnamed := None), p[c].sent + [msg]), [])]
    case Acquire(c, _) => if c in p then p[c := p[c].(start := p[c].start.(unnamed := None))] else p
    case Release(c) => if c in p then p[c := p[c].(start := p[c].start.(unnamed := None))] else p
    case _ => p
  }

  predicate Sends(used: set<Stmt>, step: Step) { step.Send? || step.Retry? ==> Uses(used, step.msg) }

  predicate IsRun(d: Digest, used: set<Stmt>, w: World, steps: seq<Step>)
    decreases |steps|
  {
    steps == [] ||
    (Enabled(w, steps[0]) && Sends(used, steps[0]) && IsRun(d, used, Next(d, w, steps[0]), steps[1..]))
  }

  function Run(d: Digest, used: set<Stmt>, w: World, steps: seq<Step>): World
    requires IsRun(d, used, w, steps)
    decreases |steps|
  {
    if steps == [] then w else Run(d, used, Next(d, w, steps[0]), steps[1..])
  }

  function PrivateRun(p: map<nat, Own>, steps: seq<Step>): map<nat, Own>
    decreases |steps|
  {
    if steps == [] then p else PrivateRun(PrivateNext(p, steps[0]), steps[1..])
  }

  // ---------- orderly runs ----------

  /** A step that leaves nothing half done: no Parse fails, after an error no statement is sent in
      the same exchange, no client leaves in the middle of one, and no retry ends a session. */
  predicate Orderly(d: Digest, w: World, step: Step)
    requires Enabled(w, step)
  {
    match step
    case Send(c, msg, fails) => Calm(d, w.tables[c], LineOf(w, c), msg, fails)
    case Leave(c) => c in w.held && c in w.buffers ==> w.buffers[c] == []
    case Retry(c, msg, b, failing) =>
      && CalmAll(d, w.tables[c], Anew(w, b), Exchange(w, c, msg), failing)
      && !Replayed(d, w, c, msg, b, failing).ended
    case _ => true
  }

  predicate IsOrderly(d: Digest, used: set<Stmt>, w: World, steps: seq<Step>)
    requires IsRun(d, used, w, steps)
    decreases |steps|
  {
    steps == [] || (Orderly(d, w, steps[0]) && IsOrderly(d, used, Next(d, w, steps[0]), steps[1..]))
  }

  // ---------- the invariant ----------

  predicate ClientInStep(d: Digest, used: set<Stmt>, table: Table, buffer: seq<Message>, o: Own) {
    && buffer == o.sent && AllUse(used, o.sent) && [] !in o.start.table
    && (forall i :: 0 <= i < |buffer| ==> !IsSync(buffer[i]))
    && ClientOk(d, used, table, Now(o).table)
  }

  predicate LineOk(d: Digest, used: set<Stmt>, l: Line) { BackendOk(d, used, l.k) && Clean(l) }

  ghost predicate IdleFinished(w: World) { forall b :: Idle(w, b) ==> Finished(w.backends[b]) }

  predicate HolderOk(w: World, p: map<nat, Own>, c: nat)
    requires c in w.held
  {
    && c in w.tables && c in w.buffers && c in p && w.held[c] in w.backends
    && UnnamedOk(w.backends[w.held[c]].k, Now(p[c]))
    && (w.buffers[c] == [] ==> Finished(w.backends[w.held[c]]))
  }

  ghost predicate HeldOk(w: World, p: map<nat, Own>) {
    && (forall c :: c in w.held ==> HolderOk(w, p, c))
    && (forall c, e :: c in w.held && e in w.held && c != e ==> w.held[c] != w.held[e])
  }

  ghost predicate ClientsOk(d: Digest, used: set<Stmt>, w: World, p: map<nat, Own>) {
    && w.tables.Keys == w.buffers.Keys && w.tables.Keys <= p.Keys
    && (forall c :: c in w.tables ==> ClientInStep(d, used, w.tables[c], w.buffers[c], p[c]))
    && (forall c :: c in w.tables && c !in w.held ==> p[c].sent == [] && p[c].start.unnamed.None?)
  }

  ghost predicate LinesOk(d: Digest, used: set<Stmt>, w: World) {
    forall b :: b in w.backends ==> LineOk(d, used, w.backends[b])
  }

  ghost predicate Inv(d: Digest, used: set<Stmt>, w: World, p: map<nat, Own>) {
    ClientsOk(d, used, w, p) && LinesOk(d, used, w) && HeldOk(w, p) && IdleFinished(w)
  }

  /** A backend nobody holds was held by nobody but `c` before. */
  lemma StillIdle(w: World, w': World, b: nat, c: nat)
    requires Idle(w', b) && b in w.backends
    requires forall e :: e in w.held && e != c ==> e in w'.held && w'.held[e] == w.held[e]
    requires c in w.held ==> w.held[c] != b
    ensures Idle(w, b)
  {
    forall e | e in w.held ensures w.held[e] != b {
      if e != c { assert w'.held[e] == w.held[e]; }
    }
  }

  /** Nobody but `c` gave up a backend, and what nobody holds now is as it was or finished. */
  lemma IdleKept(w: World, w': World, c: nat)
    requires IdleFinished(w)
    requires forall e :: e in w.held && e != c ==> e in w'.held && w'.held[e] == w.held[e]
    requires forall b :: b in w'.backends && Unheld(w', b) ==>
               Finished(w'.backends[b]) ||
               (b in w.backends && w'.backends[b] == w.backends[b] && (c in w.held ==> w.held[c] != b))
    ensures IdleFinished(w')
  {
    hide Finished;
    forall b | Idle(w', b) ensures Finished(w'.backends[b]) {
      if b in w.backends && w'.backends[b] == w.backends[b] && (c in w.held ==> w.held[c] != b) {
        StillIdle(w, w', b, c);
      }
    }
  }

  /** Whoever still holds a backend holds the same one, in the same state. */
  lemma HeldKept(w: World, p: map<nat, Own>, w': World, p': map<nat, Own>)
    requires HeldOk(w, p)
    requires forall e :: e in w'.held ==>
               && e in w.held && w'.held[e] == w.held[e]
               && (w.held[e] in w.backends ==> w.held[e] in w'.backends && w'.backends[w.held[e]] == w.backends[w.held[e]])
               && (e in w.tables && e in w.buffers ==> e in w'.tables && e in w'.buffers && w'.buffers[e] == w.buffers[e])
               && (e in p ==> e in p' && p'[e] == p[e])
    ensures HeldOk(w', p')
  {
    hide UnnamedOk, Now, Finished;
    forall e | e in w'.held ensures HolderOk(w', p', e) { assert HolderOk(w, p, e); }
  }

  /** Every client but `c` is as it was. */
  lemma ClientsKept(d: Digest, used: set<Stmt>, w: World, p: map<nat, Own>, w': World, p': map<nat, Own>, c: nat)
    requires ClientsOk(d, used, w, p)
    requires w'.tables.Keys == w'.buffers.Keys && w'.tables.Keys <= p'.Keys
    requires forall e :: e in w'.tables && e != c ==>
               && e in w.tables && w'.tables[e] == w.tables[e] && w'.buffers[e] == w.buffers[e] && p'[e] == p[e]
               && (e in w.held ==> e in w'.held)
    requires c in w'.tables ==> ClientInStep(d, used, w'.tables[c], w'.buffers[c], p'[c])
    requires c in w'.tables && c !in w'.held ==> p'[c].sent == [] && p'[c].start.unnamed.None?
    ensures ClientsOk(d, used, w', p')
  {
    hide ClientInStep;
    forall e | e in w'.tables ensures ClientInStep(d, used, w'.tables[e], w'.buffers[e], p'[e]) {}
    forall e | e in w'.tables && e !in w'.held ensures p'[e].sent == [] && p'[e].start.unnamed.None? {}
  }

  /** A client goes, alone or with its backend; a backend changes; a client joins, or takes a
      seat: every step is made of these. */
  lemma GoneKeeps(d: Digest, used: set<Stmt>, w: World, p: map<nat, Own>, c: nat)
    requires Inv(d, used, w, p) && (c in w.held ==> c in w.buffers && w.buffers[c] == [])
    ensures Inv(d, used, Without(w, c), p)
  {
    hide ClientInStep, LineOk, UnnamedOk, Now, Finished, IdleFinished, HeldOk, ClientsOk;
    var w' := Without(w, c);
    KeysMatch(d, used, w, p);
    assert c in w.held ==> Finished(w.backends[w.held[c]]) by { if c in w.held { HolderIsOk(w, p, c); } }
    IdleKept(w, w', c);
    HeldKept(w, p, w', p);
    ClientsKept(d, used, w, p, w', p, c);
  }

  lemma KeysMatch(d: Digest, used: set<Stmt>, w: World, p: map<nat, Own>)
    requires ClientsOk(d, used, w, p) && HeldOk(w, p)
    ensures w.tables.Keys == w.buffers.Keys && w.tables.Keys <= p.Keys
    ensures forall c :: c in w.held ==> c in w.tables && w.held[c] in w.backends
    ensures forall c, e :: c in w.held && e in w.held && c != e ==> w.held[c] != w.held[e]
  {
    hide ClientInStep, UnnamedOk, Now, Finished;
    forall c | c in w.held ensures c in w.tables && w.held[c] in w.backends { assert HolderOk(w, p, c); }
  }

  lemma HolderIsOk(w: World, p: map<nat, Own>, c: nat)
    requires HeldOk(w, p) && c in w.held
    ensures c in w.tables && c in w.buffers && w.held[c] in w.backends && (w.buffers[c] == [] ==> Finished(w.backends[w.held[c]]))
  {
    hide UnnamedOk, Now, Finished;
    assert HolderOk(w, p, c);
  }

  lemma LostKeeps(d: Digest, used: set<Stmt>, w: World, p: map<nat, Own>, c: nat)
    requires Inv(d, used, w, p) && c in w.held
    ensures var w' := Without(Discarded(w, w.held[c]), c);
            Inv(d, used, w', p) && Unheld(w', w.held[c]) && forall b :: Idle(w, b) ==> Idle(w', b)
  {
    hide ClientInStep, LineOk, UnnamedOk, Now, Finished, IdleFinished, HeldOk, ClientsOk;
    var w' := Without(Discarded(w, w.held[c]), c);
    KeysMatch(d, used, w, p);
    IdleKept(w, w', c);
    HeldKept(w, p, w', p);
    ClientsKept(d, used, w, p, w', p, c);
  }

  lemma ChangeKeeps(d: Digest, used: set<Stmt>, w: World, p: map<nat, Own>, b: nat, k: Backend)
    requires Inv(d, used, w, p) && Unheld(w, b) && BackendOk(d, used, k)
    ensures Inv(d, used, w.(backends := w.backends[b := Fresh(k)]), p)
  {
    hide ClientInStep, BackendOk, UnnamedOk, Now, IdleFinished, HeldOk;
    var w' := w.(backends := w.backends[b := Fresh(k)]);
    forall e | Idle(w', e) ensures Finished(w'.backends[e]) {
      if e != b { IdleIsFinished(w, e); }
    }
    FinishedAll(w');
    HeldKept(w, p, w', p);
  }

  lemma IdleIsFinished(w: World, b: nat)
    requires IdleFinished(w) && Idle(w, b)
    ensures Finished(w.backends[b])
  {}

  lemma FinishedAll(w: World)
    requires forall b :: Idle(w, b) ==> Finished(w.backends[b])
    ensures IdleFinished(w)
  {}

  lemma NothingSent(d: Digest, used: set<Stmt>, table: Table, o: Own)
    requires ClientInStep(d, used, table, [], o)
    ensures o.sent == []
  {}

  lemma JoinKeeps(d: Digest, used: set<Stmt>, w: World, p: map<nat, Own>, c: nat, table: Table, o: Own)
    requires Inv(d, used, w, p) && c !in w.tables
    requires ClientInStep(d, used, table, [], o) && o.start.unnamed.None?
    ensures Inv(d, used, w.(tables := w.tables[c := table], buffers := w.buffers[c := []]), p[c := o])
  {
    hide ClientInStep, LineOk, UnnamedOk, Now, Finished, IdleFinished, HeldOk, ClientsOk;
    var w', p' := w.(tables := w.tables[c := table], buffers := w.buffers[c := []]), p[c := o];
    NothingSent(d, used, table, o);
    KeysMatch(d, used, w, p);
    IdleKept(w, w', c);
    HeldKept(w, p, w', p');
    ClientsKept(d, used, w, p, w', p', c);
  }

  lemma SeatKeeps(d: Digest, used: set<Stmt>, w: World, p: map<nat, Own>, c: nat, table: Table, b: nat, l: Line,
                  buffer: seq<Message>, o: Own)
    requires Inv(d, used, w, p) && c !in w.tables && Unheld(w, b)
    requires ClientInStep(d, used, table, buffer, o) && LineOk(d, used, l) && UnnamedOk(l.k, Now(o))
    requires buffer == [] ==> Finished(l)
    ensures Inv(d, used, Seated(w, c, table, b, l, buffer), p[c := o])
  {
    hide ClientInStep, LineOk, UnnamedOk, Now, Finished, IdleFinished, HeldOk, ClientsOk, Unheld;
    KeysMatch(d, used, w, p);
    SeatIdle(w, c, table, b, l, buffer);
    SeatHeld(w, p, c, table, b, l, buffer, o);
    ClientsKept(d, used, w, p, Seated(w, c, table, b, l, buffer), p[c := o], c);
  }

  lemma SeatIdle(w: World, c: nat, table: Table, b: nat, l: Line, buffer: seq<Message>)
    requires IdleFinished(w) && c !in w.held
    ensures IdleFinished(Seated(w, c, table, b, l, buffer))
  {
    hide Finished, IdleFinished;
    var w' := Seated(w, c, table, b, l, buffer);
    assert w'.held[c] == b;
    IdleKept(w, w', c);
  }

  lemma SeatHeld(w: World, p: map<nat, Own>, c: nat, table: Table, b: nat, l: Line, buffer: seq<Message>, o: Own)
    requires HeldOk(w, p) && c !in w.held && Unheld(w, b)
    requires UnnamedOk(l.k, Now(o)) && (buffer == [] ==> Finished(l))
    ensures HeldOk(Seated(w, c, table, b, l, buffer), p[c := o])
  {
    hide UnnamedOk, Now, Finished;
    var w', p' := Seated(w, c, table, b, l, buffer), p[c := o];
    forall e | e in w'.held ensures HolderOk(w', p', e) {
      if e != c { assert HolderOk(w, p, e); }
    }
  }

  /** Taking a client out with its backend and putting both back is updating them. */
  lemma Reseated(w: World, c: nat, table: Table, l: Line, buffer: seq<Message>)
    requires c in w.held
    ensures Seated(Without(Discarded(w, w.held[c]), c), c, table, w.held[c], l, buffer) == Seated(w, c, table, w.held[c], l, buffer)
  {}

  /** What a departed client would have is no part of the world. */
  lemma InvIgnores(d: Digest, used: set<Stmt>, w: World, p: map<nat, Own>, c: nat, o: Own)
    requires Inv(d, used, w, p) && c !in w.tables
    ensures Inv(d, used, w, p[c := o])
  {
    hide ClientInStep, LineOk, UnnamedOk, Now, Finished, IdleFinished, HeldOk, ClientsOk;
    KeysMatch(d, used, w, p);
    HeldKept(w, p, w, p[c := o]);
    ClientsKept(d, used, w, p, w, p[c := o], c);
  }

  // ---------- every orderly step keeps it ----------

  /** The client's own server after one more message of the exchange. */
  function SentOwn(o: Own, msg: Message): Own {
    if IsSync(msg) then Own(AfterAll(o.start, o.sent + [msg]), []) else Own(o.start, o.sent + [msg])
  }

  lemma SentOwnNow(used: set<Stmt>, o: Own, msg: Message)
    requires [] !in o.start.table && AllUse(used, o.sent) && Uses(used, msg)
    ensures Now(SentOwn(o, msg)) == PrivateOn(Now(o), msg).0
    ensures [] !in SentOwn(o, msg).start.table && AllUse(used, SentOwn(o, msg).sent) && AllUse(used, o.sent + [msg])
  {
    hide PrivateOn, Uses;
    AfterAllOne(o.start, o.sent, msg);
    NamesStayNamed(o.start, o.sent + [msg]);
  }

  lemma SendOutcome(d: Digest, used: set<Stmt>, w: World, p: map<nat, Own>, c: nat, msg: Message, fails: bool)
    requires CollisionFree(d, used) && Inv(d, used, w, p) && Holds(w, c) && Uses(used, msg)
    requires Calm(d, w.tables[c], LineOf(w, c), msg, fails)
    ensures c in p && Acts(LineOf(w, c), fails, PrivateOn(Now(p[c]), msg).1, Relays(d, w, c, msg, fails).event)
    ensures var r := Relays(d, w, c, msg, fails);
            !r.event.Dead? ==>
              && BackendOk(d, used, r.line.k) && UnnamedOk(r.line.k, Now(SentOwn(p[c], msg))) && (IsSync(msg) || Clean(r.line))
              && ClientInStep(d, used, r.table, if IsSync(msg) then [] else Exchange(w, c, msg), SentOwn(p[c], msg))
              && (Synced(LineOf(w, c).k) ==> Synced(r.line.k))
  {
    hide CollisionFree, Uses, ClientOk, BackendOk, UnnamedOk, Clean, Calm, Acts, Synced, WireRelay, PrivateOn, AfterAll, AllUse, IsSync,
      Finished, IdleFinished;
    assert HolderOk(w, p, c) && LineOk(d, used, LineOf(w, c));
    assert ClientInStep(d, used, w.tables[c], w.buffers[c], p[c]);
    LineMessageKeeps(d, used, w.tables[c], LineOf(w, c), Now(p[c]), msg, fails, false);
    assert LineKeeps(d, used, w.tables[c], LineOf(w, c), Now(p[c]), msg, fails, false);
    assert !Loses(d, LineOf(w, c).k, msg, false);
    SentOwnNow(used, p[c], msg);
  }

  lemma SendKeeps(d: Digest, used: set<Stmt>, w: World, p: map<nat, Own>, c: nat, msg: Message, fails: bool)
    requires CollisionFree(d, used) && Inv(d, used, w, p) && Enabled(w, Send(c, msg, fails)) && Uses(used, msg)
    requires Orderly(d, w, Send(c, msg, fails))
    ensures Inv(d, used, Next(d, w, Send(c, msg, fails)), PrivateNext(p, Send(c, msg, fails)))
  {
    hide CollisionFree, Uses, Inv, ClientInStep, BackendOk, UnnamedOk, Acts, Synced, WireRelay, PrivateOn, AfterAll, Now, Calm, Clean,
      IsSync;
    SendOutcome(d, used, w, p, c, msg, fails);
    var r, h := Relays(d, w, c, msg, fails), w.held[c];
    LostKeeps(d, used, w, p, c);
    var w0 := Without(Discarded(w, h), c);
    if r.event.Dead? {
      InvIgnores(d, used, w0, p, c, SentOwn(p[c], msg));
    } else {
      var l := if IsSync(msg) then Fresh(r.line.k) else r.line;
      var buffer := if IsSync(msg) then [] else Exchange(w, c, msg);
      assert LineOk(d, used, l) by { FreshIsClean(r.line.k); }
      SeatKeeps(d, used, w0, p, c, r.table, h, l, buffer, SentOwn(p[c], msg));
      Reseated(w, c, r.table, l, buffer);
    }
  }

  lemma FreshIsClean(k: Backend)
    ensures Clean(Fresh(k)) && Finished(Fresh(k))
  {}

  function RetriedOwn(o: Own, msg: Message): Own { Own(AfterAll(o.start.(unnamed := None), o.sent + [msg]), []) }

  /** The second pass starts from the table of the whole exchange, on a finished line. */
  lemma RetryStart(d: Digest, used: set<Stmt>, w: World, p: map<nat, Own>, c: nat, msg: Message, b: nat)
    requires Inv(d, used, w, p) && Holds(w, c) && IsSync(msg) && Idle(w, b) && Uses(used, msg)
    ensures c in p && [] !in p[c].start.table
    ensures AllUse(used, Exchange(w, c, msg)) && OneExchange(Exchange(w, c, msg)) && Exchange(w, c, msg) == p[c].sent + [msg]
    ensures ClientOk(d, used, w.tables[c], AfterAll(p[c].start, Exchange(w, c, msg)).table)
    ensures BackendOk(d, used, w.backends[b].k) && Finished(w.backends[b]) && Clean(w.backends[b]) && Anew(w, b) == w.backends[b]
  {
    hide Uses, ClientOk, BackendOk, UnnamedOk, AfterAll, Taken;
    var o := p[c];
    assert ClientInStep(d, used, w.tables[c], w.buffers[c], o);
    assert LineOk(d, used, w.backends[b]);
    IdleIsFinished(w, b);
    TakenFinished(w.backends[b]);
    SentOwnNow(used, o, msg);
    AfterAllOne(o.start, o.sent, msg);
  }

  /** A retried exchange that gets to its end leaves the client where sending it once would. */
  lemma RetryOutcome(d: Digest, used: set<Stmt>, w: World, p: map<nat, Own>, c: nat, msg: Message, b: nat, failing: seq<bool>)
    requires CollisionFree(d, used) && Inv(d, used, w, p) && Holds(w, c) && IsSync(msg) && Idle(w, b) && Uses(used, msg)
    requires CalmAll(d, w.tables[c], Anew(w, b), Exchange(w, c, msg), failing)
    requires !Replayed(d, w, c, msg, b, failing).ended
    ensures c in p
    ensures var r, o := Replayed(d, w, c, msg, b, failing), RetriedOwn(p[c], msg);
            && BackendOk(d, used, r.line.k)
            && ClientInStep(d, used, r.table, [], o) && UnnamedOk(r.line.k, Now(o))
            && (Synced(w.backends[b].k) && !LosesAny(d, w.tables[c], Anew(w, b), Exchange(w, c, msg), failing) ==>
                  Synced(r.line.k))
  {
    hide CollisionFree, Uses, ClientOk, BackendOk, UnnamedOk, AfterAll, WirePass, AllUse, LosesAny, Synced, Inv, CalmAll, Clean, OneExchange;
    RetryStart(d, used, w, p, c, msg, b);
    var o, sent := p[c], Exchange(w, c, msg);
    var again := Again(o.start, sent);
    NoUnnamed(w.backends[b].k, again);
    WirePassKeeps(d, used, w.tables[c], Anew(w, b), again, sent, failing);
    TwiceIsOnce(o.start, sent);
    NamesStayNamed(o.start.(unnamed := None), sent);
    NowOfStart(RetriedOwn(o, msg).start);
    NothingUses(used);
  }

  lemma RetryKeeps(d: Digest, used: set<Stmt>, w: World, p: map<nat, Own>, c: nat, msg: Message, b: nat, failing: seq<bool>)
    requires CollisionFree(d, used) && Inv(d, used, w, p) && Enabled(w, Retry(c, msg, b, failing)) && Uses(used, msg)
    requires Orderly(d, w, Retry(c, msg, b, failing))
    ensures Inv(d, used, Next(d, w, Retry(c, msg, b, failing)), PrivateNext(p, Retry(c, msg, b, failing)))
  {
    hide CollisionFree, Uses, BackendOk, UnnamedOk, ClientInStep, Inv, Now, WirePass, CalmAll, Synced, AfterAll, LosesAny, Clean, IsSync;
    var r := Replayed(d, w, c, msg, b, failing);
    RetryOutcome(d, used, w, p, c, msg, b, failing);
    LostKeeps(d, used, w, p, c);
    FreshIsClean(r.line.k);
    SeatKeeps(d, used, Without(Discarded(w, w.held[c]), c), p, c, r.table, b, Fresh(r.line.k), [], RetriedOwn(p[c], msg));
  }

  lemma NoUnnamed(k: Backend, p: Private)
    requires p.unnamed.None?
    ensures UnnamedOk(k, p)
  {}

  lemma NowOfStart(p: Private)
    ensures Now(Own(p, [])) == p
  {}

  lemma NothingUses(used: set<Stmt>)
    ensures AllUse(used, [])
  {}

  lemma ResetKeeps(d: Digest, used: set<Stmt>, k: Backend)
    requires BackendOk(d, used, k)
    ensures BackendOk(d, used, ResetBackend(k))
    ensures Synced(ResetBackend(k)) <==> k.discardAll || forall g :: g in k.server ==> g == []
  {}

  lemma NewOk(d: Digest, used: set<Stmt>)
    ensures ClientInStep(d, used, map[], [], Own(Private(map[], None), []))
    ensures forall discardAll :: BackendOk(d, used, Backend([], map[], discardAll))
    ensures forall discardAll :: Synced(Backend([], map[], discardAll))
  {}

  /** A new checkout gives up the unnamed statement, and nothing else. */
  function NewCheckout(o: Own): Own { o.(start := o.start.(unnamed := None)) }

  lemma NewCheckoutInStep(d: Digest, used: set<Stmt>, w: World, p: map<nat, Own>, c: nat)
    requires Inv(d, used, w, p) && c in w.tables && (c in w.held ==> c in w.buffers && w.buffers[c] == [])
    ensures c in p && c in w.buffers && w.buffers[c] == [] && ClientInStep(d, used, w.tables[c], [], NewCheckout(p[c]))
    ensures NewCheckout(p[c]).sent == []
  {
    hide LineOk, HeldOk, IdleFinished, ClientOk, AllUse;
    assert ClientInStep(d, used, w.tables[c], w.buffers[c], p[c]);
  }

  lemma AcquireKeeps(d: Digest, used: set<Stmt>, w: World, p: map<nat, Own>, c: nat, b: nat)
    requires Inv(d, used, w, p) && Enabled(w, Acquire(c, b))
    ensures Inv(d, used, Next(d, w, Acquire(c, b)), PrivateNext(p, Acquire(c, b)))
  {
    hide Inv, ClientInStep, LineOk, UnnamedOk, Finished, Taken;
    NewCheckoutInStep(d, used, w, p, c);
    GoneKeeps(d, used, w, p, c);
    var w0, o := Without(w, c), NewCheckout(p[c]);
    NoUnnamed(w.backends[b].k, Now(o));
    assert LineOk(d, used, w.backends[b]) && Finished(w.backends[b]) by { IdleIsOk(d, used, w, p, b); }
    TakenFinished(w.backends[b]);
    SeatKeeps(d, used, w0, p, c, w.tables[c], b, w.backends[b], [], o);
    assert w0.tables[c := w.tables[c]] == w.tables && w0.buffers[c := []] == w.buffers && w0.held == w.held;
    assert w.backends[b := w.backends[b]] == w.backends;
  }

  lemma IdleIsOk(d: Digest, used: set<Stmt>, w: World, p: map<nat, Own>, b: nat)
    requires Inv(d, used, w, p) && Idle(w, b)
    ensures LineOk(d, used, w.backends[b]) && Finished(w.backends[b])
  {
    hide LineOk;
    IdleIsFinished(w, b);
  }

  lemma ReleaseKeeps(d: Digest, used: set<Stmt>, w: World, p: map<nat, Own>, c: nat)
    requires Inv(d, used, w, p) && Enabled(w, Release(c))
    ensures Inv(d, used, Next(d, w, Release(c)), PrivateNext(p, Release(c)))
  {
    hide Inv, ClientInStep, LineOk, UnnamedOk;
    NewCheckoutInStep(d, used, w, p, c);
    GoneKeeps(d, used, w, p, c);
    var w0, o := Without(w, c), NewCheckout(p[c]);
    JoinKeeps(d, used, w0, p, c, w.tables[c], o);
    assert w0.tables[c := w.tables[c]] == w.tables && w0.buffers[c := []] == w.buffers;
  }

  lemma OpenKeeps(d: Digest, used: set<Stmt>, w: World, p: map<nat, Own>, b: nat, discardAll: bool)
    requires Inv(d, used, w, p) && b !in w.backends
    ensures Inv(d, used, Next(d, w, Open(b, discardAll)), p)
  {
    hide Inv, BackendOk;
    NewOk(d, used);
    assert Unheld(w, b) by { HoldersHold(d, used, w, p); }
    ChangeKeeps(d, used, w, p, b, Backend([], map[], discardAll));
  }

  lemma HoldersHold(d: Digest, used: set<Stmt>, w: World, p: map<nat, Own>)
    requires Inv(d, used, w, p)
    ensures forall c :: c in w.held ==> w.held[c] in w.backends && c in w.tables && c in w.buffers
  {
    hide UnnamedOk, Now, Finished;
    forall c | c in w.held ensures w.held[c] in w.backends && c in w.tables && c in w.buffers { assert HolderOk(w, p, c); }
  }

  lemma IdleResetKeeps(d: Digest, used: set<Stmt>, w: World, p: map<nat, Own>, b: nat)
    requires Inv(d, used, w, p) && Idle(w, b)
    ensures Inv(d, used, w.(backends := w.backends[b := Fresh(ResetBackend(w.backends[b].k))]), p)
  {
    hide Inv, BackendOk, ResetBackend;
    IdleIsOk(d, used, w, p, b);
    ResetKeeps(d, used, w.backends[b].k);
    ChangeKeeps(d, used, w, p, b, ResetBackend(w.backends[b].k));
  }

  lemma StepKeepsInv(d: Digest, used: set<Stmt>, w: World, p: map<nat, Own>, step: Step)
    requires CollisionFree(d, used) && Inv(d, used, w, p) && Enabled(w, step) && Sends(used, step) && Orderly(d, w, step)
    ensures Inv(d, used, Next(d, w, step), PrivateNext(p, step))
  {
    hide CollisionFree, Uses, Inv, LineOk, ClientInStep, Now, UnnamedOk, AfterAll, Relays, Replayed, Synced, Calm, CalmAll;
    match step {
      case Connect(c) =>
        NewOk(d, used);
        JoinKeeps(d, used, w, p, c, map[], Own(Private(map[], None), []));
      case Leave(c) =>
        HoldersHold(d, used, w, p);
        GoneKeeps(d, used, w, p, c);
      case Open(b, discardAll) => OpenKeeps(d, used, w, p, b, discardAll);
      case Acquire(c, b) => AcquireKeeps(d, used, w, p, c, b);
      case Release(c) => ReleaseKeeps(d, used, w, p, c);
      case Send(c, msg, fails) => SendKeeps(d, used, w, p, c, msg, fails);
      case Retry(c, msg, b, failing) => RetryKeeps(d, used, w, p, c, msg, b, failing);
      case Reset(b) => IdleResetKeeps(d, used, w, p, b);
    }
  }

  lemma {:induction false} RunKeepsInv(d: Digest, used: set<Stmt>, w: World, p: map<nat, Own>, steps: seq<Step>)
    requires CollisionFree(d, used) && Inv(d, used, w, p) && IsRun(d, used, w, steps) && IsOrderly(d, used, w, steps)
    ensures Inv(d, used, Run(d, used, w, steps), PrivateRun(p, steps))
    decreases |steps|
  {
    hide CollisionFree, Inv, Next, PrivateNext, Sends, Enabled, Orderly;
    if steps != [] {
      StepKeepsInv(d, used, w, p, steps[0]);
      RunKeepsInv(d, used, Next(d, w, steps[0]), PrivateNext(p, steps[0]), steps[1..]);
    }
  }

  const EMPTY := World(map[], map[], map[], map[])

  lemma EmptyInv(d: Digest, used: set<Stmt>)
    ensures Inv(d, used, EMPTY, map[])
  {}

  // ---------- what a message does ----------

  /** On every orderly run, wherever a client's message lands and whatever the others did before,
      the server does with it what the client's own would do. What else may happen: the server ignores the message after an error of the same
      exchange, the statement fails by itself, or it is turned down, and only a backend whose
      cache is out of step with its server does that. */
  lemma OrderlyRunsAct(d: Digest, used: set<Stmt>, steps: seq<Step>, c: nat, msg: Message, fails: bool)
    requires CollisionFree(d, used) && IsRun(d, used, EMPTY, steps) && IsOrderly(d, used, EMPTY, steps)
    requires Holds(Run(d, used, EMPTY, steps), c) && Uses(used, msg)
    requires var w := Run(d, used, EMPTY, steps); Calm(d, w.tables[c], LineOf(w, c), msg, fails)
    ensures c in PrivateRun(map[], steps)
    ensures var w := Run(d, used, EMPTY, steps);
            Acts(LineOf(w, c), fails, PrivateOn(Now(PrivateRun(map[], steps)[c]), msg).1, Relays(d, w, c, msg, fails).event)
  {
    hide CollisionFree, IsRun, IsOrderly, Run, PrivateRun, Uses, Relays, PrivateOn, Inv, Now, Acts, Calm;
    EmptyInv(d, used);
    RunKeepsInv(d, used, EMPTY, map[], steps);
    SendOutcome(d, used, Run(d, used, EMPTY, steps), PrivateRun(map[], steps), c, msg, fails);
  }

  // ---------- replies ----------

  predicate PlainBuffer(buffer: seq<Message>) { forall i :: 0 <= i < |buffer| ==> !IsSync(buffer[i]) }

  /** Of every line that is held the order tells where the answers are; no line is left with an
      error that the server is done with, and no exchange has a second end. */
  ghost predicate WiresOk(w: World) {
    && (forall b :: b in w.backends ==> Clean(w.backends[b]))
    && (forall c :: c in w.held && w.held[c] in w.backends ==> WireOk(w.backends[w.held[c]]))
    && (forall c :: c in w.buffers ==> PlainBuffer(w.buffers[c]))
  }

  lemma PlainExchange(buffer: seq<Message>, msg: Message)
    requires PlainBuffer(buffer)
    ensures OneExchange(buffer + [msg]) && (!IsSync(msg) ==> PlainBuffer(buffer + [msg]))
  {
    hide IsSync;
  }

  /** A client sits down with a line, and nobody else's changes. */
  lemma SeatKeepsWires(w: World, c: nat, table: Table, b: nat, l: Line, buffer: seq<Message>)
    requires WiresOk(w) && WireOk(l) && Clean(l) && PlainBuffer(buffer)
    ensures WiresOk(Seated(w, c, table, b, l, buffer))
  {
    hide WireOk, Clean, PlainBuffer;
  }

  lemma LeavingKeepsWires(w: World, c: nat, b: nat)
    requires WiresOk(w)
    ensures WiresOk(Without(w, c)) && WiresOk(Without(Discarded(w, b), c))
  {
    hide WireOk, Clean, PlainBuffer;
  }

  lemma FreshIsOk(k: Backend)
    ensures WireOk(Fresh(k)) && Clean(Fresh(k)) && PlainBuffer([])
  {}

  lemma HeldWireOk(w: World, c: nat)
    requires WiresOk(w) && Holds(w, c)
    ensures Clean(LineOf(w, c)) && WireOk(LineOf(w, c)) && PlainBuffer(w.buffers[c])
  {
    hide WireOk, Clean, PlainBuffer;
  }

  lemma SendKeepsWires(d: Digest, w: World, c: nat, msg: Message, fails: bool)
    requires WiresOk(w) && Enabled(w, Send(c, msg, fails))
    ensures WiresOk(Next(d, w, Send(c, msg, fails)))
  {
    hide WireOk, Clean, PlainBuffer, WireRelay, IsSync, WiresOk;
    HeldWireOk(w, c);
    WireRelayKeepsWire(d, w.tables[c], LineOf(w, c), msg, fails, false);
    var r, h := Relays(d, w, c, msg, fails), w.held[c];
    PlainExchange(w.buffers[c], msg);
    FreshIsOk(r.line.k);
    if r.event.Dead? {
      LeavingKeepsWires(w, c, h);
    } else if IsSync(msg) {
      SeatKeepsWires(w, c, r.table, h, Fresh(r.line.k), []);
    } else {
      SeatKeepsWires(w, c, r.table, h, r.line, Exchange(w, c, msg));
    }
  }

  /** The line of a backend nobody holds changes, or changes into one in order. */
  lemma ChangeKeepsWires(w: World, b: nat, l: Line)
    requires WiresOk(w) && Clean(l) && (Unheld(w, b) || WireOk(l))
    ensures WiresOk(w.(backends := w.backends[b := l]))
  {
    hide WireOk, Clean, PlainBuffer;
  }

  lemma RetryKeepsWires(d: Digest, w: World, c: nat, msg: Message, b: nat, failing: seq<bool>)
    requires WiresOk(w) && Enabled(w, Retry(c, msg, b, failing))
    ensures WiresOk(Next(d, w, Retry(c, msg, b, failing)))
  {
    hide WireOk, Clean, PlainBuffer, WirePass, IsSync, WiresOk, Taken;
    HeldWireOk(w, c);
    PlainExchange(w.buffers[c], msg);
    AllClean(w, b);
    TakenIsOk(w.backends[b]);
    EndedIsClean(d, w.tables[c], Anew(w, b), Exchange(w, c, msg), failing);
    var r := Replayed(d, w, c, msg, b, failing);
    LeavingKeepsWires(w, c, w.held[c]);
    var left := Without(Discarded(w, w.held[c]), c);
    FreshIsOk(r.line.k);
    if r.ended { ChangeKeepsWires(left, b, r.line); } else { SeatKeepsWires(left, c, r.table, b, Fresh(r.line.k), []); }
  }

  lemma AllClean(w: World, b: nat)
    requires WiresOk(w) && b in w.backends
    ensures Clean(w.backends[b])
  {
    hide WireOk, Clean, PlainBuffer;
  }

  lemma AcquireKeepsWires(d: Digest, w: World, c: nat, b: nat)
    requires WiresOk(w) && Enabled(w, Acquire(c, b))
    ensures WiresOk(Next(d, w, Acquire(c, b)))
  {
    hide WireOk, Clean, PlainBuffer, Taken, WiresOk;
    AllClean(w, b);
    TakenIsOk(w.backends[b]);
    ChangeKeepsWires(w, b, Anew(w, b));
    TakingKeepsWires(w.(backends := w.backends[b := Anew(w, b)]), c, b);
  }

  lemma TakingKeepsWires(w: World, c: nat, b: nat)
    requires WiresOk(w) && b in w.backends && WireOk(w.backends[b])
    ensures WiresOk(w.(held := w.held[c := b])) && WiresOk(w.(held := w.held - {c}))
  {
    hide WireOk, Clean, PlainBuffer;
  }

  lemma StepKeepsWires(d: Digest, w: World, step: Step)
    requires WiresOk(w) && Enabled(w, step)
    ensures WiresOk(Next(d, w, step))
  {
    hide WireOk, Clean, PlainBuffer, ResetBackend, IsSync, WiresOk, WirePass, WireRelay, Anew;
    match step {
      case Connect(c) => ConnectKeepsWires(w, c);
      case Leave(c) => LeavingKeepsWires(w, c, 0);
      case Open(b, discardAll) =>
        FreshIsOk(Backend([], map[], discardAll));
        ChangeKeepsWires(w, b, Fresh(Backend([], map[], discardAll)));
      case Acquire(c, b) => AcquireKeepsWires(d, w, c, b);
      case Release(c) =>
        HeldWireOk(w, c);
        TakingKeepsWires(w, c, w.held[c]);
      case Reset(b) =>
        FreshIsOk(ResetBackend(w.backends[b].k));
        ChangeKeepsWires(w, b, Fresh(ResetBackend(w.backends[b].k)));
      case Send(c, msg, fails) => SendKeepsWires(d, w, c, msg, fails);
      case Retry(c, msg, b, failing) => RetryKeepsWires(d, w, c, msg, b, failing);
    }
  }

  lemma ConnectKeepsWires(w: World, c: nat)
    requires WiresOk(w)
    ensures WiresOk(w.(tables := w.tables[c := map[]], buffers := w.buffers[c := []]))
  {
    hide WireOk, Clean;
  }

  lemma {:induction false} RunKeepsWires(d: Digest, used: set<Stmt>, w: World, steps: seq<Step>)
    requires WiresOk(w) && IsRun(d, used, w, steps)
    ensures WiresOk(Run(d, used, w, steps))
    decreases |steps|
  {
    hide WiresOk, Next, Enabled, Sends;
    if steps != [] {
      StepKeepsWires(d, w, steps[0]);
      RunKeepsWires(d, used, Next(d, w, steps[0]), steps[1..]);
    }
  }

  lemma EmptyWires()
    ensures WiresOk(EMPTY)
  {}

  /** On every run, orderly or not, and as far as the order is known: the client reads the
      answers of its exchange, all of them, in order and nothing else, exactly when nothing stood
      on the line when its backend was taken and the answers are straight. And a message leaves
      them straight exactly when, if it is refused, nothing waits, and otherwise what havuz sends
      for it meets nothing but replies like the one it waits for. */
  lemma AnswersReachIff(d: Digest, used: set<Stmt>, steps: seq<Step>, c: nat, msg: Message, fails: bool)
    requires IsRun(d, used, EMPTY, steps) && Holds(Run(d, used, EMPTY, steps), c)
    ensures var w := Run(d, used, EMPTY, steps);
            var l, r := LineOf(w, c), Relays(d, w, c, msg, fails);
            && (!r.line.order.Unsure? ==> (Right(r.line) <==> r.line.order.Straight? && r.line.foreign == 0))
            && (!r.event.Dead? ==>
                  (r.line.order.Straight? <==>
                   l.order.Straight? && if r.event.Refusal? then l.pending == [] else Harmless(d, w.tables[c], l, msg, false)))
            && (Sure(l) && msg.tag != CLOSE && !r.event.Dead? ==> Sure(r.line))
  {
    hide IsRun, Run, WireOk, WireRelay, Harmless, WiresOk, Clean, Right, Sure;
    EmptyWires();
    RunKeepsWires(d, used, EMPTY, steps);
    var w := Run(d, used, EMPTY, steps);
    var l := LineOf(w, c);
    HeldWireOk(w, c);
    WireRelayKeepsWire(d, w.tables[c], l, msg, fails, false);
    if !Relays(d, w, c, msg, fails).line.order.Unsure? { RightIff(Relays(d, w, c, msg, fails).line); }
    StraightIff(d, w.tables[c], l, msg, fails, false);
    if Sure(l) && msg.tag != CLOSE { SureWithoutCloses(d, w.tables[c], l, msg, fails, false); }
  }

  // ---------- retries ----------

  /** The exact condition for a retry, after every orderly run: on a backend in step, with no
      statement that fails by itself, the server does with the exchange what the client's own
      would do if and only if it may be replayed. */
  lemma RetriedExactly(d: Digest, used: set<Stmt>, steps: seq<Step>, c: nat, msg: Message, b: nat, failing: seq<bool>)
    requires CollisionFree(d, used) && IsRun(d, used, EMPTY, steps) && IsOrderly(d, used, EMPTY, steps)
    requires Enabled(Run(d, used, EMPTY, steps), Retry(c, msg, b, failing)) && Uses(used, msg)
    ensures c in PrivateRun(map[], steps)
    ensures var w, start := Run(d, used, EMPTY, steps), PrivateRun(map[], steps)[c].start;
            var sent, l := Exchange(w, c, msg), Anew(w, b);
            && (Replayable(start, sent) && CalmAll(d, w.tables[c], l, sent, failing) ==>
                  OwnOrTurnedDown(start, sent, Replayed(d, w, c, msg, b, failing).events))
            && (Synced(l.k) && !LosesAny(d, w.tables[c], l, sent, []) && AllPromised(start, sent) &&
                (start.unnamed.Some? ==> [] !in l.k.server) ==>
                  (ServedPrivately(start, sent, Replayed(d, w, c, msg, b, [])) <==> Replayable(start, sent)))
  {
    hide CollisionFree, IsRun, IsOrderly, Run, PrivateRun, Uses, Inv, Now, Synced, WirePass, Replayable, LosesAny, ClientOk, BackendOk,
      AllUse, AfterAll, ServedPrivately, OwnOrTurnedDown, CalmAll, AllPromised, OneExchange, Clean, IsSync;
    EmptyInv(d, used);
    RunKeepsInv(d, used, EMPTY, map[], steps);
    var w, p := Run(d, used, EMPTY, steps), PrivateRun(map[], steps);
    RetryStart(d, used, w, p, c, msg, b);
    var start, sent, l := p[c].start, Exchange(w, c, msg), Anew(w, b);
    if Replayable(start, sent) && CalmAll(d, w.tables[c], l, sent, failing) {
      RetriedRunsOwn(d, used, w.tables[c], l, start, sent, failing);
    }
    if Synced(l.k) && !LosesAny(d, w.tables[c], l, sent, []) && AllPromised(start, sent) && (start.unnamed.Some? ==> [] !in l.k.server) {
      RetriedIff(d, used, w.tables[c], l, start, sent);
    }
  }

  // ---------- refinement ----------

  /** A step that leaves no statement on a server the cache does not know of. */
  predicate Tidy(d: Digest, w: World, step: Step)
    requires Enabled(w, step)
  {
    match step
    case Retry(c, msg, b, failing) => !LosesAny(d, w.tables[c], Anew(w, b), Exchange(w, c, msg), failing)
    case Reset(b) => w.backends[b].k.discardAll || forall g :: g in w.backends[b].k.server ==> g == []
    case _ => true
  }

  predicate IsTidy(d: Digest, used: set<Stmt>, w: World, steps: seq<Step>)
    requires IsRun(d, used, w, steps)
    decreases |steps|
  {
    steps == [] || (Tidy(d, w, steps[0]) && IsTidy(d, used, Next(d, w, steps[0]), steps[1..]))
  }

  ghost predicate AllSynced(w: World) { forall b :: b in w.backends ==> Synced(w.backends[b].k) }

  lemma StepKeepsSynced(d: Digest, used: set<Stmt>, w: World, p: map<nat, Own>, step: Step)
    requires CollisionFree(d, used) && Inv(d, used, w, p) && Enabled(w, step) && Sends(used, step) && AllSynced(w)
    requires Orderly(d, w, step) && Tidy(d, w, step)
    ensures AllSynced(Next(d, w, step))
  {
    hide CollisionFree, Uses, Synced, Inv, BackendOk, WireRelay, WirePass, LosesAny, ResetBackend, AfterAll, Now, Acts, Calm, CalmAll,
      ClientInStep, UnnamedOk, Clean, IsSync;
    match step {
      case Open(_, _) => NewOk(d, used);
      case Send(c, msg, fails) => SendOutcome(d, used, w, p, c, msg, fails);
      case Retry(c, msg, b, failing) => RetryOutcome(d, used, w, p, c, msg, b, failing);
      case Reset(b) =>
        IdleIsOk(d, used, w, p, b);
        ResetKeeps(d, used, w.backends[b].k);
      case _ =>
    }
  }

  lemma {:induction false} RunKeepsSynced(d: Digest, used: set<Stmt>, w: World, p: map<nat, Own>, steps: seq<Step>)
    requires CollisionFree(d, used) && Inv(d, used, w, p) && AllSynced(w)
    requires IsRun(d, used, w, steps) && IsOrderly(d, used, w, steps) && IsTidy(d, used, w, steps)
    ensures AllSynced(Run(d, used, w, steps))
    decreases |steps|
  {
    hide CollisionFree, Inv, Next, PrivateNext, Sends, Enabled, AllSynced, Tidy, Orderly;
    if steps != [] {
      StepKeepsInv(d, used, w, p, steps[0]);
      StepKeepsSynced(d, used, w, p, steps[0]);
      RunKeepsSynced(d, used, Next(d, w, steps[0]), PrivateNext(p, steps[0]), steps[1..]);
    }
  }

  /** Exactly what the client's own server would do, up to errors of the statement itself and
      what they make the server ignore. */
  predicate Exactly(l: Line, fails: bool, own: Outcome, e: Event) {
    || own.Unspecified?
    || (l.skipping && e == Served(Skipped))
    || (fails && e == Served(Failed))
    || e == if own == Refused then Refusal else Served(own)
  }

  /** Refinement. On an orderly run on which no reset leaves statements behind and no second pass
      drops one, every cache is its server's set of named statements, the server does with every
      message exactly what the client's own would do, and with a retried exchange exactly when
      that may be replayed. */
  lemma TidyRunsArePrivate(d: Digest, used: set<Stmt>, steps: seq<Step>, c: nat, msg: Message, fails: bool)
    requires CollisionFree(d, used) && IsRun(d, used, EMPTY, steps)
    requires IsOrderly(d, used, EMPTY, steps) && IsTidy(d, used, EMPTY, steps)
    requires Holds(Run(d, used, EMPTY, steps), c) && Uses(used, msg)
    requires var w := Run(d, used, EMPTY, steps); Calm(d, w.tables[c], LineOf(w, c), msg, fails)
    ensures AllSynced(Run(d, used, EMPTY, steps))
    ensures c in PrivateRun(map[], steps)
    ensures var w := Run(d, used, EMPTY, steps);
            Exactly(LineOf(w, c), fails, PrivateOn(Now(PrivateRun(map[], steps)[c]), msg).1, Relays(d, w, c, msg, fails).event)
    ensures forall b :: var w, start := Run(d, used, EMPTY, steps), PrivateRun(map[], steps)[c].start;
              Enabled(w, Retry(c, msg, b, [])) && Tidy(d, w, Retry(c, msg, b, [])) && start.unnamed.None? &&
              AllPromised(start, Exchange(w, c, msg)) ==>
                (ServedPrivately(start, Exchange(w, c, msg), Replayed(d, w, c, msg, b, [])) <==>
                 Replayable(start, Exchange(w, c, msg)))
  {
    hide CollisionFree, IsRun, IsOrderly, IsTidy, Run, PrivateRun, Uses, Relays, PrivateOn, Inv, Now, Synced, Replayed, LosesAny,
      Replayable, ServedPrivately, OwnOrTurnedDown, Calm, CalmAll, AllPromised, IsSync;
    EmptyInv(d, used);
    RunKeepsInv(d, used, EMPTY, map[], steps);
    RunKeepsSynced(d, used, EMPTY, map[], steps);
    var w, p := Run(d, used, EMPTY, steps), PrivateRun(map[], steps);
    OrderlyRunsAct(d, used, steps, c, msg, fails);
    forall b | Enabled(w, Retry(c, msg, b, [])) && Tidy(d, w, Retry(c, msg, b, [])) && p[c].start.unnamed.None? &&
               AllPromised(p[c].start, Exchange(w, c, msg))
      ensures ServedPrivately(p[c].start, Exchange(w, c, msg), Replayed(d, w, c, msg, b, [])) <==>
              Replayable(p[c].start, Exchange(w, c, msg))
    {
      RetriedExactly(d, used, steps, c, msg, b, []);
    }
  }

  /** A backend reset with RESET ALL keeps its statements and forgets that it has them: any
      client that binds one of them there is refused. */
  lemma ResetAllRefusesBind(d: Digest, used: set<Stmt>, table: Table, k: Backend, p: Private, msg: Message)
    requires CollisionFree(d, used) && ClientOk(d, used, table, p.table) && BackendOk(d, used, k)
    requires msg.tag == BIND && BindStatementName(msg.body).Ok? && BindStatementName(msg.body).value in p.table
    requires Named(d, p.table[BindStatementName(msg.body).value]) in k.server
    ensures Relay(d, table, ResetBackend(k), msg, false).2 ==
            if k.discardAll then Ran(p.table[BindStatementName(msg.body).value], BindRest(msg.body)) else Duplicate
  {
    hide CollisionFree, ClientOk, BackendOk, Relay, BindStatementName;
    ResetKeeps(d, used, k);
    BindRunsIff(d, used, table, ResetBackend(k), p, msg, false);
  }

  /** On the line such a Bind costs the client its session. */
  lemma TurnedDownDies(d: Digest, used: set<Stmt>, table: Table, k: Backend, p: Private, msg: Message, name: Bytes)
    requires CollisionFree(d, used) && ClientOk(d, used, table, p.table) && BackendOk(d, used, k)
    requires name in p.table && Names(msg, name) && Named(d, p.table[name]) in k.server && Named(d, p.table[name]) !in k.cache
    ensures WireRelay(d, table, Fresh(k), msg, false, false).event == Dead
  {
    hide CollisionFree, DecodeParse, BindStatementName, DescribeTarget, GlobalName, Bounded, BuildParse;
    var s := p.table[name];
    assert table[name] == Entry(d, s.sql, s.types);
    var parse := BuildParse(Named(d, s), s.sql, s.types);
    HeldIsTurnedDown(d, used, k, s);
    GlobalNameIsText(d, s.sql, s.types);
    RenamedReadsBack(msg.body, Named(d, s));
    var h := SideParse(Fresh(k), parse);
    assert [] + [Reply(None, ErrorReply)] == [Reply(None, ErrorReply)];
    assert h.Heard? && h.kind == ErrorReply;
  }

  lemma HeldIsTurnedDown(d: Digest, used: set<Stmt>, k: Backend, s: Stmt)
    requires CollisionFree(d, used) && s in used && Named(d, s) in k.server
    ensures ServerOn(k.server, Message(PARSE, BuildParse(Named(d, s), s.sql, s.types))) == (k.server, Duplicate)
    ensures Named(d, s) != []
  {
    hide DecodeParse, GlobalName, Readable;
    GlobalNameIsText(d, s.sql, s.types);
    assert Readable(s);
    TextOf(s);
    DecodeParseComplete(Named(d, s), s.sql, s.types);
  }
}
