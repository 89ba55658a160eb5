/** A whole exchange, and its second pass (txn.rs): when a replica dies before answering, the
    buffered messages are replayed on another backend, starting from the table that the first
    pass left behind. */
module PreparedRetry {
  import opened Text
  import opened Wire
  import opened Prepared
  import opened Statements
  import opened PreparedRelay
  import opened PreparedWire
  import opened PreparedOrder

  // ---------- an exchange on the client's own server ----------

  /** What a message does to the client's own server. */
  datatype Act = ParseOf(name: Bytes, stmt: Stmt) | ReadOf(name: Bytes) | CloseOf(name: Bytes) | Garbage | Other

  function ActOf(msg: Message): Act {
    if msg.tag == PARSE then
      match DecodeParse(msg.body)
      case Err(_) => Garbage
      case Ok(q) => ParseOf(q.name, Stmt(q.sql, q.types))
    else if msg.tag == BIND then
      match BindStatementName(msg.body)
      case Err(_) => Garbage
      case Ok(name) => ReadOf(name)
    else if msg.tag == DESCRIBE || msg.tag == CLOSE then
      match DescribeTarget(msg.body)
      case Err(_) => Garbage
      case Ok((kind, name)) =>
        if kind != STATEMENT then Other else if msg.tag == DESCRIBE then ReadOf(name) else CloseOf(name)
    else Other
  }

  /** What the client's own server holds under a name. */
  function Look(p: Private, name: Bytes): Option<Stmt> {
    if name == [] then p.unnamed else if name in p.table then Some(p.table[name]) else None
  }

  /** The private step, read off the act. */
  lemma PrivateByAct(p: Private, msg: Message)
    ensures var (p', o) := PrivateOn(p, msg);
            match ActOf(msg)
            case ParseOf(n, s) =>
              && o == Parsed(s) && Look(p', n) == Some(s) && (forall m :: m != n ==> Look(p', m) == Look(p, m))
            case ReadOf(n) =>
              && p' == p
              && o == match Look(p, n) { case Some(s) => Ran(s, RestOf(msg)) case None => if n == [] then Unspecified else Refused }
            case CloseOf(n) =>
              && o == (if n == [] || Look(p, n).Some? then Closed else Refused)
              && Look(p', n) == None && (forall m :: m != n ==> Look(p', m) == Look(p, m))
            case Garbage => o == Refused && p' == p
            case Other => o == Passed(msg) && p' == p
  {
    hide DecodeParse, BindStatementName, DescribeTarget;
  }

  function AfterAll(p: Private, sent: seq<Message>): Private
    decreases |sent|
  {
    if sent == [] then p else AfterAll(PrivateOn(p, sent[0]).0, sent[1..])
  }

  lemma {:induction false} AfterAllOne(p: Private, sent: seq<Message>, msg: Message)
    ensures AfterAll(p, sent + [msg]) == PrivateOn(AfterAll(p, sent), msg).0
    decreases |sent|
  {
    hide PrivateOn;
    if sent == [] {
      assert sent + [msg] == [msg] && [msg][1..] == [];
    } else {
      assert (sent + [msg])[1..] == sent[1..] + [msg];
      AfterAllOne(PrivateOn(p, sent[0]).0, sent[1..], msg);
    }
  }

  /** What the exchange last did to a name: nothing, or left it holding this. */
  function LastWrite(sent: seq<Message>, name: Bytes): Option<Option<Stmt>> {
    if sent == [] then None
    else
      var rest := LastWrite(sent[1..], name);
      if rest.Some? then rest
      else match ActOf(sent[0])
        case ParseOf(n, s) => if n == name then Some(Some(s)) else None
        case CloseOf(n) => if n == name then Some(None) else None
        case _ => None
  }

  /** Where an exchange leaves a name depends on its start only if the exchange never writes it. */
  lemma {:induction false} LookAfter(p: Private, sent: seq<Message>, name: Bytes)
    ensures Look(AfterAll(p, sent), name) ==
            match LastWrite(sent, name) { case Some(s) => s case None => Look(p, name) }
    decreases |sent|
  {
    hide PrivateOn, Look, ActOf;
    if sent != [] {
      PrivateByAct(p, sent[0]);
      LookAfter(PrivateOn(p, sent[0]).0, sent[1..], name);
    }
  }

  lemma {:induction false} NamesStayNamed(p: Private, sent: seq<Message>)
    requires [] !in p.table
    ensures [] !in AfterAll(p, sent).table
    decreases |sent|
  {
    hide DecodeParse, BindStatementName, DescribeTarget;
    if sent != [] { NamesStayNamed(PrivateOn(p, sent[0]).0, sent[1..]); }
  }

  lemma SameLooks(a: Private, b: Private)
    requires [] !in a.table && [] !in b.table && forall n :: Look(a, n) == Look(b, n)
    ensures a == b
  {
    assert forall n :: n != [] ==> (n in a.table <==> Look(a, n).Some?);
    assert forall n :: n != [] ==> (n in b.table <==> Look(b, n).Some?);
    assert a.table.Keys == b.table.Keys;
    assert forall n :: n in a.table ==> Look(a, n) == Some(a.table[n]) && Look(b, n) == Some(b.table[n]);
    assert Look(a, []) == Look(b, []);
  }

  /** The client as the second pass finds it: the table of the first pass, and no unnamed
      statement on the new backend. */
  function Again(p: Private, sent: seq<Message>): Private { Private(AfterAll(p, sent).table, None) }

  /** Running the exchange twice leaves the client where running it once would, so a second
      pass that gets to its end does no lasting harm. */
  lemma TwiceIsOnce(p: Private, sent: seq<Message>)
    requires [] !in p.table
    ensures AfterAll(Again(p, sent), sent) == AfterAll(p.(unnamed := None), sent)
    ensures AfterAll(p.(unnamed := None), sent).table == AfterAll(p, sent).table
  {
    hide AfterAll;
    var q, r := p.(unnamed := None), Again(p, sent);
    NamesStayNamed(p, sent);
    NamesStayNamed(q, sent);
    NamesStayNamed(r, sent);
    var once, a, b := AfterAll(p, sent), AfterAll(q, sent), AfterAll(r, sent);
    forall n ensures Look(a, n) == Look(b, n) && (n != [] ==> Look(a, n) == Look(once, n)) {
      LookAfter(p, sent, n);
      LookAfter(q, sent, n);
      LookAfter(r, sent, n);
    }
    SameLooks(a, b);
    assert SameLooksTable(a, once) by { assert forall n :: n != [] ==> Look(a, n) == Look(once, n); }
    SameTables(a, once);
  }

  ghost predicate SameLooksTable(a: Private, b: Private) { forall n :: n != [] ==> Look(a, n) == Look(b, n) }

  lemma SameTables(a: Private, b: Private)
    requires [] !in a.table && [] !in b.table && SameLooksTable(a, b)
    ensures a.table == b.table
  {
    forall n ensures Look(a.(unnamed := None), n) == Look(b.(unnamed := None), n) {
      if n != [] { assert Look(a, n) == Look(b, n); }
    }
    SameLooks(a.(unnamed := None), b.(unnamed := None));
  }

  // ---------- when the two passes are answered alike ----------

  predicate NoneRefused(p: Private, sent: seq<Message>)
    decreases |sent|
  {
    sent == [] || (PrivateOn(p, sent[0]).1 != Refused && NoneRefused(PrivateOn(p, sent[0]).0, sent[1..]))
  }

  /** The exchange binds or describes the name before it parses or closes it. */
  predicate Reads(sent: seq<Message>, name: Bytes) {
    sent != [] &&
    match ActOf(sent[0])
    case ReadOf(n) => n == name || Reads(sent[1..], name)
    case ParseOf(n, _) => n != name && Reads(sent[1..], name)
    case CloseOf(n) => n != name && Reads(sent[1..], name)
    case _ => Reads(sent[1..], name)
  }

  /** The exchange closes the name before it parses it. */
  predicate ClosesFirst(sent: seq<Message>, name: Bytes) {
    sent != [] &&
    match ActOf(sent[0])
    case CloseOf(n) => n == name || ClosesFirst(sent[1..], name)
    case ParseOf(n, _) => n != name && ClosesFirst(sent[1..], name)
    case _ => ClosesFirst(sent[1..], name)
  }

  /** Two private servers answer the exchange alike, refusing nothing. */
  predicate AnsweredSame(p: Private, q: Private, sent: seq<Message>)
    decreases |sent|
  {
    sent == [] ||
    (var (p', o) := PrivateOn(p, sent[0]); var (q', o') := PrivateOn(q, sent[0]);
     (o.Unspecified? || (o == o' && o != Refused)) && AnsweredSame(p', q', sent[1..]))
  }

  predicate ReadsAlike(p: Private, q: Private, name: Bytes) {
    Look(p, name) == Look(q, name) || (name == [] && p.unnamed.None?)
  }

  ghost predicate StartsAlike(p: Private, q: Private, sent: seq<Message>) {
    && NoneRefused(p, sent)
    && (forall n :: Reads(sent, n) ==> ReadsAlike(p, q, n))
    && (forall n :: n != [] && ClosesFirst(sent, n) ==> Look(q, n).Some?)
  }

  /** A name closed before it is parsed must have been there. */
  lemma {:induction false} ClosedWasThere(p: Private, sent: seq<Message>, name: Bytes)
    requires NoneRefused(p, sent) && ClosesFirst(sent, name) && name != []
    ensures Look(p, name).Some?
    decreases |sent|
  {
    hide PrivateOn, ActOf, Look;
    PrivateByAct(p, sent[0]);
    if !(ActOf(sent[0]).CloseOf? && ActOf(sent[0]).name == name) {
      ClosedWasThere(PrivateOn(p, sent[0]).0, sent[1..], name);
    }
  }

  lemma {:induction false} AnsweredSameIff(p: Private, q: Private, sent: seq<Message>)
    ensures AnsweredSame(p, q, sent) <==> StartsAlike(p, q, sent)
    decreases |sent|
  {
    hide PrivateOn, ActOf, Look;
    if sent != [] {
      var (p', o) := PrivateOn(p, sent[0]); var (q', o') := PrivateOn(q, sent[0]);
      AnsweredSameIff(p', q', sent[1..]);
      HeadAlike(p, q, sent);
    }
  }

  /** The condition for the exchange, from its first message and the rest. */
  lemma HeadAlike(p: Private, q: Private, sent: seq<Message>)
    requires sent != []
    ensures var (p', o) := PrivateOn(p, sent[0]); var (q', o') := PrivateOn(q, sent[0]);
            StartsAlike(p, q, sent) <==>
            (o.Unspecified? || (o == o' && o != Refused)) && StartsAlike(p', q', sent[1..])
  {
    hide PrivateOn, ActOf;
    var (p', o) := PrivateOn(p, sent[0]); var (q', o') := PrivateOn(q, sent[0]);
    var rest := sent[1..];
    PrivateByAct(p, sent[0]);
    PrivateByAct(q, sent[0]);
    match ActOf(sent[0]) {
      case ParseOf(n, s) =>
        assert forall m :: Reads(sent, m) <==> m != n && Reads(rest, m);
        assert forall m :: ClosesFirst(sent, m) <==> m != n && ClosesFirst(rest, m);
        assert ReadsAlike(p', q', n);
        assert forall m :: m != n ==> (ReadsAlike(p', q', m) <==> ReadsAlike(p, q, m));
      case ReadOf(n) =>
        assert forall m :: Reads(sent, m) <==> m == n || Reads(rest, m);
        assert forall m :: ClosesFirst(sent, m) <==> ClosesFirst(rest, m);
        assert o.Unspecified? || (o == o' && o != Refused) <==> ReadsAlike(p, q, n) && o != Refused;
        assert Reads(sent, n);
      case CloseOf(n) =>
        assert forall m :: Reads(sent, m) <==> m != n && Reads(rest, m);
        assert forall m :: ClosesFirst(sent, m) <==> m == n || ClosesFirst(rest, m);
        assert ReadsAlike(p', q', n);
        assert forall m :: m != n ==> (ReadsAlike(p', q', m) <==> ReadsAlike(p, q, m));
        if n != [] && NoneRefused(p', rest) && ClosesFirst(rest, n) { ClosedWasThere(p', rest, n); }
      case Garbage =>
      case Other =>
        assert forall m :: Reads(sent, m) <==> Reads(rest, m);
        assert forall m :: ClosesFirst(sent, m) <==> ClosesFirst(rest, m);
    }
  }

  /** An exchange that may be replayed. Nothing in it was refused; a name it binds or describes
      before writing it ends as it began; a name it closes first is parsed again by the end; and
      it uses no unnamed statement of an earlier exchange. */
  ghost predicate Replayable(p: Private, sent: seq<Message>) {
    var after := AfterAll(p, sent);
    && NoneRefused(p, sent)
    && (forall n :: n != [] && Reads(sent, n) ==> Look(after, n) == Look(p, n))
    && (forall n :: n != [] && ClosesFirst(sent, n) ==> Look(after, n).Some?)
    && (Reads(sent, []) ==> p.unnamed.None?)
  }

  lemma ReplayableIff(p: Private, sent: seq<Message>)
    ensures AnsweredSame(p, Again(p, sent), sent) <==> Replayable(p, sent)
  {
    hide AfterAll, NoneRefused, Reads, ClosesFirst, AnsweredSame;
    var again, after := Again(p, sent), AfterAll(p, sent);
    AnsweredSameIff(p, again, sent);
    assert forall n :: n != [] ==> Look(again, n) == Look(after, n);
    assert forall n :: n != [] ==> (ReadsAlike(p, again, n) <==> Look(after, n) == Look(p, n));
    assert ReadsAlike(p, again, []) <==> p.unnamed.None?;
  }

  predicate Writes(sent: seq<Message>, name: Bytes) { LastWrite(sent, name).Some? }

  /** In particular an exchange that parses every name it writes before it uses it. */
  lemma ParsedFirstIsReplayable(p: Private, sent: seq<Message>)
    requires NoneRefused(p, sent)
    requires forall n :: Writes(sent, n) ==> !Reads(sent, n) && !ClosesFirst(sent, n)
    requires Reads(sent, []) ==> p.unnamed.None?
    ensures Replayable(p, sent)
  {
    hide AfterAll, NoneRefused, Reads, ClosesFirst;
    forall n ensures Look(AfterAll(p, sent), n) == Look(p, n) || Writes(sent, n) { LookAfter(p, sent, n); }
    forall n ensures ClosesFirst(sent, n) ==> Writes(sent, n) { ClosesAreWrites(sent, n); }
  }

  lemma {:induction false} ClosesAreWrites(sent: seq<Message>, name: Bytes)
    ensures ClosesFirst(sent, name) ==> Writes(sent, name)
  {
    hide ActOf;
    if sent != [] { ClosesAreWrites(sent[1..], name); }
  }

  // ---------- one message of the second pass ----------

  /** A message that cannot be rewritten, or whose statement cannot be taught, ends the session. */
  predicate Ends(msg: Message, o: Outcome) { o == Refused || (o == Duplicate && msg.tag != PARSE) }

  predicate AllUse(used: set<Stmt>, sent: seq<Message>) { forall i :: 0 <= i < |sent| ==> Uses(used, sent[i]) }

  /** A backend with no unnamed statement gets none from a message that parses none. */
  lemma UnnamedStays(d: Digest, used: set<Stmt>, table: Table, k: Backend, p: Private, msg: Message, retry: bool)
    requires CollisionFree(d, used) && Uses(used, msg)
    requires ClientOk(d, used, table, p.table) && BackendOk(d, used, k)
    requires [] !in k.server && p.unnamed.None? && PrivateOn(p, msg).0.unnamed.None?
    ensures [] !in Relay(d, table, k, msg, retry).1.server
    ensures PrivateOn(p, msg).1.Unspecified? ==> Relay(d, table, k, msg, retry).2 == Missing
  {
    hide CollisionFree, DecodeParse, BindStatementName, DescribeTarget, BackendOk, Entry, Bounded, Removed;
    if msg.tag == PARSE && DecodeParse(msg.body).Ok? && DecodeParse(msg.body).value.name != [] {
      ParseEffect(d, table, k, p, msg, retry);
    } else if name :| name in p.table && Names(msg, name) {
      NamedEffect(d, used, table, k, p, msg, name, retry);
    } else if name :| name in p.table && msg.tag == CLOSE && DescribeTarget(msg.body) == Ok((STATEMENT, name)) {
      CloseEffect(d, used, table, k, p, msg, name, retry);
    } else {
      UnnamedOther(d, used, table, k, p, msg, retry);
    }
  }

  lemma UnnamedOther(d: Digest, used: set<Stmt>, table: Table, k: Backend, p: Private, msg: Message, retry: bool)
    requires ClientOk(d, used, table, p.table)
    requires [] !in k.server && p.unnamed.None? && PrivateOn(p, msg).0.unnamed.None?
    requires !(msg.tag == PARSE && DecodeParse(msg.body).Ok? && DecodeParse(msg.body).value.name != [])
    requires forall name :: name in p.table ==> !Names(msg, name)
    requires forall name :: name in p.table ==> !(msg.tag == CLOSE && DescribeTarget(msg.body) == Ok((STATEMENT, name)))
    ensures [] !in Relay(d, table, k, msg, retry).1.server
    ensures PrivateOn(p, msg).1.Unspecified? ==> Relay(d, table, k, msg, retry).2 == Missing
  {
    hide DecodeParse, BindStatementName, DescribeTarget, Entry, Bounded, GlobalName;
    if msg.tag == BIND && BindStatementName(msg.body).Ok? {
      assert Names(msg, BindStatementName(msg.body).value);
    }
    if (msg.tag == DESCRIBE || msg.tag == CLOSE) && DescribeTarget(msg.body).Ok? {
      var (kind, name) := DescribeTarget(msg.body).value;
      assert kind == STATEMENT && msg.tag == DESCRIBE ==> Names(msg, name);
    }
  }

  predicate NewServer(k: Backend, p: Private, q: Private) { p.unnamed.Some? && q.unnamed.None? ==> [] !in k.server }

  /** One message of the second pass, told as the first client's own server would tell it. */
  lemma HeadAnswer(d: Digest, used: set<Stmt>, table: Table, k: Backend, p: Private, q: Private, msg: Message)
    requires CollisionFree(d, used) && Uses(used, msg) && Synced(k)
    requires ClientOk(d, used, table, q.table) && BackendOk(d, used, k) && UnnamedOk(k, q) && NewServer(k, p, q)
    ensures var (_, k', o) := Relay(d, table, k, msg, true);
            var (p', own) := PrivateOn(p, msg); var (q', again) := PrivateOn(q, msg);
            && ((own.Unspecified? || o == own) && !Ends(msg, o) <==> own.Unspecified? || (own == again && own != Refused))
            && NewServer(k', p', q')
  {
    hide CollisionFree, Uses, ClientOk, BackendOk, UnnamedOk, Synced, Loses, Relay, PrivateOn;
    MessageKeeps(d, used, table, k, q, msg, true);
    assert StepKeeps(d, used, table, k, q, msg, true);
    PrivateByAct(p, msg);
    PrivateByAct(q, msg);
    LookUnnamed(p, msg);
    LookUnnamed(q, msg);
    if [] !in k.server && q.unnamed.None? && PrivateOn(q, msg).0.unnamed.None? {
      UnnamedStays(d, used, table, k, q, msg, true);
    }
  }

  lemma LookUnnamed(p: Private, msg: Message)
    ensures Look(p, []) == p.unnamed && Look(PrivateOn(p, msg).0, []) == PrivateOn(p, msg).0.unnamed
  {
    hide PrivateOn;
  }

  // ---------- the second pass on the line ----------

  datatype WireReplay = WireReplay(table: Table, line: Line, events: seq<Event>, ended: bool)

  /** A refused message, or a replay the server turns down, ends the session. */
  predicate EndsSession(e: Event) { e.Refusal? || e.Dead? }

  /** Does the first of these messages fail by itself? */
  predicate First(fails: seq<bool>) { fails != [] && fails[0] }

  function Later(fails: seq<bool>): seq<bool> { if fails == [] then [] else fails[1..] }

  function WirePass(d: Digest, table: Table, l: Line, sent: seq<Message>, fails: seq<bool>): WireReplay
    decreases |sent|
  {
    if sent == [] then WireReplay(table, l, [], false)
    else
      var r := WireRelay(d, table, l, sent[0], First(fails), true);
      if EndsSession(r.event) then WireReplay(r.table, r.line, [r.event], true)
      else
        var rest := WirePass(d, r.table, r.line, sent[1..], Later(fails));
        rest.(events := [r.event] + rest.events)
  }

  /** No statement is sent after an error, all through the pass. */
  predicate CalmAll(d: Digest, table: Table, l: Line, sent: seq<Message>, fails: seq<bool>)
    decreases |sent|
  {
    sent == [] ||
    (Calm(d, table, l, sent[0], First(fails)) &&
     (var r := WireRelay(d, table, l, sent[0], First(fails), true);
      EndsSession(r.event) || CalmAll(d, r.table, r.line, sent[1..], Later(fails))))
  }

  /** Somewhere in the pass a full cache drops a name that the server keeps. */
  predicate LosesAny(d: Digest, table: Table, l: Line, sent: seq<Message>, fails: seq<bool>)
    decreases |sent|
  {
    sent != [] &&
    (Loses(d, l.k, sent[0], true) ||
     (var r := WireRelay(d, table, l, sent[0], First(fails), true);
      !EndsSession(r.event) && LosesAny(d, r.table, r.line, sent[1..], Later(fails))))
  }

  /** Only the last message ends the exchange. */
  predicate OneExchange(sent: seq<Message>) { forall i :: 0 <= i < |sent| - 1 ==> !IsSync(sent[i]) }

  lemma OneExchangeTail(sent: seq<Message>)
    requires OneExchange(sent) && sent != []
    ensures OneExchange(sent[1..]) && (|sent| > 1 ==> !IsSync(sent[0]))
  {}

  /** What ends an exchange is neither refused nor the end of the session. */
  lemma SyncIsServed(d: Digest, table: Table, l: Line, msg: Message, fails: bool, retry: bool)
    requires IsSync(msg)
    ensures WireRelay(d, table, l, msg, fails, retry).event.Served?
  {
    hide Serve;
  }

  /** A pass that ends the session leaves no error waiting that the server is done with. */
  lemma {:induction false} EndedIsClean(d: Digest, table: Table, l: Line, sent: seq<Message>, fails: seq<bool>)
    requires OneExchange(sent) && (sent != [] ==> WireOk(l) && Clean(l))
    ensures var r := WirePass(d, table, l, sent, fails); r.ended ==> Clean(r.line)
    decreases |sent|
  {
    hide WireOk, WireRelay, Clean, IsSync;
    if sent != [] {
      OneExchangeTail(sent);
      WireRelayKeepsWire(d, table, l, sent[0], First(fails), true);
      if IsSync(sent[0]) { SyncIsServed(d, table, l, sent[0], First(fails), true); }
      var r := WireRelay(d, table, l, sent[0], First(fails), true);
      if !EndsSession(r.event) { EndedIsClean(d, r.table, r.line, sent[1..], Later(fails)); }
    }
  }

  /** A calm pass that gets to its end leaves the backend sound and the client where its own
      server would be. */
  lemma {:induction false} WirePassKeeps(d: Digest, used: set<Stmt>, table: Table, l: Line, p: Private,
                                         sent: seq<Message>, fails: seq<bool>)
    requires CollisionFree(d, used) && AllUse(used, sent) && OneExchange(sent) && (sent != [] ==> Clean(l))
    requires ClientOk(d, used, table, p.table) && BackendOk(d, used, l.k) && UnnamedOk(l.k, p)
    requires CalmAll(d, table, l, sent, fails) && !WirePass(d, table, l, sent, fails).ended
    ensures var r := WirePass(d, table, l, sent, fails);
            && BackendOk(d, used, r.line.k)
            && ClientOk(d, used, r.table, AfterAll(p, sent).table)
            && UnnamedOk(r.line.k, AfterAll(p, sent))
            && (Synced(l.k) && !LosesAny(d, table, l, sent, fails) ==> Synced(r.line.k))
    decreases |sent|
  {
    hide CollisionFree, Uses, ClientOk, BackendOk, UnnamedOk, Synced, Loses, WireRelay, PrivateOn, Clean, Calm, Acts, IsSync;
    if sent != [] {
      assert Uses(used, sent[0]);
      OneExchangeTail(sent);
      LineMessageKeeps(d, used, table, l, p, sent[0], First(fails), true);
      assert LineKeeps(d, used, table, l, p, sent[0], First(fails), true);
      var r := WireRelay(d, table, l, sent[0], First(fails), true);
      assert AllUse(used, sent[1..]);
      WirePassKeeps(d, used, r.table, r.line, PrivateOn(p, sent[0]).0, sent[1..], Later(fails));
    }
  }

  /** The client's own server promises something for every message: no unnamed statement is
      used that the client has not parsed. */
  predicate AllPromised(p: Private, sent: seq<Message>)
    decreases |sent|
  {
    sent == [] || (!PrivateOn(p, sent[0]).1.Unspecified? && AllPromised(PrivateOn(p, sent[0]).0, sent[1..]))
  }

  predicate MatchedOnWire(p: Private, sent: seq<Message>, events: seq<Event>)
    decreases |sent|
  {
    if sent == [] then events == []
    else
      var (p', own) := PrivateOn(p, sent[0]);
      events != [] && events[0] == Served(own) && MatchedOnWire(p', sent[1..], events[1..])
  }

  predicate ServedPrivately(p: Private, sent: seq<Message>, r: WireReplay) { !r.ended && MatchedOnWire(p, sent, r.events) }

  /** Neither havuz nor a private server answers so. */
  lemma OwnIsNoError(p: Private, msg: Message)
    ensures var own := PrivateOn(p, msg).1; !IsError(own) && own != Skipped
  {
    PrivateByAct(p, msg);
  }

  /** On a backend in step, a pass that drops no name and in which no statement fails by itself
      does what the client's own server would do exactly when the two private servers agree. */
  lemma {:induction false} PassAnswers(d: Digest, used: set<Stmt>, table: Table, l: Line, p: Private, q: Private, sent: seq<Message>)
    requires CollisionFree(d, used) && AllUse(used, sent) && OneExchange(sent) && AllPromised(p, sent)
    requires (sent != [] ==> !l.skipping && Clean(l)) && Synced(l.k) && !LosesAny(d, table, l, sent, [])
    requires ClientOk(d, used, table, q.table) && BackendOk(d, used, l.k) && UnnamedOk(l.k, q) && NewServer(l.k, p, q)
    ensures ServedPrivately(p, sent, WirePass(d, table, l, sent, [])) <==> AnsweredSame(p, q, sent)
    decreases |sent|
  {
    hide CollisionFree, Uses, ClientOk, BackendOk, UnnamedOk, Synced, Loses, Relay, WireRelay, PrivateOn, Clean, Taught, Matches, IsSync,
      NewServer;
    if sent != [] {
      var msg := sent[0];
      assert Uses(used, msg);
      OneExchangeTail(sent);
      SyncedTeaches(d, used, table, l.k, q, msg);
      WireIsCore(d, table, l, msg, false, true);
      HeadAnswer(d, used, table, l.k, p, q, msg);
      OwnIsNoError(p, msg);
      MessageKeeps(d, used, table, l.k, q, msg, true);
      assert StepKeeps(d, used, table, l.k, q, msg, true);
      var r := WireRelay(d, table, l, msg, false, true);
      var own := PrivateOn(p, msg).1;
      assert r.event == Served(own) <==> own == PrivateOn(q, msg).1 && own != Refused;
      if r.event == Served(own) {
        assert AllUse(used, sent[1..]);
        PassAnswers(d, used, r.table, r.line, PrivateOn(p, msg).0, PrivateOn(q, msg).0, sent[1..]);
        var rest := WirePass(d, r.table, r.line, sent[1..], []);
        assert ([r.event] + rest.events)[1..] == rest.events;
      }
    }
  }

  /** The exact condition: on a finished line of a backend in step, with no statement that fails
      by itself, the server does with a retried exchange exactly what the client's own would do
      if and only if the exchange may be replayed. */
  lemma RetriedIff(d: Digest, used: set<Stmt>, table: Table, l: Line, p: Private, sent: seq<Message>)
    requires CollisionFree(d, used) && AllUse(used, sent) && OneExchange(sent)
    requires Finished(l) && Synced(l.k) && !LosesAny(d, table, l, sent, [])
    requires ClientOk(d, used, table, AfterAll(p, sent).table) && BackendOk(d, used, l.k)
    requires AllPromised(p, sent) && (p.unnamed.Some? ==> [] !in l.k.server)
    ensures ServedPrivately(p, sent, WirePass(d, table, l, sent, [])) <==> Replayable(p, sent)
  {
    hide CollisionFree, AllUse, Synced, LosesAny, ClientOk, BackendOk, WirePass, AfterAll, Replayable, ServedPrivately, AllPromised,
      AnsweredSame;
    PassAnswers(d, used, table, l, p, Again(p, sent), sent);
    ReplayableIff(p, sent);
  }

  /** The client's own statement; or else the server skipped it, it failed by itself, or the
      backend turned it down. */
  predicate IsOwn(own: Outcome, e: Event) {
    e.Dead? || (e.Served? && (own.Unspecified? || e.outcome in {own, Duplicate, Skipped, Failed}))
  }

  predicate OwnOrTurnedDown(p: Private, sent: seq<Message>, events: seq<Event>)
    decreases |sent|
  {
    sent == [] || events == [] ||
    (var (p', own) := PrivateOn(p, sent[0]); IsOwn(own, events[0]) && OwnOrTurnedDown(p', sent[1..], events[1..]))
  }

  /** On any backend, a calm pass of an exchange that may be replayed runs nothing but the
      client's own statements. */
  lemma {:induction false} WirePassRunsOwn(d: Digest, used: set<Stmt>, table: Table, l: Line, p: Private, q: Private,
                                           sent: seq<Message>, fails: seq<bool>)
    requires CollisionFree(d, used) && AllUse(used, sent) && OneExchange(sent) && AnsweredSame(p, q, sent)
    requires (sent != [] ==> Clean(l)) && CalmAll(d, table, l, sent, fails)
    requires ClientOk(d, used, table, q.table) && BackendOk(d, used, l.k) && UnnamedOk(l.k, q)
    ensures OwnOrTurnedDown(p, sent, WirePass(d, table, l, sent, fails).events)
    decreases |sent|
  {
    hide CollisionFree, Uses, ClientOk, BackendOk, UnnamedOk, Synced, Loses, WireRelay, PrivateOn, Clean, Calm, IsSync, Acts, IsOwn;
    if sent != [] {
      OneExchangeTail(sent);
      HeadRunsOwn(d, used, table, l, p, q, sent[0], First(fails));
      var r := WireRelay(d, table, l, sent[0], First(fails), true);
      if !EndsSession(r.event) {
        WirePassRunsOwn(d, used, r.table, r.line, PrivateOn(p, sent[0]).0, PrivateOn(q, sent[0]).0, sent[1..], Later(fails));
        var rest := WirePass(d, r.table, r.line, sent[1..], Later(fails));
        assert ([r.event] + rest.events)[1..] == rest.events;
      }
    }
  }

  lemma HeadRunsOwn(d: Digest, used: set<Stmt>, table: Table, l: Line, p: Private, q: Private, msg: Message, fails: bool)
    requires CollisionFree(d, used) && Uses(used, msg) && Clean(l) && Calm(d, table, l, msg, fails)
    requires ClientOk(d, used, table, q.table) && BackendOk(d, used, l.k) && UnnamedOk(l.k, q)
    requires var own := PrivateOn(p, msg).1; own.Unspecified? || (own == PrivateOn(q, msg).1 && own != Refused)
    ensures var r := WireRelay(d, table, l, msg, fails, true);
            && IsOwn(PrivateOn(p, msg).1, r.event)
            && (!EndsSession(r.event) ==>
                  var q' := PrivateOn(q, msg).0;
                  ClientOk(d, used, r.table, q'.table) && BackendOk(d, used, r.line.k) && UnnamedOk(r.line.k, q') &&
                  (IsSync(msg) || Clean(r.line)))
  {
    hide CollisionFree, Uses, ClientOk, BackendOk, UnnamedOk, Synced, Loses, WireRelay, PrivateOn, Clean, Calm, IsSync;
    LineMessageKeeps(d, used, table, l, q, msg, fails, true);
    assert LineKeeps(d, used, table, l, q, msg, fails, true);
    UnspecifiedAlike(p, q, msg);
  }

  /** A message that means nothing on one private server is no refusal on another. */
  lemma UnspecifiedAlike(p: Private, q: Private, msg: Message)
    ensures PrivateOn(p, msg).1.Unspecified? ==> PrivateOn(q, msg).1 != Refused
  {
    hide PrivateOn, ActOf, Look;
    PrivateByAct(p, msg);
    PrivateByAct(q, msg);
  }

  lemma RetriedRunsOwn(d: Digest, used: set<Stmt>, table: Table, l: Line, p: Private, sent: seq<Message>, fails: seq<bool>)
    requires CollisionFree(d, used) && AllUse(used, sent) && OneExchange(sent) && Replayable(p, sent) && Clean(l)
    requires ClientOk(d, used, table, AfterAll(p, sent).table) && BackendOk(d, used, l.k) && CalmAll(d, table, l, sent, fails)
    ensures OwnOrTurnedDown(p, sent, WirePass(d, table, l, sent, fails).events)
  {
    hide CollisionFree, AllUse, ClientOk, BackendOk, WirePass, AfterAll, AnsweredSame, Replayable, OwnOrTurnedDown, CalmAll, Clean;
    ReplayableIff(p, sent);
    WirePassRunsOwn(d, used, table, l, p, Again(p, sent), sent, fails);
  }
}
