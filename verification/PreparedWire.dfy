/** The replies of one exchange (txn.rs): the server's answers wait on the line until the sync
    point, while a replayed Parse and a close of havuz's own read the line up to the reply they
    want and drop whatever comes before it. */
module PreparedWire {
  import opened Text
  import opened Wire
  import opened Prepared
  import opened Statements
  import opened PreparedRelay

  // ---------- the line ----------

  datatype Kind = ParseDone | CloseDone | ErrorReply | Data | Ready

  /** The n-th answer of the exchange; or none of its answers, but a reply to a message of
      havuz's own or to another client. */
  datatype Reply = Reply(at: Option<nat>, kind: Kind)

  /** The answers that wait, as the client will read them: in place; out of place, but with
      nothing overtaken that tells; lost or out of place for good; or not known from this. */
  datatype Order = Straight | Turned | Broken | Unsure

  /** A backend, what is on its line, and what its holder has been told of the exchange: is the
      server ignoring messages until the next Sync; which replies has nobody read yet, and how
      many of them stood there when the backend was taken; which did havuz write to the client
      itself; and which answers are due, in the order of the messages. */
  datatype Line = Line(k: Backend, skipping: bool, pending: seq<Reply>, told: seq<Reply>, issued: seq<Reply>, foreign: nat,
                       order: Order)

  function Fresh(k: Backend): Line { Line(k, false, [], [], [], 0, Straight) }

  predicate Finished(l: Line) { l == Fresh(l.k) }

  function Strangers(pending: seq<Reply>): (r: seq<Reply>)
    ensures |r| == |pending|
    ensures forall i :: 0 <= i < |pending| ==> r[i] == Reply(None, pending[i].kind)
  {
    if pending == [] then [] else [Reply(None, pending[0].kind)] + Strangers(pending[1..])
  }

  /** A backend with a new holder: whatever is on its line answers somebody else. */
  function Taken(l: Line): Line { Line(l.k, l.skipping, Strangers(l.pending), [], [], |l.pending|, Straight) }

  lemma TakenFinished(l: Line)
    ensures Finished(l) ==> Taken(l) == l
  {}

  const SYNC: byte := 0x53
  const FLUSH: byte := 0x48
  const QUERY: byte := 0x51
  const CALL: byte := 0x46

  /** The messages that end an exchange. */
  predicate IsSync(msg: Message) { msg.tag == QUERY || msg.tag == SYNC || msg.tag == CALL }

  predicate IsError(o: Outcome) { o.Missing? || o.Duplicate? || o.Garbled? || o.Failed? }

  /** A statement can fail by itself when it is parsed, bound, described or run. */
  predicate CanFail(msg: Message) { msg.tag != CLOSE && msg.tag != SYNC && msg.tag != FLUSH }

  /** A failing Parse gives up the unnamed statement if it meant to replace it. */
  function AfterFailure(server: Server, msg: Message): Server {
    if msg.tag == PARSE && DecodeParse(msg.body).Ok? && DecodeParse(msg.body).value.name == [] then server - {[]} else server
  }

  function KindOf(msg: Message, o: Outcome): Kind {
    if IsError(o) then ErrorReply
    else if msg.tag == PARSE then ParseDone
    else if msg.tag == CLOSE then CloseDone
    else Data
  }

  function Answered(l: Line, kind: Kind): Line {
    var r := Reply(Some(|l.issued|), kind);
    l.(pending := l.pending + [r], issued := l.issued + [r])
  }

  /** The server takes a message of the client's. */
  function Serve(l: Line, msg: Message, fails: bool): (Line, Outcome) {
    if l.skipping && msg.tag != SYNC then (l, Skipped)
    else
      var (server, o') := ServerOn(l.k.server, msg);
      var o := if fails && CanFail(msg) then Failed else o';
      var k := l.k.(server := if o.Failed? then AfterFailure(l.k.server, msg) else server);
      var after := l.(k := k, skipping := IsError(o) && !IsSync(msg));
      (if msg.tag == SYNC || msg.tag == FLUSH then after else Answered(after, KindOf(msg, o)), o)
  }

  // ---------- messages of havuz's own ----------

  datatype Heard = Stuck | Heard(line: Line, kind: Kind)

  /** The first reply of the wanted kind, or the first error. */
  function FirstOf(pending: seq<Reply>, want: Kind): (r: Option<nat>)
    ensures r.Some? ==> r.value < |pending| && pending[r.value].kind in {want, ErrorReply}
    ensures r.None? ==> forall i :: 0 <= i < |pending| ==> pending[i].kind !in {want, ErrorReply}
  {
    if pending == [] then None
    else if pending[0].kind == want || pending[0].kind == ErrorReply then Some(0)
    else Shift(1, FirstOf(pending[1..], want))
  }

  /** Reads the line up to that reply; without one the relay waits for ever. */
  function Hear(l: Line, want: Kind): Heard {
    match FirstOf(l.pending, want)
    case None => Stuck
    case Some(i) => Heard(l.(pending := l.pending[i + 1..]), l.pending[i].kind)
  }

  function Noted(l: Line, k: Backend, kind: Kind): Line {
    l.(k := k, skipping := kind == ErrorReply, pending := l.pending + [Reply(None, kind)])
  }

  /** A reply that tells more than that it is one. */
  predicate Heavy(kind: Kind) { kind == Data || kind == ErrorReply }

  predicate AllBare(pending: seq<Reply>) { forall i :: 0 <= i < |pending| ==> !Heavy(pending[i].kind) }

  predicate AllKind(pending: seq<Reply>, kind: Kind) { forall i :: 0 <= i < |pending| ==> pending[i].kind == kind }

  /** Where the answers are after a message of havuz's own that waits for one kind of reply. A
      reply of that kind at the head is taken for havuz's, and havuz's own stands last in its
      stead; otherwise answers are lost. */
  function OrderAfter(l: Line, want: Kind, heard: Option<Kind>): Order {
    if l.pending == [] then l.order
    else if l.foreign > 0 || l.order.Unsure? then Unsure
    else if l.order.Broken? || heard != Some(want) || l.pending[0].kind != want || !AllBare(l.pending) then Broken
    else if l.order.Turned? then Unsure
    else if AllKind(l.pending, want) then Straight
    else Turned
  }

  function Disturbed(l: Line, want: Kind, heard: Option<Kind>): Line { l.(order := OrderAfter(l, want, heard)) }

  /** A message of havuz's own, and the reply if the server takes it. */
  function Ask(l: Line, k: Backend, want: Kind, reply: Kind): Heard {
    Hear(if l.skipping then Disturbed(l, want, None) else Noted(Disturbed(l, want, Some(reply)), k, reply), want)
  }

  /** `close_statement`. */
  function SideClose(l: Line, g: Bytes): Heard { Ask(l, l.k.(server := l.k.server - {g}), CloseDone, CloseDone) }

  /** The Parse of `replay_parse`. */
  function SideParse(l: Line, parse: Bytes): Heard {
    var (server, o) := ServerOn(l.k.server, Message(PARSE, parse));
    Ask(l, l.k.(server := server), ParseDone, if o.Parsed? then ParseDone else ErrorReply)
  }

  function WithCache(l: Line, cache: seq<Bytes>): Line { l.(k := l.k.(cache := cache)) }

  /** Records a name, and closes the one it displaced unless `lossy`. */
  function SideRecord(l: Line, g: Bytes, lossy: bool): Heard {
    var (cache, evicted) := Inserted(l.k.cache, g);
    if evicted.Some? && !lossy then SideClose(WithCache(l, cache), evicted.value) else Heard(WithCache(l, cache), CloseDone)
  }

  function SideFree(l: Line, g: Bytes): Heard {
    if g !in l.k.cache then Heard(l, CloseDone)
    else match SideClose(l, g)
      case Stuck => Stuck
      case Heard(freed, kind) => Heard(WithCache(freed, Removed(freed.k.cache, g)), kind)
  }

  // ---------- the relay ----------

  /** havuz refuses the message, the server takes it, or the relay gives up. */
  datatype Event = Refusal | Served(outcome: Outcome) | Dead

  datatype Relayed = Relayed(table: Table, line: Line, event: Event)

  function Deliver(table: Table, l: Line, msg: Message, fails: bool): Relayed {
    var (after, o) := Serve(l, msg, fails);
    Relayed(table, after, Served(o))
  }

  function RecordThen(table: Table, l: Line, g: Bytes, lossy: bool, msg: Message, fails: bool): Relayed {
    match SideRecord(l, g, lossy)
    case Stuck => Relayed(table, l, Dead)
    case Heard(recorded, _) => Deliver(table, recorded, msg, fails)
  }

  /** A refused message is answered at once, ahead of the replies that wait. */
  function TurnedAway(l: Line): Line {
    var answers := [Reply(Some(|l.issued|), ErrorReply), Reply(Some(|l.issued| + 1), Ready)];
    l.(told := l.told + answers, issued := l.issued + answers,
       order := if l.pending == [] || l.order.Unsure? then l.order else Broken)
  }

  /** One message of the client, with everything that goes over the line for it. */
  function WireRelay(d: Digest, table: Table, l: Line, msg: Message, fails: bool, retry: bool): Relayed {
    var (table', rewrite) := RewriteOf(d, table, l.k.cache, msg);
    match rewrite
    case Err(_) => Relayed(table', if retry then l else TurnedAway(l), Refusal)
    case Ok(Unchanged) => Deliver(table', l, msg, fails)
    case Ok(Replace(m)) => Deliver(table', l, m, fails)
    case Ok(RenamedParse(g, m)) =>
      (match SideFree(l, g)
       case Stuck => Relayed(table', l, Dead)
       case Heard(freed, _) => RecordThen(table', freed, g, retry, m, fails))
    case Ok(CloseStatement(g, name, m)) => Deliver(table' - {name}, WithCache(l, Removed(l.k.cache, g)), m, fails)
    case Ok(ReplayThen(parse, g, m)) =>
      (match SideParse(l, parse)
       case Stuck => Relayed(table', l, Dead)
       case Heard(taught, kind) =>
         if kind == ErrorReply then Relayed(table', taught, Dead) else RecordThen(table', taught, g, false, m, fails))
  }

  // ---------- the line against the plain relay ----------

  /** No error is waiting unless the server is ignoring messages. */
  predicate Clean(l: Line) { l.skipping || forall i :: 0 <= i < |l.pending| ==> l.pending[i].kind != ErrorReply }

  lemma SideCloseClean(l: Line, g: Bytes)
    requires !l.skipping && Clean(l)
    ensures var h := SideClose(l, g);
            h.Heard? && h.line.k == l.k.(server := l.k.server - {g}) && !h.line.skipping && Clean(h.line)
  {
    hide FirstOf;
    var sent := l.pending + [Reply(None, CloseDone)];
    assert sent[|l.pending|].kind == CloseDone;
  }

  lemma SideParseClean(l: Line, parse: Bytes)
    requires !l.skipping && Clean(l)
    ensures var (server, o) := ServerOn(l.k.server, Message(PARSE, parse));
            var h := SideParse(l, parse);
            && h.Heard?
            && (o.Parsed? ==> h.kind == ParseDone && h.line.k == l.k.(server := server) && !h.line.skipping && Clean(h.line))
            && (!o.Parsed? ==> h.line.k == l.k.(server := server) && h.line.skipping)
  {
    hide FirstOf, ServerOn;
    var (server, o) := ServerOn(l.k.server, Message(PARSE, parse));
    var kind := if o.Parsed? then ParseDone else ErrorReply;
    var sent := l.pending + [Reply(None, kind)];
    assert sent[|l.pending|].kind == kind;
  }

  lemma RecordClean(l: Line, g: Bytes, lossy: bool)
    requires !l.skipping && Clean(l)
    ensures var h := SideRecord(l, g, lossy); h.Heard? && h.line.k == Record(l.k, g, lossy) && !h.line.skipping && Clean(h.line)
  {
    hide Inserted, SideClose;
    var (cache, evicted) := Inserted(l.k.cache, g);
    if evicted.Some? { SideCloseClean(WithCache(l, cache), evicted.value); }
  }

  lemma FreeClean(l: Line, g: Bytes)
    requires !l.skipping && Clean(l)
    ensures var h := SideFree(l, g); h.Heard? && h.line.k == Freed(l.k, g) && !h.line.skipping && Clean(h.line)
  {
    hide SideClose, Removed;
    if g in l.k.cache { SideCloseClean(l, g); }
  }

  function OrFailed(msg: Message, o: Outcome, fails: bool): Outcome { if fails && CanFail(msg) then Failed else o }

  /** The server takes the message as the plain relay has it, unless it fails by itself. */
  lemma ServeClean(l: Line, msg: Message, fails: bool)
    requires !l.skipping && Clean(l) && (fails ==> msg.tag != PARSE)
    ensures var (after, o) := Serve(l, msg, fails);
            && o == OrFailed(msg, Forward(l.k, msg).1, fails)
            && after.k == Forward(l.k, msg).0
            && after.skipping == (IsError(o) && !IsSync(msg)) && (IsSync(msg) || Clean(after))
  {
    hide DecodeParse, BindStatementName, DescribeTarget;
  }

  /** Does the server take the replayed Parse, if there is one? */
  predicate Taught(d: Digest, table: Table, k: Backend, msg: Message) {
    match RewriteOf(d, table, k.cache, msg).1
    case Ok(ReplayThen(parse, _, _)) => ServerOn(k.server, Message(PARSE, parse)).1.Parsed?
    case _ => true
  }

  lemma RewriteKeepsTag(d: Digest, table: Table, cache: seq<Bytes>, msg: Message)
    ensures match RewriteOf(d, table, cache, msg).1
            case Ok(Replace(m)) => m.tag == msg.tag
            case Ok(RenamedParse(_, m)) => m.tag == msg.tag
            case Ok(CloseStatement(_, _, m)) => m.tag == msg.tag
            case Ok(ReplayThen(_, _, m)) => m.tag == msg.tag && msg.tag in {BIND, DESCRIBE}
            case _ => true
  {
    hide DecodeParse, BindStatementName, DescribeTarget, ReplaceCString, GlobalName, Entry;
  }

  /** Before an error the line does to table, cache and server what the plain relay does. */
  lemma WireIsCore(d: Digest, table: Table, l: Line, msg: Message, fails: bool, retry: bool)
    requires !l.skipping && Clean(l) && Taught(d, table, l.k, msg) && (fails ==> msg.tag != PARSE)
    ensures var (t, k, o) := Relay(d, table, l.k, msg, retry);
            var r := WireRelay(d, table, l, msg, fails, retry);
            && r.table == t && r.line.k == k
            && (if o == Refused then r.event == Refusal && r.line.k == l.k && r.line.skipping == l.skipping && Clean(r.line)
                else
                  && r.event == Served(OrFailed(msg, o, fails))
                  && r.line.skipping == (IsError(OrFailed(msg, o, fails)) && !IsSync(msg))
                  && (IsSync(msg) || Clean(r.line)))
  {
    hide RewriteOf, Serve, SideParse, SideRecord, SideFree, Removed, Record, Freed, ServerOn, Clean;
    RewriteKeepsTag(d, table, l.k.cache, msg);
    var (table', rewrite) := RewriteOf(d, table, l.k.cache, msg);
    match rewrite {
      case Err(_) => TurnedAwayIsClean(l);
      case Ok(Unchanged) => ServeClean(l, msg, fails); NeverRefused(l.k, msg);
      case Ok(Replace(m)) => ServeClean(l, m, fails); NeverRefused(l.k, m);
      case Ok(CloseStatement(g, _, m)) =>
        var cleared := WithCache(l, Removed(l.k.cache, g));
        assert Clean(cleared) by { CacheKeepsClean(l, Removed(l.k.cache, g)); }
        ServeClean(cleared, m, fails);
        NeverRefused(cleared.k, m);
      case Ok(RenamedParse(g, m)) =>
        FreeClean(l, g);
        RecordClean(SideFree(l, g).line, g, retry);
        var recorded := SideRecord(SideFree(l, g).line, g, retry).line;
        ServeClean(recorded, m, fails);
        NeverRefused(recorded.k, m);
      case Ok(ReplayThen(parse, g, m)) =>
        SideParseClean(l, parse);
        RecordClean(SideParse(l, parse).line, g, false);
        var recorded := SideRecord(SideParse(l, parse).line, g, false).line;
        ServeClean(recorded, m, fails);
        NeverRefused(recorded.k, m);
    }
  }

  lemma TurnedAwayIsClean(l: Line)
    ensures Clean(TurnedAway(l)) <==> Clean(l)
  {}

  lemma CacheKeepsClean(l: Line, cache: seq<Bytes>)
    requires Clean(l)
    ensures Clean(WithCache(l, cache))
  {}

  lemma NeverRefused(k: Backend, msg: Message)
    ensures Forward(k, msg).1 != Refused
  {
    hide DecodeParse, BindStatementName, DescribeTarget;
  }

  // ---------- what one message keeps ----------

  /** No Parse fails, and after an error the client sends nothing that parses, closes or has to
      be taught a statement: the server would have none of it, and havuz records it. */
  predicate Calm(d: Digest, table: Table, l: Line, msg: Message, fails: bool) {
    && (fails ==> msg.tag != PARSE)
    && (l.skipping ==>
          && msg.tag != PARSE
          && !(msg.tag == CLOSE && DescribeTarget(msg.body).Ok? && DescribeTarget(msg.body).value.0 == STATEMENT)
          && !(RewriteOf(d, table, l.k.cache, msg).1.Ok? && RewriteOf(d, table, l.k.cache, msg).1.value.ReplayThen?))
  }

  /** What happens to the message is what the client's own server would do with it, up to errors
      of the statement and of the exchange; a backend out of step may turn a statement down. */
  predicate Acts(l: Line, fails: bool, own: Outcome, e: Event) {
    match e
    case Refusal => own == Refused
    case Dead => !Synced(l.k)
    case Served(o) =>
      || (o == Skipped && l.skipping)
      || (o == Failed && fails)
      || ((o == Skipped || o == Duplicate) && !Synced(l.k) && (own.Ran? || own.Parsed?))
      || (if own.Unspecified? then o.Ran? || o.Missing? else o == own && own != Refused)
  }

  predicate LineKeeps(d: Digest, used: set<Stmt>, table: Table, l: Line, p: Private, msg: Message, fails: bool, retry: bool) {
    var r := WireRelay(d, table, l, msg, fails, retry);
    var (p', own) := PrivateOn(p, msg);
    && Acts(l, fails, own, r.event)
    && ClientOk(d, used, r.table, p'.table)
    && (!r.event.Dead? ==>
          && BackendOk(d, used, r.line.k) && UnnamedOk(r.line.k, p') && (IsSync(msg) || Clean(r.line))
          && (Synced(l.k) && !Loses(d, l.k, msg, retry) ==> Synced(r.line.k)))
  }

  /** A message the server ignores. */
  lemma SkippedKeeps(d: Digest, used: set<Stmt>, table: Table, l: Line, p: Private, msg: Message, fails: bool, retry: bool)
    requires CollisionFree(d, used) && Uses(used, msg) && l.skipping && Calm(d, table, l, msg, fails)
    requires ClientOk(d, used, table, p.table) && BackendOk(d, used, l.k) && UnnamedOk(l.k, p)
    ensures LineKeeps(d, used, table, l, p, msg, fails, retry)
  {
    hide CollisionFree, Uses, ClientOk, BackendOk, UnnamedOk, Synced, Loses, DecodeParse, BindStatementName, DescribeTarget, Entry,
      SideFree, SideParse, RecordThen, GlobalName, ReplaceCString, Record, Freed, PrivateOn, BuildParse;
    MessageKeeps(d, used, table, l.k, p, msg, retry);
    assert StepKeeps(d, used, table, l.k, p, msg, retry);
    RewriteKeepsTag(d, table, l.k.cache, msg);
  }

  /** The one way a replay is turned down. */
  lemma UntaughtNames(d: Digest, used: set<Stmt>, table: Table, k: Backend, p: Private, msg: Message)
    returns (name: Bytes)
    requires ClientOk(d, used, table, p.table) && !Taught(d, table, k, msg)
    ensures name in p.table && Names(msg, name) && table[name].globalName !in k.cache && msg.tag in {BIND, DESCRIBE}
    ensures var m := ReplaceCString(msg.body, if msg.tag == BIND then 1 else 0, table[name].globalName);
            m.Ok? && RewriteOf(d, table, k.cache, msg) ==
            (table, Ok(ReplayThen(table[name].parseMessage, table[name].globalName, Message(msg.tag, m.value))))
  {
    hide DecodeParse, BindStatementName, DescribeTarget, ReplaceCString, GlobalName, Entry, ServerOn;
    name := if msg.tag == BIND then BindStatementName(msg.body).value else DescribeTarget(msg.body).value.1;
  }

  lemma UntaughtKeeps(d: Digest, used: set<Stmt>, table: Table, l: Line, p: Private, msg: Message, fails: bool, retry: bool)
    requires CollisionFree(d, used) && Uses(used, msg) && !l.skipping && Clean(l) && !Taught(d, table, l.k, msg)
    requires ClientOk(d, used, table, p.table) && BackendOk(d, used, l.k) && UnnamedOk(l.k, p)
    ensures LineKeeps(d, used, table, l, p, msg, fails, retry)
  {
    hide CollisionFree, Uses, Synced, Loses, DecodeParse, BindStatementName, DescribeTarget, Entry, RewriteOf, ReplaceCString,
      GlobalName, Bounded, SideParse, SideRecord, PrivateOn, Relay, Names;
    var name := UntaughtNames(d, used, table, l.k, p, msg);
    NamedEffect(d, used, table, l.k, p, msg, name, retry);
    var s := p.table[name];
    var g := Named(d, s);
    assert table[name] == Entry(d, s.sql, s.types);
    assert table[name].globalName == g && table[name].parseMessage == BuildParse(g, s.sql, s.types) by { EntryIs(d, s); }
    UntaughtHolds(d, used, l.k, s);
    SideParseClean(l, table[name].parseMessage);
    var taught := SideParse(l, table[name].parseMessage);
    assert taught.line.k == l.k;
    assert !Synced(l.k) by { OutOfStep(l.k, g); }
    if taught.kind != ErrorReply {
      TurnedDownRecord(d, used, taught.line, g);
    }
  }

  /** A backend in step is never taught what it holds already. */
  lemma SyncedTeaches(d: Digest, used: set<Stmt>, table: Table, k: Backend, p: Private, msg: Message)
    requires CollisionFree(d, used) && ClientOk(d, used, table, p.table) && BackendOk(d, used, k)
    ensures Synced(k) ==> Taught(d, table, k, msg)
  {
    hide CollisionFree, DecodeParse, BindStatementName, DescribeTarget, Entry, RewriteOf, ReplaceCString, GlobalName, Bounded, Names,
      Synced;
    if !Taught(d, table, k, msg) {
      var name := UntaughtNames(d, used, table, k, p, msg);
      var s := p.table[name];
      assert table[name] == Entry(d, s.sql, s.types);
      EntryIs(d, s);
      UntaughtHolds(d, used, k, s);
      OutOfStep(k, Named(d, s));
    }
  }

  lemma EntryIs(d: Digest, s: Stmt)
    ensures Entry(d, s.sql, s.types) == PreparedStatement(Named(d, s), BuildParse(Named(d, s), s.sql, s.types), s.sql)
  {}

  lemma OutOfStep(k: Backend, g: Bytes)
    requires g in k.server && g != [] && g !in k.cache
    ensures !Synced(k)
  {}

  /** A statement the server turns down is one it holds already. */
  lemma UntaughtHolds(d: Digest, used: set<Stmt>, k: Backend, s: Stmt)
    requires CollisionFree(d, used) && s in used
    ensures var (server, o) := ServerOn(k.server, Message(PARSE, BuildParse(Named(d, s), s.sql, s.types)));
            !o.Parsed? ==> server == k.server && Named(d, s) in k.server && Named(d, s) != []
  {
    hide DecodeParse, GlobalName, Readable;
    GlobalNameIsText(d, s.sql, s.types);
    assert Readable(s);
    TextOf(s);
    DecodeParseComplete(Named(d, s), s.sql, s.types);
  }

  /** The name enters the cache all the same, and is on the server. */
  lemma TurnedDownRecord(d: Digest, used: set<Stmt>, l: Line, g: Bytes)
    requires BackendOk(d, used, l.k) && l.skipping && g in l.k.server && g != []
    ensures var h := SideRecord(l, g, false);
            h.Heard? ==> h.line.skipping && BackendOk(d, used, h.line.k) && h.line.k.server == l.k.server
  {
    hide Named, Bounded, FirstOf, OrderAfter, DistinctNames, Inserted;
    InsertedMeaning(l.k.cache, g);
  }

  lemma CalmParses(d: Digest, table: Table, l: Line, msg: Message, fails: bool)
    requires Calm(d, table, l, msg, fails)
    ensures fails ==> msg.tag != PARSE
  {}

  /** One message on the line, whatever state the line is in. */
  lemma LineMessageKeeps(d: Digest, used: set<Stmt>, table: Table, l: Line, p: Private, msg: Message, fails: bool, retry: bool)
    requires CollisionFree(d, used) && Uses(used, msg) && Clean(l) && Calm(d, table, l, msg, fails)
    requires ClientOk(d, used, table, p.table) && BackendOk(d, used, l.k) && UnnamedOk(l.k, p)
    ensures LineKeeps(d, used, table, l, p, msg, fails, retry)
  {
    hide CollisionFree, Uses, ClientOk, BackendOk, UnnamedOk, Synced, Loses, Relay, WireRelay, PrivateOn, Clean, Calm, Taught;
    if l.skipping {
      SkippedKeeps(d, used, table, l, p, msg, fails, retry);
    } else if !Taught(d, table, l.k, msg) {
      UntaughtKeeps(d, used, table, l, p, msg, fails, retry);
    } else {
      MessageKeeps(d, used, table, l.k, p, msg, retry);
      assert StepKeeps(d, used, table, l.k, p, msg, retry);
      CalmParses(d, table, l, msg, fails);
      WireIsCore(d, table, l, msg, fails, retry);
    }
  }
}
