/** Which of its answers a client reads, and in which order (txn.rs): replayed Parses and closes
    of havuz's own take replies that wait for the client, and a refusal overtakes them. */
module PreparedOrder {
  import opened Text
  import opened Wire
  import opened Prepared
  import opened Statements
  import opened PreparedRelay
  import opened PreparedWire

  // ---------- what reaches the client ----------

  /** What the client reads of its exchange, up to the ReadyForQuery that ends it. */
  function Received(l: Line): seq<Reply> { l.told + l.pending + [Reply(None, Ready)] }

  predicate SameKinds(a: seq<Reply>, b: seq<Reply>) { |a| == |b| && forall i :: 0 <= i < |a| ==> a[i].kind == b[i].kind }

  /** The client reads the answers to its messages, in the order of the messages. */
  predicate Right(l: Line) { SameKinds(Received(l), l.issued + [Reply(None, Ready)]) }

  /** The answer in whose place the i-th waiting reply stands. */
  function Due(l: Line, i: nat): Reply
    requires |l.told| + i < |l.issued|
  {
    l.issued[|l.told| + i]
  }

  /** As many replies as answers, those told in place, and no ReadyForQuery due from the line. */
  predicate Level(l: Line) {
    && |l.told| + |l.pending| == |l.issued|
    && (forall i :: 0 <= i < |l.told| ==> l.told[i] == l.issued[i])
    && (forall i :: 0 <= i < |l.pending| ==> Due(l, i).kind != Ready)
  }

  predicate InPlace(l: Line) {
    && Level(l)
    && forall i :: 0 <= i < |l.pending| ==>
         l.pending[i].kind == Due(l, i).kind && (Heavy(l.pending[i].kind) ==> l.pending[i] == Due(l, i))
  }

  /** Only replies that tell nothing are out of place. */
  predicate BareMoved(l: Line) {
    && Level(l)
    && (exists i :: 0 <= i < |l.pending| && l.pending[i].kind != Due(l, i).kind)
    && forall i :: 0 <= i < |l.pending| && (Heavy(l.pending[i].kind) || Heavy(Due(l, i).kind)) ==> l.pending[i] == Due(l, i)
  }

  /** A reply that tells something stands before its place. */
  predicate Early(l: Line) {
    && Level(l)
    && exists p :: 0 <= p < |l.pending| && Heavy(l.pending[p].kind) && forall j :: 0 <= j <= p ==> !Heavy(Due(l, j).kind)
  }

  predicate Short(l: Line) { |l.told| + |l.pending| < |l.issued| }

  predicate Overtaken(l: Line) {
    exists i :: 0 <= i < |l.told| && i < |l.issued| && l.told[i].kind != l.issued[i].kind
  }

  /** What each order says. */
  predicate WireOk(l: Line) {
    l.order.Unsure? ||
    if l.foreign > 0 then |l.told| + |l.pending| > |l.issued|
    else match l.order
      case Straight => InPlace(l)
      case Turned => BareMoved(l)
      case _ => Short(l) || Overtaken(l) || Early(l)
  }

  /** Reading is being told and then reading the line. */
  lemma ReceivedAt(l: Line)
    ensures forall i :: 0 <= i < |l.told| ==> Received(l)[i] == l.told[i]
    ensures forall i :: |l.told| <= i < |l.told| + |l.pending| ==> Received(l)[i] == l.pending[i - |l.told|]
  {}

  lemma EarlyIsWrong(l: Line)
    requires Early(l)
    ensures !Right(l)
  {
    var p :| 0 <= p < |l.pending| && Heavy(l.pending[p].kind) && forall j :: 0 <= j <= p ==> !Heavy(Due(l, j).kind);
    var n := |l.told| + p;
    assert !Heavy(Due(l, p).kind);
    assert Received(l)[n] == l.pending[p] && (l.issued + [Reply(None, Ready)])[n] == Due(l, p);
  }

  lemma BareMovedIsWrong(l: Line)
    requires BareMoved(l)
    ensures !Right(l)
  {
    var i :| 0 <= i < |l.pending| && l.pending[i].kind != Due(l, i).kind;
    var n := |l.told| + i;
    assert Received(l)[n] == l.pending[i] && (l.issued + [Reply(None, Ready)])[n] == Due(l, i);
  }

  lemma OvertakenIsWrong(l: Line)
    requires Overtaken(l)
    ensures !Right(l)
  {
    var i :| 0 <= i < |l.told| && i < |l.issued| && l.told[i].kind != l.issued[i].kind;
    assert Received(l)[i] == l.told[i] && (l.issued + [Reply(None, Ready)])[i] == l.issued[i];
  }

  lemma ShortIsWrong(l: Line)
    requires Short(l)
    ensures !Right(l)
  {}

  lemma InPlaceIsRight(l: Line)
    requires InPlace(l)
    ensures Right(l)
  {
    ReceivedAt(l);
    var due := l.issued + [Reply(None, Ready)];
    forall i | 0 <= i < |due| ensures Received(l)[i].kind == due[i].kind {
      if |l.told| <= i < |l.issued| { assert l.pending[i - |l.told|].kind == Due(l, i - |l.told|).kind; }
    }
  }

  /** The client reads its answers exactly when nothing stood on the line when its backend was
      taken and the answers are straight. */
  lemma RightIff(l: Line)
    requires WireOk(l) && !l.order.Unsure?
    ensures Right(l) <==> l.order.Straight? && l.foreign == 0
  {
    hide InPlace, BareMoved, Overtaken, Early;
    if l.foreign == 0 {
      if InPlace(l) { InPlaceIsRight(l); }
      if BareMoved(l) { BareMovedIsWrong(l); }
      if Overtaken(l) { OvertakenIsWrong(l); }
      if Early(l) { EarlyIsWrong(l); }
    }
  }

  /** And then every row and every error is the one for its message. */
  lemma RightIsOwn(l: Line)
    requires WireOk(l) && l.order.Straight? && l.foreign == 0
    ensures |Received(l)| == |l.issued| + 1
    ensures forall i :: 0 <= i < |l.issued| && Heavy(l.issued[i].kind) ==> Received(l)[i] == l.issued[i]
  {
    ReceivedAt(l);
    forall i | 0 <= i < |l.issued| && Heavy(l.issued[i].kind) ensures Received(l)[i] == l.issued[i] {
      if i >= |l.told| { assert l.issued[i] == Due(l, i - |l.told|); }
    }
  }

  lemma TakenIsOk(l: Line)
    ensures WireOk(Taken(l)) && (Clean(l) ==> Clean(Taken(l)))
  {}

  /** One more answer, and its place. */
  lemma AnswerStays(l: Line, kind: Kind)
    ensures var m := Answered(l, kind);
            && (|l.told| + |l.pending| == |l.issued| ==> Due(m, |l.pending|) == m.pending[|l.pending|])
            && (forall i :: 0 <= i < |l.pending| && |l.told| + i < |l.issued| ==> Due(m, i) == Due(l, i))
            && (forall i :: 0 <= i < |l.pending| ==> m.pending[i] == l.pending[i])
            && (Level(l) && kind != Ready ==> Level(m))
  {}

  lemma AnswerKeepsWire(l: Line, kind: Kind)
    requires WireOk(l) && kind != Ready
    ensures WireOk(Answered(l, kind))
  {
    hide Level, Answered, Due;
    AnswerStays(l, kind);
    var m := Answered(l, kind);
    assert |m.pending| == |l.pending| + 1 && |m.issued| == |l.issued| + 1 && m.told == l.told && m.foreign == l.foreign && m.order == l.order by { AnswerSizes(l, kind); }
    assert forall i :: 0 <= i < |l.issued| ==> m.issued[i] == l.issued[i] by { AnswerSizes(l, kind); }
    if Level(l) { LevelSize(l); LevelSize(m); }
    if Early(l) { AnswerKeepsEarly(l, m); }
    if BareMoved(l) {
      var i :| 0 <= i < |l.pending| && l.pending[i].kind != Due(l, i).kind;
      assert m.pending[i].kind != Due(m, i).kind;
    }
  }

  lemma LevelSize(l: Line)
    requires Level(l)
    ensures |l.told| + |l.pending| == |l.issued|
  {}

  lemma AnswerSizes(l: Line, kind: Kind)
    ensures var m := Answered(l, kind);
            && |m.pending| == |l.pending| + 1 && |m.issued| == |l.issued| + 1
            && m.told == l.told && m.foreign == l.foreign && m.order == l.order
            && forall i :: 0 <= i < |l.issued| ==> m.issued[i] == l.issued[i]
  {}

  lemma AnswerKeepsEarly(l: Line, m: Line)
    requires Early(l) && Level(m) && |m.pending| >= |l.pending|
    requires forall i :: 0 <= i < |l.pending| ==> m.pending[i] == l.pending[i] && Due(m, i) == Due(l, i)
    ensures Early(m)
  {
    var p :| 0 <= p < |l.pending| && Heavy(l.pending[p].kind) && forall j :: 0 <= j <= p ==> !Heavy(Due(l, j).kind);
    assert forall j :: 0 <= j <= p ==> !Heavy(Due(m, j).kind);
    assert m.pending[p] == l.pending[p];
  }

  lemma ServeKeepsWire(l: Line, msg: Message, fails: bool)
    requires WireOk(l)
    ensures WireOk(Serve(l, msg, fails).0)
  {
    hide ServerOn, AfterFailure;
    if !(l.skipping && msg.tag != SYNC) {
      var (server, o') := ServerOn(l.k.server, msg);
      var o := if fails && CanFail(msg) then Failed else o';
      var k := l.k.(server := if o.Failed? then AfterFailure(l.k.server, msg) else server);
      StateKeepsWire(l, k, IsError(o) && !IsSync(msg));
      AnswerKeepsWire(l.(k := k, skipping := IsError(o) && !IsSync(msg)), KindOf(msg, o));
    }
  }

  /** Only the replies matter. */
  lemma StateKeepsWire(l: Line, k: Backend, skipping: bool)
    ensures WireOk(l.(k := k, skipping := skipping)) == WireOk(l)
    ensures WireOk(l.(k := k)) == WireOk(l)
  {
    var m := l.(k := k, skipping := skipping);
    SameWire(l, m);
    SameWire(l, l.(k := k));
  }

  lemma SameWire(l: Line, m: Line)
    requires l.pending == m.pending && l.told == m.told && l.issued == m.issued && l.foreign == m.foreign && l.order == m.order
    ensures WireOk(l) == WireOk(m)
  {
    assert |l.told| + |l.pending| == |l.issued| ==> forall i :: 0 <= i < |l.pending| ==> Due(l, i) == Due(m, i);
  }

  /** A refusal overtakes whatever waits. */
  lemma TurnedAwayKeepsWire(l: Line)
    requires WireOk(l)
    ensures WireOk(TurnedAway(l))
  {
    var after := TurnedAway(l);
    if l.foreign == 0 && !l.order.Unsure? {
      assert forall i :: 0 <= i < |l.told| ==> after.told[i] == l.told[i];
      assert forall i :: 0 <= i < |l.issued| ==> after.issued[i] == l.issued[i];
      if Overtaken(l) {
        var i :| 0 <= i < |l.told| && i < |l.issued| && l.told[i].kind != l.issued[i].kind;
        assert after.told[i].kind != after.issued[i].kind;
      } else if Short(l) {
      } else if l.pending == [] {
        assert Level(l);
        assert after.told == after.issued;
      } else {
        var n := |l.told|;
        assert Level(l) && Due(l, 0).kind != Ready;
        assert after.told[n + 1].kind == Ready;
        if |l.pending| > 1 {
          assert Due(l, 1).kind != Ready && after.issued[n + 1] == Due(l, 1);
        } else {
          assert after.issued[n + 1].kind == ErrorReply;
        }
      }
    }
  }

  // ---------- messages of havuz's own, and what waits ----------

  /** The line after a message of havuz's own that took the first waiting reply for its own. */
  predicate Rotated(l: Line, m: Line, reply: Kind) {
    && l.pending != [] && m.pending == l.pending[1..] + [Reply(None, reply)]
    && m.told == l.told && m.issued == l.issued && m.foreign == l.foreign
  }

  lemma RotatedAt(l: Line, m: Line, reply: Kind)
    requires Rotated(l, m, reply)
    ensures |m.pending| == |l.pending| && m.pending[|l.pending| - 1] == Reply(None, reply)
    ensures forall i :: 0 <= i < |l.pending| - 1 ==> m.pending[i] == l.pending[i + 1]
    ensures Level(l) <==> Level(m)
    ensures Level(l) ==> |l.told| + |l.pending| == |l.issued| && |m.told| + |m.pending| == |m.issued|
    ensures Level(l) ==> forall i :: 0 <= i < |l.pending| ==> Due(m, i) == Due(l, i)
  {
    if |l.told| + |l.pending| == |l.issued| {
      assert |m.pending| == |l.pending|;
      assert forall i :: 0 <= i < |l.pending| ==> Due(m, i) == Due(l, i);
    }
  }

  /** Turning a word by one letter leaves it as it was only if all its letters are the same. */
  lemma {:induction false} TurnedWord(pending: seq<Reply>, i: nat)
    requires i < |pending|
    requires forall j :: 0 <= j < |pending| - 1 ==> pending[j + 1].kind == pending[j].kind
    ensures pending[i].kind == pending[0].kind
  {
    if i > 0 {
      TurnedWord(pending, i - 1);
      assert pending[i - 1 + 1].kind == pending[i - 1].kind;
    }
  }

  /** Nothing that tells moves when only bare replies wait. */
  lemma RotatedBare(l: Line, m: Line, want: Kind)
    requires InPlace(l) && Rotated(l, m, want) && l.pending[0].kind == want && AllBare(l.pending)
    ensures if AllKind(l.pending, want) then InPlace(m) else BareMoved(m)
  {
    hide Level, Rotated;
    var last := |l.pending| - 1;
    RotatedSize(l, m, want);
    RotatedAt(l, m, want);
    LevelSize(l);
    assert forall i :: 0 <= i < |l.pending| ==> Due(m, i).kind == l.pending[i].kind;
    if AllKind(l.pending, want) {
      assert forall i :: 0 <= i < |m.pending| ==> m.pending[i].kind == want;
    } else if forall i :: 0 <= i < |m.pending| ==> m.pending[i].kind == Due(m, i).kind {
      forall j | 0 <= j < last ensures l.pending[j + 1].kind == l.pending[j].kind { assert m.pending[j].kind == Due(m, j).kind; }
      forall i | 0 <= i < |l.pending| ensures l.pending[i].kind == want { TurnedWord(l.pending, i); }
      assert false;
    } else {
      assert forall i :: 0 <= i < |m.pending| ==> !Heavy(m.pending[i].kind) && !Heavy(Due(m, i).kind);
    }
  }

  lemma RotatedSize(l: Line, m: Line, reply: Kind)
    requires Rotated(l, m, reply)
    ensures |l.pending| > 0
  {}

  /** The first p answers due tell nothing: whatever tells and stands among them is early. */
  lemma IsEarly(m: Line, p: nat)
    requires Level(m) && p < |m.pending| && Heavy(m.pending[p].kind) && forall j :: 0 <= j <= p ==> !Heavy(Due(m, j).kind)
    ensures Early(m)
  {}

  /** A reply that tells is overtaken, or an error stands where none is due. */
  lemma RotatedHeavy(l: Line, m: Line, want: Kind, reply: Kind)
    requires Level(l) && Rotated(l, m, reply) && l.pending[0].kind == want && !Heavy(want)
    requires forall i :: 0 <= i < |l.pending| ==> (Heavy(l.pending[i].kind) <==> Heavy(Due(l, i).kind))
    requires Heavy(reply) || !AllBare(l.pending)
    ensures Early(m)
  {
    hide Level, Rotated, Heavy;
    RotatedSize(l, m, reply);
    LevelSize(l);
    RotatedAt(l, m, reply);
    if AllBare(l.pending) {
      var p := |l.pending| - 1;
      assert forall j :: 0 <= j <= p ==> !Heavy(Due(m, j).kind);
      IsEarly(m, p);
    } else {
      var p := FirstHeavy(l.pending);
      assert m.pending[p - 1] == l.pending[p];
      assert forall j :: 0 <= j <= p - 1 ==> !Heavy(Due(m, j).kind);
      IsEarly(m, p - 1);
    }
  }

  function FirstHeavy(pending: seq<Reply>): (p: nat)
    requires !AllBare(pending)
    ensures p < |pending| && Heavy(pending[p].kind) && forall j :: 0 <= j < p ==> !Heavy(pending[j].kind)
  {
    if Heavy(pending[0].kind) then 0
    else
      assert exists i :: 0 <= i < |pending[1..]| && Heavy(pending[1..][i].kind) by {
        var i :| 0 <= i < |pending| && Heavy(pending[i].kind);
        assert pending[1..][i - 1] == pending[i];
      }
      1 + FirstHeavy(pending[1..])
  }

  lemma RotatedEarly(l: Line, m: Line, want: Kind, reply: Kind)
    requires Early(l) && Rotated(l, m, reply) && l.pending[0].kind == want && !Heavy(want)
    ensures Early(m)
  {
    hide Level, Rotated, Heavy;
    LevelSize(l);
    var p :| 0 <= p < |l.pending| && Heavy(l.pending[p].kind) && forall j :: 0 <= j <= p ==> !Heavy(Due(l, j).kind);
    RotatedAt(l, m, reply);
    assert m.pending[p - 1] == l.pending[p];
    assert forall j :: 0 <= j <= p - 1 ==> !Heavy(Due(m, j).kind);
    IsEarly(m, p - 1);
  }

  lemma RotatedKeeps(l: Line, m: Line, want: Kind, reply: Kind)
    requires WireOk(l) && l.foreign == 0 && !l.order.Unsure? && Rotated(l, m, reply)
    requires l.pending[0].kind == want && !Heavy(want) && reply in {want, ErrorReply}
    requires m.order == OrderAfter(l, want, Some(reply))
    ensures WireOk(m)
  {
    hide Level, InPlace, BareMoved, Early, AllBare, AllKind;
    match l.order {
      case Straight =>
        if reply == want && AllBare(l.pending) {
          RotatedBare(l, m, want);
        } else {
          InPlaceHeavy(l);
          RotatedHeavy(l, m, want, reply);
        }
      case Turned =>
        if !(reply == want && AllBare(l.pending)) {
          BareMovedHeavy(l);
          RotatedHeavy(l, m, want, reply);
        }
      case _ =>
        RotatedAt(l, m, reply);
        if Early(l) { RotatedEarly(l, m, want, reply); }
    }
  }

  lemma InPlaceHeavy(l: Line)
    requires InPlace(l)
    ensures Level(l) && forall i :: 0 <= i < |l.pending| ==> (Heavy(l.pending[i].kind) <==> Heavy(Due(l, i).kind))
  {}

  lemma BareMovedHeavy(l: Line)
    requires BareMoved(l)
    ensures Level(l) && forall i :: 0 <= i < |l.pending| ==> (Heavy(l.pending[i].kind) <==> Heavy(Due(l, i).kind))
  {
    forall i | 0 <= i < |l.pending| ensures Heavy(l.pending[i].kind) <==> Heavy(Due(l, i).kind) {
      if Heavy(l.pending[i].kind) || Heavy(Due(l, i).kind) { assert l.pending[i] == Due(l, i); }
    }
  }

  /** Losing a reply is for good. */
  lemma LosingKeeps(l: Line, m: Line)
    requires WireOk(l) && l.foreign == 0 && !l.order.Unsure? && |m.pending| < |l.pending|
    requires m.told == l.told && m.issued == l.issued && m.foreign == 0 && m.order.Broken?
    ensures WireOk(m)
  {
    hide Due;
  }

  /** Where the first reply of the wanted kind stands. */
  lemma HeardAt(l: Line, want: Kind, reply: Kind)
    requires Clean(l) && !l.skipping && want in {ParseDone, CloseDone} && reply in {want, ErrorReply}
    ensures var sent := l.pending + [Reply(None, reply)];
            && FirstOf(sent, want).Some?
            && (l.pending == [] ==> FirstOf(sent, want) == Some(0))
            && (l.pending != [] ==> (FirstOf(sent, want) == Some(0) <==> l.pending[0].kind == want))
  {
    hide FirstOf;
    var sent := l.pending + [Reply(None, reply)];
    assert sent[|l.pending|].kind == reply;
    if l.pending != [] { assert sent[0] == l.pending[0]; }
    if sent[0].kind in {want, ErrorReply} { FirstIsFirst(sent, want); }
  }

  lemma FirstIsFirst(sent: seq<Reply>, want: Kind)
    requires sent != [] && sent[0].kind in {want, ErrorReply}
    ensures FirstOf(sent, want) == Some(0)
  {}

  /** A message of havuz's own, whatever waits. */
  lemma AskKeepsWire(l: Line, k: Backend, want: Kind, reply: Kind)
    requires WireOk(l) && Clean(l) && want in {ParseDone, CloseDone} && reply in {want, ErrorReply}
    ensures var h := Ask(l, k, want, reply);
            h.Heard? ==>
              && WireOk(h.line) && Clean(h.line) && h.line.foreign == l.foreign
              && h.line.order == OrderAfter(l, want, if l.skipping then None else Some(reply))
              && (l.pending == [] ==> h.line.pending == [] && !l.skipping)
  {
    hide FirstOf, WireOk, OrderAfter;
    var heard := if l.skipping then None else Some(reply);
    var sent := if l.skipping then l.pending else l.pending + [Reply(None, reply)];
    var i := FirstOf(sent, want);
    if !l.skipping { HeardAt(l, want, reply); }
    if i.Some? {
      var m := Ask(l, k, want, reply).line;
      assert m.pending == sent[i.value + 1..] && m.told == l.told && m.issued == l.issued && m.foreign == l.foreign;
      assert m.order == OrderAfter(l, want, heard);
      AskedIsOk(l, m, want, heard, i.value);
    }
  }

  lemma AskedIsOk(l: Line, m: Line, want: Kind, heard: Option<Kind>, i: nat)
    requires WireOk(l) && want in {ParseDone, CloseDone} && (heard.Some? ==> heard.value in {want, ErrorReply})
    requires var sent := if heard.Some? then l.pending + [Reply(None, heard.value)] else l.pending;
             i < |sent| && m.pending == sent[i + 1..]
    requires m.told == l.told && m.issued == l.issued && m.foreign == l.foreign && m.order == OrderAfter(l, want, heard)
    requires l.pending != [] && heard.Some? ==> (i == 0 <==> l.pending[0].kind == want)
    ensures WireOk(m)
  {
    hide WireOk;
    if l.pending == [] {
      assert m.pending == l.pending;
      SameWire(l, m);
    } else if l.foreign > 0 || l.order.Unsure? {
      UnsureIsOk(m);
    } else if heard.Some? && l.pending[0].kind == want {
      assert (l.pending + [Reply(None, heard.value)])[1..] == l.pending[1..] + [Reply(None, heard.value)];
      RotatedKeeps(l, m, want, heard.value);
    } else {
      LosingKeeps(l, m);
    }
  }

  lemma UnsureIsOk(l: Line)
    requires l.order.Unsure?
    ensures WireOk(l)
  {}

  lemma ServeLeaves(l: Line, msg: Message, fails: bool)
    ensures var m := Serve(l, msg, fails).0;
            m.order == l.order && m.foreign == l.foreign && m.told == l.told && (Clean(l) && !IsSync(msg) ==> Clean(m))
  {
    hide ServerOn, AfterFailure;
  }

  lemma CacheLeaves(l: Line, cache: seq<Bytes>)
    ensures var m := WithCache(l, cache);
            && WireOk(m) == WireOk(l) && Clean(m) == Clean(l) && m.pending == l.pending && m.order == l.order && m.foreign == l.foreign
            && m.skipping == l.skipping
  {
    SameWire(l, WithCache(l, cache));
  }

  lemma CloseKeepsWire(l: Line, g: Bytes)
    requires WireOk(l) && Clean(l)
    ensures SideClose(l, g).Heard? ==>
              var m := SideClose(l, g).line;
              && WireOk(m) && Clean(m) && m.foreign == l.foreign
              && m.order == OrderAfter(l, CloseDone, if l.skipping then None else Some(CloseDone))
              && (l.pending == [] ==> m.pending == [] && !l.skipping)
  {
    hide Ask, WireOk, Clean, OrderAfter;
    AskKeepsWire(l, l.k.(server := l.k.server - {g}), CloseDone, CloseDone);
  }

  lemma FreeKeepsWire(l: Line, g: Bytes)
    requires WireOk(l) && Clean(l)
    ensures SideFree(l, g).Heard? ==>
              var m := SideFree(l, g).line;
              && WireOk(m) && Clean(m) && m.foreign == l.foreign
              && m.order == (if g in l.k.cache then OrderAfter(l, CloseDone, if l.skipping then None else Some(CloseDone)) else l.order)
              && (l.pending == [] ==> m.pending == [])
  {
    hide SideClose, WireOk, Clean, OrderAfter, Removed;
    if g in l.k.cache && SideClose(l, g).Heard? {
      CloseKeepsWire(l, g);
      CacheLeaves(SideClose(l, g).line, Removed(SideClose(l, g).line.k.cache, g));
    }
  }

  lemma RecordKeepsWire(l: Line, g: Bytes, lossy: bool)
    requires WireOk(l) && Clean(l)
    ensures SideRecord(l, g, lossy).Heard? ==>
              var m := SideRecord(l, g, lossy).line;
              && WireOk(m) && Clean(m) && m.foreign == l.foreign
              && m.order == (if Inserted(l.k.cache, g).1.Some? && !lossy
                             then OrderAfter(l, CloseDone, if l.skipping then None else Some(CloseDone)) else l.order)
  {
    hide SideClose, WireOk, Clean, OrderAfter, Inserted;
    var (cache, evicted) := Inserted(l.k.cache, g);
    CacheLeaves(l, cache);
    if evicted.Some? && SideClose(WithCache(l, cache), evicted.value).Heard? {
      CloseKeepsWire(WithCache(l, cache), evicted.value);
      OrderOfCache(l, cache, CloseDone, if l.skipping then None else Some(CloseDone));
    }
  }

  lemma OrderOfCache(l: Line, cache: seq<Bytes>, want: Kind, heard: Option<Kind>)
    ensures OrderAfter(WithCache(l, cache), want, heard) == OrderAfter(l, want, heard)
  {}

  predicate Accepts(server: Server, parse: Bytes) { ServerOn(server, Message(PARSE, parse)).1.Parsed? }

  lemma ParseKeepsWire(l: Line, parse: Bytes)
    requires WireOk(l) && Clean(l)
    ensures SideParse(l, parse).Heard? ==>
              var m := SideParse(l, parse).line;
              var reply := if Accepts(l.k.server, parse) then ParseDone else ErrorReply;
              && WireOk(m) && Clean(m) && m.foreign == l.foreign
              && m.order == OrderAfter(l, ParseDone, if l.skipping then None else Some(reply))
              && (l.pending == [] ==> m.pending == [] && !l.skipping)
  {
    hide Ask, WireOk, Clean, OrderAfter, ServerOn;
    var (server, o) := ServerOn(l.k.server, Message(PARSE, parse));
    AskKeepsWire(l, l.k.(server := server), ParseDone, if o.Parsed? then ParseDone else ErrorReply);
  }

  lemma RecordThenKeepsWire(table: Table, l: Line, g: Bytes, lossy: bool, msg: Message, fails: bool)
    requires WireOk(l) && Clean(l)
    ensures var r := RecordThen(table, l, g, lossy, msg, fails);
            && WireOk(r.line) && (IsSync(msg) || Clean(r.line))
            && (!r.event.Dead? ==>
                  r.line.order == if Inserted(l.k.cache, g).1.Some? && !lossy
                                  then OrderAfter(l, CloseDone, if l.skipping then None else Some(CloseDone)) else l.order)
  {
    hide Serve, SideRecord, WireOk, Clean, OrderAfter, Inserted;
    RecordKeepsWire(l, g, lossy);
    if SideRecord(l, g, lossy).Heard? {
      ServeKeepsWire(SideRecord(l, g, lossy).line, msg, fails);
      ServeLeaves(SideRecord(l, g, lossy).line, msg, fails);
    }
  }

  lemma DeliverKeepsWire(table: Table, l: Line, msg: Message, fails: bool)
    requires WireOk(l) && Clean(l)
    ensures var r := Deliver(table, l, msg, fails);
            WireOk(r.line) && (IsSync(msg) || Clean(r.line)) && r.line.order == l.order && r.event.Served?
  {
    hide Serve, WireOk, Clean;
    ServeKeepsWire(l, msg, fails);
    ServeLeaves(l, msg, fails);
  }

  /** Whatever the message and the backend, the order says where the answers are. */
  lemma WireRelayKeepsWire(d: Digest, table: Table, l: Line, msg: Message, fails: bool, retry: bool)
    requires WireOk(l) && Clean(l)
    ensures var r := WireRelay(d, table, l, msg, fails, retry); WireOk(r.line) && (IsSync(msg) || Clean(r.line))
  {
    hide RewriteOf, Deliver, RecordThen, SideParse, SideFree, Removed, WireOk, Clean, IsSync, OrderAfter, Accepts, Inserted;
    RewriteKeepsTag(d, table, l.k.cache, msg);
    var (table', rewrite) := RewriteOf(d, table, l.k.cache, msg);
    match rewrite {
      case Err(_) =>
        TurnedAwayKeepsWire(l);
        TurnedAwayIsClean(l);
      case Ok(Unchanged) => DeliverKeepsWire(table', l, msg, fails);
      case Ok(Replace(m)) => SameSync(msg, m); DeliverKeepsWire(table', l, m, fails);
      case Ok(RenamedParse(g, m)) =>
        SameSync(msg, m);
        FreeKeepsWire(l, g);
        if SideFree(l, g).Heard? { RecordThenKeepsWire(table', SideFree(l, g).line, g, retry, m, fails); }
      case Ok(CloseStatement(g, name, m)) =>
        SameSync(msg, m);
        CacheLeaves(l, Removed(l.k.cache, g));
        DeliverKeepsWire(table' - {name}, WithCache(l, Removed(l.k.cache, g)), m, fails);
      case Ok(ReplayThen(parse, g, m)) =>
        SameSync(msg, m);
        ParseKeepsWire(l, parse);
        if SideParse(l, parse).Heard? { RecordThenKeepsWire(table', SideParse(l, parse).line, g, false, m, fails); }
    }
  }

  lemma SameSync(a: Message, b: Message)
    ensures a.tag == b.tag ==> IsSync(a) == IsSync(b)
  {}

  // ---------- what keeps the answers straight ----------

  /** The replies havuz waits for before it forwards the message. */
  function Wants(d: Digest, table: Table, cache: seq<Bytes>, msg: Message, retry: bool): set<Kind> {
    match RewriteOf(d, table, cache, msg).1
    case Ok(RenamedParse(g, _)) => if Closes(cache, g, retry) then {CloseDone} else {}
    case Ok(ReplayThen(_, g, _)) => {ParseDone} + if Inserted(cache, g).1.Some? then {CloseDone} else {}
    case _ => {}
  }

  /** A Parse frees a cached name, or displaces another. */
  predicate Closes(cache: seq<Bytes>, g: Bytes, retry: bool) {
    g in cache || (Inserted(cache, g).1.Some? && !retry)
  }

  /** Nothing waits, or nothing but replies like the ones havuz waits for, and it will get one
      of its own for each it takes. */
  predicate Harmless(d: Digest, table: Table, l: Line, msg: Message, retry: bool) {
    var wants := Wants(d, table, l.k.cache, msg, retry);
    || wants == {} || l.pending == []
    || (l.foreign == 0 && !l.skipping && (forall want :: want in wants ==> AllKind(l.pending, want)) && Taught(d, table, l.k, msg))
  }

  lemma StraightAfter(l: Line, want: Kind, heard: Option<Kind>)
    requires l.pending != [] && !Heavy(want)
    ensures OrderAfter(l, want, heard).Straight? <==>
            l.order.Straight? && l.foreign == 0 && heard == Some(want) && AllKind(l.pending, want)
  {
    assert l.pending[0].kind == want || !AllKind(l.pending, want);
  }

  /** What is taken is replaced by its like. */
  lemma AskAlike(l: Line, k: Backend, want: Kind)
    requires l.pending != [] && AllKind(l.pending, want) && !l.skipping && want in {ParseDone, CloseDone}
    ensures var h := Ask(l, k, want, want);
            h.Heard? && h.line.pending != [] && AllKind(h.line.pending, want) && !h.line.skipping && h.line.foreign == l.foreign
  {
    hide FirstOf, OrderAfter;
    var sent := l.pending + [Reply(None, want)];
    FirstIsFirst(sent, want);
    assert sent[1..] == l.pending[1..] + [Reply(None, want)];
  }

  lemma ParseStraight(l: Line, g: Bytes, m: Message, table: Table, fails: bool, retry: bool)
    requires WireOk(l) && Clean(l) && SideFree(l, g).Heard?
    requires !RecordThen(table, SideFree(l, g).line, g, retry, m, fails).event.Dead?
    ensures RecordThen(table, SideFree(l, g).line, g, retry, m, fails).line.order.Straight? <==>
            l.order.Straight? &&
            (!Closes(l.k.cache, g, retry) || l.pending == [] ||
             (l.foreign == 0 && !l.skipping && AllKind(l.pending, CloseDone)))
  {
    hide WireOk, Clean, OrderAfter, Inserted, RecordThen, AllKind, Removed, SideClose;
    FreeKeepsWire(l, g);
    var freed := SideFree(l, g).line;
    RecordThenKeepsWire(table, freed, g, retry, m, fails);
    var closed := if l.skipping then None else Some(CloseDone);
    var again := if freed.skipping then None else Some(CloseDone);
    EmptyOrder(l, CloseDone, closed);
    EmptyOrder(freed, CloseDone, again);
    if l.pending != [] { StraightAfter(l, CloseDone, closed); }
    if freed.pending != [] { StraightAfter(freed, CloseDone, again); }
    if g in l.k.cache {
      if l.pending != [] && freed.order.Straight? { FreeAlike(l, g); }
    } else {
      assert freed == l by { FreeNothing(l, g); }
    }
  }

  lemma FreeNothing(l: Line, g: Bytes)
    ensures g !in l.k.cache ==> SideFree(l, g).Heard? && SideFree(l, g).line == l
  {}

  lemma FreeAlike(l: Line, g: Bytes)
    requires g in l.k.cache && l.pending != [] && AllKind(l.pending, CloseDone) && !l.skipping
    ensures SideFree(l, g).Heard? && SideFree(l, g).line.pending != [] && AllKind(SideFree(l, g).line.pending, CloseDone)
    ensures !SideFree(l, g).line.skipping
  {
    hide Ask, Removed;
    AskAlike(l, l.k.(server := l.k.server - {g}), CloseDone);
  }

  lemma EmptyOrder(l: Line, want: Kind, heard: Option<Kind>)
    ensures l.pending == [] ==> OrderAfter(l, want, heard) == l.order
  {}

  lemma ReplayStraight(l: Line, parse: Bytes, g: Bytes, m: Message, table: Table, fails: bool)
    requires WireOk(l) && Clean(l) && SideParse(l, parse).Heard?
    requires !RecordThen(table, SideParse(l, parse).line, g, false, m, fails).event.Dead?
    ensures RecordThen(table, SideParse(l, parse).line, g, false, m, fails).line.order.Straight? <==>
            l.order.Straight? &&
            (l.pending == [] ||
             (l.foreign == 0 && !l.skipping && AllKind(l.pending, ParseDone) && Accepts(l.k.server, parse) &&
              !Inserted(l.k.cache, g).1.Some?))
  {
    hide WireOk, Clean, OrderAfter, Inserted, RecordThen, AllKind, ServerOn, SideParse;
    ParseKeepsWire(l, parse);
    var taught := SideParse(l, parse).line;
    assert taught.k.cache == l.k.cache by { AskKeepsCache(l, parse); }
    RecordThenKeepsWire(table, taught, g, false, m, fails);
    var reply := if Accepts(l.k.server, parse) then ParseDone else ErrorReply;
    EmptyOrder(l, ParseDone, if l.skipping then None else Some(reply));
    EmptyOrder(taught, CloseDone, if taught.skipping then None else Some(CloseDone));
    if l.pending != [] {
      StraightAfter(l, ParseDone, if l.skipping then None else Some(reply));
      if taught.order.Straight? { ParseAlike(l, parse); NotBoth(taught.pending); }
      if taught.pending != [] { StraightAfter(taught, CloseDone, if taught.skipping then None else Some(CloseDone)); }
    }
  }

  lemma NotBoth(pending: seq<Reply>)
    ensures pending != [] && AllKind(pending, ParseDone) ==> !AllKind(pending, CloseDone)
  {
    if pending != [] && AllKind(pending, ParseDone) { assert pending[0].kind == ParseDone; }
  }

  lemma ParseAlike(l: Line, parse: Bytes)
    requires l.pending != [] && AllKind(l.pending, ParseDone) && !l.skipping && Accepts(l.k.server, parse)
    ensures SideParse(l, parse).Heard? && SideParse(l, parse).line.pending != [] && AllKind(SideParse(l, parse).line.pending, ParseDone)
  {
    hide Ask, ServerOn;
    AskAlike(l, l.k.(server := ServerOn(l.k.server, Message(PARSE, parse)).0), ParseDone);
  }

  lemma AskKeepsCache(l: Line, parse: Bytes)
    ensures SideParse(l, parse).Heard? ==> SideParse(l, parse).line.k.cache == l.k.cache
  {
    hide FirstOf, OrderAfter, ServerOn;
  }

  /** The answers stay straight exactly while every refusal finds nothing waiting, and every
      message of havuz's own nothing but replies like the one it waits for. */
  lemma StraightIff(d: Digest, table: Table, l: Line, msg: Message, fails: bool, retry: bool)
    requires WireOk(l) && Clean(l)
    ensures var r := WireRelay(d, table, l, msg, fails, retry);
            !r.event.Dead? ==>
              (r.line.order.Straight? <==>
               l.order.Straight? &&
               if r.event.Refusal? then retry || l.pending == [] else Harmless(d, table, l, msg, retry))
  {
    hide RewriteOf, Deliver, RecordThen, SideParse, SideFree, Removed, WireOk, Clean, OrderAfter, Accepts, Inserted, AllKind, ServerOn;
    var (table', rewrite) := RewriteOf(d, table, l.k.cache, msg);
    match rewrite {
      case Err(_) =>
      case Ok(Unchanged) => DeliverKeepsWire(table', l, msg, fails);
      case Ok(Replace(m)) => DeliverKeepsWire(table', l, m, fails);
      case Ok(CloseStatement(g, name, m)) =>
        CacheLeaves(l, Removed(l.k.cache, g));
        DeliverKeepsWire(table' - {name}, WithCache(l, Removed(l.k.cache, g)), m, fails);
      case Ok(RenamedParse(g, m)) => StraightParse(d, table, l, msg, fails, retry);
      case Ok(ReplayThen(parse, g, m)) => StraightReplay(d, table, l, msg, fails, retry);
    }
  }

  lemma StraightParse(d: Digest, table: Table, l: Line, msg: Message, fails: bool, retry: bool)
    requires WireOk(l) && Clean(l)
    requires RewriteOf(d, table, l.k.cache, msg).1.Ok? && RewriteOf(d, table, l.k.cache, msg).1.value.RenamedParse?
    ensures var r := WireRelay(d, table, l, msg, fails, retry);
            !r.event.Dead? ==>
              !r.event.Refusal? && (r.line.order.Straight? <==> l.order.Straight? && Harmless(d, table, l, msg, retry))
  {
    hide RewriteOf, RecordThen, SideFree, WireOk, Clean, OrderAfter, Accepts, Inserted, AllKind, ServerOn;
    var (table', rewrite) := RewriteOf(d, table, l.k.cache, msg);
    var RenamedParse(g, m) := rewrite.value;
    if SideFree(l, g).Heard? {
      var r := RecordThen(table', SideFree(l, g).line, g, retry, m, fails);
      assert r.event.Dead? || r.event.Served? by { RecordThenServes(table', SideFree(l, g).line, g, retry, m, fails); }
      if !r.event.Dead? { ParseStraight(l, g, m, table', fails, retry); }
    }
  }

  lemma RecordThenServes(table: Table, l: Line, g: Bytes, lossy: bool, msg: Message, fails: bool)
    ensures !RecordThen(table, l, g, lossy, msg, fails).event.Refusal?
  {
    hide SideRecord, Serve;
  }

  lemma StraightReplay(d: Digest, table: Table, l: Line, msg: Message, fails: bool, retry: bool)
    requires WireOk(l) && Clean(l)
    requires RewriteOf(d, table, l.k.cache, msg).1.Ok? && RewriteOf(d, table, l.k.cache, msg).1.value.ReplayThen?
    ensures var r := WireRelay(d, table, l, msg, fails, retry);
            !r.event.Dead? ==>
              !r.event.Refusal? && (r.line.order.Straight? <==> l.order.Straight? && Harmless(d, table, l, msg, retry))
  {
    hide RewriteOf, RecordThen, SideParse, WireOk, Clean, OrderAfter, Inserted, AllKind, ServerOn;
    var (table', rewrite) := RewriteOf(d, table, l.k.cache, msg);
    var ReplayThen(parse, g, m) := rewrite.value;
    assert Taught(d, table, l.k, msg) == Accepts(l.k.server, parse);
    if SideParse(l, parse).Heard? && SideParse(l, parse).kind != ErrorReply {
      var r := RecordThen(table', SideParse(l, parse).line, g, false, m, fails);
      assert r.event.Dead? || r.event.Served? by { RecordThenServes(table', SideParse(l, parse).line, g, false, m, fails); }
      if !r.event.Dead? { ReplayStraight(l, parse, g, m, table', fails); }
      NotBoth(l.pending);
      var wants := Wants(d, table, l.k.cache, msg, retry);
      assert ParseDone in wants && (Inserted(l.k.cache, g).1.Some? <==> CloseDone in wants);
    }
  }

  // ---------- when the order is known ----------

  /** Nothing foreign, no CloseComplete and no ReadyForQuery waits, and the order is known. */
  predicate Sure(l: Line) {
    && l.foreign == 0 && (l.order.Straight? || l.order.Broken?)
    && forall i :: 0 <= i < |l.pending| ==> l.pending[i].kind in {ParseDone, Data, ErrorReply}
  }

  lemma OrderStaysSure(l: Line, want: Kind, heard: Option<Kind>)
    requires Sure(l) && want in {ParseDone, CloseDone}
    ensures OrderAfter(l, want, heard).Straight? || OrderAfter(l, want, heard).Broken?
  {
    if AllBare(l.pending) {
      forall j | 0 <= j < |l.pending| ensures l.pending[j].kind == ParseDone { assert !Heavy(l.pending[j].kind); }
      assert AllKind(l.pending, ParseDone);
    }
  }

  /** What is left of the line is what stood there, and a reply to a replay at most. */
  lemma HeardStaysSure(l: Line, want: Kind, heard: Option<Kind>, i: nat)
    requires Sure(l) && want in {ParseDone, CloseDone} && (heard.Some? ==> heard.value in {want, ErrorReply})
    requires var sent := if heard.Some? then l.pending + [Reply(None, heard.value)] else l.pending;
             FirstOf(sent, want) == Some(i) && i < |sent|
    requires heard.Some? ==> forall j :: 0 <= j < |l.pending| ==> l.pending[j].kind != ErrorReply
    ensures var sent := if heard.Some? then l.pending + [Reply(None, heard.value)] else l.pending;
            forall j :: i < j < |sent| ==> sent[j].kind in {ParseDone, Data, ErrorReply}
  {
    hide FirstOf;
    var sent := if heard.Some? then l.pending + [Reply(None, heard.value)] else l.pending;
    assert sent[i].kind in {want, ErrorReply};
    assert forall j :: 0 <= j < |l.pending| ==> sent[j] == l.pending[j];
  }

  lemma AskStaysSure(l: Line, k: Backend, want: Kind, reply: Kind)
    requires Sure(l) && Clean(l) && want in {ParseDone, CloseDone} && reply in {want, ErrorReply}
    ensures var h := Ask(l, k, want, reply); h.Heard? ==> Sure(h.line)
  {
    hide FirstOf, OrderAfter;
    var heard := if l.skipping then None else Some(reply);
    OrderStaysSure(l, want, heard);
    var sent := if l.skipping then l.pending else l.pending + [Reply(None, reply)];
    var i := FirstOf(sent, want);
    if i.Some? {
      HeardStaysSure(l, want, heard, i.value);
      var m := Ask(l, k, want, reply).line;
      assert m.pending == sent[i.value + 1..] && m.foreign == 0 && m.order == OrderAfter(l, want, heard);
      forall j | 0 <= j < |m.pending| ensures m.pending[j].kind in {ParseDone, Data, ErrorReply} { assert m.pending[j] == sent[i.value + 1 + j]; }
    }
  }

  lemma SidesStaySure(l: Line, g: Bytes, parse: Bytes, lossy: bool)
    requires Sure(l) && Clean(l)
    ensures SideFree(l, g).Heard? ==> Sure(SideFree(l, g).line)
    ensures SideParse(l, parse).Heard? ==> Sure(SideParse(l, parse).line)
    ensures SideRecord(l, g, lossy).Heard? ==> Sure(SideRecord(l, g, lossy).line)
  {
    hide Ask, ServerOn, Inserted, Removed;
    AskStaysSure(l, l.k.(server := l.k.server - {g}), CloseDone, CloseDone);
    var (server, o) := ServerOn(l.k.server, Message(PARSE, parse));
    AskStaysSure(l, l.k.(server := server), ParseDone, if o.Parsed? then ParseDone else ErrorReply);
    var (cache, evicted) := Inserted(l.k.cache, g);
    if evicted.Some? {
      var m := WithCache(l, cache);
      AskStaysSure(m, m.k.(server := m.k.server - {evicted.value}), CloseDone, CloseDone);
    }
  }

  lemma ServeStaysSure(l: Line, msg: Message, fails: bool)
    requires Sure(l) && msg.tag != CLOSE
    ensures Sure(Serve(l, msg, fails).0)
  {
    hide ServerOn, AfterFailure;
  }

  /** As long as the client closes nothing in the exchange, the order stays known. */
  lemma SureWithoutCloses(d: Digest, table: Table, l: Line, msg: Message, fails: bool, retry: bool)
    requires WireOk(l) && Clean(l) && Sure(l) && msg.tag != CLOSE
    ensures var r := WireRelay(d, table, l, msg, fails, retry); !r.event.Dead? ==> Sure(r.line)
  {
    hide RewriteOf, Serve, SideParse, SideFree, SideRecord, Removed, WireOk, Clean;
    RewriteKeepsTag(d, table, l.k.cache, msg);
    var (table', rewrite) := RewriteOf(d, table, l.k.cache, msg);
    match rewrite {
      case Err(_) =>
      case Ok(Unchanged) => ServeStaysSure(l, msg, fails);
      case Ok(Replace(m)) => ServeStaysSure(l, m, fails);
      case Ok(CloseStatement(g, name, m)) => ServeStaysSure(WithCache(l, Removed(l.k.cache, g)), m, fails);
      case Ok(RenamedParse(g, m)) =>
        SidesStaySure(l, g, [], retry);
        if SideFree(l, g).Heard? {
          var freed := SideFree(l, g).line;
          FreeKeepsWire(l, g);
          SidesStaySure(freed, g, [], retry);
          if SideRecord(freed, g, retry).Heard? { ServeStaysSure(SideRecord(freed, g, retry).line, m, fails); }
        }
      case Ok(ReplayThen(parse, g, m)) =>
        SidesStaySure(l, g, parse, false);
        if SideParse(l, parse).Heard? {
          var taught := SideParse(l, parse).line;
          ParseKeepsWire(l, parse);
          SidesStaySure(taught, g, [], false);
          if SideRecord(taught, g, false).Heard? { ServeStaysSure(SideRecord(taught, g, false).line, m, fails); }
        }
    }
  }

  /** What waits after a message of havuz's own that is answered, when the head is of its kind. */
  lemma AskTurns(l: Line, k: Backend, want: Kind, rest: seq<Reply>)
    requires !l.skipping && l.pending != [] && l.pending[0].kind == want && l.pending[1..] == rest && want in {ParseDone, CloseDone}
    ensures var h := Ask(l, k, want, want);
            && h.Heard? && h.line.pending == rest + [Reply(None, want)] && h.line.told == l.told && h.line.issued == l.issued
            && h.line.order == OrderAfter(l, want, Some(want)) && !h.line.skipping && h.line.foreign == l.foreign
  {
    hide FirstOf, OrderAfter;
    var sent := l.pending + [Reply(None, want)];
    FirstIsFirst(sent, want);
    assert sent[1..] == l.pending[1..] + [Reply(None, want)];
  }

  /** The waiting replies differ from the answers due at this place. */
  lemma NotRight(l: Line, i: nat)
    requires l.told == [] && i < |l.pending| && i < |l.issued| && l.pending[i].kind != l.issued[i].kind
    ensures !Right(l)
  {
    assert Received(l)[i] == l.pending[i] && (l.issued + [Reply(None, Ready)])[i] == l.issued[i];
  }

  /** A Parse and a Close, or two, were answered. */
  function Answers(twice: bool): seq<Reply> {
    [Reply(Some(0), ParseDone)] + ([Reply(Some(1), CloseDone)] + if twice then [Reply(Some(2), CloseDone)] else [])
  }

  lemma TurnedOnce(l: Line, parse: Bytes, twice: bool)
    requires l.told == [] && !l.skipping && l.foreign == 0 && l.order.Straight? && Accepts(l.k.server, parse)
    requires l.pending == l.issued == Answers(twice)
    ensures SideParse(l, parse).Heard?
    ensures var m := SideParse(l, parse).line;
            && m.order.Turned? && m.pending == Answers(twice)[1..] + [Reply(None, ParseDone)] && m.issued == l.issued && m.told == []
            && !m.skipping && m.foreign == 0 && !Right(m)
  {
    hide ServerOn, Ask, Right;
    assert l.pending[1].kind == CloseDone && AllBare(l.pending) && !AllKind(l.pending, ParseDone);
    AskTurns(l, l.k.(server := ServerOn(l.k.server, Message(PARSE, parse)).0), ParseDone, Answers(twice)[1..]);
    NotRight(SideParse(l, parse).line, 0);
  }

  /** A replay and an eviction turn the answers to a Parse and a Close round and round again, and
      the client is none the wiser; with one more CloseComplete waiting they do not get back. */
  lemma TurnedTwice(l: Line, parse: Bytes, g: Bytes, twice: bool)
    requires l.told == [] && !l.skipping && l.foreign == 0 && l.order.Straight? && Accepts(l.k.server, parse)
    requires l.pending == l.issued == Answers(twice)
    ensures SideParse(l, parse).Heard? && SideParse(l, parse).line.order.Turned? && !Right(SideParse(l, parse).line)
    ensures var h := SideClose(SideParse(l, parse).line, g); h.Heard? && h.line.order.Unsure? && (Right(h.line) <==> !twice)
  {
    hide ServerOn, Ask, SideParse;
    TurnedOnce(l, parse, twice);
    var m := SideParse(l, parse).line;
    var tail := if twice then [Reply(Some(2), CloseDone), Reply(None, ParseDone)] else [Reply(None, ParseDone)];
    assert m.pending == [Reply(Some(1), CloseDone)] + tail && m.pending[1..] == tail;
    assert AllBare(m.pending);
    AskTurns(m, m.k.(server := m.k.server - {g}), CloseDone, tail);
    if twice { NotRight(SideClose(m, g).line, 0); }
  }
}
