/** Carrying parameters as text: the delta is sent as one batch joined by "; ", and read back
    by splitting and classifying it. */
module Sync {
  import opened Text
  import opened Scanner
  import opened Params
  import opened Delta

  // ---------- the delta ----------

  predicate Distinct(names: seq<string>) {
    forall i, j :: 0 <= i < j < |names| ==> names[i] != names[j]
  }

  /** The names, in order, that the client never asked for. */
  function ForeignIn(desired: Settings, names: seq<string>): seq<string> {
    if names == [] then []
    else (if names[0] in desired then [] else [names[0]]) + ForeignIn(desired, names[1..])
  }

  predicate Differs(desired: Settings, applied: Settings, n: string) {
    n in desired && !(n in applied && applied[n] == desired[n])
  }

  /** The names, in order, that the backend does not have as the client wants them. */
  function ChangedIn(desired: Settings, applied: Settings, names: seq<string>): seq<string> {
    if names == [] then []
    else (if Differs(desired, applied, names[0]) then [names[0]] else [])
         + ChangedIn(desired, applied, names[1..])
  }

  lemma {:induction false} ForeignInMeaning(desired: Settings, names: seq<string>)
    requires Distinct(names)
    ensures forall n :: n in ForeignIn(desired, names) <==> n in names && n !in desired
    ensures Distinct(ForeignIn(desired, names))
  {
    if names != [] {
      ForeignInMeaning(desired, names[1..]);
      assert names == [names[0]] + names[1..] && names[0] !in names[1..];
    }
  }

  lemma {:induction false} ChangedInMeaning(desired: Settings, applied: Settings, names: seq<string>)
    requires Distinct(names)
    ensures forall n :: n in ChangedIn(desired, applied, names) <==> n in names && Differs(desired, applied, n)
    ensures Distinct(ChangedIn(desired, applied, names))
  {
    hide Differs;
    if names != [] {
      ChangedInMeaning(desired, applied, names[1..]);
      assert names == [names[0]] + names[1..] && names[0] !in names[1..];
    }
  }

  function Foreign(desired: Settings, applied: Settings): seq<string> {
    ForeignIn(desired, Sorted(applied.Keys))
  }

  function Changed(desired: Settings, applied: Settings): seq<string> {
    ChangedIn(desired, applied, Sorted(desired.Keys))
  }

  lemma TargetsMeaning(desired: Settings, applied: Settings)
    ensures forall n :: n in Foreign(desired, applied) <==> n in applied && n !in desired
    ensures forall n :: n in Changed(desired, applied) <==> Differs(desired, applied, n)
    ensures Distinct(Foreign(desired, applied)) && Distinct(Changed(desired, applied))
  {
    hide Sorted, StrLe;
    ForeignInMeaning(desired, Sorted(applied.Keys));
    ChangedInMeaning(desired, applied, Sorted(desired.Keys));
  }

  function Lookup(m: Settings, n: string): string { if n in m then m[n] else "" }

  /** The settings of these names, in order. */
  function Select(m: Settings, names: seq<string>): (r: seq<string>)
    ensures |r| == |names| && forall i :: 0 <= i < |names| ==> r[i] == Lookup(m, names[i])
  {
    seq(|names|, i requires 0 <= i < |names| => Lookup(m, names[i]))
  }

  /** The resets of `delta` for these names of the backend. */
  function ResetLines(desired: Settings, names: seq<string>): seq<string> {
    if names == [] then []
    else (if names[0] in desired then [] else [ResetText(names[0])]) + ResetLines(desired, names[1..])
  }

  /** The client's own statements that `delta` repeats for these names. */
  function SetLines(desired: Settings, applied: Settings, names: seq<string>): seq<string> {
    if names == [] then []
    else (if Differs(desired, applied, names[0]) then [desired[names[0]]] else [])
         + SetLines(desired, applied, names[1..])
  }

  /** `delta`: resets first, then the client's own statements, each in key order. */
  function DeltaOf(desired: Settings, applied: Settings): seq<string> {
    ResetLines(desired, Sorted(applied.Keys)) + SetLines(desired, applied, Sorted(desired.Keys))
  }

  lemma {:induction false} ResetLinesMeaning(desired: Settings, names: seq<string>)
    ensures ResetLines(desired, names) == Map(ResetText, ForeignIn(desired, names))
  {
    hide ResetText;
    if names != [] {
      ResetLinesMeaning(desired, names[1..]);
    }
  }

  lemma {:induction false} SetLinesMeaning(desired: Settings, applied: Settings, names: seq<string>)
    ensures SetLines(desired, applied, names) == Select(desired, ChangedIn(desired, applied, names))
  {
    if names != [] {
      SetLinesMeaning(desired, applied, names[1..]);
    }
  }

  lemma DeltaMeaning(desired: Settings, applied: Settings)
    ensures DeltaOf(desired, applied) ==
            Map(ResetText, Foreign(desired, applied)) + Select(desired, Changed(desired, applied))
  {
    hide Sorted, ForeignIn, ChangedIn, ResetLines, SetLines, ResetText;
    ResetLinesMeaning(desired, Sorted(applied.Keys));
    SetLinesMeaning(desired, applied, Sorted(desired.Keys));
  }

  function Batch(statements: seq<string>): string { Join(statements, "; ") }

  /** A backend that already agrees costs nothing, and only such a backend does. */
  lemma DeltaEmptyIffEqual(desired: Settings, applied: Settings)
    ensures DeltaOf(desired, applied) == [] <==> applied == desired
  {
    hide Foreign, Changed, DeltaOf;
    DeltaMeaning(desired, applied);
    TargetsMeaning(desired, applied);
    var foreign, changed := Foreign(desired, applied), Changed(desired, applied);
    assert DeltaOf(desired, applied) == [] <==> foreign == [] && changed == [];
    if foreign == [] && changed == [] {
      assert forall n :: n in applied ==> n !in foreign;
      assert forall n :: n in desired ==> n !in changed;
      assert applied.Keys == desired.Keys;
    }
    if applied == desired {
      EmptyOf(foreign);
      EmptyOf(changed);
    }
  }

  lemma EmptyOf(s: seq<string>)
    ensures s != [] ==> exists n :: n in s
  {
    if s != [] { assert s[0] in s; }
  }

  /** The parameters the delta's statements are about, statement by statement. */
  function Targets(desired: Settings, applied: Settings): seq<string> {
    Foreign(desired, applied) + Changed(desired, applied)
  }

  /** The delta touches each parameter at most once, and only one that disagrees. */
  lemma DeltaTouchesOnce(desired: Settings, applied: Settings, i: nat)
    requires i < |Targets(desired, applied)|
    ensures var n := Targets(desired, applied)[i];
            !(n in applied && n in desired && applied[n] == desired[n])
    ensures forall j :: i < j < |Targets(desired, applied)| ==>
              Targets(desired, applied)[j] != Targets(desired, applied)[i]
  {
    hide Foreign, Changed;
    TargetsMeaning(desired, applied);
    var f, c := Foreign(desired, applied), Changed(desired, applied);
    var t := f + c;
    assert forall k :: 0 <= k < |t| ==> if k < |f| then t[k] in f else t[k] in c;
    forall j | i < j < |t| ensures t[j] != t[i] {
      if j < |f| {
        assert Distinct(f);
      } else if |f| <= i {
        assert Distinct(c);
      }
    }
  }

  // ---------- reading a batch ----------

  function Apply(m: Settings, a: SetAction): Settings {
    match a
    case Track(name, statement) => m[name := statement]
    case Reset(name) => m - {name}
    case ResetAll => map[]
    case Pin => m
    case NotASet => m
  }

  /** What each action does to every parameter. */
  lemma ApplySays(m: Settings, name: string, statement: string, other: string)
    ensures var after := Apply(m, Track(name, statement));
            && name in after && after[name] == statement
            && (other != name ==> (other in after <==> other in m) && (other in m ==> after[other] == m[other]))
    ensures var after := Apply(m, Reset(name));
            && name !in after
            && (other != name ==> (other in after <==> other in m) && (other in m ==> after[other] == m[other]))
    ensures other !in Apply(m, ResetAll)
    ensures Apply(m, Pin) == m && Apply(m, NotASet) == m
  {}

  function RunAll(m: Settings, statements: seq<string>): Settings
    decreases |statements|
  {
    if statements == [] then m else RunAll(Apply(m, ClassifySet(statements[0])), statements[1..])
  }

  /** The settings after a batch, read the way havuz reads it. */
  function RunSql(m: Settings, sql: string): Settings { RunAll(m, Split(sql)) }

  function Space(s: string): string { " " + s }

  /** The pieces a batch splits into when it is read as it was meant. */
  function Spaced(statements: seq<string>): seq<string> {
    if statements == [] then [] else [statements[0]] + Map(Space, statements[1..])
  }

  lemma SpaceIsCode(s: string)
    ensures EndsInCode(" " + s) == EndsInCode(s)
    ensures FirstSemi(" " + s) == Shift(1, FirstSemi(s))
  {
    hide IsCode, Scan, TokenLen, EndsInCode, FirstSemi;
    var t := " " + s;
    assert t[1..] == s;
    SeparatorIsCode(t);
    EndsInCodeStep(t);
    FirstSemiStep(t);
  }

  lemma SplitOne(s: string)
    requires s != [] && FirstSemi(s).None? && EndsInCode(s)
    ensures Split(s + ";") == [s]
  {
    hide FirstSemi, Split, EndsInCode;
    FirstSemiAfter(s, "");
    assert s + ";" + "" == s + ";";
    SplitStep(s + ";");
    SplitStep("");
    assert (s + ";")[..|s|] == s && (s + ";")[|s| + 1..] == "";
  }

  lemma {:induction false} SplitBatch(head: string, tail: seq<string>)
    requires head != [] && FirstSemi(head).None?
    requires forall i :: 0 <= i < |tail| ==> tail[i] != [] && FirstSemi(tail[i]).None?
    requires tail != [] ==> EndsInCode(head)
    requires forall i :: 0 <= i < |tail| - 1 ==> EndsInCode(tail[i])
    ensures Split(Batch([head] + tail)) == [head] + Map(Space, tail)
    decreases |tail|
  {
    hide FirstSemi, Split, EndsInCode;
    var all := [head] + tail;
    if tail == [] {
      SplitStep(head);
    } else {
      var next := " " + tail[0];
      assert all[1..] == tail;
      assert Batch(all) == head + "; " + Batch(tail);
      assert Batch([next] + tail[1..]) == " " + Batch(tail) by {
        assert tail == [tail[0]] + tail[1..];
        if |tail| > 1 {
          assert ([next] + tail[1..])[1..] == tail[1..];
        }
      }
      assert Batch(all) == head + ";" + Batch([next] + tail[1..]);
      SplitAt(head, Batch([next] + tail[1..]));
      SplitOne(head);
      SpaceIsCode(tail[0]);
      SplitBatch(next, tail[1..]);
      assert Map(Space, tail) == [next] + Map(Space, tail[1..]);
    }
  }

  /** A batch of single statements is read back as exactly those statements if and only if
      every statement but the last ends outside literals and comments. */
  lemma BatchReadsBack(statements: seq<string>)
    requires forall i :: 0 <= i < |statements| ==> statements[i] != [] && FirstSemi(statements[i]).None?
    ensures Split(Batch(statements)) == Spaced(statements) <==>
            forall i :: 0 <= i < |statements| - 1 ==> EndsInCode(statements[i])
  {
    hide FirstSemi, Split, EndsInCode;
    var text := Batch(statements);
    if statements == [] {
      SplitStep("");
    } else {
      assert statements == [statements[0]] + statements[1..];
      if forall i :: 0 <= i < |statements| - 1 ==> EndsInCode(statements[i]) {
        SplitBatch(statements[0], statements[1..]);
      }
      if Split(text) == Spaced(statements) {
        forall i | 0 <= i < |statements| - 1 ensures EndsInCode(statements[i]) {
          PiecesAreClosed(text, i);
          SpaceIsCode(statements[i]);
        }
      }
    }
  }

  // ---------- a statement with only ordinary characters ----------

  predicate Ordinary(c: char) { IsAlnum(c) || c == '_' || c == '.' || c == ' ' || c == '=' }

  lemma {:induction false} OrdinaryPrefix(u: string, r: string)
    requires forall i :: 0 <= i < |u| ==> Ordinary(u[i])
    ensures FirstSemi(u + r) == Shift(|u|, FirstSemi(r))
    ensures EndsInCode(u + r) == EndsInCode(r)
  {
    hide FirstSemi, EndsInCode;
    var s := u + r;
    if u == [] {
      assert s == r;
    } else {
      assert IsCode(s);
      assert s[1..] == u[1..] + r;
      FirstSemiStep(s);
      EndsInCodeStep(s);
      OrdinaryPrefix(u[1..], r);
    }
  }

  /** One statement, closed: it can be followed by another in a batch. */
  predicate SelfContained(s: string) { s != [] && EndsInCode(s) && FirstSemi(s).None? }

  /** A name that can be written into a RESET and read back. */
  predicate Portable(name: string) {
    IsParameterName(name) && ToLower(name) == name && !IsResetWord(name) && SelfContained(ResetText(name))
  }

  /** Only a name with a `$` in it could open a dollar quote. */
  lemma PlainNameStandsAlone(name: string)
    requires IsParameterName(name) && '$' !in name
    ensures SelfContained(ResetText(name))
  {
    hide IsParameterName, FirstSemi, EndsInCode;
    NameChars(name);
    assert forall i :: 0 <= i < |name| ==> name[i] in name;
    var s := ResetText(name);
    OrdinaryPrefix(s, "");
    assert s + "" == s;
    FirstSemiStep("");
    EndsInCodeStep("");
  }

  lemma ResetIsSelfContained(name: string)
    requires Portable(name)
    ensures SelfContained(ResetText(name)) && ClassifySet(ResetText(name)) == Reset(name)
  {
    hide ClassifySet, IsParameterName, SelfContained;
    ResetReadsBack(name);
  }

  // ---------- the delta, as text ----------

  /** A carried parameter: its statement stands alone and is read back as setting it. */
  predicate Carried(name: string, statement: string) {
    Portable(name) && SelfContained(statement) && ClassifySet(statement) == Track(name, statement)
  }

  predicate AllCarried(m: Settings) { forall n :: n in m ==> Carried(n, m[n]) }

  /** A parameter whose statement is one statement and is read back as setting it, though it
      may end inside a comment or literal. */
  predicate Replays(name: string, statement: string) {
    Portable(name) && statement != [] && FirstSemi(statement).None? && ClassifySet(statement) == Track(name, statement)
  }

  predicate AllReplay(m: Settings) { forall n :: n in m ==> Replays(n, m[n]) }

  lemma CarriedReplay(m: Settings)
    requires AllCarried(m)
    ensures AllReplay(m)
  {
    hide Portable, ClassifySet, FirstSemi, EndsInCode;
    forall n | n in m ensures Replays(n, m[n]) { assert Carried(n, m[n]); }
  }

  lemma {:induction false} RunConcat(m: Settings, a: seq<string>, b: seq<string>)
    ensures RunAll(m, a + b) == RunAll(RunAll(m, a), b)
    decreases |a|
  {
    hide ClassifySet, Apply;
    if a == [] {
      assert a + b == b;
    } else {
      assert (a + b)[0] == a[0] && (a + b)[1..] == a[1..] + b;
      RunConcat(Apply(m, ClassifySet(a[0])), a[1..], b);
    }
  }

  lemma {:induction false} RunSpaced(m: Settings, statements: seq<string>)
    ensures RunAll(m, Map(Space, statements)) == RunAll(m, statements)
    decreases |statements|
  {
    hide ClassifySet, Apply;
    if statements != [] {
      NormalizedAfterBlank(statements[0]);
      assert Map(Space, statements)[1..] == Map(Space, statements[1..]);
      RunSpaced(Apply(m, ClassifySet(statements[0])), statements[1..]);
    }
  }

  lemma RunSpacedAll(m: Settings, statements: seq<string>)
    ensures RunAll(m, Spaced(statements)) == RunAll(m, statements)
  {
    hide ClassifySet, Apply;
    if statements != [] {
      assert Spaced(statements)[1..] == Map(Space, statements[1..]);
      RunSpaced(Apply(m, ClassifySet(statements[0])), statements[1..]);
    }
  }

  function Without(m: Settings, names: seq<string>): Settings
    decreases |names|
  {
    if names == [] then m else Without(m - {names[0]}, names[1..])
  }

  lemma {:induction false} WithoutMeaning(m: Settings, names: seq<string>)
    ensures Without(m, names) == m - (set n | n in names)
    decreases |names|
  {
    if names != [] {
      WithoutMeaning(m - {names[0]}, names[1..]);
      assert names == [names[0]] + names[1..];
    }
  }

  lemma {:induction false} RunResets(m: Settings, names: seq<string>)
    requires forall n :: n in names ==> Portable(n)
    ensures RunAll(m, Map(ResetText, names)) == Without(m, names)
    decreases |names|
  {
    hide ClassifySet, Portable, ResetText;
    if names != [] {
      ResetIsSelfContained(names[0]);
      assert Map(ResetText, names)[1..] == Map(ResetText, names[1..]);
      RunResets(m - {names[0]}, names[1..]);
    }
  }

  function With(m: Settings, desired: Settings, names: seq<string>): Settings
    requires forall n :: n in names ==> n in desired
    decreases |names|
  {
    if names == [] then m else
      assert names[0] in names;
      With(m[names[0] := desired[names[0]]], desired, names[1..])
  }

  lemma {:induction false} WithMeaning(m: Settings, desired: Settings, names: seq<string>)
    requires forall n :: n in names ==> n in desired
    ensures With(m, desired, names).Keys == m.Keys + (set n | n in names)
    ensures forall n :: n in With(m, desired, names) ==>
              With(m, desired, names)[n] == if n in names then desired[n] else m[n]
    decreases |names|
  {
    if names != [] {
      assert names[0] in names;
      WithMeaning(m[names[0] := desired[names[0]]], desired, names[1..]);
      assert names == [names[0]] + names[1..];
    }
  }

  lemma {:induction false} RunSets(m: Settings, desired: Settings, names: seq<string>)
    requires AllReplay(desired)
    requires forall n :: n in names ==> n in desired
    ensures RunAll(m, Select(desired, names)) == With(m, desired, names)
    decreases |names|
  {
    hide ClassifySet, Portable, FirstSemi;
    if names != [] {
      var n0 := names[0];
      assert n0 in names && Replays(n0, desired[n0]);
      assert Select(desired, names)[1..] == Select(desired, names[1..]);
      RunSets(m[n0 := desired[n0]], desired, names[1..]);
    }
  }

  /** The statements of the delta, run one by one, turn `applied` into `desired`. */
  lemma RunDelta(desired: Settings, applied: Settings)
    requires AllReplay(desired) && forall n :: n in applied ==> Portable(n)
    ensures RunAll(applied, DeltaOf(desired, applied)) == desired
  {
    hide ClassifySet, Portable, RunAll, Replays, AllReplay, With, Without, Foreign, Changed, DeltaOf;
    DeltaMeaning(desired, applied);
    TargetsMeaning(desired, applied);
    var f, c := Foreign(desired, applied), Changed(desired, applied);
    RunConcat(applied, Map(ResetText, f), Select(desired, c));
    RunResets(applied, f);
    WithoutMeaning(applied, f);
    var kept := Without(applied, f);
    RunSets(kept, desired, c);
    WithMeaning(kept, desired, c);
    var result := With(kept, desired, c);
    assert result.Keys == desired.Keys;
    assert forall n :: n in desired ==> result[n] == desired[n];
  }

  lemma DeltaIsSelfContained(desired: Settings, applied: Settings)
    requires AllCarried(desired) && forall n :: n in applied ==> Portable(n)
    ensures forall s :: s in DeltaOf(desired, applied) ==> SelfContained(s)
  {
    hide ClassifySet, Portable, SelfContained, ResetText, DeltaOf, Foreign, Changed;
    DeltaMeaning(desired, applied);
    TargetsMeaning(desired, applied);
    var f, c := Foreign(desired, applied), Changed(desired, applied);
    forall s | s in DeltaOf(desired, applied) ensures SelfContained(s) {
      if s in Map(ResetText, f) {
        var i :| 0 <= i < |f| && s == ResetText(f[i]);
        assert f[i] in f;
        ResetIsSelfContained(f[i]);
      } else {
        var i :| 0 <= i < |c| && s == Select(desired, c)[i];
        assert c[i] in c && Differs(desired, applied, c[i]);
        assert Carried(c[i], desired[c[i]]);
      }
    }
  }

  lemma DeltaIsSingle(desired: Settings, applied: Settings)
    requires AllReplay(desired) && forall n :: n in applied ==> Portable(n)
    ensures forall s :: s in DeltaOf(desired, applied) ==> s != [] && FirstSemi(s).None?
  {
    hide ClassifySet, Portable, ResetText, DeltaOf, Foreign, Changed, FirstSemi, EndsInCode;
    DeltaMeaning(desired, applied);
    TargetsMeaning(desired, applied);
    var f, c := Foreign(desired, applied), Changed(desired, applied);
    forall s | s in DeltaOf(desired, applied) ensures s != [] && FirstSemi(s).None? {
      if s in Map(ResetText, f) {
        var i :| 0 <= i < |f| && s == ResetText(f[i]);
        assert f[i] in f;
        ResetIsSelfContained(f[i]);
      } else {
        var i :| 0 <= i < |c| && s == Select(desired, c)[i];
        assert c[i] in c && Differs(desired, applied, c[i]);
        assert Replays(c[i], desired[c[i]]);
      }
    }
  }

  /** Executing the text of the delta makes the backend's settings exactly the client's,
      whoever used the backend before, as long as no statement but the last ends inside a
      comment or literal. */
  lemma SyncReadsBack(desired: Settings, applied: Settings)
    requires AllReplay(desired) && forall n :: n in applied ==> Portable(n)
    requires forall i :: 0 <= i < |DeltaOf(desired, applied)| - 1 ==> EndsInCode(DeltaOf(desired, applied)[i])
    ensures RunSql(applied, Batch(DeltaOf(desired, applied))) == desired
  {
    hide ClassifySet, Portable, RunAll, AllReplay, DeltaOf, FirstSemi, EndsInCode, Split, Batch;
    var statements := DeltaOf(desired, applied);
    DeltaIsSingle(desired, applied);
    assert forall i :: 0 <= i < |statements| ==> statements[i] in statements;
    BatchReadsBack(statements);
    RunSpacedAll(applied, statements);
    RunDelta(desired, applied);
  }

  /** In particular when every statement the client carries stands alone. */
  lemma CarriedReadsBack(desired: Settings, applied: Settings)
    requires AllCarried(desired) && forall n :: n in applied ==> Portable(n)
    ensures RunSql(applied, Batch(DeltaOf(desired, applied))) == desired
  {
    hide ClassifySet, Portable, RunSql, AllCarried, AllReplay, DeltaOf, FirstSemi, EndsInCode, Batch;
    CarriedReplay(desired);
    DeltaIsSelfContained(desired, applied);
    var statements := DeltaOf(desired, applied);
    forall i | 0 <= i < |statements| - 1 ensures EndsInCode(statements[i]) {
      assert statements[i] in statements;
    }
    SyncReadsBack(desired, applied);
  }

  // ---------- a statement that swallows the next one ----------

  lemma {:induction false} NoLineBreak(s: string)
    requires '\n' !in s
    ensures LineEnd(s).None?
  {
    if s != [] { NoLineBreak(s[1..]); }
  }

  const COMMENTED := "SET a = 1 --"
  const SECOND := "SET b = 2"

  /** A tracked SET that ends in a line comment hides the statement after it: the batch for
      these two parameters is read as a single statement, and `b` is never set. */
  lemma CommentSwallowsNext()
    ensures FirstSemi(COMMENTED).None? && !EndsInCode(COMMENTED)
    ensures Split(Batch([COMMENTED, SECOND])) == [COMMENTED + "; " + SECOND]
    ensures |RunSql(map[], Batch([COMMENTED, SECOND]))| <= 1
  {
    hide FirstSemi, EndsInCode, Split, ClassifySet, TokenLen, Scan;
    var text := COMMENTED + "; " + SECOND;
    assert Join([COMMENTED, SECOND], "; ") == text;
    assert [COMMENTED, SECOND][1..] == [SECOND];
    var u, r1, r2 := "SET a = 1 ", "--", "--; " + SECOND;
    assert COMMENTED == u + r1 && text == u + r2;
    OrdinaryPrefix(u, r1);
    OrdinaryPrefix(u, r2);
    OpenLineComment(r1);
    OpenLineComment(r2);
    SplitStep(text);
    assert RunAll(map[], [text]) == Apply(map[], ClassifySet(text)) by { assert [text][1..] == []; }
  }

  lemma SortedTwo(a: string, b: string)
    requires StrLt(a, b)
    ensures Sorted({a, b}) == [a, b]
  {
    hide StrLe;
    StrTotal(a, b);
    StrTotal(a, a);
    StrTotal(b, b);
    assert IsLeast(a, {a, b});
    var k := Least({a, b});
    StrTotal(a, k);
    assert {a, b} - {a} == {b};
    assert Least({b}) == b;
    assert {b} - {b} == {};
    assert Sorted({b}) == [b] + Sorted({}) == [b];
  }

  const TWO_SETS: Settings := map["a" := COMMENTED, "b" := SECOND]

  lemma DeltaOfTwo()
    ensures DeltaOf(TWO_SETS, map[]) == [COMMENTED, SECOND]
  {
    hide COMMENTED, SECOND, Sorted, StrLe;
    var none: Settings := map[];
    assert none.Keys == {} && TWO_SETS.Keys == {"a", "b"};
    SortedNone();
    assert StrLt("a", "b") by { AbeforeB(); }
    SortedTwo("a", "b");
    var names := ["a", "b"];
    assert names[1..] == ["b"] && ["b"][1..] == [];
    assert SetLines(TWO_SETS, map[], ["b"]) == [SECOND] + SetLines(TWO_SETS, map[], []) == [SECOND];
    assert SetLines(TWO_SETS, map[], names) == [COMMENTED] + SetLines(TWO_SETS, map[], ["b"]);
  }

  lemma SortedNone()
    ensures Sorted({}) == []
  {}

  lemma AbeforeB()
    ensures StrLt("a", "b")
  {}

  /** A client that carries both: the delta for a fresh backend does not set them. */
  lemma CommentBreaksSync()
    ensures RunSql(map[], Batch(DeltaOf(TWO_SETS, map[]))) != TWO_SETS
  {
    hide COMMENTED, SECOND, DeltaOf, RunSql, Batch;
    DeltaOfTwo();
    CommentSwallowsNext();
    assert |TWO_SETS| == 2;
  }

  lemma OpenLineComment(s: string)
    requires OpensLine(s) && '\n' !in s
    ensures FirstSemi(s).None? && !EndsInCode(s)
  {
    NoLineBreak(s);
    FirstSemiStep(s);
    FirstSemiStep("");
    EndsInCodeStep(s);
    assert s[|s|..] == "";
  }

  // ---------- what a client's own SET leaves behind ----------

  lemma {:induction false} BlockEndsInSlash(s: string, depth: nat)
    requires depth > 0 && BlockEnd(s, depth).Some?
    ensures BlockEnd(s, depth).value > 0 && s[BlockEnd(s, depth).value - 1] == '/'
    decreases |s|
  {
    hide BlockEnd;
    BlockEndStep(s, depth);
    if OpensBlock(s) {
      BlockEndsInSlash(s[2..], depth + 1);
    } else if ClosesBlock(s) {
      if depth > 1 { BlockEndsInSlash(s[2..], depth - 1); } else { BlockEndStep(s[2..], 0); }
    } else if s != [] {
      BlockEndsInSlash(s[1..], depth);
    }
  }

  lemma {:induction false} QuoteEndsInQuote(s: string, q: char)
    requires QuoteEnd(s, q).Some?
    ensures s[QuoteEnd(s, q).value - 1] == q
    decreases |s|
  {
    hide QuoteEnd;
    QuoteEndStep(s, q);
    if s[0] == '\\' || (s[0] == q && |s| > 1 && s[1] == q) {
      QuoteEndsInQuote(s[2..], q);
    } else if s[0] != q {
      QuoteEndsInQuote(s[1..], q);
    }
  }

  lemma {:induction false} TagEndsInTag(s: string, tag: string)
    requires tag != [] && TagEnd(s, tag).Some?
    ensures s[TagEnd(s, tag).value - 1] == tag[|tag| - 1]
  {
    hide TagEnd;
    TagEndStep(s, tag);
    if !(tag <= s) {
      TagEndsInTag(s[1..], tag);
    }
  }

  /** A token that ends the text and is not a code `;` does not end with a `;` at all. */
  lemma LastTokenNotSemi(s: string)
    requires s != [] && Scan(s) == Some(|s|) && s[0] != ';'
    ensures s[|s| - 1] != ';'
  {
    hide QuoteEnd, TagEnd, BlockEnd, TagRun, LineEnd;
    if IsQuote(s[0]) {
      QuoteEndsInQuote(s[1..], s[0]);
    } else if DollarTagLen(s).Some? {
      var n := DollarTagLen(s).value;
      TagEndsInTag(s[n..], s[..n]);
    } else if OpensBlock(s) && !OpensLine(s) {
      BlockEndsInSlash(s[2..], 1);
    }
  }

  lemma {:induction false} ClosedNotSemi(s: string)
    requires SelfContained(s)
    ensures s[|s| - 1] != ';'
    decreases |s|
  {
    hide Scan, FirstSemi, EndsInCode, IsCode;
    FirstSemiStep(s);
    EndsInCodeStep(s);
    var n := Scan(s).value;
    if n < |s| {
      ClosedNotSemi(s[n..]);
    } else {
      LastTokenNotSemi(s);
    }
  }

  /** The text havuz keeps for a client's SET is read back as the same SET, once it stands on
      its own. */
  lemma TrackedReadsBack(statement: string, name: string, kept: string)
    requires ClassifySet(statement) == Track(name, kept) && SelfContained(kept)
    ensures ClassifySet(kept) == Track(name, kept)
  {
    hide ClassifyNormalized, SelfContained, StripNoise, Normalized;
    var normalized := Normalized(statement);
    NormalizedShape(statement);
    TrackedText(normalized, name, kept);
    ClosedNotSemi(kept);
    NormalizedFixed(kept);
  }

  lemma NormalizedShape(statement: string)
    ensures var s := Normalized(statement); NoiseFree(s) && (s != [] ==> !IsSpace(s[|s| - 1]))
  {
    hide StripNoise, TrimEnd;
    StripNoiseIsNoiseFree(statement);
    NormalizedIsPrefix(statement);
  }

  /** A tracked statement is kept as it was normalised. */
  lemma TrackedText(normalized: string, name: string, kept: string)
    requires normalized != [] && NoiseFree(normalized) && !IsSpace(normalized[|normalized| - 1])
    requires ClassifyNormalized(normalized) == Track(name, kept)
    ensures kept == normalized
  {
    hide TakeWord, ToUpper, ToLower, IsParameterName, AssignedValue, HasPlaceholder, TrimEnd, TrimStart;
    assert Trim(normalized) == normalized;
    TrackedBody(normalized, TakeWord(normalized).1, name, kept);
  }

  lemma {:induction false} TrackedBody(statement: string, rest: string, name: string, kept: string)
    requires ClassifySetBody(statement, rest) == Track(name, kept)
    ensures kept == Trim(statement)
    decreases |rest|
  {
    hide TakeWord, ToUpper, ToLower, IsParameterName, AssignedValue, HasPlaceholder, Trim;
    var (first, after) := TakeWord(rest);
    if ToUpper(first) == "SESSION" {
      TrackedBody(statement, after, name, kept);
    }
  }

  lemma {:induction false} TrackedBodyName(statement: string, rest: string, name: string, kept: string)
    requires ClassifySetBody(statement, rest) == Track(name, kept)
    ensures IsParameterName(name) && ToLower(name) == name
    decreases |rest|
  {
    hide TakeWord, ToUpper, ToLower, IsParameterName, AssignedValue, HasPlaceholder, Trim;
    var (first, after) := TakeWord(rest);
    if ToUpper(first) == "SESSION" {
      TrackedBodyName(statement, after, name, kept);
    } else if IsParameterName(first) {
      LowerIsName(first);
      LowerTwice(first);
    }
    WordNames();
  }

  /** The parameters that have a SET syntax of their own. */
  lemma WordNames()
    ensures forall n :: n in {"timezone", "client_encoding", "search_path", "xmloption"} ==>
              IsParameterName(n) && ToLower(n) == n
  {
    hide IsParameterName, ToLower;
    LowerWordIsName("timezone");
    LowerWordIsName("client_encoding");
    LowerWordIsName("search_path");
    LowerWordIsName("xmloption");
  }

  predicate LowerWord(s: string) { forall i :: 0 <= i < |s| ==> 'a' <= s[i] <= 'z' || s[i] == '_' }

  lemma {:induction false} NoDot(s: string)
    requires '.' !in s
    ensures Find(s, ".").None?
  {
    if s != [] {
      assert s[0] in s;
      NoDot(s[1..]);
    }
  }

  lemma LowerWordIsName(s: string)
    requires LowerWord(s) && s != []
    ensures IsParameterName(s) && ToLower(s) == s && '$' !in s
  {
    NoDot(s);
    assert DotParts(s) == [s];
  }

  /** Both the SET that was kept and the RESET that would undo it can be followed by another
      statement in a batch. */
  predicate StandsAlone(name: string, kept: string) {
    !IsResetWord(name) && SelfContained(ResetText(name)) && SelfContained(kept)
  }

  /** A SET that havuz tracked is one it can replay exactly when it stands alone. */
  lemma TrackedIsCarried(statement: string, name: string, kept: string)
    requires ClassifySet(statement) == Track(name, kept)
    ensures Carried(name, kept) <==> StandsAlone(name, kept)
  {
    hide SelfContained, IsParameterName, IsResetWord, ToLower, ResetText, ClassifySet;
    if SelfContained(kept) { TrackedReadsBack(statement, name, kept); }
    TrackedName(statement, name, kept);
  }

  lemma TrackedName(statement: string, name: string, kept: string)
    requires ClassifySet(statement) == Track(name, kept)
    ensures IsParameterName(name) && ToLower(name) == name
  {
    hide IsParameterName, ToUpper, ToLower, Normalized, TakeWord, ClassifySetBody;
    var normalized := Normalized(statement);
    assert ClassifySetBody(normalized, TakeWord(normalized).1) == Track(name, kept);
    TrackedBodyName(normalized, TakeWord(normalized).1, name, kept);
  }

  // ---------- commit ----------

  /** `commit_pending`: the staged actions, believed in order. */
  function CommitAll(m: Settings, actions: seq<SetAction>): Settings
    decreases |actions|
  {
    if actions == [] then m else CommitAll(Apply(m, actions[0]), actions[1..])
  }

  lemma {:induction false} CommitFiltered(m: Settings, statements: seq<string>)
    ensures CommitAll(m, Filter(IsAction, Map(ClassifySet, statements))) == RunAll(m, statements)
    decreases |statements|
  {
    hide ClassifySet;
    if statements != [] {
      var actions := Map(ClassifySet, statements);
      assert actions[1..] == Map(ClassifySet, statements[1..]);
      CommitFiltered(Apply(m, actions[0]), statements[1..]);
    }
  }

  /** Committing the actions of a message is exactly running its text, unless the message both
      sets and undoes: then it is nothing. */
  lemma CommitMatchesServer(m: Settings, sql: string)
    ensures CommitAll(m, ActionsForSql(sql)) == if Dropped(sql) then m else RunSql(m, sql)
  {
    hide ClassifySet, Split, UndoesTheBatch, RunAll;
    CommitFiltered(m, Split(sql));
    assert [Pin][1..] == [] && CommitAll(m, [Pin]) == CommitAll(Apply(m, Pin), []);
  }

  // ---------- plain assignments ----------

  lemma {:induction false} StripKeepsDollars(s: string)
    requires '$' !in s
    ensures '$' !in Strip(s)
    decreases |s|
  {
    hide IsCode, TokenLen, PushBytes, Strip;
    StripStep(s);
    if s != [] {
      StripKeepsDollars(s[TokenLen(s)..]);
    }
  }

  /** `SET name = value` with an unquoted value and no `$` is tracked as written. */
  lemma PlainSetIsTracked(name: string, value: string)
    requires IsParameterName(name) && ToLower(name) == name && !IsSetWord(name)
    requires value != [] && !IsSpace(value[0]) && !IsSpace(value[|value| - 1]) && value[|value| - 1] != ';'
    requires '$' !in value && ToUpper(value) != "DEFAULT"
    ensures var s := "SET " + name + " = " + value; ClassifySet(s) == Track(name, s)
  {
    hide StripNoise, TakeWord, IsParameterName, Normalized, HasPlaceholder, TrimEnd, AssignedValue;
    NameChars(name);
    var s := "SET " + name + " = " + value;
    var after := " = " + value;
    assert s[|s| - 1] == value[|value| - 1] && s[0] == 'S';
    NormalizedFixed(s);
    var rest := " " + (name + after);
    assert s == "SET" + rest;
    TakeWordAt("SET", rest);
    assert ToUpper("SET") == "SET";
    TakeWordAt(name, after);
    TakeWordAtEquals(after);
    SetBodyOf(s, rest, name, after);
    AssignedPlain(value);
    NoDollarNoPlaceholder(value);
    assert Trim(s) == s;
  }

  lemma AssignedPlain(value: string)
    requires value != [] && !IsSpace(value[0]) && !IsSpace(value[|value| - 1])
    ensures AssignedValue(" = " + value) == Some(value)
  {
    hide TakeWord, TrimEnd;
    assert " = " + value == " " + ("= " + value);
    TrimStartAfterBlank("= " + value);
    assert ("= " + value)[1..] == " " + value;
    TrimStartAfterBlank(value);
  }

  lemma NoDollarNoPlaceholder(value: string)
    requires '$' !in value
    ensures !HasPlaceholder(value)
  {
    hide Strip;
    StripKeepsDollars(value);
  }

  lemma ShortName(name: string)
    requires |name| == 1 && 'a' <= name[0] <= 'z'
    ensures IsParameterName(name) && ToLower(name) == name && !IsSetWord(name)
  {
    assert Find(name, ".").None?;
    assert DotParts(name) == [name];
  }

  /** Both statements of the example above are ones havuz tracks. */
  lemma CommentedIsTracked()
    ensures ClassifySet(COMMENTED) == Track("a", COMMENTED) && ClassifySet(SECOND) == Track("b", SECOND)
  {
    hide ClassifySet, IsParameterName;
    ShortName("a");
    ShortName("b");
    PlainSetIsTracked("a", "1 --");
    PlainSetIsTracked("b", "2");
    assert COMMENTED == "SET " + "a" + " = " + "1 --" && SECOND == "SET " + "b" + " = " + "2";
  }

  // ---------- startup parameters ----------

  lemma QuotedIsSelfContained(value: string)
    requires '\\' !in value
    ensures SelfContained(Quoted(value))
  {
    hide FirstSemi, EndsInCode, Scan;
    var q := Quoted(value);
    QuotedIsLiteral(value);
    FirstSemiStep(q);
    FirstSemiStep("");
    EndsInCodeStep(q);
    EndsInCodeStep("");
    assert q[|q|..] == "";
  }

  /** A startup parameter with an ordinary name and no backslash in its value is carried. */
  lemma SeedIsCarried(name: string, value: string)
    requires IsParameterName(name) && ToLower(name) == name && '$' !in name
    requires !IsResetWord(name) && !IsSetWord(name) && '\\' !in value
    ensures Carried(name, SeedText(name, value))
  {
    hide ClassifySet, IsParameterName, FirstSemi, EndsInCode, Quoted, HasPlaceholder, IsSetWord;
    var u := "SET " + name + " = ";
    NameChars(name);
    PlainNameStandsAlone(name);
    QuotedIsSelfContained(value);
    SeedReadsBack(name, value);
    QuotedIsLiteral(value);
    assert forall i :: 0 <= i < |name| ==> name[i] in name;
    OrdinaryPrefix(u, Quoted(value));
  }
}
