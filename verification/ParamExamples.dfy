/** Concrete runs on which a client's statement sees parameters it would not have on a
    connection of its own: the clauses the relay relies on are all needed. */
module ParamExamples {
  import opened Text
  import opened Params
  import opened Delta
  import opened Sync
  import opened ClientSettings
  import opened ParamRuns

  // ---------- plain statements ----------

  /** The first word of a statement, in upper case. */
  function Keyword(statement: string): string { ToUpper(TakeWord(Scanner.StripNoise(statement)).0) }

  /** A keyword, and whatever follows it after a blank. */
  predicate IsPlain(word: string, rest: string) {
    && word != [] && ToUpper(word) == word && (forall i :: 0 <= i < |word| ==> IsAlpha(word[i]))
    && (rest == [] || (rest[0] == ' ' && !IsSpace(rest[|rest| - 1]) && rest[|rest| - 1] != ';'))
  }

  lemma KeywordIs(word: string, rest: string)
    requires IsPlain(word, rest)
    ensures Keyword(word + rest) == word && Keyword(" " + (word + rest)) == word
  {
    hide Scanner.StripNoise, TakeWord, ToUpper, TrimStart;
    var s := word + rest;
    assert s[0] == word[0];
    Scanner.StripNoiseFixed(s);
    Scanner.StripNoiseStep(" " + s);
    Scanner.StripNoiseStep(s);
    TrimStartAfterBlank(s);
    TakeWordAt(word, rest);
  }

  lemma {:induction false} LetterRunStops(word: string, rest: string)
    requires (forall i :: 0 <= i < |word| ==> IsAlpha(word[i])) && (rest == [] || !IsAlpha(rest[0]))
    ensures LetterRun(word + rest) == |word|
  {
    var s := word + rest;
    if word == [] {
      assert s == rest;
    } else {
      assert s[1..] == word[1..] + rest;
      LetterRunStops(word[1..], rest);
    }
  }

  /** The server sees the same first word. */
  lemma VerbIs(word: string, rest: string)
    requires IsPlain(word, rest)
    ensures Verb(word + rest) == word && Verb(" " + (word + rest)) == word
  {
    hide ToUpper, TrimStart, LetterRun;
    var s := word + rest;
    assert s[0] == word[0];
    LetterRunStops(word, rest);
    assert s[..|word|] == word;
    TrimStartAfterBlank(s);
    assert TrimStart(s) == s;
    assert Unnoised(s) == s && Unnoised(" " + s) == s;
  }

  lemma PlainIsNoSet(word: string, rest: string)
    requires IsPlain(word, rest) && word != "SET" && word != "RESET"
    ensures ClassifySet(word + rest).NotASet? && ClassifySet(" " + (word + rest)).NotASet?
  {
    hide Scanner.StripNoise, TakeWord, ToUpper, Normalized, ClassifySetBody, ClassifyResetBody;
    var s := word + rest;
    assert s[0] == word[0];
    assert s[|s| - 1] == if rest == [] then word[|word| - 1] else rest[|rest| - 1];
    NormalizedFixed(s);
    TakeWordAt(word, rest);
    NormalizedAfterBlank(s);
  }

  lemma OrdinaryStandsAlone(s: string)
    requires s != [] && forall i :: 0 <= i < |s| ==> Ordinary(s[i])
    ensures SelfContained(s) && Scanner.Split(s) == [s]
  {
    hide Scanner.FirstSemi, Scanner.EndsInCode, Scanner.Split;
    OrdinaryPrefix(s, "");
    assert s + "" == s;
    Scanner.FirstSemiStep("");
    Scanner.EndsInCodeStep("");
    Scanner.SplitStep(s);
  }

  // ---------- the texts of the examples ----------

  const SET_A := "SET a = 1"
  const CARRIES_A: Settings := map["a" := SET_A]
  const TRACK_A: SetAction := Track("a", SET_A)

  lemma SetAText()
    ensures SET_A == "SET " + "a" + " = " + "1" && SET_A == "SET" + " a = 1" && SET_A != []
    ensures forall i :: 0 <= i < |SET_A| ==> Ordinary(SET_A[i])
  {}

  lemma SetIsPlain()
    ensures IsPlain("SET", " a = 1")
  {
    assert ToUpper("SET") == "SET";
  }

  lemma SetAIsTracked()
    ensures ClassifySet(SET_A) == TRACK_A && ClassifySet(" " + SET_A) == TRACK_A && Scanner.Split(SET_A) == [SET_A]
    ensures SelfContained(SET_A) && Keyword(SET_A) == "SET" && Keyword(" " + SET_A) == "SET"
    ensures Verb(SET_A) == "SET" && Verb(" " + SET_A) == "SET"
  {
    hide ClassifySet, IsParameterName, SelfContained, Keyword, Scanner.Split, SET_A, Ordinary, IsPlain, ToUpper, ToLower, Verb;
    SetAText();
    ShortName("a");
    OneIsPlain();
    PlainSetIsTracked("a", "1");
    NormalizedAfterBlank(SET_A);
    OrdinaryStandsAlone(SET_A);
    SetIsPlain();
    KeywordIs("SET", " a = 1");
    VerbIs("SET", " a = 1");
  }

  lemma OneIsPlain()
    ensures ToUpper("1") != "DEFAULT"
  {
    assert |ToUpper("1")| == 1;
  }

  lemma CarriesAIsCarried()
    ensures AllCarried(CARRIES_A) && StandsAlone("a", SET_A)
  {
    hide ClassifySet, IsParameterName, SelfContained, ResetText, IsResetWord;
    SetAIsTracked();
    ShortName("a");
    PlainNameStandsAlone("a");
    assert !IsResetWord("a") by { NotResetWord(); }
    TrackedIsCarried(SET_A, "a", SET_A);
  }

  lemma NotResetWord()
    ensures !IsResetWord("a")
  {}

  lemma SetAStages()
    ensures ActionsForSql(SET_A) == [TRACK_A]
  {
    hide ClassifySet, Scanner.Split, Keyword, SET_A, Scanner.StripNoise, TakeWord, ToUpper;
    SetAIsTracked();
    StagesThese(SET_A, [SET_A], [TRACK_A]);
  }

  /** A text that splits into these statements, none of which undoes anything. */
  lemma StagesThese(sql: string, statements: seq<string>, actions: seq<SetAction>)
    requires Scanner.Split(sql) == statements
    requires forall i :: 0 <= i < |statements| ==> Keyword(statements[i]) != "ROLLBACK" && Keyword(statements[i]) != "ABORT"
    requires Filter(IsAction, Map(ClassifySet, statements)) == actions
    ensures ActionsForSql(sql) == actions
  {
    hide ClassifySet, Scanner.Split, Scanner.StripNoise, TakeWord, ToUpper;
  }

  const BEGIN := "BEGIN"
  const COMMIT := "COMMIT"
  const DIVIDE := "SELECT 1/0"

  lemma BeginIsPlain()
    ensures IsPlain(BEGIN, "") && BEGIN + "" == BEGIN && BEGIN != "SET" && BEGIN != "RESET" && BEGIN != "ROLLBACK" && BEGIN != "ABORT"
    ensures BEGIN != [] && forall i :: 0 <= i < |BEGIN| ==> Ordinary(BEGIN[i])
  {
    assert ToUpper("BEGIN") == "BEGIN";
  }

  lemma CommitIsPlain()
    ensures IsPlain(COMMIT, "") && COMMIT + "" == COMMIT && COMMIT != "SET" && COMMIT != "RESET" && COMMIT != "ROLLBACK" && COMMIT != "ABORT"
    ensures COMMIT != [] && forall i :: 0 <= i < |COMMIT| ==> Ordinary(COMMIT[i])
  {
    assert ToUpper("COMMIT") == "COMMIT";
  }

  lemma DivideIsPlain()
    ensures IsPlain("SELECT", " 1/0") && DIVIDE == "SELECT" + " 1/0"
  {
    assert ToUpper("SELECT") == "SELECT";
  }

  lemma DivideStandsAlone()
    ensures SelfContained(DIVIDE)
  {
    hide Scanner.FirstSemi, Scanner.EndsInCode;
    var u, r := "SELECT 1", "/0";
    assert DIVIDE == u + r;
    OrdinaryPrefix(u, r);
    Scanner.FirstSemiStep(r);
    Scanner.EndsInCodeStep(r);
    assert r[1..] == "0";
    OrdinaryPrefix("0", "");
    assert "0" + "" == "0";
    Scanner.FirstSemiStep("");
    Scanner.EndsInCodeStep("");
  }

  /** What havuz makes of the statements around the SET. */
  lemma AroundSet()
    ensures SelfContained(BEGIN) && SelfContained(COMMIT) && SelfContained(DIVIDE)
    ensures ClassifySet(BEGIN).NotASet? && ClassifySet(" " + COMMIT).NotASet? && ClassifySet(" " + DIVIDE).NotASet?
    ensures Keyword(BEGIN) == BEGIN && Keyword(" " + COMMIT) == COMMIT && Keyword(" " + DIVIDE) == "SELECT"
    ensures Verb(BEGIN) == BEGIN && Verb(" " + COMMIT) == COMMIT
  {
    hide Verb, SelfContained, ClassifySet, Keyword, BEGIN, COMMIT, DIVIDE, IsPlain, Ordinary;
    BeginIsPlain();
    CommitIsPlain();
    DivideIsPlain();
    OrdinaryStandsAlone(BEGIN);
    OrdinaryStandsAlone(COMMIT);
    DivideStandsAlone();
    PlainIsNoSet(BEGIN, "");
    PlainIsNoSet(COMMIT, "");
    PlainIsNoSet("SELECT", " 1/0");
    KeywordIs(BEGIN, "");
    KeywordIs(COMMIT, "");
    KeywordIs("SELECT", " 1/0");
    VerbIs(BEGIN, "");
    VerbIs(COMMIT, "");
  }

  /** `BEGIN; SET a = 1` */
  function OpenBatch(): string { Batch([BEGIN, SET_A]) }

  lemma OpenBatchText()
    ensures OpenBatch() == "BEGIN; SET a = 1"
  {
    hide Batch;
    JoinTwo(BEGIN, SET_A);
    assert BEGIN + "; " + SET_A == "BEGIN; SET a = 1";
  }

  lemma JoinTwo(a: string, b: string)
    ensures Batch([a, b]) == a + "; " + b
  {
    assert [a, b][1..] == [b];
    assert Join([a, b], "; ") == a + "; " + Join([b], "; ") && Join([b], "; ") == b;
  }

  lemma JoinFour(a: string, b: string, c: string, d: string)
    ensures Batch([a, b, c, d]) == a + "; " + (b + "; " + (c + "; " + d))
  {
    assert [a, b, c, d][1..] == [b, c, d] && [b, c, d][1..] == [c, d];
    JoinTwo(c, d);
    assert Join([b, c, d], "; ") == b + "; " + Join([c, d], "; ");
    assert Join([a, b, c, d], "; ") == a + "; " + Join([b, c, d], "; ");
  }

  lemma OpenBatchStages()
    ensures ActionsForSql(OpenBatch()) == [TRACK_A] && Scanner.Split(OpenBatch()) == [BEGIN, " " + SET_A]
  {
    hide Verb, SelfContained, ClassifySet, Keyword, BEGIN, SET_A, Scanner.Split, Batch, ActionsForSql;
    AroundSet();
    SetAIsTracked();
    BeginIsPlain();
    Standing(BEGIN);
    Standing(SET_A);
    assert [BEGIN] + [SET_A] == [BEGIN, SET_A];
    SplitBatch(BEGIN, [SET_A]);
    var pieces := [BEGIN, " " + SET_A];
    assert [BEGIN] + Map(Space, [SET_A]) == pieces;
    assert Map(ClassifySet, pieces) == [NotASet, TRACK_A];
    assert Filter(IsAction, [NotASet, TRACK_A]) == [TRACK_A] by { OneAction(); }
    StagesThese(OpenBatch(), pieces, [TRACK_A]);
  }

  lemma OneAction()
    ensures Filter(IsAction, [NotASet, TRACK_A]) == [TRACK_A]
    ensures Filter(IsAction, [NotASet, TRACK_A, NotASet, NotASet]) == [TRACK_A]
  {
    assert [NotASet, TRACK_A][1..] == [TRACK_A] && [TRACK_A][1..] == [];
    FilterConcat(IsAction, [NotASet, TRACK_A], [NotASet, NotASet]);
    assert [NotASet, TRACK_A] + [NotASet, NotASet] == [NotASet, TRACK_A, NotASet, NotASet];
    assert [NotASet, NotASet][1..] == [NotASet] && [NotASet][1..] == [];
  }

  lemma Standing(s: string)
    requires SelfContained(s)
    ensures s != [] && Scanner.FirstSemi(s).None? && Scanner.EndsInCode(s)
  {}

  /** `BEGIN; SET a = 1; COMMIT; SELECT 1/0` */
  function FailingBatch(): string { Batch([BEGIN, SET_A, COMMIT, DIVIDE]) }

  lemma FailingBatchText()
    ensures FailingBatch() == "BEGIN; SET a = 1; COMMIT; SELECT 1/0"
  {
    hide Batch;
    JoinFour(BEGIN, SET_A, COMMIT, DIVIDE);
    assert BEGIN + "; " + (SET_A + "; " + (COMMIT + "; " + DIVIDE)) == "BEGIN; SET a = 1; COMMIT; SELECT 1/0";
  }

  function FailingPieces(): seq<string> { [BEGIN, " " + SET_A, " " + COMMIT, " " + DIVIDE] }

  lemma FailingBatchStages()
    ensures Scanner.Split(FailingBatch()) == FailingPieces() && ActionsForSql(FailingBatch()) == [TRACK_A]
  {
    hide Verb, SelfContained, ClassifySet, Keyword, BEGIN, SET_A, COMMIT, DIVIDE, Scanner.Split, Batch, ActionsForSql;
    AroundSet();
    SetAIsTracked();
    BeginIsPlain();
    CommitIsPlain();
    Standing(BEGIN);
    Standing(SET_A);
    Standing(COMMIT);
    Standing(DIVIDE);
    var tail := [SET_A, COMMIT, DIVIDE];
    assert [BEGIN] + tail == [BEGIN, SET_A, COMMIT, DIVIDE];
    SplitBatch(BEGIN, tail);
    var pieces := FailingPieces();
    assert [BEGIN] + Map(Space, tail) == pieces;
    assert Map(ClassifySet, pieces) == [NotASet, TRACK_A, NotASet, NotASet];
    OneAction();
    StagesThese(FailingBatch(), pieces, [TRACK_A]);
  }

  /** Neither a BEGIN nor the SET commits or undoes anything; a COMMIT commits. */
  lemma VerbsMean(st: string)
    ensures Verb(st) == BEGIN || Verb(st) == "SET" ==> !Commits(st) && !Undoes(st)
    ensures Verb(st) == COMMIT ==> Commits(st) && !Undoes(st)
  {
    hide Verb;
  }

  /** The SET in a transaction of its own, committed or not yet. */
  lemma FoldBeginSet(m: Settings)
    ensures Fold(Txn(m, m), [BEGIN, " " + SET_A]) == Txn(m["a" := SET_A], m)
    ensures Fold(Txn(m, m), [BEGIN, " " + SET_A, " " + COMMIT]) == Txn(m["a" := SET_A], m["a" := SET_A])
    ensures Fold(Txn(m, m), [BEGIN, SET_A]) == Txn(m["a" := SET_A], m)
  {
    hide ClassifySet, Keyword, BEGIN, SET_A, COMMIT, Verb, Commits, Undoes;
    AroundSet();
    SetAIsTracked();
    VerbsMean(BEGIN);
    VerbsMean(SET_A);
    VerbsMean(" " + SET_A);
    VerbsMean(" " + COMMIT);
    FoldTwo(Txn(m, m), BEGIN, SET_A);
    FoldTwo(Txn(m, m), BEGIN, " " + SET_A);
    FoldThree(Txn(m, m), BEGIN, " " + SET_A, " " + COMMIT);
  }

  lemma FoldTwo(t: Txn, a: string, b: string)
    ensures Fold(t, [a, b]) == RunOne(RunOne(t, a), b)
  {
    hide RunOne;
    assert [a, b][1..] == [b] && [b][1..] == [];
    var u := RunOne(t, a);
    assert Fold(u, [b]) == Fold(RunOne(u, b), []);
  }

  lemma FoldThree(t: Txn, a: string, b: string, c: string)
    ensures Fold(t, [a, b, c]) == RunOne(RunOne(RunOne(t, a), b), c)
  {
    hide RunOne;
    assert [a, b, c][1..] == [b, c];
    FoldTwo(RunOne(t, a), b, c);
  }

  /** Up to its COMMIT the batch sets `a`. */
  lemma FailingPrefix()
    ensures Fold(Txn(map[], map[]), FailingPieces()[..3]) == Txn(CARRIES_A, CARRIES_A)
  {
    hide BEGIN, SET_A, COMMIT, DIVIDE, Fold;
    FoldBeginSet(map[]);
    assert FailingPieces()[..3] == [BEGIN, " " + SET_A, " " + COMMIT];
    assert map[]["a" := SET_A] == CARRIES_A;
  }
}
