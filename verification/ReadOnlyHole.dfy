/** A quoted parameter name is neither read nor refused, so a read-only session can end itself. */
module ReadOnlyHole {
  import opened Text
  import opened Params
  import opened Delta
  import opened Sync
  import opened ClientSettings
  import opened ParamRuns
  import opened ParamExamples
  import opened ParamLeaks

  /** A name that needs no escape between double quotes. */
  predicate Quotable(name: string) {
    name != [] && forall i :: 0 <= i < |name| ==> name[i] != '"' && name[i] != '\\' && !EndsWord(name[i])
  }

  function InQuotes(name: string): string { "\"" + name + "\"" }

  const OFF := " = off"

  /** `SET "name" = off` */
  function QuotedOff(name: string): string { "SET " + InQuotes(name) + OFF }

  lemma {:induction false} QuotesClose(name: string, rest: string)
    requires (forall i :: 0 <= i < |name| ==> name[i] != '"' && name[i] != '\\') && rest != [] && rest[0] != '"'
    ensures Scanner.QuoteEnd(name + "\"" + rest, '"') == Some(|name| + 1)
  {
    var s := name + "\"" + rest;
    Scanner.QuoteEndStep(s, '"');
    if name == [] {
      assert s[0] == '"' && s[1] == rest[0];
    } else {
      assert s[1..] == name[1..] + "\"" + rest;
      QuotesClose(name[1..], rest);
    }
  }

  /** The quoted name is one token. */
  lemma QuotedIsToken(name: string)
    requires Quotable(name)
    ensures var s := InQuotes(name) + OFF; !Scanner.IsCode(s) && Scanner.Scan(s) == Some(|name| + 2) && s[|name| + 2..] == OFF
  {
    hide Scanner.QuoteEnd;
    var s := InQuotes(name) + OFF;
    assert s[1..] == name + "\"" + OFF;
    QuotesClose(name, OFF);
  }

  lemma QuotedIsOnePiece(name: string)
    requires Quotable(name)
    ensures Scanner.Split(QuotedOff(name)) == [QuotedOff(name)]
  {
    hide Scanner.FirstSemi, Scanner.Split, Scanner.EndsInCode, Scanner.Scan, Scanner.IsCode, Quotable;
    var u, r := "SET ", InQuotes(name) + OFF;
    assert QuotedOff(name) == u + r;
    OrdinaryPrefix(u, r);
    QuotedIsToken(name);
    Scanner.FirstSemiStep(r);
    OrdinaryPrefix(OFF, "");
    assert OFF + "" == OFF;
    Scanner.FirstSemiStep("");
    Scanner.SplitStep(QuotedOff(name));
  }

  lemma {:induction false} StripOrdinary(u: string, r: string)
    requires forall i :: 0 <= i < |u| ==> Ordinary(u[i])
    ensures Scanner.Strip(u + r) == u + Scanner.Strip(r)
  {
    hide Scanner.Strip;
    var s := u + r;
    if u == [] {
      assert s == r;
    } else {
      assert Scanner.IsCode(s) && s[1..] == u[1..] + r;
      Scanner.StripStep(s);
      StripOrdinary(u[1..], r);
    }
  }

  /** Nothing of the name is left when literals are removed. */
  lemma QuotedStrips(name: string)
    requires Quotable(name)
    ensures Scanner.Strip(QuotedOff(name)) == "SET " + (" " + OFF)
  {
    hide Scanner.Strip, Scanner.Scan, Scanner.IsCode, Quotable;
    var u, r := "SET ", InQuotes(name) + OFF;
    assert QuotedOff(name) == u + r;
    StripOrdinary(u, r);
    QuotedIsToken(name);
    Scanner.StripStep(r);
    StripOrdinary(OFF, "");
    Scanner.StripStep("");
    assert OFF + "" == OFF;
  }

  lemma {:induction false} WordsHaveNo(c: char, s: string)
    requires c !in s
    ensures forall w :: w in Words(s) ==> c !in w
    decreases |s|
  {
    TrimHasNo(c, s);
    var t := TrimStart(s);
    if t != [] { WordsHaveNo(c, t[WordLen(t)..]); }
  }

  lemma {:induction false} TrimHasNo(c: char, s: string)
    requires c !in s
    ensures c !in TrimStart(s)
  {
    if s != [] && IsSpace(s[0]) { TrimHasNo(c, s[1..]); }
  }

  lemma QuotedMentionsNothing(name: string)
    requires Quotable(name)
    ensures !MentionsReadWrite(QuotedOff(name))
  {
    hide Scanner.Strip, Quotable, Words, QuotedOff;
    QuotedStrips(name);
    var t := ToUpper("SET " + (" " + OFF));
    assert 'R' !in t;
    WordsHaveNo('R', t);
    var words := Words(t);
    forall i | 0 <= i < |words| ensures words[i] != "READ" {
      assert words[i] in words;
      assert "READ"[0] == 'R' && 'R' in "READ";
    }
  }

  lemma QuotedIsNoName(name: string)
    ensures !IsParameterName(InQuotes(name)) && |ToUpper(InQuotes(name))| > 0 && ToUpper(InQuotes(name))[0] == '"'
  {
    if IsParameterName(InQuotes(name)) { NameChars(InQuotes(name)); }
  }

  lemma QuotedSplits(name: string)
    requires Quotable(name)
    ensures QuotedOff(name) == "SET" + (" " + (InQuotes(name) + OFF))
    ensures TakeWord(QuotedOff(name)) == ("SET", " " + (InQuotes(name) + OFF))
    ensures TakeWord(" " + (InQuotes(name) + OFF)) == (InQuotes(name), OFF)
    ensures Normalized(QuotedOff(name)) == QuotedOff(name) && Scanner.StripNoise(QuotedOff(name)) == QuotedOff(name)
  {
    hide TakeWord, Normalized, Scanner.StripNoise;
    var s, l := QuotedOff(name), InQuotes(name);
    assert s == "SET" + (" " + (l + OFF));
    assert s[0] == 'S' && s[|s| - 1] == 'f';
    TakeWordAt("SET", " " + (l + OFF));
    assert forall i :: 0 <= i < |l| ==> !EndsWord(l[i]);
    TakeWordAt(l, OFF);
    NormalizedFixed(s);
    Scanner.StripNoiseFixed(s);
  }

  lemma QuotedClassified(name: string)
    requires Quotable(name)
    ensures ClassifySet(QuotedOff(name)) == Pin
  {
    hide TakeWord, Normalized, IsParameterName, ToUpper, Quotable, QuotedOff, InQuotes, OFF;
    QuotedSplits(name);
    QuotedIsNoName(name);
    assert ToUpper("SET") == "SET" by { SetIsUpper(); }
    assert QuotedOff(name) != [];
  }

  lemma SetIsUpper()
    ensures ToUpper("SET") == "SET"
  {}

  /** For every such name the statement pins the session, and a read-only session is not refused
      it, `default_transaction_read_only` included. */
  lemma QuotedNameIsNotRefused(name: string)
    requires Quotable(name)
    ensures !DefeatsReadOnly(QuotedOff(name)) && ActionsForSql(QuotedOff(name)) == [Pin]
  {
    hide Scanner.Split, TakeWord, Quotable, QuotedOff, MentionsReadWrite, ClassifySet, ToUpper, Scanner.StripNoise;
    var s := QuotedOff(name);
    QuotedIsOnePiece(name);
    QuotedMentionsNothing(name);
    QuotedSplits(name);
    QuotedClassified(name);
    SetIsUpper();
    assert !StatementDefeatsReadOnly(s);
    assert Map(ClassifySet, [s]) == [Pin];
    assert Filter(IsAction, [Pin]) == [Pin] by { assert [Pin][1..] == []; }
    assert Keyword(s) == "SET";
    StagesThese(s, [s], [Pin]);
  }

  /** And the statement is one that pins: its first word is SET. */
  lemma QuotedPins(name: string)
    requires Quotable(name)
    ensures SqlPins(QuotedOff(name))
  {
    hide Scanner.Split, Quotable, ClassifySet, Scanner.StripNoise, QuotedOff, StatementPins;
    QuotedIsOnePiece(name);
    QuotedStatementPins(name);
    assert Scanner.Split(QuotedOff(name))[0] == QuotedOff(name);
  }

  lemma QuotedStatementPins(name: string)
    requires Quotable(name)
    ensures StatementPins(QuotedOff(name))
  {
    hide TakeWord, Quotable, ClassifySet, ToUpper, Scanner.StripNoise, InQuotes, OFF, Words, Normalized;
    QuotedSplits(name);
    QuotedClassified(name);
    SetIsUpper();
    FirstIsSet(InQuotes(name) + OFF);
    assert QuotedOff(name) == "SET " + (InQuotes(name) + OFF);
  }

  lemma FirstIsSet(rest: string)
    ensures var words := Words("SET " + rest); words != [] && words[0] == "SET"
  {
    hide ToUpper;
    var s := "SET " + rest;
    assert TrimStart(s) == s;
    assert s[1..][1..][1..] == s[3..] && s[3] == ' ';
    assert WordLen(s[3..]) == 0 && WordLen(s[2..]) == 1 && WordLen(s[1..]) == 2;
    assert WordLen(s) == 3 && s[..3] == "SET";
  }

  // ---------- a read-only session that ends itself ----------

  lemma LowerIsQuotable(s: string)
    requires LowerWord(s) && s != []
    ensures Quotable(s)
  {}

  lemma LowerConcat(a: string, b: string)
    requires LowerWord(a) && LowerWord(b)
    ensures LowerWord(a + b)
  {}

  lemma SettingIsQuotable()
    ensures Quotable(READ_ONLY_GUC)
  {
    hide Quotable;
    var a, b, c := "default_", "transaction_", "read_only";
    assert LowerWord(a) && LowerWord(b) && LowerWord(c) && a != [];
    hide LowerWord;
    LowerConcat(a, b);
    LowerConcat(a + b, c);
    assert READ_ONLY_GUC == a + b + c;
    LowerIsQuotable(a + b + c);
  }

  /** `SET "default_transaction_read_only" = off`, and what the server makes of it. */
  function Ending(): Query {
    Query([QuotedOff(READ_ONLY_GUC)], [QuotedOff(READ_ONLY_GUC)], false, 0, false, false, Some(Txn(map[], map[])))
  }

  function EndingRun(): seq<Step> { [Connect(0, map[], true)] + [Open(0)] + [Exchange(0, 0, Ending())] }

  lemma EndingPins(s: Session)
    requires s.readOnly
    ensures Allowed(s.readOnly, Ending().sent) == Ending().sent && Seen(s, Ending()) == [Pin] && MustPin(s, Ending())
  {
    hide DefeatsReadOnly, ActionsForSql, READ_ONLY_GUC, QuotedOff, Quotable, SqlPins;
    SettingIsQuotable();
    QuotedPins(READ_ONLY_GUC);
    var text := QuotedOff(READ_ONLY_GUC);
    QuotedNameIsNotRefused(READ_ONLY_GUC);
    assert [text][1..] == [] && [text] + [] == [text];
    ActionsOfOne(text);
  }

  /** The run is one the relay accepts; the session is still a read-only one, and its server is
      not. */
  lemma QuotedNameEndsReadOnly()
    ensures IsRun(EMPTY, EndingRun()) && CanTake(EMPTY, EndingRun()) && CanRun(Run(EMPTY, EndingRun()), 0, 0)
    ensures Run(EMPTY, EndingRun()).sessions[0].readOnly
    ensures !IsReadOnly(Borrowed(Run(EMPTY, EndingRun()), 0, 0).1.conn.actual)
  {
    hide READ_ONLY_GUC, READ_ONLY_SET, QuotedOff, AllCarried, Actions, Allowed, Checkout, CommitAll, Reliable, Filter, Pieces, AnyPins;
    NothingCarried();
    var s0, s1, s2 := Connect(0, map[], true), Open(0), Exchange(0, 0, Ending());
    assert EndingRun() == [s0, s1, s2];
    assert [s0, s1, s2][1..] == [s1, s2] && [s1, s2][1..] == [s2] && [s2][1..] == [];
    var w0 := Next(EMPTY, s0);
    var w1 := Next(w0, s1);
    EndingPins(w1.sessions[0]);
    assert Free(w1, 0);
    assert Sendable(w1.sessions[0], Ending());
    var w2 := Next(w1, s2);
    assert IsRun(w2, []) && IsRun(w1, [s2]) && IsRun(w0, [s1, s2]) && IsRun(EMPTY, [s0, s1, s2]);
    assert CanTake(w2, []) && CanTake(w1, [s2]) && CanTake(w0, [s1, s2]) && CanTake(EMPTY, [s0, s1, s2]);
    assert Run(w1, [s2]) == w2 && Run(w0, [s1, s2]) == w2 && Run(EMPTY, [s0, s1, s2]) == w2;
  }
}
