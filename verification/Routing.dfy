/** Read/write routing of classify.rs: which statements may run on a replica. */
module Routing {
  import opened Text
  import opened Scanner

  datatype RouteIntent = Read | Write

  /** The first word, in upper case; empty for blank text. */
  function FirstWord(s: string): string {
    var words := Words(s);
    if words == [] then "" else ToUpper(words[0])
  }

  predicate OpensTransaction(sql: string) {
    var words := Words(ToUpper(Strip(StripNoise(sql))));
    || (|words| > 0 && words[0] == "BEGIN")
    || (|words| > 1 && words[0] == "START" && words[1] == "TRANSACTION")
  }

  predicate StartsReadOnlyTransaction(sql: string) {
    OpensTransaction(sql) && Contains(ToUpper(Strip(StripNoise(sql))), "READ ONLY")
  }

  predicate MentionsAny(text: string, markers: seq<string>) {
    exists i :: 0 <= i < |markers| && Contains(text, markers[i])
  }

  const CANDIDATES := ["SELECT", "WITH", "SHOW", "EXPLAIN", "TABLE", "VALUES", "FETCH"]
  const ROW_LOCKS := ["FOR UPDATE", "FOR NO KEY UPDATE", "FOR SHARE", "FOR KEY SHARE"]
  const HIDDEN_WRITES := ["NEXTVAL(", "SETVAL(", "PG_ADVISORY", "SELECT INTO", " INTO "]
  const CTE_WRITES := ["INSERT ", "UPDATE ", "DELETE ", "MERGE "]

  function StatementRoute(statement: string, sessionReadOnly: bool): RouteIntent {
    var normalized := StripNoise(statement);
    if Trim(normalized) == "" then Read
    else if OpensTransaction(normalized) then
      if sessionReadOnly || StartsReadOnlyTransaction(normalized) then Read else Write
    else
      QueryRoute(FirstWord(normalized), ToUpper(Strip(normalized)))
  }

  /** The route of a statement that opens no transaction, from its first word and its text
      with the literals removed. */
  function QueryRoute(first: string, scannable: string): RouteIntent {
    if first !in CANDIDATES then Write
    else if MentionsAny(scannable, ROW_LOCKS) then Write
    else if MentionsAny(scannable, HIDDEN_WRITES) then Write
    else if first == "WITH" && MentionsAny(scannable, CTE_WRITES) then Write
    else if first == "EXPLAIN" && Contains(scannable, "ANALYZE") then Write
    else Read
  }

  predicate Substantive(statement: string) { Trim(StripNoise(statement)) != "" }

  /** The statements of a batch that carry any information. */
  function Statements(sql: string): seq<string> { Filter(Substantive, Split(sql)) }

  function Route(sql: string, sessionReadOnly: bool): RouteIntent {
    var statements := Statements(sql);
    if statements == [] then Write
    else if exists i :: 0 <= i < |statements| && StatementRoute(statements[i], sessionReadOnly) == Write then Write
    else Read
  }

  // ---------- batches ----------

  predicate AllRead(statements: seq<string>, sessionReadOnly: bool) {
    forall st :: st in statements ==> StatementRoute(st, sessionReadOnly) == Read
  }

  lemma RouteMeaning(sql: string, sessionReadOnly: bool)
    ensures Route(sql, sessionReadOnly) == Read <==>
            Statements(sql) != [] && AllRead(Statements(sql), sessionReadOnly)
  {
    hide Statements, StatementRoute;
  }

  /** A `;` closes the last statement of closed text and adds at most one blank piece. */
  lemma {:induction false} StatementsBeforeSemi(a: string)
    requires EndsInCode(a)
    ensures Statements(a + ";") == Statements(a)
    decreases |a|
  {
    hide FirstSemi, EndsInCode, Split, Substantive;
    var t := a + ";";
    FirstSemiAfter(a, "");
    assert a + ";" + "" == t;
    SplitStep(t);
    SplitStep(a);
    match FirstSemi(a)
    case None =>
      SplitStep("");
      assert t[..|a|] == a && t[|a| + 1..] == "";
      assert Split(t) == [a];
      BlankIsNot();
      if a == "" {
        assert Filter(Substantive, [a])[..] == [] by { OneBlank(); }
      }
    case Some(k) =>
      TailEndsInCode(a);
      assert t[..k] == a[..k] && t[k + 1..] == a[k + 1..] + ";";
      StatementsBeforeSemi(a[k + 1..]);
      FilterConcat(Substantive, [a[..k]], Split(t[k + 1..]));
      FilterConcat(Substantive, [a[..k]], Split(a[k + 1..]));
  }

  lemma BlankIsNot()
    ensures !Substantive("")
  {}

  lemma OneBlank()
    ensures Filter(Substantive, [""]) == []
  {
    BlankIsNot();
  }

  lemma StatementsOfBatch(a: string, b: string)
    requires EndsInCode(a)
    ensures Statements(a + ";" + b) == Statements(a) + Statements(b)
  {
    SplitAt(a, b);
    FilterConcat(Substantive, Split(a + ";"), Split(b));
    StatementsBeforeSemi(a);
  }

  /** Batch routing is compositional: after closed text, `a;b` goes to a replica exactly when
      each part that says anything would, and one of them does say something. */
  lemma RouteComposes(a: string, b: string, sessionReadOnly: bool)
    requires EndsInCode(a)
    ensures Route(a + ";" + b, sessionReadOnly) == Read <==>
            && (Statements(a) != [] || Statements(b) != [])
            && (Statements(a) != [] ==> Route(a, sessionReadOnly) == Read)
            && (Statements(b) != [] ==> Route(b, sessionReadOnly) == Read)
  {
    hide Statements, StatementRoute, Route, EndsInCode;
    StatementsOfBatch(a, b);
    RouteMeaning(a + ";" + b, sessionReadOnly);
    RouteMeaning(a, sessionReadOnly);
    RouteMeaning(b, sessionReadOnly);
    assert forall st :: st in Statements(a) + Statements(b) <==> st in Statements(a) || st in Statements(b);
  }

  // ---------- read-only sessions ----------

  lemma FlagMatters(st: string)
    ensures StatementRoute(st, false) == Read ==> StatementRoute(st, true) == Read
    ensures StatementRoute(st, true) != StatementRoute(st, false) ==> OpensTransaction(StripNoise(st))
  {
    hide OpensTransaction, StripNoise, Strip, FirstWord, QueryRoute;
  }

  /** A read-only session can only turn a write into a read, and only for a batch in which
      some statement opens a transaction. */
  lemma ReadOnlyFlagOnlyHelpsOpeners(sql: string)
    ensures Route(sql, false) == Read ==> Route(sql, true) == Read
    ensures Route(sql, true) != Route(sql, false) ==>
              exists st :: st in Split(sql) && OpensTransaction(StripNoise(st))
  {
    hide Statements, StatementRoute, Route, OpensTransaction, StripNoise;
    RouteMeaning(sql, false);
    RouteMeaning(sql, true);
    forall st ensures StatementRoute(st, false) == Read ==> StatementRoute(st, true) == Read {
      FlagMatters(st);
    }
    if Route(sql, true) != Route(sql, false) {
      var st :| st in Statements(sql) && StatementRoute(st, false) != Read;
      FlagMatters(st);
      StatementsAreSplit(sql, st);
    }
  }

  lemma StatementsAreSplit(sql: string, st: string)
    requires st in Statements(sql)
    ensures st in Split(sql)
  {
    hide Split, Substantive;
  }

  // ---------- literals ----------

  /** One closed literal or block comment. */
  predicate Literal(l: string) { l != [] && !IsCode(l) && Scan(l) == Some(|l|) }

  /** Text that can follow the literal: anything but its own quote character. */
  predicate Follows(l: string, q: string) { q == [] || l == [] || !IsQuote(l[0]) || q[0] != l[0] }

  /** A closed literal is one token, whatever follows it. */
  lemma LiteralEnds(l: string, q: string)
    requires Literal(l) && Follows(l, q)
    ensures !IsCode(l + q) && Scan(l + q) == Some(|l|)
  {
    hide QuoteEnd, TagEnd, LineEnd, BlockEnd, TagRun;
    var s := l + q;
    assert s[1..] == l[1..] + q && (|l| > 1 ==> s[2..] == l[2..] + q);
    if IsQuote(l[0]) {
      QuoteLocal(l[1..], q, l[0]);
    } else if DollarTagLen(l).Some? {
      var n := DollarTagLen(l).value;
      TagRunLocal(l[1..], q);
      assert s[..n] == l[..n] && s[n..] == l[n..] + q;
      TagEndLocal(l[n..], q, l[..n]);
    } else if OpensBlock(l) {
      BlockLocal(l[2..], q, 1);
    }
  }

  /** A literal strips to one blank, and what is around it as if it were not there. */
  lemma StripAroundLiteral(p: string, l: string, q: string)
    requires EndsInCode(p) && Literal(l) && Apart(p, l) && Follows(l, q)
    ensures Strip(p + l + q) == Strip(p) + " " + Strip(q)
  {
    hide IsCode, Scan, Strip, EndsInCode, NoMerge;
    assert p + l + q == p + (l + q);
    assert (l + q)[0] == l[0];
    StripConcat(p, l + q);
    LiteralEnds(l, q);
    StripStep(l + q);
    assert (l + q)[|l|..] == q;
  }

  /** The first word of `p` and more: `p`'s own if `p` goes beyond it, or else longer than `p`. */
  lemma {:induction false} WordLenBefore(p: string, x: string)
    requires x != [] && !IsSpace(x[0])
    ensures WordLen(p) < |p| ==> WordLen(p + x) == WordLen(p)
    ensures WordLen(p) == |p| ==> WordLen(p + x) > |p|
  {
    if p == [] {
      assert p + x == x;
    } else {
      assert (p + x)[1..] == p[1..] + x;
      WordLenBefore(p[1..], x);
    }
  }

  predicate OpensLiteral(c: char) { IsQuote(c) || c == '$' || c == '/' }

  lemma LiteralOpens(l: string)
    requires Literal(l)
    ensures l != [] && OpensLiteral(l[0]) && !IsSpace(l[0]) && Upper(l[0]) == l[0]
  {
    hide QuoteEnd, TagEnd, BlockEnd, TagRun, LineEnd;
    assert OpensLine(l) ==> Scan(l) == LineEnd(l);
  }

  predicate Letters(word: string) { forall i :: 0 <= i < |word| ==> IsAlpha(word[i]) }

  lemma CandidatesAreLetters()
    ensures forall word :: word in CANDIDATES ==> Letters(word)
  {
    assert Letters("SELECT") && Letters("WITH") && Letters("SHOW") && Letters("EXPLAIN");
    assert Letters("TABLE") && Letters("VALUES") && Letters("FETCH");
  }

  lemma FirstWordIs(s: string)
    requires s != [] && !IsSpace(s[0])
    ensures FirstWord(s) == ToUpper(s[..WordLen(s)])
  {
    assert TrimStart(s) == s;
  }

  /** A literal right after the first word makes it no word a read can start with; after more
      than one word it does not touch the first. */
  lemma FirstWordBefore(p: string, l: string, q: string)
    requires p != [] && !IsSpace(p[0]) && Literal(l)
    ensures WordLen(p) < |p| ==> FirstWord(p + l + q) == FirstWord(p)
    ensures WordLen(p) == |p| ==> FirstWord(p + l + q) !in CANDIDATES
  {
    hide CANDIDATES, Literal, FirstWord, WordLen;
    var s, x := p + l + q, l + q;
    LiteralOpens(l);
    assert s == p + x && x[0] == l[0];
    WordLenBefore(p, x);
    FirstWordIs(s);
    FirstWordIs(p);
    var n := WordLen(s);
    if WordLen(p) < |p| {
      assert s[..n] == p[..n];
    } else {
      var word := ToUpper(s[..n]);
      assert s[..n][|p|] == l[0] && word[|p|] == l[0];
      CandidatesAreLetters();
    }
  }

  /** What is written inside a literal never changes where the statement runs. */
  lemma RouteIgnoresLiterals(p: string, l1: string, l2: string, q: string, sessionReadOnly: bool)
    requires p != [] && NoiseFree(p) && EndsInCode(p)
    requires Literal(l1) && Apart(p, l1) && Follows(l1, q)
    requires Literal(l2) && Apart(p, l2) && Follows(l2, q)
    ensures StatementRoute(p + l1 + q, sessionReadOnly) == StatementRoute(p + l2 + q, sessionReadOnly)
  {
    hide Strip, EndsInCode, Literal, FirstWord, StripNoise, CANDIDATES, MentionsAny, Apart, Follows;
    StripAroundLiteral(p, l1, q);
    StripAroundLiteral(p, l2, q);
    FirstWordBefore(p, l1, q);
    FirstWordBefore(p, l2, q);
    StartKept(p, l1, q);
    StartKept(p, l2, q);
  }

  lemma StartKept(p: string, l: string, q: string)
    requires p != [] && NoiseFree(p) && Literal(l)
    ensures StripNoise(p + l + q) == p + l + q && Trim(p + l + q) != ""
  {
    hide StripNoise, Literal;
    var s := p + l + q;
    LiteralOpens(l);
    assert s[0] == p[0] && (|p| > 1 ==> s[1] == p[1]) && (|p| == 1 ==> s[1] == l[0]);
    StripNoiseFixed(s);
    TrimEndKeepsStart(s);
  }

  lemma {:induction false} TrimEndKeepsStart(s: string)
    requires s != [] && !IsSpace(s[0])
    ensures TrimEnd(s) != []
  {
    if IsSpace(s[|s| - 1]) {
      TrimEndKeepsStart(s[..|s| - 1]);
    }
  }
}
