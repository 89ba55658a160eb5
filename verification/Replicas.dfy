/** Which statements havuz sends to a replica (`statement_route_intent` in classify.rs), over the text
    of the statement, in any letter case, with every marker spelled out. */
module Replicas {
  import opened Text
  import Scanner
  import opened Literals
  import opened Routing
  import opened Spellings

  /** The text has these characters side by side. */
  predicate Holds(text: string, marker: string) { exists i :: 0 <= i <= |text| && marker <= text[i..] }

  lemma {:induction false} ContainsIff(text: string, marker: string)
    ensures Contains(text, marker) <==> Holds(text, marker)
  {
    assert text[0..] == text;
    if !(marker <= text) && text != [] {
      ContainsIff(text[1..], marker);
      if Holds(text[1..], marker) {
        var i :| 0 <= i <= |text[1..]| && marker <= text[1..][i..];
        assert text[i + 1..] == text[1..][i..];
      }
      if Holds(text, marker) {
        var i :| 0 <= i <= |text| && marker <= text[i..];
        assert text[i..] == text[1..][i - 1..];
      }
    }
  }

  // ---------- what makes a query a write ----------

  predicate Locks(u: string) {
    Holds(u, "FOR UPDATE") || Holds(u, "FOR NO KEY UPDATE") || Holds(u, "FOR SHARE") || Holds(u, "FOR KEY SHARE")
  }

  predicate Hides(u: string) {
    Holds(u, "NEXTVAL(") || Holds(u, "SETVAL(") || Holds(u, "PG_ADVISORY") || Holds(u, "SELECT INTO") || Holds(u, " INTO ")
  }

  predicate Modifies(u: string) {
    Holds(u, "INSERT ") || Holds(u, "UPDATE ") || Holds(u, "DELETE ") || Holds(u, "MERGE ")
  }

  lemma LocksIff(u: string)
    ensures MentionsAny(u, ROW_LOCKS) <==> Locks(u)
  {
    hide Contains, Holds;
    MentionsEach(u, "FOR UPDATE", "FOR NO KEY UPDATE", "FOR SHARE", "FOR KEY SHARE");
  }

  lemma HidesIff(u: string)
    ensures MentionsAny(u, HIDDEN_WRITES) <==> Hides(u)
  {
    hide Contains, Holds;
    ContainsIff(u, "NEXTVAL(");
    ContainsIff(u, "SETVAL(");
    ContainsIff(u, "PG_ADVISORY");
    ContainsIff(u, "SELECT INTO");
    ContainsIff(u, " INTO ");
    var m := HIDDEN_WRITES;
    assert |m| == 5 && m[0] == "NEXTVAL(" && m[1] == "SETVAL(" && m[2] == "PG_ADVISORY" && m[3] == "SELECT INTO" && m[4] == " INTO ";
  }

  lemma ModifiesIff(u: string)
    ensures MentionsAny(u, CTE_WRITES) <==> Modifies(u)
  {
    hide Contains, Holds;
    MentionsEach(u, "INSERT ", "UPDATE ", "DELETE ", "MERGE ");
  }

  lemma MentionsEach(u: string, a: string, b: string, c: string, e: string)
    ensures MentionsAny(u, [a, b, c, e]) <==> Holds(u, a) || Holds(u, b) || Holds(u, c) || Holds(u, e)
  {
    hide Contains, Holds;
    ContainsIff(u, a);
    ContainsIff(u, b);
    ContainsIff(u, c);
    ContainsIff(u, e);
    var m := [a, b, c, e];
    assert m[0] == a && m[1] == b && m[2] == c && m[3] == e;
  }

  // ---------- the first word ----------

  /** Nothing follows the word, or a blank does. */
  predicate AfterWord(t: string) { t == [] || t[0] == ' ' }

  predicate IsWordOf(k: string) { k != [] && forall i :: 0 <= i < |k| ==> IsAlpha(k[i]) }

  lemma {:induction false} LettersStay(k: string, t: string)
    requires forall i :: 0 <= i < |k| ==> IsAlpha(k[i])
    ensures Scanner.Strip(k + t) == k + Scanner.Strip(t)
  {
    hide Scanner.Strip;
    if k == [] {
      assert k + t == t;
    } else {
      assert k + t == [k[0]] + (k[1..] + t);
      CharIsCode(k[0], k[1..] + t);
      LettersStay(k[1..], t);
    }
  }

  lemma BlankStays(t: string)
    requires AfterWord(t)
    ensures AfterWord(Scanner.Strip(t))
    ensures t != [] ==> Scanner.Strip(t) == " " + Scanner.Strip(t[1..])
  {
    Scanner.StripStep("");
    if t != [] {
      CharIsCode(' ', t[1..]);
      assert [' '] + t[1..] == t;
    }
  }

  lemma WordsBegin(k: string, t: string)
    requires IsWordOf(k) && AfterWord(t)
    ensures var words := Words(k + t); words != [] && words[0] == k && words[1..] == Words(t)
  {
    var s := k + t;
    WordLenIs(k, t);
    assert s[0] == k[0] && s[..|k|] == k && s[|k|..] == t;
  }

  /** The statement, its first word, and the text that is searched. */
  lemma StatementIs(k: string, t: string)
    requires IsWordOf(k) && AfterWord(t)
    ensures var s := k + t;
            && Scanner.StripNoise(s) == s && Trim(s) != "" && FirstWord(s) == ToUpper(k)
            && Scanner.Strip(s) == k + Scanner.Strip(t)
    ensures var u := ToUpper(Scanner.Strip(k + t));
            Words(u) != [] && Words(u)[0] == ToUpper(k) && Words(u)[1..] == Words(ToUpper(Scanner.Strip(t)))
  {
    hide Scanner.StripNoise, Scanner.Strip, Words, TrimEnd;
    var s := k + t;
    assert s[0] == k[0];
    Scanner.StripNoiseFixed(s);
    WordsBegin(k, t);
    LettersStay(k, t);
    BlankStays(t);
    var tail := Scanner.Strip(t);
    assert ToUpper(k + tail) == ToUpper(k) + ToUpper(tail);
    forall i | 0 <= i < |k| ensures IsAlpha(ToUpper(k)[i]) { assert IsAlpha(k[i]); }
    WordsBegin(ToUpper(k), ToUpper(tail));
    TrimKeeps(s);
  }

  lemma TrimKeeps(s: string)
    requires s != [] && !IsSpace(s[0])
    ensures Trim(s) != ""
  {
    var t := TrimStart(s);
    assert t == s;
    TrimEndKeepsStart(s);
  }

  // ---------- the routes ----------

  /** A query is a write exactly when its text, literals removed and in upper case, holds a row lock,
      a hidden write, a data-modifying statement after WITH, or ANALYZE after EXPLAIN; whatever the
      session is. */
  lemma QueryIsWriteIff(k: string, first: string, t: string, sessionReadOnly: bool)
    requires first in {"SELECT", "WITH", "SHOW", "EXPLAIN", "TABLE", "VALUES", "FETCH"} && Spells(k, first) && AfterWord(t)
    ensures var u := ToUpper(Scanner.Strip(k + t));
            StatementRoute(k + t, sessionReadOnly) == Write <==>
            || Locks(u) || Hides(u) || (first == "WITH" && Modifies(u)) || (first == "EXPLAIN" && Holds(u, "ANALYZE"))
  {
    hide Scanner.StripNoise, Scanner.Strip, Words, Trim, MentionsAny, Locks, Hides, Modifies, Holds, Contains, ToUpper, FirstWord;
    var u := ToUpper(Scanner.Strip(k + t));
    SpelledIsWord(k, first);
    StatementIs(k, t);
    LocksIff(u);
    HidesIff(u);
    ModifiesIff(u);
    ContainsIff(u, "ANALYZE");
    assert first in CANDIDATES by { Candidates(first); }
    assert first != "BEGIN" && first != "START";
  }

  lemma Candidates(first: string)
    ensures first in CANDIDATES <==> first in {"SELECT", "WITH", "SHOW", "EXPLAIN", "TABLE", "VALUES", "FETCH"}
  {}

  lemma SpelledIsWord(k: string, first: string)
    requires first in {"SELECT", "WITH", "SHOW", "EXPLAIN", "TABLE", "VALUES", "FETCH", "BEGIN", "START", "TRANSACTION"} && Spells(k, first)
    ensures IsWordOf(k)
  {
    assert Spellings.Letters(first);
    SpelledChars(k, first);
  }

  /** Any other statement is a write. */
  lemma OtherIsWrite(k: string, t: string, sessionReadOnly: bool)
    requires IsWordOf(k) && AfterWord(t)
    requires ToUpper(k) !in {"SELECT", "WITH", "SHOW", "EXPLAIN", "TABLE", "VALUES", "FETCH", "BEGIN", "START"}
    ensures StatementRoute(k + t, sessionReadOnly) == Write
  {
    hide Scanner.StripNoise, Scanner.Strip, Words, Trim, MentionsAny, Contains, ToUpper, FirstWord;
    StatementIs(k, t);
    Candidates(ToUpper(k));
  }

  /** BEGIN is a read exactly when the session is read-only or the text says READ ONLY. */
  lemma BeginIsReadIff(k: string, t: string, sessionReadOnly: bool)
    requires Spells(k, "BEGIN") && AfterWord(t)
    ensures StatementRoute(k + t, sessionReadOnly) == Read <==> sessionReadOnly || Holds(ToUpper(Scanner.Strip(k + t)), "READ ONLY")
  {
    hide Scanner.StripNoise, Scanner.Strip, Words, Trim, Holds, Contains, ToUpper, FirstWord;
    SpelledIsWord(k, "BEGIN");
    StatementIs(k, t);
    ContainsIff(ToUpper(Scanner.Strip(k + t)), "READ ONLY");
  }

  /** So is START TRANSACTION; START of anything else is a write. */
  lemma StartIsReadIff(k: string, t: string, sessionReadOnly: bool)
    requires Spells(k, "START") && AfterWord(t)
    ensures var rest := Words(ToUpper(Scanner.Strip(t)));
            StatementRoute(k + t, sessionReadOnly) == Read <==>
            && rest != [] && rest[0] == "TRANSACTION"
            && (sessionReadOnly || Holds(ToUpper(Scanner.Strip(k + t)), "READ ONLY"))
  {
    hide Scanner.StripNoise, Scanner.Strip, Words, Trim, Holds, Contains, ToUpper, FirstWord;
    SpelledIsWord(k, "START");
    StatementIs(k, t);
    ContainsIff(ToUpper(Scanner.Strip(k + t)), "READ ONLY");
    Candidates("START");
    var words := Words(ToUpper(Scanner.Strip(k + t)));
    assert |words| > 1 ==> words[1] == words[1..][0];
  }

  /** A text that says nothing goes to the primary. */
  lemma NothingIsWrite(sessionReadOnly: bool)
    ensures Route("", sessionReadOnly) == Write
  {
    Scanner.SplitStep("");
  }

  /** One statement decides for itself. */
  lemma OneStatement(s: string, sessionReadOnly: bool)
    requires Scanner.Split(s) == [s] && Substantive(s)
    ensures Route(s, sessionReadOnly) == StatementRoute(s, sessionReadOnly)
  {
    hide StatementRoute, Substantive, Scanner.Split;
    FilterOne(Substantive, s);
    assert Statements(s) == [s] && [s][0] == s;
  }

  lemma FilterOne(p: string -> bool, x: string)
    requires p(x)
    ensures Filter(p, [x]) == [x]
  {
    assert [x][0] == x && [x][1..] == [];
    assert Filter(p, [x]) == [x] + Filter(p, []);
  }
}
