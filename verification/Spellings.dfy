/** What havuz reads in each spelling of SET and RESET (`classify_set` in params.rs), over the
    text of the statement, in any letter case. */
module Spellings {
  import opened Text
  import opened Scanner
  import opened Params
  import opened Delta
  import opened Sync

  predicate Spells(word: string, upper: string) { ToUpper(word) == upper }

  predicate Letters(upper: string) { upper != [] && forall i :: 0 <= i < |upper| ==> 'A' <= upper[i] <= 'Z' }

  /** What may stand at the end of a statement. */
  predicate Ends(v: string) { v != [] && !IsSpace(v[0]) && !IsSpace(v[|v| - 1]) && v[|v| - 1] != ';' }

  lemma SpelledChars(word: string, upper: string)
    requires Spells(word, upper) && Letters(upper)
    ensures word != [] && Ends(word) && forall i :: 0 <= i < |word| ==> IsAlpha(word[i])
  {
    forall i | 0 <= i < |word| ensures IsAlpha(word[i]) { assert upper[i] == Upper(word[i]); }
  }

  /** A statement's first word, and what follows it. */
  lemma Said(k: string, upper: string, rest: string)
    requires Spells(k, upper) && Letters(upper) && Ends(rest)
    ensures var s := k + " " + rest;
            Normalized(s) == s && StripNoise(s) == s && Trim(s) == s && TakeWord(s) == (k, " " + rest) && Ends(s)
  {
    hide StripNoise, TakeWord, Normalized, TrimEnd, TrimStart;
    SpelledChars(k, upper);
    var s := k + " " + rest;
    assert s == k + (" " + rest) && s[0] == k[0] && s[|s| - 1] == rest[|rest| - 1];
    NormalizedFixed(s);
    StripNoiseFixed(s);
    TakeWordAt(k, " " + rest);
  }

  lemma NextWord(w: string, upper: string, tail: string)
    requires Spells(w, upper) && Letters(upper) && (tail == [] || EndsWord(tail[0]))
    ensures TakeWord(" " + (w + tail)) == (w, tail)
  {
    hide TakeWord;
    SpelledChars(w, upper);
    TakeWordAt(w, tail);
  }

  lemma SetSaid(k: string, rest: string)
    requires Spells(k, "SET") && Ends(rest)
    ensures ClassifySet(k + " " + rest) == ClassifySetBody(k + " " + rest, " " + rest)
  {
    hide Normalized, TakeWord, ClassifySetBody, ClassifyResetBody, Ends, StripNoise, Trim;
    Said(k, "SET", rest);
  }

  lemma ResetSaid(k: string, rest: string)
    requires Spells(k, "RESET") && Ends(rest)
    ensures ClassifySet(k + " " + rest) == ClassifyResetBody(" " + rest)
  {
    hide Normalized, TakeWord, ClassifySetBody, ClassifyResetBody, Ends, StripNoise, Trim;
    Said(k, "RESET", rest);
  }

  /** Something follows the words, or nothing does. */
  predicate Tail(t: string) { t == [] || (t[0] == ' ' && |t| > 1 && !IsSpace(t[|t| - 1]) && t[|t| - 1] != ';') }

  lemma WordEnds(w: string, upper: string, t: string)
    requires Spells(w, upper) && Letters(upper) && Tail(t)
    ensures Ends(w + t) && (t != [] ==> EndsWord(t[0]))
  {
    SpelledChars(w, upper);
    assert t != [] ==> (w + t)[|w + t| - 1] == t[|t| - 1];
  }

  /** A name of lower-case letters and underscores is tracked as it stands. */
  lemma TracksAs(s: string, name: string)
    requires Trim(s) == s && LowerWord(name)
    ensures TrackAs(s, name) == Track(name, s)
  {
    hide Trim;
    assert ToLower(name) == name;
  }

  lemma Names()
    ensures LowerWord("client_encoding") && LowerWord("search_path") && LowerWord("timezone") && LowerWord("xmloption")
  {}

  lemma BodyNames(s: string, rest: string, w: string, after: string)
    requires TakeWord(rest) == (w, after)
    ensures Spells(w, "NAMES") ==> ClassifySetBody(s, rest) == TrackAs(s, "client_encoding")
    ensures Spells(w, "SCHEMA") ==> ClassifySetBody(s, rest) == TrackAs(s, "search_path")
  {
    hide TakeWord, ClassifyAssignment, TrackAs, ToUpper;
  }

  lemma BodyTwoWords(s: string, rest: string, w: string, after: string)
    requires TakeWord(rest) == (w, after)
    ensures Spells(w, "TIME") && ToUpper(TakeWord(after).0) == "ZONE" ==> ClassifySetBody(s, rest) == TrackAs(s, "timezone")
    ensures Spells(w, "XML") && ToUpper(TakeWord(after).0) == "OPTION" ==> ClassifySetBody(s, rest) == TrackAs(s, "xmloption")
  {
    hide TakeWord, ClassifyAssignment, TrackAs, ToUpper;
  }

  // ---------- SET, with a name that is not in the text ----------

  /** `SET NAMES v` sets client_encoding. */
  lemma SetNames(k: string, w: string, v: string)
    requires Spells(k, "SET") && Spells(w, "NAMES") && Ends(v)
    ensures var s := k + " " + w + " " + v; ClassifySet(s) == Track("client_encoding", s)
  {
    hide TakeWord, Trim, ClassifySetBody, ClassifySet, Spells, LowerWord, TrackAs;
    var s := k + " " + w + " " + v;
    SetWord(k, w, "NAMES", " " + v);
    assert k + " " + (w + (" " + v)) == s;
    BodyNames(s, " " + (w + (" " + v)), w, " " + v);
    Names();
    TracksAs(s, "client_encoding");
  }

  /** `SET SCHEMA v` sets search_path. */
  lemma SetSchema(k: string, w: string, v: string)
    requires Spells(k, "SET") && Spells(w, "SCHEMA") && Ends(v)
    ensures var s := k + " " + w + " " + v; ClassifySet(s) == Track("search_path", s)
  {
    hide TakeWord, Trim, ClassifySetBody, ClassifySet, Spells, LowerWord, TrackAs;
    var s := k + " " + w + " " + v;
    SetWord(k, w, "SCHEMA", " " + v);
    assert k + " " + (w + (" " + v)) == s;
    BodyNames(s, " " + (w + (" " + v)), w, " " + v);
    Names();
    TracksAs(s, "search_path");
  }

  /** The word after SET, and what is left of the text. */
  lemma SetWord(k: string, w: string, upper: string, t: string)
    requires Spells(k, "SET") && Spells(w, upper) && Letters(upper) && Tail(t)
    ensures var s := k + " " + (w + t);
            && ClassifySet(s) == ClassifySetBody(s, " " + (w + t)) && Trim(s) == s
            && TakeWord(" " + (w + t)) == (w, t)
  {
    hide TakeWord, Trim, ClassifySetBody, ClassifySet, Normalized, StripNoise;
    WordEnds(w, upper, t);
    SetSaid(k, w + t);
    Said(k, "SET", w + t);
    NextWord(w, upper, t);
  }

  /** `SET TIME ZONE v` sets timezone. */
  lemma SetTimeZone(k: string, w: string, z: string, v: string)
    requires Spells(k, "SET") && Spells(w, "TIME") && Spells(z, "ZONE") && Ends(v)
    ensures var s := k + " " + w + " " + z + " " + v; ClassifySet(s) == Track("timezone", s)
  {
    hide TakeWord, Trim, ClassifySetBody, ClassifySet, LowerWord, TrackAs, ToUpper, Ends;
    var s := k + " " + w + " " + z + " " + v;
    assert Tail(" " + v) by { BlankIsTail(v); }
    SetTwoWords(k, w, "TIME", z, "ZONE", " " + v);
    assert k + " " + (w + (" " + (z + (" " + v)))) == s;
    BodyTwoWords(s, " " + (w + (" " + (z + (" " + v)))), w, " " + (z + (" " + v)));
    BlankTakes(z + (" " + v));
    Names();
    TracksAs(s, "timezone");
  }

  /** `SET XML OPTION v` sets xmloption. */
  lemma SetXmlOption(k: string, w: string, z: string, v: string)
    requires Spells(k, "SET") && Spells(w, "XML") && Spells(z, "OPTION") && Ends(v)
    ensures var s := k + " " + w + " " + z + " " + v; ClassifySet(s) == Track("xmloption", s)
  {
    hide TakeWord, Trim, ClassifySetBody, ClassifySet, LowerWord, TrackAs, ToUpper, Ends;
    var s := k + " " + w + " " + z + " " + v;
    assert Tail(" " + v) by { BlankIsTail(v); }
    SetTwoWords(k, w, "XML", z, "OPTION", " " + v);
    assert k + " " + (w + (" " + (z + (" " + v)))) == s;
    BodyTwoWords(s, " " + (w + (" " + (z + (" " + v)))), w, " " + (z + (" " + v)));
    BlankTakes(z + (" " + v));
    Names();
    TracksAs(s, "xmloption");
  }

  lemma BlankIsTail(v: string)
    requires Ends(v)
    ensures Tail(" " + v)
  {}

  lemma SetTwoWords(k: string, w: string, upper: string, z: string, next: string, t: string)
    requires Spells(k, "SET") && Spells(w, upper) && Letters(upper) && Spells(z, next) && Letters(next) && Tail(t)
    ensures var s := k + " " + (w + (" " + (z + t)));
            && ClassifySet(s) == ClassifySetBody(s, " " + (w + (" " + (z + t)))) && Trim(s) == s
            && TakeWord(" " + (w + (" " + (z + t)))) == (w, " " + (z + t))
            && TakeWord(" " + (z + t)) == (z, t)
  {
    hide TakeWord, Trim, ClassifySetBody, ClassifySet;
    WordEnds(z, next, t);
    SetWord(k, w, upper, " " + (z + t));
    NextWord(z, next, t);
  }

  // ---------- SET that is no session parameter ----------

  /** `SET LOCAL` and `SET TRANSACTION` last for the transaction, and change nothing havuz keeps. */
  lemma SetLocal(k: string, w: string, t: string)
    requires Spells(k, "SET") && (Spells(w, "LOCAL") || Spells(w, "TRANSACTION")) && Tail(t)
    ensures ClassifySet(k + " " + (w + t)).NotASet?
  {
    hide TakeWord, Trim, ClassifyAssignment;
    if Spells(w, "LOCAL") { SetWord(k, w, "LOCAL", t); } else { SetWord(k, w, "TRANSACTION", t); }
  }

  /** What cannot be named, and so not be carried. */
  lemma SetRole(k: string, w: string, t: string)
    requires Spells(k, "SET") && (Spells(w, "ROLE") || Spells(w, "CONSTRAINTS")) && Tail(t)
    ensures ClassifySet(k + " " + (w + t)).Pin?
  {
    hide TakeWord, Trim, ClassifyAssignment;
    if Spells(w, "ROLE") { SetWord(k, w, "ROLE", t); } else { SetWord(k, w, "CONSTRAINTS", t); }
  }

  lemma SetSessionRole(k: string, w: string, z: string, t: string)
    requires Spells(k, "SET") && Spells(w, "SESSION") && (Spells(z, "AUTHORIZATION") || Spells(z, "CHARACTERISTICS")) && Tail(t)
    ensures ClassifySet(k + " " + (w + (" " + (z + t)))).Pin?
  {
    hide TakeWord, Trim, ClassifyAssignment;
    if Spells(z, "AUTHORIZATION") {
      SetTwoWords(k, w, "SESSION", z, "AUTHORIZATION", t);
    } else {
      SetTwoWords(k, w, "SESSION", z, "CHARACTERISTICS", t);
    }
  }

  /** The same action, of another text. */
  function Recast(a: SetAction, statement: string): SetAction {
    match a
    case Track(name, _) => Track(name, statement)
    case other => other
  }

  lemma {:induction false} BodyOfText(a: string, b: string, rest: string)
    ensures ClassifySetBody(a, rest) == Recast(ClassifySetBody(b, rest), Trim(a))
    decreases |rest|
  {
    hide TakeWord, Trim, ToUpper, AssignedValue, HasPlaceholder, IsParameterName;
    var (first, after) := TakeWord(rest);
    if ToUpper(first) == "SESSION" {
      assert |after| < |rest| by { SessionIsShort(rest); }
      BodyOfText(a, b, after);
    }
  }

  lemma SessionIsShort(rest: string)
    requires ToUpper(TakeWord(rest).0) == "SESSION"
    ensures |TakeWord(rest).1| < |rest|
  {
    hide WordEnd, TrimStart;
    assert |ToUpper(TakeWord(rest).0)| == 7;
  }

  /** `SET SESSION x` is `SET x`, whatever x is, but for the two forms above. */
  lemma SetSession(k: string, w: string, x: string)
    requires Spells(k, "SET") && Spells(w, "SESSION") && Ends(x)
    requires ToUpper(TakeWord(x).0) != "AUTHORIZATION" && ToUpper(TakeWord(x).0) != "CHARACTERISTICS"
    ensures var s := k + " " + w + " " + x; ClassifySet(s) == Recast(ClassifySet(k + " " + x), s)
  {
    hide TakeWord, Trim, ClassifyAssignment, ClassifySet;
    var s := k + " " + w + " " + x;
    SetWord(k, w, "SESSION", " " + x);
    assert k + " " + (w + (" " + x)) == s;
    assert TakeWord(" " + x) == TakeWord(x) by { BlankTakes(x); }
    assert ClassifySet(s) == ClassifySetBody(s, " " + x);
    SetSaid(k, x);
    BodyOfText(s, k + " " + x, " " + x);
  }

  lemma BlankTakes(x: string)
    ensures TakeWord(" " + x) == TakeWord(x)
  {
    hide WordEnd;
    TrimStartAfterBlank(x);
  }

  // ---------- SET of a named parameter ----------

  /** A name that SET gives no meaning of its own; TIME and XML do so only before another word. */
  predicate IsPlainName(name: string) {
    && IsParameterName(name)
    && ToUpper(name) !in {"LOCAL", "TRANSACTION", "ROLE", "CONSTRAINTS", "SESSION", "NAMES", "SCHEMA", "TIME", "XML"}
  }

  /** What an assignment does. */
  function Assigned(name: string, value: string, s: string): SetAction {
    if HasPlaceholder(value) then Pin
    else if ToUpper(value) == "DEFAULT" then Reset(ToLower(name))
    else Track(ToLower(name), s)
  }

  /** `SET name TO v`, in any letter case, and `SET name = v`, with blanks or without. */
  lemma SetTo(k: string, name: string, to: string, v: string)
    requires Spells(k, "SET") && IsPlainName(name) && Spells(to, "TO") && Ends(v)
    ensures var s := k + " " + name + " " + to + " " + v; ClassifySet(s) == Assigned(name, v, s)
  {
    hide TakeWord, Trim, IsParameterName, HasPlaceholder, TrimEnd, ClassifySet, ToLower, ToUpper;
    var after := " " + (to + (" " + v));
    assert after[|after| - 1] == v[|v| - 1];
    NamedSaid(k, name, after);
    assert k + " " + (name + after) == k + " " + name + " " + to + " " + v;
    SpelledChars(to, "TO");
    NextWord(to, "TO", " " + v);
    TrimStartAfterBlank(to + (" " + v));
    assert TrimStart(after) == to + (" " + v);
    BlankTakes(to + (" " + v));
    assert Trim(" " + v) == v by { BlankTrims(v); }
    LowerTwice(name);
  }

  lemma BlankTrims(v: string)
    requires Ends(v)
    ensures Trim(" " + v) == v && Trim(v) == v
  {
    TrimStartAfterBlank(v);
  }

  /** The name after SET, and what is left of the text. */
  lemma NamedSaid(k: string, name: string, after: string)
    requires Spells(k, "SET") && IsPlainName(name)
    requires after != [] && EndsWord(after[0]) && !IsSpace(after[|after| - 1]) && after[|after| - 1] != ';'
    ensures var s := k + " " + (name + after);
            ClassifySet(s) == ClassifyAssignment(s, name, after) && Trim(s) == s
  {
    hide TakeWord, Trim, IsParameterName, ClassifyAssignment, ClassifySet, Normalized, StripNoise;
    NameChars(name);
    assert Ends(name + after) by { assert (name + after)[|name + after| - 1] == after[|after| - 1]; }
    Said(k, "SET", name + after);
    SetSaid(k, name + after);
    TakeWordAt(name, after);
  }

  lemma SetEquals(k: string, name: string, v: string)
    requires Spells(k, "SET") && IsPlainName(name) && Ends(v)
    ensures var s := k + " " + name + " = " + v; ClassifySet(s) == Assigned(name, v, s)
    ensures var s := k + " " + name + "=" + v; ClassifySet(s) == Assigned(name, v, s)
  {
    hide ClassifySet, Assigned, IsPlainName, Ends;
    BlankTrims(v);
    EqualsAfter(k, name, " = ", v);
    EqualsAfter(k, name, "=", v);
    assert k + " " + name + " = " + v == k + " " + (name + (" = " + v));
    assert k + " " + name + "=" + v == k + " " + (name + ("=" + v));
  }

  lemma EqualsAfter(k: string, name: string, sign: string, v: string)
    requires Spells(k, "SET") && IsPlainName(name) && Ends(v) && (sign == " = " || sign == "=")
    ensures var s := k + " " + (name + (sign + v)); ClassifySet(s) == Assigned(name, v, s)
  {
    hide TakeWord, Trim, IsParameterName, HasPlaceholder, TrimEnd, ClassifySet, ToLower, ToUpper;
    var after := sign + v;
    assert after[|after| - 1] == v[|v| - 1];
    NamedSaid(k, name, after);
    BlankTrims(v);
    if sign == "=" {
      assert after[1..] == v;
    } else {
      assert after == " " + ("= " + v) && ("= " + v)[1..] == " " + v;
      TrimStartAfterBlank("= " + v);
    }
    LowerTwice(name);
  }

  /** A SET that says neither `=` nor TO, or names no parameter, is not one havuz can carry. */
  lemma SetOther(k: string, name: string, w: string, v: string)
    requires Spells(k, "SET") && IsPlainName(name) && Ends(w + v)
    requires w != [] && (forall i :: 0 <= i < |w| ==> !EndsWord(w[i])) && (v == [] || v[0] == ' ') && ToUpper(w) != "TO"
    ensures ClassifySet(k + " " + name + " " + w + v).Pin?
  {
    hide TakeWord, Trim, IsParameterName, HasPlaceholder, TrimEnd, ClassifySet;
    var after := " " + (w + v);
    NamedSaid(k, name, after);
    assert k + " " + (name + after) == k + " " + name + " " + w + v;
    TakeWordAt(w, v);
    TrimStartAfterBlank(w + v);
    assert TrimStart(after) == w + v;
    BlankTakes(w + v);
  }

  /** `$` and a digit in code, with no `$` after it that would make it a quote, are a placeholder. */
  lemma {:induction false} PlaceholderPins(a: string, c: char, b: string)
    requires (forall i :: 0 <= i < |a| ==> Ordinary(a[i])) && IsDigit(c) && '$' !in b
    ensures HasPlaceholder(a + ("$" + ([c] + b)))
  {
    hide Strip, IsCode, TokenLen, PushBytes;
    var r := "$" + ([c] + b);
    if a == [] {
      assert a + r == r;
      DollarDigitIsCode(c, b);
      StripStep(r);
      StripStep([c] + b);
      assert r[1..] == [c] + b;
      DigitIsCode(c, b);
      var stripped := Strip(r);
      assert stripped[0] == '$' && stripped[1] == c;
    } else {
      PlaceholderPins(a[1..], c, b);
      var s := a + r;
      assert s[1..] == a[1..] + r;
      OrdinaryIsCode(s);
      StripStep(s);
      var rest := Strip(s[1..]);
      var i :| 0 <= i < |rest| - 1 && rest[i] == '$' && IsDigit(rest[i + 1]);
      assert Strip(s) == [s[0]] + rest;
      assert Strip(s)[i + 1] == '$' && IsDigit(Strip(s)[i + 2]);
    }
  }

  lemma OrdinaryIsCode(s: string)
    requires s != [] && Ordinary(s[0])
    ensures IsCode(s) && TokenLen(s) == 1 && PushBytes(s[0]) == [s[0]]
  {}

  lemma DigitIsCode(c: char, b: string)
    requires IsDigit(c)
    ensures IsCode([c] + b) && TokenLen([c] + b) == 1 && PushBytes(c) == [c]
  {}

  lemma DollarDigitIsCode(c: char, b: string)
    requires IsDigit(c) && '$' !in b
    ensures var s := "$" + ([c] + b); IsCode(s) && TokenLen(s) == 1 && PushBytes('$') == ['$']
  {
    var s := "$" + ([c] + b);
    assert s[1..] == [c] + b;
    assert forall i :: 1 < i < |s| ==> s[i] == b[i - 2];
    assert forall i :: 1 <= i < |s| ==> s[i] != '$';
  }

  // ---------- RESET ----------

  /** The word after RESET, and what is left of the text. */
  lemma ResetWord(k: string, w: string, upper: string, t: string)
    requires Spells(k, "RESET") && Spells(w, upper) && Letters(upper) && Tail(t)
    ensures ClassifySet(k + " " + (w + t)) == ClassifyResetBody(" " + (w + t)) && TakeWord(" " + (w + t)) == (w, t)
  {
    hide TakeWord, Trim, ClassifyResetBody, ClassifySet, Normalized, StripNoise;
    WordEnds(w, upper, t);
    ResetSaid(k, w + t);
    NextWord(w, upper, t);
  }

  lemma ResetEverything(k: string, w: string, t: string)
    requires Spells(k, "RESET") && Spells(w, "ALL") && Tail(t)
    ensures ClassifySet(k + " " + (w + t)) == ResetAll
  {
    hide TakeWord, ClassifySet, IsParameterName;
    ResetWord(k, w, "ALL", t);
  }

  lemma ResetRole(k: string, w: string, t: string)
    requires Spells(k, "RESET") && Tail(t)
    ensures Spells(w, "ROLE") ==> ClassifySet(k + " " + (w + t)) == Reset("role")
    ensures Spells(w, "SESSION") ==> ClassifySet(k + " " + (w + t)) == Reset("session_authorization")
  {
    hide TakeWord, ClassifySet, IsParameterName;
    if Spells(w, "ROLE") { ResetWord(k, w, "ROLE", t); }
    if Spells(w, "SESSION") { ResetWord(k, w, "SESSION", t); }
  }

  /** `RESET TIME ZONE`; any other RESET TIME pins. */
  lemma ResetTimeZone(k: string, w: string, z: string, t: string)
    requires Spells(k, "RESET") && Spells(w, "TIME") && Tail(t)
    requires z != [] && (forall i :: 0 <= i < |z| ==> !EndsWord(z[i])) && Ends(z)
    ensures ClassifySet(k + " " + (w + (" " + (z + t)))) == if ToUpper(z) == "ZONE" then Reset("timezone") else Pin
  {
    hide TakeWord, ClassifySet, IsParameterName, ToUpper;
    var tail := " " + (z + t);
    assert Tail(tail) by { assert t != [] ==> (z + t)[|z + t| - 1] == t[|t| - 1]; }
    ResetWord(k, w, "TIME", tail);
    TakeWordAt(z, t);
  }

  predicate IsPlainReset(name: string) { ToUpper(name) !in {"ALL", "ROLE", "SESSION", "TIME"} }

  /** `RESET name`, and a RESET of what is no parameter name. */
  lemma ResetNamed(k: string, name: string, t: string)
    requires Spells(k, "RESET") && Tail(t) && IsPlainReset(name)
    requires (forall i :: 0 <= i < |name| ==> !EndsWord(name[i])) && Ends(name)
    ensures ClassifySet(k + " " + (name + t)) == if IsParameterName(name) then Reset(ToLower(name)) else Pin
  {
    hide TakeWord, ClassifySet, IsParameterName, ToUpper, ToLower;
    assert Ends(name + t) by { assert t != [] ==> (name + t)[|name + t| - 1] == t[|t| - 1]; }
    ResetSaid(k, name + t);
    TakeWordAt(name, t);
  }

  // ---------- other statements ----------

  /** Nothing but SET and RESET sets. */
  lemma OtherSetsNothing(k: string, t: string)
    requires k != [] && IsAlpha(k[0]) && (forall i :: 0 <= i < |k| ==> !EndsWord(k[i])) && k[|k| - 1] != ';' && Tail(t)
    requires !Spells(k, "SET") && !Spells(k, "RESET")
    ensures ClassifySet(k + t).NotASet?
  {
    hide Normalized, TakeWord, ClassifySetBody, ClassifyResetBody, ToUpper, StripNoise;
    var s := k + t;
    assert s[0] == k[0] && s[|s| - 1] == if t == [] then k[|k| - 1] else t[|t| - 1];
    NormalizedFixed(s);
    TakeWordAt(k, t);
  }

  /** ROLLBACK and ABORT undo, in any letter case and whatever follows. */
  lemma UndoesIff(k: string, t: string)
    requires k != [] && IsAlpha(k[0]) && (forall i :: 0 <= i < |k| ==> !EndsWord(k[i])) && (t == [] || EndsWord(t[0]))
    ensures UndoesTheBatch(k + t) <==> Spells(k, "ROLLBACK") || Spells(k, "ABORT")
  {
    hide TakeWord, ToUpper, StripNoise;
    assert (k + t)[0] == k[0];
    StripNoiseFixed(k + t);
    TakeWordAt(k, t);
  }

  /** A SET or RESET pins exactly when it is classified so. */
  lemma PinsIff(k: string, upper: string, rest: string)
    requires (upper == "SET" || upper == "RESET") && Spells(k, upper) && Ends(rest)
    ensures StatementPins(k + " " + rest) <==> ClassifySet(k + " " + rest).Pin?
  {
    hide ClassifySet, StripNoise, Normalized, TakeWord, Trim;
    Said(k, upper, rest);
    SpelledChars(k, upper);
    FirstOfWords(k, rest);
  }

  lemma {:induction false} WordLenIs(k: string, rest: string)
    requires (forall i :: 0 <= i < |k| ==> !IsSpace(k[i])) && (rest == [] || IsSpace(rest[0]))
    ensures WordLen(k + rest) == |k|
  {
    var s := k + rest;
    if k == [] {
      assert s == rest;
    } else {
      assert s[1..] == k[1..] + rest;
      WordLenIs(k[1..], rest);
    }
  }

  lemma FirstOfWords(k: string, rest: string)
    requires k != [] && forall i :: 0 <= i < |k| ==> !IsSpace(k[i])
    ensures var words := Words(k + " " + rest); words != [] && words[0] == k
  {
    var s := k + (" " + rest);
    assert s == k + " " + rest && s[0] == k[0];
    WordLenIs(k, " " + rest);
    assert s[..|k|] == k;
  }

  /** A trailing `;`, and blanks around it, do not matter. */
  lemma TrailingSemi(s: string)
    requires s != [] && NoiseFree(s) && Ends(s) && NoiseFree(s + ";")
    ensures ClassifySet(s + ";") == ClassifySet(s)
  {
    hide StripNoise, ClassifyNormalized;
    StripNoiseFixed(s);
    StripNoiseFixed(s + ";");
    assert (s + ";")[..|s|] == s && (s + ";")[|s|] == ';';
  }

  // ---------- words and names ----------

  /** A word ends at a blank, at `=` and at `,`. */
  lemma WordEndsAt(w: string, c: char, rest: string)
    requires w != [] && !IsSpace(w[0]) && '=' !in w && ',' !in w && forall i :: 0 <= i < |w| ==> !IsSpace(w[i])
    requires c == ' ' || c == '\t' || c == '\n' || c == '=' || c == ','
    ensures TakeWord(w + ([c] + rest)) == (w, [c] + rest) && TakeWord(w) == (w, "")
  {
    assert forall i :: 0 <= i < |w| ==> w[i] in w;
    TakeWordAt(w, [c] + rest);
    TakeWordAt(w, "");
    assert w + "" == w;
  }

  /** A letter or underscore, then letters, digits, underscores and dollars. */
  predicate IsPart(part: string) {
    && part != "" && (IsAlpha(part[0]) || part[0] == '_')
    && forall c :: c in part ==> IsAlpha(c) || IsDigit(c) || c == '_' || c == '$'
  }

  lemma PartIff(part: string)
    ensures IsPart(part) <==> IsIdentifier(part)
  {
    if IsIdentifier(part) {
      forall c | c in part ensures IsAlpha(c) || IsDigit(c) || c == '_' || c == '$' {
        var i :| 0 <= i < |part| && part[i] == c;
      }
    }
    assert forall i :: 0 <= i < |part| ==> part[i] in part;
  }

  lemma {:induction false} DotFound(a: string, b: string)
    requires '.' !in a
    ensures Find(a, ".").None? && Find(a + "." + b, ".") == Some(|a|)
  {
    NoDot(a);
    var s := a + "." + b;
    if a == "" {
      assert s[0] == '.';
    } else {
      assert s[1..] == a[1..] + "." + b;
      DotFound(a[1..], b);
    }
  }

  /** A parameter name is one such part, or two with a dot between them; three are none. */
  lemma ParameterNames(a: string, b: string, c: string)
    requires '.' !in a && '.' !in b && '.' !in c
    ensures IsParameterName(a) <==> IsPart(a)
    ensures IsParameterName(a + "." + b) <==> IsPart(a) && IsPart(b)
    ensures !IsParameterName(a + "." + (b + "." + c))
  {
    hide IsPart, IsIdentifier, Find;
    PartIff(a);
    PartIff(b);
    DotFound(a, b);
    DotFound(b, c);
    DotFound(c, "");
    DotFound(a, b + "." + c);
    var two, three, last := a + "." + b, a + "." + (b + "." + c), b + "." + c;
    assert DotParts(a) == [a] && DotParts(a)[0] == a;
    assert two[..|a|] == a && two[|a| + 1..] == b;
    assert DotParts(two) == [a] + DotParts(b) == [a, b] && DotParts(two)[0] == a && DotParts(two)[1] == b;
    assert last[..|b|] == b && last[|b| + 1..] == c;
    assert DotParts(last) == [b] + DotParts(c) == [b, c];
    assert three[..|a|] == a && three[|a| + 1..] == last;
    assert DotParts(three) == [a] + DotParts(last);
    assert |DotParts(three)| == 3;
  }
}
