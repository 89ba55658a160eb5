/** Exactly which transaction openers a read-only session is refused, and what gets past
    (`mentions_read_write` in params.rs). */
module Openers {
  import opened Text
  import opened Params
  import opened Delta
  import opened Sync
  import opened Spellings

  /** A character of an opener's words: a comma may be glued to one. */
  predicate WordChar(c: char) { IsAlnum(c) || c == '_' || c == ',' }

  predicate IsWord(w: string) { w != [] && forall i :: 0 <= i < |w| ==> WordChar(w[i]) }

  predicate AllWords(words: seq<string>) { forall i :: 0 <= i < |words| ==> IsWord(words[i]) }

  /** The words of a statement with single blanks between them. */
  function Line(words: seq<string>): string { Join(words, " ") }

  predicate LineChar(c: char) { WordChar(c) || c == ' ' }

  lemma {:induction false} LineChars(words: seq<string>)
    requires AllWords(words)
    ensures forall i :: 0 <= i < |Line(words)| ==> LineChar(Line(words)[i])
  {
    if words != [] {
      assert IsWord(words[0]);
      if |words| > 1 {
        var rest := Line(words[1..]);
        LineChars(words[1..]);
        assert Line(words) == words[0] + " " + rest;
        assert forall i :: 0 <= i < |rest| ==> LineChar(rest[i]);
      }
    }
  }

  /** Such a line is all code: stripping keeps it, and it is one statement. */
  lemma {:induction false} LineIsCode(s: string)
    requires forall i :: 0 <= i < |s| ==> LineChar(s[i])
    ensures Scanner.Strip(s) == s && Scanner.FirstSemi(s).None?
  {
    hide Scanner.Strip, Scanner.FirstSemi;
    Scanner.StripStep(s);
    Scanner.FirstSemiStep(s);
    if s != [] {
      assert Scanner.IsCode(s);
      LineIsCode(s[1..]);
      assert s == [s[0]] + s[1..];
    }
  }

  lemma {:induction false} WordLenOf(w: string, rest: string)
    requires IsWord(w) && (rest == [] || IsSpace(rest[0]))
    ensures WordLen(w + rest) == |w|
  {
    var s := w + rest;
    assert s[1..] == w[1..] + rest;
    if |w| == 1 {
      assert s[1..] == rest;
    } else {
      WordLenOf(w[1..], rest);
    }
  }

  lemma {:induction false} WordsOfLine(words: seq<string>)
    requires AllWords(words)
    ensures Words(Line(words)) == words
  {
    var s := Line(words);
    if words != [] {
      var w := words[0];
      var rest := if |words| == 1 then "" else " " + Line(words[1..]);
      assert s == w + rest;
      WordLenOf(w, rest);
      assert TrimStart(s) == s && s[..|w|] == w && s[|w|..] == rest;
      assert words == [w] + words[1..];
      if |words| == 1 {
        assert Words("") == [];
      } else {
        WordsOfLine(words[1..]);
        WordsAfterBlank(Line(words[1..]));
      }
    }
  }

  lemma WordsAfterBlank(s: string)
    ensures Words(" " + s) == Words(s)
  {
    TrimStartAfterBlank(s);
  }

  lemma {:induction false} UpperLine(words: seq<string>)
    requires AllWords(words)
    ensures ToUpper(Line(words)) == Line(Map(ToUpper, words)) && AllWords(Map(ToUpper, words))
  {
    hide ToUpper;
    UpperWords(words);
    var upper := Map(ToUpper, words);
    if |words| == 0 {
      assert ToUpper("") == "";
    } else if |words| > 1 {
      UpperLine(words[1..]);
      assert upper[1..] == Map(ToUpper, words[1..]);
      UpperConcat(words[0] + " ", Line(words[1..]));
      UpperConcat(words[0], " ");
      assert ToUpper(" ") == " ";
    }
  }

  lemma UpperConcat(a: string, b: string)
    ensures ToUpper(a + b) == ToUpper(a) + ToUpper(b)
  {}

  lemma UpperWords(words: seq<string>)
    requires AllWords(words)
    ensures AllWords(Map(ToUpper, words))
  {
    forall i | 0 <= i < |words| ensures IsWord(ToUpper(words[i])) {
      assert IsWord(words[i]);
      forall k | 0 <= k < |words[i]| ensures WordChar(Upper(words[i][k])) { assert WordChar(words[i][k]); }
    }
  }

  /** READ directly followed by WRITE, each a word of its own. */
  predicate ReadThenWrite(words: seq<string>) {
    exists i :: 0 <= i < |words| - 1 && ToUpper(words[i]) == "READ" && ToUpper(words[i + 1]) == "WRITE"
  }

  lemma LineMentions(words: seq<string>)
    requires AllWords(words)
    ensures MentionsReadWrite(Line(words)) <==> ReadThenWrite(words)
  {
    hide Words, Scanner.Strip, ToUpper;
    LineChars(words);
    LineIsCode(Line(words));
    UpperLine(words);
    WordsOfLine(Map(ToUpper, words));
    var upper := Map(ToUpper, words);
    assert forall i :: 0 <= i < |words| ==> upper[i] == ToUpper(words[i]);
  }

  predicate NoComma(w: string) { ',' !in w }

  /** The first word, and the text after it, as the classifier takes them. */
  lemma LineStarts(words: seq<string>)
    requires AllWords(words) && words != [] && NoComma(words[0])
    ensures Scanner.StripNoise(Line(words)) == Line(words)
    ensures TakeWord(Line(words)) == (words[0], if |words| == 1 then "" else " " + Line(words[1..]))
  {
    hide Scanner.StripNoise, TakeWord;
    var s, w := Line(words), words[0];
    var rest := if |words| == 1 then "" else " " + Line(words[1..]);
    assert IsWord(w) && s == w + rest && s[0] == w[0];
    Scanner.StripNoiseFixed(s);
    assert forall i :: 0 <= i < |w| ==> WordChar(w[i]) && w[i] in w;
    TakeWordAt(w, rest);
  }

  /** What opens a transaction: BEGIN, or START TRANSACTION. */
  predicate IsOpener(words: seq<string>) {
    && AllWords(words) && words != []
    && (ToUpper(words[0]) == "BEGIN" ||
        (|words| > 1 && ToUpper(words[0]) == "START" && ToUpper(words[1]) == "TRANSACTION"))
  }

  lemma UpperNoComma(w: string, upper: string)
    requires ToUpper(w) == upper && ',' !in upper
    ensures NoComma(w)
  {
    assert forall i :: 0 <= i < |w| ==> upper[i] == Upper(w[i]) && upper[i] in upper;
  }

  /** An opener is refused exactly when READ and WRITE stand in it side by side, each a word of
      its own; a comma glued to WRITE makes it another word. */
  lemma OpenerRefusedIff(words: seq<string>)
    requires IsOpener(words)
    ensures DefeatsReadOnly(Line(words)) <==> ReadThenWrite(words)
  {
    hide Words, Scanner.Strip, ToUpper, TakeWord, Scanner.StripNoise, MentionsReadWrite, ClassifySet, Scanner.Split, ReadThenWrite;
    var s := Line(words);
    LineChars(words);
    LineIsCode(s);
    LineMentions(words);
    OpenerWords();
    UpperNoComma(words[0], ToUpper(words[0]));
    LineStarts(words);
    if ToUpper(words[0]) == "START" {
      var rest := words[1..];
      assert rest[0] == words[1];
      UpperNoComma(words[1], ToUpper(words[1]));
      LineStarts(rest);
      TakeAfterBlank(Line(rest));
    }
    Scanner.SplitStep(s);
    assert s != [] by { assert IsWord(words[0]); }
    assert DefeatsReadOnly(s) <==> StatementDefeatsReadOnly(s) by { OnePiece(s); }
  }

  lemma OnePiece(s: string)
    requires Scanner.Split(s) == [s]
    ensures DefeatsReadOnly(s) <==> StatementDefeatsReadOnly(s)
  {
    hide Scanner.Split, StatementDefeatsReadOnly;
    assert [s][0] == s;
  }

  lemma OpenerWords()
    ensures ',' !in "BEGIN" && ',' !in "START" && ',' !in "TRANSACTION"
  {}

  lemma TakeAfterBlank(s: string)
    ensures TakeWord(" " + s) == TakeWord(s)
  {
    hide WordEnd;
    TrimStartAfterBlank(s);
  }

  // ---------- what gets past ----------

  /** `BEGIN READ WRITE, ISOLATION LEVEL SERIALIZABLE` */
  const COMMA_OPENER: seq<string> := ["BEGIN", "READ", "WRITE,", "ISOLATION", "LEVEL", "SERIALIZABLE"]

  lemma CommaGetsPast()
    ensures !DefeatsReadOnly(Line(COMMA_OPENER))
  {
    hide ToUpper, DefeatsReadOnly;
    CommaWords();
    OpenerRefusedIff(COMMA_OPENER);
  }

  lemma CommaWords()
    ensures IsOpener(COMMA_OPENER) && !ReadThenWrite(COMMA_OPENER)
  {
    assert ToUpper("BEGIN") == "BEGIN";
    forall i | 0 <= i < |COMMA_OPENER| - 1 ensures !(ToUpper(COMMA_OPENER[i]) == "READ" && ToUpper(COMMA_OPENER[i + 1]) == "WRITE") {
      if i == 1 {
        assert |ToUpper(COMMA_OPENER[2])| == 6;
      } else {
        assert |ToUpper(COMMA_OPENER[i])| != 4 || i == 1;
      }
    }
  }

  /** A SET of any other parameter is no reason to refuse, whatever it does. */
  lemma OtherSetGetsPast(name: string, value: string)
    requires IsParameterName(name) && ToLower(name) == name && !IsSetWord(name) && name != READ_ONLY_GUC
    requires value != [] && !IsSpace(value[0]) && !IsSpace(value[|value| - 1]) && value[|value| - 1] != ';'
    requires '$' !in value && ToUpper(value) != "DEFAULT"
    ensures !StatementDefeatsReadOnly("SET " + name + " = " + value)
  {
    hide TakeWord, ToUpper, Scanner.StripNoise, MentionsReadWrite, ClassifySet, READ_ONLY_GUC;
    var s := "SET " + name + " = " + value;
    PlainSetIsTracked(name, value);
    var rest := " " + (name + (" = " + value));
    assert s == "SET" + rest && s[0] == 'S';
    Scanner.StripNoiseFixed(s);
    TakeWordAt("SET", rest);
    assert ToUpper("SET") == "SET" by { SetUpper(); }
  }

  /** `SET transaction_read_only = off`, which makes the current transaction writable. */
  lemma TransactionSetGetsPast()
    ensures !StatementDefeatsReadOnly("SET " + "transaction_read_only" + " = " + "off")
  {
    hide ToUpper, ToLower, IsParameterName, IsSetWord, READ_ONLY_GUC, StatementDefeatsReadOnly;
    TransactionName();
    OtherSetGetsPast("transaction_read_only", "off");
  }

  lemma TransactionName()
    ensures var n := "transaction_read_only"; IsParameterName(n) && ToLower(n) == n && !IsSetWord(n) && n != READ_ONLY_GUC
    ensures ToUpper("off") != "DEFAULT"
  {
    hide IsParameterName, ToLower;
    var n := "transaction_read_only";
    assert |n| == 21 && |READ_ONLY_GUC| == 29;
    assert LowerWord(n);
    LowerWordIsName(n);
    assert |ToUpper("off")| == 3;
  }

  // ---------- what is refused ----------

  /** The line from its first word on. */
  lemma LineSplits(words: seq<string>)
    requires AllWords(words) && |words| > 1
    ensures Line(words) == words[0] + " " + Line(words[1..]) && AllWords(words[1..]) && Ends(Line(words[1..]))
  {
    LineEnds(words[1..]);
  }

  lemma {:induction false} LineEnds(words: seq<string>)
    requires AllWords(words) && words != []
    ensures Ends(Line(words))
  {
    assert IsWord(words[0]);
    if |words| > 1 {
      LineEnds(words[1..]);
      var rest := Line(words[1..]);
      assert Line(words) == words[0] + " " + rest;
    }
  }

  /** The words after these, as a tail. */
  function TailOf(words: seq<string>): string { if words == [] then "" else " " + Line(words) }

  lemma TailIs(words: seq<string>, n: nat)
    requires AllWords(words) && 0 < n <= |words|
    ensures Tail(TailOf(words[n..])) && Line(words[n - 1..]) == words[n - 1] + TailOf(words[n..])
  {
    if n < |words| {
      LineEnds(words[n..]);
      assert words[n - 1..][1..] == words[n..];
    }
  }

  /** A line that begins with SET or RESET and sets nothing that is tracked is refused exactly when READ
      and WRITE stand in it side by side. */
  lemma SetLineRefusedIff(words: seq<string>)
    requires AllWords(words) && |words| > 1 && ToUpper(words[0]) == "SET"
    requires ClassifySet(Line(words)).Pin? || ClassifySet(Line(words)).NotASet?
    ensures DefeatsReadOnly(Line(words)) <==> ReadThenWrite(words)
  {
    hide Words, Scanner.Strip, ToUpper, TakeWord, Scanner.StripNoise, MentionsReadWrite, ClassifySet, Scanner.Split, ReadThenWrite,
      Normalized, Trim, Ends;
    var s := Line(words);
    LineChars(words);
    LineIsCode(s);
    LineMentions(words);
    LineSplits(words);
    Said(words[0], "SET", Line(words[1..]));
    Scanner.SplitStep(s);
    assert DefeatsReadOnly(s) <==> StatementDefeatsReadOnly(s) by { OnePiece(s); }
  }

  /** SET TRANSACTION and SET SESSION CHARACTERISTICS, in any letter case, with any words. */
  predicate SetsMode(words: seq<string>) {
    && AllWords(words) && |words| > 1 && ToUpper(words[0]) == "SET"
    && (ToUpper(words[1]) == "TRANSACTION" ||
        (|words| > 2 && ToUpper(words[1]) == "SESSION" && ToUpper(words[2]) == "CHARACTERISTICS"))
  }

  lemma SetModeRefusedIff(words: seq<string>)
    requires SetsMode(words)
    ensures DefeatsReadOnly(Line(words)) <==> ReadThenWrite(words)
  {
    hide DefeatsReadOnly, ReadThenWrite, ClassifySet, Tail, ToUpper;
    LineSplits(words);
    if ToUpper(words[1]) == "TRANSACTION" {
      TailIs(words, 2);
      SetLocal(words[0], words[1], TailOf(words[2..]));
    } else {
      TailIs(words, 2);
      TailIs(words, 3);
      SetSessionRole(words[0], words[1], words[2], TailOf(words[3..]));
      assert TailOf(words[2..]) == " " + (words[2] + TailOf(words[3..]));
    }
    SetLineRefusedIff(words);
  }

  /** The setting, in any letter case. */
  predicate IsSetting(name: string) { ToLower(name) == "default_" + "transaction_" + "read_only" }

  lemma SettingIsName(name: string)
    requires IsSetting(name)
    ensures ToLower(name) == READ_ONLY_GUC
    ensures IsPlainName(name) && IsPlainReset(name) && Ends(name) && forall i :: 0 <= i < |name| ==> !EndsWord(name[i])
  {
    var guc := "default_" + "transaction_" + "read_only";
    assert LowerWord("default_") && LowerWord("transaction_") && LowerWord("read_only");
    assert |guc| == 29 && guc == READ_ONLY_GUC;
    assert forall i :: 0 <= i < |guc| ==> 'a' <= guc[i] <= 'z' || guc[i] == '_';
    hide READ_ONLY_GUC;
    LettersAreName(name, guc);
  }

  lemma LettersAreName(name: string, lower: string)
    requires ToLower(name) == lower && |lower| == 29 && forall i :: 0 <= i < |lower| ==> 'a' <= lower[i] <= 'z' || lower[i] == '_'
    ensures IsPlainName(name) && IsPlainReset(name) && Ends(name) && forall i :: 0 <= i < |name| ==> !EndsWord(name[i])
  {
    assert |name| == 29 && |ToUpper(name)| == 29;
    forall i | 0 <= i < |name| ensures IsAlpha(name[i]) || name[i] == '_' { assert lower[i] == Lower(name[i]); }
    NoDot(name);
    assert DotParts(name) == [name];
  }

  /** A read-only session is refused every assignment to the setting, in any letter case, and with
      any value that is no placeholder. */
  lemma SettingIsRefused(k: string, name: string, to: string, v: string)
    requires Spells(k, "SET") && IsSetting(name) && Spells(to, "TO") && Ends(v) && !HasPlaceholder(v)
    ensures StatementDefeatsReadOnly(k + " " + name + " = " + v)
    ensures StatementDefeatsReadOnly(k + " " + name + "=" + v)
    ensures StatementDefeatsReadOnly(k + " " + name + " " + to + " " + v)
  {
    hide ClassifySet, TakeWord, Scanner.StripNoise, Normalized, Trim, ToUpper, ToLower, HasPlaceholder, IsPlainName, READ_ONLY_GUC,
      MentionsReadWrite, IsPlainReset, Ends;
    SettingIsName(name);
    SetEquals(k, name, v);
    SetTo(k, name, to, v);
    AssignmentEnds(name, v);
    AssignmentEnds(name, to + " " + v);
    TailEnds(to, v);
    AssignmentEnds(name, to + " " + v);
    SaidAs(k, name + " = " + v, k + " " + name + " = " + v);
    SaidAs(k, name + "=" + v, k + " " + name + "=" + v);
    SaidAs(k, name + (" " + (to + " " + v)), k + " " + name + " " + to + " " + v);
  }

  lemma SaidAs(k: string, rest: string, s: string)
    requires Spells(k, "SET") && Ends(rest) && s == k + " " + rest
    ensures Scanner.StripNoise(s) == s && TakeWord(s).0 == k
  {
    hide Scanner.StripNoise, TakeWord, Normalized, Trim;
    Said(k, "SET", rest);
  }

  lemma TailEnds(to: string, v: string)
    requires Spells(to, "TO") && Ends(v)
    ensures Ends(to + " " + v)
  {
    SpelledChars(to, "TO");
  }

  lemma AssignmentEnds(name: string, v: string)
    requires Ends(name)
    ensures Ends(v) ==> Ends(name + " = " + v) && Ends(name + "=" + v) && Ends(name + (" " + v))
  {}

  /** And every RESET of it, and RESET ALL. */
  lemma ResetIsRefused(k: string, name: string, t: string)
    requires Spells(k, "RESET") && (IsSetting(name) || Spells(name, "ALL")) && Tail(t)
    ensures StatementDefeatsReadOnly(k + " " + (name + t))
  {
    hide ClassifySet, TakeWord, Scanner.StripNoise, Normalized, Trim, ToUpper, ToLower, READ_ONLY_GUC, MentionsReadWrite, Ends, Tail;
    if IsSetting(name) {
      SettingIsName(name);
      ResetNamed(k, name, t);
      TailKeepsEnd(name, t);
    } else {
      ResetEverything(k, name, t);
      WordEnds(name, "ALL", t);
    }
    Said(k, "RESET", name + t);
  }

  lemma TailKeepsEnd(name: string, t: string)
    requires Ends(name) && Tail(t)
    ensures Ends(name + t)
  {
    assert t != [] ==> (name + t)[|name + t| - 1] == t[|t| - 1];
  }

  // ---------- what is not refused ----------

  /** No statement with another first word is refused. */
  lemma OthersPass(k: string, t: string)
    requires k != [] && (forall i :: 0 <= i < |k| ==> IsAlpha(k[i])) && (t == [] || EndsWord(t[0]))
    requires ToUpper(k) !in {"SET", "RESET", "BEGIN", "START"}
    ensures !StatementDefeatsReadOnly(k + t)
  {
    hide TakeWord, ToUpper, Scanner.StripNoise;
    assert (k + t)[0] == k[0];
    Scanner.StripNoiseFixed(k + t);
    TakeWordAt(k, t);
  }

  /** START of anything but a transaction is not refused. */
  lemma StartOtherPasses(k: string, w: string, t: string)
    requires Spells(k, "START") && w != [] && (forall i :: 0 <= i < |w| ==> IsAlpha(w[i])) && (t == [] || EndsWord(t[0]))
    requires ToUpper(w) != "TRANSACTION"
    ensures !StatementDefeatsReadOnly(k + " " + (w + t))
  {
    hide TakeWord, ToUpper, Scanner.StripNoise, MentionsReadWrite;
    SpelledChars(k, "START");
    var rest := " " + (w + t);
    assert k + " " + (w + t) == k + rest && (k + rest)[0] == k[0];
    Scanner.StripNoiseFixed(k + rest);
    TakeWordAt(k, rest);
    TakeWordAt(w, t);
  }

  /** An assignment to any other parameter is not refused, whatever its value says. */
  lemma OtherAssignmentPasses(k: string, name: string, to: string, v: string)
    requires Spells(k, "SET") && IsPlainName(name) && !IsSetting(name) && Spells(to, "TO") && Ends(v) && !HasPlaceholder(v)
    ensures !StatementDefeatsReadOnly(k + " " + name + " = " + v)
    ensures !StatementDefeatsReadOnly(k + " " + name + " " + to + " " + v)
  {
    hide ClassifySet, TakeWord, Scanner.StripNoise, Normalized, Trim, ToUpper, ToLower, HasPlaceholder, IsParameterName, READ_ONLY_GUC,
      MentionsReadWrite, Ends;
    NameEnds(name);
    SetEquals(k, name, v);
    SetTo(k, name, to, v);
    AssignmentEnds(name, v);
    TailEnds(to, v);
    AssignmentEnds(name, to + " " + v);
    SaidAs(k, name + " = " + v, k + " " + name + " = " + v);
    SaidAs(k, name + (" " + (to + " " + v)), k + " " + name + " " + to + " " + v);
    assert ToLower(name) != READ_ONLY_GUC by { SettingIs(name); }
  }

  lemma SettingIs(name: string)
    ensures IsSetting(name) <==> ToLower(name) == READ_ONLY_GUC
  {}

  lemma NameEnds(name: string)
    requires IsPlainName(name)
    ensures Ends(name)
  {
    NameChars(name);
  }

  /** So is a RESET of any other parameter, and of what is named by several words. */
  lemma OtherResetPasses(k: string, name: string, t: string)
    requires Spells(k, "RESET") && Tail(t) && IsParameterName(name)
    requires (IsPlainReset(name) && !IsSetting(name)) || Spells(name, "ROLE") || Spells(name, "SESSION")
    ensures !StatementDefeatsReadOnly(k + " " + (name + t))
  {
    hide ClassifySet, TakeWord, Scanner.StripNoise, Normalized, Trim, ToUpper, ToLower, READ_ONLY_GUC, MentionsReadWrite, Ends, Tail,
      IsParameterName;
    NamesEnd(name);
    TailKeepsEnd(name, t);
    Said(k, "RESET", name + t);
    ResetRole(k, name, t);
    SettingIs(name);
    OtherNames();
    if IsPlainReset(name) { ResetNamed(k, name, t); }
  }

  lemma NamesEnd(name: string)
    requires IsParameterName(name)
    ensures Ends(name) && forall i :: 0 <= i < |name| ==> !EndsWord(name[i])
  {
    NameChars(name);
  }

  lemma OtherNames()
    ensures READ_ONLY_GUC != "role" && READ_ONLY_GUC != "session_authorization"
  {
    assert |READ_ONLY_GUC| == 29;
  }
}
