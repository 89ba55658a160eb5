/** The statements havuz writes itself (params.rs): the SET of a startup parameter, the RESET
    of a foreign one, and the batch that carries a client's parameters onto a backend, each
    read back by the same scanner and classifier that read a client's own text. */
module Delta {
  import opened Text
  import opened Scanner
  import opened Params

  type Settings = map<string, string>

  // ---------- names ----------

  predicate NameChar(c: char) { IsAlnum(c) || c == '_' || c == '$' || c == '.' }

  lemma NameChars(name: string)
    requires IsParameterName(name)
    ensures name != [] && (IsAlpha(name[0]) || name[0] == '_')
    ensures forall i :: 0 <= i < |name| ==> NameChar(name[i])
  {
    var parts := DotParts(name);
    assert IsIdentifier(parts[0]);
    match Find(name, ".") {
      case None => assert parts == [name];
      case Some(k) =>
        var rest := name[k + 1..];
        assert parts == [name[..k]] + DotParts(rest);
        assert DotParts(rest) == [rest] && IsIdentifier(parts[1]);
        assert name == name[..k] + "." + rest;
    }
  }

  lemma {:induction false} FindDotLower(s: string)
    ensures Find(ToLower(s), ".") == Find(s, ".")
  {
    if s != [] {
      assert ToLower(s)[1..] == ToLower(s[1..]);
      FindDotLower(s[1..]);
    }
  }

  lemma {:induction false} DotPartsLower(s: string)
    ensures DotParts(ToLower(s)) == Map(ToLower, DotParts(s))
    decreases |s|
  {
    hide Find, ToLower;
    FindDotLower(s);
    match Find(s, ".") {
      case None =>
        assert Map(ToLower, [s]) == [ToLower(s)];
      case Some(k) =>
        DotPartsLower(s[k + 1..]);
        assert ToLower(s)[..k] == ToLower(s[..k]) && ToLower(s)[k + 1..] == ToLower(s[k + 1..]);
        assert Map(ToLower, [s[..k]] + DotParts(s[k + 1..]))
            == [ToLower(s[..k])] + Map(ToLower, DotParts(s[k + 1..]));
    }
  }

  /** Lower-casing a parameter name gives a parameter name. */
  lemma LowerIsName(name: string)
    requires IsParameterName(name)
    ensures IsParameterName(ToLower(name))
  {
    DotPartsLower(name);
    var parts, lower := DotParts(name), DotParts(ToLower(name));
    forall i | 0 <= i < |lower| ensures IsIdentifier(lower[i]) {
      assert IsIdentifier(parts[i]) && lower[i] == ToLower(parts[i]);
    }
  }

  lemma LowerTwice(s: string)
    ensures ToLower(ToLower(s)) == ToLower(s)
  {}

  lemma {:induction false} WordEndAt(u: string, r: string)
    requires forall i :: 0 <= i < |u| ==> !EndsWord(u[i])
    requires r == [] || EndsWord(r[0])
    ensures WordEnd(u + r) == |u|
  {
    if u == [] {
      assert u + r == r;
    } else {
      assert (u + r)[1..] == u[1..] + r;
      WordEndAt(u[1..], r);
    }
  }

  /** A word of ordinary characters is taken whole, after any blank. */
  lemma TakeWordAt(u: string, r: string)
    requires u != [] && forall i :: 0 <= i < |u| ==> !EndsWord(u[i])
    requires r == [] || EndsWord(r[0])
    ensures TakeWord(u + r) == (u, r)
    ensures TakeWord(" " + (u + r)) == (u, r)
  {
    WordEndAt(u, r);
    assert (u + r)[0] == u[0];
    assert TrimStart(u + r) == u + r;
    assert (" " + (u + r))[1..] == u + r;
  }

  // ---------- RESET name ----------

  function ResetText(name: string): string { "RESET " + name }

  lemma NormalizedFixed(s: string)
    requires s != [] && NoiseFree(s) && !IsSpace(s[|s| - 1]) && s[|s| - 1] != ';'
    ensures Normalized(s) == s
  {
    hide StripNoise, TrimEnd;
    StripNoiseFixed(s);
  }

  lemma NormalizedAfterBlank(s: string)
    ensures Normalized(" " + s) == Normalized(s) && ClassifySet(" " + s) == ClassifySet(s)
  {
    hide StripNoise, TrimEnd, StripSemi, TrimStart, ClassifyNormalized;
    StripNoiseStep(" " + s);
    StripNoiseStep(s);
    TrimStartAfterBlank(s);
  }

  lemma TrimStartAfterBlank(s: string)
    ensures TrimStart(" " + s) == TrimStart(s)
  {
    assert (" " + s)[1..] == s;
  }

  predicate IsResetWord(name: string) { name == "all" || name == "session" || name == "time" }

  /** `RESET name`, as the delta writes it, is read back as resetting that very name, except
      for the three words that RESET gives a meaning of their own. */
  lemma ResetReadsBack(name: string)
    requires IsParameterName(name) && ToLower(name) == name
    ensures ClassifySet(ResetText(name)) == Reset(name) <==> !IsResetWord(name)
  {
    hide StripNoise, TakeWord, IsParameterName, DotParts, Normalized;
    NameChars(name);
    var s := ResetText(name);
    NormalizedFixed(s);
    assert s == "RESET" + (" " + name);
    TakeWordAt("RESET", " " + name);
    assert " " + name == " " + (name + "");
    TakeWordAt(name, "");
    TakeWordEmpty();
    assert ToUpper("RESET") == "RESET";
    UpperOfLower(name);
    assert ClassifySet(s) == ClassifyResetBody(" " + name);
  }

  lemma UpperOfLower(name: string)
    requires ToLower(name) == name
    ensures ToUpper(name) == "ALL" <==> name == "all"
    ensures ToUpper(name) == "ROLE" <==> name == "role"
    ensures ToUpper(name) == "SESSION" <==> name == "session"
    ensures ToUpper(name) == "TIME" <==> name == "time"
  {
    UpperIs(name, "ALL", "all");
    UpperIs(name, "ROLE", "role");
    UpperIs(name, "SESSION", "session");
    UpperIs(name, "TIME", "time");
  }

  lemma LowerUpper(name: string)
    requires ToLower(name) == name
    ensures ToLower(ToUpper(name)) == name
  {
    forall i | 0 <= i < |name| ensures ToLower(ToUpper(name))[i] == name[i] {
      assert ToLower(name)[i] == Lower(name[i]);
    }
  }

  // ---------- SET name = 'value' ----------

  /** Doubles every single quote. */
  function Escaped(value: string): string {
    if value == [] then [] else (if value[0] == '\'' then "''" else [value[0]]) + Escaped(value[1..])
  }

  function Quoted(value: string): string { "'" + Escaped(value) + "'" }

  /** The statement a startup parameter becomes. */
  function SeedText(name: string, value: string): string { "SET " + name + " = " + Quoted(value) }

  predicate IsSetWord(name: string) {
    name in {"local", "transaction", "role", "constraints", "session", "names", "schema"}
  }

  lemma UpperIs(name: string, upper: string, lower: string)
    requires ToLower(name) == name && ToLower(upper) == lower && ToUpper(lower) == upper
    ensures ToUpper(name) == upper <==> name == lower
  {
    hide ToLower, ToUpper;
    LowerUpper(name);
  }

  lemma SetWordUpper(name: string)
    requires ToLower(name) == name
    ensures ToUpper(name) in {"LOCAL", "TRANSACTION", "ROLE", "CONSTRAINTS", "SESSION", "NAMES", "SCHEMA"}
            <==> IsSetWord(name)
  {
    hide ToLower, ToUpper;
    SetWordPairs();
    UpperIs(name, "LOCAL", "local");
    UpperIs(name, "TRANSACTION", "transaction");
    UpperIs(name, "ROLE", "role");
    UpperIs(name, "CONSTRAINTS", "constraints");
    UpperIs(name, "SESSION", "session");
    UpperIs(name, "NAMES", "names");
    UpperIs(name, "SCHEMA", "schema");
  }

  predicate IsPair(upper: string, lower: string) { ToLower(upper) == lower && ToUpper(lower) == upper }

  lemma SetWordPairs()
    ensures IsPair("LOCAL", "local") && IsPair("TRANSACTION", "transaction") && IsPair("ROLE", "role")
    ensures IsPair("CONSTRAINTS", "constraints") && IsPair("SESSION", "session")
    ensures IsPair("NAMES", "names") && IsPair("SCHEMA", "schema")
  {
    hide IsPair;
    ShortPairs();
    LongPairs();
  }

  lemma ShortPairs()
    ensures IsPair("LOCAL", "local") && IsPair("ROLE", "role") && IsPair("SESSION", "session")
    ensures IsPair("NAMES", "names") && IsPair("SCHEMA", "schema")
  {}

  lemma LongPairs()
    ensures IsPair("TRANSACTION", "transaction") && IsPair("CONSTRAINTS", "constraints")
  {}

  lemma AssignedQuoted(quoted: string)
    requires |quoted| >= 2 && quoted[0] == '\'' && quoted[|quoted| - 1] == '\''
    ensures AssignedValue(" = " + quoted) == Some(quoted)
    ensures TakeWord(" = " + quoted).0 == ""
    ensures ToUpper(quoted) != "DEFAULT"
  {
    hide TakeWord, TrimEnd;
    assert " = " + quoted == " " + ("= " + quoted);
    TrimStartAfterBlank("= " + quoted);
    assert ("= " + quoted)[1..] == " " + quoted;
    TrimStartAfterBlank(quoted);
    assert ToUpper(quoted)[0] == '\'';
    TakeWordAtEquals(" = " + quoted);
  }

  lemma TakeWordAtEquals(s: string)
    requires |s| > 1 && s[0] == ' ' && s[1] == '='
    ensures TakeWord(s).0 == ""
  {
    assert s == " " + s[1..];
    TrimStartAfterBlank(s[1..]);
  }

  /** `SET name = quoted`, taken apart. */
  lemma AssignmentParts(name: string, quoted: string)
    requires IsParameterName(name)
    requires |quoted| >= 2 && quoted[0] == '\'' && quoted[|quoted| - 1] == '\''
    ensures var s, after := "SET " + name + " = " + quoted, " = " + quoted;
            && Normalized(s) == s && Trim(s) == s
            && TakeWord(s) == ("SET", " " + (name + after))
            && TakeWord(" " + (name + after)) == (name, after)
  {
    hide StripNoise, TakeWord, IsParameterName, Normalized, TrimEnd;
    NameChars(name);
    var s, after := "SET " + name + " = " + quoted, " = " + quoted;
    assert s[|s| - 1] == '\'' && s[0] == 'S';
    NormalizedFixed(s);
    assert s == "SET" + (" " + (name + after));
    TakeWordAt("SET", " " + (name + after));
    TakeWordAt(name, after);
    assert TrimStart(s) == s;
  }

  /** A name that is no keyword of SET, assigned a quoted value, is classified by the value. */
  lemma ClassifyQuotedAssignment(name: string, quoted: string)
    requires IsParameterName(name) && ToLower(name) == name
    requires |quoted| >= 2 && quoted[0] == '\'' && quoted[|quoted| - 1] == '\''
    ensures var s := "SET " + name + " = " + quoted;
            ClassifySet(s) == Track(name, s) <==> !IsSetWord(name) && !HasPlaceholder(quoted)
  {
    hide TakeWord, IsParameterName, Normalized, HasPlaceholder, AssignedValue, ClassifySetBody, ClassifyResetBody, IsSetWord, Trim,
      ToUpper, ToLower;
    var s, after := "SET " + name + " = " + quoted, " = " + quoted;
    AssignmentParts(name, quoted);
    assert ToUpper("SET") == "SET" by { SetUpper(); }
    AssignedQuoted(quoted);
    NameChars(name);
    assert ClassifySet(s) == ClassifySetBody(s, " " + (name + after));
    SetBodyOf(s, " " + (name + after), name, after);
  }

  lemma SetUpper()
    ensures ToUpper("SET") == "SET"
  {}

  lemma SetBodyOf(s: string, rest: string, name: string, after: string)
    requires TakeWord(rest) == (name, after) && TakeWord(after).0 == "" && name != ""
    requires IsParameterName(name) && ToLower(name) == name
    ensures IsSetWord(name) ==> forall st :: ClassifySetBody(s, rest) != Track(name, st)
    ensures !IsSetWord(name) ==> ClassifySetBody(s, rest) == ClassifyAssignment(s, name, after)
  {
    hide TakeWord, IsParameterName, ClassifyAssignment;
    SetWordUpper(name);
    assert ToUpper("") == "";
    LowerUpper(name);
    assert ToLower("NAMES") == "names" && ToLower("SCHEMA") == "schema";
    if ToUpper(name) == "SESSION" {
      SetBodyNameless(s, after);
    }
  }

  lemma SetBodyNameless(s: string, after: string)
    requires TakeWord(after).0 == ""
    ensures ClassifySetBody(s, after).Pin?
  {
    hide TakeWord, AssignedValue, HasPlaceholder;
    assert ToUpper("") == "";
    assert DotParts("") == [""] && !IsIdentifier(DotParts("")[0]);
  }

  /** What `seed` writes for a startup parameter is read back as tracking that same name and
      text, unless the name is a keyword of SET or the quoted value shows a placeholder. */
  lemma SeedReadsBack(name: string, value: string)
    requires IsParameterName(name) && ToLower(name) == name
    ensures ClassifySet(SeedText(name, value)) == Track(name, SeedText(name, value)) <==>
            !IsSetWord(name) && !HasPlaceholder(Quoted(value))
  {
    ClassifyQuotedAssignment(name, Quoted(value));
  }

  lemma {:induction false} EscapedEnds(value: string)
    requires '\\' !in value
    ensures QuoteEnd(Escaped(value) + "'", '\'') == Some(|Escaped(value)| + 1)
  {
    var s := Escaped(value) + "'";
    if value != [] {
      EscapedEnds(value[1..]);
      QuoteEndStep(s, '\'');
      if value[0] == '\'' {
        assert s == "''" + (Escaped(value[1..]) + "'");
        assert s[2..] == Escaped(value[1..]) + "'";
      } else {
        assert s[1..] == Escaped(value[1..]) + "'";
      }
    }
  }

  /** Without a backslash a quoted value is one literal, whatever else it holds. */
  lemma QuotedIsLiteral(value: string)
    requires '\\' !in value
    ensures Scan(Quoted(value)) == Some(|Quoted(value)|) && !HasPlaceholder(Quoted(value))
  {
    hide QuoteEnd, Escaped;
    var q := Quoted(value);
    EscapedEnds(value);
    assert q[1..] == Escaped(value) + "'";
    assert Scan(q) == Some(|q|);
    StripStep(q);
    assert q[|q|..] == "";
    StripStep("");
    assert Strip(q) == " ";
  }
}
