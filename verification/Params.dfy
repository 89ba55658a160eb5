/** Session parameters (params.rs): how a SET or RESET is classified, what a client carries,
    and the statements that bring a backend in line with it. */
module Params {
  import opened Text
  import opened Scanner

  datatype SetAction =
    | Track(name: string, statement: string)
    | Reset(name: string)
    | ResetAll
    | Pin
    | NotASet

  // ---------- words and names ----------

  predicate EndsWord(c: char) { IsSpace(c) || c == '=' || c == ',' }

  function WordEnd(s: string): (n: nat)
    ensures n <= |s|
    ensures n < |s| ==> EndsWord(s[n])
    ensures forall i :: 0 <= i < n ==> !EndsWord(s[i])
  {
    if s == [] || EndsWord(s[0]) then 0 else 1 + WordEnd(s[1..])
  }

  /** Splits off the leading word. */
  function TakeWord(input: string): (r: (string, string))
    ensures |r.0| + |r.1| <= |input|
  {
    var trimmed := TrimStart(input);
    var end := WordEnd(trimmed);
    (trimmed[..end], trimmed[end..])
  }

  predicate IsIdentifier(part: string) {
    && part != []
    && (IsAlpha(part[0]) || part[0] == '_')
    && forall i :: 1 <= i < |part| ==> IsAlnum(part[i]) || part[i] == '_' || part[i] == '$'
  }

  function DotParts(s: string): (r: seq<string>)
    ensures r != []
  {
    match Find(s, ".")
    case None => [s]
    case Some(k) => [s[..k]] + DotParts(s[k + 1..])
  }

  /** A name havuz is willing to write into a statement of its own. */
  predicate IsParameterName(name: string) {
    var parts := DotParts(name);
    |parts| <= 2 && forall i :: 0 <= i < |parts| ==> IsIdentifier(parts[i])
  }

  // ---------- classification ----------

  /** A `$1`-style placeholder outside every literal. */
  predicate HasPlaceholder(value: string) {
    var scannable := Strip(value);
    exists i :: 0 <= i < |scannable| - 1 && scannable[i] == '$' && IsDigit(scannable[i + 1])
  }

  function TrackAs(statement: string, name: string): SetAction { Track(ToLower(name), Trim(statement)) }

  /** The value of `= value` or `TO value`. */
  function AssignedValue(after: string): Option<string> {
    var rest := TrimStart(after);
    if rest != [] && rest[0] == '=' then Some(Trim(rest[1..]))
    else
      var (to, value) := TakeWord(rest);
      if ToUpper(to) == "TO" then Some(Trim(value)) else None
  }

  function ClassifyAssignment(statement: string, name: string, after: string): SetAction {
    if !IsParameterName(name) then Pin
    else match AssignedValue(after)
      case None => Pin
      case Some(value) =>
        if value == [] || HasPlaceholder(value) then Pin
        else if ToUpper(value) == "DEFAULT" then Reset(ToLower(name))
        else TrackAs(statement, ToLower(name))
  }

  function ClassifySetBody(statement: string, rest: string): SetAction
    decreases |rest|
  {
    var (first, after) := TakeWord(rest);
    var upper := ToUpper(first);
    var second := ToUpper(TakeWord(after).0);
    if upper == "LOCAL" || upper == "TRANSACTION" then NotASet
    else if upper == "ROLE" || upper == "CONSTRAINTS" then Pin
    else if upper == "SESSION" then
      if second == "AUTHORIZATION" || second == "CHARACTERISTICS" then Pin
      else ClassifySetBody(statement, after)
    else if upper == "TIME" && second == "ZONE" then TrackAs(statement, "timezone")
    else if upper == "NAMES" then TrackAs(statement, "client_encoding")
    else if upper == "SCHEMA" then TrackAs(statement, "search_path")
    else if upper == "XML" && second == "OPTION" then TrackAs(statement, "xmloption")
    else ClassifyAssignment(statement, first, after)
  }

  function ClassifyResetBody(rest: string): SetAction {
    var (first, after) := TakeWord(rest);
    var upper := ToUpper(first);
    if upper == "ALL" then ResetAll
    else if upper == "ROLE" then Reset("role")
    else if upper == "SESSION" then Reset("session_authorization")
    else if upper == "TIME" then
      if ToUpper(TakeWord(after).0) == "ZONE" then Reset("timezone") else Pin
    else if IsParameterName(first) then Reset(ToLower(first))
    else Pin
  }

  function StripSemi(s: string): (r: string)
    ensures r <= s
  {
    if s != [] && s[|s| - 1] == ';' then s[..|s| - 1] else s
  }

  /** The statement without noise, trailing blanks and one trailing `;`. */
  function Normalized(statement: string): string { TrimEnd(StripSemi(TrimEnd(StripNoise(statement)))) }

  function ClassifyNormalized(normalized: string): SetAction {
    var (keyword, rest) := TakeWord(normalized);
    if ToUpper(keyword) == "SET" then ClassifySetBody(normalized, rest)
    else if ToUpper(keyword) == "RESET" then ClassifyResetBody(rest)
    else NotASet
  }

  function ClassifySet(statement: string): SetAction {
    var normalized := Normalized(statement);
    if normalized == [] then NotASet else ClassifyNormalized(normalized)
  }

  /** Does the statement discard work done earlier in its batch? */
  predicate UndoesTheBatch(statement: string) {
    var first := ToUpper(TakeWord(StripNoise(statement)).0);
    first == "ROLLBACK" || first == "ABORT"
  }

  predicate IsAction(a: SetAction) { !a.NotASet? }

  /** Every action carried by one client message. */
  function ActionsForSql(sql: string): seq<SetAction> {
    var statements := Split(sql);
    var actions := Filter(IsAction, Map(ClassifySet, statements));
    if actions == [] then []
    else if exists i :: 0 <= i < |statements| && UndoesTheBatch(statements[i]) then [Pin]
    else actions
  }

  /** A message that both sets and undoes. Nothing of it is staged, and its one action does not
      pin: only single statements do. */
  predicate Dropped(sql: string) {
    var statements := Split(sql);
    && Filter(IsAction, Map(ClassifySet, statements)) != []
    && exists i :: 0 <= i < |statements| && UndoesTheBatch(statements[i])
  }

  /** The part of `statement_pin_reason` that looks at parameters. */
  predicate StatementPins(statement: string) {
    var normalized := StripNoise(statement);
    var words := Words(normalized);
    words != [] && (ToUpper(words[0]) == "SET" || ToUpper(words[0]) == "RESET") && ClassifySet(normalized).Pin?
  }

  /** Some statement of the message pins the session. */
  predicate SqlPins(sql: string) {
    exists i :: 0 <= i < |Split(sql)| && StatementPins(Split(sql)[i])
  }

  // ---------- read-only sessions ----------

  const READ_ONLY_GUC := "default_" + "transaction_" + "read_only"
  const READ_ONLY_SET := "SET " + READ_ONLY_GUC + " = 'on'"

  predicate MentionsReadWrite(statement: string) {
    var words := Words(ToUpper(Strip(statement)));
    exists i :: 0 <= i < |words| - 1 && words[i] == "READ" && words[i + 1] == "WRITE"
  }

  predicate StatementDefeatsReadOnly(statement: string) {
    var normalized := StripNoise(statement);
    var (word, rest) := TakeWord(normalized);
    var keyword := ToUpper(word);
    if keyword == "SET" || keyword == "RESET" then
      match ClassifySet(normalized)
      case Track(name, _) => name == READ_ONLY_GUC
      case Reset(name) => name == READ_ONLY_GUC
      case ResetAll => true
      case _ => MentionsReadWrite(normalized)
    else if keyword == "BEGIN" then MentionsReadWrite(normalized)
    else if keyword == "START" then
      ToUpper(TakeWord(rest).0) == "TRANSACTION" && MentionsReadWrite(normalized)
    else false
  }

  predicate DefeatsReadOnly(sql: string) {
    exists i :: 0 <= i < |Split(sql)| && StatementDefeatsReadOnly(Split(sql)[i])
  }

  /** The action leaves the read-only setting of a carried map alone. */
  predicate KeepsReadOnly(a: SetAction) {
    match a
    case Track(name, _) => name != READ_ONLY_GUC
    case Reset(name) => name != READ_ONLY_GUC
    case ResetAll => false
    case _ => true
  }

  lemma {:induction false} WordEndOfPrefix(s: string, t: string)
    requires s <= t && WordEnd(s) < |s|
    ensures WordEnd(t) == WordEnd(s)
  {
    if s != [] && !EndsWord(s[0]) {
      assert s[1..] <= t[1..];
      WordEndOfPrefix(s[1..], t[1..]);
    }
  }

  /** A SET or RESET whose keyword is all there is changes nothing havuz carries. */
  lemma BareKeywordPins(normalized: string)
    requires TakeWord(normalized).1 == []
    ensures ClassifyNormalized(normalized).Pin? || ClassifyNormalized(normalized).NotASet?
  {
    hide TakeWord, ToUpper, HasPlaceholder;
    TakeWordEmpty();
    assert DotParts("") == [""] && !IsIdentifier(DotParts("")[0]);
  }

  lemma TakeWordEmpty()
    ensures TakeWord("") == ("", "") && ToUpper("") == ""
  {}

  lemma NormalizedIsPrefix(statement: string)
    ensures Normalized(statement) <= StripNoise(statement)
  {
    hide StripNoise, TrimEnd, StripSemi;
  }

  lemma NormalizedTwice(statement: string)
    ensures Normalized(StripNoise(statement)) == Normalized(statement)
  {
    hide StripNoise, TrimEnd, StripSemi;
    StripNoiseIdempotent(statement);
  }

  /** What pins is among the actions of the message. */
  lemma PinsAreActions(sql: string)
    ensures SqlPins(sql) ==> Pin in ActionsForSql(sql)
  {
    hide StripNoise, Split, ClassifySet, ToUpper, Words, UndoesTheBatch;
    if SqlPins(sql) {
      var statements := Split(sql);
      var i :| 0 <= i < |statements| && StatementPins(statements[i]);
      assert ClassifySet(statements[i]) == Pin by { ClassifiedTwice(statements[i]); }
      var classified := Map(ClassifySet, statements);
      assert classified[i] == Pin && Pin in classified;
      assert Pin in Filter(IsAction, classified);
    }
  }

  lemma ClassifiedTwice(statement: string)
    ensures ClassifySet(StripNoise(statement)) == ClassifySet(statement)
  {
    hide StripNoise, Normalized, ClassifyNormalized;
    NormalizedTwice(statement);
  }

  /** `defeats_read_only` and `classify_set` agree: a statement the first lets through is one
      the second reads as leaving the setting alone. */
  lemma UndefeatedKeepsReadOnly(statement: string)
    requires !StatementDefeatsReadOnly(statement)
    ensures KeepsReadOnly(ClassifySet(statement))
  {
    hide StripNoise, Normalized, MentionsReadWrite, ClassifySetBody, ClassifyResetBody, ToUpper, WordEnd, TrimStart;
    var noise := StripNoise(statement);
    var normalized := Normalized(statement);
    NormalizedTwice(statement);
    NormalizedIsPrefix(statement);
    StripNoiseIsNoiseFree(statement);
    if normalized != [] {
      if TakeWord(normalized).1 == [] {
        BareKeywordPins(normalized);
      } else {
        assert TrimStart(normalized) == normalized && TrimStart(noise) == noise;
        WordEndOfPrefix(normalized, noise);
        assert TakeWord(normalized).0 == TakeWord(noise).0;
      }
    }
  }
}
