/** The parameters one client carries (`ClientParams` in params.rs): the fields the relay
    updates in place, against the functions the run model is built from. */
module ClientSettings {
  import opened Text
  import opened Params
  import opened Delta
  import opened Sync
  import opened Options

  const NOT_A_PARAMETER := ["USER", "DATABASE", "REPLICATION", "OPTIONS", "CLIENT_ENCODING"]

  /** The settings after one assignment; a name havuz would have to quote is dropped. */
  function SeedOne(m: Settings, key: string, value: string): Settings {
    if !IsParameterName(key) then m else m[ToLower(key) := SeedText(ToLower(key), value)]
  }

  function SeedEach(m: Settings, pairs: seq<(string, string)>): Settings
    decreases |pairs|
  {
    if pairs == [] then m else SeedEach(SeedOne(m, pairs[0].0, pairs[0].1), pairs[1..])
  }

  /** The settings after one startup parameter. */
  function Seeded(m: Settings, key: string, value: string): Settings {
    if ToUpper(key) == "OPTIONS" then SeedEach(m, ParseOptions(value))
    else if ToUpper(key) in NOT_A_PARAMETER then m
    else SeedOne(m, key, value)
  }

  function SeededAll(m: Settings, params: seq<(string, string)>): Settings
    decreases |params|
  {
    if params == [] then m else SeededAll(Seeded(m, params[0].0, params[0].1), params[1..])
  }

  lemma {:induction false} UpperOfLowered(key: string, lower: string, upper: string)
    requires IsPair(upper, lower)
    ensures ToLower(key) == lower <==> ToUpper(key) == upper
  {
    if ToLower(key) == lower {
      assert |ToUpper(key)| == |upper|;
      forall i | 0 <= i < |key| ensures ToUpper(key)[i] == upper[i] { assert lower[i] == Lower(key[i]) && upper[i] == Upper(lower[i]); }
    }
    if ToUpper(key) == upper {
      assert |ToLower(key)| == |lower|;
      forall i | 0 <= i < |key| ensures ToLower(key)[i] == lower[i] { assert upper[i] == Upper(key[i]) && lower[i] == Lower(upper[i]); }
    }
  }

  lemma ShortWords()
    ensures IsPair("OPTIONS", "options") && IsPair("USER", "user") && IsPair("DATABASE", "database")
  {}

  lemma LongWords()
    ensures IsPair("REPLICATION", "replication") && IsPair("CLIENT_ENCODING", "client_encoding")
  {}

  lemma ConnectionWords(key: string)
    ensures ToLower(key) == "options" <==> ToUpper(key) == "OPTIONS"
    ensures ToLower(key) == "user" <==> ToUpper(key) == "USER"
    ensures ToLower(key) == "database" <==> ToUpper(key) == "DATABASE"
    ensures ToLower(key) == "replication" <==> ToUpper(key) == "REPLICATION"
    ensures ToLower(key) == "client_encoding" <==> ToUpper(key) == "CLIENT_ENCODING"
  {
    hide ToLower, ToUpper, IsPair;
    ShortWords();
    LongWords();
    UpperOfLowered(key, "options", "OPTIONS");
    UpperOfLowered(key, "user", "USER");
    UpperOfLowered(key, "database", "DATABASE");
    UpperOfLowered(key, "replication", "REPLICATION");
    UpperOfLowered(key, "client_encoding", "CLIENT_ENCODING");
  }

  /** What a startup parameter seeds, whatever case its key is in: the connection's own keys
      nothing, `options` what is packed into it, and any other parameter name a SET of it, quotes
      doubled. */
  lemma StartupKeySays(m: Settings, key: string, value: string)
    ensures ToLower(key) in {"user", "database", "replication", "client_encoding"} ==> Seeded(m, key, value) == m
    ensures ToLower(key) == "options" ==> Seeded(m, key, value) == SeedEach(m, ParseOptions(value))
    ensures ToLower(key) !in {"user", "database", "replication", "client_encoding", "options"} ==>
              Seeded(m, key, value) ==
              if IsParameterName(key) then m[ToLower(key) := "SET " + ToLower(key) + " = '" + Delta.Escaped(value) + "'"] else m
  {
    hide ToLower, ToUpper, IsParameterName, ParseOptions, SeedEach, Delta.Escaped;
    ConnectionWords(key);
    var words := NOT_A_PARAMETER;
    assert |words| == 5 && words[0] == "USER" && words[1] == "DATABASE" && words[2] == "REPLICATION" && words[3] == "OPTIONS" &&
      words[4] == "CLIENT_ENCODING";
    var lower := ToLower(key);
    assert "SET " + lower + " = " + ("'" + Delta.Escaped(value) + "'") == "SET " + lower + " = '" + Delta.Escaped(value) + "'";
  }

  class ClientParams {
    var desired: Settings
    var pending: seq<SetAction>

    /** The last value of each usable startup key wins. */
    constructor FromStartup(params: seq<(string, string)>)
      ensures desired == SeededAll(map[], params) && pending == []
    {
      desired := map[];
      pending := [];
      new;
      for i := 0 to |params|
        invariant pending == []
        invariant SeededAll(desired, params[i..]) == SeededAll(map[], params)
      {
        assert params[i..][1..] == params[i + 1..];
        var (key, value) := params[i];
        if ToUpper(key) == "OPTIONS" {
          SeedOptions(value);
        } else if ToUpper(key) !in NOT_A_PARAMETER {
          Seed(key, value);
        }
      }
    }

    method Seed(key: string, value: string)
      modifies this`desired
      ensures desired == SeedOne(old(desired), key, value)
    {
      if !IsParameterName(key) { return; }
      var name := ToLower(key);
      desired := desired[name := SeedText(name, value)];
    }

    /** The settings packed into the `options` field, in order. */
    method SeedOptions(options: string)
      modifies this`desired
      ensures desired == SeedEach(old(desired), ParseOptions(options))
    {
      hide ParseOptions;
      var pairs := UnpackOptions(options);
      for i := 0 to |pairs|
        invariant SeedEach(desired, pairs[i..]) == SeedEach(old(desired), pairs)
      {
        assert pairs[i..][1..] == pairs[i + 1..];
        Seed(pairs[i].0, pairs[i].1);
      }
    }

    method EnforceReadOnly()
      modifies this`desired
      ensures desired == old(desired)[READ_ONLY_GUC := READ_ONLY_SET]
    {
      desired := desired[READ_ONLY_GUC := READ_ONLY_SET];
    }

    method Stage(action: SetAction)
      modifies this`pending
      ensures pending == if action.NotASet? then old(pending) else old(pending) + [action]
    {
      if !action.NotASet? {
        pending := pending + [action];
      }
    }

    /** Believes every staged change, in the order it was staged, and forgets the list. */
    method CommitPending()
      modifies this
      ensures desired == CommitAll(old(desired), old(pending)) && pending == []
    {
      for i := 0 to |pending|
        invariant pending == old(pending)
        invariant CommitAll(desired, pending[i..]) == CommitAll(old(desired), old(pending))
      {
        assert pending[i..][1..] == pending[i + 1..];
        match pending[i]
        case Track(name, statement) => desired := desired[name := statement];
        case Reset(name) => desired := desired - {name};
        case ResetAll => desired := map[];
        case Pin =>
        case NotASet =>
      }
      pending := [];
    }

    method DiscardPending()
      modifies this`pending
      ensures pending == []
    {
      pending := [];
    }

    /** The statements that turn a backend holding `applied` into this client's. */
    method Delta(applied: Settings) returns (out: seq<string>)
      ensures out == DeltaOf(desired, applied)
    {
      var resets := Resets(Sorted(applied.Keys));
      var sets := Sets(applied, Sorted(desired.Keys));
      out := resets + sets;
    }

    /** The first loop of `delta`: undo what the last client left. */
    method Resets(names: seq<string>) returns (out: seq<string>)
      ensures out == ResetLines(desired, names)
    {
      out := [];
      for i := 0 to |names|
        invariant out + ResetLines(desired, names[i..]) == ResetLines(desired, names)
      {
        assert names[i..][1..] == names[i + 1..];
        if names[i] !in desired {
          out := out + [ResetText(names[i])];
        }
      }
      assert names[|names|..] == [];
    }

    /** The second loop: set up what this client wants. */
    method Sets(applied: Settings, names: seq<string>) returns (out: seq<string>)
      ensures out == SetLines(desired, applied, names)
    {
      out := [];
      for i := 0 to |names|
        invariant out + SetLines(desired, applied, names[i..]) == SetLines(desired, applied, names)
      {
        assert names[i..][1..] == names[i + 1..];
        if Differs(desired, applied, names[i]) {
          out := out + [desired[names[i]]];
        }
      }
      assert names[|names|..] == [];
    }
  }

  // ---------- what startup leaves behind ----------

  /** The assignments a startup packet makes, `options` unpacked in place. */
  function StartupPairs(params: seq<(string, string)>): seq<(string, string)> {
    if params == [] then []
    else
      var (key, value) := params[0];
      (if ToUpper(key) == "OPTIONS" then ParseOptions(value)
       else if ToUpper(key) in NOT_A_PARAMETER then []
       else [params[0]]) + StartupPairs(params[1..])
  }

  lemma {:induction false} SeedConcat(m: Settings, a: seq<(string, string)>, b: seq<(string, string)>)
    ensures SeedEach(m, a + b) == SeedEach(SeedEach(m, a), b)
    decreases |a|
  {
    hide SeedOne;
    if a == [] {
      assert a + b == b;
    } else {
      assert (a + b)[1..] == a[1..] + b;
      SeedConcat(SeedOne(m, a[0].0, a[0].1), a[1..], b);
    }
  }

  lemma {:induction false} SeededIsPairs(m: Settings, params: seq<(string, string)>)
    ensures SeededAll(m, params) == SeedEach(m, StartupPairs(params))
    decreases |params|
  {
    hide SeedOne, ParseOptions, ToUpper;
    if params != [] {
      var (key, value) := params[0];
      SeededIsPairs(Seeded(m, key, value), params[1..]);
      var first := if ToUpper(key) == "OPTIONS" then ParseOptions(value)
                   else if ToUpper(key) in NOT_A_PARAMETER then []
                   else [params[0]];
      SeedConcat(m, first, StartupPairs(params[1..]));
      assert [params[0]][1..] == [];
    }
  }

  predicate Assigns(pair: (string, string), name: string) { IsParameterName(pair.0) && ToLower(pair.0) == name }

  predicate LastToAssign(pairs: seq<(string, string)>, i: nat, name: string) {
    i < |pairs| && Assigns(pairs[i], name) && forall j :: i < j < |pairs| ==> !Assigns(pairs[j], name)
  }

  lemma {:induction false} SeedEachMeaning(m: Settings, pairs: seq<(string, string)>, name: string)
    ensures var after := SeedEach(m, pairs);
            && (name in after <==> name in m || exists i :: 0 <= i < |pairs| && Assigns(pairs[i], name))
            && (name in after && (forall i :: 0 <= i < |pairs| ==> !Assigns(pairs[i], name)) ==> after[name] == m[name])
            && (forall i: nat :: LastToAssign(pairs, i, name) ==>
                  name in after && after[name] == SeedText(name, pairs[i].1))
    decreases |pairs|
  {
    hide IsParameterName, ToLower, SeedText;
    if pairs != [] {
      var rest := pairs[1..];
      assert forall i :: 0 <= i < |rest| ==> rest[i] == pairs[i + 1];
      assert forall i :: 1 <= i < |pairs| ==> pairs[i] == rest[i - 1];
      assert forall i: nat :: 1 <= i && LastToAssign(pairs, i, name) ==> LastToAssign(rest, i - 1, name);
      SeedEachMeaning(SeedOne(m, pairs[0].0, pairs[0].1), rest, name);
    }
  }

  /** A client starts with exactly the parameters its packet assigns, whether directly or
      through `options`; of several assignments to one name, upper or lower case, the last
      one wins. */
  lemma StartupMeaning(params: seq<(string, string)>, name: string)
    ensures var pairs, desired := StartupPairs(params), SeededAll(map[], params);
            && (name in desired <==> exists i :: 0 <= i < |pairs| && Assigns(pairs[i], name))
            && forall i: nat :: LastToAssign(pairs, i, name) ==>
                 name in desired && desired[name] == SeedText(name, pairs[i].1)
  {
    hide SeededAll, StartupPairs, SeedEach, Assigns, SeedText;
    SeededIsPairs(map[], params);
    SeedEachMeaning(map[], StartupPairs(params), name);
  }

  /** Nothing the scanner would read differently: no `$` or keyword as name, no backslash. */
  predicate Plain(pair: (string, string)) {
    var name := ToLower(pair.0);
    IsParameterName(pair.0) ==>
      '$' !in name && !IsResetWord(name) && !IsSetWord(name) && '\\' !in pair.1
  }

  /** Plain startup parameters can all be replayed on every backend. */
  lemma {:induction false} PlainStartupIsCarried(m: Settings, pairs: seq<(string, string)>)
    requires AllCarried(m) && forall i :: 0 <= i < |pairs| ==> Plain(pairs[i])
    ensures AllCarried(SeedEach(m, pairs))
    decreases |pairs|
  {
    hide Carried, IsParameterName, ToLower, IsResetWord, IsSetWord, SeedText;
    if pairs != [] {
      var (key, value) := pairs[0];
      if IsParameterName(key) {
        LowerIsName(key);
        LowerTwice(key);
        assert Plain(pairs[0]);
        SeedIsCarried(ToLower(key), value);
      }
      PlainStartupIsCarried(SeedOne(m, key, value), pairs[1..]);
    }
  }

  /** Over every sequence of messages that `defeats_read_only` does not refuse, committed or
      discarded in any pattern, a read-only client keeps its setting. */
  lemma {:induction false} ReadOnlySurvives(m: Settings, messages: seq<(string, bool)>)
    requires READ_ONLY_GUC in m && m[READ_ONLY_GUC] == READ_ONLY_SET
    requires forall i :: 0 <= i < |messages| ==> !DefeatsReadOnly(messages[i].0)
    ensures var after := SettledAll(m, messages);
            READ_ONLY_GUC in after && after[READ_ONLY_GUC] == READ_ONLY_SET
    decreases |messages|
  {
    hide DefeatsReadOnly, ActionsForSql, READ_ONLY_GUC, READ_ONLY_SET;
    if messages != [] {
      var (sql, committed) := messages[0];
      if committed {
        ActionsKeepReadOnly(sql);
        CommitKeepsReadOnly(m, ActionsForSql(sql));
      }
      ReadOnlySurvives(Settled(m, sql, committed), messages[1..]);
    }
  }

  /** A message staged and then settled one way or the other. */
  function Settled(m: Settings, sql: string, committed: bool): Settings {
    if committed then CommitAll(m, ActionsForSql(sql)) else m
  }

  function SettledAll(m: Settings, messages: seq<(string, bool)>): Settings
    decreases |messages|
  {
    if messages == [] then m else SettledAll(Settled(m, messages[0].0, messages[0].1), messages[1..])
  }

  lemma ActionsKeepReadOnly(sql: string)
    requires !DefeatsReadOnly(sql)
    ensures forall a :: a in ActionsForSql(sql) ==> KeepsReadOnly(a)
  {
    hide ClassifySet, Scanner.Split, UndoesTheBatch, StatementDefeatsReadOnly, KeepsReadOnly;
    PinKeepsReadOnly();
    var statements := Scanner.Split(sql);
    var classified := Map(ClassifySet, statements);
    forall a | a in classified ensures KeepsReadOnly(a) {
      var i :| 0 <= i < |classified| && a == classified[i];
      UndefeatedKeepsReadOnly(statements[i]);
    }
  }

  lemma PinKeepsReadOnly()
    ensures KeepsReadOnly(Pin)
  {}

  lemma {:induction false} CommitKeepsReadOnly(m: Settings, actions: seq<SetAction>)
    requires READ_ONLY_GUC in m && forall a :: a in actions ==> KeepsReadOnly(a)
    ensures READ_ONLY_GUC in CommitAll(m, actions)
    ensures CommitAll(m, actions)[READ_ONLY_GUC] == m[READ_ONLY_GUC]
    decreases |actions|
  {
    if actions != [] {
      assert KeepsReadOnly(actions[0]);
      CommitKeepsReadOnly(Apply(m, actions[0]), actions[1..]);
    }
  }
}
