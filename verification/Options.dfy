/** The startup packet's `options` field (params.rs): a command line of settings, with blanks
    escaped by a backslash. */
module Options {
  import opened Text

  /** The words of the line, the first one continuing `current`. */
  function SplitFrom(options: string, current: string): seq<string>
    decreases |options|
  {
    if options == [] then Flushed(current)
    else if options[0] == '\\' then
      if |options| == 1 then Flushed(current) else SplitFrom(options[2..], current + [options[1]])
    else if IsSpace(options[0]) then Flushed(current) + SplitFrom(options[1..], [])
    else SplitFrom(options[1..], current + [options[0]])
  }

  function Flushed(current: string): seq<string> { if current == [] then [] else [current] }

  /** `split_once('=')`, trimmed; nothing without an `=`. */
  function Assigned(assignment: string): seq<(string, string)> {
    match Find(assignment, "=")
    case None => []
    case Some(k) => [(Trim(assignment[..k]), Trim(assignment[k + 1..]))]
  }

  function Assignments(words: seq<string>): seq<(string, string)>
    decreases |words|
  {
    if words == [] then []
    else if words[0] == "-c" then
      if |words| == 1 then [] else Assigned(words[1]) + Assignments(words[2..])
    else if "-c" <= words[0] || "--" <= words[0] then Assigned(words[0][2..]) + Assignments(words[1..])
    else Assignments(words[1..])
  }

  function ParseOptions(options: string): seq<(string, string)> { Assignments(SplitFrom(options, "")) }

  method SplitOptions(options: string) returns (out: seq<string>)
    ensures out == SplitFrom(options, "")
  {
    hide IsSpace;
    out := [];
    var current, i := "", 0;
    assert options[0..] == options;
    while i < |options|
      invariant i <= |options|
      invariant out + SplitFrom(options[i..], current) == SplitFrom(options, "")
    {
      var rest, c := options[i..], options[i];
      i := i + 1;
      if c == '\\' {
        if i < |options| {
          assert rest[2..] == options[i + 1..];
          current := current + [options[i]];
          i := i + 1;
        } else {
          assert options[i..] == [];
        }
      } else if IsSpace(c) {
        assert rest[1..] == options[i..];
        if current != [] {
          out := out + [current];
          current := "";
        }
      } else {
        assert rest[1..] == options[i..];
        current := current + [c];
      }
    }
    if current != [] { out := out + [current]; }
  }

  method UnpackOptions(options: string) returns (out: seq<(string, string)>)
    ensures out == ParseOptions(options)
  {
    hide Assigned;
    out := [];
    var words := SplitOptions(options);
    var i := 0;
    assert words[0..] == words;
    while i < |words|
      invariant i <= |words|
      invariant out + Assignments(words[i..]) == ParseOptions(options)
    {
      var rest, word := words[i..], words[i];
      i := i + 1;
      assert rest[1..] == words[i..];
      var assignment;
      if word == "-c" {
        if i == |words| { return; }
        assignment := words[i];
        i := i + 1;
        assert rest[2..] == words[i..];
      } else if "-c" <= word || "--" <= word {
        assignment := word[2..];
      } else {
        continue;
      }
      out := out + Assigned(assignment);
    }
  }

  // ---------- writing a line and reading it back ----------

  /** The three ways to spell a setting. */
  datatype Spelling = Separate | Joined | Long

  datatype Setting = Setting(spelling: Spelling, key: string, value: string)

  function Escaped(s: string): string {
    if s == [] then [] else (if s[0] == '\\' || IsSpace(s[0]) then ['\\', s[0]] else [s[0]]) + Escaped(s[1..])
  }

  function Assignment(s: Setting): (r: string)
    ensures r != []
  {
    s.key + "=" + s.value
  }

  function Written(s: Setting): string {
    (match s.spelling case Separate => "-c " case Joined => "-c" case Long => "--") + Escaped(Assignment(s))
  }

  function Line(settings: seq<Setting>): string { Join(Map(Written, settings), " ") }

  function WordsOf(s: Setting): seq<string> {
    match s.spelling
    case Separate => ["-c", Assignment(s)]
    case Joined => ["-c" + Assignment(s)]
    case Long => ["--" + Assignment(s)]
  }

  function AllWords(settings: seq<Setting>): seq<string> {
    if settings == [] then [] else WordsOf(settings[0]) + AllWords(settings[1..])
  }

  lemma {:induction false} EscapedIsOneWord(s: string, rest: string, current: string)
    ensures SplitFrom(Escaped(s) + rest, current) == SplitFrom(rest, current + s)
    decreases |s|
  {
    hide IsSpace;
    var line := Escaped(s) + rest;
    if s == [] {
      assert line == rest && current + s == current;
    } else {
      var more := Escaped(s[1..]) + rest;
      EscapedIsOneWord(s[1..], rest, current + [s[0]]);
      assert current + [s[0]] + s[1..] == current + s;
      if s[0] == '\\' || IsSpace(s[0]) {
        assert line == ['\\', s[0]] + more;
        assert line[2..] == more;
      } else {
        assert line == [s[0]] + more;
        assert line[1..] == more;
      }
    }
  }

  lemma SplitBlank(rest: string, current: string)
    ensures SplitFrom(" " + rest, current) == Flushed(current) + SplitFrom(rest, [])
  {
    assert (" " + rest)[1..] == rest;
  }

  lemma SplitSwitch(a: char, b: char, rest: string)
    requires !IsSpace(a) && a != '\\' && !IsSpace(b) && b != '\\'
    ensures SplitFrom([a, b] + rest, "") == SplitFrom(rest, [a, b])
  {
    var line := [a, b] + rest;
    assert line[1..] == [b] + rest && line[1..][1..] == rest;
    assert [] + [a] == [a] && [a] + [b] == [a, b];
  }

  lemma WrittenSplits(s: Setting, rest: string)
    requires rest == [] || rest[0] == ' '
    ensures SplitFrom(Written(s) + rest, "") == WordsOf(s) + SplitFrom(if rest == [] then [] else rest[1..], "")
  {
    hide SplitFrom, Escaped;
    var text := Assignment(s);
    var tail := Escaped(text) + rest;
    var current := match s.spelling case Separate => text case Joined => "-c" + text case Long => "--" + text;
    match s.spelling {
      case Separate =>
        assert Written(s) + rest == ['-', 'c'] + (" " + tail);
        SplitSwitch('-', 'c', " " + tail);
        SplitBlank(tail, "-c");
        EscapedIsOneWord(text, rest, "");
        assert "" + text == text;
      case Joined =>
        assert Written(s) + rest == ['-', 'c'] + tail;
        SplitSwitch('-', 'c', tail);
        EscapedIsOneWord(text, rest, "-c");
      case Long =>
        assert Written(s) + rest == ['-', '-'] + tail;
        SplitSwitch('-', '-', tail);
        EscapedIsOneWord(text, rest, "--");
    }
    SplitEnd(current, rest);
  }

  lemma SplitEnd(current: string, rest: string)
    requires current != [] && (rest == [] || rest[0] == ' ')
    ensures SplitFrom(rest, current) == [current] + SplitFrom(if rest == [] then [] else rest[1..], "")
  {}

  lemma {:induction false} LineSplits(settings: seq<Setting>)
    ensures SplitFrom(Line(settings), "") == AllWords(settings)
  {
    hide SplitFrom, Written, WordsOf;
    if settings == [] {
      assert SplitFrom("", "") == [] by { SplitEmpty(); }
    } else {
      var rest := Line(settings[1..]);
      assert Map(Written, settings)[1..] == Map(Written, settings[1..]);
      LineSplits(settings[1..]);
      if |settings| == 1 {
        WrittenSplits(settings[0], "");
        assert Written(settings[0]) + "" == Line(settings);
        SplitEmpty();
      } else {
        WrittenSplits(settings[0], " " + rest);
        assert Line(settings) == Written(settings[0]) + (" " + rest);
        assert (" " + rest)[1..] == rest;
      }
    }
  }

  lemma SplitEmpty()
    ensures SplitFrom("", "") == []
  {}

  function Read(s: Setting): (string, string) {
    var text := Assignment(s);
    match Find(text, "=")
    case None => ("", "")
    case Some(k) => (Trim(text[..k]), Trim(text[k + 1..]))
  }

  lemma {:induction false} FindsEquals(key: string, value: string)
    ensures var r := Find(key + "=" + value, "=");
            r.Some? && r.value <= |key| && (r.value == |key| <==> '=' !in key)
  {
    var text := key + "=" + value;
    if key == [] {
      assert text[0] == '=';
    } else {
      assert text[1..] == key[1..] + "=" + value;
      assert key == [key[0]] + key[1..];
      assert '=' in key <==> key[0] == '=' || '=' in key[1..];
      assert text[0] == key[0] && text[..1] == [key[0]];
      FindsEquals(key[1..], value);
    }
  }

  lemma AssignedOne(s: Setting)
    ensures Assigned(Assignment(s)) == [Read(s)]
  {
    hide Find;
    FindsEquals(s.key, s.value);
  }

  lemma {:induction false} WordsAssign(settings: seq<Setting>)
    ensures Assignments(AllWords(settings)) == Map(Read, settings)
  {
    hide Assigned, Read;
    if settings != [] {
      var s, rest := settings[0], AllWords(settings[1..]);
      WordsAssign(settings[1..]);
      AssignedOne(s);
      assert Map(Read, settings) == [Read(s)] + Map(Read, settings[1..]);
      var words := AllWords(settings);
      if s.spelling.Separate? {
        assert words[2..] == rest;
      } else {
        assert words[1..] == rest && words[0][2..] == Assignment(s) && words[0] != "-c";
      }
    }
  }

  predicate Trimmed(s: Setting) { '=' !in s.key && Trim(s.key) == s.key && Trim(s.value) == s.value }

  lemma TrimShrinks(s: string)
    ensures |Trim(s)| <= |s|
  {}

  lemma ReadBack(s: Setting)
    ensures Read(s) == (s.key, s.value) <==> Trimmed(s)
  {
    hide Find, Trim;
    var text := Assignment(s);
    FindsEquals(s.key, s.value);
    var k := Find(text, "=").value;
    TrimShrinks(text[..k]);
    if k == |s.key| { assert text[..k] == s.key && text[k + 1..] == s.value; }
  }

  function Pair(s: Setting): (string, string) { (s.key, s.value) }

  /** A line of settings, in any mix of the three spellings and with any character escaped
      that needs it, unpacks to exactly those settings if and only if no key holds an `=` and
      no key or value has blanks around it. */
  lemma OptionsRoundTrip(settings: seq<Setting>)
    ensures ParseOptions(Line(settings)) == Map(Pair, settings) <==>
            forall i :: 0 <= i < |settings| ==> Trimmed(settings[i])
  {
    hide SplitFrom, Assignments, Line, AllWords, Trimmed, Read;
    LineSplits(settings);
    WordsAssign(settings);
    forall i | 0 <= i < |settings| ensures Read(settings[i]) == Pair(settings[i]) <==> Trimmed(settings[i]) {
      ReadBack(settings[i]);
    }
    if Map(Read, settings) == Map(Pair, settings) {
      forall i | 0 <= i < |settings| ensures Trimmed(settings[i]) {
        assert Map(Read, settings)[i] == Map(Pair, settings)[i];
      }
    }
  }
}
