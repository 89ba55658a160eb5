/** `$1` to `?` (rewrite.rs): a one-token-at-a-time reading of a statement, the translation
    and its index loop, and what the translated statement means to a JDBC driver. */
module Rewrite {
  import opened Text

  // ---------- tokens ----------

  /** Text copied through, or a placeholder `$number`. */
  datatype Token = Copy(text: string) | Param(number: nat, text: string)

  /** `s` follows an opening delimiter: characters up to and including the closing one, where
      a doubled delimiter does not close. */
  function QuotedEnd(s: string, q: char): (r: Option<nat>)
    ensures r.Some? ==> 1 <= r.value <= |s|
    decreases |s|
  {
    if s == [] then None
    else if s[0] != q then Shift(1, QuotedEnd(s[1..], q))
    else if |s| > 1 && s[1] == q then Shift(2, QuotedEnd(s[2..], q))
    else Some(1)
  }

  function LineEnd(s: string): (n: nat)
    ensures n <= |s| && (n < |s| ==> s[n] == '\n')
    ensures forall i :: 0 <= i < n ==> s[i] != '\n'
  {
    if s == [] || s[0] == '\n' then 0 else 1 + LineEnd(s[1..])
  }

  /** Length of a `$tag$` opener; a digit cannot start a tag. */
  function TagLen(s: string): (r: Option<nat>)
    ensures r.Some? ==> 2 <= r.value <= |s|
  {
    if s == [] || s[0] != '$' || (|s| > 1 && IsDigit(s[1])) then None
    else
      var n := 1 + TagRun(s[1..]);
      if n < |s| && s[n] == '$' then Some(n + 1) else None
  }

  function TagEnd(s: string, tag: string): (r: Option<nat>)
    ensures r.Some? ==> |tag| <= r.value <= |s|
  {
    if |s| < |tag| then None
    else if tag <= s then Some(|tag|)
    else if s == [] then None
    else Shift(1, TagEnd(s[1..], tag))
  }

  function DigitRun(s: string): (n: nat)
    ensures n <= |s|
    ensures forall i :: 0 <= i < n ==> IsDigit(s[i])
    ensures n < |s| ==> !IsDigit(s[n])
  {
    if s != [] && IsDigit(s[0]) then 1 + DigitRun(s[1..]) else 0
  }

  /** The value of a digit string. */
  function Number(digits: string): nat
    requires forall i :: 0 <= i < |digits| ==> IsDigit(digits[i])
  {
    if digits == [] then 0
    else 10 * Number(digits[..|digits| - 1]) + Digit(digits[|digits| - 1])
  }

  function Digit(c: char): nat
    requires IsDigit(c)
  {
    c as int - '0' as int
  }

  /** `$n`, when the digits are a u16. */
  function Placeholder(s: string): (r: Option<(nat, nat)>)
    requires s != [] && s[0] == '$'
    ensures r.Some? ==> 2 <= r.value.1 <= |s| && r.value.0 <= 65535
  {
    var n := DigitRun(s[1..]);
    if n == 0 then None
    else
      var number := Number(s[1..][..n]);
      if number <= 65535 then Some((number, n + 1)) else None
  }

  function OrAll(end: Option<nat>, s: string): nat {
    match end
    case Some(n) => n
    case None => |s|
  }

  /** The first token of a statement. */
  function Head(s: string): (t: Token)
    requires s != []
    ensures t.text != [] && t.text <= s
  {
    if s[0] == '\'' || s[0] == '"' then Copy(s[..OrAll(Shift(1, QuotedEnd(s[1..], s[0])), s)])
    else if OpensLine(s) then Copy(s[..2 + LineEnd(s[2..])])
    else if OpensBlock(s) then Copy(s[..OrAll(Shift(2, BlockEnd(s[2..], 1)), s)])
    else if TagLen(s).Some? then
      var n := TagLen(s).value;
      Copy(s[..OrAll(Shift(n, TagEnd(s[n..], s[..n])), s)])
    else if s[0] == '$' && Placeholder(s).Some? then
      var (number, n) := Placeholder(s).value;
      Param(number, s[..n])
    else Copy(s[..1])
  }

  /** The whole statement, token by token. */
  function Lex(s: string): seq<Token>
    decreases |s|
  {
    if s == [] then [] else [Head(s)] + Lex(s[|Head(s).text|..])
  }

  // ---------- the translation ----------

  function Shown(t: Token): string { if t.Param? then "?" else t.text }

  function Out(tokens: seq<Token>): string {
    if tokens == [] then "" else Shown(tokens[0]) + Out(tokens[1..])
  }

  function Source(tokens: seq<Token>): string {
    if tokens == [] then "" else tokens[0].text + Source(tokens[1..])
  }

  /** Which `$n`, counted from zero, each placeholder stands for; `$0` has no entry. */
  function Order(tokens: seq<Token>): seq<nat> {
    if tokens == [] then []
    else (if tokens[0].Param? && tokens[0].number >= 1 then [tokens[0].number - 1] else []) + Order(tokens[1..])
  }

  function Max(a: nat, b: nat): nat { if a < b then b else a }

  function Highest(tokens: seq<Token>): nat {
    if tokens == [] then 0
    else Max(if tokens[0].Param? then tokens[0].number else 0, Highest(tokens[1..]))
  }

  datatype Rewritten = Rewritten(sql: string, highest: nat, order: seq<nat>)

  function ToJdbc(sql: string): Rewritten {
    var tokens := Lex(sql);
    Rewritten(Out(tokens), Highest(tokens), Order(tokens))
  }

  /** The tokens are the statement, cut up. */
  lemma {:induction false} LexIsSource(s: string)
    ensures Source(Lex(s)) == s
    decreases |s|
  {
    hide Head;
    if s != [] {
      LexIsSource(s[|Head(s).text|..]);
    }
  }

  predicate HasParam(tokens: seq<Token>) { exists i :: 0 <= i < |tokens| && tokens[i].Param? }

  lemma {:induction false} OutShrinks(tokens: seq<Token>)
    requires forall i :: 0 <= i < |tokens| && tokens[i].Param? ==> |tokens[i].text| >= 2
    ensures |Out(tokens)| <= |Source(tokens)|
    ensures HasParam(tokens) ==> |Out(tokens)| < |Source(tokens)|
    ensures !HasParam(tokens) ==> Out(tokens) == Source(tokens)
  {
    if tokens != [] {
      OutShrinks(tokens[1..]);
      assert HasParam(tokens) <==> tokens[0].Param? || HasParam(tokens[1..]) by {
        if HasParam(tokens[1..]) {
          var i :| 0 <= i < |tokens[1..]| && tokens[1..][i].Param?;
          assert tokens[i + 1].Param?;
        }
        assert forall i :: 1 <= i < |tokens| ==> tokens[i] == tokens[1..][i - 1];
      }
    }
  }

  lemma {:induction false} ParamsAreLong(s: string)
    ensures forall i :: 0 <= i < |Lex(s)| && Lex(s)[i].Param? ==> |Lex(s)[i].text| >= 2
    decreases |s|
  {
    if s != [] {
      assert Head(s).Param? ==> |Head(s).text| >= 2;
      hide Head;
      ParamsAreLong(s[|Head(s).text|..]);
    }
  }

  /** The output is the input exactly when no placeholder occurs in code. */
  lemma UnchangedIffNoParam(sql: string)
    ensures ToJdbc(sql).sql == sql <==> !HasParam(Lex(sql))
  {
    hide Lex;
    LexIsSource(sql);
    ParamsAreLong(sql);
    OutShrinks(Lex(sql));
  }

  /** `highest` bounds every placeholder and is one of them when there is any. */
  lemma {:induction false} HighestIsLargest(tokens: seq<Token>)
    ensures forall i :: 0 <= i < |tokens| && tokens[i].Param? ==> tokens[i].number <= Highest(tokens)
    ensures Highest(tokens) > 0 ==> Highest(tokens) - 1 in Order(tokens)
    ensures forall k :: k in Order(tokens) ==> k < Highest(tokens)
  {
    if tokens != [] {
      HighestIsLargest(tokens[1..]);
      assert forall i :: 1 <= i < |tokens| ==> tokens[i] == tokens[1..][i - 1];
    }
  }

  // ---------- reading the output again ----------

  /** The token a driver reads where the translation wrote one. */
  function Jdbc(t: Token): Token { if t.Param? then Copy("?") else t }

  function Rest(s: string): string
    requires s != []
  {
    s[|Head(s).text|..]
  }

  lemma OutStep(s: string)
    requires s != []
    ensures Out(Lex(s)) == Shown(Head(s)) + Out(Lex(Rest(s)))
  {
    hide Head;
    assert Lex(s)[1..] == Lex(Rest(s));
  }

  /** The translated text begins as the original does, or with the `?` of a placeholder. */
  lemma OutHead(s: string)
    ensures s == [] <==> Out(Lex(s)) == []
    ensures s != [] ==> Out(Lex(s))[0] == s[0] || (s[0] == '$' && Out(Lex(s))[0] == '?')
  {
    if s != [] {
      OutStep(s);
      HeadParam(s);
    }
  }

  lemma HeadParam(s: string)
    requires s != []
    ensures Head(s).Param? ==> s[0] == '$'
  {}

  lemma TagCharHead(s: string)
    requires s != [] && IsTagChar(s[0])
    ensures Head(s) == Copy([s[0]])
  {}

  lemma OutOfTagChar(s: string)
    requires s != [] && IsTagChar(s[0])
    ensures Out(Lex(s)) == [s[0]] + Out(Lex(s[1..])) && Out(Lex(s))[1..] == Out(Lex(s[1..]))
  {
    hide Head;
    TagCharHead(s);
    OutStep(s);
  }

  /** A run of tag characters is copied, and what ends it in the output is not a `$` unless
      the same `$` ends it in the original. */
  lemma {:induction false} RunSurvives(s: string)
    ensures var o, n := Out(Lex(s)), TagRun(s);
            && n <= |o| && o[..n] == s[..n] && TagRun(o) == n
            && (n < |o| && o[n] == '$' ==> n < |s| && s[n] == '$')
    decreases |s|
  {
    hide Head, Lex, Out;
    OutHead(s);
    if s != [] && IsTagChar(s[0]) {
      OutOfTagChar(s);
      RunSurvives(s[1..]);
      var o, n := Out(Lex(s)), TagRun(s[1..]);
      assert o[..n + 1] == [s[0]] + o[1..][..n];
      assert s[..n + 1] == [s[0]] + s[1..][..n];
    }
  }

  lemma {:induction false} DigitsSurvive(s: string)
    ensures var o, n := Out(Lex(s)), DigitRun(s); DigitRun(o) == n && o[..n] == s[..n]
    decreases |s|
  {
    hide Head, Lex, Out;
    OutHead(s);
    if s != [] && IsDigit(s[0]) {
      OutOfTagChar(s);
      DigitsSurvive(s[1..]);
      var o, n := Out(Lex(s)), DigitRun(s[1..]);
      assert o[..n + 1] == [s[0]] + o[1..][..n];
      assert s[..n + 1] == [s[0]] + s[1..][..n];
    }
  }

  lemma {:induction false} QuotedStable(u: string, r: string, o: string, q: char)
    requires QuotedEnd(u + r, q) == Some(|u|) && (o == [] || o[0] != q)
    ensures QuotedEnd(u + o, q) == Some(|u|)
    decreases |u|
  {
    if u != [] && u[0] != q {
      assert (u + r)[1..] == u[1..] + r && (u + o)[1..] == u[1..] + o;
      QuotedStable(u[1..], r, o, q);
    } else if |u| > 1 && u[1] == q {
      assert (u + r)[2..] == u[2..] + r && (u + o)[2..] == u[2..] + o;
      QuotedStable(u[2..], r, o, q);
    }
  }

  lemma {:induction false} BlockStable(u: string, r: string, o: string, depth: nat)
    requires BlockEnd(u + r, depth) == Some(|u|)
    ensures BlockEnd(u + o, depth) == Some(|u|)
    decreases |u|
  {
    hide BlockEnd;
    BlockEndStep(u + r, depth);
    BlockEndStep(u + o, depth);
    if u == [] {
      assert u + r == r;
      BlockAdvances(r, depth);
    } else if |u| == 1 {
      assert (u + r)[1..] == r;
      BlockAdvances(r, depth);
    } else if depth > 0 {
      assert (u + r)[1..] == u[1..] + r && (u + o)[1..] == u[1..] + o;
      assert (u + r)[2..] == u[2..] + r && (u + o)[2..] == u[2..] + o;
      if OpensBlock(u) {
        BlockStable(u[2..], r, o, depth + 1);
      } else if ClosesBlock(u) {
        BlockStable(u[2..], r, o, depth - 1);
      } else {
        BlockStable(u[1..], r, o, depth);
      }
    }
  }

  lemma BlockAdvances(s: string, depth: nat)
    ensures depth > 0 ==> BlockEnd(s, depth) != Some(0)
  {}

  lemma {:induction false} TagEndStable(u: string, r: string, o: string, tag: string)
    requires tag != [] && TagEnd(u + r, tag) == Some(|u|)
    ensures TagEnd(u + o, tag) == Some(|u|)
  {
    if u != [] {
      assert (u + r)[1..] == u[1..] + r && (u + o)[1..] == u[1..] + o;
      if tag <= u + r {
        assert |tag| == |u|;
        assert (u + r)[..|tag|] == u && (u + o)[..|tag|] == u;
      } else {
        TagEndStable(u[1..], r, o, tag);
        assert |tag| <= |u| ==> (u + o)[..|tag|] == (u + r)[..|tag|];
      }
    }
  }

  lemma {:induction false} LineStable(u: string, o: string)
    requires '\n' !in u && (o == [] || o[0] == '\n')
    ensures LineEnd(u + o) == |u|
  {
    if u == [] {
      assert u + o == o;
    } else {
      assert u[0] in u;
      assert (u + o)[1..] == u[1..] + o;
      LineStable(u[1..], o);
    }
  }

  /** Each kind of token is read again for what it was, whatever the translation of the rest. */
  lemma QuoteAgain(s: string, o: string)
    requires s != [] && (s[0] == '\'' || s[0] == '"')
    requires Rest(s) == [] ==> o == []
    requires Rest(s) != [] ==> o != [] && (o[0] == Rest(s)[0] || o[0] == '?')
    ensures Head(Head(s).text + o) == Head(s)
  {
    var q, text := s[0], Head(s).text;
    assert s == text + Rest(s);
    if QuotedEnd(s[1..], q).Some? {
      var u := text[1..];
      assert s[1..] == u + Rest(s) && (text + o)[1..] == u + o;
      if Rest(s) != [] && Rest(s)[0] == q {
        QuotedNotDoubled(u, Rest(s), q);
      }
      QuotedStable(u, Rest(s), o, q);
      assert (text + o)[..|text|] == text;
    } else {
      assert text == s && text + o == s;
    }
  }

  lemma {:induction false} QuotedNotDoubled(u: string, r: string, q: char)
    requires QuotedEnd(u + r, q) == Some(|u|)
    ensures r == [] || r[0] != q
    decreases |u|
  {
    if u != [] && u[0] != q {
      assert (u + r)[1..] == u[1..] + r;
      QuotedNotDoubled(u[1..], r, q);
    } else if |u| > 1 && u[1] == q {
      assert (u + r)[2..] == u[2..] + r;
      QuotedNotDoubled(u[2..], r, q);
    }
  }

  lemma LineAgain(s: string, o: string)
    requires OpensLine(s)
    requires Rest(s) == [] ==> o == []
    requires Rest(s) != [] ==> o != [] && (o[0] == Rest(s)[0] || (Rest(s)[0] == '$' && o[0] == '?'))
    ensures Head(Head(s).text + o) == Head(s)
  {
    var text := Head(s).text;
    var n := LineEnd(s[2..]);
    var u := s[2..][..n];
    assert text[2..] == u && (text + o)[2..] == u + o;
    assert Rest(s) != [] ==> Rest(s)[0] == s[2..][n];
    LineStable(u, o);
    assert (text + o)[..|text|] == text;
  }

  lemma BlockAgain(s: string, o: string)
    requires OpensBlock(s)
    requires Rest(s) == [] ==> o == []
    ensures Head(Head(s).text + o) == Head(s)
  {
    var text := Head(s).text;
    assert s == text + Rest(s);
    if BlockEnd(s[2..], 1).Some? {
      var u := text[2..];
      assert s[2..] == u + Rest(s) && (text + o)[2..] == u + o;
      BlockStable(u, Rest(s), o, 1);
      assert (text + o)[..|text|] == text;
    } else {
      assert text == s && text + o == s;
    }
  }

  lemma TagLenOfPrefix(text: string, s: string, n: nat)
    requires text <= s && TagLen(s) == Some(n) && n <= |text|
    ensures forall o: string :: TagLen(text + o) == Some(n)
  {
    forall o: string ensures TagLen(text + o) == Some(n) {
      var t := text + o;
      assert t[..n] == s[..n];
      TagRunOfPrefix(t[1..], s[1..], n - 2);
    }
  }

  lemma {:induction false} TagRunOfPrefix(t: string, s: string, n: nat)
    requires n < |t| && n < |s| && t[..n + 1] == s[..n + 1] && TagRun(s) == n
    ensures TagRun(t) == n
  {
    assert t[0] == t[..n + 1][0] && s[0] == s[..n + 1][0];
    if n > 0 {
      assert t[1..][..n] == t[..n + 1][1..] && s[1..][..n] == s[..n + 1][1..];
      TagRunOfPrefix(t[1..], s[1..], n - 1);
    }
  }

  lemma DollarQuoteAgain(s: string, o: string)
    requires s != [] && TagLen(s).Some?
    requires Rest(s) == [] ==> o == []
    ensures Head(Head(s).text + o) == Head(s)
  {
    hide TagEnd, QuotedEnd, BlockEnd, TagRun;
    var text, n := Head(s).text, TagLen(s).value;
    assert s == text + Rest(s);
    if TagEnd(s[n..], s[..n]).Some? {
      var u := text[n..];
      assert s[n..] == u + Rest(s) && (text + o)[n..] == u + o;
      TagEndStable(u, Rest(s), o, s[..n]);
      TagLenOfPrefix(text, s, n);
      assert TagLen(text + o) == Some(n);
      assert (text + o)[..n] == s[..n] && (text + o)[..|text|] == text;
    } else {
      assert text == s && text + o == s;
    }
  }

  /** A `$` that opens nothing still opens nothing. */
  lemma BareDollarAgain(s: string)
    requires s != [] && s[0] == '$' && TagLen(s).None? && Placeholder(s).None?
    ensures Head("$" + Out(Lex(s[1..]))) == Copy("$")
  {
    hide Lex, Out;
    var r := s[1..];
    var o := Out(Lex(r));
    var t := "$" + o;
    assert t[1..] == o;
    RunSurvives(r);
    DigitsSurvive(r);
    OutHead(r);
    assert TagLen(t).None?;
    assert Placeholder(t).None?;
  }

  /** A plain character stays one: no comment can form across a placeholder. */
  lemma PlainAgain(s: string)
    requires s != [] && s[0] != '\'' && s[0] != '"' && s[0] != '$' && !OpensLine(s) && !OpensBlock(s)
    ensures Head([s[0]] + Out(Lex(s[1..]))) == Copy([s[0]])
  {
    hide Lex, Out;
    OutHead(s[1..]);
  }

  lemma QuestionAgain(o: string)
    ensures Head("?" + o) == Copy("?")
  {}

  predicate CopiedKind(s: string)
    requires s != []
  {
    s[0] == '\'' || s[0] == '"' || OpensLine(s) || OpensBlock(s) || TagLen(s).Some?
  }

  lemma HeadKind(s: string)
    requires s != []
    ensures CopiedKind(s) ==> Head(s).Copy?
    ensures !CopiedKind(s) && s[0] == '$' && Placeholder(s).Some? ==> Head(s).Param?
    ensures !CopiedKind(s) && !(s[0] == '$' && Placeholder(s).Some?) ==> Head(s) == Copy([s[0]])
  {
    hide QuotedEnd, BlockEnd, TagLen, TagEnd, LineEnd, Placeholder;
  }

  /** The first token of the output is the translation of the first token of the input. */
  lemma HeadAgain(s: string)
    requires s != []
    ensures Head(Out(Lex(s))) == Jdbc(Head(s))
  {
    hide Lex, Out, Head, TagLen, Placeholder;
    OutStep(s);
    OutHead(Rest(s));
    HeadKind(s);
    var o := Out(Lex(Rest(s)));
    if s[0] == '\'' || s[0] == '"' {
      QuoteAgain(s, o);
    } else if OpensLine(s) {
      LineAgain(s, o);
    } else if OpensBlock(s) {
      BlockAgain(s, o);
    } else if TagLen(s).Some? {
      DollarQuoteAgain(s, o);
    } else if s[0] == '$' && Placeholder(s).Some? {
      QuestionAgain(o);
    } else if s[0] == '$' {
      BareDollarAgain(s);
    } else {
      PlainAgain(s);
    }
  }

  /** Read again, the output is the input token by token, with `?` for every placeholder:
      literals and comments survive byte for byte, and nothing new is a placeholder. */
  lemma {:induction false} OutputReadsBack(s: string)
    ensures Lex(Out(Lex(s))) == Map(Jdbc, Lex(s))
    decreases |s|
  {
    hide Head, Out;
    if s == [] {
      assert Out([]) == "" by { OutEmpty(); }
    } else {
      HeadAgain(s);
      OutStep(s);
      OutputReadsBack(Rest(s));
      var out := Out(Lex(s));
      assert out[|Shown(Head(s))|..] == Out(Lex(Rest(s)));
      OutHead(s);
      assert Lex(s) == [Head(s)] + Lex(Rest(s));
      assert Map(Jdbc, Lex(s)) == [Jdbc(Head(s))] + Map(Jdbc, Lex(Rest(s)));
    }
  }

  lemma OutEmpty()
    ensures Out([]) == ""
  {}

  /** A second run changes nothing and finds no parameter. */
  lemma SecondRunChangesNothing(sql: string)
    ensures ToJdbc(ToJdbc(sql).sql) == Rewritten(ToJdbc(sql).sql, 0, [])
  {
    hide Lex, Out;
    var out := Out(Lex(sql));
    OutputReadsBack(sql);
    UnchangedIffNoParam(out);
    NoParamNoOrder(Lex(out));
  }

  lemma {:induction false} NoParamNoOrder(tokens: seq<Token>)
    requires forall i :: 0 <= i < |tokens| ==> tokens[i].Copy?
    ensures Order(tokens) == [] && Highest(tokens) == 0
  {
    if tokens != [] { NoParamNoOrder(tokens[1..]); }
  }

  // ---------- meaning ----------

  /** A statement with its values filled in. */
  datatype Part<V> = Text(text: string) | Value(value: Option<V>)

  /** The n-th value the client sent; a missing one is NULL. */
  function Sent<V>(values: seq<Option<V>>, n: nat): Option<V> {
    if n < |values| then values[n] else None
  }

  /** PostgreSQL's reading: each `$n` takes the n-th value. */
  function FillDollar<V>(tokens: seq<Token>, values: seq<Option<V>>): seq<Part<V>> {
    if tokens == [] then []
    else
      [if tokens[0].Param? && tokens[0].number >= 1 then Value(Sent(values, tokens[0].number - 1))
       else Text(tokens[0].text)] + FillDollar(tokens[1..], values)
  }

  /** A parameter marker in code, to a JDBC driver. */
  predicate IsMarker(t: Token) { t == Copy("?") }

  function Markers(tokens: seq<Token>): nat {
    if tokens == [] then 0 else (if IsMarker(tokens[0]) then 1 else 0) + Markers(tokens[1..])
  }

  /** JDBC's reading: the k-th marker takes the k-th value; the counts have to agree. */
  function FillJdbc<V>(tokens: seq<Token>, values: seq<Option<V>>): Option<seq<Part<V>>>
    decreases |tokens|
  {
    if tokens == [] then (if values == [] then Some([]) else None)
    else if IsMarker(tokens[0]) then
      if values == [] then None
      else match FillJdbc(tokens[1..], values[1..])
        case None => None
        case Some(rest) => Some([Value(values[0])] + rest)
    else match FillJdbc(tokens[1..], values)
      case None => None
      case Some(rest) => Some([Text(tokens[0].text)] + rest)
  }

  /** `bind`: the values in the order the translated statement wants them. */
  function BindValues<V>(order: seq<nat>, values: seq<Option<V>>): seq<Option<V>> {
    seq(|order|, k requires 0 <= k < |order| => Sent(values, order[k]))
  }

  /** No `$0`, and no `?` of the statement's own, in code. */
  predicate Translatable(tokens: seq<Token>) {
    forall i :: 0 <= i < |tokens| ==> !IsMarker(tokens[i]) && (tokens[i].Param? ==> tokens[i].number >= 1)
  }

  lemma {:induction false} FillCounts<V>(tokens: seq<Token>, values: seq<Option<V>>)
    ensures FillJdbc(tokens, values).Some? <==> Markers(tokens) == |values|
    decreases |tokens|
  {
    if tokens != [] {
      if IsMarker(tokens[0]) {
        if values != [] { FillCounts(tokens[1..], values[1..]); }
      } else {
        FillCounts(tokens[1..], values);
      }
    }
  }

  lemma TranslatableStep(tokens: seq<Token>)
    requires tokens != []
    ensures Translatable(tokens) <==>
            !IsMarker(tokens[0]) && (tokens[0].Param? ==> tokens[0].number >= 1) && Translatable(tokens[1..])
  {
    assert forall i :: 1 <= i < |tokens| ==> tokens[i] == tokens[1..][i - 1];
    assert forall i :: 0 <= i < |tokens| - 1 ==> tokens[1..][i] == tokens[i + 1];
  }

  /** The output has a marker for every value of `order`, and one more for each `$0` and each
      `?` that was already there. */
  lemma {:induction false} MarkersExceedOrder(tokens: seq<Token>)
    ensures Markers(Map(Jdbc, tokens)) >= |Order(tokens)|
    ensures Markers(Map(Jdbc, tokens)) == |Order(tokens)| <==> Translatable(tokens)
  {
    hide Translatable;
    if tokens == [] {
      assert Translatable([]) by { TranslatableEmpty(); }
    } else {
      MarkersExceedOrder(tokens[1..]);
      TranslatableStep(tokens);
      assert Map(Jdbc, tokens)[1..] == Map(Jdbc, tokens[1..]);
    }
  }

  lemma TranslatableEmpty()
    ensures Translatable([])
  {}

  lemma {:induction false} FillAgrees<V>(tokens: seq<Token>, values: seq<Option<V>>)
    requires Translatable(tokens)
    ensures FillJdbc(Map(Jdbc, tokens), BindValues(Order(tokens), values)) == Some(FillDollar(tokens, values))
  {
    hide Translatable;
    if tokens != [] {
      TranslatableStep(tokens);
      FillAgrees(tokens[1..], values);
      var jdbc := Map(Jdbc, tokens);
      assert jdbc[1..] == Map(Jdbc, tokens[1..]);
      if tokens[0].Param? {
        var bound := BindValues(Order(tokens), values);
        assert bound[1..] == BindValues(Order(tokens[1..]), values);
      } else {
        assert Order(tokens) == Order(tokens[1..]);
      }
    }
  }

  /** Filling the k-th `?` of the translation with the k-th value `bind` builds gives the
      statement the client meant, repeated, out-of-order and missing parameters included,
      exactly when it has no `$0` and no `?` of its own in code. */
  lemma TranslationKeepsMeaning<V>(sql: string, values: seq<Option<V>>)
    ensures var r := ToJdbc(sql);
            FillJdbc(Lex(r.sql), BindValues(r.order, values)) == Some(FillDollar(Lex(sql), values)) <==>
            Translatable(Lex(sql))
  {
    hide Lex, Out, Translatable;
    var tokens := Lex(sql);
    var bound := BindValues(Order(tokens), values);
    OutputReadsBack(sql);
    MarkersExceedOrder(tokens);
    FillCounts(Map(Jdbc, tokens), bound);
    if Translatable(tokens) {
      FillAgrees(tokens, values);
    }
  }

  // ---------- the index loops ----------

  // ---------- the two exceptions ----------

  function Copied(c: char): Token { Copy([c]) }

  /** Ordinary characters are tokens of their own. */
  lemma {:induction false} LexOrdinary(u: string, r: string)
    requires forall i :: 0 <= i < |u| ==> OrdinaryChar(u[i])
    ensures Lex(u + r) == Map(Copied, u) + Lex(r)
  {
    hide Lex, Head;
    var s := u + r;
    if u == [] {
      assert s == r && Map(Copied, u) == [];
    } else {
      OrdinaryHead(s);
      LexStep(s);
      assert s[1..] == u[1..] + r;
      LexOrdinary(u[1..], r);
      assert Map(Copied, u) == [Copied(u[0])] + Map(Copied, u[1..]);
    }
  }

  lemma LexStep(s: string)
    requires s != []
    ensures Lex(s) == [Head(s)] + Lex(s[|Head(s).text|..])
  {
    hide Head;
  }

  const SELECT := "select "

  lemma SelectIsOrdinary()
    ensures (forall i :: 0 <= i < |SELECT| ==> OrdinaryChar(SELECT[i])) && '?' !in SELECT
  {}

  lemma LexQuestion()
    ensures Lex("?") == [Copy("?")]
  {
    OrdinaryHead("?");
    assert "?"[1..] == "";
  }

  lemma LexZero()
    ensures Lex("$0") == [Param(0, "$0")]
  {
    var s := "$0";
    assert s[1..] == "0" && "0"[1..] == "" && DigitRun("") == 0 && DigitRun("0") == 1;
    assert "0"[..1] == "0" && Number("0") == 0;
    assert TagLen(s).None? && Placeholder(s) == Some((0, 2));
    assert s[..2] == s && s[2..] == "";
    assert Head(s) == Param(0, "$0");
  }

  /** `select $0` and `select ?` both reach the driver as a statement with one marker and no
      value for it. */
  lemma MarkerWithoutValue<V>(values: seq<Option<V>>)
    ensures !Translatable(Lex(SELECT + "$0")) && !Translatable(Lex(SELECT + "?"))
    ensures ToJdbc(SELECT + "$0").sql == SELECT + "?" == ToJdbc(SELECT + "?").sql
    ensures ToJdbc(SELECT + "$0").order == [] == ToJdbc(SELECT + "?").order
    ensures FillJdbc(Lex(SELECT + "?"), BindValues([], values)).None?
  {
    hide Lex, SELECT, FillJdbc, Translatable;
    SelectIsOrdinary();
    LexQuestion();
    LexZero();
    var head := Map(Copied, SELECT);
    LexOrdinary(SELECT, "?");
    LexOrdinary(SELECT, "$0");
    OutCopied(SELECT, [Copy("?")]);
    OutCopied(SELECT, [Param(0, "$0")]);
    assert Out([Copy("?")]) == "?" && Out([Param(0, "$0")]) == "?" by { OneShown(); }
    NotTranslatable(head, Copy("?"));
    NotTranslatable(head, Param(0, "$0"));
    FillCounts(Lex(SELECT + "?"), BindValues([], values));
  }

  lemma OneShown()
    ensures Out([Copy("?")]) == "?" && Out([Param(0, "$0")]) == "?"
  {
    assert [Copy("?")][1..] == [] && [Param(0, "$0")][1..] == [];
  }

  lemma NotTranslatable(head: seq<Token>, t: Token)
    requires IsMarker(t) || (t.Param? && t.number == 0)
    ensures !Translatable(head + [t])
  {
    assert (head + [t])[|head|] == t;
  }

  lemma {:induction false} OutCopied(u: string, rest: seq<Token>)
    requires '?' !in u
    ensures Out(Map(Copied, u) + rest) == u + Out(rest) && Order(Map(Copied, u) + rest) == Order(rest)
    ensures Markers(Map(Copied, u) + rest) == Markers(rest)
  {
    hide Out, Order, Markers, Highest;
    var tokens := Map(Copied, u) + rest;
    if u == [] {
      assert tokens == rest;
    } else {
      var more := Map(Copied, u[1..]) + rest;
      assert tokens == [Copied(u[0])] + more;
      assert u[0] in u && u[0] != '?';
      OutCopied(u[1..], rest);
      Cons(Copied(u[0]), more);
      MarkersCons(u[0], more);
      assert u == [u[0]] + u[1..];
    }
  }

  lemma MarkersCons(c: char, rest: seq<Token>)
    requires c != '?'
    ensures Markers([Copied(c)] + rest) == Markers(rest)
  {
    assert [c][0] == c && "?"[0] == '?';
    assert ([Copied(c)] + rest)[1..] == rest;
  }

  method CopyQuoted(sql: string, start: nat) returns (end: nat)
    requires start < |sql| && (sql[start] == '\'' || sql[start] == '"')
    ensures end == start + |Head(sql[start..]).text|
  {
    hide QuotedEnd;
    var q := sql[start];
    ghost var body := sql[start + 1..];
    assert sql[start..][1..] == body;
    var i := start + 1;
    while i < |sql|
      invariant start < i <= |sql|
      invariant QuotedEnd(body, q) == Shift(i - start - 1, QuotedEnd(sql[i..], q))
    {
      QuotedEndStep(sql[i..], q);
      assert sql[i..][1..] == sql[i + 1..];
      if sql[i] == q {
        if i + 1 < |sql| && sql[i + 1] == q {
          assert sql[i..][2..] == sql[i + 2..];
          i := i + 2;
          continue;
        }
        return i + 1;
      }
      i := i + 1;
    }
    QuotedEndStep(sql[i..], q);
    end := |sql|;
  }

  lemma QuotedEndStep(s: string, q: char)
    ensures s == [] ==> QuotedEnd(s, q).None?
    ensures s != [] && s[0] != q ==> QuotedEnd(s, q) == Shift(1, QuotedEnd(s[1..], q))
    ensures |s| > 1 && s[0] == q && s[1] == q ==> QuotedEnd(s, q) == Shift(2, QuotedEnd(s[2..], q))
    ensures s != [] && s[0] == q && (|s| == 1 || s[1] != q) ==> QuotedEnd(s, q) == Some(1)
  {}

  method CopyLineComment(sql: string, start: nat) returns (end: nat)
    requires start < |sql| && OpensLine(sql[start..])
    ensures end == start + |Head(sql[start..]).text|
  {
    assert sql[start..][2..] == sql[start + 2..];
    var i := start + 2;
    while i < |sql| && sql[i] != '\n'
      invariant start + 2 <= i <= |sql|
      invariant LineEnd(sql[start + 2..]) == i - start - 2 + LineEnd(sql[i..])
    {
      assert sql[i..][1..] == sql[i + 1..];
      i := i + 1;
    }
    end := i;
  }

  method CopyBlockComment(sql: string, start: nat) returns (end: nat)
    requires start < |sql| && OpensBlock(sql[start..])
    ensures end == start + |Head(sql[start..]).text|
  {
    hide BlockEnd;
    ghost var body := sql[start + 2..];
    assert sql[start..][2..] == body;
    var i := start + 2;
    var depth := 1;
    while i < |sql| && depth > 0
      invariant start + 2 <= i <= |sql| && depth >= 0
      invariant BlockEnd(body, 1) == Shift(i - start - 2, BlockEnd(sql[i..], depth))
    {
      BlockEndStep(sql[i..], depth);
      assert sql[i..][1..] == sql[i + 1..];
      assert i + 2 <= |sql| ==> sql[i..][2..] == sql[i + 2..];
      if sql[i] == '/' && i + 1 < |sql| && sql[i + 1] == '*' {
        depth := depth + 1;
        i := i + 2;
      } else if sql[i] == '*' && i + 1 < |sql| && sql[i + 1] == '/' {
        depth := depth - 1;
        i := i + 2;
      } else {
        i := i + 1;
      }
    }
    BlockEndStep(sql[i..], depth);
    end := i;
  }

  method ScanTag(sql: string, start: nat) returns (r: Option<nat>)
    requires start < |sql| && sql[start] == '$'
    ensures r == TagLen(sql[start..])
  {
    assert sql[start..][1..] == sql[start + 1..];
    var i := start + 1;
    while i < |sql| && IsTagChar(sql[i])
      invariant start + 1 <= i <= |sql|
      invariant TagRun(sql[start + 1..]) == i - start - 1 + TagRun(sql[i..])
      invariant i > start + 1 ==> !IsDigit(sql[start + 1])
    {
      if IsDigit(sql[i]) && i == start + 1 { return None; }
      assert sql[i..][1..] == sql[i + 1..];
      i := i + 1;
    }
    return if i < |sql| && sql[i] == '$' then Some(i + 1 - start) else None;
  }

  method FindClosingTag(sql: string, body: nat, tag: string) returns (end: nat)
    requires body <= |sql| && tag != []
    ensures end == body + OrAll(TagEnd(sql[body..], tag), sql[body..])
  {
    hide TagEnd;
    var j := body;
    while j + |tag| <= |sql|
      invariant body <= j <= |sql|
      invariant TagEnd(sql[body..], tag) == Shift(j - body, TagEnd(sql[j..], tag))
    {
      TagEndStep(sql[j..], tag);
      assert sql[j..][1..] == sql[j + 1..];
      assert sql[j..][..|tag|] == sql[j..j + |tag|];
      if sql[j..j + |tag|] == tag {
        return j + |tag|;
      }
      j := j + 1;
    }
    TagEndStep(sql[j..], tag);
    end := |sql|;
  }

  lemma DollarHead(s: string, n: nat)
    requires TagLen(s) == Some(n)
    ensures s != [] && |Head(s).text| == n + OrAll(TagEnd(s[n..], s[..n]), s[n..])
  {
    hide TagEnd, QuotedEnd, BlockEnd, TagRun;
  }

  /** `dollar_quote`: the end of a dollar-quoted body, or nothing when none opens here. */
  method DollarQuote(sql: string, start: nat) returns (end: Option<nat>)
    requires start < |sql| && sql[start] == '$'
    ensures TagLen(sql[start..]).None? <==> end.None?
    ensures end.Some? ==> end.value == start + |Head(sql[start..]).text|
  {
    hide TagEnd, Head, TagLen;
    var n := ScanTag(sql, start);
    if n.None? { return None; }
    ghost var s := sql[start..];
    var tag := sql[start..start + n.value];
    assert s[..n.value] == tag && s[n.value..] == sql[start + n.value..];
    DollarHead(s, n.value);
    var close := FindClosingTag(sql, start + n.value, tag);
    end := Some(close);
  }

  lemma TagEndStep(s: string, tag: string)
    requires tag != []
    ensures |s| < |tag| ==> TagEnd(s, tag).None?
    ensures |s| >= |tag| && tag <= s ==> TagEnd(s, tag) == Some(|tag|)
    ensures |s| >= |tag| && !(tag <= s) ==> TagEnd(s, tag) == Shift(1, TagEnd(s[1..], tag))
  {}

  /** `placeholder`: the digits after a `$`, when they fit a u16. */
  method ScanPlaceholder(sql: string, start: nat) returns (r: Option<(nat, nat)>)
    requires start < |sql| && sql[start] == '$'
    ensures r == match Placeholder(sql[start..]) { case None => None case Some(p) => Some((p.0, start + p.1)) }
  {
    assert sql[start..][1..] == sql[start + 1..];
    var i := start + 1;
    while i < |sql| && IsDigit(sql[i])
      invariant start + 1 <= i <= |sql|
      invariant DigitRun(sql[start + 1..]) == i - start - 1 + DigitRun(sql[i..])
      invariant forall k :: start + 1 <= k < i ==> IsDigit(sql[k])
    {
      assert sql[i..][1..] == sql[i + 1..];
      i := i + 1;
    }
    if i == start + 1 { return None; }
    var digits := sql[start + 1..i];
    assert digits == sql[start + 1..][..i - start - 1];
    var number := Number(digits);
    return if number <= 65535 then Some((number, i)) else None;
  }

  /** What the loop has left to emit for the rest of the statement. */
  predicate Remaining(sql: string, out: string, order: seq<nat>, highest: nat, rest: string) {
    var all, tokens := Lex(sql), Lex(rest);
    && Out(all) == out + Out(tokens)
    && Order(all) == order + Order(tokens)
    && Highest(all) == Max(highest, Highest(tokens))
  }

  lemma Cons(t: Token, rest: seq<Token>)
    ensures Out([t] + rest) == Shown(t) + Out(rest)
    ensures Order([t] + rest) == (if t.Param? && t.number >= 1 then [t.number - 1] else []) + Order(rest)
    ensures Highest([t] + rest) == Max(if t.Param? then t.number else 0, Highest(rest))
  {
    assert ([t] + rest)[1..] == rest;
  }

  lemma RemainingStep(sql: string, out: string, order: seq<nat>, highest: nat, s: string)
    requires s != [] && Remaining(sql, out, order, highest, s)
    ensures var t := Head(s);
            Remaining(sql, out + Shown(t),
                      order + (if t.Param? && t.number >= 1 then [t.number - 1] else []),
                      Max(highest, if t.Param? then t.number else 0), s[|t.text|..])
  {
    hide Out, Order, Highest, Head;
    Cons(Head(s), Lex(s[|Head(s).text|..]));
  }

  predicate OrdinaryChar(c: char) { c != '\'' && c != '"' && c != '$' && c != '-' && c != '/' }

  lemma OrdinaryHead(s: string)
    requires s != [] && s[0] != '\'' && s[0] != '"' && s[0] != '$' && !OpensLine(s) && !OpensBlock(s)
    ensures Head(s) == Copy([s[0]])
  {}

  /** Copies the run of ordinary characters at `start`, or the one character that is there. */
  method CopyRun(sql: string, start: nat, ghost out: string, ghost order: seq<nat>, ghost highest: nat)
    returns (end: nat)
    requires start < |sql| && sql[start] != '\'' && sql[start] != '"' && sql[start] != '$'
    requires !OpensLine(sql[start..]) && !OpensBlock(sql[start..])
    requires Remaining(sql, out, order, highest, sql[start..])
    ensures start < end <= |sql|
    ensures Remaining(sql, out + sql[start..end], order, highest, sql[end..])
  {
    hide Remaining, Head;
    var i := start;
    assert sql[start..i] == "" && out + "" == out;
    while i < |sql| && OrdinaryChar(sql[i])
      invariant start <= i <= |sql|
      invariant Remaining(sql, out + sql[start..i], order, highest, sql[i..])
    {
      CopyOne(sql, i, out + sql[start..i], order, highest);
      assert out + sql[start..i] + [sql[i]] == out + sql[start..i + 1];
      i := i + 1;
    }
    if i == start {
      CopyOne(sql, i, out, order, highest);
      assert sql[start..i + 1] == [sql[i]];
      i := i + 1;
    }
    end := i;
  }

  lemma CopyOne(sql: string, i: nat, out: string, order: seq<nat>, highest: nat)
    requires i < |sql| && Remaining(sql, out, order, highest, sql[i..])
    requires sql[i] != '\'' && sql[i] != '"' && sql[i] != '$' && !OpensLine(sql[i..]) && !OpensBlock(sql[i..])
    ensures Remaining(sql, out + [sql[i]], order, highest, sql[i + 1..])
  {
    hide Remaining, Head;
    OrdinaryHead(sql[i..]);
    RemainingStep(sql, out, order, highest, sql[i..]);
    assert sql[i..][1..] == sql[i + 1..];
    assert order + [] == order && Max(highest, 0) == highest;
  }

  /** `to_jdbc`: the loop computes the translation of the tokens. */
  method Translate(sql: string) returns (r: Rewritten)
    ensures r == ToJdbc(sql)
  {
    hide Head, TagLen, Placeholder, Remaining;
    var out, order, highest, i := "", [], 0, 0;
    RemainingAtStart(sql);
    assert sql[0..] == sql;
    while i < |sql|
      invariant i <= |sql|
      invariant Remaining(sql, out, order, highest, sql[i..])
    {
      ghost var s := sql[i..];
      var special := sql[i] == '\'' || sql[i] == '"' || sql[i] == '$'
                     || (i + 1 < |sql| && sql[i] == '-' && sql[i + 1] == '-')
                     || (i + 1 < |sql| && sql[i] == '/' && sql[i + 1] == '*');
      if !special {
        var end := CopyRun(sql, i, out, order, highest);
        out := out + sql[i..end];
        i := end;
      } else {
        RemainingStep(sql, out, order, highest, s);
        var end, number := NextToken(sql, i);
        assert s[end - i..] == sql[end..];
        if number.Some? {
          out := out + "?";
          if number.value >= 1 {
            highest := Max(highest, number.value);
            order := order + [number.value - 1];
          } else {
            assert order + [] == order && Max(highest, 0) == highest;
          }
        } else {
          assert sql[i..end] == s[..end - i] == Head(s).text;
          assert order + [] == order && Max(highest, 0) == highest;
          out := out + sql[i..end];
        }
        i := end;
      }
    }
    assert sql[i..] == "";
    RemainingAtEnd(sql, out, order, highest);
    r := Rewritten(out, highest, order);
  }

  lemma RemainingAtStart(sql: string)
    ensures Remaining(sql, "", [], 0, sql)
  {
    hide Lex, Out, Order, Highest;
  }

  lemma RemainingAtEnd(sql: string, out: string, order: seq<nat>, highest: nat)
    requires Remaining(sql, out, order, highest, "")
    ensures ToJdbc(sql) == Rewritten(out, highest, order)
  {
    assert Lex("") == [];
  }

  /** One arm of the loop: the end of the token at `i`, and its number if it is a placeholder. */
  method NextToken(sql: string, i: nat) returns (end: nat, number: Option<nat>)
    requires i < |sql|
    ensures var t := Head(sql[i..]);
            end == i + |t.text| && number == if t.Param? then Some(t.number) else None
  {
    ghost var s := sql[i..];
    HeadKind(s);
    number := None;
    if sql[i] == '\'' || sql[i] == '"' {
      end := CopyQuoted(sql, i);
    } else if sql[i] == '-' && i + 1 < |sql| && sql[i + 1] == '-' {
      end := CopyLineComment(sql, i);
    } else if sql[i] == '/' && i + 1 < |sql| && sql[i + 1] == '*' {
      end := CopyBlockComment(sql, i);
    } else if sql[i] == '$' {
      var quoted := DollarQuote(sql, i);
      if quoted.Some? { return quoted.value, None; }
      var placeholder := ScanPlaceholder(sql, i);
      if placeholder.Some? { return placeholder.value.1, Some(placeholder.value.0); }
      end := i + 1;
    } else {
      end := i + 1;
    }
  }
}
