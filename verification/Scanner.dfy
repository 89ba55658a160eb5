/** The lexical rules of classify.rs: quotes, dollar quotes, comments and statement
    separators, as one-token functions on the remaining text, and the two index loops
    (`split_statements`, `strip_literals`) proved to compute functions of the tokens. */
module Scanner {
  import opened Text

  // ---------- one token ----------

  /** `s` follows an opening quote `q`: length up to and including the closing one. */
  function QuoteEnd(s: string, q: char): (r: Option<nat>)
    ensures r.Some? ==> 1 <= r.value <= |s|
    decreases |s|
  {
    if s == [] then None
    else if s[0] == '\\' then (if |s| == 1 then None else Shift(2, QuoteEnd(s[2..], q)))
    else if s[0] != q then Shift(1, QuoteEnd(s[1..], q))
    else if |s| > 1 && s[1] == q then Shift(2, QuoteEnd(s[2..], q))
    else Some(1)
  }

  /** Length of a `$tag$` opener at the start of `s`. */
  function DollarTagLen(s: string): (r: Option<nat>)
    ensures r.Some? ==> 2 <= r.value <= |s|
  {
    if s == [] || s[0] != '$' then None
    else
      var n := 1 + TagRun(s[1..]);
      if n < |s| && s[n] == '$' then Some(n + 1) else None
  }

  /** Length up to and including the first occurrence of `tag`. */
  function TagEnd(s: string, tag: string): (r: Option<nat>)
    ensures r.Some? ==> |tag| <= r.value <= |s|
  {
    if s == [] then None
    else if tag <= s then Some(|tag|)
    else Shift(1, TagEnd(s[1..], tag))
  }

  /** Length up to, not including, the first line break. */
  function LineEnd(s: string): (r: Option<nat>)
    ensures r.Some? ==> r.value < |s| && s[r.value] == '\n'
  {
    if s == [] then None else if s[0] == '\n' then Some(0) else Shift(1, LineEnd(s[1..]))
  }

  predicate IsQuote(c: char) { c == '\'' || c == '"' }

  /** The first character of `s` is code: it opens no literal and no comment. */
  predicate IsCode(s: string)
    requires s != []
  {
    !IsQuote(s[0]) && DollarTagLen(s).None? && !OpensLine(s) && !OpensBlock(s)
  }

  /** Length of the first token; `None` when a literal or comment is left open. */
  function Scan(s: string): (r: Option<nat>)
    requires s != []
    ensures r.Some? ==> 1 <= r.value <= |s|
    ensures IsCode(s) ==> r == Some(1)
  {
    if IsQuote(s[0]) then Shift(1, QuoteEnd(s[1..], s[0]))
    else if DollarTagLen(s).Some? then
      var n := DollarTagLen(s).value;
      Shift(n, TagEnd(s[n..], s[..n]))
    else if OpensLine(s) then LineEnd(s)
    else if OpensBlock(s) then Shift(2, BlockEnd(s[2..], 1))
    else Some(1)
  }

  /** Characters the first token takes; an open one takes the rest of the text. */
  function TokenLen(s: string): (n: nat)
    requires s != []
    ensures 1 <= n <= |s|
  {
    match Scan(s)
    case Some(n) => n
    case None => |s|
  }

  // ---------- whole texts ----------

  /** The text ends outside every literal and comment. */
  predicate EndsInCode(s: string)
    decreases |s|
  {
    s == [] || (Scan(s).Some? && EndsInCode(s[Scan(s).value..]))
  }

  /** Position of the first `;` that is code. */
  function FirstSemi(s: string): (r: Option<nat>)
    ensures r.Some? ==> r.value < |s| && s[r.value] == ';'
    decreases |s|
  {
    if s == [] then None
    else if s[0] == ';' then Some(0)
    else Shift(TokenLen(s), FirstSemi(s[TokenLen(s)..]))
  }

  /** `split_statements`: cut at every code `;`; an empty last piece is dropped. */
  function Split(s: string): (r: seq<string>)
    ensures r == [] <==> s == []
    decreases |s|
  {
    if s == [] then []
    else match FirstSemi(s)
      case None => [s]
      case Some(k) => [s[..k]] + Split(s[k + 1..])
  }

  /** The last token is a code `;`, so that the piece after it is empty and dropped. */
  predicate EndsOnSemi(s: string)
    decreases |s|
  {
    FirstSemi(s).Some? && (FirstSemi(s).value + 1 == |s| || EndsOnSemi(s[FirstSemi(s).value + 1..]))
  }

  function FinalSemi(s: string): string { if EndsOnSemi(s) then ";" else "" }

  /** What `out.push(byte as char)` appends for the bytes of one character: its UTF-8
      encoding, each byte read as a Latin-1 character. */
  function PushBytes(c: char): (r: string)
    ensures IsAscii(c) ==> r == [c]
    ensures !IsAscii(c) ==> |r| >= 2 && forall i :: 0 <= i < |r| ==> !IsAscii(r[i])
  {
    var n := c as int;
    if n < 0x80 then [c]
    else if n < 0x800 then [(0xC0 + n / 64) as char, (0x80 + n % 64) as char]
    else if n < 0x10000 then [(0xE0 + n / 4096) as char, (0x80 + n / 64 % 64) as char, (0x80 + n % 64) as char]
    else [(0xF0 + n / 262144) as char, (0x80 + n / 4096 % 64) as char,
          (0x80 + n / 64 % 64) as char, (0x80 + n % 64) as char]
  }

  /** `strip_literals`: every literal and comment becomes one space. */
  function Strip(s: string): string
    decreases |s|
  {
    if s == [] then []
    else (if IsCode(s) then PushBytes(s[0]) else " ") + Strip(s[TokenLen(s)..])
  }

  // ---------- unfolding, one token at a time ----------

  /** How many characters a token takes when `end` says where it is closed. */
  function Taken(end: Option<nat>, s: string): nat {
    match end
    case Some(n) => n
    case None => |s|
  }

  lemma TokenLenByKind(s: string)
    requires s != []
    ensures IsQuote(s[0]) ==> TokenLen(s) == Taken(Shift(1, QuoteEnd(s[1..], s[0])), s)
    ensures OpensLine(s) ==> TokenLen(s) == Taken(LineEnd(s), s)
    ensures OpensBlock(s) ==> TokenLen(s) == Taken(Shift(2, BlockEnd(s[2..], 1)), s)
    ensures DollarTagLen(s).Some? ==>
              var n := DollarTagLen(s).value;
              TokenLen(s) == Taken(Shift(n, TagEnd(s[n..], s[..n])), s)
  {
    hide QuoteEnd, LineEnd, BlockEnd, TagEnd, TagRun;
  }

  lemma QuoteEndStep(s: string, q: char)
    ensures s == [] || s == "\\" ==> QuoteEnd(s, q).None?
    ensures |s| > 1 && s[0] == '\\' ==> QuoteEnd(s, q) == Shift(2, QuoteEnd(s[2..], q))
    ensures s != [] && s[0] != '\\' && s[0] != q ==> QuoteEnd(s, q) == Shift(1, QuoteEnd(s[1..], q))
    ensures s != [] && s[0] != '\\' && s[0] == q && |s| > 1 && s[1] == q ==>
              QuoteEnd(s, q) == Shift(2, QuoteEnd(s[2..], q))
    ensures s != [] && s[0] != '\\' && s[0] == q && (|s| == 1 || s[1] != q) ==> QuoteEnd(s, q) == Some(1)
  {}

  lemma TagEndStep(s: string, tag: string)
    ensures TagEnd(s, tag) ==
            if s == [] then None else if tag <= s then Some(|tag|) else Shift(1, TagEnd(s[1..], tag))
  {}

  lemma EndsInCodeStep(s: string)
    ensures EndsInCode(s) <==> s == [] || (Scan(s).Some? && EndsInCode(s[Scan(s).value..]))
  {
    hide Scan;
  }

  lemma FirstSemiStep(s: string)
    ensures s == [] ==> FirstSemi(s).None?
    ensures s != [] && s[0] == ';' ==> FirstSemi(s) == Some(0)
    ensures s != [] && s[0] != ';' ==> FirstSemi(s) == Shift(TokenLen(s), FirstSemi(s[TokenLen(s)..]))
  {
    hide TokenLen;
  }

  lemma SplitStep(s: string)
    ensures s == [] ==> Split(s) == []
    ensures s != [] && FirstSemi(s).None? ==> Split(s) == [s]
    ensures FirstSemi(s).Some? ==>
              Split(s) == [s[..FirstSemi(s).value]] + Split(s[FirstSemi(s).value + 1..])
  {
    hide FirstSemi;
  }

  lemma StripStep(s: string)
    ensures s == [] ==> Strip(s) == []
    ensures s != [] ==>
              Strip(s) == (if IsCode(s) then PushBytes(s[0]) else " ") + Strip(s[TokenLen(s)..])
  {
    hide TokenLen, IsCode, PushBytes;
  }

  // ---------- the first token does not depend on what follows a separator ----------

  /** Text that can follow a token without being drawn into it. */
  predicate Cut(r: string) { r == [] || r[0] == ';' || r[0] == ' ' }

  /** Two characters that no token has side by side across its end, nor a line break. */
  predicate NoMerge(c: char, e: char) {
    && (IsQuote(c) ==> e != c)
    && (c == '$' || IsTagChar(c) ==> e != '$' && !IsTagChar(e))
    && !(c == '-' && e == '-') && !(c == '/' && e == '*') && e != '\n'
  }

  /** Text that can follow `u` without being drawn into its last token. */
  predicate Apart(u: string, r: string) { r == [] || u == [] || NoMerge(u[|u| - 1], r[0]) }

  lemma {:induction false} QuoteLocal(u: string, r: string, q: char)
    requires r == [] || u == [] || u[|u| - 1] != q || r[0] != q
    ensures QuoteEnd(u, q) == Within(QuoteEnd(u + r, q), |u|)
    decreases |u|
  {
    hide QuoteEnd;
    QuoteEndStep(u, q);
    QuoteEndStep(u + r, q);
    if u == [] {
      assert u + r == r;
      QuoteEndLong(r, q);
    } else if u[0] == '\\' || (u[0] == q && |u| > 1 && u[1] == q) {
      if |u| > 1 {
        assert (u + r)[2..] == u[2..] + r;
        QuoteLocal(u[2..], r, q);
      }
    } else {
      assert (u + r)[1..] == u[1..] + r;
      QuoteLocal(u[1..], r, q);
    }
  }

  lemma QuoteEndLong(s: string, q: char)
    ensures QuoteEnd(s, q).Some? ==> QuoteEnd(s, q).value >= 1
  {}

  lemma {:induction false} TagRunLocal(u: string, r: string)
    requires r == [] || !IsTagChar(r[0]) || TagRun(u) < |u|
    ensures TagRun(u + r) == TagRun(u)
  {
    if u == [] {
      assert u + r == r;
    } else {
      assert (u + r)[1..] == u[1..] + r;
      if IsTagChar(u[0]) { TagRunLocal(u[1..], r); }
    }
  }

  lemma {:induction false} TagEndLocal(u: string, r: string, tag: string)
    requires tag != []
    ensures TagEnd(u, tag) == Within(TagEnd(u + r, tag), |u|)
  {
    if u == [] {
      assert u + r == r;
    } else {
      assert (u + r)[1..] == u[1..] + r;
      TagEndLocal(u[1..], r, tag);
      if |tag| <= |u| {
        assert (u + r)[..|tag|] == u[..|tag|];
      }
    }
  }

  lemma {:induction false} LineLocal(u: string, r: string)
    requires r == [] || r[0] != '\n'
    ensures LineEnd(u) == Within(LineEnd(u + r), |u|)
  {
    if u == [] {
      assert u + r == r;
    } else {
      assert (u + r)[1..] == u[1..] + r;
      LineLocal(u[1..], r);
    }
  }

  lemma {:induction false} BlockLocal(u: string, r: string, depth: nat)
    ensures BlockEnd(u, depth) == Within(BlockEnd(u + r, depth), |u|)
    decreases |u|
  {
    hide BlockEnd;
    BlockEndStep(u, depth);
    BlockEndStep(u + r, depth);
    if u == [] {
      assert u + r == r;
      if depth > 0 { BlockEnd1(r, depth); }
    } else if depth > 0 {
      if |u| == 1 {
        BlockEndStep(u[1..], depth);
        BlockEnd1(u + r, depth);
      } else if OpensBlock(u) || ClosesBlock(u) {
        assert (u + r)[2..] == u[2..] + r;
        BlockLocal(u[2..], r, if OpensBlock(u) then depth + 1 else depth - 1);
      } else {
        assert (u + r)[1..] == u[1..] + r;
        BlockLocal(u[1..], r, depth);
      }
    }
  }

  lemma BlockEnd1(s: string, depth: nat)
    requires depth > 0
    ensures BlockEnd(s, depth).Some? ==> BlockEnd(s, depth).value >= 2
  {}

  lemma DollarLocal(u: string, r: string)
    requires u != [] && Apart(u, r)
    ensures DollarTagLen(u + r) == DollarTagLen(u)
  {
    if u[0] == '$' {
      var t := u[1..];
      assert (u + r)[1..] == t + r;
      if TagRun(t) == |t| && |u| > 1 { assert u[|u| - 1] == t[|t| - 1]; }
      TagRunLocal(t, r);
    }
  }

  /** Adding any text that stands apart changes neither whether the first character is code nor
      where the first token ends, as long as it ends before that text. */
  lemma ScanLocal(u: string, r: string)
    requires u != [] && Apart(u, r)
    ensures IsCode(u + r) == IsCode(u)
    ensures Scan(u) == Within(Scan(u + r), |u|)
  {
    hide QuoteEnd, TagEnd, LineEnd, BlockEnd, DollarTagLen;
    var w := u + r;
    DollarLocal(u, r);
    assert w[1..] == u[1..] + r;
    assert |u| > 1 ==> w[2..] == u[2..] + r;
    if IsQuote(u[0]) {
      QuoteLocal(u[1..], r, u[0]);
    } else if DollarTagLen(u).Some? {
      var n := DollarTagLen(u).value;
      assert w[..n] == u[..n] && w[n..] == u[n..] + r;
      TagEndLocal(u[n..], r, u[..n]);
    } else if OpensLine(u) {
      LineLocal(u, r);
    } else if OpensBlock(u) {
      BlockLocal(u[2..], r, 1);
    }
  }

  // ---------- splitting ----------

  /** What precedes a code `;` is a text of its own: it ends in code and has no other one. */
  lemma {:induction false} HeadIsClosed(s: string)
    requires FirstSemi(s).Some?
    ensures var a := s[..FirstSemi(s).value]; EndsInCode(a) && FirstSemi(a).None?
    decreases |s|
  {
    hide Scan, FirstSemi, EndsInCode;
    FirstSemiStep(s);
    var k := FirstSemi(s).value;
    var a := s[..k];
    FirstSemiStep(a);
    EndsInCodeStep(a);
    if k > 0 {
      var n := TokenLen(s);
      HeadIsClosed(s[n..]);
      assert s[n..][..k - n] == a[n..];
      assert s == a + s[k..];
      ScanLocal(a, s[k..]);
    }
  }

  /** And conversely a text that ends in code is cut off by the `;` that follows it. */
  lemma {:induction false} FirstSemiAfter(a: string, b: string)
    requires EndsInCode(a)
    ensures FirstSemi(a + ";" + b) == if FirstSemi(a).Some? then FirstSemi(a) else Some(|a|)
    decreases |a|
  {
    hide Scan;
    if a == [] {
      assert a + ";" + b == ";" + b;
    } else if a[0] != ';' {
      var n := Scan(a).value;
      assert a + ";" + b == a + (";" + b);
      ScanLocal(a, ";" + b);
      assert (a + ";" + b)[n..] == a[n..] + ";" + b;
      FirstSemiAfter(a[n..], b);
    }
  }

  lemma {:induction false} TailEndsInCode(s: string)
    requires EndsInCode(s) && FirstSemi(s).Some?
    ensures EndsInCode(s[FirstSemi(s).value + 1..])
    decreases |s|
  {
    if s[0] != ';' {
      var n := Scan(s).value;
      TailEndsInCode(s[n..]);
      assert s[n..][FirstSemi(s[n..]).value + 1..] == s[FirstSemi(s).value + 1..];
    }
  }

  /** Splitting is compositional at a `;` that follows closed text. */
  lemma {:induction false} SplitAt(a: string, b: string)
    requires EndsInCode(a)
    ensures Split(a + ";" + b) == Split(a + ";") + Split(b)
    decreases |a|
  {
    hide FirstSemi, EndsInCode, Split;
    var s, t := a + ";" + b, a + ";";
    FirstSemiAfter(a, b);
    FirstSemiAfter(a, "");
    assert a + ";" + "" == t;
    SplitStep(s);
    SplitStep(t);
    match FirstSemi(a)
    case None =>
      SplitStep("");
      assert s[..|a|] == a == t[..|a|] && s[|a| + 1..] == b && t[|a| + 1..] == "";
    case Some(k) =>
      TailEndsInCode(a);
      SplitAt(a[k + 1..], b);
      assert s[..k] == t[..k];
      assert s[k + 1..] == a[k + 1..] + ";" + b && t[k + 1..] == a[k + 1..] + ";";
  }

  /** The pieces, joined by `;`, give back the text up to one final `;`. */
  lemma {:induction false} SplitJoins(s: string)
    ensures Join(Split(s), ";") + FinalSemi(s) == s
    decreases |s|
  {
    hide FirstSemi;
    if s != [] && FirstSemi(s).Some? {
      var k := FirstSemi(s).value;
      var rest := s[k + 1..];
      SplitJoins(rest);
      var pieces := Split(s);
      assert pieces[1..] == Split(rest);
      assert s == s[..k] + ";" + rest;
    }
  }

  /** Every piece is one statement, and every piece but the last ends in code. */
  lemma {:induction false} PiecesAreClosed(s: string, i: nat)
    requires i < |Split(s)|
    ensures FirstSemi(Split(s)[i]).None?
    ensures i + 1 < |Split(s)| || EndsOnSemi(s) ==> EndsInCode(Split(s)[i])
    decreases |s|
  {
    hide FirstSemi, EndsInCode;
    if FirstSemi(s).Some? {
      var k := FirstSemi(s).value;
      if i == 0 {
        HeadIsClosed(s);
      } else {
        PiecesAreClosed(s[k + 1..], i - 1);
      }
    }
  }

  // ---------- stripping ----------

  lemma SeparatorIsCode(s: string)
    requires s != [] && Cut(s)
    ensures IsCode(s) && TokenLen(s) == 1 && PushBytes(s[0]) == [s[0]]
  {}

  /** Stripping closed text and stripping what stands apart from it do not interfere. */
  lemma {:induction false} StripConcat(a: string, b: string)
    requires EndsInCode(a) && Apart(a, b)
    ensures Strip(a + b) == Strip(a) + Strip(b)
    decreases |a|
  {
    hide Scan, IsCode, Strip, EndsInCode, PushBytes, NoMerge;
    var s := a + b;
    StripStep(s);
    StripStep(a);
    EndsInCodeStep(a);
    if a == [] {
      assert s == b;
    } else {
      var n := Scan(a).value;
      ScanLocal(a, b);
      assert s[n..] == a[n..] + b;
      StripConcat(a[n..], b);
    }
  }

  lemma StripAt(a: string, separator: char, b: string)
    requires EndsInCode(a) && Cut([separator])
    ensures Strip(a + [separator] + b) == Strip(a) + [separator] + Strip(b)
  {
    hide Strip, EndsInCode, PushBytes, IsCode, TokenLen;
    var s := [separator] + b;
    assert a + [separator] + b == a + s;
    StripConcat(a, s);
    SeparatorIsCode(s);
    StripStep(s);
    assert s[1..] == b;
  }

  /** `split_statements` and `strip_literals` agree on what is code: stripping the whole text
      is stripping each piece, again up to one final `;`. */
  lemma {:induction false} StripCommutesWithSplit(s: string)
    ensures Strip(s) == Join(Map(Strip, Split(s)), ";") + FinalSemi(s)
    decreases |s|
  {
    hide FirstSemi, Strip;
    if s == [] {
      StripStep("");
    } else {
      match FirstSemi(s)
      case None =>
        assert Map(Strip, [s]) == [Strip(s)];
      case Some(k) =>
        var a, rest := s[..k], s[k + 1..];
        HeadIsClosed(s);
        assert s == a + ";" + rest;
        StripAt(a, ';', rest);
        StripCommutesWithSplit(rest);
        var pieces := Map(Strip, Split(s));
        assert pieces[0] == Strip(a);
        assert pieces[1..] == Map(Strip, Split(rest));
    }
  }

  // ---------- stripping twice ----------

  /** Every character of the text is code: no quote, no comment opener, no dollar quote. */
  predicate AllCode(s: string) {
    s == [] || (IsCode(s) && AllCode(s[1..]))
  }

  predicate AllAscii(s: string) { forall i :: 0 <= i < |s| ==> IsAscii(s[i]) }

  /** Every code character of the text is ASCII. */
  predicate CodeIsAscii(s: string)
    decreases |s|
  {
    s == [] || ((IsCode(s) ==> IsAscii(s[0])) && CodeIsAscii(s[TokenLen(s)..]))
  }

  lemma StripHead(s: string)
    requires s != []
    ensures Strip(s) != []
    ensures IsAscii(Strip(s)[0]) && Strip(s)[0] != ' ' ==>
              IsCode(s) && s[0] == Strip(s)[0] && Strip(s) == [s[0]] + Strip(s[1..])
  {
    hide IsCode, PushBytes;
  }

  predicate TagThenDollar(s: string) { TagRun(s) < |s| && s[TagRun(s)] == '$' }

  lemma {:induction false} TagSurvivesStrip(s: string)
    requires TagThenDollar(Strip(s))
    ensures TagThenDollar(s)
    decreases |s|
  {
    hide Strip;
    if s == [] {
      StripStep("");
    } else {
      StripHead(s);
      if TagRun(Strip(s)) > 0 {
        assert Strip(s)[1..] == Strip(s[1..]);
        TagSurvivesStrip(s[1..]);
      }
    }
  }

  lemma CodeCharBeforeStripped(s: string)
    requires s != [] && IsCode(s) && IsAscii(s[0])
    ensures IsCode([s[0]] + Strip(s[1..]))
  {
    hide Strip;
    var rest := s[1..];
    var t := [s[0]] + Strip(rest);
    assert t[1..] == Strip(rest);
    if rest == [] { StripStep(""); } else { StripHead(rest); }
    if s[0] == '$' && TagThenDollar(Strip(rest)) {
      TagSurvivesStrip(rest);
    }
  }

  lemma {:induction false} PrependPlain(u: string, t: string)
    requires AllCode(t)
    requires forall i :: 0 <= i < |u| ==> !IsQuote(u[i]) && u[i] != '$' && u[i] != '-' && u[i] != '/'
    ensures AllCode(u + t)
  {
    if u == [] {
      assert u + t == t;
    } else {
      PrependPlain(u[1..], t);
      assert (u + t)[1..] == u[1..] + t;
    }
  }

  /** The stripped text holds no quote, comment opener or dollar-quote opener. */
  lemma {:induction false} StrippedIsCode(s: string)
    ensures AllCode(Strip(s))
    decreases |s|
  {
    hide TokenLen, IsCode, DollarTagLen;
    if s != [] {
      StrippedIsCode(s[TokenLen(s)..]);
      if IsCode(s) && IsAscii(s[0]) {
        assert TokenLen(s) == 1 by { CodeTokenLen(s); }
        CodeCharBeforeStripped(s);
        assert Strip(s)[1..] == Strip(s[1..]);
      } else {
        PrependPlain(if IsCode(s) then PushBytes(s[0]) else " ", Strip(s[TokenLen(s)..]));
      }
    }
  }

  lemma CodeTokenLen(s: string)
    requires s != [] && IsCode(s)
    ensures TokenLen(s) == 1
  {}

  lemma {:induction false} CodeOnlyStrip(s: string)
    requires AllCode(s)
    ensures |Strip(s)| >= |s|
    ensures Strip(s) == s <==> AllAscii(s)
  {
    hide IsCode, TokenLen;
    if s != [] {
      CodeTokenLen(s);
      CodeOnlyStrip(s[1..]);
      assert s == [s[0]] + s[1..];
      assert AllAscii(s) <==> IsAscii(s[0]) && AllAscii(s[1..]);
    }
  }

  lemma AsciiConcat(a: string, b: string)
    ensures AllAscii(a + b) <==> AllAscii(a) && AllAscii(b)
  {
    assert forall i :: 0 <= i < |a| ==> a[i] == (a + b)[i];
    assert forall i :: 0 <= i < |b| ==> b[i] == (a + b)[|a| + i];
  }

  lemma {:induction false} StripKeepsAscii(s: string)
    ensures AllAscii(Strip(s)) <==> CodeIsAscii(s)
    decreases |s|
  {
    hide IsCode, TokenLen, PushBytes;
    if s != [] {
      var head := if IsCode(s) then PushBytes(s[0]) else " ";
      assert AllAscii(head) <==> (IsCode(s) ==> IsAscii(s[0]));
      StripKeepsAscii(s[TokenLen(s)..]);
      AsciiConcat(head, Strip(s[TokenLen(s)..]));
    }
  }

  /** Stripping twice is stripping once exactly when no code character lies outside ASCII;
      otherwise `byte as char` encodes the character again and the text grows. */
  lemma StripTwice(s: string)
    ensures Strip(Strip(s)) == Strip(s) <==> CodeIsAscii(s)
  {
    hide Strip, CodeIsAscii, AllCode;
    StrippedIsCode(s);
    CodeOnlyStrip(Strip(s));
    StripKeepsAscii(s);
  }

  /** The text of a single non-ASCII letter: stripping it twice is not stripping it once. */
  lemma StripTwiceDiffers()
    ensures Strip(Strip("\U{00E9}")) != Strip("\U{00E9}")
  {
    var s := "\U{00E9}";
    assert IsCode(s) && !CodeIsAscii(s);
    StripTwice(s);
  }

  // ---------- the index loops ----------
  //
  // The source lets an index run past the end of the text inside an unterminated literal and
  // stops on `i < len`; the methods below clamp the index they hand back to the length.

  method ScanDollarTag(sql: string, start: nat) returns (r: Option<nat>)
    requires start <= |sql|
    ensures r == DollarTagLen(sql[start..])
  {
    if start == |sql| || sql[start] != '$' { return None; }
    var i := start + 1;
    while i < |sql| && IsTagChar(sql[i])
      invariant start + 1 <= i <= |sql|
      invariant TagRun(sql[start + 1..]) == i - start - 1 + TagRun(sql[i..])
    {
      assert sql[i..][1..] == sql[i + 1..];
      i := i + 1;
    }
    assert sql[start..][1..] == sql[start + 1..];
    return if i < |sql| && sql[i] == '$' then Some(i - start + 1) else None;
  }

  method SkipQuoted(sql: string, start: nat) returns (end: nat)
    requires start < |sql| && IsQuote(sql[start])
    ensures end == start + TokenLen(sql[start..])
  {
    hide TokenLen, QuoteEnd;
    var quote := sql[start];
    ghost var body := sql[start + 1..];
    assert sql[start..][1..] == body;
    TokenLenByKind(sql[start..]);
    var i := start + 1;
    while i < |sql|
      invariant start < i
      invariant i <= |sql| ==> QuoteEnd(body, quote) == Shift(i - start - 1, QuoteEnd(sql[i..], quote))
      invariant i > |sql| ==> QuoteEnd(body, quote).None?
    {
      QuoteEndStep(sql[i..], quote);
      assert sql[i..][1..] == sql[i + 1..];
      assert i + 2 <= |sql| ==> sql[i..][2..] == sql[i + 2..];
      if sql[i] == '\\' {
        i := i + 2;
        continue;
      }
      if sql[i] == quote {
        if i + 1 < |sql| && sql[i + 1] == quote {
          i := i + 2;
          continue;
        }
        break;
      }
      i := i + 1;
    }
    if i == |sql| { QuoteEndStep(sql[i..], quote); }
    end := if i < |sql| then i + 1 else |sql|;
  }

  method SkipDollarQuoted(sql: string, start: nat, tagLen: nat) returns (end: nat)
    requires start < |sql| && DollarTagLen(sql[start..]) == Some(tagLen)
    ensures end == start + TokenLen(sql[start..])
  {
    hide TokenLen, DollarTagLen, TagEnd;
    var tag := sql[start..start + tagLen];
    ghost var body := sql[start + tagLen..];
    assert sql[start..][..tagLen] == tag && sql[start..][tagLen..] == body;
    TokenLenByKind(sql[start..]);
    var i := start + tagLen;
    while i < |sql|
      invariant start + tagLen <= i <= |sql|
      invariant TagEnd(body, tag) == Shift(i - start - tagLen, TagEnd(sql[i..], tag))
    {
      TagEndStep(sql[i..], tag);
      assert sql[i..][1..] == sql[i + 1..];
      if tag <= sql[i..] {
        return i + tagLen;
      }
      i := i + 1;
    }
    TagEndStep(sql[i..], tag);
    end := i;
  }

  method SkipLineComment(sql: string, start: nat) returns (end: nat)
    requires start < |sql| && OpensLine(sql[start..])
    ensures end == start + TokenLen(sql[start..])
  {
    hide TokenLen;
    TokenLenByKind(sql[start..]);
    var i := start;
    while i < |sql| && sql[i] != '\n'
      invariant start <= i <= |sql|
      invariant LineEnd(sql[start..]) == Shift(i - start, LineEnd(sql[i..]))
    {
      assert sql[i..][1..] == sql[i + 1..];
      i := i + 1;
    }
    end := i;
  }

  method SkipBlockComment(sql: string, start: nat) returns (end: nat)
    requires start < |sql| && OpensBlock(sql[start..])
    ensures end == start + TokenLen(sql[start..])
  {
    hide TokenLen, BlockEnd;
    ghost var body := sql[start + 2..];
    assert sql[start..][2..] == body;
    TokenLenByKind(sql[start..]);
    var i := start + 2;
    var depth := 1;
    while i < |sql| && depth > 0
      invariant start + 2 <= i <= |sql| && depth >= 0
      invariant BlockEnd(body, 1) == Shift(i - start - 2, BlockEnd(sql[i..], depth))
    {
      BlockEndStep(sql[i..], depth);
      assert sql[i..][1..] == sql[i + 1..];
      assert i + 2 <= |sql| ==> sql[i..][2..] == sql[i + 2..];
      if OpensBlock(sql[i..]) {
        depth := depth + 1;
        i := i + 2;
      } else if ClosesBlock(sql[i..]) {
        depth := depth - 1;
        i := i + 2;
      } else {
        i := i + 1;
      }
    }
    BlockEndStep(sql[i..], depth);
    end := i;
  }

  /** One iteration of either scanning loop: past the token at `start`, and whether it is a
      single character of code. */
  method SkipToken(sql: string, start: nat) returns (end: nat, code: bool)
    requires start < |sql|
    ensures end == start + TokenLen(sql[start..])
    ensures code <==> IsCode(sql[start..])
  {
    var c := sql[start];
    var next := if start + 1 < |sql| then sql[start + 1] else ' ';
    if c == '\'' || c == '"' {
      end := SkipQuoted(sql, start);
      return end, false;
    }
    if c == '$' {
      var tag := ScanDollarTag(sql, start);
      if tag.Some? {
        end := SkipDollarQuoted(sql, start, tag.value);
        return end, false;
      }
    }
    if c == '-' && next == '-' {
      end := SkipLineComment(sql, start);
      return end, false;
    }
    if c == '/' && next == '*' {
      end := SkipBlockComment(sql, start);
      return end, false;
    }
    return start + 1, true;
  }

  method SplitStatements(sql: string) returns (out: seq<string>)
    ensures out == Split(sql)
  {
    hide TokenLen, IsCode, FirstSemi, Split;
    out := [];
    var start, i := 0, 0;
    assert sql[0..] == sql;
    while i < |sql|
      invariant 0 <= start <= i <= |sql|
      invariant FirstSemi(sql[start..]) == Shift(i - start, FirstSemi(sql[i..]))
      invariant Split(sql) == out + Split(sql[start..])
    {
      if sql[i] == ';' {
        FirstSemiStep(sql[i..]);
        SplitStep(sql[start..]);
        assert sql[start..][..i - start] == sql[start..i];
        assert sql[start..][i - start + 1..] == sql[i + 1..];
        out := out + [sql[start..i]];
        start := i + 1;
        i := i + 1;
      } else {
        FirstSemiStep(sql[i..]);
        var end, _ := SkipToken(sql, i);
        assert sql[i..][end - i..] == sql[end..];
        i := end;
      }
    }
    FirstSemiStep(sql[i..]);
    SplitStep(sql[start..]);
    if start < |sql| {
      out := out + [sql[start..]];
    }
  }

  method StripLiterals(sql: string) returns (out: string)
    ensures out == Strip(sql)
  {
    hide TokenLen, IsCode, PushBytes, Strip;
    out := "";
    var i := 0;
    assert sql[0..] == sql;
    while i < |sql|
      invariant i <= |sql|
      invariant Strip(sql) == out + Strip(sql[i..])
    {
      StripStep(sql[i..]);
      var end, code := SkipToken(sql, i);
      assert sql[i..][end - i..] == sql[end..];
      out := out + (if code then PushBytes(sql[i]) else " ");
      i := end;
    }
    StripStep(sql[i..]);
  }

  // ---------- leading noise ----------

  /** What follows a comment at the start of `s`, if there is one. Unlike the scanners above
      a block comment ends at the first closer, however many were opened. */
  function AfterComment(s: string): (r: Option<string>)
    ensures r.Some? ==> |r.value| < |s|
    ensures r.None? <==> !OpensLine(s) && !OpensBlock(s)
  {
    if OpensLine(s) then
      match LineEnd(s[2..])
      case Some(at) => Some(s[2..][at + 1..])
      case None => Some("")
    else if OpensBlock(s) then
      match Find(s[2..], "*/")
      case Some(at) => Some(s[2..][at + 2..])
      case None => Some("")
    else None
  }

  /** `strip_leading_noise`: drops leading blanks and comments. */
  function StripNoise(s: string): (r: string)
    ensures |r| <= |s|
    decreases |s|
  {
    var rest := TrimStart(s);
    match AfterComment(rest)
    case Some(after) => StripNoise(after)
    case None => rest
  }

  predicate NoiseFree(s: string) {
    s == [] || (!IsSpace(s[0]) && !OpensLine(s) && !OpensBlock(s))
  }

  lemma {:induction false} StripNoiseFixed(s: string)
    requires NoiseFree(s)
    ensures StripNoise(s) == s
  {}

  lemma {:induction false} StripNoiseIsNoiseFree(s: string)
    ensures NoiseFree(StripNoise(s))
    decreases |s|
  {
    hide AfterComment, TrimStart;
    var after := AfterComment(TrimStart(s));
    if after.Some? {
      StripNoiseIsNoiseFree(after.value);
    }
  }

  /** Dropping the noise twice is dropping it once. */
  lemma StripNoiseIdempotent(s: string)
    ensures StripNoise(StripNoise(s)) == StripNoise(s)
  {
    hide StripNoise;
    StripNoiseIsNoiseFree(s);
    StripNoiseFixed(StripNoise(s));
  }

  lemma {:induction false} StripNoiseStep(s: string)
    ensures TrimStart(TrimStart(s)) == TrimStart(s)
    ensures StripNoise(s) == match AfterComment(TrimStart(s)) {
                               case Some(after) => StripNoise(after)
                               case None => TrimStart(s)
                             }
  {
    hide AfterComment, TrimStart;
  }

  method StripLeadingNoise(sql: string) returns (rest: string)
    ensures rest == StripNoise(sql)
  {
    hide AfterComment, TrimStart, StripNoise;
    rest := TrimStart(sql);
    StripNoiseStep(sql);
    StripNoiseStep(rest);
    var after := AfterComment(rest);
    while after.Some?
      invariant after == AfterComment(rest)
      invariant StripNoise(rest) == StripNoise(sql)
      invariant TrimStart(rest) == rest
      decreases |rest|
    {
      StripNoiseStep(rest);
      StripNoiseStep(after.value);
      rest := TrimStart(after.value);
      StripNoiseStep(rest);
      after := AfterComment(rest);
    }
    StripNoiseStep(rest);
  }
}
