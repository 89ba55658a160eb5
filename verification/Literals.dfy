/** What a literal and a comment are, written down from the outside, and that the scanners of
    classify.rs read each of them as one, whatever stands in it and whatever follows. */
module Literals {
  import opened Text
  import Scanner

  // ---------- the forms ----------

  /** What may stand between quotes. */
  datatype Item = Plain(c: char) | Doubled | Escaped(c: char)

  function ShowItem(item: Item, q: char): string {
    match item
    case Plain(c) => [c]
    case Doubled => [q, q]
    case Escaped(c) => ['\\', c]
  }

  function ShowItems(items: seq<Item>, q: char): string {
    if items == [] then "" else ShowItem(items[0], q) + ShowItems(items[1..], q)
  }

  /** No quote or backslash stands alone. */
  predicate ItemsOk(items: seq<Item>, q: char) {
    forall i :: 0 <= i < |items| && items[i].Plain? ==> items[i].c != q && items[i].c != '\\'
  }

  predicate IsTag(tag: string) { forall i :: 0 <= i < |tag| ==> IsTagChar(tag[i]) }

  function Delimiter(tag: string): string { "$" + tag + "$" }

  /** `body` is closed by the delimiter after it, and not before. */
  predicate ClosedBy(body: string, delimiter: string) {
    forall i :: 0 <= i < |body| ==> !(delimiter <= (body + delimiter)[i..])
  }

  predicate Never(body: string, delimiter: string) {
    forall i :: 0 <= i < |body| ==> !(delimiter <= body[i..])
  }

  /** What follows the opening of a block comment: characters and comments, up to its end. */
  datatype Body = End | Char(c: char, rest: Body) | Inner(inner: Body, rest: Body)

  function ShowBody(b: Body): (r: string)
    ensures |r| >= 2
  {
    match b
    case End => "*/"
    case Char(c, rest) => [c] + ShowBody(rest)
    case Inner(inner, rest) => "/*" + ShowBody(inner) + ShowBody(rest)
  }

  /** No character makes an opening or an end with the next one. */
  predicate BodyOk(b: Body) {
    match b
    case End => true
    case Char(c, rest) => !(c == '/' && ShowBody(rest)[0] == '*') && !(c == '*' && ShowBody(rest)[0] == '/') && BodyOk(rest)
    case Inner(inner, rest) => BodyOk(inner) && BodyOk(rest)
  }

  // ---------- nested block comments ----------

  /** One character of a comment, or an opening. */
  lemma BlockChar(c: char, rest: string, depth: nat)
    requires depth > 0 && rest != [] && !(c == '/' && rest[0] == '*') && !(c == '*' && rest[0] == '/')
    ensures BlockEnd([c] + rest, depth) == Shift(1, BlockEnd(rest, depth))
  {
    hide BlockEnd;
    BlockEndStep([c] + rest, depth);
    assert ([c] + rest)[1..] == rest;
  }

  lemma BlockOpens(rest: string, depth: nat)
    requires depth > 0
    ensures BlockEnd("/*" + rest, depth) == Shift(2, BlockEnd(rest, depth + 1))
    ensures BlockEnd("*/" + rest, depth) == Shift(2, BlockEnd(rest, depth - 1))
  {
    hide BlockEnd;
    BlockEndStep("/*" + rest, depth);
    BlockEndStep("*/" + rest, depth);
    assert ("/*" + rest)[2..] == rest && ("*/" + rest)[2..] == rest;
  }

  /** A comment's body closes one level, however many it opens itself. */
  lemma {:induction false} BodyCloses(b: Body, rest: string, depth: nat)
    requires BodyOk(b) && depth > 0
    ensures BlockEnd(ShowBody(b) + rest, depth) == Shift(|ShowBody(b)|, BlockEnd(rest, depth - 1))
    decreases b
  {
    hide BlockEnd, BodyOk, ShowBody;
    CharIsOk(b);
    BodyShows(b, rest);
    match b {
      case End => BlockOpens(rest, depth);
      case Char(c, after) =>
        BlockChar(c, ShowBody(after) + rest, depth);
        BodyCloses(after, rest, depth);
      case Inner(inner, after) =>
        var more := ShowBody(after) + rest;
        BlockOpens(ShowBody(inner) + more, depth);
        BodyCloses(inner, more, depth + 1);
        BodyCloses(after, rest, depth);
    }
  }

  lemma BodyShows(b: Body, rest: string)
    ensures b.End? ==> ShowBody(b) + rest == "*/" + rest && |ShowBody(b)| == 2
    ensures b.Char? ==> ShowBody(b) + rest == [b.c] + (ShowBody(b.rest) + rest) && |ShowBody(b)| == 1 + |ShowBody(b.rest)|
    ensures b.Inner? ==>
              && ShowBody(b) + rest == "/*" + (ShowBody(b.inner) + (ShowBody(b.rest) + rest))
              && |ShowBody(b)| == 2 + |ShowBody(b.inner)| + |ShowBody(b.rest)|
  {
    match b {
      case End =>
      case Char(c, after) => Regroup([c], ShowBody(after), "", rest);
      case Inner(inner, after) => Regroup("/*", ShowBody(inner), ShowBody(after), rest);
    }
  }

  lemma Regroup(a: string, b: string, c: string, d: string)
    ensures a + b + c + d == a + (b + (c + d)) && |a + b + c| == |a| + |b| + |c| && a + b + "" == a + b && "" + d == d
  {}

  lemma CharIsOk(b: Body)
    requires BodyOk(b)
    ensures b.Char? ==> BodyOk(b.rest) && ShowBody(b.rest) != [] && !(b.c == '/' && ShowBody(b.rest)[0] == '*') && !(b.c == '*' && ShowBody(b.rest)[0] == '/')
    ensures b.Inner? ==> BodyOk(b.inner) && BodyOk(b.rest)
  {}

  // ---------- classify.rs: one literal ----------

  /** `lit` is one literal before `rest`: it strips to a blank, nothing in it is a cut, and what
      follows is read on its own. */
  predicate OneLiteral(lit: string, rest: string) {
    && Scanner.Strip(lit + rest) == " " + Scanner.Strip(rest)
    && Scanner.FirstSemi(lit + rest) == Shift(|lit|, Scanner.FirstSemi(rest))
    && Scanner.EndsInCode(lit + rest) == Scanner.EndsInCode(rest)
  }

  lemma IsOneLiteral(lit: string, rest: string)
    requires lit != [] && lit[0] != ';'
    requires var s := lit + rest; Scanner.Scan(s) == Some(|lit|) && !Scanner.IsCode(s)
    ensures OneLiteral(lit, rest)
  {
    hide Scanner.Scan, Scanner.IsCode, Scanner.Strip, Scanner.FirstSemi, Scanner.EndsInCode;
    var s := lit + rest;
    assert s[|lit|..] == rest && s[0] == lit[0];
    Scanner.StripStep(s);
    Scanner.FirstSemiStep(s);
    Scanner.EndsInCodeStep(s);
  }

  lemma {:induction false} ItemsClose(items: seq<Item>, q: char, rest: string)
    requires ItemsOk(items, q) && q != '\\' && (rest == [] || rest[0] != q)
    ensures Scanner.QuoteEnd(ShowItems(items, q) + ([q] + rest), q) == Some(|ShowItems(items, q)| + 1)
  {
    hide Scanner.QuoteEnd;
    var tail := [q] + rest;
    var s := ShowItems(items, q) + tail;
    Scanner.QuoteEndStep(s, q);
    if items == [] {
      assert s == tail;
    } else {
      var more := ShowItems(items[1..], q) + tail;
      ItemsClose(items[1..], q, rest);
      assert s == ShowItem(items[0], q) + more;
      match items[0] {
        case Plain(c) => assert s[1..] == more;
        case Doubled => assert s[2..] == more && s[1] == q;
        case Escaped(c) => assert s[2..] == more;
      }
    }
  }

  /** Quoted text: quotes doubled, and a backslash with whatever follows it. */
  lemma QuotedIsOne(items: seq<Item>, q: char, rest: string)
    requires ItemsOk(items, q) && (q == '\'' || q == '"') && (rest == [] || rest[0] != q)
    ensures OneLiteral([q] + ShowItems(items, q) + [q], rest)
  {
    hide Scanner.QuoteEnd, ShowItems, OneLiteral;
    var lit := [q] + ShowItems(items, q) + [q];
    var s := lit + rest;
    ItemsClose(items, q, rest);
    assert s[1..] == ShowItems(items, q) + ([q] + rest) && s[0] == q;
    IsOneLiteral(lit, rest);
  }

  lemma {:induction false} TagRunIs(tag: string, rest: string)
    requires IsTag(tag) && (rest == [] || !IsTagChar(rest[0]))
    ensures TagRun(tag + rest) == |tag|
  {
    var s := tag + rest;
    if tag == [] {
      assert s == rest;
    } else {
      assert s[1..] == tag[1..] + rest;
      TagRunIs(tag[1..], rest);
    }
  }

  /** An opening delimiter is read as such, whatever follows. */
  lemma DelimiterOpens(tag: string, rest: string)
    requires IsTag(tag)
    ensures var s := Delimiter(tag) + rest;
            Scanner.DollarTagLen(s) == Some(|tag| + 2) && s[..|tag| + 2] == Delimiter(tag) && s[|tag| + 2..] == rest
  {
    hide TagRun;
    var s := Delimiter(tag) + rest;
    assert s[1..] == tag + ("$" + rest);
    TagRunIs(tag, "$" + rest);
    assert s[1 + |tag|] == '$';
  }

  lemma {:induction false} BodyEnds(body: string, delimiter: string, rest: string)
    requires delimiter != [] && ClosedBy(body, delimiter)
    ensures Scanner.TagEnd(body + (delimiter + rest), delimiter) == Some(|body| + |delimiter|)
  {
    hide Scanner.TagEnd;
    var s := body + (delimiter + rest);
    Scanner.TagEndStep(s, delimiter);
    if body == [] {
      assert s == delimiter + rest;
    } else {
      assert (body + delimiter)[0..] == body + delimiter && s[..|delimiter|] == (body + delimiter)[..|delimiter|];
      assert s[1..] == body[1..] + (delimiter + rest);
      forall i | 0 <= i < |body[1..]| ensures !(delimiter <= (body[1..] + delimiter)[i..]) {
        assert (body[1..] + delimiter)[i..] == (body + delimiter)[i + 1..];
      }
      BodyEnds(body[1..], delimiter, rest);
    }
  }

  /** Dollar-quoted text with any tag, the empty one included. */
  lemma DollarIsOne(tag: string, body: string, rest: string)
    requires IsTag(tag) && ClosedBy(body, Delimiter(tag))
    ensures OneLiteral(Delimiter(tag) + body + Delimiter(tag), rest)
  {
    hide Scanner.DollarTagLen, Scanner.TagEnd, OneLiteral, ClosedBy;
    var lit := Delimiter(tag) + body + Delimiter(tag);
    var s := lit + rest;
    assert s == Delimiter(tag) + (body + (Delimiter(tag) + rest)) && s[0] == '$';
    DelimiterOpens(tag, body + (Delimiter(tag) + rest));
    BodyEnds(body, Delimiter(tag), rest);
    IsOneLiteral(lit, rest);
  }

  lemma {:induction false} LineEnds(text: string, rest: string)
    requires '\n' !in text && rest != [] && rest[0] == '\n'
    ensures Scanner.LineEnd(text + rest) == Some(|text|)
  {
    var s := text + rest;
    if text == [] {
      assert s == rest;
    } else {
      assert s[1..] == text[1..] + rest;
      LineEnds(text[1..], rest);
    }
  }

  /** A line comment, up to the line break. */
  lemma LineCommentIsOne(text: string, rest: string)
    requires '\n' !in text && rest != [] && rest[0] == '\n'
    ensures OneLiteral("--" + text, rest)
  {
    hide Scanner.LineEnd, OneLiteral;
    var lit := "--" + text;
    LineEnds(lit, rest);
    assert (lit + rest)[0] == '-' && (lit + rest)[1] == '-';
    NoDollar(lit + rest);
    IsOneLiteral(lit, rest);
  }

  lemma NoDollar(s: string)
    requires s != [] && s[0] != '$'
    ensures Scanner.DollarTagLen(s).None?
  {}

  /** A block comment with comments in it. */
  lemma BlockCommentIsOne(b: Body, rest: string)
    requires BodyOk(b)
    ensures OneLiteral("/*" + ShowBody(b), rest)
  {
    hide BlockEnd, OneLiteral, BodyOk, ShowBody;
    var lit := "/*" + ShowBody(b);
    var s := lit + rest;
    assert s[2..] == ShowBody(b) + rest && s[0] == '/' && s[1] == '*';
    BodyCloses(b, rest, 1);
    BlockEndStep(rest, 0);
    NoDollar(s);
    IsOneLiteral(lit, rest);
  }

  // ---------- classify.rs: left open ----------

  /** All of `s` is an open literal: it strips to a blank, and no `;` in it is a cut. */
  predicate OpenLiteral(s: string) {
    Scanner.Strip(s) == " " && Scanner.FirstSemi(s).None? && !Scanner.EndsInCode(s)
  }

  lemma IsOpenLiteral(s: string)
    requires s != [] && s[0] != ';' && Scanner.Scan(s).None? && !Scanner.IsCode(s)
    ensures OpenLiteral(s)
  {
    hide Scanner.Scan, Scanner.IsCode, Scanner.Strip, Scanner.FirstSemi, Scanner.EndsInCode;
    assert s[|s|..] == "";
    Scanner.StripStep(s);
    Scanner.StripStep("");
    Scanner.FirstSemiStep(s);
    Scanner.FirstSemiStep("");
    Scanner.EndsInCodeStep(s);
  }

  lemma {:induction false} ItemsStayOpen(items: seq<Item>, q: char)
    requires ItemsOk(items, q) && q != '\\'
    ensures Scanner.QuoteEnd(ShowItems(items, q), q).None?
  {
    hide Scanner.QuoteEnd;
    var s := ShowItems(items, q);
    Scanner.QuoteEndStep(s, q);
    if items != [] {
      var more := ShowItems(items[1..], q);
      ItemsStayOpen(items[1..], q);
      match items[0] {
        case Plain(c) => assert s[1..] == more;
        case Doubled => assert s[2..] == more;
        case Escaped(c) => assert s[2..] == more;
      }
    }
  }

  lemma QuotedStaysOpen(items: seq<Item>, q: char)
    requires ItemsOk(items, q) && (q == '\'' || q == '"')
    ensures OpenLiteral([q] + ShowItems(items, q))
  {
    hide Scanner.QuoteEnd, ShowItems, OpenLiteral;
    var s := [q] + ShowItems(items, q);
    ItemsStayOpen(items, q);
    assert s[1..] == ShowItems(items, q);
    IsOpenLiteral(s);
  }

  lemma {:induction false} NeverEnds(body: string, delimiter: string)
    requires delimiter != [] && Never(body, delimiter)
    ensures Scanner.TagEnd(body, delimiter).None?
  {
    if body != [] {
      assert body[0..] == body;
      forall i | 0 <= i < |body[1..]| ensures !(delimiter <= body[1..][i..]) { assert body[1..][i..] == body[i + 1..]; }
      NeverEnds(body[1..], delimiter);
    }
  }

  lemma DollarStaysOpen(tag: string, body: string)
    requires IsTag(tag) && Never(body, Delimiter(tag))
    ensures OpenLiteral(Delimiter(tag) + body)
  {
    hide Scanner.DollarTagLen, Scanner.TagEnd, OpenLiteral, Never;
    var s := Delimiter(tag) + body;
    DelimiterOpens(tag, body);
    NeverEnds(body, Delimiter(tag));
    assert s[0] == '$';
    IsOpenLiteral(s);
  }

  lemma {:induction false} LineNeverEnds(text: string)
    requires '\n' !in text
    ensures Scanner.LineEnd(text).None?
  {
    if text != [] { LineNeverEnds(text[1..]); }
  }

  /** A line comment at the end of the text. */
  lemma LineCommentStaysOpen(text: string)
    requires '\n' !in text
    ensures OpenLiteral("--" + text)
  {
    hide Scanner.LineEnd, OpenLiteral;
    var s := "--" + text;
    LineNeverEnds(s);
    assert s[0] == '-' && s[1] == '-';
    NoDollar(s);
    IsOpenLiteral(s);
  }

  // ---------- classify.rs: code ----------

  /** A `$` before tag characters and no further `$` is code, and so is what follows it. */
  lemma DollarIsCode(tag: string, rest: string)
    requires IsTag(tag) && (rest == [] || (!IsTagChar(rest[0]) && rest[0] != '$'))
    ensures Scanner.Strip("$" + (tag + rest)) == "$" + Scanner.Strip(tag + rest)
    ensures Scanner.FirstSemi("$" + (tag + rest)) == Shift(1, Scanner.FirstSemi(tag + rest))
  {
    hide Scanner.Strip, Scanner.FirstSemi, TagRun, Scanner.TokenLen;
    var s := "$" + (tag + rest);
    assert s[1..] == tag + rest;
    TagRunIs(tag, rest);
    assert Scanner.DollarTagLen(s).None? by { if |tag| + 1 < |s| { assert s[|tag| + 1] == rest[0]; } }
    CodeIsKept(s);
  }

  lemma CodeIsKept(s: string)
    requires s != [] && Scanner.IsCode(s) && s[0] != ';' && IsAscii(s[0])
    ensures Scanner.Strip(s) == [s[0]] + Scanner.Strip(s[1..])
    ensures Scanner.FirstSemi(s) == Shift(1, Scanner.FirstSemi(s[1..]))
  {
    hide Scanner.IsCode, Scanner.Strip, Scanner.FirstSemi;
    Scanner.StripStep(s);
    Scanner.FirstSemiStep(s);
    assert Scanner.TokenLen(s) == 1;
  }

  /** Any other character is code where it opens no comment; a `;` of that kind is a cut. */
  lemma CharIsCode(c: char, rest: string)
    requires c != '\'' && c != '"' && c != '$' && !(c == '-' && rest != [] && rest[0] == '-') && !(c == '/' && rest != [] && rest[0] == '*')
    ensures IsAscii(c) ==> Scanner.Strip([c] + rest) == [c] + Scanner.Strip(rest)
    ensures Scanner.FirstSemi([c] + rest) == if c == ';' then Some(0) else Shift(1, Scanner.FirstSemi(rest))
  {
    hide Scanner.Strip, Scanner.FirstSemi;
    var s := [c] + rest;
    assert s[1..] == rest;
    Scanner.StripStep(s);
    Scanner.FirstSemiStep(s);
    assert Scanner.IsCode(s) && Scanner.TokenLen(s) == 1;
  }

  // ---------- leading noise ----------

  /** Comments before a statement do not nest: the first end closes. */
  lemma NoiseBlock(body: string, rest: string)
    requires ClosedBy(body, "*/")
    ensures Scanner.StripNoise("/*" + body + "*/" + rest) == Scanner.StripNoise(rest)
  {
    hide Find, Scanner.StripNoise, TrimStart;
    var s := "/*" + (body + ("*/" + rest));
    assert s == "/*" + body + "*/" + rest;
    Scanner.StripNoiseStep(s);
    assert s[2..] == body + ("*/" + rest) && s[0] == '/' && s[1] == '*';
    FindClosed(body, "*/", rest);
    assert s[2..][|body| + 2..] == rest;
  }

  lemma {:induction false} FindClosed(body: string, delimiter: string, rest: string)
    requires delimiter != [] && ClosedBy(body, delimiter)
    ensures Find(body + (delimiter + rest), delimiter) == Some(|body|)
  {
    var s := body + (delimiter + rest);
    if body == [] {
      assert s == delimiter + rest;
    } else {
      assert (body + delimiter)[0..] == body + delimiter && s[..|delimiter|] == (body + delimiter)[..|delimiter|];
      assert s[1..] == body[1..] + (delimiter + rest);
      forall i | 0 <= i < |body[1..]| ensures !(delimiter <= (body[1..] + delimiter)[i..]) {
        assert (body[1..] + delimiter)[i..] == (body + delimiter)[i + 1..];
      }
      FindClosed(body[1..], delimiter, rest);
    }
  }

  lemma NoiseLine(text: string, rest: string)
    requires '\n' !in text
    ensures Scanner.StripNoise("--" + text + "\n" + rest) == Scanner.StripNoise(rest)
  {
    hide Scanner.LineEnd, Scanner.StripNoise, TrimStart;
    var s := "--" + (text + ("\n" + rest));
    assert s == "--" + text + "\n" + rest;
    Scanner.StripNoiseStep(s);
    assert s[0] == '-' && s[1] == '-' && s[2..] == text + ("\n" + rest);
    LineEnds(text, "\n" + rest);
    assert s[2..][|text| + 1..] == rest;
  }

  lemma NoiseLastLine(text: string)
    requires '\n' !in text
    ensures Scanner.StripNoise("--" + text) == ""
  {
    hide Scanner.LineEnd, Scanner.StripNoise, TrimStart;
    var t := "--" + text;
    Scanner.StripNoiseStep(t);
    assert t[0] == '-' && t[1] == '-' && t[2..] == text;
    LineNeverEnds(text);
    NothingIsNoise();
  }

  /** A block comment before a statement that never ends takes the rest. */
  lemma NoiseOpenBlock(body: string)
    requires Never(body, "*/")
    ensures Scanner.StripNoise("/*" + body) == ""
  {
    hide Find, Scanner.StripNoise, TrimStart, Never;
    var s := "/*" + body;
    Scanner.StripNoiseStep(s);
    assert s[0] == '/' && s[1] == '*' && s[2..] == body;
    FindNever(body, "*/");
    NothingIsNoise();
  }

  lemma {:induction false} FindNever(body: string, delimiter: string)
    requires delimiter != [] && Never(body, delimiter)
    ensures Find(body, delimiter) == None
  {
    if body != [] {
      assert body[0..] == body;
      forall i | 0 <= i < |body[1..]| ensures !(delimiter <= body[1..][i..]) { assert body[1..][i..] == body[i + 1..]; }
      FindNever(body[1..], delimiter);
    }
  }

  lemma NothingIsNoise()
    ensures Scanner.StripNoise("") == ""
  {
    Scanner.StripNoiseStep("");
  }

  lemma NoiseBlank(c: char, rest: string)
    requires IsSpace(c)
    ensures Scanner.StripNoise([c] + rest) == Scanner.StripNoise(rest)
  {
    Scanner.StripNoiseStep([c] + rest);
    Scanner.StripNoiseStep(rest);
    assert ([c] + rest)[1..] == rest;
    assert TrimStart([c] + rest) == TrimStart(rest);
  }
}
