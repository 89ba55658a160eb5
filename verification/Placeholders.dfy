/** Which tokens rewrite.rs finds in a statement written down piece by piece: placeholders through
    a decimal printer, and every form of literal. */
module Placeholders {
  import opened Text
  import opened Literals
  import opened Rewrite

  // ---------- numbers in decimal ----------

  function DigitOf(n: nat): char
    requires n < 10
  {
    ['0', '1', '2', '3', '4', '5', '6', '7', '8', '9'][n]
  }

  function Decimal(n: nat): (r: string)
    ensures r != [] && forall i :: 0 <= i < |r| ==> IsDigit(r[i])
  {
    if n < 10 then [DigitOf(n)] else Decimal(n / 10) + [DigitOf(n % 10)]
  }

  function Zeros(n: nat): (r: string)
    ensures |r| == n && forall i :: 0 <= i < n ==> r[i] == '0'
  {
    if n == 0 then "" else "0" + Zeros(n - 1)
  }

  predicate AllDigits(s: string) { forall i :: 0 <= i < |s| ==> IsDigit(s[i]) }

  lemma NumberOfMore(s: string, n: nat)
    requires AllDigits(s) && n < 10
    ensures AllDigits(s + [DigitOf(n)]) && Number(s + [DigitOf(n)]) == 10 * Number(s) + n
  {
    var t := s + [DigitOf(n)];
    assert t[..|t| - 1] == s;
  }

  lemma {:induction false} NumberOfZeros(z: nat)
    ensures Number(Zeros(z)) == 0
  {
    if z > 0 {
      var s := Zeros(z);
      assert s[..z - 1] == Zeros(z - 1) && s[z - 1] == '0';
      NumberOfZeros(z - 1);
    }
  }

  /** What is printed is read, leading zeros or not. */
  lemma {:induction false} NumberOfDecimal(z: nat, n: nat)
    ensures AllDigits(Zeros(z) + Decimal(n)) && Number(Zeros(z) + Decimal(n)) == n
  {
    if n < 10 {
      NumberOfZeros(z);
      NumberOfMore(Zeros(z), n);
    } else {
      NumberOfDecimal(z, n / 10);
      NumberOfMore(Zeros(z) + Decimal(n / 10), n % 10);
      assert Zeros(z) + Decimal(n) == Zeros(z) + Decimal(n / 10) + [DigitOf(n % 10)];
    }
  }

  lemma {:induction false} DigitRunIs(digits: string, rest: string)
    requires AllDigits(digits) && (rest == [] || !IsDigit(rest[0]))
    ensures DigitRun(digits + rest) == |digits|
  {
    var s := digits + rest;
    if digits == [] {
      assert s == rest;
    } else {
      assert s[1..] == digits[1..] + rest;
      DigitRunIs(digits[1..], rest);
    }
  }

  function Dollar(z: nat, n: nat): string { "$" + (Zeros(z) + Decimal(n)) }

  /** `$n` is the n-th placeholder, up to 65535; a larger number is none, and its `$` is copied. */
  lemma PlaceholderIs(z: nat, n: nat, rest: string)
    requires rest == [] || !IsDigit(rest[0])
    ensures n <= 65535 ==> Head(Dollar(z, n) + rest) == Param(n, Dollar(z, n))
    ensures n > 65535 ==> Head(Dollar(z, n) + rest) == Copy("$")
  {
    hide DigitRun, Number, Decimal, Zeros;
    var digits := Zeros(z) + Decimal(n);
    var s := Dollar(z, n) + rest;
    NumberOfDecimal(z, n);
    DigitRunIs(digits, rest);
    assert s[1..] == digits + rest && (digits + rest)[..|digits|] == digits;
    assert s[..|digits| + 1] == Dollar(z, n) && s[..1] == "$" && IsDigit(s[1]);
    assert TagLen(s).None?;
  }

  // ---------- literals ----------

  predicate Doubles(items: seq<Item>) { forall i :: 0 <= i < |items| ==> !items[i].Escaped? }

  /** Quotes are doubled; a backslash is a character like any other. */
  predicate PlainItems(items: seq<Item>, q: char) {
    Doubles(items) && forall i :: 0 <= i < |items| && items[i].Plain? ==> items[i].c != q
  }

  lemma {:induction false} QuotedClose(items: seq<Item>, q: char, rest: string)
    requires PlainItems(items, q) && (rest == [] || rest[0] != q)
    ensures QuotedEnd(ShowItems(items, q) + ([q] + rest), q) == Some(|ShowItems(items, q)| + 1)
  {
    var tail := [q] + rest;
    var s := ShowItems(items, q) + tail;
    if items == [] {
      assert s == tail;
    } else {
      var more := ShowItems(items[1..], q) + tail;
      QuotedClose(items[1..], q, rest);
      assert s == ShowItem(items[0], q) + more;
      match items[0] {
        case Plain(c) => assert s[1..] == more;
        case Doubled => assert s[2..] == more && s[1] == q;
      }
    }
  }

  lemma QuotedIsCopied(items: seq<Item>, q: char, rest: string)
    requires PlainItems(items, q) && (q == '\'' || q == '"') && (rest == [] || rest[0] != q)
    ensures var lit := [q] + ShowItems(items, q) + [q]; Head(lit + rest) == Copy(lit)
  {
    hide QuotedEnd, ShowItems;
    var lit := [q] + ShowItems(items, q) + [q];
    var s := lit + rest;
    QuotedClose(items, q, rest);
    assert s[1..] == ShowItems(items, q) + ([q] + rest) && s[0] == q && s[..|lit|] == lit;
  }

  lemma {:induction false} LineEndIs(text: string, rest: string)
    requires '\n' !in text && (rest == [] || rest[0] == '\n')
    ensures LineEnd(text + rest) == |text|
  {
    var s := text + rest;
    if text == [] {
      assert s == rest;
    } else {
      assert s[1..] == text[1..] + rest;
      LineEndIs(text[1..], rest);
    }
  }

  lemma LineCommentIsCopied(text: string, rest: string)
    requires '\n' !in text && (rest == [] || rest[0] == '\n')
    ensures Head("--" + text + rest) == Copy("--" + text)
  {
    hide LineEnd;
    var s := "--" + text + rest;
    LineEndIs(text, rest);
    assert s[2..] == text + rest && s[0] == '-' && s[1] == '-' && s[..2 + |text|] == "--" + text;
  }

  lemma BlockCommentIsCopied(b: Body, rest: string)
    requires BodyOk(b)
    ensures Head("/*" + ShowBody(b) + rest) == Copy("/*" + ShowBody(b))
  {
    hide BlockEnd, ShowBody, BodyOk;
    var lit := "/*" + ShowBody(b);
    var s := lit + rest;
    BodyCloses(b, rest, 1);
    BlockEndStep(rest, 0);
    assert s[2..] == ShowBody(b) + rest && s[0] == '/' && s[1] == '*' && s[..|lit|] == lit;
  }

  /** A tag: empty, or not beginning with a digit. */
  predicate IsDollarTag(tag: string) { IsTag(tag) && (tag == [] || !IsDigit(tag[0])) }

  lemma TagLenIs(tag: string, rest: string)
    requires IsDollarTag(tag)
    ensures var s := Delimiter(tag) + rest;
            TagLen(s) == Some(|tag| + 2) && s[..|tag| + 2] == Delimiter(tag) && s[|tag| + 2..] == rest
  {
    hide TagRun;
    var s := Delimiter(tag) + rest;
    assert s[1..] == tag + ("$" + rest);
    TagRunIs(tag, "$" + rest);
    assert s[1 + |tag|] == '$';
    assert tag != [] ==> s[1] == tag[0];
  }

  lemma {:induction false} TagEndIs(body: string, delimiter: string, rest: string)
    requires delimiter != [] && ClosedBy(body, delimiter)
    ensures TagEnd(body + (delimiter + rest), delimiter) == Some(|body| + |delimiter|)
  {
    var s := body + (delimiter + rest);
    if body == [] {
      assert s == delimiter + rest;
    } else {
      assert (body + delimiter)[0..] == body + delimiter && s[..|delimiter|] == (body + delimiter)[..|delimiter|];
      assert s[1..] == body[1..] + (delimiter + rest);
      forall i | 0 <= i < |body[1..]| ensures !(delimiter <= (body[1..] + delimiter)[i..]) {
        assert (body[1..] + delimiter)[i..] == (body + delimiter)[i + 1..];
      }
      TagEndIs(body[1..], delimiter, rest);
    }
  }

  lemma DollarIsCopied(tag: string, body: string, rest: string)
    requires IsDollarTag(tag) && ClosedBy(body, Delimiter(tag))
    ensures var lit := Delimiter(tag) + body + Delimiter(tag); Head(lit + rest) == Copy(lit)
  {
    hide TagLen, TagEnd, ClosedBy;
    var lit := Delimiter(tag) + body + Delimiter(tag);
    var s := lit + rest;
    assert s == Delimiter(tag) + (body + (Delimiter(tag) + rest)) && s[0] == '$' && s[..|lit|] == lit;
    TagLenIs(tag, body + (Delimiter(tag) + rest));
    TagEndIs(body, Delimiter(tag), rest);
  }

  lemma {:induction false} TagNeverEnds(body: string, delimiter: string)
    requires delimiter != [] && Never(body, delimiter)
    ensures TagEnd(body, delimiter).None?
  {
    if body != [] && |body| >= |delimiter| {
      assert body[0..] == body;
      forall i | 0 <= i < |body[1..]| ensures !(delimiter <= body[1..][i..]) { assert body[1..][i..] == body[i + 1..]; }
      TagNeverEnds(body[1..], delimiter);
    }
  }

  /** A dollar quote that is never closed takes the rest of the statement. */
  lemma OpenDollarIsCopied(tag: string, body: string)
    requires IsDollarTag(tag) && Never(body, Delimiter(tag))
    ensures Head(Delimiter(tag) + body) == Copy(Delimiter(tag) + body)
  {
    hide TagLen, TagEnd, Never;
    var s := Delimiter(tag) + body;
    TagLenIs(tag, body);
    TagNeverEnds(body, Delimiter(tag));
    assert s[0] == '$' && s[..|s|] == s;
  }

  lemma {:induction false} QuotedStaysOpen(items: seq<Item>, q: char)
    requires PlainItems(items, q)
    ensures QuotedEnd(ShowItems(items, q), q).None?
  {
    var s := ShowItems(items, q);
    if items != [] {
      var more := ShowItems(items[1..], q);
      QuotedStaysOpen(items[1..], q);
      match items[0] {
        case Plain(c) => assert s[1..] == more;
        case Doubled => assert s[2..] == more && s[1] == q;
      }
    }
  }

  lemma OpenQuotedIsCopied(items: seq<Item>, q: char)
    requires PlainItems(items, q) && (q == '\'' || q == '"')
    ensures var s := [q] + ShowItems(items, q); Head(s) == Copy(s)
  {
    hide QuotedEnd, ShowItems;
    var s := [q] + ShowItems(items, q);
    QuotedStaysOpen(items, q);
    assert s[1..] == ShowItems(items, q) && s[..|s|] == s;
  }

  // ---------- whole statements ----------

  /** A statement, written piece by piece. */
  datatype Piece =
    | Code(c: char)
    | Slot(zeros: nat, n: nat)
    | Quote(q: char, items: seq<Item>)
    | DollarQuote(tag: string, body: string)
    | LineComment(text: string)
    | BlockComment(b: Body)

  function Show(p: Piece): string {
    match p
    case Code(c) => [c]
    case Slot(zeros, n) => Dollar(zeros, n)
    case Quote(q, items) => [q] + ShowItems(items, q) + [q]
    case DollarQuote(tag, body) => Delimiter(tag) + body + Delimiter(tag)
    case LineComment(text) => "--" + text
    case BlockComment(b) => "/*" + ShowBody(b)
  }

  function Render(pieces: seq<Piece>): string { if pieces == [] then "" else Show(pieces[0]) + Render(pieces[1..]) }

  /** The piece is well formed and not drawn into what follows. */
  predicate PieceOk(p: Piece, rest: string) {
    match p
    case Code(c) =>
      && c != '\'' && c != '"' && c != '$'
      && !(c == '-' && rest != [] && rest[0] == '-') && !(c == '/' && rest != [] && rest[0] == '*')
    case Slot(_, n) => n <= 65535 && (rest == [] || !IsDigit(rest[0]))
    case Quote(q, items) => (q == '\'' || q == '"') && PlainItems(items, q) && (rest == [] || rest[0] != q)
    case DollarQuote(tag, body) => IsDollarTag(tag) && ClosedBy(body, Delimiter(tag))
    case LineComment(text) => '\n' !in text && (rest == [] || rest[0] == '\n')
    case BlockComment(b) => BodyOk(b)
  }

  predicate PiecesOk(pieces: seq<Piece>) {
    pieces == [] || (PieceOk(pieces[0], Render(pieces[1..])) && PiecesOk(pieces[1..]))
  }

  function TokenOf(p: Piece): Token { if p.Slot? then Param(p.n, Show(p)) else Copy(Show(p)) }

  lemma CodeIsCopied(c: char, rest: string)
    requires PieceOk(Code(c), rest)
    ensures Head([c] + rest) == Copy([c])
  {
    OrdinaryHead([c] + rest);
  }

  lemma PieceIsToken(p: Piece, rest: string)
    requires PieceOk(p, rest)
    ensures Head(Show(p) + rest) == TokenOf(p)
  {
    hide Head, ShowItems, ShowBody, Decimal, Zeros, PlainItems, ClosedBy, BodyOk, IsDollarTag;
    match p {
      case Code(c) => CodeIsCopied(c, rest);
      case Slot(zeros, n) => PlaceholderIs(zeros, n, rest);
      case Quote(q, items) => QuotedIsCopied(items, q, rest);
      case DollarQuote(tag, body) => DollarIsCopied(tag, body, rest);
      case LineComment(text) => LineCommentIsCopied(text, rest);
      case BlockComment(b) => BlockCommentIsCopied(b, rest);
    }
  }

  /** The statement is read as it was written. */
  lemma {:induction false} LexReads(pieces: seq<Piece>)
    requires PiecesOk(pieces)
    ensures Lex(Render(pieces)) == Map(TokenOf, pieces)
  {
    hide Head, Show, PieceOk;
    if pieces != [] {
      var p, rest := pieces[0], Render(pieces[1..]);
      PieceIsToken(p, rest);
      assert TokenOf(p).text == Show(p);
      var s := Show(p) + rest;
      assert s != [] && s[|Show(p)|..] == rest by { ShowsSome(p); }
      LexReads(pieces[1..]);
      assert Map(TokenOf, pieces) == [TokenOf(p)] + Map(TokenOf, pieces[1..]);
    }
  }

  lemma ShowsSome(p: Piece)
    ensures Show(p) != []
  {
    hide ShowItems, ShowBody, Decimal, Zeros;
  }

  // ---------- what the translation is ----------

  /** The statement with a `?` for every placeholder. */
  function RenderJdbc(pieces: seq<Piece>): string {
    if pieces == [] then "" else (if pieces[0].Slot? then "?" else Show(pieces[0])) + RenderJdbc(pieces[1..])
  }

  /** The numbers of the placeholders, counted from zero, `$0` left out. */
  function Numbers(pieces: seq<Piece>): seq<nat> {
    if pieces == [] then []
    else (if pieces[0].Slot? && pieces[0].n > 0 then [pieces[0].n - 1] else []) + Numbers(pieces[1..])
  }

  predicate Uses(pieces: seq<Piece>, n: nat) { exists i :: 0 <= i < |pieces| && pieces[i].Slot? && pieces[i].n == n }

  /** `to_jdbc`, from the outside: a `?` for every placeholder and everything else as it was, the
      numbers of the placeholders in order, and the largest of them. */
  lemma {:induction false} TranslatesPieces(pieces: seq<Piece>)
    requires PiecesOk(pieces)
    ensures var r := ToJdbc(Render(pieces));
            && r.sql == RenderJdbc(pieces) && r.order == Numbers(pieces)
            && (forall n: nat :: Uses(pieces, n) ==> n <= r.highest) && (r.highest > 0 ==> Uses(pieces, r.highest))
  {
    hide Lex, Show, Uses;
    LexReads(pieces);
    OutOfPieces(pieces);
    HighestOfPieces(pieces);
  }

  lemma {:induction false} OutOfPieces(pieces: seq<Piece>)
    ensures Out(Map(TokenOf, pieces)) == RenderJdbc(pieces) && Order(Map(TokenOf, pieces)) == Numbers(pieces)
  {
    hide Show;
    if pieces != [] {
      assert Map(TokenOf, pieces)[1..] == Map(TokenOf, pieces[1..]);
      OutOfPieces(pieces[1..]);
    }
  }

  lemma {:induction false} HighestOfPieces(pieces: seq<Piece>)
    ensures var h := Highest(Map(TokenOf, pieces)); (forall n: nat :: Uses(pieces, n) ==> n <= h) && (h > 0 ==> Uses(pieces, h))
  {
    hide Show;
    if pieces != [] {
      var rest := pieces[1..];
      assert Map(TokenOf, pieces)[1..] == Map(TokenOf, rest);
      HighestOfPieces(rest);
      forall n: nat | Uses(rest, n) ensures Uses(pieces, n) {
        var i :| 0 <= i < |rest| && rest[i].Slot? && rest[i].n == n;
        assert pieces[i + 1] == rest[i];
      }
      forall n: nat | Uses(pieces, n) ensures Uses(rest, n) || (pieces[0].Slot? && pieces[0].n == n) {
        var i :| 0 <= i < |pieces| && pieces[i].Slot? && pieces[i].n == n;
        if i > 0 { assert rest[i - 1] == pieces[i]; }
      }
      assert pieces[0].Slot? ==> Uses(pieces, pieces[0].n);
    }
  }

  /** And what the client meant by it: every `$n` stands for the n-th value. */
  function Meant<V>(pieces: seq<Piece>, values: seq<Option<V>>): seq<Part<V>> {
    if pieces == [] then []
    else
      [if pieces[0].Slot? && pieces[0].n > 0 then Value(if pieces[0].n <= |values| then values[pieces[0].n - 1] else None)
       else Part.Text(Show(pieces[0]))] + Meant(pieces[1..], values)
  }

  lemma {:induction false} MeantIsFilled<V>(pieces: seq<Piece>, values: seq<Option<V>>)
    requires PiecesOk(pieces)
    ensures FillDollar(Lex(Render(pieces)), values) == Meant(pieces, values)
  {
    hide Lex, Show;
    LexReads(pieces);
    FilledPieces(pieces, values);
  }

  lemma {:induction false} FilledPieces<V>(pieces: seq<Piece>, values: seq<Option<V>>)
    ensures FillDollar(Map(TokenOf, pieces), values) == Meant(pieces, values)
  {
    hide Show;
    if pieces != [] {
      assert Map(TokenOf, pieces)[1..] == Map(TokenOf, pieces[1..]);
      FilledPieces(pieces[1..], values);
    }
  }
}
