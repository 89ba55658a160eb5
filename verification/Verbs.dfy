/** How the server of the parameter runs reads the first word of a statement: past blanks and
    comments, nested ones included, and in any letter case. */
module Verbs {
  import opened Text
  import Scanner
  import opened Literals
  import opened ParamRuns

  lemma NoisyBlank(c: char, rest: string)
    requires IsSpace(c)
    ensures Unnoised([c] + rest) == Unnoised(rest)
  {
    assert ([c] + rest)[1..] == rest;
    assert TrimStart([c] + rest) == TrimStart(rest);
  }

  lemma NoisyBlock(b: Body, rest: string)
    requires BodyOk(b)
    ensures Unnoised("/*" + ShowBody(b) + rest) == Unnoised(rest)
  {
    hide BlockEnd, BodyOk, ShowBody, Unnoised, TrimStart;
    var inside := ShowBody(b) + rest;
    assert "/*" + ShowBody(b) + rest == "/*" + inside;
    BodyCloses(b, rest, 1);
    BlockEndStep(rest, 0);
    assert inside[|ShowBody(b)|..] == rest;
    BlockSkips(inside, |ShowBody(b)|, rest);
  }

  lemma BeginsHere(s: string)
    requires s != [] && !IsSpace(s[0])
    ensures TrimStart(s) == s
  {}

  lemma UnnoisedStep(s: string)
    requires TrimStart(s) == s
    ensures OpensLine(s) ==> Unnoised(s) == match Scanner.LineEnd(s) case None => "" case Some(n) => Unnoised(s[n + 1..])
    ensures OpensBlock(s) ==>
              Unnoised(s) == match BlockEnd(s[2..], 1) case None => "" case Some(n) => Unnoised(s[2 + n..])
    ensures !OpensLine(s) && !OpensBlock(s) ==> Unnoised(s) == s
  {
    hide TrimStart, BlockEnd, Scanner.LineEnd;
  }

  lemma BlockSkips(inside: string, n: nat, rest: string)
    requires BlockEnd(inside, 1) == Some(n) && n <= |inside| && inside[n..] == rest
    ensures Unnoised("/*" + inside) == Unnoised(rest)
  {
    hide BlockEnd, TrimStart, Unnoised;
    var s := "/*" + inside;
    assert s[0] == '/' && s[1] == '*' && s[2..] == inside;
    assert s[2 + n..] == rest;
    BeginsHere(s);
    UnnoisedStep(s);
  }

  lemma NoisyLine(text: string, rest: string)
    requires '\n' !in text
    ensures Unnoised("--" + text + "\n" + rest) == Unnoised(rest)
    ensures Unnoised("--" + text) == ""
  {
    hide Scanner.LineEnd, TrimStart, Unnoised;
    var dashes, tail := "--" + text, "\n" + rest;
    var s := dashes + tail;
    assert s == "--" + text + "\n" + rest && s[0] == '-' && s[1] == '-' && dashes[0] == '-' && dashes[1] == '-';
    BeginsHere(s);
    BeginsHere(dashes);
    UnnoisedStep(s);
    UnnoisedStep(dashes);
    assert '\n' !in dashes;
    LineEnds(dashes, tail);
    assert s[|dashes| + 1..] == rest;
    LineNeverEnds(dashes);
  }

  predicate AllLetters(k: string) { forall i :: 0 <= i < |k| ==> IsAlpha(k[i]) }

  lemma {:induction false} LettersRun(k: string, t: string)
    requires AllLetters(k) && (t == [] || !IsAlpha(t[0]))
    ensures LetterRun(k + t) == |k|
  {
    var s := k + t;
    if k == [] {
      assert s == t;
    } else {
      assert s[1..] == k[1..] + t;
      LettersRun(k[1..], t);
    }
  }

  /** The first word, in upper case, and what follows it. */
  lemma VerbSays(k: string, t: string)
    requires k != [] && AllLetters(k) && (t == [] || !IsAlpha(t[0]))
    ensures Verb(k + t) == ToUpper(k) && AfterVerb(k + t) == t
  {
    hide ToUpper, LetterRun, TrimStart, Unnoised;
    var s := k + t;
    assert s[0] == k[0] && !IsSpace(s[0]);
    BeginsHere(s);
    UnnoisedStep(s);
    LettersRun(k, t);
    assert s[..|k|] == k && s[|k|..] == t;
  }

  /** COMMIT, END and PREPARE TRANSACTION keep what was done. */
  lemma CommitsIff(k: string, t: string)
    requires k != [] && AllLetters(k) && (t == [] || !IsAlpha(t[0]))
    ensures Commits(k + t) <==>
            ToUpper(k) == "COMMIT" || ToUpper(k) == "END" || (ToUpper(k) == "PREPARE" && Verb(t) == "TRANSACTION")
  {
    hide ToUpper, Verb, AfterVerb;
    VerbSays(k, t);
  }

  /** ROLLBACK and ABORT undo it. */
  lemma UndoesIff(k: string, t: string)
    requires k != [] && AllLetters(k) && (t == [] || !IsAlpha(t[0]))
    ensures Undoes(k + t) <==> ToUpper(k) == "ROLLBACK" || ToUpper(k) == "ABORT"
  {
    hide ToUpper, Verb, AfterVerb;
    VerbSays(k, t);
  }
}
