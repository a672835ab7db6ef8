/** License expressions as text: how classify_spdx of scripts/check-licenses.py splits one into tokens.
    Blanks are the ASCII ones. */
module SpdxText {
  import opened Spdx
  import opened SpdxFacts

  predicate IsBlank(c: char) { 9 <= c as int <= 13 || 28 <= c as int <= 32 }

  predicate IsParen(c: char) { c == '(' || c == ')' }

  predicate InWord(c: char) { !IsBlank(c) && !IsParen(c) }

  /** A slash stands for OR. */
  function SlashesAsOr(s: string): string {
    if s == "" then "" else (if s[0] == '/' then " OR " else [s[0]]) + SlashesAsOr(s[1..])
  }

  function WordEnd(s: string): (n: nat)
    ensures n <= |s|
  {
    if s == "" || !InWord(s[0]) then 0 else 1 + WordEnd(s[1..])
  }

  /** Parentheses and words, without the blanks. */
  function Tokenize(s: string): seq<string> {
    if s == "" then []
    else if IsBlank(s[0]) then Tokenize(s[1..])
    else if IsParen(s[0]) then [[s[0]]] + Tokenize(s[1..])
    else [s[..WordEnd(s)]] + Tokenize(s[WordEnd(s)..])
  }

  function Classify(s: string): Category {
    var toks := Tokenize(SlashesAsOr(s));
    if toks == [] then Unknown else Parse(3, toks, CategoryOf).0
  }

  method ClassifyText(s: string) returns (c: Category)
    ensures c == Classify(s)
  {
    c := ClassifySpdx(Tokenize(SlashesAsOr(s)));
  }

  /** A token as it comes out of a text: a parenthesis, or a word without blanks and parentheses. */
  predicate IsToken(t: string) { t == "(" || t == ")" || (t != "" && forall i :: 0 <= i < |t| ==> InWord(t[i])) }

  function Spaced(ts: seq<string>): string { if ts == [] then "" else ts[0] + " " + Spaced(ts[1..]) }

  lemma {:induction false} WordEnds(t: string, rest: string)
    requires forall i :: 0 <= i < |t| ==> InWord(t[i])
    requires rest == "" || !InWord(rest[0])
    ensures WordEnd(t + rest) == |t|
  {
    if t != "" {
      assert InWord(t[0]) && (t + rest)[1..] == t[1..] + rest;
      WordEnds(t[1..], rest);
    } else {
      assert t + rest == rest;
    }
  }

  lemma OneToken(t: string, rest: string)
    requires IsToken(t) && (rest == "" || IsBlank(rest[0]))
    ensures Tokenize(t + rest) == [t] + Tokenize(rest)
  {
    var s := t + rest;
    if t == "(" || t == ")" {
      assert s[0] == t[0] && [s[0]] == t && s[1..] == rest;
    } else {
      WordEnds(t, rest);
      assert InWord(t[0]) && s[0] == t[0];
      assert s[..|t|] == t && s[|t|..] == rest;
    }
  }

  /** Splitting a text of spaced tokens gives the tokens. */
  lemma {:induction false} TokenizeSpaced(ts: seq<string>)
    requires forall i :: 0 <= i < |ts| ==> IsToken(ts[i])
    ensures Tokenize(Spaced(ts)) == ts
  {
    if ts != [] {
      var rest := " " + Spaced(ts[1..]);
      OneToken(ts[0], rest);
      assert ts[0] + " " + Spaced(ts[1..]) == ts[0] + rest;
      assert rest[1..] == Spaced(ts[1..]);
      assert IsBlank(' ');
      TokenizeSpaced(ts[1..]);
    }
  }

  predicate NoSlash(s: string) { forall i :: 0 <= i < |s| ==> s[i] != '/' }

  lemma {:induction false} SlashesConcat(a: string, b: string)
    ensures SlashesAsOr(a + b) == SlashesAsOr(a) + SlashesAsOr(b)
  {
    if a == "" {
      assert a + b == b;
    } else {
      assert (a + b)[1..] == a[1..] + b;
      SlashesConcat(a[1..], b);
    }
  }

  lemma {:induction false} NoSlashes(s: string)
    requires NoSlash(s)
    ensures SlashesAsOr(s) == s
  {
    if s != "" {
      NoSlashes(s[1..]);
      assert s == [s[0]] + s[1..];
    }
  }

  lemma {:induction false} SpacedNoSlash(ts: seq<string>)
    requires forall i :: 0 <= i < |ts| ==> NoSlash(ts[i])
    ensures NoSlash(Spaced(ts))
  {
    if ts != [] { SpacedNoSlash(ts[1..]); }
  }

  lemma ThreeTokens(a: string, o: string, b: string)
    requires IsToken(a) && IsToken(o) && IsToken(b)
    ensures Tokenize(a + (" " + (o + (" " + b)))) == [a, o, b]
  {
    OneToken(a, " " + (o + (" " + b)));
    OneToken(o, " " + b);
    OneToken(b, "");
    assert b + "" == b;
  }

  lemma Regroup(a: string, x: string, o: string, y: string, b: string, w: string)
    requires w == x + o + y
    ensures a + w + b == a + (x + (o + (y + b)))
  {
  }

  lemma SlashReplaced(a: string, b: string, slash: string)
    requires NoSlash(a) && NoSlash(b)
    ensures SlashesAsOr(a + slash + b) == a + SlashesAsOr(slash) + b
  {
    SlashesConcat(a + slash, b);
    SlashesConcat(a, slash);
    NoSlashes(a);
    NoSlashes(b);
  }

  /** Two licenses around a slash are alternatives. */
  lemma {:induction false} SlashIsOr(a: string, b: string)
    requires IsToken(a) && IsToken(b) && NoSlash(a) && NoSlash(b)
    ensures Tokenize(SlashesAsOr(a + "/" + b)) == [a, "OR", b]
  {
    SlashReplaced(a, b, "/");
    Regroup(a, " ", "OR", " ", b, SlashesAsOr("/"));
    ThreeTokens(a, "OR", b);
  }

  predicate Written(e: Expr) {
    match e
    case License(name) => LicenseWord(name) && IsToken(name) && NoSlash(name)
    case Group(inner) => Written(inner)
    case Join(l, left, right) => 1 <= l <= 3 && Written(left) && Written(right)
  }

  lemma {:induction false} TokensAre(e: Expr)
    requires Written(e)
    ensures Tokens(e) != [] && forall i :: 0 <= i < |Tokens(e)| ==> IsToken(Tokens(e)[i]) && NoSlash(Tokens(e)[i])
  {
    match e
    case License(name) =>
    case Group(inner) => TokensAre(inner);
    case Join(l, left, right) =>
      TokensAre(left);
      TokensAre(right);
      assert IsToken(Word(l)) && NoSlash(Word(l));
  }

  /** An expression written out as text is classified as what it is worth. */
  lemma {:induction false} ClassifyWritten(e: Expr)
    requires Written(e) && Fits(e, 3)
    ensures Classify(Spaced(Tokens(e))) == Eval(e, CategoryOf)
  {
    TokensAre(e);
    SpacedNoSlash(Tokens(e));
    NoSlashes(Spaced(Tokens(e)));
    TokenizeSpaced(Tokens(e));
    ParsePrinted(e, CategoryOf);
  }
}
