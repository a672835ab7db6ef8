/** What parsing a license expression means: it reads back any printed expression, is monotone in the
    licenses, and ends on every token list. */
module SpdxFacts {
  import opened Spdx

  // ----- Printing and reading back ------------------------------------------------------------------

  /** A license expression, with whatever parentheses it is written with. An operator's level says how
      tightly it binds: 1 for WITH, 2 for AND, 3 for OR. */
  datatype Expr = License(name: string) | Group(inner: Expr) | Join(level: nat, left: Expr, right: Expr)

  /** A word that is neither a parenthesis nor an operator. */
  predicate LicenseWord(name: string) {
    name != "(" && name != ")" && Upper(name) != "OR" && Upper(name) != "AND" && Upper(name) != "WITH"
  }

  /** The expression can be written at a level: operands that bind less tightly are in parentheses. */
  predicate Fits(e: Expr, level: nat) {
    match e
    case License(name) => LicenseWord(name)
    case Group(inner) => Fits(inner, 3)
    case Join(l, left, right) => 1 <= l <= 3 && l <= level && Fits(left, l) && Fits(right, l)
  }

  function Tokens(e: Expr): seq<string> {
    match e
    case License(name) => [name]
    case Group(inner) => ["("] + Tokens(inner) + [")"]
    case Join(level, left, right) => Tokens(left) + [Word(level)] + Tokens(right)
  }

  /** What an expression is worth: the looser side of OR, the stricter of AND and WITH. */
  function Eval(e: Expr, cat: string -> Category): Category {
    match e
    case License(name) => cat(name)
    case Group(inner) => Eval(inner, cat)
    case Join(level, left, right) => Combine(level, Eval(left, cat), Eval(right, cat))
  }

  /** The tokens go on with nothing an operator of this level or a tighter one would take. */
  predicate Stops(rest: seq<string>, level: nat) { forall l :: 1 <= l <= level ==> !Starts(rest, l) }

  lemma UpperWords()
    ensures Upper("OR") == "OR" && Upper("AND") == "AND" && Upper("WITH") == "WITH" && Upper(")") == ")"
  {
    assert "OR"[1..] == "R" && "R"[1..] == "";
    assert "AND"[1..] == "ND" && "ND"[1..] == "D" && "D"[1..] == "";
    assert "WITH"[1..] == "ITH" && "ITH"[1..] == "TH" && "TH"[1..] == "H" && "H"[1..] == "";
    assert ")"[1..] == "";
  }

  /** A word that ends what comes before it. */
  lemma OperatorStops(level: nat, rest: seq<string>)
    requires 1 <= level <= 3
    ensures Starts([Word(level)] + rest, level) && Stops([Word(level)] + rest, level - 1)
  {
    UpperWords();
    forall l | 1 <= l <= level - 1 ensures !Starts([Word(level)] + rest, l) { }
  }

  lemma {:induction false} ReadsGroup(inner: Expr, rest: seq<string>, cat: string -> Category)
    requires Fits(inner, 3)
    ensures Parse(0, Tokens(Group(inner)) + rest, cat) == (Eval(inner, cat), rest)
    decreases Group(inner), 0, 0
  {
    var ts := Tokens(Group(inner)) + rest;
    assert ts[0] == "(" && ts[1..] == Tokens(inner) + ([")"] + rest);
    ReadsFirst(inner, 3, [")"] + rest, cat);
    assert ([")"] + rest)[1..] == rest;
  }

  /** What an expression's tokens give at a level it fits, followed by anything. */
  lemma {:induction false} ReadsFirst(e: Expr, level: nat, rest: seq<string>, cat: string -> Category)
    requires 1 <= level <= 3 && Fits(e, level) && Stops(rest, level - 1)
    ensures Parse(level, Tokens(e) + rest, cat) == More(level, Eval(e, cat), rest, cat)
    decreases e, level, 1
  {
    if e.Join? && e.level == level {
      var tail := Tokens(e.right) + rest;
      assert Tokens(e) + rest == Tokens(e.left) + ([Word(level)] + tail);
      OperatorStops(level, tail);
      ReadsFirst(e.left, level, [Word(level)] + tail, cat);
      ReadsNext(e.right, level, Eval(e.left, cat), rest, cat);
    } else {
      ReadsWhole(e, level, rest, cat);
    }
  }

  /** An expression that binds more tightly than the level is read whole by the level below. */
  lemma {:induction false} ReadsWhole(e: Expr, level: nat, rest: seq<string>, cat: string -> Category)
    requires 1 <= level <= 3 && Fits(e, level) && !(e.Join? && e.level == level) && Stops(rest, level - 1)
    ensures Parse(level - 1, Tokens(e) + rest, cat) == (Eval(e, cat), rest)
    decreases e, level, 0
  {
    if level > 1 {
      ReadsFirst(e, level - 1, rest, cat);
    } else if e.Group? {
      ReadsGroup(e.inner, rest, cat);
    } else {
      assert Tokens(e) + rest == [e.name] + rest;
    }
  }

  /** One more operand of a level. */
  lemma {:induction false} ReadsNext(e: Expr, level: nat, acc: Category, rest: seq<string>, cat: string -> Category)
    requires 1 <= level <= 3 && Fits(e, level) && Stops(rest, level - 1)
    ensures More(level, acc, [Word(level)] + (Tokens(e) + rest), cat) == More(level, Combine(level, acc, Eval(e, cat)), rest, cat)
    decreases e, level, 1
  {
    var ts := [Word(level)] + (Tokens(e) + rest);
    OperatorStops(level, Tokens(e) + rest);
    assert ts[1..] == Tokens(e) + rest;
    if e.Join? && e.level == level {
      var tail := Tokens(e.right) + rest;
      assert Tokens(e) + rest == Tokens(e.left) + ([Word(level)] + tail);
      OperatorStops(level, tail);
      ReadsNext(e.left, level, acc, [Word(level)] + tail, cat);
      ReadsNext(e.right, level, Combine(level, acc, Eval(e.left, cat)), rest, cat);
    } else {
      ReadsWhole(e, level, rest, cat);
    }
  }

  /** Parsing a printed expression consumes all its tokens and gives its value, however many
      parentheses it is printed with beyond those it needs. */
  lemma {:induction false} ParsePrinted(e: Expr, cat: string -> Category)
    requires Fits(e, 3)
    ensures Parse(3, Tokens(e), cat) == (Eval(e, cat), [])
  {
    ReadsFirst(e, 3, [], cat);
    assert Tokens(e) + [] == Tokens(e);
  }

  /** An expression with only the parentheses it needs at a level, and one with all of them. */
  function Minimal(e: Expr, level: nat): Expr {
    match e
    case License(name) => e
    case Group(inner) => Minimal(inner, level)
    case Join(l, left, right) =>
      var plain := Join(l, Minimal(left, l), Minimal(right, l));
      if l <= level then plain else Group(plain)
  }

  function Full(e: Expr): Expr {
    match e
    case License(name) => e
    case Group(inner) => Full(inner)
    case Join(l, left, right) => Group(Join(l, Full(left), Full(right)))
  }

  predicate Proper(e: Expr) {
    match e
    case License(name) => LicenseWord(name)
    case Group(inner) => Proper(inner)
    case Join(l, left, right) => 1 <= l <= 3 && Proper(left) && Proper(right)
  }

  lemma {:induction false} MinimalFits(e: Expr, level: nat, cat: string -> Category)
    requires Proper(e) && level <= 3
    ensures Fits(Minimal(e, level), level) && Eval(Minimal(e, level), cat) == Eval(e, cat)
  {
    match e
    case License(name) =>
    case Group(inner) => MinimalFits(inner, level, cat);
    case Join(l, left, right) =>
      MinimalFits(left, l, cat);
      MinimalFits(right, l, cat);
  }

  lemma {:induction false} FullFits(e: Expr, level: nat, cat: string -> Category)
    requires Proper(e)
    ensures Fits(Full(e), level) && Eval(Full(e), cat) == Eval(e, cat)
  {
    match e
    case License(name) =>
    case Group(inner) => FullFits(inner, level, cat);
    case Join(l, left, right) =>
      FullFits(left, l, cat);
      FullFits(right, l, cat);
  }

  /** Printed with the fewest or with all parentheses, an expression is read back as itself. */
  lemma {:induction false} ParseMinimalAndFull(e: Expr, cat: string -> Category)
    requires Proper(e)
    ensures Parse(3, Tokens(Minimal(e, 3)), cat) == (Eval(e, cat), []) && Parse(3, Tokens(Full(e)), cat) == (Eval(e, cat), [])
  {
    MinimalFits(e, 3, cat);
    FullFits(e, 3, cat);
    ParsePrinted(Minimal(e, 3), cat);
    ParsePrinted(Full(e), cat);
  }

  // ----- Monotone -----------------------------------------------------------------------------------

  ghost predicate Below(cat: string -> Category, cat': string -> Category) { forall t :: cat(t).AtMost(cat'(t)) }

  /** On any token list, well formed or not, a license that becomes less restrictive cannot make the
      result more restrictive, nor change what is read. */
  lemma {:induction false} ParseMonotone(level: nat, ts: seq<string>, cat: string -> Category, cat': string -> Category)
    requires level <= 3 && Below(cat, cat')
    ensures var r, r' := Parse(level, ts, cat), Parse(level, ts, cat'); r.0.AtMost(r'.0) && r.1 == r'.1
    decreases |ts|, level, 1
  {
    if level == 0 {
      if ts != [] {
        if ts[0] == "(" { ParseMonotone(3, ts[1..], cat, cat'); }
      }
    } else {
      ParseMonotone(level - 1, ts, cat, cat');
      var first, first' := Parse(level - 1, ts, cat), Parse(level - 1, ts, cat');
      MoreMonotone(level, first.0, first'.0, first.1, cat, cat');
    }
  }

  lemma {:induction false} MoreMonotone(level: nat, acc: Category, acc': Category, ts: seq<string>,
                                        cat: string -> Category, cat': string -> Category)
    requires 1 <= level <= 3 && Below(cat, cat') && acc.AtMost(acc')
    ensures var r, r' := More(level, acc, ts, cat), More(level, acc', ts, cat'); r.0.AtMost(r'.0) && r.1 == r'.1
    decreases |ts|, level, 0
  {
    if Starts(ts, level) {
      ParseMonotone(level - 1, ts[1..], cat, cat');
      var next, next' := Parse(level - 1, ts[1..], cat), Parse(level - 1, ts[1..], cat');
      MoreMonotone(level, Combine(level, acc, next.0), Combine(level, acc', next'.0), next.1, cat, cat');
    }
  }

  // ----- What is left unread ------------------------------------------------------------------------

  /** A complete expression is read to its end and no further: what follows it is left unread and
      does not change the result, unless it goes on with an operator. */
  lemma {:induction false} UnreadTokens(e: Expr, rest: seq<string>, cat: string -> Category)
    requires Fits(e, 3) && Stops(rest, 3)
    ensures Parse(3, Tokens(e) + rest, cat) == (Eval(e, cat), rest)
  {
    ReadsFirst(e, 3, rest, cat);
  }
}
