/** What a rendered query means: a reader of the SQL expressions the renderer writes, which knows
    string literals, markers and concatenation and nothing of templates, and the theorem that
    every bound piece of every accepted template reads as its literal with the row's values in
    place. Literal syntax follows section 4.1.2 of the PostgreSQL manual and section 9.1.1 of the
    MySQL manual. */
module Meaning {
  import opened Text
  import opened Literal
  import opened Lexer
  import opened Render

  // ----- The reader -----------------------------------------------------------------------------

  datatype Env = Env(mysql: bool, args: seq<DbValue>)

  /** An expression read: its value, the text after it, and the markers met so far. */
  datatype Reading = Bad | Read(value: DbValue, rest: string, used: nat)

  /** SQL concatenation: NULL with anything is NULL. */
  function Plus(a: DbValue, b: DbValue): DbValue {
    if a.Null? || b.Null? then Null else Str(a.text + b.text)
  }

  /** A literal, `$n`, or the next `?`. */
  function ReadTerm(q: string, used: nat, env: Env): (r: Reading)
    ensures r.Read? ==> |r.rest| < |q|
  {
    if q == "" then Bad
    else if q[0] == '\'' then
      var lit := ReadContent(q[1..], "", env.mysql);
      if lit.None? then Bad else Read(Str(lit.value.0), lit.value.1, used)
    else if env.mysql then
      if q[0] == '?' && used < |env.args| then Read(env.args[used], q[1..], used + 1) else Bad
    else if q[0] == '$' then
      var (n, rest) := ReadDigits(q[1..], 0);
      if 1 <= n <= |env.args| then Read(env.args[n - 1], rest, used + 1) else Bad
    else Bad
  }

  /** The rest of a concatenation: more terms after separators, up to its closing parenthesis. */
  function ReadRest(q: string, sep: string, acc: DbValue, used: nat, env: Env): Reading
    requires sep != ""
    decreases |q|
  {
    if sep <= q then
      match ReadTerm(q[|sep|..], used, env)
      case Bad => Bad
      case Read(v, rest, used') => ReadRest(rest, sep, Plus(acc, v), used', env)
    else if ")" <= q then Read(acc, q[1..], used)
    else Bad
  }

  function ReadExpr(q: string, used: nat, env: Env): Reading {
    if Open(env.mysql) <= q then
      match ReadTerm(q[|Open(env.mysql)|..], used, env)
      case Bad => Bad
      case Read(v, rest, used') => ReadRest(rest, Separator(env.mysql), v, used', env)
    else ReadTerm(q, used, env)
  }

  // ----- What it should read --------------------------------------------------------------------

  function PartMeaning(part: Part, row: Row, mysql: bool): DbValue
    requires WholePart(part, mysql)
  {
    match part
    case Fixed(raw) => Str(Decode(raw, mysql).value)
    case Hole(column) =>
      if column in row then row[column]
      else BracedWhole(column, mysql); Str(Decode(Braced(column), mysql).value)
  }

  /** The literal's decoded text, each present column replaced by its value and each absent one
      left as written. */
  function PartsMeaning(parts: seq<Part>, row: Row, mysql: bool): DbValue
    requires WholeParts(parts, mysql)
  {
    if parts == [] then Str("")
    else Plus(PartMeaning(parts[0], row, mysql), PartsMeaning(parts[1..], row, mysql))
  }

  function PieceMeaning(p: Piece, row: Row, mysql: bool): DbValue
    requires WholePiece(p, mysql) && Replaces(p, row.Keys)
  {
    if p.Composite? then PartsMeaning(p.parts, row, mysql) else row[p.column]
  }

  predicate WholeTerm(t: Term, cols: set<string>, mysql: bool) {
    if t.Marked? then t.column in cols else t.raw != "" && Decode(t.raw, mysql).Some?
  }

  predicate WholeTerms(terms: seq<Term>, cols: set<string>, mysql: bool) {
    forall k :: 0 <= k < |terms| ==> WholeTerm(terms[k], cols, mysql)
  }

  function TermMeaning(t: Term, row: Row, mysql: bool): DbValue
    requires WholeTerm(t, row.Keys, mysql)
  {
    if t.Marked? then row[t.column] else Str(Decode(t.raw, mysql).value)
  }

  function TermsMeaning(terms: seq<Term>, row: Row, mysql: bool): DbValue
    requires WholeTerms(terms, row.Keys, mysql)
  {
    if terms == [] then Str("")
    else Plus(TermMeaning(terms[0], row, mysql), TermsMeaning(terms[1..], row, mysql))
  }

  lemma PlusAssoc(a: DbValue, b: DbValue, c: DbValue)
    ensures Plus(Plus(a, b), c) == Plus(a, Plus(b, c))
    ensures Plus(Str(""), a) == a && Plus(a, Str("")) == a
  {
    if a.Str? {
      assert "" + a.text == a.text && a.text + "" == a.text;
      if b.Str? && c.Str? { assert a.text + b.text + c.text == a.text + (b.text + c.text); }
    }
  }

  /** Splitting the literal into terms keeps its meaning: runs of fixed text and absent columns
      join without an escape reaching across. */
  lemma {:induction false} TermsMean(parts: seq<Part>, row: Row, pending: string, mysql: bool)
    requires WholeParts(parts, mysql) && Decode(pending, mysql).Some?
    ensures var terms := Terms(parts, row.Keys, pending);
            && WholeTerms(terms, row.Keys, mysql)
            && TermsMeaning(terms, row, mysql)
               == Plus(Str(Decode(pending, mysql).value), PartsMeaning(parts, row, mysql))
    ensures parts != [] || pending != "" ==> Terms(parts, row.Keys, pending) != []
  {
    var before := Str(Decode(pending, mysql).value);
    if parts == [] {
      PlusAssoc(before, before, before);
    } else {
      var p, rest := parts[0], parts[1..];
      assert WholePart(p, mysql);
      PlusAssoc(before, PartMeaning(p, row, mysql), PartsMeaning(rest, row, mysql));
      if p.Fixed? || p.column !in row {
        var raw := if p.Fixed? then p.raw else Braced(p.column);
        if p.Hole? { BracedWhole(p.column, mysql); }
        DecodeConcat(pending, raw, mysql);
        TermsMean(rest, row, pending + raw, mysql);
      } else {
        TermsMean(rest, row, "", mysql);
        var tail := Terms(rest, row.Keys, "");
        PlusAssoc(PartsMeaning(rest, row, mysql), before, before);
        MarkMeans(p.column, tail, row, mysql);
        FlushMeans(pending, [Marked(p.column)] + tail, row, mysql);
        assert FlushedChunk(pending) + [Marked(p.column)] + tail == FlushedChunk(pending) + ([Marked(p.column)] + tail);
      }
    }
  }

  lemma MarkMeans(column: string, tail: seq<Term>, row: Row, mysql: bool)
    requires column in row && WholeTerms(tail, row.Keys, mysql)
    ensures WholeTerms([Marked(column)] + tail, row.Keys, mysql)
    ensures TermsMeaning([Marked(column)] + tail, row, mysql) == Plus(row[column], TermsMeaning(tail, row, mysql))
  {
    assert ([Marked(column)] + tail)[1..] == tail;
  }

  lemma FlushMeans(pending: string, tail: seq<Term>, row: Row, mysql: bool)
    requires WholeTerms(tail, row.Keys, mysql) && Decode(pending, mysql).Some?
    ensures WholeTerms(FlushedChunk(pending) + tail, row.Keys, mysql)
    ensures TermsMeaning(FlushedChunk(pending) + tail, row, mysql)
            == Plus(Str(Decode(pending, mysql).value), TermsMeaning(tail, row, mysql))
  {
    if pending == "" {
      assert FlushedChunk(pending) + tail == tail;
      PlusAssoc(TermsMeaning(tail, row, mysql), Null, Null);
    } else {
      assert ([Chunk(pending)] + tail)[1..] == tail;
    }
  }

  // ----- Reading what was rendered --------------------------------------------------------------

  /** The arguments from `n` on are the values of the bound columns. */
  predicate Supplies(env: Env, n: nat, bound: seq<string>, row: Row) {
    n + |bound| <= |env.args| && forall k :: 0 <= k < |bound| ==> env.args[n + k] == ValueOf(bound[k], row)
  }

  /** What follows cannot extend a token that ends before it. */
  predicate Ends(t: Term, rest: string, mysql: bool) {
    rest == "" || if t.Chunk? then rest[0] != '\'' else mysql || !IsDigit(rest[0])
  }

  lemma ChunkReads(raw: string, rest: string, n: nat, env: Env)
    requires raw != "" && Decode(raw, env.mysql).Some? && (rest == "" || rest[0] != '\'')
    ensures ReadTerm("'" + raw + "'" + rest, n, env) == Read(Str(Decode(raw, env.mysql).value), rest, n)
  {
    var q := "'" + raw + "'" + rest;
    QuoteOpens(raw, rest);
    ReadsAs(raw, rest, "", env.mysql);
    NothingBefore(Decode(raw, env.mysql).value);
  }

  lemma QuoteOpens(raw: string, rest: string)
    ensures var q := "'" + raw + "'" + rest; q[0] == '\'' && q[1..] == raw + ("'" + rest)
  {
  }

  lemma QuestionReads(column: string, rest: string, row: Row, n: nat, env: Env)
    requires column in row && Supplies(env, n, [column], row) && env.mysql
    ensures ReadTerm("?" + rest, n, env) == Read(row[column], rest, n + 1)
  {
    assert ("?" + rest)[1..] == rest;
    assert env.args[n + 0] == ValueOf([column][0], row);
  }

  lemma DollarReads(column: string, rest: string, row: Row, n: nat, env: Env)
    requires column in row && Supplies(env, n, [column], row) && !env.mysql && (rest == "" || !IsDigit(rest[0]))
    ensures ReadTerm("$" + Decimal(n + 1) + rest, n, env) == Read(row[column], rest, n + 1)
  {
    assert ("$" + Decimal(n + 1) + rest)[1..] == Decimal(n + 1) + rest;
    assert env.args[n + 0] == ValueOf([column][0], row);
    ReadDecimal(n + 1, rest);
  }

  lemma MarkReads(column: string, rest: string, row: Row, n: nat, env: Env)
    requires column in row && Supplies(env, n, [column], row) && Ends(Marked(column), rest, env.mysql)
    ensures ReadTerm(Marker(n + 1, env.mysql) + rest, n, env) == Read(row[column], rest, n + 1)
  {
    if env.mysql { QuestionReads(column, rest, row, n, env); } else { DollarReads(column, rest, row, n, env); }
  }

  lemma TermReads(t: Term, rest: string, row: Row, n: nat, env: Env)
    requires WholeTerm(t, row.Keys, env.mysql) && Supplies(env, n, BoundBy(t), row) && Ends(t, rest, env.mysql)
    ensures ReadTerm(TermText(t, n, env.mysql) + rest, n, env) == Read(TermMeaning(t, row, env.mysql), rest, After(t, n))
  {
    if t.Chunk? { ChunkReads(t.raw, rest, n, env); } else { MarkReads(t.column, rest, row, n, env); }
  }

  /** The text of the terms after the first, each with its separator, and the closing. */
  function TailText(terms: seq<Term>, n: nat, mysql: bool, sep: string): string {
    if terms == [] then ")"
    else sep + (TermText(terms[0], n, mysql) + TailText(terms[1..], After(terms[0], n), mysql, sep))
  }

  lemma {:induction false} JoinIsTail(terms: seq<Term>, n: nat, mysql: bool, sep: string)
    requires terms != []
    ensures Join(Texts(terms, n, mysql), sep) + ")"
            == TermText(terms[0], n, mysql) + TailText(terms[1..], After(terms[0], n), mysql, sep)
  {
    var texts := Texts(terms, n, mysql);
    assert texts[1..] == Texts(terms[1..], After(terms[0], n), mysql);
    if |terms| > 1 {
      JoinIsTail(terms[1..], After(terms[0], n), mysql, sep);
      assert texts[0] + sep + Join(texts[1..], sep) + ")" == texts[0] + (sep + (Join(texts[1..], sep) + ")"));
    }
  }

  lemma {:induction false} TailReads(terms: seq<Term>, after: string, acc: DbValue, row: Row, n: nat, env: Env, sep: string)
    requires WholeTerms(terms, row.Keys, env.mysql) && Supplies(env, n, Bound(terms), row)
    requires sep != "" && sep[0] != ')' && sep[0] != '\'' && !IsDigit(sep[0])
    ensures ReadRest(TailText(terms, n, env.mysql, sep) + after, sep, acc, n, env)
            == Read(Plus(acc, TermsMeaning(terms, row, env.mysql)), after, n + |Bound(terms)|)
    decreases |terms|
  {
    if terms == [] {
      assert (")" + after)[1..] == after;
      PlusAssoc(acc, acc, acc);
    } else {
      var t, rest := terms[0], terms[1..];
      TailStep(terms, after, acc, row, n, env, sep);
      SuppliesSplit(env, n, t, rest, row);
      var v := TermMeaning(t, row, env.mysql);
      TailReads(rest, after, Plus(acc, v), row, After(t, n), env, sep);
      PlusAssoc(acc, v, TermsMeaning(rest, row, env.mysql));
    }
  }

  /** One more term is read. */
  lemma TailStep(terms: seq<Term>, after: string, acc: DbValue, row: Row, n: nat, env: Env, sep: string)
    requires terms != [] && WholeTerms(terms, row.Keys, env.mysql) && Supplies(env, n, Bound(terms), row)
    requires sep != "" && sep[0] != ')' && sep[0] != '\'' && !IsDigit(sep[0])
    ensures var t, rest := terms[0], TailText(terms[1..], After(terms[0], n), env.mysql, sep) + after;
            ReadRest(TailText(terms, n, env.mysql, sep) + after, sep, acc, n, env)
            == ReadRest(rest, sep, Plus(acc, TermMeaning(t, row, env.mysql)), After(t, n), env)
  {
    var t, rest := terms[0], terms[1..];
    assert WholeTerm(t, row.Keys, env.mysql);
    var own, tail := TermText(t, n, env.mysql), TailText(rest, After(t, n), env.mysql, sep);
    assert sep + (own + tail) + after == sep + (own + (tail + after));
    SuppliesSplit(env, n, t, rest, row);
    TermReads(t, tail + after, row, n, env);
    RestStep(sep, own, tail + after, acc, TermMeaning(t, row, env.mysql), n, After(t, n), env);
  }

  lemma RestStep(sep: string, own: string, tail: string, acc: DbValue, v: DbValue, n: nat, n': nat, env: Env)
    requires sep != "" && ReadTerm(own + tail, n, env) == Read(v, tail, n')
    ensures ReadRest(sep + (own + tail), sep, acc, n, env) == ReadRest(tail, sep, Plus(acc, v), n', env)
  {
    var q := sep + (own + tail);
    assert sep <= q && q[|sep|..] == own + tail;
  }

  lemma OpenStep(own: string, tail: string, v: DbValue, n: nat, n': nat, env: Env)
    requires ReadTerm(own + tail, n, env) == Read(v, tail, n')
    ensures ReadExpr(Open(env.mysql) + (own + tail), n, env) == ReadRest(tail, Separator(env.mysql), v, n', env)
  {
    var open := Open(env.mysql);
    var q := open + (own + tail);
    assert open <= q && q[|open|..] == own + tail;
  }

  lemma CompositeShape(terms: seq<Term>, after: string, n: nat, mysql: bool, sep: string)
    requires |terms| > 1 && sep == Separator(mysql)
    ensures var own, tail := TermText(terms[0], n, mysql), TailText(terms[1..], After(terms[0], n), mysql, sep);
            CompositeText(terms, n, mysql) + after == Open(mysql) + (own + (tail + after))
  {
    JoinIsTail(terms, n, mysql, sep);
    var open, own, tail := Open(mysql), TermText(terms[0], n, mysql), TailText(terms[1..], After(terms[0], n), mysql, sep);
    assert open + Join(Texts(terms, n, mysql), sep) + ")" == open + (Join(Texts(terms, n, mysql), sep) + ")");
    assert open + (own + tail) + after == open + (own + (tail + after));
  }

  lemma SuppliesSplit(env: Env, n: nat, t: Term, rest: seq<Term>, row: Row)
    requires Supplies(env, n, BoundBy(t) + Bound(rest), row)
    ensures Supplies(env, n, BoundBy(t), row) && Supplies(env, After(t, n), Bound(rest), row)
  {
    var all := BoundBy(t) + Bound(rest);
    forall k | 0 <= k < |Bound(rest)| ensures env.args[After(t, n) + k] == ValueOf(Bound(rest)[k], row) {
      assert all[|BoundBy(t)| + k] == Bound(rest)[k];
      assert env.args[n + (|BoundBy(t)| + k)] == ValueOf(all[|BoundBy(t)| + k], row);
    }
    forall k | 0 <= k < |BoundBy(t)| ensures env.args[n + k] == ValueOf(BoundBy(t)[k], row) {
      assert all[k] == BoundBy(t)[k];
    }
  }

  /** A rendered literal reads as its meaning, whatever but a quote follows it. */
  lemma {:induction false} CompositeReads(parts: seq<Part>, after: string, row: Row, n: nat, env: Env)
    requires parts != [] && WholeParts(parts, env.mysql)
    requires Supplies(env, n, Bound(Terms(parts, row.Keys, "")), row)
    requires |parts| > 1 && (after == "" || after[0] != '\'')
    requires |Terms(parts, row.Keys, "")| == 1 ==> Terms(parts, row.Keys, "")[0].Chunk?
    ensures var terms := Terms(parts, row.Keys, "");
            ReadExpr(CompositeText(terms, n, env.mysql) + after, n, env)
            == Read(PartsMeaning(parts, row, env.mysql), after, n + |Bound(terms)|)
  {
    var mysql := env.mysql;
    var terms := Terms(parts, row.Keys, "");
    assert Decode("", mysql).Some?;
    TermsMean(parts, row, "", mysql);
    PlusAssoc(PartsMeaning(parts, row, mysql), Null, Null);
    var q := CompositeText(terms, n, mysql) + after;
    if |terms| == 1 {
      LoneChunkReads(terms, after, row, n, env);
    } else {
      ConcatenationReads(terms, after, row, n, env);
    }
  }

  lemma LoneChunkReads(terms: seq<Term>, after: string, row: Row, n: nat, env: Env)
    requires |terms| == 1 && terms[0].Chunk? && WholeTerms(terms, row.Keys, env.mysql) && n <= |env.args|
    requires after == "" || after[0] != '\''
    ensures ReadExpr(CompositeText(terms, n, env.mysql) + after, n, env)
            == Read(TermsMeaning(terms, row, env.mysql), after, n + |Bound(terms)|)
  {
    assert BoundBy(terms[0]) == [];
    assert Supplies(env, n, BoundBy(terms[0]), row);
    assert WholeTerm(terms[0], row.Keys, env.mysql) && Texts(terms, n, env.mysql)[0] == TermText(terms[0], n, env.mysql);
    TermReads(terms[0], after, row, n, env);
    PlusAssoc(TermMeaning(terms[0], row, env.mysql), Null, Null);
    assert terms[1..] == [];
    assert (CompositeText(terms, n, env.mysql) + after)[0] == '\'';
  }

  lemma ConcatenationReads(terms: seq<Term>, after: string, row: Row, n: nat, env: Env)
    requires |terms| > 1 && WholeTerms(terms, row.Keys, env.mysql) && Supplies(env, n, Bound(terms), row)
    ensures ReadExpr(CompositeText(terms, n, env.mysql) + after, n, env)
            == Read(TermsMeaning(terms, row, env.mysql), after, n + |Bound(terms)|)
  {
    var sep := Separator(env.mysql);
    CompositeShape(terms, after, n, env.mysql, sep);
    GenericReads(terms, after, row, n, env, sep);
  }

  lemma GenericReads(terms: seq<Term>, after: string, row: Row, n: nat, env: Env, sep: string)
    requires |terms| > 1 && WholeTerms(terms, row.Keys, env.mysql) && Supplies(env, n, Bound(terms), row)
    requires sep == Separator(env.mysql)
    ensures var own, tail := TermText(terms[0], n, env.mysql), TailText(terms[1..], After(terms[0], n), env.mysql, sep);
            ReadExpr(Open(env.mysql) + (own + (tail + after)), n, env)
            == Read(TermsMeaning(terms, row, env.mysql), after, n + |Bound(terms)|)
  {
    var t, rest := terms[0], terms[1..];
    assert WholeTerm(t, row.Keys, env.mysql);
    SuppliesSplit(env, n, t, rest, row);
    var tail := TailText(rest, After(t, n), env.mysql, sep);
    TermReads(t, tail + after, row, n, env);
    OpenStep(TermText(t, n, env.mysql), tail + after, TermMeaning(t, row, env.mysql), n, After(t, n), env);
    TailReads(rest, after, TermMeaning(t, row, env.mysql), row, After(t, n), env, sep);
  }

  // ----- The whole query ------------------------------------------------------------------------

  predicate StartsQuote(text: string) { text != "" && text[0] == '\'' }

  lemma {:induction false} WholeAt(pieces: seq<Piece>, k: nat, mysql: bool)
    requires k < |pieces| && WholePieces(pieces, mysql)
    ensures WholePiece(pieces[k], mysql)
    ensures k + 1 < |pieces| ==> WholePiece(pieces[k + 1], mysql)
    ensures k + 1 < |pieces| && IsLiteral(pieces[k]) ==> !StartsQuote(RawPiece(pieces[k + 1]))
  {
    var rest := pieces[1..];
    if k == 0 {
      if |pieces| > 1 {
        assert rest[0] == pieces[1] && WholePiece(rest[0], mysql);
        if IsLiteral(pieces[0]) { ApartNext(pieces[0], rest, mysql); }
      }
    } else {
      assert rest[k - 1] == pieces[k];
      assert k < |rest| ==> rest[k] == pieces[k + 1];
      WholeAt(rest, k - 1, mysql);
    }
  }

  lemma ApartNext(p: Piece, rest: seq<Piece>, mysql: bool)
    requires rest != [] && WholePiece(rest[0], mysql) && Apart(p, RawPieces(rest)) && IsLiteral(p)
    ensures !StartsQuote(RawPiece(rest[0]))
  {
    WholeRaw(rest[0], mysql);
    assert RawPieces(rest) == RawPiece(rest[0]) + RawPieces(rest[1..]);
  }

  lemma WholeRaw(p: Piece, mysql: bool)
    requires WholePiece(p, mysql)
    ensures RawPiece(p) != ""
  {
  }

  /** What an earlier piece rendered stays at the front as later pieces are added. */
  lemma {:induction false} RenderedGrows(pieces: seq<Piece>, k: nat, cols: set<string>, mysql: bool)
    requires k <= |pieces|
    ensures Rendered(pieces[..k], cols, mysql).query <= Rendered(pieces, cols, mysql).query
    ensures Rendered(pieces[..k], cols, mysql).bound <= Rendered(pieces, cols, mysql).bound
  {
    if k == |pieces| {
      assert pieces[..k] == pieces;
    } else {
      var front := pieces[..|pieces| - 1];
      assert front[..k] == pieces[..k];
      RenderedGrows(front, k, cols, mysql);
    }
  }

  /** The byte rendered next after a literal is not a quote, and after a numbered marker not a
      digit. */
  lemma NextByte(o: Out, last: Piece, next: Piece, cols: set<string>, mysql: bool)
    requires WholePiece(next, mysql) && Replaces(last, cols)
    requires IsLiteral(last) ==> !StartsQuote(RawPiece(next))
    requires last.Value? ==> o.afterMarker && (mysql || EndsToken(o.query))
    ensures var q := RenderPiece(o, next, cols, mysql).query;
            && |o.query| < |q| && o.query <= q
            && (last.Composite? ==> q[|o.query|] != '\'')
            && (last.Value? ==> mysql || !IsDigit(q[|o.query|]))
  {
    var text := PieceText(next, cols, |o.bound|, mysql);
    var lead := LeadIn(o, next, cols);
    assert next.Composite? ==> StartsQuote(RawPiece(next));
    assert next.Value? && !next.quoted ==> RawPiece(next)[0] == '{';
    if next.Composite? { CompositeNonempty(next.parts, cols, |o.bound|, mysql); }
    assert text != "";
    assert (lead + text)[|o.query|] == if lead == o.query then text[0] else ' ';
  }

  lemma CompositeNonempty(parts: seq<Part>, cols: set<string>, n: nat, mysql: bool)
    ensures CompositeText(Terms(parts, cols, ""), n, mysql) != ""
  {
  }

  /** Where a piece stands in the finished query: after its lead-in, before what is rendered next. */
  predicate StandsBetween(p: Piece, full: Out, before: Out, after: Out, cols: set<string>, mysql: bool) {
    var start, text := LeadIn(before, p, cols), PieceText(p, cols, |before.bound|, mysql);
    && start <= full.query && after.query <= full.query
    && full.query[|start|..] == text + full.query[|after.query|..]
    && after.bound == before.bound + PieceBound(p, cols) && after.bound <= full.bound
  }

  lemma Placed(pieces: seq<Piece>, k: nat, cols: set<string>, mysql: bool)
    requires k < |pieces|
    ensures StandsBetween(pieces[k], Rendered(pieces, cols, mysql), Rendered(pieces[..k], cols, mysql),
                          Rendered(pieces[..k + 1], cols, mysql), cols, mysql)
  {
    RenderedNext(pieces, k, cols, mysql);
    RenderedGrows(pieces, k + 1, cols, mysql);
    var full, before := Rendered(pieces, cols, mysql).query, Rendered(pieces[..k], cols, mysql);
    var start, text := LeadIn(before, pieces[k], cols), PieceText(pieces[k], cols, |before.bound|, mysql);
    PrefixSplit(full, start, text);
  }

  lemma PrefixSplit(full: string, start: string, text: string)
    requires start + text <= full
    ensures start <= full && full[|start|..] == text + full[|start + text|..]
  {
    var rest := full[|start + text|..];
    assert full == start + text + rest;
    assert full[|start|..] == text + rest;
  }

  lemma PrefixByte(a: string, b: string, c: string)
    requires a <= b <= c && |a| < |b|
    ensures a <= c && c[|a|..][0] == b[|a|]
  {
  }

  /** Piece `k`, in the finished query and with the finished arguments, reads as its meaning: the
      literal's decoded text with each present column replaced by its value and each absent one
      left as written. It starts on a token boundary, uses up exactly its own arguments, and what
      is read next is what was rendered next. */
  ghost predicate ReadsInPlace(pieces: seq<Piece>, k: nat, row: Row, mysql: bool)
    requires k < |pieces|
  {
    ReadsBetween(pieces[k], Rendered(pieces, row.Keys, mysql), Rendered(pieces[..k], row.Keys, mysql),
                 Rendered(pieces[..k + 1], row.Keys, mysql), row, mysql)
  }

  ghost predicate ReadsBetween(p: Piece, full: Out, before: Out, after: Out, row: Row, mysql: bool) {
    var start := LeadIn(before, p, row.Keys);
    && WholePiece(p, mysql) && Replaces(p, row.Keys)
    && start <= full.query && after.query <= full.query && !EndsToken(start)
    && ReadExpr(full.query[|start|..], |before.bound|, Env(mysql, ValuesOf(full.bound, row)))
       == Read(PieceMeaning(p, row, mysql), full.query[|after.query|..], |after.bound|)
  }

  /** One piece, given how the query goes on around it. */
  lemma PieceBetween(p: Piece, full: Out, before: Out, after: Out, row: Row, mysql: bool)
    requires WholePiece(p, mysql) && Replaces(p, row.Keys) && StandsBetween(p, full, before, after, row.Keys, mysql)
    requires FollowsWell(p, full.query[|after.query|..], mysql)
    ensures ReadsBetween(p, full, before, after, row, mysql)
  {
    var env := Env(mysql, ValuesOf(full.bound, row));
    SuppliesPiece(before.bound, PieceBound(p, row.Keys), full.bound, row, env);
    SeparatedEnds(before.query);
    PieceReads(p, full.query[|after.query|..], row, |before.bound|, env);
  }

  lemma {:induction false} BoundPieceReads(pieces: seq<Piece>, k: nat, row: Row, mysql: bool)
    requires k < |pieces| && WholePieces(pieces, mysql) && Replaces(pieces[k], row.Keys)
    ensures ReadsInPlace(pieces, k, row, mysql)
  {
    WholeAt(pieces, k, mysql);
    Placed(pieces, k, row.Keys, mysql);
    RestStarts(pieces, k, row.Keys, mysql);
    PieceBetween(pieces[k], Rendered(pieces, row.Keys, mysql), Rendered(pieces[..k], row.Keys, mysql),
                 Rendered(pieces[..k + 1], row.Keys, mysql), row, mysql);
  }

  lemma SeparatedEnds(query: string)
    ensures !EndsToken(Separated(query))
  {
  }

  /** For every accepted template, dialect and row: the pieces are the template, and every piece
      the row binds reads in the rendered query as what the template says it stands for. */
  lemma {:induction false} MarkDoneMeaning(template: string, row: Row, mysql: bool)
    requires Parsed(template, mysql).Ok?
    ensures var pieces := Parsed(template, mysql).value;
            && RawPieces(pieces) == template
            && forall k :: 0 <= k < |pieces| && Replaces(pieces[k], row.Keys) ==> ReadsInPlace(pieces, k, row, mysql)
  {
    ParseLossless(template, mysql);
    var pieces := Parsed(template, mysql).value;
    forall k | 0 <= k < |pieces| && Replaces(pieces[k], row.Keys) ensures ReadsInPlace(pieces, k, row, mysql) {
      BoundPieceReads(pieces, k, row, mysql);
    }
  }

  lemma SuppliesPiece(given: seq<string>, own: seq<string>, all: seq<string>, row: Row, env: Env)
    requires given + own <= all && env.args == ValuesOf(all, row)
    ensures Supplies(env, |given|, own, row)
  {
    forall k | 0 <= k < |own| ensures env.args[|given| + k] == ValueOf(own[k], row) {
      assert all[|given| + k] == (given + own)[|given| + k] == own[k];
    }
  }

  /** What may follow a bound piece. */
  predicate FollowsWell(p: Piece, rest: string, mysql: bool) {
    rest == "" || if p.Composite? then rest[0] != '\'' else mysql || !IsDigit(rest[0])
  }

  lemma AfterValue(o: Out, p: Piece, cols: set<string>, mysql: bool)
    requires p.Value? && p.column in cols
    ensures var q := RenderPiece(o, p, cols, mysql); q.afterMarker && (mysql || EndsToken(q.query))
  {
  }

  lemma NextStarts(o: Out, p: Piece, next: Piece, cols: set<string>, mysql: bool, full: string)
    requires WholePiece(next, mysql) && Replaces(p, cols) && (IsLiteral(p) ==> !StartsQuote(RawPiece(next)))
    requires p.Value? ==> o.afterMarker && (mysql || EndsToken(o.query))
    requires RenderPiece(o, next, cols, mysql).query <= full
    ensures o.query <= full && FollowsWell(p, full[|o.query|..], mysql)
  {
    NextByte(o, p, next, cols, mysql);
    PrefixByte(o.query, RenderPiece(o, next, cols, mysql).query, full);
  }

  lemma RestStarts(pieces: seq<Piece>, k: nat, cols: set<string>, mysql: bool)
    requires k < |pieces| && WholePieces(pieces, mysql) && Replaces(pieces[k], cols)
    ensures var full, after := Rendered(pieces, cols, mysql).query, Rendered(pieces[..k + 1], cols, mysql).query;
            after <= full && FollowsWell(pieces[k], full[|after|..], mysql)
  {
    if k + 1 == |pieces| {
      assert pieces[..k + 1] == pieces;
    } else {
      var p, o := pieces[k], Rendered(pieces[..k + 1], cols, mysql);
      WholeAt(pieces, k, mysql);
      RenderedNext(pieces, k, cols, mysql);
      if p.Value? { AfterValue(Rendered(pieces[..k], cols, mysql), p, cols, mysql); }
      RenderedNext(pieces, k + 1, cols, mysql);
      RenderedGrows(pieces, k + 2, cols, mysql);
      NextStarts(o, p, pieces[k + 1], cols, mysql, Rendered(pieces, cols, mysql).query);
    }
  }

  lemma PieceReads(p: Piece, rest: string, row: Row, n: nat, env: Env)
    requires WholePiece(p, env.mysql) && Replaces(p, row.Keys) && Supplies(env, n, PieceBound(p, row.Keys), row)
    requires FollowsWell(p, rest, env.mysql)
    ensures ReadExpr(PieceText(p, row.Keys, n, env.mysql) + rest, n, env)
            == Read(PieceMeaning(p, row, env.mysql), rest, n + |PieceBound(p, row.Keys)|)
  {
    if p.Composite? {
      var terms := Terms(p.parts, row.Keys, "");
      if |terms| == 1 { LoneTermIsChunk(p.parts, row.Keys, ""); }
      CompositeReads(p.parts, rest, row, n, env);
    } else {
      var t := Marked(p.column);
      assert BoundBy(t) == PieceBound(p, row.Keys);
      TermReads(t, rest, row, n, env);
      assert (TermText(t, n, env.mysql) + rest)[0] != Open(env.mysql)[0];
    }
  }

  /** A literal of two or more parts never shrinks to a lone marker. */
  lemma {:induction false} LoneTermIsChunk(parts: seq<Part>, cols: set<string>, pending: string)
    requires |parts| > 1 || pending != ""
    requires forall k :: 0 <= k < |parts| ==> parts[k].Fixed? ==> parts[k].raw != ""
    ensures Terms(parts, cols, pending) != []
    ensures |Terms(parts, cols, pending)| == 1 ==> Terms(parts, cols, pending)[0].Chunk?
  {
    if parts != [] {
      if parts[0].Fixed? {
        LoneTermIsChunk(parts[1..], cols, pending + parts[0].raw);
      } else if parts[0].column !in cols {
        LoneTermIsChunk(parts[1..], cols, pending + Braced(parts[0].column));
      } else if pending == "" {
        SomeTerm(parts[1..], cols);
      }
    }
  }

  lemma {:induction false} SomeTerm(parts: seq<Part>, cols: set<string>)
    requires parts != [] && forall k :: 0 <= k < |parts| ==> parts[k].Fixed? ==> parts[k].raw != ""
    ensures Terms(parts, cols, "") != []
  {
    if parts[0].Fixed? {
      PendingTerm(parts[1..], cols, parts[0].raw);
      assert "" + parts[0].raw == parts[0].raw;
    } else if parts[0].column !in cols {
      PendingTerm(parts[1..], cols, Braced(parts[0].column));
      assert "" + Braced(parts[0].column) == Braced(parts[0].column);
    }
  }

  lemma {:induction false} PendingTerm(parts: seq<Part>, cols: set<string>, pending: string)
    requires pending != ""
    ensures Terms(parts, cols, pending) != []
  {
    if parts != [] {
      if parts[0].Fixed? {
        PendingTerm(parts[1..], cols, pending + parts[0].raw);
      } else if parts[0].column !in cols {
        PendingTerm(parts[1..], cols, pending + Braced(parts[0].column));
      }
    }
  }

  // ----- Which arguments ------------------------------------------------------------------------

  /** The placeholders of a template in the order they are written. */
  function Columns(pieces: seq<Piece>): seq<string> {
    if pieces == [] then []
    else Columns(pieces[..|pieces| - 1]) + PieceColumns(pieces[|pieces| - 1])
  }

  function PieceColumns(p: Piece): seq<string> {
    match p
    case Sql(_) => []
    case Value(column, _) => [column]
    case Composite(parts) => PartColumns(parts)
  }

  function PartColumns(parts: seq<Part>): seq<string> {
    if parts == [] then []
    else (if parts[0].Hole? then [parts[0].column] else []) + PartColumns(parts[1..])
  }

  function Present(columns: seq<string>, cols: set<string>): seq<string> {
    if columns == [] then []
    else (if columns[0] in cols then [columns[0]] else []) + Present(columns[1..], cols)
  }

  lemma {:induction false} PresentConcat(a: seq<string>, b: seq<string>, cols: set<string>)
    ensures Present(a + b, cols) == Present(a, cols) + Present(b, cols)
  {
    if a == [] {
      assert a + b == b;
    } else {
      PresentConcat(a[1..], b, cols);
      assert (a + b)[1..] == a[1..] + b;
      var head := if a[0] in cols then [a[0]] else [];
      assert head + (Present(a[1..], cols) + Present(b, cols)) == head + Present(a[1..], cols) + Present(b, cols);
    }
  }

  lemma {:induction false} TermsBindPresent(parts: seq<Part>, cols: set<string>, pending: string)
    ensures Bound(Terms(parts, cols, pending)) == Present(PartColumns(parts), cols)
  {
    if parts != [] {
      var p, rest := parts[0], parts[1..];
      if p.Fixed? {
        TermsBindPresent(rest, cols, pending + p.raw);
        assert [] + PartColumns(rest) == PartColumns(rest);
      } else {
        PresentConcat([p.column], PartColumns(rest), cols);
        assert Present([p.column], cols) == if p.column in cols then [p.column] else [];
        if p.column !in cols {
          TermsBindPresent(rest, cols, pending + Braced(p.column));
        } else {
          TermsBindPresent(rest, cols, "");
          BoundConcat(FlushedChunk(pending) + [Marked(p.column)], Terms(rest, cols, ""));
          BoundConcat(FlushedChunk(pending), [Marked(p.column)]);
          assert Bound(FlushedChunk(pending)) == [] && Bound([Marked(p.column)]) == [p.column];
        }
      }
    }
  }

  /** The bound columns are exactly the placeholders the row has, in template order, repeats
      included: the k-th argument is the value of the k-th of them. */
  lemma {:induction false} BoundInOrder(pieces: seq<Piece>, cols: set<string>, mysql: bool)
    ensures Rendered(pieces, cols, mysql).bound == Present(Columns(pieces), cols)
  {
    if pieces != [] {
      var front, p := pieces[..|pieces| - 1], pieces[|pieces| - 1];
      BoundInOrder(front, cols, mysql);
      PresentConcat(Columns(front), PieceColumns(p), cols);
      match p
      case Sql(_) =>
      case Value(column, _) => assert Present([column], cols) == PieceBound(p, cols);
      case Composite(parts) => TermsBindPresent(parts, cols, "");
    }
  }

  // ----- The row with none of the columns -------------------------------------------------------

  /** Whether some literal with placeholders directly follows an identifier or a dollar sign. */
  predicate Abuts(pieces: seq<Piece>) {
    pieces != [] &&
    var front := pieces[..|pieces| - 1];
    Abuts(front) || (pieces[|pieces| - 1].Composite? && EndsToken(RawPieces(front)))
  }

  lemma {:induction false} AbsentTerms(parts: seq<Part>, cols: set<string>, pending: string)
    requires forall c :: c in PartColumns(parts) ==> c !in cols
    ensures Terms(parts, cols, pending) == FlushedChunk(pending + RawParts(parts))
  {
    if parts == [] {
      assert pending + "" == pending;
    } else {
      var raw := PartRaw(parts[0]);
      assert forall c :: c in PartColumns(parts[1..]) ==> c in PartColumns(parts);
      if parts[0].Hole? { assert parts[0].column in PartColumns(parts); }
      AbsentTerms(parts[1..], cols, pending + raw);
      assert pending + raw + RawParts(parts[1..]) == pending + (raw + RawParts(parts[1..]));
    }
  }

  lemma AbsentPiece(p: Piece, cols: set<string>, n: nat, mysql: bool)
    requires WholePiece(p, mysql) && forall c :: c in PieceColumns(p) ==> c !in cols
    ensures PieceText(p, cols, n, mysql) == RawPiece(p) && PieceBound(p, cols) == []
  {
    if p.Composite? {
      AbsentTerms(p.parts, cols, "");
      assert "" + RawParts(p.parts) == RawParts(p.parts);
      assert RawParts(p.parts) != "" by { assert WholePart(p.parts[0], mysql); }
      assert Terms(p.parts, cols, "") == [Chunk(RawParts(p.parts))];
      assert Bound([Chunk(RawParts(p.parts))]) == [];
      assert Texts([Chunk(RawParts(p.parts))], n, mysql) == ["'" + RawParts(p.parts) + "'"];
    } else if p.Value? {
      assert p.column in PieceColumns(p);
    }
  }

  lemma {:induction false} RawSnoc(pieces: seq<Piece>)
    requires pieces != []
    ensures RawPieces(pieces) == RawPieces(pieces[..|pieces| - 1]) + RawPiece(pieces[|pieces| - 1])
  {
    if |pieces| > 1 {
      RawSnoc(pieces[1..]);
      assert pieces[..|pieces| - 1][1..] == pieces[1..][..|pieces| - 2];
    }
  }

  predicate AbsentPieces(pieces: seq<Piece>, cols: set<string>, mysql: bool) {
    forall k :: 0 <= k < |pieces| ==> AbsentColumns(pieces[k], cols, mysql)
  }

  predicate AbsentColumns(p: Piece, cols: set<string>, mysql: bool) {
    WholePiece(p, mysql) && forall c :: c in PieceColumns(p) ==> c !in cols
  }

  /** For a row with none of the columns nothing is bound, and the query is the template unless a
      literal with placeholders abuts a word: then, and only then, spaces are added. */
  lemma {:induction false} EmptyRow(template: string, row: Row, mysql: bool)
    requires Parsed(template, mysql).Ok?
    requires forall k, c :: 0 <= k < |Parsed(template, mysql).value| && c in PieceColumns(Parsed(template, mysql).value[k])
                            ==> c !in row
    ensures var pieces := Parsed(template, mysql).value;
            && Rendered(pieces, row.Keys, mysql).bound == []
            && (Rendered(pieces, row.Keys, mysql).query == template <==> !Abuts(pieces))
  {
    ParseLossless(template, mysql);
    var pieces := Parsed(template, mysql).value;
    forall k | 0 <= k < |pieces| ensures AbsentColumns(pieces[k], row.Keys, mysql) { WholeAt(pieces, k, mysql); }
    NothingBound(pieces, row.Keys, mysql);
  }

  lemma {:induction false} NothingBound(pieces: seq<Piece>, cols: set<string>, mysql: bool)
    requires AbsentPieces(pieces, cols, mysql)
    ensures Unbound(Rendered(pieces, cols, mysql), RawPieces(pieces), Abuts(pieces))
  {
    if pieces != [] {
      var front, p := pieces[..|pieces| - 1], pieces[|pieces| - 1];
      NothingBound(front, cols, mysql);
      RawSnoc(pieces);
      assert AbsentColumns(p, cols, mysql);
      UnboundStep(Rendered(front, cols, mysql), RawPieces(front), Abuts(front), p, cols, mysql);
    }
  }

  /** Nothing bound so far, and the query is the raw text, longer exactly when a literal abuts. */
  ghost predicate Unbound(o: Out, raw: string, abuts: bool) {
    && o.bound == [] && !o.afterMarker && |raw| <= |o.query| && EndsToken(raw) == EndsToken(o.query)
    && (o.query == raw <==> !abuts) && (abuts ==> |raw| < |o.query|)
  }

  lemma UnboundStep(o: Out, raw: string, abuts: bool, p: Piece, cols: set<string>, mysql: bool)
    requires Unbound(o, raw, abuts) && WholePiece(p, mysql) && forall c :: c in PieceColumns(p) ==> c !in cols
    ensures Unbound(RenderPiece(o, p, cols, mysql), raw + RawPiece(p), abuts || (p.Composite? && EndsToken(raw)))
  {
    AbsentPiece(p, cols, |o.bound|, mysql);
    WholeRaw(p, mysql);
    if p.Value? { assert p.column in PieceColumns(p); }
    var lead, text := LeadIn(o, p, cols), RawPiece(p);
    assert lead == if p.Composite? then Separated(o.query) else o.query;
    assert o.bound + [] == o.bound;
    LastByte(lead, text);
    LastByte(raw, text);
  }

  lemma LastByte(a: string, b: string)
    requires b != ""
    ensures EndsToken(a + b) == EndsToken(b)
  {
  }
}
