/** Rendering a parsed mark-done template for one row: kipper-poll/markdone.go, bind and concat,
    and a small reader of the rendered SQL against which the rendering is judged. */
module Render {
  import opened Text
  import opened Literal
  import opened Lexer

  /** A row value: SQL NULL, or the text the database concatenates it as. */
  datatype DbValue = Null | Str(text: string)

  type Row = map<string, DbValue>

  // ----- Rendering ------------------------------------------------------------------------------

  /** A term of a concatenation: fixed literal content, or a bound column. */
  datatype Term = Chunk(raw: string) | Marked(column: string)

  function FlushedChunk(pending: string): seq<Term> {
    if pending == "" then [] else [Chunk(pending)]
  }

  /** The terms of a literal for a row that has the columns `cols`. */
  function Terms(parts: seq<Part>, cols: set<string>, pending: string): seq<Term> {
    if parts == [] then FlushedChunk(pending)
    else if parts[0].Fixed? then Terms(parts[1..], cols, pending + parts[0].raw)
    else if parts[0].column !in cols then Terms(parts[1..], cols, pending + Braced(parts[0].column))
    else FlushedChunk(pending) + [Marked(parts[0].column)] + Terms(parts[1..], cols, "")
  }

  function Bound(terms: seq<Term>): seq<string> {
    if terms == [] then []
    else BoundBy(terms[0]) + Bound(terms[1..])
  }

  function BoundBy(t: Term): seq<string> { if t.Marked? then [t.column] else [] }

  /** The marker of the n-th argument, counted from one. */
  function Marker(n: nat, mysql: bool): string { if mysql then "?" else "$" + Decimal(n) }

  function TermText(t: Term, n: nat, mysql: bool): string {
    if t.Marked? then Marker(n + 1, mysql) else "'" + t.raw + "'"
  }

  function After(t: Term, n: nat): nat { if t.Marked? then n + 1 else n }

  /** The terms written out after `n` arguments are already bound. */
  function Texts(terms: seq<Term>, n: nat, mysql: bool): (r: seq<string>)
    ensures |r| == |terms|
  {
    if terms == [] then [] else [TermText(terms[0], n, mysql)] + Texts(terms[1..], After(terms[0], n), mysql)
  }

  function Join(texts: seq<string>, sep: string): string {
    if texts == [] then "" else if |texts| == 1 then texts[0] else texts[0] + sep + Join(texts[1..], sep)
  }

  function Open(mysql: bool): string { if mysql then "CONCAT(" else "(" }

  function Separator(mysql: bool): string { if mysql then ", " else " || " }

  function CompositeText(terms: seq<Term>, n: nat, mysql: bool): string {
    var texts := Texts(terms, n, mysql);
    if |texts| == 1 then texts[0] else Open(mysql) + Join(texts, Separator(mysql)) + ")"
  }

  /** The query so far, the columns bound so far in order, and whether it ends in a lone marker. */
  datatype Out = Out(query: string, bound: seq<string>, afterMarker: bool)

  predicate EndsToken(query: string) {
    query != "" && (IsIdent(query[|query| - 1]) || query[|query| - 1] == '$')
  }

  function Separated(query: string): string { if EndsToken(query) then query + " " else query }

  /** Whether rendering the piece calls for a token boundary before it. */
  predicate Replaces(p: Piece, cols: set<string>) { p.Composite? || (p.Value? && p.column in cols) }

  /** The piece's own text in the query, after `n` arguments. */
  function PieceText(p: Piece, cols: set<string>, n: nat, mysql: bool): string {
    match p
    case Sql(text) => text
    case Composite(parts) => CompositeText(Terms(parts, cols, ""), n, mysql)
    case Value(column, quoted) =>
      if column in cols then Marker(n + 1, mysql) else RawPiece(p)
  }

  function PieceBound(p: Piece, cols: set<string>): seq<string> {
    match p
    case Sql(_) => []
    case Composite(parts) => Bound(Terms(parts, cols, ""))
    case Value(column, _) => if column in cols then [column] else []
  }

  /** The query up to where the piece's own text goes. */
  function LeadIn(o: Out, p: Piece, cols: set<string>): string {
    if Replaces(p, cols) then Separated(o.query)
    else if o.afterMarker && p.Sql? && p.text != "" && IsIdent(p.text[0]) then o.query + " "
    else o.query
  }

  function RenderPiece(o: Out, p: Piece, cols: set<string>, mysql: bool): Out {
    Out(LeadIn(o, p, cols) + PieceText(p, cols, |o.bound|, mysql), o.bound + PieceBound(p, cols),
        p.Value? && p.column in cols)
  }

  function Rendered(pieces: seq<Piece>, cols: set<string>, mysql: bool): Out {
    if pieces == [] then Out("", [], false)
    else RenderPiece(Rendered(pieces[..|pieces| - 1], cols, mysql), pieces[|pieces| - 1], cols, mysql)
  }

  function ValueOf(column: string, row: Row): DbValue { if column in row then row[column] else Null }

  function ValuesOf(bound: seq<string>, row: Row): seq<DbValue> {
    seq(|bound|, k requires 0 <= k < |bound| => ValueOf(bound[k], row))
  }

  lemma {:induction false} BoundPresent(parts: seq<Part>, cols: set<string>, pending: string)
    ensures forall c :: c in Bound(Terms(parts, cols, pending)) ==> c in cols
  {
    if parts != [] {
      if parts[0].Fixed? {
        BoundPresent(parts[1..], cols, pending + parts[0].raw);
      } else if parts[0].column !in cols {
        BoundPresent(parts[1..], cols, pending + Braced(parts[0].column));
      } else {
        BoundPresent(parts[1..], cols, "");
        BoundConcat(FlushedChunk(pending) + [Marked(parts[0].column)], Terms(parts[1..], cols, ""));
        BoundConcat(FlushedChunk(pending), [Marked(parts[0].column)]);
      }
    }
  }

  lemma {:induction false} BoundConcat(a: seq<Term>, b: seq<Term>)
    ensures Bound(a + b) == Bound(a) + Bound(b)
  {
    if a == [] {
      assert a + b == b;
    } else {
      BoundConcat(a[1..], b);
      assert (a + b)[1..] == a[1..] + b;
      Regrouped(BoundBy(a[0]), Bound(a[1..]), Bound(b));
    }
  }

  lemma {:induction false} RenderedPresent(pieces: seq<Piece>, cols: set<string>, mysql: bool)
    ensures forall c :: c in Rendered(pieces, cols, mysql).bound ==> c in cols
  {
    if pieces != [] {
      RenderedPresent(pieces[..|pieces| - 1], cols, mysql);
      var p := pieces[|pieces| - 1];
      if p.Composite? { BoundPresent(p.parts, cols, ""); }
    }
  }

  // ----- The renderer's loops -------------------------------------------------------------------

  method Concat(parts: seq<Part>, row: Row, given: seq<DbValue>, mysql: bool)
    returns (text: string, args: seq<DbValue>)
    ensures text == CompositeText(Terms(parts, row.Keys, ""), |given|, mysql)
    ensures args == given + ValuesOf(Bound(Terms(parts, row.Keys, "")), row)
  {
    var terms;
    terms, args := CollectTerms(parts, row, given, mysql);
    text := if |terms| == 1 then terms[0] else Open(mysql) + Join(terms, Separator(mysql)) + ")";
  }

  method CollectTerms(parts: seq<Part>, row: Row, given: seq<DbValue>, mysql: bool)
    returns (terms: seq<string>, args: seq<DbValue>)
    ensures Emitted(Terms(parts, row.Keys, ""), row, given, mysql, terms, args)
  {
    ghost var all := Terms(parts, row.Keys, "");
    ghost var done: seq<Term> := [];
    var pending := "";
    terms, args := [], given;
    for k := 0 to |parts|
      invariant Remaining(all, done, pending, parts[k..], row.Keys)
      invariant Emitted(done, row, given, mysql, terms, args)
    {
      var part := parts[k];
      assert parts[k..][1..] == parts[k + 1..];
      if part.Fixed? {
        pending := pending + part.raw;
      } else if part.column !in row {
        pending := pending + Braced(part.column);
      } else {
        EmitColumn(done, pending, part.column, row, given, mysql, terms, args);
        done := done + FlushedChunk(pending) + [Marked(part.column)];
        terms := terms + FlushedText(pending);
        pending := "";
        args := args + [row[part.column]];
        terms := terms + [Marker(|args|, mysql)];
      }
    }
    EmitFlushed(done, pending, row, given, mysql, terms, args);
    assert all == done + FlushedChunk(pending);
    terms := terms + FlushedText(pending);
  }

  /** The terms done, and those of the parts left with the text pending, make up the whole. */
  ghost predicate Remaining(all: seq<Term>, done: seq<Term>, pending: string, parts: seq<Part>, cols: set<string>) {
    all == done + Terms(parts, cols, pending)
  }

  /** The texts and arguments produced so far are those of the terms done. */
  ghost predicate Emitted(done: seq<Term>, row: Row, given: seq<DbValue>, mysql: bool,
                          terms: seq<string>, args: seq<DbValue>) {
    && terms == Texts(done, |given|, mysql)
    && args == given + ValuesOf(Bound(done), row)
  }

  lemma Emit(done: seq<Term>, t: Term, row: Row, given: seq<DbValue>, mysql: bool,
             terms: seq<string>, args: seq<DbValue>)
    requires Emitted(done, row, given, mysql, terms, args) && (t.Marked? ==> t.column in row)
    ensures var args' := if t.Marked? then args + [row[t.column]] else args;
            Emitted(done + [t], row, given, mysql, terms + [TermText(t, |args|, mysql)], args')
  {
    TextsSnoc(done, t, |given|, mysql);
    BoundSnoc(done, t);
  }

  function FlushedText(pending: string): seq<string> {
    if pending == "" then [] else ["'" + pending + "'"]
  }

  lemma EmitFlushed(done: seq<Term>, pending: string, row: Row, given: seq<DbValue>, mysql: bool,
                    terms: seq<string>, args: seq<DbValue>)
    requires Emitted(done, row, given, mysql, terms, args)
    ensures Emitted(done + FlushedChunk(pending), row, given, mysql, terms + FlushedText(pending), args)
  {
    if pending == "" {
      assert done + [] == done && terms + [] == terms;
    } else {
      Emit(done, Chunk(pending), row, given, mysql, terms, args);
    }
  }

  lemma EmitColumn(done: seq<Term>, pending: string, column: string, row: Row, given: seq<DbValue>, mysql: bool,
                   terms: seq<string>, args: seq<DbValue>)
    requires Emitted(done, row, given, mysql, terms, args) && column in row
    ensures Emitted(done + FlushedChunk(pending) + [Marked(column)], row, given, mysql,
                    terms + FlushedText(pending) + [Marker(|args| + 1, mysql)], args + [row[column]])
  {
    EmitFlushed(done, pending, row, given, mysql, terms, args);
    Emit(done + FlushedChunk(pending), Marked(column), row, given, mysql, terms + FlushedText(pending), args);
  }

  lemma BoundSnoc(terms: seq<Term>, t: Term)
    ensures Bound(terms + [t]) == Bound(terms) + BoundBy(t)
  {
    BoundConcat(terms, [t]);
    assert Bound([t]) == BoundBy(t);
  }

  lemma {:induction false} TextsSnoc(terms: seq<Term>, t: Term, n: nat, mysql: bool)
    ensures Texts(terms + [t], n, mysql) == Texts(terms, n, mysql) + [TermText(t, n + |Bound(terms)|, mysql)]
  {
    if terms == [] {
      assert terms + [t] == [t];
    } else {
      TextsSnoc(terms[1..], t, After(terms[0], n), mysql);
      assert (terms + [t])[1..] == terms[1..] + [t];
    }
  }

  ghost predicate Written(o: Out, row: Row, query: string, args: seq<DbValue>, afterMarker: bool) {
    && o.query == query && o.afterMarker == afterMarker
    && args == ValuesOf(o.bound, row)
  }

  /** The body of the renderer's loop. */
  method BindPiece(p: Piece, row: Row, mysql: bool, before: string, given: seq<DbValue>, after: bool, ghost o: Out)
    returns (query: string, args: seq<DbValue>, afterMarker: bool)
    requires Written(o, row, before, given, after)
    ensures Written(RenderPiece(o, p, row.Keys, mysql), row, query, args, afterMarker)
  {
    query, args, afterMarker := before, given, false;
    if after && p.Sql? && p.text != "" && IsIdent(p.text[0]) { query := query + " "; }
    match p
    case Composite(parts) =>
      query := Separated(query);
      var text;
      text, args := Concat(parts, row, args, mysql);
      query := query + text;
    case Value(column, quoted) =>
      if column in row {
        query := Separated(query);
        args := args + [row[column]];
        query := query + Marker(|args|, mysql);
        afterMarker := true;
      } else if quoted {
        query := query + ("'" + Braced(column) + "'");
      } else {
        query := query + Braced(column);
      }
    case Sql(text) => query := query + text;
  }

  /** The renderer: query and arguments for one row. The query depends on which columns the row
      has and never on their values, and the arguments are those columns' values in order. */
  method Bind(pieces: seq<Piece>, row: Row, mysql: bool) returns (query: string, args: seq<DbValue>)
    ensures query == Rendered(pieces, row.Keys, mysql).query
    ensures args == ValuesOf(Rendered(pieces, row.Keys, mysql).bound, row)
  {
    query, args := "", [];
    var afterMarker := false;
    ghost var o := Out("", [], false);
    for k := 0 to |pieces|
      invariant o == Rendered(pieces[..k], row.Keys, mysql) && Written(o, row, query, args, afterMarker)
    {
      var p := pieces[k];
      RenderedNext(pieces, k, row.Keys, mysql);
      query, args, afterMarker := BindPiece(p, row, mysql, query, args, afterMarker, o);
      o := RenderPiece(o, p, row.Keys, mysql);
    }
    assert pieces[..|pieces|] == pieces;
  }

  lemma RenderedNext(pieces: seq<Piece>, k: nat, cols: set<string>, mysql: bool)
    requires k < |pieces|
    ensures Rendered(pieces[..k + 1], cols, mysql)
            == RenderPiece(Rendered(pieces[..k], cols, mysql), pieces[k], cols, mysql)
  {
    assert pieces[..k + 1][..k] == pieces[..k];
  }
}
