/** The mark-done template lexer: kipper-poll/markdone.go, parseMarkDone and the scans under it. */
module Lexer {
  import opened Wrappers
  import opened Text
  import opened Literal

  /** Raw SQL, a placeholder standing as a value (possibly the whole of a quoted literal), or a
      literal with placeholders among its text. */
  datatype Piece = Sql(text: string) | Value(column: string, quoted: bool) | Composite(parts: seq<Part>)

  datatype ParseError =
    | SecondStatement | UnterminatedLiteral | AdjacentLiterals | PrefixedLiteral
    | UnterminatedQuote | QuotedPlaceholder | UnterminatedComment | CommentPlaceholder
    | NativeMarker | UnterminatedDollarQuote | DollarQuotedPlaceholder

  // ----- Scans ------------------------------------------------------------------------------

  /** The index just past the quoted text whose content continues at `i`. */
  function QuotedEnd(s: string, i: nat, quote: char, mysql: bool): (r: Option<nat>)
    ensures r.Some? ==> i < r.value <= |s|
    decreases |s| - i
  {
    if i >= |s| then None
    else if s[i] == quote && i + 1 < |s| && s[i + 1] == quote then QuotedEnd(s, i + 2, quote, mysql)
    else if s[i] == quote then Some(i + 1)
    else if mysql && quote == '"' && s[i] == '\\' then QuotedEnd(s, i + 2, quote, mysql)
    else QuotedEnd(s, i + 1, quote, mysql)
  }

  method ScanQuoted(s: string, start: nat, quote: char, mysql: bool) returns (r: Option<nat>)
    ensures r == QuotedEnd(s, start + 1, quote, mysql)
  {
    var i := start + 1;
    while i < |s|
      invariant QuotedEnd(s, start + 1, quote, mysql) == QuotedEnd(s, i, quote, mysql)
    {
      if s[i] == quote && i + 1 < |s| && s[i + 1] == quote {
        i := i + 1;
      } else if s[i] == quote {
        return Some(i + 1);
      } else if mysql && quote == '"' && s[i] == '\\' {
        i := i + 1;
      }
      i := i + 1;
    }
    return None;
  }

  /** An identifier quoted with its quotes doubled. */
  function QuoteIdent(name: string, quote: char): string {
    if name == "" then [quote]
    else (if name[0] == quote then [quote, quote] else [name[0]]) + QuoteIdent(name[1..], quote)
  }

  /** A quoted identifier is scanned exactly to its closing quote, whatever its name. */
  lemma {:induction false} QuotedRoundTrip(s: string, i: nat, name: string, quote: char)
    requires At(s, i, QuoteIdent(name, quote))
    requires i + |QuoteIdent(name, quote)| == |s| || s[i + |QuoteIdent(name, quote)|] != quote
    ensures QuotedEnd(s, i, quote, false) == Some(i + |QuoteIdent(name, quote)|)
    decreases |name|
  {
    var q := QuoteIdent(name, quote);
    assert s[i] == s[i..i + |q|][0] == q[0];
    if name != "" {
      var n := if name[0] == quote then 2 else 1;
      if n == 2 { assert s[i + 1] == s[i..i + |q|][1] == q[1]; }
      assert s[i + n..i + |q|] == s[i..i + |q|][n..] == q[n..] == QuoteIdent(name[1..], quote);
      QuotedRoundTrip(s, i + n, name[1..], quote);
    }
  }

  // The index after the end of the comment being read, from `j` on at the given depth.
  function CommentEnd(s: string, j: nat, depth: int, nested: bool): (r: Option<nat>)
    ensures r.Some? ==> j + 2 <= r.value <= |s|
    decreases |s| - j
  {
    if j + 1 >= |s| then None
    else if s[j] == '/' && s[j + 1] == '*' && (nested || depth == 0) then CommentEnd(s, j + 2, depth + 1, nested)
    else if s[j] == '*' && s[j + 1] == '/' then
      if depth == 1 then Some(j + 2) else CommentEnd(s, j + 2, depth - 1, nested)
    else CommentEnd(s, j + 1, depth, nested)
  }

  method BlockCommentEnd(s: string, i: nat, nested: bool) returns (r: Option<nat>)
    ensures r == CommentEnd(s, i, 0, nested)
  {
    var depth := 0;
    var j := i;
    while j + 1 < |s|
      invariant CommentEnd(s, i, 0, nested) == CommentEnd(s, j, depth, nested)
    {
      if s[j] == '/' && s[j + 1] == '*' && (nested || depth == 0) {
        depth := depth + 1;
        j := j + 1;
      } else if s[j] == '*' && s[j + 1] == '/' {
        depth := depth - 1;
        j := j + 1;
        if depth == 0 { return Some(j + 1); }
      }
      j := j + 1;
    }
    return None;
  }

  // Without nesting a comment ends at the first closing mark after its opening.
  lemma {:induction false} PlainCommentEnd(s: string, i: nat)
    requires At(s, i, "/*")
    ensures var close := IndexFrom(s, "*/", i + 2);
            CommentEnd(s, i, 0, false) == if close.None? then None else Some(close.value + 2)
  {
    assert s[i] == s[i..i + 2][0] && s[i + 1] == s[i..i + 2][1];
    PlainCommentFrom(s, i + 2);
  }

  lemma {:induction false} PlainCommentFrom(s: string, j: nat)
    ensures var close := IndexFrom(s, "*/", j);
            CommentEnd(s, j, 1, false) == if close.None? then None else Some(close.value + 2)
    decreases |s| - j
  {
    if j + 1 < |s| {
      assert s[j..j + 2] == [s[j], s[j + 1]];
      if !At(s, j, "*/") { PlainCommentFrom(s, j + 1); }
    } else if j < |s| {
      assert IndexFrom(s, "*/", j) == IndexFrom(s, "*/", j + 1);
    }
  }

  // Comments nested `levels` deep around plain text.
  function Comment(levels: nat, plain: string): string {
    if levels == 0 then plain else "/*" + Comment(levels - 1, plain) + "*/"
  }

  predicate NoMarks(plain: string) { forall k :: 0 <= k < |plain| ==> plain[k] != '*' && plain[k] != '/' }

  /** A nested comment at `i` opens and closes there, and the comment inside it stands between. */
  lemma CommentStands(s: string, i: nat, levels: nat, plain: string)
    requires levels > 0 && At(s, i, Comment(levels, plain))
    ensures var c, inner := Comment(levels, plain), Comment(levels - 1, plain);
            && |c| == |inner| + 4 && i + |c| <= |s|
            && s[i] == '/' && s[i + 1] == '*' && s[i + 2 + |inner|] == '*' && s[i + 3 + |inner|] == '/'
            && At(s, i + 2, inner)
  {
    var c, inner := Comment(levels, plain), Comment(levels - 1, plain);
    var w := s[i..i + |c|];
    assert w[0] == s[i] && w[1] == s[i + 1] && w[2 + |inner|] == s[i + 2 + |inner|] && w[3 + |inner|] == s[i + 3 + |inner|];
    SliceOfSlice(s, i, |c|, 2, 2 + |inner|);
  }

  /** A nested comment is scanned to its own outermost end. */
  lemma {:induction false} NestedCommentRoundTrip(s: string, i: nat, levels: nat, plain: string)
    requires levels > 0 && NoMarks(plain) && At(s, i, Comment(levels, plain))
    ensures CommentEnd(s, i, 0, true) == Some(i + |Comment(levels, plain)|)
  {
    CommentStands(s, i, levels, plain);
    InnerComment(s, i + 2, 1, levels - 1, plain);
  }

  lemma {:induction false} InnerComment(s: string, j: nat, depth: nat, levels: nat, plain: string)
    requires depth > 0 && NoMarks(plain) && At(s, j, Comment(levels, plain))
    requires j + |Comment(levels, plain)| + 1 < |s| && s[j + |Comment(levels, plain)|] == '*'
    ensures CommentEnd(s, j, depth, true) == CommentEnd(s, j + |Comment(levels, plain)|, depth, true)
    decreases levels, |plain|
  {
    if levels == 0 {
      if plain != "" {
        var w := s[j..j + |plain|];
        assert s[j] == w[0] == plain[0];
        if |plain| > 1 { assert s[j + 1] == w[1] == plain[1]; }
        SliceOfSlice(s, j, |plain|, 1, |plain|);
        InnerComment(s, j + 1, depth, 0, plain[1..]);
      }
    } else {
      CommentStands(s, j, levels, plain);
      InnerComment(s, j + 2, depth + 1, levels - 1, plain);
    }
  }

  /** The first index at or after `j` that no identifier byte stands at. */
  function IdentEnd(s: string, j: nat): (r: nat)
    requires j <= |s|
    ensures j <= r <= |s| && (r < |s| ==> !IsIdent(s[r])) && forall k :: j <= k < r ==> IsIdent(s[k])
    decreases |s| - j
  {
    if j < |s| && IsIdent(s[j]) then IdentEnd(s, j + 1) else j
  }

  /** The `$tag$` opening a dollar-quoted string: a possibly empty identifier between dollars,
      not starting with a digit and not itself part of an identifier. */
  function DollarTag(s: string, i: nat): (r: Option<string>)
    requires i < |s|
    ensures r.Some? ==> 2 <= |r.value| && At(s, i, r.value)
  {
    if i > 0 && IsIdent(s[i - 1]) then None
    else
      var e := IdentEnd(s, i + 1);
      if e < |s| && s[e] == '$' && !IsDigit(s[i + 1]) then Some(s[i..e + 1]) else None
  }

  /** A tag written between dollars is the identifier it names, read whole: it is recognised exactly
      where no identifier byte comes before it and its name does not start with a digit. */
  lemma {:induction false} DollarTagRoundTrip(s: string, i: nat, name: string)
    requires (forall k :: 0 <= k < |name| ==> IsIdent(name[k])) && At(s, i, "$" + name + "$")
    ensures DollarTag(s, i) == Some("$" + name + "$")
            <==> (i == 0 || !IsIdent(s[i - 1])) && (name == "" || !IsDigit(name[0]))
  {
    var tag, e := "$" + name + "$", i + 1 + |name|;
    assert forall k :: 0 <= k < |tag| ==> tag[k] == s[i + k];
    assert forall k :: i + 1 <= k < e ==> s[k] == tag[k - i] == name[k - i - 1];
    assert s[e] == tag[|name| + 1] == '$';
    IdentStops(s, i + 1, e);
    if name != "" { assert s[i + 1] == name[0]; }
  }

  lemma {:induction false} IdentStops(s: string, j: nat, e: nat)
    requires j <= e < |s| && !IsIdent(s[e]) && forall k :: j <= k < e ==> IsIdent(s[k])
    ensures IdentEnd(s, j) == e
    decreases e - j
  {
    if j < e { IdentStops(s, j + 1, e); }
  }

  method DollarTagAt(s: string, i: nat) returns (r: Option<string>)
    requires i < |s|
    ensures r == DollarTag(s, i)
  {
    if i > 0 && IsIdent(s[i - 1]) { return None; }
    var j := i + 1;
    while j < |s|
      invariant i < j <= |s|
      invariant IdentEnd(s, i + 1) == IdentEnd(s, j)
      invariant j > i + 1 ==> !IsDigit(s[i + 1])
    {
      if s[j] == '$' { return Some(s[i..j + 1]); }
      if !IsIdent(s[j]) || IsDigit(s[i + 1]) { return None; }
      j := j + 1;
    }
    return None;
  }

  /** The start of the identifier that ends at `i`. */
  function IdentStart(s: string, i: nat): (r: nat)
    requires i <= |s|
    ensures r <= i && (r > 0 ==> !IsIdent(s[r - 1])) && forall k :: r <= k < i ==> IsIdent(s[k])
  {
    if i > 0 && IsIdent(s[i - 1]) then IdentStart(s, i - 1) else i
  }

  function StringPrefix(s: string, i: nat): string
    requires i <= |s|
  {
    Lower(s[IdentStart(s, i)..i])
  }

  method PrefixBefore(s: string, i: nat) returns (r: string)
    requires i <= |s|
    ensures r == StringPrefix(s, i)
  {
    var start := i;
    while start > 0 && IsIdent(s[start - 1])
      invariant 0 <= start <= i && IdentStart(s, i) == IdentStart(s, start)
    {
      start := start - 1;
    }
    return Lower(s[start..i]);
  }

  predicate HasStringPrefix(s: string, i: nat, mysql: bool)
    requires i <= |s|
  {
    || (!mysql && i >= 2 && s[i - 1] == '&' && (s[i - 2] == 'u' || s[i - 2] == 'U') && (i == 2 || !IsIdent(s[i - 3])))
    || var word := StringPrefix(s, i);
       word != "" && ((mysql && word[0] == '_') || word == "b" || word == "x" || word == "n" || (word == "e" && !mysql))
  }

  // ----- Literals continued after a gap -------------------------------------------------------

  predicate IsGapSpace(c: char) { IsSpace(c) || c == 12 as char || c == 11 as char }

  predicate StartsLineComment(s: string, i: nat, mysql: bool)
    requires i < |s|
    ensures StartsLineComment(s, i, mysql) ==> s[i] == '-' || s[i] == '#'
  {
    assert At(s, i, "--") ==> s[i] == s[i..i + 2][0];
    if !mysql then At(s, i, "--")
    else s[i] == '#' || (At(s, i, "--") && (i + 2 == |s| || s[i + 2] <= ' ' || s[i + 2] == 127 as char))
  }

  predicate StartsComment(s: string, i: nat, mysql: bool) {
    At(s, i, "--") || At(s, i, "/*") || (mysql && At(s, i, "#"))
  }

  /** The first line end at or after `i`; MySQL ends a line comment at a line feed only. */
  function LineEnd(s: string, i: nat, mysql: bool): (r: Option<nat>)
    ensures r.Some? ==> i <= r.value < |s|
    decreases |s| - i
  {
    if i >= |s| then None
    else if s[i] == '\n' || (!mysql && s[i] == '\r') then Some(i)
    else LineEnd(s, i + 1, mysql)
  }

  /** Whether the gap from `i` on holds only what may separate the parts of one literal. */
  predicate OnlySeparators(gap: string, i: nat, mysql: bool)
    decreases |gap| - i
  {
    if i >= |gap| then true
    else if IsGapSpace(gap[i]) then OnlySeparators(gap, i + 1, mysql)
    else if StartsLineComment(gap, i, mysql) then
      var end := LineEnd(gap, i, mysql);
      end.Some? && OnlySeparators(gap, end.value, mysql)
    else if mysql && At(gap, i, "/*") && !At(gap, i, "/*!") then
      var end := CommentEnd(gap, i, 0, false);
      end.Some? && OnlySeparators(gap, end.value, mysql)
    else false
  }

  predicate Continues(s: string, prevEnd: int, start: nat, mysql: bool)
    requires prevEnd <= start <= |s|
  {
    prevEnd >= 0 &&
    var gap := s[prevEnd..start];
    OnlySeparators(gap, 0, mysql) && (mysql || exists k :: 0 <= k < |gap| && (gap[k] == '\n' || gap[k] == '\r'))
  }

  method ContinuesLiteral(s: string, prevEnd: int, start: nat, mysql: bool) returns (r: bool)
    requires prevEnd <= start <= |s|
    ensures r == Continues(s, prevEnd, start, mysql)
  {
    if prevEnd < 0 { return false; }
    var gap := s[prevEnd..start];
    var i := 0;
    while i < |gap|
      invariant 0 <= i <= |gap|
      invariant OnlySeparators(gap, 0, mysql) == OnlySeparators(gap, i, mysql)
    {
      if IsGapSpace(gap[i]) {
        i := i + 1;
      } else if StartsLineComment(gap, i, mysql) {
        var end := LineEnd(gap, i, mysql);
        if end.None? { return false; }
        i := end.value;
      } else if mysql && At(gap, i, "/*") && !At(gap, i, "/*!") {
        var end := BlockCommentEnd(gap, i, false);
        if end.None? { return false; }
        i := end.value;
      } else {
        return false;
      }
    }
    return mysql || exists k :: 0 <= k < |gap| && (gap[k] == '\n' || gap[k] == '\r');
  }

  // ----- The template ---------------------------------------------------------------------------

  /** What the lexer remembers between tokens: whether the statement ended, and where the last
      literal ended and whether it binds. */
  datatype Memory = Memory(ended: bool, lastEnd: int, lastBinds: bool)

  function Start(): Memory { Memory(false, -1, false) }

  /** One token: its piece, the index after it and the memory to read on with. */
  datatype Token = Token(piece: Piece, next: nat, memory: Memory)

  /** The raw text up to `end`, provided it holds no placeholder. */
  function RawUpTo(s: string, i: nat, end: nat, m: Memory, refusal: ParseError): Result<Token, ParseError>
    requires i <= end <= |s|
  {
    if Contains(s[i..end], "{{") then Err(refusal) else Ok(Token(Sql(s[i..end]), end, m))
  }

  function QuotedAt(s: string, i: nat, m: Memory, mysql: bool): (r: Result<Token, ParseError>)
    requires i < |s|
    ensures r.Ok? ==> i < r.value.next <= |s| && r.value.memory == m
  {
    var end := QuotedEnd(s, i + 1, s[i], mysql);
    if end.None? then Err(UnterminatedQuote) else RawUpTo(s, i, end.value, m, QuotedPlaceholder)
  }

  function LineCommentAt(s: string, i: nat, m: Memory): (r: Result<Token, ParseError>)
    requires i < |s| && s[i] != '\n'
    ensures r.Ok? ==> i < r.value.next <= |s| && r.value.memory == m
  {
    var line := IndexFrom(s, "\n", i);
    assert line.Some? ==> s[line.value] == s[line.value..line.value + 1][0] == '\n';
    RawUpTo(s, i, if line.None? then |s| else line.value, m, CommentPlaceholder)
  }

  function BlockCommentAt(s: string, i: nat, m: Memory, mysql: bool): (r: Result<Token, ParseError>)
    requires i < |s|
    ensures r.Ok? ==> i < r.value.next <= |s| && r.value.memory == m
  {
    var end := CommentEnd(s, i, 0, !mysql);
    if end.None? then Err(UnterminatedComment) else RawUpTo(s, i, end.value, m, CommentPlaceholder)
  }

  function DollarAt(s: string, i: nat, m: Memory): (r: Result<Token, ParseError>)
    requires i < |s|
    ensures r.Ok? ==> i < r.value.next <= |s| && r.value.memory == m
  {
    if i + 1 < |s| && IsDigit(s[i + 1]) && (i == 0 || !IsIdent(s[i - 1])) then Err(NativeMarker)
    else match DollarTag(s, i)
      case None => Ok(Token(Sql([s[i]]), i + 1, m))
      case Some(tag) => DollarQuoted(s, i, tag, m)
  }

  /** The dollar-quoted string that `tag` opens at `i`. */
  function DollarQuoted(s: string, i: nat, tag: string, m: Memory): (r: Result<Token, ParseError>)
    requires i < |s| && tag != ""
    ensures r.Ok? ==> i < r.value.next <= |s| && r.value.memory == m
  {
    var close := IndexFrom(s, tag, i + |tag|);
    if close.None? then Err(UnterminatedDollarQuote)
    else RawUpTo(s, i, close.value + |tag|, m, DollarQuotedPlaceholder)
  }

  /** The token at `i`, in the order the lexer tries its cases. */
  function TokenAt(s: string, i: nat, m: Memory, mysql: bool): (r: Result<Token, ParseError>)
    requires i < |s| && m.lastEnd <= i
    ensures r.Ok? ==> i < r.value.next <= |s| && r.value.memory.lastEnd <= r.value.next
  {
    var c := s[i];
    if m.ended && !IsSpace(c) && !StartsComment(s, i, mysql) then Err(SecondStatement)
    else if At(s, i, "{{") then
      match PlaceholderAt(s, i)
      case None => Ok(Token(Sql([c]), i + 1, m))
      case Some((column, next)) => Ok(Token(Value(column, false), next, m))
    else if c == '\'' then LiteralAt(s, i, m, mysql)
    else if c == '"' || c == '`' then QuotedAt(s, i, m, mysql)
    else if At(s, i, "--") || (mysql && c == '#') then
      assert At(s, i, "--") ==> s[i] == s[i..i + 2][0];
      LineCommentAt(s, i, m)
    else if At(s, i, "/*") then BlockCommentAt(s, i, m, mysql)
    else if c == '$' && !mysql then DollarAt(s, i, m)
    else if c == '?' && mysql then Err(NativeMarker)
    else if c == ';' then Ok(Token(Sql([c]), i + 1, m.(ended := true)))
    else Ok(Token(Sql([c]), i + 1, m))
  }

  predicate Backslashes(s: string, i: nat, mysql: bool)
    requires i <= |s|
  {
    mysql || StringPrefix(s, i) == "e"
  }

  function LiteralAt(s: string, i: nat, m: Memory, mysql: bool): (r: Result<Token, ParseError>)
    requires i < |s| && s[i] == '\'' && m.lastEnd <= i
    ensures r.Ok? ==> i < r.value.next <= |s| && r.value.memory.lastEnd <= r.value.next
  {
    match ScannedLiteral(s, i, Backslashes(s, i, mysql))
    case None => Err(UnterminatedLiteral)
    case Some((end, parts)) =>
      var binds := HasColumn(parts);
      if (binds || m.lastBinds) && Continues(s, m.lastEnd, i, mysql) then Err(AdjacentLiterals)
      else if binds && HasStringPrefix(s, i, mysql) then Err(PrefixedLiteral)
      else
        var piece := if !binds then Sql(s[i..end])
                     else if |parts| == 1 then Value(parts[0].column, true)
                     else Composite(parts);
        Ok(Token(piece, end, m.(lastEnd := end, lastBinds := binds)))
  }

  /** The tokens from `i` to the end of the template. */
  function Tokens(s: string, i: nat, m: Memory, mysql: bool): Result<seq<Piece>, ParseError>
    requires m.lastEnd <= i
    decreases |s| - i
  {
    if i >= |s| then Ok([])
    else match TokenAt(s, i, m, mysql)
      case Err(e) => Err(e)
      case Ok(Token(piece, next, m')) =>
        AndThen(piece, Tokens(s, next, m', mysql))
  }

  function AndThen(piece: Piece, rest: Result<seq<Piece>, ParseError>): Result<seq<Piece>, ParseError> {
    if rest.Err? then rest else Ok([piece] + rest.value)
  }

  /** Runs of raw SQL joined into one piece, after text still pending. */
  function Merged(pieces: seq<Piece>, pending: string): seq<Piece> {
    if pieces == [] then FlushedSql(pending)
    else if pieces[0].Sql? then Merged(pieces[1..], pending + pieces[0].text)
    else FlushedSql(pending) + [pieces[0]] + Merged(pieces[1..], "")
  }

  function FlushedSql(pending: string): seq<Piece> {
    if pending == "" then [] else [Sql(pending)]
  }

  function Parsed(s: string, mysql: bool): Result<seq<Piece>, ParseError> {
    match Tokens(s, 0, Start(), mysql)
    case Err(e) => Err(e)
    case Ok(pieces) => Ok(Merged(pieces, ""))
  }

  method NextLiteral(s: string, i: nat, m: Memory, mysql: bool) returns (r: Result<Token, ParseError>)
    requires i < |s| && s[i] == '\'' && m.lastEnd <= i
    ensures r == LiteralAt(s, i, m, mysql)
  {
    var prefix := PrefixBefore(s, i);
    var scanned := ScanLiteral(s, i, mysql || prefix == "e");
    if scanned.None? { return Err(UnterminatedLiteral); }
    var (end, parts) := scanned.value;
    var binds := HasColumn(parts);
    if binds || m.lastBinds {
      var continued := ContinuesLiteral(s, m.lastEnd, i, mysql);
      if continued { return Err(AdjacentLiterals); }
    }
    var memory := m.(lastEnd := end, lastBinds := binds);
    if !binds { return Ok(Token(Sql(s[i..end]), end, memory)); }
    if HasStringPrefix(s, i, mysql) { return Err(PrefixedLiteral); }
    if |parts| == 1 { return Ok(Token(Value(parts[0].column, true), end, memory)); }
    return Ok(Token(Composite(parts), end, memory));
  }

  method NextDollar(s: string, i: nat, m: Memory) returns (r: Result<Token, ParseError>)
    requires i < |s|
    ensures r == DollarAt(s, i, m)
  {
    if i + 1 < |s| && IsDigit(s[i + 1]) && (i == 0 || !IsIdent(s[i - 1])) { return Err(NativeMarker); }
    var tag := DollarTagAt(s, i);
    if tag.None? { return Ok(Token(Sql([s[i]]), i + 1, m)); }
    return DollarQuoted(s, i, tag.value, m);
  }

  /** The token at `i`, computed by the scanning loops. */
  method NextToken(s: string, i: nat, m: Memory, mysql: bool) returns (r: Result<Token, ParseError>)
    requires i < |s| && m.lastEnd <= i
    ensures r == TokenAt(s, i, m, mysql)
  {
    var c := s[i];
    if m.ended && !IsSpace(c) && !StartsComment(s, i, mysql) { return Err(SecondStatement); }
    if At(s, i, "{{") {
      var hole := PlaceholderAt(s, i);
      if hole.None? { return Ok(Token(Sql([c]), i + 1, m)); }
      return Ok(Token(Value(hole.value.0, false), hole.value.1, m));
    } else if c == '\'' {
      r := NextLiteral(s, i, m, mysql);
      return;
    } else if c == '"' || c == '`' {
      var end := ScanQuoted(s, i, c, mysql);
      if end.None? { return Err(UnterminatedQuote); }
      return RawUpTo(s, i, end.value, m, QuotedPlaceholder);
    } else if At(s, i, "--") || (mysql && c == '#') {
      return LineCommentAt(s, i, m);
    } else if At(s, i, "/*") {
      var end := BlockCommentEnd(s, i, !mysql);
      if end.None? { return Err(UnterminatedComment); }
      return RawUpTo(s, i, end.value, m, CommentPlaceholder);
    } else if c == '$' && !mysql {
      r := NextDollar(s, i, m);
      return;
    } else if c == '?' && mysql {
      return Err(NativeMarker);
    } else if c == ';' {
      return Ok(Token(Sql([c]), i + 1, m.(ended := true)));
    }
    return Ok(Token(Sql([c]), i + 1, m));
  }

  /** The lexer: one pass over the template with a builder for raw SQL. */
  method ParseMarkDone(template: string, mysql: bool) returns (r: Result<seq<Piece>, ParseError>)
    ensures r == Parsed(template, mysql)
  {
    var pieces: seq<Piece>, text := [], "";
    var i, memory := 0, Start();
    ghost var all := Tokens(template, 0, Start(), mysql);
    SameParseStart(all);
    while i < |template|
      invariant i <= |template| && memory.lastEnd <= i
      invariant SameParse(all, pieces, text, Tokens(template, i, memory, mysql))
      decreases |template| - i
    {
      var token := NextToken(template, i, memory, mysql);
      if token.Err? { return Err(token.error); }
      var Token(piece, next, m) := token.value;
      SameParseStep(all, pieces, text, piece, Tokens(template, next, m, mysql));
      if piece.Sql? {
        text := text + piece.text;
      } else {
        if |text| > 0 {
          pieces := pieces + [Sql(text)];
          text := "";
        }
        pieces := pieces + [piece];
      }
      i, memory := next, m;
    }
    assert Merged(all.value, "") == pieces + FlushedSql(text);
    assert pieces + [] == pieces;
    if |text| > 0 { pieces := pieces + [Sql(text)]; }
    return Ok(pieces);
  }

  /** What is built so far, with the tokens still to come, makes up the whole parse. */
  ghost predicate SameParse(all: Result<seq<Piece>, ParseError>, pieces: seq<Piece>, text: string,
                            rest: Result<seq<Piece>, ParseError>) {
    match rest
    case Err(e) => all == Err(e)
    case Ok(more) => all.Ok? && Merged(all.value, "") == pieces + Merged(more, text)
  }

  lemma SameParseStart(all: Result<seq<Piece>, ParseError>)
    ensures SameParse(all, [], "", all)
  {
  }

  lemma SameParseStep(all: Result<seq<Piece>, ParseError>, pieces: seq<Piece>, text: string, piece: Piece,
                      tail: Result<seq<Piece>, ParseError>)
    requires SameParse(all, pieces, text, AndThen(piece, tail))
    ensures piece.Sql? ==> SameParse(all, pieces, text + piece.text, tail)
    ensures !piece.Sql? ==> SameParse(all, pieces + FlushedSql(text) + [piece], "", tail)
  {
    if tail.Ok? {
      assert ([piece] + tail.value)[1..] == tail.value;
      if !piece.Sql? {
        var m := Merged(tail.value, "");
        assert pieces + (FlushedSql(text) + [piece] + m) == pieces + FlushedSql(text) + [piece] + m;
      }
    }
  }

  // ----- What a parse preserves -----------------------------------------------------------------

  function RawPiece(p: Piece): string {
    match p
    case Sql(text) => text
    case Value(column, quoted) => if quoted then "'" + Braced(column) + "'" else Braced(column)
    case Composite(parts) => "'" + RawParts(parts) + "'"
  }

  function RawPieces(pieces: seq<Piece>): string {
    if pieces == [] then "" else RawPiece(pieces[0]) + RawPieces(pieces[1..])
  }

  /** Whether the piece was written as a quoted literal. */
  predicate IsLiteral(p: Piece) { p.Composite? || (p.Value? && p.quoted) }

  /** A piece as the lexer leaves it: text and columns are never empty, and a composite holds
      whole text and at least one column among two or more parts. */
  predicate WholePiece(p: Piece, mysql: bool) {
    match p
    case Sql(text) => text != ""
    case Value(column, _) => ColumnName(column)
    case Composite(parts) => |parts| > 1 && HasColumn(parts) && WholeParts(parts, mysql)
  }

  /** No quote follows a literal, so its closing quote cannot be read as a doubled one. */
  predicate Apart(p: Piece, rest: string) {
    IsLiteral(p) ==> rest == "" || rest[0] != '\''
  }

  predicate WholePieces(pieces: seq<Piece>, mysql: bool) {
    pieces != [] ==>
      && WholePiece(pieces[0], mysql)
      && Apart(pieces[0], RawPieces(pieces[1..]))
      && WholePieces(pieces[1..], mysql)
  }

  lemma {:induction false} TokenFacts(s: string, i: nat, m: Memory, mysql: bool)
    requires i < |s| && m.lastEnd <= i && TokenAt(s, i, m, mysql).Ok?
    ensures var Token(piece, next, _) := TokenAt(s, i, m, mysql).value;
            RawPiece(piece) == s[i..next] && WholePiece(piece, mysql) && Apart(piece, s[next..])
  {
    assert s[i..i + 1] == [s[i]];
    if At(s, i, "{{") {
      if PlaceholderAt(s, i).Some? { PlaceholderFacts(s, i); }
    } else if s[i] == '\'' {
      LiteralFacts(s, i, m, mysql);
    }
  }

  lemma LiteralFacts(s: string, i: nat, m: Memory, mysql: bool)
    requires i < |s| && s[i] == '\'' && m.lastEnd <= i && LiteralAt(s, i, m, mysql).Ok?
    ensures var Token(piece, next, _) := LiteralAt(s, i, m, mysql).value;
            RawPiece(piece) == s[i..next] && WholePiece(piece, mysql) && Apart(piece, s[next..])
  {
    var backslash := Backslashes(s, i, mysql);
    var (end, parts) := ScannedLiteral(s, i, backslash).value;
    ScannedFacts(s, i, backslash);
    if HasColumn(parts) {
      if |parts| == 1 {
        assert RawParts(parts[1..]) == "";
      }
    }
  }

  lemma ScannedFacts(s: string, i: nat, backslash: bool)
    requires i < |s| && s[i] == '\'' && ScannedLiteral(s, i, backslash).Some?
    ensures var (end, parts) := ScannedLiteral(s, i, backslash).value;
            && s[i..end] == "'" + RawParts(parts) + "'"
            && WholeParts(parts, backslash) && (end == |s| || s[end] != '\'')
  {
    var (end, parts) := ScannedLiteral(s, i, backslash).value;
    assert Decode("", backslash).Some?;
    ScanLossless(s, i + 1, backslash, "");
    ScanWhole(s, i + 1, backslash, "");
    NothingBefore(s[i + 1..end]);
    CutSlice(s, i, i + 1, end, "'");
    Regrouped("'", RawParts(parts), "'");
  }

  /** The pieces stand one after the other from `i` to the end, each whole and apart from the next. */
  ghost predicate Stand(s: string, i: nat, pieces: seq<Piece>, mysql: bool)
    decreases |pieces|
  {
    if pieces == [] then i == |s|
    else
      var next := i + |RawPiece(pieces[0])|;
      && next <= |s| && s[i..next] == RawPiece(pieces[0]) && WholePiece(pieces[0], mysql)
      && Apart(pieces[0], s[next..]) && Stand(s, next, pieces[1..], mysql)
  }

  lemma {:induction false} TokensStand(s: string, i: nat, m: Memory, mysql: bool, pieces: seq<Piece>)
    requires m.lastEnd <= i <= |s| && Tokens(s, i, m, mysql) == Ok(pieces)
    ensures Stand(s, i, pieces, mysql)
    decreases |s| - i
  {
    if i < |s| {
      var Token(piece, next, m') := TokenAt(s, i, m, mysql).value;
      var rest := Tokens(s, next, m', mysql);
      TokenFacts(s, i, m, mysql);
      TokensStand(s, next, m', mysql, rest.value);
      TailOf(piece, rest.value);
      StandNext(s, i, next, piece, rest.value, mysql);
    }
  }

  lemma StandNext(s: string, i: nat, next: nat, piece: Piece, rest: seq<Piece>, mysql: bool)
    requires i <= next <= |s| && s[i..next] == RawPiece(piece) && WholePiece(piece, mysql) && Apart(piece, s[next..])
    requires Stand(s, next, rest, mysql)
    ensures Stand(s, i, [piece] + rest, mysql)
  {
    var all := [piece] + rest;
    TailOf(piece, rest);
    assert all[0] == piece && all[1..] == rest && next == i + |RawPiece(all[0])|;
  }

  lemma {:induction false} StandFacts(s: string, i: nat, pieces: seq<Piece>, mysql: bool)
    requires i <= |s| && Stand(s, i, pieces, mysql)
    ensures RawPieces(pieces) == s[i..] && WholePieces(pieces, mysql)
    decreases |pieces|
  {
    if pieces != [] {
      var next := i + |RawPiece(pieces[0])|;
      var rest := pieces[1..];
      StandFacts(s, next, rest, mysql);
      CutSlice(s, i, next, |s|, RawPiece(pieces[0]));
      assert s[next..] == s[next..|s|] && s[i..] == s[i..|s|];
      assert Apart(pieces[0], RawPieces(rest));
    }
  }

  lemma TokensFacts(s: string, i: nat, m: Memory, mysql: bool)
    requires m.lastEnd <= i <= |s| && Tokens(s, i, m, mysql).Ok?
    ensures var pieces := Tokens(s, i, m, mysql).value;
            RawPieces(pieces) == s[i..] && WholePieces(pieces, mysql)
  {
    TokensStand(s, i, m, mysql, Tokens(s, i, m, mysql).value);
    StandFacts(s, i, Tokens(s, i, m, mysql).value, mysql);
  }

  lemma {:induction false} MergedFacts(pieces: seq<Piece>, pending: string, mysql: bool)
    requires WholePieces(pieces, mysql)
    ensures RawPieces(Merged(pieces, pending)) == pending + RawPieces(pieces)
    ensures WholePieces(Merged(pieces, pending), mysql)
  {
    if pieces == [] {
      assert RawPieces(FlushedSql(pending)) == pending;
    } else if pieces[0].Sql? {
      MergedFacts(pieces[1..], pending + pieces[0].text, mysql);
      Regrouped(pending, pieces[0].text, RawPieces(pieces[1..]));
    } else {
      MergedFacts(pieces[1..], "", mysql);
      MergedNext(pieces[0], pieces[1..], pending, mysql);
    }
  }

  lemma MergedNext(p: Piece, rest: seq<Piece>, pending: string, mysql: bool)
    requires !p.Sql? && WholePiece(p, mysql) && Apart(p, RawPieces(rest))
    requires RawPieces(Merged(rest, "")) == "" + RawPieces(rest) && WholePieces(Merged(rest, ""), mysql)
    ensures var merged := FlushedSql(pending) + [p] + Merged(rest, "");
            RawPieces(merged) == pending + (RawPiece(p) + RawPieces(rest)) && WholePieces(merged, mysql)
  {
    var merged := Merged(rest, "");
    assert "" + RawPieces(rest) == RawPieces(rest);
    ConsFacts(p, merged, mysql);
    FlushedFacts(pending, [p] + merged, mysql);
    assert FlushedSql(pending) + [p] + merged == FlushedSql(pending) + ([p] + merged);
  }

  lemma ConsFacts(p: Piece, rest: seq<Piece>, mysql: bool)
    requires WholePiece(p, mysql) && Apart(p, RawPieces(rest)) && WholePieces(rest, mysql)
    ensures RawPieces([p] + rest) == RawPiece(p) + RawPieces(rest) && WholePieces([p] + rest, mysql)
  {
    assert ([p] + rest)[1..] == rest;
  }

  lemma FlushedFacts(pending: string, rest: seq<Piece>, mysql: bool)
    requires WholePieces(rest, mysql)
    ensures RawPieces(FlushedSql(pending) + rest) == pending + RawPieces(rest)
    ensures WholePieces(FlushedSql(pending) + rest, mysql)
  {
    if pending == "" {
      assert FlushedSql(pending) + rest == rest && pending + RawPieces(rest) == RawPieces(rest);
    } else {
      ConsFacts(Sql(pending), rest, mysql);
    }
  }

  /** Parsing is lossless: the pieces written out again are the template, byte for byte, and
      every piece is whole. */
  lemma {:induction false} ParseLossless(template: string, mysql: bool)
    requires Parsed(template, mysql).Ok?
    ensures var pieces := Parsed(template, mysql).value;
            RawPieces(pieces) == template && WholePieces(pieces, mysql)
  {
    TokensFacts(template, 0, Start(), mysql);
    MergedFacts(Tokens(template, 0, Start(), mysql).value, "", mysql);
    assert template[0..] == template;
    assert "" + template == template;
  }
}
