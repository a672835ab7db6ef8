/** Single-quoted SQL literals: how the mark-done lexer splits one into raw text and
    placeholders, and what the database reads such text as. */
module Literal {
  import opened Wrappers
  import opened Text

  /** Raw literal content with its escapes intact, or the column of a placeholder. */
  datatype Part = Fixed(raw: string) | Hole(column: string)

  predicate Reserved(c: char) { c == '{' || c == '}' || c == '\'' || c == '"' || c == '`' }

  predicate ColumnName(name: string) {
    name != "" && forall k :: 0 <= k < |name| ==> !Reserved(name[k])
  }

  function Braced(column: string): string { "{{" + column + "}}" }

  /** The placeholder whose `{{` stands at `i`: its column and the index after its `}}`. */
  function PlaceholderAt(s: string, i: nat): (r: Option<(string, nat)>)
    requires At(s, i, "{{")
    ensures r.Some? ==> i < r.value.1 <= |s|
  {
    var close := IndexFrom(s, "}}", i + 2);
    if close.None? || !ColumnName(s[i + 2..close.value]) then None
    else Some((s[i + 2..close.value], close.value + 2))
  }

  lemma {:induction false} PlaceholderFacts(s: string, i: nat)
    requires At(s, i, "{{") && PlaceholderAt(s, i).Some?
    ensures var (column, next) := PlaceholderAt(s, i).value; ColumnName(column) && s[i..next] == Braced(column)
  {
    var close := IndexFrom(s, "}}", i + 2).value;
    var column := s[i + 2..close];
    CutSlice(s, i, i + 2, close + 2, "{{");
    CutSlice(s, i + 2, close, close + 2, column);
    Regrouped("{{", column, "}}");
  }

  /** Every well-named placeholder in the text is recognized. */
  lemma {:induction false} PlaceholderComplete(s: string, i: nat, column: string)
    requires ColumnName(column) && At(s, i, Braced(column))
    ensures At(s, i, "{{") && PlaceholderAt(s, i) == Some((column, i + |Braced(column)|))
  {
    assert s[i..i + 2] == s[i..i + |Braced(column)|][..2] == "{{";
    NoBraced(s, i, column);
  }

  lemma BracedMiddle(column: string)
    ensures var b := Braced(column);
            |b| == |column| + 4 && b[2..2 + |column|] == column && b[2 + |column|..|b|] == "}}"
  {
  }

  /** A well-named placeholder standing at `i` is closed by the first `}}` after it. */
  lemma NoBraced(s: string, i: nat, column: string)
    requires ColumnName(column) && At(s, i, "{{")
    ensures At(s, i, Braced(column)) ==>
              var close := IndexFrom(s, "}}", i + 2);
              close == Some(i + 2 + |column|) && s[i + 2..close.value] == column
  {
    if At(s, i, Braced(column)) {
      var b := s[i..i + |Braced(column)|];
      var e := i + 2 + |column|;
      SliceOfSlice(s, i, |b|, 2, 2 + |column|);
      SliceOfSlice(s, i, |b|, 2 + |column|, |b|);
      BracedMiddle(column);
      forall j | i + 2 <= j < e ensures !At(s, j, "}}") {
        assert s[j] == s[i + 2..e][j - i - 2] == column[j - i - 2];
        assert s[j] != '}';
      }
      assert At(s, e, "}}");
      IndexIsFirst(s, "}}", i + 2, e);
    }
  }

  // ----- Tokens of a literal ---------------------------------------------------------------

  /** One step of the scan: a lone byte, an escape pair, or a placeholder. */
  datatype Unit = Plain(c: char) | Pair(first: char, second: char) | Gap(column: string)
  {
    function Raw(): string {
      match this
      case Plain(c) => [c]
      case Pair(a, b) => [a, b]
      case Gap(column) => Braced(column)
    }
  }

  datatype Scan = Unterminated | Closed(units: seq<Unit>, end: nat)

  function Cons(u: Unit, rest: Scan): Scan {
    if rest.Closed? then Closed([u] + rest.units, rest.end) else rest
  }

  /** The unit that stands at `i` and the index after it; none at the closing quote. */
  function UnitAt(s: string, i: nat, backslash: bool): (r: Option<(Unit, nat)>)
    requires i < |s|
    ensures r.Some? ==> i < r.value.1 <= |s|
  {
    if s[i] == '\'' && i + 1 < |s| && s[i + 1] == '\'' then Some((Pair('\'', '\''), i + 2))
    else if s[i] == '\'' then None
    else if backslash && s[i] == '\\' && i + 1 < |s| then Some((Pair('\\', s[i + 1]), i + 2))
    else if At(s, i, "{{") && PlaceholderAt(s, i).Some? then
      var (column, next) := PlaceholderAt(s, i).value;
      Some((Gap(column), next))
    else Some((Plain(s[i]), i + 1))
  }

  /** The unit is what stands there, and whole. */
  lemma UnitStands(s: string, i: nat, backslash: bool)
    requires i < |s| && UnitAt(s, i, backslash).Some?
    ensures var (u, next) := UnitAt(s, i, backslash).value;
            && next == i + |u.Raw()| && s[i..next] == u.Raw()
            && (u.Gap? ==> ColumnName(u.column))
            && (u.Plain? ==> u.c != '\'' && (backslash && i + 1 < |s| ==> u.c != '\\'))
            && (u.Pair? ==> u == Pair('\'', '\'') || (backslash && u.first == '\\'))
  {
    if At(s, i, "{{") && PlaceholderAt(s, i).Some? { PlaceholderFacts(s, i); }
  }

  /** The units of the literal content from `i` up to its closing quote. */
  function ScanUnits(s: string, i: nat, backslash: bool): (r: Scan)
    ensures r.Closed? ==> i < r.end <= |s|
    decreases |s| - i
  {
    if i >= |s| then Unterminated
    else match UnitAt(s, i, backslash)
      case None => Closed([], i + 1)
      case Some((u, next)) => Cons(u, ScanUnits(s, next, backslash))
  }

  /** Adjacent text units run together, as the lexer's string builder joins them. */
  function Joined(units: seq<Unit>, pending: string): seq<Part> {
    if units == [] then Flushed(pending)
    else match units[0]
      case Gap(column) => Flushed(pending) + [Hole(column)] + Joined(units[1..], "")
      case _ => Joined(units[1..], pending + units[0].Raw())
  }

  function Flushed(pending: string): seq<Part> {
    if pending == "" then [] else [Fixed(pending)]
  }

  function RawParts(parts: seq<Part>): string {
    if parts == [] then "" else PartRaw(parts[0]) + RawParts(parts[1..])
  }

  function PartRaw(part: Part): string {
    if part.Hole? then Braced(part.column) else part.raw
  }

  predicate HasColumn(parts: seq<Part>) { exists p :: p in parts && p.Hole? }

  /** The step at `i`: the closing quote, or the unit that stands there. */
  method ReadUnit(s: string, i: nat, backslash: bool) returns (closed: bool, u: Unit, next: nat)
    requires i < |s|
    ensures UnitAt(s, i, backslash) == if closed then None else Some((u, next))
  {
    if s[i] == '\'' && i + 1 < |s| && s[i + 1] == '\'' { return false, Pair('\'', '\''), i + 2; }
    if s[i] == '\'' { return true, Plain(s[i]), i; }
    if backslash && s[i] == '\\' && i + 1 < |s| { return false, Pair('\\', s[i + 1]), i + 2; }
    if At(s, i, "{{") {
      var hole := PlaceholderAt(s, i);
      if hole.Some? { return false, Gap(hole.value.0), hole.value.1; }
    }
    return false, Plain(s[i]), i + 1;
  }

  /** The literal scanner, a loop over one builder as in the lexer. */
  method ScanLiteral(s: string, start: nat, backslash: bool) returns (r: Option<(nat, seq<Part>)>)
    requires start < |s|
    ensures r == ScannedLiteral(s, start, backslash)
  {
    var parts: seq<Part>, text := [], "";
    var i := start + 1;
    ghost var all := ScanUnits(s, start + 1, backslash);
    while i < |s|
      invariant start < i <= |s|
      invariant SameOutcome(all, parts, text, ScanUnits(s, i, backslash))
      decreases |s| - i
    {
      var closed, u, next := ReadUnit(s, i, backslash);
      if closed {
        OutcomeClosed(all, parts, text, i + 1);
        if |text| > 0 { parts := parts + [Fixed(text)]; }
        return Some((i + 1, parts));
      }
      if u.Gap? {
        OutcomeGap(all, parts, text, u.column, ScanUnits(s, next, backslash));
        if |text| > 0 {
          parts := parts + [Fixed(text)];
          text := "";
        }
        parts := parts + [Hole(u.column)];
      } else {
        text := text + u.Raw();
      }
      i := next;
    }
    return None;
  }

  /** What is built so far, with the rest of the scan still to join, makes up the whole. */
  ghost predicate SameOutcome(all: Scan, parts: seq<Part>, text: string, rest: Scan) {
    && (all.Closed? <==> rest.Closed?)
    && (rest.Closed? ==> all.end == rest.end && Joined(all.units, "") == parts + Joined(rest.units, text))
  }

  lemma OutcomeClosed(all: Scan, parts: seq<Part>, text: string, end: nat)
    requires SameOutcome(all, parts, text, Closed([], end))
    ensures all.Closed? && all.end == end
    ensures Joined(all.units, "") == if text == "" then parts else parts + [Fixed(text)]
  {
  }

  lemma OutcomeGap(all: Scan, parts: seq<Part>, text: string, column: string, rest: Scan)
    requires SameOutcome(all, parts, text, Cons(Gap(column), rest))
    ensures SameOutcome(all, (if text == "" then parts else parts + [Fixed(text)]) + [Hole(column)], "", rest)
  {
    assert parts + Flushed(text) == if text == "" then parts else parts + [Fixed(text)];
    if rest.Closed? {
      assert ([Gap(column)] + rest.units)[1..] == rest.units;
      assert parts + (Flushed(text) + [Hole(column)] + Joined(rest.units, ""))
          == parts + Flushed(text) + [Hole(column)] + Joined(rest.units, "");
    }
  }

  /** The literal opened at `start`: the index after it and its parts. */
  function ScannedLiteral(s: string, start: nat, backslash: bool): (r: Option<(nat, seq<Part>)>)
    requires start < |s|
    ensures r.Some? ==> start + 1 < r.value.0 <= |s|
  {
    match ScanUnits(s, start + 1, backslash)
    case Unterminated => None
    case Closed(units, end) => Some((end, Joined(units, "")))
  }

  // ----- What the database reads -------------------------------------------------------------

  /** The text behind a backslash escape, per the MySQL manual section 9.1.1. */
  function Escaped(c: char): string {
    match c
    case '0' => [0 as char]
    case 'b' => [8 as char]
    case 'n' => "\n"
    case 'r' => "\r"
    case 't' => "\t"
    case 'Z' => [26 as char]
    case '%' => "\\%"
    case '_' => "\\_"
    case _ => [c]
  }

  /** What the content starts with: a doubled quote, a backslash escape or a plain byte, as the
      text it stands for and its length. None at a lone quote and at a backslash cut off. */
  function Lead(q: string, backslash: bool): (r: Option<(string, nat)>)
    requires q != ""
    ensures r.Some? ==> 1 <= r.value.1 <= |q|
  {
    if q[0] == '\'' then
      if |q| > 1 && q[1] == '\'' then Some(("'", 2)) else None
    else if backslash && q[0] == '\\' then
      if |q| > 1 then Some((Escaped(q[1]), 2)) else None
    else Some(([q[0]], 1))
  }

  /** What raw literal content stands for; none when an escape is cut off at its end. */
  function Decode(raw: string, backslash: bool): Option<string> {
    if raw == "" then Some("")
    else match Lead(raw, backslash)
      case None => None
      case Some((text, n)) => Prefixed(text, Decode(raw[n..], backslash))
  }

  function Prefixed(head: string, tail: Option<string>): Option<string> {
    if tail.Some? then Some(head + tail.value) else None
  }

  /** Reads literal content up to its closing quote, knowing nothing of placeholders: the text,
      after what was read before, and what follows the quote. */
  function ReadContent(q: string, read: string, backslash: bool): (r: Option<(string, string)>)
    ensures r.Some? ==> |r.value.1| < |q|
  {
    if q == "" then None
    else match Lead(q, backslash)
      case None => if q[0] == '\'' then Some((read, q[1..])) else None
      case Some((text, n)) => ReadContent(q[n..], read + text, backslash)
  }

  /** Whole pieces of content decode side by side: no escape reaches across the join. */
  lemma {:induction false} DecodeConcat(a: string, b: string, backslash: bool)
    requires Decode(a, backslash).Some?
    ensures Decode(a + b, backslash) == Prefixed(Decode(a, backslash).value, Decode(b, backslash))
  {
    if a == "" {
      assert a + b == b && forall t: string :: "" + t == t;
    } else {
      var (text, n) := Lead(a, backslash).value;
      assert Lead(a + b, backslash) == Lead(a, backslash);
      DecodeConcat(a[n..], b, backslash);
      assert (a + b)[n..] == a[n..] + b;
      PrefixedTwice(text, Decode(a[n..], backslash).value, Decode(b, backslash));
    }
  }

  lemma PrefixedTwice(a: string, b: string, tail: Option<string>)
    ensures Prefixed(a + b, tail) == Prefixed(a, Prefixed(b, tail))
  {
    if tail.Some? { assert a + b + tail.value == a + (b + tail.value); }
  }

  lemma NothingAfter(s: string)
    ensures s + "" == s
  {
  }

  lemma DropFrom(a: string, b: string, n: nat)
    requires n <= |a|
    ensures (a + b)[n..] == a[n..] + b
  {
  }

  /** Whole content up to a closing quote reads as its decoding, whatever but a quote follows. */
  lemma {:induction false} ReadsAs(raw: string, rest: string, read: string, backslash: bool)
    requires Decode(raw, backslash).Some? && (rest == "" || rest[0] != '\'')
    ensures ReadContent(raw + ("'" + rest), read, backslash) == Some((read + Decode(raw, backslash).value, rest))
    decreases |raw|
  {
    var close := "'" + rest;
    TailOf('\'', rest);
    if raw == "" {
      NothingBefore(close);
      NothingAfter(read);
    } else {
      var (text, n) := Lead(raw, backslash).value;
      DropFrom(raw, close, n);
      ReadsAs(raw[n..], rest, read + text, backslash);
      Regrouped(read, text, Decode(raw[n..], backslash).value);
    }
  }

  // ----- Facts about an accepted scan --------------------------------------------------------

  /** A part as the scan leaves it: nonempty whole text, or a well-named column. */
  predicate WholePart(part: Part, backslash: bool) {
    match part
    case Fixed(raw) => raw != "" && Decode(raw, backslash).Some?
    case Hole(column) => ColumnName(column)
  }

  predicate WholeParts(parts: seq<Part>, backslash: bool) {
    forall k :: 0 <= k < |parts| ==> WholePart(parts[k], backslash)
  }

  /** The units stand one after the other from `i` up to a closing quote that ends the literal. */
  ghost predicate Tiles(s: string, i: nat, units: seq<Unit>, end: nat)
    decreases |units|
  {
    if units == [] then i < |s| && s[i] == '\'' && end == i + 1 && (end == |s| || s[end] != '\'')
    else
      var next := i + |units[0].Raw()|;
      next <= |s| && s[i..next] == units[0].Raw() && Tiles(s, next, units[1..], end)
  }

  lemma TilesCons(s: string, i: nat, next: nat, units: seq<Unit>, end: nat)
    requires units != [] && Stands(s, i, units[0], next) && Tiles(s, next, units[1..], end)
    ensures Tiles(s, i, units, end)
  {
  }

  lemma {:induction false} ScanTiles(s: string, i: nat, backslash: bool, units: seq<Unit>, end: nat)
    requires ScanUnits(s, i, backslash) == Closed(units, end)
    ensures Tiles(s, i, units, end)
    decreases |units|
  {
    if units == [] {
    } else {
      var next := NextUnit(s, i, backslash, units, end);
      ScanTiles(s, next, backslash, units[1..], end);
      TilesCons(s, i, next, units, end);
    }
  }

  predicate Stands(s: string, i: nat, u: Unit, next: nat) {
    next == i + |u.Raw()| <= |s| && s[i..next] == u.Raw()
  }

  lemma NextUnit(s: string, i: nat, backslash: bool, units: seq<Unit>, end: nat) returns (next: nat)
    requires ScanUnits(s, i, backslash) == Closed(units, end) && units != []
    ensures Stands(s, i, units[0], next) && ScanUnits(s, next, backslash) == Closed(units[1..], end)
  {
    UnitFacts(s, i, backslash, units, end);
    next := i + |units[0].Raw()|;
  }

  lemma {:induction false} JoinedRaw(s: string, i: nat, units: seq<Unit>, end: nat, pending: string)
    requires Tiles(s, i, units, end)
    ensures i < end <= |s| && RawParts(Joined(units, pending)) + "'" == pending + s[i..end]
    decreases |units|
  {
    if units == [] {
      assert s[i..end] == "'";
    } else {
      var u, next := units[0], i + |units[0].Raw()|;
      if u.Gap? {
        JoinedRaw(s, next, units[1..], end, "");
        CutSlice(s, i, next, end, u.Raw());
        NothingBefore(s[next..end]);
        RawGap(u.column, Joined(units[1..], ""), pending, s[next..end]);
      } else {
        JoinedRaw(s, next, units[1..], end, pending + u.Raw());
        CutSlice(s, i, next, end, u.Raw());
        Regrouped(pending, u.Raw(), s[next..end]);
      }
    }
  }

  lemma {:induction false} TilesEnd(s: string, i: nat, units: seq<Unit>, end: nat)
    requires Tiles(s, i, units, end)
    ensures 0 < end <= |s| && (end == |s| || s[end] != '\'')
    decreases |units|
  {
    if units != [] { TilesEnd(s, i + |units[0].Raw()|, units[1..], end); }
  }

  /** The scan is lossless and stops at the closing quote. */
  lemma {:induction false} ScanLossless(s: string, i: nat, backslash: bool, pending: string)
    requires ScanUnits(s, i, backslash).Closed?
    ensures var Closed(units, end) := ScanUnits(s, i, backslash);
            && RawParts(Joined(units, pending)) + "'" == pending + s[i..end]
            && (end == |s| || s[end] != '\'')
  {
    var Closed(units, end) := ScanUnits(s, i, backslash);
    ScanTiles(s, i, backslash, units, end);
    TilesEnd(s, i, units, end);
    JoinedRaw(s, i, units, end, pending);
  }

  lemma NothingBefore(s: string)
    ensures "" + s == s
  {
  }

  lemma CutSlice(s: string, i: nat, next: nat, end: nat, raw: string)
    requires i <= next <= end <= |s| && s[i..next] == raw
    ensures s[i..end] == raw + s[next..end]
  {
  }

  lemma RawGap(column: string, rest: seq<Part>, pending: string, raw: string)
    requires RawParts(rest) + "'" == raw
    ensures RawParts(Flushed(pending) + [Hole(column)] + rest) + "'" == pending + (Braced(column) + raw)
  {
    assert Flushed(pending) + [Hole(column)] + rest == Flushed(pending) + ([Hole(column)] + rest);
    RawConcat(Flushed(pending), [Hole(column)] + rest);
    assert ([Hole(column)] + rest)[1..] == rest;
    assert RawParts(Flushed(pending)) == pending;
    assert pending + (Braced(column) + RawParts(rest)) + "'" == pending + (Braced(column) + (RawParts(rest) + "'"));
  }

  /** A unit is a well-named placeholder or whole content. */
  predicate WholeUnit(u: Unit, backslash: bool) { if u.Gap? then ColumnName(u.column) else Decode(u.Raw(), backslash).Some? }

  predicate WholeUnits(units: seq<Unit>, backslash: bool) {
    units != [] ==> WholeUnit(units[0], backslash) && WholeUnits(units[1..], backslash)
  }

  lemma {:induction false} ScanUnitsWhole(s: string, i: nat, backslash: bool, units: seq<Unit>, end: nat)
    requires ScanUnits(s, i, backslash) == Closed(units, end)
    ensures WholeUnits(units, backslash)
    decreases |units|
  {
    if units != [] {
      UnitFacts(s, i, backslash, units, end);
      UnitDecodes(s, i, backslash);
      ScanUnitsWhole(s, i + |units[0].Raw()|, backslash, units[1..], end);
    }
  }

  lemma {:induction false} JoinedWhole(units: seq<Unit>, pending: string, backslash: bool)
    requires WholeUnits(units, backslash) && Decode(pending, backslash).Some?
    ensures WholeParts(Joined(units, pending), backslash)
    decreases |units|
  {
    if units == [] {
      FlushedWhole(pending, backslash);
    } else {
      var u := units[0];
      if u.Gap? {
        NothingDecodes(backslash);
        JoinedWhole(units[1..], "", backslash);
        GapWhole(pending, u.column, Joined(units[1..], ""), backslash);
      } else {
        DecodeConcat(pending, u.Raw(), backslash);
        JoinedWhole(units[1..], pending + u.Raw(), backslash);
      }
    }
  }

  /** The scan cuts only between escapes: every text part is whole content. */
  lemma {:induction false} ScanWhole(s: string, i: nat, backslash: bool, pending: string)
    requires ScanUnits(s, i, backslash).Closed? && Decode(pending, backslash).Some?
    ensures WholeParts(Joined(ScanUnits(s, i, backslash).units, pending), backslash)
  {
    var Closed(units, end) := ScanUnits(s, i, backslash);
    ScanUnitsWhole(s, i, backslash, units, end);
    JoinedWhole(units, pending, backslash);
  }

  lemma NothingDecodes(backslash: bool)
    ensures Decode("", backslash).Some?
  {
  }

  lemma FlushedWhole(pending: string, backslash: bool)
    requires Decode(pending, backslash).Some?
    ensures WholeParts(Flushed(pending), backslash)
  {
  }

  lemma GapWhole(pending: string, column: string, rest: seq<Part>, backslash: bool)
    requires Decode(pending, backslash).Some? && ColumnName(column) && WholeParts(rest, backslash)
    ensures WholeParts(Flushed(pending) + [Hole(column)] + rest, backslash)
  {
    FlushedWhole(pending, backslash);
    var front := Flushed(pending) + [Hole(column)];
    assert WholeParts(front, backslash);
    forall k | 0 <= k < |front + rest| ensures WholePart((front + rest)[k], backslash) { }
  }

  /** The first unit stands at `i` and is followed by the scan of the rest. */
  lemma UnitFacts(s: string, i: nat, backslash: bool, units: seq<Unit>, end: nat)
    requires ScanUnits(s, i, backslash) == Closed(units, end) && units != []
    ensures var u, next := units[0], i + |units[0].Raw()|;
            && i < next <= end && s[i..next] == u.Raw() && (u.Gap? ==> ColumnName(u.column))
            && ScanUnits(s, next, backslash) == Closed(units[1..], end)
  {
    UnitStands(s, i, backslash);
    var (u, next) := UnitAt(s, i, backslash).value;
    TailOf(u, ScanUnits(s, next, backslash).units);
  }

  lemma UnitDecodes(s: string, i: nat, backslash: bool)
    requires ScanUnits(s, i, backslash).Closed? && ScanUnits(s, i, backslash).units != []
    ensures var u := ScanUnits(s, i, backslash).units[0]; u.Gap? || Decode(u.Raw(), backslash).Some?
  {
    UnitStands(s, i, backslash);
  }

  lemma {:induction false} RawConcat(a: seq<Part>, b: seq<Part>)
    ensures RawParts(a + b) == RawParts(a) + RawParts(b)
  {
    if a == [] {
      assert a + b == b;
    } else {
      RawConcat(a[1..], b);
      assert a + b == [a[0]] + (a[1..] + b);
      TailOf(a[0], a[1..] + b);
      Regrouped(PartRaw(a[0]), RawParts(a[1..]), RawParts(b));
    }
  }

  /** A placeholder left in place is itself whole content: its braces never end in an escape. */
  lemma {:induction false} BracedWhole(column: string, backslash: bool)
    requires ColumnName(column)
    ensures Decode(Braced(column), backslash).Some?
  {
    EndsInBraces(Braced(column), backslash);
  }

  lemma {:induction false} EndsInBraces(raw: string, backslash: bool)
    requires forall c :: c in raw ==> c != '\''
    requires raw == "" || raw[|raw| - 1] == '}'
    ensures Decode(raw, backslash).Some?
  {
    if raw != "" {
      assert raw[0] in raw;
      var n := Lead(raw, backslash).value.1;
      assert forall c :: c in raw[n..] ==> c in raw;
      EndsInBraces(raw[n..], backslash);
    }
  }

  /** Quoting any text and scanning it gives it back: `''` undoes doubled quotes on PostgreSQL. */
  function QuoteDoubled(text: string): string {
    if text == "" then ""
    else (if text[0] == '\'' then "''" else [text[0]]) + QuoteDoubled(text[1..])
  }

  lemma {:induction false} DecodeQuoted(text: string)
    ensures Decode(QuoteDoubled(text), false) == Some(text)
  {
    if text != "" {
      var q := QuoteDoubled(text);
      var n := Lead(q, false).value.1;
      assert q[n..] == QuoteDoubled(text[1..]);
      DecodeQuoted(text[1..]);
      assert text == [text[0]] + text[1..];
    }
  }
}
