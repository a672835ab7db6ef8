/** License expressions: scripts/check-licenses.py, worst, best, classify_token and classify_spdx, for
    the operators of Annex D of SPDX Specification 2.3. */
module Spdx {
  import opened Wrappers
  import opened Text

  /** How restrictive a license is, from most to least. */
  datatype Category = Copyleft | Unknown | WeakCopyleft | Permissive {
    function Rank(): nat { match this case Copyleft => 0 case Unknown => 1 case WeakCopyleft => 2 case Permissive => 3 }

    predicate AtMost(other: Category) { Rank() <= other.Rank() }
  }

  function Stricter(a: Category, b: Category): Category { if a.AtMost(b) then a else b }

  function Looser(a: Category, b: Category): Category { if a.AtMost(b) then b else a }

  function Severity(): seq<Category> { [Copyleft, Unknown, WeakCopyleft, Permissive] }

  /** The most restrictive of the categories; permissive when there is none. */
  method Worst(categories: seq<Category>) returns (c: Category)
    ensures categories == [] ==> c == Permissive
    ensures categories != [] ==> c in categories && forall x :: x in categories ==> c.AtMost(x)
  {
    for i := 0 to 4
      invariant forall x :: x in categories ==> x.Rank() >= i
      invariant categories != [] ==> categories[0].Rank() >= i
    {
      if Severity()[i] in categories { return Severity()[i]; }
    }
    c := Permissive;
  }

  /** The least restrictive of the categories; unknown when there is none. */
  method Best(categories: seq<Category>) returns (c: Category)
    ensures categories == [] ==> c == Unknown
    ensures categories != [] ==> c in categories && forall x :: x in categories ==> x.AtMost(c)
  {
    for i := 0 to 4
      invariant forall x :: x in categories ==> x.Rank() <= 3 - i
      invariant categories != [] ==> categories[0].Rank() <= 3 - i
    {
      if Severity()[3 - i] in categories { return Severity()[3 - i]; }
    }
    c := Unknown;
  }

  // ----- Licenses -----------------------------------------------------------------------------------

  function UpperChar(c: char): char { if 'a' <= c <= 'z' then (c as int - 32) as char else c }

  function Upper(s: string): string { if s == "" then "" else [UpperChar(s[0])] + Upper(s[1..]) }

  /** Without trailing plus signs. */
  function StripPlus(s: string): string {
    if s != "" && s[|s| - 1] == '+' then StripPlus(s[..|s| - 1]) else s
  }

  predicate ContainsAny(s: string, pats: seq<string>) { exists i :: 0 <= i < |pats| && Contains(s, pats[i]) }

  function PermissiveTokens(): seq<string> {
    ["MIT", "APACHE", "BSD", "ISC", "0BSD", "CC0", "UNLICENSE", "BLUEOAK", "BLUE-OAK", "PYTHON-2.0", "ZLIB", "WTFPL"]
  }

  /** The category of one license name, none for a word that names no license. */
  function ClassifyToken(tok: string): Option<Category> {
    var u := StripPlus(Upper(tok));
    if u == "" || u in ["AND", "OR", "WITH", "SEE", "CUSTOM"] then None
    else if ContainsAny(u, ["AGPL", "LGPL", "SSPL", "GPL"]) then Some(Copyleft)
    else if ContainsAny(u, ["MPL", "EPL", "CDDL"]) then Some(WeakCopyleft)
    else if Contains(u, "CC-BY") then
      if ContainsAny(u, ["-SA", "-NC", "-ND"]) then Some(Copyleft) else Some(Permissive)
    else if ContainsAny(u, PermissiveTokens()) then Some(Permissive)
    else Some(Unknown)
  }

  function CategoryOf(tok: string): Category {
    var c := ClassifyToken(tok);
    if c.Some? then c.value else Unknown
  }

  // ----- The parser's result ------------------------------------------------------------------------

  /** Binding strength: WITH binds tightest, OR loosest. */
  function Word(level: nat): string { if level == 1 then "WITH" else if level == 2 then "AND" else "OR" }

  predicate Starts(ts: seq<string>, level: nat) { ts != [] && Upper(ts[0]) == Word(level) }

  function Combine(level: nat, a: Category, b: Category): Category { if level == 3 then Looser(a, b) else Stricter(a, b) }

  /** What the parser reads at a level: its category and the tokens left. Level 0 is an atom. */
  function Parse(level: nat, ts: seq<string>, cat: string -> Category): (r: (Category, seq<string>))
    requires level <= 3
    ensures |r.1| <= |ts| && (ts != [] ==> |r.1| < |ts|)
    decreases |ts|, level, 1
  {
    if level == 0 then
      if ts == [] then (Unknown, [])
      else if ts[0] == "(" then
        var inner := Parse(3, ts[1..], cat);
        (inner.0, if inner.1 != [] && inner.1[0] == ")" then inner.1[1..] else inner.1)
      else (cat(ts[0]), ts[1..])
    else
      var first := Parse(level - 1, ts, cat);
      More(level, first.0, first.1, cat)
  }

  function More(level: nat, acc: Category, ts: seq<string>, cat: string -> Category): (r: (Category, seq<string>))
    requires 1 <= level <= 3
    ensures |r.1| <= |ts|
    decreases |ts|, level, 0
  {
    if Starts(ts, level) then
      var next := Parse(level - 1, ts[1..], cat);
      More(level, Combine(level, acc, next.0), next.1, cat)
    else (acc, ts)
  }

  // ----- The parser ---------------------------------------------------------------------------------

  /** Combining a list of categories one by one. */
  function CombineAll(level: nat, cats: seq<Category>): Category
    requires cats != []
  {
    if |cats| == 1 then cats[0] else Combine(level, CombineAll(level, cats[..|cats| - 1]), cats[|cats| - 1])
  }

  lemma {:induction false} CombineAllIs(level: nat, cats: seq<Category>)
    requires cats != []
    ensures CombineAll(level, cats) in cats
    ensures forall x :: x in cats ==> if level == 3 then x.AtMost(CombineAll(level, cats)) else CombineAll(level, cats).AtMost(x)
  {
    if |cats| > 1 {
      var n := |cats| - 1;
      CombineAllIs(level, cats[..n]);
      assert cats == cats[..n] + [cats[n]];
    }
  }

  lemma CombineNext(level: nat, cats: seq<Category>, next: Category)
    requires cats != []
    ensures CombineAll(level, cats + [next]) == Combine(level, CombineAll(level, cats), next)
  {
    assert (cats + [next])[..|cats|] == cats;
  }

  lemma SameRank(a: Category, b: Category)
    requires a.AtMost(b) && b.AtMost(a)
    ensures a == b
  {
  }

  /** The recursive-descent parser over a shared position. */
  class Parser {
    const toks: seq<string>
    var pos: nat

    constructor (toks: seq<string>)
      ensures this.toks == toks && pos == 0
    {
      this.toks, pos := toks, 0;
    }

    predicate AtWord(word: string)
      reads this
    {
      pos < |toks| && Upper(toks[pos]) == word
    }

    /** What is left to read. */
    function Rest(): seq<string>
      reads this
      requires pos <= |toks|
    {
      toks[pos..]
    }

    method ParseOr() returns (c: Category)
      requires pos <= |toks|
      modifies this
      ensures old(pos) <= pos <= |toks| && (c, Rest()) == Parse(3, old(Rest()), CategoryOf)
      decreases |toks| - pos, 3
    {
      var first := ParseAnd();
      var cats := [first];
      while AtWord("OR")
        invariant cats != [] && old(pos) <= pos <= |toks|
        invariant More(3, CombineAll(3, cats), Rest(), CategoryOf) == Parse(3, old(Rest()), CategoryOf)
        decreases |toks| - pos
      {
        pos := pos + 1;
        var next := ParseAnd();
        CombineNext(3, cats, next);
        cats := cats + [next];
      }
      c := Best(cats);
      CombineAllIs(3, cats);
      SameRank(c, CombineAll(3, cats));
    }

    method ParseAnd() returns (c: Category)
      requires pos <= |toks|
      modifies this
      ensures old(pos) <= pos <= |toks| && (c, Rest()) == Parse(2, old(Rest()), CategoryOf)
      decreases |toks| - pos, 2
    {
      var first := ParseWith();
      var cats := [first];
      while AtWord("AND")
        invariant cats != [] && old(pos) <= pos <= |toks|
        invariant More(2, CombineAll(2, cats), Rest(), CategoryOf) == Parse(2, old(Rest()), CategoryOf)
        decreases |toks| - pos
      {
        pos := pos + 1;
        var next := ParseWith();
        CombineNext(2, cats, next);
        cats := cats + [next];
      }
      c := Worst(cats);
      CombineAllIs(2, cats);
      SameRank(c, CombineAll(2, cats));
    }

    method ParseWith() returns (c: Category)
      requires pos <= |toks|
      modifies this
      ensures old(pos) <= pos <= |toks| && (c, Rest()) == Parse(1, old(Rest()), CategoryOf)
      decreases |toks| - pos, 1
    {
      var first := ParseAtom();
      var cats := [first];
      while AtWord("WITH")
        invariant cats != [] && old(pos) <= pos <= |toks|
        invariant More(1, CombineAll(1, cats), Rest(), CategoryOf) == Parse(1, old(Rest()), CategoryOf)
        decreases |toks| - pos
      {
        pos := pos + 1;
        var next := ParseAtom();
        CombineNext(1, cats, next);
        cats := cats + [next];
      }
      c := Worst(cats);
      CombineAllIs(1, cats);
      SameRank(c, CombineAll(1, cats));
    }

    method ParseAtom() returns (c: Category)
      requires pos <= |toks|
      modifies this
      ensures old(pos) <= pos <= |toks| && (c, Rest()) == Parse(0, old(Rest()), CategoryOf)
      decreases |toks| - pos, 0
    {
      if pos == |toks| { return Unknown; }
      var t := toks[pos];
      pos := pos + 1;
      assert old(Rest())[1..] == Rest();
      if t == "(" {
        c := ParseOr();
        if pos < |toks| && toks[pos] == ")" {
          assert Rest()[1..] == toks[pos + 1..];
          pos := pos + 1;
        }
        return;
      }
      return CategoryOf(t);
    }
  }

  /** Classifies a tokenized expression; whatever the parser leaves unread is not looked at. */
  method ClassifySpdx(toks: seq<string>) returns (c: Category)
    ensures c == if toks == [] then Unknown else Parse(3, toks, CategoryOf).0
  {
    if |toks| == 0 { return Unknown; }
    var parser := new Parser(toks);
    assert parser.Rest() == toks;
    c := parser.ParseOr();
  }
}
