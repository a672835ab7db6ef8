/** Byte tests and substring search used by the mark-done lexer.
    A template is a Go string, so one `char` stands for one byte. */
module Text {
  import opened Wrappers

  predicate IsSpace(c: char) { c == ' ' || c == '\t' || c == '\n' || c == '\r' }

  predicate IsDigit(c: char) { '0' <= c <= '9' }

  predicate IsIdent(c: char) {
    c == '_' || IsDigit(c) || 'a' <= c <= 'z' || 'A' <= c <= 'Z'
  }

  /** Whether `pat` stands at index `i`. */
  predicate At(s: string, i: nat, pat: string) {
    i + |pat| <= |s| && s[i..i + |pat|] == pat
  }

  /** The first index at or after `i` where `pat` stands. */
  function IndexFrom(s: string, pat: string, i: nat): (r: Option<nat>)
    ensures r.Some? ==> i <= r.value && At(s, r.value, pat)
    decreases |s| - i
  {
    if i > |s| then None
    else if At(s, i, pat) then Some(i)
    else IndexFrom(s, pat, i + 1)
  }

  /** It is the first such index, and there is none exactly when the text stands nowhere. */
  lemma {:induction false} IndexIsFirst(s: string, pat: string, i: nat, j: nat)
    requires i <= j && At(s, j, pat)
    ensures IndexFrom(s, pat, i).Some? && IndexFrom(s, pat, i).value <= j
    decreases |s| - i
  {
    if !At(s, i, pat) { IndexIsFirst(s, pat, i + 1, j); }
  }

  predicate Contains(s: string, pat: string) { IndexFrom(s, pat, 0).Some? }

  function Lower(s: string): (r: string)
    ensures |r| == |s|
  {
    seq(|s|, i requires 0 <= i < |s| => if 'A' <= s[i] <= 'Z' then s[i] - 'A' + 'a' else s[i])
  }

  /** What `%d` prints for a natural number. */
  function Decimal(n: nat): (r: string)
    ensures |r| > 0 && forall i :: 0 <= i < |r| ==> IsDigit(r[i])
  {
    var last := [(n % 10) as char + '0'];
    if n < 10 then last else Decimal(n / 10) + last
  }

  /** The number whose digits `q` starts with, read on from `acc`, and what follows them. */
  function ReadDigits(q: string, acc: nat): (r: (nat, string))
    ensures |r.1| <= |q|
  {
    if q != "" && IsDigit(q[0]) then ReadDigits(q[1..], 10 * acc + (q[0] - '0') as nat) else (acc, q)
  }

  /** Reading back what `Decimal` printed gives the number and leaves what follows. */
  lemma {:induction false} ReadDecimal(n: nat, rest: string)
    ensures ReadDigits(Decimal(n) + rest, 0) == ReadDigits(rest, n)
  {
    var last := [(n % 10) as char + '0'];
    assert (last + rest)[1..] == rest;
    if n >= 10 {
      ReadDecimal(n / 10, last + rest);
      assert Decimal(n) + rest == Decimal(n / 10) + (last + rest);
    }
  }

  /** A slice of a slice is a slice. */
  lemma SliceOfSlice<T>(s: seq<T>, i: nat, n: nat, a: nat, b: nat)
    requires i + n <= |s| && a <= b <= n
    ensures s[i..i + n][a..b] == s[i + a..i + b]
  {
    assert |s[i..i + n][a..b]| == |s[i + a..i + b]|;
    var part := s[i..i + n];
    forall k | 0 <= k < b - a ensures part[a..b][k] == s[i + a..i + b][k] {
      assert part[a..b][k] == part[a + k];
    }
  }

  lemma Regrouped<T>(a: seq<T>, b: seq<T>, c: seq<T>)
    ensures a + (b + c) == a + b + c
  {
  }

  /** Dropping the head of a sequence put together from it. */
  lemma TailOf<T>(x: T, rest: seq<T>)
    ensures ([x] + rest)[1..] == rest
  {
  }
}
