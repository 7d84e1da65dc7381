/**
 * String operations of the JavaScript runtime that the modelled code relies on:
 * truthiness of optional strings, ASCII case folding, the ECMAScript white-space
 * class (shared by `\s` and `String.prototype.trim`), substring search,
 * `split` on a one-character separator and `join`.
 */
module TextOps {

  datatype Option<+T> = None | Some(value: T)

  /** JavaScript truthiness of an optional string: present and not "". */
  predicate Truthy(o: Option<string>) {
    o.Some? && |o.value| > 0
  }

  /** ECMAScript WhiteSpace and LineTerminator code points. */
  predicate IsSpace(c: char) {
    var n := c as int;
    n == 0x09 || n == 0x0A || n == 0x0B || n == 0x0C || n == 0x0D || n == 0x20
    || n == 0xA0 || n == 0x1680 || (0x2000 <= n <= 0x200A) || n == 0x2028
    || n == 0x2029 || n == 0x202F || n == 0x205F || n == 0x3000 || n == 0xFEFF
  }

  /** The regular-expression class `\d`: ASCII digits only. */
  predicate IsDigit(c: char) {
    '0' <= c <= '9'
  }

  function LowerChar(c: char): char {
    if 'A' <= c <= 'Z' then (c as int + 32) as char else c
  }

  /** ASCII lower-casing, character by character. */
  function Lower(s: string): (r: string)
    ensures |r| == |s|
    ensures forall k :: 0 <= k < |s| ==> r[k] == LowerChar(s[k])
  {
    seq(|s|, k requires 0 <= k < |s| => LowerChar(s[k]))
  }

  /** Every character of s[p..w] is white space. */
  predicate SpaceRun(s: string, p: nat, w: nat) {
    p <= w <= |s| && forall j :: p <= j < w ==> IsSpace(s[j])
  }

  predicate AllSpace(s: string) {
    SpaceRun(s, 0, |s|)
  }

  /** No white space at either end. */
  predicate Trimmed(s: string) {
    s == [] || (!IsSpace(s[0]) && !IsSpace(s[|s| - 1]))
  }

  /** The end of the longest white-space run starting at k (a greedy `\s*`). */
  function SkipSpace(s: string, k: nat): (r: nat)
    requires k <= |s|
    ensures k <= r <= |s| && SpaceRun(s, k, r)
    ensures r < |s| ==> !IsSpace(s[r])
    decreases |s| - k
  {
    if k < |s| && IsSpace(s[k]) then SkipSpace(s, k + 1) else k
  }

  /** No white-space run from k is longer than the one SkipSpace finds. */
  lemma SkipSpaceLongest(s: string, k: nat, w: nat)
    requires k <= |s| && SpaceRun(s, k, w)
    ensures w <= SkipSpace(s, k)
  {
  }

  /** The start of the longest white-space run ending at hi, not going below lo. */
  function SkipSpaceBack(s: string, lo: nat, hi: nat): (r: nat)
    requires lo <= hi <= |s|
    ensures lo <= r <= hi && SpaceRun(s, r, hi)
    ensures r > lo ==> !IsSpace(s[r - 1])
    decreases hi
  {
    if hi > lo && IsSpace(s[hi - 1]) then SkipSpaceBack(s, lo, hi - 1) else hi
  }

  /** `String.prototype.trim`: drop the white space at both ends. */
  function Trim(s: string): (r: string)
    ensures Trimmed(r)
    ensures r == [] <==> AllSpace(s)
    ensures exists i: nat :: i + |r| <= |s| && SpaceRun(s, 0, i) && s[i..i + |r|] == r && SpaceRun(s, i + |r|, |s|)
  {
    var i := SkipSpace(s, 0);
    var j := SkipSpaceBack(s, i, |s|);
    assert SpaceRun(s, 0, i) && s[i..i + (j - i)] == s[i..j];
    s[i..j]
  }

  /** Trimming a string that is already trimmed changes nothing. */
  lemma TrimOfTrimmed(s: string)
    requires Trimmed(s)
    ensures Trim(s) == s
  {
    if s != [] {
      assert SkipSpace(s, 0) == 0;
      assert SkipSpaceBack(s, 0, |s|) == |s|;
    }
  }

  /** The pattern occurs in s at index i. */
  predicate OccursAt(s: string, pat: string, i: nat) {
    i + |pat| <= |s| && s[i..i + |pat|] == pat
  }

  /** Leftmost occurrence of pat in s at or after from. */
  function Find(s: string, pat: string, from: nat): (r: Option<nat>)
    ensures r.Some? ==> from <= r.value && OccursAt(s, pat, r.value)
    ensures r.Some? ==> forall j :: from <= j < r.value ==> !OccursAt(s, pat, j)
    ensures r.None? ==> forall j :: from <= j ==> !OccursAt(s, pat, j)
    decreases |s| - from
  {
    if from + |pat| > |s| then None
    else if OccursAt(s, pat, from) then Some(from)
    else Find(s, pat, from + 1)
  }

  /** An occurrence at m with none between from and m is the one Find returns. */
  lemma FindAt(s: string, pat: string, from: nat, m: nat)
    requires from <= m && OccursAt(s, pat, m)
    requires forall j :: from <= j < m ==> !OccursAt(s, pat, j)
    ensures Find(s, pat, from) == Some(m)
  {
  }

  /** `String.prototype.includes`. */
  predicate Contains(s: string, pat: string) {
    Find(s, pat, 0).Some?
  }

  lemma ContainsIff(s: string, pat: string)
    ensures Contains(s, pat) <==> exists i :: OccursAt(s, pat, i)
  {
    if exists i :: OccursAt(s, pat, i) {
      var i :| OccursAt(s, pat, i);
      assert Find(s, pat, 0).Some?;
    }
  }

  /** A string occurs in any text built around it. */
  lemma ContainsInfix(a: string, x: string, b: string)
    ensures Contains(a + x + b, x)
  {
    var s := a + x + b;
    assert s[|a|..|a| + |x|] == x;
    assert OccursAt(s, x, |a|);
    ContainsIff(s, x);
  }

  /** Text around a string that contains pat contains pat too. */
  lemma ContainsWithin(a: string, t: string, b: string, pat: string)
    requires Contains(t, pat)
    ensures Contains(a + t + b, pat)
  {
    ContainsIff(t, pat);
    var i: nat :| OccursAt(t, pat, i);
    var s := a + t + b;
    assert s[|a| + i..|a| + i + |pat|] == t[i..i + |pat|];
    assert OccursAt(s, pat, |a| + i);
    ContainsIff(s, pat);
  }

  /** A string occurs in any text that starts with it. */
  lemma ContainsOwnStart(x: string, rest: string)
    ensures Contains(x + rest, x)
  {
    ContainsInfix("", x, rest);
    assert "" + x + rest == x + rest;
  }

  /** Putting text in front keeps every occurrence. */
  lemma ContainsAfter(a: string, t: string, pat: string)
    requires Contains(t, pat)
    ensures Contains(a + t, pat)
  {
    ContainsWithin(a, t, "", pat);
    assert a + t + "" == a + t;
  }

  /** Every part occurs in the joined string. */
  lemma {:induction false} JoinContainsEach(parts: seq<string>, sep: string, k: nat)
    requires k < |parts|
    ensures Contains(Join(parts, sep), parts[k])
    decreases |parts|
  {
    var r := Join(parts, sep);
    if k == 0 {
      ContainsOwnStart(parts[0], r[|parts[0]|..]);
      assert parts[0] + r[|parts[0]|..] == r;
    } else {
      JoinUnfold(parts, sep);
      JoinContainsEach(parts[1..], sep, k - 1);
      assert parts[1..][k - 1] == parts[k];
      ContainsAfter(parts[0] + sep, Join(parts[1..], sep), parts[k]);
    }
  }

  lemma JoinUnfold(parts: seq<string>, sep: string)
    requires |parts| >= 2
    ensures Join(parts, sep) == parts[0] + sep + Join(parts[1..], sep)
  {
  }

  /** `s.substring(0, n) + '...'` when s is longer than n, else s unchanged. */
  function Ellipsize(s: string, n: nat): (r: string)
    ensures |s| <= n ==> r == s
    ensures |s| > n ==> |r| == n + 3 && r[..n] == s[..n] && r[n..] == "..."
    ensures |r| <= n + 3
  {
    if |s| > n then s[..n] + "..." else s
  }

  /** xs keeps some of the elements of ys, in their order in ys. */
  predicate IsSubsequence<T(==)>(xs: seq<T>, ys: seq<T>)
    decreases |ys|
  {
    if xs == [] then true
    else if ys == [] then false
    else if xs[0] == ys[0] then IsSubsequence(xs[1..], ys[1..])
    else IsSubsequence(xs, ys[1..])
  }

  /** The total length of a list of texts. */
  function TotalLength(parts: seq<string>): nat {
    if parts == [] then 0 else |parts[0]| + TotalLength(parts[1..])
  }

  /**
   * `Array.prototype.join`: the parts in order, with one separator in each gap,
   * beginning with the first part and ending with the last.
   */
  function Join(parts: seq<string>, sep: string): (r: string)
    ensures parts == [] ==> r == ""
    ensures parts != [] ==> |r| == TotalLength(parts) + (|parts| - 1) * |sep|
    ensures parts != [] ==> |parts[0]| <= |r| && r[..|parts[0]|] == parts[0]
    ensures parts != [] ==> |parts[|parts| - 1]| <= |r| && r[|r| - |parts[|parts| - 1]|..] == parts[|parts| - 1]
  {
    if |parts| == 0 then ""
    else if |parts| == 1 then parts[0]
    else
      var rest := Join(parts[1..], sep);
      var r := parts[0] + sep + rest;
      assert r[..|parts[0]|] == parts[0];
      assert r[|r| - |rest|..] == rest;
      assert parts[1..][|parts[1..]| - 1] == parts[|parts| - 1];
      r
  }

  /** `s.split(c)` for a one-character separator c. */
  function SplitOn(s: string, c: char): (r: seq<string>)
    ensures |r| >= 1
    ensures forall k :: 0 <= k < |r| ==> c !in r[k]
    decreases |s|
  {
    match Find(s, [c], 0)
    case None =>
      NoOccurrenceNotIn(s, c, 0, |s|);
      [s]
    case Some(i) =>
      NoOccurrenceNotIn(s, c, 0, i);
      [s[..i]] + SplitOn(s[i + 1..], c)
  }

  /** If the one-character pattern occurs nowhere in s[from..to], the character does not either. */
  lemma NoOccurrenceNotIn(s: string, c: char, from: nat, to: nat)
    requires to <= |s|
    requires forall j :: from <= j < to ==> !OccursAt(s, [c], j)
    ensures forall j :: from <= j < to ==> s[j] != c
  {
    forall j | from <= j < to
      ensures s[j] != c
    {
      assert !OccursAt(s, [c], j);
      assert s[j..j + 1] == [s[j]];
    }
  }

  function Min(a: nat, b: nat): nat {
    if a <= b then a else b
  }

  /** Splitting on c and joining back with c gives the original string. */
  lemma {:induction false} JoinSplitOn(s: string, c: char)
    ensures Join(SplitOn(s, c), [c]) == s
    decreases |s|
  {
    match Find(s, [c], 0)
    case None =>
    case Some(i) =>
      SplitOnFirst(s, c, i);
      JoinCons(s[..i], SplitOn(s[i + 1..], c), [c]);
      JoinSplitOn(s[i + 1..], c);
  }

  /** One unfolding of SplitOn at the first occurrence i of c. */
  lemma SplitOnFirst(s: string, c: char, i: nat)
    requires Find(s, [c], 0) == Some(i)
    ensures i < |s| && s[i] == c && c !in s[..i]
    ensures SplitOn(s, c) == [s[..i]] + SplitOn(s[i + 1..], c)
    ensures s == s[..i] + [c] + s[i + 1..]
  {
    assert s[i..i + 1] == [c];
    NoOccurrenceNotIn(s, c, 0, i);
  }

  lemma JoinCons(a: string, xs: seq<string>, sep: string)
    requires |xs| >= 1
    ensures Join([a] + xs, sep) == a + sep + Join(xs, sep)
  {
    assert ([a] + xs)[1..] == xs;
  }

  /**
   * w is a prefix of s holding fewer than n copies of c, and it stops only
   * where s has a c and w already holds n - 1 of them.
   */
  predicate StopsBeforeNth(s: string, c: char, n: nat, w: string) {
    |w| <= |s| && w == s[..|w|] && multiset(w)[c] <= n - 1
    && (|w| < |s| ==> s[|w|] == c && multiset(w)[c] == n - 1)
  }

  /** The first n pieces of s.split(c), joined back with c. */
  function LeadingJoin(s: string, c: char, n: nat): string {
    var parts := SplitOn(s, c);
    Join(parts[..Min(n, |parts|)], [c])
  }

  /**
   * Joining the first n pieces of s.split(c) with c gives the prefix of s that
   * stops just before the n-th occurrence of c (or all of s when c occurs fewer
   * than n times).
   */
  lemma {:induction false} JoinedLeadingPieces(s: string, c: char, n: nat)
    requires n >= 1
    ensures StopsBeforeNth(s, c, n, LeadingJoin(s, c, n))
    decreases |s|, 1
  {
    match Find(s, [c], 0)
    case None =>
      LeadingPiecesWithoutSeparator(s, c, n);
    case Some(i) =>
      if n == 1 {
        FirstPieceOnly(s, c, i);
      } else {
        LeadingPiecesPastFirst(s, c, n, i);
      }
  }

  /** From n >= 2 pieces past the first c to n - 1 pieces of what follows it. */
  lemma {:induction false} LeadingPiecesPastFirst(s: string, c: char, n: nat, i: nat)
    requires n >= 2 && Find(s, [c], 0) == Some(i)
    ensures StopsBeforeNth(s, c, n, LeadingJoin(s, c, n))
    decreases |s|, 0
  {
    SplitOnFirst(s, c, i);
    var t := s[i + 1..];
    LeadingPiecesUnfold(s, c, n, i);
    JoinedLeadingPieces(t, c, n - 1);
    LeadingStep(s[..i], c, t, LeadingJoin(t, c, n - 1), n);
  }

  /** Without c in s, the split is s alone. */
  lemma LeadingPiecesWithoutSeparator(s: string, c: char, n: nat)
    requires n >= 1 && Find(s, [c], 0).None?
    ensures StopsBeforeNth(s, c, n, LeadingJoin(s, c, n))
  {
    var parts := SplitOn(s, c);
    assert parts == [s];
    assert parts[..Min(n, |parts|)] == [s];
    assert c !in parts[0];
    assert multiset(s)[c] == 0;
  }

  /** The first piece alone is the text before the first c. */
  lemma FirstPieceOnly(s: string, c: char, i: nat)
    requires Find(s, [c], 0) == Some(i)
    ensures StopsBeforeNth(s, c, 1, LeadingJoin(s, c, 1))
  {
    SplitOnFirst(s, c, i);
    var parts := SplitOn(s, c);
    assert parts[..Min(1, |parts|)] == [s[..i]];
    assert multiset(s[..i])[c] == 0;
  }

  /** Past the first c, the first n pieces are the text before it and the first n - 1 pieces of the rest. */
  lemma LeadingPiecesUnfold(s: string, c: char, n: nat, i: nat)
    requires n >= 2 && Find(s, [c], 0) == Some(i)
    ensures LeadingJoin(s, c, n) == s[..i] + [c] + LeadingJoin(s[i + 1..], c, n - 1)
  {
    SplitOnFirst(s, c, i);
    var rest := SplitOn(s[i + 1..], c);
    LeadingOfCons(s[..i], rest, n);
    JoinCons(s[..i], rest[..Min(n - 1, |rest|)], [c]);
  }

  /** The first n elements of a list with a head: the head, then the first n - 1 of the tail. */
  lemma LeadingOfCons<T>(head: T, tail: seq<T>, n: nat)
    requires n >= 1
    ensures ([head] + tail)[..Min(n, |[head] + tail|)] == [head] + tail[..Min(n - 1, |tail|)]
  {
  }

  /**
   * The step from the pieces after the first c to the whole text: a prefix of
   * t that stops before its (n - 1)-th c, put after a + [c], stops before the
   * n-th c of a + [c] + t.
   */
  lemma LeadingStep(a: string, c: char, t: string, w': string, n: nat)
    requires n >= 2 && c !in a && StopsBeforeNth(t, c, n - 1, w')
    ensures StopsBeforeNth(a + [c] + t, c, n, a + [c] + w')
  {
    var s := a + [c] + t;
    var w := a + [c] + w';
    assert s[..|w|] == a + [c] + t[..|w'|];
    assert multiset(w) == multiset(a) + multiset([c]) + multiset(w');
    assert multiset(a)[c] == 0;
    if |w| < |s| {
      assert s[|w|] == t[|w'|];
    }
  }
}
