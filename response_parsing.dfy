/**
 * `parseAIResponse` of src/lib/ai-service.ts: lenient extraction of the SQL
 * block, the explanation, the suggestion list and the cost line from the raw
 * text a model returned.
 *
 * Each regular expression appears twice. A predicate `XMatch` says which
 * choices at the expression's choice points (start index, optional characters
 * taken or not, where each repetition stops) make up a match, and
 * `XTriedBefore` gives the order in which a backtracking matcher tries those
 * choices: leftmost start first, an optional character taken before skipped, a
 * greedy repetition longest first, a lazy one shortest first. `IsFirstXMatch`
 * is then the match the language standard returns. A function `FindXMatch`
 * computes it directly and is proved to return exactly that match.
 *
 * Case-insensitive matching (the `i` flag) compares the ASCII-lower-cased text
 * with a lower-case pattern; without the `u` flag no non-ASCII character folds
 * onto an ASCII letter, so this is exact for these patterns.
 */
module ResponseParsing {
  import opened TextOps

  datatype ParsedResponse = ParsedResponse(
    sql: string,
    explanation: string,
    suggestions: seq<string>,
    estimatedCost: Option<string>)

  const DefaultExplanation := "Schema generated successfully"
  const DefaultSuggestion := "Schema is optimized for your requirements"

  function Bit(b: bool): nat {
    if b then 1 else 0
  }

  /** The class `[:\-]` matches at j. */
  predicate ColonAt(s: string, j: nat) {
    j < |s| && (s[j] == ':' || s[j] == '-')
  }

  // ---------------------------------------------------------------------
  // /```sql\n([\s\S]*?)\n```/

  const SqlOpen := "```sql\n"
  const SqlClose := "\n```"

  /** The expression matches from i with the lazy group ending at k. */
  ghost predicate SqlMatch(s: string, i: nat, k: nat) {
    OccursAt(s, SqlOpen, i) && i + |SqlOpen| <= k && OccursAt(s, SqlClose, k)
  }

  ghost predicate SqlTriedBefore(i': nat, k': nat, i: nat, k: nat) {
    i' < i || (i' == i && k' < k)
  }

  ghost predicate IsFirstSqlMatch(s: string, i: nat, k: nat) {
    SqlMatch(s, i, k)
    && forall i': nat, k': nat :: SqlMatch(s, i', k') ==> !SqlTriedBefore(i', k', i, k)
  }

  function FindSqlMatch(s: string): (r: Option<(nat, nat)>)
    ensures r.Some? ==> IsFirstSqlMatch(s, r.value.0, r.value.1)
    ensures r.None? ==> forall i: nat, k: nat :: !SqlMatch(s, i, k)
  {
    match Find(s, SqlOpen, 0)
    case None => None
    case Some(i) =>
      match Find(s, SqlClose, i + |SqlOpen|)
      case None => None
      case Some(k) => Some((i, k))
  }

  /**
   * `sqlMatch ? sqlMatch[1].trim() : ''` followed by `sql || aiResponse`: the
   * trimmed group of the first match, or the whole text when there is no
   * match or the group is blank.
   */
  function ExtractSql(s: string): (r: string)
    ensures (forall i: nat, k: nat :: !SqlMatch(s, i, k)) ==> r == s
    ensures forall i: nat, k: nat :: IsFirstSqlMatch(s, i, k) ==>
              var body := Trim(s[i + |SqlOpen|..k]);
              r == (if body == "" then s else body)
  {
    match FindSqlMatch(s)
    case None => s
    case Some((i, k)) =>
      SqlFirstIsFound(s, i, k);
      var body := Trim(s[i + |SqlOpen|..k]);
      if body == "" then s else body
  }

  /** Any match that comes first is the given first match. */
  lemma SqlFirstIsFound(s: string, i: nat, k: nat)
    requires IsFirstSqlMatch(s, i, k)
    ensures forall i': nat, k': nat :: IsFirstSqlMatch(s, i', k') ==> i' == i && k' == k
  {
    forall i': nat, k': nat | IsFirstSqlMatch(s, i', k')
      ensures i' == i && k' == k
    {
      assert !SqlTriedBefore(i', k', i, k);
      assert !SqlTriedBefore(i, k, i', k');
    }
  }

  // ---------------------------------------------------------------------
  // /explanation[:\-]?\s*([\s\S]*?)(?=suggestions?[:\-]|$)/i

  const ExplanationMarker := "explanation"
  const SuggestionMarker := "suggestion"

  /** The lookahead `(?=suggestions?[:\-]|$)` holds at q. */
  predicate SuggestionsAhead(s: string, q: nat) {
    q == |s|
    || (OccursAt(Lower(s), SuggestionMarker, q)
        && (ColonAt(s, q + |SuggestionMarker|)
            || (q + |SuggestionMarker| < |s| && LowerChar(s[q + |SuggestionMarker|]) == 's'
                && ColonAt(s, q + |SuggestionMarker| + 1))))
  }

  /**
   * The expression matches from i, taking the optional `[:\-]` when c, with
   * `\s*` ending at w and the lazy group s[w..q] ending at q.
   */
  ghost predicate ExplanationMatch(s: string, i: nat, c: bool, w: nat, q: nat) {
    OccursAt(Lower(s), ExplanationMarker, i)
    && (c ==> ColonAt(s, i + |ExplanationMarker|))
    && SpaceRun(s, i + |ExplanationMarker| + Bit(c), w)
    && w <= q <= |s|
    && SuggestionsAhead(s, q)
  }

  ghost predicate ExplanationTriedBefore(i': nat, c': bool, w': nat, q': nat, i: nat, c: bool, w: nat, q: nat) {
    i' < i || (i' == i && ((c' && !c) || (c' == c && (w' > w || (w' == w && q' < q)))))
  }

  ghost predicate IsFirstExplanationMatch(s: string, i: nat, c: bool, w: nat, q: nat) {
    ExplanationMatch(s, i, c, w, q)
    && forall i': nat, c': bool, w': nat, q': nat :: ExplanationMatch(s, i', c', w', q') ==>
         !ExplanationTriedBefore(i', c', w', q', i, c, w, q)
  }

  /** The first q at or after from where the lookahead holds; it holds at the end at the latest. */
  function NextSuggestionsAhead(s: string, from: nat): (q: nat)
    requires from <= |s|
    ensures from <= q <= |s| && SuggestionsAhead(s, q)
    ensures forall j :: from <= j < q ==> !SuggestionsAhead(s, j)
    decreases |s| - from
  {
    if SuggestionsAhead(s, from) then from else NextSuggestionsAhead(s, from + 1)
  }

  function FindExplanationMatch(s: string): (r: Option<(nat, bool, nat, nat)>)
    ensures r.Some? ==> IsFirstExplanationMatch(s, r.value.0, r.value.1, r.value.2, r.value.3)
    ensures r.None? ==> forall i: nat, c: bool, w: nat, q: nat :: !ExplanationMatch(s, i, c, w, q)
  {
    match Find(Lower(s), ExplanationMarker, 0)
    case None => None
    case Some(i) =>
      var c := ColonAt(s, i + |ExplanationMarker|);
      var w := SkipSpace(s, i + |ExplanationMarker| + Bit(c));
      var q := NextSuggestionsAhead(s, w);
      ExplanationFoundIsFirst(s, i, c, w, q);
      Some((i, c, w, q))
  }

  /**
   * At the first marker, taking the separator whenever it is there, the
   * longest `\s*` and the shortest group up to the lookahead is the first match.
   */
  lemma ExplanationFoundIsFirst(s: string, i: nat, c: bool, w: nat, q: nat)
    requires Find(Lower(s), ExplanationMarker, 0) == Some(i)
    requires c == ColonAt(s, i + |ExplanationMarker|)
    requires w == SkipSpace(s, i + |ExplanationMarker| + Bit(c))
    requires q == NextSuggestionsAhead(s, w)
    ensures IsFirstExplanationMatch(s, i, c, w, q)
  {
    forall i': nat, c': bool, w': nat, q': nat | ExplanationMatch(s, i', c', w', q')
      ensures !ExplanationTriedBefore(i', c', w', q', i, c, w, q)
    {
      ExplanationNotBefore(s, i, c, w, q, i', c', w', q');
    }
  }

  /** One match compared with the found one: it does not come first. */
  lemma ExplanationNotBefore(s: string, i: nat, c: bool, w: nat, q: nat, i': nat, c': bool, w': nat, q': nat)
    requires Find(Lower(s), ExplanationMarker, 0) == Some(i)
    requires c == ColonAt(s, i + |ExplanationMarker|)
    requires w == SkipSpace(s, i + |ExplanationMarker| + Bit(c))
    requires q == NextSuggestionsAhead(s, w)
    requires ExplanationMatch(s, i', c', w', q')
    ensures !ExplanationTriedBefore(i', c', w', q', i, c, w, q)
  {
    assert i <= i';
    if i' == i && c' == c {
      SkipSpaceLongest(s, i + |ExplanationMarker| + Bit(c), w');
    }
  }

  /** The trimmed group of the first match, or the fixed default when there is none or it is blank. */
  function ExtractExplanation(s: string): (r: string)
    ensures r != "" && Trimmed(r)
    ensures (forall i: nat, c: bool, w: nat, q: nat :: !ExplanationMatch(s, i, c, w, q)) ==> r == DefaultExplanation
    ensures forall i: nat, c: bool, w: nat, q: nat :: IsFirstExplanationMatch(s, i, c, w, q) ==>
              var text := Trim(s[w..q]);
              r == (if text == "" then DefaultExplanation else text)
  {
    match FindExplanationMatch(s)
    case None => DefaultExplanation
    case Some((i, c, w, q)) =>
      ExplanationFirstIsFound(s, i, c, w, q);
      var text := Trim(s[w..q]);
      if text == "" then DefaultExplanation else text
  }

  /** Any match that comes first is the given first match. */
  lemma ExplanationFirstIsFound(s: string, i: nat, c: bool, w: nat, q: nat)
    requires IsFirstExplanationMatch(s, i, c, w, q)
    ensures forall i': nat, c': bool, w': nat, q': nat :: IsFirstExplanationMatch(s, i', c', w', q') ==>
              i' == i && c' == c && w' == w && q' == q
  {
    forall i': nat, c': bool, w': nat, q': nat | IsFirstExplanationMatch(s, i', c', w', q')
      ensures i' == i && c' == c && w' == w && q' == q
    {
      assert !ExplanationTriedBefore(i', c', w', q', i, c, w, q);
      assert !ExplanationTriedBefore(i, c, w, q, i', c', w', q');
    }
  }

  // ---------------------------------------------------------------------
  // /suggestions?[:\-]?\s*([\s\S]*)/i

  /**
   * The expression matches from i, taking the optional "s" when plural and
   * the optional `[:\-]` when c, with `\s*` ending at w and the greedy group
   * s[w..e] ending at e.
   */
  ghost predicate SuggestionsMatch(s: string, i: nat, plural: bool, c: bool, w: nat, e: nat) {
    OccursAt(Lower(s), SuggestionMarker, i)
    && (plural ==> i + |SuggestionMarker| < |s| && LowerChar(s[i + |SuggestionMarker|]) == 's')
    && (c ==> ColonAt(s, i + |SuggestionMarker| + Bit(plural)))
    && SpaceRun(s, i + |SuggestionMarker| + Bit(plural) + Bit(c), w)
    && w <= e <= |s|
  }

  ghost predicate SuggestionsTriedBefore(i': nat, plural': bool, c': bool, w': nat, e': nat,
                                         i: nat, plural: bool, c: bool, w: nat, e: nat) {
    i' < i
    || (i' == i
        && ((plural' && !plural)
            || (plural' == plural
                && ((c' && !c) || (c' == c && (w' > w || (w' == w && e' > e)))))))
  }

  ghost predicate IsFirstSuggestionsMatch(s: string, i: nat, plural: bool, c: bool, w: nat, e: nat) {
    SuggestionsMatch(s, i, plural, c, w, e)
    && forall i': nat, plural': bool, c': bool, w': nat, e': nat :: SuggestionsMatch(s, i', plural', c', w', e') ==>
         !SuggestionsTriedBefore(i', plural', c', w', e', i, plural, c, w, e)
  }

  function FindSuggestionsMatch(s: string): (r: Option<(nat, bool, bool, nat, nat)>)
    ensures r.Some? ==> IsFirstSuggestionsMatch(s, r.value.0, r.value.1, r.value.2, r.value.3, r.value.4)
    ensures r.None? ==> forall i: nat, plural: bool, c: bool, w: nat, e: nat :: !SuggestionsMatch(s, i, plural, c, w, e)
  {
    match Find(Lower(s), SuggestionMarker, 0)
    case None => None
    case Some(i) =>
      var n := i + |SuggestionMarker|;
      var plural := n < |s| && LowerChar(s[n]) == 's';
      var c := ColonAt(s, n + Bit(plural));
      var w := SkipSpace(s, n + Bit(plural) + Bit(c));
      SuggestionsFoundIsFirst(s, i, plural, c, w);
      Some((i, plural, c, w, |s|))
  }

  /**
   * At the first marker, taking the "s" and the separator whenever they are
   * there, the longest `\s*` and the whole rest of the text is the first match.
   */
  lemma SuggestionsFoundIsFirst(s: string, i: nat, plural: bool, c: bool, w: nat)
    requires Find(Lower(s), SuggestionMarker, 0) == Some(i)
    requires plural == (i + |SuggestionMarker| < |s| && LowerChar(s[i + |SuggestionMarker|]) == 's')
    requires c == ColonAt(s, i + |SuggestionMarker| + Bit(plural))
    requires w == SkipSpace(s, i + |SuggestionMarker| + Bit(plural) + Bit(c))
    ensures IsFirstSuggestionsMatch(s, i, plural, c, w, |s|)
  {
    forall i': nat, plural': bool, c': bool, w': nat, e': nat | SuggestionsMatch(s, i', plural', c', w', e')
      ensures !SuggestionsTriedBefore(i', plural', c', w', e', i, plural, c, w, |s|)
    {
      SuggestionsNotBefore(s, i, plural, c, w, i', plural', c', w', e');
    }
  }

  /** One match compared with the found one: it does not come first. */
  lemma SuggestionsNotBefore(s: string, i: nat, plural: bool, c: bool, w: nat,
                             i': nat, plural': bool, c': bool, w': nat, e': nat)
    requires Find(Lower(s), SuggestionMarker, 0) == Some(i)
    requires plural == (i + |SuggestionMarker| < |s| && LowerChar(s[i + |SuggestionMarker|]) == 's')
    requires c == ColonAt(s, i + |SuggestionMarker| + Bit(plural))
    requires w == SkipSpace(s, i + |SuggestionMarker| + Bit(plural) + Bit(c))
    requires SuggestionsMatch(s, i', plural', c', w', e')
    ensures !SuggestionsTriedBefore(i', plural', c', w', e', i, plural, c, w, |s|)
  {
    assert i <= i';
    if i' == i && plural' == plural && c' == c {
      SkipSpaceLongest(s, i + |SuggestionMarker| + Bit(plural) + Bit(c), w');
    }
  }

  // ---------------------------------------------------------------------
  // .split(/\n\d+\.|\n[-*•]/)

  predicate IsBullet(c: char) {
    c == '-' || c == '*' || c == '•'
  }

  /** The separator expression matches at q and ends at e. */
  ghost predicate ItemMarkerMatch(s: string, q: nat, e: nat) {
    q + 2 <= e <= |s| && s[q] == '\n'
    && ((e >= q + 3 && s[e - 1] == '.' && forall j :: q + 1 <= j < e - 1 ==> IsDigit(s[j]))
        || (e == q + 2 && IsBullet(s[q + 1])))
  }

  /** The end of the run of digits starting at k. */
  function DigitRunEnd(s: string, k: nat): (r: nat)
    requires k <= |s|
    ensures k <= r <= |s| && forall j :: k <= j < r ==> IsDigit(s[j])
    ensures r < |s| ==> !IsDigit(s[r])
    decreases |s| - k
  {
    if k < |s| && IsDigit(s[k]) then DigitRunEnd(s, k + 1) else k
  }

  /**
   * Where the separator matched at q ends. There is at most one such end:
   * `\d+` can only stop at the '.', and the two alternatives need different
   * second characters.
   */
  function ItemMarkerEnd(s: string, q: nat): (r: Option<nat>)
    requires q < |s|
    ensures forall e: nat :: ItemMarkerMatch(s, q, e) <==> r == Some(e)
  {
    if s[q] != '\n' || q + 1 == |s| then None
    else if IsDigit(s[q + 1]) then
      var d := DigitRunEnd(s, q + 1);
      if d < |s| && s[d] == '.' then Some(d + 1) else None
    else if IsBullet(s[q + 1]) then Some(q + 2)
    else None
  }

  /**
   * `String.prototype.split` with the separator expression, run the way the
   * language standard runs it: the current piece starts at p and a separator
   * is tried at q. Gives the pieces and the separators between them.
   */
  function SplitFrom(s: string, p: nat, q: nat): (r: (seq<string>, seq<string>))
    requires p <= q <= |s|
    ensures |r.0| == |r.1| + 1
    decreases |s| - q
  {
    if q == |s| then ([s[p..]], [])
    else
      match ItemMarkerEnd(s, q)
      case Some(e) =>
        var rest := SplitFrom(s, e, e);
        ([s[p..q]] + rest.0, [s[q..e]] + rest.1)
      case None => SplitFrom(s, p, q + 1)
  }

  function SplitItems(s: string): (r: seq<string>)
    ensures |r| >= 1
    ensures forall k, j: nat, e: nat :: 0 <= k < |r| ==> !ItemMarkerMatch(r[k], j, e)
  {
    SplitFromSound(s, 0, 0);
    SplitFrom(s, 0, 0).0
  }

  /** `.map(s => s.trim())`. */
  function TrimAll(xs: seq<string>): (r: seq<string>)
    ensures |r| == |xs| && forall k :: 0 <= k < |xs| ==> r[k] == Trim(xs[k])
  {
    seq(|xs|, k requires 0 <= k < |xs| => Trim(xs[k]))
  }

  /** `.filter(s => s.length > 0)`. */
  function NonEmptyOnly(xs: seq<string>): (r: seq<string>)
    ensures forall k :: 0 <= k < |r| ==> r[k] != "" && r[k] in xs
    ensures forall x :: x in xs && x != "" ==> x in r
    ensures IsSubsequence(r, xs)
    ensures forall x :: multiset(r)[x] == (if x == "" then 0 else multiset(xs)[x])
  {
    if xs == [] then []
    else
      var rest := NonEmptyOnly(xs[1..]);
      FilterStepMembers(xs, rest);
      FilterStepOrder(xs, rest);
      FilterStepCounts(xs, rest);
      if xs[0] == "" then rest else [xs[0]] + rest
  }

  /** Filtering the tail then deciding on the head keeps exactly the non-empty items. */
  lemma FilterStepMembers(xs: seq<string>, rest: seq<string>)
    requires xs != []
    requires forall k :: 0 <= k < |rest| ==> rest[k] != "" && rest[k] in xs[1..]
    requires forall x :: x in xs[1..] && x != "" ==> x in rest
    ensures var r := if xs[0] == "" then rest else [xs[0]] + rest;
            (forall k :: 0 <= k < |r| ==> r[k] != "" && r[k] in xs)
            && (forall x :: x in xs && x != "" ==> x in r)
  {
    assert xs == [xs[0]] + xs[1..];
  }

  /** Deciding on the head keeps the filtered tail a subsequence. */
  lemma FilterStepOrder(xs: seq<string>, rest: seq<string>)
    requires xs != []
    requires IsSubsequence(rest, xs[1..])
    requires forall k :: 0 <= k < |rest| ==> rest[k] != ""
    ensures IsSubsequence(if xs[0] == "" then rest else [xs[0]] + rest, xs)
  {
    if xs[0] == "" {
      assert rest == [] || rest[0] != xs[0];
    } else {
      assert ([xs[0]] + rest)[1..] == rest;
    }
  }

  /** Deciding on the head keeps the count of every non-empty item and no empty one. */
  lemma FilterStepCounts(xs: seq<string>, rest: seq<string>)
    requires xs != []
    requires forall x :: multiset(rest)[x] == (if x == "" then 0 else multiset(xs[1..])[x])
    ensures forall x :: multiset(if xs[0] == "" then rest else [xs[0]] + rest)[x]
                          == (if x == "" then 0 else multiset(xs)[x])
  {
    assert xs == [xs[0]] + xs[1..];
    assert multiset(xs) == multiset([xs[0]]) + multiset(xs[1..]);
  }

  /** The list items of a suggestions section: split, trimmed, blanks dropped. */
  function SuggestionItems(section: string): (r: seq<string>)
    ensures forall k :: 0 <= k < |r| ==> r[k] != "" && Trimmed(r[k])
  {
    NonEmptyOnly(TrimAll(SplitItems(section)))
  }

  /** The items of the first match's group, or the one default item when there is no match or no item. */
  function ExtractSuggestions(s: string): (r: seq<string>)
    ensures |r| >= 1 && forall k :: 0 <= k < |r| ==> r[k] != "" && Trimmed(r[k])
    ensures (forall i: nat, plural: bool, c: bool, w: nat, e: nat :: !SuggestionsMatch(s, i, plural, c, w, e)) ==> r == [DefaultSuggestion]
    ensures forall i: nat, plural: bool, c: bool, w: nat, e: nat :: IsFirstSuggestionsMatch(s, i, plural, c, w, e) ==>
              var items := SuggestionItems(s[w..e]);
              r == (if items == [] then [DefaultSuggestion] else items)
  {
    match FindSuggestionsMatch(s)
    case None => [DefaultSuggestion]
    case Some((i, plural, c, w, e)) =>
      SuggestionsFirstIsFound(s, i, plural, c, w, e);
      var items := SuggestionItems(s[w..e]);
      if items == [] then [DefaultSuggestion] else items
  }

  /** Any match that comes first is the given first match. */
  lemma SuggestionsFirstIsFound(s: string, i: nat, plural: bool, c: bool, w: nat, e: nat)
    requires IsFirstSuggestionsMatch(s, i, plural, c, w, e)
    ensures forall i': nat, plural': bool, c': bool, w': nat, e': nat ::
              IsFirstSuggestionsMatch(s, i', plural', c', w', e') ==>
              i' == i && plural' == plural && c' == c && w' == w && e' == e
  {
    forall i': nat, plural': bool, c': bool, w': nat, e': nat | IsFirstSuggestionsMatch(s, i', plural', c', w', e')
      ensures i' == i && plural' == plural && c' == c && w' == w && e' == e
    {
      assert !SuggestionsTriedBefore(i', plural', c', w', e', i, plural, c, w, e);
      assert !SuggestionsTriedBefore(i, plural, c, w, e, i', plural', c', w', e');
    }
  }

  // ---------------------------------------------------------------------
  // /cost[:\-]?\s*([^\n]+)/i

  const CostMarker := "cost"

  /** No line feed in s[k..e]. */
  ghost predicate NoNewline(s: string, k: nat, e: nat) {
    k <= e <= |s| && forall j :: k <= j < e ==> s[j] != '\n'
  }

  /**
   * The expression matches from i, taking the optional `[:\-]` when c, with
   * `\s*` ending at k and the group s[k..e] of `[^\n]+` ending at e.
   */
  ghost predicate CostMatch(s: string, i: nat, c: bool, k: nat, e: nat) {
    OccursAt(Lower(s), CostMarker, i)
    && (c ==> ColonAt(s, i + |CostMarker|))
    && SpaceRun(s, i + |CostMarker| + Bit(c), k)
    && k < e && NoNewline(s, k, e)
  }

  ghost predicate CostTriedBefore(i': nat, c': bool, k': nat, e': nat, i: nat, c: bool, k: nat, e: nat) {
    i' < i || (i' == i && ((c' && !c) || (c' == c && (k' > k || (k' == k && e' > e)))))
  }

  ghost predicate IsFirstCostMatch(s: string, i: nat, c: bool, k: nat, e: nat) {
    CostMatch(s, i, c, k, e)
    && forall i': nat, c': bool, k': nat, e': nat :: CostMatch(s, i', c', k', e') ==> !CostTriedBefore(i', c', k', e', i, c, k, e)
  }

  /** The last index in [lo, hi) that is not a line feed. */
  function LastNonNewline(s: string, lo: nat, hi: nat): (r: Option<nat>)
    requires lo <= hi <= |s|
    ensures r.Some? ==> lo <= r.value < hi && s[r.value] != '\n'
    ensures r.Some? ==> forall j :: r.value < j < hi ==> s[j] == '\n'
    ensures r.None? ==> forall j :: lo <= j < hi ==> s[j] == '\n'
    decreases hi
  {
    if hi == lo then None
    else if s[hi - 1] != '\n' then Some(hi - 1)
    else LastNonNewline(s, lo, hi - 1)
  }

  /** The first line feed at or after k, or the end. */
  function LineEnd(s: string, k: nat): (r: nat)
    requires k <= |s|
    ensures NoNewline(s, k, r)
    ensures r < |s| ==> s[r] == '\n'
    decreases |s| - k
  {
    if k < |s| && s[k] != '\n' then LineEnd(s, k + 1) else k
  }

  /**
   * The first (k, e) in backtracking order for a fixed start i and choice c:
   * `\s*` as long as possible while leaving one non-line-feed character for
   * `[^\n]+`, which then runs to the end of the line.
   */
  function CostGroupAt(s: string, i: nat, c: bool): (r: Option<(nat, nat)>)
    requires OccursAt(Lower(s), CostMarker, i)
    ensures r.Some? ==> CostMatch(s, i, c, r.value.0, r.value.1)
    ensures r.Some? ==> forall k': nat, e': nat :: CostMatch(s, i, c, k', e') ==>
                          k' < r.value.0 || (k' == r.value.0 && e' <= r.value.1)
    ensures r.None? ==> forall k': nat, e': nat :: !CostMatch(s, i, c, k', e')
  {
    if c && !ColonAt(s, i + |CostMarker|) then None
    else
      var p := i + |CostMarker| + Bit(c);
      var w := SkipSpace(s, p);
      if w < |s| then
        CostGroupInsideText(s, i, c, p, w);
        Some((w, LineEnd(s, w)))
      else
        match LastNonNewline(s, p, w)
        case None =>
          CostGroupOnlyLineFeeds(s, i, c, p);
          None
        case Some(k) =>
          CostGroupAtLastLine(s, i, c, p, k);
          Some((k, LineEnd(s, k)))
  }

  /** `\s*` stops at w before a character that is not white space, so the group starts there. */
  lemma CostGroupInsideText(s: string, i: nat, c: bool, p: nat, w: nat)
    requires OccursAt(Lower(s), CostMarker, i) && (c ==> ColonAt(s, i + |CostMarker|))
    requires p == i + |CostMarker| + Bit(c) && SpaceRun(s, p, w) && w < |s| && !IsSpace(s[w])
    ensures CostMatch(s, i, c, w, LineEnd(s, w))
    ensures forall k': nat, e': nat :: CostMatch(s, i, c, k', e') ==>
              k' < w || (k' == w && e' <= LineEnd(s, w))
  {
    assert IsSpace('\n');
    var e := LineEnd(s, w);
    forall k': nat, e': nat | CostMatch(s, i, c, k', e')
      ensures k' < w || (k' == w && e' <= e)
    {
      assert SpaceRun(s, p, k');
      assert NoNewline(s, k', e');
    }
  }

  /** Only white space follows the marker and all of it is line feeds: `[^\n]+` cannot match. */
  lemma CostGroupOnlyLineFeeds(s: string, i: nat, c: bool, p: nat)
    requires p == i + |CostMarker| + Bit(c)
    requires p <= |s| && forall j :: p <= j < |s| ==> s[j] == '\n'
    ensures forall k': nat, e': nat :: !CostMatch(s, i, c, k', e')
  {
    forall k': nat, e': nat
      ensures !CostMatch(s, i, c, k', e')
    {
      CostGroupStart(s, i, c, k', e');
    }
  }

  /** The group of a match starts after the marker, inside the text, on a character that is not a line feed. */
  lemma CostGroupStart(s: string, i: nat, c: bool, k: nat, e: nat)
    ensures CostMatch(s, i, c, k, e) ==> i + |CostMarker| + Bit(c) <= k < |s| && s[k] != '\n'
  {
  }

  /**
   * Only white space follows the marker: `\s*` gives back characters until the
   * last one that is not a line feed, k, is left for the group.
   */
  lemma CostGroupAtLastLine(s: string, i: nat, c: bool, p: nat, k: nat)
    requires OccursAt(Lower(s), CostMarker, i) && (c ==> ColonAt(s, i + |CostMarker|))
    requires p == i + |CostMarker| + Bit(c) && SpaceRun(s, p, |s|)
    requires p <= k < |s| && s[k] != '\n' && forall j :: k < j < |s| ==> s[j] == '\n'
    ensures CostMatch(s, i, c, k, LineEnd(s, k))
    ensures forall k': nat, e': nat :: CostMatch(s, i, c, k', e') ==>
              k' < k || (k' == k && e' <= LineEnd(s, k))
  {
    var e := LineEnd(s, k);
    assert SpaceRun(s, p, k);
    forall k': nat, e': nat | CostMatch(s, i, c, k', e')
      ensures k' < k || (k' == k && e' <= e)
    {
      assert NoNewline(s, k', e');
      assert s[k'] != '\n';
    }
  }

  /** A match needs the marker, so none starts where the marker does not occur. */
  lemma CostNeedsMarker(s: string, from: nat)
    requires Find(Lower(s), CostMarker, from).None?
    ensures forall i: nat, c: bool, k: nat, e: nat :: from <= i ==> !CostMatch(s, i, c, k, e)
  {
    forall i: nat, c: bool, k: nat, e: nat | from <= i
      ensures !CostMatch(s, i, c, k, e)
    {
      assert CostMatch(s, i, c, k, e) ==> OccursAt(Lower(s), CostMarker, i);
    }
  }

  /** The match found at the first marker i comes before every other match from `from` on. */
  lemma CostFirstAtMarker(s: string, from: nat, i: nat, c: bool, k: nat, e: nat)
    requires Find(Lower(s), CostMarker, from) == Some(i)
    requires CostMatch(s, i, c, k, e)
    requires forall k': nat, e': nat :: CostMatch(s, i, c, k', e') ==> k' < k || (k' == k && e' <= e)
    requires !c ==> forall k': nat, e': nat :: !CostMatch(s, i, true, k', e')
    ensures forall i': nat, c': bool, k': nat, e': nat :: from <= i' && CostMatch(s, i', c', k', e') ==>
              !CostTriedBefore(i', c', k', e', i, c, k, e)
  {
    forall i': nat, c': bool, k': nat, e': nat | from <= i' && CostMatch(s, i', c', k', e')
      ensures !CostTriedBefore(i', c', k', e', i, c, k, e)
    {
      assert OccursAt(Lower(s), CostMarker, i');
    }
  }

  /** When nothing matches at the first marker i, every match from `from` on starts after i. */
  lemma CostSkipMarker(s: string, from: nat, i: nat)
    requires Find(Lower(s), CostMarker, from) == Some(i)
    requires forall c: bool, k: nat, e: nat :: !CostMatch(s, i, c, k, e)
    ensures forall i': nat, c: bool, k: nat, e: nat :: from <= i' && CostMatch(s, i', c, k, e) ==> i < i'
  {
    forall i': nat, c: bool, k: nat, e: nat | from <= i' && CostMatch(s, i', c, k, e)
      ensures i < i'
    {
      assert OccursAt(Lower(s), CostMarker, i');
    }
  }

  /** The first match in backtracking order among those starting at or after from. */
  function FindCostMatchFrom(s: string, from: nat): (r: Option<(nat, bool, nat, nat)>)
    ensures r.Some? ==> from <= r.value.0 && CostMatch(s, r.value.0, r.value.1, r.value.2, r.value.3)
    ensures r.Some? ==> forall i': nat, c': bool, k': nat, e': nat :: from <= i' && CostMatch(s, i', c', k', e') ==>
                          !CostTriedBefore(i', c', k', e', r.value.0, r.value.1, r.value.2, r.value.3)
    ensures r.None? ==> forall i: nat, c: bool, k: nat, e: nat :: from <= i ==> !CostMatch(s, i, c, k, e)
    decreases |s| - from
  {
    match Find(Lower(s), CostMarker, from)
    case None =>
      CostNeedsMarker(s, from);
      None
    case Some(i) =>
      match CostGroupAt(s, i, true)
      case Some((k, e)) =>
        CostFirstAtMarker(s, from, i, true, k, e);
        Some((i, true, k, e))
      case None =>
        match CostGroupAt(s, i, false)
        case Some((k, e)) =>
          CostFirstAtMarker(s, from, i, false, k, e);
          Some((i, false, k, e))
        case None =>
          CostSkipMarker(s, from, i);
          FindCostMatchFrom(s, i + 1)
  }

  /** Two matches that each come first are the same match. */
  lemma CostFirstUnique(s: string, i: nat, c: bool, k: nat, e: nat, i': nat, c': bool, k': nat, e': nat)
    requires IsFirstCostMatch(s, i, c, k, e) && IsFirstCostMatch(s, i', c', k', e')
    ensures i == i' && c == c' && k == k' && e == e'
  {
    assert !CostTriedBefore(i', c', k', e', i, c, k, e);
    assert !CostTriedBefore(i, c, k, e, i', c', k', e');
  }

  /** `costMatch ? costMatch[1].trim() : undefined`. */
  function ExtractCost(s: string): (r: Option<string>)
    ensures r.None? <==> forall i: nat, c: bool, k: nat, e: nat :: !CostMatch(s, i, c, k, e)
    ensures forall i: nat, c: bool, k: nat, e: nat :: IsFirstCostMatch(s, i, c, k, e) ==> r == Some(Trim(s[k..e]))
  {
    match FindCostMatchFrom(s, 0)
    case None => None
    case Some((i, c, k, e)) =>
      assert IsFirstCostMatch(s, i, c, k, e);
      CostFirstIsFound(s, i, c, k, e);
      Some(Trim(s[k..e]))
  }

  lemma CostFirstIsFound(s: string, i: nat, c: bool, k: nat, e: nat)
    requires IsFirstCostMatch(s, i, c, k, e)
    ensures forall i': nat, c': bool, k': nat, e': nat :: IsFirstCostMatch(s, i', c', k', e') ==>
              i' == i && c' == c && k' == k && e' == e
  {
    forall i': nat, c': bool, k': nat, e': nat | IsFirstCostMatch(s, i', c', k', e')
      ensures i' == i && c' == c && k' == k && e' == e
    {
      CostFirstUnique(s, i, c, k, e, i', c', k', e');
    }
  }

  // ---------------------------------------------------------------------
  // parseAIResponse

  /**
   * The shape every parsed response has: a non-blank trimmed explanation, at
   * least one suggestion, each non-blank and trimmed, and a trimmed cost when
   * there is one.
   */
  predicate WellFormedResponse(r: ParsedResponse) {
    r.explanation != "" && Trimmed(r.explanation)
    && |r.suggestions| >= 1
    && (forall k :: 0 <= k < |r.suggestions| ==> r.suggestions[k] != "" && Trimmed(r.suggestions[k]))
    && (r.estimatedCost.Some? ==> Trimmed(r.estimatedCost.value))
  }

  /**
   * `parseAIResponse`: total, and every field falls back to a fixed value
   * rather than failing.
   */
  function ParseAIResponse(aiResponse: string): (r: ParsedResponse)
    ensures WellFormedResponse(r)
    ensures r.sql == aiResponse || (r.sql != "" && Trimmed(r.sql))
    ensures !Contains(aiResponse, SqlOpen) ==> r.sql == aiResponse
    ensures !Contains(Lower(aiResponse), ExplanationMarker) ==> r.explanation == DefaultExplanation
    ensures !Contains(Lower(aiResponse), SuggestionMarker) ==> r.suggestions == [DefaultSuggestion]
    ensures !Contains(Lower(aiResponse), CostMarker) ==> r.estimatedCost == None
  {
    ContainsIff(aiResponse, SqlOpen);
    ContainsIff(Lower(aiResponse), ExplanationMarker);
    ContainsIff(Lower(aiResponse), SuggestionMarker);
    ContainsIff(Lower(aiResponse), CostMarker);
    ParsedResponse(
      ExtractSql(aiResponse),
      ExtractExplanation(aiResponse),
      ExtractSuggestions(aiResponse),
      ExtractCost(aiResponse))
  }

  // ---------------------------------------------------------------------
  // Properties

  /** A separator cannot start inside the block body: its line feed would have to be followed by three backticks. */
  lemma NoCloseBeforeFenceEnd(b: string, rest: string, j: nat)
    requires !Contains(b, SqlClose)
    requires |SqlOpen| <= j < |SqlOpen| + |b|
    ensures !OccursAt(SqlOpen + b + SqlClose + rest, SqlClose, j)
  {
    var s := SqlOpen + b + SqlClose + rest;
    var m := |SqlOpen| + |b|;
    ContainsIff(b, SqlClose);
    if j + |SqlClose| <= m {
      assert s[j..j + |SqlClose|] == b[j - |SqlOpen|..j - |SqlOpen| + |SqlClose|];
      assert !OccursAt(b, SqlClose, j - |SqlOpen|);
    } else {
      assert s[m] == '\n' && SqlClose[m - j] == '`';
      assert s[j..j + |SqlClose|][m - j] == s[m];
    }
  }

  /**
   * A response that opens with a fenced SQL block gives back the block's
   * trimmed body, provided the body does not itself contain the closing fence;
   * a blank body falls back to the whole response.
   */
  lemma SqlBlockRoundTrip(b: string, rest: string)
    requires !Contains(b, SqlClose)
    ensures var s := SqlOpen + b + SqlClose + rest;
            ExtractSql(s) == (if Trim(b) == "" then s else Trim(b))
  {
    var s := SqlOpen + b + SqlClose + rest;
    SqlBlockFound(b, rest);
    SqlOfFoundMatch(s, 0, |SqlOpen| + |b|, b);
  }

  /** The finder stops at the block's own fences. */
  lemma SqlBlockFound(b: string, rest: string)
    requires !Contains(b, SqlClose)
    ensures var s := SqlOpen + b + SqlClose + rest;
            var m := |SqlOpen| + |b|;
            FindSqlMatch(s) == Some((0, m)) && m <= |s| && s[|SqlOpen|..m] == b
  {
    var s := SqlOpen + b + SqlClose + rest;
    var m := |SqlOpen| + |b|;
    assert s[..|SqlOpen|] == SqlOpen;
    FindAt(s, SqlOpen, 0, 0);
    assert s[m..m + |SqlClose|] == SqlClose;
    forall j | |SqlOpen| <= j < m
      ensures !OccursAt(s, SqlClose, j)
    {
      NoCloseBeforeFenceEnd(b, rest, j);
    }
    FindAt(s, SqlClose, |SqlOpen|, m);
    assert s[|SqlOpen|..m] == b;
  }

  /** The SQL of a text is read off the match the finder returns. */
  lemma SqlOfFoundMatch(s: string, i: nat, k: nat, group: string)
    requires FindSqlMatch(s) == Some((i, k))
    requires i + |SqlOpen| <= k <= |s| && s[i + |SqlOpen|..k] == group
    ensures ExtractSql(s) == (if Trim(group) == "" then s else Trim(group))
  {
  }

  /** A piece of text that holds no separator match ([-*•] bullet or numbered item) at any position. */
  ghost predicate NoMarkerIn(s: string, p: nat, q: nat) {
    forall j: nat, e: nat :: p <= j < q ==> !ItemMarkerMatch(s, j, e)
  }

  /** The separator expression matches the whole of t. */
  ghost predicate IsItemMarker(t: string) {
    ItemMarkerMatch(t, 0, |t|)
  }

  /** Splitting's inverse: the pieces with the separators put back between them. */
  function Weave(pieces: seq<string>, seps: seq<string>): (r: string)
    requires |pieces| == |seps| + 1
    ensures |r| >= |pieces[0]|
    decreases |seps|
  {
    if seps == [] then pieces[0]
    else pieces[0] + seps[0] + Weave(pieces[1..], seps[1..])
  }

  /** A separator match inside a slice of s is a separator match in s. */
  lemma MarkerInSlice(s: string, p: nat, m: nat, j: nat, e: nat)
    requires p <= m <= |s|
    ensures ItemMarkerMatch(s[p..m], j, e) ==> ItemMarkerMatch(s, p + j, p + e)
  {
    if ItemMarkerMatch(s[p..m], j, e) {
      var t := s[p..m];
      assert forall x :: j <= x < e ==> t[x] == s[p + x];
    }
  }

  /** A slice cut around a separator match is matched as a whole. */
  lemma MarkerSlice(s: string, q: nat, e: nat)
    requires ItemMarkerMatch(s, q, e)
    ensures IsItemMarker(s[q..e])
  {
    var t := s[q..e];
    assert forall x :: 0 <= x < |t| ==> t[x] == s[q + x];
  }

  /**
   * Splitting from p, with no separator starting in s[p..q]: the pieces and
   * separators rebuild s[p..], every separator is a separator match, and no
   * piece contains one.
   */
  lemma {:induction false} SplitFromSound(s: string, p: nat, q: nat)
    requires p <= q <= |s| && NoMarkerIn(s, p, q)
    ensures var r := SplitFrom(s, p, q);
            Weave(r.0, r.1) == s[p..]
            && (forall k :: 0 <= k < |r.1| ==> IsItemMarker(r.1[k]))
            && (forall k, j: nat, e: nat :: 0 <= k < |r.0| ==> !ItemMarkerMatch(r.0[k], j, e))
    decreases |s| - q
  {
    var r := SplitFrom(s, p, q);
    if q == |s| {
      forall j: nat, e: nat
        ensures !ItemMarkerMatch(s[p..], j, e)
      {
        MarkerInSlice(s, p, |s|, j, e);
        assert s[p..] == s[p..|s|];
      }
    } else {
      match ItemMarkerEnd(s, q)
      case Some(e) =>
        var rest := SplitFrom(s, e, e);
        SplitFromSound(s, e, e);
        assert r.0 == [s[p..q]] + rest.0 && r.1 == [s[q..e]] + rest.1;
        assert r.0[1..] == rest.0 && r.1[1..] == rest.1;
        assert Weave(r.0, r.1) == s[p..q] + s[q..e] + s[e..];
        assert s[p..] == s[p..q] + s[q..e] + s[e..];
        MarkerSlice(s, q, e);
        forall k, j: nat, e': nat | 0 <= k < |r.0|
          ensures !ItemMarkerMatch(r.0[k], j, e')
        {
          if k == 0 {
            MarkerInSlice(s, p, q, j, e');
          } else {
            assert r.0[k] == rest.0[k - 1];
          }
        }
      case None =>
        SplitFromSound(s, p, q + 1);
    }
  }

  /**
   * The suggestion section split into list items: the pieces and separators
   * rebuild the section, every separator is a numbered or bulleted item start,
   * and no piece contains one.
   */
  lemma SplitItemsSound(section: string)
    ensures var r := SplitFrom(section, 0, 0);
            r.0 == SplitItems(section)
            && Weave(r.0, r.1) == section
            && (forall k :: 0 <= k < |r.1| ==> IsItemMarker(r.1[k]))
            && (forall k, j: nat, e: nat :: 0 <= k < |r.0| ==> !ItemMarkerMatch(r.0[k], j, e))
  {
    SplitFromSound(section, 0, 0);
    assert section[0..] == section;
  }

  /** Past a marker, the first character that is not a line feed starts a match. */
  lemma {:induction false} CostMatchOnText(s: string, i: nat, p: nat, j: nat)
    requires OccursAt(Lower(s), CostMarker, i) && i + |CostMarker| <= p <= j < |s| && s[j] != '\n'
    requires SpaceRun(s, i + |CostMarker|, p)
    ensures exists k: nat, e: nat :: CostMatch(s, i, false, k, e)
    decreases j - p
  {
    if s[p] != '\n' {
      assert CostMatch(s, i, false, p, p + 1);
    } else {
      assert IsSpace(s[p]);
      CostMatchOnText(s, i, p + 1, j);
    }
  }

  /**
   * No cost is reported exactly when every occurrence of "cost" (in any case)
   * is followed by nothing but line feeds.
   */
  lemma CostAbsentIff(s: string)
    ensures ExtractCost(s).None? <==>
            forall i: nat, j :: OccursAt(Lower(s), CostMarker, i) && i + |CostMarker| <= j < |s| ==> s[j] == '\n'
  {
    if forall i: nat, j :: OccursAt(Lower(s), CostMarker, i) && i + |CostMarker| <= j < |s| ==> s[j] == '\n' {
      forall i: nat, c: bool, k: nat, e: nat
        ensures !CostMatch(s, i, c, k, e)
      {
        CostGroupStart(s, i, c, k, e);
      }
    } else {
      var i: nat, j :| OccursAt(Lower(s), CostMarker, i) && i + |CostMarker| <= j < |s| && s[j] != '\n';
      CostMatchOnText(s, i, i + |CostMarker|, j);
    }
  }

  /**
   * When the first "cost" is followed by a colon or dash and then a character
   * that is not white space, the cost is the rest of that line, trimmed.
   */
  lemma CostAfterLabel(s: string, i: nat)
    requires Find(Lower(s), CostMarker, 0) == Some(i)
    requires ColonAt(s, i + |CostMarker|) && i + |CostMarker| + 1 < |s| && !IsSpace(s[i + |CostMarker| + 1])
    ensures ExtractCost(s) == Some(Trim(s[i + |CostMarker| + 1..LineEnd(s, i + |CostMarker| + 1)]))
  {
    var p := i + |CostMarker| + 1;
    assert SkipSpace(s, p) == p;
  }

  /**
   * Whenever the first "cost" in a response is followed by ":**" and the end
   * of the line, as in a "**Estimated Cost:**" label on a line of its own, the
   * extracted cost is the closing "**" of the label.
   */
  lemma BoldCostLabel(s: string, i: nat)
    requires Find(Lower(s), CostMarker, 0) == Some(i)
    requires i + 7 <= |s| && s[i + 4] == ':' && s[i + 5] == '*' && s[i + 6] == '*'
    requires i + 7 == |s| || s[i + 7] == '\n'
    ensures ExtractCost(s) == Some("**")
  {
    BoldCostLine(s, i);
    CostAfterLabel(s, i);
    TrimOfTrimmed("**");
  }

  /** After "cost:" comes "**" and the end of the line. */
  lemma BoldCostLine(s: string, i: nat)
    requires i + 7 <= |s| && s[i + 4] == ':' && s[i + 5] == '*' && s[i + 6] == '*'
    requires i + 7 == |s| || s[i + 7] == '\n'
    ensures ColonAt(s, i + |CostMarker|) && i + |CostMarker| + 1 < |s| && !IsSpace(s[i + |CostMarker| + 1])
    ensures s[i + |CostMarker| + 1..LineEnd(s, i + |CostMarker| + 1)] == "**"
  {
    LineEndAfterTwo(s, i + 5);
    assert s[i + 5..i + 7] == "**";
  }

  /** Two characters other than line feeds, then a line feed or the end: the line ends after them. */
  lemma LineEndAfterTwo(s: string, p: nat)
    requires p + 2 <= |s| && s[p] != '\n' && s[p + 1] != '\n'
    requires p + 2 == |s| || s[p + 2] == '\n'
    ensures LineEnd(s, p) == p + 2
  {
    assert LineEnd(s, p + 2) == p + 2;
    assert LineEnd(s, p + 1) == p + 2;
  }

  /** The last two lines of the layout the system prompt asks for, with a sample figure. */
  const DocumentedCostLines := "**Estimated " + "Cost:**\n" + "~$8-20/month"

  lemma OccursAtHead(s: string, pat: string, j: nat)
    requires |pat| > 0
    ensures OccursAt(s, pat, j) ==> s[j] == pat[0]
  {
    if OccursAt(s, pat, j) {
      assert s[j..j + |pat|][0] == s[j];
    }
  }

  lemma DocumentedCostMarker()
    ensures Find(Lower(DocumentedCostLines), CostMarker, 0) == Some(12)
  {
    var s := DocumentedCostLines;
    var low := Lower(s);
    assert s[..12] == "**Estimated ";
    forall j | 0 <= j < 12
      ensures !OccursAt(low, CostMarker, j)
    {
      OccursAtHead(low, CostMarker, j);
      assert s[j] == s[..12][j];
    }
    assert s[12..20] == "Cost:**\n";
    assert low[12] == 'c' && low[13] == 'o' && low[14] == 's' && low[15] == 't';
    assert low[12..16] == CostMarker;
    FindAt(low, CostMarker, 0, 12);
  }

  /**
   * The layout the system prompt asks for puts the cost on the line after
   * "**Estimated Cost:**", so the closing "**" of the label is what is reported.
   */
  lemma DocumentedCostLayout()
    ensures ExtractCost(DocumentedCostLines) == Some("**")
  {
    DocumentedCostMarker();
    DocumentedCostLabel();
    CostAfterLabel(DocumentedCostLines, 12);
    DocumentedCostLineEnd();
    TrimOfTrimmed("**");
  }

  /** "Cost" is followed by a colon and then by a character that is not white space. */
  lemma DocumentedCostLabel()
    ensures ColonAt(DocumentedCostLines, 16) && 17 < |DocumentedCostLines| && !IsSpace(DocumentedCostLines[17])
  {
    assert DocumentedCostLines[12..20] == "Cost:**\n";
  }

  /** The line after the label ends right after its "**". */
  lemma DocumentedCostLineEnd()
    ensures LineEnd(DocumentedCostLines, 17) == 19 && DocumentedCostLines[17..19] == "**"
  {
    var s := DocumentedCostLines;
    assert s[12..20] == "Cost:**\n";
    assert LineEnd(s, 19) == 19;
    assert LineEnd(s, 18) == 19;
  }

  /**
   * Whenever the first "suggestion" in a response is followed by "s:**", a
   * line feed and a dash, as in a "**Suggestions:**" label with its list on
   * the following lines, the first suggestion is the closing "**" of the label.
   */
  lemma BoldSuggestionsLabel(s: string, i: nat)
    requires Find(Lower(s), SuggestionMarker, 0) == Some(i)
    requires i + 16 <= |s| && s[i + 10..i + 16] == "s:**\n-"
    ensures |ExtractSuggestions(s)| >= 1 && ExtractSuggestions(s)[0] == "**"
  {
    var w := i + 12;
    BoldSuggestionsMatch(s, i);
    SuggestionsOfFoundMatch(s, i, true, true, w, |s|);
    BoldSection(s, i);
    LabelCloseIsFirstItem(s[w..|s|]);
  }

  lemma BoldSuggestionsMatch(s: string, i: nat)
    requires Find(Lower(s), SuggestionMarker, 0) == Some(i)
    requires i + 16 <= |s| && s[i + 10..i + 16] == "s:**\n-"
    ensures FindSuggestionsMatch(s) == Some((i, true, true, i + 12, |s|))
  {
    assert s[i + 10] == s[i + 10..i + 16][0] == 's';
    assert s[i + 11] == s[i + 10..i + 16][1] == ':';
    assert s[i + 12] == s[i + 10..i + 16][2] == '*';
    assert SkipSpace(s, i + 12) == i + 12;
  }

  lemma BoldSection(s: string, i: nat)
    requires i + 16 <= |s| && s[i + 10..i + 16] == "s:**\n-"
    ensures s[i + 12..|s|][..4] == "**\n-"
  {
    assert s[i + 12..|s|][..4] == s[i + 10..i + 16][2..];
  }

  /** A section that starts with "**", a line feed and a dash has "**" as its first item. */
  lemma LabelCloseIsFirstItem(t: string)
    requires |t| >= 4 && t[..4] == "**\n-"
    ensures var items := SuggestionItems(t); |items| >= 1 && items[0] == "**"
  {
    assert t[0] == '*' && t[1] == '*' && t[2] == '\n' && t[3] == '-';
    assert ItemMarkerEnd(t, 2) == Some(4);
    var rest := SplitFrom(t, 4, 4);
    assert SplitFrom(t, 0, 2) == ([t[0..2]] + rest.0, [t[2..4]] + rest.1);
    assert SplitFrom(t, 0, 1) == SplitFrom(t, 0, 2);
    assert SplitFrom(t, 0, 0) == SplitFrom(t, 0, 1);
    assert t[0..2] == "**";
    var pieces := SplitItems(t);
    assert pieces[0] == "**";
    TrimOfTrimmed("**");
    var trimmed := TrimAll(pieces);
    assert trimmed[0] == "**";
    assert trimmed == [trimmed[0]] + trimmed[1..];
    assert NonEmptyOnly(trimmed) == ["**"] + NonEmptyOnly(trimmed[1..]);
  }

  /** The suggestions label of the layout the system prompt asks for, with one sample item. */
  const DocumentedSuggestionLines := "**Suggestions:**\n- Add caching"

  lemma DocumentedSuggestionMarker()
    ensures Find(Lower(DocumentedSuggestionLines), SuggestionMarker, 0) == Some(2)
  {
    var s := DocumentedSuggestionLines;
    var low := Lower(s);
    assert s[..2] == "**";
    forall j | 0 <= j < 2
      ensures !OccursAt(low, SuggestionMarker, j)
    {
      OccursAtHead(low, SuggestionMarker, j);
      assert s[j] == s[..2][j];
    }
    assert s == "**" + "Suggestion" + "s:**\n- Add caching";
    assert s[2..12] == "Suggestion";
    forall x | 2 <= x < 12
      ensures low[x] == SuggestionMarker[x - 2]
    {
      assert s[x] == s[2..12][x - 2];
    }
    assert low[2..12] == SuggestionMarker;
    FindAt(low, SuggestionMarker, 0, 2);
  }

  /** The section after "Suggestions:" split at its list items: the closing "**" of the label is a piece of its own. */
  lemma DocumentedSuggestionSplit()
    ensures SplitItems("**\n- Add caching") == ["**", " Add caching"]
  {
    var t := "**\n- Add caching";
    var item := " Add caching";
    assert t == "**" + "\n-" + item;
    assert t[..2] == "**" && t[2] == '\n' && t[3] == '-' && t[4..] == item;
    assert '\n' !in item;
    forall q | 4 <= q < |t|
      ensures ItemMarkerEnd(t, q) == None
    {
      assert t[q] == item[q - 4];
    }
    SplitFromNoMarker(t, 4, 4);
    var rest := SplitFrom(t, 4, 4);
    assert rest.0 == [item] && rest.1 == [];
    assert ItemMarkerEnd(t, 2) == Some(4);
    assert SplitFrom(t, 0, 2) == ([t[0..2]] + rest.0, [t[2..4]] + rest.1);
    assert SplitFrom(t, 0, 1) == SplitFrom(t, 0, 2);
    assert SplitFrom(t, 0, 0) == SplitFrom(t, 0, 1);
  }

  /** With no separator from q on, the rest of the text is one piece. */
  lemma {:induction false} SplitFromNoMarker(s: string, p: nat, q: nat)
    requires p <= q <= |s|
    requires forall j :: q <= j < |s| ==> ItemMarkerEnd(s, j) == None
    ensures SplitFrom(s, p, q) == ([s[p..]], [])
    decreases |s| - q
  {
    if q < |s| {
      SplitFromNoMarker(s, p, q + 1);
    }
  }

  lemma DocumentedSuggestionMatch()
    ensures FindSuggestionsMatch(DocumentedSuggestionLines) == Some((2, true, true, 14, |DocumentedSuggestionLines|))
  {
    var s := DocumentedSuggestionLines;
    assert s == "**Suggestion" + "s:**\n- Add caching";
    assert s[12] == 's' && s[13] == ':' && s[14] == '*';
    DocumentedSuggestionMarker();
    assert SkipSpace(s, 14) == 14;
  }

  lemma TrimLeadingBlank(t: string)
    requires |t| > 0 && Trimmed(t)
    ensures Trim(" " + t) == t
  {
    var s := " " + t;
    assert IsSpace(s[0]) && s[1] == t[0];
    assert SkipSpace(s, 1) == 1;
    assert SkipSpaceBack(s, 1, |s|) == |s|;
    assert s[1..] == t;
  }

  lemma DocumentedSuggestionItems()
    ensures SuggestionItems("**\n- Add caching") == ["**", "Add caching"]
  {
    DocumentedSuggestionSplit();
    DocumentedPiecesTrimmed();
    NonEmptyPair("**", "Add caching");
  }

  /** Trimming the two pieces drops the blank in front of the item. */
  lemma DocumentedPiecesTrimmed()
    ensures TrimAll(["**", " Add caching"]) == ["**", "Add caching"]
  {
    var item := "Add caching";
    assert item[0] == 'A' && item[|item| - 1] == 'g';
    assert " Add caching" == " " + item;
    TrimPair("**", item);
  }

  lemma TrimPair(a: string, t: string)
    requires Trimmed(a) && t != "" && Trimmed(t)
    ensures TrimAll([a, " " + t]) == [a, t]
  {
    TrimOfTrimmed(a);
    TrimLeadingBlank(t);
    var trimmed := TrimAll([a, " " + t]);
    assert trimmed == [trimmed[0], trimmed[1]];
  }

  /** Two non-empty items both survive the filter. */
  lemma NonEmptyPair(a: string, b: string)
    requires a != "" && b != ""
    ensures NonEmptyOnly([a, b]) == [a, b]
  {
    assert [b][1..] == [];
    assert NonEmptyOnly([b]) == [b] + NonEmptyOnly([]);
    assert [a, b][1..] == [b];
    assert NonEmptyOnly([a, b]) == [a] + NonEmptyOnly([b]);
  }

  /**
   * The layout the system prompt asks for writes its items on the lines after
   * "**Suggestions:**", so the closing "**" of the label is reported as the
   * first suggestion.
   */
  lemma DocumentedSuggestionLayout()
    ensures ExtractSuggestions(DocumentedSuggestionLines) == ["**", "Add caching"]
  {
    DocumentedSuggestionMatch();
    DocumentedSuggestionSection();
    DocumentedSuggestionItems();
    SuggestionsOfFoundMatch(DocumentedSuggestionLines, 2, true, true, 14, |DocumentedSuggestionLines|);
  }

  lemma DocumentedSuggestionSection()
    ensures |DocumentedSuggestionLines| >= 14
    ensures DocumentedSuggestionLines[14..|DocumentedSuggestionLines|] == "**\n- Add caching"
  {
    assert DocumentedSuggestionLines == "**Suggestions:" + "**\n- Add caching";
  }

  /** The suggestions of a text are read off the match the finder returns. */
  lemma SuggestionsOfFoundMatch(s: string, i: nat, plural: bool, c: bool, w: nat, e: nat)
    requires FindSuggestionsMatch(s) == Some((i, plural, c, w, e))
    ensures w <= e <= |s|
    ensures ExtractSuggestions(s) == (var items := SuggestionItems(s[w..e]);
                                      if items == [] then [DefaultSuggestion] else items)
  {
  }
}
