/**
 * The pure helpers of `dbHelpers` in src/lib/supabase/queries.ts: deriving a
 * project name, the tags of a prompt, and the short preview shown in lists.
 */
module ProjectHelpers {
  import opened TextOps

  /** The two columns of a `schema_projects` row that the preview reads; SQL null is None. */
  datatype SchemaProject = SchemaProject(originalPrompt: Option<string>, uploadedSql: Option<string>)

  const NameWordCount: nat := 4
  const NameLengthLimit: nat := 30
  const PreviewLengthLimit: nat := 100

  /**
   * `prompt.split(' ').slice(0, 4).join(' ')`: the prompt up to, not including,
   * its fourth space, or the whole prompt when it has fewer than four spaces.
   */
  function LeadingWords(prompt: string): (w: string)
    ensures |w| <= |prompt| && w == prompt[..|w|]
    ensures multiset(w)[' '] <= NameWordCount - 1
    ensures |w| < |prompt| ==> prompt[|w|] == ' ' && multiset(w)[' '] == NameWordCount - 1
  {
    JoinedLeadingPieces(prompt, ' ', NameWordCount);
    LeadingJoin(prompt, ' ', NameWordCount)
  }

  /**
   * `generateProjectName`. The date fallback reads the clock and the locale, so
   * the formatted date arrives as the parameter today.
   */
  function GenerateProjectName(prompt: Option<string>, uploadedFilename: Option<string>, today: string): (r: string)
    ensures Truthy(prompt) ==> |r| <= NameLengthLimit + 3
    ensures Truthy(prompt) && |LeadingWords(prompt.value)| <= NameLengthLimit ==> r == LeadingWords(prompt.value)
    ensures Truthy(prompt) && |LeadingWords(prompt.value)| > NameLengthLimit ==>
              r == prompt.value[..NameLengthLimit] + "..."
    ensures !Truthy(prompt) && Truthy(uploadedFilename) ==> r == "Schema from " + uploadedFilename.value
    ensures !Truthy(prompt) && !Truthy(uploadedFilename) ==> r == "Untitled Schema " + today
  {
    if Truthy(prompt) then
      Ellipsize(LeadingWords(prompt.value), NameLengthLimit)
    else if Truthy(uploadedFilename) then
      "Schema from " + uploadedFilename.value
    else
      "Untitled Schema " + today
  }

  const CommonTags: seq<string> :=
    ["blog", "ecommerce", "social", "saas", "analytics", "users", "posts", "orders", "products", "auth"]

  predicate NoDuplicates<T(==)>(xs: seq<T>) {
    forall i, j :: 0 <= i < j < |xs| ==> xs[i] != xs[j]
  }

  /** `tags.filter(tag => text.includes(tag))`. */
  function KeepContained(tags: seq<string>, text: string): (r: seq<string>)
    ensures IsSubsequence(r, tags)
    ensures forall t :: t in r <==> t in tags && Contains(text, t)
  {
    if tags == [] then []
    else
      var rest := KeepContained(tags[1..], text);
      assert forall t :: t in tags <==> t == tags[0] || t in tags[1..];
      if Contains(text, tags[0]) then [tags[0]] + rest else rest
  }

  lemma {:induction false} SubsequenceMembers<T>(xs: seq<T>, ys: seq<T>)
    requires IsSubsequence(xs, ys)
    ensures forall x :: x in xs ==> x in ys
    decreases |ys|
  {
    if xs != [] {
      assert ys != [];
      if xs[0] == ys[0] {
        SubsequenceMembers(xs[1..], ys[1..]);
        assert forall x :: x in xs ==> x == xs[0] || x in xs[1..];
      } else {
        SubsequenceMembers(xs, ys[1..]);
      }
    }
  }

  /** Keeping some elements of a list without repeats cannot create a repeat. */
  lemma {:induction false} SubsequenceNoDuplicates<T>(xs: seq<T>, ys: seq<T>)
    requires IsSubsequence(xs, ys) && NoDuplicates(ys)
    ensures NoDuplicates(xs)
    decreases |ys|
  {
    if xs != [] {
      assert ys != [];
      assert NoDuplicates(ys[1..]);
      if xs[0] == ys[0] {
        SubsequenceNoDuplicates(xs[1..], ys[1..]);
        SubsequenceMembers(xs[1..], ys[1..]);
        assert ys[0] !in ys[1..];
        forall i, j | 0 <= i < j < |xs|
          ensures xs[i] != xs[j]
        {
          if i == 0 {
            assert xs[j] == xs[1..][j - 1];
          } else {
            assert xs[i] == xs[1..][i - 1] && xs[j] == xs[1..][j - 1];
          }
        }
      } else {
        SubsequenceNoDuplicates(xs, ys[1..]);
      }
    }
  }

  /**
   * `extractTagsFromPrompt`: the common tags found in the lower-cased prompt,
   * in the order of the tag list and without repeats.
   */
  function ExtractTagsFromPrompt(prompt: string): (r: seq<string>)
    ensures IsSubsequence(r, CommonTags)
    ensures forall t :: t in r <==> t in CommonTags && Contains(Lower(prompt), t)
    ensures NoDuplicates(r)
  {
    var r := KeepContained(CommonTags, Lower(prompt));
    SubsequenceNoDuplicates(r, CommonTags);
    r
  }

  /**
   * `formatProjectPreview`: a non-empty original prompt first (cut to 100
   * characters and marked with "..."), then a note that SQL was uploaded,
   * then a fixed placeholder.
   */
  function FormatProjectPreview(project: SchemaProject): (r: string)
    ensures 0 < |r| <= PreviewLengthLimit + 3
    ensures Truthy(project.originalPrompt) && |project.originalPrompt.value| <= PreviewLengthLimit ==>
              r == project.originalPrompt.value
    ensures Truthy(project.originalPrompt) && |project.originalPrompt.value| > PreviewLengthLimit ==>
              r == project.originalPrompt.value[..PreviewLengthLimit] + "..."
    ensures !Truthy(project.originalPrompt) && Truthy(project.uploadedSql) ==> r == "SQL file uploaded"
    ensures !Truthy(project.originalPrompt) && !Truthy(project.uploadedSql) ==> r == "No description available"
  {
    if Truthy(project.originalPrompt) then
      Ellipsize(project.originalPrompt.value, PreviewLengthLimit)
    else if Truthy(project.uploadedSql) then
      "SQL file uploaded"
    else
      "No description available"
  }
}
