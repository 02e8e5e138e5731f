/**
 * The predicate pieces the prompt and the tutorial catalogue share: the
 * `"all"` sentinel of a facet, the case-insensitive search over title,
 * description and author name, and any-of tag matching.
 */
module Catalog {
  import opened Text

  /** The facet value that means "no constraint" */
  const All: string := "all"

  /** `selected === 'all' || value === selected` */
  predicate FacetMatches(selected: string, value: string) {
    selected == All || value == selected
  }

  /**
   * `title.toLowerCase().includes(q) || description.toLowerCase().includes(q) ||
   * authorName.toLowerCase().includes(q)` with `q` the lower-cased query
   */
  predicate SearchMatches(title: string, description: string, authorName: string, query: string) {
    var q := Lower(query);
    Contains(Lower(title), q) || Contains(Lower(description), q) || Contains(Lower(authorName), q)
  }

  /** `selected.length === 0 || selected.some(tag => tags.includes(tag))` */
  predicate TagsMatch(selected: seq<string>, tags: seq<string>) {
    |selected| == 0 || exists t :: t in selected && t in tags
  }

  lemma FacetAll(value: string)
    ensures FacetMatches(All, value)
  {
  }

  /** A specific facet value matches exactly, case included. */
  lemma FacetExact(selected: string, value: string)
    requires selected != All
    ensures FacetMatches(selected, value) <==> value == selected
  {
  }

  /** The empty query matches every record. */
  lemma EmptySearchMatches(title: string, description: string, authorName: string)
    ensures SearchMatches(title, description, authorName, "")
  {
    ContainsEmpty(Lower(title));
  }

  /** Text that occurs literally, in any field, is always found. */
  lemma {:induction false} ExactOccurrenceMatches(title: string, description: string, authorName: string, query: string)
    requires Contains(title, query) || Contains(description, query) || Contains(authorName, query)
    ensures SearchMatches(title, description, authorName, query)
  {
    if Contains(title, query) {
      ContainsLower(title, query);
    } else if Contains(description, query) {
      ContainsLower(description, query);
    } else {
      ContainsLower(authorName, query);
    }
  }

  /** The search does not see letter case, neither in the query nor in the fields. */
  lemma SearchIgnoresCase(title: string, description: string, authorName: string, query: string)
    ensures SearchMatches(title, description, authorName, query)
        == SearchMatches(title, description, authorName, Lower(query))
    ensures SearchMatches(title, description, authorName, query)
        == SearchMatches(Lower(title), Lower(description), Lower(authorName), query)
  {
    LowerIdempotent(query);
    LowerIdempotent(title);
    LowerIdempotent(description);
    LowerIdempotent(authorName);
  }

  /** With a selection, a record passes the tag test iff it carries one of the selected tags. */
  lemma TagsAnyOf(selected: seq<string>, tags: seq<string>)
    requires |selected| > 0
    ensures TagsMatch(selected, tags) <==> exists i :: 0 <= i < |selected| && selected[i] in tags
  {
    if TagsMatch(selected, tags) {
      var t :| t in selected && t in tags;
      var i :| 0 <= i < |selected| && selected[i] == t;
    }
  }

  /** Once some tag is selected, selecting more tags can only let more records through. */
  lemma TagsMatchWiden(selected: seq<string>, wider: seq<string>, tags: seq<string>)
    requires |selected| > 0
    requires forall t :: t in selected ==> t in wider
    requires TagsMatch(selected, tags)
    ensures TagsMatch(wider, tags)
  {
    var t :| t in selected && t in tags;
    assert t in wider;
  }
}
