/**
 * The tutorial library page: the tutorial record, the visible-tutorial
 * filter (search, category, difficulty, tags; no access rule) and the
 * category and tag option lists.
 */
module Tutorials {
  import opened Wrappers
  import opened Text
  import opened Lists
  import opened Catalog

  /** A tutorial; `difficulty` holds one of "beginner", "intermediate", "advanced". */
  datatype Tutorial = Tutorial(
    id: string,
    title: string,
    description: string,
    content: string,
    category: string,
    difficulty: string,
    githubUrl: Option<string>,
    authorId: string,
    authorName: string,
    createdAt: string,
    updatedAt: string,
    isApproved: bool,
    tags: seq<string>)

  /** The search text, the category and difficulty selections and the selected tags */
  datatype TutorialCriteria = TutorialCriteria(
    searchQuery: string,
    category: string,
    difficulty: string,
    tags: seq<string>)

  const DefaultCriteria: TutorialCriteria := TutorialCriteria("", All, All, [])

  /** The four conditions of `filteredTutorials` */
  predicate TutorialMatches(t: Tutorial, c: TutorialCriteria) {
    && SearchMatches(t.title, t.description, t.authorName, c.searchQuery)
    && FacetMatches(c.category, t.category)
    && FacetMatches(c.difficulty, t.difficulty)
    && TagsMatch(c.tags, t.tags)
  }

  /** `filteredTutorials`: exactly the tutorials meeting all four conditions, in their original order */
  function FilteredTutorials(tutorials: seq<Tutorial>, c: TutorialCriteria): (r: seq<Tutorial>)
    ensures IsSubsequence(r, tutorials)
    ensures multiset(r) <= multiset(tutorials)
    ensures forall t :: t in r <==> t in tutorials && TutorialMatches(t, c)
    ensures tutorials == [] ==> r == []
  {
    var r := Filter(tutorials, t => TutorialMatches(t, c));
    SubsequenceMultiset(r, tutorials);
    r
  }

  lemma FilteredTutorialsConcat(a: seq<Tutorial>, b: seq<Tutorial>, c: TutorialCriteria)
    ensures FilteredTutorials(a + b, c) == FilteredTutorials(a, c) + FilteredTutorials(b, c)
  {
    FilterConcat(a, b, t => TutorialMatches(t, c));
  }

  /** The search: the lower-cased query occurs in the lower-cased title, description or author name. */
  lemma SearchCondition(tutorials: seq<Tutorial>, c: TutorialCriteria, t: Tutorial)
    requires t in FilteredTutorials(tutorials, c)
    ensures
      || Contains(Lower(t.title), Lower(c.searchQuery))
      || Contains(Lower(t.description), Lower(c.searchQuery))
      || Contains(Lower(t.authorName), Lower(c.searchQuery))
  {
  }

  /** A specific category or difficulty is matched exactly, case included. */
  lemma FacetConditions(tutorials: seq<Tutorial>, c: TutorialCriteria, t: Tutorial)
    requires t in FilteredTutorials(tutorials, c)
    ensures c.category != All ==> t.category == c.category
    ensures c.difficulty != All ==> t.difficulty == c.difficulty
  {
  }

  /** With no criteria set, every tutorial is listed. */
  lemma DefaultCriteriaShowsAll(tutorials: seq<Tutorial>)
    ensures FilteredTutorials(tutorials, DefaultCriteria) == tutorials
  {
    forall t | t in tutorials ensures TutorialMatches(t, DefaultCriteria) {
      EmptySearchMatches(t.title, t.description, t.authorName);
    }
    FilterAll(tutorials, t => TutorialMatches(t, DefaultCriteria));
  }

  /** Once a tag is selected, selecting another never removes a tutorial from the list. */
  lemma ExtraTagNeverHides(tutorials: seq<Tutorial>, c: TutorialCriteria, tag: string)
    requires |c.tags| > 0
    ensures IsSubsequence(FilteredTutorials(tutorials, c), FilteredTutorials(tutorials, c.(tags := c.tags + [tag])))
  {
    var c' := c.(tags := c.tags + [tag]);
    forall t | t in tutorials && TutorialMatches(t, c) ensures TutorialMatches(t, c') {
      TagsMatchWiden(c.tags, c'.tags, t.tags);
    }
    FilterMonotone(tutorials, t => TutorialMatches(t, c), t => TutorialMatches(t, c'));
  }

  /** Choosing a specific category or difficulty only narrows the list. */
  lemma FacetsOnlyNarrow(tutorials: seq<Tutorial>, c: TutorialCriteria)
    ensures IsSubsequence(FilteredTutorials(tutorials, c), FilteredTutorials(tutorials, c.(category := All, difficulty := All)))
  {
    var wide := c.(category := All, difficulty := All);
    FilterMonotone(tutorials, t => TutorialMatches(t, c), t => TutorialMatches(t, wide));
  }

  /** Selecting tags only narrows the list: the result is a subsequence of the one with no tag selected. */
  lemma TagsOnlyNarrow(tutorials: seq<Tutorial>, c: TutorialCriteria)
    ensures IsSubsequence(FilteredTutorials(tutorials, c), FilteredTutorials(tutorials, c.(tags := [])))
  {
    var none := c.(tags := []);
    FilterMonotone(tutorials, t => TutorialMatches(t, c), t => TutorialMatches(t, none));
  }

  /** `tutorials.map(t => t.category)` */
  function Categories(tutorials: seq<Tutorial>): (r: seq<string>)
    ensures |r| == |tutorials| && forall i :: 0 <= i < |tutorials| ==> r[i] == tutorials[i].category
    ensures forall s :: s in r <==> exists t :: t in tutorials && t.category == s
  {
    var all := Map(tutorials, (t: Tutorial) => t.category);
    forall s ensures s in all <==> exists t :: t in tutorials && t.category == s {
      MapMembership(tutorials, (t: Tutorial) => t.category, s);
    }
    all
  }

  /** `[...new Set(tutorials.map(t => t.category))]`: each category present, once, in first-seen order */
  function AvailableCategories(tutorials: seq<Tutorial>): (r: seq<string>)
    ensures NoDup(r)
    ensures forall s :: s in r <==> exists t :: t in tutorials && t.category == s
    ensures forall s :: s in r <==> s in Categories(tutorials)
    ensures forall i, j :: 0 <= i < j < |r| ==> IndexOf(Categories(tutorials), r[i]) < IndexOf(Categories(tutorials), r[j])
  {
    Distinct(Categories(tutorials))
  }

  /** Every tag of every tutorial, in order: `tutorials.flatMap(t => t.tags)` */
  function AllTags(tutorials: seq<Tutorial>): (r: seq<string>)
    ensures forall s :: s in r <==> exists t :: t in tutorials && s in t.tags
  {
    FlatMap(tutorials, (t: Tutorial) => t.tags)
  }

  /** `[...new Set(tutorials.flatMap(t => t.tags))]`: each tag once, in first-seen order */
  function AvailableTags(tutorials: seq<Tutorial>): (r: seq<string>)
    ensures NoDup(r)
    ensures forall s :: s in r <==> exists t :: t in tutorials && s in t.tags
    ensures forall s :: s in r <==> s in AllTags(tutorials)
    ensures forall i, j :: 0 <= i < j < |r| ==> IndexOf(AllTags(tutorials), r[i]) < IndexOf(AllTags(tutorials), r[j])
  {
    Distinct(AllTags(tutorials))
  }
}
