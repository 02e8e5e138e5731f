/**
 * The tutorial filter panel: the search text, category, difficulty and
 * selected tags it edits, the tag toggle and removal, "Clear Filters", and
 * whether any filter is active.
 */
module TutorialFilters {
  import opened Lists
  import opened Catalog
  import opened Tutorials

  /** The filter state the tutorial page owns and the panel updates */
  class TutorialFilterState {
    var searchQuery: string
    var selectedCategory: string
    var selectedDifficulty: string
    var selectedTags: seq<string>

    /** The selected tags never repeat. */
    ghost predicate Valid()
      reads this
    {
      NoDup(selectedTags)
    }

    function Criteria(): TutorialCriteria
      reads this
    {
      TutorialCriteria(searchQuery, selectedCategory, selectedDifficulty, selectedTags)
    }

    /** The initial `useState` values of the tutorial page */
    constructor ()
      ensures Valid()
      ensures Criteria() == DefaultCriteria
      ensures !HasActiveFilters()
    {
      searchQuery := "";
      selectedCategory := All;
      selectedDifficulty := All;
      selectedTags := [];
    }

    /** `hasActiveFilters`: some criterion differs from its starting value */
    predicate HasActiveFilters()
      reads this
      ensures HasActiveFilters() <==> Criteria() != DefaultCriteria
    {
      searchQuery != "" || selectedCategory != All || selectedDifficulty != All || |selectedTags| > 0
    }

    /** `clearFilters`: every criterion back to its starting value */
    method ClearFilters()
      modifies this
      ensures Valid()
      ensures searchQuery == "" && selectedCategory == All && selectedDifficulty == All && selectedTags == []
      ensures !HasActiveFilters()
    {
      searchQuery := "";
      selectedCategory := All;
      selectedDifficulty := All;
      selectedTags := [];
    }

    /** `toggleTag`: deselect the tag when selected, otherwise select it at the end */
    method ToggleTag(tag: string)
      modifies this`selectedTags
      ensures selectedTags == Toggle(old(selectedTags), tag)
      ensures old(Valid()) ==> Valid()
    {
      if tag in selectedTags {
        selectedTags := RemoveAll(selectedTags, tag);
      } else {
        selectedTags := selectedTags + [tag];
      }
      if old(Valid()) {
        ToggleKeepsNoDup(old(selectedTags), tag);
      }
    }

    /** `removeTag`: drop every occurrence of the tag, keeping the others in order */
    method RemoveTag(tag: string)
      modifies this`selectedTags
      ensures selectedTags == RemoveAll(old(selectedTags), tag)
      ensures tag !in selectedTags
      ensures old(Valid()) ==> Valid()
    {
      selectedTags := RemoveAll(selectedTags, tag);
      if old(Valid()) {
        RemoveAllKeepsNoDup(old(selectedTags), tag);
      }
    }
  }

  /** While no filter is active, the page lists every tutorial. */
  lemma InactiveFiltersShowAll(f: TutorialFilterState, tutorials: seq<Tutorial>)
    requires !f.HasActiveFilters()
    ensures FilteredTutorials(tutorials, f.Criteria()) == tutorials
  {
    DefaultCriteriaShowsAll(tutorials);
  }
}
