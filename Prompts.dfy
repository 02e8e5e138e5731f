/**
 * The prompt library page: the prompt record, the filter criteria the page
 * keeps, the visible-prompt filter with its access rule, the option lists
 * offered by the filter widgets, and the tag chip toggle.
 */
module Prompts {
  import opened Wrappers
  import opened Text
  import opened Lists
  import opened Catalog

  /**
   * A prompt, with the fields of the page's own records. `provider`,
   * `visibility` and `structureType` hold the TypeScript string-union values
   * ("openai", "public", "few-shot", ...); `structureType` may be absent.
   */
  datatype Prompt = Prompt(
    id: string,
    title: string,
    description: string,
    content: string,
    category: string,
    tags: seq<string>,
    authorId: string,
    authorName: string,
    createdAt: string,
    updatedAt: string,
    provider: string,
    model: string,
    parameters: map<string, real>,
    version: nat,
    visibility: string,
    structureType: Option<string>)

  /** The selections of the page's search box and filter widgets */
  datatype PromptCriteria = PromptCriteria(
    searchQuery: string,
    category: string,
    provider: string,
    visibility: string,
    structureType: string,
    tags: seq<string>)

  /** The criteria the page starts with */
  const DefaultCriteria: PromptCriteria := PromptCriteria("", All, All, All, All, [])

  /** `selectedStructureType === 'all' || prompt.structure_type === selectedStructureType` */
  predicate StructureTypeMatches(selected: string, structureType: Option<string>) {
    selected == All || structureType == Some(selected)
  }

  /** A public prompt is visible to everyone, a private one to its author only. */
  predicate CanView(p: Prompt, viewer: Option<string>) {
    p.visibility == "public" || (p.visibility == "private" && viewer == Some(p.authorId))
  }

  /** Every condition a prompt must meet to be listed */
  predicate PromptMatches(p: Prompt, c: PromptCriteria, viewer: Option<string>) {
    && SearchMatches(p.title, p.description, p.authorName, c.searchQuery)
    && FacetMatches(c.category, p.category)
    && FacetMatches(c.provider, p.provider)
    && FacetMatches(c.visibility, p.visibility)
    && StructureTypeMatches(c.structureType, p.structureType)
    && TagsMatch(c.tags, p.tags)
    && CanView(p, viewer)
  }

  /** `filteredPrompts`: the prompts meeting every condition, in their original order */
  function FilteredPrompts(prompts: seq<Prompt>, c: PromptCriteria, viewer: Option<string>): (r: seq<Prompt>)
    ensures IsSubsequence(r, prompts)
    ensures multiset(r) <= multiset(prompts)
    ensures forall p :: p in r <==> p in prompts && PromptMatches(p, c, viewer)
  {
    var r := Filter(prompts, p => PromptMatches(p, c, viewer));
    SubsequenceMultiset(r, prompts);
    r
  }

  /** The filter is applied record by record. */
  lemma FilteredPromptsConcat(a: seq<Prompt>, b: seq<Prompt>, c: PromptCriteria, viewer: Option<string>)
    ensures FilteredPrompts(a + b, c, viewer) == FilteredPrompts(a, c, viewer) + FilteredPrompts(b, c, viewer)
  {
    FilterConcat(a, b, p => PromptMatches(p, c, viewer));
  }

  /** A private prompt is never listed for anyone but its author, whatever the other criteria. */
  lemma PrivateHiddenFromOthers(prompts: seq<Prompt>, c: PromptCriteria, viewer: Option<string>, p: Prompt)
    requires p.visibility == "private" && viewer != Some(p.authorId)
    ensures p !in FilteredPrompts(prompts, c, viewer)
  {
  }

  /** With nobody signed in, only public prompts are listed. */
  lemma SignedOutSeesOnlyPublic(prompts: seq<Prompt>, c: PromptCriteria)
    ensures forall p :: p in FilteredPrompts(prompts, c, None) ==> p.visibility == "public"
  {
  }

  /** A listed private prompt belongs to the viewer. */
  lemma ListedPrivateIsOwn(prompts: seq<Prompt>, c: PromptCriteria, viewer: Option<string>, p: Prompt)
    requires p in FilteredPrompts(prompts, c, viewer) && p.visibility != "public"
    ensures viewer == Some(p.authorId) && p.visibility == "private"
  {
  }

  /** With the starting criteria only the access rule applies: public prompts and the viewer's own, in order. */
  lemma DefaultCriteriaShowsVisible(prompts: seq<Prompt>, viewer: Option<string>)
    ensures FilteredPrompts(prompts, DefaultCriteria, viewer) == Filter(prompts, p => CanView(p, viewer))
  {
    forall p | p in prompts
      ensures PromptMatches(p, DefaultCriteria, viewer) <==> CanView(p, viewer)
    {
      EmptySearchMatches(p.title, p.description, p.authorName);
    }
    FilterCongruent(prompts, p => PromptMatches(p, DefaultCriteria, viewer), p => CanView(p, viewer));
  }

  /** A prompt without a structure type is listed only while that facet is "all". */
  lemma MissingStructureType(prompts: seq<Prompt>, c: PromptCriteria, viewer: Option<string>, p: Prompt)
    requires p.structureType == None
    ensures p in FilteredPrompts(prompts, c, viewer) ==> c.structureType == All
    ensures c.structureType == All ==>
      (p in FilteredPrompts(prompts, c, viewer) <==>
        && p in prompts
        && SearchMatches(p.title, p.description, p.authorName, c.searchQuery)
        && FacetMatches(c.category, p.category)
        && FacetMatches(c.provider, p.provider)
        && FacetMatches(c.visibility, p.visibility)
        && TagsMatch(c.tags, p.tags)
        && CanView(p, viewer))
  {
  }

  /** With a tag selected, a prompt passes the tag test iff it carries one of the selected tags. */
  lemma PromptTagsAnyOf(p: Prompt, c: PromptCriteria)
    requires |c.tags| > 0
    ensures TagsMatch(c.tags, p.tags) <==> exists i :: 0 <= i < |c.tags| && c.tags[i] in p.tags
  {
    TagsAnyOf(c.tags, p.tags);
  }

  /** Once a tag is selected, selecting another never removes a prompt from the list. */
  lemma ExtraTagNeverHides(prompts: seq<Prompt>, c: PromptCriteria, viewer: Option<string>, tag: string)
    requires |c.tags| > 0
    ensures IsSubsequence(FilteredPrompts(prompts, c, viewer), FilteredPrompts(prompts, c.(tags := c.tags + [tag]), viewer))
  {
    var c' := c.(tags := c.tags + [tag]);
    forall p | p in prompts && PromptMatches(p, c, viewer) ensures PromptMatches(p, c', viewer) {
      TagsMatchWiden(c.tags, c'.tags, p.tags);
    }
    FilterMonotone(prompts, p => PromptMatches(p, c, viewer), p => PromptMatches(p, c', viewer));
  }

  /** Choosing a specific category, provider, visibility or structure type only narrows the list. */
  lemma FacetsOnlyNarrow(prompts: seq<Prompt>, c: PromptCriteria, viewer: Option<string>)
    ensures IsSubsequence(
      FilteredPrompts(prompts, c, viewer),
      FilteredPrompts(prompts, c.(category := All, provider := All, visibility := All, structureType := All), viewer))
  {
    var wide := c.(category := All, provider := All, visibility := All, structureType := All);
    FilterMonotone(prompts, p => PromptMatches(p, c, viewer), p => PromptMatches(p, wide, viewer));
  }

  /** Selecting tags only narrows the list: the result is a subsequence of the one with no tag selected. */
  lemma TagsOnlyNarrow(prompts: seq<Prompt>, c: PromptCriteria, viewer: Option<string>)
    ensures IsSubsequence(FilteredPrompts(prompts, c, viewer), FilteredPrompts(prompts, c.(tags := []), viewer))
  {
    var none := c.(tags := []);
    FilterMonotone(prompts, p => PromptMatches(p, c, viewer), p => PromptMatches(p, none, viewer));
  }

  // ---------------------------------------------------------------------------
  // Option lists for the filter widgets

  /** `prompts.map(p => p.category)` */
  function Categories(prompts: seq<Prompt>): (r: seq<string>)
    ensures |r| == |prompts| && forall i :: 0 <= i < |prompts| ==> r[i] == prompts[i].category
    ensures forall s :: s in r <==> exists p :: p in prompts && p.category == s
  {
    var all := Map(prompts, (p: Prompt) => p.category);
    forall s ensures s in all <==> exists p :: p in prompts && p.category == s {
      MapMembership(prompts, (p: Prompt) => p.category, s);
    }
    all
  }

  /** `[...new Set(prompts.map(p => p.category))]`: each category once, in first-seen order */
  function AvailableCategories(prompts: seq<Prompt>): (r: seq<string>)
    ensures NoDup(r)
    ensures forall s :: s in r <==> exists p :: p in prompts && p.category == s
    ensures forall s :: s in r <==> s in Categories(prompts)
    ensures forall i, j :: 0 <= i < j < |r| ==> IndexOf(Categories(prompts), r[i]) < IndexOf(Categories(prompts), r[j])
  {
    Distinct(Categories(prompts))
  }

  /** `prompts.map(p => p.provider)` */
  function Providers(prompts: seq<Prompt>): (r: seq<string>)
    ensures |r| == |prompts| && forall i :: 0 <= i < |prompts| ==> r[i] == prompts[i].provider
    ensures forall s :: s in r <==> exists p :: p in prompts && p.provider == s
  {
    var all := Map(prompts, (p: Prompt) => p.provider);
    forall s ensures s in all <==> exists p :: p in prompts && p.provider == s {
      MapMembership(prompts, (p: Prompt) => p.provider, s);
    }
    all
  }

  /** `[...new Set(prompts.map(p => p.provider))]`: each provider once, in first-seen order */
  function AvailableProviders(prompts: seq<Prompt>): (r: seq<string>)
    ensures NoDup(r)
    ensures forall s :: s in r <==> exists p :: p in prompts && p.provider == s
    ensures forall s :: s in r <==> s in Providers(prompts)
    ensures forall i, j :: 0 <= i < j < |r| ==> IndexOf(Providers(prompts), r[i]) < IndexOf(Providers(prompts), r[j])
  {
    Distinct(Providers(prompts))
  }

  /** Every tag of every prompt, in order: `prompts.flatMap(p => p.tags)` */
  function AllTags(prompts: seq<Prompt>): (r: seq<string>)
    ensures forall t :: t in r <==> exists p :: p in prompts && t in p.tags
  {
    FlatMap(prompts, (p: Prompt) => p.tags)
  }

  /** `[...new Set(prompts.flatMap(p => p.tags))]`: each tag once, in first-seen order */
  function AvailableTags(prompts: seq<Prompt>): (r: seq<string>)
    ensures NoDup(r)
    ensures forall t :: t in r <==> exists p :: p in prompts && t in p.tags
    ensures forall t :: t in r <==> t in AllTags(prompts)
    ensures forall i, j :: 0 <= i < j < |r| ==> IndexOf(AllTags(prompts), r[i]) < IndexOf(AllTags(prompts), r[j])
  {
    Distinct(AllTags(prompts))
  }

  /** `Boolean(v)` for an optional string: present and not empty */
  predicate Truthy(v: Option<string>) {
    v.Some? && v.value != ""
  }

  /** `prompts.map(p => p.structure_type).filter(Boolean)` */
  function DefinedStructureTypes(prompts: seq<Prompt>): (r: seq<string>)
    ensures forall s :: s in r <==> s != "" && exists p :: p in prompts && p.structureType == Some(s)
    decreases |prompts|
  {
    if prompts == [] then []
    else
      assert prompts == [prompts[0]] + prompts[1..];
      var head := prompts[0].structureType;
      (if Truthy(head) then [head.value] else []) + DefinedStructureTypes(prompts[1..])
  }

  /** `[...new Set(...filter(Boolean))]`: the structure types in use, never empty or absent */
  function AvailableStructureTypes(prompts: seq<Prompt>): (r: seq<string>)
    ensures NoDup(r)
    ensures "" !in r
    ensures forall s :: s in r <==> s != "" && exists p :: p in prompts && p.structureType == Some(s)
    ensures forall s :: s in r <==> s in DefinedStructureTypes(prompts)
    ensures forall i, j :: 0 <= i < j < |r| ==>
      IndexOf(DefinedStructureTypes(prompts), r[i]) < IndexOf(DefinedStructureTypes(prompts), r[j])
  {
    Distinct(DefinedStructureTypes(prompts))
  }

  /** `availableTags.slice(0, 10)`: the tag chips offered under "Popular Tags" */
  function PopularTags(prompts: seq<Prompt>): (r: seq<string>)
    ensures |r| <= 10
    ensures r <= AvailableTags(prompts)
    ensures |AvailableTags(prompts)| >= 10 ==> |r| == 10
    ensures |AvailableTags(prompts)| <= 10 ==> r == AvailableTags(prompts)
    ensures NoDup(r)
  {
    Take(AvailableTags(prompts), 10)
  }

  // ---------------------------------------------------------------------------
  // The page's filter state

  /** The state fields behind the page's search box, filter widgets and tag chips */
  class PromptFilters {
    var searchQuery: string
    var selectedCategory: string
    var selectedProvider: string
    var selectedVisibility: string
    var selectedStructureType: string
    var selectedTags: seq<string>

    /** The selected tags never repeat. */
    ghost predicate Valid()
      reads this
    {
      NoDup(selectedTags)
    }

    function Criteria(): PromptCriteria
      reads this
    {
      PromptCriteria(searchQuery, selectedCategory, selectedProvider, selectedVisibility, selectedStructureType, selectedTags)
    }

    /** The `useState` initial values */
    constructor ()
      ensures Valid()
      ensures Criteria() == DefaultCriteria
    {
      searchQuery := "";
      selectedCategory := All;
      selectedProvider := All;
      selectedVisibility := All;
      selectedStructureType := All;
      selectedTags := [];
    }

    /** `handleTagSelect`: deselect the tag when selected, otherwise select it at the end */
    method HandleTagSelect(tag: string)
      modifies this`selectedTags
      ensures selectedTags == Toggle(old(selectedTags), tag)
      ensures Criteria() == old(Criteria()).(tags := selectedTags)
      ensures old(Valid()) ==> Valid()
    {
      if tag in selectedTags {
        selectedTags := RemoveAll(selectedTags, tag);
      } else {
        selectedTags := selectedTags + [tag];
      }
      if old(Valid()) {
        ToggleKeepsNoDup(old(selectedTags), tag);
      }
    }
  }
}
