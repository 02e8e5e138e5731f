# promptcraft catalogue logic in Dafny

This project models the client-side logic of the promptcraft front-end and proves properties about it. promptcraft is a React site where users browse prompt templates and prompt-engineering tutorials. The modelled logic is:

- the prompt catalogue and the tutorial catalogue, which are stable filters over lists of records with a case-insensitive text search, exact facets with an `"all"` sentinel and any-of tag selection;
- the rule that a private prompt is shown only to its author;
- the distinct option lists (categories, providers, tags, structure types) built with `[...new Set(...)]`, which keep first-seen order;
- the tag toggle and the clear/remove operations on the filter panel's criteria;
- the tag entry and submission state machine of the tutorial submission form;
- the display rules of a prompt card: owner check, provider label, at most three tags with a `+n` badge, and the `{{name}}` template-variable scanner;
- the active-route predicate of the navigation bar.

Module layout follows the source files:

- `Prompts` models `src/pages/PromptsPage.tsx`.
- `Tutorials` models `src/pages/TutorialsPage.tsx`.
- `TutorialFilters` models `src/components/tutorials/TutorialFilters.tsx`.
- `SubmitTutorial` models `src/pages/SubmitTutorialPage.tsx`.
- `PromptCard` models `src/components/prompts/PromptCard.tsx`.
- `Navigation` models `src/components/layout/Navigation.tsx`.

The shared modules are:

- `Catalog`: the per-field predicates both catalogues use.
- `Text`: ASCII case mapping, `includes`, `startsWith` and `trim`.
- `Lists`: `Array.prototype.filter`, `map`, `flatMap`, `slice(0, n)`, the `Set` de-duplication and the toggle.
- `Wrappers`: `Option`, used for `undefined`.
- `Scenarios`: worked examples on small records modelled on the pages' sample records. Titles are shortened and most fields are left empty.

React state is modelled two ways:

- Where the source replaces a state field, the model is a class whose method reassigns that field. This covers `PromptFilters.HandleTagSelect`, the `TutorialFilterState` methods and the `TutorialSubmission` methods.
- Where the source only computes a value, the model is a function.

Each method's `ensures` ties the new state to a specification function (`Toggle`, `RemoveAll`, `AddTagTo`, `Outcome`). The properties of those functions are proved as lemmas.

Choices worth knowing:

- The `Prompt` type is imported from `src/lib/supabase.ts`, but that file declares only `Tutorial` and `Profile`. The `Prompt` record here takes its fields from the sample records in `src/pages/PromptsPage.tsx:26-153`. Every sample sets `structure_type`. The page still treats it as possibly missing: `.filter(Boolean)` at `src/pages/PromptsPage.tsx:193` and the guard at `src/components/prompts/PromptCard.tsx:107`. So it is an `Option` here.
- `user?.id` is an `Option<string>`. A signed-out viewer is `None`, which never equals an author id.
- Toggling a tag twice restores the list only when the tag was absent. When it was present, the tag comes back at the end:
  - `Lists.ToggleTwicePresent` proves this.
  - `Lists.ToggleTwiceReorders` gives the input `["a", "b"]`.
  - This is what the source does (remove, then append) and not a defect.
- The regular expression `/\{\{([^}]+)\}\}/g` is modelled as a left-to-right scanner.
  - A match at a position is `{{`, the maximal run of characters other than `}`, then `}}`.
  - The run must be non-empty.
  - Backtracking into `[^}]+` can only give back non-`}` characters, so it never produces another match.
  - After a match, the scan resumes behind the closing `}}`. Otherwise it moves one character on.
  - `PromptCard.VariablesOfRender` shows this scanner inverts rendering a well-formed template.

## Model

| member | source | states |
|---|---|---|
| Prompts.FilteredPrompts | src/pages/PromptsPage.tsx:169-187 | the listed prompts are a subsequence of the input (same order, no duplication, multiset included), and a prompt is listed iff it is in the input and meets every condition |
| Prompts.FilteredPromptsConcat | src/pages/PromptsPage.tsx:169 | filtering distributes over concatenation of the record list |
| Prompts.PrivateHiddenFromOthers | src/pages/PromptsPage.tsx:182-186 | a private prompt is never listed for a viewer other than its author, whatever the other criteria |
| Prompts.SignedOutSeesOnlyPublic | src/pages/PromptsPage.tsx:182-186 | with no signed-in user every listed prompt is public |
| Prompts.ListedPrivateIsOwn | src/pages/PromptsPage.tsx:182-186 | a listed prompt that is not public is private and belongs to the viewer |
| Prompts.DefaultCriteriaShowsVisible | src/pages/PromptsPage.tsx:170-186 | with empty query, all facets `"all"` and no tags, the result is exactly the prompts the viewer may see (public ones and the viewer's own private ones), in input order |
| Prompts.MissingStructureType | src/pages/PromptsPage.tsx:178 | a prompt without a structure type is listed only when the structure-type selection is `"all"`, and under `"all"` it is listed iff the other conditions hold |
| Prompts.PromptTagsAnyOf | src/pages/PromptsPage.tsx:179 | with a non-empty selection, the tag test holds iff some selected tag is among the prompt's tags |
| Prompts.ExtraTagNeverHides | src/pages/PromptsPage.tsx:179 | adding a tag to a non-empty selection never removes a prompt from the result |
| Prompts.FacetsOnlyNarrow | src/pages/PromptsPage.tsx:175-178 | the result under any facets is a subsequence of the result with every facet set to `"all"` |
| Prompts.TagsOnlyNarrow | src/pages/PromptsPage.tsx:179 | the result under any tag selection is a subsequence of the result with no tag selected |
| Prompts.Categories | src/pages/PromptsPage.tsx:190 | `prompts.map(p => p.category)`: one entry per prompt, in order, holding exactly the categories that occur |
| Prompts.AvailableCategories | src/pages/PromptsPage.tsx:190 | duplicate-free, holds exactly the categories occurring in the prompts, in first-seen order |
| Prompts.AllTags | src/pages/PromptsPage.tsx:191 | holds exactly the tags of all prompts |
| Prompts.AvailableTags | src/pages/PromptsPage.tsx:191 | duplicate-free, holds every tag of every prompt and nothing else, in first-seen order of the flattened tag list |
| Prompts.Providers | src/pages/PromptsPage.tsx:192 | `prompts.map(p => p.provider)`: one entry per prompt, in order, holding exactly the providers that occur |
| Prompts.AvailableProviders | src/pages/PromptsPage.tsx:192 | duplicate-free, holds exactly the providers occurring in the prompts, in first-seen order |
| Prompts.DefinedStructureTypes | src/pages/PromptsPage.tsx:193 | keeps exactly the structure types that are present and non-empty (`filter(Boolean)`) |
| Prompts.AvailableStructureTypes | src/pages/PromptsPage.tsx:193 | duplicate-free, never holds `""`, holds exactly the defined, non-empty structure types, in first-seen order |
| Prompts.PopularTags | src/pages/PromptsPage.tsx:356 | at most 10 chips, a prefix of the available tags, exactly 10 when at least 10 exist, every tag when there are at most 10, duplicate-free |
| Prompts.PromptFilters.constructor | src/pages/PromptsPage.tsx:18-23 | the page starts with empty query, every facet `"all"` and no tags |
| Prompts.PromptFilters.HandleTagSelect | src/pages/PromptsPage.tsx:195-201 | the selected tags become the toggle of the old selection, the other criteria are unchanged, and a duplicate-free selection stays duplicate-free |
| Tutorials.FilteredTutorials | src/pages/TutorialsPage.tsx:121-132 | the result is an order-preserving subsequence of the input, a tutorial is listed iff it is in the input and meets all four conditions, and no input gives no output |
| Tutorials.FilteredTutorialsConcat | src/pages/TutorialsPage.tsx:121 | filtering distributes over concatenation |
| Tutorials.SearchCondition | src/pages/TutorialsPage.tsx:122-125 | a listed tutorial has the lower-cased query inside its lower-cased title, description or author name |
| Tutorials.FacetConditions | src/pages/TutorialsPage.tsx:127-128 | a listed tutorial has exactly the selected category and difficulty unless these are `"all"` |
| Tutorials.DefaultCriteriaShowsAll | src/pages/TutorialsPage.tsx:121-132 | with the initial criteria every tutorial is listed, in order |
| Tutorials.ExtraTagNeverHides | src/pages/TutorialsPage.tsx:129 | adding a tag to a non-empty selection never removes a tutorial |
| Tutorials.FacetsOnlyNarrow | src/pages/TutorialsPage.tsx:127-128 | the result is a subsequence of the result with both facets set to `"all"` |
| Tutorials.TagsOnlyNarrow | src/pages/TutorialsPage.tsx:129 | the result under any tag selection is a subsequence of the result with no tag selected |
| Tutorials.Categories | src/pages/TutorialsPage.tsx:135 | `tutorials.map(t => t.category)`: one entry per tutorial, in order, holding exactly the categories that occur |
| Tutorials.AvailableCategories | src/pages/TutorialsPage.tsx:135 | duplicate-free, holds exactly the categories present in the tutorials, in first-seen order |
| Tutorials.AllTags | src/pages/TutorialsPage.tsx:136 | holds exactly the tags of all tutorials |
| Tutorials.AvailableTags | src/pages/TutorialsPage.tsx:136 | duplicate-free, exactly the tutorials' tags, in first-seen order |
| Catalog.FacetAll | src/pages/PromptsPage.tsx:175 | the `"all"` selection accepts every value |
| Catalog.FacetExact | src/pages/TutorialsPage.tsx:127-128 | any other selection accepts exactly the equal (case-sensitive) value |
| Catalog.EmptySearchMatches | src/pages/PromptsPage.tsx:170-173 | the empty query matches every record (`includes("")` is true) |
| Catalog.ExactOccurrenceMatches | src/pages/TutorialsPage.tsx:122-125 | a query occurring verbatim in a field matches |
| Catalog.SearchIgnoresCase | src/pages/TutorialsPage.tsx:122-125 | the search result does not change when the query or the fields are lower-cased first |
| Catalog.TagsAnyOf | src/pages/TutorialsPage.tsx:129 | with a non-empty selection, the tag test holds iff some selected tag is among the record's tags |
| Catalog.TagsMatchWiden | src/pages/TutorialsPage.tsx:129 | a record that passes a non-empty tag selection passes every wider selection |
| TutorialFilters.TutorialFilterState.constructor | src/pages/TutorialsPage.tsx:10-13 | the panel starts at `('', 'all', 'all', [])` with no active filter |
| TutorialFilters.TutorialFilterState.HasActiveFilters | src/components/tutorials/TutorialFilters.tsx:52-56 | true iff the criteria differ from `('', 'all', 'all', [])`, that is the query is non-empty, a facet is not `"all"` or a tag is selected |
| TutorialFilters.TutorialFilterState.ClearFilters | src/components/tutorials/TutorialFilters.tsx:33-38 | the criteria become `('', 'all', 'all', [])`, no filter is active and the invariant holds |
| TutorialFilters.TutorialFilterState.ToggleTag | src/components/tutorials/TutorialFilters.tsx:40-46 | the selection becomes the toggle of the old one, and a duplicate-free selection stays duplicate-free |
| TutorialFilters.TutorialFilterState.RemoveTag | src/components/tutorials/TutorialFilters.tsx:48-50 | the selection loses every occurrence of the tag and keeps everything else in order, and a duplicate-free selection stays duplicate-free |
| TutorialFilters.InactiveFiltersShowAll | src/components/tutorials/TutorialFilters.tsx:52-56 | when no filter is active, the tutorial list shows every tutorial |
| Lists.Filter | src/pages/PromptsPage.tsx:169 | `Array.prototype.filter`: no longer than the input, keeps exactly the elements satisfying the predicate, and is a subsequence of the input |
| Lists.FilterMonotone | src/pages/TutorialsPage.tsx:121 | a weaker predicate keeps a supersequence of what a stronger one keeps |
| Lists.FilterIdempotent | src/pages/TutorialsPage.tsx:121 | filtering twice with the same predicate equals filtering once |
| Lists.FilterKeepsNoDup | src/components/tutorials/TutorialFilters.tsx:49 | filtering a duplicate-free list yields a duplicate-free list |
| Lists.Distinct | src/pages/PromptsPage.tsx:190-193 | `[...new Set(xs)]`: the same elements, no duplicates, a subsequence of the input, in the order of first occurrence |
| Lists.Take | src/pages/PromptsPage.tsx:356 | `slice(0, n)`: a prefix of at most `n` elements, the whole list when it is shorter, exactly `n` otherwise |
| Lists.RemoveAll | src/components/tutorials/TutorialFilters.tsx:48-50 | the element no longer occurs, every other element keeps its membership, and the result is a subsequence |
| Lists.RemoveAllIdempotent | src/components/tutorials/TutorialFilters.tsx:48-50 | removing the same tag twice equals removing it once |
| Lists.RemoveAllAbsent | src/components/tutorials/TutorialFilters.tsx:48-50 | removing an absent tag leaves the list unchanged |
| Lists.RemoveAllLength | src/components/tutorials/TutorialFilters.tsx:48-50 | on a duplicate-free list, removal shortens the list by one iff the tag was present |
| Lists.Toggle | src/components/tutorials/TutorialFilters.tsx:40-46 | the tag's membership flips, every other tag keeps its membership, and an absent tag is appended at the end (length grows by one) |
| Lists.ToggleKeepsOthers | src/pages/PromptsPage.tsx:195-201 | apart from the toggled tag the list is unchanged, order included |
| Lists.ToggleKeepsNoDup | src/pages/PromptsPage.tsx:195-201 | toggling keeps a duplicate-free list duplicate-free |
| Lists.ToggleTwiceAbsent | src/pages/PromptsPage.tsx:195-201 | toggling an absent tag twice restores the list |
| Lists.ToggleTwicePresent | src/pages/PromptsPage.tsx:195-201 | toggling a present tag twice moves it to the end |
| Lists.ToggleTwiceReorders | src/pages/PromptsPage.tsx:195-201 | for `["a", "b"]` and `"a"`, toggling twice gives `["b", "a"]` |
| Text.Lower | src/pages/TutorialsPage.tsx:123 | `toLowerCase` on ASCII: same length, each character mapped by the ASCII letter mapping |
| Text.LowerIdempotent | src/pages/TutorialsPage.tsx:123 | lower-casing twice equals lower-casing once |
| Text.ContainsIff | src/pages/TutorialsPage.tsx:123 | `includes` holds iff the substring occurs at some position |
| Text.ContainsLower | src/pages/TutorialsPage.tsx:123 | an occurrence survives lower-casing both strings |
| Text.Trim | src/pages/SubmitTutorialPage.tsx:42 | `trim`: a slice of the input whose removed ends are whitespace and whose own ends are not, empty iff the input is all whitespace |
| Text.TrimIdempotent | src/pages/SubmitTutorialPage.tsx:42 | trimming twice equals trimming once |
| Text.UpperFirst | src/components/prompts/PromptCard.tsx:134 | same length, first character upper-cased, rest unchanged |
| SubmitTutorial.AddTagTo | src/pages/SubmitTutorialPage.tsx:41-49 | the old tags are kept as a prefix, one tag is appended iff the trimmed entry is non-empty and new, and the added tag is the trimmed entry |
| SubmitTutorial.BlankEntryAddsNothing | src/pages/SubmitTutorialPage.tsx:42 | a whitespace-only entry leaves the tags unchanged |
| SubmitTutorial.AddTagKeepsWellFormed | src/pages/SubmitTutorialPage.tsx:41-49 | adding keeps the tags duplicate-free and free of blank entries |
| SubmitTutorial.RemoveTagKeepsWellFormed | src/pages/SubmitTutorialPage.tsx:51-56 | removing keeps the tags duplicate-free and free of blank entries |
| SubmitTutorial.OptionalFields | src/pages/SubmitTutorialPage.tsx:66 | the required-field check ignores githubUrl and tags |
| SubmitTutorial.WhitespacePasses | src/pages/SubmitTutorialPage.tsx:66 | whitespace-only required fields pass, because the check is truthiness only |
| SubmitTutorial.Outcome | src/pages/SubmitTutorialPage.tsx:58-105 | auth required iff signed out; missing information iff signed in and a required field is empty; submitted iff signed in, complete and the call succeeds; failed otherwise |
| SubmitTutorial.TutorialSubmission.constructor | src/pages/SubmitTutorialPage.tsx:17-28 | empty form, empty tag entry, dialog closed, not loading |
| SubmitTutorial.TutorialSubmission.AddTag | src/pages/SubmitTutorialPage.tsx:41-49 | only the tags change, to `AddTagTo` of the old tags and entry; the entry is cleared iff a tag was added; well-formed tags stay well-formed |
| SubmitTutorial.TutorialSubmission.RemoveTag | src/pages/SubmitTutorialPage.tsx:51-56 | only the tags change: the removed tag is gone, the other tags and every other field are unchanged |
| SubmitTutorial.TutorialSubmission.HandleSubmit | src/pages/SubmitTutorialPage.tsx:58-105 | the outcome follows `Outcome`. Signed out: the dialog opens and the form is unchanged. Missing information: nothing changes. Success: the form resets to empty. Failure: the form is kept. Loading is off afterwards |
| PromptCard.IsOwnerIff | src/components/prompts/PromptCard.tsx:22 | owner iff a user is signed in and their id equals the author id |
| PromptCard.PrivateVisibleIffOwner | src/components/prompts/PromptCard.tsx:22 | a private prompt is visible in the catalogue iff the viewer is its owner |
| PromptCard.ProviderLabel | src/components/prompts/PromptCard.tsx:134 | same length as the provider, first character upper-cased, rest unchanged, equal to the provider ignoring case |
| PromptCard.ProviderLabels | src/components/prompts/PromptCard.tsx:134 | `openai` shows as `Openai`, `anthropic` as `Anthropic` |
| PromptCard.TagSection | src/components/prompts/PromptCard.tsx:145-162 | no tag strip without tags; at most 3 shown, a prefix of the tags; a `+n` badge iff more than 3, with `n = \|tags\| - 3`; shown plus `n` account for every tag |
| PromptCard.RunEnd | src/components/prompts/PromptCard.tsx:169 | the end of the maximal run of characters other than `}` |
| PromptCard.MatchAt | src/components/prompts/PromptCard.tsx:169 | a match starts with `{{`, has a non-empty name free of `}`, and ends with `}}` within the text |
| PromptCard.Variables | src/components/prompts/PromptCard.tsx:169 | every extracted name is non-empty and contains no `}` |
| PromptCard.VariableOccurs | src/components/prompts/PromptCard.tsx:169 | for every text, each extracted name `v` occurs in the text as `{{v}}` |
| PromptCard.VariablesNeedPanel | src/components/prompts/PromptCard.tsx:165-169 | variables are found only when the text contains `{{`, the condition for showing the panel |
| PromptCard.UnclosedShowsEmptyPanel | src/components/prompts/PromptCard.tsx:165-169 | `{{x` shows the panel with no variable in it |
| PromptCard.LiteralSkipped | src/components/prompts/PromptCard.tsx:169 | text without `{` contributes no variable |
| PromptCard.PlaceholderFound | src/components/prompts/PromptCard.tsx:169 | `{{n}}` with a proper name yields `n` and the scan continues after it |
| PromptCard.VariablesOfRender | src/components/prompts/PromptCard.tsx:169 | the variables of a rendered well-formed template are its placeholder names in order, repeats kept |
| PromptCard.RepeatsKept | src/components/prompts/PromptCard.tsx:169 | a repeated placeholder is listed twice |
| Catalog.FacetMatches | src/pages/PromptsPage.tsx:175-177 | a facet test: `"all"` or equality; its properties are `Catalog.FacetAll` and `Catalog.FacetExact` |
| Catalog.SearchMatches | src/pages/TutorialsPage.tsx:122-125 | the lower-cased query inside the lower-cased title, description or author name; properties in `Catalog.EmptySearchMatches`, `Catalog.ExactOccurrenceMatches`, `Catalog.SearchIgnoresCase` |
| Catalog.TagsMatch | src/pages/TutorialsPage.tsx:129 | no tag selected, or some selected tag among the record's tags; properties in `Catalog.TagsAnyOf`, `Catalog.TagsMatchWiden` |
| Prompts.StructureTypeMatches | src/pages/PromptsPage.tsx:178 | `"all"`, or a present structure type equal to the selection; its property is `Prompts.MissingStructureType` |
| Prompts.CanView | src/pages/PromptsPage.tsx:182-183 | public, or private and authored by the viewer; properties in `Prompts.PrivateHiddenFromOthers`, `Prompts.SignedOutSeesOnlyPublic`, `Prompts.ListedPrivateIsOwn` |
| Prompts.PromptMatches | src/pages/PromptsPage.tsx:170-186 | the conjunction of the seven tests; its use is stated by `Prompts.FilteredPrompts` |
| Prompts.Truthy | src/pages/PromptsPage.tsx:193 | `Boolean` of an optional string: present and non-empty; its use is stated by `Prompts.DefinedStructureTypes` |
| Tutorials.TutorialMatches | src/pages/TutorialsPage.tsx:122-131 | the conjunction of the four tests; its use is stated by `Tutorials.FilteredTutorials` |
| PromptCard.IsOwner | src/components/prompts/PromptCard.tsx:22 | `user?.id === prompt.author_id`; its property is `PromptCard.IsOwnerIff` |
| PromptCard.ShowsVariables | src/components/prompts/PromptCard.tsx:165 | `content.includes('{{')`; properties in `PromptCard.VariablesNeedPanel`, `PromptCard.UnclosedShowsEmptyPanel` |
| SubmitTutorial.AcceptsTag | src/pages/SubmitTutorialPage.tsx:42 | the trimmed entry is non-empty and not yet a tag; its use is stated by `SubmitTutorial.AddTagTo` |
| SubmitTutorial.MissingRequired | src/pages/SubmitTutorialPage.tsx:66 | some required field is the empty string; properties in `SubmitTutorial.OptionalFields`, `SubmitTutorial.WhitespacePasses` |
| Navigation.IsActive | src/components/layout/Navigation.tsx:41-44 | `isActive`: exact match for `/`, otherwise a prefix match; properties in the `Navigation` lemmas below |
| Text.Contains | src/pages/TutorialsPage.tsx:123 | `includes`; its meaning is `Text.ContainsIff` |
| Text.StartsWith | src/components/layout/Navigation.tsx:43 | `startsWith`: the prefix is the text's first characters; its use is stated by `Navigation.PrefixActive` |
| Lists.Map | src/pages/PromptsPage.tsx:190 | `Array.prototype.map`: same length, each element mapped in place |
| Lists.FlatMap | src/pages/PromptsPage.tsx:191 | `Array.prototype.flatMap`: holds exactly the elements of the mapped lists |
| Lists.FilterNone | src/pages/PromptsPage.tsx:169 | a predicate no element meets leaves nothing |
| Text.UpperFirstIdempotent | src/components/prompts/PromptCard.tsx:134 | an already capitalised provider label is shown unchanged |
| Text.TrimmedNotBlank | src/pages/SubmitTutorialPage.tsx:42 | a non-empty trimmed entry is not whitespace-only |
| Navigation.RootActiveOnlyOnRoot | src/components/layout/Navigation.tsx:42 | `/` is active iff the pathname is exactly `/` |
| Navigation.PrefixActive | src/components/layout/Navigation.tsx:43 | any other path is active iff the pathname starts with it |
| Navigation.ActiveOnExtension | src/components/layout/Navigation.tsx:43 | a non-root path is active on itself and on every extension |
| Navigation.OnlyHomeOnRoot | src/components/layout/Navigation.tsx:33-44 | on `/` only the Home item is active |
| Navigation.AtMostOneActive | src/components/layout/Navigation.tsx:33-44 | no pathname activates two navigation items |
| Navigation.SegmentsNotConsidered | src/components/layout/Navigation.tsx:35-43 | `/tutorials` is not active on `/tutorial/1` but is active on `/tutorialsX` |
| Scenarios.SearchIsCaseInsensitive | src/pages/TutorialsPage.tsx:19-45 | on two small records modelled on the first two sample tutorials, searching `chain` lists only the Chain-of-Thought one |
| Scenarios.TagSelection | src/pages/TutorialsPage.tsx:19-45 | on the same two small records, selecting `learning` lists only the Few-Shot one |
| Scenarios.PrivatePromptScenario | src/pages/PromptsPage.tsx:182-186 | two small prompts, one public and one private (not the sample prompts): the private one's author sees both, another user or nobody signed in sees the public one |
| Scenarios.UnsetStructureType | src/pages/PromptsPage.tsx:178 | a prompt without structure type disappears under `few-shot` and is listed under `all` |
| Scenarios.EmptyInput | src/pages/PromptsPage.tsx:169 | no prompts in, no prompts out |
| Scenarios.EmailVariables | src/components/prompts/PromptCard.tsx:169 | an e-mail template with three placeholders yields them in order |

## Left out

- JSX rendering, CSS classes, the Tabs/Select/Badge widgets and animation are presentation. The hero components and the Home, About, Pricing and create/edit pages are presentation only and are not part of this model.
- The simulated loading with `setTimeout` is a timer effect. Record lists are parameters instead. The sample records of the pages are not reproduced; `Scenarios` uses small records modelled on them.
- The Supabase client, the auth context, toasts and the clipboard are foreign calls. The signed-in user is a parameter (`Option<string>`).
- `toLowerCase` and `toUpperCase` cover ASCII letters only. Full Unicode case mapping is out of scope.
- The input `onChange` setters of the filter panel and the form only assign a field, so they are not modelled as operations.
- React batches state updates and re-renders between `await`s. `HandleSubmit` models the handler's steps in order on one object. It does not model interleaving with other events while the call is pending.
- `src/components/tutorials/TutorialCard.tsx` is not part of this model. It repeats the three-tag truncation of the prompt card.
- Date formatting and Markdown rendering on the tutorial detail page are library calls and are not modelled. The `is_approved` flag of a tutorial is a record field the catalogue never consults.
- A prompt's `parameters` are an opaque map of numbers. The card does not use them.
- SubmitTutorial.TutorialSubmission.HandleSubmit: the source makes no API call. It awaits a `setTimeout` promise that always resolves (`src/pages/SubmitTutorialPage.tsx:79`), so its error branch cannot be reached as written. The model keeps that branch behind the parameter `callSucceeds`. With `callSucceeds` true it is exactly the code as written, and `SubmitFailed` is the outcome a real failing call would give.
- SearchIsCaseInsensitive (`Scenarios.SearchIsCaseInsensitive`): proved on two small records, not on the six sample tutorials of `src/pages/TutorialsPage.tsx:16-105`. The records keep the categories and two of the tags but shorten the titles and leave description and author empty.
- TagSelection (`Scenarios.TagSelection`): proved on the same two small records, not on the six sample tutorials.
- Prompts.PromptFilters.HandleTagSelect, TutorialFilters.TutorialFilterState.ToggleTag, TutorialFilters.TutorialFilterState.RemoveTag, SubmitTutorial.TutorialSubmission.AddTag and SubmitTutorial.TutorialSubmission.RemoveTag: they do not model that React hands each handler its state from the render in which it was created. Two events within one render would therefore both start from the same list or form.
