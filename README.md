# Post list filter of the blog's `PostSection` component

The blog's post index renders a `PostSection` React component. It holds the
full, fixed list of posts and shows a filtered view of it. The user either
types a query into the search box, which keeps the posts whose title contains
the query, ignoring case, or clicks a tag chip, which keeps the posts carrying
that tag. Clicking the chip that is already selected goes back to the full
list.

The model has three modules:

- `Sequences` (Sequences.dfy) gives the meaning of `Array.prototype.filter`
  with a side-effect-free callback: `Filter`, and the subsequence relation
  `Subseq` it produces. `FilterUnique` characterises `Filter` independently:
  it is the only subsequence that holds every kept element exactly as often
  as the input, and nothing else.
- `Text` (Text.dfy) models `toLowerCase` as an ASCII fold (`Lower`) and
  `String.prototype.includes` as substring containment (`Includes`).
- `PostList` (PostList.dfy) holds the component:
  - `Post` is the post metadata the list uses: slug, title and tags.
  - `TitleMatches` and `TagMatches` are the two filter callbacks, and
    `SearchResults` and `TagResults` are the lists they select.
  - `FilterState` holds the three state variables, `inputValue`,
    `selectedTag` and `filteredPosts`.
  - `Mount`, `InputChange`, `ToggleTag` and `TagEffect` are the transitions
    as pure functions.
  - The class `PostSection` has the three state variables as mutable fields.
    Its methods `HandleInputChange`, `HandleSelectedTag` and
    `SelectedTagEffect` are the two handlers and the effect on `[selectedTag]`.
    Each method is proved to produce the state its transition function gives.
  - `TagChips`, `PostHref` and `PostItems` are the render mapping: the tag
    chips and the two links of each list entry.

React's state setters and the `[selectedTag]` effect are treated as one
atomic transition. Each handler records the tag it started from. At its end,
the effect runs synchronously: it acts only if the tag changed and the new
tag is non-empty. After `handleInputChange` the tag is always empty, so the
effect never acts there (`InputChangeOutcome`).

Behaviour of the code that the model keeps as written:

- The tag filter lower-cases only the selected tag. The post's own tags are
  compared as they are. A post tagged `"React"` is therefore not shown when
  the `"React"` chip is selected, unless it also carries `"react"`
  (`TagCaseAsymmetry`, `SingleTagMatch`). Selecting a tag and selecting its
  lower-case form show the same posts (`TagSelectionCaseInsensitive`).
- Clicking the same non-empty tag twice restores the full list with an empty
  query only when the tag was not already selected. When it was already
  selected, the first click deselects it and the second click selects it
  again. The empty-string chip is drawn selected while no tag is selected;
  two clicks on it then show all posts and keep the query (`ToggleTwice`).
- A click on the empty-string tag while no tag is selected resets the list to
  all posts but keeps the typed query, so the list no longer matches the
  query (`EmptyChipWithQueryExample`).
- A click on the empty-string tag while another tag is selected clears the
  tag, but the effect does not run its filter for an empty tag, so that
  tag's posts stay on screen with no filter active (`EmptyChipKeepsTagPosts`,
  `EmptyChipStaleExample`).
- Apart from clicks on the empty-string chip (in either of the two cases
  above), every reachable state shows exactly the list its query or tag asks
  for (`ReachableShows`).

## Model

| member | source | states |
|---|---|---|
| `Sequences.Subseq` | src/components/PostSection.tsx:50-52 | the order-preserving relation between a filtered list and its source: a subsequence never holds an element more often than the source |
| `Sequences.Filter` | src/components/PostSection.tsx:50-52 | the result of `filter` is a subsequence of the input holding each element the callback accepts exactly as often as the input, and no other element |
| `Sequences.FilterUnique` | src/components/PostSection.tsx:50-52 | any subsequence of the input with those multiplicities is the filter result, so the filtered list is determined uniquely, order included |
| `Text.LowerChar` | src/components/PostSection.tsx:51 | lower-casing leaves no upper-case ASCII letter, maps each upper-case letter to its lower-case form and leaves every other character unchanged |
| `Text.Lower` | src/components/PostSection.tsx:51 | the lower-cased string has the same length, is lower-cased character by character, contains no upper-case letter, and a string without upper-case letters is returned unchanged |
| `Text.LowerIdempotent` | src/components/PostSection.tsx:51 | lower-casing a lower-cased string changes nothing |
| `Text.Includes` | src/components/PostSection.tsx:51 | substring containment: the empty string is contained in every string, and a longer string never is |
| `Text.FirstCharAbsent` | src/components/PostSection.tsx:51 | a query whose first character never appears in the title is not contained in it |
| `PostList.TitleMatches` | src/components/PostSection.tsx:51 | the search callback: the lower-cased title contains the lower-cased query; the empty query matches every post and a query longer than the title matches none |
| `PostList.TagMatches` | src/components/PostSection.tsx:74 | the tag callback: the post's tag list holds the lower-cased tag; only a post tag without upper-case letters can match, and when all of a post's tags are lower-case the match ignores case |
| `PostList.SearchResults` | src/components/PostSection.tsx:50-52 | the search shows an order-preserving subsequence of the posts: every post whose lower-cased title contains the lower-cased query, as often as in the list, and only such posts |
| `PostList.TagResults` | src/components/PostSection.tsx:73-75 | the tag filter shows an order-preserving subsequence of the posts: every post whose tag list holds the lower-cased tag, as often as in the list, and only such posts |
| `PostList.SearchResultsCharacterized` | src/components/PostSection.tsx:50-53 | a list is the search result if and only if it is a subsequence of the posts with exactly the matching posts at their multiplicities |
| `PostList.TagResultsCharacterized` | src/components/PostSection.tsx:73-76 | a list is the tag result if and only if it is a subsequence of the posts with exactly the posts carrying the lower-cased tag at their multiplicities |
| `PostList.EmptySearchShowsAll` | src/components/PostSection.tsx:50-52 | the empty query matches every post, so the search shows all posts in their original order |
| `PostList.UnknownTagShowsNothing` | src/components/PostSection.tsx:73-76 | a tag that no post carries in lower-cased form shows an empty list |
| `PostList.TagSelectionCaseInsensitive` | src/components/PostSection.tsx:74 | the case of the selected tag does not matter: it matches the same posts as its lower-case form |
| `PostList.TagCaseAsymmetry` | src/components/PostSection.tsx:74 | the post's tags are not lower-cased: a post tagged only "React" does not match the selected tag "React" |
| `PostList.SingleTagMatch` | src/components/PostSection.tsx:74 | for a post whose only tag is the clicked one, the click matches it exactly when that tag has no upper-case letter |
| `PostList.Inv` | src/components/PostSection.tsx:46-78 | the shape every reachable state keeps: query and tag never both set, the list a subsequence of the posts, so no post shown more often than it occurs |
| `PostList.Shows` | src/components/PostSection.tsx:41-78 | the visible list is the one the filter state asks for (the tag result with an empty query, otherwise the search result for the query); this implies `Inv` |
| `PostList.Mount` | src/components/PostSection.tsx:41-43 | on mount the query and the tag are empty and the list is what the empty filter state shows, all posts |
| `PostList.TagEffect` | src/components/PostSection.tsx:69-78 | the effect never changes the tag; it is inert unless the tag changed to a non-empty value, and then it clears the query and shows the tag result |
| `PostList.InputChange` | src/components/PostSection.tsx:45-54 | typing stores the query, clears the tag and shows the search result for the query |
| `PostList.ToggleTag` | src/components/PostSection.tsx:56-78 | clicking the selected tag clears it, any other click selects the clicked tag, and the invariant is kept |
| `PostList.InputChangeOutcome` | src/components/PostSection.tsx:45-54 | typing sets the query, clears the tag and shows the search result on the full list, whatever the prior state; the tag effect stays inert |
| `PostList.EmptyInputShowsAll` | src/components/PostSection.tsx:45-54 | clearing the search box shows every post in order, from any state |
| `PostList.ToggleTagOutcome` | src/components/PostSection.tsx:56-78 | clicking the selected tag deselects it and shows all posts with the query untouched; clicking another non-empty tag selects it, clears the query and shows the tag result; clicking the empty tag only clears the selection |
| `PostList.ToggleTagShows` | src/components/PostSection.tsx:56-78 | a click on a non-empty tag keeps the visible list the one the filter state asks for |
| `PostList.EmptyChipKeepsTagPosts` | src/components/PostSection.tsx:56-78 | clicking the empty-string chip while a tag is selected only clears the tag, so the list matches the filter state afterwards only if the tag's posts were all posts |
| `PostList.EmptyChipStaleExample` | src/components/PostSection.tsx:56-78 | a concrete run: select "x", then click the empty chip; no filter is active but a post stays hidden |
| `PostList.EmptyChipWithQueryExample` | src/components/PostSection.tsx:57-59 | a concrete run: search "astro", then click the empty chip with no tag selected; all posts are shown while the query "astro" stays |
| `PostList.Run` | src/components/PostSection.tsx:41-78 | every state reached from mount by any sequence of typing and clicks satisfies the invariant |
| `PostList.ReachableShows` | src/components/PostSection.tsx:41-78 | every state reached without clicking the empty-string chip shows exactly the list its filter state asks for |
| `PostList.ToggleTwice` | src/components/PostSection.tsx:56-78 | two clicks on a tag that was not selected end with no tag, no query and all posts; two clicks on the selected tag end with that tag selected again |
| `PostList.SearchExample` | src/components/PostSection.tsx:50-52 | on the two example posts, the search for "astro" shows only "Astro Basics" |
| `PostList.SearchThenToggleExample` | src/components/PostSection.tsx:45-78 | on two posts, searching "astro" shows only "Astro Basics"; a click on "react" shows both and clears the query; a second click shows all posts again |
| `PostList.PostSection.constructor` | src/components/PostSection.tsx:41-43 | on mount the state is `Mount(posts)`: query and tag empty, all posts shown; the invariant holds |
| `PostList.PostSection.HandleInputChange` | src/components/PostSection.tsx:45-54 | the handler sets the query, clears the tag and shows the search result, keeping the invariant |
| `PostList.PostSection.HandleSelectedTag` | src/components/PostSection.tsx:56-63 | the handler followed by the tag effect produces the state `ToggleTag` gives, keeping the invariant |
| `PostList.PostSection.SelectedTagEffect` | src/components/PostSection.tsx:69-78 | when the tag changed and is non-empty, the effect clears the query and shows the tag result; otherwise it changes nothing |
| `PostList.TagChips` | src/components/PostSection.tsx:91-107 | one chip per catalogue tag, in catalogue order |
| `PostList.SelectedChip` | src/components/PostSection.tsx:91-107 | a chip is drawn selected exactly when its tag equals the selected tag, and some chip is selected exactly when the selected tag is in the catalogue |
| `PostList.AtMostOneSelectedChip` | src/components/PostSection.tsx:91-107 | with distinct catalogue tags at most one chip is selected |
| `PostList.PostHref` | src/components/PostSection.tsx:112 | a post's address is "/blog/", then the slug, then "/" |
| `PostList.PostHrefInjective` | src/components/PostSection.tsx:112 | different slugs give different addresses |
| `PostList.PostItems` | src/components/PostSection.tsx:110-134 | one entry per visible post, in order, with its title; the title link and the "continue reading" link both point to the post's address |

## Left out

- The styled `Chip` variants (src/components/PostSection.tsx:18-31) are styling only.
- Dark-mode detection (src/components/PostSection.tsx:65-67) reads a class off the document root. That is state outside the component, and it only selects CSS class names.
- The publish date (src/components/PostSection.tsx:118-122) is formatted by the locale library, which is not part of this model.
- The snippet text (src/components/PostSection.tsx:125) is not modelled. With no snippet, the template literal renders `"undefined..."`; the model makes no claim about it.
- React scheduling and batching: a handler's state setters and the `[selectedTag]` effect form one atomic, synchronous transition.
- The `posts` prop is a constant of the model. In the component, only the initial `filteredPosts` (src/components/PostSection.tsx:42) captures the prop at mount; the search, the deselect branch and the effect read the current prop, so after a change of the prop the list on screen is stale until the next search or click on a non-empty tag. Changes of the prop are not modelled.
- `Post` makes the slug, the title and the tags mandatory strings and a list of strings. The component takes `posts` as `any[]`; a post without `data.title` or `data.tags` makes the search or the tag filter throw (src/components/PostSection.tsx:51, 74). That error path is not modelled.
- `Text.LowerChar`: folds ASCII letters only. The Unicode case mapping of `toLowerCase` is not modelled.
- `Text.Lower`: keeps the length of the string, because the fold is ASCII-only. `toLowerCase` can change the length (for instance "İ" becomes two code units), so `Text.Lower`'s length clause and `PostList.TitleMatches`' clause that a query longer than the title matches none hold only for the ASCII fold.
- `PostList.TitleMatches`: its clause that a query longer than the title matches none rests on the length-keeping ASCII fold of `Text.Lower`; under the full `toLowerCase` a title can grow when lower-cased.
- `Text.Includes`: compares sequences of Unicode scalar values. JavaScript strings are sequences of UTF-16 code units, and `includes` and `===` compare code units; the model does not capture differences that only show on unpaired surrogates or on matches that split a surrogate pair.
- src/components/Comments.tsx (the comments embed configuration) and astro.config.mjs (build configuration) hold no filtering logic and are not part of this model.
