/**
 The post list of the blog's `PostSection` component: a free-text search on
 post titles and a tag toggle, both deriving the visible list from the full,
 fixed list of posts.

 The component state is a class with the three state variables of the
 component; each handler is a method, and the effect that reacts to a change
 of the selected tag runs synchronously at the end of each handler. Every
 method is specified by a pure transition on `FilterState`, and the
 properties of the component are lemmas about those transitions.
 */
module PostList {
  import opened Sequences
  import opened Text

  /** The metadata of one blog post that the list uses. */
  datatype Post = Post(slug: string, title: string, tags: seq<string>)

  // ---------------------------------------------------------------------
  // The two filter predicates and the lists they select
  // ---------------------------------------------------------------------

  /** The search matches a post when its lower-cased title contains the
      lower-cased query. The empty query matches every post, and a query
      longer than the title matches none. */
  predicate TitleMatches(p: Post, query: string): (b: bool)
    ensures query == "" ==> b
    ensures b ==> |query| <= |p.title|
  {
    Includes(Lower(p.title), Lower(query))
  }

  /** The tag filter matches a post when its tag list holds the lower-cased
      selected tag. The post's own tags are compared as they are: only a
      post tag without upper-case letters can match, and when all of a
      post's tags are lower-case the match ignores case altogether. */
  predicate TagMatches(p: Post, tag: string): (b: bool)
    ensures b ==> exists t :: t in p.tags && IsLowerCase(t) && Lower(t) == Lower(tag)
    ensures (forall t :: t in p.tags ==> IsLowerCase(t)) ==>
      (b <==> exists t :: t in p.tags && Lower(t) == Lower(tag))
  {
    LowerIdempotent(tag);
    Lower(tag) in p.tags
  }

  /** The posts a free-text search shows: the matching posts, each as often
      as in `posts`, in their original order. */
  function SearchResults(posts: seq<Post>, query: string): (r: seq<Post>)
    ensures Subseq(r, posts)
    ensures forall p :: multiset(r)[p] == if TitleMatches(p, query) then multiset(posts)[p] else 0
    ensures forall p :: p in r ==> TitleMatches(p, query)
  {
    Filter(posts, p => TitleMatches(p, query))
  }

  /** The posts a selected tag shows: the matching posts, each as often as
      in `posts`, in their original order. */
  function TagResults(posts: seq<Post>, tag: string): (r: seq<Post>)
    ensures Subseq(r, posts)
    ensures forall p :: multiset(r)[p] == if TagMatches(p, tag) then multiset(posts)[p] else 0
    ensures forall p :: p in r ==> TagMatches(p, tag)
  {
    Filter(posts, p => TagMatches(p, tag))
  }

  /** The search result is exactly the order-preserving selection of the
      posts whose title matches: no other list has both properties. */
  lemma {:induction false} SearchResultsCharacterized(posts: seq<Post>, query: string, r: seq<Post>)
    ensures r == SearchResults(posts, query) <==>
      Subseq(r, posts) &&
      forall p :: multiset(r)[p] == if TitleMatches(p, query) then multiset(posts)[p] else 0
  {
    if Subseq(r, posts) &&
       forall p :: multiset(r)[p] == if TitleMatches(p, query) then multiset(posts)[p] else 0
    {
      FilterUnique(r, posts, p => TitleMatches(p, query));
    }
  }

  /** The tag result is exactly the order-preserving selection of the posts
      whose tag list holds the lower-cased tag. */
  lemma {:induction false} TagResultsCharacterized(posts: seq<Post>, tag: string, r: seq<Post>)
    ensures r == TagResults(posts, tag) <==>
      Subseq(r, posts) &&
      forall p :: multiset(r)[p] == if TagMatches(p, tag) then multiset(posts)[p] else 0
  {
    if Subseq(r, posts) &&
       forall p :: multiset(r)[p] == if TagMatches(p, tag) then multiset(posts)[p] else 0
    {
      FilterUnique(r, posts, p => TagMatches(p, tag));
    }
  }

  /** The empty query matches every post, so the search shows the full list. */
  lemma {:induction false} EmptySearchShowsAll(posts: seq<Post>)
    ensures SearchResults(posts, "") == posts
  {
    FilterAll(posts, p => TitleMatches(p, ""));
  }

  /** A tag no post carries (after lower-casing the selection) shows nothing. */
  lemma UnknownTagShowsNothing(posts: seq<Post>, tag: string)
    requires forall p :: p in posts ==> Lower(tag) !in p.tags
    ensures TagResults(posts, tag) == []
  {
  }

  /** Only the selection is lower-cased: selecting a tag and selecting its
      lower-case form match the same posts. */
  lemma TagSelectionCaseInsensitive(p: Post, tag: string)
    ensures TagMatches(p, tag) <==> TagMatches(p, Lower(tag))
  {
  }

  /** The post's own tags are not lower-cased: a post tagged only "React" is
      not shown when "React" is selected. */
  lemma TagCaseAsymmetry()
    ensures !TagMatches(Post("p", "P", ["React"]), "React")
  {
    assert Lower("React")[0] == 'r';
  }

  /** For a post with a single tag, clicking that very tag matches it exactly
      when the tag has no upper-case letter. */
  lemma SingleTagMatch(p: Post, tag: string)
    requires p.tags == [tag]
    ensures TagMatches(p, tag) <==> IsLowerCase(tag)
  {
  }

  // ---------------------------------------------------------------------
  // Component state and its transitions
  // ---------------------------------------------------------------------

  /** The three state variables of the component. */
  datatype FilterState = FilterState(inputValue: string, selectedTag: string, filteredPosts: seq<Post>)

  /** What every reachable state satisfies: the query and the tag are never
      both set, and the visible list is a subsequence of the posts, so it
      never shows a post more often than the posts hold it. */
  predicate Inv(posts: seq<Post>, s: FilterState): (b: bool)
    ensures b ==> multiset(s.filteredPosts) <= multiset(posts)
  {
    (s.selectedTag == "" || s.inputValue == "") && Subseq(s.filteredPosts, posts)
  }

  /** The visible list is the one the filter state asks for: the tag result
      with an empty query when a tag is selected, the search result for the
      query otherwise (all posts when the query is empty too). */
  predicate Shows(posts: seq<Post>, s: FilterState): (b: bool)
    ensures b ==> Inv(posts, s)
  {
    if s.selectedTag != "" then
      s.inputValue == "" && s.filteredPosts == TagResults(posts, s.selectedTag)
    else
      s.filteredPosts == SearchResults(posts, s.inputValue)
  }

  /** The state on mount: no query, no tag, every post, which is what the
      empty filter state shows. */
  function Mount(posts: seq<Post>): (r: FilterState)
    ensures r.inputValue == "" && r.selectedTag == ""
    ensures Shows(posts, r)
  {
    EmptySearchShowsAll(posts);
    FilterState("", "", posts)
  }

  /** The effect on `selectedTag`: it runs when the tag differs from `prevTag`,
      the tag before the handler ran, and only acts on a non-empty tag. It
      never changes the tag; when it acts, the tag's posts are shown with an
      empty query. */
  function TagEffect(posts: seq<Post>, prevTag: string, s: FilterState): (r: FilterState)
    ensures r.selectedTag == s.selectedTag
    ensures s.selectedTag == prevTag || s.selectedTag == "" ==> r == s
    ensures s.selectedTag != prevTag && s.selectedTag != "" ==> Shows(posts, r)
  {
    if s.selectedTag != prevTag && s.selectedTag != "" then
      FilterState("", s.selectedTag, TagResults(posts, s.selectedTag))
    else
      s
  }

  /** `handleInputChange` followed by the tag effect: the query is stored,
      the tag cleared, and the search result for the query shown. */
  function InputChange(posts: seq<Post>, s: FilterState, query: string): (r: FilterState)
    ensures r.inputValue == query && r.selectedTag == ""
    ensures Shows(posts, r)
  {
    TagEffect(posts, s.selectedTag, FilterState(query, "", SearchResults(posts, query)))
  }

  /** `handleSelectedTag` followed by the tag effect: clicking the selected
      tag clears it, any other click selects the clicked tag; the invariant
      is kept. */
  function ToggleTag(posts: seq<Post>, s: FilterState, tag: string): (r: FilterState)
    ensures r.selectedTag == if tag == s.selectedTag then "" else tag
    ensures Inv(posts, s) ==> Inv(posts, r)
  {
    SubseqRefl(posts);
    var handled :=
      if tag == s.selectedTag then s.(selectedTag := "", filteredPosts := posts)
      else s.(selectedTag := tag);
    TagEffect(posts, s.selectedTag, handled)
  }

  /** A search clears the tag, stores the query and shows the search result,
      whatever the state before: the result does not depend on it. */
  lemma InputChangeOutcome(posts: seq<Post>, s: FilterState, query: string)
    ensures InputChange(posts, s, query) == FilterState(query, "", SearchResults(posts, query))
  {
  }

  /** Clearing the search box shows every post, in order, from any state. */
  lemma {:induction false} EmptyInputShowsAll(posts: seq<Post>, s: FilterState)
    ensures InputChange(posts, s, "") == FilterState("", "", posts)
  {
    EmptySearchShowsAll(posts);
  }

  /** The three outcomes of a tag click. */
  lemma ToggleTagOutcome(posts: seq<Post>, s: FilterState, tag: string)
    ensures tag == s.selectedTag ==>
      ToggleTag(posts, s, tag) == s.(selectedTag := "", filteredPosts := posts)
    ensures tag != s.selectedTag && tag != "" ==>
      ToggleTag(posts, s, tag) == FilterState("", tag, TagResults(posts, tag))
    ensures tag != s.selectedTag && tag == "" ==>
      ToggleTag(posts, s, tag) == s.(selectedTag := "")
  {
  }

  /** A click on a non-empty tag keeps the visible list the one the filter
      state asks for. */
  lemma {:induction false} ToggleTagShows(posts: seq<Post>, s: FilterState, tag: string)
    requires Shows(posts, s)
    requires tag != ""
    ensures Shows(posts, ToggleTag(posts, s, tag))
  {
    EmptySearchShowsAll(posts);
  }

  /** A click on the empty-string chip while another tag is selected clears
      the tag but leaves that tag's posts on screen: the list then matches the
      (empty) filter state only if the tag's posts were all of the posts. */
  lemma {:induction false} EmptyChipKeepsTagPosts(posts: seq<Post>, s: FilterState)
    requires Shows(posts, s)
    requires s.selectedTag != ""
    ensures ToggleTag(posts, s, "") == s.(selectedTag := "")
    ensures Shows(posts, ToggleTag(posts, s, "")) <==> TagResults(posts, s.selectedTag) == posts
  {
    EmptySearchShowsAll(posts);
  }

  /** A concrete run where the empty-string chip leaves a stale list: with
      "x" selected only the first post shows, and after the empty chip no
      filter is active yet the second post is still hidden. */
  lemma EmptyChipStaleExample()
    ensures var posts := [Post("a", "A", ["x"]), Post("b", "B", [])];
      var afterEmpty := ToggleTag(posts, ToggleTag(posts, Mount(posts), "x"), "");
      afterEmpty == FilterState("", "", [posts[0]]) && !Shows(posts, afterEmpty)
  {
  }

  /** A click on the empty-string chip while no tag is selected takes the
      deselect branch: every post is shown, yet the typed query stays, so
      the list no longer matches the query. */
  lemma {:induction false} EmptyChipWithQueryExample()
    ensures var afterSearch := InputChange(ExamplePosts, Mount(ExamplePosts), "astro");
      var afterEmpty := ToggleTag(ExamplePosts, afterSearch, "");
      afterEmpty == FilterState("astro", "", ExamplePosts) && !Shows(ExamplePosts, afterEmpty)
  {
    SearchExample();
    var afterSearch := InputChange(ExamplePosts, Mount(ExamplePosts), "astro");
    InputChangeOutcome(ExamplePosts, Mount(ExamplePosts), "astro");
    ToggleTagOutcome(ExamplePosts, afterSearch, "");
  }

  /** A user action: typing a query, or clicking a tag chip. */
  datatype Event = Typed(query: string) | Clicked(tag: string)

  function Step(posts: seq<Post>, s: FilterState, e: Event): FilterState {
    match e
    case Typed(query) => InputChange(posts, s, query)
    case Clicked(tag) => ToggleTag(posts, s, tag)
  }

  /** The state after mounting and then handling `events` in order; every
      such state satisfies the invariant. */
  function Run(posts: seq<Post>, events: seq<Event>): (r: FilterState)
    ensures Inv(posts, r)
    decreases |events|
  {
    if events == [] then Mount(posts)
    else Step(posts, Run(posts, events[..|events| - 1]), events[|events| - 1])
  }

  /** As long as the empty-string chip is never clicked, every reachable
      state shows exactly the list its filter state asks for. */
  lemma {:induction false} ReachableShows(posts: seq<Post>, events: seq<Event>)
    requires forall k :: 0 <= k < |events| ==> events[k] != Clicked("")
    ensures Shows(posts, Run(posts, events))
    decreases |events|
  {
    if events != [] {
      var prefix := events[..|events| - 1];
      ReachableShows(posts, prefix);
      var e := events[|events| - 1];
      if e.Clicked? {
        ToggleTagShows(posts, Run(posts, prefix), e.tag);
      }
    }
  }

  /** Clicking the same tag twice. From a state where the tag is not the
      selected one, the second click deselects it and every post is shown
      with an empty query; when it was already selected, the first click
      deselects it and the second selects it again. */
  lemma ToggleTwice(posts: seq<Post>, s: FilterState, tag: string)
    requires Inv(posts, s)
    ensures tag != s.selectedTag ==>
      ToggleTag(posts, ToggleTag(posts, s, tag), tag) == FilterState("", "", posts)
    ensures tag == s.selectedTag && tag != "" ==>
      ToggleTag(posts, ToggleTag(posts, s, tag), tag) == FilterState("", tag, TagResults(posts, tag))
    ensures tag == s.selectedTag && tag == "" ==>
      ToggleTag(posts, ToggleTag(posts, s, tag), tag) == s.(filteredPosts := posts)
  {
  }

  /** Two posts for the worked run below. */
  const ExamplePosts := [Post("hello-world", "Hello World", ["react"]),
                         Post("astro-basics", "Astro Basics", ["astro", "react"])]

  /** Searching the two example posts for "astro" shows only "Astro Basics". */
  lemma {:induction false} SearchExample()
    ensures SearchResults(ExamplePosts, "astro") == [ExamplePosts[1]]
  {
    var hello, astro := ExamplePosts[0], ExamplePosts[1];
    assert Lower("astro") == "astro";
    assert TitleMatches(astro, "astro") by {
      assert Lower(astro.title)[0..5] == "astro";
      assert OccursAt(Lower(astro.title), Lower("astro"), 0);
    }
    assert !TitleMatches(hello, "astro") by {
      var t := Lower(hello.title);
      forall i | 0 <= i < |t| ensures t[i] != 'a' {
        assert hello.title[i] != 'a' && hello.title[i] != 'A';
      }
      FirstCharAbsent(t, Lower("astro"));
    }
    assert multiset(ExamplePosts) == multiset{hello, astro};
    assert Subseq([astro], ExamplePosts);
    SearchResultsCharacterized(ExamplePosts, "astro", [astro]);
  }

  /** A worked run on the two example posts: a search for "astro", then two
      clicks on "react". The first click shows both posts and clears the
      query; the second shows all posts with no filter. */
  lemma {:induction false} SearchThenToggleExample()
    ensures var afterSearch := InputChange(ExamplePosts, Mount(ExamplePosts), "astro");
      var afterClick := ToggleTag(ExamplePosts, afterSearch, "react");
      afterSearch == FilterState("astro", "", [ExamplePosts[1]]) &&
      afterClick == FilterState("", "react", ExamplePosts) &&
      ToggleTag(ExamplePosts, afterClick, "react") == FilterState("", "", ExamplePosts)
  {
    var posts := ExamplePosts;
    SearchExample();
    var afterSearch := InputChange(posts, Mount(posts), "astro");
    InputChangeOutcome(posts, Mount(posts), "astro");
    assert Lower("react") == "react";
    assert TagMatches(posts[0], "react") && TagMatches(posts[1], "react");
    SubseqRefl(posts);
    TagResultsCharacterized(posts, "react", posts);
    ToggleTagOutcome(posts, afterSearch, "react");
    ToggleTagOutcome(posts, ToggleTag(posts, afterSearch, "react"), "react");
  }

  // ---------------------------------------------------------------------
  // The component
  // ---------------------------------------------------------------------

  class PostSection {
    const posts: seq<Post>
    var inputValue: string
    var selectedTag: string
    var filteredPosts: seq<Post>

    function State(): FilterState
      reads this
    {
      FilterState(inputValue, selectedTag, filteredPosts)
    }

    predicate Valid()
      reads this
    {
      Inv(posts, State())
    }

    constructor (posts: seq<Post>)
      ensures this.posts == posts
      ensures State() == Mount(posts)
      ensures Valid()
    {
      this.posts := posts;
      inputValue := "";
      selectedTag := "";
      filteredPosts := posts;
    }

    /** Typing in the search box. */
    method HandleInputChange(query: string)
      modifies this
      ensures State() == InputChange(posts, old(State()), query)
      ensures inputValue == query && selectedTag == ""
      ensures filteredPosts == SearchResults(posts, query)
      ensures Valid()
    {
      var prevTag := selectedTag;
      selectedTag := "";
      inputValue := query;
      filteredPosts := SearchResults(posts, query);
      SelectedTagEffect(prevTag);
    }

    /** Clicking a tag chip. */
    method HandleSelectedTag(tag: string)
      requires Valid()
      modifies this
      ensures State() == ToggleTag(posts, old(State()), tag)
      ensures Valid()
    {
      var prevTag := selectedTag;
      if tag == selectedTag {
        selectedTag := "";
        filteredPosts := posts;
      } else {
        selectedTag := tag;
      }
      SelectedTagEffect(prevTag);
    }

    /** The effect that reacts to `selectedTag`, given its value at the
        previous render. */
    method SelectedTagEffect(prevTag: string)
      modifies this
      ensures State() == TagEffect(posts, prevTag, old(State()))
    {
      if selectedTag != prevTag && selectedTag != "" {
        inputValue := "";
        filteredPosts := TagResults(posts, selectedTag);
      }
    }
  }

  // ---------------------------------------------------------------------
  // What the list renders
  // ---------------------------------------------------------------------

  /** A tag chip: its tag and whether it is drawn as selected. */
  datatype Chip = Chip(tag: string, selected: bool)

  /** One chip per tag of the catalogue, in catalogue order. */
  function TagChips(tags: seq<string>, selectedTag: string): (r: seq<Chip>)
    ensures |r| == |tags|
    ensures forall i :: 0 <= i < |r| ==> r[i].tag == tags[i]
  {
    seq(|tags|, i requires 0 <= i < |tags| => Chip(tags[i], tags[i] == selectedTag))
  }

  /** Some chip is drawn selected exactly when the selected tag is one of the
      catalogue's tags, and then that chip is the one showing that tag. */
  lemma SelectedChip(tags: seq<string>, selectedTag: string)
    ensures (exists i :: 0 <= i < |tags| && TagChips(tags, selectedTag)[i].selected) <==> selectedTag in tags
    ensures forall i :: 0 <= i < |tags| ==>
      (TagChips(tags, selectedTag)[i].selected <==> TagChips(tags, selectedTag)[i].tag == selectedTag)
  {
    if selectedTag in tags {
      var i :| 0 <= i < |tags| && tags[i] == selectedTag;
      assert TagChips(tags, selectedTag)[i].selected;
    }
  }

  /** With a catalogue of distinct tags at most one chip is selected. */
  lemma AtMostOneSelectedChip(tags: seq<string>, selectedTag: string, i: int, j: int)
    requires forall a, b :: 0 <= a < b < |tags| ==> tags[a] != tags[b]
    requires 0 <= i < |tags| && 0 <= j < |tags|
    requires TagChips(tags, selectedTag)[i].selected && TagChips(tags, selectedTag)[j].selected
    ensures i == j
  {
  }

  /** The address of a post's page. */
  function PostHref(slug: string): (r: string)
    ensures |r| == |slug| + 7
    ensures r[..6] == "/blog/" && r[|r| - 1] == '/'
    ensures r[6..|r| - 1] == slug
  {
    "/blog/" + slug + "/"
  }

  /** Different slugs give different addresses. */
  lemma PostHrefInjective(a: string, b: string)
    requires PostHref(a) == PostHref(b)
    ensures a == b
  {
  }

  /** One list entry: the title link, the title and the "continue reading" link. */
  datatype PostItem = PostItem(titleHref: string, title: string, continueHref: string)

  /** The list entries for the visible posts, in order. */
  function PostItems(filtered: seq<Post>): (r: seq<PostItem>)
    ensures |r| == |filtered|
    ensures forall i :: 0 <= i < |r| ==>
      r[i].title == filtered[i].title &&
      r[i].titleHref == r[i].continueHref == PostHref(filtered[i].slug)
  {
    seq(|filtered|, i requires 0 <= i < |filtered| =>
      var href := PostHref(filtered[i].slug);
      PostItem(href, filtered[i].title, href))
  }
}
