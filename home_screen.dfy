/** The post-list screen: a client-side filter over the fetched posts (by exact
    category name and by case-insensitive title substring), and the screen state
    written by the mount-time fetches, guarded by the `isMounted` flag that the
    effect's cleanup clears. */
module HomeScreen {
  import opened Common

  // ---------------------------------------------------------------------------
  // Lower-casing and substring search
  // ---------------------------------------------------------------------------

  /** `toLowerCase` on one character, restricted to ASCII letters. */
  function LowerChar(c: char): char {
    if 'A' <= c <= 'Z' then (c as int + 32) as char else c
  }

  function Lower(s: string): (r: string)
    ensures |r| == |s|
    ensures forall i :: 0 <= i < |s| ==> r[i] == LowerChar(s[i])
  {
    if s == [] then [] else [LowerChar(s[0])] + Lower(s[1..])
  }

  /** `text.includes(query)`: `query` occurs in `text` at some position
      (the empty query occurs everywhere). */
  predicate Contains(text: string, query: string)
    ensures query == [] ==> Contains(text, query)
    ensures Contains(text, query) ==> |query| <= |text|
    decreases |text|
  {
    query <= text || (text != [] && Contains(text[1..], query))
  }

  /** `query` occurs in `text` starting at position `i`. */
  predicate OccursAt(text: string, query: string, i: nat) {
    i + |query| <= |text| && text[i..i + |query|] == query
  }

  /** `Contains` means: `query` occurs in `text` at some position. */
  lemma {:induction false} ContainsAt(text: string, query: string)
    ensures Contains(text, query) <==> exists i: nat :: OccursAt(text, query, i)
    decreases |text|
  {
    if query <= text {
      assert OccursAt(text, query, 0);
    } else if text != [] {
      ContainsAt(text[1..], query);
      if Contains(text[1..], query) {
        var i: nat :| OccursAt(text[1..], query, i);
        assert OccursAt(text, query, i + 1) by {
          assert text[i + 1..i + 1 + |query|] == text[1..][i..i + |query|];
        }
      }
      if exists i: nat :: OccursAt(text, query, i) {
        var i: nat :| OccursAt(text, query, i);
        assert i != 0;
        assert OccursAt(text[1..], query, i - 1) by {
          assert text[1..][i - 1..i - 1 + |query|] == text[i..i + |query|];
        }
      }
    } else {
      assert forall i: nat :: !OccursAt(text, query, i);
    }
  }

  /** A query whose first character does not occur in `text` is not contained. */
  lemma {:induction false} FirstCharAbsent(text: string, query: string)
    requires query != [] && query[0] !in text
    ensures !Contains(text, query)
    decreases |text|
  {
    if text != [] {
      assert text[0] in text;
      FirstCharAbsent(text[1..], query);
    }
  }

  // ---------------------------------------------------------------------------
  // Filter criteria
  // ---------------------------------------------------------------------------

  /** One predicate over posts: accept all, exact category name, lower-cased
      title containing the lower-cased query, or both of two criteria. */
  datatype Criterion =
    | Everything
    | CategoryIs(name: string)
    | TitleHas(query: string)
    | Both(first: Criterion, second: Criterion)

  predicate Accepts(c: Criterion, p: Post)
    ensures c.Everything? ==> Accepts(c, p)
    ensures c.TitleHas? && Accepts(c, p) ==> |c.query| <= |p.title|
  {
    match c
    case Everything => true
    case CategoryIs(name) => p.categoryName == name
    case TitleHas(query) => Contains(Lower(p.title), Lower(query))
    case Both(a, b) => Accepts(a, p) && Accepts(b, p)
  }

  /** `posts.filter(p => Accepts(c, p))`. */
  function Select(posts: seq<Post>, c: Criterion): (r: seq<Post>)
    ensures |r| <= |posts|
    ensures forall p :: p in r <==> p in posts && Accepts(c, p)
  {
    if posts == [] then []
    else
      var rest := Select(posts[1..], c);
      assert forall p :: p in posts <==> p == posts[0] || p in posts[1..];
      if Accepts(c, posts[0]) then [posts[0]] + rest else rest
  }

  /** The criterion a pair of filter inputs stands for: an empty input is off. */
  function ActiveCriterion(filterCategory: string, filterTitle: string): (c: Criterion)
    ensures forall p :: Accepts(c, p) <==>
      && (Truthy(filterCategory) ==> p.categoryName == filterCategory)
      && (Truthy(filterTitle) ==> Contains(Lower(p.title), Lower(filterTitle)))
  {
    Both(if Truthy(filterCategory) then CategoryIs(filterCategory) else Everything,
         if Truthy(filterTitle) then TitleHas(filterTitle) else Everything)
  }

  /** `handleFilter`: start from the whole `posts` list, keep the posts of the
      selected category when one is selected, then keep the posts whose title
      contains the query when one is typed. */
  function HandleFilter(posts: seq<Post>, filterCategory: string, filterTitle: string): (filtered: seq<Post>)
    ensures forall p :: p in filtered <==>
      && p in posts
      && (Truthy(filterCategory) ==> p.categoryName == filterCategory)
      && (Truthy(filterTitle) ==> Contains(Lower(p.title), Lower(filterTitle)))
  {
    var byCategory := if Truthy(filterCategory) then Select(posts, CategoryIs(filterCategory)) else posts;
    if Truthy(filterTitle) then Select(byCategory, TitleHas(filterTitle)) else byCategory
  }

  // ---------------------------------------------------------------------------
  // Properties of the filter
  // ---------------------------------------------------------------------------

  lemma {:induction false} SelectIsSubsequence(posts: seq<Post>, c: Criterion)
    ensures IsSubsequence(Select(posts, c), posts)
    decreases |posts|
  {
    if posts != [] {
      SelectIsSubsequence(posts[1..], c);
      var r := Select(posts, c);
      if Accepts(c, posts[0]) {
        assert r[1..] == Select(posts[1..], c);
      } else if r != [] {
        assert r == Select(posts[1..], c);
        SelectMembersFirst(posts, c);
      }
    }
  }

  /** `.filter` keeps every copy of an accepted post and no copy of a
      rejected one. */
  lemma {:induction false} SelectCounts(posts: seq<Post>, c: Criterion, p: Post)
    ensures multiset(Select(posts, c))[p] == if Accepts(c, p) then multiset(posts)[p] else 0
    decreases |posts|
  {
    if posts != [] {
      SelectCounts(posts[1..], c, p);
      assert posts == [posts[0]] + posts[1..];
    }
  }

  /** When the head of `posts` is rejected, the head of the selection is not it,
      so the subsequence relation skips it. */
  lemma SelectMembersFirst(posts: seq<Post>, c: Criterion)
    requires posts != [] && !Accepts(c, posts[0]) && Select(posts, c) != []
    ensures Select(posts, c)[0] != posts[0]
  {
    assert Select(posts, c)[0] in Select(posts, c);
  }

  /** Filtering twice in sequence is filtering once by the conjunction. */
  lemma {:induction false} SelectThenSelect(posts: seq<Post>, a: Criterion, b: Criterion)
    ensures Select(Select(posts, a), b) == Select(posts, Both(a, b))
    decreases |posts|
  {
    if posts != [] {
      SelectThenSelect(posts[1..], a, b);
      if Accepts(a, posts[0]) {
        assert Select(posts, a) == [posts[0]] + Select(posts[1..], a);
        assert Select(posts, a)[1..] == Select(posts[1..], a);
      }
    }
  }

  /** Selection depends on the criterion only through what it accepts. */
  lemma {:induction false} SelectSameAcceptance(posts: seq<Post>, a: Criterion, b: Criterion)
    requires forall p :: Accepts(a, p) <==> Accepts(b, p)
    ensures Select(posts, a) == Select(posts, b)
    decreases |posts|
  {
    if posts != [] {
      SelectSameAcceptance(posts[1..], a, b);
    }
  }

  lemma {:induction false} SelectEverything(posts: seq<Post>)
    ensures Select(posts, Everything) == posts
    decreases |posts|
  {
    if posts != [] {
      SelectEverything(posts[1..]);
    }
  }

  /** Applying an already satisfied criterion again changes nothing. */
  lemma {:induction false} SelectIdempotent(posts: seq<Post>, c: Criterion)
    ensures Select(Select(posts, c), c) == Select(posts, c)
  {
    SelectThenSelect(posts, c, c);
    SelectSameAcceptance(posts, Both(c, c), c);
  }

  /** The two-step filter is one pass with the active criteria combined; in
      particular it is computed from `posts` alone. */
  lemma HandleFilterIsSelect(posts: seq<Post>, filterCategory: string, filterTitle: string)
    ensures HandleFilter(posts, filterCategory, filterTitle) == Select(posts, ActiveCriterion(filterCategory, filterTitle))
  {
    var cat := if Truthy(filterCategory) then CategoryIs(filterCategory) else Everything;
    var title := if Truthy(filterTitle) then TitleHas(filterTitle) else Everything;
    SelectThenSelect(posts, cat, title);
    SelectEverything(posts);
    SelectEverything(Select(posts, cat));
  }

  /** With both inputs empty the filtered list is the whole list, in order. */
  lemma HandleFilterNoInputs(posts: seq<Post>)
    ensures HandleFilter(posts, "", "") == posts
  {
  }

  /** The filtered list is an order-preserving subsequence of `posts`. */
  lemma HandleFilterSubsequence(posts: seq<Post>, filterCategory: string, filterTitle: string)
    ensures IsSubsequence(HandleFilter(posts, filterCategory, filterTitle), posts)
  {
    var byCategory := if Truthy(filterCategory) then Select(posts, CategoryIs(filterCategory)) else posts;
    if Truthy(filterCategory) {
      SelectIsSubsequence(posts, CategoryIs(filterCategory));
    } else {
      SubsequenceReflexive(posts);
    }
    if Truthy(filterTitle) {
      SelectIsSubsequence(byCategory, TitleHas(filterTitle));
      SubsequenceTransitive(Select(byCategory, TitleHas(filterTitle)), byCategory, posts);
    }
  }

  /** Each post appears in the filtered list as many times as in `posts` when
      it passes the active inputs, and not at all otherwise. */
  lemma HandleFilterCounts(posts: seq<Post>, filterCategory: string, filterTitle: string, p: Post)
    ensures multiset(HandleFilter(posts, filterCategory, filterTitle))[p] ==
            if (Truthy(filterCategory) ==> p.categoryName == filterCategory)
               && (Truthy(filterTitle) ==> Contains(Lower(p.title), Lower(filterTitle)))
            then multiset(posts)[p] else 0
  {
    HandleFilterIsSelect(posts, filterCategory, filterTitle);
    SelectCounts(posts, ActiveCriterion(filterCategory, filterTitle), p);
  }

  /** Filtering by title first and by category second gives the same list. */
  lemma HandleFilterOrderIndependent(posts: seq<Post>, filterCategory: string, filterTitle: string)
    ensures HandleFilter(posts, filterCategory, filterTitle) ==
            Select(Select(posts, if Truthy(filterTitle) then TitleHas(filterTitle) else Everything),
                   if Truthy(filterCategory) then CategoryIs(filterCategory) else Everything)
  {
    var cat := if Truthy(filterCategory) then CategoryIs(filterCategory) else Everything;
    var title := if Truthy(filterTitle) then TitleHas(filterTitle) else Everything;
    HandleFilterIsSelect(posts, filterCategory, filterTitle);
    SelectThenSelect(posts, title, cat);
    SelectSameAcceptance(posts, Both(title, cat), Both(cat, title));
  }

  /** Filtering the filtered list again with the same inputs changes nothing. */
  lemma HandleFilterIdempotent(posts: seq<Post>, filterCategory: string, filterTitle: string)
    ensures HandleFilter(HandleFilter(posts, filterCategory, filterTitle), filterCategory, filterTitle) ==
            HandleFilter(posts, filterCategory, filterTitle)
  {
    var c := ActiveCriterion(filterCategory, filterTitle);
    HandleFilterIsSelect(posts, filterCategory, filterTitle);
    HandleFilterIsSelect(Select(posts, c), filterCategory, filterTitle);
    SelectIdempotent(posts, c);
  }

  /** "Algebra" matches the title query "alg" case-insensitively. */
  lemma AlgebraMatchesAlg()
    ensures Accepts(TitleHas("alg"), Post(1, "Algebra", "", "", "Math"))
  {
    assert Lower("alg") == "alg";
    assert Lower("Algebra") == "algebra";
    assert "alg" <= "algebra";
  }

  /** "Poetry" does not match the title query "alg". */
  lemma PoetryMissesAlg()
    ensures !Accepts(TitleHas("alg"), Post(2, "Poetry", "", "", "Art"))
  {
    assert Lower("alg") == "alg";
    assert Lower("Poetry") == "poetry";
    assert 'a' !in "poetry";
    FirstCharAbsent("poetry", "alg");
  }

  /** Two posts, "Algebra" in "Math" and "Poetry" in "Art": the title query
      "alg" keeps only the first. */
  lemma AlgebraPoetryByTitle()
    ensures var algebra := Post(1, "Algebra", "", "", "Math");
            var poetry := Post(2, "Poetry", "", "", "Art");
            HandleFilter([algebra, poetry], "", "alg") == [algebra]
  {
    var algebra := Post(1, "Algebra", "", "", "Math");
    var poetry := Post(2, "Poetry", "", "", "Art");
    AlgebraMatchesAlg();
    PoetryMissesAlg();
    assert [algebra, poetry][1..] == [poetry];
    assert Select([poetry], TitleHas("alg")) == [];
  }

  /** The same two posts: the category "Art" keeps only the second. */
  lemma AlgebraPoetryByCategory()
    ensures var algebra := Post(1, "Algebra", "", "", "Math");
            var poetry := Post(2, "Poetry", "", "", "Art");
            HandleFilter([algebra, poetry], "Art", "") == [poetry]
  {
    var algebra := Post(1, "Algebra", "", "", "Math");
    var poetry := Post(2, "Poetry", "", "", "Art");
    assert [algebra, poetry][1..] == [poetry];
    assert Select([poetry], CategoryIs("Art")) == [poetry];
  }

  // ---------------------------------------------------------------------------
  // Screen state
  // ---------------------------------------------------------------------------

  /** The state of one mounted post-list screen. `shownCategory` and
      `shownTitle` record the filter inputs that produced `filteredPosts`. */
  class PostList {
    var posts: seq<Post>
    var categories: seq<string>
    var filteredPosts: seq<Post>
    var filterCategory: string
    var filterTitle: string
    var showModal: bool
    var isMounted: bool
    ghost var shownCategory: string
    ghost var shownTitle: string

    /** The displayed list is always the filter of the full list by some inputs. */
    ghost predicate Valid()
      reads this
    {
      filteredPosts == HandleFilter(posts, shownCategory, shownTitle)
    }

    /** Mounting: every state starts empty and the effect sets `isMounted`. */
    constructor ()
      ensures Valid()
      ensures posts == [] && categories == [] && filteredPosts == []
      ensures filterCategory == "" && filterTitle == "" && !showModal && isMounted
    {
      posts, categories, filteredPosts := [], [], [];
      filterCategory, filterTitle, showModal := "", "", false;
      isMounted := true;
      shownCategory, shownTitle := "", "";
    }

    /** The displayed list is an order-preserving subsequence of `posts`. */
    lemma ShownIsSubsequence()
      requires Valid()
      ensures IsSubsequence(filteredPosts, posts)
      ensures |filteredPosts| <= |posts| && forall p :: p in filteredPosts ==> p in posts
    {
      HandleFilterSubsequence(posts, shownCategory, shownTitle);
      SubsequenceMembers(filteredPosts, posts);
    }

    /** The categories fetch completed with `data` (None: it failed and was
        only logged). The write happens only while mounted. */
    method CategoriesArrived(data: Option<seq<string>>)
      requires Valid()
      modifies this
      ensures Valid()
      ensures categories == if isMounted && data.Some? then data.value else old(categories)
      ensures posts == old(posts) && filteredPosts == old(filteredPosts)
      ensures filterCategory == old(filterCategory) && filterTitle == old(filterTitle)
      ensures showModal == old(showModal) && isMounted == old(isMounted)
    {
      if data.Some? && isMounted {
        categories := data.value;
      }
    }

    /** The posts fetch completed with `data`. While mounted, both the source
        list and the displayed list become `data`, unfiltered. */
    method PostsArrived(data: Option<seq<Post>>)
      requires Valid()
      modifies this
      ensures Valid()
      ensures posts == if isMounted && data.Some? then data.value else old(posts)
      ensures filteredPosts == if isMounted && data.Some? then data.value else old(filteredPosts)
      ensures categories == old(categories)
      ensures filterCategory == old(filterCategory) && filterTitle == old(filterTitle)
      ensures showModal == old(showModal) && isMounted == old(isMounted)
    {
      if data.Some? && isMounted {
        posts := data.value;
        filteredPosts := data.value;
        shownCategory, shownTitle := "", "";
        HandleFilterNoInputs(posts);
      }
    }

    /** The effect's cleanup: later completions write nothing. */
    method Unmount()
      requires Valid()
      modifies this`isMounted
      ensures Valid() && !isMounted
    {
      isMounted := false;
    }

    /** Typing in the title box (`onChangeText={setFilterTitle}`). */
    method SetFilterTitle(text: string)
      requires Valid()
      modifies this`filterTitle
      ensures Valid() && filterTitle == text
    {
      filterTitle := text;
    }

    /** The "Filtro" button opens the category modal; "Fechar" closes it. */
    method SetShowModal(visible: bool)
      requires Valid()
      modifies this`showModal
      ensures Valid() && showModal == visible
    {
      showModal := visible;
    }

    /** `handleFilter`: only `filteredPosts` is written, and it is recomputed
        from `posts`, not from the previous `filteredPosts`. */
    method Filter()
      requires Valid()
      modifies this
      ensures Valid()
      ensures filteredPosts == HandleFilter(posts, filterCategory, filterTitle)
      ensures posts == old(posts) && categories == old(categories)
      ensures filterCategory == old(filterCategory) && filterTitle == old(filterTitle)
      ensures showModal == old(showModal) && isMounted == old(isMounted)
    {
      filteredPosts := HandleFilter(posts, filterCategory, filterTitle);
      shownCategory, shownTitle := filterCategory, filterTitle;
    }

    /** Pressing a category in the modal: select it, close the modal, filter.
        The filter is applied with the newly selected category. */
    method SelectCategory(category: string)
      requires Valid()
      modifies this
      ensures Valid()
      ensures filterCategory == category && !showModal
      ensures filteredPosts == HandleFilter(posts, category, filterTitle)
      ensures posts == old(posts) && categories == old(categories)
      ensures filterTitle == old(filterTitle) && isMounted == old(isMounted)
    {
      filterCategory := category;
      showModal := false;
      Filter();
    }
  }
}
