/**
 * The blog index's pagination bookkeeping (src/pages/BlogList.jsx): the query parameters of a page request,
 * the merge of fetched posts deduplicated by slug, the offset and "has more" updates, the reset on a new
 * search or category, and "load more". Requests to the content store are split into the moment a fetch
 * starts (loading flag raised, parameters built) and the moment its response or failure arrives.
 */
module BlogList {
  import opened Wrappers
  import opened Seqs
  import opened Text

  const PAGE_SIZE: int := 9
  /** The category value that means "no category filter". */
  const ALL: string := "All"

  /** A post as the list query projects it; the image, categories and tags are carried through untouched and left out. */
  datatype Post = Post(slug: string, title: string, excerpt: string, publishedAt: string)

  /** The query parameters `$q`, `$offset`, `$end` and `$categoryId`. */
  datatype Params = Params(q: string, offset: int, end: int, categoryId: Option<string>)

  /** The search pattern: the trimmed term followed by `*`, or empty for a missing or blank term. */
  function SearchPattern(term: Option<string>): (q: string)
    ensures q == "" <==> term.None? || IsBlank(term.value)
    ensures q != "" ==> q == Trim(term.value) + "*"
  {
    if term.Some? && Trim(term.value) != "" then Trim(term.value) + "*" else ""
  }

  /** The parameters of a request for the page starting at `startFrom`. */
  function BuildParams(term: Option<string>, startFrom: int, category: string): (p: Params)
    ensures p.offset == startFrom && p.end == startFrom + PAGE_SIZE - 1
    ensures p.end - p.offset + 1 == PAGE_SIZE
    ensures p.categoryId.None? <==> category == ALL
    ensures p.categoryId.Some? ==> p.categoryId.value == category
    ensures p.q == SearchPattern(term)
  {
    Params(SearchPattern(term), startFrom, startFrom + PAGE_SIZE - 1, if category != ALL then Some(category) else None)
  }

  // ---------------------------------------------------------------------------------------------
  // Deduplication by slug
  // ---------------------------------------------------------------------------------------------

  function Slugs(ps: seq<Post>): (s: seq<string>)
    ensures |s| == |ps| && forall i :: 0 <= i < |ps| ==> s[i] == ps[i].slug
  {
    seq(|ps|, i requires 0 <= i < |ps| => ps[i].slug)
  }

  /** The last post in `ps` whose slug is `slug`: the value a slug-keyed `Map` keeps after `set` for every post. */
  function LastWith(ps: seq<Post>, slug: string): (p: Post)
    requires slug in Slugs(ps)
    ensures p.slug == slug
    decreases |ps|
  {
    var n := |ps| - 1;
    if ps[n].slug == slug then ps[n]
    else
      assert Slugs(ps) == Slugs(ps[..n]) + [ps[n].slug];
      LastWith(ps[..n], slug)
  }

  /** The post kept under a slug is one of the posts with that slug, and no later post has it. */
  lemma {:induction false} LastWithIsLast(ps: seq<Post>, slug: string)
    requires slug in Slugs(ps)
    ensures exists i :: 0 <= i < |ps| && ps[i] == LastWith(ps, slug) && forall j :: i < j < |ps| ==> ps[j].slug != slug
    decreases |ps|
  {
    var n := |ps| - 1;
    if ps[n].slug != slug {
      assert Slugs(ps) == Slugs(ps[..n]) + [ps[n].slug];
      LastWithIsLast(ps[..n], slug);
      var i :| 0 <= i < n && ps[..n][i] == LastWith(ps[..n], slug) && forall j :: i < j < n ==> ps[..n][j].slug != slug;
      assert ps[i] == LastWith(ps, slug);
    }
  }

  /**
   * The posts of `ps` with one entry per slug: slugs in order of first occurrence, each carrying the last post
   * with that slug (`Array.from(map.values())` after `map.set(p.slug, p)` for every post).
   */
  function Deduped(ps: seq<Post>): (r: seq<Post>)
    ensures Slugs(r) == Distinct(Slugs(ps))
    ensures forall i :: 0 <= i < |r| ==> r[i] == LastWith(ps, r[i].slug)
  {
    var keys := Distinct(Slugs(ps));
    seq(|keys|, i requires 0 <= i < |keys| => LastWith(ps, keys[i]))
  }

  /** What one more `map.set(p.slug, p)` does to the slug order and to the value kept under each slug. */
  lemma MergeStep(ps: seq<Post>, p: Post)
    ensures Distinct(Slugs(ps + [p])) == if p.slug in Slugs(ps) then Distinct(Slugs(ps)) else Distinct(Slugs(ps)) + [p.slug]
    ensures forall k :: k in Slugs(ps + [p]) ==> LastWith(ps + [p], k) == if k == p.slug then p else LastWith(ps, k)
  {
    assert Slugs(ps + [p]) == Slugs(ps) + [p.slug];
    assert (ps + [p])[..|ps|] == ps;
  }

  /** The merge of the posts update: insert every post under its slug, then list the map's values. */
  method MergeBySlug(next: seq<Post>) returns (r: seq<Post>)
    ensures r == Deduped(next)
  {
    var keys, vals := IndexBySlug(next);
    r := ValuesInOrder(keys, vals);
    assert forall m :: 0 <= m < |r| ==> r[m] == LastWith(next, keys[m]);
  }

  /** `keys` (in insertion order) and `vals` are the slug-keyed map after `set` for every post of `ps`. */
  ghost predicate Indexes(ps: seq<Post>, keys: seq<string>, vals: map<string, Post>) {
    && keys == Distinct(Slugs(ps))
    && (forall k :: k in vals <==> k in keys)
    && (forall k :: k in keys ==> vals[k] == LastWith(ps, k))
  }

  /**
   * `map.set(p.slug, p)` for every post in order: the map's keys in insertion order are the distinct slugs,
   * and each slug holds its last post.
   */
  method IndexBySlug(next: seq<Post>) returns (keys: seq<string>, vals: map<string, Post>)
    ensures keys == Distinct(Slugs(next))
    ensures forall k :: k in vals <==> k in keys
    ensures forall k :: k in keys ==> vals[k] == LastWith(next, k)
  {
    keys := [];
    vals := map[];
    ghost var seen: seq<Post> := [];
    var i := 0;
    while i < |next|
      invariant 0 <= i <= |next| && seen == next[..i]
      invariant Indexes(seen, keys, vals)
    {
      var p := next[i];
      keys, vals := SetBySlug(seen, keys, vals, p);
      seen := seen + [p];
      i := i + 1;
    }
    assert seen == next;
  }

  /** One `map.set(p.slug, p)`: a new slug is added at the end of the key order, an existing one keeps its place. */
  method SetBySlug(ghost ps: seq<Post>, keys: seq<string>, vals: map<string, Post>, p: Post)
    returns (keys': seq<string>, vals': map<string, Post>)
    requires Indexes(ps, keys, vals)
    ensures Indexes(ps + [p], keys', vals')
  {
    IndexStep(ps, p, keys, vals);
    keys' := if p.slug in vals then keys else keys + [p.slug];
    vals' := vals[p.slug := p];
  }

  /** One `map.set(p.slug, p)` keeps the index of the posts so far an index of the posts with `p` appended. */
  lemma IndexStep(ps: seq<Post>, p: Post, keys: seq<string>, vals: map<string, Post>)
    requires keys == Distinct(Slugs(ps))
    requires forall k :: k in vals <==> k in keys
    requires forall k :: k in keys ==> vals[k] == LastWith(ps, k)
    ensures var keys' := if p.slug in vals then keys else keys + [p.slug];
      && keys' == Distinct(Slugs(ps + [p]))
      && (forall k :: k in vals[p.slug := p] <==> k in keys')
      && (forall k :: k in keys' ==> vals[p.slug := p][k] == LastWith(ps + [p], k))
  {
    MergeStep(ps, p);
    var keys' := if p.slug in vals then keys else keys + [p.slug];
    var vals' := vals[p.slug := p];
    assert p.slug in vals <==> p.slug in Slugs(ps);
    assert keys' == Distinct(Slugs(ps + [p]));
    forall k | k in keys'
      ensures vals'[k] == LastWith(ps + [p], k)
    {
      assert k in Slugs(ps + [p]);
      if k != p.slug {
        assert k in keys;
      }
    }
  }

  /** `Array.from(map.values())`: the values of a map listed in the insertion order of their keys. */
  method ValuesInOrder(keys: seq<string>, vals: map<string, Post>) returns (r: seq<Post>)
    requires forall k :: k in keys ==> k in vals
    ensures |r| == |keys| && forall m :: 0 <= m < |keys| ==> r[m] == vals[keys[m]]
  {
    r := [];
    var j := 0;
    while j < |keys|
      invariant 0 <= j <= |keys|
      invariant |r| == j
      invariant forall m :: 0 <= m < j ==> r[m] == vals[keys[m]]
    {
      r := r + [vals[keys[j]]];
      j := j + 1;
    }
  }

  /** Merging never leaves two posts with the same slug. */
  lemma DedupedUnique(ps: seq<Post>)
    ensures NoDup(Slugs(Deduped(ps)))
  {
  }

  /** Merging loses no slug and invents none. */
  lemma DedupedSameSlugs(ps: seq<Post>, slug: string)
    ensures slug in Slugs(Deduped(ps)) <==> slug in Slugs(ps)
  {
  }

  /** Appending a page never moves the posts already listed: their slugs keep their positions at the front. */
  lemma AppendKeepsOrder(prev: seq<Post>, items: seq<Post>)
    requires NoDup(Slugs(prev))
    ensures Slugs(prev) <= Slugs(Deduped(prev + items))
  {
    DistinctOfNoDup(Slugs(prev));
    DistinctAppendPrefix(Slugs(prev), Slugs(items));
    assert Slugs(prev + items) == Slugs(prev) + Slugs(items);
  }

  /** A list whose slugs are already unique is left exactly as it is, so non-overlapping pages simply concatenate. */
  lemma DedupedOfUnique(ps: seq<Post>)
    requires NoDup(Slugs(ps))
    ensures Deduped(ps) == ps
  {
    DistinctOfNoDup(Slugs(ps));
    var r := Deduped(ps);
    forall i | 0 <= i < |ps|
      ensures r[i] == ps[i]
    {
      var p := LastWith(ps, ps[i].slug);
      LastWithIsLast(ps, ps[i].slug);
      var k :| 0 <= k < |ps| && ps[k] == p && forall j :: k < j < |ps| ==> ps[j].slug != ps[i].slug;
      assert Slugs(ps)[k] == Slugs(ps)[i];
    }
  }

  // ---------------------------------------------------------------------------------------------
  // The page
  // ---------------------------------------------------------------------------------------------

  /** A request sent to the content store: whether it appends, where the page starts, and its parameters. */
  datatype Request = Request(append: bool, startFrom: int, params: Params)

  /** What comes back: the page and the number of matching posts, or a failure. */
  datatype Response = Fetched(items: seq<Post>, total: int) | Failed

  class BlogListPage {
    var posts: seq<Post>
    var searchTerm: string
    var loading: bool
    var loadingMore: bool
    var offset: int
    var hasMore: bool
    var selectedCategory: string

    ghost predicate Valid()
      reads this
    {
      0 <= offset && NoDup(Slugs(posts))
    }

    constructor ()
      ensures Valid()
      ensures posts == [] && searchTerm == "" && loading && !loadingMore && offset == 0 && !hasMore
      ensures selectedCategory == ALL
    {
      posts := [];
      searchTerm := "";
      loading := true;
      loadingMore := false;
      offset := 0;
      hasMore := false;
      selectedCategory := ALL;
    }

    /** The start of `fetchPage`: raise the loading flag that matches `append` and build the request. */
    method StartFetch(append: bool, term: Option<string>, startFrom: int, category: string) returns (req: Request)
      modifies this`loading, this`loadingMore
      ensures append ==> loadingMore && loading == old(loading)
      ensures !append ==> loading && loadingMore == old(loadingMore)
      ensures req == Request(append, startFrom, BuildParams(term, startFrom, category))
    {
      if append {
        loadingMore := true;
      } else {
        loading := true;
      }
      req := Request(append, startFrom, BuildParams(term, startFrom, category));
    }

    /**
     * The end of `fetchPage`. On success the posts become the merged list, the offset moves past the page and
     * "has more" says whether posts remain; on failure they stay as they were. Either way only the loading
     * flag of this request is lowered.
     */
    method FinishFetch(req: Request, resp: Response)
      requires Valid() && req.startFrom >= 0
      modifies this`posts, this`offset, this`hasMore, this`loading, this`loadingMore
      ensures Valid()
      ensures resp.Fetched? ==> posts == Deduped(if req.append then old(posts) + resp.items else resp.items)
      ensures resp.Fetched? ==> offset == req.startFrom + |resp.items| && (hasMore <==> offset < resp.total)
      ensures resp.Failed? ==> posts == old(posts) && offset == old(offset) && hasMore == old(hasMore)
      ensures req.append ==> !loadingMore && loading == old(loading)
      ensures !req.append ==> !loading && loadingMore == old(loadingMore)
    {
      if resp.Fetched? {
        var next := if req.append then posts + resp.items else resp.items;
        posts := MergeBySlug(next);
        DedupedUnique(next);
        offset := req.startFrom + |resp.items|;
        hasMore := req.startFrom + |resp.items| < resp.total;
      }
      if req.append {
        loadingMore := false;
      } else {
        loading := false;
      }
    }

    /** The first page, requested on mount. */
    method Mount() returns (req: Request)
      modifies this`loading, this`loadingMore
      ensures loading && loadingMore == old(loadingMore)
      ensures req == Request(false, 0, Params("", 0, PAGE_SIZE - 1, None))
    {
      req := StartFetch(false, Some(""), 0, ALL);
    }

    method SetSearchTerm(term: string)
      modifies this`searchTerm
      ensures searchTerm == term
    {
      searchTerm := term;
    }

    /** The category buttons: select the category and reset the pagination. */
    method HandleCategoryChange(categoryId: string)
      requires Valid()
      modifies this`selectedCategory, this`offset, this`hasMore
      ensures Valid()
      ensures selectedCategory == categoryId && offset == 0 && hasMore
    {
      selectedCategory := categoryId;
      offset := 0;
      hasMore := true;
    }

    /** The debounced reaction to a new search term or category: reset and fetch the first page afresh. */
    method SearchSettled() returns (req: Request)
      requires Valid()
      modifies this`offset, this`hasMore, this`loading, this`loadingMore
      ensures Valid()
      ensures offset == 0 && hasMore && loading && loadingMore == old(loadingMore)
      ensures req == Request(false, 0, BuildParams(Some(searchTerm), 0, selectedCategory))
    {
      offset := 0;
      hasMore := true;
      req := StartFetch(false, Some(searchTerm), 0, selectedCategory);
    }

    /**
     * The "load more" button, shown only when the first load is done, posts are listed and more remain, and
     * disabled while a page is loading. It asks for the page at the current offset in the current category,
     * but without the search term.
     */
    method LoadMore() returns (req: Option<Request>)
      requires Valid()
      modifies this`loading, this`loadingMore
      ensures req.Some? <==> !loading && |posts| > 0 && hasMore && !old(loadingMore)
      ensures req.Some? ==> loadingMore && req.value == Request(true, offset, BuildParams(None, offset, selectedCategory))
      ensures req.Some? ==> req.value.params.q == ""
      ensures loading == old(loading) && (req.None? ==> loadingMore == old(loadingMore))
    {
      if !loading && |posts| > 0 && hasMore && !loadingMore {
        var r := StartFetch(true, None, offset, selectedCategory);
        req := Some(r);
      } else {
        req := None;
      }
    }
  }

  /**
   * With a search active, the first page is requested with the pattern but every further page without it,
   * so "load more" continues an unfiltered listing.
   */
  lemma LoadMoreDropsSearch(term: string, startFrom: int, category: string)
    requires !IsBlank(term)
    ensures BuildParams(Some(term), 0, category).q == Trim(term) + "*"
    ensures BuildParams(None, startFrom, category).q == ""
  {
  }
}
