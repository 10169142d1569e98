/** The page set kept by GiphyiOSApp/Presentation/Feed/ViewModel/FeedViewModel.swift:
    each arriving page replaces any page of the same offset and goes last; the
    rows shown are all pages' feeds in page order. */
module FeedPages {
  import opened Entities

  /** No two pages share an offset. */
  predicate UniqueOffsets(pages: seq<FeedPage>)
  {
    forall i, j :: 0 <= i < j < |pages| ==> pages[i].offset != pages[j].offset
  }

  /** How many pages have the given offset. */
  function CountOffset(pages: seq<FeedPage>, offset: int): (c: nat)
    ensures c <= |pages|
    ensures c == 0 <==> forall i :: 0 <= i < |pages| ==> pages[i].offset != offset
  {
    if pages == [] then 0
    else (if pages[0].offset == offset then 1 else 0) + CountOffset(pages[1..], offset)
  }

  /** `xs` is `ys` with some elements dropped, order kept. */
  predicate IsSubsequence<T(==)>(xs: seq<T>, ys: seq<T>)
    decreases |ys|
  {
    if xs == [] then true
    else if ys == [] then false
    else if xs[0] == ys[0] then IsSubsequence(xs[1..], ys[1..])
    else IsSubsequence(xs, ys[1..])
  }

  /** `pages.filter { $0.offset != offset }`. */
  function WithoutOffset(pages: seq<FeedPage>, offset: int): (r: seq<FeedPage>)
    ensures forall p :: p in r <==> p in pages && p.offset != offset
    ensures IsSubsequence(r, pages)
    ensures |r| + CountOffset(pages, offset) == |pages|
  {
    if pages == [] then []
    else if pages[0].offset != offset then [pages[0]] + WithoutOffset(pages[1..], offset)
    else WithoutOffset(pages[1..], offset)
  }

  /** The page set after `appendPage(feedPage:)`. */
  function Merge(pages: seq<FeedPage>, page: FeedPage): (r: seq<FeedPage>)
    ensures |r| > 0 && r[|r| - 1] == page
    ensures |r| == |pages| - CountOffset(pages, page.offset) + 1
  {
    WithoutOffset(pages, page.offset) + [page]
  }

  /** `pages.flatMap { $0.giphy }`. */
  function Flatten(pages: seq<FeedPage>): (feeds: seq<Feed>)
    ensures pages == [] ==> feeds == []
    ensures |pages| == 1 ==> feeds == pages[0].giphy
  {
    if pages == [] then [] else pages[0].giphy + Flatten(pages[1..])
  }

  /** Every feed of every page is shown, and only those. */
  lemma {:induction false} FlattenContents(pages: seq<FeedPage>)
    ensures forall i, j :: 0 <= i < |pages| && 0 <= j < |pages[i].giphy| ==> pages[i].giphy[j] in Flatten(pages)
    ensures forall f :: f in Flatten(pages) ==> exists i :: 0 <= i < |pages| && f in pages[i].giphy
  {
    if pages != [] {
      FlattenContents(pages[1..]);
      forall i, j | 0 <= i < |pages| && 0 <= j < |pages[i].giphy|
        ensures pages[i].giphy[j] in Flatten(pages)
      {
        if i > 0 {
          assert pages[i] == pages[1..][i - 1];
        }
      }
      forall f | f in Flatten(pages)
        ensures exists i :: 0 <= i < |pages| && f in pages[i].giphy
      {
        if f !in pages[0].giphy {
          var k :| 0 <= k < |pages[1..]| && f in pages[1..][k].giphy;
          assert pages[k + 1] == pages[1..][k];
        }
      }
    }
  }

  lemma {:induction false} FlattenAppend(a: seq<FeedPage>, b: seq<FeedPage>)
    ensures Flatten(a + b) == Flatten(a) + Flatten(b)
  {
    if a == [] {
      assert a + b == b;
    } else {
      assert (a + b)[1..] == a[1..] + b;
      FlattenAppend(a[1..], b);
    }
  }

  lemma {:induction false} WithoutOffsetKeepsUnique(pages: seq<FeedPage>, offset: int)
    requires UniqueOffsets(pages)
    ensures UniqueOffsets(WithoutOffset(pages, offset))
  {
    if pages != [] {
      var rest := WithoutOffset(pages[1..], offset);
      WithoutOffsetKeepsUnique(pages[1..], offset);
      if pages[0].offset != offset {
        var r := [pages[0]] + rest;
        forall i, j | 0 <= i < j < |r|
          ensures r[i].offset != r[j].offset
        {
          if i == 0 {
            assert r[j] == rest[j - 1] && r[j] in pages[1..];
          }
        }
      }
    }
  }

  /** Merging keeps one page per offset. */
  lemma MergeKeepsUnique(pages: seq<FeedPage>, page: FeedPage)
    requires UniqueOffsets(pages)
    ensures UniqueOffsets(Merge(pages, page))
  {
    WithoutOffsetKeepsUnique(pages, page.offset);
  }

  /** Merging keeps offsets unique, puts the new page last, drops only the
      pages that shared its offset, and keeps the others in their order. */
  lemma MergeInvariant(pages: seq<FeedPage>, page: FeedPage)
    requires UniqueOffsets(pages)
    ensures UniqueOffsets(Merge(pages, page))
    ensures Merge(pages, page)[|Merge(pages, page)| - 1] == page
    ensures forall p :: p in Merge(pages, page) <==> p == page || (p in pages && p.offset != page.offset)
    ensures IsSubsequence(Merge(pages, page)[..|Merge(pages, page)| - 1], pages)
  {
    var kept := WithoutOffset(pages, page.offset);
    WithoutOffsetKeepsUnique(pages, page.offset);
    assert Merge(pages, page)[..|Merge(pages, page)| - 1] == kept;
  }

  /** A page at an offset already present replaces it: the count of pages
      stays; at a new offset the page is appended after all others. */
  lemma {:induction false} MergeCount(pages: seq<FeedPage>, page: FeedPage)
    requires UniqueOffsets(pages)
    ensures (exists i :: 0 <= i < |pages| && pages[i].offset == page.offset) ==> |Merge(pages, page)| == |pages|
    ensures (forall i :: 0 <= i < |pages| ==> pages[i].offset != page.offset) ==> Merge(pages, page) == pages + [page]
  {
    UniqueCountAtMostOne(pages, page.offset);
    if forall i :: 0 <= i < |pages| ==> pages[i].offset != page.offset {
      WithoutAbsentOffset(pages, page.offset);
    }
  }

  lemma {:induction false} UniqueCountAtMostOne(pages: seq<FeedPage>, offset: int)
    requires UniqueOffsets(pages)
    ensures CountOffset(pages, offset) <= 1
  {
    if pages != [] {
      UniqueCountAtMostOne(pages[1..], offset);
      if pages[0].offset == offset {
        forall i | 0 <= i < |pages[1..]|
          ensures pages[1..][i].offset != offset
        {
          assert pages[1..][i] == pages[i + 1];
        }
      }
    }
  }

  lemma {:induction false} WithoutAbsentOffset(pages: seq<FeedPage>, offset: int)
    requires forall i :: 0 <= i < |pages| ==> pages[i].offset != offset
    ensures WithoutOffset(pages, offset) == pages
  {
    if pages != [] {
      WithoutAbsentOffset(pages[1..], offset);
      assert [pages[0]] + pages[1..] == pages;
    }
  }

  /** The rows after a merge: those of the pages at other offsets, in their
      order, then those of the new page; the replaced page contributes none. */
  lemma MergeFlatten(pages: seq<FeedPage>, page: FeedPage)
    ensures Flatten(Merge(pages, page)) == Flatten(WithoutOffset(pages, page.offset)) + page.giphy
  {
    FlattenAppend(WithoutOffset(pages, page.offset), [page]);
    assert Flatten([page]) == page.giphy + Flatten([]);
  }

  /** First page at offset 0, next page at offset 2: the rows are the first
      page's feeds followed by the second's. */
  lemma TwoPagesAccumulate(first: FeedPage, second: FeedPage)
    requires first.offset != second.offset
    ensures Merge(Merge([], first), second) == [first, second]
    ensures Flatten(Merge(Merge([], first), second)) == first.giphy + second.giphy
  {
  }

  /** The same offset delivered twice: only the later page's feeds remain. */
  lemma SameOffsetReplaces(earlier: FeedPage, later: FeedPage)
    requires earlier.offset == later.offset
    ensures Merge(Merge([], earlier), later) == [later]
    ensures Flatten(Merge(Merge([], earlier), later)) == later.giphy
  {
  }
}
