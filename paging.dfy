/** The offset/limit loop shared by `find_images` and `find_wells`: pages of a
    fixed size are fetched from offset 0 until a page comes back shorter (or
    longer) than the limit. */
module Paging {

  /** The page size (`count = limit = 100`). */
  const PageSize: nat := 100

  /** Beyond `bound`, no page of `parent` is full: the condition under which
      the loop ends (a source that kept returning full pages would make it run
      forever). */
  ghost predicate ShortBeyond<T>(fetch: (int, nat) -> seq<T>, parent: int, bound: nat)
  {
    forall off: nat :: bound <= off ==> |fetch(parent, off)| != PageSize
  }

  /** The pages the loop fetches, starting at `offset`: page `k` is the page
      at `offset + k * PageSize`, every page but the last is full, and the last
      one is not. */
  function Pages<T>(fetch: (int, nat) -> seq<T>, parent: int, offset: nat, bound: nat): (pages: seq<seq<T>>)
    requires ShortBeyond(fetch, parent, bound)
    ensures |pages| >= 1
    ensures forall k :: 0 <= k < |pages| ==> pages[k] == fetch(parent, offset + k * PageSize)
    ensures forall k :: 0 <= k < |pages| - 1 ==> |pages[k]| == PageSize
    ensures |pages[|pages| - 1]| != PageSize
    decreases if offset <= bound then bound - offset else 0
  {
    var page := fetch(parent, offset);
    if |page| != PageSize then [page]
    else
      var rest := Pages(fetch, parent, offset + PageSize, bound);
      assert forall k :: 1 <= k < |rest| + 1 ==> offset + k * PageSize == offset + PageSize + (k - 1) * PageSize;
      [page] + rest
  }

  /** The elements of the pages, in page order. */
  function Concat<T>(pages: seq<seq<T>>): seq<T>
  {
    if pages == [] then [] else pages[0] + Concat(pages[1..])
  }

  lemma {:induction false} ConcatSnoc<T>(pages: seq<seq<T>>, i: nat)
    requires i < |pages|
    ensures Concat(pages[..i + 1]) == Concat(pages[..i]) + pages[i]
  {
    if i > 0 {
      ConcatSnoc(pages[1..], i - 1);
      assert pages[1..][..i] == pages[..i + 1][1..];
      assert pages[1..][..i - 1] == pages[..i][1..];
    }
  }

  /** The loop of `find_images` / `find_wells` for one parent id: it returns
      the offsets it requested, in order, and the elements it yielded. */
  method FetchPages<T>(fetch: (int, nat) -> seq<T>, parent: int, ghost bound: nat) returns (offsets: seq<nat>, items: seq<T>)
    requires ShortBeyond(fetch, parent, bound)
    ensures |offsets| == |Pages(fetch, parent, 0, bound)|
    ensures forall k :: 0 <= k < |offsets| ==> offsets[k] == k * PageSize
    ensures items == Concat(Pages(fetch, parent, 0, bound))
  {
    ghost var pages := Pages(fetch, parent, 0, bound);
    var offset := 0;
    var limit := PageSize;
    var count := limit;
    offsets := [];
    items := [];
    while count == limit
      invariant |offsets| <= |pages|
      invariant count == limit ==> |offsets| < |pages| && offset == |offsets| * PageSize
      invariant count != limit ==> |offsets| == |pages|
      invariant forall k :: 0 <= k < |offsets| ==> offsets[k] == k * PageSize
      invariant items == Concat(pages[..|offsets|])
      decreases |pages| - |offsets|
    {
      var page := fetch(parent, offset);
      assert page == pages[|offsets|];
      ConcatSnoc(pages, |offsets|);
      offsets := offsets + [offset];
      items := items + page;
      count := |page|;
      offset := offset + count;
    }
    assert pages[..|offsets|] == pages;
  }

  /** A source that does not change while it is paged through: the page at
      `off` is the slice of `all` from `off`, at most `PageSize` long. */
  ghost predicate StableSource<T>(fetch: (int, nat) -> seq<T>, parent: int, all: seq<T>)
  {
    forall off: nat :: fetch(parent, off) ==
      all[(if off <= |all| then off else |all|)..(if off + PageSize <= |all| then off + PageSize else |all|)]
  }

  lemma StableShortBeyond<T>(fetch: (int, nat) -> seq<T>, parent: int, all: seq<T>)
    requires StableSource(fetch, parent, all)
    ensures ShortBeyond(fetch, parent, |all|)
  {
  }

  lemma DivStep(n: nat)
    requires n >= PageSize
    ensures (n - PageSize) / PageSize + 1 == n / PageSize
  {
  }

  /** The page a stable source returns at `offset`: full exactly when at
      least `PageSize` elements remain. */
  lemma StablePage<T>(fetch: (int, nat) -> seq<T>, parent: int, all: seq<T>, offset: nat)
    requires StableSource(fetch, parent, all) && offset <= |all|
    ensures offset + PageSize <= |all| ==> fetch(parent, offset) == all[offset..offset + PageSize]
    ensures offset + PageSize <= |all| ==> all[offset..] == fetch(parent, offset) + all[offset + PageSize..]
    ensures |all| < offset + PageSize ==> fetch(parent, offset) == all[offset..]
  {
    assert fetch(parent, offset) ==
      all[(if offset <= |all| then offset else |all|)..(if offset + PageSize <= |all| then offset + PageSize else |all|)];
    if offset + PageSize <= |all| {
      assert all[offset..] == all[offset..offset + PageSize] + all[offset + PageSize..];
    }
  }

  /** Over a stable source of N elements starting at `offset`, the loop
      fetches (N - offset) / 100 + 1 pages and yields exactly the elements
      from `offset` on, in order. */
  lemma {:induction false} StablePages<T>(fetch: (int, nat) -> seq<T>, parent: int, all: seq<T>, offset: nat)
    requires StableSource(fetch, parent, all) && offset <= |all|
    ensures ShortBeyond(fetch, parent, |all|)
    ensures |Pages(fetch, parent, offset, |all|)| == (|all| - offset) / PageSize + 1
    ensures Concat(Pages(fetch, parent, offset, |all|)) == all[offset..]
    decreases |all| - offset
  {
    StableShortBeyond(fetch, parent, all);
    StablePage(fetch, parent, all, offset);
    var page := fetch(parent, offset);
    if offset + PageSize <= |all| {
      StablePages(fetch, parent, all, offset + PageSize);
      PagesFull(fetch, parent, offset, |all|);
      DivStep(|all| - offset);
    } else {
      PagesShort(fetch, parent, offset, |all|);
    }
  }

  /** A full page is followed by the pages after it. */
  lemma PagesFull<T>(fetch: (int, nat) -> seq<T>, parent: int, offset: nat, bound: nat)
    requires ShortBeyond(fetch, parent, bound) && |fetch(parent, offset)| == PageSize
    ensures var rest := Pages(fetch, parent, offset + PageSize, bound);
      && Pages(fetch, parent, offset, bound) == [fetch(parent, offset)] + rest
      && Concat(Pages(fetch, parent, offset, bound)) == fetch(parent, offset) + Concat(rest)
  {
    var rest := Pages(fetch, parent, offset + PageSize, bound);
    assert ([fetch(parent, offset)] + rest)[1..] == rest;
  }

  /** A short page is the last one. */
  lemma PagesShort<T>(fetch: (int, nat) -> seq<T>, parent: int, offset: nat, bound: nat)
    requires ShortBeyond(fetch, parent, bound) && |fetch(parent, offset)| != PageSize
    ensures Pages(fetch, parent, offset, bound) == [fetch(parent, offset)]
    ensures Concat(Pages(fetch, parent, offset, bound)) == fetch(parent, offset)
  {
    assert Concat([fetch(parent, offset)]) == fetch(parent, offset) + Concat([fetch(parent, offset)][1..]);
  }

  /** The pages do not depend on which bound witnesses that the loop ends. */
  lemma PagesBoundIndependent<T>(fetch: (int, nat) -> seq<T>, parent: int, offset: nat, b1: nat, b2: nat)
    requires ShortBeyond(fetch, parent, b1) && ShortBeyond(fetch, parent, b2)
    ensures Pages(fetch, parent, offset, b1) == Pages(fetch, parent, offset, b2)
  {
    var p1 := Pages(fetch, parent, offset, b1);
    var p2 := Pages(fetch, parent, offset, b2);
    assert |p1| <= |p2| by {
      var k := |p2| - 1;
      assert k < |p1| ==> p1[k] == p2[k];
    }
    assert |p2| <= |p1| by {
      var k := |p1| - 1;
      assert k < |p2| ==> p1[k] == p2[k];
    }
    assert forall k :: 0 <= k < |p1| ==> p1[k] == p2[k];
  }
}
