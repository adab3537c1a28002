/** Properties of Next and All that relate several calls. */
module PagerProperties {
  import opened Wrappers
  import opened Pager

  /** The table of TestTotalCountToTotalPagesCount in pager_test.go. */
  lemma TotalPagesCountExamples()
    ensures TotalCountToTotalPagesCount(0, 0) == 0
    ensures TotalCountToTotalPagesCount(100, 100) == 1
    ensures TotalCountToTotalPagesCount(100, 99) == 2
    ensures TotalCountToTotalPagesCount(99, 100) == 1
    ensures TotalCountToTotalPagesCount(1, 100) == 1
    ensures TotalCountToTotalPagesCount(100, 1) == 100
    ensures TotalCountToTotalPagesCount(100, 2) == 50
    ensures TotalCountToTotalPagesCount(100, 3) == 34
  {
  }

  /**
   * Go's division truncates toward zero where floor division would round down:
   * -150 / 100 is -1, not -2, and so a reported count of -250 gives -1 pages.
   */
  lemma GoQuoTruncates()
    ensures GoQuo(-1, 100) == 0
    ensures GoQuo(-150, 100) == -1
    ensures GoQuo(-200, 100) == -2
    ensures TotalCountToTotalPagesCount(-250, 100) == -1
  {
  }

  /** The contract of TotalCountToTotalPagesCount pins down one value: the ceiling. */
  lemma {:induction false} TotalPagesCountIsCeiling(totalCount: nat, pageSize: nat, pages: int)
    requires pageSize > 0
    requires (pages - 1) * pageSize < totalCount <= pages * pageSize
    ensures TotalCountToTotalPagesCount(totalCount, pageSize) == pages
  {
    var r := TotalCountToTotalPagesCount(totalCount, pageSize);
    assert (r - 1) * pageSize < totalCount <= r * pageSize;
    if r < pages {
      MulMonotone(r, pages - 1, pageSize);
    } else if r > pages {
      MulMonotone(pages, r - 1, pageSize);
    }
  }

  lemma MulMonotone(a: int, b: int, c: nat)
    requires a <= b
    ensures a * c <= b * c
  {
    assert b * c - a * c == (b - a) * c;
  }

  /** The pager is bound to the fixed loader `loader` only. */
  ghost predicate FixedLoader<T>(s: PagerState<T>, loader: Loader<T>) {
    s.nextPageLoader == Some(loader) && s.nextPageLoaderWithNewTotalCount.None?
  }

  /** Pages `from` up to but not including `to` load without error and are not empty. */
  ghost predicate NonEmptyPages<T>(loader: Loader<T>, pageSize: nat, from: nat, to: nat) {
    forall k: nat :: from <= k < to ==> loader(k, pageSize).Ok? && |loader(k, pageSize).value| > 0
  }

  /** The elements of pages `from` up to but not including `to`, in page order. */
  function ConcatPages<T>(loader: Loader<T>, pageSize: nat, from: nat, to: nat): seq<T>
    requires forall k: nat :: from <= k < to ==> (loader(k, pageSize).Ok?)
    decreases if from < to then to - from else 0
  {
    if from >= to then [] else loader(from, pageSize).value + ConcatPages(loader, pageSize, from + 1, to)
  }

  /**
   * With the fixed loader, draining across a run of non-empty pages yields
   * those pages in order in front of whatever draining from after them yields.
   */
  lemma {:induction false} DrainFixedPrefix<T>(s: PagerState<T>, loader: Loader<T>, bound: int, to: nat)
    requires FixedLoader(s, loader) && Bounded(s, bound)
    requires s.nextPageNum <= to <= s.totalPagesCount + 1
    requires NonEmptyPages(loader, s.pageSize, s.nextPageNum, to)
    ensures Drain(s, bound) ==
            Prepend(ConcatPages(loader, s.pageSize, s.nextPageNum, to), Drain(s.(nextPageNum := to), bound))
    decreases (to as int) - s.nextPageNum
  {
    if s.nextPageNum == to {
      assert s.(nextPageNum := to) == s;
    } else {
      var k := s.nextPageNum;
      var page := loader(k, s.pageSize).value;
      var next := s.(nextPageNum := k + 1);
      assert NextStep(s) == Step(Ok(page), next);
      assert Drain(s, bound) == Prepend(page, Drain(next, bound));
      DrainFixedPrefix(next, loader, bound, to);
      assert next.(nextPageNum := to) == s.(nextPageNum := to);
      PrependTwice(page, ConcatPages(loader, s.pageSize, k + 1, to), Drain(s.(nextPageNum := to), bound));
    }
  }

  /** All over the fixed loader, when every remaining page is non-empty: all of them, in order. */
  lemma DrainFixedAllPages<T>(s: PagerState<T>, loader: Loader<T>, bound: int)
    requires FixedLoader(s, loader) && Bounded(s, bound) && Invariant(s)
    requires NonEmptyPages(loader, s.pageSize, s.nextPageNum, s.totalPagesCount + 1)
    ensures Drain(s, bound) ==
            Step(Ok(ConcatPages(loader, s.pageSize, s.nextPageNum, s.totalPagesCount + 1)),
                 s.(nextPageNum := s.totalPagesCount + 1))
  {
    DrainFixedPrefix(s, loader, bound, s.totalPagesCount + 1);
    var done := s.(nextPageNum := s.totalPagesCount + 1);
    assert Drain(done, bound) == Step(Ok([]), done);
    assert ConcatPages(loader, s.pageSize, s.nextPageNum, s.totalPagesCount + 1) + [] ==
           ConcatPages(loader, s.pageSize, s.nextPageNum, s.totalPagesCount + 1);
  }

  /**
   * All over the fixed loader stops at the first empty page, even before the
   * last page, and the cursor is left just after it.
   */
  lemma DrainFixedStopsAtEmptyPage<T>(s: PagerState<T>, loader: Loader<T>, bound: int, empty: nat)
    requires FixedLoader(s, loader) && Bounded(s, bound)
    requires s.nextPageNum <= empty <= s.totalPagesCount
    requires NonEmptyPages(loader, s.pageSize, s.nextPageNum, empty)
    requires loader(empty, s.pageSize) == Ok([])
    ensures Drain(s, bound) ==
            Step(Ok(ConcatPages(loader, s.pageSize, s.nextPageNum, empty)), s.(nextPageNum := empty + 1))
  {
    DrainFixedPrefix(s, loader, bound, empty);
    var at := s.(nextPageNum := empty);
    assert NextStep(at) == Step(Ok([]), at.(nextPageNum := empty + 1));
    assert ConcatPages(loader, s.pageSize, s.nextPageNum, empty) + [] ==
           ConcatPages(loader, s.pageSize, s.nextPageNum, empty);
  }

  /**
   * All over the fixed loader fails at the first page that fails to load:
   * the error names that page, no element is returned, and the cursor
   * stays on the failed page.
   */
  lemma DrainFixedFailsAt<T>(s: PagerState<T>, loader: Loader<T>, bound: int, failed: nat)
    requires FixedLoader(s, loader) && Bounded(s, bound)
    requires s.nextPageNum <= failed <= s.totalPagesCount
    requires NonEmptyPages(loader, s.pageSize, s.nextPageNum, failed)
    requires loader(failed, s.pageSize).Err?
    ensures Drain(s, bound) ==
            Step(Err(PageLoadFailed(failed, loader(failed, s.pageSize).error)), s.(nextPageNum := failed))
  {
    DrainFixedPrefix(s, loader, bound, failed);
  }

  /**
   * TestPager_Next_LoaderWithNewTotal in pager_test.go: the reported element
   * count replaces the total page count (0 gives 0, 101 with page size 100 gives 2),
   * a failure keeps it, and once the total is 0 the next call loads nothing.
   */
  lemma NextWithNewTotalExamples(s: PagerState<int>, loader: LoaderWithNewTotal<int>)
    requires s.nextPageLoaderWithNewTotalCount == Some(loader)
    requires s.pageSize == 100 && s.nextPageNum == 1 && s.totalPagesCount == 1
    ensures loader(1, 100) == Ok(Loaded([1, 2, 3], 0)) ==>
              NextStep(s) == Step(Ok([1, 2, 3]), s.(nextPageNum := 2, totalPagesCount := 0)) &&
              NextStep(NextStep(s).after) == Step(Ok([]), NextStep(s).after)
    ensures loader(1, 100) == Ok(Loaded([], 101)) ==>
              NextStep(s) == Step(Ok([]), s.(nextPageNum := 2, totalPagesCount := 2))
    ensures loader(1, 100) == Ok(Loaded([1, 2, 3], 1)) ==>
              NextStep(s) == Step(Ok([1, 2, 3]), s.(nextPageNum := 2))
    ensures loader(1, 100) == Err("test error") ==>
              NextStep(s) == Step(Err(PageLoadFailed(1, "test error")), s)
  {
    if loader(1, 100) == Ok(Loaded([], 101)) {
      TotalPagesCountIsCeiling(101, 100, 2);
    }
    if loader(1, 100) == Ok(Loaded([1, 2, 3], 1)) {
      TotalPagesCountIsCeiling(1, 100, 1);
    }
  }

  /**
   * Pages `from` up to but not including `to` load from the dynamic loader
   * without error and are not empty, and every one of them but the last
   * reports an element count whose page count still covers the page after it.
   */
  ghost predicate DynamicRun<T>(loader: LoaderWithNewTotal<T>, pageSize: nat, from: nat, to: nat) {
    forall k: nat :: from <= k < to ==>
      (loader(k, pageSize).Ok? && |loader(k, pageSize).value.page| > 0 &&
       (k + 1 < to ==> k + 1 <= TotalCountToTotalPagesCount(loader(k, pageSize).value.newTotalCount, pageSize)))
  }

  /** The elements of dynamic pages `from` up to but not including `to`, in page order. */
  function DynamicPages<T>(loader: LoaderWithNewTotal<T>, pageSize: nat, from: nat, to: nat): seq<T>
    requires forall k: nat :: from <= k < to ==> (loader(k, pageSize).Ok?)
    decreases if from < to then to - from else 0
  {
    if from >= to then [] else loader(from, pageSize).value.page + DynamicPages(loader, pageSize, from + 1, to)
  }

  /** The total page count after the dynamic pages before `to` have loaded: the last report decides it. */
  function TotalAfter<T>(s: PagerState<T>, loader: LoaderWithNewTotal<T>, to: nat): int
    requires s.nextPageNum <= to
    requires to > s.nextPageNum ==> loader(to - 1, s.pageSize).Ok?
  {
    if to == s.nextPageNum then s.totalPagesCount
    else TotalCountToTotalPagesCount(loader(to - 1, s.pageSize).value.newTotalCount, s.pageSize)
  }

  /**
   * With the dynamic loader, draining across a run of non-empty pages yields
   * those pages in order in front of whatever draining from after them yields,
   * from the total that the last page of the run reported.
   */
  lemma {:induction false} DrainDynamicPrefix<T>(s: PagerState<T>, loader: LoaderWithNewTotal<T>, bound: int, to: nat)
    requires s.nextPageLoaderWithNewTotalCount == Some(loader) && Bounded(s, bound)
    requires s.nextPageNum <= to && (s.nextPageNum < to ==> s.nextPageNum <= s.totalPagesCount)
    requires DynamicRun(loader, s.pageSize, s.nextPageNum, to)
    ensures Bounded(s.(nextPageNum := to, totalPagesCount := TotalAfter(s, loader, to)), bound)
    ensures Drain(s, bound) ==
            Prepend(DynamicPages(loader, s.pageSize, s.nextPageNum, to),
                    Drain(s.(nextPageNum := to, totalPagesCount := TotalAfter(s, loader, to)), bound))
    decreases (to as int) - s.nextPageNum
  {
    var rest := s.(nextPageNum := to, totalPagesCount := TotalAfter(s, loader, to));
    if s.nextPageNum == to {
      assert rest == s;
    } else {
      var k := s.nextPageNum;
      var loaded := loader(k, s.pageSize).value;
      var next := s.(nextPageNum := k + 1,
                     totalPagesCount := TotalCountToTotalPagesCount(loaded.newTotalCount, s.pageSize));
      assert NextStep(s) == Step(Ok(loaded.page), next);
      assert Drain(s, bound) == Prepend(loaded.page, Drain(next, bound));
      assert DynamicRun(loader, s.pageSize, k + 1, to);
      DrainDynamicPrefix(next, loader, bound, to);
      assert next.(nextPageNum := to, totalPagesCount := TotalAfter(next, loader, to)) == rest;
      PrependTwice(loaded.page, DynamicPages(loader, s.pageSize, k + 1, to), Drain(rest, bound));
    }
  }

  /**
   * All over the dynamic loader, when the run of non-empty pages ends with a
   * report that puts the cursor past the total: exactly those pages, in order.
   */
  lemma DrainDynamicAllPages<T>(s: PagerState<T>, loader: LoaderWithNewTotal<T>, bound: int, to: nat)
    requires s.nextPageLoaderWithNewTotalCount == Some(loader) && Bounded(s, bound)
    requires s.nextPageNum <= to && (s.nextPageNum < to ==> s.nextPageNum <= s.totalPagesCount)
    requires DynamicRun(loader, s.pageSize, s.nextPageNum, to)
    requires to > TotalAfter(s, loader, to)
    ensures Drain(s, bound) ==
            Step(Ok(DynamicPages(loader, s.pageSize, s.nextPageNum, to)),
                 s.(nextPageNum := to, totalPagesCount := TotalAfter(s, loader, to)))
  {
    DrainDynamicPrefix(s, loader, bound, to);
    var rest := s.(nextPageNum := to, totalPagesCount := TotalAfter(s, loader, to));
    assert Drain(rest, bound) == Step(Ok([]), rest);
    assert DynamicPages(loader, s.pageSize, s.nextPageNum, to) + [] ==
           DynamicPages(loader, s.pageSize, s.nextPageNum, to);
  }

  /**
   * All over the dynamic loader stops at the first empty page that is still
   * within the total; the total is then the one that empty page reported.
   */
  lemma DrainDynamicStopsAtEmptyPage<T>(s: PagerState<T>, loader: LoaderWithNewTotal<T>, bound: int, empty: nat)
    requires s.nextPageLoaderWithNewTotalCount == Some(loader) && Bounded(s, bound)
    requires s.nextPageNum <= empty && (s.nextPageNum < empty ==> s.nextPageNum <= s.totalPagesCount)
    requires DynamicRun(loader, s.pageSize, s.nextPageNum, empty)
    requires empty <= TotalAfter(s, loader, empty)
    requires loader(empty, s.pageSize).Ok? && loader(empty, s.pageSize).value.page == []
    ensures Drain(s, bound) ==
            Step(Ok(DynamicPages(loader, s.pageSize, s.nextPageNum, empty)),
                 s.(nextPageNum := empty + 1,
                    totalPagesCount := TotalCountToTotalPagesCount(loader(empty, s.pageSize).value.newTotalCount,
                                                                   s.pageSize)))
  {
    DrainDynamicPrefix(s, loader, bound, empty);
    var at := s.(nextPageNum := empty, totalPagesCount := TotalAfter(s, loader, empty));
    assert NextStep(at).result == Ok([]);
    assert DynamicPages(loader, s.pageSize, s.nextPageNum, empty) + [] ==
           DynamicPages(loader, s.pageSize, s.nextPageNum, empty);
  }

  /**
   * All over the dynamic loader fails at the first page within the total that
   * fails to load: the error names that page, no element is returned, the
   * cursor stays on it and the total is the last one reported before it.
   */
  lemma DrainDynamicFailsAt<T>(s: PagerState<T>, loader: LoaderWithNewTotal<T>, bound: int, failed: nat)
    requires s.nextPageLoaderWithNewTotalCount == Some(loader) && Bounded(s, bound)
    requires s.nextPageNum <= failed && (s.nextPageNum < failed ==> s.nextPageNum <= s.totalPagesCount)
    requires DynamicRun(loader, s.pageSize, s.nextPageNum, failed)
    requires failed <= TotalAfter(s, loader, failed)
    requires loader(failed, s.pageSize).Err?
    ensures Drain(s, bound) ==
            Step(Err(PageLoadFailed(failed, loader(failed, s.pageSize).error)),
                 s.(nextPageNum := failed, totalPagesCount := TotalAfter(s, loader, failed)))
  {
    DrainDynamicPrefix(s, loader, bound, failed);
  }

  /** A dynamic loader that reports no elements ends All after the page it came with. */
  lemma DrainDynamicZeroTotal<T>(s: PagerState<T>, loader: LoaderWithNewTotal<T>, bound: int, page: seq<T>, total: int)
    requires s.nextPageLoaderWithNewTotalCount == Some(loader) && Bounded(s, bound) && Invariant(s)
    requires !Exhausted(s) && loader(s.nextPageNum, s.pageSize) == Ok(Loaded(page, total)) && total <= 0
    ensures Drain(s, bound).result == Ok(page)
  {
    var after := NextStep(s).after;
    assert Exhausted(after);
    assert page + [] == page;
  }
}
