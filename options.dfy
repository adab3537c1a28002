/**
 * The option closures of options.go. An option is represented by the data
 * its closure captures; `Apply` runs the closure on a draft Pager.
 */
module Options {
  import opened Wrappers
  import opened Pager

  datatype PagerOption<T> =
    | NexPageNum(page: nat)                                  // WithNexPageNum
    | PageSize(pageSize: nat)                                // WithPageSize
    | TotalPages(pagesCount: nat)                            // WithTotalPages
    | NextPageLoader(loader: Loader<T>)                      // WithNextPageLoader
    | NextPageLoaderWithNewTotal(loaderWithNewTotal: LoaderWithNewTotal<T>)  // WithNextPageLoaderWithNewTotal

  /** The page size, the total page count and the next page number are all positive. */
  predicate Positive<T>(s: PagerState<T>) {
    s.pageSize > 0 && s.totalPagesCount > 0 && s.nextPageNum > 0
  }

  /** The option's argument passes its check: a number must be positive. */
  predicate Accepted<T>(opt: PagerOption<T>) {
    match opt
    case NexPageNum(page) => page > 0
    case PageSize(pageSize) => pageSize > 0
    case TotalPages(pagesCount) => pagesCount > 0
    case _ => true
  }

  /**
   * What running an option's closure on a draft does: it either rejects its
   * argument and leaves the draft alone, or sets exactly one field.
   */
  function ApplyOption<T>(s: PagerState<T>, opt: PagerOption<T>): (r: Result<PagerState<T>, Error>)
    ensures r.Ok? <==> Accepted(opt)
    ensures r.Err? && opt.NexPageNum? ==> r.error == NextPageNumNotPositive
    ensures r.Err? && opt.PageSize? ==> r.error == PageSizeNotPositive
    ensures r.Err? && opt.TotalPages? ==> r.error == TotalPagesCountNotPositive
    ensures r.Ok? && opt.NexPageNum? ==> r.value == s.(nextPageNum := opt.page)
    ensures r.Ok? && opt.PageSize? ==> r.value == s.(pageSize := opt.pageSize)
    ensures r.Ok? && opt.TotalPages? ==> r.value == s.(totalPagesCount := opt.pagesCount)
    ensures r.Ok? && opt.NextPageLoader? ==> r.value == s.(nextPageLoader := Some(opt.loader))
    ensures r.Ok? && opt.NextPageLoaderWithNewTotal? ==>
              r.value == s.(nextPageLoaderWithNewTotalCount := Some(opt.loaderWithNewTotal))
    ensures r.Ok? && Positive(s) ==> Positive(r.value)
  {
    match opt
    case NexPageNum(page) =>
      if page <= 0 then Err(NextPageNumNotPositive) else Ok(s.(nextPageNum := page))
    case PageSize(pageSize) =>
      if pageSize <= 0 then Err(PageSizeNotPositive) else Ok(s.(pageSize := pageSize))
    case TotalPages(pagesCount) =>
      if pagesCount <= 0 then Err(TotalPagesCountNotPositive) else Ok(s.(totalPagesCount := pagesCount))
    case NextPageLoader(loader) =>
      Ok(s.(nextPageLoader := Some(loader)))
    case NextPageLoaderWithNewTotal(loader) =>
      Ok(s.(nextPageLoaderWithNewTotalCount := Some(loader)))
  }

  /** The closure of WithNexPageNum(page). */
  method WithNexPageNum<T>(p: Pager<T>, page: nat) returns (err: Option<Error>)
    modifies p
    ensures ApplyOption(old(p.State()), NexPageNum(page)) == if err.None? then Ok(p.State()) else Err(err.value)
    ensures err.Some? ==> p.State() == old(p.State())
  {
    if page <= 0 {
      return Some(NextPageNumNotPositive);
    }
    p.nextPageNum := page;
    return None;
  }

  /** The closure of WithPageSize(pageSize). */
  method WithPageSize<T>(p: Pager<T>, pageSize: nat) returns (err: Option<Error>)
    modifies p
    ensures ApplyOption(old(p.State()), PageSize(pageSize)) == if err.None? then Ok(p.State()) else Err(err.value)
    ensures err.Some? ==> p.State() == old(p.State())
  {
    if pageSize <= 0 {
      return Some(PageSizeNotPositive);
    }
    p.pageSize := pageSize;
    return None;
  }

  /** The closure of WithTotalPages(pagesCount). */
  method WithTotalPages<T>(p: Pager<T>, pagesCount: nat) returns (err: Option<Error>)
    modifies p
    ensures ApplyOption(old(p.State()), TotalPages(pagesCount)) == if err.None? then Ok(p.State()) else Err(err.value)
    ensures err.Some? ==> p.State() == old(p.State())
  {
    if pagesCount <= 0 {
      return Some(TotalPagesCountNotPositive);
    }
    p.totalPagesCount := pagesCount;
    return None;
  }

  /** Binds the fixed loader. */
  method WithNextPageLoader<T>(p: Pager<T>, loader: Loader<T>) returns (err: Option<Error>)
    modifies p
    ensures ApplyOption(old(p.State()), NextPageLoader(loader)) == if err.None? then Ok(p.State()) else Err(err.value)
  {
    p.nextPageLoader := Some(loader);
    return None;
  }

  /** Binds the dynamic loader. */
  method WithNextPageLoaderWithNewTotal<T>(p: Pager<T>, loader: LoaderWithNewTotal<T>) returns (err: Option<Error>)
    modifies p
    ensures ApplyOption(old(p.State()), NextPageLoaderWithNewTotal(loader)) ==
            if err.None? then Ok(p.State()) else Err(err.value)
  {
    p.nextPageLoaderWithNewTotalCount := Some(loader);
    return None;
  }

  /** `opt(pager)`: runs the option's closure on the draft. */
  method Apply<T>(p: Pager<T>, opt: PagerOption<T>) returns (err: Option<Error>)
    modifies p
    ensures ApplyOption(old(p.State()), opt) == if err.None? then Ok(p.State()) else Err(err.value)
    ensures err.Some? ==> p.State() == old(p.State())
  {
    match opt
    case NexPageNum(page) => err := WithNexPageNum(p, page);
    case PageSize(pageSize) => err := WithPageSize(p, pageSize);
    case TotalPages(pagesCount) => err := WithTotalPages(p, pagesCount);
    case NextPageLoader(loader) => err := WithNextPageLoader(p, loader);
    case NextPageLoaderWithNewTotal(loader) => err := WithNextPageLoaderWithNewTotal(p, loader);
  }

  /** Two options of the same kind in a row: the second one's value is kept. */
  lemma SameOptionTwice<T>(s: PagerState<T>, first: PagerOption<T>, second: PagerOption<T>)
    requires ApplyOption(s, first).Ok?
    requires first.NexPageNum? == second.NexPageNum? && first.PageSize? == second.PageSize? &&
             first.TotalPages? == second.TotalPages? && first.NextPageLoader? == second.NextPageLoader?
    ensures ApplyOption(ApplyOption(s, first).value, second) == ApplyOption(s, second)
  {
  }
}
