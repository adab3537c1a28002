/**
 * The page-number cursor of pager.go: a Pager holds a page size, a total
 * page count and the number of the next page to load, and is bound to a
 * loader that returns one page per call. Pages are numbered 1, 2, 3, ...
 */
module Pager {
  import opened Wrappers

  const DefaultNextPageNum: nat := 1
  const DefaultTotalPagesCount: int := 1
  const DefaultPageSize: nat := 100

  /** The underlying error a loader reports; only its content is modelled. */
  type Cause = string

  /** Every error the package returns. */
  datatype Error =
    | NextPageNumNotPositive                      // "next page number must be positive"
    | PageSizeNotPositive                         // "page size must be positive"
    | TotalPagesCountNotPositive                  // "total pages count must be positive"
    | NextPageLoaderRequired                      // "next page loader is required"
    | NextPageNumExceedsTotal                     // "next page number must be less or equal to total pages count"
    | PageLoadFailed(pageNum: nat, cause: Cause)  // "page %d: %w"

  /** A page returned by the dynamic loader, with the element count it reports. */
  datatype Loaded<T> = Loaded(page: seq<T>, newTotalCount: int)

  /** `Loader.Load(ctx, pageNum, pageSize)`, with the context left out. */
  type Loader<T> = (nat, nat) -> Result<seq<T>, Cause>

  /** `LoaderWithNewTotal.Load(ctx, pageNum, pageSize)`, with the context left out. */
  type LoaderWithNewTotal<T> = (nat, nat) -> Result<Loaded<T>, Cause>

  /** The value of all fields of a Pager. */
  datatype PagerState<T> = PagerState(
    pageSize: nat,
    totalPagesCount: int,
    nextPageNum: nat,
    nextPageLoader: Option<Loader<T>>,
    nextPageLoaderWithNewTotalCount: Option<LoaderWithNewTotal<T>>)

  /** The result of one call and the pager's fields after it. */
  datatype Step<T> = Step(result: Result<seq<T>, Error>, after: PagerState<T>)

  /** The draft pager that New starts from. */
  function Defaults<T>(): (s: PagerState<T>)
    ensures s.pageSize > 0 && s.totalPagesCount > 0 && s.nextPageNum > 0
    ensures s.nextPageNum <= s.totalPagesCount
    ensures s.nextPageLoader.None? && s.nextPageLoaderWithNewTotalCount.None?
  {
    PagerState(DefaultPageSize, DefaultTotalPagesCount, DefaultNextPageNum, None, None)
  }

  predicate HasLoader<T>(s: PagerState<T>) {
    s.nextPageLoader.Some? || s.nextPageLoaderWithNewTotalCount.Some?
  }

  /** All pages have been loaded: Next no longer calls the loader. */
  predicate Exhausted<T>(s: PagerState<T>) {
    s.nextPageNum > s.totalPagesCount
  }

  /**
   * What holds of every pager New returns and every call keeps: the page size
   * and the next page number stay positive, a loader is bound, and with the
   * fixed loader the cursor never passes the page after the last one.
   */
  predicate Invariant<T>(s: PagerState<T>) {
    s.pageSize > 0 && s.nextPageNum > 0 && HasLoader(s) &&
    (s.nextPageLoaderWithNewTotalCount.None? ==> s.nextPageNum <= s.totalPagesCount + 1)
  }

  /** Go's integer division, which truncates toward zero. */
  function GoQuo(a: int, b: int): (q: int)
    requires b != 0
    ensures a >= 0 && b > 0 ==> q == a / b
    ensures a < 0 && b > 0 ==> q <= 0 && q * b - b < a <= q * b
  {
    if a >= 0 then (if b > 0 then a / b else -(a / -b))
    else (if b > 0 then -((-a) / b) else (-a) / (-b))
  }

  /**
   * The number of pages of `pageSize` elements needed for `totalCount`
   * elements: the ceiling of their quotient, and 0 for a page size of 0.
   */
  function TotalCountToTotalPagesCount(totalCount: int, pageSize: int): (r: int)
    ensures pageSize == 0 ==> r == 0
    ensures totalCount >= 0 && pageSize > 0 ==>
              r >= 0 && (r - 1) * pageSize < totalCount <= r * pageSize
    ensures totalCount <= 0 && pageSize > 0 ==> r <= 0
  {
    if pageSize == 0 then 0
    else
      GoQuo(totalCount + pageSize - 1, pageSize)
  }

  /**
   * One call of nextWithNewTotal: nothing happens once all pages are loaded;
   * otherwise the dynamic loader is asked for the next page, and on success
   * the cursor moves one page on and the total is replaced by the page count
   * derived from the element count the loader reports. A failure changes nothing.
   */
  function NextWithNewTotalStep<T>(s: PagerState<T>): (st: Step<T>)
    requires s.nextPageLoaderWithNewTotalCount.Some?
    ensures Exhausted(s) ==> st == Step(Ok([]), s)
    ensures st.result.Err? ==>
              st.after == s && !Exhausted(s) &&
              var r := s.nextPageLoaderWithNewTotalCount.value(s.nextPageNum, s.pageSize);
              r.Err? && st.result.error == PageLoadFailed(s.nextPageNum, r.error)
    ensures !Exhausted(s) && st.result.Ok? ==>
              var r := s.nextPageLoaderWithNewTotalCount.value(s.nextPageNum, s.pageSize);
              r.Ok? && st.result.value == r.value.page &&
              st.after == s.(nextPageNum := s.nextPageNum + 1,
                             totalPagesCount := TotalCountToTotalPagesCount(r.value.newTotalCount, s.pageSize))
  {
    if Exhausted(s) then Step(Ok([]), s)
    else
      match s.nextPageLoaderWithNewTotalCount.value(s.nextPageNum, s.pageSize)
      case Err(cause) => Step(Err(PageLoadFailed(s.nextPageNum, cause)), s)
      case Ok(loaded) =>
        Step(Ok(loaded.page),
             s.(nextPageNum := s.nextPageNum + 1,
                totalPagesCount := TotalCountToTotalPagesCount(loaded.newTotalCount, s.pageSize)))
  }

  /**
   * One call of Next. The dynamic loader wins whenever it is bound; with
   * the fixed loader the total is never touched.
   */
  function NextStep<T>(s: PagerState<T>): (st: Step<T>)
    requires HasLoader(s)
    ensures s.nextPageLoaderWithNewTotalCount.Some? ==> st == NextWithNewTotalStep(s)
    ensures Exhausted(s) ==> st == Step(Ok([]), s)
    ensures st.result.Err? ==> st.after == s && !Exhausted(s) && st.result.error.PageLoadFailed? &&
                               st.result.error.pageNum == s.nextPageNum
    ensures st.result.Ok? && !Exhausted(s) ==> st.after.nextPageNum == s.nextPageNum + 1
    ensures s.nextPageLoaderWithNewTotalCount.None? ==>
              st.after.totalPagesCount == s.totalPagesCount &&
              (!Exhausted(s) ==>
                 var r := s.nextPageLoader.value(s.nextPageNum, s.pageSize);
                 (r.Err? <==> st.result.Err?) &&
                 (r.Err? ==> st.result.error.cause == r.error) &&
                 (r.Ok? ==> st.result.value == r.value))
    ensures st.after.pageSize == s.pageSize
    ensures st.after.nextPageLoader == s.nextPageLoader
    ensures st.after.nextPageLoaderWithNewTotalCount == s.nextPageLoaderWithNewTotalCount
    ensures Invariant(s) ==> Invariant(st.after)
  {
    if s.nextPageLoaderWithNewTotalCount.Some? then NextWithNewTotalStep(s)
    else if Exhausted(s) then Step(Ok([]), s)
    else
      match s.nextPageLoader.value(s.nextPageNum, s.pageSize)
      case Err(cause) => Step(Err(PageLoadFailed(s.nextPageNum, cause)), s)
      case Ok(page) => Step(Ok(page), s.(nextPageNum := s.nextPageNum + 1))
  }

  /**
   * `bound` caps the total page count for the rest of a drain: it is at least
   * the current total, and with the dynamic loader at least every page count
   * the loader can report. With the fixed loader the current total is such a cap.
   */
  ghost predicate Bounded<T>(s: PagerState<T>, bound: int) {
    s.totalPagesCount <= bound &&
    (s.nextPageLoaderWithNewTotalCount.Some? ==>
       forall n: nat :: s.nextPageLoaderWithNewTotalCount.value(n, s.pageSize).Ok? ==>
         TotalCountToTotalPagesCount(s.nextPageLoaderWithNewTotalCount.value(n, s.pageSize).value.newTotalCount,
                                     s.pageSize) <= bound)
  }

  /** Adds `page` in front of the elements of a successful result; an error stays as it is. */
  function Prepend<T>(page: seq<T>, st: Step<T>): (r: Step<T>)
    ensures r.after == st.after && r.result.Ok? == st.result.Ok?
    ensures r.result.Ok? ==> r.result.value == page + st.result.value
    ensures r.result.Err? || page == [] ==> r == st
  {
    match st.result
    case Ok(rest) =>
      assert page == [] ==> page + rest == rest;
      Step(Ok(page + rest), st.after)
    case Err(_) => st
  }

  lemma PrependTwice<T>(first: seq<T>, second: seq<T>, st: Step<T>)
    ensures Prepend(first, Prepend(second, st)) == Prepend(first + second, st)
  {
    if st.result.Ok? {
      assert first + (second + st.result.value) == (first + second) + st.result.value;
    }
  }

  /**
   * All: calls Next until it fails or returns an empty page. A failure
   * discards the elements collected so far.
   */
  function Drain<T>(s: PagerState<T>, bound: int): (st: Step<T>)
    requires HasLoader(s) && Bounded(s, bound)
    ensures Exhausted(s) ==> st == Step(Ok([]), s)
    ensures st.after.pageSize == s.pageSize && st.after.nextPageNum >= s.nextPageNum
    ensures st.after.nextPageLoader == s.nextPageLoader
    ensures st.after.nextPageLoaderWithNewTotalCount == s.nextPageLoaderWithNewTotalCount
    ensures Invariant(s) ==> Invariant(st.after)
    ensures st.result.Err? ==> NextStep(st.after).result == st.result
    decreases bound + 1 - s.nextPageNum
  {
    var next := NextStep(s);
    match next.result
    case Err(e) => Step(Err(e), next.after)
    case Ok(page) =>
      if |page| == 0 then Step(Ok([]), next.after)
      else Prepend(page, Drain(next.after, bound))
  }

  /** A paginator over a fixed or a dynamic loader, updated in place. */
  class Pager<T> {
    var pageSize: nat
    var totalPagesCount: int
    var nextPageNum: nat
    var nextPageLoader: Option<Loader<T>>
    var nextPageLoaderWithNewTotalCount: Option<LoaderWithNewTotal<T>>

    ghost function State(): PagerState<T>
      reads this
    {
      PagerState(pageSize, totalPagesCount, nextPageNum, nextPageLoader, nextPageLoaderWithNewTotalCount)
    }

    ghost predicate Valid()
      reads this
    {
      Invariant(State())
    }

    /** The draft `&Pager[T]{...}` that New fills in. */
    constructor ()
      ensures State() == Defaults()
    {
      pageSize := DefaultPageSize;
      totalPagesCount := DefaultTotalPagesCount;
      nextPageNum := DefaultNextPageNum;
      nextPageLoader := None;
      nextPageLoaderWithNewTotalCount := None;
    }

    method Next() returns (r: Result<seq<T>, Error>)
      requires Valid()
      modifies this
      ensures Valid()
      ensures Step(r, State()) == NextStep(old(State()))
    {
      if nextPageLoaderWithNewTotalCount.Some? {
        r := NextWithNewTotal();
        return;
      }
      if nextPageNum > totalPagesCount {
        return Ok([]);
      }
      var loaded := nextPageLoader.value(nextPageNum, pageSize);
      if loaded.Err? {
        return Err(PageLoadFailed(nextPageNum, loaded.error));
      }
      nextPageNum := nextPageNum + 1;
      r := Ok(loaded.value);
    }

    method NextWithNewTotal() returns (r: Result<seq<T>, Error>)
      requires Valid() && nextPageLoaderWithNewTotalCount.Some?
      modifies this
      ensures Valid()
      ensures Step(r, State()) == NextWithNewTotalStep(old(State()))
    {
      if nextPageNum > totalPagesCount {
        return Ok([]);
      }
      var loaded := nextPageLoaderWithNewTotalCount.value(nextPageNum, pageSize);
      if loaded.Err? {
        return Err(PageLoadFailed(nextPageNum, loaded.error));
      }
      nextPageNum := nextPageNum + 1;
      totalPagesCount := TotalCountToTotalPagesCount(loaded.value.newTotalCount, pageSize);
      r := Ok(loaded.value.page);
    }

    /**
     * Loads every page through Next. `bound` caps the page counts the
     * dynamic loader may report; it only serves the termination argument.
     */
    method All(ghost bound: int) returns (r: Result<seq<T>, Error>)
      requires Valid() && Bounded(State(), bound)
      modifies this
      ensures Valid()
      ensures Step(r, State()) == Drain(old(State()), bound)
    {
      var allPages: seq<T> := [];
      while true
        invariant Valid() && Bounded(State(), bound)
        invariant Drain(old(State()), bound) == Prepend(allPages, Drain(State(), bound))
        decreases bound + 1 - nextPageNum
      {
        ghost var before := State();
        var page := Next();
        assert Drain(before, bound) ==
               if page.Err? || |page.value| == 0 then Step(page, State()) else Prepend(page.value, Drain(State(), bound));
        if page.Err? {
          return Err(page.error);
        }
        if |page.value| == 0 {
          assert allPages + page.value == allPages;
          break;
        }
        PrependTwice(allPages, page.value, Drain(State(), bound));
        allPages := allPages + page.value;
      }
      r := Ok(allPages);
    }
  }
}
