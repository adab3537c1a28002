/**
 * New from pager.go: start from the defaults, run the options in call
 * order, stop at the first one that fails, then check that a loader is
 * bound and that the next page number does not pass the total.
 */
module Construction {
  import opened Wrappers
  import opened Pager
  import opened Options

  /** Runs the options on a draft in call order; the first failure ends the run. */
  function Fold<T>(s: PagerState<T>, opts: seq<PagerOption<T>>): (r: Result<PagerState<T>, Error>)
    ensures r.Ok? && Positive(s) ==> Positive(r.value)
    ensures r.Ok? <==> forall i :: 0 <= i < |opts| ==> Accepted(opts[i])
    ensures r.Err? ==> r.error in {NextPageNumNotPositive, PageSizeNotPositive, TotalPagesCountNotPositive}
    decreases |opts|
  {
    if opts == [] then Ok(s)
    else
      match ApplyOption(s, opts[0])
      case Err(e) => Err(e)
      case Ok(next) => Fold(next, opts[1..])
  }

  /** The value New returns: the folded and validated draft, or the first error. */
  function Build<T>(opts: seq<PagerOption<T>>): (r: Result<PagerState<T>, Error>)
    ensures r.Ok? ==> Invariant(r.value) && Positive(r.value) && r.value.nextPageNum <= r.value.totalPagesCount
    ensures r.Ok? ==> r == Fold(Defaults(), opts)
    ensures r.Ok? <==> Fold(Defaults(), opts).Ok? && HasLoader(Fold(Defaults(), opts).value) &&
                       Fold(Defaults(), opts).value.nextPageNum <= Fold(Defaults(), opts).value.totalPagesCount
    ensures Fold(Defaults(), opts).Ok? && HasLoader(Fold(Defaults(), opts).value) &&
            Fold(Defaults(), opts).value.nextPageNum > Fold(Defaults(), opts).value.totalPagesCount ==>
              r == Err(NextPageNumExceedsTotal)
  {
    match Fold(Defaults(), opts)
    case Err(e) => Err(e)
    case Ok(s) =>
      if s.nextPageLoader.None? && s.nextPageLoaderWithNewTotalCount.None? then Err(NextPageLoaderRequired)
      else if s.nextPageNum > s.totalPagesCount then Err(NextPageNumExceedsTotal)
      else Ok(s)
  }

  /** Running two lists of options one after the other is running their concatenation. */
  lemma {:induction false} FoldAppend<T>(s: PagerState<T>, xs: seq<PagerOption<T>>, ys: seq<PagerOption<T>>)
    ensures Fold(s, xs + ys) == match Fold(s, xs) case Ok(t) => Fold(t, ys) case Err(e) => Err(e)
    decreases |xs|
  {
    if xs == [] {
      assert xs + ys == ys;
    } else {
      assert (xs + ys)[0] == xs[0] && (xs + ys)[1..] == xs[1..] + ys;
      if ApplyOption(s, xs[0]).Ok? {
        FoldAppend(ApplyOption(s, xs[0]).value, xs[1..], ys);
      }
    }
  }

  method New<T>(opts: seq<PagerOption<T>>) returns (r: Result<Pager<T>, Error>)
    ensures r.Ok? <==> Build(opts).Ok?
    ensures r.Ok? ==> fresh(r.value) && r.value.Valid() && r.value.State() == Build(opts).value
    ensures r.Err? ==> r.error == Build(opts).error
  {
    var pager := new Pager<T>();
    for i := 0 to |opts|
      invariant Fold(Defaults(), opts[..i]) == Ok(pager.State())
    {
      FoldAppend(Defaults(), opts[..i], [opts[i]]);
      assert opts[..i] + [opts[i]] == opts[..i + 1];
      var err := Apply(pager, opts[i]);
      if err.Some? {
        FoldAppend(Defaults(), opts[..i + 1], opts[i + 1..]);
        assert opts[..i + 1] + opts[i + 1..] == opts;
        return Err(err.value);
      }
    }
    assert opts[..|opts|] == opts;
    if pager.nextPageLoader.None? && pager.nextPageLoaderWithNewTotalCount.None? {
      return Err(NextPageLoaderRequired);
    }
    if pager.nextPageNum > pager.totalPagesCount {
      return Err(NextPageNumExceedsTotal);
    }
    return Ok(pager);
  }

  /** Options that bind no loader leave both loader fields as they were. */
  lemma {:induction false} FoldKeepsLoaders<T>(s: PagerState<T>, opts: seq<PagerOption<T>>)
    requires forall i :: 0 <= i < |opts| ==> !opts[i].NextPageLoader? && !opts[i].NextPageLoaderWithNewTotal?
    requires Fold(s, opts).Ok?
    ensures Fold(s, opts).value.nextPageLoader == s.nextPageLoader
    ensures Fold(s, opts).value.nextPageLoaderWithNewTotalCount == s.nextPageLoaderWithNewTotalCount
    decreases |opts|
  {
    if opts != [] {
      FoldKeepsLoaders(ApplyOption(s, opts[0]).value, opts[1..]);
    }
  }

  /**
   * Without a loader-binding option New always fails, and when every option
   * is accepted it fails for want of a loader.
   */
  lemma BuildRequiresLoader<T>(opts: seq<PagerOption<T>>)
    requires forall i :: 0 <= i < |opts| ==> !opts[i].NextPageLoader? && !opts[i].NextPageLoaderWithNewTotal?
    ensures Build(opts).Err?
    ensures (forall i :: 0 <= i < |opts| ==> Accepted(opts[i])) ==> Build(opts) == Err(NextPageLoaderRequired)
  {
    if Fold(Defaults<T>(), opts).Ok? {
      FoldKeepsLoaders(Defaults(), opts);
    }
  }

  /** The first option that rejects its argument decides New's error. */
  lemma BuildFirstError<T>(opts: seq<PagerOption<T>>, i: nat)
    requires i < |opts| && !Accepted(opts[i])
    requires forall j :: 0 <= j < i ==> Accepted(opts[j])
    ensures Build(opts).Err?
    ensures opts[i].NexPageNum? ==> Build(opts).error == NextPageNumNotPositive
    ensures opts[i].PageSize? ==> Build(opts).error == PageSizeNotPositive
    ensures opts[i].TotalPages? ==> Build(opts).error == TotalPagesCountNotPositive
  {
    FoldAppend(Defaults(), opts[..i], opts[i..]);
    assert opts[..i] + opts[i..] == opts;
    assert forall j :: 0 <= j < |opts[..i]| ==> Accepted(opts[..i][j]);
    var t := Fold(Defaults(), opts[..i]).value;
    assert opts[i..][0] == opts[i];
  }

  /** A numeric field of the pager that an option can set. */
  datatype Setting = NextPageNumSetting | PageSizeSetting | TotalPagesSetting

  function Get<T>(s: PagerState<T>, f: Setting): int {
    match f
    case NextPageNumSetting => s.nextPageNum
    case PageSizeSetting => s.pageSize
    case TotalPagesSetting => s.totalPagesCount
  }

  /** The value `opt` writes into field `f`, if it writes that field at all. */
  function Writes<T>(opt: PagerOption<T>, f: Setting): Option<nat> {
    match opt
    case NexPageNum(page) => if f == NextPageNumSetting then Some(page) else None
    case PageSize(pageSize) => if f == PageSizeSetting then Some(pageSize) else None
    case TotalPages(pagesCount) => if f == TotalPagesSetting then Some(pagesCount) else None
    case _ => None
  }

  /** The value of the last option in `opts` that writes `f`, or `initial` if none does. */
  function LastWritten<T>(opts: seq<PagerOption<T>>, f: Setting, initial: int): int
    decreases |opts|
  {
    if opts == [] then initial
    else
      match Writes(opts[|opts| - 1], f)
      case Some(v) => v
      case None => LastWritten(opts[..|opts| - 1], f, initial)
  }

  /** Options are order-sensitive only as "last write wins", field by field. */
  lemma {:induction false} FoldKeepsLastWrite<T>(s: PagerState<T>, opts: seq<PagerOption<T>>, f: Setting)
    requires Fold(s, opts).Ok?
    ensures Get(Fold(s, opts).value, f) == LastWritten(opts, f, Get(s, f))
    decreases |opts|
  {
    if opts != [] {
      var n := |opts| - 1;
      var xs, o := opts[..n], opts[n];
      assert xs + [o] == opts;
      FoldAppend(s, xs, [o]);
      assert forall j :: 0 <= j < |xs| ==> Accepted(xs[j]) by {
        forall j | 0 <= j < |xs| ensures Accepted(xs[j]) { assert xs[j] == opts[j]; }
      }
      FoldKeepsLastWrite(s, xs, f);
      var t := Fold(s, xs).value;
      assert [o][1..] == [];
      assert Fold(t, [o]) == ApplyOption(t, o);
    }
  }

  /** TestNew in pager_test.go, "only with nextPageLoader option": the defaults and the loader. */
  lemma NewWithOnlyLoader(loader: Loader<int>)
    ensures Build([NextPageLoader(loader)]) == Ok(PagerState(100, 1, 1, Some(loader), None))
  {
    var d := Defaults<int>();
    assert [NextPageLoader(loader)][1..] == [];
    assert Fold(d, [NextPageLoader(loader)]) == Fold(d.(nextPageLoader := Some(loader)), []);
  }

  /** TestNew, "custom options": every option's value lands in its field. */
  lemma NewWithCustomOptions(loader: LoaderWithNewTotal<int>)
    ensures Build([NextPageLoaderWithNewTotal(loader), NexPageNum(9), TotalPages(99), PageSize(999)])
            == Ok(PagerState(999, 99, 9, None, Some(loader)))
  {
    var opts := [NextPageLoaderWithNewTotal(loader), NexPageNum(9), TotalPages(99), PageSize(999)];
    var s0 := Defaults<int>().(nextPageLoaderWithNewTotalCount := Some(loader));
    var s1 := s0.(nextPageNum := 9);
    var s2 := s1.(totalPagesCount := 99);
    var s3 := s2.(pageSize := 999);
    assert opts[1..] == [NexPageNum(9), TotalPages(99), PageSize(999)];
    assert opts[1..][1..] == [TotalPages(99), PageSize(999)];
    assert opts[1..][1..][1..] == [PageSize(999)];
    assert opts[1..][1..][1..][1..] == [];
    assert Fold(s3, []) == Ok(s3);
    assert Fold(s2, [PageSize(999)]) == Ok(s3);
    assert Fold(s1, [TotalPages(99), PageSize(999)]) == Ok(s3);
    assert Fold(s0, [NexPageNum(9), TotalPages(99), PageSize(999)]) == Ok(s3);
    assert Fold(Defaults(), opts) == Ok(s3);
  }

  /** TestNew, "next page number is greater than total pages count". */
  lemma NewRejectsStartPastTotal(loader: LoaderWithNewTotal<int>)
    ensures Build([NextPageLoaderWithNewTotal(loader), NexPageNum(2), TotalPages(1)]) == Err(NextPageNumExceedsTotal)
  {
    var opts := [NextPageLoaderWithNewTotal(loader), NexPageNum(2), TotalPages(1)];
    var s0 := Defaults<int>().(nextPageLoaderWithNewTotalCount := Some(loader));
    var s1 := s0.(nextPageNum := 2);
    var s2 := s1.(totalPagesCount := 1);
    assert opts[1..] == [NexPageNum(2), TotalPages(1)];
    assert opts[1..][1..] == [TotalPages(1)];
    assert opts[1..][1..][1..] == [];
    assert Fold(s2, []) == Ok(s2);
    assert Fold(s1, [TotalPages(1)]) == Ok(s2);
    assert Fold(s0, [NexPageNum(2), TotalPages(1)]) == Ok(s2);
  }

  /** TestPager_Next_Loader, "start from the second page": starting on the last page is accepted. */
  lemma NewAcceptsStartOnLastPage(loader: Loader<int>)
    ensures Build([NexPageNum(2), TotalPages(2), NextPageLoader(loader)]) == Ok(PagerState(100, 2, 2, Some(loader), None))
  {
    var opts := [NexPageNum(2), TotalPages(2), NextPageLoader(loader)];
    var s0 := Defaults<int>().(nextPageNum := 2);
    var s1 := s0.(totalPagesCount := 2);
    var s2 := s1.(nextPageLoader := Some(loader));
    assert opts[1..] == [TotalPages(2), NextPageLoader(loader)];
    assert opts[1..][1..] == [NextPageLoader(loader)];
    assert opts[1..][1..][1..] == [];
    assert Fold(s2, []) == Ok(s2);
    assert Fold(s1, [NextPageLoader(loader)]) == Ok(s2);
    assert Fold(s0, [TotalPages(2), NextPageLoader(loader)]) == Ok(s2);
  }
}
