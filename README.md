# go-num-pager in Dafny

A model of the page-number paginator of the Go package `page`. A `Pager[T]` has three integer fields:

- `pageSize`;
- `totalPagesCount`;
- `nextPageNum`, with pages numbered from 1.

It is bound to one of two loaders:

- the fixed loader `Loader`, which returns one page;
- the dynamic loader `LoaderWithNewTotal`, which returns one page and a fresh element count.

The operations and the files that model them:

- `New` starts from the defaults (page size 100, one page, next page 1), runs the option closures in call order, stops at the first one that fails, then requires a loader and `nextPageNum <= totalPagesCount`.
- `Next` loads one page and moves the cursor one page on. The dynamic loader takes precedence when it is bound, and it replaces the total with the derived page count. A failed load changes nothing and its error names the page. Once `nextPageNum > totalPagesCount`, `Next` returns nothing and changes nothing.
- `All` calls `Next` until a call fails (then it returns the error and no elements) or returns an empty page.
- `TotalCountToTotalPagesCount` is ceiling division with a guard for page size 0.

The Dafny files:

- `wrappers.dfy`: the `Option` and `Result` datatypes.
- `pager.dfy` (module `Pager`): the pager's fields as a value `PagerState`, the step function `NextStep` with `NextWithNewTotalStep`, the drain function `Drain`, and the class `Pager`. In the class, `Next`, `NextWithNewTotal` and `All` update the fields in place and are proved equal to those functions.
- `options.dfy` (module `Options`): an option closure is represented by the data it captures (`PagerOption`). `ApplyOption` says what running it does. The methods `WithNexPageNum`, `WithPageSize`, `WithTotalPages` and `Apply` run it on a draft `Pager` in place.
- `construction.dfy` (module `Construction`): `New`, with `Fold` (the options loop) and `Build` (fold, then validate) as its specification. `New` sits in its own module because Dafny modules cannot import each other cyclically, and `New` needs both the pager and the options.
- `pager_properties.dfy` (module `PagerProperties`): lemmas that relate several calls, and the test tables of pager_test.go.

The model follows the code where a reader might expect otherwise:

- Pages are numbered from 1; they are not element offsets.
- `New` accepts `nextPageNum == totalPagesCount`.
- `All` stops at the first empty page, even before the last page.
- When a load fails, `All` discards the elements it has collected.
- When both loaders are bound, the dynamic one is used.

The option helpers take `uint`, so `pageSize` and `nextPageNum` are `nat`. `totalPagesCount` is an `int`: the dynamic loader reports a Go `int`, and a negative count gives a page count of 0 or less. These are computed with Go's truncating division (`GoQuo`). pager_test.go calls `WithTotalPagesCount`, but options.go defines the option as `WithTotalPages`; the model uses options.go's name.

## Model

| member | source | states |
|---|---|---|
| Pager.TotalCountToTotalPagesCount | pager.go:123-128 | page size 0 gives 0; for a non-negative count and a positive size the result r is the ceiling, (r-1)*size < count <= r*size; a count of 0 or less gives at most 0 |
| Pager.GoQuo | pager.go:127 | Go's `/`, which truncates toward zero: for a non-negative dividend and a positive divisor it is the ordinary quotient, for a negative dividend and a positive divisor it is the quotient rounded toward zero, q*b - b < a <= q*b (not the floor) |
| Pager.Invariant | pager.go:25-42 | the field invariant every pager New returns has and every call keeps: positive page size and next page, a bound loader, and with the fixed loader next page <= total + 1 (kept by NextStep and Drain, established by Build) |
| Pager.Defaults | pager.go:10-14 | the draft `New` starts from: page size 100, one page, next page 1, no loader; all three fields positive and the next page within the total |
| Pager.NextWithNewTotalStep | pager.go:106-121 | exhausted: empty result, state unchanged, no load; failure: state unchanged, error tagged with the current page and the loader's cause; success: the loader's page, next page +1, total := TotalCountToTotalPagesCount(reported count, page size) |
| Pager.NextStep | pager.go:69-87 | the dynamic loader is used whenever it is bound; exhausted: empty result and no change; failure: no change, error names the current page; success: next page +1 exactly; the fixed loader never changes the total and returns the loader's page or cause; page size and loaders never change; the invariant (positive size and page, a loader, fixed cursor <= total+1) is kept |
| Pager.Drain | pager.go:89-104 | All's result: empty and unchanged when exhausted; never moves the cursor back or changes size or loaders; keeps the invariant; when it fails, the error is exactly what Next reports at the final (unchanged) state |
| Pager.Pager.constructor | pager.go:46-52 | the allocated draft holds the defaults |
| Pager.Pager.Next | pager.go:71-87 | the result and the new fields are those of NextStep on the old fields; the invariant is kept |
| Pager.Pager.NextWithNewTotal | pager.go:108-121 | the result and the new fields are those of NextWithNewTotalStep on the old fields |
| Pager.Pager.All | pager.go:91-104 | the loop's result and the new fields are those of Drain on the old fields; the invariant is kept |
| Options.ApplyOption | options.go:7-35 | an option fails exactly when its number is 0, with that option's own error and no change; otherwise it sets exactly its one field; accepted options keep all three fields positive |
| Options.WithNexPageNum | options.go:7-15 | rejects 0 with "next page number must be positive" and leaves the pager unchanged, else sets only nextPageNum |
| Options.WithPageSize | options.go:17-25 | rejects 0 with "page size must be positive" and leaves the pager unchanged, else sets only pageSize |
| Options.WithTotalPages | options.go:27-35 | rejects 0 with "total pages count must be positive" and leaves the pager unchanged, else sets only totalPagesCount |
| Options.WithNextPageLoader | pager.go:34-37 | binds the fixed loader and changes nothing else |
| Options.WithNextPageLoaderWithNewTotal | pager.go:38-41 | binds the dynamic loader and changes nothing else |
| Options.Apply | options.go:5 | running an option closure on the draft in place agrees with ApplyOption; on error the draft is unchanged |
| Options.SameOptionTwice | options.go:7-35 | an option of the kind just applied overrides the earlier value: the result is as if only the second were applied |
| Construction.Fold | pager.go:53-57 | the options loop succeeds exactly when every option accepts its argument; it keeps positivity; it can only fail with an option error |
| Construction.Build | pager.go:45-67 | New succeeds exactly when every option is accepted, a loader is bound and next page <= total (equality accepted); a folded draft with a loader and next page > total gets "next page number must be less or equal to total pages count"; a pager it returns satisfies the invariant, has all fields positive and is exactly the folded draft |
| Construction.New | pager.go:45-67 | New succeeds exactly when Build does and then returns a fresh pager whose fields are Build's value; otherwise it returns Build's error |
| Construction.FoldKeepsLoaders | pager.go:53-61 | options that bind no loader leave both loader fields as they were, so the loader check sees the draft's loaders |
| Construction.FoldAppend | pager.go:53-57 | running two option lists in turn is running their concatenation; an error ends the run |
| Construction.BuildRequiresLoader | pager.go:59-61 | without a loader-binding option New always fails, and with only accepted options it fails with "next page loader is required" |
| Construction.BuildFirstError | pager.go:53-57 | the first rejected option decides New's error, whatever options follow |
| Construction.FoldKeepsLastWrite | pager.go:53-57 | each numeric field ends up with the value of the last option that writes it, or keeps its default |
| Construction.NewWithOnlyLoader | pager_test.go:90-101 | a single loader option gives the default fields |
| Construction.NewWithCustomOptions | pager_test.go:116-131 | options for page 9, 99 pages and size 999 land in their fields |
| Construction.NewRejectsStartPastTotal | pager_test.go:176-187 | next page 2 with 1 total page is rejected |
| Construction.NewAcceptsStartOnLastPage | pager.go:62-64 | next page 2 with 2 total pages is accepted (equality passes) |
| PagerProperties.TotalPagesCountExamples | pager_test.go:12-77 | the test table: (0,0)=0, (100,100)=1, (100,99)=2, (99,100)=1, (1,100)=1, (100,1)=100, (100,2)=50, (100,3)=34 |
| PagerProperties.GoQuoTruncates | pager.go:127 | Go's `/` rounds toward zero: -1/100 = 0, -150/100 = -1, -200/100 = -2; the helper gives -1 pages for a count of -250 with size 100 |
| PagerProperties.TotalPagesCountIsCeiling | pager.go:123-128 | the ceiling characterisation determines the helper's value uniquely |
| PagerProperties.DrainFixedPrefix | pager.go:91-104 | with the fixed loader, draining over a run of non-empty pages puts those pages, concatenated in page order, in front of draining from after them |
| PagerProperties.DrainFixedAllPages | pager.go:91-104 | with every remaining page non-empty, All returns them all in order and leaves the cursor after the last page |
| PagerProperties.DrainFixedStopsAtEmptyPage | pager.go:98-100 | All stops at the first empty page, returns the pages before it and leaves the cursor just after it |
| PagerProperties.DrainFixedFailsAt | pager.go:94-97 | All fails at the first page that fails to load, naming that page, returns no elements, and leaves the cursor on it |
| PagerProperties.NextWithNewTotalExamples | pager_test.go:278-378 | a reported count of 0 sets the total to 0 and the next call loads nothing; 101 with size 100 sets 2; 1 keeps 1; a failure keeps the total and names page 1 |
| PagerProperties.DrainDynamicPrefix | pager.go:91-121 | with the dynamic loader, draining over a run of non-empty pages whose reports keep the next page within the total puts those pages, concatenated in page order, in front of draining from after them, with the total set from the last report |
| PagerProperties.DrainDynamicAllPages | pager.go:91-121 | when the last report of such a run puts the cursor past the total, All returns exactly the pages of the run, in order |
| PagerProperties.DrainDynamicStopsAtEmptyPage | pager.go:98-100 | with the dynamic loader, All stops at the first empty page within the total, returns the pages before it, and leaves the total that the empty page reported |
| PagerProperties.DrainDynamicFailsAt | pager.go:94-97 | with the dynamic loader, All fails at the first page within the total that fails to load, naming that page, returns no elements, and leaves the cursor on it and the total from the last report before it |
| PagerProperties.DrainDynamicZeroTotal | pager.go:109-119 | a dynamic loader that reports 0 elements ends All after the page it came with |

## Left out

- `context.Context` is only passed through to the loaders, so it is not modelled.
- The loaders are pure functions of page number and page size. A loader whose answer changes between calls (time, retries, mocks with call counts) is not captured. Within one `All` no page is asked for twice, so this does not change `All`.
- Go's `nil` slice and empty slice are both the empty sequence. The model does not distinguish "exhausted" (`nil`) from "loader returned an empty page" (`[]T{}`) by value; it distinguishes them by the state and the loader.
- Error texts (`fmt.Errorf`, `%w`) are the constructors of `Error`. `PageLoadFailed` keeps the page number and the loader's cause.
- The capacity hint `totalPagesCount*pageSize` of `All` is not modelled. It has no effect on the result, except that `make` panics when the capacity is negative: a negative total gives one, and so does a product that overflows `int`. A huge capacity also makes `make` panic ("cap out of range") or run out of memory.
- 64-bit overflow of `int` (in `totalCount + pageSize - 1`, in `nextPageNum++` and in the capacity `totalPagesCount*pageSize` of `All`) is not modelled, nor is the conversion from `uint` to `int` in the options: all integers are unbounded.
- Pager.Pager.All and Pager.Drain: require a ghost bound on the page counts the dynamic loader can report. For the fixed loader the current total serves. The bound quantifies over every page number. It therefore excludes the dynamic loaders whose reports grow without limit, also those for which the Go loop does stop, for instance because page 3 is empty while the reported totals keep growing with the page number. What `All` does with such a loader is not modelled.
- Options.WithNextPageLoader and Options.WithNextPageLoaderWithNewTotal are used by pager_test.go but are not in options.go. The model binds the loader and never fails; a `nil` loader cannot be expressed.
- The Go fields are unexported, so "constructed only by New" is a convention of the package. The model states it as the `Invariant` that `New` establishes and every call keeps. An option closure is a plain `func(*Pager[T]) error`, so it can also be run on a pager that `New` already returned. For example, `WithNexPageNum(p, 5)` on a fixed-loader pager with one page breaks the fixed-loader part of the invariant. The class methods `Next` and `All` require the invariant and do not model a pager changed that way. The step functions `NextStep` and `Drain` do not require it: on such a pager `NextStep` returns an empty result and no change, as Go's `nil, nil` does.
- Concurrent use of one pager is not modelled; the Go code does not synchronise.
