/** `useListQuery` (`src/hooks/useListQuery.ts`): the query parameters,
    pagination, sort and loading flag behind a list page, and the setters
    the page calls. */
module ListQuery {
  import opened Wrappers
  import opened Js

  /** A parameter object. */
  type Params = Props

  /** `"" | "asc" | "desc"`. */
  datatype SortOrder = Unordered | Asc | Desc

  datatype SortState = SortState(prop: string, order: SortOrder)

  /** `Partial<PaginationState>` as passed in the options. */
  datatype PaginationDefaults<R> = PaginationDefaults(
    page: Option<int>,
    size: Option<int>,
    total: Option<int>,
    result: Option<seq<R>>)

  /** `UseListQueryOptions`; of `onParamsChange` only its presence matters,
      because every call of it is recorded by the query object. */
  datatype Options<R> = Options(
    defaultParams: Option<Params>,
    defaultPagination: Option<PaginationDefaults<R>>,
    defaultSort: Option<SortState>,
    hasOnParamsChange: bool)

  datatype Pagination<R> = Pagination(page: int, size: int, total: int, result: seq<R>)

  /** `options?.defaultParams ? { ...defaultParams } : {}`. */
  function InitialParams<R>(options: Option<Options<R>>): Params {
    if options.Some? && options.value.defaultParams.Some? then options.value.defaultParams.value else []
  }

  /** Each pagination field from the options, else page 1, size 10,
      total 0 and no rows. */
  function InitialPagination<R>(options: Option<Options<R>>): (p: Pagination<R>)
    ensures (options.None? || options.value.defaultPagination.None?) ==> p == Pagination(1, 10, 0, [])
    ensures options.Some? && options.value.defaultPagination.Some? ==>
              var d := options.value.defaultPagination.value;
              p == Pagination(d.page.GetOr(1), d.size.GetOr(10), d.total.GetOr(0), d.result.GetOr([]))
  {
    var d := if options.Some? && options.value.defaultPagination.Some? then options.value.defaultPagination.value
             else PaginationDefaults(None, None, None, None);
    Pagination(d.page.GetOr(1), d.size.GetOr(10), d.total.GetOr(0), d.result.GetOr([]))
  }

  /** `options?.defaultSort ?? { prop: "", order: "" }`. */
  function InitialSort<R>(options: Option<Options<R>>): SortState {
    if options.Some? && options.value.defaultSort.Some? then options.value.defaultSort.value
    else SortState("", Unordered)
  }

  class ListQuery<R> {
    const initialParams: Params
    const initialPagination: Pagination<R>
    const initialSort: SortState
    /** Whether an `onParamsChange` callback was given. */
    const notifies: bool

    var params: Params
    var page: int
    var size: int
    var total: int
    var result: seq<R>
    var sort: SortState
    var loading: bool
    /** The arguments `onParamsChange` has been called with, oldest first. */
    var emitted: seq<Params>

    function CurrentPagination(): Pagination<R>
      reads this
    {
      Pagination(page, size, total, result)
    }

    /** What `onParamsChange` receives when the parameters become `next`. */
    function Emission(next: Params): seq<Params> {
      if notifies then [next] else []
    }

    constructor (options: Option<Options<R>>)
      ensures initialParams == InitialParams(options)
      ensures initialPagination == InitialPagination(options)
      ensures initialSort == InitialSort(options)
      ensures notifies == (options.Some? && options.value.hasOnParamsChange)
      ensures params == initialParams && CurrentPagination() == initialPagination
      ensures sort == initialSort && !loading && emitted == []
    {
      initialParams := InitialParams(options);
      initialPagination := InitialPagination(options);
      initialSort := InitialSort(options);
      notifies := options.Some? && options.value.hasOnParamsChange;
      params := InitialParams(options);
      var p := InitialPagination(options);
      page, size, total, result := p.page, p.size, p.total, p.result;
      sort := InitialSort(options);
      loading := false;
      emitted := [];
    }

    method SetLoading(value: bool)
      modifies this`loading
      ensures loading == value
    {
      loading := value;
    }

    /** `withLoading(executor)`: `outcome` is how the executor settles and
        `loadingWhileRunning` the flag it observes while it runs. The flag is
        down again afterwards whether the executor succeeded or failed, and
        its outcome is passed on unchanged. */
    method WithLoading<T>(outcome: Result<T, string>) returns (r: Result<T, string>, loadingWhileRunning: bool)
      modifies this`loading
      ensures loadingWhileRunning
      ensures r == outcome && !loading
    {
      loading := true;
      loadingWhileRunning := loading;
      r := outcome;
      loading := false;
    }

    method SetParams(next: Params)
      modifies this`params, this`emitted
      ensures params == next
      ensures emitted == old(emitted) + Emission(next)
    {
      params := next;
      if notifies {
        emitted := emitted + [params];
      }
    }

    /** `updateParams(partial)`: every key of `partial` takes its value
        there; every other key keeps its old value and its place. */
    method UpdateParams(partial: Params)
      modifies this`params, this`emitted
      ensures params == Spread(old(params), partial)
      ensures forall k :: k !in Keys(partial) ==> Get(params, k) == Get(old(params), k)
      ensures UniqueKeys(partial) ==> forall k :: k in Keys(partial) ==> Get(params, k) == Get(partial, k)
      ensures forall k :: k in Keys(params) <==> k in Keys(old(params)) || k in Keys(partial)
      ensures |old(params)| <= |params| && Keys(params)[..|old(params)|] == Keys(old(params))
      ensures emitted == old(emitted) + Emission(params)
    {
      var merged := Spread(params, partial);
      forall k | k !in Keys(partial) ensures Get(merged, k) == Get(params, k) {
        SpreadKeeps(params, partial, k);
      }
      if UniqueKeys(partial) {
        forall k | k in Keys(partial) ensures Get(merged, k) == Get(partial, k) {
          SpreadOverrides(params, partial, k);
        }
      }
      SpreadShape(params, partial);
      params := merged;
      if notifies {
        emitted := emitted + [params];
      }
    }

    /** `resetParams(next?)`: the given parameters, else the initial ones. */
    method ResetParams(next: Option<Params>)
      modifies this`params, this`emitted
      ensures params == next.GetOr(initialParams)
      ensures emitted == old(emitted) + Emission(params)
    {
      params := if next.Some? then next.value else initialParams;
      if notifies {
        emitted := emitted + [params];
      }
    }

    method SetPage(page: int)
      modifies this`page
      ensures CurrentPagination() == old(CurrentPagination()).(page := page)
    {
      this.page := page;
    }

    /** A new page size starts over at page 1. */
    method SetPageSize(size: int)
      modifies this`size, this`page
      ensures CurrentPagination() == old(CurrentPagination()).(size := size, page := 1)
    {
      this.size := size;
      this.page := 1;
    }

    /** `setResult(rows, total?)`: the rows are replaced; the total only
        when one is given. */
    method SetResult(rows: seq<R>, total: Option<int>)
      modifies this`result, this`total
      ensures CurrentPagination() == old(CurrentPagination()).(result := rows, total := total.GetOr(old(this.total)))
    {
      result := rows;
      if total.Some? {
        this.total := total.value;
      }
    }

    method SetTotal(total: int)
      modifies this`total
      ensures CurrentPagination() == old(CurrentPagination()).(total := total)
    {
      this.total := total;
    }

    method SetSort(payload: SortState)
      modifies this`sort
      ensures sort == payload
    {
      sort := payload;
    }

    /** `reset()`: parameters, pagination and sort back to their initial
        values (the loading flag is left alone). */
    method Reset()
      modifies this`params, this`emitted, this`page, this`size, this`total, this`result, this`sort
      ensures params == initialParams && CurrentPagination() == initialPagination && sort == initialSort
      ensures emitted == old(emitted) + Emission(initialParams)
    {
      ResetParams(None);
      page := initialPagination.page;
      size := initialPagination.size;
      total := initialPagination.total;
      result := initialPagination.result;
      sort := initialSort;
    }
  }

  /** Resetting twice leaves the state of one reset: `once` is the
      parameters, pagination and sort after the first reset, `twice` after
      the second; only the callback is told again. */
  method ResetIsIdempotent<R>(q: ListQuery<R>) returns (once: (Params, Pagination<R>, SortState),
                                                       twice: (Params, Pagination<R>, SortState))
    modifies q
    ensures twice == once
    ensures once == (q.initialParams, q.initialPagination, q.initialSort)
    ensures q.loading == old(q.loading)
    ensures q.emitted == old(q.emitted) + q.Emission(q.initialParams) + q.Emission(q.initialParams)
  {
    q.Reset();
    once := (q.params, q.CurrentPagination(), q.sort);
    q.Reset();
    twice := (q.params, q.CurrentPagination(), q.sort);
  }

  /** Changing the parameters leaves pagination and sort alone: a client
      built only on the setters' contracts. */
  method ParamsLeavePagingAlone<R>(q: ListQuery<R>, next: Params, partial: Params)
    modifies q
    ensures q.CurrentPagination() == old(q.CurrentPagination()) && q.sort == old(q.sort)
    ensures |q.emitted| == |old(q.emitted)| + (if q.notifies then 3 else 0)
  {
    q.SetParams(next);
    q.UpdateParams(partial);
    q.ResetParams(None);
  }
}
