/**
 * Cursor pagination: turning a page's `next_page_info` into the next
 * request's options (`_info_to_options`), fetching the next page, walking
 * the chain of pages (`iter_pages`) and the async fetch-on-await handle
 * (`AsyncPaginator`). What a page holds and the page request itself are
 * inputs: a page's data and a `fetch` function from options to a page.
 */
module Pagination {
  import opened Wrappers
  import opened Http
  import opened Executor

  /** `PageInfo`: the next page is reached by a new URL or by new query params (`None` is `NOT_GIVEN`). */
  datatype PageInfo = PageInfo(url: Option<Url>, params: Option<map<string, string>>)

  /** A fetched page: its items and what its `next_page_info()` returns. */
  datatype PageData = PageData(items: seq<Json>, nextInfo: Option<PageInfo>)

  datatype PageError =
    | NoNextPage                // RuntimeError from `get_next_page`
    | UnexpectedPageInfoState   // ValueError from `_info_to_options`
    | FetchFailed(error: ApiError)

  /** `has_next_page`: a page with no items is the last, whatever its `next_page_info`. */
  predicate HasNextPage(d: PageData)
  {
    d.items != [] && d.nextInfo.Some?
  }

  lemma EmptyPageIsLast(d: PageData)
    requires d.items == []
    ensures !HasNextPage(d)
  {
  }

  /** A page with items has a next page exactly when `next_page_info` returns one. */
  lemma NonEmptyPageFollowsInfo(d: PageData)
    requires d.items != []
    ensures HasNextPage(d) <==> d.nextInfo.Some?
  {
  }

  /**
   * `_info_to_options` on the options' value: `params` is checked first and
   * spread over the old params; otherwise the URL replaces the url and its
   * own params are merged over the old ones; neither is an error. Every other
   * field, the idempotency key included, is copied.
   */
  function NextOptions(o: Options, info: PageInfo): (r: Result<Options, PageError>)
    ensures r.Err? <==> info.params.None? && info.url.None?
    ensures r.Err? ==> r.error == UnexpectedPageInfoState
    ensures r.Ok? ==> r.value.(url := o.url, params := o.params) == o
    ensures info.params.Some? ==> r == Ok(o.(params := o.params + info.params.value))
    ensures info.params.None? && info.url.Some? ==>
      && r.Ok? && r.value.url.path == info.url.value.path && r.value.url.query == r.value.params
      && forall k :: k in r.value.params <==> k in o.params || k in info.url.value.query
    ensures info.params.None? && info.url.Some? ==>
      forall k :: k in r.value.params ==>
        r.value.params[k] == if k in info.url.value.query then info.url.value.query[k] else o.params[k]
  {
    if info.params.Some? then Ok(o.(params := o.params + info.params.value))
    else if info.url.Some? then
      var merged := o.params + info.url.value.query;
      Ok(o.(params := merged, url := Url(info.url.value.path, merged)))
    else Err(UnexpectedPageInfoState)
  }

  /** `get_next_page` on values: the next page's data and options, or why there is none. */
  function NextPage(d: PageData, o: Options, fetch: Options -> Result<PageData, ApiError>): (r: Result<(PageData, Options), PageError>)
    ensures d.nextInfo.None? ==> r == Err(NoNextPage)
    ensures r.Ok? ==> d.nextInfo.Some? && NextOptions(o, d.nextInfo.value) == Ok(r.value.1) && fetch(r.value.1) == Ok(r.value.0)
    ensures r.Err? && r.error.FetchFailed? ==>
      d.nextInfo.Some? && NextOptions(o, d.nextInfo.value).Ok? && fetch(NextOptions(o, d.nextInfo.value).value) == Err(r.error.error)
    ensures d.nextInfo.Some? && NextOptions(o, d.nextInfo.value).Err? ==> r == Err(NextOptions(o, d.nextInfo.value).error)
    ensures d.nextInfo.Some? && NextOptions(o, d.nextInfo.value).Ok? ==>
      var next := NextOptions(o, d.nextInfo.value).value;
      && (fetch(next).Ok? ==> r == Ok((fetch(next).value, next)))
      && (fetch(next).Err? ==> r == Err(FetchFailed(fetch(next).error)))
  {
    match d.nextInfo
    case None => Err(NoNextPage)
    case Some(info) =>
      match NextOptions(o, info)
      case Err(e) => Err(e)
      case Ok(next) =>
        match fetch(next)
        case Err(e) => Err(FetchFailed(e))
        case Ok(page) => Ok((page, next))
  }

  /** What `iter_pages` yields, and the error that ended it, if any. */
  datatype Traversal = Traversal(pages: seq<PageData>, error: Option<PageError>)

  /**
   * `iter_pages` from a page: yield it, then stop if it is the last, or
   * fetch the next page and go on. `None` when the chain is longer than
   * `fuel` further pages.
   */
  function Traverse(d: PageData, o: Options, fetch: Options -> Result<PageData, ApiError>, fuel: nat): (r: Option<Traversal>)
    ensures r.Some? ==> 1 <= |r.value.pages| <= fuel + 1 && r.value.pages[0] == d
    decreases fuel
  {
    if !HasNextPage(d) then Some(Traversal([d], None))
    else if fuel == 0 then None
    else
      match NextPage(d, o, fetch)
      case Err(e) => Some(Traversal([d], Some(e)))
      case Ok((next, nextOptions)) =>
        match Traverse(next, nextOptions, fetch, fuel - 1)
        case None => None
        case Some(t) => Some(Traversal([d] + t.pages, t.error))
  }

  /** A walk stops at a page with no next page, or at the error fetching the next one. */
  lemma TraverseStops(d: PageData, o: Options, fetch: Options -> Result<PageData, ApiError>, n: nat)
    requires Traverse(d, o, fetch, n).Some?
    ensures var t := Traverse(d, o, fetch, n).value;
      && (!HasNextPage(d) ==> t == Traversal([d], None))
      && (HasNextPage(d) && NextPage(d, o, fetch).Err? ==> t == Traversal([d], Some(NextPage(d, o, fetch).error)))
  {
  }

  /** Otherwise the walk goes on from the next page, after the pages already yielded. */
  lemma TraverseContinues(d: PageData, o: Options, fetch: Options -> Result<PageData, ApiError>, n: nat, before: seq<PageData>)
    requires Traverse(d, o, fetch, n).Some?
    requires HasNextPage(d) && NextPage(d, o, fetch).Ok?
    ensures var t := Traverse(d, o, fetch, n).value;
      var (next, nextOptions) := NextPage(d, o, fetch).value;
      && n > 0 && Traverse(next, nextOptions, fetch, n - 1).Some?
      && before + t.pages == (before + [d]) + Traverse(next, nextOptions, fetch, n - 1).value.pages
      && t.error == Traverse(next, nextOptions, fetch, n - 1).value.error
  {
    var (next, nextOptions) := NextPage(d, o, fetch).value;
    var rest := Traverse(next, nextOptions, fetch, n - 1).value;
    assert before + ([d] + rest.pages) == (before + [d]) + rest.pages;
  }

  /** More fuel changes nothing once the walk has ended. */
  lemma {:induction false} TraverseFuel(d: PageData, o: Options, fetch: Options -> Result<PageData, ApiError>, n: nat, m: nat)
    requires n <= m && Traverse(d, o, fetch, n).Some?
    ensures Traverse(d, o, fetch, m) == Traverse(d, o, fetch, n)
    decreases n
  {
    if HasNextPage(d) && NextPage(d, o, fetch).Ok? {
      var (next, nextOptions) := NextPage(d, o, fetch).value;
      TraverseFuel(next, nextOptions, fetch, n - 1, m - 1);
    }
  }

  /** Every fuel that suffices gives the same walk. */
  lemma TraversalUnique(d: PageData, o: Options, fetch: Options -> Result<PageData, ApiError>, n: nat)
    requires Traverse(d, o, fetch, n).Some?
    ensures forall m: nat :: Traverse(d, o, fetch, m).Some? ==> Traverse(d, o, fetch, m) == Traverse(d, o, fetch, n)
  {
    forall m: nat | Traverse(d, o, fetch, m).Some?
      ensures Traverse(d, o, fetch, m) == Traverse(d, o, fetch, n)
    {
      if m <= n {
        TraverseFuel(d, o, fetch, m, n);
      } else {
        TraverseFuel(d, o, fetch, n, m);
      }
    }
  }

  /**
   * The walk yields the starting page first, every page but the last has a
   * next page, and a walk that ends without error ends at a page that has
   * none.
   */
  lemma {:induction false} TraversalShape(d: PageData, o: Options, fetch: Options -> Result<PageData, ApiError>, n: nat)
    requires Traverse(d, o, fetch, n).Some?
    ensures var t := Traverse(d, o, fetch, n).value;
      && |t.pages| >= 1 && t.pages[0] == d
      && (forall i :: 0 <= i < |t.pages| - 1 ==> HasNextPage(t.pages[i]))
      && (t.error.None? ==> !HasNextPage(t.pages[|t.pages| - 1]))
    decreases n
  {
    if HasNextPage(d) && NextPage(d, o, fetch).Ok? {
      var (next, nextOptions) := NextPage(d, o, fetch).value;
      TraversalShape(next, nextOptions, fetch, n - 1);
      var rest := Traverse(next, nextOptions, fetch, n - 1).value;
      var t := Traverse(d, o, fetch, n).value;
      assert t.pages == [d] + rest.pages;
      forall i | 0 <= i < |t.pages| - 1 ensures HasNextPage(t.pages[i]) {
        if i > 0 {
          assert t.pages[i] == rest.pages[i - 1];
        }
      }
    }
  }

  /** A page object: its data, and the options that fetched it once `_set_private_attributes` has run. */
  class Page {
    const items: seq<Json>
    const nextInfo: Option<PageInfo>
    var options: RequestOptions?

    function Data(): PageData
    {
      PageData(items, nextInfo)
    }

    /** A page as the response is parsed into it, before its private attributes are set. */
    constructor (d: PageData)
      ensures Data() == d && options == null
    {
      items, nextInfo := d.items, d.nextInfo;
      options := null;
    }

    /** `_set_private_attributes`: the page remembers the options that fetched it. */
    method SetPrivateAttributes(options: RequestOptions)
      modifies this
      ensures this.options == options
    {
      this.options := options;
    }

    /** `_info_to_options`: works on a copy, leaving this page's options untouched. */
    method InfoToOptions(info: PageInfo) returns (r: Result<RequestOptions, PageError>)
      requires options != null
      ensures r.Ok? ==> fresh(r.value)
      ensures NextOptions(options.Value(), info) == if r.Ok? then Ok(r.value.Value()) else Err(r.error)
    {
      var copy := options.Copy();
      if info.params.Some? {
        copy.params := copy.params + info.params.value;
        return Ok(copy);
      }
      if info.url.Some? {
        var merged := options.params + info.url.value.query;
        copy.params := merged;
        copy.url := Url(info.url.value.path, merged);
        return Ok(copy);
      }
      return Err(UnexpectedPageInfoState);
    }

    /** `get_next_page`, with `fetch` the page request (`_request_api_list`). */
    method GetNextPage(fetch: Options -> Result<PageData, ApiError>) returns (r: Result<Page, PageError>)
      requires options != null
      ensures r.Ok? ==> fresh(r.value) && r.value.options != null && fresh(r.value.options)
      ensures NextPage(Data(), options.Value(), fetch) ==
        if r.Ok? then Ok((r.value.Data(), r.value.options.Value())) else Err(r.error)
    {
      if nextInfo.None? {
        return Err(NoNextPage);
      }
      var next := InfoToOptions(nextInfo.value);
      if next.Err? {
        return Err(next.error);
      }
      var fetched := fetch(next.value.Value());
      if fetched.Err? {
        return Err(FetchFailed(fetched.error));
      }
      var page := new Page(fetched.value);
      page.SetPrivateAttributes(next.value);
      return Ok(page);
    }

    /**
     * `iter_pages`, collecting the data of every page yielded. The chain of
     * pages must end: some fuel suffices for the walk.
     */
    method IterPages(fetch: Options -> Result<PageData, ApiError>) returns (t: Traversal)
      requires options != null
      requires exists n: nat :: Traverse(Data(), options.Value(), fetch, n).Some?
      ensures forall n: nat :: Traverse(Data(), options.Value(), fetch, n).Some? ==> Traverse(Data(), options.Value(), fetch, n).value == t
    {
      ghost var fuel: nat :| Traverse(Data(), options.Value(), fetch, fuel).Some?;
      ghost var whole := Traverse(Data(), options.Value(), fetch, fuel).value;
      ghost var n := fuel;
      var page := this;
      var pages: seq<PageData> := [];
      while true
        invariant page.options != null
        invariant Traverse(page.Data(), page.options.Value(), fetch, n).Some?
        invariant var rest := Traverse(page.Data(), page.options.Value(), fetch, n).value;
          whole.pages == pages + rest.pages && whole.error == rest.error
        decreases n
      {
        var d := page.Data();
        ghost var o, before := page.options.Value(), pages;
        pages := pages + [d];
        if !HasNextPage(d) {
          TraverseStops(d, o, fetch, n);
          t := Traversal(pages, None);
          break;
        }
        var next := page.GetNextPage(fetch);
        if next.Err? {
          TraverseStops(d, o, fetch, n);
          t := Traversal(pages, Some(next.error));
          break;
        }
        TraverseContinues(d, o, fetch, n, before);
        page := next.value;
        n := n - 1;
      }
      TraversalUnique(Data(), options.Value(), fetch, fuel);
    }
  }

  /** The async handle `_request_api_list` returns: nothing is fetched until it is awaited. */
  class AsyncPaginator {
    const options: RequestOptions

    constructor (options: RequestOptions)
      ensures this.options == options
    {
      this.options := options;
    }

    /** Awaiting fetches the first page and hands it this very options object. */
    method Await(fetch: Options -> Result<PageData, ApiError>) returns (r: Result<Page, ApiError>)
      ensures r.Ok? ==> fresh(r.value) && fetch(options.Value()) == Ok(r.value.Data()) && r.value.options == options
      ensures r.Err? ==> fetch(options.Value()) == Err(r.error)
    {
      var fetched := fetch(options.Value());
      if fetched.Err? {
        return Err(fetched.error);
      }
      var page := new Page(fetched.value);
      page.SetPrivateAttributes(options);
      return Ok(page);
    }
  }
}
