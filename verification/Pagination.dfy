/** The SDK's page walker. Page, limit and offset options are integers; absent options are `None`. */
module Pagination {
  import opened Arithmetic
  import opened Sequences
  import opened Wrappers

  const DEFAULT_PAGE_LIMIT := 20
  const MAXIMUM_PAGE_LIMIT := 100

  datatype Params = Params(page: Option<int>, limit: Option<int>, offset: Option<int>)

  /** What a fetcher is asked for. */
  datatype Request = Request(page: int, limit: int, offset: int)

  datatype PartialMeta = PartialMeta(
    total: Option<int>, totalPages: Option<int>, hasNext: Option<bool>, hasPrev: Option<bool>)

  /** A bare array, or an object with data and perhaps a total and metadata. */
  datatype Raw<T> = Bare(items: seq<T>) | Object(data: seq<T>, total: Option<int>, meta: PartialMeta)

  datatype PageMeta = PageMeta(total: int, page: int, limit: int, totalPages: int, hasNext: bool, hasPrev: bool)

  datatype PageResult<T> = PageResult(data: seq<T>, meta: PageMeta)

  type Fetcher<!T> = Request -> Raw<T>

  function NormalizeLimit(limit: Option<int>): (r: int)
    ensures 1 <= r <= MAXIMUM_PAGE_LIMIT
    ensures limit.Some? && 1 <= limit.value <= MAXIMUM_PAGE_LIMIT ==> r == limit.value
    ensures limit.None? || limit.value < 1 ==> r == 20
    ensures limit.Some? && limit.value > 100 ==> r == 100
  {
    var n := if limit.Some? then limit.value else DEFAULT_PAGE_LIMIT;
    var m := if n < 1 then DEFAULT_PAGE_LIMIT else n;
    if m > MAXIMUM_PAGE_LIMIT then MAXIMUM_PAGE_LIMIT else m
  }

  /** The offset of the first item of a page. */
  function PageStart(page: int, limit: int): (start: int)
    requires page >= 1 && limit >= 1
    ensures start >= page - 1
  {
    ProductAtLeast(page - 1, limit);
    (page - 1) * limit
  }

  lemma ProductAtLeast(n: int, limit: int)
    requires n >= 0 && limit >= 1
    ensures n <= n * limit
  {
  }

  function NormalizePaginationParams(p: Params): (r: Request)
    ensures r.page >= 1 && r.limit == NormalizeLimit(p.limit)
    ensures p.page.Some? && p.page.value >= 1 ==> r.page == p.page.value
    ensures p.page.Some? && p.page.value < 1 ==> r.page == 1
    ensures p.page.None? && (p.offset.None? || p.offset.value < 0) ==> r.page == 1
    ensures (p.offset.None? || p.offset.value < 0) ==> r.offset == PageStart(r.page, r.limit)
    ensures p.offset.Some? && p.offset.value >= 0 ==> r.offset == p.offset.value
    ensures p.offset.Some? && p.offset.value >= 0 && p.page.None? ==>
      PageStart(r.page, r.limit) <= r.offset < PageStart(r.page + 1, r.limit)
  {
    var limit := NormalizeLimit(p.limit);
    var hasOffset := p.offset.Some? && p.offset.value >= 0;
    if hasOffset && p.page.None? then
      FloorBelow(p.offset.value, limit, 0);
      FloorBelow(p.offset.value, limit, p.offset.value / limit);
      FloorBelow(p.offset.value, limit, p.offset.value / limit + 1);
      Request(p.offset.value / limit + 1, limit, p.offset.value)
    else
      var raw := if p.page.Some? then p.page.value else 1;
      var page := if raw < 1 then 1 else raw;
      Request(page, limit, if hasOffset then p.offset.value else PageStart(page, limit))
  }

  function OneIfZero(n: int): int {
    if n == 0 then 1 else n
  }

  function Or<T>(o: Option<T>, otherwise: T): T {
    if o.Some? then o.value else otherwise
  }

  function FetchPage<T>(fetcher: Fetcher<T>, params: Params): PageResult<T> {
    var n := NormalizePaginationParams(params);
    match fetcher(n)
    case Bare(items) =>
      PageResult(items, PageMeta(
        |items|, n.page, n.limit, OneIfZero(CeilDiv(|items|, n.limit)), |items| == n.limit, n.page > 1))
    case Object(data, rawTotal, meta) =>
      var providedTotal := if rawTotal.Some? then rawTotal else meta.total;
      var total := if providedTotal.None? then |data| else if providedTotal.value > 0 then providedTotal.value else 0;
      var totalPages := Or(
        meta.totalPages,
        if providedTotal.Some? then CeilDiv(total, n.limit) else OneIfZero(CeilDiv(|data|, n.limit)));
      var hasNext := Or(
        meta.hasNext, if providedTotal.Some? then n.page < totalPages else |data| == n.limit);
      PageResult(data, PageMeta(total, n.page, n.limit, totalPages, hasNext, Or(meta.hasPrev, n.page > 1)))
  }

  /** The total in use: the response's or that of its metadata, never below zero; without either the page's length. */
  predicate IsTotal<T>(raw: Raw<T>, total: int) {
    match raw
    case Bare(items) => total == |items|
    case Object(data, Some(n), _) => total == Max(0, n)
    case Object(data, None, meta) => if meta.total.Some? then total == Max(0, meta.total.value) else total == |data|
  }

  /** The response or its metadata names a total. */
  predicate NamesTotal<T>(raw: Raw<T>) {
    raw.Object? && (raw.total.Some? || raw.meta.total.Some?)
  }

  /** Just enough pages of `limit` for `n` items. */
  predicate EnoughPages(pages: int, n: int, limit: int) {
    (pages - 1) * limit < n <= pages * limit
  }

  /** Pages are counted by a named total, or by the page itself but then at least one. */
  predicate CountsPages<T>(raw: Raw<T>, r: Request, p: PageResult<T>) {
    if NamesTotal(raw) then EnoughPages(p.meta.totalPages, p.meta.total, r.limit)
    else EnoughPages(p.meta.totalPages, Max(1, |p.data|), r.limit)
  }

  /** There is a next page while a named total has more, or while the page is full. */
  predicate HasMore<T>(raw: Raw<T>, r: Request, p: PageResult<T>) {
    if NamesTotal(raw) then r.page < p.meta.totalPages else |p.data| == r.limit
  }

  /** What a page reports, whatever the fetcher answers; metadata of the provider goes before what is worked out. */
  ghost predicate ReportsPage<T>(raw: Raw<T>, r: Request, p: PageResult<T>) {
    && p.meta.page == r.page && p.meta.limit == r.limit && IsTotal(raw, p.meta.total)
    && match raw
       case Bare(items) =>
         && p.data == items && CountsPages(raw, r, p)
         && (p.meta.hasNext <==> HasMore(raw, r, p)) && (p.meta.hasPrev <==> r.page > 1)
       case Object(data, _, meta) =>
         && p.data == data
         && (if meta.totalPages.Some? then p.meta.totalPages == meta.totalPages.value else CountsPages(raw, r, p))
         && (if meta.hasNext.Some? then p.meta.hasNext == meta.hasNext.value else p.meta.hasNext == HasMore(raw, r, p))
         && (if meta.hasPrev.Some? then p.meta.hasPrev == meta.hasPrev.value else p.meta.hasPrev == (r.page > 1))
  }

  lemma FetchReports<T>(fetcher: Fetcher<T>, params: Params)
    ensures var r := NormalizePaginationParams(params); ReportsPage(fetcher(r), r, FetchPage(fetcher, params))
  {
    hide NormalizePaginationParams, CeilDiv, NormalizeLimit;
    var r, p := NormalizePaginationParams(params), FetchPage(fetcher, params);
    PagesOf(|p.data|, r.limit);
  }

  lemma PagesOf(n: nat, limit: int)
    requires limit > 0
    ensures EnoughPages(OneIfZero(CeilDiv(n, limit)), Max(1, n), limit)
  {
    if n == 0 {
      CeilDivOfZero(limit);
    } else {
      CeilDivPositive(n, limit);
    }
  }

  lemma CeilDivOfZero(d: int)
    requires d > 0
    ensures CeilDiv(0, d) == 0
  {
    FloorBelow(0, d, 0);
  }

  lemma CeilDivPositive(n: int, d: int)
    requires n > 0 && d > 0
    ensures CeilDiv(n, d) >= 1
  {
    FloorBelow(-n, d, 0);
  }

  // ---------------------------------------------------------------------------------------------
  // Fetchers that serve a fixed list
  // ---------------------------------------------------------------------------------------------

  /** How a fetcher answers: with the list's total or as a bare array, by the requested offset or by the page. */
  datatype Style = Style(withTotal: bool, byOffset: bool)

  /** At most `limit` items from position `from` on. */
  function Slice<T>(items: seq<T>, from: int, limit: int): (r: seq<T>)
    requires from >= 0 && limit >= 1
    ensures |r| <= limit
  {
    if from + limit <= |items| then items[from..from + limit]
    else if from <= |items| then items[from..]
    else []
  }

  function Asked<T>(items: seq<T>, style: Style, r: Request): seq<T>
    requires r.page >= 1 && r.limit >= 1 && r.offset >= 0
  {
    Slice(items, if style.byOffset then r.offset else PageStart(r.page, r.limit), r.limit)
  }

  ghost predicate Serves<T(!new)>(fetcher: Fetcher<T>, items: seq<T>, style: Style) {
    forall r: Request | r.page >= 1 && r.limit >= 1 && r.offset >= 0 ::
      fetcher(r) ==
      if style.withTotal then
        Object(Asked(items, style, r), Some(|items|), PartialMeta(None, None, None, None))
      else
        Bare(Asked(items, style, r))
  }

  lemma FetchServed<T(!new)>(fetcher: Fetcher<T>, items: seq<T>, style: Style, params: Params)
    requires Serves(fetcher, items, style)
    ensures var p, r := FetchPage(fetcher, params), NormalizePaginationParams(params);
      && p.data == Asked(items, style, r)
      && p.meta.hasNext == (if style.withTotal then r.page < CeilDiv(|items|, r.limit) else |p.data| == r.limit)
      && (p.meta.hasPrev <==> r.page > 1) && p.meta.page == r.page && p.meta.limit == r.limit
      && p.meta.total == (if style.withTotal then |items| else |p.data|)
  {
    var r := NormalizePaginationParams(params);
    assert r.page >= 1 && r.limit >= 1 && r.offset >= 0;
  }

  // ---------------------------------------------------------------------------------------------
  // What a walk sees
  // ---------------------------------------------------------------------------------------------

  /** The list as one walk is served it; `fixed` is the offset at which every page is requested, if any. */
  datatype View<T> = View(items: seq<T>, withTotal: bool, fixed: Option<int>, limit: int)

  predicate Proper<T>(v: View<T>) {
    v.limit >= 1 && (v.fixed.Some? ==> v.fixed.value >= 0)
  }

  /** An offset option is sent along with every page, and a fetcher that honours offsets obeys it. */
  function ViewOf<T>(items: seq<T>, style: Style, options: Params): (v: View<T>)
    ensures Proper(v)
  {
    View(
      items, style.withTotal,
      if style.byOffset && options.offset.Some? && options.offset.value >= 0 then options.offset else None,
      NormalizeLimit(options.limit))
  }

  function EffectivePage(page: int): int {
    if page < 1 then 1 else page
  }

  function DataAt<T>(v: View<T>, page: int): (r: seq<T>)
    requires Proper(v)
    ensures |r| <= v.limit
  {
    Slice(v.items, if v.fixed.Some? then v.fixed.value else PageStart(EffectivePage(page), v.limit), v.limit)
  }

  /** The walk asks for another page after `page`. */
  predicate GoesOn<T>(v: View<T>, page: int)
    requires Proper(v)
  {
    && DataAt(v, page) != []
    && if v.withTotal then EffectivePage(page) < CeilDiv(|v.items|, v.limit) else |DataAt(v, page)| == v.limit
  }

  /** Walks under these limits come to an end. */
  predicate Ends<T>(v: View<T>, left: Option<int>, max: Option<int>)
    requires Proper(v)
  {
    v.fixed.None? || v.withTotal || left.Some? || max.Some? || |DataAt(v, 1)| < v.limit
  }

  function OneLess(left: Option<int>): Option<int> {
    if left.Some? then Some(left.value - 1) else None
  }

  /** At most `max` items of `s`. */
  function Cut<T>(s: seq<T>, max: Option<int>): seq<T> {
    if max.None? || max.value >= |s| then s
    else if max.value <= 0 then []
    else s[..max.value]
  }

  function Drop<T>(s: seq<T>, n: int): seq<T> {
    if n <= 0 then s else if n >= |s| then [] else s[n..]
  }

  function Times(left: Option<int>, limit: int): Option<int> {
    if left.Some? then Some(left.value * limit) else None
  }

  function Minus(max: Option<int>, n: int): Option<int> {
    if max.Some? then Some(max.value - n) else None
  }

  /** What bounds the rest of a walk. */
  function Budget<T>(v: View<T>, page: int, left: Option<int>, max: Option<int>): (n: int)
    requires Proper(v)
    ensures n >= 0
  {
    if v.fixed.None? then Max(0, |v.items| + 1 - page)
    else if v.withTotal then Max(0, CeilDiv(|v.items|, v.limit) - page)
    else if left.Some? then Max(0, left.value)
    else if max.Some? then Max(0, max.value)
    else 0
  }

  /** An item of the page meets the item limit. */
  predicate Stops<T>(data: seq<T>, max: Option<int>) {
    max.Some? && data != [] && max.value < |data|
  }

  lemma BudgetFalls<T>(v: View<T>, page: int, left: Option<int>, max: Option<int>)
    requires Proper(v) && Ends(v, left, max) && GoesOn(v, page) && (left.Some? ==> left.value > 0)
    requires !Stops(DataAt(v, page), max)
    ensures Budget(v, page + 1, OneLess(left), Minus(max, |DataAt(v, page)|)) < Budget(v, page, left, max)
    ensures Ends(v, OneLess(left), Minus(max, |DataAt(v, page)|))
  {
    if v.fixed.None? {
      assert PageStart(EffectivePage(page), v.limit) < |v.items|;
    }
  }

  /** All items of a walk from `page` on that fetches at most `left` pages and yields at most `max` items. */
  function Walked<T>(v: View<T>, page: int, left: Option<int>, max: Option<int>): seq<T>
    requires Proper(v) && Ends(v, left, max)
    decreases Budget(v, page, left, max)
  {
    if left.Some? && left.value <= 0 then
      []
    else
      var data := DataAt(v, page);
      if GoesOn(v, page) && !Stops(data, max) then
        BudgetFalls(v, page, left, max);
        Cut(data, max) + Walked(v, page + 1, OneLess(left), Minus(max, |data|))
      else
        Cut(data, max)
  }

  /** Some page from `page` on is the last one that a walk without limits asks for. */
  ghost predicate ReachesLast<T>(v: View<T>, page: int)
    requires Proper(v)
  {
    exists q :: q >= page && !GoesOn(v, q)
  }

  /** Without limits a walk comes to an end except at a fixed offset, in bare arrays, with a full page left. */
  lemma WalkEndsIff<T>(v: View<T>, page: int)
    requires Proper(v)
    ensures ReachesLast(v, page) <==> Ends(v, None, None)
  {
    if Ends(v, None, None) {
      var q := Max(page, Max(|v.items| + 1, CeilDiv(|v.items|, v.limit)));
      assert !GoesOn(v, q);
    }
  }

  // ---------------------------------------------------------------------------------------------
  // Collecting
  // ---------------------------------------------------------------------------------------------

  /** The inner loop over one page; `stopped` when an item met the item limit. */
  method YieldItems<T>(data: seq<T>, collected: seq<T>, maxItems: Option<int>)
    returns (results: seq<T>, stopped: bool)
    ensures results == collected + Cut(data, Minus(maxItems, |collected|))
    ensures stopped <==> Stops(data, Minus(maxItems, |collected|))
  {
    results := collected;
    var i := 0;
    while i < |data|
      invariant 0 <= i <= |data|
      invariant results == collected + data[..i]
      invariant maxItems.Some? && i > 0 ==> |collected| + i <= maxItems.value
    {
      if maxItems.Some? && |results| >= maxItems.value {
        return results, true;
      }
      assert data[..i + 1] == data[..i] + [data[i]];
      results := results + [data[i]];
      i := i + 1;
    }
    stopped := false;
  }

  /** One turn of the loop: fetch a page and yield its items; `more` when the walk goes on. */
  method YieldPage<T(!new)>(
    fetcher: Fetcher<T>, options: Params, page: int, collected: seq<T>, maxItems: Option<int>,
    ghost items: seq<T>, ghost style: Style)
    returns (results: seq<T>, more: bool)
    requires Serves(fetcher, items, style)
    ensures var v := ViewOf(items, style, options);
      && results == collected + Cut(DataAt(v, page), Minus(maxItems, |collected|))
      && (more <==> GoesOn(v, page) && !Stops(DataAt(v, page), Minus(maxItems, |collected|)))
      && (more ==> |results| == |collected| + |DataAt(v, page)|)
  {
    var params := options.(page := Some(page));
    FetchServed(fetcher, items, style, params);
    var pageResult := FetchPage(fetcher, params);
    var stopped;
    results, stopped := YieldItems(pageResult.data, collected, maxItems);
    more := !stopped && pageResult.meta.hasNext && |pageResult.data| != 0;
  }

  /** What is still to come when the walk has collected `collected` and stands before `page`. */
  ghost predicate StillToCome<T>(
    whole: seq<T>, v: View<T>, page: int, left: Option<int>, max: Option<int>, collected: seq<T>)
    requires Proper(v)
  {
    Ends(v, left, Minus(max, |collected|)) && whole == collected + Walked(v, page, left, Minus(max, |collected|))
  }

  lemma OnePage<T>(
    whole: seq<T>, v: View<T>, page: int, left: Option<int>, max: Option<int>, collected: seq<T>, results: seq<T>)
    requires Proper(v) && StillToCome(whole, v, page, left, max, collected)
    requires left.Some? ==> left.value > 0
    requires results == collected + Cut(DataAt(v, page), Minus(max, |collected|))
    ensures var rest, data := Minus(max, |collected|), DataAt(v, page);
      if GoesOn(v, page) && !Stops(data, rest) then
        && StillToCome(whole, v, page + 1, OneLess(left), max, results)
        && Budget(v, page + 1, OneLess(left), Minus(max, |results|)) < Budget(v, page, left, rest)
      else
        whole == results
  {
    var rest, data := Minus(max, |collected|), DataAt(v, page);
    if GoesOn(v, page) && !Stops(data, rest) {
      BudgetFalls(v, page, left, rest);
      assert Cut(data, rest) == data && Minus(rest, |data|) == Minus(max, |results|);
      Regroup(collected, data, Walked(v, page + 1, OneLess(left), Minus(rest, |data|)));
    }
  }

  /** Pages are fetched one after the other until the last one, the page limit or the item limit. */
  method IterateItems<T(!new)>(
    fetcher: Fetcher<T>, options: Params, maxPages: Option<int>, maxItems: Option<int>,
    ghost items: seq<T>, ghost style: Style)
    returns (results: seq<T>)
    requires Serves(fetcher, items, style) && Ends(ViewOf(items, style, options), maxPages, maxItems)
    ensures results == Walked(ViewOf(items, style, options), Or(options.page, 1), maxPages, maxItems)
  {
    hide Walked, Ends, Budget, GoesOn, Serves, ViewOf, DataAt, Stops;
    ghost var v := ViewOf(items, style, options);
    results := [];
    var currentPage := Or(options.page, 1);
    var pagesFetched := 0;
    ghost var left := maxPages;
    ghost var whole := Walked(v, currentPage, left, maxItems);
    assert [] + whole == whole && Minus(maxItems, 0) == maxItems;
    while maxPages.None? || pagesFetched < maxPages.value
      invariant left == Minus(maxPages, pagesFetched)
      invariant StillToCome(whole, v, currentPage, left, maxItems, results)
      decreases Budget(v, currentPage, left, Minus(maxItems, |results|))
    {
      ghost var before := results;
      var more;
      results, more := YieldPage(fetcher, options, currentPage, results, maxItems, items, style);
      OnePage(whole, v, currentPage, left, maxItems, before, results);
      if !more {
        return;
      }
      pagesFetched := pagesFetched + 1;
      currentPage := currentPage + 1;
      left := OneLess(left);
    }
    NothingLeft(whole, v, currentPage, left, maxItems, results);
  }

  lemma NothingLeft<T>(
    whole: seq<T>, v: View<T>, page: int, left: Option<int>, max: Option<int>, collected: seq<T>)
    requires Proper(v) && StillToCome(whole, v, page, left, max, collected) && left.Some? && left.value <= 0
    ensures whole == collected
  {
  }

  /**
   The walk's items. Without an offset that the fetcher obeys: the list from page `page >= 1` on, cut to the pages
   and items allowed, with no gaps and no repeats.
   */
  method CollectAllPages<T(!new)>(
    fetcher: Fetcher<T>, options: Params, maxPages: Option<int>, maxItems: Option<int>,
    ghost items: seq<T>, ghost style: Style)
    returns (results: seq<T>)
    requires Serves(fetcher, items, style) && Ends(ViewOf(items, style, options), maxPages, maxItems)
    ensures results == Walked(ViewOf(items, style, options), Or(options.page, 1), maxPages, maxItems)
    ensures ViewOf(items, style, options).fixed.None? && Or(options.page, 1) >= 1 ==>
      var limit := NormalizeLimit(options.limit);
      results == Cut(Cut(Drop(items, PageStart(Or(options.page, 1), limit)), Times(maxPages, limit)), maxItems)
  {
    results := IterateItems(fetcher, options, maxPages, maxItems, items, style);
    if ViewOf(items, style, options).fixed.None? && Or(options.page, 1) >= 1 {
      WalkIsTheList(ViewOf(items, style, options), Or(options.page, 1), maxPages, maxItems);
    }
  }

  // ---------------------------------------------------------------------------------------------
  // Walks page by page
  // ---------------------------------------------------------------------------------------------

  lemma CutAppend<T>(a: seq<T>, b: seq<T>, max: Option<int>)
    ensures Cut(a + b, max) == if max.Some? && max.value <= |a| then Cut(a, max) else a + Cut(b, Minus(max, |a|))
  {
  }

  lemma NextPageStarts(page: int, limit: int)
    requires page >= 1 && limit >= 1
    ensures PageStart(page + 1, limit) == PageStart(page, limit) + limit
  {
  }

  /** `ceil(n / limit)` is the last page that starts within the list. */
  lemma LastPageIs(n: int, page: int, limit: int)
    requires page >= 1 && limit >= 1
    ensures page < CeilDiv(n, limit) <==> PageStart(page + 1, limit) < n
  {
    FloorBelow(-n, limit, -page);
    assert -page * limit == -PageStart(page + 1, limit);
  }

  /** A page with a successor is full and the list goes on after it; otherwise nothing follows. */
  lemma PageSplits<T>(v: View<T>, page: int)
    requires Proper(v) && v.fixed.None? && page >= 1
    ensures var data, rest := DataAt(v, page), Drop(v.items, PageStart(page + 1, v.limit));
      && Drop(v.items, PageStart(page, v.limit)) == data + rest
      && (GoesOn(v, page) ==> |data| == v.limit)
      && (!GoesOn(v, page) ==> rest == [])
  {
    NextPageStarts(page, v.limit);
    LastPageIs(|v.items|, page, v.limit);
  }

  lemma TimesSign(n: int, limit: int)
    requires limit >= 1
    ensures n <= 0 ==> n * limit <= 0
    ensures n >= 1 ==> n * limit == (n - 1) * limit + limit >= limit
  {
  }

  lemma CutFirstPage<T>(data: seq<T>, rest: seq<T>, left: Option<int>, limit: int)
    requires limit >= |data| && limit >= 1 && (left.Some? ==> left.value > 0)
    ensures rest == [] ==> Cut(data + rest, Times(left, limit)) == data
    ensures |data| == limit ==>
      Cut(data + rest, Times(left, limit)) == data + Cut(rest, Times(OneLess(left), limit))
  {
    if left.Some? {
      TimesSign(left.value, limit);
    }
  }

  /** A walk from page `page >= 1` sees the list from that page on, cut to the pages and items allowed. */
  lemma {:induction false} WalkIsTheList<T>(v: View<T>, page: int, left: Option<int>, max: Option<int>)
    requires Proper(v) && v.fixed.None? && page >= 1
    ensures Walked(v, page, left, max) ==
      Cut(Cut(Drop(v.items, PageStart(page, v.limit)), Times(left, v.limit)), max)
    decreases Budget(v, page, left, max)
  {
    var data, rest := DataAt(v, page), Drop(v.items, PageStart(page + 1, v.limit));
    if left.Some? && left.value <= 0 {
      TimesSign(left.value, v.limit);
    } else {
      PageSplits(v, page);
      CutFirstPage(data, rest, left, v.limit);
      CutAppend(data, Cut(rest, Times(OneLess(left), v.limit)), max);
      if GoesOn(v, page) && !Stops(data, max) {
        BudgetFalls(v, page, left, max);
        WalkIsTheList(v, page + 1, OneLess(left), Minus(max, |data|));
      }
    }
  }

  // ---------------------------------------------------------------------------------------------
  // Page numbers below one
  // ---------------------------------------------------------------------------------------------

  lemma NothingAllowed<T>(v: View<T>, page: int, left: Option<int>)
    requires Proper(v) && Ends(v, left, Some(0))
    ensures Walked(v, page, left, Some(0)) == []
  {
  }

  /**
   In a list without repeated items, a walk from a page below one agrees with one from page 1 exactly when the
   first page is the last, or the limits allow no more than that page.
   */
  lemma LowPageIsFirstIff<T>(v: View<T>, page: int, left: Option<int>, max: Option<int>)
    requires Proper(v) && v.fixed.None? && page < 1
    requires forall i, j | 0 <= i < j < |v.items| :: v.items[i] != v.items[j]
    ensures Walked(v, page, left, max) == Walked(v, 1, left, max)
      <==>
      !GoesOn(v, 1) || (left.Some? && left.value <= 1) || (max.Some? && max.value <= v.limit)
  {
    if GoesOn(v, 1) && (left.Some? ==> left.value > 0) {
      var first := DataAt(v, 1);
      PageSplits(v, 1);
      assert GoesOn(v, page) && DataAt(v, page) == first;
      if !Stops(first, max) {
        var left', max' := OneLess(left), Minus(max, |first|);
        assert Walked(v, page, left, max) == Cut(first, max) + Walked(v, page + 1, left', max');
        assert Walked(v, 1, left, max) == Cut(first, max) + Walked(v, 2, left', max');
        if max' == Some(0) {
          NothingAllowed(v, page + 1, left');
          NothingAllowed(v, 2, left');
        } else if left'.None? || left'.value > 0 {
          SecondPagesDiffer(v, page + 1, left', max');
          SameFront(Cut(first, max), Walked(v, page + 1, left', max'), Walked(v, 2, left', max'));
        }
      }
    }
  }

  lemma SameFront<T>(a: seq<T>, b: seq<T>, c: seq<T>)
    requires b != c
    ensures a + b != a + c
  {
    assert (a + b)[|a|..] == b;
    assert (a + c)[|a|..] == c;
  }

  /** One walk yields the first item again, the other does not. */
  lemma SecondPagesDiffer<T>(v: View<T>, page: int, left: Option<int>, max: Option<int>)
    requires Proper(v) && v.fixed.None? && page <= 1 && GoesOn(v, 1) && |DataAt(v, 1)| == v.limit
    requires (left.Some? ==> left.value > 0) && (max.Some? ==> max.value > 0)
    requires forall i, j | 0 <= i < j < |v.items| :: v.items[i] != v.items[j]
    ensures Walked(v, page, left, max) != Walked(v, 2, left, max)
  {
    var low, second := Walked(v, page, left, max), Walked(v, 2, left, max);
    assert DataAt(v, page) == DataAt(v, 1) && Cut(DataAt(v, page), max) != [];
    assert low != [] && low[0] == v.items[0];
    NextPageStarts(1, v.limit);
    if second != [] {
      assert DataAt(v, 2) != [] && second[0] == v.items[v.limit];
    }
  }

  /** Without limits a walk from a page below one returns the list exactly when the first page is the last. */
  lemma LowPageIsTheListIff<T>(v: View<T>, page: int)
    requires Proper(v) && v.fixed.None? && page < 1
    ensures Walked(v, page, None, None) == v.items <==> !GoesOn(v, 1)
  {
    PageSplits(v, 1);
    assert DataAt(v, page) == DataAt(v, 1);
    if GoesOn(v, 1) {
      LowPageIsLonger(v, page);
    }
  }

  lemma {:induction false} LowPageIsLonger<T>(v: View<T>, page: int)
    requires Proper(v) && v.fixed.None? && page < 1 && GoesOn(v, 1)
    ensures |Walked(v, page, None, None)| > |v.items|
    decreases -page
  {
    PageSplits(v, 1);
    assert DataAt(v, page) == DataAt(v, 1);
    if page < 0 {
      LowPageIsLonger(v, page + 1);
    } else {
      WalkIsTheList(v, 1, None, None);
    }
  }

  // ---------------------------------------------------------------------------------------------
  // Walks at a fixed offset
  // ---------------------------------------------------------------------------------------------

  function Repeat<T>(s: seq<T>, count: int): seq<T>
    decreases count
  {
    if count <= 0 then [] else s + Repeat(s, count - 1)
  }

  /** Bare arrays with a full page left: the same page, as many times as pages are allowed. */
  lemma {:induction false} FullPageRepeats<T>(v: View<T>, page: int, pages: nat)
    requires Proper(v) && v.fixed.Some? && !v.withTotal && |DataAt(v, 1)| == v.limit
    ensures Walked(v, page, Some(pages), None) == Repeat(DataAt(v, 1), pages)
    decreases pages
  {
    if pages > 0 {
      assert DataAt(v, page) == DataAt(v, 1);
      FullPageRepeats(v, page + 1, pages - 1);
      assert Repeat(DataAt(v, 1), pages) == DataAt(v, 1) + Repeat(DataAt(v, 1), pages - 1);
      if pages == 1 {
        assert Walked(v, page + 1, Some(0), None) == [];
      }
    }
  }

  /** The smaller of two limits. */
  function Fewer(a: Option<int>, b: Option<int>): Option<int> {
    if a.None? then b else if b.None? then a else Some(Min(a.value, b.value))
  }

  /** How many pages a walk asks for at a fixed offset with something left there, unless there is no end to them. */
  function PagesThere<T>(v: View<T>, page: int): (pages: Option<int>)
    requires Proper(v)
    ensures pages.Some? ==> pages.value >= 1
  {
    if v.withTotal then
      var last := CeilDiv(|v.items|, v.limit);
      Some(if EffectivePage(page) < last then last - page + 1 else 1)
    else if |DataAt(v, 1)| < v.limit then Some(1)
    else None
  }

  /** How many items those pages hold, within the limits. */
  function Yield<T>(v: View<T>, page: int, left: Option<int>, max: Option<int>): int
    requires Proper(v) && Ends(v, left, max) && v.fixed.Some?
  {
    var data := DataAt(v, 1);
    if data == [] then 0
    else Max(0, Fewer(Times(Fewer(PagesThere(v, page), left), |data|), max).value)
  }

  /** What a walk at a fixed offset should return: the list from there on, cut to the pages and items allowed. */
  function Wanted<T>(v: View<T>, left: Option<int>, max: Option<int>): seq<T>
    requires Proper(v) && v.fixed.Some?
  {
    Cut(Cut(Drop(v.items, v.fixed.value), Times(left, v.limit)), max)
  }

  /** The length of that list. */
  function Due<T>(v: View<T>, left: Option<int>, max: Option<int>): int
    requires Proper(v) && v.fixed.Some?
  {
    Max(0, Fewer(Fewer(Some(|v.items| - v.fixed.value), Times(left, v.limit)), max).value)
  }

  /** Each item is the one `limit` places before it. */
  predicate Periodic<T(==)>(items: seq<T>, limit: nat) {
    forall i | limit <= i < |items| :: items[i] == items[i - limit]
  }

  lemma PeriodicGrows<T>(data: seq<T>, rest: seq<T>)
    requires Periodic(data + rest, |data|)
    ensures Periodic(data + (data + rest), |data|)
  {
    forall i | |data| <= i < |data + (data + rest)|
      ensures (data + (data + rest))[i] == (data + (data + rest))[i - |data|]
    {
      assert i >= 2 * |data| ==> (data + rest)[i - |data|] == (data + rest)[i - |data| - |data|];
    }
  }

  lemma ProductMonotone(a: int, b: int, k: nat)
    requires a <= b
    ensures a * k <= b * k
  {
  }

  lemma OneMoreRound(pages: Option<int>, size: nat, max: Option<int>)
    requires (pages.Some? ==> pages.value >= 1) && (max.Some? ==> max.value >= size) && (pages.Some? || max.Some?)
    ensures Max(0, Fewer(Times(pages, size), max).value)
      == size + Max(0, Fewer(Times(OneLess(pages), size), Minus(max, size)).value)
  {
    if pages.Some? {
      assert pages.value * size == (pages.value - 1) * size + size;
      ProductMonotone(0, pages.value - 1, size);
    }
  }

  lemma OneLessPage<T>(v: View<T>, page: int, left: Option<int>, max: Option<int>)
    requires Proper(v) && Ends(v, left, max) && v.fixed.Some? && (left.Some? ==> left.value > 0)
    requires GoesOn(v, page)
    ensures var pages := Fewer(PagesThere(v, page), left);
      (pages.Some? ==> pages.value >= 1) && (pages.Some? || max.Some?)
    ensures Fewer(PagesThere(v, page + 1), OneLess(left)) == OneLess(Fewer(PagesThere(v, page), left))
    ensures DataAt(v, page) == DataAt(v, 1)
  {
  }

  /** What one more page adds. */
  lemma YieldGrows<T>(v: View<T>, page: int, left: Option<int>, max: Option<int>)
    requires Proper(v) && Ends(v, left, max) && v.fixed.Some? && (left.Some? ==> left.value > 0)
    requires GoesOn(v, page) && !Stops(DataAt(v, page), max)
    ensures var data := DataAt(v, page);
      && Ends(v, OneLess(left), Minus(max, |data|))
      && Yield(v, page, left, max) == |data| + Yield(v, page + 1, OneLess(left), Minus(max, |data|))
  {
    hide Max, Fewer, Times, PagesThere;
    OneLessPage(v, page, left, max);
    BudgetFalls(v, page, left, max);
    OneMoreRound(Fewer(PagesThere(v, page), left), |DataAt(v, page)|, max);
  }

  /** The last page of a walk. */
  lemma YieldOfLast<T>(v: View<T>, page: int, left: Option<int>, max: Option<int>)
    requires Proper(v) && Ends(v, left, max) && v.fixed.Some? && (left.Some? ==> left.value > 0)
    requires !GoesOn(v, page) || Stops(DataAt(v, page), max)
    ensures Yield(v, page, left, max) == |Cut(DataAt(v, page), max)|
  {
    var data := DataAt(v, page);
    assert data == DataAt(v, 1);
    var pages := Fewer(PagesThere(v, page), left);
    if pages.Some? {
      ProductMonotone(1, pages.value, |data|);
      assert !GoesOn(v, page) && data != [] ==> pages.value == 1;
    }
  }

  /** From any page, under any limits: the one page over and over, and how many items of it. */
  lemma {:induction false} WalkGoesRound<T>(v: View<T>, page: int, left: Option<int>, max: Option<int>)
    requires Proper(v) && Ends(v, left, max) && v.fixed.Some?
    ensures var data, walked := DataAt(v, 1), Walked(v, page, left, max);
      Periodic(data + walked, |data|) && |walked| == Yield(v, page, left, max)
    decreases Budget(v, page, left, max)
  {
    var data := DataAt(v, page);
    assert data == DataAt(v, 1);
    if left.Some? && left.value <= 0 {
      NoPagesAllowed(v, page, left, max);
    } else if GoesOn(v, page) && !Stops(data, max) {
      BudgetFalls(v, page, left, max);
      YieldGrows(v, page, left, max);
      var rest := Walked(v, page + 1, OneLess(left), Minus(max, |data|));
      WalkGoesRound(v, page + 1, OneLess(left), Minus(max, |data|));
      assert Walked(v, page, left, max) == data + rest;
      PeriodicGrows(data, rest);
    } else {
      YieldOfLast(v, page, left, max);
      assert Walked(v, page, left, max) == Cut(data, max);
    }
  }

  lemma NoPagesAllowed<T>(v: View<T>, page: int, left: Option<int>, max: Option<int>)
    requires Proper(v) && Ends(v, left, max) && v.fixed.Some? && left.Some? && left.value <= 0
    ensures Yield(v, page, left, max) == 0
  {
    ProductMonotone(Fewer(PagesThere(v, page), left).value, 0, |DataAt(v, 1)|);
  }

  lemma DueIsLength<T>(v: View<T>, left: Option<int>, max: Option<int>)
    requires Proper(v) && v.fixed.Some?
    ensures |Wanted(v, left, max)| == Due(v, left, max)
  {
  }

  lemma {:induction false} SameRound<T>(data: seq<T>, s: seq<T>, t: seq<T>, i: nat)
    requires data != [] && Periodic(data + s, |data|) && Periodic(data + t, |data|) && i < |s| && i < |t|
    ensures s[i] == t[i]
    decreases i
  {
    assert (data + s)[i + |data|] == (data + s)[i] && (data + t)[i + |data|] == (data + t)[i];
    if i >= |data| {
      SameRound(data, s, t, i - |data|);
    }
  }

  /** The first page and the list wanted begin alike, and only a full page has a successor. */
  lemma WantedBegins<T>(v: View<T>, left: Option<int>, max: Option<int>)
    requires Proper(v) && v.fixed.Some?
    ensures var data, wanted := DataAt(v, 1), Wanted(v, left, max);
      && (forall i | 0 <= i < |wanted| && i < |data| :: wanted[i] == data[i])
      && (|data| == v.limit || |wanted| <= |data|)
  {
    var data, rest := DataAt(v, 1), Drop(v.items, v.fixed.value);
    var wanted := Wanted(v, left, max);
    assert forall i | 0 <= i < |wanted| :: wanted[i] == rest[i];
    assert forall i | 0 <= i < |data| :: data[i] == rest[i];
  }

  /** A list that begins like a page goes round that page exactly when it repeats at that distance. */
  lemma GoesRoundIff<T>(data: seq<T>, wanted: seq<T>)
    requires forall i | 0 <= i < |wanted| && i < |data| :: wanted[i] == data[i]
    ensures Periodic(data + wanted, |data|) <==> Periodic(wanted, |data|)
  {
    var both := data + wanted;
    if Periodic(both, |data|) {
      forall i | |data| <= i < |wanted|
        ensures wanted[i] == wanted[i - |data|]
      {
        assert both[i + |data|] == both[i];
      }
    }
    if Periodic(wanted, |data|) {
      forall i | |data| <= i < |both|
        ensures both[i] == both[i - |data|]
      {
        assert i >= 2 * |data| ==> wanted[i - |data|] == wanted[i - |data| - |data|];
      }
    }
  }

  /**
   A walk at a fixed offset that comes to an end returns the list from there on, cut to the pages and items allowed,
   exactly when it yields as many items as are due and those repeat from page to page.
   */
  lemma LimitedOffsetWalkIff<T>(v: View<T>, page: int, left: Option<int>, max: Option<int>)
    requires Proper(v) && Ends(v, left, max) && v.fixed.Some?
    ensures Walked(v, page, left, max) == Wanted(v, left, max)
      <==>
      Yield(v, page, left, max) == Due(v, left, max) && Periodic(Wanted(v, left, max), v.limit)
  {
    var data, walked, wanted := DataAt(v, 1), Walked(v, page, left, max), Wanted(v, left, max);
    WalkGoesRound(v, page, left, max);
    DueIsLength(v, left, max);
    WantedBegins(v, left, max);
    GoesRoundIff(data, wanted);
    if |walked| == |wanted| && Periodic(wanted, v.limit) && data != [] {
      forall i | 0 <= i < |walked|
        ensures walked[i] == wanted[i]
      {
        SameRound(data, walked, wanted, i);
      }
    }
  }

  /**
   A walk without limits, from any page, at offset `o`, should return the list from `o` on. With a total it does
   exactly when nothing is left at `o`, or one page is asked for and holds what is left, or several are and the list
   from `o` on is that many full pages, all alike. With bare arrays it comes to an end exactly when less than a page
   is left at `o`, and then it does.
   */
  lemma OffsetWalkIff<T>(v: View<T>, page: int)
    requires Proper(v) && v.fixed.Some?
    ensures var o, n, pages := v.fixed.value, |v.items|, PagesThere(v, page);
      v.withTotal ==>
        (Walked(v, page, None, None) == Drop(v.items, o)
         <==>
         || o >= n
         || (pages.value == 1 && n - o <= v.limit)
         || (pages.value > 1 && n - o == pages.value * v.limit && Periodic(Drop(v.items, o), v.limit)))
    ensures !v.withTotal ==> (ReachesLast(v, page) <==> |Drop(v.items, v.fixed.value)| < v.limit)
    ensures !v.withTotal && ReachesLast(v, page) ==> Walked(v, page, None, None) == Drop(v.items, v.fixed.value)
  {
    WalkEndsIff(v, page);
    if Ends(v, None, None) {
      LimitedOffsetWalkIff(v, page, None, None);
      var data, pages := DataAt(v, 1), PagesThere(v, page).value;
      assert Wanted(v, None, None) == Drop(v.items, v.fixed.value);
      if pages > 1 {
        ProductMonotone(2, pages, |data|);
      }
    }
  }

  /** From page 1: the list fits one page, or `o` is past its end, or the list is its first page over and over. */
  lemma FirstPageOffsetWalkIff<T>(v: View<T>)
    requires Proper(v) && v.fixed.Some? && v.withTotal
    ensures var o, n := v.fixed.value, |v.items|;
      Walked(v, 1, None, None) == Drop(v.items, o)
      <==> n <= v.limit || o >= n || (o == 0 && n % v.limit == 0 && Periodic(v.items, v.limit))
  {
    OffsetWalkIff(v, 1);
    CountOfPages(|v.items|, v.limit, Max(1, CeilDiv(|v.items|, v.limit)));
  }

  lemma CountOfPages(n: nat, limit: int, count: int)
    requires limit >= 1 && count == Max(1, CeilDiv(n, limit))
    ensures count * limit >= n
    ensures n <= limit ==> count == 1
    ensures n > limit ==> count >= 2 && (n == count * limit <==> n % limit == 0)
  {
    LastPageIs(n, 1, limit);
    if n > limit {
      MultipleIff(n, limit, count);
    }
  }

  lemma MultipleIff(n: nat, limit: int, count: int)
    requires limit >= 1 && (count - 1) * limit < n <= count * limit
    ensures n == count * limit <==> n % limit == 0
  {
    var q := n / limit;
    assert n == q * limit + n % limit;
    FloorBelow(n, limit, count);
    assert q <= count - 1 ==> q * limit <= (count - 1) * limit;
    assert q >= count ==> q * limit >= count * limit;
  }
}
