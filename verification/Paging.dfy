/** Searching several pages, and when the result is the slice that was asked for. */
module Paging {
  import opened Basics
  import opened RetryLoop
  import opened Scripts
  import Guarantees
  import Breaker
  import Errors
  import Proxies

  /** The results collected so far, and how the collection ended. */
  datatype Batch = Batch(items: seq<Item>, outcome: Outcome<()>, w: World)

  /** The distance between the offsets of two pages. */
  const PAGE: nat := 30

  /** The loop over the pages, from page `i` on. An empty page ends it without an error, and so does a
      page shorter than asked for. */
  function PagesFrom(cfg: Config, query: string, perPage: Positive, i: nat, pages: nat, offset: int,
                     all: seq<Item>, w: World): (b: Batch)
    ensures Continues(w, b.w)
    decreases pages - i
  {
    if i >= pages then Batch(all, Done(()), w)
    else
      var run := Search(cfg, query, perPage, offset + i * PAGE, w);
      match run.outcome
      case Unfinished => Batch(all, Unfinished, run.w)
      case Failed(e) => Batch(all, if Errors.Is(e, Errors.NoResults) then Done(()) else Failed(e), run.w)
      case Done(items) =>
        if |items| < perPage then Batch(all + items, Done(()), run.w)
        else PagesFrom(cfg, query, perPage, i + 1, pages, offset, all + items, run.w)
  }

  function Pages(cfg: Config, query: string, perPage: int, pages: int, offset: int, w: World): Batch {
    PagesFrom(cfg, query, PerPage(perPage), 0, PageCount(pages), offset, [], w)
  }

  function PerPage(perPage: int): Positive {
    if perPage <= 0 then PAGE else perPage
  }

  function PageCount(pages: int): Positive {
    if pages <= 0 then 1 else pages
  }

  /// Paging against a list that does not change

  /** What a server that returns at most thirty results from an offset leaves of them, when at most
      `n` are asked for. */
  function Slice(all: seq<Item>, offset: nat, n: nat): seq<Item> {
    all[Clip(all, offset)..Clip(all, offset + Min(n, PAGE))]
  }

  function Clip(all: seq<Item>, k: nat): (c: nat)
    ensures c <= |all|
  {
    Min(k, |all|)
  }

  /** The server answers a search from the list, with the (at most thirty) results from the offset on:
      the d.js reply holds them, or there is none with results and the HTML page holds them. */
  predicate Serves(all: seq<Item>, cfg: Config, query: string, offset: nat, w: World) {
    var warm := Warmup(cfg, w);
    var djs := Loop(cfg, Djs(query, offset), 0, warm.w);
    var html := Loop(cfg, Html(query, offset), 0, djs.w);
    var page := Slice(all, offset, PAGE);
    && warm.outcome.Done?
    && (|| (djs.outcome.Done? && djs.outcome.value.djs == Items(page) && (page != [] || cfg.noFallback))
        || (ComesToNothing(djs) && !cfg.noFallback && html.outcome.Done? && html.outcome.value.html == page))
  }

  /** A d.js loop that fails, or whose reply does not parse or holds no results. */
  predicate ComesToNothing(djs: Run<Body>) {
    djs.outcome.Failed? || (djs.outcome.Done? && (djs.outcome.value.djs.Garbled? || djs.outcome.value.djs == Items([])))
  }

  /** Every search that the page loop makes is answered from the list. */
  predicate Stable(all: seq<Item>, cfg: Config, query: string, perPage: Positive, i: nat, pages: nat,
                   offset: nat, w: World)
    decreases pages - i
  {
    i < pages ==>
      && Serves(all, cfg, query, offset + i * PAGE, w)
      && (|Slice(all, offset + i * PAGE, perPage)| == perPage ==>
            Stable(all, cfg, query, perPage, i + 1, pages, offset,
                   Search(cfg, query, perPage, offset + i * PAGE, w).w))
  }

  lemma SliceTakes(all: seq<Item>, offset: nat, n: Positive)
    ensures Slice(all, offset, n) == Take(Slice(all, offset, PAGE), n)
    ensures Slice(all, offset, n) == [] <==> Slice(all, offset, PAGE) == []
  {
    var a, b := Clip(all, offset), Clip(all, offset + PAGE);
    if n < PAGE {
      PartOfPart(all, a, b, Min(n, b - a));
    }
  }

  lemma PartOfPart(all: seq<Item>, a: nat, b: nat, m: nat)
    requires a <= b <= |all| && m <= b - a
    ensures all[a..b][..m] == all[a..a + m]
  {
  }

  /** The result of a search that is answered from the list. */
  lemma ServedSearch(all: seq<Item>, cfg: Config, query: string, perPage: Positive, offset: nat, w: World)
    requires query != "" && Serves(all, cfg, query, offset, w)
    ensures var run, page := Search(cfg, query, perPage, offset, w), Slice(all, offset, perPage);
            if page == [] then run.outcome.Failed? && Errors.Is(run.outcome.error, Errors.NoResults)
            else run.outcome == Done(page)
  {
    hide Loop, Warmup, Slice, Take;
    SliceTakes(all, offset, perPage);
    assert Errors.Chain(Errors.NoResults) == [Errors.NoResults];
    assert Errors.Chain(Errors.Wrapped(Errors.NoResults)) == [Errors.Wrapped(Errors.NoResults), Errors.NoResults];
  }

  /** The pages from `i` on, one after the other. */
  function Wanted(all: seq<Item>, perPage: Positive, i: nat, pages: nat, offset: nat): seq<Item>
    decreases pages - i
  {
    if i >= pages then []
    else Slice(all, offset + i * PAGE, perPage) + Wanted(all, perPage, i + 1, pages, offset)
  }

  lemma {:induction false} NothingLeft(all: seq<Item>, perPage: Positive, i: nat, pages: nat, offset: nat)
    requires |all| <= offset + i * PAGE
    ensures Wanted(all, perPage, i, pages, offset) == []
    decreases pages - i
  {
    if i < pages {
      NothingLeft(all, perPage, i + 1, pages, offset);
    }
  }

  lemma ShortMeansLast(all: seq<Item>, offset: nat, n: Positive)
    requires n <= PAGE
    ensures |Slice(all, offset, n)| < n ==> |all| <= offset + PAGE
    ensures |Slice(all, offset, n)| <= n
  {
  }

  /** With pages of at most thirty, the loop collects exactly the pages asked for: a short or empty
      page means that nothing is left. */
  lemma {:induction false} PagesCollect(all: seq<Item>, cfg: Config, query: string, perPage: Positive, i: nat,
                                        pages: nat, offset: nat, before: seq<Item>, w: World)
    requires perPage <= PAGE && query != "" && Stable(all, cfg, query, perPage, i, pages, offset, w)
    ensures var b := PagesFrom(cfg, query, perPage, i, pages, offset, before, w);
            b.items == before + Wanted(all, perPage, i, pages, offset) && b.outcome == Done(())
    decreases pages - i
  {
    hide Search, Slice, Serves;
    if i < pages {
      var page := Slice(all, offset + i * PAGE, perPage);
      ServedSearch(all, cfg, query, perPage, offset + i * PAGE, w);
      ShortMeansLast(all, offset + i * PAGE, perPage);
      if |page| < perPage {
        NothingLeft(all, perPage, i + 1, pages, offset);
      } else {
        PagesCollect(all, cfg, query, perPage, i + 1, pages, offset, before + page,
                     Search(cfg, query, perPage, offset + i * PAGE, w).w);
        assert before + page + Wanted(all, perPage, i + 1, pages, offset)
               == before + (page + Wanted(all, perPage, i + 1, pages, offset));
      }
    }
  }

  /** Paging equals slicing if and only if the page size is at most thirty, or one page was asked for,
      or one page holds all there is. With a larger page size the loop takes every page for the last. */
  lemma PagingIsSlicing(all: seq<Item>, cfg: Config, query: string, perPage: int, pages: int, offset: nat, w: World)
    requires query != "" && Stable(all, cfg, query, PerPage(perPage), 0, PageCount(pages), offset, w)
    ensures Pages(cfg, query, perPage, pages, offset, w).items
            == Wanted(all, PerPage(perPage), 0, PageCount(pages), offset)
            <==> perPage <= PAGE || PageCount(pages) == 1 || |all| <= offset + PAGE
  {
    hide Search, Serves;
    var n, m := PerPage(perPage), PageCount(pages);
    ServedSearch(all, cfg, query, n, offset, w);
    var first := Slice(all, offset, n);
    if perPage <= PAGE {
      PagesCollect(all, cfg, query, n, 0, m, offset, [], w);
    } else {
      assert |first| < n;
      assert [] + first == first && offset + 0 * PAGE == offset;
      assert Pages(cfg, query, perPage, pages, offset, w).items == first;
      var rest := Wanted(all, n, 1, m, offset);
      assert Wanted(all, n, 0, m, offset) == first + rest;
      if |all| <= offset + PAGE {
        NothingLeft(all, n, 1, m, offset);
      } else if m > 1 {
        assert |Slice(all, offset + PAGE, n)| > 0;
        assert |rest| > 0;
      }
    }
  }

  /** Full pages leave no gap: they are one contiguous slice of the list. */
  lemma {:induction false} FullPagesAreContiguous(all: seq<Item>, i: nat, pages: nat, offset: nat)
    requires i <= pages
    ensures Wanted(all, PAGE, i, pages, offset)
            == all[Clip(all, offset + i * PAGE)..Clip(all, offset + pages * PAGE)]
    decreases pages - i
  {
    if i < pages {
      FullPagesAreContiguous(all, i + 1, pages, offset);
      var a, b, c := Clip(all, offset + i * PAGE), Clip(all, offset + (i + 1) * PAGE), Clip(all, offset + pages * PAGE);
      assert a <= b <= c;
      assert all[a..b] + all[b..c] == all[a..c];
    }
  }

  /// Paging in any world

  /** The search for page `k`, after the searches for all pages before it. */
  function Page(cfg: Config, query: string, perPage: Positive, offset: int, w: World, k: nat): Run<seq<Item>> {
    Search(cfg, query, perPage, offset + k * PAGE, if k == 0 then w else Page(cfg, query, perPage, offset, w, k - 1).w)
  }

  predicate Full(page: Run<seq<Item>>, perPage: Positive) {
    page.outcome.Done? && |page.outcome.value| >= perPage
  }

  predicate FullUpTo(cfg: Config, query: string, perPage: Positive, offset: int, w: World, k: nat) {
    forall j: nat :: j < k ==> Full(Page(cfg, query, perPage, offset, w, j), perPage)
  }

  /** The results of the pages before `k`, one after the other. */
  function Gathered(cfg: Config, query: string, perPage: Positive, offset: int, w: World, k: nat): seq<Item>
    requires FullUpTo(cfg, query, perPage, offset, w, k)
  {
    if k == 0 then []
    else Gathered(cfg, query, perPage, offset, w, k - 1) + Page(cfg, query, perPage, offset, w, k - 1).outcome.value
  }

  /** In whatever world, paging stops at the first page that is not full, or after the last one, with the
      results so far. A failure at that page is the outcome of the whole, unless it means that there
      are no results. Without a page size there are thirty results to a page; without a number, one page. */
  lemma PagesStop(cfg: Config, query: string, perPage: int, pages: int, offset: int, w: World) returns (k: nat)
    ensures var n: Positive, m := if perPage > 0 then perPage else 30, if pages > 0 then pages else 1;
            && k <= m && FullUpTo(cfg, query, n, offset, w, k)
            && var b, so := Pages(cfg, query, perPage, pages, offset, w), Gathered(cfg, query, n, offset, w, k);
               if k == m then b.items == so && b.outcome == Done(())
               else Stopped(Page(cfg, query, n, offset, w, k), n, so, b)
  {
    hide Search;
    k := StopFrom(cfg, query, PerPage(perPage), 0, PageCount(pages), offset, w);
  }

  /** The collection ended with this page, after these results. */
  predicate Stopped(page: Run<seq<Item>>, perPage: Positive, so: seq<Item>, b: Batch) {
    && !Full(page, perPage) && b.w == page.w
    && match page.outcome
       case Unfinished => b.items == so && b.outcome == Unfinished
       case Done(items) => b.items == so + items && b.outcome == Done(())
       case Failed(e) =>
         b.items == so && b.outcome == if Errors.NoResults in Errors.Chain(e) then Done(()) else Failed(e)
  }

  lemma {:induction false} StopFrom(cfg: Config, query: string, n: Positive, i: nat, m: nat, offset: int, w: World)
    returns (k: nat)
    requires i <= m && FullUpTo(cfg, query, n, offset, w, i)
    ensures i <= k <= m && FullUpTo(cfg, query, n, offset, w, k)
    ensures var b := PagesFrom(cfg, query, n, i, m, offset, Gathered(cfg, query, n, offset, w, i),
                               WorldBefore(cfg, query, n, offset, w, i));
            var so := Gathered(cfg, query, n, offset, w, k);
            if k == m then b.items == so && b.outcome == Done(())
            else Stopped(Page(cfg, query, n, offset, w, k), n, so, b)
    decreases m - i
  {
    hide Search;
    if i < m && Full(Page(cfg, query, n, offset, w, i), n) {
      k := StopFrom(cfg, query, n, i + 1, m, offset, w);
    } else {
      k := i;
    }
  }

  function WorldBefore(cfg: Config, query: string, n: Positive, offset: int, w: World, i: nat): World {
    if i == 0 then w else Page(cfg, query, n, offset, w, i - 1).w
  }

  /** Paging within an open period of the breaker fails with the breaker's error and has no results;
      nothing but warmup requests goes out. */
  lemma PagingWhileOpen(cfg: Config, query: string, perPage: int, pages: int, offset: int, w: World)
    requires cfg.antiBot.breaker.Some? && query != ""
    requires Breaker.Open(w.breaker, Pages(cfg, query, perPage, pages, offset, w).w.now)
    ensures var b := Pages(cfg, query, perPage, pages, offset, w);
            && b.items == [] && Guarantees.Idle(b.w.trace, |w.trace|)
            && (b.outcome == Unfinished
                || (b.outcome.Failed? && Errors.Leaf(b.outcome.error) == Errors.CircuitOpen))
  {
    hide Search, Guarantees.Idle, Breaker.Open, Errors.Chain;
    var n := PerPage(perPage);
    var first := Search(cfg, query, n, offset, w);
    assert offset + 0 * PAGE == offset;
    StaysOpen(w.breaker, first.w.now, Pages(cfg, query, perPage, pages, offset, w).w.now);
    Guarantees.SearchWhileOpen(cfg, query, n, offset, w);
    if first.outcome.Failed? {
      LeafDecides(first.outcome.error);
    }
  }

  lemma StaysOpen(s: Breaker.State, at: int, end: int)
    requires at <= end && Breaker.Open(s, end)
    ensures Breaker.Open(s, at)
  {
  }

  lemma {:induction false} LeafDecides(e: Errors.Error)
    requires Errors.Leaf(e) == Errors.CircuitOpen
    ensures Errors.NoResults !in Errors.Chain(e)
  {
    if e.Wrapped? {
      LeafDecides(e.inner);
    }
  }

  /// A server like that

  const READER: Config :=
    Config(1, 1, 0.2, true, SECOND, 0, true, {}, AntiBot(None, None, None, false, false, false, false),
           Proxies.Plan(Proxies.RoundRobin, Proxies.Settings(0, 0), []), [], 0, "x")

  /** One round per page, from page `i` on. */
  function Replies(all: seq<Item>, offset: nat, i: nat, pages: nat): (script: seq<Round>)
    ensures |script| == if i < pages then pages - i else 0
    decreases pages - i
  {
    if i >= pages then []
    else [Reply(all, offset + i * PAGE)] + Replies(all, offset, i + 1, pages)
  }

  function Reply(all: seq<Item>, offset: nat): Round {
    Instantly(Response(200, 0, Body(false, "", Items(Slice(all, offset, PAGE)), [])), 0, 0, "")
  }

  /** The query's token is in the cache. */
  predicate Reads(w: World, query: string) {
    Cached(w, CacheKey(query, w.ua))
  }

  /** For every list and every request there is a server and a client that reads it. */
  lemma StableServerExists(all: seq<Item>, query: string, perPage: int, pages: int, offset: nat) returns (w: World)
    requires query != ""
    ensures Stable(all, READER, query, PerPage(perPage), 0, PageCount(pages), offset, w)
  {
    hide Stable;
    w := Initial(READER, 1, Replies(all, offset, 0, PageCount(pages)));
    w := w.(cache := map[CacheKey(query, "x") := Token("t", 2)]);
    StaysStable(all, query, PerPage(perPage), 0, PageCount(pages), offset, w);
  }

  lemma {:induction false} StaysStable(all: seq<Item>, query: string, perPage: Positive, i: nat, pages: nat,
                                       offset: nat, w: World)
    requires query != "" && w.script == Replies(all, offset, i, pages) && Reads(w, query)
    ensures Stable(all, READER, query, perPage, i, pages, offset, w)
    decreases pages - i
  {
    hide Serves, Search, Reads, Slice, Reply;
    if i < pages {
      OnePage(all, query, perPage, offset + i * PAGE, w);
      var w' := Search(READER, query, perPage, offset + i * PAGE, w).w;
      StaysStable(all, query, perPage, i + 1, pages, offset, w');
    }
  }

  lemma OnePage(all: seq<Item>, query: string, perPage: Positive, offset: nat, w: World)
    requires query != "" && w.script != [] && w.script[0] == Reply(all, offset) && Reads(w, query)
    ensures Serves(all, READER, query, offset, w)
    ensures var w' := Search(READER, query, perPage, offset, w).w;
            w'.script == w.script[1..] && Reads(w', query)
  {
    hide Loop, Prepare, Fetch, Attempt, Slice, CacheKey;
    var kind, r, body := Djs(query, offset), w.script[0], w.script[0].reply.body;
    var w2 := Admitted(READER, kind, 0, w);
    PrepareIsFetch(READER, kind, w2, r);
    var key := CacheKey(query, w.ua);
    Found(READER, query, w2, r, key);
    var w3 := Note(w2, CacheHit(key, w.cache[key].value, w2.now));
    CleanStep(READER, kind, 0, w.cache[key].value, w3, r, 200, body);
  }
}
