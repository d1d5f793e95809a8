/** What a search returns: the results of the last page that came in, or the reason why there is none. */
module SearchResults {
  import opened Basics
  import opened RetryLoop
  import opened RetrySafety
  import Errors
  import LoopResults

  /** The first `max` of these results; ten when no limit is asked for. */
  predicate FirstOf(items: seq<Item>, found: seq<Item>, max: int) {
    && items <= found
    && |items| == Min(|found|, if max > 0 then max else 10)
  }

  /** This response to a request of the search brought these results. */
  predicate BroughtResults(e: Event, query: string, offset: int, found: seq<Item>) {
    && e.Sent? && e.reply.Response?
    && (|| (e.kind == Djs(query, offset) && e.reply.body.djs == Items(found))
        || (e.kind == Html(query, offset) && e.reply.body.html == found))
  }

  /** In whatever world: when a search succeeds, the last thing that happened is a clean response to its
      own d.js or HTML request, and the results are the first ones of that response. */
  lemma SearchDelivers(cfg: Config, query: string, max: int, offset: int, w: World) returns (found: seq<Item>)
    requires Search(cfg, query, max, offset, w).outcome.Done?
    ensures var run := Search(cfg, query, max, offset, w);
            var n := |run.w.trace|;
            && n > 1 && run.w.trace[n - 1].Clean? && BroughtResults(run.w.trace[n - 2], query, offset, found)
            && found != [] && FirstOf(run.outcome.value, found, max)
  {
    hide Loop, Warmup;
    var warm := Warmup(cfg, w);
    var djs := Loop(cfg, Djs(query, offset), 0, warm.w);
    LoopResults.LoopAccounts(cfg, Djs(query, offset), 0, warm.w);
    if SearchDjs(cfg, query, offset, warm.w).outcome.Done? {
      found := djs.outcome.value.djs.items;
    } else {
      LoopResults.LoopAccounts(cfg, Html(query, offset), 0, djs.w);
      found := Loop(cfg, Html(query, offset), 0, djs.w).outcome.value.html;
    }
  }

  /** The d.js loop came to nothing, for this reason. */
  predicate DjsFails(djs: Run<Body>, e: Errors.Error) {
    || djs.outcome == Failed(e)
    || (djs.outcome.Done? && djs.outcome.value.djs == Garbled(e))
    || (djs.outcome.Done? && djs.outcome.value.djs == Items([]) && e == Errors.NoResults)
  }

  /** A d.js page with results is the answer, and no HTML page is asked for. */
  lemma DjsAnswers(cfg: Config, query: string, max: int, offset: int, w: World, found: seq<Item>)
    requires query != "" && !Warmup(cfg, w).outcome.Unfinished? && found != []
    requires var djs := Loop(cfg, Djs(query, offset), 0, Warmup(cfg, w).w);
             djs.outcome.Done? && djs.outcome.value.djs == Items(found)
    ensures var run := Search(cfg, query, max, offset, w);
            && run.outcome.Done? && FirstOf(run.outcome.value, found, max)
            && run.w == Loop(cfg, Djs(query, offset), 0, Warmup(cfg, w).w).w
  {
    hide Loop, Warmup;
  }

  /** When the d.js loop comes to nothing, its reason is the answer if there is no fallback; otherwise the
      HTML page is: its first results, or the wrapped reason why there are none. */
  lemma FallbackAnswers(cfg: Config, query: string, max: int, offset: int, w: World, e: Errors.Error)
    requires query != "" && !Warmup(cfg, w).outcome.Unfinished?
    requires DjsFails(Loop(cfg, Djs(query, offset), 0, Warmup(cfg, w).w), e)
    ensures var run := Search(cfg, query, max, offset, w);
            var djs := Loop(cfg, Djs(query, offset), 0, Warmup(cfg, w).w);
            var html := Loop(cfg, Html(query, offset), 0, djs.w);
            if cfg.noFallback then run == Run(Failed(e), djs.w)
            else
              && run.w == html.w
              && (html.outcome.Unfinished? ==> run.outcome == Unfinished)
              && (html.outcome.Failed? ==>
                    run.outcome.Failed? && Errors.Chain(run.outcome.error)[1..] == Errors.Chain(html.outcome.error))
              && (html.outcome.Done? ==>
                    if html.outcome.value.html == [] then
                      run.outcome.Failed? && Errors.Chain(run.outcome.error)[1..] == [Errors.NoResults]
                    else
                      run.outcome.Done? && FirstOf(run.outcome.value, html.outcome.value.html, max))
  {
    hide Loop, Warmup, Errors.Chain;
    var html := Loop(cfg, Html(query, offset), 0, Loop(cfg, Djs(query, offset), 0, Warmup(cfg, w).w).w);
    if !cfg.noFallback && html.outcome.Failed? {
      OneWrapper(html.outcome.error);
    }
    OneWrapper(Errors.NoResults);
    NothingWrapped();
  }

  lemma NothingWrapped()
    ensures Errors.Chain(Errors.NoResults) == [Errors.NoResults]
  {
  }

  lemma OneWrapper(e: Errors.Error)
    ensures Errors.Chain(Errors.Wrapped(e)) == [Errors.Wrapped(e)] + Errors.Chain(e)
  {
  }

  /** A search succeeds if and only if one of its two pages has results, the HTML page only when it is
      asked for. An empty query is refused before anything happens. */
  lemma SearchSucceeds(cfg: Config, query: string, max: int, offset: int, w: World)
    ensures var warm := Warmup(cfg, w);
            var djs := Loop(cfg, Djs(query, offset), 0, warm.w);
            var html := Loop(cfg, Html(query, offset), 0, djs.w);
            Search(cfg, query, max, offset, w).outcome.Done? <==>
              && query != "" && !warm.outcome.Unfinished? && !djs.outcome.Unfinished?
              && (|| (djs.outcome.Done? && djs.outcome.value.djs.Items? && djs.outcome.value.djs.items != [])
                  || (!cfg.noFallback && html.outcome.Done? && html.outcome.value.html != []))
    ensures query == "" ==> Search(cfg, query, max, offset, w) == Run(Failed(Errors.Other("query is required")), w)
  {
    hide Loop, Warmup;
  }
}
