/** Exactly the queries that overlap can share a token: for every such pair there is a run in which a
    d.js request for one query carries the token that was issued for the other, and for other pairs
    there is none. */
module SharedTokens {
  import opened Basics
  import opened Budgets
  import opened Guarantees
  import opened Livelocks
  import opened RetryLoop
  import opened RetrySafety
  import opened Scripts
  import Breaker
  import Engine
  import Errors
  import Proxies

  /** At `k` of this trace, a d.js request for `q'` carries the token that was stored at `j`, straight
      after the clean response to a token request for `q`; it was found in the cache, and no token was
      stored in between. */
  predicate Borrows(tr: seq<Event>, q: string, q': string, j: int, k: int) {
    && 0 < j < k - 1 && k < |tr|
    && tr[j - 1].Clean? && tr[j - 1].kind == Vqd(q)
    && tr[j].Stored? && (forall m :: j < m < k ==> !tr[m].Stored?)
    && tr[k - 1].CacheHit? && tr[k - 1].key == tr[j].key
    && tr[k].Sent? && tr[k].kind.Djs? && tr[k].kind.query == q' && tr[k].token == tr[j].token
  }

  /** A user-agent that a client can be made with: the option is trimmed, and not empty. */
  predicate Trimmed(ua: string) {
    ua != "" && !Engine.Space(ua[0]) && !Engine.Space(ua[|ua| - 1])
  }

  /** In some run of some client, a d.js request for `q'` carries a token that was issued for `q`. */
  ghost predicate CanBorrow(q: string, q': string) {
    exists cfg: Config, calls: seq<Call>, now: Instant, script: seq<Round>, j: int, k: int ::
      Trimmed(cfg.ua) && Borrows(Ran(cfg, calls, now, script).trace, q, q', j, k)
  }

  /** A token reaches another query if and only if the two queries overlap. (Queries are what trimming
      leaves of them; the empty one is never searched for.) */
  lemma OverlapDecides(q: string, q': string)
    requires q != "" && q' != "" && q != q'
    ensures CanBorrow(q, q') <==> Overlap(q, q')
  {
    hide Ran, Borrows;
    if Overlap(q, q') {
      var calls, script, j, k := TokenIsBorrowed(q, q');
      assert Borrows(Ran(CLIENT, calls, 1, script).trace, q, q', j, k);
    }
    if CanBorrow(q, q') {
      var cfg: Config, calls, now, script, j, k :|
        Trimmed(cfg.ua) && Borrows(Ran(cfg, calls, now, script).trace, q, q', j, k);
      RanSafe(cfg, calls, now, script);
      BorrowersOverlap(cfg, Ran(cfg, calls, now, script), q, q', j, k);
    }
  }

  lemma BorrowersOverlap(cfg: Config, w: World, q: string, q': string, j: int, k: int)
    requires Sound(cfg, w) && Borrows(w.trace, q, q', j, k)
    ensures Overlap(q, q')
  {
    hide Sound, SendOk;
    var tr, before := w.trace, w.trace[..k];
    IssuedOk(cfg, w, j);
    SentOk(cfg, w, k);
    SentToken(cfg, before, tr[k]);
    assert tr[..j][j - 1] == tr[j - 1];
    var i: nat :| i < |before| && before[i].Stored? && KeyFor(cfg, q', before[i].key)
                  && IssuedAt(cfg, before, i, before[i].key, tr[k].token) && JustFound(cfg, before, i);
    assert before[k - 1] == tr[k - 1];
    PrefixesNest(q + "|", q' + "|", tr[j].key);
  }

  /** A client whose breaker opens at the first block, for a moment. */
  const POLICY: Breaker.Policy := Breaker.Policy(1, 1)
  const CLIENT: Config :=
    Config(1, 1, 0.2, true, 600 * SECOND, 0, true, {},
           AntiBot(Some(POLICY), None, None, false, true, false, false),
           Proxies.Plan(Proxies.RoundRobin, Proxies.Settings(0, 0), []), [], 0, "x")

  /** A search that ends early: its d.js request is blocked and the challenge solved with another
      user-agent; the breaker is then open, and shut again by the time of the next search. */
  function Act(agent: string): seq<Round> {
    [Forbidden(1, 0, agent), Welcome(200, 0), Welcome(200, 0)]
  }

  /** Overlapping queries share tokens. Challenges solved in the first two searches bring the client to
      the two user-agents under which the keys are the same; options would be trimmed, solutions are not. */
  lemma TokenIsBorrowed(q: string, q': string)
    returns (calls: seq<Call>, script: seq<Round>, j: nat, k: nat)
    requires q != "" && q' != "" && q != q' && Overlap(q, q')
    ensures Trimmed(CLIENT.ua) && Borrows(Ran(CLIENT, calls, 1, script).trace, q, q', j, k)
  {
    hide Loop, Borrows, StoredLast, Searches, Search;
    var ua, agent := Colliding(q, q');
    var last := [Welcome(200, 1)];
    calls, script := [Call(q, 0, 0), Call(q, 0, 0), Call(q', 0, 0)], Act(ua) + (Act(agent) + last);
    var w := Initial(CLIENT, 1, script);
    var w1 := Lend(q, w, ua, Act(agent) + last);
    SearchIsLoop(q, w);
    KeysDiffer(q, ua);
    var w2 := Lend(q, w1, agent, last);
    SearchIsLoop(q, w1);
    j := |w2.trace| - 5;
    k := Borrow(q, q', w2, agent, CacheKey(q, ua), j);
    SearchIsLoop(q', w2);
    ThreeCalls(q, q', w);
  }

  lemma KeysDiffer(q: string, ua: string)
    requires ua != "" && ua[|ua| - 1] == 'z'
    ensures CacheKey(q, ua) != CacheKey(q, "x")
  {
    assert CacheKey(q, ua)[|CacheKey(q, ua)| - 1] == 'z';
    assert CacheKey(q, "x")[|CacheKey(q, "x")| - 1] == 'x';
  }

  /** Without warmup and fallback a search is its d.js loop. */
  lemma SearchIsLoop(q: string, w: World)
    requires q != "" && !Loop(CLIENT, Djs(q, 0), 0, w).outcome.Unfinished?
    ensures Search(CLIENT, q, 0, 0, w).w == Loop(CLIENT, Djs(q, 0), 0, w).w
  {
    hide Loop;
  }

  lemma ThreeCalls(q: string, q': string, w: World)
    ensures var w1 := Search(CLIENT, q, 0, 0, w).w;
            var w2 := Search(CLIENT, q, 0, 0, w1).w;
            Searches(CLIENT, [Call(q, 0, 0), Call(q, 0, 0), Call(q', 0, 0)], w) == Search(CLIENT, q', 0, 0, w2).w
  {
    hide Search;
    var c, d := Call(q, 0, 0), Call(q', 0, 0);
    assert [c, c, d][..2] == [c, c] && [c, c][..1] == [c] && [c][..0] == [];
    assert Searches(CLIENT, [], w) == w;
    assert Searches(CLIENT, [c], w) == Search(CLIENT, q, 0, 0, w).w;
    assert Searches(CLIENT, [c, c], w) == Search(CLIENT, q, 0, 0, Search(CLIENT, q, 0, 0, w).w).w;
  }

  /** What such a search leaves behind: a token in the cache, and another user-agent. */
  predicate Lent(w: World, q: string, agent: string, key: string, j: int) {
    && 0 < j && j + 5 == |w.trace|
    && StoredLast(w.trace[..j + 1], q, Stored(key, "t", w.now))
    && (forall m :: j < m < |w.trace| ==> !w.trace[m].Stored?)
    && key in w.cache && w.cache[key] == Token("t", w.now + CLIENT.vqdTTL)
    && w.ua == agent && w.breaker.openUntil <= w.now + 1
  }

  /** The token was just fetched. */
  predicate Holding(w: World, q: string, key: string) {
    && StoredLast(w.trace, q, Stored(key, "t", w.now))
    && key in w.cache && w.cache[key] == Token("t", w.now + CLIENT.vqdTTL)
    && w.breaker == Breaker.FRESH
  }

  lemma Lend(q: string, w: World, agent: string, rest: seq<Round>) returns (w': World)
    requires w.script == Act(agent) + rest && w.breaker.openUntil <= w.now + 1 && agent != ""
    requires CacheKey(q, w.ua) !in w.cache
    ensures Loop(CLIENT, Djs(q, 0), 0, w) == Run(Failed(Errors.CircuitOpen), w')
    ensures Lent(w', q, agent, CacheKey(q, w.ua), |w'.trace| - 5)
    ensures w'.script == rest && w'.cache.Keys == w.cache.Keys + {CacheKey(q, w.ua)}
  {
    hide Loop, Attempt, Holding, Lent, CacheKey;
    var w1 := FetchFirst(q, w, agent, rest);
    w' := PassOn(q, w1, agent, CacheKey(q, w.ua), rest);
  }

  lemma FetchFirst(q: string, w: World, agent: string, rest: seq<Round>) returns (w1: World)
    requires w.script == Act(agent) + rest && w.breaker.openUntil <= w.now + 1
    requires CacheKey(q, w.ua) !in w.cache
    ensures Loop(CLIENT, Djs(q, 0), 0, w) == Attempt(CLIENT, Djs(q, 0), 0, "t", w1, Forbidden(1, 0, agent))
    ensures Holding(w1, q, CacheKey(q, w.ua))
    ensures w1.script == [Welcome(200, 0)] + rest && w1.cache.Keys == w.cache.Keys + {CacheKey(q, w.ua)}
  {
    hide Loop, Prepare, Fetch, Attempt, CacheKey, StoredLast, Requests, Rested;
    var kind, r := Djs(q, 0), w.script[0];
    var w2 := Admitted(CLIENT, kind, 0, w);
    assert w2.script == [Welcome(200, 0), Welcome(200, 0)] + rest;
    FetchStep(CLIENT, POLICY, q, w2, r, 200, 0);
    PrepareIsFetch(CLIENT, kind, w2, r);
    w1 := Fetch(CLIENT, q, w2, r).w;
  }

  lemma PassOn(q: string, w: World, agent: string, key: string, rest: seq<Round>) returns (w': World)
    requires Holding(w, q, key) && agent != "" && w.script == [Welcome(200, 0)] + rest
    ensures Attempt(CLIENT, Djs(q, 0), 0, "t", w, Forbidden(1, 0, agent)) == Run(Failed(Errors.CircuitOpen), w')
    ensures Lent(w', q, agent, key, |w'.trace| - 5) && w'.script == rest && w'.cache == w.cache
  {
    hide Loop, Attempt, Livelocks.Solved, Requests, Rested;
    var kind := Djs(q, 0);
    SolvedStep(CLIENT, POLICY, kind, 0, "t", w, 1, 0, agent);
    SolvedTrace(kind, w, agent);
    w' := Refused(kind, Livelocks.Solved(CLIENT, kind, 0, "t", w, Forbidden(1, 0, agent)));
    assert w'.trace[..|w.trace|] == w.trace;
  }

  lemma SolvedTrace(kind: Request, w: World, agent: string)
    ensures var w' := Livelocks.Solved(CLIENT, kind, 0, "t", w, Forbidden(1, 0, agent));
            && |w'.trace| == |w.trace| + 3 && w.trace <= w'.trace
            && forall m :: |w.trace| <= m < |w'.trace| ==> !w'.trace[m].Stored?
  {
    var r := Forbidden(1, 0, agent);
    OneWinner(r.answers, agent);
    var w1 := Send(CLIENT, kind, "t", w, r);
    var w2 := Punish(CLIENT, kind, 0, w1, r);
    hide Send, Punish, Challenge;
    assert Challenge(CLIENT, w2, r).1;
  }

  /** A loop that finds the breaker open says so and ends. */
  lemma Refused(kind: Request, w: World) returns (w': World)
    requires w.script != [] && Breaker.Open(w.breaker, w.now + w.script[0].dCheck)
    ensures Loop(CLIENT, kind, 0, w) == Run(Failed(Errors.CircuitOpen), w')
    ensures w'.script == w.script[1..] && w'.now == w.now + w.script[0].dCheck
    ensures w'.breaker == w.breaker && w'.cache == w.cache && w'.ua == w.ua
    ensures |w'.trace| == |w.trace| + 1 && w.trace <= w'.trace && w'.trace[|w.trace|].Rejected?
  {
    hide Pace, Prepare, Attempt;
    w' := Gate(CLIENT, kind, 0, w.(script := w.script[1..]), w.script[0]).0;
  }

  /** The second search finds the token of the first one. */
  lemma Borrow(q: string, q': string, w: World, agent: string, key: string, j: nat) returns (k: nat)
    requires Lent(w, q, agent, key, j) && key == CacheKey(q', agent) && w.script == [Welcome(200, 1)]
    ensures var run := Loop(CLIENT, Djs(q', 0), 0, w);
            Borrows(run.w.trace, q, q', j, k) && !run.outcome.Unfinished?
  {
    hide Loop, Prepare, Fetch, Attempt, Requests, Rested, EndsClean;
    var kind, r := Djs(q', 0), w.script[0];
    var w2 := Admitted(CLIENT, kind, 0, w);
    PrepareIsFetch(CLIENT, kind, w2, r);
    Found(CLIENT, q', w2, r, key);
    CleanStep(CLIENT, kind, 0, "t", Note(w2, CacheHit(key, "t", w2.now)), r, 200, EMPTY);
    k := |w.trace| + 1;
    var tr := Loop(CLIENT, kind, 0, w).w.trace;
    assert w.trace <= tr && w.trace[..j + 1][j] == tr[j] && w.trace[..j + 1][j - 1] == tr[j - 1];
  }
}
