/** The failover engine: providers asked in order, one event trace per search. */
module Engine {
  import opened Basics
  import opened Errors
  import opened Metrics
  import RetryLoop

  type Item = RetryLoop.Item

  /** What one configured provider does during one search. */
  datatype Answer = Answer(enabled: bool, items: seq<Item>, error: Option<Error>, duration: nat)
  {
    predicate Wins() {
      enabled && error == None && |items| > 0
    }
  }

  datatype ProviderError = ProviderError(provider: string, kind: Kind, detector: Option<string>)

  datatype Diagnostics = Diagnostics(
    attempts: nat,
    chain: seq<string>,
    timings: map<string, nat>,
    errors: seq<ProviderError>,
    blockInfo: Option<BlockInfo>)

  const NO_DIAGNOSTICS: Diagnostics := Diagnostics(0, [], map[], [], None)

  datatype Response = Response(items: seq<Item>, provider: string, fallbackUsed: bool, diag: Diagnostics)

  /** The structured error of a provider that did not win; no error and no results count as empty. */
  function Failure(name: string, a: Answer): (e: Error)
    ensures e.Search?
  {
    match a.error
    case Some(err) => Classify(name, err)
    case None => Error.Search(KindNoResults, name, false, Some(NoResults), None)
  }

  function BlockOf(e: Error): Option<BlockInfo>
    requires e.Search?
  {
    if e.kind != KindBlocked then None
    else Some(BlockInfo(GENERIC, if e.signal.Some? && e.signal.value != "" then e.signal.value else "blocked"))
  }

  /// What a search should do, provider by provider

  /** The position of the first enabled provider with results, or the number of providers. */
  function Winner(answers: seq<Answer>): (k: nat)
    ensures k <= |answers|
    ensures k < |answers| ==> answers[k].Wins()
    ensures forall j :: 0 <= j < k ==> !answers[j].Wins()
  {
    if answers == [] then 0
    else
      var k := Winner(answers[..|answers| - 1]);
      if k < |answers| - 1 || answers[k].Wins() then k else k + 1
  }

  /** The events about the provider at position `k`. */
  function Group(names: seq<string>, answers: seq<Answer>, k: nat): seq<Event>
    requires k < |names| == |answers|
  {
    if answers[k].enabled then Asked(names[k], answers[k], k == |names| - 1) else []
  }

  /** The events about a provider that is asked; `last` says that it is the last one configured. */
  function Asked(name: string, a: Answer, last: bool): seq<Event> {
    if a.Wins() then [ProviderStart(name), ProviderEnd(name, a.duration, true, None, None)]
    else [ProviderStart(name)] + AfterLoss(name, a, last)
  }

  function AfterLoss(name: string, a: Answer, last: bool): seq<Event> {
    var e := Failure(name, a);
    var b := BlockOf(e);
    (if b.Some? then [BlockedEvent(name, e.kind, b)] else [])
    + [ProviderEnd(name, a.duration, false, Some(e.kind), b)]
    + (if last then [] else [Fallback(name, e.kind)])
  }

  function Groups(names: seq<string>, answers: seq<Answer>, k: nat): seq<Event>
    requires k <= |names| == |answers|
  {
    if k == 0 then [] else Groups(names, answers, k - 1) + Group(names, answers, k - 1)
  }

  /** The diagnostics after the first `k` providers. */
  function DiagAfter(names: seq<string>, answers: seq<Answer>, k: nat): Diagnostics
    requires k <= |names| == |answers|
  {
    if k == 0 then NO_DIAGNOSTICS else DiagStep(DiagAfter(names, answers, k - 1), names[k - 1], answers[k - 1])
  }

  function DiagStep(d: Diagnostics, name: string, a: Answer): Diagnostics {
    if !a.enabled then d
    else
      var asked := d.(attempts := d.attempts + 1, chain := d.chain + [name], timings := d.timings[name := a.duration]);
      if a.Wins() then asked
      else
        var e := Failure(name, a);
        asked.(errors := asked.errors + [ProviderError(name, e.kind, e.signal)],
               blockInfo := if BlockOf(e).Some? then BlockOf(e) else asked.blockInfo)
  }

  /** How many providers a search walks over: up to and including the winner. */
  function Walked(answers: seq<Answer>): (n: nat)
    ensures n <= |answers|
  {
    Min(Winner(answers) + 1, |answers|)
  }

  function Trace(names: seq<string>, answers: seq<Answer>, duration: nat): seq<Event>
    requires |names| == |answers|
  {
    [SearchStart] + Groups(names, answers, Walked(answers)) + [SearchFinish(duration)]
  }

  /// The engine

  /** White space, as the trimming of the query understands it. */
  predicate Space(c: char) {
    var n := c as int;
    9 <= n <= 13 || n in {0x20, 0x85, 0xA0, 0x1680, 0x2028, 0x2029, 0x202F, 0x205F, 0x3000} || 0x2000 <= n <= 0x200A
  }

  predicate Blank(query: string) {
    forall c :: c in query ==> Space(c)
  }

  function Times<T(==)>(s: seq<T>, x: T): nat {
    if s == [] then 0 else Times(s[..|s| - 1], x) + if s[|s| - 1] == x then 1 else 0
  }

  lemma TimesStep<T>(s: seq<T>, k: nat)
    requires k < |s|
    ensures forall x :: Times(s[..k + 1], x) == Times(s[..k], x) + if s[k] == x then 1 else 0
  {
    assert s[..k + 1][..k] == s[..k];
  }

  /** An event as a hook sees it that is registered `m` times. */
  function Copies(e: Event, m: nat): seq<Event> {
    if m == 0 then [] else Copies(e, m - 1) + [e]
  }

  /** What a hook that had seen `before` and is registered `m` times has seen after `es`. */
  function Heard(before: seq<Event>, es: seq<Event>, m: nat): seq<Event> {
    if es == [] then before else Heard(before, es[..|es| - 1], m) + Copies(es[|es| - 1], m)
  }

  lemma HeardNothing()
    ensures forall before, m :: Heard(before, [], m) == before
  {
  }

  lemma HeardAppend(es: seq<Event>, e: Event)
    ensures forall before, m :: Heard(before, es + [e], m) == Heard(before, es, m) + Copies(e, m)
  {
    assert (es + [e])[..|es|] == es;
  }

  lemma {:induction false} HeardConcat(before: seq<Event>, es: seq<Event>, fs: seq<Event>, m: nat)
    ensures Heard(before, es + fs, m) == Heard(Heard(before, es, m), fs, m)
  {
    if fs == [] {
      assert es + fs == es;
    } else {
      var n := |fs| - 1;
      HeardConcat(before, es, fs[..n], m);
      assert (es + fs)[..|es + fs| - 1] == es + fs[..n];
    }
  }

  lemma HeardThen(es: seq<Event>, fs: seq<Event>)
    ensures forall before, m :: Heard(Heard(before, es, m), fs, m) == Heard(before, es + fs, m)
  {
    forall before, m {
      HeardConcat(before, es, fs, m);
    }
  }

  /** A hook that is registered once hears the trace itself. */
  lemma {:induction false} HeardOnce(before: seq<Event>, es: seq<Event>)
    ensures Heard(before, es, 1) == before + es
  {
    if es != [] {
      HeardOnce(before, es[..|es| - 1]);
      assert Copies(es[|es| - 1], 1) == [es[|es| - 1]];
    }
  }

  class Engine {
    const providers: seq<string>
    const hooks: seq<PrometheusCollector?>
    /** The events emitted so far. */
    ghost var trace: seq<Event>

    ghost predicate Valid()
      reads this, hooks
    {
      forall h :: h in hooks && h != null ==> h.Valid()
    }

    /** Drops the providers that are nil; there must be one left. */
    static method New(offered: seq<Option<string>>, hooks: seq<PrometheusCollector?>) returns (engine: Engine?)
      requires forall h :: h in hooks && h != null ==> h.Valid()
      ensures engine == null <==> forall j :: 0 <= j < |offered| ==> offered[j] == None
      ensures engine != null ==>
                && fresh(engine) && engine.Valid() && engine.trace == []
                && engine.hooks == hooks && engine.providers == Present(offered)
    {
      var names: seq<string> := [];
      assert offered[..|offered|] == offered;
      for k := 0 to |offered|
        invariant names == Present(offered[..k])
        invariant names == [] <==> forall j :: 0 <= j < k ==> offered[j] == None
      {
        assert offered[..k + 1][..k] == offered[..k];
        if offered[k].Some? {
          names := names + [offered[k].value];
        }
      }
      if names == [] {
        return null;
      }
      engine := new Engine(names, hooks);
    }

    constructor (providers: seq<string>, hooks: seq<PrometheusCollector?>)
      requires forall h :: h in hooks && h != null ==> h.Valid()
      ensures Valid() && trace == [] && this.providers == providers && this.hooks == hooks
    {
      this.providers, this.hooks, trace := providers, hooks, [];
    }

    /** Calls every hook that is not nil, in order. */
    method Emit(e: Event)
      requires Valid()
      modifies this`trace, hooks
      ensures Valid() && trace == old(trace) + [e]
      ensures forall h :: h in hooks && h != null ==> h.seen == old(h.seen) + Copies(e, Times(hooks, h))
    {
      hide AbsorbAll;
      trace := trace + [e];
      assert hooks[..|hooks|] == hooks;
      for k := 0 to |hooks|
        invariant Valid() && trace == old(trace) + [e]
        invariant forall h :: h in hooks && h != null ==> h.seen == old(h.seen) + Copies(e, Times(hooks[..k], h))
      {
        TimesStep(hooks, k);
        if hooks[k] != null {
          hooks[k].Hook(e);
        }
      }
    }

    /** The trace grew by `es`, and every hook saw it. */
    twostate predicate Told(es: seq<Event>)
      reads this, hooks
    {
      && trace == old(trace) + es
      && forall h :: h in hooks && h != null ==> h.seen == Heard(old(h.seen), es, Times(hooks, h))
    }

    /** One turn of the loop: asks the provider if it is enabled, tells the hooks about it, and keeps the
        diagnostics. */
    method Ask(name: string, a: Answer, last: bool, diag: Diagnostics) returns (d: Diagnostics, won: bool)
      requires Valid()
      modifies this`trace, hooks
      ensures Valid() && Told(if a.enabled then Asked(name, a, last) else [])
      ensures d == DiagStep(diag, name, a) && won == a.Wins()
    {
      hide AbsorbAll, Times, Classify, Heard;
      HeardNothing();
      d := diag;
      if !a.enabled {
        assert trace + [] == trace;
        return d, false;
      }
      d := d.(chain := d.chain + [name]);
      Emit(ProviderStart(name));
      ghost var es := [ProviderStart(name)];
      HeardAppend([], ProviderStart(name));
      assert [] + es == es;
      d := d.(timings := d.timings[name := a.duration], attempts := d.attempts + 1);
      if a.error == None && |a.items| > 0 {
        var end := ProviderEnd(name, a.duration, true, None, None);
        Emit(end);
        HeardAppend(es, end);
        assert es + [end] == Asked(name, a, last);
        return d, true;
      }
      var e := Failure(name, a);
      d := d.(errors := d.errors + [ProviderError(name, e.kind, e.signal)]);
      if BlockOf(e).Some? {
        d := d.(blockInfo := BlockOf(e));
      }
      Lose(name, a, e, last);
      HeardThen(es, AfterLoss(name, a, last));
      assert es + AfterLoss(name, a, last) == Asked(name, a, last);
      return d, false;
    }

    /** Tells the hooks about a failed provider: blocked or not, and handed on or not. */
    method Lose(name: string, a: Answer, e: Error, last: bool)
      requires Valid() && e == Failure(name, a)
      modifies this`trace, hooks
      ensures Valid() && Told(AfterLoss(name, a, last))
    {
      hide AbsorbAll, Times, Classify, Heard, Failure;
      HeardNothing();
      ghost var es: seq<Event> := [];
      assert trace + [] == trace;
      var block := BlockOf(e);
      if block.Some? {
        var blocked := BlockedEvent(name, e.kind, block);
        Emit(blocked);
        HeardAppend(es, blocked);
        es := es + [blocked];
      }
      var end := ProviderEnd(name, a.duration, false, Some(e.kind), block);
      Emit(end);
      HeardAppend(es, end);
      es := es + [end];
      if !last {
        Emit(Fallback(name, e.kind));
        HeardAppend(es, Fallback(name, e.kind));
        es := es + [Fallback(name, e.kind)];
      }
      assert es == AfterLoss(name, a, last);
    }

    /** The result of a search over these answers. */
    ghost predicate Answered(answers: seq<Answer>, r: Response, error: Option<Error>)
      requires |answers| == |providers|
    {
      var k := Winner(answers);
      && r.diag == DiagAfter(providers, answers, Walked(answers))
      && (k < |answers| ==>
            error == None && r.items == answers[k].items && r.provider == providers[k] && r.fallbackUsed == (k > 0))
      && (k == |answers| ==>
            && r.items == [] && r.provider == "" && !r.fallbackUsed
            && error == Some(if exists j :: 0 <= j < |answers| && answers[j].enabled then EXHAUSTED else NONE_ENABLED))
    }

    /** The loop over the providers. */
    method Walk(answers: seq<Answer>) returns (r: Response, error: Option<Error>)
      requires Valid() && |answers| == |providers|
      modifies this`trace, hooks
      ensures Valid() && Told(Groups(providers, answers, Walked(answers))) && Answered(answers, r, error)
    {
      hide AbsorbAll, Times, Asked, DiagStep, Copies, Heard, Classify, Failure, BlockOf, Winner;
      hide PrometheusCollector.Valid;
      HeardNothing();
      ghost var es: seq<Event> := [];
      assert trace + [] == trace;
      var diag := NO_DIAGNOSTICS;
      for idx := 0 to |providers|
        invariant Valid() && Told(es) && es == Groups(providers, answers, idx)
        invariant diag == DiagAfter(providers, answers, idx)
        invariant forall j :: 0 <= j < idx ==> !answers[j].Wins()
      {
        ghost var group := Group(providers, answers, idx);
        var won;
        diag, won := Ask(providers[idx], answers[idx], idx == |providers| - 1, diag);
        HeardThen(es, group);
        es := es + group;
        assert Told(es);
        assert es == Groups(providers, answers, idx + 1) && diag == DiagAfter(providers, answers, idx + 1);
        if won {
          WinnerIs(answers, idx);
          assert Walked(answers) == idx + 1;
          return Response(answers[idx].items, providers[idx], idx > 0, diag), None;
        }
      }
      WinnerIs(answers, |answers|);
      ErrorsMeanAsked(providers, answers, |answers|);
      error := Some(if |diag.errors| == 0 then NONE_ENABLED else EXHAUSTED);
      return Response([], "", false, diag), error;
    }

    /** One search. A blank query is refused without a word to the hooks. */
    method Search(query: string, answers: seq<Answer>, duration: nat)
      returns (r: Response, error: Option<Error>)
      requires Valid() && |answers| == |providers|
      modifies this`trace, hooks
      ensures Valid()
      ensures Blank(query) ==> Told([]) && r == Response([], "", false, NO_DIAGNOSTICS) && error == Some(BLANK_QUERY)
      ensures !Blank(query) ==> Told(Trace(providers, answers, duration)) && Answered(answers, r, error)
    {
      hide AbsorbAll, Times, Copies, Groups, PrometheusCollector.Valid, Answered;
      if Blank(query) {
        return Response([], "", false, NO_DIAGNOSTICS), Some(BLANK_QUERY);
      }
      Emit(SearchStart);
      HeardAppend([], SearchStart);
      ghost var es := [] + [SearchStart];
      r, error := Walk(answers);
      ghost var groups := Groups(providers, answers, Walked(answers));
      HeardThen(es, groups);
      Emit(SearchFinish(duration));
      HeardAppend(es + groups, SearchFinish(duration));
      assert es + groups + [SearchFinish(duration)] == Trace(providers, answers, duration);
      assert trace == old(trace) + (es + groups + [SearchFinish(duration)]);
    }
  }

  const BLANK_QUERY: Error := Error.Search(KindInvalidInput, "engine", false, Some(Other("query is required")), None)
  const EXHAUSTED: Error :=
    Error.Search(KindNoResults, "engine", false, Some(Other("all providers exhausted")), None)
  const NONE_ENABLED: Error :=
    Error.Search(KindProviderUnavailable, "engine", true, Some(Other("no enabled providers")), None)

  lemma WinnerIs(answers: seq<Answer>, k: nat)
    requires k <= |answers| && (k < |answers| ==> answers[k].Wins())
    requires forall j :: 0 <= j < k ==> !answers[j].Wins()
    ensures Winner(answers) == k
  {
  }

  lemma {:induction false} ErrorsMeanAsked(names: seq<string>, answers: seq<Answer>, k: nat)
    requires k <= |names| == |answers| && forall j :: 0 <= j < k ==> !answers[j].Wins()
    ensures DiagAfter(names, answers, k).errors == [] <==> forall j :: 0 <= j < k ==> !answers[j].enabled
  {
    if k > 0 {
      ErrorsMeanAsked(names, answers, k - 1);
    }
  }

  function Present(offered: seq<Option<string>>): seq<string> {
    if offered == [] then []
    else
      var last := offered[|offered| - 1];
      Present(offered[..|offered| - 1]) + if last.Some? then [last.value] else []
  }
}
