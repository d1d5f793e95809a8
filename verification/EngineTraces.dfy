/** Properties of the engine's event traces, and of the metrics collected from them. */
module EngineTraces {
  import opened Basics
  import opened Engine
  import opened Errors
  import opened Metrics

  /// Brackets

  /** Where a reader of the trace stands; `at` is a position in the list of providers. */
  datatype Phase =
    | Outside
    | Ready(at: nat)
    | Asking(at: nat, blocked: bool)
    | Owing(at: nat, kind: Kind)
    | Won
    | Over

  /** Who is configured, and who of them is enabled. */
  datatype Setup = Setup(names: seq<string>, enabled: seq<bool>)

  predicate Sized(u: Setup) {
    |u.names| == |u.enabled|
  }

  /** The next position that is enabled, or the end of the list. */
  function NextEnabled(u: Setup, k: nat): (n: nat)
    requires Sized(u) && k <= |u.names|
    ensures k <= n <= |u.names| && (n < |u.names| ==> u.enabled[n]) && forall j :: k <= j < n ==> !u.enabled[j]
    decreases |u.names| - k
  {
    if k == |u.names| || u.enabled[k] then k else NextEnabled(u, k + 1)
  }

  /** The one event order that a search may show; None is a violation. After a position, exactly the
      next enabled one is asked; a failure owes a fallback unless it is the last configured; the search
      finishes only when nobody is left, or after a success. */
  function Next(u: Setup, phase: Phase, e: Event): Option<Phase>
    requires Sized(u)
  {
    match phase
    case Outside => if e.SearchStart? then Some(Ready(0)) else None
    case Ready(at) =>
      if at > |u.names| then None
      else
        var k := NextEnabled(u, at);
        if k < |u.names| then (if e == ProviderStart(u.names[k]) then Some(Asking(k, false)) else None)
        else if e.SearchFinish? then Some(Over) else None
    case Asking(k, blocked) =>
      if k >= |u.names| then None
      else if e.BlockedEvent? then
        if e.provider == u.names[k] && !blocked && e.failure == KindBlocked then Some(Asking(k, true)) else None
      else if e.ProviderEnd? && e.provider == u.names[k] then
        if e.success then (if blocked then None else Some(Won))
        else if e.kind.Some? && (blocked <==> e.kind.value == KindBlocked) then
          Some(if k < |u.names| - 1 then Owing(k, e.kind.value) else Ready(k + 1))
        else None
      else None
    case Owing(k, kind) =>
      if k < |u.names| && e == Fallback(u.names[k], kind) then Some(Ready(k + 1)) else None
    case Won => if e.SearchFinish? then Some(Over) else None
    case Over => None
  }

  function Scan(u: Setup, phase: Phase, es: seq<Event>): Option<Phase>
    requires Sized(u)
  {
    if es == [] then Some(phase)
    else
      match Scan(u, phase, es[..|es| - 1])
      case Some(mid) => Next(u, mid, es[|es| - 1])
      case None => None
  }

  lemma {:induction false} ScanConcat(u: Setup, phase: Phase, es: seq<Event>, fs: seq<Event>, mid: Phase)
    requires Sized(u) && Scan(u, phase, es) == Some(mid)
    ensures Scan(u, phase, es + fs) == Scan(u, mid, fs)
  {
    hide Next;
    if fs == [] {
      assert es + fs == es;
    } else {
      ScanConcat(u, phase, es, fs[..|fs| - 1], mid);
      assert (es + fs)[..|es + fs| - 1] == es + fs[..|fs| - 1];
    }
  }

  lemma ScanOne(u: Setup, phase: Phase, e: Event)
    requires Sized(u)
    ensures Scan(u, phase, [e]) == Next(u, phase, e)
  {
    hide Next;
    assert [e][..0] == [];
  }

  lemma ScanThen(u: Setup, phase: Phase, es: seq<Event>, mid: Phase, e: Event)
    requires Sized(u) && Scan(u, phase, es) == Some(mid)
    ensures Scan(u, phase, es + [e]) == Next(u, mid, e)
  {
    hide Next, Scan;
    ScanConcat(u, phase, es, [e], mid);
    ScanOne(u, mid, e);
  }

  /** The providers as the answers show them. */
  function SetupOf(names: seq<string>, answers: seq<Answer>): (u: Setup)
    requires |names| == |answers|
    ensures Sized(u) && u.names == names
  {
    Setup(names, seq(|answers|, j requires 0 <= j < |answers| => answers[j].enabled))
  }

  lemma ScanLoss(u: Setup, k: nat, a: Answer, e: Error)
    requires Sized(u) && k < |u.names| && a.enabled && !a.Wins() && e == Failure(u.names[k], a)
    ensures Scan(u, Asking(k, false), AfterLoss(u.names[k], a, k == |u.names| - 1)) == Some(Ready(k + 1))
  {
    hide Classify, Failure, Scan;
    var name, b, es, end := u.names[k], BlockOf(e), [], Asking(k, false);
    ScanNothing(u, end);
    if b.Some? {
      ScanThen(u, Asking(k, false), es, end, BlockedEvent(name, e.kind, b));
      es, end := es + [BlockedEvent(name, e.kind, b)], Asking(k, true);
    }
    var lost := ProviderEnd(name, a.duration, false, Some(e.kind), b);
    ScanThen(u, Asking(k, false), es, end, lost);
    es, end := es + [lost], if k < |u.names| - 1 then Owing(k, e.kind) else Ready(k + 1);
    if k < |u.names| - 1 {
      ScanThen(u, Asking(k, false), es, end, Fallback(name, e.kind));
      es := es + [Fallback(name, e.kind)];
    }
    assert es == AfterLoss(name, a, k == |u.names| - 1);
  }

  lemma ScanNothing(u: Setup, phase: Phase)
    requires Sized(u)
    ensures Scan(u, phase, []) == Some(phase)
  {
  }

  lemma ScanAsked(u: Setup, at: nat, k: nat, a: Answer)
    requires Sized(u) && at <= |u.names| && k == NextEnabled(u, at) && k < |u.names| && a.enabled
    ensures Scan(u, Ready(at), Asked(u.names[k], a, k == |u.names| - 1)) == Some(if a.Wins() then Won else Ready(k + 1))
  {
    hide Classify, Failure, AfterLoss, Scan, NextEnabled;
    var start := ProviderStart(u.names[k]);
    ScanOne(u, Ready(at), start);
    if a.Wins() {
      var end := ProviderEnd(u.names[k], a.duration, true, None, None);
      ScanThen(u, Ready(at), [start], Asking(k, false), end);
      assert [start] + [end] == Asked(u.names[k], a, k == |u.names| - 1);
    } else {
      ScanLoss(u, k, a, Failure(u.names[k], a));
      ScanConcat(u, Ready(at), [start], AfterLoss(u.names[k], a, k == |u.names| - 1), Asking(k, false));
    }
  }

  lemma {:induction false} ScanGroups(names: seq<string>, answers: seq<Answer>, k: nat) returns (at: nat)
    requires k <= |names| == |answers| && k <= Walked(answers)
    ensures at <= k && forall j :: at <= j < k ==> !answers[j].enabled
    ensures Scan(SetupOf(names, answers), Ready(0), Groups(names, answers, k))
            == Some(if k > 0 && answers[k - 1].Wins() then Won else Ready(at))
  {
    hide Scan, Asked, NextEnabled;
    var u := SetupOf(names, answers);
    if k == 0 {
      ScanNothing(u, Ready(0));
      return 0;
    }
    at := ScanGroups(names, answers, k - 1);
    if answers[k - 1].enabled {
      assert u.enabled[k - 1] && NextEnabled(u, at) == k - 1;
      ScanAsked(u, at, k - 1, answers[k - 1]);
      ScanConcat(u, Ready(0), Groups(names, answers, k - 1), Group(names, answers, k - 1), Ready(at));
      at := k;
    } else {
      assert Groups(names, answers, k - 1) + [] == Groups(names, answers, k - 1);
    }
  }

  /** For every provider list and every outcome the trace is well bracketed: one start, then exactly the
      enabled providers in order, each with its end and at most one block before it, a fallback exactly
      after each failure that is not the last configured, and one finish; nothing but the finish follows
      a success, and without a success everybody enabled is asked. */
  lemma TraceIsBracketed(names: seq<string>, answers: seq<Answer>, duration: nat)
    requires |names| == |answers|
    ensures Scan(SetupOf(names, answers), Outside, Trace(names, answers, duration)) == Some(Over)
  {
    hide Scan, Groups, NextEnabled;
    var u, n := SetupOf(names, answers), Walked(answers);
    var at := ScanGroups(names, answers, n);
    var end := if n > 0 && answers[n - 1].Wins() then Won else Ready(at);
    assert end.Ready? ==> n == |names| && NextEnabled(u, at) == |names|;
    ScanOne(u, Outside, SearchStart);
    ScanConcat(u, Outside, [SearchStart], Groups(names, answers, n), Ready(0));
    ScanThen(u, Outside, [SearchStart] + Groups(names, answers, n), end, SearchFinish(duration));
  }

  /** The providers that a trace says were asked. */
  function Starts(es: seq<Event>): seq<string> {
    if es == [] then []
    else
      var e := es[|es| - 1];
      Starts(es[..|es| - 1]) + if e.ProviderStart? then [e.provider] else []
  }

  lemma {:induction false} StartsAdd(es: seq<Event>, fs: seq<Event>)
    ensures Starts(es + fs) == Starts(es) + Starts(fs)
  {
    if fs == [] {
      assert es + fs == es;
    } else {
      var rest := fs[..|fs| - 1];
      StartsAdd(es, rest);
      assert es + fs == (es + rest) + [fs[|fs| - 1]];
      assert (es + fs)[..|es + fs| - 1] == es + rest;
    }
  }

  lemma {:induction false} StartsNone(es: seq<Event>)
    requires forall e :: e in es ==> !e.ProviderStart?
    ensures Starts(es) == []
  {
    if es != [] {
      StartsNone(es[..|es| - 1]);
    }
  }

  lemma StartsOfGroup(name: string, a: Answer, last: bool)
    requires a.enabled
    ensures Starts(Asked(name, a, last)) == [name]
  {
    hide Classify, Failure, AfterLoss, Starts;
    var rest := Asked(name, a, last)[1..];
    assert Asked(name, a, last) == [ProviderStart(name)] + rest;
    StartsAdd([ProviderStart(name)], rest);
    OneStart(name);
    LossStartsNone(name, a, last);
    StartsNone(rest);
  }

  lemma OneStart(name: string)
    ensures Starts([ProviderStart(name)]) == [name]
  {
    assert [ProviderStart(name)][..0] == [];
  }

  lemma LossStartsNone(name: string, a: Answer, last: bool)
    ensures forall e :: e in AfterLoss(name, a, last) ==> !e.ProviderStart?
  {
    hide Classify, Failure, BlockOf;
  }

  /** The chain in the diagnostics is the providers asked, in the order of the trace. */
  lemma {:induction false} StartsAreTheChain(names: seq<string>, answers: seq<Answer>, k: nat)
    requires k <= |names| == |answers|
    ensures Starts(Groups(names, answers, k)) == DiagAfter(names, answers, k).chain
  {
    hide Asked;
    if k > 0 {
      StartsAreTheChain(names, answers, k - 1);
      StartsAdd(Groups(names, answers, k - 1), Group(names, answers, k - 1));
      if answers[k - 1].enabled {
        StartsOfGroup(names[k - 1], answers[k - 1], k - 1 == |names| - 1);
      } else {
        assert Groups(names, answers, k - 1) + [] == Groups(names, answers, k - 1);
      }
    }
  }

  /// Diagnostics

  function Enabled(answers: seq<Answer>, k: nat): nat
    requires k <= |answers|
  {
    if k == 0 then 0 else Enabled(answers, k - 1) + if answers[k - 1].enabled then 1 else 0
  }

  lemma {:induction false} DiagCounts(names: seq<string>, answers: seq<Answer>, k: nat)
    requires k <= |names| == |answers| && k <= Walked(answers)
    ensures var d := DiagAfter(names, answers, k);
            && d.attempts == |d.chain| == Enabled(answers, k)
            && |d.errors| == d.attempts - (if k > 0 && answers[k - 1].Wins() then 1 else 0)
            && (forall p :: p in d.timings <==> p in d.chain)
            && (d.blockInfo.Some? <==> exists j :: 0 <= j < |d.errors| && d.errors[j].kind == KindBlocked)
  {
    hide Classify;
    if k > 0 {
      DiagCounts(names, answers, k - 1);
      var d, d' := DiagAfter(names, answers, k - 1), DiagAfter(names, answers, k);
      if answers[k - 1].enabled && !answers[k - 1].Wins() {
        assert d'.errors[|d.errors|].kind == Failure(names[k - 1], answers[k - 1]).kind;
        assert forall j :: 0 <= j < |d.errors| ==> d'.errors[j] == d.errors[j];
      }
    }
  }

  /** What is recorded of a provider that did not win: no results when it gave no error, else the
      classified error, under the provider's own name. */
  predicate Recorded(name: string, a: Answer, e: ProviderError) {
    && e.provider == name
    && match a.error
       case None => e.kind == KindNoResults && e.detector == None
       case Some(err) => e.kind == Classify(name, err).kind && e.detector == Classify(name, err).signal
  }

  /** The errors stand in the order of the providers that were asked. */
  lemma {:induction false} ErrorOfEach(names: seq<string>, answers: seq<Answer>, k: nat, n: nat)
    requires k < n <= |names| == |answers| && n <= Walked(answers)
    requires answers[k].enabled && !answers[k].Wins()
    ensures var errors := DiagAfter(names, answers, n).errors;
            Enabled(answers, k) < |errors| && Recorded(names[k], answers[k], errors[Enabled(answers, k)])
  {
    hide Classify;
    if k < n - 1 {
      ErrorOfEach(names, answers, k, n - 1);
    } else {
      DiagCounts(names, answers, k);
    }
  }

  /** The timing under a name is that of the last provider of this name that was asked. */
  lemma {:induction false} TimingOfEach(names: seq<string>, answers: seq<Answer>, k: nat, n: nat)
    requires k < n <= |names| == |answers| && answers[k].enabled
    requires forall j :: k < j < n && answers[j].enabled ==> names[j] != names[k]
    ensures var timings := DiagAfter(names, answers, n).timings;
            names[k] in timings && timings[names[k]] == answers[k].duration
  {
    hide Failure, BlockOf;
    if k < n - 1 {
      TimingOfEach(names, answers, k, n - 1);
    }
  }

  /** What the events about a provider say of it: its duration, whether it won, and else the error that is
      recorded of it. */
  lemma EventsDescribe(name: string, a: Answer, last: bool, recorded: ProviderError)
    requires a.enabled && (!a.Wins() ==> Recorded(name, a, recorded))
    ensures exists e :: e in Asked(name, a, last) && e.ProviderEnd?
    ensures forall e :: e in Asked(name, a, last) && e.ProviderEnd? ==>
                          && e.provider == name && e.duration == a.duration && (e.success <==> a.Wins())
                          && e.kind == (if a.Wins() then None else Some(recorded.kind))
                          && (e.block.Some? <==> !a.Wins() && recorded.kind == KindBlocked)
    ensures forall e :: e in Asked(name, a, last) && (e.Fallback? || e.BlockedEvent?) ==>
                          !a.Wins() && e.provider == name && e.failure == recorded.kind
  {
    hide Classify;
    var n := |Asked(name, a, last)|;
    var end := Asked(name, a, last)[if a.Wins() || last then n - 1 else n - 2];
    assert end in Asked(name, a, last) && end.ProviderEnd?;
  }

  /** The block information is about the last error that is a block; without a detector it says "blocked". */
  lemma {:induction false} BlockInfoIsLast(names: seq<string>, answers: seq<Answer>, n: nat) returns (j: nat)
    requires n <= |names| == |answers| && DiagAfter(names, answers, n).blockInfo.Some?
    ensures var d := DiagAfter(names, answers, n);
            && j < |d.errors| && d.errors[j].kind == KindBlocked
            && (forall l :: j < l < |d.errors| ==> d.errors[l].kind != KindBlocked)
            && d.blockInfo.value.signal == GENERIC
            && d.blockInfo.value.detectorKey
               == match d.errors[j].detector { case None => "blocked" case Some(s) => if s == "" then "blocked" else s }
  {
    hide Failure;
    var d, a := DiagAfter(names, answers, n), answers[n - 1];
    if a.enabled && !a.Wins() && Failure(names[n - 1], a).kind == KindBlocked {
      j := |d.errors| - 1;
    } else {
      j := BlockInfoIsLast(names, answers, n - 1);
    }
  }

  /** Attempts are the asked providers; the errors number all of them, or all but the winner. */
  lemma ErrorsMatchAttempts(names: seq<string>, answers: seq<Answer>)
    requires |names| == |answers|
    ensures var d := DiagAfter(names, answers, Walked(answers));
            && d.attempts == |d.chain|
            && |d.errors| == d.attempts - (if Winner(answers) < |answers| then 1 else 0)
  {
    DiagCounts(names, answers, Walked(answers));
  }

  /** The fallback flag says that the winner was not configured first. It is set without any earlier
      attempt exactly when all providers before the winner are disabled. */
  lemma FallbackFlagMisleads(names: seq<string>, answers: seq<Answer>)
    requires |names| == |answers| && Winner(answers) < |answers|
    ensures var k := Winner(answers);
            k > 0 && DiagAfter(names, answers, Walked(answers)).attempts == 1
            <==> k > 0 && forall j :: 0 <= j < k ==> !answers[j].enabled
  {
    hide DiagAfter;
    var k := Winner(answers);
    DiagCounts(names, answers, Walked(answers));
    NoneEnabled(answers, k);
  }

  lemma {:induction false} NoneEnabled(answers: seq<Answer>, k: nat)
    requires k <= |answers|
    ensures Enabled(answers, k) == 0 <==> forall j :: 0 <= j < k ==> !answers[j].enabled
  {
    if k > 0 {
      NoneEnabled(answers, k - 1);
    }
  }

  /// Conservation

  function Named(chain: seq<string>, p: string): nat {
    if chain == [] then 0 else Named(chain[..|chain| - 1], p) + if chain[|chain| - 1] == p then 1 else 0
  }

  function BlockedErrors(errors: seq<ProviderError>, p: string): nat {
    if errors == [] then 0
    else
      var e := errors[|errors| - 1];
      BlockedErrors(errors[..|errors| - 1], p) + if e.provider == p && e.kind == KindBlocked then 1 else 0
  }

  /// What position `k` contributes to the counts of provider `p`, as 0 or 1

  function OneIf(b: bool): (n: nat) {
    if b then 1 else 0
  }

  function AskedAt(names: seq<string>, answers: seq<Answer>, k: nat, p: string): nat
    requires k < |names| == |answers|
  {
    OneIf(answers[k].enabled && names[k] == p)
  }

  function WonAt(names: seq<string>, answers: seq<Answer>, k: nat, p: string): nat
    requires k < |names| == |answers|
  {
    OneIf(answers[k].Wins() && names[k] == p)
  }

  function LostAt(names: seq<string>, answers: seq<Answer>, k: nat, p: string): nat
    requires k < |names| == |answers|
  {
    OneIf(answers[k].enabled && !answers[k].Wins() && names[k] == p)
  }

  function BlockedAt(names: seq<string>, answers: seq<Answer>, k: nat, p: string): nat
    requires k < |names| == |answers|
  {
    if LostAt(names, answers, k, p) == 0 then 0 else OneIf(Failure(names[k], answers[k]).kind == KindBlocked)
  }

  function HandedOnAt(names: seq<string>, answers: seq<Answer>, k: nat, p: string, kind: Kind): nat
    requires k < |names| == |answers|
  {
    if LostAt(names, answers, k, p) == 0 then 0
    else OneIf(k < |names| - 1 && Failure(names[k], answers[k]).kind == kind)
  }

  /** Failed attempts of provider `p` with this kind, among the first `k` positions, the position
      configured last excepted. */
  function FailedNotLast(names: seq<string>, answers: seq<Answer>, k: nat, p: string, kind: Kind): nat
    requires k <= |names| == |answers|
  {
    if k == 0 then 0
    else FailedNotLast(names, answers, k - 1, p, kind) + HandedOnAt(names, answers, k - 1, p, kind)
  }

  function Wins(answers: seq<Answer>, names: seq<string>, k: nat, p: string): nat
    requires k <= |names| == |answers|
  {
    if k == 0 then 0 else Wins(answers, names, k - 1, p) + WonAt(names, answers, k - 1, p)
  }

  lemma CountOne(e: Event, p: string, success: bool, s: string, kind: Kind)
    ensures Ends([e], p, success) == if e.ProviderEnd? && e.provider == p && e.success == success then 1 else 0
    ensures Blocks([e], p, s) == if e.BlockedEvent? && e.provider == p && Signal(e.info) == s then 1 else 0
    ensures Fallbacks([e], p, kind) == if e.Fallback? && e.provider == p && e.failure == kind then 1 else 0
  {
    assert [e][..0] == [];
  }

  /** What the collector counts of one provider's events is what the diagnostics record of it. */
  lemma AskedCounts(name: string, a: Answer, last: bool, p: string, success: bool, s: string, kind: Kind)
    requires a.enabled
    ensures var es, mine := Asked(name, a, last), name == p;
            && Ends(es, p, success) == (if mine && success == a.Wins() then 1 else 0)
            && Blocks(es, p, s) == (if mine && !a.Wins() && Failure(name, a).kind == KindBlocked && s == GENERIC
                                    then 1 else 0)
            && Fallbacks(es, p, kind) == (if mine && !a.Wins() && !last && Failure(name, a).kind == kind
                                          then 1 else 0)
  {
    hide Classify, Ends, Blocks, Fallbacks;
    var start := ProviderStart(name);
    CountOne(start, p, success, s, kind);
    if a.Wins() {
      var won := ProviderEnd(name, a.duration, true, None, None);
      CountOne(won, p, success, s, kind);
      CountsAdd([start], [won], p, success, s, kind);
      assert [start] + [won] == Asked(name, a, last);
      return;
    }
    var e := Failure(name, a);
    var b := BlockOf(e);
    var es := [start];
    if b.Some? {
      CountOne(BlockedEvent(name, e.kind, b), p, success, s, kind);
      CountsAdd(es, [BlockedEvent(name, e.kind, b)], p, success, s, kind);
      es := es + [BlockedEvent(name, e.kind, b)];
    }
    var lost := ProviderEnd(name, a.duration, false, Some(e.kind), b);
    CountOne(lost, p, success, s, kind);
    CountsAdd(es, [lost], p, success, s, kind);
    es := es + [lost];
    if !last {
      CountOne(Fallback(name, e.kind), p, success, s, kind);
      CountsAdd(es, [Fallback(name, e.kind)], p, success, s, kind);
      es := es + [Fallback(name, e.kind)];
    }
    assert es == Asked(name, a, last);
  }

  lemma {:induction false} GroupsCount(names: seq<string>, answers: seq<Answer>, k: nat, p: string, s: string,
                                       kind: Kind)
    requires k <= |names| == |answers|
    ensures var es, d := Groups(names, answers, k), DiagAfter(names, answers, k);
            && Ends(es, p, true) == Wins(answers, names, k, p)
            && Ends(es, p, true) + Ends(es, p, false) == Named(d.chain, p)
            && Blocks(es, p, s) == (if s == GENERIC then BlockedErrors(d.errors, p) else 0)
            && Fallbacks(es, p, kind) == FailedNotLast(names, answers, k, p, kind)
  {
    hide Ends, Blocks, Fallbacks, Named, BlockedErrors, DiagStep, Group;
    hide AskedAt, WonAt, LostAt, BlockedAt, HandedOnAt;
    if k == 0 {
      NothingCounts(p, s, kind);
    } else {
      GroupsCount(names, answers, k - 1, p, s, kind);
      var es, group := Groups(names, answers, k - 1), Group(names, answers, k - 1);
      CountsAdd(es, group, p, true, s, kind);
      CountsAdd(es, group, p, false, s, kind);
      GroupCounts(names, answers, k - 1, p, s, kind);
      DiagGrows(DiagAfter(names, answers, k - 1), names, answers, k - 1, p);
    }
  }

  lemma GroupCounts(names: seq<string>, answers: seq<Answer>, k: nat, p: string, s: string, kind: Kind)
    requires k < |names| == |answers|
    ensures var es := Group(names, answers, k);
            && Ends(es, p, true) == WonAt(names, answers, k, p)
            && Ends(es, p, false) == LostAt(names, answers, k, p)
            && Blocks(es, p, s) == (if s == GENERIC then BlockedAt(names, answers, k, p) else 0)
            && Fallbacks(es, p, kind) == HandedOnAt(names, answers, k, p, kind)
    ensures WonAt(names, answers, k, p) + LostAt(names, answers, k, p) == AskedAt(names, answers, k, p)
  {
    hide Ends, Blocks, Fallbacks, Failure, Asked;
    if answers[k].enabled {
      AskedCounts(names[k], answers[k], k == |names| - 1, p, true, s, kind);
      AskedCounts(names[k], answers[k], k == |names| - 1, p, false, s, kind);
    } else {
      NothingCounts(p, s, kind);
    }
  }

  lemma NothingCounts(p: string, s: string, kind: Kind)
    ensures Ends([], p, true) == Ends([], p, false) == Blocks([], p, s) == Fallbacks([], p, kind) == 0
    ensures Named([], p) == BlockedErrors([], p) == 0
  {
  }

  lemma DiagGrows(d: Diagnostics, names: seq<string>, answers: seq<Answer>, k: nat, p: string)
    requires k < |names| == |answers|
    ensures var d' := DiagStep(d, names[k], answers[k]);
            && Named(d'.chain, p) == Named(d.chain, p) + AskedAt(names, answers, k, p)
            && BlockedErrors(d'.errors, p) == BlockedErrors(d.errors, p) + BlockedAt(names, answers, k, p)
  {
    hide Classify;
    var name := names[k];
    assert (d.chain + [name])[..|d.chain|] == d.chain;
    var e := Failure(name, answers[k]);
    var entry := ProviderError(name, e.kind, e.signal);
    assert (d.errors + [entry])[..|d.errors|] == d.errors;
  }

  /// Any number of searches

  datatype Call = Call(query: string, answers: seq<Answer>, duration: nat)

  function Emitted(names: seq<string>, c: Call): seq<Event>
    requires |c.answers| == |names|
  {
    if Blank(c.query) then [] else Trace(names, c.answers, c.duration)
  }

  function Diag(names: seq<string>, c: Call): Diagnostics
    requires |c.answers| == |names|
  {
    if Blank(c.query) then NO_DIAGNOSTICS else DiagAfter(names, c.answers, Walked(c.answers))
  }

  predicate Succeeds(c: Call) {
    !Blank(c.query) && Winner(c.answers) < |c.answers|
  }

  predicate Fits(names: seq<string>, calls: seq<Call>) {
    forall c :: c in calls ==> |c.answers| == |names|
  }

  /** What a collector that is registered once hears of these searches. */
  function AllEvents(names: seq<string>, calls: seq<Call>): seq<Event>
    requires Fits(names, calls)
  {
    if calls == [] then []
    else AllEvents(names, calls[..|calls| - 1]) + Emitted(names, calls[|calls| - 1])
  }

  /** Provider `p` in the chains, its blocked errors, and its failures before the last position, over
      all searches. */
  datatype Totals = Totals(chained: nat, blocked: nat, handedOn: nat)

  function TotalsOf(names: seq<string>, calls: seq<Call>, p: string, kind: Kind): Totals
    requires Fits(names, calls)
  {
    if calls == [] then Totals(0, 0, 0)
    else
      var t, c := TotalsOf(names, calls[..|calls| - 1], p, kind), calls[|calls| - 1];
      var d := Diag(names, c);
      Totals(t.chained + Named(d.chain, p), t.blocked + BlockedErrors(d.errors, p),
             t.handedOn + if Blank(c.query) then 0 else FailedNotLast(names, c.answers, Walked(c.answers), p, kind))
  }

  lemma EmittedCounts(names: seq<string>, c: Call, p: string, s: string, kind: Kind)
    requires |c.answers| == |names| && !Blank(c.query)
    ensures var es, d, n := Emitted(names, c), Diag(names, c), Walked(c.answers);
            && Ends(es, p, true) == Wins(c.answers, names, n, p)
            && Ends(es, p, true) + Ends(es, p, false) == Named(d.chain, p)
            && Blocks(es, p, s) == (if s == GENERIC then BlockedErrors(d.errors, p) else 0)
            && Fallbacks(es, p, kind) == FailedNotLast(names, c.answers, n, p, kind)
  {
    hide Groups, DiagAfter, FailedNotLast, Wins;
    var n := Walked(c.answers);
    var groups := Groups(names, c.answers, n);
    GroupsCount(names, c.answers, n, p, s, kind);
    CountOne(SearchStart, p, true, s, kind);
    CountOne(SearchStart, p, false, s, kind);
    CountOne(SearchFinish(c.duration), p, true, s, kind);
    CountOne(SearchFinish(c.duration), p, false, s, kind);
    CountsAdd([SearchStart], groups, p, true, s, kind);
    CountsAdd([SearchStart], groups, p, false, s, kind);
    CountsAdd([SearchStart] + groups, [SearchFinish(c.duration)], p, true, s, kind);
    CountsAdd([SearchStart] + groups, [SearchFinish(c.duration)], p, false, s, kind);
  }

  lemma {:induction false} EventsBalance(names: seq<string>, calls: seq<Call>, p: string, s: string, kind: Kind)
    requires Fits(names, calls)
    ensures var es, t := AllEvents(names, calls), TotalsOf(names, calls, p, kind);
            && Ends(es, p, true) + Ends(es, p, false) == t.chained
            && Blocks(es, p, s) == (if s == GENERIC then t.blocked else 0)
            && Fallbacks(es, p, kind) == t.handedOn
  {
    hide Trace, DiagAfter, FailedNotLast;
    if calls != [] {
      var rest, c := calls[..|calls| - 1], calls[|calls| - 1];
      EventsBalance(names, rest, p, s, kind);
      CountsAdd(AllEvents(names, rest), Emitted(names, c), p, true, s, kind);
      CountsAdd(AllEvents(names, rest), Emitted(names, c), p, false, s, kind);
      if !Blank(c.query) {
        EmittedCounts(names, c, p, s, kind);
      }
    }
  }

  /** Metrics conservation: after any searches, a provider's success and error counters together equal
      its occurrences in the provider chains; its block counters equal its blocked errors, under one
      label; and its fallback counters match, kind by kind, its failures before the last position. */
  lemma MetricsBalance(names: seq<string>, calls: seq<Call>, p: string, s: string, kind: Kind)
    requires Fits(names, calls)
    ensures var c, t := AbsorbAll(AllEvents(names, calls)), TotalsOf(names, calls, p, kind);
            && Get(c.requests, (p, true)) + Get(c.requests, (p, false)) == t.chained
            && Get(c.blocks, (p, s)) == (if s == GENERIC then t.blocked else 0)
            && Get(c.fallbacks, (p, kind)) == t.handedOn
  {
    CountersCount(AllEvents(names, calls));
    EventsBalance(names, calls, p, s, kind);
  }

  /// Successes

  function SuccessCount(calls: seq<Call>): nat {
    if calls == [] then 0 else SuccessCount(calls[..|calls| - 1]) + if Succeeds(calls[|calls| - 1]) then 1 else 0
  }

  /** The success counters of these providers, added up. */
  function SuccessSum(c: Counters, ps: seq<string>): nat {
    if ps == [] then 0 else SuccessSum(c, ps[..|ps| - 1]) + Get(c.requests, (ps[|ps| - 1], true))
  }

  function EndsSum(es: seq<Event>, ps: seq<string>): nat {
    if ps == [] then 0 else EndsSum(es, ps[..|ps| - 1]) + Ends(es, ps[|ps| - 1], true)
  }

  predicate Distinct(ps: seq<string>) {
    forall i, j :: 0 <= i < j < |ps| ==> ps[i] != ps[j]
  }

  lemma {:induction false} EndsSumAdds(es: seq<Event>, fs: seq<Event>, ps: seq<string>)
    ensures EndsSum(es + fs, ps) == EndsSum(es, ps) + EndsSum(fs, ps)
  {
    if ps != [] {
      EndsSumAdds(es, fs, ps[..|ps| - 1]);
      CountsAdd(es, fs, ps[|ps| - 1], true, GENERIC, KindBlocked);
    }
  }

  /** Only the winner counts as a success, once. */
  lemma {:induction false} WinsOnce(names: seq<string>, answers: seq<Answer>, n: nat, p: string)
    requires n <= |names| == |answers| && n <= Walked(answers)
    ensures Wins(answers, names, n, p) == if Winner(answers) < n && names[Winner(answers)] == p then 1 else 0
  {
    hide Winner;
    if n > 0 {
      WinsOnce(names, answers, n - 1, p);
    }
  }

  lemma {:induction false} EndsSumOfCall(names: seq<string>, c: Call, ps: seq<string>, k: nat)
    requires |c.answers| == |names| && k <= |ps| && Distinct(ps)
    ensures EndsSum(Emitted(names, c), ps[..k])
            == if Succeeds(c) && names[Winner(c.answers)] in ps[..k] then 1 else 0
  {
    hide Trace, Wins, Winner;
    if k > 0 {
      EndsSumOfCall(names, c, ps, k - 1);
      assert ps[..k][..k - 1] == ps[..k - 1] && ps[..k] == ps[..k - 1] + [ps[k - 1]];
      if !Blank(c.query) {
        EmittedCounts(names, c, ps[k - 1], GENERIC, KindBlocked);
        WinsOnce(names, c.answers, Walked(c.answers), ps[k - 1]);
      }
    }
  }

  lemma {:induction false} EndsSumOfCalls(names: seq<string>, calls: seq<Call>, ps: seq<string>)
    requires Fits(names, calls) && Distinct(ps) && forall p :: p in names ==> p in ps
    ensures EndsSum(AllEvents(names, calls), ps) == SuccessCount(calls)
  {
    hide Winner, Emitted;
    if calls == [] {
      EndsOfNothing(ps);
    } else {
      var rest, c := calls[..|calls| - 1], calls[|calls| - 1];
      EndsSumOfCalls(names, rest, ps);
      EndsSumAdds(AllEvents(names, rest), Emitted(names, c), ps);
      EndsSumOfCall(names, c, ps, |ps|);
      assert ps[..|ps|] == ps;
    }
  }

  lemma {:induction false} EndsOfNothing(ps: seq<string>)
    ensures EndsSum([], ps) == 0
  {
    if ps != [] {
      EndsOfNothing(ps[..|ps| - 1]);
    }
  }

  /** The success counters of all providers add up to the searches that returned no error. */
  lemma SuccessesBalance(names: seq<string>, calls: seq<Call>, ps: seq<string>)
    requires Fits(names, calls) && Distinct(ps) && forall p :: p in names ==> p in ps
    ensures SuccessSum(AbsorbAll(AllEvents(names, calls)), ps) == SuccessCount(calls)
  {
    EndsSumOfCalls(names, calls, ps);
    SumsAgree(AllEvents(names, calls), ps);
  }

  lemma {:induction false} SumsAgree(es: seq<Event>, ps: seq<string>)
    ensures SuccessSum(AbsorbAll(es), ps) == EndsSum(es, ps)
  {
    CountersCount(es);
    if ps != [] {
      SumsAgree(es, ps[..|ps| - 1]);
    }
  }
}
