/** Error chains and their classification into stable kinds. */
module Errors {
  import opened Basics

  datatype Kind =
    | KindBlocked
    | KindRateLimited
    | KindProviderUnavailable
    | KindParse
    | KindInvalidInput
    | KindNoResults
    | KindInternal

  /** An error and, through its last constructors, everything it wraps. */
  datatype Error =
    | NoVqd
    | NoResults
    | UnexpectedBody
    | BlockedSentinel
    | CircuitOpen
    | Cancelled
    | Other(text: string)
    | HttpStatus(status: int)
    | Blocked(status: int, detector: string, attempt: nat)
    | Search(kind: Kind, provider: string, temporary: bool, cause: Option<Error>, signal: Option<string>)
    | Wrapped(inner: Error)

  function Unwrap(e: Error): Option<Error> {
    match e
    case Wrapped(inner) => Some(inner)
    case Search(_, _, _, cause, _) => cause
    case Blocked(_, _, _) => Some(BlockedSentinel)
    case _ => None
  }

  /** The chain that repeated unwrapping walks. */
  function Chain(e: Error): (chain: seq<Error>)
    ensures |chain| > 0 && chain[0] == e
    decreases Weight(e)
  {
    match Unwrap(e)
    case Some(inner) => [e] + Chain(inner)
    case None => [e]
  }

  function Weight(e: Error): nat {
    match e
    case Wrapped(inner) => 1 + Weight(inner)
    case Search(_, _, _, Some(cause), _) => 1 + Weight(cause)
    case Blocked(_, _, _) => 1
    case _ => 0
  }

  /** The first structured error of the chain. */
  function AsSearch(e: Error): (r: Option<Error>)
    ensures r.Some? ==> r.value.Search?
    decreases Weight(e)
  {
    if e.Search? then Some(e)
    else match Unwrap(e) case Some(inner) => AsSearch(inner) case None => None
  }

  /** The first block report of the chain. */
  function AsBlocked(e: Error): (r: Option<Error>)
    ensures r.Some? ==> r.value.Blocked?
    decreases Weight(e)
  {
    if e.Blocked? then Some(e)
    else match Unwrap(e) case Some(inner) => AsBlocked(inner) case None => None
  }

  predicate Is(e: Error, target: Error) {
    target in Chain(e)
  }

  /** The classified form of an error, for a provider: the first structured error of the chain, with
      the provider filled in when it has none; otherwise a new one. */
  function Classify(provider: string, e: Error): (r: Error)
    ensures r.Search?
  {
    match AsSearch(e)
    case Some(se) => if se.provider == "" then se.(provider := provider) else se
    case None =>
      if Is(e, BlockedSentinel) then
        var be := AsBlocked(e);
        Search(KindBlocked, provider, true, Some(e), if be.Some? then Some(be.value.detector) else None)
      else if Is(e, NoResults) then Search(KindNoResults, provider, false, Some(e), None)
      else if Is(e, NoVqd) || Is(e, UnexpectedBody) then Search(KindParse, provider, true, Some(e), None)
      else Search(KindProviderUnavailable, provider, true, Some(e), None)
  }

  /** Classification fills the provider of a structured error in place: this is the caller's error
      after the call. */
  function AfterClassify(provider: string, e: Error): Error
  {
    match e
    case Search(kind, own, temporary, cause, detector) =>
      if own == "" then e.(provider := provider) else e
    case Wrapped(inner) => Wrapped(AfterClassify(provider, inner))
    case _ => e
  }

  /** The structured error found is the first of the chain: it stands at `k`, and there is none when
      `k` is past the end. */
  lemma {:induction false} AsSearchIsFirst(e: Error) returns (k: nat)
    ensures k <= |Chain(e)| && (AsSearch(e).Some? <==> k < |Chain(e)|)
    ensures AsSearch(e).Some? ==> Chain(e)[k] == AsSearch(e).value
    ensures forall j :: 0 <= j < k ==> !Chain(e)[j].Search?
    decreases Weight(e)
  {
    if e.Search? {
      k := 0;
    } else {
      match Unwrap(e)
      case Some(inner) =>
        k := AsSearchIsFirst(inner);
        k := k + 1;
      case None =>
        k := 1;
    }
  }

  /** Classifying an already classified error again changes nothing, for any second provider, if and
      only if the first classification had a provider to record: its own argument or one already in
      the chain. */
  lemma ClassifyAgainIsIdentity(first: string, e: Error)
    ensures (forall second :: Classify(second, Classify(first, e)) == Classify(first, e))
            <==> first != "" || (AsSearch(e).Some? && AsSearch(e).value.provider != "")
  {
    var c := Classify(first, e);
    if c.provider == "" {
      assert Classify("x", c).provider == "x";
    }
  }

  /** The update in place is the same for the error returned and the error kept: classifying what the
      caller kept gives what the caller got. */
  lemma {:induction false} InPlaceAgrees(provider: string, e: Error)
    requires AsSearch(e).Some?
    ensures AsSearch(AfterClassify(provider, e)) == Some(Classify(provider, e))
  {
    if e.Wrapped? {
      InPlaceAgrees(provider, e.inner);
    }
  }

  /** Wrapping never changes the kind, nor whether a retry may help. */
  lemma {:induction false} WrappingKeepsKind(provider: string, e: Error)
    ensures Classify(provider, Wrapped(e)).kind == Classify(provider, e).kind
    ensures Classify(provider, Wrapped(e)).temporary == Classify(provider, e).temporary
    ensures Classify(provider, Wrapped(e)).signal == Classify(provider, e).signal
  {
    assert Chain(Wrapped(e)) == [Wrapped(e)] + Chain(e);
  }

  /** The order of precedence, said of the chain: structured first, then blocked, then empty, then
      unparseable; whatever is left is an unavailable provider. */
  lemma KindByPrecedence(provider: string, e: Error)
    requires forall k :: 0 <= k < |Chain(e)| ==> !Chain(e)[k].Search?
    ensures var kind := Classify(provider, e).kind;
            && (kind == KindBlocked <==> exists x :: x in Chain(e) && (x.Blocked? || x == BlockedSentinel))
            && (kind == KindNoResults <==> kind != KindBlocked && NoResults in Chain(e))
            && (kind == KindParse <==> kind != KindBlocked && kind != KindNoResults
                                       && (NoVqd in Chain(e) || UnexpectedBody in Chain(e)))
            && (kind in {KindBlocked, KindNoResults, KindParse, KindProviderUnavailable})
  {
    BlockedUnwraps(e);
    var k := AsSearchIsFirst(e);
  }

  /** An error that is structured already keeps everything, and gets the provider if it has none. */
  lemma StructuredIsKept(provider: string, e: Error, k: nat)
    requires k < |Chain(e)| && Chain(e)[k].Search? && forall j :: 0 <= j < k ==> !Chain(e)[j].Search?
    ensures var se := Chain(e)[k];
            Classify(provider, e) == Search(se.kind, if se.provider == "" then provider else se.provider,
                                            se.temporary, se.cause, se.signal)
  {
    var j := AsSearchIsFirst(e);
  }

  /** Any other error becomes the cause of a new one, for which a retry may help unless there were no
      results; a block brings the detector of the first block report of its chain. */
  lemma ClassifiedAnew(provider: string, e: Error)
    requires forall k :: 0 <= k < |Chain(e)| ==> !Chain(e)[k].Search?
    ensures var c := Classify(provider, e);
            && c.provider == provider && c.cause == Some(e)
            && (c.temporary <==> c.kind != KindNoResults)
            && (c.signal.Some? <==> exists x :: x in Chain(e) && x.Blocked?)
            && forall k :: 0 <= k < |Chain(e)| && Chain(e)[k].Blocked?
                           && (forall j :: 0 <= j < k ==> !Chain(e)[j].Blocked?) ==>
                             c.signal == Some(Chain(e)[k].detector)
  {
    BlockedUnwraps(e);
    var k := AsSearchIsFirst(e);
    var b := AsBlockedIsFirst(e);
    if b < |Chain(e)| {
      assert Chain(e)[b] in Chain(e);
    }
  }

  lemma {:induction false} AsBlockedIsFirst(e: Error) returns (k: nat)
    ensures k <= |Chain(e)| && (AsBlocked(e).Some? <==> k < |Chain(e)|)
    ensures AsBlocked(e).Some? ==> Chain(e)[k] == AsBlocked(e).value
    ensures forall j :: 0 <= j < k ==> !Chain(e)[j].Blocked?
    decreases Weight(e)
  {
    if e.Blocked? {
      k := 0;
    } else {
      match Unwrap(e)
      case Some(inner) =>
        k := AsBlockedIsFirst(inner);
        k := k + 1;
      case None =>
        k := 1;
    }
  }

  lemma {:induction false} BlockedUnwraps(e: Error)
    ensures (exists x :: x in Chain(e) && x.Blocked?) ==> BlockedSentinel in Chain(e)
    decreases Weight(e)
  {
    match Unwrap(e)
    case Some(inner) =>
      BlockedUnwraps(inner);
      assert Chain(e) == [e] + Chain(inner);
      assert inner == Chain(inner)[0];
      if x :| x in Chain(e) && x.Blocked? {
        assert x == e || x in Chain(inner);
      }
    case None =>
  }

  /** An open breaker surfaces as an unavailable provider, however often it is wrapped. */
  lemma {:induction false} OpenBreakerIsUnavailable(provider: string, e: Error)
    requires Leaf(e) == CircuitOpen
    ensures Classify(provider, e).kind == KindProviderUnavailable
    ensures Classify(provider, e).temporary
  {
    if e.Wrapped? {
      OpenBreakerIsUnavailable(provider, e.inner);
      WrappingKeepsKind(provider, e.inner);
    } else {
      assert Chain(e) == [CircuitOpen];
    }
  }

  /** What is left of an error when the wrappers around it are taken off. */
  function Leaf(e: Error): Error {
    if e.Wrapped? then Leaf(e.inner) else e
  }
}
