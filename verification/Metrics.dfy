/** The events of the failover engine, and the collector that counts them. */
module Metrics {
  import opened Basics
  import opened Errors

  datatype BlockInfo = BlockInfo(signal: string, detectorKey: string)

  datatype Event =
    | SearchStart
    | SearchFinish(duration: nat)
    | ProviderStart(provider: string)
    | ProviderEnd(provider: string, duration: nat, success: bool, kind: Option<Kind>, block: Option<BlockInfo>)
    | BlockedEvent(provider: string, failure: Kind, info: Option<BlockInfo>)
    | Fallback(provider: string, failure: Kind)

  const GENERIC: string := "generic"

  /** The label under which a block is counted. */
  function Signal(info: Option<BlockInfo>): string {
    if info.Some? && info.value.signal != "" then info.value.signal else GENERIC
  }

  /** The labelled counters of a collector. */
  datatype Counters = Counters(
    requests: map<(string, bool), nat>,
    blocks: map<(string, string), nat>,
    fallbacks: map<(string, Kind), nat>)

  const ZERO: Counters := Counters(map[], map[], map[])

  function Get<K>(m: map<K, nat>, k: K): nat {
    if k in m then m[k] else 0
  }

  function Inc<K>(m: map<K, nat>, k: K): map<K, nat> {
    m[k := Get(m, k) + 1]
  }

  function Absorb(c: Counters, e: Event): Counters {
    match e
    case ProviderEnd(p, _, success, _, _) => c.(requests := Inc(c.requests, (p, success)))
    case BlockedEvent(p, _, info) => c.(blocks := Inc(c.blocks, (p, Signal(info))))
    case Fallback(p, kind) => c.(fallbacks := Inc(c.fallbacks, (p, kind)))
    case _ => c
  }

  function AbsorbAll(seen: seq<Event>): Counters {
    if seen == [] then ZERO else Absorb(AbsorbAll(seen[..|seen| - 1]), seen[|seen| - 1])
  }

  class PrometheusCollector {
    var requests: map<(string, bool), nat>
    var blocks: map<(string, string), nat>
    var fallbacks: map<(string, Kind), nat>
    /** Every event received so far. */
    ghost var seen: seq<Event>

    ghost predicate Valid()
      reads this
    {
      Counters(requests, blocks, fallbacks) == AbsorbAll(seen)
    }

    constructor ()
      ensures Valid() && seen == []
    {
      requests, blocks, fallbacks, seen := map[], map[], map[], [];
    }

    method Hook(e: Event)
      requires Valid()
      modifies this
      ensures Valid() && seen == old(seen) + [e]
    {
      assert (seen + [e])[..|seen|] == seen;
      match e {
        case ProviderEnd(p, _, success, _, _) =>
          requests := Inc(requests, (p, success));
        case BlockedEvent(p, _, info) =>
          blocks := Inc(blocks, (p, Signal(info)));
        case Fallback(p, kind) =>
          fallbacks := Inc(fallbacks, (p, kind));
        case _ =>
      }
      seen := seen + [e];
    }
  }

  /// What the counters count

  function Ends(es: seq<Event>, p: string, success: bool): nat {
    if es == [] then 0
    else
      var e := es[|es| - 1];
      Ends(es[..|es| - 1], p, success) + if e.ProviderEnd? && e.provider == p && e.success == success then 1 else 0
  }

  function Blocks(es: seq<Event>, p: string, s: string): nat {
    if es == [] then 0
    else
      var e := es[|es| - 1];
      Blocks(es[..|es| - 1], p, s) + if e.BlockedEvent? && e.provider == p && Signal(e.info) == s then 1 else 0
  }

  function Fallbacks(es: seq<Event>, p: string, kind: Kind): nat {
    if es == [] then 0
    else
      var e := es[|es| - 1];
      Fallbacks(es[..|es| - 1], p, kind) + if e.Fallback? && e.provider == p && e.failure == kind then 1 else 0
  }

  /** Every counter is the number of its own events; no event is counted under another label. */
  lemma {:induction false} CountersCount(es: seq<Event>)
    ensures var c := AbsorbAll(es);
            && (forall p, s :: Get(c.requests, (p, s)) == Ends(es, p, s))
            && (forall p, s :: Get(c.blocks, (p, s)) == Blocks(es, p, s))
            && (forall p, k :: Get(c.fallbacks, (p, k)) == Fallbacks(es, p, k))
  {
    if es != [] {
      CountersCount(es[..|es| - 1]);
    }
  }

  lemma {:induction false} CountsAdd(es: seq<Event>, fs: seq<Event>, p: string, success: bool, s: string, kind: Kind)
    ensures Ends(es + fs, p, success) == Ends(es, p, success) + Ends(fs, p, success)
    ensures Blocks(es + fs, p, s) == Blocks(es, p, s) + Blocks(fs, p, s)
    ensures Fallbacks(es + fs, p, kind) == Fallbacks(es, p, kind) + Fallbacks(fs, p, kind)
  {
    if fs == [] {
      assert es + fs == es;
    } else {
      var n := |fs| - 1;
      CountsAdd(es, fs[..n], p, success, s, kind);
      assert (es + fs)[..|es + fs| - 1] == es + fs[..n];
    }
  }
}
