/** Sequences of public calls on one provider, each call atomic, and the
    lifetime guarantees that hold along any such sequence. */
module ProviderRuns {
  import opened Wrappers
  import opened TracerKeys
  import opened TracerProviders

  /** A public call: GetTracer(name, version) or Dispose(disposing). */
  datatype Call =
    | GetTracerCall(name: Option<string>, version: Option<string>)
    | DisposeCall(disposing: bool)

  /** The provider after one call. */
  function Step(p: Provider, call: Call): Provider {
    match call
    case GetTracerCall(name, version) => GetTracer(p, name, version).provider
    case DisposeCall(disposing) => AfterDispose(p, disposing)
  }

  /** The provider after the calls in order. */
  function Run(p: Provider, calls: seq<Call>): Provider
    decreases |calls|
  {
    if |calls| == 0 then p else Run(Step(p, calls[0]), calls[1..])
  }

  lemma StepPreservesValid(p: Provider, call: Call)
    requires Valid(p)
    ensures Valid(Step(p, call))
  {
    match call
    case GetTracerCall(name, version) => GetTracerPreservesValid(p, name, version);
    case DisposeCall(disposing) => DisposePreservesValid(p, disposing);
  }

  /** Every provider reachable by calls from a valid one is valid. */
  lemma {:induction false} RunPreservesValid(p: Provider, calls: seq<Call>)
    requires Valid(p)
    ensures Valid(Run(p, calls))
    decreases |calls|
  {
    if |calls| > 0 {
      StepPreservesValid(p, calls[0]);
      RunPreservesValid(Step(p, calls[0]), calls[1..]);
    }
  }

  /** Disposal is final: from a disposed provider no call revives the cache,
      creates a source or releases one. */
  lemma {:induction false} DisposedIsFinal(p: Provider, calls: seq<Call>)
    requires p.cache.None?
    ensures Run(p, calls).cache.None?
    ensures Run(p, calls).sources == p.sources
    decreases |calls|
  {
    if |calls| > 0 {
      DisposedIsFinal(Step(p, calls[0]), calls[1..]);
    }
  }

  /** A key never maps to two tracers over the provider's lifetime: if the
      provider is still live after the calls, it was live before and every
      entry cached before is still cached, to the same tracer. */
  lemma {:induction false} CachedEntriesPersist(p: Provider, calls: seq<Call>)
    requires Run(p, calls).cache.Some?
    ensures p.cache.Some?
    ensures var c, c' := p.cache.value, Run(p, calls).cache.value;
            forall k | k in c :: k in c' && c'[k] == c[k]
    decreases |calls|
  {
    if |calls| > 0 {
      var p' := Step(p, calls[0]);
      CachedEntriesPersist(p', calls[1..]);
    }
  }

  /** Release happens exactly once per source: along any sequence of calls
      on a new provider, no source is released while the provider is live,
      and once it is disposed every source ever created has been released
      exactly once and no tracer still holds one. */
  lemma ReleasedExactlyOnce(calls: seq<Call>)
    ensures var q := Run(NewProvider(), calls);
      && (q.cache.Some? ==> forall s | 0 <= s < |q.sources| :: q.sources[s].releases == 0)
      && (q.cache.None? ==> forall s | 0 <= s < |q.sources| :: q.sources[s].releases == 1)
      && (q.cache.None? ==> forall t | 0 <= t < |q.heap| :: q.heap[t].source.None?)
  {
    RunPreservesValid(NewProvider(), calls);
  }
}
