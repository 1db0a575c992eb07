/** Concrete walks through a provider's life. */
module Scenarios {
  import opened Wrappers
  import opened TracerKeys
  import opened TracerProviders

  /** ("a", null), ("a", "1.0") and ("a", "2.0") are three entries with
      three distinct tracers, while a null name and the empty name share
      one. */
  lemma KeyDiscrimination()
    ensures var p0 := NewProvider();
            var r1 := GetTracer(p0, Some("a"), None);
            var r2 := GetTracer(r1.provider, Some("a"), Some("1.0"));
            var r3 := GetTracer(r2.provider, Some("a"), Some("2.0"));
            var r4 := GetTracer(r3.provider, None, None);
            var r5 := GetTracer(r4.provider, Some(""), None);
            && r1.tracer != r2.tracer && r2.tracer != r3.tracer && r1.tracer != r3.tracer
            && |r3.provider.cache.value| == 3
            && r5.tracer == r4.tracer && r5.provider == r4.provider
  {
  }

  /** Look up ("svc", "1.0") twice, dispose, look it up again, dispose again:
      the first two lookups share a tracer H1 whose source is live until the
      dispose and released once by it; the lookup after dispose hands out an
      inert tracer H2 different from H1; the second dispose changes nothing. */
  lemma LifecycleScenario()
    ensures var p0 := NewProvider();
            var r1 := GetTracer(p0, Some("svc"), Some("1.0"));
            var r2 := GetTracer(r1.provider, Some("svc"), Some("1.0"));
            var d1 := AfterDispose(r2.provider, true);
            var r3 := GetTracer(d1, Some("svc"), Some("1.0"));
            var d2 := AfterDispose(r3.provider, true);
            && r2.tracer == r1.tracer
            && r2.provider.heap[r1.tracer].source == Some(0)
            && r2.provider.sources[0].releases == 0
            && d1.heap[r1.tracer].source.None?
            && d1.sources[0].releases == 1
            && r3.tracer != r1.tracer
            && r3.provider.heap[r3.tracer].source.None?
            && d2 == r3.provider
  {
  }
}
