/** A tracer provider: a cache of one tracer per key that lives until the
    provider is disposed, after which every lookup hands out a fresh no-op
    tracer. Each public call is one atomic transition of an immutable
    `Provider` value. */
module TracerProviders {
  import opened Wrappers
  import opened TracerKeys

  /** Tracers and activity sources are reference objects; an id is the
      position of the object in its allocation sequence. */
  type TracerId = nat
  type SourceId = nat

  /** A tracer holds an activity source, or none: a no-op tracer and a
      tracer whose source was released both have `None`. */
  datatype Tracer = Tracer(source: Option<SourceId>)

  /** An activity source built from a key's name and version for the tracer
      `owner`; `releases` counts the calls of its Dispose. */
  datatype Source = Source(name: string, version: Option<string>, owner: TracerId, releases: nat)

  /** `cache` is the provider's dictionary field: `Some` while live, `None`
      once disposed. `heap` and `sources` hold every tracer and activity
      source created so far, indexed by their ids. */
  datatype Provider = Provider(cache: Option<map<Key, TracerId>>, heap: seq<Tracer>, sources: seq<Source>)

  /** The outcome of a lookup: the provider afterwards and the tracer handed out. */
  datatype Lookup = Lookup(provider: Provider, tracer: TracerId)

  /** The key a source was built from. */
  function KeyOf(s: Source): Key {
    Key(s.name, s.version)
  }

  /** A newly constructed provider: live, with an empty cache. */
  function NewProvider(): (p: Provider)
    ensures p.cache == Some(map[])
    ensures Valid(p)
  {
    Provider(Some(map[]), [], [])
  }

  // ---------------------------------------------------------------------
  // Invariants
  // ---------------------------------------------------------------------

  /** Every id stored anywhere names an existing object, and a source is
      held only by the tracer it was created for. */
  ghost predicate WellFormed(p: Provider) {
    && (forall t | 0 <= t < |p.heap| && p.heap[t].source.Some? ::
          p.heap[t].source.value < |p.sources| && p.sources[p.heap[t].source.value].owner == t)
    && (forall s | 0 <= s < |p.sources| :: p.sources[s].owner < |p.heap|)
    && (p.cache.Some? ==> forall k | k in p.cache.value :: p.cache.value[k] < |p.heap|)
  }

  /** While live, every cached tracer holds an unreleased source built from
      its own key, and every source ever created is held by the tracer
      cached under that source's key. */
  ghost predicate LiveInvariant(p: Provider, c: map<Key, TracerId>) {
    && (forall k | k in c ::
          && c[k] < |p.heap|
          && p.heap[c[k]].source.Some?
          && p.heap[c[k]].source.value < |p.sources|
          && KeyOf(p.sources[p.heap[c[k]].source.value]) == k)
    && (forall s | 0 <= s < |p.sources| ::
          && p.sources[s].releases == 0
          && KeyOf(p.sources[s]) in c
          && c[KeyOf(p.sources[s])] == p.sources[s].owner
          && p.sources[s].owner < |p.heap|
          && p.heap[p.sources[s].owner].source == Some(s))
  }

  /** Once disposed, no tracer holds a source and every source ever created
      has been released exactly once. */
  ghost predicate DisposedInvariant(p: Provider) {
    && (forall t | 0 <= t < |p.heap| :: p.heap[t].source.None?)
    && (forall s | 0 <= s < |p.sources| :: p.sources[s].releases == 1)
  }

  /** The invariant every reachable provider satisfies. */
  ghost predicate Valid(p: Provider) {
    && WellFormed(p)
    && match p.cache
       case Some(c) => LiveInvariant(p, c)
       case None => DisposedInvariant(p)
  }

  /** In a valid live provider distinct keys map to distinct tracers. */
  lemma CacheInjective(p: Provider, k1: Key, k2: Key)
    requires Valid(p) && p.cache.Some?
    requires k1 in p.cache.value && k2 in p.cache.value && k1 != k2
    ensures p.cache.value[k1] != p.cache.value[k2]
  {
  }

  // ---------------------------------------------------------------------
  // GetTracer
  // ---------------------------------------------------------------------

  /** Looks up the tracer for (name, version). Disposed: a fresh tracer with
      no source, nothing else touched. Hit: the cached tracer, nothing
      touched. Miss: a fresh tracer with a fresh source built from the key,
      cached under the key. */
  function GetTracer(p: Provider, name: Option<string>, version: Option<string>): (r: Lookup)
    ensures WellFormed(p) ==> r.tracer < |r.provider.heap|
    ensures |p.heap| <= |r.provider.heap| && r.provider.heap[..|p.heap|] == p.heap
    ensures |p.sources| <= |r.provider.sources| && r.provider.sources[..|p.sources|] == p.sources
    ensures r.provider.cache.None? <==> p.cache.None?
    // disposed: an inert, fresh tracer; no source created, the cache stays absent
    ensures p.cache.None? ==>
      && r.tracer == |p.heap| && |r.provider.heap| == |p.heap| + 1
      && r.provider.heap[r.tracer].source.None?
      && r.provider.sources == p.sources
    // live: the returned tracer is the one now cached under the key, and
    // the cache gains at most that key, every other entry unchanged
    ensures p.cache.Some? ==>
      var key := MakeKey(name, version);
      var c, c' := p.cache.value, r.provider.cache.value;
      && key in c' && c'[key] == r.tracer
      && c'.Keys == c.Keys + {key}
      && (forall k | k in c :: c'[k] == c[k])
    // hit: nothing changes
    ensures p.cache.Some? && MakeKey(name, version) in p.cache.value ==> r.provider == p
    // miss: a fresh tracer holding a fresh, unreleased source built from the key
    ensures p.cache.Some? && MakeKey(name, version) !in p.cache.value ==>
      var key := MakeKey(name, version);
      && r.tracer == |p.heap| && |r.provider.heap| == |p.heap| + 1
      && r.provider.heap[r.tracer] == Tracer(Some(|p.sources|))
      && r.provider.sources == p.sources + [Source(key.name, key.version, r.tracer, 0)]
  {
    match p.cache
    case None =>
      Lookup(p.(heap := p.heap + [Tracer(None)]), |p.heap|)
    case Some(c) =>
      var key := MakeKey(name, version);
      if key in c then
        Lookup(p, c[key])
      else
        var t, s := |p.heap|, |p.sources|;
        var p' := Provider(Some(c[key := t]),
                           p.heap + [Tracer(Some(s))],
                           p.sources + [Source(key.name, key.version, t, 0)]);
        Lookup(p', t)
  }

  /** Every lookup keeps a valid provider valid. */
  lemma GetTracerPreservesValid(p: Provider, name: Option<string>, version: Option<string>)
    requires Valid(p)
    ensures Valid(GetTracer(p, name, version).provider)
  {
    match p.cache
    case None =>
      NoOpTracerPreservesValid(p);
    case Some(c) =>
      var key := MakeKey(name, version);
      if key !in c {
        InsertPreservesValid(p, c, key);
      }
  }

  /** Allocating a no-op tracer keeps a disposed provider valid. */
  lemma NoOpTracerPreservesValid(p: Provider)
    requires Valid(p) && p.cache.None?
    ensures Valid(p.(heap := p.heap + [Tracer(None)]))
  {
  }

  /** Caching a fresh tracer with a fresh source under a missing key keeps a
      live provider valid. */
  lemma InsertPreservesValid(p: Provider, c: map<Key, TracerId>, key: Key)
    requires Valid(p) && p.cache == Some(c) && key !in c
    ensures Valid(Provider(Some(c[key := |p.heap|]),
                           p.heap + [Tracer(Some(|p.sources|))],
                           p.sources + [Source(key.name, key.version, |p.heap|, 0)]))
  {
  }

  /** Identity is stable per key: while live, asking twice for an equal key
      yields the same tracer and the second lookup changes nothing. */
  lemma IdentityStable(p: Provider, name: Option<string>, version: Option<string>)
    requires p.cache.Some?
    ensures var r1 := GetTracer(p, name, version);
            var r2 := GetTracer(r1.provider, name, version);
            r2.tracer == r1.tracer && r2.provider == r1.provider
  {
  }

  /** A null name and the empty name resolve to the same cache entry. */
  lemma NullNameSharesEmptyNameTracer(p: Provider, version: Option<string>)
    ensures GetTracer(p, None, version) == GetTracer(p, Some(""), version)
  {
  }

  /** In a valid live provider, looking up two different keys one after the
      other hands out two different tracers. */
  lemma DistinctKeysDistinctTracers(p: Provider, name1: Option<string>, version1: Option<string>,
                                    name2: Option<string>, version2: Option<string>)
    requires Valid(p) && p.cache.Some?
    requires MakeKey(name1, version1) != MakeKey(name2, version2)
    ensures var r1 := GetTracer(p, name1, version1);
            var r2 := GetTracer(r1.provider, name2, version2);
            r1.tracer != r2.tracer
  {
  }

  // ---------------------------------------------------------------------
  // Dispose
  // ---------------------------------------------------------------------

  /** Whether source `s` is held by one of the tracers in `done`, namely by
      the tracer it was created for. */
  predicate HeldAmong(p: Provider, done: set<TracerId>, s: SourceId)
    requires s < |p.sources|
  {
    var o := p.sources[s].owner;
    o in done && o < |p.heap| && p.heap[o].source == Some(s)
  }

  /** The tracers of `done` with their source field cleared, and every source
      one of them held released once more. */
  function ReleaseAmong(p: Provider, done: set<TracerId>): (q: Provider)
    ensures q.cache == p.cache && |q.heap| == |p.heap|
    ensures |q.sources| == |p.sources|
  {
    p.(heap := seq(|p.heap|, t requires 0 <= t < |p.heap| =>
                     if t in done then Tracer(None) else p.heap[t]),
       sources := seq(|p.sources|, s requires 0 <= s < |p.sources| =>
                     if HeldAmong(p, done, s)
                     then p.sources[s].(releases := p.sources[s].releases + 1)
                     else p.sources[s]))
  }

  /** The provider after `Dispose(disposing)`. Without `disposing` nothing
      happens; on a disposed provider nothing happens; otherwise the cache is
      detached, every cached tracer loses its source and each of those
      sources is released. */
  function AfterDispose(p: Provider, disposing: bool): (q: Provider)
    ensures |q.heap| == |p.heap| && |q.sources| == |p.sources|
  {
    if !disposing then p
    else match p.cache
      case None => p
      case Some(c) => ReleaseAmong(p, c.Values).(cache := None)
  }

  /** One iteration of the dispose loop: read the tracer's source, clear the
      field, release the source if there was one. */
  function ReleaseTracer(p: Provider, t: TracerId): (q: Provider)
    requires t < |p.heap|
    requires p.heap[t].source.Some? ==> p.heap[t].source.value < |p.sources|
    ensures q.cache == p.cache && |q.heap| == |p.heap| && |q.sources| == |p.sources|
    ensures q.heap[t].source.None?
    ensures forall u | 0 <= u < |p.heap| && u != t :: q.heap[u] == p.heap[u]
    ensures p.heap[t].source.Some? ==>
      var s := p.heap[t].source.value;
      q.sources[s] == p.sources[s].(releases := p.sources[s].releases + 1)
    ensures forall s | 0 <= s < |p.sources| && Some(s) != p.heap[t].source :: q.sources[s] == p.sources[s]
  {
    var cleared := p.heap[t := Tracer(None)];
    match p.heap[t].source
    case None => p.(heap := cleared)
    case Some(s) =>
      p.(heap := cleared,
         sources := p.sources[s := p.sources[s].(releases := p.sources[s].releases + 1)])
  }

  /** The tracer ids cached under the keys `ks`. */
  function TracersOf(c: map<Key, TracerId>, ks: set<Key>): set<TracerId>
    requires ks <= c.Keys
  {
    set k | k in ks :: c[k]
  }

  lemma ReleaseAmongNothing(p: Provider)
    ensures ReleaseAmong(p, {}) == p
  {
  }

  /** Releasing one more tracer on top of `done` is the same as releasing
      `done` plus that tracer at once: no source is released twice because
      each source is held only by the tracer it was created for. */
  lemma ReleaseAmongStep(p: Provider, done: set<TracerId>, t: TracerId)
    requires WellFormed(p)
    requires t < |p.heap|
    ensures var q := ReleaseAmong(p, done);
            && (q.heap[t].source.Some? ==> q.heap[t].source.value < |q.sources|)
            && ReleaseTracer(q, t) == ReleaseAmong(p, done + {t})
  {
  }

  /** Dispose(disposing), with the dispose loop written as the C# `foreach`
      in `Dispose(bool)` does it: detach the cache, then for every cached entry clear the tracer's
      source field and release the source. */
  method Dispose(p: Provider, disposing: bool) returns (q: Provider)
    requires WellFormed(p)
    ensures q == AfterDispose(p, disposing)
    ensures !disposing ==> q == p
    ensures disposing ==> q.cache.None?
  {
    if !disposing || p.cache.None? {
      return p;
    }
    var c := p.cache.value;
    ReleaseAmongNothing(p);
    assert TracersOf(c, {}) == {};
    q := p.(cache := None);
    var pending := c.Keys;
    while pending != {}
      invariant pending <= c.Keys
      invariant q == ReleaseAmong(p, TracersOf(c, c.Keys - pending)).(cache := None)
      decreases pending
    {
      var k :| k in pending;
      ReleaseAmongStep(p, TracersOf(c, c.Keys - pending), c[k]);
      q := ReleaseTracer(q, c[k]);
      assert TracersOf(c, c.Keys - (pending - {k})) == TracersOf(c, c.Keys - pending) + {c[k]};
      pending := pending - {k};
    }
    assert c.Keys - pending == c.Keys;
    assert TracersOf(c, c.Keys) == c.Values;
  }

  /** Dispose keeps a valid provider valid; in particular disposing a live
      provider releases every source ever created exactly once. */
  lemma DisposePreservesValid(p: Provider, disposing: bool)
    requires Valid(p)
    ensures Valid(AfterDispose(p, disposing))
  {
  }

  /** Disposing a valid live provider leaves the cache absent, leaves every
      previously cached tracer without a source, and takes every source from
      zero releases to exactly one. */
  lemma DisposeReleasesEachSourceOnce(p: Provider)
    requires Valid(p) && p.cache.Some?
    ensures var q := AfterDispose(p, true);
      && q.cache.None?
      && q.heap == seq(|p.heap|, t requires 0 <= t < |p.heap| => Tracer(None))
      && (forall k | k in p.cache.value :: q.heap[p.cache.value[k]].source.None?)
      && (forall s | 0 <= s < |p.sources| :: p.sources[s].releases == 0 && q.sources[s].releases == 1)
  {
    var q := AfterDispose(p, true);
    forall t | 0 <= t < |p.heap|
      ensures q.heap[t] == Tracer(None)
    {
      if p.heap[t].source.Some? {
        assert p.cache.value[KeyOf(p.sources[p.heap[t].source.value])] == t;
      }
    }
  }

  /** Dispose is idempotent: a second call performs no release and leaves
      the state exactly as the first call left it. */
  lemma DisposeIdempotent(p: Provider)
    ensures AfterDispose(AfterDispose(p, true), true) == AfterDispose(p, true)
  {
  }

  /** Once disposed, a lookup of any key is inert: it does not revive the
      cache, creates and releases no source, alters no existing tracer, and
      hands out a tracer no earlier caller holds. */
  lemma LookupAfterDisposeIsInert(p: Provider, name: Option<string>, version: Option<string>)
    ensures var d := AfterDispose(p, true);
            var r := GetTracer(d, name, version);
            && r.provider.cache.None?
            && r.provider.sources == d.sources
            && r.provider.heap[..|d.heap|] == d.heap
            && r.tracer >= |p.heap|
            && r.provider.heap[r.tracer].source.None?
  {
  }
}
