# TracerProvider: a keyed tracer cache with a one-way dispose

This project models the core of OpenTelemetry .NET's `TracerProvider`
(`src/OpenTelemetry.Api/Trace/TracerProvider.cs`) in Dafny and proves its
lifetime guarantees.

A provider hands out one `Tracer` per instrumentation scope. The scope is a
`TracerKey` made of a name and an optional version. A null name is
normalised to `""`, and a null version is a key value of its own. While the
provider is live, the first `GetTracer` for a key creates a tracer. That
tracer wraps a new `ActivitySource` built from the key's name and version,
and it is cached. Every later `GetTracer` for an equal key returns that same
tracer. `Dispose(true)` detaches the cache. It then clears the source field
of every cached tracer and disposes the source. From then on, `GetTracer`
returns a fresh no-op tracer that has no source, and the cache is never
revived. A second `Dispose` does nothing, and `Dispose(false)` does nothing.

Each public call is modelled as one atomic transition of an immutable value:

- `Provider` holds `cache: Option<map<Key, TracerId>>`. `Some` is the live
  dictionary field and `None` is the null the field holds after dispose.
  It also holds `heap`, every tracer created so far, and `sources`, every
  activity source created so far. Tracers are reference objects: a caller
  keeps a tracer and sees its source cleared by a later dispose. For that
  reason a tracer is an index into `heap`, not a copied value.
- A `Source` records the key it was built from and the tracer it was
  created for. It also counts how many times it was disposed (`releases`).
  This counter is what makes the claim "released exactly once" something
  a proof can state.
- `GetTracer` is a pure function returning the new provider and the tracer
  handed out. `Dispose` is a method whose loop walks the cached entries the
  way the C# `foreach` in `Dispose(bool)` does. It is proved equal to the declarative
  transition `AfterDispose`, and the lemmas are stated about that function.
- `Valid` is the invariant of every reachable provider. While live, each
  cached tracer holds an unreleased source built from its own key, and each
  source ever created belongs to the tracer cached under its key. Once
  disposed, no tracer holds a source and every source has been released
  exactly once.
- `ProviderRuns` strings calls together to state guarantees over a
  provider's whole life. `Scenarios` walks through concrete call sequences.

Inside its `lock`, `GetTracer` checks again whether the provider has been
disposed before it inserts. In a sequential model that second check and the
first one read the same value, so one `match` on `cache` models both. On a
miss, the code does not look the key up again inside the lock, and when
`TryAdd` fails it returns its own tracer, uncached and with its activity
source never released (lines 78-84). That outcome needs two racing first
lookups of one key, so this sequential model cannot produce it (see below).

## Model

| member | source | states |
|---|---|---|
| TracerKeys.MakeKey | src/OpenTelemetry.Api/Trace/TracerProvider.cs:122-126 | a key's name is the given name, or `""` when it is null; the version is kept as given, null included |
| TracerKeys.NullNameIsEmptyName | src/OpenTelemetry.Api/Trace/TracerProvider.cs:124 | a null name and the empty name build the same key |
| TracerKeys.KeyEquality | src/OpenTelemetry.Api/Trace/TracerProvider.cs:117-127 | two constructed keys are equal if and only if their normalised names and their versions are equal |
| TracerKeys.VersionsDiscriminate | src/OpenTelemetry.Api/Trace/TracerProvider.cs:117-127 | a null version differs from any string version, `""` included, and two different version strings give different keys |
| TracerProviders.NewProvider | src/OpenTelemetry.Api/Trace/TracerProvider.cs:31-38 | a new provider is live with an empty cache and satisfies the provider invariant |
| TracerProviders.GetTracer | src/OpenTelemetry.Api/Trace/TracerProvider.cs:51-89 | disposed: a fresh tracer with no source, no source created, cache stays absent; live: the returned tracer is the one cached under the key afterwards, the cache gains at most that key and keeps every other entry; hit: state unchanged; miss: a fresh tracer holding a fresh unreleased source built from the key's name and version; existing tracers and sources are never altered |
| TracerProviders.GetTracerPreservesValid | src/OpenTelemetry.Api/Trace/TracerProvider.cs:58-88 | every lookup, on each of its three paths, keeps the provider invariant |
| TracerProviders.CacheInjective | src/OpenTelemetry.Api/Trace/TracerProvider.cs:78-84 | in a valid live provider, distinct keys are cached to distinct tracers |
| TracerProviders.IdentityStable | src/OpenTelemetry.Api/Trace/TracerProvider.cs:65-88 | while live, a second lookup of an equal key returns the same tracer as the first and changes nothing |
| TracerProviders.NullNameSharesEmptyNameTracer | src/OpenTelemetry.Api/Trace/TracerProvider.cs:122-126 | `GetTracer(null, v)` and `GetTracer("", v)` resolve to the same entry and have the same outcome |
| TracerProviders.DistinctKeysDistinctTracers | src/OpenTelemetry.Api/Trace/TracerProvider.cs:65-88 | in a valid live provider, successive lookups of two different keys hand out two different tracers |
| TracerProviders.ReleaseTracer | src/OpenTelemetry.Api/Trace/TracerProvider.cs:103-106 | one dispose-loop iteration clears the tracer's source field, releases the source it held exactly once more, and leaves the cache, every other tracer and every other source unchanged |
| TracerProviders.AfterDispose | src/OpenTelemetry.Api/Trace/TracerProvider.cs:92-115 | the dispose transition creates and destroys no tracer or source |
| TracerProviders.Dispose | src/OpenTelemetry.Api/Trace/TracerProvider.cs:92-115 | walking the cached entries one at a time yields the declarative dispose result, whatever order the entries are visited in; `Dispose(false)` changes nothing; `Dispose(true)` leaves the cache absent |
| TracerProviders.DisposePreservesValid | src/OpenTelemetry.Api/Trace/TracerProvider.cs:96-110 | `Dispose`, with either argument and from either state, keeps the provider invariant |
| TracerProviders.DisposeReleasesEachSourceOnce | src/OpenTelemetry.Api/Trace/TracerProvider.cs:96-110 | disposing a valid live provider leaves the cache absent and every tracer without a source, and takes every source from zero releases to exactly one |
| TracerProviders.DisposeIdempotent | src/OpenTelemetry.Api/Trace/TracerProvider.cs:96-97 | a second `Dispose(true)` leaves the state exactly as the first left it, so it performs no release |
| TracerProviders.LookupAfterDisposeIsInert | src/OpenTelemetry.Api/Trace/TracerProvider.cs:58-63 | after dispose, a lookup of any key leaves the cache absent, creates and releases no source, alters no existing tracer, and returns a new tracer without a source |
| ProviderRuns.RunPreservesValid | src/OpenTelemetry.Api/Trace/TracerProvider.cs:51-115 | any sequence of `GetTracer` and `Dispose` calls keeps the provider invariant |
| ProviderRuns.DisposedIsFinal | src/OpenTelemetry.Api/Trace/TracerProvider.cs:58-76 | once disposed, no sequence of calls revives the cache or creates or releases a source |
| ProviderRuns.CachedEntriesPersist | src/OpenTelemetry.Api/Trace/TracerProvider.cs:65-88 | over a provider's live lifetime a key never maps to two tracers: every cached entry is still cached, to the same tracer, after any calls that leave the provider live |
| ProviderRuns.ReleasedExactlyOnce | src/OpenTelemetry.Api/Trace/TracerProvider.cs:96-110 | along any calls on a new provider, no source is released while it is live; once it is disposed, every source ever created was released exactly once and no tracer still holds one |
| Scenarios.KeyDiscrimination | src/OpenTelemetry.Api/Trace/TracerProvider.cs:117-127 | ("a", null), ("a", "1.0") and ("a", "2.0") give three cache entries with three distinct tracers; (null, null) and ("", null) give the same tracer |
| Scenarios.LifecycleScenario | src/OpenTelemetry.Api/Trace/TracerProvider.cs:51-115 | two lookups of ("svc", "1.0") share a tracer H1; dispose clears its source and releases that source once; a later lookup returns an inert tracer different from H1; a second dispose changes nothing |

## Left out

- Thread safety: the `lock` blocks, `Interlocked.CompareExchange` and the lock-free reads of `ConcurrentDictionary` (lines 67-69, 96, 99) are not modelled. Each public call is one atomic step.
- Concurrent double miss: when two first lookups of one key race, the loser's `TryAdd` fails and the loser returns its own uncached tracer, whose source is never released (lines 78-84). This can only happen under a race, so the sequential model cannot produce it.
- `tracers.Clear()` (line 109) clears the dictionary after it has been detached from the provider. Sequentially nothing can reach that dictionary any more, so the model ends the transition with the cache field absent.
- `ActivitySource` and `Tracer` internals: a source is reduced to its name, version, the tracer it was created for, and a count of Dispose calls. A tracer is reduced to its optional source.
- `BaseProvider.Dispose` (line 114) is not part of this model. `Dispose(false)` is modelled as changing nothing in this class.
- The static `Default` provider (line 43) is one more provider created once. It is not modelled separately.
- The debug-only `Debug.Assert` (lines 79-81) and the `AllowNull` attribute (line 53) have no sequential meaning.
