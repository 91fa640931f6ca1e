# Keyed fetch cache hook, modelled in Dafny

The `useFetch` hook fetches a value for a string key through a caller's
producer function, caches it process-wide, skips a fetch whose key is
already in flight, and gives each consumer `data`, `error` and `isLoading`
plus a `refetch` that bypasses the cache. All of its logic is two
module-level tables, `queryCache` and `activeRequests`, and the two closures
`fetchData` and `refetch` that update them and the consumer's state.

Each closure is async only at its one `await fetchFunction()`. Everything
before the await runs as one atomic step, and so does the try/catch/finally
tail after it. The model therefore splits each operation into a Begin step
and a Settle step. The producer's outcome is an input to Settle: a resolved
value, a thrown `Error`, or any other thrown value. The tails of the two
closures are the same code, so one Settle step serves both.

- `js_values.dfy` (module `JsValues`): JavaScript values and their
  truthiness (the cache check is `if (queryCache[queryKey])`, not key
  membership), what a producer can throw, and the `instanceof Error` filter.
- `fetch_steps.dfy` (module `FetchSteps`): the steps as functions over the
  shared tables and one consumer's state, with the guard, the cache hit,
  the miss, the unguarded refetch, and the settle tail as contracts.
- `use_fetch.dfy` (module `UseFetch`): the same steps as the source runs
  them. The class `QueryStore` holds the two tables, updated in place. The
  class `FetchHook` is one consumer whose setters are field assignments.
  Each method is proved to leave exactly the state the step function gives.
- `fetch_runs.dfy` (module `FetchRuns`): many consumers sharing one store,
  with suspended producer calls settling in any order the caller picks.
  Invariants of every run are proved by induction over the events. Concrete
  runs show the weak in-flight flag.
- `prototype_keys.dfy` (module `PrototypeKeys`): the in-flight check as the
  code reads it, through `Object.prototype` (see Findings).

The tables are modelled as own entries only: `queryCache` as a map, and
`activeRequests` as a set, since it only ever holds `true`. The cache check
at src/hooks/use-fetch/index.ts:40 tests the stored value's truthiness, not
whether the key has an entry, so a cached `0`, `""`, `false`, `null` or
`NaN` is fetched again (`FetchSteps.FalsyResultIsRefetched`).

## Model

| member | source | states |
|---|---|---|
| `JsValues.Truthy` | src/hooks/use-fetch/index.ts:40 | JavaScript's ToBoolean, which `if (...)` applies to the cached value: undefined, null, false, 0, NaN, 0n and "" are falsy, everything else truthy |
| `JsValues.Caught` | src/hooks/use-fetch/index.ts:47-50 | a thrown value reaches the error slot exactly when it is an `Error`, and then it is that error |
| `JsValues.FalsyCachedValues` | src/hooks/use-fetch/index.ts:40 | undefined, null, false, 0, NaN, 0n and "" fail the cache check; every object passes |
| `FetchSteps.CacheHit` | src/hooks/use-fetch/index.ts:40 | the cache check passes exactly when the key has an entry and that entry is truthy; a missing key reads as `undefined` |
| `FetchSteps.MarkActive` | src/hooks/use-fetch/index.ts:34-36 | starting sets loading, clears the error, adds the key to the in-flight set and leaves the cache and data alone |
| `FetchSteps.Finally` | src/hooks/use-fetch/index.ts:51-54 | the `finally` clause stops loading and removes the key from the in-flight set, leaving the cache, data and error as they are |
| `FetchSteps.FetchBegin` | src/hooks/use-fetch/index.ts:28-46 | an in-flight key returns with nothing changed and no producer call; otherwise the producer is called exactly on a miss; a hit shows the cached value, ends not loading with the error cleared, and leaves both tables as they were; a miss leaves the key in flight and the consumer loading |
| `FetchSteps.RefetchBegin` | src/hooks/use-fetch/index.ts:58-65 | with no guard, the key's cache entry is gone, every other entry is kept, the key is in flight, the consumer is loading with the error cleared and data kept |
| `FetchSteps.Settle` | src/hooks/use-fetch/index.ts:64-75 | the tail of both operations (also lines 43-54): the key leaves the in-flight set and loading stops; a resolved value is cached under the key and becomes data; a rejection keeps cache and data, sets the error to a thrown `Error` and otherwise leaves it |
| `FetchSteps.StepsTouchOnlyTheirKey` | src/hooks/use-fetch/index.ts:30-75 | no Begin or Settle step changes the cache entry or in-flight mark of any other key |
| `FetchSteps.FetchMissThenSettle` | src/hooks/use-fetch/index.ts:34-54 | a whole missing `fetchData` calls the producer; on success the value is cached and shown with a null error; on failure the cache and data are kept and the error is the thrown `Error` or null; the in-flight set ends as it began |
| `FetchSteps.RefetchThenSettle` | src/hooks/use-fetch/index.ts:58-76 | a whole `refetch`: on success the new value replaces the entry and is shown; on failure the key is left out of the cache; the key ends not in flight even if it was before |
| `FetchSteps.FetchAfterSuccessHitsCache` | src/hooks/use-fetch/index.ts:40-45 | after a fetch resolves with a truthy value, the next `fetchData` of the key calls no producer, shows that value and changes neither table |
| `FetchSteps.FalsyResultIsRefetched` | src/hooks/use-fetch/index.ts:40-44 | a falsy result is stored but the next `fetchData` of the key calls the producer again |
| `UseFetch.QueryStore.constructor` | src/hooks/use-fetch/index.ts:5-8 | both tables start empty |
| `UseFetch.FetchHook.constructor` | src/hooks/use-fetch/index.ts:23-25 | a consumer starts with null data, null error, not loading |
| `UseFetch.FetchHook.FetchData` | src/hooks/use-fetch/index.ts:28-46 | the in-place updates leave exactly the state `FetchBegin` gives; an in-flight key changes nothing; it awaits exactly on a miss; it never writes the cache |
| `UseFetch.FetchHook.Refetch` | src/hooks/use-fetch/index.ts:58-65 | the in-place updates leave exactly the state `RefetchBegin` gives: entry deleted, key in flight, loading, error cleared |
| `UseFetch.FetchHook.Resume` | src/hooks/use-fetch/index.ts:64-75 | the in-place updates leave exactly the state `Settle` gives |
| `UseFetch.SharedCacheScenario` | src/hooks/use-fetch/index.ts:28-55 | two consumers of "products" on one store: the first awaits the producer, the second is served the cached value without awaiting |
| `UseFetch.RefetchInvalidatesScenario` | src/hooks/use-fetch/index.ts:58-76 | one consumer's pending refetch makes another consumer's mount a no-op that leaves it with null data; after the refetch resolves, a new consumer is served the new value |
| `FetchRuns.Apply` | src/hooks/use-fetch/index.ts:28-81 | one event: a Mount runs `fetchData` up to its await, as the effect at lines 79-81 does, and records a suspended call when the producer is called; a Refetch runs lines 58-65 and always records one; a Resume runs the shared try/catch/finally tail for the suspended call it names and removes that call |
| `FetchRuns.RunKeepsActiveWithinPending` | src/hooks/use-fetch/index.ts:36 | along any interleaving, every key in the in-flight set has a suspended producer call for it (also lines 53, 62, 74) |
| `FetchRuns.RunKeepsLoadingWithinPending` | src/hooks/use-fetch/index.ts:34 | along any interleaving, a consumer shows loading only while one of its producer calls is suspended (also lines 52, 59, 73) |
| `FetchRuns.RunWithoutRefetchKeepsDedup` | src/hooks/use-fetch/index.ts:30-36 | along any interleaving with no refetch, no key ever has two producer calls suspended at once, every suspended call's key is in flight, and every key in flight has a suspended call (also line 53) |
| `FetchRuns.RunOnlyShowsProducedValues` | src/hooks/use-fetch/index.ts:40-45 | along any interleaving, every cache entry and every consumer's data is a value a producer call resolved with, or the initial null (also lines 65-67) |
| `FetchRuns.RunOnlyShowsThrownErrors` | src/hooks/use-fetch/index.ts:47-50 | along any interleaving, every error shown is an `Error` some producer call threw (also lines 68-71) |
| `FetchRuns.RunLeavesOtherKeys` | src/hooks/use-fetch/index.ts:30-75 | a key that no event starts and no call is suspended on keeps its cache entry and in-flight mark through any run |
| `FetchRuns.RunsFromStartShowOnlyProducerResults` | src/hooks/use-fetch/index.ts:5-8 | from empty tables, any run keeps all four invariants above, with producer results and thrown errors taken from the run's own events |
| `FetchRuns.ProducerCallsBetweenRefetchesAndStarts` | src/hooks/use-fetch/index.ts:43 | every refetch calls the producer once and only starts call it: refetches <= producer calls <= starts (also line 65) |
| `FetchRuns.ProductsAreFetchedOnce` | src/hooks/use-fetch/index.ts:79-81 | "products": the first mount calls the producer once and caches the result; a second consumer's mount is served it with no further call |
| `FetchRuns.RefetchReplacesCachedValue` | src/hooks/use-fetch/index.ts:58-76 | refetching a cached key makes a second producer call; its result replaces the cache entry and the data |
| `FetchRuns.SharedFlagAllowsOverlappingCalls` | src/hooks/use-fetch/index.ts:53 | when a fetch and a refetch of one key overlap, the first to settle clears the key's flag and the consumer's loading while the other is suspended; a further mount then makes a third call, two in flight (also lines 30-36, 62, 74) |
| `FetchRuns.SkippedConsumerMissesResult` | src/hooks/use-fetch/index.ts:30-32 | a consumer that mounts a key already in flight is skipped and never receives that fetch's result: null data, never loading |
| `PrototypeKeys.FetchBeginAsWritten` | src/hooks/use-fetch/index.ts:30-32 | the guard read through `Object.prototype` returns at once for every inherited name, and agrees with `FetchBegin` for every other key |
| `PrototypeKeys.InFlightAsWritten` | src/hooks/use-fetch/index.ts:30 | `activeRequests[queryKey]` as written is truthy for a key marked in flight and for every name inherited from `Object.prototype` |
| `PrototypeKeys.ToStringKeyIsNeverFetched` | src/hooks/use-fetch/index.ts:8 | on empty tables, "toString" is skipped by the guard as written but reaches the producer with own-entry lookups |
| `PrototypeKeys.UnseenKeyIsFetched` | src/hooks/use-fetch/index.ts:40-43 | with own-entry lookups, a key with no entry and not in flight is always fetched, whatever its name |

## Findings

| source | as written | input that shows it | evidently intended | confidence | as-written member | corrected member |
|---|---|---|---|---|---|---|
| src/hooks/use-fetch/index.ts:30 | `activeRequests` is a plain object, so `activeRequests[queryKey]` reads inherited `Object.prototype` members | queryKey "toString" (or "constructor", "valueOf", ...) on a fresh process: `fetchData` returns at the guard every time, so `fetchData` never fetches it; only `refetch` does | only keys the hook itself marked are in flight (the comment says "an active request with the same queryKey") | high; not executed | `PrototypeKeys.ToStringKeyIsNeverFetched` | `PrototypeKeys.UnseenKeyIsFetched` |

The rest of the model uses own-entry lookups (`FetchSteps.FetchBegin`).

## Left out

- React wiring: `useState`, `useEffect` and its dependency list. Setters are field assignments, and "mounted or key changed" is the caller running the `fetchData` Begin step. Batching and re-render timing belong to the framework.
- The producer and the network (`fetch`, `res.json()`, the remote URL). The producer is only the outcome given to the Settle step.
- The event loop. Interleavings are the order of events a caller picks, not threads. A Resume naming no suspended call does nothing.
- `src/pages/home.tsx`: rendering only. It is not part of this model.
- Generic typing and the `any`-typed cache: one JavaScript value type serves for every `T`. Numbers are reals plus NaN, because only their truthiness matters here.
- The key is passed to each step rather than held by the consumer, since each closure captures the `queryKey` of its render.
- Inherited names outside the `fetchData` guard. `refetch` has no guard, so inherited names reach its table writes, and the model treats them as ordinary keys there. It therefore misses two things. First, with the key `"__proto__"`, `activeRequests["__proto__"] = true` (line 62) is ignored by JavaScript, while `RefetchBegin` still marks the key. Second, `queryCache["__proto__"] = response` (line 66) with an object response replaces the cache's prototype. Every later cache check (line 40) of a key with no own entry then reads the response's properties. For an array response, `fetchData("length")` or `fetchData("map")` is served from the cache, where `FetchBegin` calls the producer.
- Unmounting: a consumer that goes away still has its suspended call settle and write the shared cache. The model has no unmount event, so nothing differs.
