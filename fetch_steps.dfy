/** The two operations of the fetch hook, `fetchData` and `refetch`, as pure
    functions over the shared tables and one consumer's state.

    Each operation is async only at its single `await fetchFunction()`, so
    each is split into the part before the await (a Begin step) and the
    try/catch/finally tail after it (the Settle step, which is the same code
    in both operations). The producer's result is the Settle step's input. */
module FetchSteps {
  import opened JsValues

  /** The two module-level tables every consumer shares: `queryCache`
      (key to last fetched value) and `activeRequests` (keys in flight; the
      table only ever holds `true`, so it is a set). */
  datatype Tables = Tables(cache: map<string, Value>, active: set<string>)

  /** One consumer's `data`, `error` and `isLoading` state. */
  datatype View = View(data: Value, error: Option<ErrorValue>, isLoading: bool)

  /** What `useState` starts a consumer with. */
  const InitialView := View(Null, None, false)

  datatype Config = Config(tables: Tables, view: View)

  /** The state when a Begin step hands control to the event loop, and
      whether it did so by calling the producer. */
  datatype Begun = Begun(after: Config, callsProducer: bool)

  /** `if (queryCache[queryKey])`: a missing key reads as `undefined`, so
      both a missing key and a stored falsy value are misses. */
  predicate CacheHit(cache: map<string, Value>, key: string)
  {
    key in cache && Truthy(cache[key])
  }

  /** `setIsLoading(true); setError(null);` and marking the key active. */
  function MarkActive(c: Config, key: string): (r: Config)
    ensures r.tables.cache == c.tables.cache
    ensures r.tables.active == c.tables.active + {key}
    ensures r.view == View(c.view.data, None, true)
  {
    Config(Tables(c.tables.cache, c.tables.active + {key}),
           c.view.(error := None, isLoading := true))
  }

  /** The `finally` clause: `setIsLoading(false)` and deleting the key's
      active mark, whoever set it. */
  function Finally(c: Config, key: string): (r: Config)
    ensures r.tables.cache == c.tables.cache
    ensures r.tables.active == c.tables.active - {key}
    ensures r.view == c.view.(isLoading := false)
  {
    Config(c.tables.(active := c.tables.active - {key}),
           c.view.(isLoading := false))
  }

  /** `fetchData` up to its await. A key already in flight returns at once;
      otherwise the key is marked, and a cache hit completes the whole
      operation without awaiting anything. */
  function FetchBegin(c: Config, key: string): (r: Begun)
    // an active key is skipped: nothing changes, nothing is called
    ensures key in c.tables.active ==> r == Begun(c, false)
    // otherwise the producer is called exactly on a miss
    ensures key !in c.tables.active ==> r.callsProducer == !CacheHit(c.tables.cache, key)
    // a hit serves the cached value and leaves both tables as they were
    ensures key !in c.tables.active && CacheHit(c.tables.cache, key) ==>
      r.after.tables == c.tables && r.after.view == View(c.tables.cache[key], None, false)
    // a miss leaves the consumer loading, error cleared, key in flight
    ensures key !in c.tables.active && !CacheHit(c.tables.cache, key) ==>
      r.after.tables == Tables(c.tables.cache, c.tables.active + {key}) &&
      r.after.view == View(c.view.data, None, true)
  {
    if key in c.tables.active then
      Begun(c, false)
    else
      var marked := MarkActive(c, key);
      if CacheHit(marked.tables.cache, key) then
        var served := marked.(view := marked.view.(data := marked.tables.cache[key]));
        Begun(Finally(served, key), false)
      else
        Begun(marked, true)
  }

  /** `refetch` up to its await: no guard, the cache entry is deleted, the
      key is marked in flight, and the producer is always called. */
  function RefetchBegin(c: Config, key: string): (r: Config)
    ensures key !in r.tables.cache
    ensures forall k :: k != key ==> (k in r.tables.cache <==> k in c.tables.cache)
    ensures forall k :: k != key && k in c.tables.cache ==> r.tables.cache[k] == c.tables.cache[k]
    ensures r.tables.active == c.tables.active + {key}
    ensures r.view == View(c.view.data, None, true)
  {
    var marked := MarkActive(c, key);
    marked.(tables := marked.tables.(cache := marked.tables.cache - {key}))
  }

  /** The try/catch/finally tail after `await fetchFunction()`, shared by
      `fetchData` and `refetch`: a resolved value is cached and shown, an
      `Error` is shown, any other throw is dropped; then loading stops and
      the key's active mark is removed. */
  function Settle(c: Config, key: string, o: Outcome): (r: Config)
    ensures r.tables.active == c.tables.active - {key}
    ensures !r.view.isLoading
    ensures o.Resolved? ==>
      r.tables.cache == c.tables.cache[key := o.value] &&
      r.view.data == o.value && r.view.error == c.view.error
    ensures o.Rejected? ==>
      r.tables.cache == c.tables.cache && r.view.data == c.view.data &&
      r.view.error == (if o.thrown.ThrownError? then Some(o.thrown.err) else c.view.error)
  {
    var tried :=
      match o
      case Resolved(v) => Config(c.tables.(cache := c.tables.cache[key := v]), c.view.(data := v))
      case Rejected(t) =>
        match Caught(t)
        case Some(e) => c.(view := c.view.(error := Some(e)))
        case None => c;
    Finally(tried, key)
  }

  /** Entries under every key but `key`: the cache value and the active
      mark. */
  predicate SameElsewhere(t: Tables, t': Tables, key: string)
  {
    t.cache - {key} == t'.cache - {key} && t.active - {key} == t'.active - {key}
  }

  /** No step touches the table entries of a key other than its own. */
  lemma StepsTouchOnlyTheirKey(c: Config, key: string, o: Outcome)
    ensures SameElsewhere(c.tables, FetchBegin(c, key).after.tables, key)
    ensures SameElsewhere(c.tables, RefetchBegin(c, key).tables, key)
    ensures SameElsewhere(c.tables, Settle(c, key, o).tables, key)
  {
  }

  /** A whole `fetchData` that misses: on success the value is cached under
      the key and shown; on failure the cache and `data` keep their old
      values and the error slot holds the thrown `Error`, or stays null for
      any other throw. Either way loading ends and the key is no longer in
      flight. */
  lemma FetchMissThenSettle(c: Config, key: string, o: Outcome)
    requires key !in c.tables.active && !CacheHit(c.tables.cache, key)
    ensures var b := FetchBegin(c, key);
      var r := Settle(b.after, key, o);
      b.callsProducer &&
      r.tables.active == c.tables.active && !r.view.isLoading &&
      (o.Resolved? ==> r.tables.cache == c.tables.cache[key := o.value] &&
                       r.view == View(o.value, None, false)) &&
      (o.Rejected? ==> r.tables.cache == c.tables.cache &&
                       r.view == View(c.view.data, Caught(o.thrown), false))
  {
  }

  /** A whole `refetch`: the producer is always called; on success the new
      value replaces the cache entry, on failure the key is left out of the
      cache. The key ends not in flight even if another operation on it is
      still pending, because the mark is shared, not owned per call. */
  lemma RefetchThenSettle(c: Config, key: string, o: Outcome)
    ensures var r := Settle(RefetchBegin(c, key), key, o);
      r.tables.active == c.tables.active - {key} && !r.view.isLoading &&
      (o.Resolved? ==> r.tables.cache == c.tables.cache[key := o.value] &&
                       r.view == View(o.value, None, false)) &&
      (o.Rejected? ==> r.tables.cache == c.tables.cache - {key} &&
                       r.view == View(c.view.data, Caught(o.thrown), false))
  {
  }

  /** A second `fetchData` on a key whose value was cached truthy is served
      from the cache: no producer call, the cached value shown, nothing
      loading. */
  lemma FetchAfterSuccessHitsCache(c: Config, key: string, v: Value)
    requires key !in c.tables.active && Truthy(v)
    ensures var first := Settle(FetchBegin(c, key).after, key, Resolved(v));
      var second := FetchBegin(first, key);
      !second.callsProducer && second.after.view == View(v, None, false) &&
      second.after.tables == first.tables
  {
  }

  /** A falsy value is cached but never served: the next `fetchData` on the
      key calls the producer again. */
  lemma FalsyResultIsRefetched(c: Config, key: string, v: Value)
    requires key !in c.tables.active && !Truthy(v)
    ensures var first := Settle(FetchBegin(c, key).after, key, Resolved(v));
      key in first.tables.cache && first.tables.cache[key] == v &&
      FetchBegin(first, key).callsProducer
  {
  }
}
