/** The fetch hook as the source runs it: two tables shared by every
    consumer, updated in place, and one object per consumer holding its
    `data`, `error` and `isLoading`. Each method runs one atomic stretch of
    `fetchData` or `refetch` (the code before the await, or the tail after
    it) and is proved to leave exactly the state the step functions of
    FetchSteps describe. */
module UseFetch {
  import opened JsValues
  import opened FetchSteps

  /** The module-level `queryCache` and `activeRequests` records. */
  class QueryStore {
    var cache: map<string, Value>
    var active: set<string>

    constructor ()
      ensures cache == map[] && active == {}
    {
      cache := map[];
      active := {};
    }

    function State(): Tables
      reads this
    {
      Tables(cache, active)
    }
  }

  /** One consumer of the hook. The React setters are direct assignments
      to its fields; the key is the `queryKey` its closures captured. */
  class FetchHook {
    const store: QueryStore
    var data: Value
    var error: Option<ErrorValue>
    var isLoading: bool

    constructor (store: QueryStore)
      ensures this.store == store
      ensures data == Null && error == None && !isLoading
    {
      this.store := store;
      data := Null;
      error := None;
      isLoading := false;
    }

    function Consumer(): View
      reads this
    {
      View(data, error, isLoading)
    }

    function Current(): Config
      reads this, store
    {
      Config(store.State(), Consumer())
    }

    /** `fetchData` up to its await; `awaiting` is true when it called the
        producer and is now suspended on it. */
    method FetchData(key: string) returns (awaiting: bool)
      modifies this, store
      ensures Current() == FetchBegin(old(Current()), key).after
      ensures awaiting == FetchBegin(old(Current()), key).callsProducer
      ensures key in old(store.active) ==> !awaiting && unchanged(this, store)
      ensures key !in old(store.active) ==> awaiting == !CacheHit(old(store.cache), key)
      ensures store.cache == old(store.cache)
    {
      if key in store.active {
        return false;
      }
      isLoading := true;
      error := None;
      store.active := store.active + {key};
      if CacheHit(store.cache, key) {
        data := store.cache[key];
        isLoading := false;
        store.active := store.active - {key};
        awaiting := false;
      } else {
        awaiting := true;
      }
    }

    /** `refetch` up to its await, which it always reaches. */
    method Refetch(key: string)
      modifies this, store
      ensures Current() == RefetchBegin(old(Current()), key)
      ensures store.cache == old(store.cache) - {key}
      ensures store.active == old(store.active) + {key}
      ensures data == old(data) && error == None && isLoading
    {
      isLoading := true;
      error := None;
      store.cache := store.cache - {key};
      store.active := store.active + {key};
    }

    /** The tail of either operation once the awaited producer settles with
        `outcome`. */
    method Resume(key: string, outcome: Outcome)
      modifies this, store
      ensures Current() == Settle(old(Current()), key, outcome)
      ensures store.active == old(store.active) - {key} && !isLoading
      ensures outcome.Resolved? ==>
        store.cache == old(store.cache)[key := outcome.value] && data == outcome.value &&
        error == old(error)
      ensures outcome.Rejected? ==>
        store.cache == old(store.cache) && data == old(data) &&
        error == (if outcome.thrown.ThrownError? then Some(outcome.thrown.err) else old(error))
    {
      match outcome {
        case Resolved(response) =>
          store.cache := store.cache[key := response];
          data := response;
        case Rejected(thrown) =>
          if thrown.ThrownError? {
            error := Some(thrown.err);
          }
      }
      isLoading := false;
      store.active := store.active - {key};
    }
  }

  /** Two consumers of "products" sharing one store: the first fetches, the
      second is then served from the cache without a producer call. */
  method SharedCacheScenario(products: Value) returns (firstAwaited: bool, secondAwaited: bool, shown: Value)
    requires Truthy(products)
    ensures firstAwaited && !secondAwaited && shown == products
  {
    var store := new QueryStore();
    var first := new FetchHook(store);
    var second := new FetchHook(store);
    firstAwaited := first.FetchData("products");
    first.Resume("products", Resolved(products));
    secondAwaited := second.FetchData("products");
    shown := second.data;
  }

  /** A refetch by one consumer invalidates the entry for every consumer:
      while it is pending, another consumer mounting the same key is
      skipped (the key is in flight), and once the refetch settles with a
      new value, the next fetch of any consumer is served that value. */
  method RefetchInvalidatesScenario(stale: Value, renewed: Value)
    returns (skipped: bool, afterRefetch: Value, secondData: Value)
    requires Truthy(renewed)
    ensures skipped && afterRefetch == renewed && secondData == Null
  {
    var store := new QueryStore();
    var first := new FetchHook(store);
    var second := new FetchHook(store);
    var awaited := first.FetchData("products");
    first.Resume("products", Resolved(stale));
    first.Refetch("products");
    var secondAwaited := second.FetchData("products");
    skipped := !secondAwaited && !second.isLoading;
    secondData := second.data;
    first.Resume("products", Resolved(renewed));
    assert store.cache["products"] == renewed;
    var third := new FetchHook(store);
    var thirdAwaited := third.FetchData("products");
    afterRefetch := third.data;
  }
}
