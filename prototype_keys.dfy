/** The two tables are plain object literals, so reading a key that no
    entry was stored under falls through to the members every object
    inherits from `Object.prototype`. Those are functions (or, for
    `__proto__`, the prototype object itself): all truthy. The in-flight
    check of `fetchData` therefore sees such a key as always in flight, so
    `fetchData` never fetches it; only the unguarded `refetch` does.
    FetchSteps reads the tables as own entries only, which is what the
    check's comment ("an active request with the same queryKey") means;
    this module keeps the guard as it reads in the code, to exhibit the
    difference. */
module PrototypeKeys {
  import opened JsValues
  import opened FetchSteps

  /** Names a plain object inherits from `Object.prototype`. */
  const InheritedNames: set<string> := {
    "constructor", "hasOwnProperty", "isPrototypeOf", "propertyIsEnumerable",
    "toLocaleString", "toString", "valueOf", "__proto__",
    "__defineGetter__", "__defineSetter__", "__lookupGetter__", "__lookupSetter__"
  }

  /** `if (activeRequests[queryKey])` as the code reads it: an own entry
      (always `true`) or an inherited member. */
  predicate InFlightAsWritten(active: set<string>, key: string)
  {
    key in active || key in InheritedNames
  }

  /** `fetchData` up to its await with the guard read through the
      prototype. Past the guard the key is not an inherited name, so the
      cache lookup reads own entries only and FetchBegin applies. */
  function FetchBeginAsWritten(c: Config, key: string): (r: Begun)
    ensures InFlightAsWritten(c.tables.active, key) ==> r == Begun(c, false)
    ensures key !in InheritedNames ==> r == FetchBegin(c, key)
  {
    if InFlightAsWritten(c.tables.active, key) then Begun(c, false) else FetchBegin(c, key)
  }

  /** As written, a key such as "toString" is never fetched: on an empty
      store, with nothing in flight, `fetchData` still returns at the guard
      and the consumer keeps null data. Read as own entries, the same call
      reaches the producer. */
  lemma ToStringKeyIsNeverFetched()
    ensures var empty := Config(Tables(map[], {}), InitialView);
      FetchBeginAsWritten(empty, "toString") == Begun(empty, false) &&
      FetchBegin(empty, "toString").callsProducer
  {
  }

  /** With own-entry lookups, any key with no entry and not in flight is
      fetched, whatever its name. */
  lemma UnseenKeyIsFetched(c: Config, key: string)
    requires key !in c.tables.active && key !in c.tables.cache
    ensures FetchBegin(c, key).callsProducer
    ensures FetchBegin(c, key).after.view.isLoading
  {
  }
}
