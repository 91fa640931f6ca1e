/** Many consumers, one pair of shared tables, and any interleaving of the
    steps of their operations. The event loop's choice of which suspended
    producer call settles next, and with what, is the caller's: a run is a
    sequence of events. */
module FetchRuns {
  import opened JsValues
  import opened FetchSteps

  /** An operation suspended at `await fetchFunction()`: whose it is and
      which key its closure captured. The tails of `fetchData` and
      `refetch` are the same code, so the kind does not matter. */
  datatype Pending = Pending(consumer: nat, key: string)

  datatype World = World(tables: Tables, views: map<nat, View>, pending: seq<Pending>)

  datatype Event =
    | Mount(consumer: nat, key: string)      // the effect runs `fetchData` for a new key
    | Refetch(consumer: nat, key: string)    // the consumer calls `refetch`
    | Resume(index: nat, outcome: Outcome)   // pending call `index` settles with `outcome`

  const Init := World(Tables(map[], {}), map[], [])

  function ViewOf(w: World, c: nat): View
  {
    if c in w.views then w.views[c] else InitialView
  }

  function Without(ps: seq<Pending>, i: nat): (r: seq<Pending>)
    requires i < |ps|
    ensures |r| == |ps| - 1
    ensures forall j :: 0 <= j < i ==> r[j] == ps[j]
    ensures forall j :: i <= j < |r| ==> r[j] == ps[j + 1]
  {
    ps[..i] + ps[i + 1..]
  }

  /** One event. A Resume naming no pending call does nothing. */
  function Apply(w: World, e: Event): World
  {
    match e
    case Mount(c, key) =>
      var b := FetchBegin(Config(w.tables, ViewOf(w, c)), key);
      World(b.after.tables, w.views[c := b.after.view],
            if b.callsProducer then w.pending + [Pending(c, key)] else w.pending)
    case Refetch(c, key) =>
      var r := RefetchBegin(Config(w.tables, ViewOf(w, c)), key);
      World(r.tables, w.views[c := r.view], w.pending + [Pending(c, key)])
    case Resume(i, o) =>
      if i < |w.pending| then
        var p := w.pending[i];
        var s := Settle(Config(w.tables, ViewOf(w, p.consumer)), p.key, o);
        World(s.tables, w.views[p.consumer := s.view], Without(w.pending, i))
      else
        w
  }

  function Run(w: World, events: seq<Event>): World
    decreases |events|
  {
    if events == [] then w else Run(Apply(w, events[0]), events[1..])
  }

  /** How many times the events call the producer. */
  function ProducerCalls(w: World, events: seq<Event>): nat
    decreases |events|
  {
    if events == [] then 0
    else
      var w' := Apply(w, events[0]);
      (if |w'.pending| > |w.pending| then 1 else 0) + ProducerCalls(w', events[1..])
  }

  /** Every value some event resolves a producer call with. */
  function ResolvedValues(events: seq<Event>): set<Value>
    decreases |events|
  {
    if events == [] then {}
    else
      var e := events[0];
      (if e.Resume? && e.outcome.Resolved? then {e.outcome.value} else {}) + ResolvedValues(events[1..])
  }

  /** Every `Error` some event rejects a producer call with. */
  function ThrownErrors(events: seq<Event>): set<ErrorValue>
    decreases |events|
  {
    if events == [] then {}
    else
      var e := events[0];
      (if e.Resume? && e.outcome.Rejected? && e.outcome.thrown.ThrownError? then {e.outcome.thrown.err} else {})
        + ThrownErrors(events[1..])
  }

  /** How many of the events are refetches, and how many start an
      operation at all. */
  function Refetches(events: seq<Event>): nat
    decreases |events|
  {
    if events == [] then 0 else (if events[0].Refetch? then 1 else 0) + Refetches(events[1..])
  }

  function Starts(events: seq<Event>): nat
    decreases |events|
  {
    if events == [] then 0 else (if events[0].Resume? then 0 else 1) + Starts(events[1..])
  }

  // ---------------------------------------------------------------------
  // Invariants of every run

  /** Every key marked in flight has a suspended producer call for it. */
  ghost predicate ActiveWithinPending(w: World)
  {
    forall k :: k in w.tables.active ==> exists i :: 0 <= i < |w.pending| && w.pending[i].key == k
  }

  /** Every consumer shown as loading has a suspended producer call. */
  ghost predicate LoadingWithinPending(w: World)
  {
    forall c :: c in w.views && w.views[c].isLoading ==>
      exists i :: 0 <= i < |w.pending| && w.pending[i].consumer == c
  }

  /** Cached values and shown data all come from `produced` (data may also
      still be the initial null). */
  ghost predicate FromProducer(w: World, produced: set<Value>)
  {
    (forall k :: k in w.tables.cache ==> w.tables.cache[k] in produced) &&
    (forall c :: c in w.views ==> w.views[c].data == Null || w.views[c].data in produced)
  }

  /** Every error shown is one of `thrown`. */
  ghost predicate ErrorsFrom(w: World, thrown: set<ErrorValue>)
  {
    forall c :: c in w.views && w.views[c].error.Some? ==> w.views[c].error.value in thrown
  }

  /** Key `k` is not started by any of the events. */
  ghost predicate NeverStarted(events: seq<Event>, k: string)
  {
    forall i :: 0 <= i < |events| && !events[i].Resume? ==> events[i].key != k
  }

  ghost predicate NonePendingOn(w: World, k: string)
  {
    forall i :: 0 <= i < |w.pending| ==> w.pending[i].key != k
  }

  lemma ApplyKeepsActiveWithinPending(w: World, e: Event)
    requires ActiveWithinPending(w)
    ensures ActiveWithinPending(Apply(w, e))
  {
    var w' := Apply(w, e);
    forall k | k in w'.tables.active
      ensures exists i :: 0 <= i < |w'.pending| && w'.pending[i].key == k
    {
      match e
      case Mount(c, key) =>
        if k == key && key !in w.tables.active {
          assert w'.pending[|w'.pending| - 1].key == k;
        } else {
          var i :| 0 <= i < |w.pending| && w.pending[i].key == k;
          assert w'.pending[i].key == k;
        }
      case Refetch(c, key) =>
        if k == key {
          assert w'.pending[|w'.pending| - 1].key == k;
        } else {
          var i :| 0 <= i < |w.pending| && w.pending[i].key == k;
          assert w'.pending[i].key == k;
        }
      case Resume(j, o) =>
        var i :| 0 <= i < |w.pending| && w.pending[i].key == k;
        if j < |w.pending| {
          assert i != j;
          if i < j {
            assert w'.pending[i].key == k;
          } else {
            assert w'.pending[i - 1].key == k;
          }
        } else {
          assert w'.pending[i].key == k;
        }
    }
  }

  /** Along any run, a key stays marked in flight only while some producer
      call for it is still suspended. (The converse fails: see
      SharedFlagAllowsOverlappingCalls.) */
  lemma {:induction false} RunKeepsActiveWithinPending(w: World, events: seq<Event>)
    requires ActiveWithinPending(w)
    ensures ActiveWithinPending(Run(w, events))
    decreases |events|
  {
    if events != [] {
      ApplyKeepsActiveWithinPending(w, events[0]);
      RunKeepsActiveWithinPending(Apply(w, events[0]), events[1..]);
    }
  }

  lemma ApplyKeepsLoadingWithinPending(w: World, e: Event)
    requires LoadingWithinPending(w)
    ensures LoadingWithinPending(Apply(w, e))
  {
    var w' := Apply(w, e);
    forall c | c in w'.views && w'.views[c].isLoading
      ensures exists i :: 0 <= i < |w'.pending| && w'.pending[i].consumer == c
    {
      match e
      case Mount(d, key) =>
        if c == d && key !in w.tables.active {
          assert w'.pending[|w'.pending| - 1].consumer == c;
        } else {
          var i :| 0 <= i < |w.pending| && w.pending[i].consumer == c;
          assert w'.pending[i].consumer == c;
        }
      case Refetch(d, key) =>
        if c == d {
          assert w'.pending[|w'.pending| - 1].consumer == c;
        } else {
          var i :| 0 <= i < |w.pending| && w.pending[i].consumer == c;
          assert w'.pending[i].consumer == c;
        }
      case Resume(j, o) =>
        var i :| 0 <= i < |w.pending| && w.pending[i].consumer == c;
        if j < |w.pending| {
          assert i != j;
          if i < j {
            assert w'.pending[i].consumer == c;
          } else {
            assert w'.pending[i - 1].consumer == c;
          }
        } else {
          assert w'.pending[i].consumer == c;
        }
    }
  }

  /** Along any run, a consumer shows `isLoading` only while one of its
      producer calls is still suspended. (The converse fails: see
      SharedFlagAllowsOverlappingCalls.) */
  lemma {:induction false} RunKeepsLoadingWithinPending(w: World, events: seq<Event>)
    requires LoadingWithinPending(w)
    ensures LoadingWithinPending(Run(w, events))
    decreases |events|
  {
    if events != [] {
      ApplyKeepsLoadingWithinPending(w, events[0]);
      RunKeepsLoadingWithinPending(Apply(w, events[0]), events[1..]);
    }
  }

  /** The de-duplication the in-flight flag is meant to give: at most one
      suspended producer call per key, every suspended call's key marked in
      flight, and every marked key backed by a suspended call. */
  ghost predicate Dedup(w: World)
  {
    (forall i, j :: 0 <= i < j < |w.pending| ==> w.pending[i].key != w.pending[j].key) &&
    (forall i :: 0 <= i < |w.pending| ==> w.pending[i].key in w.tables.active) &&
    ActiveWithinPending(w)
  }

  lemma ApplyKeepsDedup(w: World, e: Event)
    requires Dedup(w) && !e.Refetch?
    ensures Dedup(Apply(w, e))
  {
    ApplyKeepsActiveWithinPending(w, e);
    var w' := Apply(w, e);
    match e
    case Mount(c, key) =>
      if key !in w.tables.active && !CacheHit(w.tables.cache, key) {
        assert w'.pending == w.pending + [Pending(c, key)];
        forall i | 0 <= i < |w.pending| ensures w'.pending[i].key != key {
          assert w.pending[i].key in w.tables.active;
        }
      }
    case Resume(j, o) =>
      if j < |w.pending| {
        var gone := w.pending[j].key;
        assert w'.pending == Without(w.pending, j);
        forall i | 0 <= i < |w'.pending| ensures w'.pending[i].key in w'.tables.active {
          var at := if i < j then i else i + 1;
          assert w'.pending[i] == w.pending[at] && at != j;
        }
        forall i, i2 | 0 <= i < i2 < |w'.pending| ensures w'.pending[i].key != w'.pending[i2].key {
          var at, at2 := if i < j then i else i + 1, if i2 < j then i2 else i2 + 1;
          assert w'.pending[i] == w.pending[at] && w'.pending[i2] == w.pending[at2] && at < at2;
        }
      }
  }

  /** Without `refetch`, the in-flight flag de-duplicates along any
      interleaving: no key ever has two producer calls suspended at once.
      A refetch is what breaks this (SharedFlagAllowsOverlappingCalls). */
  lemma {:induction false} RunWithoutRefetchKeepsDedup(w: World, events: seq<Event>)
    requires Dedup(w)
    requires forall i :: 0 <= i < |events| ==> !events[i].Refetch?
    ensures Dedup(Run(w, events))
    decreases |events|
  {
    if events != [] {
      ApplyKeepsDedup(w, events[0]);
      assert forall i :: 0 <= i < |events[1..]| ==> events[1..][i] == events[i + 1];
      RunWithoutRefetchKeepsDedup(Apply(w, events[0]), events[1..]);
    }
  }

  /** Nothing enters the cache or a consumer's `data` except a value some
      producer call resolved with. */
  lemma {:induction false} RunOnlyShowsProducedValues(w: World, produced: set<Value>, events: seq<Event>)
    requires FromProducer(w, produced)
    ensures FromProducer(Run(w, events), produced + ResolvedValues(events))
    decreases |events|
  {
    if events != [] {
      var e := events[0];
      var more := if e.Resume? && e.outcome.Resolved? then {e.outcome.value} else {};
      assert FromProducer(Apply(w, e), produced + more);
      RunOnlyShowsProducedValues(Apply(w, e), produced + more, events[1..]);
      assert produced + more + ResolvedValues(events[1..]) == produced + ResolvedValues(events);
    }
  }

  /** The error slot only ever holds an `Error` some producer call threw. */
  lemma {:induction false} RunOnlyShowsThrownErrors(w: World, thrown: set<ErrorValue>, events: seq<Event>)
    requires ErrorsFrom(w, thrown)
    ensures ErrorsFrom(Run(w, events), thrown + ThrownErrors(events))
    decreases |events|
  {
    if events != [] {
      var e := events[0];
      var more := if e.Resume? && e.outcome.Rejected? && e.outcome.thrown.ThrownError?
                  then {e.outcome.thrown.err} else {};
      assert ErrorsFrom(Apply(w, e), thrown + more);
      RunOnlyShowsThrownErrors(Apply(w, e), thrown + more, events[1..]);
      assert thrown + more + ThrownErrors(events[1..]) == thrown + ThrownErrors(events);
    }
  }

  /** A key no event starts, and with no call suspended on it, keeps its
      cache entry and its active mark through the whole run. */
  lemma {:induction false} RunLeavesOtherKeys(w: World, events: seq<Event>, k: string)
    requires NeverStarted(events, k) && NonePendingOn(w, k)
    ensures var w' := Run(w, events);
      (k in w'.tables.cache <==> k in w.tables.cache) &&
      (k in w.tables.cache ==> w'.tables.cache[k] == w.tables.cache[k]) &&
      (k in w'.tables.active <==> k in w.tables.active)
    decreases |events|
  {
    if events != [] {
      var w1 := Apply(w, events[0]);
      assert NeverStarted(events[1..], k) by {
        forall i | 0 <= i < |events[1..]| && !events[1..][i].Resume?
          ensures events[1..][i].key != k
        {
          assert events[1..][i] == events[i + 1];
        }
      }
      match events[0] {
      case Mount(c, key) =>
        assert key != k;
        StepsTouchOnlyTheirKey(Config(w.tables, ViewOf(w, c)), key, Resolved(Null));
      case Refetch(c, key) =>
        assert key != k;
        StepsTouchOnlyTheirKey(Config(w.tables, ViewOf(w, c)), key, Resolved(Null));
      case Resume(j, o) =>
        if j < |w.pending| {
          var p := w.pending[j];
          assert p.key != k;
          StepsTouchOnlyTheirKey(Config(w.tables, ViewOf(w, p.consumer)), p.key, o);
        }
      }
      RunLeavesOtherKeys(w1, events[1..], k);
    }
  }

  /** From a fresh process, whatever the interleaving: keys in flight and
      loading consumers both have a suspended producer call behind them,
      the cache and every consumer's data hold only values some producer
      call resolved with, and every error shown is an `Error` some producer
      call threw. */
  lemma RunsFromStartShowOnlyProducerResults(events: seq<Event>)
    ensures var w := Run(Init, events);
      ActiveWithinPending(w) && LoadingWithinPending(w) &&
      (forall k :: k in w.tables.cache ==> w.tables.cache[k] in ResolvedValues(events)) &&
      (forall c :: c in w.views ==> w.views[c].data == Null || w.views[c].data in ResolvedValues(events)) &&
      (forall c :: c in w.views && w.views[c].error.Some? ==> w.views[c].error.value in ThrownErrors(events))
  {
    RunKeepsActiveWithinPending(Init, events);
    RunKeepsLoadingWithinPending(Init, events);
    RunOnlyShowsProducedValues(Init, {}, events);
    RunOnlyShowsThrownErrors(Init, {}, events);
  }

  /** Every refetch calls the producer, and only a start (a mount or a
      refetch) ever does. */
  lemma {:induction false} ProducerCallsBetweenRefetchesAndStarts(w: World, events: seq<Event>)
    ensures Refetches(events) <= ProducerCalls(w, events) <= Starts(events)
    decreases |events|
  {
    if events != [] {
      ProducerCallsBetweenRefetchesAndStarts(Apply(w, events[0]), events[1..]);
    }
  }

  // ---------------------------------------------------------------------
  // Runs worth seeing

  /** Unfolds a run by its first event. */
  lemma RunFirst(w: World, e: Event, rest: seq<Event>)
    ensures Run(w, [e] + rest) == Run(Apply(w, e), rest)
    ensures ProducerCalls(w, [e] + rest) ==
      (if |Apply(w, e).pending| > |w.pending| then 1 else 0) + ProducerCalls(Apply(w, e), rest)
  {
    assert ([e] + rest)[1..] == rest;
  }

  /** The "products" example: the first consumer's fetch calls the producer
      and caches its array; a second consumer mounting the same key gets it
      at once, with no second producer call. */
  lemma ProductsAreFetchedOnce(products: Value)
    requires Truthy(products)
    ensures var events := [Mount(0, "products"), Resume(0, Resolved(products)), Mount(1, "products")];
      var w := Run(Init, events);
      ProducerCalls(Init, events) == 1 && w.pending == [] &&
      w.tables == Tables(map["products" := products], {}) &&
      ViewOf(w, 0) == View(products, None, false) && ViewOf(w, 1) == View(products, None, false)
  {
    var e1, e2, e3 := Mount(0, "products"), Resume(0, Resolved(products)), Mount(1, "products");
    var w1 := Apply(Init, e1);
    assert w1.pending == [Pending(0, "products")];
    var w2 := Apply(w1, e2);
    assert w2.tables == Tables(map["products" := products], {});
    RunFirst(w2, e3, []);
    RunFirst(w1, e2, [e3]);
    RunFirst(Init, e1, [e2, e3]);
  }

  /** Refetching a cached key calls the producer again and replaces both
      the cache entry and the data with its new result. */
  lemma RefetchReplacesCachedValue(stale: Value, renewed: Value)
    ensures var events := [Mount(0, "products"), Resume(0, Resolved(stale)),
                           Refetch(0, "products"), Resume(0, Resolved(renewed))];
      var w := Run(Init, events);
      ProducerCalls(Init, events) == 2 && w.pending == [] &&
      w.tables == Tables(map["products" := renewed], {}) &&
      ViewOf(w, 0) == View(renewed, None, false)
  {
    var e1, e2, e3, e4 := Mount(0, "products"), Resume(0, Resolved(stale)),
                          Refetch(0, "products"), Resume(0, Resolved(renewed));
    var w1 := Apply(Init, e1);
    var w2 := Apply(w1, e2);
    assert w2.tables == Tables(map["products" := stale], {});
    var w3 := Apply(w2, e3);
    assert w3.pending == [Pending(0, "products")];
    RunFirst(w3, e4, []);
    RunFirst(w2, e3, [e4]);
    RunFirst(w1, e2, [e3, e4]);
    RunFirst(Init, e1, [e2, e3, e4]);
  }

  /** The in-flight mark is a shared flag, not a count: when a fetch and a
      refetch of one key overlap, the first to settle clears the mark and
      the consumer's loading state although the other is still suspended,
      and a further mount of the key then calls the producer a third time,
      with two calls for it in flight. */
  lemma SharedFlagAllowsOverlappingCalls(k: string, dropped: Value)
    ensures var settled := Run(Init, [Mount(0, k), Refetch(0, k), Resume(0, Rejected(ThrownOther(dropped)))]);
      |settled.pending| == 1 && settled.pending[0].key == k &&
      k !in settled.tables.active && !ViewOf(settled, 0).isLoading
    ensures var events := [Mount(0, k), Refetch(0, k), Resume(0, Rejected(ThrownOther(dropped))), Mount(1, k)];
      var w := Run(Init, events);
      ProducerCalls(Init, events) == 3 && |w.pending| == 2 &&
      w.pending[0].key == k && w.pending[1].key == k
  {
    var e1, e2, e3, e4 := Mount(0, k), Refetch(0, k), Resume(0, Rejected(ThrownOther(dropped))), Mount(1, k);
    var w1 := Apply(Init, e1);
    assert w1.pending == [Pending(0, k)];
    var w2 := Apply(w1, e2);
    assert w2.pending == [Pending(0, k), Pending(0, k)];
    var w3 := Apply(w2, e3);
    assert w3.pending == [Pending(0, k)];
    assert k !in w3.tables.cache;
    RunFirst(w3, e4, []);
    RunFirst(w2, e3, [e4]);
    RunFirst(w1, e2, [e3, e4]);
    RunFirst(Init, e1, [e2, e3, e4]);
    RunFirst(w2, e3, []);
    RunFirst(w1, e2, [e3]);
    RunFirst(Init, e1, [e2, e3]);
  }

  /** A consumer that mounts a key while another consumer's fetch of it is
      in flight is skipped, and it does not receive that fetch's result:
      it keeps null data and never shows loading. */
  lemma SkippedConsumerMissesResult(k: string, v: Value)
    ensures var w := Run(Init, [Mount(0, k), Mount(1, k), Resume(0, Resolved(v))]);
      w.pending == [] && ViewOf(w, 0) == View(v, None, false) &&
      ViewOf(w, 1) == InitialView && w.tables.cache == map[k := v]
  {
    var e1, e2, e3 := Mount(0, k), Mount(1, k), Resume(0, Resolved(v));
    var w1 := Apply(Init, e1);
    assert w1.pending == [Pending(0, k)];
    var w2 := Apply(w1, e2);
    assert w2.pending == [Pending(0, k)];
    RunFirst(w2, e3, []);
    RunFirst(w1, e2, [e3]);
    RunFirst(Init, e1, [e2, e3]);
  }
}
