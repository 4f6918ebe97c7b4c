/**
 * The profiler's event recorder (ddtrace/profiling/recorder.py).
 *
 * A recorder keeps one bounded deque of events per event class in a
 * dictionary that creates a missing deque on first use, with the bound taken
 * from `max_events` or `default_max_events`. `push_events` extends the deque
 * of the first event's class; `reset` hands the whole dictionary to the caller
 * and installs a fresh empty one; after a fork, pushing becomes a no-op for
 * good. The recorder's lock makes each method one atomic step, which is how
 * every method is stated here.
 */
module Recording {
  import opened Wrappers
  import opened Deques
  import opened Sequences

  /** The class of an event (`event.__class__`), which keys the store. */
  type EventClass = string

  /** A profiling event: its class and a payload the recorder never looks at. */
  datatype Event = Event(eventClass: EventClass, payload: seq<int>)

  /** `event.__class__`: the key under which an event is recorded. */
  function KeyOf(e: Event): (k: EventClass)
    ensures k == e.eventClass
  {
    e.eventClass
  }

  /** `Recorder._DEFAULT_MAX_EVENTS`. */
  const DEFAULT_MAX_EVENTS: int := 16384

  /** The contents of a store: event class to its deque. */
  type Store = map<EventClass, Deque<Event>>

  /**
   * `_defaultdictkey`: a dictionary whose lookup of a missing key calls
   * `default_factory(key)`, stores the result under the key and returns it.
   */
  class DefaultDictKey<K(==), V> {
    var entries: map<K, V>
    const defaultFactory: Option<K -> Result<V>>

    constructor (defaultFactory: Option<K -> Result<V>> := None)
      ensures this.defaultFactory == defaultFactory && entries == map[]
    {
      this.defaultFactory := defaultFactory;
      entries := map[];
    }

    /**
     * `__missing__`: without a factory, raise `KeyError`; otherwise store and
     * return what the factory builds for the key. A factory that raises
     * leaves the dictionary as it was.
     */
    method Missing(key: K) returns (r: Result<V>)
      modifies this
      ensures defaultFactory.None? ==> r == Err(KeyError)
      ensures defaultFactory.Some? ==> r == defaultFactory.value(key)
      ensures r.Ok? ==> entries == old(entries)[key := r.value]
      ensures r.Err? ==> entries == old(entries)
    {
      match defaultFactory
      case None =>
        r := Err(KeyError);
      case Some(factory) =>
        r := factory(key);
        if r.Ok? {
          entries := entries[key := r.value];
        }
    }

    /** `self[key]`: the stored value, or `__missing__` for an absent key. */
    method GetItem(key: K) returns (r: Result<V>)
      modifies this
      ensures key in old(entries) ==> r == Ok(old(entries)[key]) && entries == old(entries)
      ensures key !in old(entries) && defaultFactory.None? ==> r == Err(KeyError)
      ensures key !in old(entries) && defaultFactory.Some? ==> r == defaultFactory.value(key)
      ensures key !in old(entries) && r.Ok? ==> entries == old(entries)[key := r.value]
      ensures r.Err? ==> entries == old(entries)
    {
      if key in entries {
        r := Ok(entries[key]);
      } else {
        r := Missing(key);
      }
    }

    /** `self[key] = value`. */
    method SetItem(key: K, value: V)
      modifies this
      ensures entries == old(entries)[key := value]
    {
      entries := entries[key := value];
    }
  }

  /**
   * `self.max_events.get(event_type, self.default_max_events)`: the bound for
   * one event class, its own entry when it has one and the default otherwise.
   */
  function MaxLenFor(maxEvents: map<EventClass, Option<int>>, defaultMaxEvents: Option<int>, k: EventClass): (bound: Option<int>)
    ensures k in maxEvents ==> bound == maxEvents[k]
    ensures k !in maxEvents ==> bound == defaultMaxEvents
  {
    if k in maxEvents then maxEvents[k] else defaultMaxEvents
  }

  /** `_get_deque_for_event_type`, as the function value the store is given as its factory. */
  function DequeFactory(maxEvents: map<EventClass, Option<int>>, defaultMaxEvents: Option<int>): (factory: EventClass -> Result<Deque<Event>>)
    ensures forall k :: factory(k).Ok? ==> factory(k).value.items == [] && factory(k).value.Fits()
    ensures forall k :: factory(k).Ok? <==> NewDeque<Event>(MaxLenFor(maxEvents, defaultMaxEvents, k)).Ok?
  {
    k => NewDeque(MaxLenFor(maxEvents, defaultMaxEvents, k))
  }

  /**
   * The deque made for a class is empty and bounded by the class's entry in
   * `max_events`, or by `default_max_events` when it has none; a negative
   * bound raises ValueError and one outside `Py_ssize_t` OverflowError.
   */
  lemma {:induction false} FactoryBound(maxEvents: map<EventClass, Option<int>>, defaultMaxEvents: Option<int>, k: EventClass)
    ensures var bound := if k in maxEvents then maxEvents[k] else defaultMaxEvents;
      var q := DequeFactory(maxEvents, defaultMaxEvents)(k);
      && (q.Ok? <==> bound.None? || 0 <= bound.value <= SSIZE_MAX)
      && (q.Ok? ==> q.value == Deque(if bound.None? then None else Some(bound.value as nat), []))
      && (q.Err? ==> (q.error.ValueError? <==> SSIZE_MIN <= bound.value < 0))
      && (q.Err? ==> (q.error.OverflowError? <==> bound.value < SSIZE_MIN || bound.value > SSIZE_MAX))
  {
  }

  /** Every deque of the store has the bound configured for its class and holds no more than that. */
  predicate WithinLimits(store: Store, maxEvents: map<EventClass, Option<int>>, defaultMaxEvents: Option<int>)
  {
    forall k :: k in store ==>
      && NewDeque<Event>(MaxLenFor(maxEvents, defaultMaxEvents, k)) == Ok(Deque(store[k].maxlen, []))
      && store[k].Fits()
  }

  /** The events recorded so far for class `k`. */
  function Recorded(store: Store, k: EventClass): seq<Event>
  {
    if k in store then store[k].items else []
  }

  /**
   * The store after `push_events(es)`: nothing for an empty batch; otherwise
   * the deque of the FIRST event's class (created through the factory when
   * missing, which raises for a negative bound) extended with the whole
   * batch, whatever the classes of the later events.
   */
  function Pushed(store: Store, maxEvents: map<EventClass, Option<int>>, defaultMaxEvents: Option<int>, es: seq<Event>): (r: Result<Store>)
    ensures es == [] ==> r == Ok(store)
    ensures r.Err? <==> es != [] && KeyOf(es[0]) !in store && NewDeque<Event>(MaxLenFor(maxEvents, defaultMaxEvents, KeyOf(es[0]))).Err?
    ensures r.Err? ==>
      var bound := MaxLenFor(maxEvents, defaultMaxEvents, KeyOf(es[0])).value;
      && (r.error.ValueError? <==> SSIZE_MIN <= bound < 0)
      && (r.error.OverflowError? <==> bound < SSIZE_MIN || bound > SSIZE_MAX)
  {
    if es == [] then Ok(store)
    else
      var k := KeyOf(es[0]);
      if k in store then
        Ok(store[k := store[k].Extend(es)])
      else
        match NewDeque(MaxLenFor(maxEvents, defaultMaxEvents, k))
        case Err(e) => Err(e)
        case Ok(d) => Ok(store[k := d.Extend(es)])
  }

  /** A push touches only the deque of the first event's class, which exists afterwards. */
  lemma {:induction false} PushedTouchesOneClass(store: Store, maxEvents: map<EventClass, Option<int>>, defaultMaxEvents: Option<int>, es: seq<Event>)
    requires es != [] && Pushed(store, maxEvents, defaultMaxEvents, es).Ok?
    ensures var after := Pushed(store, maxEvents, defaultMaxEvents, es).value;
      && after.Keys == store.Keys + {KeyOf(es[0])}
      && forall k :: k in store && k != KeyOf(es[0]) ==> after[k] == store[k]
  {
    var k := KeyOf(es[0]);
    var after := Pushed(store, maxEvents, defaultMaxEvents, es).value;
    var x := after[k];
    assert after == store[k := x] by {
      var d := if k in store then store[k] else NewDeque<Event>(MaxLenFor(maxEvents, defaultMaxEvents, k)).value;
      assert after == store[k := d.Extend(es)];
    }
    UpdateKeys(store, k, x);
  }

  lemma {:induction false} UpdateKeys<K, V>(m: map<K, V>, k: K, x: V)
    ensures m[k := x].Keys == m.Keys + {k}
    ensures forall j :: j in m && j != k ==> m[k := x][j] == m[j]
  {
  }

  /**
   * A push keeps every deque within its class's bound, and the deque of the
   * first event's class holds the last events of what it held followed by
   * the batch, as many as its bound allows.
   */
  lemma {:induction false} PushedKeepsLimits(store: Store, maxEvents: map<EventClass, Option<int>>, defaultMaxEvents: Option<int>, es: seq<Event>)
    requires WithinLimits(store, maxEvents, defaultMaxEvents)
    requires es != [] && Pushed(store, maxEvents, defaultMaxEvents, es).Ok?
    ensures var after := Pushed(store, maxEvents, defaultMaxEvents, es).value;
      && WithinLimits(after, maxEvents, defaultMaxEvents)
      && after[KeyOf(es[0])].items == Last(Recorded(store, KeyOf(es[0])) + es, after[KeyOf(es[0])].maxlen)
  {
    var k := KeyOf(es[0]);
    var d := if k in store then store[k] else NewDeque<Event>(MaxLenFor(maxEvents, defaultMaxEvents, k)).value;
    assert Pushed(store, maxEvents, defaultMaxEvents, es).value == store[k := d.Extend(es)];
    ExtendedWithinLimits(store, maxEvents, defaultMaxEvents, d, es);
  }

  /**
   * `push_events` in terms of the lookup `self.events[event_type]`: a lookup
   * that raises is the push raising, and a deque found or created is
   * extended and stored.
   */
  lemma {:induction false} PushedFromLookup(store: Store, maxEvents: map<EventClass, Option<int>>, defaultMaxEvents: Option<int>, es: seq<Event>, q: Result<Deque<Event>>)
    requires es != [] && WithinLimits(store, maxEvents, defaultMaxEvents)
    requires KeyOf(es[0]) in store ==> q == Ok(store[KeyOf(es[0])])
    requires KeyOf(es[0]) !in store ==> q == DequeFactory(maxEvents, defaultMaxEvents)(KeyOf(es[0]))
    ensures q.Err? ==> Pushed(store, maxEvents, defaultMaxEvents, es) == Err(q.error)
    ensures q.Ok? ==>
      && Pushed(store, maxEvents, defaultMaxEvents, es) == Ok(store[KeyOf(es[0]) := q.value.Extend(es)])
      && WithinLimits(store[KeyOf(es[0]) := q.value.Extend(es)], maxEvents, defaultMaxEvents)
  {
    if q.Ok? {
      PushedKeepsLimits(store, maxEvents, defaultMaxEvents, es);
    }
  }

  /** Extending the deque of the first event's class keeps the store within its limits. */
  lemma {:induction false} ExtendedWithinLimits(store: Store, maxEvents: map<EventClass, Option<int>>, defaultMaxEvents: Option<int>, d: Deque<Event>, es: seq<Event>)
    requires es != []
    requires KeyOf(es[0]) in store ==> d == store[KeyOf(es[0])]
    requires KeyOf(es[0]) !in store ==> NewDeque(MaxLenFor(maxEvents, defaultMaxEvents, KeyOf(es[0]))) == Ok(d)
    requires WithinLimits(store, maxEvents, defaultMaxEvents)
    ensures WithinLimits(store[KeyOf(es[0]) := d.Extend(es)], maxEvents, defaultMaxEvents)
    ensures d.Extend(es).items == Last(Recorded(store, KeyOf(es[0])) + es, d.maxlen)
  {
    var k := KeyOf(es[0]);
    assert NewDeque<Event>(MaxLenFor(maxEvents, defaultMaxEvents, k)) == Ok(Deque(d.maxlen, [])) && Recorded(store, k) == d.items by {
      if k in store {
        assert d == store[k];
      }
    }
    UpdateWithinLimits(store, maxEvents, defaultMaxEvents, k, d.Extend(es));
  }

  /** Storing, under class `k`, a deque that has `k`'s bound and fits it keeps the store within its limits. */
  lemma {:induction false} UpdateWithinLimits(store: Store, maxEvents: map<EventClass, Option<int>>, defaultMaxEvents: Option<int>, k: EventClass, x: Deque<Event>)
    requires WithinLimits(store, maxEvents, defaultMaxEvents)
    requires NewDeque<Event>(MaxLenFor(maxEvents, defaultMaxEvents, k)) == Ok(Deque(x.maxlen, [])) && x.Fits()
    ensures WithinLimits(store[k := x], maxEvents, defaultMaxEvents)
  {
    var after := store[k := x];
    forall j | j in after
      ensures NewDeque<Event>(MaxLenFor(maxEvents, defaultMaxEvents, j)) == Ok(Deque(after[j].maxlen, []))
      ensures after[j].Fits()
    {
      if j != k {
        assert after[j] == store[j];
      }
    }
  }

  /** Pushing the events of `es` one per call, in order, stopping at the first exception. */
  function PushEach(store: Store, maxEvents: map<EventClass, Option<int>>, defaultMaxEvents: Option<int>, es: seq<Event>): Result<Store>
    decreases |es|
  {
    if es == [] then Ok(store)
    else
      match Pushed(store, maxEvents, defaultMaxEvents, [es[0]])
      case Err(e) => Err(e)
      case Ok(s) => PushEach(s, maxEvents, defaultMaxEvents, es[1..])
  }

  /** A batch of events of one class has the same effect as pushing its events one at a time. */
  lemma {:induction false} BatchIsOneAtATime(store: Store, maxEvents: map<EventClass, Option<int>>, defaultMaxEvents: Option<int>, es: seq<Event>)
    requires WithinLimits(store, maxEvents, defaultMaxEvents)
    requires forall i :: 0 <= i < |es| ==> KeyOf(es[i]) == KeyOf(es[0])
    ensures Pushed(store, maxEvents, defaultMaxEvents, es) == PushEach(store, maxEvents, defaultMaxEvents, es)
    decreases |es|
  {
    if es != [] {
      var first := Pushed(store, maxEvents, defaultMaxEvents, [es[0]]);
      if first.Err? {
        FirstPushFails(store, maxEvents, defaultMaxEvents, es);
      } else if |es| == 1 {
        SinglePush(store, maxEvents, defaultMaxEvents, es);
      } else {
        PushedKeepsLimits(store, maxEvents, defaultMaxEvents, [es[0]]);
        RestSameClass(es);
        BatchIsOneAtATime(first.value, maxEvents, defaultMaxEvents, es[1..]);
        FirstPushSucceeds(store, maxEvents, defaultMaxEvents, es);
      }
    }
  }

  /** A batch of one event is one push. */
  lemma {:induction false} SinglePush(store: Store, maxEvents: map<EventClass, Option<int>>, defaultMaxEvents: Option<int>, es: seq<Event>)
    requires |es| == 1
    ensures Pushed(store, maxEvents, defaultMaxEvents, es) == PushEach(store, maxEvents, defaultMaxEvents, es)
  {
    assert es == [es[0]];
    assert es[1..] == [];
  }

  lemma {:induction false} RestSameClass(es: seq<Event>)
    requires |es| >= 2 && forall i :: 0 <= i < |es| ==> KeyOf(es[i]) == KeyOf(es[0])
    ensures forall i :: 0 <= i < |es[1..]| ==> KeyOf(es[1..][i]) == KeyOf(es[1..][0])
    ensures KeyOf(es[1]) == KeyOf(es[0])
  {
    var rest := es[1..];
    forall i | 0 <= i < |rest| ensures KeyOf(rest[i]) == KeyOf(rest[0]) {
      assert rest[i] == es[i + 1] && rest[0] == es[1];
    }
  }

  /** When creating the deque fails for the first event, it fails the same way for the batch. */
  lemma {:induction false} FirstPushFails(store: Store, maxEvents: map<EventClass, Option<int>>, defaultMaxEvents: Option<int>, es: seq<Event>)
    requires es != [] && Pushed(store, maxEvents, defaultMaxEvents, [es[0]]).Err?
    ensures Pushed(store, maxEvents, defaultMaxEvents, es) == PushEach(store, maxEvents, defaultMaxEvents, es)
  {
  }

  /** One induction step of BatchIsOneAtATime: the first push succeeds and the rest of the batch follows. */
  lemma {:induction false} FirstPushSucceeds(store: Store, maxEvents: map<EventClass, Option<int>>, defaultMaxEvents: Option<int>, es: seq<Event>)
    requires WithinLimits(store, maxEvents, defaultMaxEvents)
    requires |es| >= 2 && KeyOf(es[1]) == KeyOf(es[0])
    requires Pushed(store, maxEvents, defaultMaxEvents, [es[0]]).Ok?
    requires
      var s := Pushed(store, maxEvents, defaultMaxEvents, [es[0]]).value;
      Pushed(s, maxEvents, defaultMaxEvents, es[1..]) == PushEach(s, maxEvents, defaultMaxEvents, es[1..])
    ensures Pushed(store, maxEvents, defaultMaxEvents, es) == PushEach(store, maxEvents, defaultMaxEvents, es)
  {
    var s := Pushed(store, maxEvents, defaultMaxEvents, [es[0]]).value;
    assert PushEach(store, maxEvents, defaultMaxEvents, es) == PushEach(s, maxEvents, defaultMaxEvents, es[1..]);
    PushThenPush(store, maxEvents, defaultMaxEvents, es[0], es[1..]);
    HeadTail(es);
  }

  /** Pushing one event and then more of its class is pushing them all in one batch. */
  lemma {:induction false} PushThenPush(store: Store, maxEvents: map<EventClass, Option<int>>, defaultMaxEvents: Option<int>, e: Event, rest: seq<Event>)
    requires WithinLimits(store, maxEvents, defaultMaxEvents)
    requires rest != [] && KeyOf(rest[0]) == KeyOf(e)
    requires Pushed(store, maxEvents, defaultMaxEvents, [e]).Ok?
    ensures Pushed(Pushed(store, maxEvents, defaultMaxEvents, [e]).value, maxEvents, defaultMaxEvents, rest)
         == Pushed(store, maxEvents, defaultMaxEvents, [e] + rest)
  {
    var k := KeyOf(e);
    var s := Pushed(store, maxEvents, defaultMaxEvents, [e]).value;
    var d := if k in store then store[k] else NewDeque<Event>(MaxLenFor(maxEvents, defaultMaxEvents, k)).value;
    assert s == store[k := d.Extend([e])];
    ExtendTwice(d, [e], rest);
    UpdateTwice(store, k, d.Extend([e]), d.Extend([e] + rest));
  }

  lemma {:induction false} UpdateTwice<K, V>(m: map<K, V>, k: K, x: V, y: V)
    ensures m[k := x][k := y] == m[k := y]
  {
  }

  /** The recorder: its two bounds settings, its store and whether the process has forked. */
  class Recorder {
    const defaultMaxEvents: Option<int>
    const maxEvents: map<EventClass, Option<int>>
    var events: DefaultDictKey<EventClass, Deque<Event>>
    var forked: bool

    /** The store builds deques with this recorder's bounds, and every deque respects its bound. */
    ghost predicate Valid()
      reads this, events
    {
      && events.defaultFactory == Some(DequeFactory(maxEvents, defaultMaxEvents))
      && WithinLimits(events.entries, maxEvents, defaultMaxEvents)
    }

    /**
     * The attrs-generated `__init__` followed by `__attrs_post_init__`.
     * Registering `AfterFork` with the fork hook is left to the caller.
     */
    constructor (defaultMaxEvents: Option<int> := Some(DEFAULT_MAX_EVENTS), maxEvents: map<EventClass, Option<int>> := map[])
      ensures Valid() && fresh(events)
      ensures this.defaultMaxEvents == defaultMaxEvents && this.maxEvents == maxEvents
      ensures events.entries == map[] && !forked
    {
      this.defaultMaxEvents := defaultMaxEvents;
      this.maxEvents := maxEvents;
      forked := false;
      // attrs leaves `events` unset until `__attrs_post_init__` calls `_reset_events`
      events := new DefaultDictKey(None);
      new;
      ResetEvents();
    }

    /** `_after_fork`: from now on pushing is the no-op. */
    method AfterFork()
      modifies this`forked
      ensures forked
    {
      forked := true;
    }

    /** `_push_events_noop`: drops the events. */
    method PushEventsNoop(es: seq<Event>) returns (outcome: Outcome)
      ensures outcome == Pass
    {
      outcome := Pass;
    }

    /** `push_event(e)`: `push_events([e])`. */
    method PushEvent(e: Event) returns (outcome: Outcome)
      requires Valid()
      modifies events
      ensures Valid()
      ensures forked ==> outcome == Pass && events.entries == old(events.entries)
      ensures !forked ==>
        var r := Pushed(old(events.entries), maxEvents, defaultMaxEvents, [e]);
        && outcome == (if r.Ok? then Pass else Fail(r.error))
        && events.entries == (if r.Ok? then r.value else old(events.entries))
    {
      outcome := PushEvents([e]);
    }

    /**
     * `push_events(es)`: after a fork, nothing; otherwise the store becomes
     * `Pushed(...)`, or stays as it was when creating the deque raises.
     */
    method PushEvents(es: seq<Event>) returns (outcome: Outcome)
      requires Valid()
      modifies events
      ensures Valid()
      ensures forked ==> outcome == Pass && events.entries == old(events.entries)
      ensures !forked ==>
        var r := Pushed(old(events.entries), maxEvents, defaultMaxEvents, es);
        && outcome == (if r.Ok? then Pass else Fail(r.error))
        && events.entries == (if r.Ok? then r.value else old(events.entries))
    {
      if forked {
        outcome := PushEventsNoop(es);
        return;
      }
      outcome := Pass;
      if es != [] {
        ghost var before := events.entries;
        var eventType := KeyOf(es[0]);
        var q := events.GetItem(eventType);
        PushedFromLookup(before, maxEvents, defaultMaxEvents, es, q);
        match q
        case Err(e) =>
          outcome := Fail(e);
        case Ok(d) =>
          ghost var found := events.entries;
          assert found == before || found == before[eventType := d];
          events.SetItem(eventType, d.Extend(es));
          assert events.entries == before[eventType := d.Extend(es)] by {
            UpdateTwice(before, eventType, d, d.Extend(es));
          }
      }
    }

    /** `_reset_events`: install a fresh, empty store. */
    method ResetEvents()
      modifies this`events
      ensures fresh(events) && events.entries == map[]
      ensures events.defaultFactory == Some(DequeFactory(maxEvents, defaultMaxEvents))
    {
      events := new DefaultDictKey(Some(DequeFactory(maxEvents, defaultMaxEvents)));
    }

    /**
     * `reset()`: return the store held until now, untouched, and keep a fresh
     * empty one; the recorder holds no reference to the returned store.
     */
    method Reset() returns (drained: DefaultDictKey<EventClass, Deque<Event>>)
      requires Valid()
      modifies this`events
      ensures Valid()
      ensures drained == old(events) && drained.entries == old(events.entries)
      ensures fresh(events) && events.entries == map[]
    {
      drained := events;
      ResetEvents();
    }
  }

  /** What the exporter reads from a drained store: each class's events, oldest first. */
  function Contents(store: Store): (c: map<EventClass, seq<Event>>)
    ensures c.Keys == store.Keys
    ensures forall k :: k in c ==> c[k] == store[k].items
  {
    map k | k in store :: store[k].items
  }

  /** With a bound of 3 for one class, pushing a, b, c, d one at a time leaves [b, c, d]. */
  lemma {:induction false} CapacityExample(a: Event, b: Event, c: Event, d: Event)
    requires KeyOf(b) == KeyOf(a) && KeyOf(c) == KeyOf(a) && KeyOf(d) == KeyOf(a)
    ensures PushEach(map[], map[KeyOf(a) := Some(3)], Some(DEFAULT_MAX_EVENTS), [a, b, c, d])
         == Ok(map[KeyOf(a) := Deque(Some(3), [b, c, d])])
  {
    var k := KeyOf(a);
    var m := map[k := Some(3)];
    var dm := Some(DEFAULT_MAX_EVENTS);
    var es := [a, b, c, d];
    assert Pushed(map[], m, dm, es) == Ok(map[k := Deque(Some(3), [b, c, d])]) by {
      var empty: Deque<Event> := Deque(Some(3), []);
      assert NewDeque<Event>(MaxLenFor(m, dm, k)) == Ok(empty);
      assert empty.Extend(es).items == [b, c, d] by {
        assert [] + es == es;
        assert Last(es, Some(3)) == es[1..];
      }
      assert map[][k := empty.Extend(es)] == map[k := Deque(Some(3), [b, c, d])];
    }
    assert forall i :: 0 <= i < |es| ==> KeyOf(es[i]) == KeyOf(es[0]);
    BatchIsOneAtATime(map[], m, dm, es);
  }

  /**
   * With the default bound, a batch of events of class A and then a batch of
   * class B, each within the bound, drain as exactly those two batches.
   */
  lemma {:induction false} TwoClassesExample(xs: seq<Event>, ys: seq<Event>)
    requires xs != [] && ys != [] && KeyOf(xs[0]) != KeyOf(ys[0])
    requires |xs| <= DEFAULT_MAX_EVENTS && |ys| <= DEFAULT_MAX_EVENTS
    ensures Pushed(map[], map[], Some(DEFAULT_MAX_EVENTS), xs).Ok?
    ensures Contents(Pushed(Pushed(map[], map[], Some(DEFAULT_MAX_EVENTS), xs).value, map[], Some(DEFAULT_MAX_EVENTS), ys).value)
         == map[KeyOf(xs[0]) := xs, KeyOf(ys[0]) := ys]
  {
    var dm := Some(DEFAULT_MAX_EVENTS);
    var a, b := KeyOf(xs[0]), KeyOf(ys[0]);
    var s1 := map[a := Deque(dm, xs)];
    FirstPushWithinBound(map[], map[], dm, xs);
    assert map[][a := Deque(dm, xs)] == s1;
    FirstPushWithinBound(s1, map[], dm, ys);
    var s2 := s1[b := Deque(dm, ys)];
    assert Contents(s2) == map[a := xs, b := ys];
  }

  /** The first batch of a class that fits in the class's bound is recorded whole. */
  lemma {:induction false} FirstPushWithinBound(store: Store, maxEvents: map<EventClass, Option<int>>, defaultMaxEvents: Option<int>, es: seq<Event>)
    requires es != [] && KeyOf(es[0]) !in store
    requires MaxLenFor(maxEvents, defaultMaxEvents, KeyOf(es[0])).Some?
    requires |es| <= MaxLenFor(maxEvents, defaultMaxEvents, KeyOf(es[0])).value <= SSIZE_MAX
    ensures Pushed(store, maxEvents, defaultMaxEvents, es)
         == Ok(store[KeyOf(es[0]) := Deque(Some(MaxLenFor(maxEvents, defaultMaxEvents, KeyOf(es[0])).value as nat), es)])
  {
    var n := MaxLenFor(maxEvents, defaultMaxEvents, KeyOf(es[0])).value;
    var empty: Deque<Event> := Deque(Some(n as nat), []);
    assert NewDeque<Event>(MaxLenFor(maxEvents, defaultMaxEvents, KeyOf(es[0]))) == Ok(empty);
    assert empty.Extend(es) == Deque(Some(n as nat), es) by {
      assert [] + es == es;
    }
  }

  /** Two resets in a row: the first returns what was recorded, the second an empty store. */
  method ResetTwice(r: Recorder) returns (first: map<EventClass, seq<Event>>, second: map<EventClass, seq<Event>>)
    requires r.Valid()
    modifies r`events
    ensures r.Valid() && r.events.entries == map[]
    ensures first == Contents(old(r.events.entries)) && second == map[]
  {
    var a := r.Reset();
    first := Contents(a.entries);
    var b := r.Reset();
    second := Contents(b.entries);
  }

  /** After the fork hook has run, pushes leave the store as it was, across resets too. */
  method PushAfterFork(r: Recorder, es: seq<Event>, e: Event) returns (drained: map<EventClass, seq<Event>>)
    requires r.Valid()
    modifies r, r.events
    ensures r.forked && r.Valid()
    ensures drained == Contents(old(r.events.entries)) && r.events.entries == map[]
  {
    r.AfterFork();
    var _ := r.PushEvents(es);
    var _ := r.PushEvent(e);
    var store := r.Reset();
    drained := Contents(store.entries);
    var _ := r.PushEvents(es);
  }
}
