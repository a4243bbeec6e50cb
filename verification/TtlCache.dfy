/** The bounded in-memory cache with expiring entries, against an unbounded log of every set. */
module TtlCache {
  import opened Options
  import Runs

  const MAX_CACHE_SIZE := 500

  datatype Entry<+V> = Entry(key: string, data: V, expiry: int)

  // A Map of the source: entries in the order their keys were first inserted.

  function Find<V(!new)>(cache: seq<Entry<V>>, key: string): (r: Option<Entry<V>>)
    ensures r.Some? ==> r.value in cache && r.value.key == key
    ensures r.None? ==> forall e :: e in cache ==> e.key != key
  {
    if cache == [] then None
    else if cache[0].key == key then Some(cache[0])
    else Find(cache[1..], key)
  }

  /** No key twice. */
  predicate Distinct<V(!new)>(cache: seq<Entry<V>>) {
    cache == [] || (Find(cache[1..], cache[0].key).None? && Distinct(cache[1..]))
  }

  function Delete<V(!new)>(cache: seq<Entry<V>>, key: string): (r: seq<Entry<V>>)
    ensures forall e :: e in r <==> e in cache && e.key != key
    ensures |r| <= |cache|
    ensures Distinct(cache) ==> Distinct(r)
  {
    if cache == [] then []
    else if cache[0].key == key then Delete(cache[1..], key)
    else [cache[0]] + Delete(cache[1..], key)
  }

  /** An existing key keeps its place. */
  function Put<V(!new)>(cache: seq<Entry<V>>, entry: Entry<V>): (r: seq<Entry<V>>)
    ensures |r| <= |cache| + 1
    ensures entry in r
    ensures forall e :: e in r ==> e == entry || e in cache
    ensures forall e :: e in cache && e.key != entry.key ==> e in r
    ensures Distinct(cache) ==> Distinct(r) && forall e :: e in r && e.key == entry.key ==> e == entry
  {
    if cache == [] then [entry]
    else if cache[0].key == entry.key then [entry] + cache[1..]
    else [cache[0]] + Put(cache[1..], entry)
  }

  /** The entries that have not expired. */
  function Fresh<V(!new)>(cache: seq<Entry<V>>, now: int): (r: seq<Entry<V>>)
    ensures forall e :: e in r <==> e in cache && now < e.expiry
    ensures |r| <= |cache|
    ensures Distinct(cache) ==> Distinct(r)
  {
    if cache == [] then []
    else if now < cache[0].expiry then [cache[0]] + Fresh(cache[1..], now)
    else Fresh(cache[1..], now)
  }

  function Lookup<V(!new)>(cache: seq<Entry<V>>, key: string, now: int): Option<V> {
    var e := Find(cache, key);
    if e.Some? && now < e.value.expiry then Some(e.value.data) else None
  }

  function AfterGet<V(!new)>(cache: seq<Entry<V>>, key: string, now: int): seq<Entry<V>> {
    var e := Find(cache, key);
    if e.Some? && !(now < e.value.expiry) then Delete(cache, key) else cache
  }

  /** A set on a full cache first drops the oldest key, even when the key set is already there. */
  function AfterSet<V(!new)>(cache: seq<Entry<V>>, key: string, data: V, ttl: int, now: int): seq<Entry<V>> {
    var room := if |cache| >= MAX_CACHE_SIZE then Delete(cache, cache[0].key) else cache;
    Put(room, Entry(key, data, now + ttl))
  }

  // ---------------------------------------------------------------------------------------
  // The log
  // ---------------------------------------------------------------------------------------

  /** The latest set of a key. */
  function Latest<V(!new)>(log: seq<Entry<V>>, key: string): (r: Option<Entry<V>>)
    ensures r.Some? ==> r.value in log && r.value.key == key
  {
    if log == [] then None
    else if log[|log| - 1].key == key then Some(log[|log| - 1])
    else Latest(log[..|log| - 1], key)
  }

  function LogLookup<V(!new)>(log: seq<Entry<V>>, key: string, now: int): Option<V> {
    var e := Latest(log, key);
    if e.Some? && now < e.value.expiry then Some(e.value.data) else None
  }

  /** The cache beside the log of its sets; `drops` counts the sets made on a full cache. */
  datatype World<+V> = World(now: int, cache: seq<Entry<V>>, log: seq<Entry<V>>, drops: nat)

  /** Each operation happens some time after the one before. */
  datatype Event<+V> =
    | Get(key: string, later: nat)
    | Set(key: string, data: V, ttl: int, later: nat)
    | Evict(later: nat)

  function Step<V(!new)>(w: World<V>, e: Event<V>): World<V> {
    var now := w.now + e.later;
    match e
    case Get(key, _) => w.(now := now, cache := AfterGet(w.cache, key, now))
    case Set(key, data, ttl, _) =>
      World(now, AfterSet(w.cache, key, data, ttl, now), w.log + [Entry(key, data, now + ttl)],
            if |w.cache| >= MAX_CACHE_SIZE then w.drops + 1 else w.drops)
    case Evict(_) => w.(now := now, cache := Fresh(w.cache, now))
  }

  function Init<V(!new)>(now: int): World<V> {
    World(now, [], [], 0)
  }

  /** Every entry is the latest set of its key. */
  ghost predicate Sound<V(!new)>(w: World<V>) {
    forall e :: e in w.cache ==> Latest(w.log, e.key) == Some(e)
  }

  /** Every latest set that has not expired is there. */
  ghost predicate Complete<V(!new)>(w: World<V>) {
    forall key: string :: Latest(w.log, key).Some? && w.now < Latest(w.log, key).value.expiry ==>
      Latest(w.log, key).value in w.cache
  }

  ghost predicate Fits<V(!new)>(w: World<V>) {
    && |w.cache| <= MAX_CACHE_SIZE
    && Distinct(w.cache)
    && Sound(w)
    && (w.drops == 0 ==> Complete(w))
  }

  lemma {:induction false} DeleteShrinks<V(!new)>(cache: seq<Entry<V>>, i: nat)
    requires i < |cache|
    ensures |Delete(cache, cache[i].key)| < |cache|
  {
    hide Distinct;
    if i > 0 {
      DeleteShrinks(cache[1..], i - 1);
    }
  }

  lemma SetFits<V(!new)>(w: World<V>, key: string, data: V, ttl: int, later: nat)
    requires Fits(w)
    ensures Fits(Step(w, Set(key, data, ttl, later)))
  {
    hide Sound, Complete, Find, Distinct, Latest, Delete, Put;
    if |w.cache| >= MAX_CACHE_SIZE {
      DeleteShrinks(w.cache, 0);
      PutFits(w, Delete(w.cache, w.cache[0].key), Entry(key, data, w.now + later + ttl), w.now + later, w.drops + 1);
    } else {
      PutFits(w, w.cache, Entry(key, data, w.now + later + ttl), w.now + later, w.drops);
    }
  }

  lemma PutFits<V(!new)>(w: World<V>, room: seq<Entry<V>>, entry: Entry<V>, now: int, drops: nat)
    requires Fits(w) && now >= w.now && drops >= w.drops
    requires |room| < MAX_CACHE_SIZE && Distinct(room)
    requires forall e :: e in room ==> e in w.cache
    requires drops == 0 ==> room == w.cache
    ensures Fits(World(now, Put(room, entry), w.log + [entry], drops))
  {
  }

  lemma StepFits<V(!new)>(w: World<V>, e: Event<V>)
    requires Fits(w)
    ensures Fits(Step(w, e))
  {
    match e
    case Get(key, later) =>
    case Set(key, data, ttl, later) => SetFits(w, key, data, ttl, later);
    case Evict(later) =>
  }

  lemma RunFits<V(!new)>(now: int, es: seq<Event<V>>)
    ensures Fits(Runs.Run(Step<V>, Init(now), es))
  {
    forall w: World<V>, e: Event<V> | Fits(w) ensures Fits(Step(w, e)) {
      StepFits(w, e);
    }
    Runs.RunKeeps(Step<V>, (w: World<V>) => Fits(w), Init(now), es);
  }

  /** Over any run the cache holds at most 500 entries, and a lookup finds nothing or the value
      of the latest set of its key, not yet expired; as long as no set met a full cache, it finds
      exactly what the unbounded log would. */
  lemma CacheRefinesLog<V(!new)>(start: int, es: seq<Event<V>>, key: string, later: nat)
    ensures var w := Runs.Run(Step<V>, Init(start), es);
      var now := w.now + later;
      && |w.cache| <= 500
      && (Lookup(w.cache, key, now).Some? ==> Lookup(w.cache, key, now) == LogLookup(w.log, key, now))
      && (w.drops == 0 ==> Lookup(w.cache, key, now) == LogLookup(w.log, key, now))
  {
    RunFits(start, es);
    hide *;
    LookupFits(Runs.Run(Step<V>, Init(start), es), key, later);
  }

  lemma LookupFits<V(!new)>(w: World<V>, key: string, later: nat)
    requires Fits(w)
    ensures var now := w.now + later;
      && |w.cache| <= 500
      && (Lookup(w.cache, key, now).Some? ==> Lookup(w.cache, key, now) == LogLookup(w.log, key, now))
      && (w.drops == 0 ==> Lookup(w.cache, key, now) == LogLookup(w.log, key, now))
  {
  }

  /** Room is made only in a cache of 500 entries: below that a set keeps every other key. */
  lemma SetDropsOnlyWhenFull<V(!new)>(cache: seq<Entry<V>>, key: string, data: V, ttl: int, now: int, other: string)
    requires |cache| < 500 && other != key
    ensures Find(AfterSet(cache, key, data, ttl, now), other) == Find(cache, other)
  {
    FindPut(cache, Entry(key, data, now + ttl), other);
  }

  function Keys<V(!new)>(cache: seq<Entry<V>>): seq<string> {
    if cache == [] then [] else [cache[0].key] + Keys(cache[1..])
  }

  lemma KeysStep<V(!new)>(first: Entry<V>, rest: seq<Entry<V>>)
    ensures Keys([first] + rest) == [first.key] + Keys(rest)
  {
    assert ([first] + rest)[1..] == rest;
  }

  /** Setting a key that is there leaves it where it is; a new one comes last, so that the first
      key is always the one set first. */
  lemma {:induction false} PutKeepsPlaces<V(!new)>(cache: seq<Entry<V>>, entry: Entry<V>)
    ensures Keys(Put(cache, entry)) ==
      if Find(cache, entry.key).Some? then Keys(cache) else Keys(cache) + [entry.key]
  {
    hide Distinct;
    if cache == [] {
      KeysStep(entry, []);
      assert [entry] + [] == [entry];
    } else if cache[0].key == entry.key {
      KeysStep(entry, cache[1..]);
    } else {
      PutKeepsPlaces(cache[1..], entry);
      KeysStep(cache[0], Put(cache[1..], entry));
    }
  }

  /** A lookup that finds an expired entry takes it out, and no other. */
  lemma GetDropsExpired<V(!new)>(cache: seq<Entry<V>>, key: string, now: int, other: string)
    ensures var after := AfterGet(cache, key, now);
      && (Lookup(cache, key, now).None? ==> Find(after, key).None?)
      && (Lookup(cache, key, now).Some? ==> after == cache)
      && (other != key ==> Find(after, other) == Find(cache, other))
  {
    FindDeleted(cache, key, other);
    FindDeleted(cache, key, key);
  }

  /** Sweeping expired entries, or dropping one on a lookup, changes no lookup made next. */
  lemma SweepInvisible<V(!new)>(cache: seq<Entry<V>>, swept: string, key: string, earlier: int, now: int)
    requires Distinct(cache) && earlier <= now
    ensures Lookup(Fresh(cache, earlier), key, now) == Lookup(cache, key, now)
    ensures Lookup(AfterGet(cache, swept, earlier), key, now) == Lookup(cache, key, now)
  {
    hide Lookup, Fresh, Distinct, Delete;
    SameEntry(cache, Fresh(cache, earlier), key, now);
    var e := Find(cache, swept);
    if e.Some? && e.value.expiry <= earlier {
      OnlyKey(cache, e.value);
      SameEntry(cache, Delete(cache, swept), key, now);
    }
  }

  lemma OnlyKey<V(!new)>(cache: seq<Entry<V>>, e: Entry<V>)
    requires Distinct(cache) && e in cache
    ensures forall k :: k in cache && k.key == e.key ==> k == e
  {
  }

  /** In caches without double keys, lookups are decided by the entries alone. */
  lemma SameEntry<V(!new)>(a: seq<Entry<V>>, b: seq<Entry<V>>, key: string, now: int)
    requires Distinct(a) && Distinct(b)
    requires forall e :: e in b ==> e in a
    requires forall e :: e in a && now < e.expiry && e.key == key ==> e in b
    ensures Lookup(b, key, now) == Lookup(a, key, now)
  {
    if Find(a, key).Some? {
      OnlyEntry(a, Find(a, key).value);
    }
    if Find(b, key).Some? {
      OnlyEntry(a, Find(b, key).value);
    }
    if Find(a, key).Some? && now < Find(a, key).value.expiry {
      OnlyEntry(b, Find(a, key).value);
    }
  }

  lemma {:induction false} OnlyEntry<V(!new)>(cache: seq<Entry<V>>, e: Entry<V>)
    requires Distinct(cache) && e in cache
    ensures Find(cache, e.key) == Some(e)
  {
    if cache[0].key != e.key {
      OnlyEntry(cache[1..], e);
    }
  }

  // ---------------------------------------------------------------------------------------
  // A sweep in the course of a run
  // ---------------------------------------------------------------------------------------

  /** The entry of a key that a lookup may still return. */
  function Live<V(!new)>(cache: seq<Entry<V>>, key: string, now: int): Option<Entry<V>> {
    var e := Find(cache, key);
    if e.Some? && now < e.value.expiry then e else None
  }

  /** All lookups, now and later, agree as long as nothing is set. */
  ghost predicate Alike<V(!new)>(a: seq<Entry<V>>, b: seq<Entry<V>>, now: int) {
    forall key: string :: Live(a, key, now) == Live(b, key, now)
  }

  lemma AlikeLookups<V(!new)>(a: seq<Entry<V>>, b: seq<Entry<V>>, now: int, key: string, later: nat)
    requires Alike(a, b, now)
    ensures Lookup(a, key, now + later) == Lookup(b, key, now + later)
  {
    assert Live(a, key, now) == Live(b, key, now);
  }

  /** The key whose live entry a set drops to make room. */
  function Lost<V(!new)>(cache: seq<Entry<V>>, key: string, now: int): Option<string> {
    if |cache| >= MAX_CACHE_SIZE && cache[0].key != key && now < cache[0].expiry then Some(cache[0].key) else None
  }

  lemma {:induction false} FindDeleted<V(!new)>(cache: seq<Entry<V>>, gone: string, key: string)
    ensures Find(Delete(cache, gone), key) == if key == gone then None else Find(cache, key)
  {
    if cache != [] {
      FindDeleted(cache[1..], gone, key);
    }
  }

  lemma {:induction false} FindPut<V(!new)>(cache: seq<Entry<V>>, entry: Entry<V>, key: string)
    ensures Find(Put(cache, entry), key) == if key == entry.key then Some(entry) else Find(cache, key)
  {
    if cache != [] && cache[0].key != entry.key {
      FindPut(cache[1..], entry, key);
    }
  }

  lemma LiveAfterSet<V(!new)>(cache: seq<Entry<V>>, newKey: string, data: V, ttl: int, now: int, key: string)
    ensures Live(AfterSet(cache, newKey, data, ttl, now), key, now) ==
      if key == newKey then Live([Entry(newKey, data, now + ttl)], key, now)
      else if Lost(cache, newKey, now) == Some(key) then None
      else Live(cache, key, now)
  {
    var entry := Entry(newKey, data, now + ttl);
    if |cache| >= MAX_CACHE_SIZE {
      FindDeleted(cache, cache[0].key, key);
      FindPut(Delete(cache, cache[0].key), entry, key);
    } else {
      FindPut(cache, entry, key);
    }
    hide Delete, Put;
  }

  lemma LiveAfterSweep<V(!new)>(cache: seq<Entry<V>>, now: int, key: string)
    requires Distinct(cache)
    ensures Live(Fresh(cache, now), key, now) == Live(cache, key, now)
  {
    var swept := Fresh(cache, now);
    hide Fresh, Distinct;
    if Find(cache, key).Some? && now < Find(cache, key).value.expiry {
      OnlyEntry(swept, Find(cache, key).value);
    }
    if Find(swept, key).Some? {
      OnlyEntry(cache, Find(swept, key).value);
    }
  }

  lemma LiveAfterGet<V(!new)>(cache: seq<Entry<V>>, got: string, now: int, key: string)
    ensures Live(AfterGet(cache, got, now), key, now) == Live(cache, key, now)
  {
    FindDeleted(cache, got, key);
  }

  /** Time only ends lives. */
  lemma AlikeLater<V(!new)>(a: seq<Entry<V>>, b: seq<Entry<V>>, now: int, later: nat)
    requires Alike(a, b, now)
    ensures Alike(a, b, now + later)
  {
    var at := now + later;
    forall key: string ensures Live(a, key, at) == Live(b, key, at) {
      assert Live(a, key, now) == Live(b, key, now);
    }
  }

  lemma SetAlikeExactly<V(!new)>(a: seq<Entry<V>>, b: seq<Entry<V>>, key: string, data: V, ttl: int, now: int)
    requires Alike(a, b, now)
    ensures Alike(AfterSet(a, key, data, ttl, now), AfterSet(b, key, data, ttl, now), now)
      <==> Lost(a, key, now) == Lost(b, key, now)
  {
    var c, d := AfterSet(a, key, data, ttl, now), AfterSet(b, key, data, ttl, now);
    forall k: string ensures Live(a, k, now) == Live(b, k, now) {
    }
    forall k: string
      ensures Live(c, k, now) == Live(d, k, now) <==>
        k == key || Live(a, k, now).None? || (Lost(a, key, now) == Some(k) <==> Lost(b, key, now) == Some(k))
    {
      LiveAfterSet(a, key, data, ttl, now, k);
      LiveAfterSet(b, key, data, ttl, now, k);
    }
    LostWasLive(a, key, now);
    LostWasLive(b, key, now);
    hide AfterSet, Live, Lost;
    if Lost(a, key, now) != Lost(b, key, now) {
      var k := if Lost(a, key, now).Some? then Lost(a, key, now).value else Lost(b, key, now).value;
      assert Live(c, k, now) != Live(d, k, now);
    }
  }

  lemma LostWasLive<V(!new)>(cache: seq<Entry<V>>, key: string, now: int)
    ensures Lost(cache, key, now).Some? ==>
      Lost(cache, key, now).value != key && Live(cache, Lost(cache, key, now).value, now).Some?
  {
  }

  /** The set of a step, if it is one, loses the same live key in both. */
  predicate LosesAlike<V(!new)>(v: World<V>, w: World<V>, e: Event<V>) {
    e.Set? ==> Lost(v.cache, e.key, w.now + e.later) == Lost(w.cache, e.key, w.now + e.later)
  }

  lemma SweepsAlike<V(!new)>(a: seq<Entry<V>>, b: seq<Entry<V>>, now: int)
    requires Distinct(a) && Distinct(b) && Alike(a, b, now)
    ensures Alike(Fresh(a, now), Fresh(b, now), now)
  {
    hide Distinct, Fresh, Live;
    forall key: string ensures Live(Fresh(a, now), key, now) == Live(Fresh(b, now), key, now) {
      assert Live(a, key, now) == Live(b, key, now);
      LiveAfterSweep(a, now, key);
      LiveAfterSweep(b, now, key);
    }
  }

  lemma GetsAlike<V(!new)>(a: seq<Entry<V>>, b: seq<Entry<V>>, got: string, now: int)
    requires Alike(a, b, now)
    ensures Alike(AfterGet(a, got, now), AfterGet(b, got, now), now)
  {
    hide AfterGet, Live;
    forall key: string ensures Live(AfterGet(a, got, now), key, now) == Live(AfterGet(b, got, now), key, now) {
      assert Live(a, key, now) == Live(b, key, now);
      LiveAfterGet(a, got, now, key);
      LiveAfterGet(b, got, now, key);
    }
  }

  lemma StepAlikeExactly<V(!new)>(v: World<V>, w: World<V>, e: Event<V>)
    requires Distinct(v.cache) && Distinct(w.cache) && v.now == w.now && Alike(v.cache, w.cache, w.now)
    ensures Alike(Step(v, e).cache, Step(w, e).cache, Step(w, e).now) <==> LosesAlike(v, w, e)
  {
    hide Distinct, Alike, AfterGet, AfterSet, Fresh, Lost;
    var now := w.now + e.later;
    AlikeLater(v.cache, w.cache, w.now, e.later);
    match e
    case Set(key, data, ttl, _) => SetAlikeExactly(v.cache, w.cache, key, data, ttl, now);
    case Get(key, _) => GetsAlike(v.cache, w.cache, key, now);
    case Evict(_) => SweepsAlike(v.cache, w.cache, now);
  }

  function Swept<V(!new)>(before: seq<Event<V>>, more: seq<Event<V>>): seq<Event<V>> {
    before + [Evict(0)] + more
  }

  /** The swept run and the other one, side by side: what the swept cache holds, the other one
      holds too, and as long as no set met a full cache there, none did here. */
  ghost predicate Beside<V(!new)>(v: World<V>, w: World<V>) {
    && v.now == w.now && v.log == w.log
    && Fits(v) && Fits(w)
    && (w.drops == 0 ==> v.drops == 0 && Within(v.cache, w.cache))
  }

  lemma {:induction false} NoLarger<V(!new)>(a: seq<Entry<V>>, b: seq<Entry<V>>)
    requires Distinct(a) && Within(a, b)
    ensures |a| <= |b|
  {
    if a != [] {
      var rest := Delete(b, a[0].key);
      assert a[0] in b;
      var i :| 0 <= i < |b| && b[i] == a[0];
      DeleteShrinks(b, i);
      forall e | e in a[1..] ensures e in rest {
        assert e in a && e.key != a[0].key;
      }
      NoLarger(a[1..], rest);
    }
  }

  /** Entries of one key are the same entry in both: the latest set. */
  lemma SameOfKey<V(!new)>(v: World<V>, w: World<V>, e: Entry<V>, k: Entry<V>)
    requires Fits(v) && Fits(w) && v.log == w.log && e in v.cache && k in w.cache && e.key == k.key
    ensures e == k
  {
  }

  lemma {:induction false} PutExactly<V(!new)>(cache: seq<Entry<V>>, entry: Entry<V>)
    requires Distinct(cache)
    ensures forall e :: e in Put(cache, entry) <==> e == entry || (e in cache && e.key != entry.key)
  {
    if cache != [] && cache[0].key != entry.key {
      PutExactly(cache[1..], entry);
    }
  }

  ghost predicate Within<V(!new)>(a: seq<Entry<V>>, b: seq<Entry<V>>) {
    forall e :: e in a ==> e in b
  }

  lemma SetsWithin<V(!new)>(a: seq<Entry<V>>, b: seq<Entry<V>>, entry: Entry<V>)
    requires Distinct(a) && Distinct(b) && Within(a, b)
    ensures Within(Put(a, entry), Put(b, entry))
  {
    PutExactly(a, entry);
    PutExactly(b, entry);
    hide Put, Distinct;
  }

  lemma SweepsWithin<V(!new)>(a: seq<Entry<V>>, b: seq<Entry<V>>, now: int)
    requires Within(a, b)
    ensures Within(Fresh(a, now), Fresh(b, now))
  {
    hide Fresh;
  }

  /** The entries of one key are the same entry in both. */
  lemma GetsWithin<V(!new)>(a: seq<Entry<V>>, b: seq<Entry<V>>, key: string, now: int)
    requires Distinct(a) && Within(a, b)
    requires forall e, k :: e in a && k in b && e.key == k.key ==> e == k
    ensures Within(AfterGet(a, key, now), AfterGet(b, key, now))
  {
    hide Distinct, Find, Delete;
    forall e | e in AfterGet(a, key, now) ensures e in AfterGet(b, key, now) {
      if e.key == key {
        OnlyEntry(a, e);
      }
    }
  }

  lemma FitsDistinct<V(!new)>(w: World<V>)
    requires Fits(w)
    ensures Distinct(w.cache)
  {
  }

  /** A set that met no full cache simply puts its entry. */
  lemma RoomySet<V(!new)>(w: World<V>, key: string, data: V, ttl: int, later: nat)
    ensures var c := Step(w, Set(key, data, ttl, later));
      && (c.drops == w.drops <==> |w.cache| < MAX_CACHE_SIZE)
      && (c.drops == w.drops ==> c.cache == Put(w.cache, Entry(key, data, w.now + later + ttl)))
  {
    hide Put, Delete;
  }

  lemma EntriesWithin<V(!new)>(v: World<V>, w: World<V>, e: Event<V>)
    requires v.now == w.now && v.log == w.log && Fits(v) && Fits(w)
    requires v.drops == 0 && w.drops == 0 && Within(v.cache, w.cache)
    ensures Step(w, e).drops == 0 ==> Step(v, e).drops == 0 && Within(Step(v, e).cache, Step(w, e).cache)
  {
    hide Fits, AfterGet, AfterSet, Fresh, Put, Distinct, Within;
    FitsDistinct(v);
    FitsDistinct(w);
    NoLarger(v.cache, w.cache);
    match e
    case Set(key, data, ttl, later) =>
      RoomySet(v, key, data, ttl, later);
      RoomySet(w, key, data, ttl, later);
      SetsWithin(v.cache, w.cache, Entry(key, data, w.now + later + ttl));
    case Evict(later) => SweepsWithin(v.cache, w.cache, w.now + later);
    case Get(key, later) =>
      forall x, y | x in v.cache && y in w.cache && x.key == y.key ensures x == y {
        SameOfKey(v, w, x, y);
      }
      GetsWithin(v.cache, w.cache, key, w.now + later);
  }

  /** Clock and log do not depend on the cache. */
  lemma ClockAndLog<V(!new)>(v: World<V>, w: World<V>, e: Event<V>)
    requires v.now == w.now && v.log == w.log
    ensures Step(v, e).now == Step(w, e).now && Step(v, e).log == Step(w, e).log
    ensures w.drops <= Step(w, e).drops
  {
    hide AfterGet, AfterSet, Fresh;
  }

  lemma StepBeside<V(!new)>(v: World<V>, w: World<V>, e: Event<V>)
    requires Beside(v, w)
    ensures Beside(Step(v, e), Step(w, e))
  {
    hide Fits, Step, Within;
    StepFits(v, e);
    StepFits(w, e);
    ClockAndLog(v, w, e);
    if Step(w, e).drops == 0 {
      EntriesWithin(v, w, e);
    }
  }

  lemma {:induction false} RunBeside<V(!new)>(v: World<V>, w: World<V>, more: seq<Event<V>>)
    requires Beside(v, w)
    ensures Beside(Runs.Run(Step<V>, v, more), Runs.Run(Step<V>, w, more))
    decreases |more|
  {
    hide Beside;
    if more != [] {
      var n := |more| - 1;
      RunBeside(v, w, more[..n]);
      StepBeside(Runs.Run(Step<V>, v, more[..n]), Runs.Run(Step<V>, w, more[..n]), more[n]);
    }
  }

  lemma RunsBeside<V(!new)>(start: int, before: seq<Event<V>>, more: seq<Event<V>>)
    ensures Beside(Runs.Run(Step<V>, Init(start), Swept(before, more)), Runs.Run(Step<V>, Init(start), before + more))
  {
    var w := Runs.Run(Step<V>, Init(start), before);
    var v := Step(w, Evict(0));
    RunFits(start, before);
    StepFits(w, Evict(0));
    assert Beside(v, w);
    hide Beside, Fits;
    RunBeside(v, w, more);
    Runs.RunTrace(Step<V>, [Evict(0)], [w, v]);
    Runs.RunJoins(Step<V>, Init(start), before, [Evict(0)]);
    Runs.RunJoins(Step<V>, Init(start), before + [Evict(0)], more);
    Runs.RunJoins(Step<V>, Init(start), before, more);
  }

  lemma BesideLookups<V(!new)>(v: World<V>, w: World<V>, key: string, later: nat)
    requires Beside(v, w)
    ensures v.now == w.now
    ensures w.drops == 0 ==> Lookup(v.cache, key, w.now + later) == Lookup(w.cache, key, w.now + later)
  {
    hide Fits, Lookup, LogLookup, Within;
    LookupFits(v, key, later);
    LookupFits(w, key, later);
  }

  /** A sweep anywhere in a run, as long as no set of the run meets a full cache: every later
      lookup, whatever is set in between, is what it would have been without the sweep. */
  lemma SweepChangesNoLookup<V(!new)>(start: int, before: seq<Event<V>>, more: seq<Event<V>>, key: string, later: nat)
    ensures var v := Runs.Run(Step<V>, Init(start), Swept(before, more));
      var w := Runs.Run(Step<V>, Init(start), before + more);
      v.now == w.now &&
      (w.drops == 0 ==> Lookup(v.cache, key, w.now + later) == Lookup(w.cache, key, w.now + later))
  {
    hide *;
    RunsBeside(start, before, more);
    var v := Runs.Run(Step<V>, Init(start), Swept(before, more));
    var w := Runs.Run(Step<V>, Init(start), before + more);
    BesideLookups(v, w, key, later);
  }

  /** Where that ends, for every run: while the lookups agree, the next event makes some of
      them differ if and only if it is a set that drops a live key, for room, in one of the two
      caches and not in the other. */
  lemma SweepShowsExactly<V(!new)>(start: int, before: seq<Event<V>>, more: seq<Event<V>>, e: Event<V>)
    ensures var v := Runs.Run(Step<V>, Init(start), Swept(before, more));
      var w := Runs.Run(Step<V>, Init(start), before + more);
      Alike(v.cache, w.cache, w.now) ==>
        (Alike(Step(v, e).cache, Step(w, e).cache, Step(w, e).now) <==> LosesAlike(v, w, e))
  {
    RunsBeside(start, before, more);
    var v := Runs.Run(Step<V>, Init(start), Swept(before, more));
    var w := Runs.Run(Step<V>, Init(start), before + more);
    if Alike(v.cache, w.cache, w.now) {
      hide Alike, Swept, Step, LosesAlike;
      StepAlikeExactly(v, w, e);
    }
  }

  /** A full cache whose oldest entry is live and which holds an expired one: after a sweep a
      new key finds room, without it the oldest key is dropped. */
  lemma SweepSavesTheOldest<V(!new)>(w: World<V>, i: nat, key: string, data: V, ttl: int)
    requires |w.cache| == MAX_CACHE_SIZE && Distinct(w.cache)
    requires i < |w.cache| && w.cache[i].expiry <= w.now < w.cache[0].expiry
    requires key != w.cache[0].key
    ensures var setNew := Set(key, data, ttl, 0);
      && Lookup(Step(Step(w, Evict(0)), setNew).cache, w.cache[0].key, w.now) == Some(w.cache[0].data)
      && Lookup(Step(w, setNew).cache, w.cache[0].key, w.now).None?
  {
    var swept := Fresh(w.cache, w.now);
    assert w.cache[i] !in swept && w.cache[i] in w.cache;
    FreshShrinks(w.cache, w.now, i);
    LiveAfterSweep(w.cache, w.now, w.cache[0].key);
    LiveAfterSet(swept, key, data, ttl, w.now, w.cache[0].key);
    LiveAfterSet(w.cache, key, data, ttl, w.now, w.cache[0].key);
    hide AfterSet, Fresh;
  }

  lemma {:induction false} FreshShrinks<V(!new)>(cache: seq<Entry<V>>, now: int, i: nat)
    requires i < |cache| && cache[i].expiry <= now
    ensures |Fresh(cache, now)| < |cache|
  {
    if i > 0 {
      FreshShrinks(cache[1..], now, i - 1);
    }
  }

  // ---------------------------------------------------------------------------------------
  // The cache of the service
  // ---------------------------------------------------------------------------------------

  class Cache<V(!new)> {
    var entries: seq<Entry<V>>

    method GetCached(key: string, now: int) returns (data: Option<V>)
      modifies this
      ensures data == Lookup(old(entries), key, now)
      ensures entries == AfterGet(old(entries), key, now)
    {
      var entry := Find(entries, key);
      if entry.Some? && now < entry.value.expiry {
        return Some(entry.value.data);
      }
      if entry.Some? {
        entries := Delete(entries, key);
      }
      return None;
    }

    method SetCache(key: string, data: V, ttl: int, now: int)
      modifies this
      ensures entries == AfterSet(old(entries), key, data, ttl, now)
    {
      if |entries| >= MAX_CACHE_SIZE {
        entries := Delete(entries, entries[0].key);
      }
      entries := Put(entries, Entry(key, data, now + ttl));
    }

    /** Walks the entries and deletes the expired ones on the way. */
    method EvictExpired(now: int)
      modifies this
      ensures entries == Fresh(old(entries), now)
    {
      hide Fresh;
      FreshNone<V>(now);
      var i := 0;
      ghost var seen := 0;
      while i < |entries|
        invariant 0 <= i <= |entries| && 0 <= seen <= |old(entries)|
        invariant entries[..i] == Fresh(old(entries)[..seen], now)
        invariant entries[i..] == old(entries)[seen..]
        decreases |entries| - i
      {
        FreshAppend(old(entries)[..seen], old(entries)[seen], now);
        assert old(entries)[..seen + 1] == old(entries)[..seen] + [old(entries)[seen]];
        assert entries[i] == entries[i..][0] == old(entries)[seen];
        assert entries[i + 1..] == entries[i..][1..];
        if now >= entries[i].expiry {
          entries := entries[..i] + entries[i + 1..];
        } else {
          assert entries[..i + 1] == entries[..i] + [entries[i]];
          i := i + 1;
        }
        seen := seen + 1;
      }
      assert old(entries)[..seen] == old(entries);
      assert entries[..i] == entries;
    }
  }

  lemma FreshNone<V(!new)>(now: int)
    ensures Fresh<V>([], now) == []
  {
  }

  lemma {:induction false} FreshAppend<V(!new)>(cache: seq<Entry<V>>, e: Entry<V>, now: int)
    ensures Fresh(cache + [e], now) == Fresh(cache, now) + (if now < e.expiry then [e] else [])
  {
    if cache == [] {
      assert [e][1..] == [];
    } else {
      assert (cache + [e])[1..] == cache[1..] + [e];
      FreshAppend(cache[1..], e, now);
    }
  }
}
