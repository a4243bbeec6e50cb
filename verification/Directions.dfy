/** Distance lookups: concurrent calls for the same key share one outbound request. Between two
    awaits a call runs alone, so each stretch of it is one step. */
module Directions {
  import Cache = TtlCache
  import opened Options
  import Runs

  const DIRECTIONS_TTL := 300000

  /** A request is running, has been answered, or its caller has removed it from the in-flight
      map. */
  datatype Stage = Running | Answered | Removed

  /** `answer` is what came back, absent when the request failed, and `at` is when. */
  datatype Fetch<+V> = Fetch(key: string, stage: Stage, answer: Option<V>, at: int)

  /** What a call came to: a cached value, a straight-line estimate, or a shared request. */
  datatype Fate<+V> = FromCache(data: V, when: int) | Estimated | Awaits(fetch: nat)

  datatype World<+V> = World(
    now: int,
    cache: seq<Cache.Entry<V>>,
    inflight: map<string, nat>,
    fetches: map<nat, Fetch<V>>,
    fates: map<nat, Fate<V>>,
    asked: map<nat, string>)

  datatype Event<+V> =
    | Call(call: nat, key: string, hasApiKey: bool, newFetch: nat)
    | Answer(fetch: nat, data: Option<V>) // nothing when the request failed
    | Remove(fetch: nat)                  // the caller's finally block
    | Sweep
    | Tick(later: nat)

  function AfterCall<V(!new)>(w: World<V>, call: nat, key: string, hasApiKey: bool, newFetch: nat): World<V> {
    var hit := Cache.Lookup(w.cache, key, w.now);
    var v := w.(cache := Cache.AfterGet(w.cache, key, w.now), asked := w.asked[call := key]);
    if hit.Some? then v.(fates := v.fates[call := FromCache(hit.value, w.now)])
    else if key in w.inflight then v.(fates := v.fates[call := Awaits(w.inflight[key])])
    else if !hasApiKey then v.(fates := v.fates[call := Estimated])
    else v.(fates := v.fates[call := Awaits(newFetch)],
            fetches := v.fetches[newFetch := Fetch(key, Running, None, 0)],
            inflight := v.inflight[key := newFetch])
  }

  /** Numbers of calls and requests are never used twice. */
  function Step<V(!new)>(w: World<V>, e: Event<V>): World<V> {
    match e
    case Call(call, key, hasApiKey, newFetch) =>
      if call in w.asked || newFetch in w.fetches then w else AfterCall(w, call, key, hasApiKey, newFetch)
    case Answer(f, data) =>
      if f !in w.fetches || !w.fetches[f].stage.Running? then w
      else
        var v := w.(fetches := w.fetches[f := w.fetches[f].(stage := Answered, answer := data, at := w.now)]);
        if data.None? then v
        else v.(cache := Cache.AfterSet(v.cache, w.fetches[f].key, data.value, DIRECTIONS_TTL, v.now))
    case Remove(f) =>
      if f !in w.fetches || !w.fetches[f].stage.Answered? then w
      else w.(fetches := w.fetches[f := w.fetches[f].(stage := Removed)], inflight := w.inflight - {w.fetches[f].key})
    case Sweep => w.(cache := Cache.Fresh(w.cache, w.now))
    case Tick(later) => w.(now := w.now + later)
  }

  function Init<V(!new)>(now: int): World<V> {
    World(now, [], map[], map[], map[], map[])
  }

  predicate Live<V(!new)>(fetches: map<nat, Fetch<V>>, f: nat) {
    f in fetches && !fetches[f].stage.Removed?
  }

  /** The in-flight map names exactly the live requests, each under its own key. */
  ghost predicate InflightFits<V(!new)>(inflight: map<string, nat>, fetches: map<nat, Fetch<V>>) {
    && (forall f :: Live(fetches, f) ==> fetches[f].key in inflight && inflight[fetches[f].key] == f)
    && (forall key :: key in inflight ==> Live(fetches, inflight[key]) && fetches[inflight[key]].key == key)
  }

  /** Whoever awaits a request asked for its key. */
  predicate FateFits<V(!new)>(asked: map<nat, string>, fetches: map<nat, Fetch<V>>, call: nat, fate: Fate<V>) {
    call in asked && (fate.Awaits? ==> fate.fetch in fetches && fetches[fate.fetch].key == asked[call])
  }

  ghost predicate FatesFit<V(!new)>(fates: map<nat, Fate<V>>, asked: map<nat, string>, fetches: map<nat, Fetch<V>>) {
    forall call :: call in fates ==> FateFits(asked, fetches, call, fates[call])
  }

  ghost predicate Fits<V(!new)>(w: World<V>) {
    InflightFits(w.inflight, w.fetches) && FatesFit(w.fates, w.asked, w.fetches)
  }

  lemma StartFits<V(!new)>(inflight: map<string, nat>, fetches: map<nat, Fetch<V>>, key: string, f: nat)
    requires InflightFits(inflight, fetches) && key !in inflight && f !in fetches
    ensures InflightFits(inflight[key := f], fetches[f := Fetch(key, Running, None, 0)])
  {
  }

  lemma AnswerFits<V(!new)>(inflight: map<string, nat>, fetches: map<nat, Fetch<V>>, f: nat, data: Option<V>, at: int)
    requires InflightFits(inflight, fetches) && f in fetches && fetches[f].stage.Running?
    ensures InflightFits(inflight, fetches[f := fetches[f].(stage := Answered, answer := data, at := at)])
  {
  }

  lemma RemoveFits<V(!new)>(inflight: map<string, nat>, fetches: map<nat, Fetch<V>>, f: nat)
    requires InflightFits(inflight, fetches) && f in fetches && fetches[f].stage.Answered?
    ensures InflightFits(inflight - {fetches[f].key}, fetches[f := fetches[f].(stage := Removed)])
  {
  }

  lemma CallFits<V(!new)>(w: World<V>, call: nat, key: string, hasApiKey: bool, newFetch: nat)
    requires Fits(w) && call !in w.asked && newFetch !in w.fetches
    ensures Fits(AfterCall(w, call, key, hasApiKey, newFetch))
  {
    var v := AfterCall(w, call, key, hasApiKey, newFetch);
    if v.fetches != w.fetches {
      StartFits(w.inflight, w.fetches, key, newFetch);
    }
    hide InflightFits;
    assert key in w.inflight ==> w.inflight[key] in w.fetches && w.fetches[w.inflight[key]].key == key by {
      KnownFetch(w.inflight, w.fetches, key);
    }
    forall c | c in v.fates ensures FateFits(v.asked, v.fetches, c, v.fates[c]) {
      if c != call {
        assert FateFits(w.asked, w.fetches, c, w.fates[c]);
      }
    }
  }

  lemma KnownFetch<V(!new)>(inflight: map<string, nat>, fetches: map<nat, Fetch<V>>, key: string)
    requires InflightFits(inflight, fetches)
    ensures key in inflight ==> inflight[key] in fetches && fetches[inflight[key]].key == key
  {
  }

  lemma SameKey<V(!new)>(fates: map<nat, Fate<V>>, asked: map<nat, string>, fetches: map<nat, Fetch<V>>, f: nat,
                         fetch: Fetch<V>)
    requires FatesFit(fates, asked, fetches) && f in fetches && fetch.key == fetches[f].key
    ensures FatesFit(fates, asked, fetches[f := fetch])
  {
  }

  lemma StepFits<V(!new)>(w: World<V>, e: Event<V>)
    requires Fits(w)
    ensures Fits(Step(w, e))
  {
    hide InflightFits, FatesFit;
    match e
    case Call(call, key, hasApiKey, newFetch) =>
      if call !in w.asked && newFetch !in w.fetches {
        CallFits(w, call, key, hasApiKey, newFetch);
      }
    case Answer(f, data) =>
      if f in w.fetches && w.fetches[f].stage.Running? {
        AnswerFits(w.inflight, w.fetches, f, data, w.now);
        SameKey(w.fates, w.asked, w.fetches, f, w.fetches[f].(stage := Answered, answer := data, at := w.now));
      }
    case Remove(f) =>
      if f in w.fetches && w.fetches[f].stage.Answered? {
        RemoveFits(w.inflight, w.fetches, f);
        SameKey(w.fates, w.asked, w.fetches, f, w.fetches[f].(stage := Removed));
      }
    case Sweep =>
    case Tick(later) =>
  }

  lemma RunFits<V(!new)>(start: int, es: seq<Event<V>>)
    ensures Fits(Runs.Run(Step<V>, Init(start), es))
  {
    forall w: World<V>, e: Event<V> | Fits(w) ensures Fits(Step(w, e)) {
      StepFits(w, e);
    }
    Runs.RunKeeps(Step<V>, (w: World<V>) => Fits(w), Init(start), es);
  }

  /** Over any run at most one request for a key is in flight, and a call only ever waits for a
      request for the key it asked for. */
  lemma OneRequestPerKey<V(!new)>(start: int, es: seq<Event<V>>)
    ensures var w := Runs.Run(Step<V>, Init(start), es);
      && (forall f, g :: Live(w.fetches, f) && Live(w.fetches, g) && w.fetches[f].key == w.fetches[g].key ==> f == g)
      && (forall call :: call in w.fates ==> FateFits(w.asked, w.fetches, call, w.fates[call]))
  {
    RunFits(start, es);
  }

  predicate Asks<V(!new)>(fetches: map<nat, Fetch<V>>, f: nat, key: string) {
    Live(fetches, f) && fetches[f].key == key
  }

  /** After any run, a call that finds nothing in the cache waits for the live request of its
      key if there is one, whoever made it, and only otherwise makes one of its own. */
  lemma SharesTheLiveRequest<V(!new)>(start: int, es: seq<Event<V>>,
                                      call: nat, key: string, hasApiKey: bool, newFetch: nat)
    ensures var w := Runs.Run(Step<V>, Init(start), es);
      var v := Step(w, Call(call, key, hasApiKey, newFetch));
      call !in w.asked && newFetch !in w.fetches && Cache.Lookup(w.cache, key, w.now).None? ==>
        && (forall f :: Asks(w.fetches, f, key) ==> v.fates[call] == Awaits(f) && v.fetches == w.fetches)
        && (v.fetches != w.fetches <==> hasApiKey && forall f :: !Asks(w.fetches, f, key))
  {
    RunFits(start, es);
    var w := Runs.Run(Step<V>, Init(start), es);
    hide FatesFit;
    if key in w.inflight {
      assert Asks(w.fetches, w.inflight[key], key);
    }
    if newFetch !in w.fetches {
      assert w.fetches[newFetch := Fetch(key, Running, None, 0)] != w.fetches;
    }
  }

  // ---------------------------------------------------------------------------------------
  // Where cached answers come from
  // ---------------------------------------------------------------------------------------

  /** Request `f` for the key came back with this answer at the time `at`. */
  ghost predicate Gave<V(!new)>(w: World<V>, f: nat, key: string, data: V, at: int) {
    f in w.fetches &&
    var fetch := w.fetches[f];
    fetch.key == key && !fetch.stage.Running? && fetch.answer == Some(data) && fetch.at == at <= w.now
  }

  ghost predicate SomebodyGave<V(!new)>(w: World<V>, key: string, data: V, at: int) {
    exists f :: Gave(w, f, key, data, at)
  }

  /** The answer came back less than the time to live before the call. */
  ghost predicate Recent<V(!new)>(w: World<V>, call: nat) {
    call in w.asked && call in w.fates &&
    (w.fates[call].FromCache? ==>
       exists at :: SomebodyGave(w, w.asked[call], w.fates[call].data, at)
         && at <= w.fates[call].when < at + 5 * 60 * 1000)
  }

  ghost predicate EntryFits<V(!new)>(w: World<V>, e: Cache.Entry<V>) {
    SomebodyGave(w, e.key, e.data, e.expiry - DIRECTIONS_TTL) && e.expiry - DIRECTIONS_TTL <= w.now
  }

  ghost predicate CacheFits<V(!new)>(w: World<V>) {
    && (forall e :: e in w.cache ==> EntryFits(w, e))
    && (forall call :: call in w.fates ==> Recent(w, call))
  }

  /** No answer is forgotten or changed. */
  lemma GaveStays<V(!new)>(w: World<V>, e: Event<V>, key: string, data: V, at: int)
    requires SomebodyGave(w, key, data, at)
    ensures SomebodyGave(Step(w, e), key, data, at)
  {
    var f :| Gave(w, f, key, data, at);
    hide Cache.AfterGet, Cache.AfterSet, Cache.Fresh, Cache.Lookup;
    assert Gave(Step(w, e), f, key, data, at);
  }

  lemma RecentStays<V(!new)>(w: World<V>, e: Event<V>, call: nat)
    requires Recent(w, call)
    ensures var v := Step(w, e);
      call in v.asked && call in v.fates && v.asked[call] == w.asked[call] && v.fates[call] == w.fates[call] ==>
        Recent(v, call)
  {
    if w.fates[call].FromCache? {
      var at :| SomebodyGave(w, w.asked[call], w.fates[call].data, at)
        && at <= w.fates[call].when < at + DIRECTIONS_TTL;
      GaveStays(w, e, w.asked[call], w.fates[call].data, at);
    }
  }

  lemma NewCallRecent<V(!new)>(w: World<V>, e: Event<V>)
    requires CacheFits(w) && e.Call? && e.call !in w.asked && e.newFetch !in w.fetches
    ensures Recent(Step(w, e), e.call)
  {
    var v := Step(w, e);
    hide Cache.AfterGet;
    if Cache.Lookup(w.cache, e.key, w.now).Some? {
      var hit := Cache.Find(w.cache, e.key).value;
      var at := hit.expiry - DIRECTIONS_TTL;
      assert EntryFits(w, hit);
      GaveStays(w, e, e.key, hit.data, at);
      assert v.asked[e.call] == e.key && v.fates[e.call] == FromCache(hit.data, w.now);
      assert at <= w.now < at + DIRECTIONS_TTL;
    } else {
      hide Cache.Lookup;
    }
  }

  lemma CallAddsOne<V(!new)>(w: World<V>, e: Event<V>)
    requires e.Call?
    ensures var v := Step(w, e);
      && (forall entry :: entry in v.cache ==> entry in w.cache)
      && (forall call :: call in v.fates && call !in w.fates ==>
            call == e.call && call !in w.asked && e.newFetch !in w.fetches)
  {
    hide Cache.Lookup, Cache.Find, Cache.Delete;
  }

  lemma CallCacheFits<V(!new)>(w: World<V>, e: Event<V>)
    requires CacheFits(w) && e.Call?
    ensures var v := Step(w, e);
      && (forall entry :: entry in v.cache ==> entry in w.cache)
      && (forall call :: call in v.fates && call !in w.fates ==> Recent(v, call))
  {
    CallAddsOne(w, e);
    if e.call !in w.asked && e.newFetch !in w.fetches {
      NewCallRecent(w, e);
    }
    hide Step, Recent, CacheFits;
  }

  /** Nothing but a successful answer puts an entry into the cache. */
  lemma AnswerCacheFits<V(!new)>(w: World<V>, e: Event<V>)
    requires !e.Call?
    ensures var v := Step(w, e);
      && v.fates == w.fates && v.asked == w.asked
      && (forall entry :: entry in v.cache && entry !in w.cache ==> EntryFits(v, entry))
  {
    var v := Step(w, e);
    if e.Answer? && e.fetch in w.fetches && w.fetches[e.fetch].stage.Running? && e.data.Some? {
      assert Gave(v, e.fetch, w.fetches[e.fetch].key, e.data.value, w.now);
    }
  }

  lemma StepCacheFits<V(!new)>(w: World<V>, e: Event<V>)
    requires CacheFits(w)
    ensures CacheFits(Step(w, e))
  {
    var v := Step(w, e);
    assert v.now >= w.now;
    if e.Call? {
      CallCacheFits(w, e);
    } else {
      AnswerCacheFits(w, e);
    }
    hide Step, Recent;
    forall entry | entry in v.cache ensures EntryFits(v, entry) {
      if entry in w.cache {
        GaveStays(w, e, entry.key, entry.data, entry.expiry - DIRECTIONS_TTL);
      }
    }
    forall call | call in v.fates ensures Recent(v, call) {
      if call in w.fates {
        assert call in v.asked && v.asked[call] == w.asked[call] && v.fates[call] == w.fates[call] by {
          FatesStay(w, e, call);
        }
        RecentStays(w, e, call);
      }
    }
  }

  lemma FatesStay<V(!new)>(w: World<V>, e: Event<V>, call: nat)
    requires CacheFits(w) && call in w.fates
    ensures var v := Step(w, e);
      && call in w.asked && call in v.asked && call in v.fates
      && v.asked[call] == w.asked[call] && v.fates[call] == w.fates[call]
  {
    assert Recent(w, call);
  }

  /** Over any run, a call answered from the cache got what some request for its own key came
      back with less than five minutes before. */
  lemma CachedAnswersAreRecent<V(!new)>(start: int, es: seq<Event<V>>)
    ensures var w := Runs.Run(Step<V>, Init(start), es);
      forall call :: call in w.fates ==> Recent(w, call)
  {
    forall w: World<V>, e: Event<V> | CacheFits(w) ensures CacheFits(Step(w, e)) {
      StepCacheFits(w, e);
    }
    Runs.RunKeeps(Step<V>, (w: World<V>) => CacheFits(w), Init(start), es);
  }

  /** An answer serves the calls of the next five minutes: one made within that time, with
      nothing in between, is answered from the cache and starts no request. */
  lemma AnswerServesNext<V(!new)>(w: World<V>, f: nat, data: V, later: nat, call: nat, hasApiKey: bool, newFetch: nat)
    requires f in w.fetches && w.fetches[f].stage.Running?
    requires call !in w.asked && newFetch !in w.fetches && later < 5 * 60 * 1000
    ensures var answered := Step(w, Answer(f, Some(data)));
      var v := Step(Step(answered, Tick(later)), Call(call, w.fetches[f].key, hasApiKey, newFetch));
      && call in v.fates && v.fates[call] == FromCache(data, w.now + later)
      && v.fetches == answered.fetches
  {
    var key := w.fetches[f].key;
    Cache.LiveAfterSet(w.cache, key, data, DIRECTIONS_TTL, w.now, key);
    hide Cache.AfterSet, Cache.AfterGet;
  }

  /** A request that failed leaves the cache alone. */
  lemma FailureNotCached<V(!new)>(w: World<V>, f: nat)
    ensures Step(w, Answer(f, None)).cache == w.cache
  {
  }

  // ---------------------------------------------------------------------------------------
  // The service: a lookup, cut at its two awaits
  // ---------------------------------------------------------------------------------------

  class DistanceService<V(!new)> {
    var now: int
    var entries: seq<Cache.Entry<V>>
    var inflight: map<string, nat>
    var fetches: map<nat, Fetch<V>>
    var fates: map<nat, Fate<V>>
    var asked: map<nat, string>

    ghost function State(): World<V>
      reads this
    {
      World(now, entries, inflight, fetches, fates, asked)
    }

    /** From the call to its first await or its return. */
    method GetDistanceMatrix(call: nat, key: string, hasApiKey: bool, newFetch: nat) returns (fate: Fate<V>)
      requires call !in asked && newFetch !in fetches
      modifies this
      ensures State() == Step(old(State()), Call(call, key, hasApiKey, newFetch))
      ensures call in fates && fates[call] == fate
    {
      var hit := Cache.Lookup(entries, key, now);
      entries := Cache.AfterGet(entries, key, now);
      asked := asked[call := key];
      if hit.Some? {
        fate := FromCache(hit.value, now);
      } else if key in inflight {
        fate := Awaits(inflight[key]);
      } else if !hasApiKey {
        fate := Estimated;
      } else {
        fate := Awaits(newFetch);
        fetches := fetches[newFetch := Fetch(key, Running, None, 0)];
        inflight := inflight[key := newFetch];
      }
      fates := fates[call := fate];
    }

    /** The request ends; a success is cached before anybody resumes. */
    method FetchDirections(f: nat, data: Option<V>)
      requires f in fetches && fetches[f].stage.Running?
      modifies this
      ensures State() == Step(old(State()), Answer(f, data))
    {
      fetches := fetches[f := fetches[f].(stage := Answered, answer := data, at := now)];
      if data.Some? {
        entries := Cache.AfterSet(entries, fetches[f].key, data.value, DIRECTIONS_TTL, now);
      }
    }

    /** The finally block of the call that started the request. */
    method RemoveInflight(f: nat)
      requires f in fetches && fetches[f].stage.Answered?
      modifies this
      ensures State() == Step(old(State()), Remove(f))
    {
      inflight := inflight - {fetches[f].key};
      fetches := fetches[f := fetches[f].(stage := Removed)];
    }
  }
}
