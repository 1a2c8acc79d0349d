/** The cache code as it runs on the heap when nothing interleaves with it (cache/cache.go, cache/access_tracker.go,
    cache/stale_updater.go), and its agreement with the cache system. */
module CacheResolver {
  import opened Options
  import opened Machine
  import opened Finite
  import opened Dns
  import opened CacheKeys
  import opened CacheTtl
  import opened CacheState
  import opened CacheSystem
  import opened Persistence
  import opened SnapshotRoundTrip

  /** The tracker after one access. */
  function Tracked(tracked: map<string, Info>, key: string, domain: string, qtype: Uint16, now: int)
    : map<string, Info>
  {
    if key in tracked then
      tracked[key := tracked[key].(count := tracked[key].count + 1, lastAccess := now)]
    else
      tracked[key := Info(domain, qtype, 1, now, now)]
  }

  method TrackAccess(store: Store, key: string, domain: string, qtype: Uint16, now: int)
    modifies store`tracked
    ensures store.tracked == Tracked(old(store.tracked), key, domain, qtype, now)
    ensures store.tracked.Keys == old(store.tracked).Keys + {key}
    ensures forall k :: k in old(store.tracked) && k != key ==> store.tracked[k] == old(store.tracked)[k]
    ensures store.tracked[key].lastAccess == now
    ensures if key in old(store.tracked) then
              store.tracked[key].count == old(store.tracked)[key].count + 1
              && store.tracked[key].firstAccess == old(store.tracked)[key].firstAccess
              && store.tracked[key].domain == old(store.tracked)[key].domain
              && store.tracked[key].qtype == old(store.tracked)[key].qtype
            else
              store.tracked[key].count == 1 && store.tracked[key].firstAccess == now
              && store.tracked[key].domain == domain && store.tracked[key].qtype == qtype
  {
    if key in store.tracked {
      var info := store.tracked[key];
      store.tracked := store.tracked[key := info.(count := info.count + 1, lastAccess := now)];
    } else {
      store.tracked := store.tracked[key := Info(domain, qtype, 1, now, now)];
    }
  }

  /** Stores an answer; the cache shares the resolver's slice. */
  method SetAnswers(store: Store, key: string, answers: array<RR>, answer: Answer, now: int)
    requires store.Valid() && answers !in store.records.free && answers[..] == answer.records
    modifies store`items
    ensures store.Valid()
    ensures store.Cache()
            == old(store.Cache())[key := Item(answer.records, now + FillTtl(store.settings.defaultTtl, answer.records),
                                              answer, now, 0, 0)]
    ensures key in store.items && store.items[key].answers == answers
  {
    var ttl;
    if answers.Length == 0 {
      ttl := store.settings.defaultTtl / NEGATIVE_RESPONSE_TTL_DIVISOR;
    } else {
      ttl := CalculateTTL(store.settings.defaultTtl, answers[..]);
    }
    hide AnswerTtl;
    store.items := store.items[key := Held(answers, now + ttl, answer, now, 0, 0)];
  }

  /** What one query does, and the records it returns. */
  datatype Outcome = Outcome(answers: seq<RR>, cache: map<string, Item>, tracked: map<string, Info>)

  function QueryOutcome(lib: Library, settings: Settings, cache: map<string, Item>, tracked: map<string, Info>,
                        domain: string, qtype: Uint16, now: int, records: seq<RR>, filledAt: int): Outcome {
    var key := Key(lib, domain, qtype);
    if key in cache && Live(cache[key], now) then
      Outcome(cache[key].answers, cache,
              if settings.staleUpdater then Tracked(tracked, key, domain, qtype, now) else tracked)
    else
      Outcome(records,
              cache[key := Item(records, filledAt + FillTtl(settings.defaultTtl, records),
                                Answer(domain, qtype, records), filledAt, 0, 0)],
              tracked)
  }

  /** Serves a query from the cache, or with what the resolver returns, which is then cached. */
  method ResolverWithCache(store: Store, domain: string, qtype: Uint16, now: int, resolved: array<RR>, filledAt: int)
    returns (answers: array<RR>)
    requires store.Valid() && resolved !in store.records.free
    modifies store`items, store`tracked
    ensures store.Valid()
    ensures Outcome(answers[..], store.Cache(), store.tracked)
            == QueryOutcome(store.lib, store.settings, old(store.Cache()), old(store.tracked), domain, qtype, now,
                            resolved[..], filledAt)
    ensures answers !in store.records.free
    ensures var key, before := Key(store.lib, domain, qtype), old(store.Cache());
            if key in before && (before[key].expiration <= 0 || now <= before[key].expiration) then
              answers[..] == before[key].answers && store.Cache() == before
            else
              && answers == resolved && store.tracked == old(store.tracked)
              && store.Cache().Keys == before.Keys + {key} && store.Cache()[key].answers == resolved[..]
              && LivesFor(store.settings.defaultTtl, resolved[..], store.Cache()[key].expiration - filledAt)
              && forall k :: k in before && k != key ==> store.Cache()[k] == before[k]
  {
    var key := Key(store.lib, domain, qtype);
    FillTtlMeans(store.settings.defaultTtl, resolved[..]);
    hide FillTtl, LivesFor, Tracked, CacheKey;
    if key in store.items && Live(Read(store.items[key]), now) {
      answers := store.items[key].answers;
      if store.settings.staleUpdater { TrackAccess(store, key, domain, qtype, now); }
    } else {
      answers := resolved;
      SetAnswers(store, key, answers, Answer(domain, qtype, answers[..]), filledAt);
    }
  }

  /** Forgets the keys that are no longer in the cache. */
  method CleanupExpiredEntries(store: Store, now: int)
    modifies store`tracked
    ensures store.tracked
            == map k | k in old(store.tracked) && k in LiveItems(store.Cache(), now) :: old(store.tracked)[k]
  {
    var present := LiveItems(store.Cache(), now).Keys;
    ghost var before := store.tracked;
    var todo := store.tracked.Keys;
    while todo != {}
      invariant todo <= before.Keys && store.tracked.Keys <= before.Keys
      invariant forall k :: k in before ==> (k in store.tracked <==> k in todo || k in present)
      invariant forall k :: k in store.tracked ==> store.tracked[k] == before[k]
    {
      var key :| key in todo;
      todo := todo - {key};
      if key !in present { store.tracked := store.tracked - {key}; }
    }
  }

  /** The keys seen often enough, each once, in whatever order the map is visited. */
  method GetFrequentlyAccessed(store: Store, minCount: int) returns (keys: seq<string>)
    ensures Distinct(keys)
    ensures forall k :: k in keys <==> k in store.tracked && store.tracked[k].count >= minCount
  {
    keys := [];
    var todo := store.tracked.Keys;
    while todo != {}
      invariant todo <= store.tracked.Keys && Distinct(keys)
      invariant forall k :: k in keys <==> k in store.tracked && k !in todo && store.tracked[k].count >= minCount
    {
      var key :| key in todo;
      todo := todo - {key};
      if store.tracked[key].count >= minCount {
        DistinctSnoc(keys, key);
        keys := keys + [key];
      }
    }
  }

  /** A key that a scan should refresh: seen often enough, with an entry that is unexpired by at most the threshold. */
  ghost predicate Due(settings: Settings, tracked: map<string, Info>, cache: map<string, Item>, now: int, key: string) {
    && key in tracked && tracked[key].count >= settings.minAccessCount
    && key in cache && 0 < cache[key].expiration && 0 < cache[key].expiration - now <= settings.staleThreshold
  }

  /** One scan of the stale updater while no refresh ends: which refreshes it starts with `tokens` of the semaphore
      taken. They are due, each once, and no more than there are tokens; if tokens are left, every due key has one. */
  method UpdateStaleEntries(store: Store, now: int, tokens: nat) returns (refreshed: seq<string>)
    requires tokens <= store.settings.maxConcurrent
    modifies store`tracked
    ensures store.Cache() == old(store.Cache())
    ensures forall k :: k in refreshed ==> Due(store.settings, old(store.tracked), store.Cache(), now, k)
    ensures Distinct(refreshed) && tokens + |refreshed| <= store.settings.maxConcurrent
    ensures tokens + |refreshed| < store.settings.maxConcurrent ==>
              forall k :: Due(store.settings, old(store.tracked), store.Cache(), now, k) ==> k in refreshed
  {
    ghost var before := store.tracked;
    CleanupExpiredEntries(store, now);
    var keys := GetFrequentlyAccessed(store, store.settings.minAccessCount);
    DueKeysAreFrequent(store, before, now, keys);
    refreshed := SelectStale(store, before, now, keys, store.settings.maxConcurrent - tokens);
    hide Due;
  }

  /** The due ones of the keys looked at, each once; all of them unless there is no room. */
  ghost predicate Picked(refreshed: seq<string>, seen: seq<string>, due: set<string>, room: nat) {
    && Distinct(refreshed) && |refreshed| <= room
    && (forall k :: k in refreshed ==> k in seen && k in due)
    && (|refreshed| < room ==> forall k :: k in seen && k in due ==> k in refreshed)
  }

  lemma PickNext(refreshed: seq<string>, seen: seq<string>, due: set<string>, room: nat, key: string)
    requires Picked(refreshed, seen, due, room) && key !in seen
    ensures Picked(if key in due && |refreshed| < room then refreshed + [key] else refreshed, seen + [key], due, room)
  {
    if key in due && |refreshed| < room { DistinctSnoc(refreshed, key); }
  }

  ghost function DueOf(store: Store, before: map<string, Info>, now: int, keys: seq<string>): set<string>
    reads store, set k | k in store.items :: store.items[k].answers
  {
    set k | k in keys && Due(store.settings, before, store.Cache(), now, k)
  }

  method SelectStale(store: Store, ghost before: map<string, Info>, now: int, keys: seq<string>, room: nat)
    returns (refreshed: seq<string>)
    requires Distinct(keys) && forall k :: k in keys ==> k in before && before[k].count >= store.settings.minAccessCount
    ensures Picked(refreshed, keys, DueOf(store, before, now, keys), room)
  {
    refreshed := [];
    ghost var due := DueOf(store, before, now, keys);
    ghost var cache := store.Cache();
    hide Picked, Due;
    NothingPicked(due, room);
    for i := 0 to |keys|
      invariant |refreshed| <= room && Picked(refreshed, keys[..i], due, room)
      invariant store.Cache() == cache
    {
      assert keys[..i + 1] == keys[..i] + [keys[i]] && keys[i] in keys;
      PickNext(refreshed, keys[..i], due, room, keys[i]);
      PickedFits(refreshed, keys[..i], due, room);
      var stale := IsStale(store, before, now, keys[i]);
      assert stale <==> keys[i] in due;
      if stale && |refreshed| < room { refreshed := refreshed + [keys[i]]; }
    }
    assert keys[..|keys|] == keys && store.Cache() == cache;
  }

  lemma NothingPicked(due: set<string>, room: nat)
    ensures Picked([], [], due, room)
  {
  }

  lemma PickedFits(refreshed: seq<string>, seen: seq<string>, due: set<string>, room: nat)
    requires Picked(refreshed, seen, due, room)
    ensures |refreshed| <= room
  {
  }

  lemma DueKeysAreFrequent(store: Store, before: map<string, Info>, now: int, keys: seq<string>)
    requires store.tracked == map k | k in before && k in LiveItems(store.Cache(), now) :: before[k]
    requires forall k :: k in keys <==> k in store.tracked && store.tracked[k].count >= store.settings.minAccessCount
    ensures forall k :: Due(store.settings, before, store.Cache(), now, k) ==> k in keys
    ensures forall k :: k in keys ==> k in before && before[k].count >= store.settings.minAccessCount
  {
  }

  /** Whether the entry of a frequent key is about to expire. */
  method IsStale(store: Store, ghost before: map<string, Info>, now: int, key: string) returns (stale: bool)
    requires key in before && before[key].count >= store.settings.minAccessCount
    ensures stale <==> Due(store.settings, before, store.Cache(), now, key)
  {
    stale := false;
    if key in store.items && Live(Read(store.items[key]), now) && store.items[key].expiration > 0 {
      var left := store.items[key].expiration - now;
      stale := left <= store.settings.staleThreshold && left > 0;
    }
  }

  /** Every tracked key has an object of its own. */
  ghost predicate OwnObjects(s: State) {
    forall k :: k in s.tracker ==> s.tracker[k] < |s.objects| && s.objects[s.tracker[k]].key == k
  }

  /** A query that runs undisturbed in the cache system, with time d passing while it resolves, ends in the outcome of
      ResolverWithCache: the same cache and tracker, and the same records served from the cache or resolved. */
  lemma QueryAgrees(s: State, t: nat, domain: string, qtype: Uint16, d: nat, records: seq<RR>)
    returns (events: seq<Event>, s': State)
    requires t !in s.procs && OwnObjects(s)
    ensures Exec(Step, s, events) == Some(s') && s'.procs == s.procs && OwnObjects(s')
    ensures var o := QueryOutcome(s.lib, s.settings, s.cache, TrackedOf(s), domain, qtype, s.now, records, s.now + d);
            && s'.cache == o.cache && TrackedOf(s') == o.tracked
            && var key := Key(s.lib, domain, qtype);
            if key in s.cache && Live(s.cache[key], s.now) then
              && s'.served == s.served + {Served(domain, qtype, o.answers, s.now, s.cache[key])}
              && s'.resolved == s.resolved
            else
              s'.served == s.served && s'.resolved == s.resolved + {Answer(domain, qtype, o.answers)}
  {
    var key := Key(s.lib, domain, qtype);
    hide Key, Live, Step, Exec, Tracked, FillTtl;
    if key in s.cache && Live(s.cache[key], s.now) {
      events, s' := HitAgrees(s, t, domain, qtype);
    } else {
      events, s' := MissAgrees(s, t, domain, qtype, d, records);
    }
  }

  lemma MissAgrees(s: State, t: nat, domain: string, qtype: Uint16, d: nat, records: seq<RR>)
    returns (events: seq<Event>, s': State)
    requires t !in s.procs
    requires var key := Key(s.lib, domain, qtype); !(key in s.cache && Live(s.cache[key], s.now))
    ensures Exec(Step, s, events) == Some(s') && s'.procs == s.procs
    ensures s'.tracker == s.tracker && s'.objects == s.objects
    ensures var answer := Answer(domain, qtype, records);
            && s'.served == s.served && s'.resolved == s.resolved + {answer}
            && s'.cache == s.cache[Key(s.lib, domain, qtype) :=
                                  Item(records, s.now + d + FillTtl(s.settings.defaultTtl, records), answer,
                                       s.now + d, 0, 0)]
  {
    hide Key, FillTtl, Exec, TrackStep, RefreshStep, ScanStep, SaveStep, LoadStep;
    EmptyRun(s);
    events, s' := Extend(Step, s, [], s, Query(t, domain, qtype));
    events, s' := Extend(Step, s, events, s', Look(t));
    events, s' := Extend(Step, s, events, s', Resolve(t, records));
    events, s' := Extend(Step, s, events, s', Elapse(d));
    events, s' := Extend(Step, s, events, s', Fill(t));
  }

  lemma EmptyRun(s: State)
    ensures Exec(Step, s, []) == Some(s)
  {
  }

  lemma HitAgrees(s: State, t: nat, domain: string, qtype: Uint16) returns (events: seq<Event>, s': State)
    requires t !in s.procs && OwnObjects(s)
    requires var key := Key(s.lib, domain, qtype); key in s.cache && Live(s.cache[key], s.now)
    ensures Exec(Step, s, events) == Some(s') && s'.procs == s.procs && OwnObjects(s') && s'.cache == s.cache
    ensures var item := s.cache[Key(s.lib, domain, qtype)];
            s'.served == s.served + {Served(domain, qtype, item.answers, s.now, item)}
    ensures s'.resolved == s.resolved
    ensures TrackedOf(s') == if s.settings.staleUpdater
                             then Tracked(TrackedOf(s), Key(s.lib, domain, qtype), domain, qtype, s.now)
                             else TrackedOf(s)
  {
    hide Key, Live, Exec, Tracked;
    EmptyRun(s);
    events, s' := Extend(Step, s, [], s, Query(t, domain, qtype));
    events, s' := Extend(Step, s, events, s', Look(t));
    assert TrackedOf(s') == TrackedOf(s);
    if s.settings.staleUpdater {
      hide Step;
      events, s' := TrackingAgrees(s, events, s', t);
    }
  }

  lemma TrackingAgrees(start: State, before: seq<Event>, s: State, t: nat) returns (events: seq<Event>, s': State)
    requires Exec(Step, start, before) == Some(s) && OwnObjects(s) && t in s.procs && s.procs[t].Tracking?
    ensures Exec(Step, start, events) == Some(s') && OwnObjects(s')
    ensures s'.cache == s.cache && s'.procs == s.procs - {t} && s'.served == s.served && s'.resolved == s.resolved
    ensures var p := s.procs[t]; TrackedOf(s') == Tracked(TrackedOf(s), p.key, p.domain, p.qtype, s.now)
  {
    hide Exec, QueryStep, RefreshStep, ScanStep, SaveStep, LoadStep;
    var p := s.procs[t];
    events, s' := Extend(Step, start, before, s, TrackLoad(t));
    if p.key in s.tracker {
      events, s' := Extend(Step, start, events, s', TrackAdd(t));
      events, s' := Extend(Step, start, events, s', TrackStamp(t));
      var i := s.tracker[p.key];
      assert s'.tracker == s.tracker && s'.objects == s.objects[i := s'.objects[i]];
      hide Step;
      ObjectChanged(s, s', p.key);
    } else {
      events, s' := Extend(Step, start, events, s', TrackInsert(t));
      assert s'.tracker == s.tracker[p.key := |s.objects|];
      assert s'.objects == s.objects + [s'.objects[|s.objects|]];
      hide Step;
      ObjectAdded(s, s', p.key);
    }
  }

  lemma ObjectChanged(s: State, s': State, key: string)
    requires OwnObjects(s) && key in s.tracker && s'.tracker == s.tracker
    requires |s'.objects| == |s.objects| && s'.objects == s.objects[s.tracker[key] := s'.objects[s.tracker[key]]]
    requires s'.objects[s.tracker[key]].key == key
    ensures OwnObjects(s') && TrackedOf(s') == TrackedOf(s)[key := s'.objects[s.tracker[key]].info]
  {
  }

  lemma ObjectAdded(s: State, s': State, key: string)
    requires OwnObjects(s) && key !in s.tracker && s'.tracker == s.tracker[key := |s.objects|]
    requires |s'.objects| == |s.objects| + 1 && s'.objects == s.objects + [s'.objects[|s.objects|]]
    requires s'.objects[|s.objects|].key == key
    ensures OwnObjects(s') && TrackedOf(s') == TrackedOf(s)[key := s'.objects[|s.objects|].info]
  {
  }
}
