/** Whether two scans of the stale updater can refresh one key at the same time (cache/stale_updater.go). */
module OverlappingRefreshes {
  import opened Options
  import opened Machine
  import opened Finite
  import opened Dns
  import opened CacheTtl
  import opened CacheState
  import opened CacheSystem
  import opened StaleUpdates
  import opened AccessTracking

  /** Two refreshes of one key are under way. */
  ghost predicate Overlap(s: State) {
    exists t, u :: t in s.procs && u in s.procs && SameRefresh(s.procs[t], s.procs[u]) && t != u
  }

  ghost predicate SameRefresh(p: Proc, q: Proc) {
    IsRefresh(p) && IsRefresh(q) && p != RefreshEnding && q != RefreshEnding && p.key == q.key
  }

  /** The cache holds the key's entry, no scan is going on, and the key has one tracked object. */
  ghost predicate Ready(s: State, key: string) {
    && key in s.cache && Live(s.cache[key], s.now)
    && s.scanner == Resting && s.settings.staleUpdater
    && key in s.tracker && s.tracker[key] < |s.objects|
  }

  ghost predicate SameState(s: State, s': State) {
    && s'.lib == s.lib && s'.settings == s.settings && s'.now == s.now && s'.cache == s.cache
    && s'.scanner == s.scanner && s'.tracker == s.tracker
  }

  /** One more hit on a tracked key. */
  lemma Hit(start: State, before: seq<Event>, s: State, t: nat, domain: string, qtype: Uint16)
    returns (events: seq<Event>, s': State)
    requires Exec(Step, start, before) == Some(s) && Ready(s, Key(s.lib, domain, qtype)) && t !in s.procs
    ensures Exec(Step, start, events) == Some(s') && SameState(s, s') && s'.procs == s.procs
    ensures s'.tokens == s.tokens && |s'.objects| == |s.objects|
    ensures var i := s.tracker[Key(s.lib, domain, qtype)];
            s'.objects[i].info.count == s.objects[i].info.count + 1
  {
    hide Key, Live, Exec, TrackStep;
    events, s' := Extend(Step, start, before, s, Query(t, domain, qtype));
    events, s' := Extend(Step, start, events, s', Look(t));
    hide Step;
    events, s' := Track(start, events, s', t);
  }

  /** A served hit on a tracked key is counted. */
  lemma Track(start: State, before: seq<Event>, s: State, t: nat) returns (events: seq<Event>, s': State)
    requires Exec(Step, start, before) == Some(s) && t in s.procs && s.procs[t].Tracking?
    requires s.procs[t].key in s.tracker && s.tracker[s.procs[t].key] < |s.objects|
    ensures Exec(Step, start, events) == Some(s') && SameState(s, s') && s'.procs == s.procs - {t}
    ensures s'.tokens == s.tokens && |s'.objects| == |s.objects|
    ensures var i := s.tracker[s.procs[t].key]; s'.objects[i].info.count == s.objects[i].info.count + 1
  {
    hide Exec, QueryStep, RefreshStep, ScanStep, SaveStep, LoadStep;
    events, s' := Extend(Step, start, before, s, TrackLoad(t));
    events, s' := Extend(Step, start, events, s', TrackAdd(t));
    events, s' := Extend(Step, start, events, s', TrackStamp(t));
  }

  /** Hits until the key has been seen n times. */
  lemma {:induction false} Hits(start: State, before: seq<Event>, s: State, t: nat, domain: string, qtype: Uint16,
                                n: int)
    returns (events: seq<Event>, s': State)
    requires Exec(Step, start, before) == Some(s) && Ready(s, Key(s.lib, domain, qtype)) && t !in s.procs
    ensures Exec(Step, start, events) == Some(s') && SameState(s, s') && s'.procs == s.procs
    ensures s'.tokens == s.tokens && |s'.objects| == |s.objects|
    ensures s'.objects[s.tracker[Key(s.lib, domain, qtype)]].info.count >= n
    decreases n - s.objects[s.tracker[Key(s.lib, domain, qtype)]].info.count
  {
    hide Key, Live, Exec, Step;
    if s.objects[s.tracker[Key(s.lib, domain, qtype)]].info.count >= n {
      events, s' := before, s;
    } else {
      events, s' := Hit(start, before, s, t, domain, qtype);
      events, s' := Hits(start, events, s', t, domain, qtype, n);
    }
  }

  /** The first half of a scan finds the key. */
  lemma ScanFinds(start: State, before: seq<Event>, s: State, key: string)
    returns (events: seq<Event>, s': State, seen: Seen)
    requires Exec(Step, start, before) == Some(s) && Ready(s, key)
    requires s.objects[s.tracker[key]].info.count >= s.settings.minAccessCount
    ensures Exec(Step, start, events) == Some(s') && seen.key == key && s'.scanner == Selecting([seen])
    ensures SameState(s, s'.(scanner := s.scanner)) && s'.objects == s.objects
    ensures s'.tokens == s.tokens && s'.procs == s.procs
  {
    hide Live, LiveItems, Exec;
    events, s' := Extend(Step, start, before, s, ScanStart);
    events, s' := Extend(Step, start, events, s', CleanEnd);
    events, s' := Extend(Step, start, events, s', CountKey(key));
    seen := Seen(key, s.tracker[key], s.objects[s.tracker[key]].info.count);
    assert s'.scanner == Counting({} + {key}, [] + [seen]);
    events, s' := Extend(Step, start, events, s', CountEnd);
  }

  /** A scan that starts a refresh of the key. */
  lemma Scan(start: State, before: seq<Event>, s: State, t: nat, key: string)
    returns (events: seq<Event>, s': State)
    requires Exec(Step, start, before) == Some(s) && Ready(s, key) && t !in s.procs
    requires s.objects[s.tracker[key]].info.count >= s.settings.minAccessCount
    requires s.cache[key].expiration > 0 && 0 < s.cache[key].expiration - s.now <= s.settings.staleThreshold
    requires s.tokens < s.settings.maxConcurrent
    ensures Exec(Step, start, events) == Some(s') && SameState(s, s') && s'.objects == s.objects
    ensures s'.tokens == s.tokens + 1 && s'.procs == s.procs[t := RefreshLooking(key)]
  {
    hide Live, Exec;
    var seen;
    events, s', seen := ScanFinds(start, before, s, key);
    assert s'.scanner.todo == [seen] && [seen][1..] == [];
    events, s' := Extend(Step, start, events, s', SelectLook);
    assert s'.scanner == Deciding(seen, s.cache[key].expiration, []);
    events, s' := Extend(Step, start, events, s', SelectDecide(t));
    events, s' := Extend(Step, start, events, s', SelectEnd);
  }

  /** A run to a key about to expire that has been seen often enough. */
  lemma HotKey(lib: Library, settings: Settings, now: int, domain: string, qtype: Uint16)
    returns (events: seq<Event>, s: State)
    requires Validated(settings) && settings.staleUpdater && 0 <= now
    ensures Exec(Step, Init(lib, settings, now), events) == Some(s)
    ensures s.lib == lib && s.settings == settings && s.procs == map[] && s.tokens == 0
    ensures var key := Key(lib, domain, qtype);
            && Ready(s, key) && s.objects[s.tracker[key]].info.count >= settings.minAccessCount
            && s.cache[key].expiration > 0 && s.cache[key].expiration - s.now == 1
  {
    var start, key := Init(lib, settings, now), Key(lib, domain, qtype);
    var life := settings.defaultTtl / NEGATIVE_RESPONSE_TTL_DIVISOR;
    assert Exec(Step, start, []) == Some(start);
    hide Key, Exec;
    events, s := AnsweredQuery(start, [], start, 0, domain, qtype);
    events, s := HitMissesTracker(start, events, s, 0, domain, qtype);
    events, s := Extend(Step, start, events, s, TrackInsert(0));
    assert s.procs == map[];
    events, s := Hits(start, events, s, 0, domain, qtype, settings.minAccessCount);
    events, s := Extend(Step, start, events, s, Elapse(life - 1));
  }

  /** Two scans in a row find the key hot, and the second does not wait for the first one's refresh. */
  lemma OverlapPossible(lib: Library, settings: Settings, now: int, domain: string, qtype: Uint16) returns (s: State)
    requires Validated(settings) && settings.staleUpdater && 0 <= now && settings.maxConcurrent >= 2
    ensures Reachable(Step, Init(lib, settings, now), s) && Overlap(s)
  {
    var start, key := Init(lib, settings, now), Key(lib, domain, qtype);
    hide Key, Step, Exec, Live;
    var events: seq<Event>;
    events, s := HotKey(lib, settings, now, domain, qtype);
    events, s := Scan(start, events, s, 1, key);
    events, s := Scan(start, events, s, 2, key);
    assert SameRefresh(s.procs[1], s.procs[2]);
  }

  lemma OverlapNeedsTwoTokens(lib: Library, settings: Settings, now: int, s: State)
    requires Reachable(Step, Init(lib, settings, now), s) && Overlap(s)
    ensures settings.maxConcurrent >= 2
  {
    var t, u :| t in s.procs && u in s.procs && SameRefresh(s.procs[t], s.procs[u]) && t != u;
    RefreshesBounded(lib, settings, now, s, t);
    assert {t, u} <= Refreshers(s.procs);
    SubsetCardinality({t, u}, Refreshers(s.procs));
    assert |{t, u}| == 2;
  }

  /** Refreshes of one key can overlap exactly when the semaphore lets two refreshes run at all: nothing else keeps the
      updater from starting a second one. */
  lemma OverlapIff(lib: Library, settings: Settings, now: int)
    requires Validated(settings) && settings.staleUpdater && 0 <= now
    ensures (exists s :: Reachable(Step, Init(lib, settings, now), s) && Overlap(s)) <==> settings.maxConcurrent >= 2
  {
    if settings.maxConcurrent >= 2 {
      var s := OverlapPossible(lib, settings, now, "", 1);
    } else if s :| Reachable(Step, Init(lib, settings, now), s) && Overlap(s) {
      OverlapNeedsTwoTokens(lib, settings, now, s);
    }
  }
}
