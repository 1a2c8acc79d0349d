/** What a snapshot that is saved and loaded back restores, and how the sequential code and the cache system agree. */
module SnapshotRoundTrip {
  import opened Options
  import opened Machine
  import opened Finite
  import opened CacheState
  import opened CacheSystem
  import opened Persistence

  ghost predicate DistinctEntries(entries: seq<Entry>) {
    forall i, j :: 0 <= i < j < |entries| ==> entries[i].key != entries[j].key
  }

  ghost predicate SavedFrom(lib: Library, settings: Settings, items: map<string, Item>, tracked: map<string, Info>,
                            entry: Entry, now: int) {
    && entry.key in items && Live(items[entry.key], now)
    && entry == EntryOf(lib, entry.key, items[entry.key], AccessIn(settings, tracked, entry.key))
  }

  ghost predicate HasEntry(entries: seq<Entry>, key: string) {
    exists i :: 0 <= i < |entries| && entries[i].key == key
  }

  /** The snapshot has one entry for each item that is live when the snapshot is taken, and no other. */
  lemma {:induction false} SavedExactlyTheLive(lib: Library, settings: Settings, items: map<string, Item>,
                                               tracked: map<string, Info>, order: seq<string>, now: int)
    requires Distinct(order) && forall i :: 0 <= i < |order| ==> order[i] in items
    ensures var entries := SavedEntries(lib, settings, items, tracked, order, now);
            && DistinctEntries(entries)
            && (forall i :: 0 <= i < |entries| ==>
                  SavedFrom(lib, settings, items, tracked, entries[i], now) && entries[i].key in order)
            && (forall i :: 0 <= i < |order| && Live(items[order[i]], now) ==> HasEntry(entries, order[i]))
  {
    if order != [] {
      var front, key := order[..|order| - 1], order[|order| - 1];
      SavedExactlyTheLive(lib, settings, items, tracked, front, now);
      hide EntryOf, Live, AccessIn;
      var before := SavedEntries(lib, settings, items, tracked, front, now);
      var entries := SavedEntries(lib, settings, items, tracked, order, now);
      assert before <= entries;
      assert key !in front;
      forall k | HasEntry(before, k) ensures HasEntry(entries, k) {
        var i :| 0 <= i < |before| && before[i].key == k;
        assert entries[i].key == k;
      }
      forall i | 0 <= i < |order| && Live(items[order[i]], now)
        ensures HasEntry(entries, order[i])
      {
        if i < |front| {
          assert front[i] == order[i] && HasEntry(before, front[i]);
        } else {
          assert entries[|entries| - 1].key == key;
        }
      }
    }
  }

  predicate Kept(lib: Library, settings: Settings, entries: seq<Entry>, now: int, clock: nat -> Reading, i: nat)
    requires i < |entries|
  {
    !Skipped(lib, settings, entries[i], now, clock(i).until)
  }

  ghost predicate KeptKey(lib: Library, settings: Settings, entries: seq<Entry>, now: int, clock: nat -> Reading,
                          key: string)
  {
    exists i: nat :: i < |entries| && entries[i].key == key && Kept(lib, settings, entries, now, clock, i)
  }

  /** The entry's item is in the cache, and its access information in the tracker if there is any and it is used. */
  ghost predicate Restores(lib: Library, settings: Settings, c: Contents, entry: Entry, r: Reading) {
    && entry.key in c.cache && c.cache[entry.key] == ItemOf(lib, settings, entry, r)
    && (entry.key in c.tracked <==> settings.staleUpdater && entry.access.Some?)
    && (entry.key in c.tracked ==> c.tracked[entry.key] == entry.access.value)
  }

  const Nothing := Contents(map[], map[], 0)

  ghost predicate EntriesRestored(lib: Library, settings: Settings, entries: seq<Entry>, now: int,
                                  clock: nat -> Reading, c: Contents)
  {
    forall i: nat :: i < |entries| && Kept(lib, settings, entries, now, clock, i) ==>
      Restores(lib, settings, c, entries[i], clock(i))
  }

  ghost predicate OnlyKeptKeys(lib: Library, settings: Settings, entries: seq<Entry>, now: int,
                               clock: nat -> Reading, c: Contents)
  {
    forall k :: k in c.cache ==> KeptKey(lib, settings, entries, now, clock, k)
  }

  /** The contents come from exactly the kept entries. */
  ghost predicate Restored(lib: Library, settings: Settings, entries: seq<Entry>, now: int, clock: nat -> Reading,
                           c: Contents)
  {
    && EntriesRestored(lib, settings, entries, now, clock, c)
    && OnlyKeptKeys(lib, settings, entries, now, clock, c)
    && c.tracked.Keys <= c.cache.Keys && c.loaded == |c.cache|
  }

  lemma KeptKeyStays(lib: Library, settings: Settings, entries: seq<Entry>, entry: Entry, now: int,
                     clock: nat -> Reading, key: string)
    requires KeptKey(lib, settings, entries, now, clock, key)
    ensures KeptKey(lib, settings, entries + [entry], now, clock, key)
  {
    var i: nat :| i < |entries| && entries[i].key == key && Kept(lib, settings, entries, now, clock, i);
    assert (entries + [entry])[i].key == key && Kept(lib, settings, entries + [entry], now, clock, i);
  }

  /** Loading an entry with a new key adds its item. */
  lemma EntryIsLoaded(lib: Library, settings: Settings, c: Contents, entry: Entry, now: int, r: Reading)
    requires !Skipped(lib, settings, entry, now, r.until) && entry.key !in c.cache && entry.key !in c.tracked
    requires c.tracked.Keys <= c.cache.Keys && c.loaded == |c.cache|
    ensures var c' := LoadOne(lib, settings, c, entry, now, r);
            && Restores(lib, settings, c', entry, r)
            && c'.cache.Keys == c.cache.Keys + {entry.key}
            && c'.tracked.Keys <= c'.cache.Keys && c'.loaded == |c'.cache|
  {
    hide Skipped, Parsed, RemainingTtl;
    assert c.cache.Keys + {entry.key} == LoadOne(lib, settings, c, entry, now, r).cache.Keys;
    assert |c.cache.Keys + {entry.key}| == |c.cache.Keys| + 1;
  }

  lemma OneMoreKey(lib: Library, settings: Settings, entries: seq<Entry>, entry: Entry, now: int,
                   clock: nat -> Reading, c: Contents, c': Contents)
    requires OnlyKeptKeys(lib, settings, entries, now, clock, c)
    requires || c' == c
             || (!Skipped(lib, settings, entry, now, clock(|entries|).until)
                 && c'.cache.Keys == c.cache.Keys + {entry.key})
    ensures OnlyKeptKeys(lib, settings, entries + [entry], now, clock, c')
  {
    var entries' := entries + [entry];
    forall k | k in c'.cache
      ensures KeptKey(lib, settings, entries', now, clock, k)
    {
      if k in c.cache {
        KeptKeyStays(lib, settings, entries, entry, now, clock, k);
      } else {
        assert entries'[|entries|].key == k && Kept(lib, settings, entries', now, clock, |entries|);
      }
    }
  }

  lemma OneMoreEntry(lib: Library, settings: Settings, entries: seq<Entry>, entry: Entry, now: int,
                     clock: nat -> Reading, c: Contents)
    requires EntriesRestored(lib, settings, entries, now, clock, c)
    requires forall i :: 0 <= i < |entries| ==> entries[i].key != entry.key
    requires entry.key !in c.cache && c.tracked.Keys <= c.cache.Keys && c.loaded == |c.cache|
    ensures EntriesRestored(lib, settings, entries + [entry], now, clock,
                            LoadOne(lib, settings, c, entry, now, clock(|entries|)))
  {
    var entries', r := entries + [entry], clock(|entries|);
    var c' := LoadOne(lib, settings, c, entry, now, r);
    forall i: nat | i < |entries'| && Kept(lib, settings, entries', now, clock, i)
      ensures Restores(lib, settings, c', entries'[i], clock(i))
    {
      hide LoadOne, Restores;
      if i < |entries| {
        assert entries'[i] == entries[i] && Kept(lib, settings, entries, now, clock, i);
        RestoredStays(lib, settings, c, entry, now, r, entries[i], clock(i));
      } else {
        EntryIsLoaded(lib, settings, c, entry, now, r);
      }
    }
  }

  lemma RestoredStays(lib: Library, settings: Settings, c: Contents, entry: Entry, now: int, r: Reading,
                      other: Entry, r': Reading)
    requires other.key != entry.key && Restores(lib, settings, c, other, r')
    ensures Restores(lib, settings, LoadOne(lib, settings, c, entry, now, r), other, r')
  {
    hide Skipped, ItemOf, Parsed, RemainingTtl;
  }

  lemma OneMore(lib: Library, settings: Settings, entries: seq<Entry>, entry: Entry, now: int, clock: nat -> Reading,
                c: Contents)
    requires Restored(lib, settings, entries, now, clock, c)
    requires forall i :: 0 <= i < |entries| ==> entries[i].key != entry.key
    ensures Restored(lib, settings, entries + [entry], now, clock,
                     LoadOne(lib, settings, c, entry, now, clock(|entries|)))
  {
    var r := clock(|entries|);
    NewKey(lib, settings, entries, entry, now, clock, c);
    hide OnlyKeptKeys, EntriesRestored;
    OneMoreEntry(lib, settings, entries, entry, now, clock, c);
    if !Skipped(lib, settings, entry, now, r.until) {
      EntryIsLoaded(lib, settings, c, entry, now, r);
    }
    hide Skipped, Restores;
    OneMoreKey(lib, settings, entries, entry, now, clock, c, LoadOne(lib, settings, c, entry, now, r));
  }

  lemma NewKey(lib: Library, settings: Settings, entries: seq<Entry>, entry: Entry, now: int, clock: nat -> Reading,
               c: Contents)
    requires OnlyKeptKeys(lib, settings, entries, now, clock, c) && c.tracked.Keys <= c.cache.Keys
    requires forall i :: 0 <= i < |entries| ==> entries[i].key != entry.key
    ensures entry.key !in c.cache && entry.key !in c.tracked
  {
    hide Kept;
  }

  /** Loading distinct keys into an empty cache stores exactly the entries that are not skipped. */
  lemma {:induction false} LoadedExactlyTheKept(lib: Library, settings: Settings, entries: seq<Entry>, now: int,
                                                clock: nat -> Reading)
    requires DistinctEntries(entries)
    ensures Restored(lib, settings, entries, now, clock, LoadAll(lib, settings, Nothing, entries, now, clock))
  {
    hide LoadOne, Restored;
    if entries == [] {
      NothingRestored(lib, settings, now, clock);
    } else {
      var n := |entries| - 1;
      LoadedExactlyTheKept(lib, settings, entries[..n], now, clock);
      OneMore(lib, settings, entries[..n], entries[n], now, clock,
              LoadAll(lib, settings, Nothing, entries[..n], now, clock));
      assert entries[..n] + [entries[n]] == entries;
    }
  }

  lemma NothingRestored(lib: Library, settings: Settings, now: int, clock: nat -> Reading)
    ensures Restored(lib, settings, [], now, clock, Nothing)
  {
  }

  /** What a save and a reload at readings r make of an item: its records as printed and parsed back, its expiration
      later by the time between the two readings, or the default life if it had none. */
  function Back(lib: Library, settings: Settings, item: Item, r: Reading): Item {
    Item(Reparsed(lib, item.answers),
         r.store - r.until + if item.expiration > 0 then item.expiration else r.until + settings.defaultTtl,
         item.origin, item.filledAt, item.lag + (r.store - r.until), item.reloads + 1)
  }

  /** Some record of the item parses back, and it is unexpired at the readings taken for it. */
  predicate Survives(lib: Library, item: Item, now: int, until: int) {
    && Reparsed(lib, item.answers) != []
    && (item.expiration > 0 ==> now <= item.expiration && until < item.expiration)
  }

  lemma EntryRoundTrip(lib: Library, settings: Settings, items: map<string, Item>, tracked: map<string, Info>,
                       entry: Entry, savedAt: int, now: int, r: Reading)
    requires SavedFrom(lib, settings, items, tracked, entry, savedAt)
    ensures ItemOf(lib, settings, entry, r) == Back(lib, settings, items[entry.key], r)
    ensures !Skipped(lib, settings, entry, now, r.until) <==> Survives(lib, items[entry.key], now, r.until)
  {
    hide Parsed, Printed;
  }

  /** An item has come back, with its access information, if and only if it survives; or else neither has. */
  ghost predicate ComesBack(lib: Library, settings: Settings, items: map<string, Item>, tracked: map<string, Info>,
                            key: string, now: int, r: Reading, c: Contents)
  {
    && key in items
    && (key in c.cache <==> Survives(lib, items[key], now, r.until))
    && (key in c.cache ==> c.cache[key] == Back(lib, settings, items[key], r))
    && (key in c.tracked <==> settings.staleUpdater && key in tracked && key in c.cache)
    && (key in c.tracked ==> c.tracked[key] == tracked[key])
  }

  lemma EntryComesBack(lib: Library, settings: Settings, items: map<string, Item>, tracked: map<string, Info>,
                       entries: seq<Entry>, savedAt: int, now: int, clock: nat -> Reading, c: Contents, i: nat)
    requires i < |entries| && DistinctEntries(entries)
    requires SavedFrom(lib, settings, items, tracked, entries[i], savedAt)
    requires Restored(lib, settings, entries, now, clock, c)
    ensures ComesBack(lib, settings, items, tracked, entries[i].key, now, clock(i), c)
  {
    EntryRoundTrip(lib, settings, items, tracked, entries[i], savedAt, now, clock(i));
    hide Skipped, ItemOf, Live, Survives, Back;
    if Kept(lib, settings, entries, now, clock, i) {
      assert Restores(lib, settings, c, entries[i], clock(i));
      hide KeptKey;
    }
  }

  /** Loading the entries has given back exactly what they were saved from. */
  ghost predicate GivesBack(lib: Library, settings: Settings, items: map<string, Item>, tracked: map<string, Info>,
                            savedAt: int, entries: seq<Entry>, now: int, clock: nat -> Reading, c: Contents)
  {
    && DistinctEntries(entries)
    && (forall k :: k in items ==> (Live(items[k], savedAt) <==> HasEntry(entries, k)))
    && (forall i: nat :: i < |entries| ==>
          ComesBack(lib, settings, items, tracked, entries[i].key, now, clock(i), c))
    && (forall k :: k in c.cache ==> HasEntry(entries, k))
    && c.tracked.Keys <= c.cache.Keys && c.loaded == |c.cache|
  }

  /** The snapshot round trip, for every library and every clock: a snapshot of the items, loaded into an empty cache,
      gives back exactly the items that survive. */
  lemma RoundTrip(lib: Library, settings: Settings, items: map<string, Item>, tracked: map<string, Info>,
                  order: seq<string>, savedAt: int, now: int, clock: nat -> Reading)
    requires Visited(order, {}, items)
    ensures var entries := SavedEntries(lib, settings, items, tracked, order, savedAt);
            GivesBack(lib, settings, items, tracked, savedAt, entries, now, clock,
                      LoadAll(lib, settings, Nothing, entries, now, clock))
  {
    var entries := SavedEntries(lib, settings, items, tracked, order, savedAt);
    var c := LoadAll(lib, settings, Nothing, entries, now, clock);
    SavedExactlyTheLive(lib, settings, items, tracked, order, savedAt);
    LoadedExactlyTheKept(lib, settings, entries, now, clock);
    LoadedKeys(lib, settings, entries, now, clock, c);
    hide SavedEntries, LoadAll, Live, Restored, EntryOf, ComesBack, SavedFrom, HasEntry;
    forall i: nat | i < |entries|
      ensures ComesBack(lib, settings, items, tracked, entries[i].key, now, clock(i), c)
    {
      EntryComesBack(lib, settings, items, tracked, entries, savedAt, now, clock, c, i);
    }
  }

  /** What coming back means for an item: at one reading of the clock its expiration is the same; if its records print
      again, it survives exactly when it has records and is unexpired, with the same records in print; and if they are
      in the form the parser gives, with the same records. */
  lemma SurvivorsAreUnchanged(lib: Library, settings: Settings, item: Item, now: int, at: int)
    requires item.expiration > 0
    ensures Back(lib, settings, item, Reading(at, at)).expiration == item.expiration
    ensures (forall i :: 0 <= i < |item.answers| ==> PrintsAgain(lib, item.answers[i])) ==>
              && (Survives(lib, item, now, at) <==>
                    item.answers != [] && now <= item.expiration && at < item.expiration)
              && Printed(lib, Reparsed(lib, item.answers)) == Printed(lib, item.answers)
              && Reparsed(lib, Reparsed(lib, item.answers)) == Reparsed(lib, item.answers)
    ensures (forall i :: 0 <= i < |item.answers| ==>
               lib.parse(lib.format(item.answers[i])) == Some(item.answers[i])) ==>
              Reparsed(lib, item.answers) == item.answers
  {
    assert Rounds(lib, item.answers, 1) == Reparsed(lib, Rounds(lib, item.answers, 0)) == Reparsed(lib, item.answers);
    if forall i :: 0 <= i < |item.answers| ==> PrintsAgain(lib, item.answers[i]) {
      ReparsedEach(lib, item.answers);
      RoundsPrintAlike(lib, item.answers, 1);
    }
    if forall i :: 0 <= i < |item.answers| ==> lib.parse(lib.format(item.answers[i])) == Some(item.answers[i]) {
      CanonicalComeBack(lib, item.answers, 1);
    }
  }

  lemma LoadedKeys(lib: Library, settings: Settings, entries: seq<Entry>, now: int, clock: nat -> Reading, c: Contents)
    requires Restored(lib, settings, entries, now, clock, c)
    ensures c.tracked.Keys <= c.cache.Keys && c.loaded == |c.cache|
    ensures forall k :: k in c.cache ==> HasEntry(entries, k)
  {
    forall k | k in c.cache
      ensures HasEntry(entries, k)
    {
      var i: nat :| i < |entries| && entries[i].key == k && Kept(lib, settings, entries, now, clock, i);
    }
  }

  /** The items a reload at reading `at` brings back. */
  function BackAt(lib: Library, settings: Settings, items: map<string, Item>, at: int): map<string, Item> {
    map k | k in items && Survives(lib, items[k], at, at) :: Back(lib, settings, items[k], Reading(at, at))
  }

  /** Loading a just-saved, young enough snapshot at reading `at` restores exactly the items that survive then, and
      exactly their access information; an older one restores nothing. */
  lemma SnapshotRestores(lib: Library, settings: Settings, items: map<string, Item>, tracked: map<string, Info>,
                         order: seq<string>, savedAt: int, checkedAt: int, now: int, at: int)
    requires Visited(order, {}, items) && settings.persistence
    requires savedAt <= checkedAt <= now <= at
    ensures var snapshot := Snapshot(SavedEntries(lib, settings, items, tracked, order, savedAt), savedAt);
            var c := LoadFile(lib, settings, Nothing, Readable(snapshot), checkedAt, now, _ => Reading(at, at));
            if checkedAt - savedAt <= settings.maxAge then
              && c.cache == BackAt(lib, settings, items, at)
              && c.tracked == (map k | k in c.cache && settings.staleUpdater && k in tracked :: tracked[k])
            else c == Nothing
  {
    var clock: nat -> Reading := _ => Reading(at, at);
    var entries := SavedEntries(lib, settings, items, tracked, order, savedAt);
    var c := LoadAll(lib, settings, Nothing, entries, now, clock);
    RoundTrip(lib, settings, items, tracked, order, savedAt, now, clock);
    hide LoadAll, SavedEntries, GivesBack, Visited;
    ExactlyTheLiving(lib, settings, items, tracked, savedAt, entries, now, at, clock, c);
  }

  lemma ExactlyTheLiving(lib: Library, settings: Settings, items: map<string, Item>, tracked: map<string, Info>,
                         savedAt: int, entries: seq<Entry>, now: int, at: int, clock: nat -> Reading, c: Contents)
    requires GivesBack(lib, settings, items, tracked, savedAt, entries, now, clock, c)
    requires savedAt <= now <= at && forall i :: clock(i) == Reading(at, at)
    ensures c.cache == BackAt(lib, settings, items, at)
    ensures c.tracked == (map k | k in c.cache && settings.staleUpdater && k in tracked :: tracked[k])
  {
    hide Back, Reparsed;
    forall k | k in items
      ensures k in c.cache <==> Survives(lib, items[k], at, at)
      ensures k in c.cache ==> c.cache[k] == Back(lib, settings, items[k], Reading(at, at))
    {
      if k in c.cache || Survives(lib, items[k], at, at) {
        assert HasEntry(entries, k);
        var i: nat :| i < |entries| && entries[i].key == k;
        assert clock(i) == Reading(at, at) && ComesBack(lib, settings, items, tracked, k, now, clock(i), c);
      }
    }
    forall k | k in c.cache
      ensures k in items
      ensures k in c.tracked <==> settings.staleUpdater && k in tracked
      ensures k in c.tracked ==> c.tracked[k] == tracked[k]
    {
      assert HasEntry(entries, k);
      var i: nat :| i < |entries| && entries[i].key == k;
      assert ComesBack(lib, settings, items, tracked, k, now, clock(i), c);
    }
  }

  /** The whole cycle on the heap: saving through the pools, restarting with an empty cache, and loading. */
  method SaveAndRestart(running: Store, listedAt: int, savedAt: int, checkedAt: int, now: int, at: int)
    returns (restarted: Store)
    requires running.settings.persistence
    requires listedAt <= savedAt <= checkedAt <= now <= at && checkedAt - savedAt <= running.settings.maxAge
    modifies running.texts, running.texts.free
    ensures fresh(restarted) && restarted.Valid() && running.Cache() == old(running.Cache())
    ensures restarted.Cache() == BackAt(running.lib, running.settings, running.Cache(), at)
    ensures restarted.tracked
            == map k | k in restarted.Cache() && running.settings.staleUpdater && k in running.tracked
                 :: running.tracked[k]
  {
    hide SavedEntries, LoadFile, Visited, LiveItems, BackAt;
    ghost var cache, tracked := running.Cache(), running.tracked;
    BackOfLive(running.lib, running.settings, cache, listedAt, at);
    var file, order := running.SaveCacheToFile(listedAt, savedAt);
    assert running.Cache() == cache;
    restarted := new Store(running.lib, running.settings);
    var result, loaded :=
      restarted.LoadCacheFromFile(Readable(file.value), checkedAt, now, _ => Reading(at, at));
    assert running.Cache() == cache;
    SnapshotRestores(running.lib, running.settings, LiveItems(cache, listedAt), tracked, order, savedAt,
                     checkedAt, now, at);
  }

  lemma BackOfLive(lib: Library, settings: Settings, cache: map<string, Item>, listedAt: int, at: int)
    requires listedAt <= at
    ensures BackAt(lib, settings, LiveItems(cache, listedAt), at) == BackAt(lib, settings, cache, at)
  {
    hide Back, Reparsed;
  }

  /** What a snapshot of the cache system is taken of, and what it says: the items unexpired when the saving starts, and
      the time read then. */
  lemma SnapshotTaken(s: State, t: nat)
    ensures Step(s, SaveStart(t)).Some? <==> s.settings.persistence && t !in s.procs
    ensures s.settings.persistence && t !in s.procs ==>
              && Step(s, SaveStart(t)).Some? && t in Step(s, SaveStart(t)).value.procs
              && Step(s, SaveStart(t)).value.procs[t]
                 == SaveStarting(map k | k in s.cache && (s.cache[k].expiration <= 0 || s.now <= s.cache[k].expiration)
                                   :: s.cache[k])
    ensures t in s.procs && s.procs[t].SaveStarting? ==>
              && Step(s, SaveClock(t)).Some? && t in Step(s, SaveClock(t)).value.procs
              && Step(s, SaveClock(t)).value.procs[t] == Saving(s.procs[t].items, s.now, [])
    ensures t in s.procs && s.procs[t].Saving? ==>
              && (Step(s, SaveWrite(t)).Some? <==> s.procs[t].items == map[])
              && (Step(s, SaveWrite(t)).Some? ==>
                    Step(s, SaveWrite(t)).value.disk == Some(Snapshot(s.procs[t].entries, s.procs[t].now)))
  {
    hide QueryStep, TrackStep, RefreshStep, ScanStep, LoadStep;
  }

  /** A snapshot is loaded exactly if it is no older than the maximum age. */
  lemma LoadedIffYoung(s: State, t: nat)
    ensures Step(s, LoadStart(t)).Some? <==>
            && s.settings.persistence && t !in s.procs
            && s.disk.Some? && s.now <= s.disk.value.timestamp + s.settings.maxAge
    ensures Step(s, LoadStart(t)).Some? ==>
              && t in Step(s, LoadStart(t)).value.procs
              && Step(s, LoadStart(t)).value.procs[t] == Loading(s.disk.value.entries, s.now)
  {
    hide QueryStep, TrackStep, RefreshStep, ScanStep, SaveStep;
  }

  /** The tracker of the cache system by value. */
  function TrackedOf(s: State): map<string, Info> {
    map k | k in s.tracker && s.tracker[k] < |s.objects| :: s.objects[s.tracker[k]].info
  }

  /** One turn of the loading goroutine of the cache system, with time passing between its two readings, is LoadOne. */
  lemma LoadingAgrees(s: State, t: nat, d: nat, loaded: nat) returns (s': State)
    requires t in s.procs && s.procs[t].Loading? && s.procs[t].entries != []
    requires forall k :: k in s.tracker ==> s.tracker[k] < |s.objects|
    ensures var p := s.procs[t];
            var skipped := Skipped(s.lib, s.settings, p.entries[0], p.now, s.now);
            && Exec(Step, s, if skipped then [LoadEntry(t)] else [LoadEntry(t), Elapse(d), LoadSet(t), LoadTrack(t)])
               == Some(s')
            && s'.procs[t] == Loading(p.entries[1..], p.now)
            && Contents(s'.cache, TrackedOf(s'), if skipped then loaded else loaded + 1)
               == LoadOne(s.lib, s.settings, Contents(s.cache, TrackedOf(s), loaded), p.entries[0], p.now,
                          Reading(s.now, s.now + d))
  {
    var p := s.procs[t];
    if Skipped(s.lib, s.settings, p.entries[0], p.now, s.now) {
      s' := s.(procs := s.procs[t := Loading(p.entries[1..], p.now)]);
      assert [LoadEntry(t)][..0] == [];
    } else {
      s' := KeptLoadingAgrees(s, t, d, loaded);
    }
  }

  lemma KeptLoadingAgrees(s: State, t: nat, d: nat, loaded: nat) returns (s': State)
    requires t in s.procs && s.procs[t].Loading? && s.procs[t].entries != []
    requires forall k :: k in s.tracker ==> s.tracker[k] < |s.objects|
    requires !Skipped(s.lib, s.settings, s.procs[t].entries[0], s.procs[t].now, s.now)
    ensures var p := s.procs[t];
            && Exec(Step, s, [LoadEntry(t), Elapse(d), LoadSet(t), LoadTrack(t)]) == Some(s')
            && s'.procs[t] == Loading(p.entries[1..], p.now)
            && Contents(s'.cache, TrackedOf(s'), loaded + 1)
               == LoadOne(s.lib, s.settings, Contents(s.cache, TrackedOf(s), loaded), p.entries[0], p.now,
                          Reading(s.now, s.now + d))
  {
    hide Step, LoadOne, TrackedOf, Skipped, Parsed, RemainingTtl;
    var s1 := EntryRead(s, t);
    var s2 := Elapsed(s, s1, d);
    var s3;
    s3, s' := SetAndTrack(s2, t, loaded);
    ExecFour(Step, s, LoadEntry(t), s1, Elapse(d), s2, LoadSet(t), s3, LoadTrack(t), s');
    hide Exec;
  }

  lemma Elapsed(s: State, s1: State, d: nat) returns (s2: State)
    requires s1 == s.(procs := s1.procs)
    ensures Step(s1, Elapse(d)) == Some(s2)
    ensures s2 == s1.(now := s.now + d) && TrackedOf(s2) == TrackedOf(s)
  {
    s2 := Step(s1, Elapse(d)).value;
  }

  lemma EntryRead(s: State, t: nat) returns (s1: State)
    requires t in s.procs && s.procs[t].Loading? && s.procs[t].entries != []
    requires !Skipped(s.lib, s.settings, s.procs[t].entries[0], s.procs[t].now, s.now)
    ensures Step(s, LoadEntry(t)) == Some(s1)
    ensures t in s1.procs && s1 == s.(procs := s1.procs)
    ensures var entry := s.procs[t].entries[0];
            s1.procs[t] == LoadSetting(entry, Parsed(s.lib, entry.answers), RemainingTtl(s.settings, entry, s.now),
                                       s.now, s.procs[t].entries[1..], s.procs[t].now)
  {
    hide Parsed, Expired, RemainingTtl;
    s1 := Step(s, LoadEntry(t)).value;
  }

  lemma SetAndTrack(s: State, t: nat, loaded: nat) returns (s1: State, s2: State)
    requires t in s.procs && s.procs[t].LoadSetting?
    requires forall k :: k in s.tracker ==> s.tracker[k] < |s.objects|
    requires var p := s.procs[t];
             && p.answers == Parsed(s.lib, p.entry.answers) && p.ttl == RemainingTtl(s.settings, p.entry, p.readAt)
             && !Skipped(s.lib, s.settings, p.entry, p.now, p.readAt)
    ensures Step(s, LoadSet(t)) == Some(s1) && Step(s1, LoadTrack(t)) == Some(s2)
    ensures t in s2.procs && s2.procs[t] == Loading(s.procs[t].rest, s.procs[t].now)
    ensures Contents(s2.cache, TrackedOf(s2), loaded + 1)
            == LoadOne(s.lib, s.settings, Contents(s.cache, TrackedOf(s), loaded), s.procs[t].entry, s.procs[t].now,
                       Reading(s.procs[t].readAt, s.now))
  {
    hide Parsed, RemainingTtl, Skipped, TrackedOf, Step;
    s1 := ItemSet(s, t);
    s2 := TrackRestored(s1, t);
  }

  lemma ItemSet(s: State, t: nat) returns (s1: State)
    requires t in s.procs && s.procs[t].LoadSetting?
    ensures Step(s, LoadSet(t)) == Some(s1)
    ensures var p := s.procs[t];
            && t in s1.procs && s1.procs[t] == LoadTracking(p.entry, p.rest, p.now)
            && s1.cache == s.cache[p.entry.key := Item(p.answers, s.now + p.ttl, p.entry.origin, p.entry.filledAt,
                                                       p.entry.lag + (s.now - p.readAt), p.entry.reloads + 1)]
            && TrackedOf(s1) == TrackedOf(s) && s1.settings == s.settings
            && s1.tracker == s.tracker && s1.objects == s.objects
  {
    s1 := Step(s, LoadSet(t)).value;
  }

  lemma TrackRestored(s: State, t: nat) returns (s1: State)
    requires t in s.procs && s.procs[t].LoadTracking?
    requires forall k :: k in s.tracker ==> s.tracker[k] < |s.objects|
    ensures Step(s, LoadTrack(t)) == Some(s1)
    ensures t in s1.procs && s1.procs[t] == Loading(s.procs[t].rest, s.procs[t].now) && s1.cache == s.cache
    ensures var entry := s.procs[t].entry;
            TrackedOf(s1) == if s.settings.staleUpdater && entry.access.Some?
                             then TrackedOf(s)[entry.key := entry.access.value] else TrackedOf(s)
  {
    s1 := Step(s, LoadTrack(t)).value;
  }

  /** One turn of the saving goroutine extends its entries as SavedEntries does. */
  lemma SavingAgrees(s: State, t: nat, items: map<string, Item>, order: seq<string>, key: string)
    requires t in s.procs && s.procs[t].Saving? && key in s.procs[t].items && key in items
    requires forall i :: 0 <= i < |order| ==> order[i] in items
    requires s.procs[t].items[key] == items[key]
    requires forall k :: k in s.tracker ==> s.tracker[k] < |s.objects|
    requires s.procs[t].entries == SavedEntries(s.lib, s.settings, items, TrackedOf(s), order, s.procs[t].now)
    ensures Step(s, SaveEntry(t, key)).Some?
    ensures var s' := Step(s, SaveEntry(t, key)).value;
            && TrackedOf(s') == TrackedOf(s) && s'.procs[t].Saving? && s'.procs[t].items == s.procs[t].items - {key}
            && s'.procs[t].entries
               == SavedEntries(s.lib, s.settings, items, TrackedOf(s'), order + [key], s.procs[t].now)
  {
    hide EntryOf, Live;
    assert (order + [key])[..|order|] == order;
  }
}
