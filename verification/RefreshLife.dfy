/** Whether a stale refresh prolongs the entry it replaces (cache/stale_updater.go, updateStaleEntry). */
module RefreshLife {
  import opened Options
  import opened Machine
  import opened Dns
  import opened CacheTtl
  import opened CacheState
  import opened CacheSystem
  import opened OverlappingRefreshes

  /** A refresh is about to store its answer over an entry. */
  ghost predicate Refreshing(s: State, t: nat) {
    t in s.procs && s.procs[t].RefreshFilling? && s.procs[t].key in s.cache
  }

  /** A refresh stores its answer for that answer's own life, whatever it replaces: it keeps or prolongs the entry's
      life exactly when that life, from now, reaches at least to the old expiration. */
  lemma RefreshProlongsIff(s: State, t: nat)
    requires Refreshing(s, t)
    ensures Step(s, Fill(t)).Some?
    ensures var p, s' := s.procs[t], Step(s, Fill(t)).value;
            && p.key in s'.cache
            && (s.cache[p.key].expiration <= s'.cache[p.key].expiration
                <==> s.cache[p.key].expiration - s.now <= FillTtl(s.settings.defaultTtl, p.answer.records))
  {
    hide FillTtl;
  }

  /** A record that lives for a day. */
  const DAY := RR("", 0, 86400, OtherData(""))

  lemma DayLife(defaultTtl: int)
    ensures FillTtl(defaultTtl, [DAY]) == MAX_CACHE_TTL
  {
    assert [DAY][..0] == [];
    assert MinTtl([]) == MAX_UINT32;
    assert MinTtl([DAY]) == 86400;
  }

  /** A query that misses, up to its fill. */
  lemma MissRun(start: State, before: seq<Event>, s: State, t: nat, domain: string, qtype: Uint16, records: seq<RR>)
    returns (events: seq<Event>, s': State)
    requires Exec(Step, start, before) == Some(s) && t !in s.procs
    requires var key := Key(s.lib, domain, qtype); !(key in s.cache && Live(s.cache[key], s.now))
    ensures Exec(Step, start, events) == Some(s') && s'.procs == s.procs
    ensures s'.lib == s.lib && s'.settings == s.settings && s'.now == s.now
    ensures s'.tracker == s.tracker && s'.objects == s.objects
    ensures var key := Key(s.lib, domain, qtype);
            key in s'.cache && s'.cache[key].expiration == s.now + FillTtl(s.settings.defaultTtl, records)
  {
    hide Key, Live, FillTtl, Exec, TrackStep, RefreshStep, ScanStep, SaveStep, LoadStep;
    events, s' := Extend(Step, start, before, s, Query(t, domain, qtype));
    events, s' := Extend(Step, start, events, s', Look(t));
    events, s' := Extend(Step, start, events, s', Resolve(t, records));
    events, s' := Extend(Step, start, events, s', Fill(t));
  }

  /** A refresh that has been started runs up to its fill. */
  lemma RefreshRun(start: State, before: seq<Event>, s: State, t: nat, records: seq<RR>)
    returns (events: seq<Event>, s': State)
    requires Exec(Step, start, before) == Some(s) && t in s.procs && s.procs[t].RefreshLooking?
    requires s.procs[t].key in s.tracker && s.tracker[s.procs[t].key] < |s.objects|
    ensures Exec(Step, start, events) == Some(s') && s'.cache == s.cache && s'.now == s.now
    ensures s'.settings == s.settings
    ensures t in s'.procs && s'.procs[t].RefreshFilling? && s'.procs[t].key == s.procs[t].key
    ensures s'.procs[t].answer.records == records
  {
    hide Exec, TrackStep, ScanStep, SaveStep, LoadStep;
    events, s' := Extend(Step, start, before, s, RefreshLook(t));
    events, s' := Extend(Step, start, events, s', Resolve(t, records));
  }

  /** A run to a refresh whose key has meanwhile expired and been filled for a day. */
  lemma LateRefresh(lib: Library, settings: Settings, now: int, domain: string, qtype: Uint16)
    returns (events: seq<Event>, s: State)
    requires Validated(settings) && settings.staleUpdater && 0 <= now
    ensures Exec(Step, Init(lib, settings, now), events) == Some(s) && Refreshing(s, 1)
    ensures s.settings == settings && s.procs[1].answer.records == []
    ensures s.cache[s.procs[1].key].expiration - s.now == MAX_CACHE_TTL
  {
    var start, key := Init(lib, settings, now), Key(lib, domain, qtype);
    DayLife(settings.defaultTtl);
    hide Key, FillTtl, Exec;
    events, s := HotKey(lib, settings, now, domain, qtype);
    events, s := Scan(start, events, s, 1, key);
    events, s := Extend(Step, start, events, s, Elapse(2));
    assert !Live(s.cache[key], s.now);
    hide Step;
    events, s := MissRun(start, events, s, 2, domain, qtype, [DAY]);
    events, s := RefreshRun(start, events, s, 1, []);
  }

  /** In every configuration with the stale updater, some refresh shortens the life of the entry it replaces: it was
      started for an entry that has meanwhile expired and been filled again, and finds no records. */
  lemma RefreshCanShorten(lib: Library, settings: Settings, now: int) returns (s: State, s': State)
    requires Validated(settings) && settings.staleUpdater && 0 <= now
    ensures Reachable(Step, Init(lib, settings, now), s) && Refreshing(s, 1) && Step(s, Fill(1)) == Some(s')
    ensures var key := s.procs[1].key;
            key in s'.cache && s'.cache[key].expiration < s.cache[key].expiration
  {
    var events;
    events, s := LateRefresh(lib, settings, now, "", 1);
    RefreshProlongsIff(s, 1);
    s' := Step(s, Fill(1)).value;
    hide Step;
  }
}
