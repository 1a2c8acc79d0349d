/** What may change a cached answer, and that every goroutine of the cache package gets to its end (cache/). */
module CacheProgress {
  import opened Options
  import opened Machine
  import opened Dns
  import opened CacheTtl
  import opened CacheState
  import opened CacheSystem
  import P = CacheProvenance
  import U = StaleUpdates

  /** The event stores an answer under the key: a query or a refresh fills it, or a load sets it. */
  predicate Stores(s: State, e: Event, key: string) {
    && (e.Fill? || e.LoadSet?) && e.t in s.procs
    && match s.procs[e.t]
       case Filling(k, _) => k == key
       case RefreshFilling(k, _) => k == key
       case LoadSetting(entry, _, _, _, _, _) => entry.key == key
       case _ => false
  }

  /** A step that neither stores under the key nor restarts the program leaves its entry alone, unless it evicts one
      that has expired. */
  lemma EntryStays(s: State, e: Event, key: string)
    requires Step(s, e).Some? && !Stores(s, e, key) && e != Restart
    ensures var s' := Step(s, e).value;
            if e == Evict(key) then key !in s'.cache && key in s.cache && 0 < s.cache[key].expiration < s.now
            else key in s'.cache <==> key in s.cache
    ensures var s' := Step(s, e).value;
            && s.now <= s'.now && (e.Elapse? || s'.now == s.now)
            && (key in s'.cache ==> key in s.cache && s'.cache[key] == s.cache[key])
  {
    hide LiveItems, Parsed, EntryOf, AccessOf, Stored, Key, Expired, RemainingTtl;
    if PartOf(e) == SavePart || PartOf(e) == LoadPart {
      hide QueryStep, TrackStep, RefreshStep, ScanStep;
    } else {
      hide SaveStep, LoadStep;
    }
  }

  /** A run that does not restart the program and stores nothing under the key. */
  ghost predicate Undisturbed(s: State, events: seq<Event>, key: string) {
    events != [] ==>
      var front, e := events[..|events| - 1], events[|events| - 1];
      && Undisturbed(s, front, key)
      && e != Restart && (Exec(Step, s, front).Some? ==> !Stores(Exec(Step, s, front).value, e, key))
  }

  /** A cached answer stays, unchanged, until its expiration has passed: over every run, whatever queries, refreshes,
      scans, saves and loads of other keys do, and whatever the janitor does. */
  lemma {:induction false} UnexpiredAnswerStays(s: State, events: seq<Event>, key: string)
    requires Exec(Step, s, events).Some? && Undisturbed(s, events, key) && key in s.cache
    ensures var s' := Exec(Step, s, events).value;
            && s.now <= s'.now
            && (s'.now <= s.cache[key].expiration || s.cache[key].expiration <= 0 ==>
                  key in s'.cache && s'.cache[key] == s.cache[key])
  {
    hide Step, Stores;
    if events != [] {
      var front, e := events[..|events| - 1], events[|events| - 1];
      UnexpiredAnswerStays(s, front, key);
      EntryStays(Exec(Step, s, front).value, e, key);
    }
  }

  /** The janitor may remove an entry exactly when it has expired, and removes nothing else. */
  lemma EvictedIff(s: State, key: string)
    ensures Step(s, Evict(key)).Some? <==> key in s.cache && 0 < s.cache[key].expiration < s.now
    ensures Step(s, Evict(key)).Some? ==> Step(s, Evict(key)).value == s.(cache := s.cache - {key})
  {
    hide QueryStep, TrackStep, RefreshStep, ScanStep, SaveStep, LoadStep;
  }

  /** A restart forgets the cache, the tracked keys and everything running; the snapshot on disk stays. */
  lemma RestartForgets(s: State)
    ensures Step(s, Restart).Some?
    ensures var s' := Step(s, Restart).value;
            && s'.cache == map[] && s'.tracker == map[] && s'.procs == map[] && s'.tokens == 0
            && s'.scanner == Resting && s'.disk == s.disk && s'.now == s.now
  {
  }

  /** A load without entries left has returned. */
  predicate Returned(p: Proc) {
    p.Loading? && p.entries == []
  }

  /** The actions a goroutine has left, at most. */
  ghost function ActionsLeft(p: Proc): nat {
    match p
    case Looking(_, _, _) => 4
    case Asking(_, _, _) => 2
    case Filling(_, _) => 1
    case Tracking(_, _, _) => 3
    case Adding(_, _, _) => 2
    case Stamping(_, _, _) => 1
    case Inserting(_, _, _, _) => 1
    case RefreshLooking(_) => 4
    case RefreshAsking(_, _, _) => 3
    case RefreshFilling(_, _) => 2
    case RefreshEnding => 1
    case SaveStarting(items) => |items| + 2
    case Saving(items, _, _) => |items| + 1
    case Loading(entries, _) => 3 * |entries|
    case LoadSetting(_, _, _, _, rest, _) => 3 * |rest| + 2
    case LoadTracking(_, rest, _) => 3 * |rest| + 1
  }

  /** The goroutine's next action; a lookup that is answered may be answered with these records, and a save visits the
      key next. */
  function Next(t: nat, p: Proc, records: seq<RR>, key: string): Event {
    match p
    case Looking(_, _, _) => Look(t)
    case Asking(_, _, _) => Resolve(t, records)
    case Filling(_, _) => Fill(t)
    case Tracking(_, _, _) => TrackLoad(t)
    case Adding(_, _, _) => TrackAdd(t)
    case Stamping(_, _, _) => TrackStamp(t)
    case Inserting(_, _, _, _) => TrackInsert(t)
    case RefreshLooking(_) => RefreshLook(t)
    case RefreshAsking(_, _, _) => Resolve(t, records)
    case RefreshFilling(_, _) => Fill(t)
    case RefreshEnding => RefreshEnd(t)
    case SaveStarting(_) => SaveClock(t)
    case Saving(items, _, _) => if items == map[] then SaveWrite(t) else SaveEntry(t, key)
    case Loading(_, _) => CacheSystem.LoadEntry(t)
    case LoadSetting(_, _, _, _, _, _) => LoadSet(t)
    case LoadTracking(_, _, _) => LoadTrack(t)
  }

  /** The action is enabled, moves this goroutine only, and brings it closer to its end. */
  ghost predicate GetsCloser(s: State, t: nat, e: Event) {
    && t in s.procs && Step(s, e).Some?
    && var procs := Step(s, e).value.procs;
       procs - {t} == s.procs - {t} && (t in procs ==> ActionsLeft(procs[t]) < ActionsLeft(s.procs[t]))
  }

  lemma QueryGetsCloser(s: State, t: nat, records: seq<RR>, key: string)
    requires t in s.procs && PartOf(Next(t, s.procs[t], records, key)) == QueryPart
    ensures GetsCloser(s, t, Next(t, s.procs[t], records, key))
  {
    hide TrackStep, RefreshStep, ScanStep, SaveStep, LoadStep, GlobalStep, Live, Stored, Key;
  }

  lemma TrackGetsCloser(s: State, t: nat, records: seq<RR>, key: string)
    requires t in s.procs && PartOf(Next(t, s.procs[t], records, key)) == TrackPart && P.ProcOk(s, s.procs[t])
    ensures GetsCloser(s, t, Next(t, s.procs[t], records, key))
  {
    hide QueryStep, RefreshStep, ScanStep, SaveStep, LoadStep, GlobalStep, Key;
  }

  lemma RefreshGetsCloser(s: State, t: nat, records: seq<RR>, key: string)
    requires t in s.procs && PartOf(Next(t, s.procs[t], records, key)) == RefreshPart && U.TokensInv(s)
    ensures GetsCloser(s, t, Next(t, s.procs[t], records, key))
  {
    hide QueryStep, TrackStep, ScanStep, SaveStep, LoadStep, GlobalStep;
    assert t in U.Refreshers(s.procs);
  }

  lemma SaveGetsCloser(s: State, t: nat, records: seq<RR>, key: string)
    requires t in s.procs && PartOf(Next(t, s.procs[t], records, key)) == SavePart
    requires s.procs[t].Saving? && s.procs[t].items != map[] ==> key in s.procs[t].items
    ensures GetsCloser(s, t, Next(t, s.procs[t], records, key))
  {
    hide Step, GetsCloser;
    var p := s.procs[t];
    if p.SaveStarting? {
      SaveClocks(s, t);
    } else if p.items != map[] {
      FewerItems(p.items, key);
      SavesEntry(s, t, key);
    } else {
      SaveWrites(s, t);
    }
  }

  lemma MovesCloser(s: State, t: nat, e: Event, p: Proc)
    requires t in s.procs && Step(s, e).Some? && Step(s, e).value.procs == s.procs[t := p]
    requires ActionsLeft(p) < ActionsLeft(s.procs[t])
    ensures GetsCloser(s, t, e)
  {
    hide Step, ActionsLeft;
    assert s.procs[t := p] - {t} == s.procs - {t};
  }

  lemma SaveClocks(s: State, t: nat)
    requires t in s.procs && s.procs[t].SaveStarting?
    ensures GetsCloser(s, t, SaveClock(t))
  {
    hide QueryStep, TrackStep, RefreshStep, ScanStep, LoadStep, GlobalStep, LiveItems, GetsCloser;
    MovesCloser(s, t, SaveClock(t), Saving(s.procs[t].items, s.now, []));
  }

  lemma SaveWrites(s: State, t: nat)
    requires t in s.procs && s.procs[t].Saving? && s.procs[t].items == map[]
    ensures GetsCloser(s, t, SaveWrite(t))
  {
    hide QueryStep, TrackStep, RefreshStep, ScanStep, LoadStep, GlobalStep, Live, EntryOf, AccessOf;
  }

  lemma FewerItems(items: map<string, Item>, key: string)
    requires key in items
    ensures |items - {key}| < |items|
  {
    assert (items - {key}).Keys == items.Keys - {key};
  }

  lemma SavesEntry(s: State, t: nat, key: string)
    requires t in s.procs && s.procs[t].Saving? && key in s.procs[t].items
    requires |s.procs[t].items - {key}| < |s.procs[t].items|
    ensures GetsCloser(s, t, SaveEntry(t, key))
  {
    hide QueryStep, TrackStep, RefreshStep, ScanStep, LoadStep, GlobalStep, Live, EntryOf, AccessOf;
  }

  lemma LoadGetsCloser(s: State, t: nat, records: seq<RR>, key: string)
    requires t in s.procs && PartOf(Next(t, s.procs[t], records, key)) == LoadPart && !Returned(s.procs[t])
    ensures GetsCloser(s, t, Next(t, s.procs[t], records, key))
  {
    hide QueryStep, TrackStep, RefreshStep, ScanStep, SaveStep, GlobalStep, Parsed, Expired, RemainingTtl;
  }

  /** No goroutine of the cache package waits for another: in every reachable state each query, refresh, save and load
      has an enabled action, which brings it closer to its end. */
  lemma GoroutineNeverStuck(lib: Library, settings: Settings, now: int, s: State, t: nat, records: seq<RR>)
      returns (e: Event)
    requires Validated(settings) && 0 <= now && Reachable(Step, Init(lib, settings, now), s)
    requires t in s.procs && !Returned(s.procs[t])
    ensures GetsCloser(s, t, e)
  {
    P.ReachableInv(lib, settings, now, s);
    U.ReachableInv(lib, settings, now, s);
    assert P.ProcOk(s, s.procs[t]);
    var key := "";
    if s.procs[t].Saving? && s.procs[t].items != map[] { key :| key in s.procs[t].items; }
    e := Next(t, s.procs[t], records, key);
    hide P.Inv, P.ProcOk, U.TokensInv, U.ScanInv, Reachable, GetsCloser, Step, Next;
    NextIsItsOwn(t, s.procs[t], records, key);
    match PartOf(e)
    case QueryPart => QueryGetsCloser(s, t, records, key);
    case TrackPart => TrackGetsCloser(s, t, records, key);
    case RefreshPart => RefreshGetsCloser(s, t, records, key);
    case SavePart => SaveGetsCloser(s, t, records, key);
    case LoadPart => LoadGetsCloser(s, t, records, key);
  }

  lemma NextIsItsOwn(t: nat, p: Proc, records: seq<RR>, key: string)
    ensures PartOf(Next(t, p, records, key)) in {QueryPart, TrackPart, RefreshPart, SavePart, LoadPart}
  {
  }
}
