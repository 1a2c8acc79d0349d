/** The stale updater's semaphore and selection (cache/stale_updater.go), over any number of scans and overlapping
    refreshes of the cache system. */
module StaleUpdates {
  import opened Finite
  import opened Machine
  import opened CacheState
  import opened CacheSystem

  predicate IsRefresh(p: Proc) {
    p.RefreshLooking? || p.RefreshAsking? || p.RefreshFilling? || p.RefreshEnding?
  }

  ghost function Refreshers(procs: map<nat, Proc>): set<nat> {
    set t | t in procs && IsRefresh(procs[t])
  }

  /** Tokens in the semaphore are exactly the live refresh goroutines. */
  ghost predicate TokensInv(s: State) {
    s.tokens == |Refreshers(s.procs)| && s.tokens <= s.settings.maxConcurrent
  }

  /** The keys the scan in progress has still to look at. */
  function Remaining(scanner: Scanner): seq<Seen> {
    match scanner
    case Counting(_, found) => found
    case Selecting(todo) => todo
    case Deciding(seen, _, todo) => [seen] + todo
    case _ => []
  }

  ghost predicate DistinctKeys(seen: seq<Seen>) {
    forall i, j :: 0 <= i < j < |seen| ==> seen[i].key != seen[j].key
  }

  ghost predicate StartOk(settings: Settings, start: Start) {
    start.seen.count >= settings.minAccessCount && 0 < start.remaining <= settings.staleThreshold
  }

  ghost predicate ScanInv(s: State) {
    var remaining := Remaining(s.scanner);
    && DistinctKeys(remaining)
    && (forall i :: 0 <= i < |remaining| ==> remaining[i].count >= s.settings.minAccessCount)
    && (s.scanner.Counting? ==> forall i :: 0 <= i < |remaining| ==> remaining[i].key in s.scanner.visited)
    && (forall i :: 0 <= i < |s.starts| ==> StartOk(s.settings, s.starts[i]) && s.starts[i].scan <= s.scan)
    && (forall i, j :: 0 <= i < j < |s.starts| && s.starts[i].scan == s.starts[j].scan ==>
          s.starts[i].seen.key != s.starts[j].seen.key)
    && (forall i, j :: 0 <= i < |s.starts| && s.starts[i].scan == s.scan && 0 <= j < |remaining| ==>
          s.starts[i].seen.key != remaining[j].key)
    && ((s.scanner.Cleaning? || s.scanner.Counting?) ==>
          forall i :: 0 <= i < |s.starts| ==> s.starts[i].scan != s.scan)
  }

  lemma RefresherMoved(procs: map<nat, Proc>, t: nat, p: Proc)
    ensures |Refreshers(procs[t := p])| == |Refreshers(procs)| - (if t in procs && IsRefresh(procs[t]) then 1 else 0)
                                           + (if IsRefresh(p) then 1 else 0)
  {
    assert t in Refreshers(procs) <==> t in procs && IsRefresh(procs[t]);
    assert Refreshers(procs[t := p]) == if IsRefresh(p) then Refreshers(procs) + {t} else Refreshers(procs) - {t};
  }

  lemma RefresherGone(procs: map<nat, Proc>, t: nat)
    requires t in procs
    ensures |Refreshers(procs - {t})| == |Refreshers(procs)| - (if IsRefresh(procs[t]) then 1 else 0)
  {
    assert t in Refreshers(procs) <==> IsRefresh(procs[t]);
    assert Refreshers(procs - {t}) == Refreshers(procs) - {t};
  }

  /** A step leaves the goroutines and the semaphore alone, moves one goroutine, or ends one. */
  ghost predicate Changed(s: State, s': State) {
    && s'.settings == s.settings
    && (|| (s'.procs == s.procs && s'.tokens == s.tokens)
        || (exists t, p :: s'.procs == s.procs[t := p] && Moved(s, s', t, p))
        || (exists t :: t in s.procs && s'.procs == s.procs - {t}
              && s.tokens == s'.tokens + if IsRefresh(s.procs[t]) then 1 else 0))
  }

  lemma GoroutineMoved(s: State, s': State, t: nat)
    requires s'.settings == s.settings && t in s'.procs && s'.procs == s.procs[t := s'.procs[t]]
    requires Moved(s, s', t, s'.procs[t])
    ensures Changed(s, s')
  {
  }

  lemma QueryChange(s: State, e: Event)
    requires QueryStep(s, e).Some?
    ensures Changed(s, QueryStep(s, e).value)
  {
    hide Live, Stored, Key, Changed;
    var s' := QueryStep(s, e).value;
    if e.t in s'.procs { GoroutineMoved(s, s', e.t); } else { GoroutineEnded(s, s', e.t); }
  }

  lemma GoroutineEnded(s: State, s': State, t: nat)
    requires s'.settings == s.settings && t in s.procs && s'.procs == s.procs - {t}
    requires s.tokens == s'.tokens + if IsRefresh(s.procs[t]) then 1 else 0
    ensures Changed(s, s')
  {
  }

  lemma TrackChange(s: State, e: Event)
    requires TrackStep(s, e).Some?
    ensures Changed(s, TrackStep(s, e).value)
  {
    hide Changed;
    var s' := TrackStep(s, e).value;
    if e.t in s'.procs { GoroutineMoved(s, s', e.t); } else { GoroutineEnded(s, s', e.t); }
  }

  lemma RefreshChange(s: State, e: Event)
    requires RefreshStep(s, e).Some?
    ensures Changed(s, RefreshStep(s, e).value)
  {
    hide Changed;
    var s' := RefreshStep(s, e).value;
    if e.t in s'.procs { GoroutineMoved(s, s', e.t); } else { GoroutineEnded(s, s', e.t); }
  }

  lemma ScanChange(s: State, e: Event)
    requires ScanStep(s, e).Some?
    ensures Changed(s, ScanStep(s, e).value)
  {
    hide Live, LiveItems;
    var s' := ScanStep(s, e).value;
    if s'.procs != s.procs {
      hide Changed;
      GoroutineMoved(s, s', e.t);
    }
  }

  lemma SaveChange(s: State, e: Event)
    requires SaveStep(s, e).Some?
    ensures Changed(s, SaveStep(s, e).value)
  {
    hide Live, LiveItems, EntryOf, AccessOf, Changed;
    var s' := SaveStep(s, e).value;
    if e.t in s'.procs { GoroutineMoved(s, s', e.t); } else { GoroutineEnded(s, s', e.t); }
  }

  lemma LoadChange(s: State, e: Event)
    requires LoadStep(s, e).Some?
    ensures Changed(s, LoadStep(s, e).value)
  {
    hide Parsed, Expired, RemainingTtl, Changed;
    GoroutineMoved(s, LoadStep(s, e).value, e.t);
  }

  /** What a step does to the goroutines and the semaphore. */
  lemma ProcChange(s: State, e: Event)
    requires Step(s, e).Some? && e != Restart
    ensures Changed(s, Step(s, e).value)
  {
    match PartOf(e)
    case Global => hide QueryStep, TrackStep, RefreshStep, ScanStep, SaveStep, LoadStep, Live;
    case QueryPart => QueryChange(s, e);
    case TrackPart => TrackChange(s, e);
    case RefreshPart => RefreshChange(s, e);
    case ScanPart => ScanChange(s, e);
    case SavePart => SaveChange(s, e);
    case LoadPart => LoadChange(s, e);
  }

  /** Goroutine t became p: a refresh stays one and keeps its token, and only a new refresh takes a token. */
  ghost predicate Moved(s: State, s': State, t: nat, p: Proc) {
    var was := t in s.procs && IsRefresh(s.procs[t]);
    && (was ==> IsRefresh(p))
    && s'.tokens == s.tokens + (if IsRefresh(p) && !was then 1 else 0)
    && (s'.tokens > s.tokens ==> s.tokens < s.settings.maxConcurrent)
  }

  lemma StepKeepsTokens(s: State, e: Event)
    requires TokensInv(s) && Step(s, e).Some?
    ensures TokensInv(Step(s, e).value)
  {
    hide Refreshers;
    var s' := Step(s, e).value;
    if e == Restart {
      NoRefreshers();
    } else {
      ProcChange(s, e);
      hide Step;
      if t, p :| s'.procs == s.procs[t := p] && Moved(s, s', t, p) {
        RefresherMoved(s.procs, t, p);
      } else if t :| t in s.procs && s'.procs == s.procs - {t}
                     && s.tokens == s'.tokens + if IsRefresh(s.procs[t]) then 1 else 0 {
        RefresherGone(s.procs, t);
      }
    }
  }

  lemma NoRefreshers()
    ensures |Refreshers(map[])| == 0
  {
    assert Refreshers(map[]) == {};
  }

  lemma ScanFrame(s: State, e: Event)
    requires Step(s, e).Some? && PartOf(e) != ScanPart
    ensures var s' := Step(s, e).value;
            && s'.settings == s.settings && s'.starts == s.starts && s'.scan == s.scan
            && (s'.scanner == s.scanner || s'.scanner == Resting)
  {
    hide Live, LiveItems, Parsed, EntryOf, AccessOf, Stored, Key;
  }

  /** Dropping the first remaining key, with or without a refresh of it. */
  lemma DropFirst(s: State, s': State)
    requires ScanInv(s) && Remaining(s.scanner) != [] && Remaining(s'.scanner) == Remaining(s.scanner)[1..]
    requires s'.settings == s.settings && s'.scan == s.scan && (s'.scanner.Selecting? || s'.scanner.Deciding?)
    requires || s'.starts == s.starts
             || (|s'.starts| == |s.starts| + 1 && s'.starts[..|s.starts|] == s.starts
                 && s'.starts[|s.starts|].seen == Remaining(s.scanner)[0] && s'.starts[|s.starts|].scan == s.scan
                 && StartOk(s.settings, s'.starts[|s.starts|]))
    ensures ScanInv(s')
  {
    hide Remaining, StartOk;
    assert forall i :: 0 <= i < |s.starts| ==> s'.starts[i] == s'.starts[..|s.starts|][i] == s.starts[i];
  }

  lemma SelectKeeps(s: State, e: Event)
    requires ScanInv(s) && (e.SelectLook? || e.SelectDecide?) && ScanStep(s, e).Some?
    ensures ScanInv(ScanStep(s, e).value)
  {
    hide Live;
    var s' := ScanStep(s, e).value;
    var before, after := Remaining(s.scanner), Remaining(s'.scanner);
    if e.SelectLook? && s'.scanner.Deciding? {
      assert after == before;
    } else {
      assert after == before[1..];
      assert s'.starts != s.starts ==> s'.starts[..|s.starts|] == s.starts;
      assert before[0].count >= s.settings.minAccessCount;
      hide ScanInv;
      DropFirst(s, s');
    }
  }

  lemma ScanKeeps(s: State, e: Event)
    requires ScanInv(s) && ScanStep(s, e).Some?
    ensures ScanInv(ScanStep(s, e).value)
  {
    hide LiveItems;
    match e
    case SelectLook => SelectKeeps(s, e);
    case SelectDecide(_) => SelectKeeps(s, e);
    case _ =>
  }

  lemma StepKeepsScan(s: State, e: Event)
    requires ScanInv(s) && Step(s, e).Some?
    ensures ScanInv(Step(s, e).value)
  {
    if PartOf(e) == ScanPart {
      hide ScanInv, ScanStep;
      ScanKeeps(s, e);
    } else {
      hide Step;
      ScanFrame(s, e);
    }
  }

  lemma ReachableInv(lib: Library, settings: Settings, now: int, s: State)
    requires Reachable(Step, Init(lib, settings, now), s)
    ensures TokensInv(s) && ScanInv(s) && s.settings == settings
  {
    NoRefreshers();
    var inv := (x: State) => TokensInv(x) && ScanInv(x) && x.settings == settings;
    assert inv(Init(lib, settings, now));
    hide TokensInv, ScanInv, Step;
    forall x, e | inv(x) && Step(x, e).Some?
      ensures inv(Step(x, e).value)
    {
      StepKeepsTokens(x, e);
      StepKeepsScan(x, e);
      SettingsFrame(x, e);
    }
    assert Preserved(Step, inv);
    InvariantReachable(Step, Init(lib, settings, now), inv, s);
  }

  /** The number of live refreshes never exceeds the configured maximum, and each can give its token back. */
  lemma RefreshesBounded(lib: Library, settings: Settings, now: int, s: State, t: nat)
    requires Reachable(Step, Init(lib, settings, now), s)
    ensures s.tokens == |Refreshers(s.procs)| <= settings.maxConcurrent
    ensures t in s.procs && s.procs[t] == RefreshEnding ==> Step(s, RefreshEnd(t)).Some?
  {
    ReachableInv(lib, settings, now, s);
    if t in s.procs && s.procs[t] == RefreshEnding {
      assert t in Refreshers(s.procs);
    }
  }

  /** Every refresh was started for a key seen often enough and about to expire, and no scan starts two refreshes of
      one key. */
  lemma StartsAreJustified(lib: Library, settings: Settings, now: int, s: State)
    requires Reachable(Step, Init(lib, settings, now), s)
    ensures forall i :: 0 <= i < |s.starts| ==>
              && s.starts[i].seen.count >= settings.minAccessCount
              && 0 < s.starts[i].remaining <= settings.staleThreshold
    ensures forall i, j :: 0 <= i < j < |s.starts| && s.starts[i].scan == s.starts[j].scan ==>
              s.starts[i].seen.key != s.starts[j].seen.key
  {
    ReachableInv(lib, settings, now, s);
    assert forall i :: 0 <= i < |s.starts| ==> StartOk(settings, s.starts[i]);
  }

  lemma FreshGoroutine(procs: map<nat, Proc>) returns (t: nat)
    ensures t !in procs
  {
    var n := |procs.Keys|;
    if forall i: nat :: i < n + 1 ==> i in procs {
      assert Below(n + 1) <= procs.Keys;
      SubsetCardinality(Below(n + 1), procs.Keys);
    }
    t :| t < n + 1 && t !in procs;
  }

  /** A scan never blocks: whatever the semaphore holds, the ticker goroutine has a next action until it rests. */
  lemma ScanNeverBlocks(s: State)
    requires s.scanner != Resting
    ensures exists e :: PartOf(e) == ScanPart && Step(s, e).Some?
  {
    hide Live;
    var t := FreshGoroutine(s.procs);
    var e := match s.scanner
      case Cleaning(_) => CleanEnd
      case Counting(_, _) => CountEnd
      case Selecting(todo) => if todo == [] then SelectEnd else SelectLook
      case Deciding(_, _, _) => SelectDecide(t)
      case Resting => SelectEnd;
    assert PartOf(e) == ScanPart && Step(s, e).Some?;
  }

  /** When a scan starts a refresh of the key it is looking at: exactly if the entry is still unexpired, by no more than
      the threshold, and the semaphore has a token. In any case it goes on to the next key. */
  lemma RefreshStartedIff(s: State, t: nat)
    requires s.scanner.Deciding? && t !in s.procs
    ensures Step(s, SelectDecide(t)).Some?
    ensures var s', seen, left := Step(s, SelectDecide(t)).value, s.scanner.seen, s.scanner.expiration - s.now;
            && s'.scanner == Selecting(s.scanner.todo)
            && if 0 < left <= s.settings.staleThreshold && s.tokens < s.settings.maxConcurrent then
                 s'.procs == s.procs[t := RefreshLooking(seen.key)] && s'.tokens == s.tokens + 1
                 && s'.starts == s.starts + [Start(seen, left, s.scan)]
               else
                 s'.procs == s.procs && s'.tokens == s.tokens && s'.starts == s.starts
  {
    hide QueryStep, TrackStep, RefreshStep, SaveStep, LoadStep;
  }

  /** Which found keys the scan looks at: those whose entry is in the cache, expires, and has not expired. */
  lemma KeyConsideredIff(s: State)
    requires s.scanner.Selecting? && s.scanner.todo != []
    ensures Step(s, SelectLook).Some?
    ensures var key, rest := s.scanner.todo[0].key, s.scanner.todo[1..];
            Step(s, SelectLook).value.scanner
            == if key in s.cache && 0 < s.cache[key].expiration && s.now <= s.cache[key].expiration then
                 Deciding(s.scanner.todo[0], s.cache[key].expiration, rest)
               else Selecting(rest)
  {
    hide QueryStep, TrackStep, RefreshStep, SaveStep, LoadStep;
  }

  /** Which tracked keys the scan finds: those whose count, when it looks, reaches the minimum. */
  lemma KeyFoundIff(s: State, key: string)
    requires s.scanner.Counting? && key in s.tracker && s.tracker[key] < |s.objects| && key !in s.scanner.visited
    ensures Step(s, CountKey(key)).Some?
    ensures var i := s.tracker[key];
            var count := s.objects[i].info.count;
            Step(s, CountKey(key)).value.scanner
            == Counting(s.scanner.visited + {key},
                        if count >= s.settings.minAccessCount then s.scanner.found + [Seen(key, i, count)]
                        else s.scanner.found)
  {
    hide QueryStep, TrackStep, RefreshStep, SaveStep, LoadStep;
  }

  /** Which tracked keys the scan forgets: those without an unexpired entry in the cache when it starts. */
  lemma KeyForgottenIff(s: State, key: string)
    ensures s.scanner == Resting && s.settings.staleUpdater ==>
              && Step(s, ScanStart).Some?
              && Step(s, ScanStart).value.scanner.Cleaning?
              && (key in Step(s, ScanStart).value.scanner.present <==>
                    key in s.cache && (s.cache[key].expiration <= 0 || s.now <= s.cache[key].expiration))
    ensures s.scanner.Cleaning? ==>
              && (Step(s, CleanKey(key)).Some? <==> key in s.tracker && key !in s.scanner.present)
              && (Step(s, CleanKey(key)).Some? ==> Step(s, CleanKey(key)).value.tracker == s.tracker - {key})
  {
    hide QueryStep, TrackStep, RefreshStep, SaveStep, LoadStep;
  }
}
