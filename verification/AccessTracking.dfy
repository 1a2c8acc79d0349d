/** The access tracker's racy counters (cache/access_tracker.go): TrackAccess loads, adds or stores in separate steps,
    interleaved with itself, with the cleanup, and with restored snapshots. */
module AccessTracking {
  import opened Options
  import opened Machine
  import opened Dns
  import opened CacheTtl
  import opened CacheState
  import opened CacheSystem
  import opened StaleUpdates

  /** The completed calls counted in an object. */
  ghost function CountedIn(counted: seq<Counted>, i: nat): nat {
    if counted == [] then 0
    else CountedIn(counted[..|counted| - 1], i) + if counted[|counted| - 1].info == i then 1 else 0
  }

  /** The completed calls on a key. */
  ghost function CallsOn(counted: seq<Counted>, key: string): nat {
    if counted == [] then 0
    else CallsOn(counted[..|counted| - 1], key) + if counted[|counted| - 1].key == key then 1 else 0
  }

  ghost function RestoredWith(o: Object): int {
    if o.restored.Some? then o.restored.value else 0
  }

  /** An object's count is what it was restored with plus the calls counted in it, and an object TrackAccess created
      has at least its creator's. */
  ghost predicate ObjectOk(s: State, i: nat)
    requires i < |s.objects|
  {
    && s.objects[i].info.count == RestoredWith(s.objects[i]) + CountedIn(s.counted, i)
    && (s.objects[i].restored.None? ==> CountedIn(s.counted, i) >= 1)
  }

  /** What GetFrequentlyAccessed saw of an object it can still see, or more. */
  ghost predicate SeenOk(s: State, seen: Seen) {
    && seen.info < |s.objects| && s.objects[seen.info].key == seen.key
    && seen.count <= RestoredWith(s.objects[seen.info]) + CountedIn(s.counted, seen.info)
  }

  ghost predicate CallOk(s: State, p: Proc) {
    p.Adding? || p.Stamping? ==> p.info < |s.objects| && s.objects[p.info].key == p.key
  }

  ghost predicate ObjectsInv(s: State) {
    forall i: nat :: i < |s.objects| ==> ObjectOk(s, i)
  }

  ghost predicate KeysInv(s: State) {
    && (forall j :: 0 <= j < |s.counted| ==>
          s.counted[j].info < |s.objects| && s.objects[s.counted[j].info].key == s.counted[j].key)
    && (forall k :: k in s.tracker ==> s.tracker[k] < |s.objects| && s.objects[s.tracker[k]].key == k)
    && (forall t :: t in s.procs ==> CallOk(s, s.procs[t]))
  }

  ghost predicate SeenInv(s: State) {
    && (forall i :: 0 <= i < |Remaining(s.scanner)| ==> SeenOk(s, Remaining(s.scanner)[i]))
    && (forall i :: 0 <= i < |s.starts| ==> SeenOk(s, s.starts[i].seen))
  }

  ghost predicate Inv(s: State) {
    ObjectsInv(s) && KeysInv(s) && SeenInv(s)
  }

  lemma CountedSnoc(counted: seq<Counted>, c: Counted, i: nat, key: string)
    ensures CountedIn(counted + [c], i) == CountedIn(counted, i) + if c.info == i then 1 else 0
    ensures CallsOn(counted + [c], key) == CallsOn(counted, key) + if c.key == key then 1 else 0
  {
    assert (counted + [c])[..|counted|] == counted;
  }

  lemma {:induction false} NothingCountedBeyond(counted: seq<Counted>, i: nat)
    requires forall j :: 0 <= j < |counted| ==> counted[j].info < i
    ensures CountedIn(counted, i) == 0
  {
    if counted != [] { NothingCountedBeyond(counted[..|counted| - 1], i); }
  }

  /** How a step may change the tracker's objects and the log of calls. */
  ghost predicate Quiet(s: State, s': State) {
    && s'.objects == s.objects && s'.counted == s.counted
    && (forall k :: k in s'.tracker ==> k in s.tracker && s'.tracker[k] == s.tracker[k])
  }

  lemma OtherStepsAreQuiet(s: State, e: Event)
    requires Step(s, e).Some? && PartOf(e) != TrackPart && !e.LoadTrack?
    ensures Quiet(s, Step(s, e).value)
  {
    hide Live, LiveItems, Parsed, EntryOf, AccessOf, Stored, Key;
  }

  /** Only TrackAccess moves a goroutine to the counting and stamping actions. */
  ghost predicate CallsStay(s: State, s': State) {
    forall t :: t in s'.procs ==>
      || (t in s.procs && s'.procs[t] == s.procs[t])
      || !(s'.procs[t].Adding? || s'.procs[t].Stamping?)
  }

  lemma SnapshotStepsKeepCalls(s: State, e: Event)
    requires Step(s, e).Some? && (PartOf(e) == SavePart || PartOf(e) == LoadPart)
    ensures CallsStay(s, Step(s, e).value)
  {
    hide Live, LiveItems, Parsed, EntryOf, AccessOf, QueryStep, RefreshStep, ScanStep, TrackStep;
  }

  lemma OtherStepsKeepCalls(s: State, e: Event)
    requires Step(s, e).Some? && PartOf(e) != TrackPart
    ensures CallsStay(s, Step(s, e).value)
  {
    hide Live, LiveItems, Stored, Key, SaveStep, LoadStep, TrackStep;
    if PartOf(e) == SavePart || PartOf(e) == LoadPart { SnapshotStepsKeepCalls(s, e); }
  }

  lemma QuietKeepsObjects(s: State, s': State)
    requires Quiet(s, s') && ObjectsInv(s)
    ensures ObjectsInv(s')
  {
    forall i: nat | i < |s'.objects| ensures ObjectOk(s', i) { assert ObjectOk(s, i); }
  }

  lemma AddKeeps(s: State, t: nat)
    requires ObjectsInv(s) && KeysInv(s) && TrackStep(s, TrackAdd(t)).Some?
    ensures ObjectsInv(TrackStep(s, TrackAdd(t)).value) && KeysInv(TrackStep(s, TrackAdd(t)).value)
  {
    hide CountedIn, CallsOn;
    var s' := TrackStep(s, TrackAdd(t)).value;
    var p := s.procs[t];
    assert CallOk(s, p);
    forall i: nat | i < |s'.objects|
      ensures ObjectOk(s', i)
    {
      assert ObjectOk(s, i);
      CountedSnoc(s.counted, Counted(p.key, p.info), i, p.key);
    }
    forall u | u in s'.procs ensures CallOk(s', s'.procs[u]) { assert u in s.procs && CallOk(s, s.procs[u]); }
  }

  lemma InsertKeeps(s: State, t: nat)
    requires ObjectsInv(s) && KeysInv(s) && TrackStep(s, TrackInsert(t)).Some?
    ensures ObjectsInv(TrackStep(s, TrackInsert(t)).value) && KeysInv(TrackStep(s, TrackInsert(t)).value)
  {
    var s' := TrackStep(s, TrackInsert(t)).value;
    var p := s.procs[t];
    NothingCountedBeyond(s.counted, |s.objects|);
    hide CountedIn, CallsOn;
    forall i: nat | i < |s'.objects|
      ensures ObjectOk(s', i)
    {
      assert i < |s.objects| ==> ObjectOk(s, i);
      CountedSnoc(s.counted, Counted(p.key, |s.objects|), i, p.key);
    }
    forall u | u in s'.procs ensures CallOk(s', s'.procs[u]) { assert u in s.procs && CallOk(s, s.procs[u]); }
  }

  lemma StampKeeps(s: State, t: nat)
    requires ObjectsInv(s) && KeysInv(s) && TrackStep(s, TrackStamp(t)).Some?
    ensures ObjectsInv(TrackStep(s, TrackStamp(t)).value) && KeysInv(TrackStep(s, TrackStamp(t)).value)
  {
    hide CountedIn, CallsOn;
    var s' := TrackStep(s, TrackStamp(t)).value;
    forall i: nat | i < |s'.objects| ensures ObjectOk(s', i) { assert ObjectOk(s, i); }
    forall u | u in s'.procs ensures CallOk(s', s'.procs[u]) { assert u in s.procs && CallOk(s, s.procs[u]); }
  }

  lemma LoadTrackKeeps(s: State, t: nat)
    requires ObjectsInv(s) && KeysInv(s) && LoadStep(s, LoadTrack(t)).Some?
    ensures ObjectsInv(LoadStep(s, LoadTrack(t)).value) && KeysInv(LoadStep(s, LoadTrack(t)).value)
  {
    var s' := LoadStep(s, LoadTrack(t)).value;
    NothingCountedBeyond(s.counted, |s.objects|);
    hide CountedIn, CallsOn;
    forall i: nat | i < |s'.objects| ensures ObjectOk(s', i) { assert i < |s.objects| ==> ObjectOk(s, i); }
    forall u | u in s'.procs ensures CallOk(s', s'.procs[u]) { assert u in s.procs && CallOk(s, s.procs[u]); }
  }

  lemma TrackLoadKeeps(s: State, t: nat)
    requires ObjectsInv(s) && KeysInv(s) && TrackStep(s, TrackLoad(t)).Some?
    ensures ObjectsInv(TrackStep(s, TrackLoad(t)).value) && KeysInv(TrackStep(s, TrackLoad(t)).value)
  {
    hide CountedIn, ObjectOk;
    QuietKeepsObjects(s, TrackStep(s, TrackLoad(t)).value);
  }

  lemma OtherStepKeeps(s: State, e: Event)
    requires ObjectsInv(s) && KeysInv(s) && Step(s, e).Some? && PartOf(e) != TrackPart && !e.LoadTrack?
    ensures ObjectsInv(Step(s, e).value) && KeysInv(Step(s, e).value)
  {
    hide CountedIn, ObjectOk, Step;
    OtherStepsAreQuiet(s, e);
    OtherStepsKeepCalls(s, e);
    QuietKeepsObjects(s, Step(s, e).value);
  }

  lemma StepKeepsObjectsAndKeys(s: State, e: Event)
    requires ObjectsInv(s) && KeysInv(s) && Step(s, e).Some?
    ensures ObjectsInv(Step(s, e).value) && KeysInv(Step(s, e).value)
  {
    hide ObjectsInv, KeysInv, TrackStep, LoadStep;
    match e
    case TrackAdd(t) => AddKeeps(s, t);
    case TrackInsert(t) => InsertKeeps(s, t);
    case TrackStamp(t) => StampKeeps(s, t);
    case TrackLoad(t) => TrackLoadKeeps(s, t);
    case LoadTrack(t) => LoadTrackKeeps(s, t);
    case _ => OtherStepKeeps(s, e);
  }

  /** Objects keep their key and restored count, and calls counted in them only grow in number. */
  lemma SeenStays(s: State, e: Event, seen: Seen)
    requires SeenOk(s, seen) && Step(s, e).Some?
    ensures SeenOk(Step(s, e).value, seen)
  {
    hide CountedIn, CallsOn, Parsed, Expired;
    match e
    case TrackAdd(t) => CountedSnoc(s.counted, Counted(s.procs[t].key, s.procs[t].info), seen.info, seen.key);
    case TrackInsert(t) => CountedSnoc(s.counted, Counted(s.procs[t].key, |s.objects|), seen.info, seen.key);
    case LoadTrack(t) =>
    case TrackLoad(_) =>
    case TrackStamp(_) =>
    case _ =>
      OtherStepsAreQuiet(s, e);
      hide Step;
  }

  /** What a scan step adds to what the scan has seen and started. */
  lemma ScanSees(s: State, e: Event)
    requires ScanStep(s, e).Some?
    ensures var s' := ScanStep(s, e).value;
            var before, after := Remaining(s.scanner), Remaining(s'.scanner);
            && (after == before || after == [] || (before != [] && after == before[1..])
                || (e.CountKey? && e.key in s.tracker && s.tracker[e.key] < |s.objects|
                    && after == before + [Seen(e.key, s.tracker[e.key], s.objects[s.tracker[e.key]].info.count)]))
            && (s'.starts == s.starts
                || (before != [] && exists r, n :: s'.starts == s.starts + [Start(before[0], r, n)]))
  {
    hide Live, LiveItems;
    match e
    case SelectDecide(t) =>
      var s' := ScanStep(s, e).value;
      assert Remaining(s'.scanner) == Remaining(s.scanner)[1..];
      if s'.starts != s.starts {
        var remaining := s.scanner.expiration - s.now;
        assert s'.starts == s.starts + [Start(Remaining(s.scanner)[0], remaining, s.scan)];
      }
    case _ =>
  }

  lemma StepKeepsSeen(s: State, e: Event)
    requires Inv(s) && Step(s, e).Some?
    ensures SeenInv(Step(s, e).value)
  {
    hide SeenOk, ObjectsInv, KeysInv;
    var s' := Step(s, e).value;
    forall seen | SeenOk(s, seen) ensures SeenOk(s', seen) { SeenStays(s, e, seen); }
    if PartOf(e) == ScanPart {
      ScanSees(s, e);
      hide Step, ScanStep, Remaining;
      if e.CountKey? && e.key in s.tracker && s.tracker[e.key] < |s.objects| { LiveObjectSeen(s, e.key); }
    } else {
      SeenFrame(s, e);
      hide Step, Remaining;
    }
  }

  lemma LiveObjectSeen(s: State, key: string)
    requires ObjectsInv(s) && KeysInv(s) && key in s.tracker
    ensures SeenOk(s, Seen(key, s.tracker[key], s.objects[s.tracker[key]].info.count))
  {
    assert ObjectOk(s, s.tracker[key]);
  }

  lemma SeenFrame(s: State, e: Event)
    requires Step(s, e).Some? && PartOf(e) != ScanPart
    ensures Step(s, e).value.starts == s.starts
    ensures Remaining(Step(s, e).value.scanner) == Remaining(s.scanner)
            || Remaining(Step(s, e).value.scanner) == []
  {
    ScanFrame(s, e);
    hide Step;
  }

  lemma ReachableInv(lib: Library, settings: Settings, now: int, s: State)
    requires Reachable(Step, Init(lib, settings, now), s)
    ensures Inv(s)
  {
    var inv := (x: State) => Inv(x);
    assert inv(Init(lib, settings, now));
    forall x, e | inv(x) && Step(x, e).Some?
      ensures inv(Step(x, e).value)
    {
      StepKeepsObjectsAndKeys(x, e);
      StepKeepsSeen(x, e);
      hide ObjectsInv, KeysInv, SeenInv, Step;
    }
    hide Inv, Step;
    assert Preserved(Step, inv);
    InvariantReachable(Step, Init(lib, settings, now), inv, s);
  }

  /** What the first n objects stored under a key have counted beyond what they were restored with. */
  ghost function Tally(objects: seq<Object>, key: string, n: nat): int
    requires n <= |objects|
  {
    if n == 0 then 0
    else Tally(objects, key, n - 1)
         + if objects[n - 1].key == key then objects[n - 1].info.count - RestoredWith(objects[n - 1]) else 0
  }

  /** The same sum, of the calls counted in each object. */
  ghost function CallsIn(objects: seq<Object>, counted: seq<Counted>, key: string, n: nat): nat
    requires n <= |objects|
  {
    if n == 0 then 0
    else CallsIn(objects, counted, key, n - 1)
         + if objects[n - 1].key == key then CountedIn(counted, n - 1) else 0
  }

  lemma {:induction false} TallyIsCallsIn(s: State, key: string, n: nat)
    requires ObjectsInv(s) && n <= |s.objects|
    ensures Tally(s.objects, key, n) == CallsIn(s.objects, s.counted, key, n)
  {
    if n > 0 {
      TallyIsCallsIn(s, key, n - 1);
      assert ObjectOk(s, n - 1);
    }
  }

  lemma {:induction false} CallsInSnoc(objects: seq<Object>, counted: seq<Counted>, c: Counted, key: string, n: nat)
    requires n <= |objects| && c.info < |objects| && objects[c.info].key == c.key
    ensures CallsIn(objects, counted + [c], key, n)
            == CallsIn(objects, counted, key, n) + if c.key == key && c.info < n then 1 else 0
  {
    if n > 0 {
      CallsInSnoc(objects, counted, c, key, n - 1);
      CountedSnoc(counted, c, n - 1, key);
    }
  }

  lemma {:induction false} NoCallsIn(objects: seq<Object>, key: string, n: nat)
    requires n <= |objects|
    ensures CallsIn(objects, [], key, n) == 0
  {
    if n > 0 { NoCallsIn(objects, key, n - 1); }
  }

  lemma {:induction false} AllCallsAreIn(objects: seq<Object>, counted: seq<Counted>, key: string)
    requires forall j :: 0 <= j < |counted| ==>
               counted[j].info < |objects| && objects[counted[j].info].key == counted[j].key
    ensures CallsIn(objects, counted, key, |objects|) == CallsOn(counted, key)
  {
    if counted == [] {
      NoCallsIn(objects, key, |objects|);
    } else {
      var front, c := counted[..|counted| - 1], counted[|counted| - 1];
      AllCallsAreIn(objects, front, key);
      CallsInSnoc(objects, front, c, key, |objects|);
      assert front + [c] == counted;
    }
  }

  /** Two different objects of a key share out at most all of its calls. */
  lemma {:induction false} CallsInAtLeast(objects: seq<Object>, counted: seq<Counted>, key: string, n: nat,
                                          i: nat, j: nat)
    requires i < n <= |objects| && objects[i].key == key
    ensures CallsIn(objects, counted, key, n)
            >= CountedIn(counted, i) + (if i != j < n && objects[j].key == key then CountedIn(counted, j) else 0)
  {
    if i < n - 1 {
      CallsInAtLeast(objects, counted, key, n - 1, i, j);
    } else if j < n - 1 && objects[j].key == key {
      CallsInAtLeast(objects, counted, key, n - 1, j, j);
    }
  }

  lemma {:induction false} CallsInOnly(objects: seq<Object>, counted: seq<Counted>, key: string, n: nat, i: nat)
    requires i < |objects| && n <= |objects| && objects[i].key == key
    requires forall j :: 0 <= j < |objects| && objects[j].key == key && j != i ==> CountedIn(counted, j) == 0
    ensures CallsIn(objects, counted, key, n) == if i < n then CountedIn(counted, i) else 0
  {
    if n > 0 { CallsInOnly(objects, counted, key, n - 1, i); }
  }

  /** Conservation: over every interleaving, the objects ever created for a key have together counted exactly the
      completed TrackAccess calls on it, however the calls raced with each other, with cleanup and with a reload. */
  lemma EveryCallCountedOnce(lib: Library, settings: Settings, now: int, s: State, key: string)
    requires Reachable(Step, Init(lib, settings, now), s)
    ensures Tally(s.objects, key, |s.objects|) == CallsOn(s.counted, key)
    ensures forall j :: 0 <= j < |s.counted| ==>
              s.counted[j].info < |s.objects| && s.objects[s.counted[j].info].key == s.counted[j].key
  {
    ReachableInv(lib, settings, now, s);
    TallyIsCallsIn(s, key, |s.objects|);
    AllCallsAreIn(s.objects, s.counted, key);
  }

  lemma CountIsAtMostCalls(s: State, i: nat)
    requires Inv(s) && i < |s.objects|
    ensures CountedIn(s.counted, i) <= CallsOn(s.counted, s.objects[i].key)
  {
    AllCallsAreIn(s.objects, s.counted, s.objects[i].key);
    CallsInAtLeast(s.objects, s.counted, s.objects[i].key, |s.objects|, i, i);
  }

  /** The live count never exceeds the calls made plus what a snapshot restored. */
  lemma LiveCountIsBounded(lib: Library, settings: Settings, now: int, s: State, key: string)
    requires Reachable(Step, Init(lib, settings, now), s) && key in s.tracker
    ensures s.tracker[key] < |s.objects| && s.objects[s.tracker[key]].key == key
    ensures var live := s.objects[s.tracker[key]];
            RestoredWith(live) <= live.info.count <= RestoredWith(live) + CallsOn(s.counted, key)
  {
    ReachableInv(lib, settings, now, s);
    assert ObjectOk(s, s.tracker[key]);
    CountIsAtMostCalls(s, s.tracker[key]);
  }

  ghost predicate NeverRestored(s: State, key: string) {
    forall i :: 0 <= i < |s.objects| && s.objects[i].key == key ==> s.objects[i].restored.None?
  }

  /** A refresh is only ever started for a key that was tracked often enough: without restored counts, every key the
      scan selects has had at least the minimum number of completed calls, and at least as many as it was seen with. */
  lemma SelectedKeysWereTracked(lib: Library, settings: Settings, now: int, s: State)
    requires Reachable(Step, Init(lib, settings, now), s)
    ensures forall i :: 0 <= i < |Remaining(s.scanner)| && NeverRestored(s, Remaining(s.scanner)[i].key) ==>
              CallsOn(s.counted, Remaining(s.scanner)[i].key) >= Remaining(s.scanner)[i].count
                                                              >= settings.minAccessCount
    ensures forall i :: 0 <= i < |s.starts| && NeverRestored(s, s.starts[i].seen.key) ==>
              CallsOn(s.counted, s.starts[i].seen.key) >= s.starts[i].seen.count >= settings.minAccessCount
  {
    ReachableInv(lib, settings, now, s);
    StaleUpdates.ReachableInv(lib, settings, now, s);
    hide CountedIn, CallsOn, Remaining;
    forall seen | SeenOk(s, seen) && NeverRestored(s, seen.key)
      ensures CallsOn(s.counted, seen.key) >= seen.count
    {
      CountIsAtMostCalls(s, seen.info);
    }
    hide SeenOk, NeverRestored;
    assert forall i :: 0 <= i < |s.starts| ==> StartOk(settings, s.starts[i]);
  }

  /** When the live count is exact: it equals what it was restored with plus the completed calls on the key exactly when
      no other object of the key counted one of those calls. Without restored counts, every other object counted at
      least its creator's, so the count is exact exactly when the key has only ever had one object. */
  lemma LiveCountExactIff(lib: Library, settings: Settings, now: int, s: State, key: string)
    requires Reachable(Step, Init(lib, settings, now), s) && key in s.tracker
    ensures s.tracker[key] < |s.objects|
    ensures var live := s.objects[s.tracker[key]];
            live.info.count == RestoredWith(live) + CallsOn(s.counted, key)
            <==> forall j :: 0 <= j < |s.objects| && s.objects[j].key == key && j != s.tracker[key] ==>
                   CountedIn(s.counted, j) == 0
    ensures NeverRestored(s, key) ==>
              (s.objects[s.tracker[key]].info.count == CallsOn(s.counted, key)
               <==> forall j :: 0 <= j < |s.objects| && s.objects[j].key == key ==> j == s.tracker[key])
  {
    ReachableInv(lib, settings, now, s);
    var i := s.tracker[key];
    assert ObjectOk(s, i);
    AllCallsAreIn(s.objects, s.counted, key);
    forall j: nat | j < |s.objects| && NeverRestored(s, key) && s.objects[j].key == key
      ensures CountedIn(s.counted, j) > 0
    {
      assert ObjectOk(s, j);
    }
    hide CountedIn, CallsOn, ObjectOk;
    if j :| 0 <= j < |s.objects| && s.objects[j].key == key && j != i && CountedIn(s.counted, j) != 0 {
      CallsInAtLeast(s.objects, s.counted, key, |s.objects|, i, j);
    } else {
      CallsInOnly(s.objects, s.counted, key, |s.objects|, i);
    }
  }

  /** Two calls that both missed the key: the second stores over the first, whose count is lost to the tracker. */
  lemma RacingFirstCallsLoseOne(s: State, a: nat, b: nat)
    requires a != b && a in s.procs && b in s.procs && s.procs[a].Inserting? && s.procs[b].Inserting?
    requires s.procs[a].key == s.procs[b].key
    ensures Step(s, TrackInsert(a)).Some? && Step(Step(s, TrackInsert(a)).value, TrackInsert(b)).Some?
    ensures var key, s' := s.procs[a].key, Step(Step(s, TrackInsert(a)).value, TrackInsert(b)).value;
            && CallsOn(s'.counted, key) == CallsOn(s.counted, key) + 2
            && key in s'.tracker && s'.tracker[key] < |s'.objects| && s'.objects[s'.tracker[key]].info.count == 1
  {
    var key := s.procs[a].key;
    CountedSnoc(s.counted, Counted(key, |s.objects|), 0, key);
    CountedSnoc(s.counted + [Counted(key, |s.objects|)], Counted(key, |s.objects| + 1), 0, key);
  }

  /** At most the cache, the goroutines and the history have changed. */
  ghost predicate SameTracking(s: State, s': State) {
    && s'.lib == s.lib && s'.settings == s.settings && s'.now == s.now
    && s'.scanner == s.scanner && s'.tokens == s.tokens
    && s'.tracker == s.tracker && s'.objects == s.objects && s'.counted == s.counted
  }

  /** A query that misses and is answered with no records leaves a negative entry. */
  lemma AnsweredQuery(start: State, before: seq<Event>, s: State, t: nat, domain: string, qtype: Uint16)
    returns (events: seq<Event>, s': State)
    requires Exec(Step, start, before) == Some(s) && Validated(s.settings)
    requires t !in s.procs && Key(s.lib, domain, qtype) !in s.cache
    ensures Exec(Step, start, events) == Some(s') && SameTracking(s, s') && s'.procs == s.procs - {t}
    ensures var key := Key(s.lib, domain, qtype);
            && key in s'.cache && Live(s'.cache[key], s.now)
            && s'.cache[key].expiration == s.now + s.settings.defaultTtl / NEGATIVE_RESPONSE_TTL_DIVISOR
  {
    hide Key, Exec;
    events, s' := Extend(Step, start, before, s, Query(t, domain, qtype));
    events, s' := Extend(Step, start, events, s', Look(t));
    events, s' := Extend(Step, start, events, s', Resolve(t, []));
    events, s' := Extend(Step, start, events, s', Fill(t));
  }

  /** A hit on an untracked key gets as far as missing it in the tracker. */
  lemma HitMissesTracker(start: State, before: seq<Event>, s: State, t: nat, domain: string, qtype: Uint16)
    returns (events: seq<Event>, s': State)
    requires Exec(Step, start, before) == Some(s) && s.settings.staleUpdater && t !in s.procs
    requires var key := Key(s.lib, domain, qtype); key in s.cache && Live(s.cache[key], s.now) && key !in s.tracker
    ensures Exec(Step, start, events) == Some(s') && SameTracking(s, s') && s'.cache == s.cache
    ensures s'.procs == s.procs[t := Inserting(Key(s.lib, domain, qtype), domain, qtype, s.now)]
  {
    hide Key, Live, Exec;
    events, s' := Extend(Step, start, before, s, Query(t, domain, qtype));
    events, s' := Extend(Step, start, events, s', Look(t));
    events, s' := Extend(Step, start, events, s', TrackLoad(t));
  }

  /** The live count can be too small: two first hits on a cached name race, and one of the two is not in it. */
  lemma ExactCountFails(lib: Library, settings: Settings, now: int, domain: string, qtype: Uint16)
    returns (events: seq<Event>, s: State)
    requires Validated(settings) && settings.staleUpdater
    ensures Exec(Step, Init(lib, settings, now), events) == Some(s)
    ensures var key := Key(lib, domain, qtype);
            && key in s.tracker && s.tracker[key] < |s.objects|
            && CallsOn(s.counted, key) == 2 && s.objects[s.tracker[key]].info.count == 1
  {
    var start, key := Init(lib, settings, now), Key(lib, domain, qtype);
    assert Exec(Step, start, []) == Some(start);
    hide Key, Validated;
    events, s := AnsweredQuery(start, [], start, 0, domain, qtype);
    events, s := HitMissesTracker(start, events, s, 0, domain, qtype);
    events, s := HitMissesTracker(start, events, s, 1, domain, qtype);
    RacingFirstCallsLoseOne(s, 0, 1);
    hide Step, Exec, Live;
    events, s := Extend(Step, start, events, s, TrackInsert(0));
    events, s := Extend(Step, start, events, s, TrackInsert(1));
  }
}
