/** The health-check fan-out (dnssource/dnssource.go, UpdateDNSServersCache): a semaphore of WorkerCount tokens, a
    wait group, and two lists filled under a mutex, as a state machine over the goroutines' atomic actions. */
module HealthCheck {
  import opened Options
  import opened Finite
  import opened Machine

  datatype ServerType = Unknown | Private | Public

  datatype Config = Config(privateServers: seq<string>, publicServers: seq<string>, workerCount: nat)

  /** The type of a server: configured as both counts as public. */
  function TypeOf(config: Config, server: string): ServerType {
    if server != "" && server in config.publicServers then Public
    else if server != "" && server in config.privateServers then Private
    else Unknown
  }

  /** The goroutine checking one server. `ok` is the outcome of its exchange. */
  datatype Checker = Checking | Storing | Leaving(ok: bool) | Released(ok: bool) | Finished(ok: bool)

  /** The spawning loop at server number `next`, then the wait for the goroutines, then the swap. */
  datatype Spawner = Adding(next: nat) | Acquiring(next: nat) | Spawning(next: nat) | Published

  datatype State = State(
    config: Config,
    servers: seq<string>,
    spawner: Spawner,
    wg: nat,
    tokens: nat,
    checkers: map<string, Checker>,
    reachablePrivate: seq<string>,
    reachablePublic: seq<string>)

  datatype Event =
    | Add
    | Acquire
    | Spawn
    | Check(server: string, ok: bool)
    | Store(server: string)
    | Release(server: string)
    | Done(server: string)
    | Publish

  function Start(config: Config, servers: seq<string>): State {
    State(config, servers, Adding(0), 0, 0, map[], [], [])
  }

  function SpawnerStep(s: State, e: Event): Option<State> {
    match e
    case Add =>
      if s.spawner.Adding? && s.spawner.next < |s.servers| then
        Some(s.(wg := s.wg + 1, spawner := Acquiring(s.spawner.next)))
      else None
    case Acquire =>
      if s.spawner.Acquiring? && s.tokens < s.config.workerCount then
        Some(s.(tokens := s.tokens + 1, spawner := Spawning(s.spawner.next)))
      else None
    case Spawn =>
      if s.spawner.Spawning? && s.spawner.next < |s.servers| then
        Some(s.(checkers := s.checkers[s.servers[s.spawner.next] := Checking], spawner := Adding(s.spawner.next + 1)))
      else None
    case Publish =>
      if s.spawner.Adding? && s.spawner.next == |s.servers| && s.wg == 0 then Some(s.(spawner := Published)) else None
    case _ => None
  }

  function CheckerStep(s: State, e: Event): Option<State> {
    match e
    case Check(x, ok) =>
      if x in s.checkers && s.checkers[x] == Checking then
        Some(s.(checkers := s.checkers[x := if ok then Storing else Leaving(false)]))
      else None
    case Store(x) =>
      if x in s.checkers && s.checkers[x] == Storing then
        var s' := s.(checkers := s.checkers[x := Leaving(true)]);
        match TypeOf(s.config, x)
        case Private => Some(s'.(reachablePrivate := s.reachablePrivate + [x]))
        case Public => Some(s'.(reachablePublic := s.reachablePublic + [x]))
        case Unknown => Some(s')
      else None
    case Release(x) =>
      if x in s.checkers && s.checkers[x].Leaving? && s.tokens > 0 then
        Some(s.(checkers := s.checkers[x := Released(s.checkers[x].ok)], tokens := s.tokens - 1))
      else None
    case Done(x) =>
      if x in s.checkers && s.checkers[x].Released? && s.wg > 0 then
        Some(s.(checkers := s.checkers[x := Finished(s.checkers[x].ok)], wg := s.wg - 1))
      else None
    case _ => None
  }

  function Step(s: State, e: Event): Option<State> {
    if e == Add || e == Acquire || e == Spawn || e == Publish then SpawnerStep(s, e) else CheckerStep(s, e)
  }

  ghost predicate HoldsToken(c: Checker) {
    c.Checking? || c.Storing? || c.Leaving?
  }

  ghost function Holders(checkers: map<string, Checker>): set<string> {
    set x | x in checkers && HoldsToken(checkers[x])
  }

  ghost function Unfinished(checkers: map<string, Checker>): set<string> {
    set x | x in checkers && !checkers[x].Finished?
  }

  ghost predicate Succeeded(c: Checker) {
    (c.Leaving? || c.Released? || c.Finished?) && c.ok
  }

  ghost predicate CountsInv(s: State) {
    && s.tokens == |Holders(s.checkers)| + (if s.spawner.Spawning? then 1 else 0)
    && s.tokens <= s.config.workerCount
    && s.wg == |Unfinished(s.checkers)| + (if s.spawner.Acquiring? || s.spawner.Spawning? then 1 else 0)
  }

  function Spawned(s: State): nat {
    match s.spawner
    case Adding(next) => next
    case Acquiring(next) => next
    case Spawning(next) => next
    case Published => |s.servers|
  }

  ghost predicate SpawnedInv(s: State) {
    && Distinct(s.servers)
    && Spawned(s) <= |s.servers|
    && ((s.spawner.Acquiring? || s.spawner.Spawning?) ==> s.spawner.next < |s.servers|)
    && (forall x :: x in s.checkers <==> x in s.servers[..Spawned(s)])
    && (s.spawner == Published ==> s.wg == 0)
  }

  ghost predicate ListInv(s: State, list: seq<string>, t: ServerType) {
    && Distinct(list)
    && forall x :: x in list <==> x in s.checkers && Succeeded(s.checkers[x]) && TypeOf(s.config, x) == t
  }

  ghost predicate ListsInv(s: State) {
    ListInv(s, s.reachablePrivate, Private) && ListInv(s, s.reachablePublic, Public)
  }

  ghost predicate Inv(s: State) {
    CountsInv(s) && SpawnedInv(s) && ListsInv(s)
  }

  lemma HoldersUpdate(checkers: map<string, Checker>, x: string, c: Checker)
    requires x in checkers
    ensures |Holders(checkers[x := c])| == |Holders(checkers)| - (if HoldsToken(checkers[x]) then 1 else 0)
                                           + (if HoldsToken(c) then 1 else 0)
  {
    assert Holders(checkers[x := c]) == if HoldsToken(c) then Holders(checkers) + {x} else Holders(checkers) - {x};
  }

  lemma UnfinishedUpdate(checkers: map<string, Checker>, x: string, c: Checker)
    requires x in checkers
    ensures |Unfinished(checkers[x := c])| == |Unfinished(checkers)| - (if checkers[x].Finished? then 0 else 1)
                                              + (if c.Finished? then 0 else 1)
  {
    assert x in Unfinished(checkers) <==> !checkers[x].Finished?;
    assert Unfinished(checkers[x := c])
           == if c.Finished? then Unfinished(checkers) - {x} else Unfinished(checkers) + {x};
  }

  lemma CheckerAdded(checkers: map<string, Checker>, x: string)
    requires x !in checkers
    ensures |Holders(checkers[x := Checking])| == |Holders(checkers)| + 1
    ensures |Unfinished(checkers[x := Checking])| == |Unfinished(checkers)| + 1
  {
    assert Holders(checkers[x := Checking]) == Holders(checkers) + {x};
    assert Unfinished(checkers[x := Checking]) == Unfinished(checkers) + {x};
  }

  lemma NextIsNew(s: State)
    requires SpawnedInv(s) && s.spawner.Spawning?
    ensures s.servers[s.spawner.next] !in s.checkers
    ensures s.servers[..s.spawner.next + 1] == s.servers[..s.spawner.next] + [s.servers[s.spawner.next]]
  {
  }

  lemma StepKeepsCounts(s: State, e: Event)
    requires Inv(s) && Step(s, e).Some?
    ensures CountsInv(Step(s, e).value)
  {
    hide Holders, Unfinished, ListInv, TypeOf;
    if e == Spawn {
      NextIsNew(s);
      CheckerAdded(s.checkers, s.servers[s.spawner.next]);
    } else if e.Check? || e.Store? || e.Release? || e.Done? {
      HoldersUpdate(s.checkers, e.server, Step(s, e).value.checkers[e.server]);
      UnfinishedUpdate(s.checkers, e.server, Step(s, e).value.checkers[e.server]);
    }
  }

  lemma StepKeepsSpawned(s: State, e: Event)
    requires Inv(s) && Step(s, e).Some?
    ensures SpawnedInv(Step(s, e).value)
  {
    hide Holders, Unfinished, ListsInv, TypeOf, Distinct;
    if e == Add || e == Acquire || e == Spawn || e == Publish {
      hide CheckerStep;
      if e == Spawn { NextIsNew(s); }
    } else {
      hide SpawnerStep;
    }
  }

  lemma StoreKeepsLists(s: State, x: string)
    requires ListsInv(s) && CheckerStep(s, Store(x)).Some?
    ensures ListsInv(CheckerStep(s, Store(x)).value)
  {
    hide TypeOf;
    assert x !in s.reachablePrivate && x !in s.reachablePublic;
    if TypeOf(s.config, x) == Private { DistinctSnoc(s.reachablePrivate, x); }
    if TypeOf(s.config, x) == Public { DistinctSnoc(s.reachablePublic, x); }
  }

  /** A step of a checker that leaves its outcome alone, or puts it on its way. */
  lemma CheckersKeepLists(s: State, e: Event)
    requires ListsInv(s) && !e.Store? && CheckerStep(s, e).Some?
    ensures ListsInv(CheckerStep(s, e).value)
  {
    hide TypeOf, Distinct;
  }

  lemma SpawnerKeepsLists(s: State, e: Event)
    requires ListsInv(s) && SpawnedInv(s) && SpawnerStep(s, e).Some?
    ensures ListsInv(SpawnerStep(s, e).value)
  {
    if e == Spawn { NextIsNew(s); }
    hide TypeOf, Distinct, SpawnedInv;
  }

  lemma StepKeepsLists(s: State, e: Event)
    requires Inv(s) && Step(s, e).Some?
    ensures ListsInv(Step(s, e).value)
  {
    assert ListsInv(s);
    hide ListsInv, ListInv, CountsInv, SpawnedInv, SpawnerStep, CheckerStep;
    if e == Add || e == Acquire || e == Spawn || e == Publish {
      SpawnerKeepsLists(s, e);
    } else if e.Store? {
      StoreKeepsLists(s, e.server);
    } else {
      CheckersKeepLists(s, e);
    }
  }

  lemma StepKeepsInv(s: State, e: Event)
    requires Inv(s) && Step(s, e).Some?
    ensures Inv(Step(s, e).value)
    ensures Step(s, e).value.config == s.config && Step(s, e).value.servers == s.servers
  {
    StepKeepsCounts(s, e);
    StepKeepsSpawned(s, e);
    StepKeepsLists(s, e);
    hide CountsInv, SpawnedInv, ListsInv, TypeOf;
  }

  lemma ReachableInv(config: Config, servers: seq<string>, s: State)
    requires Distinct(servers) && Reachable(Step, Start(config, servers), s)
    ensures Inv(s) && s.config == config && s.servers == servers
  {
    assert Inv(Start(config, servers));
    hide Inv, Step;
    var inv := (x: State) => Inv(x) && x.config == config && x.servers == servers;
    forall x, e | inv(x) && Step(x, e).Some? ensures inv(Step(x, e).value) { StepKeepsInv(x, e); }
    assert Preserved(Step, inv);
    InvariantReachable(Step, Start(config, servers), inv, s);
  }

  ghost function InFlight(checkers: map<string, Checker>): set<string> {
    set x | x in checkers && checkers[x] == Checking
  }

  /** No reachable state has more than WorkerCount exchanges in flight. */
  lemma ChecksInFlightBounded(config: Config, servers: seq<string>, s: State)
    requires Distinct(servers) && Reachable(Step, Start(config, servers), s)
    ensures |InFlight(s.checkers)| <= config.workerCount
  {
    ReachableInv(config, servers, s);
    SubsetCardinality(InFlight(s.checkers), Holders(s.checkers));
  }

  /** For every schedule: at the swap every server has been checked exactly once, and the two lists are duplicate-free
      and hold exactly the servers whose exchange succeeded, each in the list of its type. */
  lemma PublishedLists(config: Config, servers: seq<string>, s: State)
    requires Distinct(servers) && Reachable(Step, Start(config, servers), s) && s.spawner == Published
    ensures forall x :: x in servers <==> x in s.checkers
    ensures forall x :: x in servers ==> s.checkers[x].Finished?
    ensures Distinct(s.reachablePrivate) && Distinct(s.reachablePublic)
    ensures forall x :: x in s.reachablePrivate <==> x in servers && s.checkers[x].ok && TypeOf(config, x) == Private
    ensures forall x :: x in s.reachablePublic <==> x in servers && s.checkers[x].ok && TypeOf(config, x) == Public
  {
    ReachableInv(config, servers, s);
    assert servers[..|servers|] == servers;
    assert |Unfinished(s.checkers)| == 0;
    forall x | x in s.checkers ensures s.checkers[x].Finished? {
      assert x !in Unfinished(s.checkers);
    }
    hide TypeOf;
  }

  /** What a run's exchanges have told of a server: nothing before the exchange has ended, and then its outcome. */
  ghost predicate Told(s: State, x: string, succeeded: bool, failed: bool) {
    if x in s.checkers && s.checkers[x] != Checking then
      succeeded != failed && (succeeded <==> s.checkers[x] == Storing || Succeeded(s.checkers[x]))
    else !succeeded && !failed
  }

  lemma StepTells(s: State, e: Event, x: string, succeeded: bool, failed: bool)
    requires Inv(s) && Step(s, e).Some? && Told(s, x, succeeded, failed)
    ensures Told(Step(s, e).value, x, succeeded || e == Check(x, true), failed || e == Check(x, false))
  {
    hide CountsInv, ListsInv, TypeOf;
    if e == Spawn {
      var next := s.spawner.next;
      assert s.servers[next] !in s.servers[..next];
    }
  }

  lemma {:induction false} ExchangesTell(config: Config, servers: seq<string>, events: seq<Event>, x: string)
    requires Distinct(servers) && Exec(Step, Start(config, servers), events).Some?
    ensures Told(Exec(Step, Start(config, servers), events).value, x,
                 Check(x, true) in events, Check(x, false) in events)
  {
    if events != [] {
      var front, e := events[..|events| - 1], events[|events| - 1];
      ExchangesTell(config, servers, front, x);
      var s := Exec(Step, Start(config, servers), front).value;
      assert Reachable(Step, Start(config, servers), s);
      assert events == front + [e];
      hide Step, Inv, Told;
      ReachableInv(config, servers, s);
      StepTells(s, e, x, Check(x, true) in front, Check(x, false) in front);
    }
  }

  /** Over every run of a check, at the swap each server's exchange has ended, once, and the lists hold exactly the
      servers whose exchange ended well: the public ones those configured as public, the private ones the others
      configured as private. */
  lemma ListsHoldTheReachable(config: Config, servers: seq<string>, events: seq<Event>, x: string)
    requires Distinct(servers) && Exec(Step, Start(config, servers), events).Some?
    requires Exec(Step, Start(config, servers), events).value.spawner == Published
    ensures var s := Exec(Step, Start(config, servers), events).value;
            && (x in servers <==> Check(x, true) in events || Check(x, false) in events)
            && !(Check(x, true) in events && Check(x, false) in events)
            && (x in s.reachablePublic <==> Check(x, true) in events && x != "" && x in config.publicServers)
            && (x in s.reachablePrivate <==>
                  Check(x, true) in events && x != "" && x in config.privateServers && x !in config.publicServers)
  {
    var s := Exec(Step, Start(config, servers), events).value;
    assert Reachable(Step, Start(config, servers), s);
    PublishedLists(config, servers, s);
    ExchangesTell(config, servers, events, x);
    hide Step, Exec, Reachable;
  }

  /** The check never deadlocks: until the swap some action is enabled (WorkerCount is validated positive). */
  lemma NeverStuck(config: Config, servers: seq<string>, s: State)
    requires config.workerCount > 0
    requires Distinct(servers) && Reachable(Step, Start(config, servers), s) && s.spawner != Published
    ensures exists e :: Step(s, e).Some?
  {
    ReachableInv(config, servers, s);
    hide ListInv;
    if x :| x in Unfinished(s.checkers) {
      var e := match s.checkers[x]
        case Checking => Check(x, true)
        case Storing => Store(x)
        case Leaving(_) => Release(x)
        case Released(_) => Done(x)
        case Finished(_) => Add;
      assert x in Unfinished(s.checkers) && (HoldsToken(s.checkers[x]) ==> x in Holders(s.checkers));
      assert Step(s, e).Some?;
    } else {
      assert Unfinished(s.checkers) == {} && Holders(s.checkers) == {};
      var e := match s.spawner
        case Adding(next) => if next < |servers| then Add else Publish
        case Acquiring(_) => Acquire
        case Spawning(_) => Spawn
        case Published => Publish;
      assert Step(s, e).Some?;
    }
  }

  /** The actions a checker has left. */
  function Effort(c: Checker): nat {
    match c case Checking => 4 case Storing => 3 case Leaving(_) => 2 case Released(_) => 1 case Finished(_) => 0
  }

  ghost function CheckersEffort(checkers: map<string, Checker>, servers: seq<string>): nat {
    if servers == [] then 0
    else
      var last := servers[|servers| - 1];
      CheckersEffort(checkers, servers[..|servers| - 1]) + if last in checkers then Effort(checkers[last]) else 0
  }

  lemma {:induction false} CheckerMoved(checkers: map<string, Checker>, servers: seq<string>, x: string, c: Checker)
    requires Distinct(servers)
    ensures CheckersEffort(checkers[x := c], servers)
            == CheckersEffort(checkers, servers)
               + if x in servers then Effort(c) - (if x in checkers then Effort(checkers[x]) else 0) else 0
  {
    hide Effort;
    if servers != [] {
      var front, last := servers[..|servers| - 1], servers[|servers| - 1];
      CheckerMoved(checkers, front, x, c);
      assert servers == front + [last];
      assert last !in front;
    }
  }

  /** The actions left until the swap. */
  ghost function Distance(s: State): int {
    CheckersEffort(s.checkers, s.servers)
    + match s.spawner
      case Adding(next) => 7 * (|s.servers| - next) + 1
      case Acquiring(next) => 7 * (|s.servers| - next)
      case Spawning(next) => 7 * (|s.servers| - next) - 1
      case Published => 0
  }

  lemma SpawnerGetsCloser(s: State, e: Event)
    requires SpawnedInv(s) && SpawnerStep(s, e).Some?
    ensures Distance(SpawnerStep(s, e).value) < Distance(s)
  {
    if e == Spawn {
      NextIsNew(s);
      hide SpawnedInv, CheckersEffort;
      CheckerMoved(s.checkers, s.servers, s.servers[s.spawner.next], Checking);
    } else {
      hide SpawnedInv, CheckersEffort;
    }
  }

  lemma OneCheckerMoves(s: State, e: Event)
    requires CheckerStep(s, e).Some?
    ensures var s' := CheckerStep(s, e).value;
            && s'.servers == s.servers && s'.spawner == s.spawner
            && (e.Check? || e.Store? || e.Release? || e.Done?) && e.server in s.checkers
            && s'.checkers == s.checkers[e.server := s'.checkers[e.server]]
            && Effort(s'.checkers[e.server]) < Effort(s.checkers[e.server])
  {
    hide TypeOf;
  }

  lemma CheckerGetsCloser(s: State, e: Event)
    requires SpawnedInv(s) && CheckerStep(s, e).Some?
    ensures Distance(CheckerStep(s, e).value) < Distance(s)
  {
    var s' := CheckerStep(s, e).value;
    OneCheckerMoves(s, e);
    assert e.server in s.servers;
    hide SpawnedInv, CheckersEffort, CheckerStep, Effort;
    CheckerMoved(s.checkers, s.servers, e.server, s'.checkers[e.server]);
  }

  lemma DistanceIsNatural(s: State)
    requires SpawnedInv(s)
    ensures 0 <= Distance(s)
  {
    hide CheckersEffort;
  }

  lemma StepGetsCloser(s: State, e: Event)
    requires Inv(s) && Step(s, e).Some?
    ensures 0 <= Distance(Step(s, e).value) < Distance(s)
  {
    StepKeepsInv(s, e);
    DistanceIsNatural(Step(s, e).value);
    hide CountsInv, ListsInv, SpawnedInv, Distance, SpawnerStep, CheckerStep;
    if e == Add || e == Acquire || e == Spawn || e == Publish {
      SpawnerGetsCloser(s, e);
    } else {
      CheckerGetsCloser(s, e);
    }
  }

  /** A check is bounded: in every schedule it is over after at most seven actions for each server and the swap; and as
      it is never stuck before the swap, the swap comes. */
  lemma {:induction false} CheckIsBounded(config: Config, servers: seq<string>, events: seq<Event>)
    requires Distinct(servers) && Exec(Step, Start(config, servers), events).Some?
    ensures var s := Exec(Step, Start(config, servers), events).value;
            Inv(s) && |events| + Distance(s) <= 7 * |servers| + 1 && 0 <= Distance(s)
  {
    if events == [] {
      NothingToDo(servers);
    } else {
      var front := events[..|events| - 1];
      CheckIsBounded(config, servers, front);
      var s := Exec(Step, Start(config, servers), front).value;
      hide Inv, Step, Distance;
      StepKeepsInv(s, events[|events| - 1]);
      StepGetsCloser(s, events[|events| - 1]);
    }
  }

  lemma {:induction false} NothingToDo(servers: seq<string>)
    ensures CheckersEffort(map[], servers) == 0
  {
    if servers != [] { NothingToDo(servers[..|servers| - 1]); }
  }
}
