/** The per-server usage counters (dnsresolver/dnsresolver.go, incrementServerUsage and GetServerUsageStats):
    double-checked creation under a read-write lock, atomic increments outside it. */
module UsageStats {
  import opened Options
  import opened Machine
  import opened Words

  /** A running call: before its read-locked lookup, wanting the write lock after a miss, holding it before and
      after the second check, or ready to add. */
  datatype Call =
    | Begin(server: string)
    | Missing(server: string)
    | Locked(server: string)
    | Checked(server: string, cell: nat)
    | Ready(server: string, cell: nat)

  /** A running GetServerUsageStats, which holds the read lock. History: `before` is the log length at its start. */
  datatype Reader = Reader(todo: set<string>, stats: map<string, int>, before: nat)

  /** `writer` is the goroutine holding the write lock. History: `log` lists the completed increments. */
  datatype State = State(
    stats: map<string, nat>,
    cells: seq<int>,
    writer: Option<nat>,
    calls: map<nat, Call>,
    readers: map<nat, Reader>,
    log: seq<string>)

  datatype Event =
    | Start(t: nat, server: string)
    | Lookup(t: nat)
    | Lock(t: nat)
    | Recheck(t: nat)
    | Unlock(t: nat)
    | Add(t: nat)
    | ReadStart(r: nat)
    | ReadOne(r: nat, server: string)
    | ReadEnd(r: nat)

  const EMPTY := State(map[], [], None, map[], map[], [])

  function CallStep(s: State, e: Event): Option<State> {
    match e
    case Start(t, server) =>
      if t !in s.calls then Some(s.(calls := s.calls[t := Begin(server)])) else None
    case Lookup(t) =>
      if t in s.calls && s.calls[t].Begin? && s.writer.None? then
        var server := s.calls[t].server;
        if server in s.stats then Some(s.(calls := s.calls[t := Ready(server, s.stats[server])]))
        else Some(s.(calls := s.calls[t := Missing(server)]))
      else None
    case Lock(t) =>
      if t in s.calls && s.calls[t].Missing? && s.writer.None? && s.readers == map[] then
        Some(s.(writer := Some(t), calls := s.calls[t := Locked(s.calls[t].server)]))
      else None
    case Recheck(t) =>
      if t in s.calls && s.calls[t].Locked? then
        var server := s.calls[t].server;
        if server in s.stats then Some(s.(calls := s.calls[t := Checked(server, s.stats[server])]))
        else Some(s.(cells := s.cells + [0], stats := s.stats[server := |s.cells|],
                     calls := s.calls[t := Checked(server, |s.cells|)]))
      else None
    case Unlock(t) =>
      if t in s.calls && s.calls[t].Checked? then
        Some(s.(writer := None, calls := s.calls[t := Ready(s.calls[t].server, s.calls[t].cell)]))
      else None
    case Add(t) =>
      if t in s.calls && s.calls[t].Ready? && s.calls[t].cell < |s.cells| then
        var cell := s.calls[t].cell;
        Some(s.(cells := s.cells[cell := WrapSigned(s.cells[cell] + 1)], calls := s.calls - {t},
                log := s.log + [s.calls[t].server]))
      else None
    case _ => None
  }

  function ReaderStep(s: State, e: Event): Option<State> {
    match e
    case ReadStart(r) =>
      if r !in s.readers && s.writer.None? then
        Some(s.(readers := s.readers[r := Reader(s.stats.Keys, map[], |s.log|)]))
      else None
    case ReadOne(r, server) =>
      if r in s.readers && server in s.readers[r].todo && server in s.stats && s.stats[server] < |s.cells| then
        var reader := s.readers[r];
        Some(s.(readers := s.readers[r := reader.(todo := reader.todo - {server},
                                                  stats := reader.stats[server := s.cells[s.stats[server]]])]))
      else None
    case ReadEnd(r) =>
      if r in s.readers && s.readers[r].todo == {} then Some(s.(readers := s.readers - {r})) else None
    case _ => None
  }

  function Step(s: State, e: Event): Option<State> {
    match e
    case ReadStart(_) => ReaderStep(s, e)
    case ReadOne(_, _) => ReaderStep(s, e)
    case ReadEnd(_) => ReaderStep(s, e)
    case _ => CallStep(s, e)
  }

  /** The number of completed increments of a server. */
  ghost function Count(log: seq<string>, server: string): nat {
    if log == [] then 0
    else Count(log[..|log| - 1], server) + if log[|log| - 1] == server then 1 else 0
  }

  ghost predicate HoldsLock(call: Call) {
    call.Locked? || call.Checked?
  }

  ghost predicate LockInv(s: State) {
    && (forall t :: t in s.calls && HoldsLock(s.calls[t]) ==> s.writer == Some(t))
    && (s.writer.Some? ==> s.readers == map[])
  }

  ghost predicate CellsInv(s: State) {
    && (forall k :: k in s.stats ==> s.stats[k] < |s.cells| && s.cells[s.stats[k]] == WrapSigned(Count(s.log, k)))
    && (forall k, l :: k in s.stats && l in s.stats && s.stats[k] == s.stats[l] ==> k == l)
    && (forall k :: k !in s.stats ==> Count(s.log, k) == 0)
    && (forall t :: t in s.calls && (s.calls[t].Checked? || s.calls[t].Ready?) ==>
          s.calls[t].server in s.stats && s.stats[s.calls[t].server] == s.calls[t].cell)
  }

  /** A value read for a server was its number of completed increments at some moment since the read began. */
  ghost predicate ReadAtSomeTime(log: seq<string>, before: nat, server: string, value: int) {
    exists at :: before <= at <= |log| && value == WrapSigned(Count(log[..at], server))
  }

  ghost predicate ReaderOk(s: State, reader: Reader) {
    && reader.before <= |s.log|
    && reader.todo + reader.stats.Keys == s.stats.Keys
    && forall k :: k in reader.stats ==> ReadAtSomeTime(s.log, reader.before, k, reader.stats[k])
  }

  ghost predicate ReadersInv(s: State) {
    forall r :: r in s.readers ==> ReaderOk(s, s.readers[r])
  }

  ghost predicate Inv(s: State) {
    LockInv(s) && CellsInv(s) && ReadersInv(s)
  }

  lemma CountSnoc(log: seq<string>, server: string, k: string)
    ensures Count(log + [server], k) == Count(log, k) + if k == server then 1 else 0
  {
    assert (log + [server])[..|log|] == log;
  }

  lemma StepKeepsLock(s: State, e: Event)
    requires LockInv(s) && Step(s, e).Some?
    ensures LockInv(Step(s, e).value)
  {
    hide WrapSigned;
  }

  lemma AddKeepsCells(s: State, t: nat)
    requires CellsInv(s) && CallStep(s, Add(t)).Some?
    ensures CellsInv(CallStep(s, Add(t)).value)
  {
    hide Count, WrapSigned;
    var s' := CallStep(s, Add(t)).value;
    var server := s.calls[t].server;
    SignedSuccessor(Count(s.log, server));
    forall k ensures Count(s'.log, k) == Count(s.log, k) + if k == server then 1 else 0 {
      CountSnoc(s.log, server, k);
    }
  }

  /** The second check, under the lock, which may create a counter. */
  lemma RecheckKeepsCells(s: State, t: nat)
    requires CellsInv(s) && CallStep(s, Recheck(t)).Some?
    ensures CellsInv(CallStep(s, Recheck(t)).value)
  {
    hide Count, WrapSigned;
    SignedSuccessor(0);
  }

  /** The other steps of a call only move it along, knowing the counter it has found. */
  lemma OtherCallsOnlyMove(s: State, e: Event)
    requires !e.Add? && !e.Recheck? && CallStep(s, e).Some?
    ensures var s' := CallStep(s, e).value;
            && s'.stats == s.stats && s'.cells == s.cells && s'.log == s.log
            && (forall t :: t in s'.calls && (s'.calls[t].Checked? || s'.calls[t].Ready?) ==>
                  || (t in s.calls && (s.calls[t].Checked? || s.calls[t].Ready?)
                      && s'.calls[t].server == s.calls[t].server && s'.calls[t].cell == s.calls[t].cell)
                  || (s'.calls[t].server in s.stats && s.stats[s'.calls[t].server] == s'.calls[t].cell))
  {
  }

  lemma CallsKeepCells(s: State, e: Event)
    requires CellsInv(s) && !e.Add? && CallStep(s, e).Some?
    ensures CellsInv(CallStep(s, e).value)
  {
    if e.Recheck? {
      hide CellsInv, CallStep;
      RecheckKeepsCells(s, e.t);
    } else {
      hide Count, WrapSigned;
      OtherCallsOnlyMove(s, e);
      hide CallStep;
    }
  }

  lemma StepKeepsCells(s: State, e: Event)
    requires CellsInv(s) && Step(s, e).Some?
    ensures CellsInv(Step(s, e).value)
  {
    hide Count, WrapSigned, ReaderStep, CallStep;
    if e.Add? {
      AddKeepsCells(s, e.t);
    } else if e.ReadStart? || e.ReadOne? || e.ReadEnd? {
      ReadersOnlyRead(s, e);
    } else {
      CallsKeepCells(s, e);
    }
  }

  lemma ReadersOnlyRead(s: State, e: Event)
    requires ReaderStep(s, e).Some?
    ensures var s' := ReaderStep(s, e).value;
            s'.stats == s.stats && s'.cells == s.cells && s'.calls == s.calls && s'.log == s.log
            && s'.writer == s.writer
  {
  }

  lemma OtherReadersOk(s: State, s': State, reader: Reader)
    requires ReaderOk(s, reader) && s.log <= s'.log && s'.stats.Keys == s.stats.Keys
    ensures ReaderOk(s', reader)
  {
    hide Count, WrapSigned;
    forall k | k in reader.stats
      ensures ReadAtSomeTime(s'.log, reader.before, k, reader.stats[k])
    {
      var at :| reader.before <= at <= |s.log| && reader.stats[k] == WrapSigned(Count(s.log[..at], k));
      assert s'.log[..at] == s.log[..at];
    }
  }

  lemma StepKeepsReaders(s: State, e: Event)
    requires Inv(s) && Step(s, e).Some?
    ensures ReadersInv(Step(s, e).value)
  {
    hide Count, WrapSigned, CellsInv, CallStep, ReaderOk;
    var s' := Step(s, e).value;
    forall r | r in s'.readers
      ensures ReaderOk(s', s'.readers[r])
    {
      if (e.ReadStart? || e.ReadOne?) && r == e.r {
        hide LockInv;
        ReaderReads(s, e);
      } else {
        if e.ReadStart? || e.ReadOne? || e.ReadEnd? {
          ReadersOnlyRead(s, e);
        } else {
          NewReadersAreOld(s, e);
        }
        assert s'.readers[r] == s.readers[r];
        hide ReaderStep, LockInv;
        OtherReadersOk(s, s', s.readers[r]);
      }
    }
  }

  /** The reader that starts or reads one counter. */
  lemma ReaderReads(s: State, e: Event)
    requires CellsInv(s) && ReadersInv(s) && (e.ReadStart? || e.ReadOne?) && ReaderStep(s, e).Some?
    ensures ReaderOk(ReaderStep(s, e).value, ReaderStep(s, e).value.readers[e.r])
  {
    hide Count, WrapSigned;
    var s' := ReaderStep(s, e).value;
    if e.ReadOne? {
      var before, after := s.readers[e.r], s'.readers[e.r];
      assert ReaderOk(s, before);
      assert s.log[..|s.log|] == s.log;
      assert after.todo + after.stats.Keys == before.todo + before.stats.Keys;
      assert ReadAtSomeTime(s.log, before.before, e.server, after.stats[e.server]);
    }
  }

  lemma NewReadersAreOld(s: State, e: Event)
    requires LockInv(s) && CallStep(s, e).Some?
    ensures var s' := CallStep(s, e).value;
            s'.readers == s.readers && s.log <= s'.log && (s.readers != map[] ==> s'.stats == s.stats)
  {
  }

  lemma StepKeepsInv(s: State, e: Event)
    requires Inv(s) && Step(s, e).Some?
    ensures Inv(Step(s, e).value)
  {
    StepKeepsLock(s, e);
    StepKeepsCells(s, e);
    StepKeepsReaders(s, e);
  }

  lemma ReachableInv(s: State)
    requires Reachable(Step, EMPTY, s)
    ensures Inv(s)
  {
    forall x, e | Inv(x) && Step(x, e).Some? ensures Inv(Step(x, e).value) { StepKeepsInv(x, e); }
    assert Preserved(Step, Inv);
    InvariantReachable(Step, EMPTY, Inv, s);
  }

  /** Each server's int64 counter equals its number of completed increments, so no creation race loses one; at most one
      goroutine is ever creating; and a counter once created is never replaced or shared. */
  lemma CountersAreExact(s: State, e: Event)
    requires Reachable(Step, EMPTY, s)
    ensures forall k :: k in s.stats ==> s.stats[k] < |s.cells| && s.cells[s.stats[k]] == WrapSigned(Count(s.log, k))
    ensures forall k :: k !in s.stats ==> Count(s.log, k) == 0
    ensures forall k, l :: k in s.stats && l in s.stats && s.stats[k] == s.stats[l] ==> k == l
    ensures forall t, u :: t in s.calls && u in s.calls && HoldsLock(s.calls[t]) && HoldsLock(s.calls[u]) ==> t == u
    ensures Step(s, e).Some? ==>
              forall k :: k in s.stats ==> k in Step(s, e).value.stats && Step(s, e).value.stats[k] == s.stats[k]
  {
    ReachableInv(s);
    if Step(s, e).Some? { StatsStay(s, e); }
    hide Step, ReadersInv;
  }

  lemma StatsStay(s: State, e: Event)
    requires Step(s, e).Some?
    ensures forall k :: k in s.stats ==> k in Step(s, e).value.stats && Step(s, e).value.stats[k] == s.stats[k]
  {
    hide WrapSigned;
  }

  /** A statistics snapshot lists exactly the servers known, each with its number of completed increments at some
      moment while the snapshot was being taken. */
  lemma SnapshotIsBracketed(s: State, r: nat)
    requires Reachable(Step, EMPTY, s) && Step(s, ReadEnd(r)).Some?
    ensures s.readers[r].stats.Keys == s.stats.Keys
    ensures forall k :: k in s.readers[r].stats ==>
              exists at :: s.readers[r].before <= at <= |s.log|
                && s.readers[r].stats[k] == WrapSigned(Count(s.log[..at], k))
  {
    ReachableInv(s);
    assert ReaderOk(s, s.readers[r]);
    forall k | k in s.readers[r].stats
      ensures exists at :: s.readers[r].before <= at <= |s.log|
                && s.readers[r].stats[k] == WrapSigned(Count(s.log[..at], k))
    {
      assert ReadAtSomeTime(s.log, s.readers[r].before, k, s.readers[r].stats[k]);
    }
  }
}
