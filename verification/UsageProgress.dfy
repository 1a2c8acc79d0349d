/** That the per-server usage counters count every increment, and that nobody waits for ever for their lock
    (dnsresolver/dnsresolver.go, incrementServerUsage and GetServerUsageStats). */
module UsageProgress {
  import opened Options
  import opened Machine
  import opened Words
  import opened UsageStats

  ghost predicate On(call: Call, server: string) {
    call.server == server
  }

  /** The running increments of a server. */
  ghost function Running(calls: map<nat, Call>, server: string): set<nat> {
    set t | t in calls && On(calls[t], server)
  }

  /** How many increments of a server a run has started. */
  ghost function Started(events: seq<Event>, server: string): nat {
    if events == [] then 0
    else
      var e := events[|events| - 1];
      Started(events[..|events| - 1], server) + if e.Start? && e.server == server then 1 else 0
  }

  lemma RunningMoved(calls: map<nat, Call>, t: nat, call: Call, server: string)
    ensures |Running(calls[t := call], server)|
            == |Running(calls, server)| - (if t in calls && On(calls[t], server) then 1 else 0)
               + (if On(call, server) then 1 else 0)
  {
    hide On;
    assert t in Running(calls, server) <==> t in calls && On(calls[t], server);
    assert Running(calls[t := call], server)
           == if On(call, server) then Running(calls, server) + {t} else Running(calls, server) - {t};
  }

  lemma RunningGone(calls: map<nat, Call>, t: nat, server: string)
    requires t in calls
    ensures |Running(calls - {t}, server)| == |Running(calls, server)| - if On(calls[t], server) then 1 else 0
  {
    hide On;
    assert Running(calls - {t}, server) == Running(calls, server) - {t};
    assert t in Running(calls, server) <==> On(calls[t], server);
  }

  /** A step of an increment starts it, moves it, or completes it with one entry of the log. */
  lemma StepAccounts(s: State, e: Event, server: string)
    requires Step(s, e).Some?
    ensures var s' := Step(s, e).value;
            Count(s'.log, server) + |Running(s'.calls, server)|
            == Count(s.log, server) + |Running(s.calls, server)| + if e.Start? && e.server == server then 1 else 0
  {
    hide Count, Running, WrapSigned;
    var s' := Step(s, e).value;
    if e.ReadStart? || e.ReadOne? || e.ReadEnd? {
      ReadersOnlyRead(s, e);
    } else if e.t in s'.calls {
      RunningMoved(s.calls, e.t, s'.calls[e.t], server);
    } else {
      RunningGone(s.calls, e.t, server);
      CountSnoc(s.log, s'.log[|s.log|], server);
    }
  }

  lemma {:induction false} EveryStartAccounted(events: seq<Event>, server: string)
    requires Exec(Step, EMPTY, events).Some?
    ensures var s := Exec(Step, EMPTY, events).value;
            Started(events, server) == Count(s.log, server) + |Running(s.calls, server)|
  {
    hide Step, Count;
    if events == [] {
      assert Running(map[], server) == {};
      NothingCounted(server);
    } else {
      hide Running;
      var front, e := events[..|events| - 1], events[|events| - 1];
      EveryStartAccounted(front, server);
      StepAccounts(Exec(Step, EMPTY, front).value, e, server);
    }
  }

  lemma NothingCounted(server: string)
    ensures Count([], server) == 0
  {
  }

  /** Over every run each started increment is running or has been counted: when no increment of a server is running
      its counter reads how many have been started, as an int64. */
  lemma StartedIncrementsAreCounted(events: seq<Event>, server: string)
    requires Exec(Step, EMPTY, events).Some?
    ensures var s := Exec(Step, EMPTY, events).value;
            (forall t :: t in s.calls ==> s.calls[t].server != server) ==>
              if server in s.stats then
                s.stats[server] < |s.cells| && s.cells[s.stats[server]] == WrapSigned(Started(events, server))
              else Started(events, server) == 0
  {
    var s := Exec(Step, EMPTY, events).value;
    EveryStartAccounted(events, server);
    assert Reachable(Step, EMPTY, s);
    hide Step, Exec, Count, Started, WrapSigned;
    CountersAreExact(s, ReadStart(0));
    if forall t :: t in s.calls ==> s.calls[t].server != server { assert Running(s.calls, server) == {}; }
  }

  /** The goroutine holding the write lock is inside its critical section. */
  ghost predicate WriterInside(s: State) {
    s.writer.Some? ==> s.writer.value in s.calls && HoldsLock(s.calls[s.writer.value])
  }

  lemma WriterStaysInside(s: State, e: Event)
    requires LockInv(s) && WriterInside(s) && Step(s, e).Some?
    ensures WriterInside(Step(s, e).value)
  {
    hide WrapSigned;
  }

  lemma ReachableInside(s: State)
    requires Reachable(Step, EMPTY, s)
    ensures Inv(s) && WriterInside(s)
  {
    ReachableInv(s);
    var inv := (x: State) => LockInv(x) && WriterInside(x);
    assert inv(EMPTY);
    hide Step, LockInv, WriterInside, Inv;
    forall x, e | inv(x) && Step(x, e).Some?
      ensures inv(Step(x, e).value)
    {
      StepKeepsLock(x, e);
      WriterStaysInside(x, e);
    }
    assert Preserved(Step, inv);
    InvariantReachable(Step, EMPTY, inv, s);
  }

  /** No deadlock: while an increment or a snapshot is running, one of those already running can take its next
      action. */
  lemma SomeoneMoves(s: State) returns (e: Event)
    requires Reachable(Step, EMPTY, s) && (s.calls != map[] || s.readers != map[])
    ensures !e.Start? && !e.ReadStart? && Step(s, e).Some?
  {
    ReachableInside(s);
    hide Reachable;
    if s.writer.Some? {
      e := WriterMoves(s);
    } else if s.readers != map[] {
      e := ReaderMoves(s);
    } else {
      e := CallMoves(s);
    }
  }

  /** Who may start: an increment at any time, a snapshot whenever nobody is creating a counter. */
  lemma StartsIff(s: State, t: nat, server: string)
    ensures Step(s, Start(t, server)).Some? <==> t !in s.calls
    ensures Step(s, ReadStart(t)).Some? <==> t !in s.readers && s.writer.None?
  {
  }

  lemma WriterMoves(s: State) returns (e: Event)
    requires WriterInside(s) && s.writer.Some?
    ensures !e.Start? && !e.ReadStart? && Step(s, e).Some?
  {
    hide ReaderStep, WrapSigned;
    e := if s.calls[s.writer.value].Locked? then Recheck(s.writer.value) else Unlock(s.writer.value);
  }

  lemma ReaderMoves(s: State) returns (e: Event)
    requires CellsInv(s) && ReadersInv(s) && s.readers != map[]
    ensures !e.Start? && !e.ReadStart? && Step(s, e).Some?
  {
    var r :| r in s.readers;
    assert ReaderOk(s, s.readers[r]);
    hide ReadersInv, ReaderOk, CellsInv, Step;
    if s.readers[r].todo == {} {
      e := ReadEnd(r);
      ReaderEnds(s, r);
    } else {
      var server :| server in s.readers[r].todo;
      e := ReadOne(r, server);
      ReaderReadsOne(s, r, server);
    }
  }

  lemma ReaderEnds(s: State, r: nat)
    requires r in s.readers && s.readers[r].todo == {}
    ensures Step(s, ReadEnd(r)).Some?
  {
    hide CallStep;
  }

  lemma ReaderReadsOne(s: State, r: nat, server: string)
    requires CellsInv(s) && r in s.readers && ReaderOk(s, s.readers[r]) && server in s.readers[r].todo
    ensures Step(s, ReadOne(r, server)).Some?
  {
    hide CallStep, Count, WrapSigned, ReadAtSomeTime;
    assert server in s.readers[r].todo + s.readers[r].stats.Keys;
  }

  lemma CallMoves(s: State) returns (e: Event)
    requires LockInv(s) && CellsInv(s) && s.writer.None? && s.readers == map[] && s.calls != map[]
    ensures !e.Start? && !e.ReadStart? && Step(s, e).Some?
  {
    hide ReaderStep, Count, WrapSigned;
    var t :| t in s.calls;
    e := match s.calls[t]
      case Begin(_) => Lookup(t)
      case Missing(_) => Lock(t)
      case _ => Add(t);
  }
}
