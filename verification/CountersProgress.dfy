/** That the lock-free counters count every call: none is lost on the way, and none gets stuck
    (metric/optimized_common.go). */
module CountersProgress {
  import opened Options
  import opened Machine
  import opened Words
  import opened Counters

  ghost predicate On(call: Call, key: string) {
    call.key == key
  }

  /** The running calls on a key. */
  ghost function Running(calls: map<nat, Call>, key: string): set<nat> {
    set t | t in calls && On(calls[t], key)
  }

  /** How many calls on a key a run has started. */
  ghost function Started(events: seq<Event>, key: string): nat {
    if events == [] then 0
    else
      var e := events[|events| - 1];
      Started(events[..|events| - 1], key) + if e.Start? && e.key == key then 1 else 0
  }

  lemma RunningMoved(calls: map<nat, Call>, t: nat, call: Call, key: string)
    ensures |Running(calls[t := call], key)|
            == |Running(calls, key)| - (if t in calls && On(calls[t], key) then 1 else 0)
               + (if On(call, key) then 1 else 0)
  {
    hide On;
    assert t in Running(calls, key) <==> t in calls && On(calls[t], key);
    assert Running(calls[t := call], key)
           == if On(call, key) then Running(calls, key) + {t} else Running(calls, key) - {t};
  }

  lemma RunningGone(calls: map<nat, Call>, t: nat, key: string)
    requires t in calls
    ensures |Running(calls - {t}, key)| == |Running(calls, key)| - if On(calls[t], key) then 1 else 0
  {
    hide On;
    assert Running(calls - {t}, key) == Running(calls, key) - {t};
    assert t in Running(calls, key) <==> On(calls[t], key);
  }

  /** A step starts one call, moves one, or completes one with one entry of the log. */
  lemma StepAccounts(s: State, e: Event, key: string)
    requires Step(s, e).Some?
    ensures var s' := Step(s, e).value;
            |Values(s'.log, key)| + |Running(s'.calls, key)|
            == |Values(s.log, key)| + |Running(s.calls, key)| + if e.Start? && e.key == key then 1 else 0
  {
    hide Values, Running, Wrap;
    var s' := Step(s, e).value;
    if e.t in s'.calls {
      RunningMoved(s.calls, e.t, s'.calls[e.t], key);
    } else {
      RunningGone(s.calls, e.t, key);
      ValuesSnoc(s.log, s'.log[|s.log|], key);
    }
  }

  lemma NothingCounted(key: string)
    ensures Values([], key) == []
  {
  }

  lemma {:induction false} EveryStartAccounted(events: seq<Event>, key: string)
    requires Exec(Step, EMPTY, events).Some?
    ensures var s := Exec(Step, EMPTY, events).value;
            Started(events, key) == |Values(s.log, key)| + |Running(s.calls, key)|
  {
    hide Step, Values;
    if events == [] {
      assert Running(map[], key) == {};
      NothingCounted(key);
    } else {
      hide Running;
      var front, e := events[..|events| - 1], events[|events| - 1];
      EveryStartAccounted(front, key);
      StepAccounts(Exec(Step, EMPTY, front).value, e, key);
    }
  }

  /** Over every run each started call is running or has been counted, so when no call on a key is running its counter
      reads the number of calls on it (modulo the 64-bit word). */
  lemma StartedCallsAreCounted(events: seq<Event>, key: string)
    requires Exec(Step, EMPTY, events).Some?
    ensures var s := Exec(Step, EMPTY, events).value;
            && Started(events, key) == |Values(s.log, key)| + |Running(s.calls, key)|
            && ((forall t :: t in s.calls ==> s.calls[t].key != key) ==>
                  Get(s, key) == Started(events, key) % 0x1_0000_0000_0000_0000)
  {
    var s := Exec(Step, EMPTY, events).value;
    EveryStartAccounted(events, key);
    assert Reachable(Step, EMPTY, s);
    hide Step, Exec, Get, Values, Started;
    CompletedCallsCountUp(s, key);
    if forall t :: t in s.calls ==> s.calls[t].key != key { assert Running(s.calls, key) == {}; }
  }

  /** The actions a running call has left, at most. */
  ghost function ActionsLeft(call: Call): nat {
    match call
    case Begin(_) => 3
    case Private(_, _) => 2
    case Found(_, _) => 1
  }

  /** A call can always start. */
  lemma CallStartsIff(s: State, t: nat, key: string)
    ensures Step(s, Start(t, key)).Some? <==> t !in s.calls
  {
  }

  /** No call waits for another: each running call has an enabled action, which brings it closer to its return. */
  lemma CallNeverStuck(s: State, t: nat)
    requires Reachable(Step, EMPTY, s) && t in s.calls
    ensures var e := match s.calls[t] case Begin(_) => Load(t) case Private(_, _) => LoadOrStore(t) case _ => Add(t);
            && Step(s, e).Some?
            && var calls := Step(s, e).value.calls;
               calls - {t} == s.calls - {t} && (t in calls ==> ActionsLeft(calls[t]) < ActionsLeft(s.calls[t]))
  {
    ReachableInv(s);
    assert CallOk(s, s.calls[t]);
  }
}
