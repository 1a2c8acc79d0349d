/** The lock-free get-or-create counters (metric/optimized_common.go, atomicIncrement and atomicGet), run by any
    number of goroutines on any keys. */
module Counters {
  import opened Options
  import opened Machine
  import opened Words

  /** A running call of atomicIncrement: before its Load, holding a private new counter after a miss, or holding
      the counter found in the table. */
  datatype Call = Begin(key: string) | Private(key: string, cell: nat) | Found(key: string, cell: nat)

  /** A completed call and the value it returned. */
  datatype Increment = Increment(key: string, value: nat)

  /** `cells` is the heap of counters ever allocated, `table` the sync.Map, `calls` the running calls by goroutine.
      History: `log` lists the completed calls in the order they took effect. */
  datatype State = State(table: map<string, nat>, cells: seq<nat>, calls: map<nat, Call>, log: seq<Increment>)

  datatype Event = Start(t: nat, key: string) | Load(t: nat) | LoadOrStore(t: nat) | Add(t: nat)

  const EMPTY := State(map[], [], map[], [])

  function Step(s: State, e: Event): Option<State> {
    match e
    case Start(t, key) =>
      if t !in s.calls then Some(s.(calls := s.calls[t := Begin(key)])) else None
    case Load(t) =>
      if t in s.calls && s.calls[t].Begin? then
        var key := s.calls[t].key;
        if key in s.table then Some(s.(calls := s.calls[t := Found(key, s.table[key])]))
        else Some(s.(cells := s.cells + [1], calls := s.calls[t := Private(key, |s.cells|)]))
      else None
    case LoadOrStore(t) =>
      if t in s.calls && s.calls[t].Private? then
        var key := s.calls[t].key;
        if key in s.table then Some(s.(calls := s.calls[t := Found(key, s.table[key])]))
        else Some(s.(table := s.table[key := s.calls[t].cell], calls := s.calls - {t},
                     log := s.log + [Increment(key, 1)]))
      else None
    case Add(t) =>
      if t in s.calls && s.calls[t].Found? && s.calls[t].cell < |s.cells| then
        var cell := s.calls[t].cell;
        var value := Wrap(s.cells[cell] + 1);
        Some(s.(cells := s.cells[cell := value], calls := s.calls - {t},
                log := s.log + [Increment(s.calls[t].key, value)]))
      else None
  }

  /** `atomicGet`. */
  function Get(s: State, key: string): nat {
    if key in s.table && s.table[key] < |s.cells| then s.cells[s.table[key]] else 0
  }

  /** The values returned by the completed calls on a key. */
  ghost function Values(log: seq<Increment>, key: string): seq<nat> {
    if log == [] then []
    else
      var last := log[|log| - 1];
      Values(log[..|log| - 1], key) + if last.key == key then [last.value] else []
  }

  ghost predicate CountsUp(values: seq<nat>) {
    forall i :: 0 <= i < |values| ==> values[i] == Wrap(i + 1)
  }

  ghost predicate TableInv(s: State) {
    && (forall k :: k in s.table ==> s.table[k] < |s.cells|)
    && (forall k, l :: k in s.table && l in s.table && s.table[k] == s.table[l] ==> k == l)
  }

  ghost predicate CallOk(s: State, call: Call) {
    match call
    case Begin(_) => true
    case Found(key, cell) => key in s.table && s.table[key] == cell
    case Private(_, cell) => cell < |s.cells| && s.cells[cell] == 1 && forall k :: k in s.table ==> s.table[k] != cell
  }

  ghost predicate CallsInv(s: State) {
    && (forall t :: t in s.calls ==> CallOk(s, s.calls[t]))
    && (forall t, u :: t in s.calls && u in s.calls && t != u && s.calls[t].Private? && s.calls[u].Private? ==>
          s.calls[t].cell != s.calls[u].cell)
  }

  ghost predicate KeyOk(s: State, k: string) {
    && CountsUp(Values(s.log, k))
    && if k in s.table then
         s.table[k] < |s.cells| && Values(s.log, k) != [] && s.cells[s.table[k]] == Wrap(|Values(s.log, k)|)
       else Values(s.log, k) == []
  }

  ghost predicate Inv(s: State) {
    TableInv(s) && CallsInv(s) && forall k :: KeyOk(s, k)
  }

  lemma ValuesSnoc(log: seq<Increment>, i: Increment, k: string)
    ensures Values(log + [i], k) == if k == i.key then Values(log, k) + [i.value] else Values(log, k)
  {
    assert (log + [i])[..|log|] == log;
  }

  lemma StepKeepsTable(s: State, e: Event)
    requires TableInv(s) && CallsInv(s) && Step(s, e).Some?
    ensures TableInv(Step(s, e).value)
  {
    hide Wrap;
  }

  lemma StepKeepsCalls(s: State, e: Event)
    requires TableInv(s) && CallsInv(s) && Step(s, e).Some?
    ensures CallsInv(Step(s, e).value)
  {
    hide Wrap;
    var s' := Step(s, e).value;
    forall t | t in s'.calls
      ensures CallOk(s', s'.calls[t])
    {
      if t in s.calls { assert CallOk(s, s.calls[t]); }
    }
  }

  lemma StepKeepsKey(s: State, e: Event, k: string)
    requires TableInv(s) && CallsInv(s) && KeyOk(s, k) && Step(s, e).Some?
    ensures KeyOk(Step(s, e).value, k)
  {
    hide Values, Wrap;
    WrapSuccessor(|Values(s.log, k)|);
    match e
    case LoadOrStore(t) =>
      ValuesSnoc(s.log, Increment(s.calls[t].key, 1), k);
    case Add(t) =>
      assert CallOk(s, s.calls[t]);
      ValuesSnoc(s.log, Increment(s.calls[t].key, Wrap(s.cells[s.calls[t].cell] + 1)), k);
    case _ =>
  }

  lemma StepKeepsInv(s: State, e: Event)
    requires Inv(s) && Step(s, e).Some?
    ensures Inv(Step(s, e).value)
  {
    hide TableInv, CallsInv, KeyOk;
    StepKeepsTable(s, e);
    StepKeepsCalls(s, e);
    forall k ensures KeyOk(Step(s, e).value, k) { StepKeepsKey(s, e, k); }
  }

  lemma ReachableInv(s: State)
    requires Reachable(Step, EMPTY, s)
    ensures Inv(s)
  {
    forall x, e | Inv(x) && Step(x, e).Some? ensures Inv(Step(x, e).value) { StepKeepsInv(x, e); }
    assert Preserved(Step, Inv);
    InvariantReachable(Step, EMPTY, Inv, s);
  }

  /** Linearizability: the n completed calls on a key returned 1, 2, ..., n in the order they took effect (modulo
      the 64-bit word), and a read returns n. */
  lemma CompletedCallsCountUp(s: State, key: string)
    requires Reachable(Step, EMPTY, s)
    ensures forall i :: 0 <= i < |Values(s.log, key)| ==> Values(s.log, key)[i] == (i + 1) % WORD
    ensures Get(s, key) == |Values(s.log, key)| % WORD
  {
    ReachableInv(s);
    assert KeyOk(s, key);
  }

  /** Below 2^64 calls the returned values are exactly {1..n}, each once. */
  lemma EachValueOnce(s: State, key: string, v: nat)
    requires Reachable(Step, EMPTY, s) && |Values(s.log, key)| < WORD
    ensures multiset(Values(s.log, key))[v] == if 1 <= v <= |Values(s.log, key)| then 1 else 0
  {
    CompletedCallsCountUp(s, key);
    CountOnce(Values(s.log, key), v);
  }

  lemma {:induction false} CountOnce(values: seq<nat>, v: nat)
    requires forall i :: 0 <= i < |values| ==> values[i] == i + 1
    ensures multiset(values)[v] == if 1 <= v <= |values| then 1 else 0
  {
    if values != [] {
      var front := values[..|values| - 1];
      CountOnce(front, v);
      assert values == front + [values[|values| - 1]];
    }
  }

  /** Counters are never replaced nor shared between keys: a key once in the table keeps its cell. */
  lemma CellsAreStable(s: State, e: Event)
    requires Reachable(Step, EMPTY, s) && Step(s, e).Some?
    ensures var s' := Step(s, e).value;
            && (forall k :: k in s.table ==> k in s'.table && s'.table[k] == s.table[k])
            && (forall k, l :: k in s'.table && l in s'.table && k != l ==> s'.table[k] != s'.table[l])
  {
    ReachableInv(s);
    StepKeepsTable(s, e);
  }
}
