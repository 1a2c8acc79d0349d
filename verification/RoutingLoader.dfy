/** The concurrent loading of a folder of routing files and the reloads that publish tables
    (domainrouting/domainrouting.go, loadRoutingTable and InitializeDomainRouting). */
module RoutingLoader {
  import opened Options
  import opened Finite
  import opened Machine
  import opened DomainRouting

  datatype Goroutine = Running | Sent | Done

  datatype LoadResult = Loaded(table: map<string, string>) | LoadError(file: nat)

  datatype Collector = MergingTables | GatheringErrors | Returned(result: LoadResult)

  /** One call of loadRoutingTable. `messages[i]` is what file i's goroutine will send; both channels hold
      |messages| elements. History: `order` and `errorOrder` list the files in the order they sent, and
      `merged` counts the tables received. */
  datatype State = State(
    messages: seq<Message>,
    goroutines: seq<Goroutine>,
    wg: nat,
    results: seq<map<string, string>>,
    errors: seq<nat>,
    resultsClosed: bool,
    errorsClosed: bool,
    collector: Collector,
    table: map<string, string>,
    received: seq<nat>,
    order: seq<nat>,
    errorOrder: seq<nat>,
    merged: nat)

  datatype Event =
    | Send(i: nat)
    | Finish(i: nat)
    | CloseResults
    | CloseErrors
    | ReceiveTable
    | TablesEnd
    | ReceiveError
    | ErrorsEnd

  function Start(messages: seq<Message>): State {
    State(messages, seq(|messages|, i => Running), |messages|, [], [], false, false,
          MergingTables, map[], [], [], [], 0)
  }

  /** Channel sends and receives are enabled when they do not block; a send on a closed channel is not. */
  function Step(s: State, e: Event): Option<State> {
    var n := |s.messages|;
    match e
    case Send(i) =>
      if i < n && i < |s.goroutines| && s.goroutines[i] == Running then
        match s.messages[i]
        case Table(t) =>
          if |s.results| < n && !s.resultsClosed then
            Some(s.(goroutines := s.goroutines[i := Sent], results := s.results + [t], order := s.order + [i]))
          else None
        case Failure =>
          if |s.errors| < n && !s.errorsClosed then
            Some(s.(goroutines := s.goroutines[i := Sent], errors := s.errors + [i],
                    errorOrder := s.errorOrder + [i]))
          else None
      else None
    case Finish(i) =>
      if i < |s.goroutines| && s.goroutines[i] == Sent && s.wg > 0 then
        Some(s.(goroutines := s.goroutines[i := Done], wg := s.wg - 1))
      else None
    case CloseResults =>
      if s.wg == 0 && !s.resultsClosed then Some(s.(resultsClosed := true)) else None
    case CloseErrors =>
      if s.resultsClosed && !s.errorsClosed then Some(s.(errorsClosed := true)) else None
    case ReceiveTable =>
      if s.collector == MergingTables && s.results != [] then
        Some(s.(results := s.results[1..], table := s.table + s.results[0], merged := s.merged + 1))
      else None
    case TablesEnd =>
      if s.collector == MergingTables && s.results == [] && s.resultsClosed then
        Some(s.(collector := GatheringErrors))
      else None
    case ReceiveError =>
      if s.collector == GatheringErrors && s.errors != [] then
        Some(s.(errors := s.errors[1..], received := s.received + [s.errors[0]]))
      else None
    case ErrorsEnd =>
      if s.collector == GatheringErrors && s.errors == [] && s.errorsClosed then
        Some(s.(collector := Returned(if s.received == [] then Loaded(s.table) else LoadError(s.received[0]))))
      else None
  }

  /** Merging the tables of the files in `order`, later ones replacing earlier ones. */
  ghost function MergeAll(messages: seq<Message>, order: seq<nat>): map<string, string>
    requires forall k :: 0 <= k < |order| ==> IsTable(messages, order[k])
  {
    if order == [] then map[]
    else
      var last := order[|order| - 1];
      assert IsTable(messages, last);
      MergeAll(messages, order[..|order| - 1]) + messages[last].table
  }

  predicate IsTable(messages: seq<Message>, i: nat) {
    i < |messages| && messages[i].Table?
  }

  predicate IsFailure(messages: seq<Message>, i: nat) {
    i < |messages| && messages[i].Failure?
  }

  ghost function NotDone(goroutines: seq<Goroutine>): set<nat> {
    set i: nat | i < |goroutines| && goroutines[i] != Done
  }

  ghost predicate SendersInv(s: State) {
    && |s.goroutines| == |s.messages|
    && s.wg == |NotDone(s.goroutines)|
    && Distinct(s.order) && Distinct(s.errorOrder)
    && (forall i: nat :: i in s.order <==> IsTable(s.messages, i) && s.goroutines[i] != Running)
    && (forall i: nat :: i in s.errorOrder <==> IsFailure(s.messages, i) && s.goroutines[i] != Running)
  }

  ghost predicate CollectorInv(s: State) {
    && (s.resultsClosed ==> s.wg == 0)
    && (s.errorsClosed ==> s.resultsClosed)
    && s.merged <= |s.order| && |s.results| == |s.order| - s.merged
    && (forall k :: 0 <= k < |s.order| ==> IsTable(s.messages, s.order[k]))
    && (forall k :: 0 <= k < |s.results| ==> s.results[k] == s.messages[s.order[s.merged + k]].table)
    && s.table == MergeAll(s.messages, s.order[..s.merged])
    && s.received + s.errors == s.errorOrder
    && (s.collector != MergingTables ==> s.resultsClosed && s.results == [])
    && (s.collector.Returned? ==>
          && s.errorsClosed && s.errors == []
          && s.collector.result == if s.received == [] then Loaded(s.table) else LoadError(s.received[0]))
  }

  ghost predicate Inv(s: State) {
    SendersInv(s) && CollectorInv(s)
  }

  lemma AllDone(s: State)
    requires SendersInv(s) && s.wg == 0
    ensures forall i :: 0 <= i < |s.goroutines| ==> s.goroutines[i] == Done
  {
    assert NotDone(s.goroutines) == {};
    forall i: nat | i < |s.goroutines|
      ensures s.goroutines[i] == Done
    {
      assert i !in NotDone(s.goroutines);
    }
  }

  /** A channel has room for the message of every goroutine that has not sent yet. */
  lemma RoomLeft(s: State, sent: seq<nat>, i: nat)
    requires Distinct(sent) && (forall k :: 0 <= k < |sent| ==> sent[k] < |s.messages|)
    requires i < |s.messages| && i !in sent
    ensures |sent| < |s.messages|
  {
    DistinctBelow(sent, |s.messages|);
    if |sent| == |s.messages| { assert false; }
  }

  /** No goroutine ever blocks on its send, and none sends on a closed channel. */
  lemma SendNeverBlocks(s: State, i: nat)
    requires Inv(s) && i < |s.messages| && s.goroutines[i] == Running
    ensures Step(s, Send(i)).Some?
  {
    if s.resultsClosed {
      AllDone(s);
    }
    if s.messages[i].Table? {
      RoomLeft(s, s.order, i);
    } else {
      forall k | 0 <= k < |s.errorOrder| ensures s.errorOrder[k] < |s.messages| {
        assert s.errorOrder[k] in s.errorOrder;
      }
      RoomLeft(s, s.errorOrder, i);
    }
  }

  lemma NotDoneUpdate(goroutines: seq<Goroutine>, i: nat, g: Goroutine)
    requires i < |goroutines| && goroutines[i] != Done
    ensures g != Done ==> NotDone(goroutines[i := g]) == NotDone(goroutines)
    ensures g == Done ==> |NotDone(goroutines[i := g])| == |NotDone(goroutines)| - 1
  {
    if g == Done {
      assert NotDone(goroutines[i := g]) == NotDone(goroutines) - {i};
    } else {
      assert NotDone(goroutines[i := g]) == NotDone(goroutines);
    }
  }

  lemma SendTableKeepsInv(s: State, i: nat)
    requires Inv(s) && Step(s, Send(i)).Some? && s.messages[i].Table?
    ensures Inv(Step(s, Send(i)).value)
  {
    var s' := Step(s, Send(i)).value;
    NotDoneUpdate(s.goroutines, i, Sent);
    assert s'.order[..s'.merged] == s.order[..s.merged];
    forall j: nat ensures j in s.order + [i] <==> j in s.order || j == i {}
    assert i !in s.order;
    forall k | 0 <= k < |s.order| ensures s.order[k] != i { assert s.order[k] in s.order; }
    hide MergeAll, NotDone;
  }

  lemma SendErrorKeepsInv(s: State, i: nat)
    requires Inv(s) && Step(s, Send(i)).Some? && s.messages[i].Failure?
    ensures Inv(Step(s, Send(i)).value)
  {
    var s' := Step(s, Send(i)).value;
    NotDoneUpdate(s.goroutines, i, Sent);
    forall j: nat ensures j in s.errorOrder + [i] <==> j in s.errorOrder || j == i {}
    assert i !in s.errorOrder;
    forall k | 0 <= k < |s.errorOrder| ensures s.errorOrder[k] != i { assert s.errorOrder[k] in s.errorOrder; }
    assert s'.received + s'.errors == (s.received + s.errors) + [i];
    hide MergeAll, NotDone;
  }

  lemma SendKeepsInv(s: State, i: nat)
    requires Inv(s) && Step(s, Send(i)).Some?
    ensures Inv(Step(s, Send(i)).value)
  {
    hide Inv;
    if s.messages[i].Table? { SendTableKeepsInv(s, i); } else { SendErrorKeepsInv(s, i); }
  }

  lemma FinishKeepsInv(s: State, i: nat)
    requires Inv(s) && Step(s, Finish(i)).Some?
    ensures Inv(Step(s, Finish(i)).value)
  {
    NotDoneUpdate(s.goroutines, i, Done);
  }

  lemma ReceiveTableKeepsInv(s: State)
    requires Inv(s) && Step(s, ReceiveTable).Some?
    ensures Inv(Step(s, ReceiveTable).value)
  {
    var s' := Step(s, ReceiveTable).value;
    assert s.order[..s'.merged][..s.merged] == s.order[..s.merged];
    hide NotDone, Distinct;
  }

  lemma ReceiveErrorKeepsInv(s: State)
    requires Inv(s) && Step(s, ReceiveError).Some?
    ensures Inv(Step(s, ReceiveError).value)
  {
    var s' := Step(s, ReceiveError).value;
    assert s'.received + s'.errors == s.received + s.errors;
    hide NotDone, Distinct, MergeAll;
  }

  lemma ClosingKeepsInv(s: State, e: Event)
    requires Inv(s) && Step(s, e).Some?
    requires e == CloseResults || e == CloseErrors || e == TablesEnd || e == ErrorsEnd
    ensures Inv(Step(s, e).value)
  {
    hide MergeAll, NotDone, Distinct;
  }

  lemma StepKeepsInv(s: State, e: Event)
    requires Inv(s) && Step(s, e).Some?
    ensures Inv(Step(s, e).value) && Step(s, e).value.messages == s.messages
  {
    hide Inv;
    match e
    case Send(i) => SendKeepsInv(s, i);
    case Finish(i) => FinishKeepsInv(s, i);
    case ReceiveTable => ReceiveTableKeepsInv(s);
    case ReceiveError => ReceiveErrorKeepsInv(s);
    case _ => ClosingKeepsInv(s, e);
  }

  lemma StartInv(messages: seq<Message>)
    ensures Inv(Start(messages))
  {
    assert NotDone(Start(messages).goroutines) == Below(|messages|);
  }

  lemma ReachableInv(messages: seq<Message>, s: State)
    requires Reachable(Step, Start(messages), s)
    ensures Inv(s) && s.messages == messages
  {
    StartInv(messages);
    var inv := (x: State) => Inv(x) && x.messages == messages;
    forall x, e | inv(x) && Step(x, e).Some? ensures inv(Step(x, e).value) { StepKeepsInv(x, e); }
    assert Preserved(Step, inv);
    InvariantReachable(Step, Start(messages), inv, s);
  }

  ghost function StillRunning(goroutines: seq<Goroutine>): set<nat> {
    set i: nat | i < |goroutines| && goroutines[i] == Running
  }

  lemma StillRunningUpdate(goroutines: seq<Goroutine>, i: nat, g: Goroutine)
    requires i < |goroutines| && g != Running
    ensures goroutines[i] == Running ==> |StillRunning(goroutines[i := g])| == |StillRunning(goroutines)| - 1
    ensures goroutines[i] != Running ==> |StillRunning(goroutines[i := g])| == |StillRunning(goroutines)|
  {
    assert StillRunning(goroutines[i := g]) == StillRunning(goroutines) - {i};
  }

  /** How far a load is from returning; every event brings it closer. */
  ghost function Distance(s: State): nat {
    4 * |StillRunning(s.goroutines)|
    + 2 * |NotDone(s.goroutines)|
    + |s.results| + |s.errors|
    + (if s.resultsClosed then 0 else 1) + (if s.errorsClosed then 0 else 1)
    + (match s.collector case MergingTables => 2 case GatheringErrors => 1 case Returned(_) => 0)
  }

  lemma StepGetsCloser(s: State, e: Event)
    requires Inv(s) && Step(s, e).Some?
    ensures Distance(Step(s, e).value) < Distance(s)
  {
    hide NotDone, StillRunning;
    if e.Send? {
      NotDoneUpdate(s.goroutines, e.i, Sent);
      StillRunningUpdate(s.goroutines, e.i, Sent);
    } else if e.Finish? {
      NotDoneUpdate(s.goroutines, e.i, Done);
      StillRunningUpdate(s.goroutines, e.i, Done);
    }
  }

  /** Deadlock freedom: until the call has returned, some event is enabled. */
  lemma NeverStuck(s: State)
    requires Inv(s) && !s.collector.Returned?
    ensures exists e :: Step(s, e).Some?
  {
    if i :| 0 <= i < |s.goroutines| && s.goroutines[i] == Running {
      SendNeverBlocks(s, i);
    } else if i :| 0 <= i < |s.goroutines| && s.goroutines[i] == Sent {
      assert i in NotDone(s.goroutines);
      assert Step(s, Finish(i)).Some?;
    } else {
      assert NotDone(s.goroutines) == {};
      if !s.resultsClosed {
        assert Step(s, CloseResults).Some?;
      } else if !s.errorsClosed {
        assert Step(s, CloseErrors).Some?;
      } else if s.collector == MergingTables {
        assert Step(s, ReceiveTable).Some? || Step(s, TablesEnd).Some?;
      } else {
        assert Step(s, ReceiveError).Some? || Step(s, ErrorsEnd).Some?;
      }
    }
  }

  /** Every state can be run to a return; once all have sent, the order of sending is settled. */
  lemma {:induction false} CanFinish(s: State) returns (events: seq<Event>)
    requires Inv(s)
    ensures Exec(Step, s, events).Some? && Exec(Step, s, events).value.collector.Returned?
    ensures Inv(Exec(Step, s, events).value) && Exec(Step, s, events).value.messages == s.messages
    ensures (forall i :: 0 <= i < |s.goroutines| ==> s.goroutines[i] != Running) ==>
              Exec(Step, s, events).value.order == s.order
    decreases Distance(s)
  {
    if s.collector.Returned? {
      events := [];
    } else {
      NeverStuck(s);
      var e :| Step(s, e).Some?;
      var s' := Step(s, e).value;
      StepKeepsInv(s, e);
      StepGetsCloser(s, e);
      if forall i :: 0 <= i < |s.goroutines| ==> s.goroutines[i] != Running { OrderSettles(s, e); }
      hide Inv, Step, Distance;
      var rest := CanFinish(s');
      events := [e] + rest;
      assert [e][..0] == [];
      assert Exec(Step, s, [e]) == Some(s');
      ExecAppend(Step, s, [e], rest);
    }
  }

  lemma OrderSettles(s: State, e: Event)
    requires Inv(s) && Step(s, e).Some?
    requires forall i :: 0 <= i < |s.goroutines| ==> s.goroutines[i] != Running
    ensures var s' := Step(s, e).value;
            s'.order == s.order && forall i :: 0 <= i < |s'.goroutines| ==> s'.goroutines[i] != Running
  {
  }

  /** What a returned call returned. */
  ghost predicate AnyFailure(messages: seq<Message>) {
    exists i :: 0 <= i < |messages| && messages[i].Failure?
  }

  lemma AllSentWhenReturned(s: State)
    requires Inv(s) && s.collector.Returned?
    ensures forall i :: 0 <= i < |s.goroutines| ==> s.goroutines[i] == Done
  {
    AllDone(s);
  }

  /** A call that returned sent exactly one message per file. It returned an error when some file failed, and
      otherwise the tables merged in the order they were sent, every file once. */
  lemma ReturnedResult(s: State)
    requires Inv(s) && s.collector.Returned?
    ensures AnyFailure(s.messages) ==>
              && s.collector.result.LoadError?
              && IsFailure(s.messages, s.collector.result.file)
              && s.errorOrder != [] && s.collector.result.file == s.errorOrder[0]
    ensures !AnyFailure(s.messages) ==>
              && Distinct(s.order) && (forall i: nat :: i < |s.messages| <==> i in s.order)
              && s.collector.result == Loaded(MergeAll(s.messages, s.order))
  {
    AllSentWhenReturned(s);
    assert s.received == s.errorOrder;
    assert s.order[..s.merged] == s.order;
    assert s.errorOrder != [] ==> s.errorOrder[0] in s.errorOrder;
    if AnyFailure(s.messages) {
      var i :| 0 <= i < |s.messages| && s.messages[i].Failure?;
      assert i in s.errorOrder;
    }
  }

  /** The key set of a merge is the union of the files' keys, and each value comes from one of the files. */
  lemma {:induction false} MergedEntries(messages: seq<Message>, order: seq<nat>, d: string)
    requires forall k :: 0 <= k < |order| ==> IsTable(messages, order[k])
    ensures d in MergeAll(messages, order) <==> exists k :: 0 <= k < |order| && d in messages[order[k]].table
    ensures d in MergeAll(messages, order) ==>
              exists k :: 0 <= k < |order| && d in messages[order[k]].table
                && MergeAll(messages, order)[d] == messages[order[k]].table[d]
                && forall j :: k < j < |order| ==> d !in messages[order[j]].table
  {
    if order != [] {
      var front := order[..|order| - 1];
      MergedEntries(messages, front, d);
      var m := |order| - 1;
      if d in messages[order[m]].table {
        assert d in MergeAll(messages, order);
      } else if d in MergeAll(messages, front) {
        var k :| 0 <= k < |front| && d in messages[front[k]].table
                 && MergeAll(messages, front)[d] == messages[front[k]].table[d]
                 && forall j :: k < j < |front| ==> d !in messages[front[j]].table;
        assert order[k] == front[k];
        assert forall j :: k < j < |order| ==> j == m || order[j] == front[j];
      }
    }
  }

  ghost predicate Agree(messages: seq<Message>) {
    forall i: nat, j: nat, d ::
      IsTable(messages, i) && IsTable(messages, j) && d in messages[i].table && d in messages[j].table ==>
        messages[i].table[d] == messages[j].table[d]
  }

  ghost predicate AllTables(messages: seq<Message>) {
    forall i :: 0 <= i < |messages| ==> messages[i].Table?
  }

  ghost predicate Permutation(order: seq<nat>, n: nat) {
    Distinct(order) && forall i: nat :: i < n <==> i in order
  }

  lemma PermutationIsTables(messages: seq<Message>, order: seq<nat>)
    requires AllTables(messages) && Permutation(order, |messages|)
    ensures forall k :: 0 <= k < |order| ==> IsTable(messages, order[k])
  {
    forall k | 0 <= k < |order| ensures IsTable(messages, order[k]) { assert order[k] in order; }
  }

  /** On success the keys are the union of the files' keys and every value is some file's value. */
  lemma LoadedEntries(messages: seq<Message>, s: State, d: string)
    requires Reachable(Step, Start(messages), s) && s.collector.Returned? && s.collector.result.Loaded?
    ensures var table := s.collector.result.table;
            && (d in table <==> exists i :: 0 <= i < |messages| && messages[i].Table? && d in messages[i].table)
            && (d in table ==> exists i :: 0 <= i < |messages| && messages[i].Table? && d in messages[i].table
                                 && table[d] == messages[i].table[d])
  {
    ReachableInv(messages, s);
    ReturnedResult(s);
    MergedEntries(messages, s.order, d);
    var table := s.collector.result.table;
    if i :| 0 <= i < |messages| && messages[i].Table? && d in messages[i].table {
      assert i in s.order;
      var k :| 0 <= k < |s.order| && s.order[k] == i;
      assert d in table;
    }
  }

  /** Any file error yields no table, in every schedule; without one, every schedule yields a table. */
  lemma ErrorsYieldNoTable(messages: seq<Message>, s: State)
    requires Reachable(Step, Start(messages), s) && s.collector.Returned?
    ensures s.collector.result.LoadError? <==> AnyFailure(messages)
    ensures s.collector.result.LoadError? ==>
              && IsFailure(messages, s.collector.result.file)
              && s.errorOrder != [] && s.collector.result.file == s.errorOrder[0]
  {
    ReachableInv(messages, s);
    ReturnedResult(s);
  }

  lemma AgreeingMergesAreEqual(messages: seq<Message>, a: seq<nat>, b: seq<nat>)
    requires AllTables(messages) && Agree(messages)
    requires Permutation(a, |messages|) && Permutation(b, |messages|)
    requires forall k :: 0 <= k < |a| ==> IsTable(messages, a[k])
    requires forall k :: 0 <= k < |b| ==> IsTable(messages, b[k])
    ensures MergeAll(messages, a) == MergeAll(messages, b)
  {
    var x, y := MergeAll(messages, a), MergeAll(messages, b);
    forall d
      ensures d in x <==> d in y
      ensures d in x && d in y ==> x[d] == y[d]
    {
      MergedEntries(messages, a, d);
      MergedEntries(messages, b, d);
      if d in x {
        var k :| 0 <= k < |a| && d in messages[a[k]].table;
        assert a[k] in b;
        var j :| 0 <= j < |b| && b[j] == a[k];
      }
      if d in y {
        var k :| 0 <= k < |b| && d in messages[b[k]].table;
        assert b[k] in a;
        var j :| 0 <= j < |a| && a[j] == b[k];
      }
    }
    assert x.Keys == y.Keys;
  }

  lemma CanSendNext(messages: seq<Message>, s: State, i: nat)
    requires AllTables(messages) && Reachable(Step, Start(messages), s) && i < |messages| && i !in s.order
    ensures Step(s, Send(i)).Some? && Step(s, Send(i)).value.order == s.order + [i]
  {
    ReachableInv(messages, s);
    assert IsTable(messages, i);
    SendNeverBlocks(s, i);
  }

  /** Some schedule sends in any given order. */
  lemma {:induction false} SendInOrder(messages: seq<Message>, order: seq<nat>, k: nat) returns (events: seq<Event>)
    requires AllTables(messages) && Permutation(order, |messages|) && k <= |order|
    ensures Exec(Step, Start(messages), events).Some?
    ensures Exec(Step, Start(messages), events).value.order == order[..k]
  {
    if k == 0 {
      events := [];
    } else {
      hide Step, Start;
      var before := SendInOrder(messages, order, k - 1);
      var s := Exec(Step, Start(messages), before).value;
      var i := order[k - 1];
      assert i in order;
      CanSendNext(messages, s, i);
      events := before + [Send(i)];
      ExecSnoc(Step, Start(messages), before, Send(i));
      assert order[..k] == order[..k - 1] + [i];
    }
  }

  lemma EveryOrderIsAResult(messages: seq<Message>, order: seq<nat>) returns (s: State)
    requires AllTables(messages) && Permutation(order, |messages|)
    requires forall k :: 0 <= k < |order| ==> IsTable(messages, order[k])
    ensures Reachable(Step, Start(messages), s)
    ensures s.collector == Returned(Loaded(MergeAll(messages, order)))
  {
    var sends := SendInOrder(messages, order, |order|);
    assert order[..|order|] == order;
    var mid := Exec(Step, Start(messages), sends).value;
    ReachableInv(messages, mid);
    assert forall i: nat :: i < |messages| ==> i in mid.order;
    var rest := CanFinish(mid);
    ExecAppend(Step, Start(messages), sends, rest);
    s := Exec(Step, mid, rest).value;
    ReturnedResult(s);
  }

  ghost predicate ScheduleIndependent(messages: seq<Message>) {
    forall s, t ::
      (&& Reachable(Step, Start(messages), s) && Reachable(Step, Start(messages), t)
       && s.collector.Returned? && t.collector.Returned?) ==>
        s.collector.result == t.collector.result
  }

  /** The identity order with `last` moved to the end. */
  lemma {:induction false} OrderEndingIn(n: nat, last: nat) returns (order: seq<nat>)
    requires last < n
    ensures Permutation(order, n) && |order| > 0 && order[|order| - 1] == last
  {
    var below := seq(last, i => i);
    var above := seq(n - last - 1, i requires 0 <= i => i + last + 1);
    order := below + above + [last];
    forall i: nat ensures i < n <==> i in order {
      if i < last {
        assert order[i] == i;
      } else if i == last {
        assert order[|order| - 1] == i;
      } else if i < n {
        assert order[i - 1] == i;
      }
    }
  }

  /** Without file errors the table is the same in every schedule exactly when the files agree on the domains
      they share. */
  lemma ConfluentIffFilesAgree(messages: seq<Message>)
    requires AllTables(messages)
    ensures ScheduleIndependent(messages) <==> Agree(messages)
  {
    if Agree(messages) {
      forall s, t | Reachable(Step, Start(messages), s) && Reachable(Step, Start(messages), t)
          && s.collector.Returned? && t.collector.Returned?
        ensures s.collector.result == t.collector.result
      {
        AgreeingResultsAreEqual(messages, s, t);
      }
    } else {
      hide Step, AllTables;
      var i: nat, j: nat, d :| i < |messages| && j < |messages|
        && d in messages[i].table && d in messages[j].table && messages[i].table[d] != messages[j].table[d];
      var s := ResultEndingIn(messages, i);
      var t := ResultEndingIn(messages, j);
      assert s.collector.result.table[d] != t.collector.result.table[d];
    }
  }

  lemma AgreeingResultsAreEqual(messages: seq<Message>, s: State, t: State)
    requires AllTables(messages) && Agree(messages)
    requires Reachable(Step, Start(messages), s) && s.collector.Returned?
    requires Reachable(Step, Start(messages), t) && t.collector.Returned?
    ensures s.collector.result == t.collector.result
  {
    hide Step, Agree, Permutation, MergeAll, AllTables;
    ResultIsMerge(messages, s);
    ResultIsMerge(messages, t);
    AgreeingMergesAreEqual(messages, s.order, t.order);
  }

  lemma ResultIsMerge(messages: seq<Message>, s: State)
    requires AllTables(messages) && Reachable(Step, Start(messages), s) && s.collector.Returned?
    ensures Permutation(s.order, |messages|) && (forall k :: 0 <= k < |s.order| ==> IsTable(messages, s.order[k]))
    ensures s.collector.result == Loaded(MergeAll(messages, s.order))
  {
    ReachableInv(messages, s);
    hide Step, MergeAll;
    ReturnedResult(s);
  }

  lemma ResultEndingIn(messages: seq<Message>, last: nat) returns (s: State)
    requires AllTables(messages) && last < |messages|
    ensures Reachable(Step, Start(messages), s) && s.collector.Returned? && s.collector.result.Loaded?
    ensures forall d :: d in messages[last].table ==>
              d in s.collector.result.table && s.collector.result.table[d] == messages[last].table[d]
  {
    var order := OrderEndingIn(|messages|, last);
    PermutationIsTables(messages, order);
    s := EveryOrderIsAResult(messages, order);
    assert order[|order| - 1] == last;
  }
}
