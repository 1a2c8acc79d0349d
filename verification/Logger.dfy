/** The buffered logger (logutil/logutil.go): any number of writers, one worker, and Flush with its timeout,
    as a state machine whose events are the atomic actions of the goroutines. */
module Logger {
  import opened Options
  import opened Machine
  import opened Finite

  type Message = string

  const LOG_BUFFER_SIZE := 10000
  const BATCH_SIZE := 50

  /** A call of Write that has made its closed check: about to try the channel, or about to write directly. */
  datatype Writer = Checked(message: Message) | Direct(message: Message)

  /** `stopping` records that the worker has seen done closed. */
  datatype Worker =
    | Selecting
    | BatchReady(stopping: bool)
    | WritingBatch(written: nat, stopping: bool)
    | DrainReady
    | Draining
    | DrainHolding(message: Message)
    | Exited

  /** The Flush call that holds `mu`; Idle when `mu` is free. History: how many unwritten messages the worker held when
      Flush took its message. */
  datatype Flusher = Idle | Waiting | FlushReady | FlushDraining | FlushHolding(message: Message, behind: nat)

  datatype Owner = Nobody | WorkerOwns | FlusherOwns

  /** One message written to the real output; `routed` records whether it came through the channel. */
  datatype Output = Output(message: Message, routed: bool)

  /** History: `accepted` are the messages whose Write made its closed check, `enqueued` the channel sends in
      order, `doneMark` how many of them preceded the closing of done, `timedOut` whether a Flush timed out, `overtook`
      whether Flush wrote a message it had taken while the worker held unwritten ones. */
  datatype State = State(
    chan: seq<Message>,
    batch: seq<Message>,
    worker: Worker,
    flusher: Flusher,
    writeMu: Owner,
    closed: bool,
    done: bool,
    writers: seq<Writer>,
    out: seq<Output>,
    accepted: multiset<Message>,
    enqueued: seq<Message>,
    doneMark: nat,
    timedOut: bool,
    overtook: bool)

  datatype Event =
    | WriteCheck(message: Message)
    | WriteSend(w: nat)
    | WriteDirect(w: nat)
    | WorkerReceive
    | WorkerTick
    | WorkerSeesDone
    | WorkerLocks
    | WorkerWrites
    | WorkerUnlocks
    | WorkerTakes
    | FlushEnter
    | FlushSeesExit
    | FlushTimesOut
    | FlushLocks
    | FlushTakes
    | FlushWrites
    | FlushUnlocks

  const START := State([], [], Selecting, Idle, Nobody, false, false, [], [], multiset{}, [], 0, false, false)

  function Without(writers: seq<Writer>, w: nat): seq<Writer>
    requires w < |writers|
  {
    writers[..w] + writers[w + 1..]
  }

  function WriterStep(s: State, e: Event): Option<State>
    requires e.WriteCheck? || e.WriteSend? || e.WriteDirect?
  {
    match e
    case WriteCheck(m) =>
      if s.flusher == Idle then
        Some(s.(writers := s.writers + [if s.closed then Direct(m) else Checked(m)],
                accepted := s.accepted + multiset{m}))
      else None
    case WriteSend(w) =>
      if w < |s.writers| && s.writers[w].Checked? then
        var m := s.writers[w].message;
        if |s.chan| < LOG_BUFFER_SIZE then
          Some(s.(chan := s.chan + [m], enqueued := s.enqueued + [m], writers := Without(s.writers, w)))
        else
          Some(s.(writers := s.writers[w := Direct(m)]))
      else None
    case WriteDirect(w) =>
      if w < |s.writers| && s.writers[w].Direct? && s.writeMu == Nobody then
        Some(s.(out := s.out + [Output(s.writers[w].message, false)], writers := Without(s.writers, w)))
      else None
  }

  function WorkerStep(s: State, e: Event): Option<State>
    requires e.WorkerReceive? || e.WorkerTick? || e.WorkerSeesDone? || e.WorkerLocks? || e.WorkerWrites?
             || e.WorkerUnlocks? || e.WorkerTakes?
  {
    match e
    case WorkerReceive =>
      if s.worker == Selecting && s.chan != [] then
        var batch := s.batch + [s.chan[0]];
        Some(s.(chan := s.chan[1..], batch := batch,
                worker := if |batch| >= BATCH_SIZE then BatchReady(false) else Selecting))
      else None
    case WorkerTick =>
      if s.worker == Selecting && s.batch != [] then Some(s.(worker := BatchReady(false))) else None
    case WorkerSeesDone =>
      if s.worker == Selecting && s.done then
        Some(s.(worker := if s.batch != [] then BatchReady(true) else DrainReady))
      else None
    case WorkerLocks =>
      if s.writeMu == Nobody && s.worker.BatchReady? then
        Some(s.(writeMu := WorkerOwns, worker := WritingBatch(0, s.worker.stopping)))
      else if s.writeMu == Nobody && s.worker == DrainReady then
        Some(s.(writeMu := WorkerOwns, worker := Draining))
      else None
    case WorkerWrites =>
      if s.worker.WritingBatch? && s.worker.written < |s.batch| then
        Some(s.(out := s.out + [Output(s.batch[s.worker.written], true)],
                worker := WritingBatch(s.worker.written + 1, s.worker.stopping)))
      else if s.worker.DrainHolding? then
        Some(s.(out := s.out + [Output(s.worker.message, true)], worker := Draining))
      else None
    case WorkerUnlocks =>
      if s.worker.WritingBatch? && s.worker.written == |s.batch| then
        Some(s.(writeMu := Nobody, batch := [], worker := if s.worker.stopping then DrainReady else Selecting))
      else if s.worker == Draining && s.chan == [] then
        Some(s.(writeMu := Nobody, worker := Exited))
      else None
    case WorkerTakes =>
      if s.worker == Draining && s.chan != [] then
        Some(s.(chan := s.chan[1..], worker := DrainHolding(s.chan[0])))
      else None
  }

  function FlusherStep(s: State, e: Event): Option<State>
    requires e.FlushEnter? || e.FlushSeesExit? || e.FlushTimesOut? || e.FlushLocks? || e.FlushTakes?
             || e.FlushWrites? || e.FlushUnlocks?
  {
    match e
    case FlushEnter =>
      if s.flusher == Idle then
        if s.closed then Some(s.(flusher := FlushReady))
        else Some(s.(flusher := Waiting, closed := true, done := true, doneMark := |s.enqueued|))
      else None
    case FlushSeesExit =>
      if s.flusher == Waiting && s.worker == Exited then Some(s.(flusher := Idle)) else None
    case FlushTimesOut =>
      if s.flusher == Waiting then Some(s.(flusher := FlushReady, timedOut := true)) else None
    case FlushLocks =>
      if s.flusher == FlushReady && s.writeMu == Nobody then
        Some(s.(flusher := FlushDraining, writeMu := FlusherOwns))
      else None
    case FlushTakes =>
      if s.flusher == FlushDraining && s.chan != [] then
        Some(s.(chan := s.chan[1..], flusher := FlushHolding(s.chan[0], |WorkerHolds(s)|)))
      else None
    case FlushWrites =>
      if s.flusher.FlushHolding? then
        Some(s.(out := s.out + [Output(s.flusher.message, true)], flusher := FlushDraining,
                overtook := s.overtook || s.flusher.behind > 0))
      else None
    case FlushUnlocks =>
      if s.flusher == FlushDraining && s.chan == [] then
        Some(s.(writeMu := Nobody, flusher := Idle))
      else None
  }

  function Step(s: State, e: Event): Option<State> {
    match e
    case WriteCheck(_) => WriterStep(s, e)
    case WriteSend(_) => WriterStep(s, e)
    case WriteDirect(_) => WriterStep(s, e)
    case WorkerReceive => WorkerStep(s, e)
    case WorkerTick => WorkerStep(s, e)
    case WorkerSeesDone => WorkerStep(s, e)
    case WorkerLocks => WorkerStep(s, e)
    case WorkerWrites => WorkerStep(s, e)
    case WorkerUnlocks => WorkerStep(s, e)
    case WorkerTakes => WorkerStep(s, e)
    case _ => FlusherStep(s, e)
  }

  /** Everything written, in order. */
  ghost function Written(out: seq<Output>): seq<Message> {
    seq(|out|, i requires 0 <= i < |out| => out[i].message)
  }

  /** What came through the channel, in order of writing. */
  ghost function Routed(out: seq<Output>): seq<Message> {
    if out == [] then []
    else
      var last := out[|out| - 1];
      Routed(out[..|out| - 1]) + if last.routed then [last.message] else []
  }

  function WorkerHolds(s: State): seq<Message> {
    match s.worker
    case WritingBatch(written, _) => if written <= |s.batch| then s.batch[written..] else []
    case DrainHolding(m) => [m]
    case _ => s.batch
  }

  ghost function FlusherHolds(s: State): seq<Message> {
    if s.flusher.FlushHolding? then [s.flusher.message] else []
  }

  /** The channel messages not yet written: what the worker holds, what Flush holds, and the channel. */
  ghost function Pending(s: State): seq<Message> {
    WorkerHolds(s) + (FlusherHolds(s) + s.chan)
  }

  ghost function InFlight(writers: seq<Writer>): multiset<Message> {
    multiset(seq(|writers|, i requires 0 <= i < |writers| => writers[i].message))
  }

  /** Every accepted message is in exactly one place. */
  ghost predicate ExactlyOnce(s: State) {
    multiset(Written(s.out)) + multiset(Pending(s)) + InFlight(s.writers) == s.accepted
  }

  /** The channel messages not yet written, in the order they were enqueued: what Flush holds goes behind what the
      worker held before Flush took it. */
  ghost function Line(s: State): seq<Message> {
    var w := WorkerHolds(s);
    if s.flusher.FlushHolding? && s.flusher.behind <= |w| then
      w[..s.flusher.behind] + ([s.flusher.message] + (w[s.flusher.behind..] + s.chan))
    else w + s.chan
  }

  /** While Flush has overtaken nothing, channel messages are written in the order they were enqueued. */
  ghost predicate Fifo(s: State) {
    !s.overtook ==> Routed(s.out) + Line(s) == s.enqueued
  }

  ghost predicate OutOfPlace(s: State, r: nat) {
    r < |Routed(s.out)| && r < |s.enqueued| && Routed(s.out)[r] != s.enqueued[r]
  }

  /** Once Flush has overtaken something the order is broken for good. */
  ghost predicate Broken(s: State) {
    s.overtook && Distinct(s.enqueued) ==> exists r: nat :: OutOfPlace(s, r)
  }

  ghost predicate Shape(s: State) {
    && |s.chan| <= LOG_BUFFER_SIZE && |s.batch| <= BATCH_SIZE
    && (s.worker == Selecting ==> |s.batch| < BATCH_SIZE)
    && (s.worker.BatchReady? ==> s.batch != [])
    && (s.worker.WritingBatch? ==> s.batch != [] && s.worker.written <= |s.batch|)
    && (s.worker == DrainReady || s.worker == Draining || s.worker.DrainHolding? || s.worker == Exited ==>
          s.batch == [] && s.done)
    && ((s.worker.BatchReady? || s.worker.WritingBatch?) && s.worker.stopping ==> s.done)
    && (s.done <==> s.closed)
    && (s.flusher != Idle ==> s.closed)
    && (s.timedOut ==> s.closed)
    && (s.flusher == Waiting ==> !s.timedOut)
    && (s.writeMu == WorkerOwns <==> s.worker.WritingBatch? || s.worker == Draining || s.worker.DrainHolding?)
    && (s.writeMu == FlusherOwns <==> s.flusher == FlushDraining || s.flusher.FlushHolding?)
    && (!s.timedOut && s.closed && s.flusher != Waiting ==> s.worker == Exited)
    && (s.flusher.FlushHolding? ==> s.flusher.behind <= |WorkerHolds(s)|)
    && (s.overtook ==> s.timedOut)
  }

  /** Once the worker has exited without a timeout, what was enqueued before done closed has been written. */
  ghost predicate Flushed(s: State) {
    && (s.closed ==> s.doneMark <= |s.enqueued|)
    && (s.worker == Exited && !s.timedOut ==> s.doneMark <= |Routed(s.out)|)
  }

  ghost predicate Inv(s: State) {
    Shape(s) && ExactlyOnce(s) && Fifo(s) && Broken(s) && Flushed(s)
  }

  lemma OutputAppended(out: seq<Output>, o: Output)
    ensures Written(out + [o]) == Written(out) + [o.message]
    ensures Routed(out + [o]) == if o.routed then Routed(out) + [o.message] else Routed(out)
  {
    assert (out + [o])[..|out|] == out;
  }

  lemma WriterRemoved(writers: seq<Writer>, w: nat)
    requires w < |writers|
    ensures InFlight(Without(writers, w)) + multiset{writers[w].message} == InFlight(writers)
  {
    var a := seq(|writers|, i requires 0 <= i < |writers| => writers[i].message);
    var rest := Without(writers, w);
    var b := seq(|rest|, i requires 0 <= i < |rest| => rest[i].message);
    assert a == a[..w] + [a[w]] + a[w + 1..];
    assert b == a[..w] + a[w + 1..];
  }

  lemma WriterAdded(writers: seq<Writer>, w: Writer)
    ensures InFlight(writers + [w]) == InFlight(writers) + multiset{w.message}
  {
    var a := seq(|writers|, i requires 0 <= i < |writers| => writers[i].message);
    var more := writers + [w];
    assert seq(|more|, i requires 0 <= i < |more| => more[i].message) == a + [w.message];
  }

  lemma WriterChanged(writers: seq<Writer>, w: nat, v: Writer)
    requires w < |writers| && v.message == writers[w].message
    ensures InFlight(writers[w := v]) == InFlight(writers)
  {
    var more := writers[w := v];
    assert seq(|more|, i requires 0 <= i < |more| => more[i].message)
        == seq(|writers|, i requires 0 <= i < |writers| => writers[i].message);
  }

  lemma WriterKeepsShape(s: State, e: Event)
    requires Shape(s) && IsWriter(e) && WriterStep(s, e).Some?
    ensures Shape(WriterStep(s, e).value)
  {
  }

  lemma WorkerKeepsShape(s: State, e: Event)
    requires Shape(s) && FromWorker(e) && WorkerStep(s, e).Some?
    ensures Shape(WorkerStep(s, e).value)
  {
  }

  lemma FlusherKeepsShape(s: State, e: Event)
    requires Shape(s) && !IsWriter(e) && !FromWorker(e) && FlusherStep(s, e).Some?
    ensures Shape(FlusherStep(s, e).value)
  {
  }

  lemma StepKeepsShape(s: State, e: Event)
    requires Shape(s) && Step(s, e).Some?
    ensures Shape(Step(s, e).value)
  {
    hide Shape, WriterStep, WorkerStep, FlusherStep;
    if IsWriter(e) {
      WriterKeepsShape(s, e);
    } else if FromWorker(e) {
      WorkerKeepsShape(s, e);
    } else {
      FlusherKeepsShape(s, e);
    }
  }

  predicate FromWorker(e: Event) {
    || e.WorkerReceive? || e.WorkerTick? || e.WorkerSeesDone? || e.WorkerLocks? || e.WorkerWrites?
    || e.WorkerUnlocks? || e.WorkerTakes?
  }

  predicate IsWriter(e: Event) {
    e.WriteCheck? || e.WriteSend? || e.WriteDirect?
  }

  lemma PendingAppended(s: State, m: Message)
    ensures Pending(s.(chan := s.chan + [m])) == Pending(s) + [m]
  {
  }

  lemma CheckKeepsOnce(s: State, e: Event)
    requires ExactlyOnce(s) && e.WriteCheck? && WriterStep(s, e).Some?
    ensures ExactlyOnce(WriterStep(s, e).value)
  {
    hide InFlight, Written, Pending;
    WriterAdded(s.writers, if s.closed then Direct(e.message) else Checked(e.message));
    SamePending(s, WriterStep(s, e).value);
  }

  lemma SendKeepsOnce(s: State, e: Event)
    requires ExactlyOnce(s) && e.WriteSend? && WriterStep(s, e).Some?
    ensures ExactlyOnce(WriterStep(s, e).value)
  {
    hide InFlight, Written, Pending;
    var s', m := WriterStep(s, e).value, s.writers[e.w].message;
    if |s.chan| < LOG_BUFFER_SIZE {
      WriterRemoved(s.writers, e.w);
      PendingAppended(s, m);
      SamePending(s.(chan := s'.chan), s');
    } else {
      WriterChanged(s.writers, e.w, Direct(m));
      SamePending(s, s');
    }
  }

  lemma DirectKeepsOnce(s: State, e: Event)
    requires ExactlyOnce(s) && e.WriteDirect? && WriterStep(s, e).Some?
    ensures ExactlyOnce(WriterStep(s, e).value)
  {
    hide InFlight, Written, Pending, Routed;
    WriterRemoved(s.writers, e.w);
    OutputAppended(s.out, Output(s.writers[e.w].message, false));
    SamePending(s, WriterStep(s, e).value);
  }

  lemma WriterKeepsOnce(s: State, e: Event)
    requires ExactlyOnce(s) && IsWriter(e) && Step(s, e).Some?
    ensures ExactlyOnce(Step(s, e).value)
  {
    hide ExactlyOnce, WriterStep, WorkerStep, FlusherStep;
    match e
    case WriteCheck(_) => CheckKeepsOnce(s, e);
    case WriteSend(_) => SendKeepsOnce(s, e);
    case WriteDirect(_) => DirectKeepsOnce(s, e);
  }

  lemma SamePending(s: State, s': State)
    requires s.chan == s'.chan && s.batch == s'.batch && s.worker == s'.worker && s.flusher == s'.flusher
    ensures Pending(s) == Pending(s')
  {
  }

  /** A step of the worker or of Flush keeps the pending messages, or moves one of them to the output. */
  ghost predicate Moves(s: State, s': State) {
    && s'.writers == s.writers && s'.accepted == s.accepted && s'.enqueued == s.enqueued
    && if s'.out == s.out then multiset(Pending(s')) == multiset(Pending(s))
       else
         && |s'.out| == |s.out| + 1 && s'.out[..|s.out|] == s.out && s'.out[|s.out|].routed
         && multiset(Pending(s')) + multiset{s'.out[|s.out|].message} == multiset(Pending(s))
  }

  /** It moves the first of them, in order. */
  ghost predicate MovesInOrder(s: State, s': State) {
    && s'.enqueued == s.enqueued
    && if s'.out == s.out then Line(s') == Line(s)
       else
         && |s'.out| == |s.out| + 1 && s'.out[..|s.out|] == s.out && s'.out[|s.out|].routed
         && Line(s) == [s'.out[|s.out|].message] + Line(s')
  }

  lemma Regroup(w: seq<Message>, f: seq<Message>, m: Message, c: seq<Message>)
    ensures multiset((w + [m]) + (f + c)) == multiset(w + (f + ([m] + c)))
    ensures ([m] + w) + (f + c) == [m] + (w + (f + c))
    ensures multiset(w + ([m] + c)) == multiset(w + ([] + c)) + multiset{m}
  {
  }

  ghost predicate SameHistory(s: State, s': State) {
    s'.writers == s.writers && s'.accepted == s.accepted && s'.enqueued == s.enqueued
  }

  /** The worker takes the head `m` of the channel into what it holds, or Flush takes it behind that. */
  ghost predicate Takes(s: State, s': State, m: Message) {
    && SameHistory(s, s') && s'.out == s.out && s.chan == [m] + s'.chan
    && (|| (&& WorkerHolds(s') == WorkerHolds(s) + [m] && s'.flusher == s.flusher
            && (s.flusher.FlushHolding? ==> s.flusher.behind <= |WorkerHolds(s)|))
        || (&& WorkerHolds(s') == WorkerHolds(s) && s'.flusher == FlushHolding(m, |WorkerHolds(s)|)
            && !s.flusher.FlushHolding?))
  }

  lemma RegroupTaken(w: seq<Message>, m: Message, c: seq<Message>)
    ensures w[..|w|] + ([m] + (w[|w|..] + c)) == w + ([m] + c)
    ensures (w + [m]) + c == w + ([m] + c)
  {
  }

  lemma RegroupBehind(w: seq<Message>, b: nat, f: seq<Message>, m: Message, c: seq<Message>)
    requires b <= |w|
    ensures (w + [m])[..b] + (f + ((w + [m])[b..] + c)) == w[..b] + (f + (w[b..] + ([m] + c)))
  {
    assert (w + [m])[b..] == w[b..] + [m];
  }

  lemma TakeKeepsLine(s: State, s': State, m: Message)
    requires Takes(s, s', m)
    ensures Line(s') == Line(s)
  {
    hide WorkerHolds;
    var w := WorkerHolds(s);
    RegroupTaken(w, m, s'.chan);
    if s'.flusher == s.flusher && s.flusher.FlushHolding? {
      RegroupBehind(w, s.flusher.behind, [s.flusher.message], m, s'.chan);
    }
  }

  lemma TakeMoves(s: State, s': State, m: Message)
    requires Takes(s, s', m)
    ensures Moves(s, s') && MovesInOrder(s, s')
  {
    TakeKeepsLine(s, s', m);
    hide WorkerHolds, Line;
    Regroup(WorkerHolds(s), FlusherHolds(s), m, s'.chan);
    if s'.flusher != s.flusher {
      assert FlusherHolds(s') + s'.chan == FlusherHolds(s) + s.chan;
    }
  }

  /** The worker or Flush writes a message `m` it holds. */
  ghost predicate Writes(s: State, s': State, m: Message) {
    && SameHistory(s, s') && s'.out == s.out + [Output(m, true)] && s'.chan == s.chan
    && (|| (WorkerHolds(s) == [m] + WorkerHolds(s') && s'.flusher == s.flusher && !s.flusher.FlushHolding?)
        || (&& WorkerHolds(s) == WorkerHolds(s') && s.flusher.FlushHolding? && s.flusher.message == m
            && s.flusher.behind <= |WorkerHolds(s)| && !s'.flusher.FlushHolding?))
  }

  lemma WriteKeepsLine(s: State, s': State, m: Message)
    requires Writes(s, s', m) && (s.flusher.FlushHolding? ==> s.flusher.behind == 0)
    ensures Line(s) == [m] + Line(s')
  {
    hide WorkerHolds;
    var w := WorkerHolds(s);
    if s.flusher.FlushHolding? {
      assert w[..0] == [] && w[0..] == w;
      assert [] + ([m] + (w + s.chan)) == [m] + (w + s.chan);
    } else {
      assert [m] + WorkerHolds(s') + s.chan == [m] + (WorkerHolds(s') + s.chan);
    }
  }

  lemma WriteMoves(s: State, s': State, m: Message)
    requires Writes(s, s', m)
    ensures Moves(s, s')
    ensures (s.flusher.FlushHolding? ==> s.flusher.behind == 0) ==> MovesInOrder(s, s')
  {
    if s.flusher.FlushHolding? ==> s.flusher.behind == 0 { WriteKeepsLine(s, s', m); }
    hide WorkerHolds, Line;
    Regroup(WorkerHolds(s'), FlusherHolds(s), m, s.chan);
    if s.flusher.FlushHolding? { Regroup(WorkerHolds(s), [], m, s.chan); }
  }

  lemma OtherMoves(s: State, e: Event)
    requires Shape(s) && !IsWriter(e) && Step(s, e).Some?
    requires !(e.WorkerReceive? || e.WorkerTakes? || e.FlushTakes? || e.WorkerWrites? || e.FlushWrites?)
    ensures Moves(s, Step(s, e).value) && MovesInOrder(s, Step(s, e).value)
  {
    OtherStepsHold(s, e);
    hide Step, Shape, WorkerHolds;
  }

  lemma OtherStepsHold(s: State, e: Event)
    requires Shape(s) && !IsWriter(e) && Step(s, e).Some?
    requires !(e.WorkerReceive? || e.WorkerTakes? || e.FlushTakes? || e.WorkerWrites? || e.FlushWrites?)
    ensures var s' := Step(s, e).value;
            && SameHistory(s, s') && s'.out == s.out && s'.chan == s.chan && s'.overtook == s.overtook
            && WorkerHolds(s') == WorkerHolds(s)
            && (s'.flusher == s.flusher || (!s.flusher.FlushHolding? && !s'.flusher.FlushHolding?))
  {
    if e.WorkerTick? || e.WorkerSeesDone? || e.WorkerLocks? || e.WorkerUnlocks? {
      hide FlusherStep, WriterStep;
    } else {
      hide WorkerStep, WriterStep, WorkerHolds;
    }
  }

  predicate IsTake(e: Event) {
    e.WorkerReceive? || e.WorkerTakes? || e.FlushTakes?
  }

  predicate IsWrite(e: Event) {
    e.WorkerWrites? || e.FlushWrites?
  }

  lemma StepTakes(s: State, e: Event)
    requires Shape(s) && IsTake(e) && Step(s, e).Some?
    ensures s.chan != [] && Takes(s, Step(s, e).value, s.chan[0]) && Step(s, e).value.overtook == s.overtook
  {
    hide WriterStep;
    if e.FlushTakes? { hide WorkerStep; } else { hide FlusherStep; }
  }

  lemma WorkerWritesItsFirst(s: State) returns (m: Message)
    requires Shape(s) && WorkerStep(s, WorkerWrites).Some?
    ensures Writes(s, WorkerStep(s, WorkerWrites).value, m)
    ensures !s.flusher.FlushHolding? && WorkerStep(s, WorkerWrites).value.overtook == s.overtook
  {
    m := if s.worker.DrainHolding? then s.worker.message else s.batch[s.worker.written];
  }

  lemma FlushWritesItsOwn(s: State)
    requires Shape(s) && FlusherStep(s, FlushWrites).Some?
    ensures s.flusher.FlushHolding? && Writes(s, FlusherStep(s, FlushWrites).value, s.flusher.message)
    ensures FlusherStep(s, FlushWrites).value.overtook == (s.overtook || s.flusher.behind > 0)
  {
  }

  lemma StepWrites(s: State, e: Event) returns (m: Message)
    requires Shape(s) && IsWrite(e) && Step(s, e).Some?
    ensures Writes(s, Step(s, e).value, m)
    ensures e.WorkerWrites? ==> !s.flusher.FlushHolding? && Step(s, e).value.overtook == s.overtook
    ensures e.FlushWrites? ==> s.flusher.FlushHolding?
                               && Step(s, e).value.overtook == (s.overtook || s.flusher.behind > 0)
  {
    hide Shape, Writes, WorkerStep, FlusherStep;
    if e.WorkerWrites? {
      m := WorkerWritesItsFirst(s);
    } else {
      FlushWritesItsOwn(s);
      m := s.flusher.message;
    }
  }

  lemma StepMoves(s: State, e: Event)
    requires Shape(s) && !IsWriter(e) && Step(s, e).Some?
    ensures Moves(s, Step(s, e).value)
    ensures !(e.FlushWrites? && s.flusher.FlushHolding? && s.flusher.behind > 0) ==>
              MovesInOrder(s, Step(s, e).value) && Step(s, e).value.overtook == s.overtook
  {
    hide Moves, MovesInOrder, Pending, Line, Step, Shape, Takes, Writes, WorkerHolds;
    if IsTake(e) {
      StepTakes(s, e);
      TakeMoves(s, Step(s, e).value, s.chan[0]);
    } else if IsWrite(e) {
      var m := StepWrites(s, e);
      WriteMoves(s, Step(s, e).value, m);
    } else {
      OtherStepsHold(s, e);
      OtherMoves(s, e);
    }
  }

  lemma MovesKeepOnce(s: State, s': State)
    requires Moves(s, s') && ExactlyOnce(s)
    ensures ExactlyOnce(s')
  {
    hide InFlight, Written, Pending;
    if s'.out != s.out {
      assert s'.out == s.out + [s'.out[|s.out|]];
      OutputAppended(s.out, s'.out[|s.out|]);
    }
  }

  lemma MovesKeepFifo(s: State, s': State)
    requires MovesInOrder(s, s') && s'.overtook == s.overtook && Fifo(s) && Broken(s)
    ensures Fifo(s') && Broken(s')
  {
    hide Line;
    if s'.out != s.out {
      var m := s'.out[|s.out|].message;
      assert s'.out == s.out + [s'.out[|s.out|]];
      OutputAppended(s.out, s'.out[|s.out|]);
      assert Routed(s.out) + ([m] + Line(s')) == Routed(s'.out) + Line(s');
    }
    hide Routed;
    BrokenStays(s, s');
  }

  /** What is out of place stays so, because the output and the enqueued messages only grow. */
  lemma BrokenStays(s: State, s': State)
    requires Broken(s) && s'.overtook == s.overtook
    requires Routed(s.out) <= Routed(s'.out) && s.enqueued <= s'.enqueued
    ensures Broken(s')
  {
    if s.overtook && Distinct(s'.enqueued) {
      assert Distinct(s.enqueued);
      var r: nat :| OutOfPlace(s, r);
      assert OutOfPlace(s', r);
    }
  }

  /** Flush writes a message behind which the worker still holds earlier ones. */
  lemma OvertakingBreaks(s: State, s': State)
    requires Fifo(s) && Broken(s) && s.flusher.FlushHolding? && 0 < s.flusher.behind <= |WorkerHolds(s)|
    requires s'.out == s.out + [Output(s.flusher.message, true)] && s'.enqueued == s.enqueued && s'.overtook
    ensures Fifo(s') && Broken(s')
  {
    var r, m, w := Routed(s.out), s.flusher.message, WorkerHolds(s);
    OutputAppended(s.out, Output(m, true));
    if !s.overtook && Distinct(s.enqueued) {
      var b := s.flusher.behind;
      assert s.enqueued == r + (w[..b] + ([m] + (w[b..] + s.chan)));
      assert s.enqueued[|r|] == w[0] && s.enqueued[|r| + b] == m;
      assert OutOfPlace(s', |r|);
    } else if s.overtook {
      hide Line;
      BrokenStays(s, s'.(overtook := s.overtook));
    }
  }

  /** A writer appends to the channel, or writes directly, or neither. */
  ghost predicate WriterMoved(s: State, s': State) {
    && s'.worker == s.worker && s'.batch == s.batch && s'.flusher == s.flusher && s'.overtook == s.overtook
    && (|| (s'.chan == s.chan && s'.enqueued == s.enqueued && s'.out == s.out)
        || (exists m :: s'.chan == s.chan + [m] && s'.enqueued == s.enqueued + [m] && s'.out == s.out)
        || (exists m :: s'.chan == s.chan && s'.enqueued == s.enqueued && s'.out == s.out + [Output(m, false)]))
  }

  lemma WriterStepMoves(s: State, e: Event)
    requires IsWriter(e) && Step(s, e).Some?
    ensures WriterMoved(s, Step(s, e).value)
  {
    hide WorkerStep, FlusherStep;
  }

  lemma WriterKeepsFifo(s: State, s': State)
    requires Fifo(s) && Broken(s) && WriterMoved(s, s')
    ensures Fifo(s') && Broken(s')
  {
    assert WorkerHolds(s') == WorkerHolds(s);
    hide WorkerHolds;
    if m :| s'.chan == s.chan + [m] && s'.enqueued == s.enqueued + [m] && s'.out == s.out {
      LineAppended(s, s', m);
      hide Line;
      assert Routed(s.out) + (Line(s) + [m]) == Routed(s.out) + Line(s) + [m];
    } else {
      assert Line(s') == Line(s);
      hide Line;
      if m :| s'.out == s.out + [Output(m, false)] { OutputAppended(s.out, Output(m, false)); }
    }
    hide Routed, Line;
    BrokenStays(s, s');
  }

  lemma LineAppended(s: State, s': State, m: Message)
    requires s'.chan == s.chan + [m] && s'.flusher == s.flusher && WorkerHolds(s') == WorkerHolds(s)
    ensures Line(s') == Line(s) + [m]
  {
  }

  /** The worker exits only when nothing is pending, unless a Flush has timed out. */
  lemma ExitFindsNothing(s: State, e: Event)
    requires Shape(s) && !s.timedOut && s.worker != Exited && Step(s, e).Some? && Step(s, e).value.worker == Exited
    ensures Line(s) == [] && Step(s, e).value.out == s.out
  {
    assert e == WorkerUnlocks && s.worker == Draining && s.chan == [];
  }

  lemma DoneMarkStays(s: State, e: Event)
    requires Shape(s) && Step(s, e).Some?
    ensures s.enqueued <= Step(s, e).value.enqueued && (s.timedOut ==> Step(s, e).value.timedOut)
    ensures var s' := Step(s, e).value;
            (s'.closed == s.closed && s'.doneMark == s.doneMark)
            || (s'.closed && s'.doneMark == |s'.enqueued| && s'.worker == s.worker && !s.closed)
  {
    hide Line, WorkerHolds;
  }

  lemma StepKeepsFlushed(s: State, e: Event)
    requires Shape(s) && Fifo(s) && Flushed(s) && Step(s, e).Some?
    ensures Flushed(Step(s, e).value)
  {
    var s' := Step(s, e).value;
    OutputGrows(s, e);
    DoneMarkStays(s, e);
    if !s'.timedOut && s.worker != Exited && s'.worker == Exited { ExitFindsNothing(s, e); }
    hide Step, Line, Routed;
  }

  lemma OutputGrows(s: State, e: Event)
    requires Shape(s) && Step(s, e).Some?
    ensures |Routed(Step(s, e).value.out)| >= |Routed(s.out)|
  {
    hide Routed, Step, Shape, Takes, Writes, WorkerHolds;
    var s' := Step(s, e).value;
    if IsWriter(e) {
      WriterStepMoves(s, e);
      if m :| s'.out == s.out + [Output(m, false)] { OutputAppended(s.out, Output(m, false)); }
    } else {
      StepMoves(s, e);
      if s'.out != s.out {
        assert s'.out == s.out + [s'.out[|s.out|]];
        OutputAppended(s.out, s'.out[|s.out|]);
      }
    }
  }

  lemma StepKeepsFifo(s: State, e: Event)
    requires Shape(s) && Fifo(s) && Broken(s) && Step(s, e).Some?
    ensures Fifo(Step(s, e).value) && Broken(Step(s, e).value)
  {
    hide Fifo, Broken, Moves, MovesInOrder, Line;
    if IsWriter(e) {
      WriterStepMoves(s, e);
      hide Step, Shape;
      WriterKeepsFifo(s, Step(s, e).value);
    } else if e.FlushWrites? && s.flusher.FlushHolding? && s.flusher.behind > 0 {
      OvertakingBreaks(s, Step(s, e).value);
    } else {
      StepMoves(s, e);
      hide Step, Shape;
      MovesKeepFifo(s, Step(s, e).value);
    }
  }

  lemma StepKeepsOnce(s: State, e: Event)
    requires Shape(s) && ExactlyOnce(s) && Step(s, e).Some?
    ensures ExactlyOnce(Step(s, e).value)
  {
    hide Step, Shape, Moves, MovesInOrder, ExactlyOnce;
    if IsWriter(e) {
      WriterKeepsOnce(s, e);
    } else {
      StepMoves(s, e);
      MovesKeepOnce(s, Step(s, e).value);
    }
  }

  lemma StepKeepsInv(s: State, e: Event)
    requires Inv(s) && Step(s, e).Some?
    ensures Inv(Step(s, e).value)
  {
    hide Step, Shape, Fifo, Broken, Flushed, ExactlyOnce;
    StepKeepsShape(s, e);
    StepKeepsFlushed(s, e);
    StepKeepsFifo(s, e);
    StepKeepsOnce(s, e);
  }

  lemma ReachableInv(s: State)
    requires Reachable(Step, START, s)
    ensures Inv(s)
  {
    assert Inv(START);
    hide Inv, Step;
    forall x, e | Inv(x) && Step(x, e).Some? ensures Inv(Step(x, e).value) { StepKeepsInv(x, e); }
    assert Preserved(Step, Inv);
    InvariantReachable(Step, START, Inv, s);
  }

  /** No message is lost or written twice, in any interleaving, timeouts included. */
  lemma MessagesExactlyOnce(s: State)
    requires Reachable(Step, START, s)
    ensures multiset(Written(s.out)) + multiset(WorkerHolds(s)) + multiset(FlusherHolds(s)) + multiset(s.chan)
              + InFlight(s.writers) == s.accepted
  {
    ReachableInv(s);
  }

  /** Without a timeout, channel messages are written in the order they were enqueued. */
  lemma ChannelIsFifo(s: State)
    requires Reachable(Step, START, s) && !s.timedOut
    ensures Routed(s.out) + WorkerHolds(s) + FlusherHolds(s) + s.chan == s.enqueued
    ensures Routed(s.out) <= s.enqueued
  {
    ReachableInv(s);
    LineWithoutTimeout(s);
    hide Shape, ExactlyOnce, Flushed, Line, WorkerHolds, FlusherHolds, Broken;
    RegroupPlaces(Routed(s.out), WorkerHolds(s), FlusherHolds(s), s.chan);
  }

  lemma LineWithoutTimeout(s: State)
    requires Shape(s) && !s.timedOut
    ensures Line(s) == WorkerHolds(s) + FlusherHolds(s) + s.chan
  {
    if s.flusher.FlushHolding? {
      assert WorkerHolds(s) == [] && s.flusher.behind == 0;
      assert Line(s) == [] + ([s.flusher.message] + ([] + s.chan));
    }
  }

  lemma RegroupPlaces(r: seq<Message>, w: seq<Message>, f: seq<Message>, c: seq<Message>)
    ensures r + (w + f + c) == r + w + f + c
  {
  }

  /** When Flush returns because the worker has exited, every message enqueued before done was closed has been
      written, in order. */
  lemma GracefulFlushIsComplete(s: State)
    requires Reachable(Step, START, s) && Step(s, FlushSeesExit).Some?
    ensures s.doneMark <= |s.enqueued| && s.enqueued[..s.doneMark] <= Routed(s.out)
  {
    ReachableInv(s);
    ChannelIsFifo(s);
  }

  /** An open, idle logger with nothing on its way in. */
  ghost predicate Quiet(s: State) {
    && s.writers == [] && !s.closed && !s.timedOut && s.flusher == Idle && s.writeMu == Nobody
    && s.worker == Selecting && s.out == []
  }

  lemma WriteRun(es: seq<Event>, s: State, m: Message) returns (es': seq<Event>, s': State)
    requires Exec(Step, START, es) == Some(s) && Quiet(s) && |s.chan| < LOG_BUFFER_SIZE
    ensures Exec(Step, START, es') == Some(s') && Quiet(s')
    ensures s'.chan == s.chan + [m] && s'.enqueued == s.enqueued + [m] && s'.batch == s.batch
  {
    hide Exec;
    es', s' := Extend(Step, START, es, s, WriteCheck(m));
    assert s'.writers == [Checked(m)];
    es', s' := Extend(Step, START, es', s', WriteSend(0));
  }

  /** A run to a state where the worker holds "a", the channel holds "b", and a Flush has timed out. */
  lemma TimeoutRun() returns (es: seq<Event>, s: State)
    ensures Exec(Step, START, es) == Some(s)
    ensures s.chan == ["b"] && s.batch == ["a"] && s.worker == Selecting && s.out == []
    ensures s.flusher == FlushReady && s.writeMu == Nobody && s.timedOut && s.enqueued == ["a", "b"]
  {
    es, s := WriteRun([], START, "a");
    hide Exec, WriterStep;
    assert s.chan == ["a"] && s.enqueued == ["a"];
    es, s := Extend(Step, START, es, s, WorkerReceive);
    assert s.chan == [] && s.batch == ["a"];
    es, s := WriteRun(es, s, "b");
    hide WorkerStep;
    assert s.enqueued == ["a", "b"] && s.chan == ["b"];
    es, s := Extend(Step, START, es, s, FlushEnter);
    es, s := Extend(Step, START, es, s, FlushTimesOut);
  }

  /** The condition is needed: after a timeout, Flush can overtake the batch the worker holds. */
  lemma FifoFailsAfterTimeout() returns (s: State)
    ensures Reachable(Step, START, s) && s.timedOut
    ensures s.enqueued == ["a", "b"] && Routed(s.out) == ["b", "a"]
  {
    hide Exec, Routed;
    var es: seq<Event>;
    es, s := TimeoutRun();
    es, s := Extend(Step, START, es, s, FlushLocks);
    es, s := Extend(Step, START, es, s, FlushTakes);
    es, s := Extend(Step, START, es, s, FlushWrites);
    es, s := Extend(Step, START, es, s, FlushUnlocks);
    assert s.out == [Output("b", true)] && s.batch == ["a"] && s.enqueued == ["a", "b"];
    assert s.writeMu == Nobody && s.worker == Selecting;
    es, s := Extend(Step, START, es, s, WorkerTick);
    es, s := Extend(Step, START, es, s, WorkerLocks);
    es, s := Extend(Step, START, es, s, WorkerWrites);
    OutputAppended([Output("b", true)], Output("a", true));
    OutputAppended([], Output("b", true));
    assert [] + [Output("b", true)] == [Output("b", true)];
    NothingRouted();
  }

  /** Which runs keep the order: the channel's messages have been written in order if Flush has never written one that
      it took while the worker still held unwritten ones; and only if, when the messages can be told apart. */
  lemma InOrderIffNothingOvertaken(s: State)
    requires Reachable(Step, START, s)
    ensures !s.overtook ==> Routed(s.out) <= s.enqueued
    ensures Distinct(s.enqueued) ==> (Routed(s.out) <= s.enqueued <==> !s.overtook)
  {
    ReachableInv(s);
    if s.overtook && Distinct(s.enqueued) {
      var r: nat :| OutOfPlace(s, r);
    }
  }

  /** Only a Flush that has timed out can overtake; until then there is nothing for it to overtake. */
  lemma OvertakingNeedsTimeout(s: State)
    requires Reachable(Step, START, s)
    ensures s.overtook ==> s.timedOut
    ensures !s.timedOut && Step(s, FlushTakes).Some? ==> WorkerHolds(s) == []
  {
    ReachableInv(s);
  }

  lemma NothingRouted()
    ensures Routed([]) == []
  {
  }

  /** While a Flush holds `mu` some goroutine other than the timer can act: Flush does not deadlock. */
  lemma FlushNeverStuck(s: State)
    requires Inv(s) && s.flusher != Idle
    ensures exists e :: !IsWriter(e) && e != FlushTimesOut && Step(s, e).Some?
  {
    hide ExactlyOnce, Fifo, Flushed;
    var e :=
      if s.writeMu == FlusherOwns then
        if s.flusher.FlushHolding? then FlushWrites else if s.chan == [] then FlushUnlocks else FlushTakes
      else if s.flusher == FlushReady && s.writeMu == Nobody then FlushLocks
      else
        match s.worker
        case Selecting => WorkerSeesDone
        case BatchReady(_) => WorkerLocks
        case WritingBatch(written, _) => if written < |s.batch| then WorkerWrites else WorkerUnlocks
        case DrainReady => WorkerLocks
        case Draining => if s.chan == [] then WorkerUnlocks else WorkerTakes
        case DrainHolding(_) => WorkerWrites
        case Exited => FlushSeesExit;
    assert Step(s, e).Some?;
  }

  ghost function WriterEffort(writers: seq<Writer>): nat {
    if writers == [] then 0
    else WriterEffort(writers[..|writers| - 1]) + if writers[|writers| - 1].Checked? then 9 else 1
  }

  /** The work left while `mu` is held: an upper bound on the events before Flush returns. */
  ghost function Effort(s: State): int {
    WriterEffort(s.writers) + 8 * |s.chan| + 7 * |s.batch|
    + (match s.worker
       case Selecting => 6 case BatchReady(_) => 5 case WritingBatch(written, _) => 4 - written
       case DrainReady => 3 case Draining => 2 case DrainHolding(_) => 3 case Exited => 0)
    + (match s.flusher
       case Idle => 0 case Waiting => 5 case FlushReady => 4 case FlushDraining => 2 case FlushHolding(_, _) => 3)
  }

  lemma {:induction false} WriterEffortSplit(a: seq<Writer>, b: seq<Writer>)
    ensures WriterEffort(a + b) == WriterEffort(a) + WriterEffort(b)
  {
    if b == [] {
      assert a + b == a;
    } else {
      WriterEffortSplit(a, b[..|b| - 1]);
      assert (a + b)[..|a + b| - 1] == a + b[..|b| - 1];
    }
  }

  lemma WriterEffortAt(writers: seq<Writer>, w: nat, v: Writer)
    requires w < |writers|
    ensures var one := (if writers[w].Checked? then 9 else 1);
            && WriterEffort(Without(writers, w)) == WriterEffort(writers) - one
            && WriterEffort(writers[w := v]) == WriterEffort(writers) - one + if v.Checked? then 9 else 1
  {
    var a, b := writers[..w], writers[w + 1..];
    assert writers == a + ([writers[w]] + b) && writers[w := v] == a + ([v] + b);
    assert [writers[w]][..0] == [] && [v][..0] == [];
    WriterEffortSplit(a, [writers[w]] + b);
    WriterEffortSplit(a, [v] + b);
    WriterEffortSplit([writers[w]], b);
    WriterEffortSplit([v], b);
    WriterEffortSplit(a, b);
  }

  lemma WriterEffortShrinks(s: State, e: Event)
    requires IsWriter(e) && s.flusher != Idle && WriterStep(s, e).Some?
    ensures var s' := WriterStep(s, e).value;
            && s'.batch == s.batch && s'.worker == s.worker && s'.flusher == s.flusher
            && WriterEffort(s'.writers) + 8 * |s'.chan| < WriterEffort(s.writers) + 8 * |s.chan|
  {
    hide WriterEffort;
    if e.w < |s.writers| { WriterEffortAt(s.writers, e.w, Direct(s.writers[e.w].message)); }
  }

  lemma WorkerEffortShrinks(s: State, e: Event)
    requires Shape(s) && FromWorker(e) && WorkerStep(s, e).Some?
    ensures Effort(WorkerStep(s, e).value) < Effort(s)
  {
    hide WriterEffort;
  }

  lemma FlusherEffortShrinks(s: State, e: Event)
    requires !IsWriter(e) && !FromWorker(e) && s.flusher != Idle && FlusherStep(s, e).Some?
    ensures Effort(FlusherStep(s, e).value) < Effort(s)
  {
    hide WriterEffort, WorkerHolds;
  }

  lemma EffortIsNatural(s: State)
    requires Shape(s)
    ensures 0 <= Effort(s)
  {
    hide WriterEffort, WorkerHolds;
  }

  lemma EffortShrinks(s: State, e: Event)
    requires Shape(s) && s.flusher != Idle && Step(s, e).Some?
    ensures 0 <= Effort(Step(s, e).value) < Effort(s)
  {
    StepKeepsShape(s, e);
    EffortIsNatural(Step(s, e).value);
    hide Shape, WriterStep, WorkerStep, FlusherStep, WriterEffort;
    if IsWriter(e) {
      WriterEffortShrinks(s, e);
    } else if FromWorker(e) {
      hide Effort;
      WorkerEffortShrinks(s, e);
    } else {
      hide Effort;
      FlusherEffortShrinks(s, e);
    }
  }

  /** Flush returns: no run keeps it inside for more than `Effort` events, whatever the other goroutines do. */
  lemma {:induction false} FlushReturns(s: State, events: seq<Event>)
    requires Inv(s) && s.flusher != Idle
    requires Exec(Step, s, events).Some?
    requires forall k :: 0 <= k < |events| ==> StillFlushing(s, events[..k])
    ensures Inv(Exec(Step, s, events).value)
    ensures |events| + Effort(Exec(Step, s, events).value) <= Effort(s)
    ensures |events| <= Effort(s)
  {
    if events != [] {
      var front := events[..|events| - 1];
      forall k | 0 <= k < |front| ensures StillFlushing(s, front[..k]) { assert front[..k] == events[..k]; }
      FlushReturns(s, front);
      var t := Exec(Step, s, front).value;
      assert StillFlushing(s, front);
      assert Shape(t);
      hide Effort, Step, Inv;
      StepKeepsInv(t, events[|events| - 1]);
      EffortShrinks(t, events[|events| - 1]);
    }
  }

  ghost predicate StillFlushing(s: State, events: seq<Event>) {
    Exec(Step, s, events).Some? ==> Exec(Step, s, events).value.flusher != Idle
  }

  ghost predicate NoneChecked(writers: seq<Writer>) {
    forall w :: 0 <= w < |writers| ==> !writers[w].Checked?
  }

  /** After closing, with no writer left that has passed its check, the channel only empties; and it is empty once the
      worker has exited or Flush has returned. */
  ghost predicate NoneComing(s: State) {
    s.closed && NoneChecked(s.writers) && (s.worker == Exited || s.flusher == Idle ==> s.chan == [])
  }

  lemma WriterKeepsNoneComing(s: State, e: Event)
    requires NoneComing(s) && IsWriter(e) && WriterStep(s, e).Some?
    ensures NoneComing(WriterStep(s, e).value)
  {
  }

  lemma WorkerKeepsNoneComing(s: State, e: Event)
    requires NoneComing(s) && FromWorker(e) && WorkerStep(s, e).Some?
    ensures NoneComing(WorkerStep(s, e).value)
  {
  }

  lemma FlusherKeepsNoneComing(s: State, e: Event)
    requires NoneComing(s) && !IsWriter(e) && !FromWorker(e) && FlusherStep(s, e).Some?
    ensures NoneComing(FlusherStep(s, e).value)
  {
    hide WorkerHolds;
  }

  lemma StepKeepsNoneComing(s: State, e: Event)
    requires NoneComing(s) && Step(s, e).Some?
    ensures NoneComing(Step(s, e).value)
  {
    hide NoneComing, WriterStep, WorkerStep, FlusherStep;
    if IsWriter(e) {
      WriterKeepsNoneComing(s, e);
    } else if FromWorker(e) {
      WorkerKeepsNoneComing(s, e);
    } else {
      FlusherKeepsNoneComing(s, e);
    }
  }

  /** A run in which Flush returns while the writers stand still. */
  lemma {:induction false} RunToReturn(s: State) returns (events: seq<Event>, s': State)
    requires Inv(s)
    ensures Exec(Step, s, events) == Some(s') && s'.flusher == Idle && s'.writers == s.writers
    decreases Effort(s)
  {
    if s.flusher == Idle {
      events, s' := [], s;
      hide Inv;
    } else {
      FlushNeverStuck(s);
      var e :| !IsWriter(e) && e != FlushTimesOut && Step(s, e).Some?;
      var t := Step(s, e).value;
      StepKeepsInv(s, e);
      EffortShrinks(s, e);
      StepMoves(s, e);
      EffortIsNatural(s);
      hide Step, Shape, Effort, ExactlyOnce, Fifo, Broken, Flushed;
      var rest;
      rest, s' := RunToReturn(t);
      OneStepMore(s, e, rest);
      events := [e] + rest;
    }
  }

  lemma OneStepMore(s: State, e: Event, rest: seq<Event>)
    requires Step(s, e).Some?
    ensures Exec(Step, s, [e] + rest) == Exec(Step, Step(s, e).value, rest)
  {
    hide Step;
    assert [e][..0] == [];
    ExecAppend(Step, s, [e], rest);
  }

  /** A run of a Flush that leaves the channel non-empty: it returns before a writer that has passed its check sends. */
  lemma SendAfterReturn(s: State, w: nat) returns (s': State)
    requires Inv(s) && s.flusher != Idle && w < |s.writers| && s.writers[w].Checked?
    ensures Reachable(Step, s, s') && s'.flusher == Idle && s'.chan != []
  {
    var events, t := RunToReturn(s);
    hide Inv, Exec;
    s' := t;
    if |t.chan| < LOG_BUFFER_SIZE {
      events, s' := Extend(Step, s, events, t, WriteSend(w));
    }
  }

  lemma NoneComingStays(s: State, s': State)
    requires NoneComing(s) && Reachable(Step, s, s')
    ensures NoneComing(s')
  {
    hide NoneComing, Step;
    forall x, e | NoneComing(x) && Step(x, e).Some? ensures NoneComing(Step(x, e).value) { StepKeepsNoneComing(x, e); }
    assert Preserved(Step, NoneComing);
    InvariantReachable(Step, s, NoneComing, s');
  }

  /** Whether Flush leaves the channel empty for good is settled when it is called: exactly if no Write is then past its
      check and about to send, the channel is empty whenever no Flush is inside from then on. */
  lemma EmptyAfterFlushIff(s: State)
    requires Reachable(Step, START, s) && !s.closed && s.flusher == Idle
    ensures (forall s' :: Reachable(Step, Step(s, FlushEnter).value, s') && s'.flusher == Idle ==> s'.chan == [])
            <==> NoneChecked(s.writers)
  {
    ReachableInv(s);
    var t := Step(s, FlushEnter).value;
    StepKeepsInv(s, FlushEnter);
    assert t.closed && t.flusher == Waiting && t.writers == s.writers && t.worker != Exited;
    hide Inv, Step;
    if NoneChecked(s.writers) {
      forall s' | Reachable(Step, t, s') && s'.flusher == Idle
        ensures s'.chan == []
      {
        NoneComingStays(t, s');
      }
    } else {
      var w: nat :| w < |s.writers| && s.writers[w].Checked?;
      var s' := SendAfterReturn(t, w);
    }
  }

  /** Such a run from the start: one Write passes its check, Flush comes and goes, and the message is sent after it. */
  lemma SendAfterFlush() returns (s: State)
    ensures Reachable(Step, START, s) && s.closed && s.flusher == Idle && s.chan != []
  {
    assert Exec(Step, START, []) == Some(START);
    hide Exec;
    var events, t := Extend(Step, START, [], START, WriteCheck("a"));
    assert t.writers == [Checked("a")];
    events, t := Extend(Step, START, events, t, FlushEnter);
    ReachableInv(t);
    hide Step;
    s := SendAfterReturn(t, 0);
    ReachableFurther(Step, START, t, s);
    ReachableInv(s);
    ClosedStays(t, s);
  }

  lemma StepKeepsClosed(s: State, e: Event)
    requires s.closed && Step(s, e).Some?
    ensures Step(s, e).value.closed
  {
    if IsWriter(e) {
      hide WorkerStep, FlusherStep;
    } else if FromWorker(e) {
      hide WriterStep, FlusherStep;
    } else {
      hide WriterStep, WorkerStep, WorkerHolds;
    }
  }

  lemma ClosedStays(s: State, s': State)
    requires s.closed && Reachable(Step, s, s')
    ensures s'.closed
  {
    var closed := (x: State) => x.closed;
    hide Step;
    forall x, e | closed(x) && Step(x, e).Some? ensures closed(Step(x, e).value) { StepKeepsClosed(x, e); }
    assert Preserved(Step, closed);
    InvariantReachable(Step, s, closed, s');
  }
}
