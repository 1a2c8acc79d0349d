/** Optional values. */
module Options {
  datatype Option<+T> = None | Some(value: T)
}

/** Runs of a state machine whose step function says, for each event, whether the event is enabled and
    which state it leads to. Every interleaving of the modelled program is some sequence of events. */
module Machine {
  import opened Options

  function Exec<S, E>(step: (S, E) -> Option<S>, start: S, events: seq<E>): Option<S> {
    if events == [] then Some(start)
    else
      match Exec(step, start, events[..|events| - 1])
      case None => None
      case Some(s) => step(s, events[|events| - 1])
  }

  ghost predicate Reachable<S, E(!new)>(step: (S, E) -> Option<S>, start: S, s: S) {
    exists events :: Exec(step, start, events) == Some(s)
  }

  ghost predicate Preserved<S(!new), E(!new)>(step: (S, E) -> Option<S>, inv: S -> bool) {
    forall s, e :: inv(s) && step(s, e).Some? ==> inv(step(s, e).value)
  }

  /** A property that holds at the start and that no step breaks holds in every reachable state. */
  lemma {:induction false} Invariant<S(!new), E(!new)>(
      step: (S, E) -> Option<S>, start: S, inv: S -> bool, events: seq<E>)
    requires inv(start) && Preserved(step, inv)
    ensures var r := Exec(step, start, events); r.Some? ==> inv(r.value)
  {
    if events != [] {
      Invariant(step, start, inv, events[..|events| - 1]);
    }
  }

  lemma InvariantReachable<S(!new), E(!new)>(step: (S, E) -> Option<S>, start: S, inv: S -> bool, s: S)
    requires inv(start) && Preserved(step, inv) && Reachable(step, start, s)
    ensures inv(s)
  {
    var events :| Exec(step, start, events) == Some(s);
    Invariant(step, start, inv, events);
  }

  lemma ExecSnoc<S, E>(step: (S, E) -> Option<S>, start: S, events: seq<E>, e: E)
    requires Exec(step, start, events).Some?
    ensures Exec(step, start, events + [e]) == step(Exec(step, start, events).value, e)
  {
    assert (events + [e])[..|events|] == events;
  }

  /** One more event of a run under construction. */
  lemma Extend<S, E>(step: (S, E) -> Option<S>, start: S, events: seq<E>, s: S, e: E)
      returns (events': seq<E>, s': S)
    requires Exec(step, start, events) == Some(s) && step(s, e).Some?
    ensures Exec(step, start, events') == Some(s') && step(s, e) == Some(s')
  {
    events', s' := events + [e], step(s, e).value;
    ExecSnoc(step, start, events, e);
  }

  /** Runs compose. */
  lemma {:induction false} ExecAppend<S, E>(step: (S, E) -> Option<S>, start: S, a: seq<E>, b: seq<E>)
    requires Exec(step, start, a).Some?
    ensures Exec(step, start, a + b) == Exec(step, Exec(step, start, a).value, b)
  {
    if b == [] {
      assert a + b == a;
    } else {
      ExecAppend(step, start, a, b[..|b| - 1]);
      assert (a + b)[..|a + b| - 1] == a + b[..|b| - 1];
    }
  }

  lemma ReachableFurther<S, E(!new)>(step: (S, E) -> Option<S>, start: S, s: S, t: S)
    requires Reachable(step, start, s) && Reachable(step, s, t)
    ensures Reachable(step, start, t)
  {
    var a, b :| Exec(step, start, a) == Some(s) && Exec(step, s, b) == Some(t);
    ExecAppend(step, start, a, b);
  }

  /** A run of four events, from its intermediate states. */
  lemma ExecFour<S, E>(step: (S, E) -> Option<S>, s0: S, e1: E, s1: S, e2: E, s2: S, e3: E, s3: S, e4: E, s4: S)
    requires step(s0, e1) == Some(s1) && step(s1, e2) == Some(s2) && step(s2, e3) == Some(s3)
    requires step(s3, e4) == Some(s4)
    ensures Exec(step, s0, [e1]) == Some(s1)
    ensures Exec(step, s0, [e1, e2, e3, e4]) == Some(s4)
  {
    assert [e1][..0] == [];
    ExecSnoc(step, s0, [e1], e2);
    assert [e1] + [e2] == [e1, e2];
    ExecSnoc(step, s0, [e1, e2], e3);
    assert [e1, e2] + [e3] == [e1, e2, e3];
    ExecSnoc(step, s0, [e1, e2, e3], e4);
    assert [e1, e2, e3] + [e4] == [e1, e2, e3, e4];
  }
}
