/** Runs of a step machine.

    Every component of the reactor is modelled by a step function that takes
    a state and an event; the event carries all the nondeterminism (which
    thread moves, what the kernel answers).  A step can be impossible in a
    state (`Disabled`) or hit something the C++ must never do (`Fault`: a
    failing `assert`, or a dereference of a freed object).
 */
module Machine {

  datatype Outcome<S> = Next(state: S) | Disabled | Fault

  /** The state after the events `es`, or the first step that is not `Next`. */
  ghost function Run<S, E>(step: (S, E) -> Outcome<S>, s: S, es: seq<E>): Outcome<S>
    decreases |es|
  {
    if es == [] then Next(s) else
    match step(s, es[0])
    case Next(t) => Run(step, t, es[1..])
    case Disabled => Disabled
    case Fault => Fault
  }

  /** What every step keeps, every run keeps. */
  lemma {:induction false} Invariant<S(!new), E(!new)>(step: (S, E) -> Outcome<S>, inv: S -> bool, s: S, es: seq<E>)
    requires inv(s)
    requires forall t, e | inv(t) && step(t, e).Next? :: inv(step(t, e).state)
    ensures Run(step, s, es).Next? ==> inv(Run(step, s, es).state)
    decreases |es|
  {
    if es != [] && step(s, es[0]).Next? {
      Invariant(step, inv, step(s, es[0]).state, es[1..]);
    }
  }

  /** If moreover no step faults where the invariant holds, no run faults. */
  lemma {:induction false} Safe<S(!new), E(!new)>(step: (S, E) -> Outcome<S>, inv: S -> bool, s: S, es: seq<E>)
    requires inv(s)
    requires forall t, e | inv(t) :: !step(t, e).Fault? && (step(t, e).Next? ==> inv(step(t, e).state))
    ensures !Run(step, s, es).Fault?
    ensures Run(step, s, es).Next? ==> inv(Run(step, s, es).state)
    decreases |es|
  {
    if es != [] && step(s, es[0]).Next? {
      Safe(step, inv, step(s, es[0]).state, es[1..]);
    }
  }

  /** A run one event longer at the front. */
  lemma Cons<S, E>(step: (S, E) -> Outcome<S>, s: S, e: E, es: seq<E>)
    requires step(s, e).Next?
    ensures Run(step, s, [e] + es) == Run(step, step(s, e).state, es)
  {
    assert ([e] + es)[1..] == es;
  }

  /** A run can be cut anywhere. */
  lemma {:induction false} Concat<S, E>(step: (S, E) -> Outcome<S>, s: S, es: seq<E>, fs: seq<E>)
    requires Run(step, s, es).Next?
    ensures Run(step, s, es + fs) == Run(step, Run(step, s, es).state, fs)
    decreases |es|
  {
    if es == [] {
      assert es + fs == fs;
    } else {
      assert (es + fs)[1..] == es[1..] + fs;
      Concat(step, step(s, es[0]).state, es[1..], fs);
    }
  }

  /** What comes before a run's last event is a run, and the last event is a step from its end. */
  lemma {:induction false} Last<S, E>(step: (S, E) -> Outcome<S>, s: S, es: seq<E>)
    requires es != [] && Run(step, s, es).Next?
    ensures Run(step, s, es[..|es| - 1]).Next?
    ensures step(Run(step, s, es[..|es| - 1]).state, es[|es| - 1]) == Run(step, s, es)
    decreases |es|
  {
    var n := |es| - 1;
    if n == 0 {
      assert es[..0] == [] && es[1..] == [];
    } else {
      Last(step, step(s, es[0]).state, es[1..]);
      assert es[..n][1..] == es[1..][..n - 1];
    }
  }

  /** A run one event longer at the end. */
  lemma Snoc<S, E>(step: (S, E) -> Outcome<S>, s: S, es: seq<E>, t: S, e: E)
    requires Run(step, s, es) == Next(t)
    ensures step(t, e).Next? ==> Run(step, s, es + [e]) == step(t, e)
  {
    Concat(step, s, es, [e]);
    if step(t, e).Next? {
      Cons(step, t, e, []);
      assert [e] + [] == [e];
    }
  }
}
