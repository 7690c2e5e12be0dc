/** Runs of a state machine: a step function applied to a list of actions, leaving a log of events. */
module Runs {

  datatype Outcome<S, E> = Stuck | To(next: S, log: seq<E>)

  /** A whole run: Stuck when some action of the list is not enabled. */
  function Replay<S, A, E>(step: (S, A) -> Outcome<S, E>, s: S, acts: seq<A>): Outcome<S, E>
    decreases |acts|
  {
    if acts == [] then To(s, []) else
      match step(s, acts[0])
      case Stuck => Stuck
      case To(m, log) =>
        match Replay(step, m, acts[1..])
        case Stuck => Stuck
        case To(n, rest) => To(n, log + rest)
  }

  /** Taking a run apart at its first step. */
  lemma ReplayFirst<S, A, E>(step: (S, A) -> Outcome<S, E>, s: S, acts: seq<A>)
    requires acts != [] && Replay(step, s, acts).To?
    ensures step(s, acts[0]).To?
    ensures Replay(step, step(s, acts[0]).next, acts[1..]).To?
    ensures Replay(step, s, acts).next == Replay(step, step(s, acts[0]).next, acts[1..]).next
    ensures Replay(step, s, acts).log == step(s, acts[0]).log + Replay(step, step(s, acts[0]).next, acts[1..]).log
  {
  }

  /** Putting a step in front of a run. */
  lemma ReplayCons<S, A, E>(step: (S, A) -> Outcome<S, E>, s: S, a: A, rest: seq<A>)
    requires step(s, a).To? && Replay(step, step(s, a).next, rest).To?
    ensures Replay(step, s, [a] + rest)
            == To(Replay(step, step(s, a).next, rest).next, step(s, a).log + Replay(step, step(s, a).next, rest).log)
  {
    assert ([a] + rest)[1..] == rest;
  }

  /** Induction over runs: what every step keeps, every run keeps. */
  lemma {:induction false} RunInduction<S, A, E>(
    step: (S, A) -> Outcome<S, E>, p: (S, seq<E>) -> bool, s: S, log: seq<E>, acts: seq<A>)
    requires p(s, log) && Replay(step, s, acts).To?
    requires forall t: S, l: seq<E>, a: A :: p(t, l) && step(t, a).To? ==> p(step(t, a).next, l + step(t, a).log)
    ensures p(Replay(step, s, acts).next, log + Replay(step, s, acts).log)
    decreases |acts|
  {
    if acts == [] {
      assert log + [] == log;
    } else {
      ReplayFirst(step, s, acts);
      var m, l := step(s, acts[0]).next, step(s, acts[0]).log;
      RunInduction(step, p, m, log + l, acts[1..]);
      assert (log + l) + Replay(step, m, acts[1..]).log == log + Replay(step, s, acts).log;
    }
  }
}
