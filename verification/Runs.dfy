/** Runs of a clocked machine: a state before each cycle, and the state after the last. */
module Runs {
  import opened Common

  /** Consecutive states are related by `next` under the cycle's input. */
  ghost predicate Chain<S(!new), I(!new)>(next: (S, I, S) -> bool, states: seq<S>, ins: seq<I>) {
    |states| == |ins| + 1 && forall n | 0 <= n < |ins| :: next(states[n], ins[n], states[n + 1])
  }

  lemma ChainExtend<S(!new), I(!new)>(next: (S, I, S) -> bool, states: seq<S>, ins: seq<I>, i: I, s': S)
    requires Chain(next, states, ins) && next(states[|ins|], i, s')
    ensures Chain(next, states + [s'], ins + [i])
  {
  }

  /** What holds at the start and is kept by every step holds throughout. */
  lemma {:induction false} ChainInvariant<S(!new), I(!new)>(
    next: (S, I, S) -> bool, inv: S -> bool, states: seq<S>, ins: seq<I>, n: nat)
    requires Chain(next, states, ins) && n <= |ins| && inv(states[0])
    requires forall s, i, s' | inv(s) && next(s, i, s') :: inv(s')
    ensures inv(states[n])
  {
    if n > 0 {
      ChainInvariant(next, inv, states, ins, n - 1);
      assert next(states[n - 1], ins[n - 1], states[n]);
    }
  }

  /** A register that measures the distance to an event is at most the distance to any occurrence of it. */
  lemma {:induction false} ChainDistance<S(!new), I(!new)>(
    next: (S, I, S) -> bool, event: (S, I) -> bool, since: S -> Since, states: seq<S>, ins: seq<I>, i: nat, j: nat)
    requires Chain(next, states, ins) && i < j <= |ins| && event(states[i], ins[i])
    requires forall s, x, s' | next(s, x, s') :: since(s') == Elapse(since(s), event(s, x))
    ensures since(states[j]).Some? && since(states[j]).value <= j - i
    decreases j
  {
    assert next(states[j - 1], ins[j - 1], states[j]);
    if i < j - 1 {
      ChainDistance(next, event, since, states, ins, i, j - 1);
    }
  }

  /** A delay line holds what was fed to it, newest first, and below that its initial content. */
  lemma {:induction false} ChainShift<S(!new), I(!new), T(!new)>(
    next: (S, I, S) -> bool, line: S -> seq<T>, feed: (S, I) -> T, states: seq<S>, ins: seq<I>, n: nat, j: nat)
    requires Chain(next, states, ins) && n <= |ins| && j < |line(states[0])|
    requires forall s, i, s' | next(s, i, s') && line(s) != [] :: line(s') == [feed(s, i)] + line(s)[..|line(s)| - 1]
    ensures |line(states[n])| == |line(states[0])|
    ensures line(states[n])[j] == if j < n then feed(states[n - 1 - j], ins[n - 1 - j]) else line(states[0])[j - n]
    decreases n
  {
    if n > 0 {
      ChainShift(next, line, feed, states, ins, n - 1, if j == 0 then 0 else j - 1);
      assert next(states[n - 1], ins[n - 1], states[n]);
    }
  }

  /** A machine that can step from every `ok` state has a chain for every sequence of `fit` inputs. */
  lemma {:induction false} ChainsExist<S(!new), I(!new)>(
    next: (S, I, S) -> bool, step: (S, I) -> S, ok: S -> bool, fit: I -> bool, s: S, ins: seq<I>)
    returns (states: seq<S>)
    requires ok(s) && forall n | 0 <= n < |ins| :: fit(ins[n])
    requires forall t, i {:trigger step(t, i)} | ok(t) && fit(i) :: next(t, i, step(t, i)) && ok(step(t, i))
    ensures Chain(next, states, ins) && states[0] == s && ok(states[|ins|])
    decreases |ins|
  {
    if ins == [] {
      states := [s];
    } else {
      var k := |ins| - 1;
      var before := ChainsExist(next, step, ok, fit, s, ins[..k]);
      var s' := step(before[k], ins[k]);
      ChainExtend(next, before, ins[..k], ins[k], s');
      assert ins[..k] + [ins[k]] == ins;
      states := before + [s'];
    }
  }

  /** Induction on cycle numbers. */
  lemma {:induction false} UpTo(holds: nat -> bool, n: nat)
    requires holds(0) && forall k: nat | k < n && holds(k) :: holds(k + 1)
    ensures holds(n)
  {
    if n > 0 { UpTo(holds, n - 1); }
  }
}
