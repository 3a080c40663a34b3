/**
 Runs of a protocol. A protocol is a function that executes one atomic action on a state, or
 answers None when the action is not possible there. A run is a finite list of actions; since
 every prefix of a run is a run, a statement about the last state of every run is a statement
 about every reachable state.
 */
module Runs {

  datatype Option<+T> = None | Some(value: T)

  function Exec<S, A>(step: (S, A) -> Option<S>, s: S, acts: seq<A>): Option<S>
  {
    if acts == [] then Some(s)
    else
      match step(s, acts[0])
      case None => None
      case Some(next) => Exec(step, next, acts[1..])
  }

  /** What every step keeps, every run keeps. */
  lemma {:induction false} InvariantOfRun<S(!new), A(!new)>(step: (S, A) -> Option<S>, inv: S -> bool, s: S,
                                            acts: seq<A>)
    requires forall t, a :: inv(t) && step(t, a).Some? ==> inv(step(t, a).value)
    requires inv(s)
    requires Exec(step, s, acts).Some?
    ensures inv(Exec(step, s, acts).value)
  {
    if acts != [] {
      InvariantOfRun(step, inv, step(s, acts[0]).value, acts[1..]);
    }
  }

  /** A reflexive, transitive relation that every step respects relates the ends of every run. */
  lemma {:induction false} RelationOfRun<S(!new), A(!new)>(step: (S, A) -> Option<S>, inv: S -> bool,
                                           rel: (S, S) -> bool, s: S, acts: seq<A>)
    requires forall t, a :: inv(t) && step(t, a).Some? ==> inv(step(t, a).value) && rel(t, step(t, a).value)
    requires forall t :: rel(t, t)
    requires forall t, u, v :: rel(t, u) && rel(u, v) ==> rel(t, v)
    requires inv(s)
    requires Exec(step, s, acts).Some?
    ensures rel(s, Exec(step, s, acts).value)
  {
    if acts != [] {
      var next := step(s, acts[0]).value;
      RelationOfRun(step, inv, rel, next, acts[1..]);
    }
  }

  /** A run may be cut anywhere. */
  lemma {:induction false} ExecSplits<S, A>(step: (S, A) -> Option<S>, s: S, front: seq<A>, back: seq<A>)
    requires Exec(step, s, front).Some?
    ensures Exec(step, s, front + back) == Exec(step, Exec(step, s, front).value, back)
  {
    if front == [] {
      assert front + back == back;
    } else {
      ExecSplits(step, step(s, front[0]).value, front[1..], back);
      assert (front + back)[1..] == front[1..] + back;
    }
  }

  /** The front of a run is a run. */
  lemma {:induction false} PrefixRuns<S, A>(step: (S, A) -> Option<S>, s: S, front: seq<A>, back: seq<A>)
    requires Exec(step, s, front + back).Some?
    ensures Exec(step, s, front).Some?
    ensures Exec(step, s, front + back) == Exec(step, Exec(step, s, front).value, back)
  {
    if front == [] {
      assert front + back == back;
    } else {
      assert (front + back)[1..] == front[1..] + back;
      PrefixRuns(step, step(s, front[0]).value, front[1..], back);
    }
  }

  lemma RunUpTo<S, A>(step: (S, A) -> Option<S>, s: S, acts: seq<A>, j: nat)
    requires j <= |acts| && Exec(step, s, acts).Some?
    ensures Exec(step, s, acts[..j]).Some?
  {
    assert acts == acts[..j] + acts[j..];
    PrefixRuns(step, s, acts[..j], acts[j..]);
  }

  /** One more action at the end of a run. */
  lemma ExtendRun<S, A>(step: (S, A) -> Option<S>, s0: S, acts: seq<A>, s: S, a: A) returns (more: seq<A>, s': S)
    requires Exec(step, s0, acts) == Some(s) && step(s, a).Some?
    ensures Exec(step, s0, more) == Some(s') && step(s, a) == Some(s') && more == acts + [a]
  {
    more, s' := acts + [a], step(s, a).value;
    ExecSplits(step, s0, acts, [a]);
    assert [a][1..] == [];
    assert Exec(step, s', []) == Some(s');
  }
}
