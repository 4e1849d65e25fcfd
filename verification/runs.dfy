/** Runs of a transition system whose next state is a function of the state and a move. */
module Runs {

  function Exec<S, M>(next: (S, M) -> S, s: S, moves: seq<M>): S
    decreases |moves|
  {
    if moves == [] then s else Exec(next, next(s, moves[0]), moves[1..])
  }

  /** An invariant that every move keeps holds at the end of every run. */
  lemma {:induction false} InvariantHolds<S(!new), M(!new)>(next: (S, M) -> S, inv: S -> bool, s: S, moves: seq<M>)
    requires inv(s)
    requires forall t: S, m: M {:trigger next(t, m)} :: inv(t) ==> inv(next(t, m))
    ensures inv(Exec(next, s, moves))
    decreases |moves|
  {
    if moves != [] {
      InvariantHolds(next, inv, next(s, moves[0]), moves[1..]);
    }
  }

  /**
    A reflexive and transitive relation between each invariant state and the next relates the two ends of
    every run.
  */
  lemma {:induction false} RelationHolds<S(!new), M(!new)>(
    next: (S, M) -> S, inv: S -> bool, rel: (S, S) -> bool, s: S, moves: seq<M>)
    requires inv(s)
    requires forall t: S, m: M {:trigger next(t, m)} :: inv(t) ==> inv(next(t, m)) && rel(t, next(t, m))
    requires forall t: S :: rel(t, t)
    requires forall t: S, u: S, v: S {:trigger rel(t, u), rel(u, v)} :: rel(t, u) && rel(u, v) ==> rel(t, v)
    ensures rel(s, Exec(next, s, moves))
    decreases |moves|
  {
    if moves != [] {
      RelationHolds(next, inv, rel, next(s, moves[0]), moves[1..]);
    }
  }

  /** A run is the run of its prefix followed by the run of its rest. */
  lemma {:induction false} ExecConcat<S, M>(next: (S, M) -> S, s: S, before: seq<M>, after: seq<M>)
    ensures Exec(next, s, before + after) == Exec(next, Exec(next, s, before), after)
    decreases |before|
  {
    if before == [] {
      assert before + after == after;
    } else {
      assert (before + after)[1..] == before[1..] + after;
      ExecConcat(next, next(s, before[0]), before[1..], after);
    }
  }

  /** Some run leads from s to t. */
  ghost predicate Reaches<S(!new), M(!new)>(next: (S, M) -> S, s: S, t: S) {
    exists moves: seq<M> :: Exec(next, s, moves) == t
  }

  lemma ReachesSelf<S(!new), M(!new)>(next: (S, M) -> S, s: S)
    ensures Reaches(next, s, s)
  {
    assert Exec(next, s, []) == s;
  }

  lemma ReachesNext<S(!new), M(!new)>(next: (S, M) -> S, s: S, t: S, move: M)
    requires Reaches(next, s, t)
    ensures Reaches(next, s, next(t, move))
  {
    var moves: seq<M> :| Exec(next, s, moves) == t;
    ExecConcat(next, s, moves, [move]);
    assert Exec(next, t, [move]) == next(t, move);
    assert Exec(next, s, moves + [move]) == next(t, move);
  }

  lemma ReachesTrans<S(!new), M(!new)>(next: (S, M) -> S, s: S, t: S, u: S)
    requires Reaches(next, s, t) && Reaches(next, t, u)
    ensures Reaches(next, s, u)
  {
    var before: seq<M> :| Exec(next, s, before) == t;
    var after: seq<M> :| Exec(next, t, after) == u;
    ExecConcat(next, s, before, after);
    assert Exec(next, s, before + after) == u;
  }

  lemma ExecOne<S, M>(next: (S, M) -> S, s: S, a: M)
    ensures Exec(next, s, [a]) == next(s, a)
  {
  }

  lemma ExecTwo<S, M>(next: (S, M) -> S, s: S, a: M, b: M)
    ensures Exec(next, s, [a, b]) == next(next(s, a), b)
  {
    assert [a, b][1..] == [b] && [b][1..] == [];
    assert Exec(next, next(s, a), [b]) == next(next(s, a), b);
  }

  lemma ExecFour<S, M>(next: (S, M) -> S, s: S, a: M, b: M, c: M, d: M)
    ensures Exec(next, s, [a, b, c, d]) == next(next(next(next(s, a), b), c), d)
  {
    assert [a, b, c, d] == [a, b] + [c, d];
    ExecConcat(next, s, [a, b], [c, d]);
    ExecTwo(next, s, a, b);
    ExecTwo(next, next(next(s, a), b), c, d);
  }

  /** Five times the same move. */
  lemma ExecFive<S, M>(next: (S, M) -> S, m: M, s: S, s1: S, s2: S, s3: S, s4: S, s5: S)
    requires next(s, m) == s1 && next(s1, m) == s2 && next(s2, m) == s3 && next(s3, m) == s4 && next(s4, m) == s5
    ensures Exec(next, s, [m, m, m, m, m]) == s5
  {
    assert [m, m, m, m, m] == [m, m, m, m] + [m];
    ExecFour(next, s, m, m, m, m);
    ExecConcat(next, s, [m, m, m, m], [m]);
    ExecOne(next, s4, m);
  }

  /** The state after the first k moves of an endless list. */
  function After<S, M>(next: (S, M) -> S, s: S, moves: nat -> M, k: nat): S {
    if k == 0 then s else next(After(next, s, moves, k - 1), moves(k - 1))
  }

  function Rest<M>(moves: nat -> M): nat -> M {
    (i: nat) => moves(i + 1)
  }

  lemma {:induction false} AfterRest<S, M>(next: (S, M) -> S, s: S, moves: nat -> M, k: nat)
    ensures After(next, s, moves, k + 1) == After(next, next(s, moves(0)), Rest(moves), k)
  {
    if k > 0 {
      AfterRest(next, s, moves, k - 1);
    } else {
      assert After(next, s, moves, 0) == s;
    }
  }
}
