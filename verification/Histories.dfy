/**
 Inductions over runs, once and for all: a system is given by its state after each run and by
 its step function. They tie what a state says now to the steps that brought it about.
 */
module Histories {

  /** after gives the state after each run of these steps. */
  ghost predicate Follows<S(!new), E(!new)>(after: seq<E> -> S, step: (S, E) -> S) {
    forall run | run != [] :: after(run) == step(after(run[..|run| - 1]), run[|run| - 1])
  }

  /** Step k of the run is such a step. */
  predicate At<S(!new), E(!new)>(after: seq<E> -> S, kind: (S, E) -> bool, run: seq<E>, k: nat)
    requires k < |run|
  {
    kind(after(run[..k]), run[k])
  }

  /** Every step of the run, in the state it is taken, is of this kind. */
  ghost predicate Throughout<S(!new), E(!new)>(after: seq<E> -> S, kind: (S, E) -> bool, run: seq<E>) {
    forall k | 0 <= k < |run| :: At(after, kind, run, k)
  }

  lemma ThroughoutPrefix<S(!new), E(!new)>(after: seq<E> -> S, kind: (S, E) -> bool, run: seq<E>)
    requires run != [] && Throughout(after, kind, run)
    ensures Throughout(after, kind, run[..|run| - 1])
    ensures kind(after(run[..|run| - 1]), run[|run| - 1])
  {
    var prefix := run[..|run| - 1];
    forall k | 0 <= k < |prefix| ensures At(after, kind, prefix, k) {
      assert At(after, kind, run, k) && prefix[..k] == run[..k];
    }
    assert At(after, kind, run, |run| - 1);
  }

  /** What only certain steps bring about has such a step behind it. */
  lemma {:induction false} Cause<S(!new), E(!new)>(after: seq<E> -> S, step: (S, E) -> S, kind: (S, E) -> bool,
      flag: S -> bool, sets: (S, E) -> bool, run: seq<E>) returns (k: nat)
    requires Follows(after, step) && Throughout(after, kind, run)
    requires !flag(after([])) && flag(after(run))
    requires forall s, e | kind(s, e) && flag(step(s, e)) :: flag(s) || sets(s, e)
    ensures k < |run| && At(after, sets, run, k)
  {
    var prefix, e := run[..|run| - 1], run[|run| - 1];
    ThroughoutPrefix(after, kind, run);
    if flag(after(prefix)) {
      k := Cause(after, step, kind, flag, sets, prefix);
      assert prefix[..k] == run[..k];
    } else {
      k := |run| - 1;
    }
  }

  /** What certain steps bring about and none takes away holds after a run exactly if the run contains such a step. */
  lemma {:induction false} Latch<S(!new), E(!new)>(after: seq<E> -> S, step: (S, E) -> S, kind: (S, E) -> bool,
      flag: S -> bool, sets: (S, E) -> bool, run: seq<E>)
    requires Follows(after, step) && Throughout(after, kind, run)
    requires !flag(after([]))
    requires forall s, e | kind(s, e) :: flag(step(s, e)) <==> flag(s) || sets(s, e)
    ensures flag(after(run)) <==> exists k | 0 <= k < |run| :: At(after, sets, run, k)
  {
    if run == [] {
    } else {
      var prefix, e := run[..|run| - 1], run[|run| - 1];
      ThroughoutPrefix(after, kind, run);
      Latch(after, step, kind, flag, sets, prefix);
      forall k | 0 <= k < |prefix| ensures At(after, sets, run, k) == At(after, sets, prefix, k) {
        assert prefix[..k] == run[..k];
      }
      assert At(after, sets, run, |prefix|) == sets(after(prefix), e);
    }
  }

  /** What holds after i steps, and is kept by the steps up to j, which are of a kind, holds after j steps. */
  lemma {:induction false} Keep<S(!new), E(!new)>(after: seq<E> -> S, step: (S, E) -> S, kind: (S, E) -> bool,
      p: S -> bool, run: seq<E>, i: nat, j: nat)
    requires Follows(after, step)
    requires i <= j <= |run| && p(after(run[..i]))
    requires forall k | i <= k < j :: At(after, kind, run, k)
    requires forall s, e | p(s) && kind(s, e) :: p(step(s, e))
    ensures p(after(run[..j]))
    decreases j
  {
    if i == j {
    } else {
      Keep(after, step, kind, p, run, i, j - 1);
      assert run[..j][..j - 1] == run[..j - 1] && run[..j][j - 1] == run[j - 1];
      assert At(after, kind, run, j - 1);
    }
  }

  /** Step k switches on, and no later step switches off. */
  predicate LastOn<S(!new), E(!new)>(after: seq<E> -> S, sets: (S, E) -> bool, clears: (S, E) -> bool, run: seq<E>,
                                     k: nat)
  {
    k < |run| && At(after, sets, run, k) && forall i | k < i < |run| :: !At(after, clears, run, i)
  }

  lemma LastOnSnoc<S(!new), E(!new)>(after: seq<E> -> S, sets: (S, E) -> bool, clears: (S, E) -> bool, prefix: seq<E>,
                                     e: E, k: nat)
    requires k < |prefix|
    ensures
      LastOn(after, sets, clears, prefix + [e], k)
      <==> LastOn(after, sets, clears, prefix, k) && !clears(after(prefix), e)
  {
    var run := prefix + [e];
    forall i | 0 <= i < |prefix|
      ensures At(after, sets, run, i) == At(after, sets, prefix, i)
      ensures At(after, clears, run, i) == At(after, clears, prefix, i)
    {
      assert run[..i] == prefix[..i];
    }
    assert run[..|prefix|] == prefix;
    assert At(after, clears, run, |prefix|) == clears(after(prefix), e);
  }

  lemma OnAfterSnoc<S(!new), E(!new)>(after: seq<E> -> S, sets: (S, E) -> bool, clears: (S, E) -> bool,
                                       prefix: seq<E>, e: E)
    ensures
      (exists k: nat :: LastOn(after, sets, clears, prefix + [e], k))
      <==>
        || sets(after(prefix), e)
        || ((exists k: nat :: LastOn(after, sets, clears, prefix, k)) && !clears(after(prefix), e))
  {
    var run, n := prefix + [e], |prefix|;
    assert run[..n] == prefix && run[n] == e;
    if sets(after(prefix), e) {
      assert LastOn(after, sets, clears, run, n);
    } else if k: nat :| LastOn(after, sets, clears, run, k) {
      assert k != n;
      LastOnSnoc(after, sets, clears, prefix, e, k);
    } else if k: nat :| LastOn(after, sets, clears, prefix, k) {
      LastOnSnoc(after, sets, clears, prefix, e, k);
    }
  }

  /** What certain steps switch on and others off is on after a run exactly if the last of these switched it on. */
  lemma {:induction false} Switch<S(!new), E(!new)>(after: seq<E> -> S, step: (S, E) -> S, kind: (S, E) -> bool,
      flag: S -> bool, sets: (S, E) -> bool, clears: (S, E) -> bool, run: seq<E>)
    requires Follows(after, step) && Throughout(after, kind, run)
    requires !flag(after([]))
    requires forall s, e | kind(s, e) :: flag(step(s, e)) <==> sets(s, e) || (flag(s) && !clears(s, e))
    ensures flag(after(run)) <==> exists k: nat :: LastOn(after, sets, clears, run, k)
  {
    if run == [] {
    } else {
      var prefix, e := run[..|run| - 1], run[|run| - 1];
      ThroughoutPrefix(after, kind, run);
      Switch(after, step, kind, flag, sets, clears, prefix);
      assert run == prefix + [e];
      OnAfterSnoc(after, sets, clears, prefix, e);
    }
  }
}
