/**
 The control-flow helpers of lib/utils.js: `runParallel` launches a function over all items and
 calls done once, `runSeries` runs actions one after another.

 A history lists the callbacks in the order in which they come, synchronous ones included.
 */
module Combinators {

  datatype Answer = Ok | Err(error: nat)

  /** Item number `item` calls back. */
  datatype Call = Call(item: nat, answer: Answer)

  // ---------- runParallel ----------

  /** done records the calls of the final callback. */
  datatype Parallel = Parallel(remaining: nat, finished: bool, done: seq<Answer>)

  function Launch(items: nat): (p: Parallel) {
    if items == 0 then Parallel(0, true, [Ok]) else Parallel(items, false, [])
  }

  function Callback(p: Parallel, answer: Answer): (r: Parallel) {
    if p.finished then p
    else if answer.Err? then p.(finished := true, done := p.done + [answer])
    else if p.remaining <= 1 then Parallel(0, true, p.done + [Ok])
    else p.(remaining := p.remaining - 1)
  }

  function AfterCalls(items: nat, history: seq<Call>): (p: Parallel) {
    if history == [] then Launch(items)
    else Callback(AfterCalls(items, history[..|history| - 1]), history[|history| - 1].answer)
  }

  /** Every item calls back at most once. */
  predicate AtMostOnceEach(items: nat, history: seq<Call>) {
    && (forall i | 0 <= i < |history| :: history[i].item < items)
    && (forall i, j | 0 <= i < j < |history| :: history[i].item != history[j].item)
  }

  predicate AllOk(history: seq<Call>) {
    forall i | 0 <= i < |history| :: history[i].answer == Ok
  }

  /** Index of the first error, or the length of the history. */
  function FirstError(history: seq<Call>): (i: nat)
    ensures i <= |history| && AllOk(history[..i])
    ensures i < |history| ==> history[i].answer.Err?
  {
    if history == [] then 0
    else
      var init := history[..|history| - 1];
      var i := FirstError(init);
      assert history[..i] == init[..i];
      assert i == |init| && history[i].answer == Ok ==> AllOk(history[..|history|]);
      if i < |init| then i
      else if history[i].answer.Err? then i else i + 1
  }

  function Items(history: seq<Call>): (items: set<nat>) {
    set i | 0 <= i < |history| :: history[i].item
  }

  function Range(n: nat): (r: set<nat>)
    ensures |r| == n && forall k: nat :: k in r <==> k < n
  {
    if n == 0 then {} else Range(n - 1) + {n - 1}
  }

  lemma SubsetSize(a: set<nat>, b: set<nat>)
    requires a <= b
    ensures |a| <= |b| && (|a| == |b| ==> a == b)
  {
    assert b == a + (b - a);
    if |a| == |b| {
      assert b - a == {};
    }
  }

  lemma ItemsSnoc(history: seq<Call>, last: Call)
    requires last.item !in Items(history)
    ensures Items(history + [last]) == Items(history) + {last.item}
    ensures |Items(history + [last])| == |Items(history)| + 1
  {
    var all := history + [last];
    assert forall i | 0 <= i < |history| :: all[i] == history[i];
    assert all[|history|] == last;
    forall x | x in Items(all) ensures x in Items(history) + {last.item} {
      var i :| 0 <= i < |all| && all[i].item == x;
    }
    forall x | x in Items(history) ensures x in Items(all) {
      var i :| 0 <= i < |history| && history[i].item == x;
      assert all[i].item == x;
    }
    assert Items(all) == Items(history) + {last.item};
  }

  lemma {:induction false} DistinctItemsCounted(items: nat, history: seq<Call>)
    requires AtMostOnceEach(items, history)
    ensures |Items(history)| == |history| <= items
    ensures |history| == items <==> Items(history) == Range(items)
  {
    if history == [] {
    } else {
      var init, last := history[..|history| - 1], history[|history| - 1];
      DistinctItemsCounted(items, init);
      ItemsSnoc(init, last);
      assert init + [last] == history;
    }
    assert Items(history) <= Range(items);
    SubsetSize(Items(history), Range(items));
  }

  /** Where the machine stands after any history in which every item answers at most once. */
  lemma {:induction false} ParallelState(items: nat, history: seq<Call>)
    requires items > 0 && |history| <= items
    ensures
      var p, e := AfterCalls(items, history), FirstError(history);
      if e < |history| then p.finished && p.done == [history[e].answer]
      else if |history| < items then p == Parallel(items - |history|, false, [])
      else p == Parallel(0, true, [Ok])
  {
    if history == [] {
    } else {
      ParallelState(items, history[..|history| - 1]);
    }
  }

  /** done is called at most once: with the first error, or without one when every item has answered;
      and it has been called as soon as one of the two is the case. */
  lemma ParallelCallsDoneOnce(items: nat, history: seq<Call>)
    requires AtMostOnceEach(items, history)
    ensures
      var done, e := AfterCalls(items, history).done, FirstError(history);
      done == if e < |history| then [history[e].answer] else if Items(history) == Range(items) then [Ok] else []
  {
    DistinctItemsCounted(items, history);
    if items > 0 {
      ParallelState(items, history);
    } else {
      assert history == [];
    }
  }

  /** The hypothesis is needed: an item that answers twice completes the whole without the other. */
  lemma AnsweringTwiceCompletesEarly()
    ensures
      var history := [Call(0, Ok), Call(0, Ok)];
      AfterCalls(2, history).done == [Ok] && 1 !in Items(history)
  {
    var history := [Call(0, Ok), Call(0, Ok)];
    assert history[..1] == [Call(0, Ok)];
    assert history[..1][..0] == [];
    assert AfterCalls(2, history[..1]) == Callback(Launch(2), Ok);
  }

  // ---------- runSeries ----------

  /** next is the index of the action to start; started lists the actions started so far. */
  datatype Series = Series(next: nat, started: seq<nat>, done: seq<Answer>)

  function Next(actions: nat, s: Series, answer: Answer): (r: Series) {
    if answer.Err? || s.next == actions then s.(done := s.done + [answer])
    else Series(s.next + 1, s.started + [s.next], s.done)
  }

  /** The answers of the actions, in order; the first call of next comes from runSeries itself. */
  function AfterAnswers(actions: nat, answers: seq<Answer>): (s: Series) {
    if answers == [] then Next(actions, Series(0, [], []), Ok)
    else Next(actions, AfterAnswers(actions, answers[..|answers| - 1]), answers[|answers| - 1])
  }

  /** Only a started action answers, and at most once; so nothing follows an error. */
  predicate AnswersPossible(actions: nat, answers: seq<Answer>) {
    && |answers| <= actions
    && forall i | 0 <= i < |answers| - 1 :: answers[i] == Ok
  }

  function Upto(n: nat): (r: seq<nat>)
    ensures |r| == n && forall i | 0 <= i < n :: r[i] == i
  {
    seq(n, i => i)
  }

  /** Action i + 1 starts exactly when the first i + 1 answers were without error; done is called once, with
      the error of the action that failed or without one after the last action. */
  lemma {:induction false} SeriesStopsAtFirstError(actions: nat, answers: seq<Answer>)
    requires AnswersPossible(actions, answers)
    ensures
      var s := AfterAnswers(actions, answers);
      var failed := answers != [] && answers[|answers| - 1].Err?;
      && s.started == Upto(if failed || |answers| == actions then |answers| else |answers| + 1)
      && s.next == |s.started|
      && s.done == if failed then [answers[|answers| - 1]] else if |answers| == actions then [Ok] else []
  {
    if answers != [] {
      var init := answers[..|answers| - 1];
      SeriesStopsAtFirstError(actions, init);
      assert Upto(|init| + 1) + [|init| + 1] == Upto(|init| + 2);
      assert init != [] ==> init[|init| - 1] == Ok;
    } else {
      assert [] + [0] == Upto(1);
    }
  }

  // ---------- The program's loops ----------

  /** What an item does while it is launched: call back at once, or later. */
  datatype Launching = Now(answer: Answer) | Later

  function LaunchCalls(launches: seq<Launching>): (history: seq<Call>) {
    if launches == [] then []
    else
      var n := |launches| - 1;
      LaunchCalls(launches[..n]) + if launches[n].Now? then [Call(n, launches[n].answer)] else []
  }

  lemma {:induction false} LaunchCallsOncePerItem(launches: seq<Launching>)
    ensures AtMostOnceEach(|launches|, LaunchCalls(launches))
  {
    if launches == [] {
    } else {
      LaunchCallsOncePerItem(launches[..|launches| - 1]);
    }
  }

  class ParallelRun {
    var remaining: nat
    var finished: bool
    var done: seq<Answer>

    ghost function Abs(): (p: Parallel) reads this {
      Parallel(remaining, finished, done)
    }

    constructor (items: nat)
      ensures Abs() == Launch(items)
    {
      remaining := items;
      finished, done := items == 0, if items == 0 then [Ok] else [];
    }

    method Cb(answer: Answer)
      modifies this
      ensures Abs() == Callback(old(Abs()), answer)
    {
      if finished {
        return;
      }
      if answer.Err? {
        finished := true;
        done := done + [answer];
        return;
      }
      remaining := if remaining <= 1 then 0 else remaining - 1;
      if remaining == 0 {
        finished := true;
        done := done + [Ok];
      }
    }

    /** The launching loop: an error of one item does not keep the later ones from being launched. */
    method LaunchAll(launches: seq<Launching>)
      requires Abs() == Launch(|launches|)
      modifies this
      ensures Abs() == AfterCalls(|launches|, LaunchCalls(launches))
    {
      var i := 0;
      while i < |launches|
        invariant 0 <= i <= |launches|
        invariant Abs() == AfterCalls(|launches|, LaunchCalls(launches[..i]))
      {
        ghost var before, after := LaunchCalls(launches[..i]), LaunchCalls(launches[..i + 1]);
        assert launches[..i + 1][..i] == launches[..i];
        if launches[i].Now? {
          assert after == before + [Call(i, launches[i].answer)];
          assert after[..|after| - 1] == before;
          Cb(launches[i].answer);
        } else {
          assert after == before;
        }
        i := i + 1;
      }
      assert launches[..i] == launches;
    }
  }

  class SeriesRun {
    const actions: nat
    var i: nat
    var started: seq<nat>
    var done: seq<Answer>

    ghost function Abs(): (s: Series) reads this {
      Series(i, started, done)
    }

    constructor (actions: nat)
      ensures Abs() == AfterAnswers(actions, []) && this.actions == actions
    {
      this.actions := actions;
      i := if actions == 0 then 0 else 1;
      started := if actions == 0 then [] else [0];
      done := if actions == 0 then [Ok] else [];
    }

    method NextAction(answer: Answer)
      modifies this
      ensures Abs() == Next(actions, old(Abs()), answer)
    {
      if answer.Err? || i == actions {
        done := done + [answer];
        return;
      }
      started := started + [i];
      i := i + 1;
    }
  }
}
