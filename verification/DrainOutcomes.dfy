/**
 What the callbacks of `write` are told. `DrainQueue` shows that none is lost, doubled or
 overtaken; here every outcome is tied to its cause: a parked callback is told that the socket
 drained, that it took too long, or that the connection closed before it could, and a callback
 answered at once is told of a failure exactly if the connection was not open or the write threw
 (lib/write.js, `_handleDrain`, `_handleDrainTimeout`, `close` and `finish` in lib/client.js).
 */
module DrainOutcomes {
  import Histories
  import opened DrainQueue

  // ---------- Steps and runs ----------

  lemma OneStep(timed: bool, run: seq<Event>, k: nat)
    requires k < |run|
    ensures After(timed, run[..k + 1]) == Step(After(timed, run[..k]), run[k])
  {
    assert run[..k + 1][..k] == run[..k];
  }

  /** finish runs: once, and only after close. */
  predicate Finishes(s: State, e: Event) {
    e.FinishRuns? && s.closed && !s.finished
  }

  // ---------- Callbacks that waited ----------

  lemma SettleAppends(a: seq<nat>, b: seq<nat>, outcome: Outcome)
    ensures Settle(a + b, outcome) == Settle(a, outcome) + Settle(b, outcome)
  {}

  lemma WriteSettlesNone(s: State, call: WriteCall)
    ensures Write(s, call).settled == s.settled
    ensures s.directListeners <= Write(s, call).directListeners
  {}

  lemma {:induction false} WritesSettleNone(s: State, calls: seq<WriteCall>)
    ensures Writes(s, calls).settled == s.settled
    ensures s.directListeners <= Writes(s, calls).directListeners
    decreases calls
  {
    if calls == [] {
    } else {
      WriteSettlesNone(s, calls[0]);
      WritesSettleNone(Write(s, calls[0]), calls[1..]);
    }
  }

  /** The emit calls the n oldest direct listeners, in order, whatever they write. */
  lemma {:induction false} ListenersAreDrained(s: State, n: nat, script: seq<seq<WriteCall>>)
    requires n <= |s.directListeners|
    ensures CallListeners(s, n, script).settled == s.settled + Settle(s.directListeners[..n], Drained)
    decreases n
  {
    if n == 0 {
      assert s.settled + Settle(s.directListeners[..0], Drained) == s.settled;
    } else {
      var first, next := s.directListeners[0], CallOne(s, Head(script));
      WritesSettleNone(CallFirst(s), Head(script));
      assert next.directListeners[..n - 1] == s.directListeners[1..n];
      ListenersAreDrained(next, n - 1, Tail(script));
      assert s.directListeners[..n] == [first] + s.directListeners[1..n];
      SettleAppends([first], s.directListeners[1..n], Drained);
      assert Settle([first], Drained) == [Settlement(first, Drained)];
    }
  }

  /** When the socket drains, everything that waits is told so. */
  lemma DrainSettles(s: State, script: seq<seq<WriteCall>>)
    requires Coherent(s)
    ensures DrainedState(s, script).settled == s.settled + Settle(Waiting(s), Drained)
  {
    var s1 := if s.handlerListeners == 0 then s else SettlePending(s.(handlerListeners := 0), Drained);
    assert s1.settled == s.settled + Settle(s.pending, Drained);
    ListenersAreDrained(s1, |s1.directListeners|, script);
    assert s1.directListeners[..|s1.directListeners|] == s.directListeners;
    SettleAppends(s.pending, s.directListeners, Drained);
  }

  /** What an event tells the callbacks that wait. */
  function Told(s: State, e: Event): (told: seq<Settlement>) {
    match e
    case CloseCalled => if s.closed then [] else Settle(s.pending, ClosedBefore)
    case TimerFires => Settle(s.pending, TimedOut)
    case SocketDrains(_) => Settle(Waiting(s), Drained)
    case FinishRuns(_) => if Finishes(s, e) then Settle(Waiting(s), Drained) else []
    case _ => []
  }

  lemma StepTells(s: State, e: Event)
    requires Coherent(s)
    ensures Step(s, e).settled == s.settled + Told(s, e)
  {
    match e
    case DoWrite(call) => WriteSettlesNone(s, call);
    case SocketDrains(script) => DrainSettles(s, script);
    case FinishRuns(script) =>
      if Finishes(s, e) {
        var shut := s.(open := false, finished := true);
        DrainSettles(shut, script);
        assert Waiting(shut) == Waiting(s);
      }
    case _ =>
  }

  /** In every run: a close tells everything pending that the connection closed, a timer that fires tells everything
      pending that it took too long, a socket that drains, and finish, tell everything that waits that it drained; no
      other step tells anything. */
  lemma EveryoneIsTold(timed: bool, run: seq<Event>, k: nat)
    requires k < |run|
    ensures
      var s := After(timed, run[..k]);
      After(timed, run[..k + 1]).settled == s.settled + Told(s, run[k])
  {
    DrainConservation(timed, run[..k]);
    OneStep(timed, run, k);
    StepTells(After(timed, run[..k]), run[k]);
  }

  /** Step k tells settlement j. */
  predicate TellsAt(timed: bool, run: seq<Event>, k: nat, j: nat)
    requires k < |run|
  {
    |After(timed, run[..k]).settled| <= j < |After(timed, run[..k + 1]).settled|
  }

  /** The outcome that fits the event. */
  predicate Fits(s: State, e: Event, outcome: Outcome) {
    match outcome
    case ClosedBefore => e.CloseCalled? && !s.closed
    case TimedOut => e.TimerFires? && s.timer
    case Drained => e.SocketDrains? || Finishes(s, e)
    case _ => false
  }

  lemma ToldFits(s: State, e: Event)
    requires Coherent(s)
    ensures forall j | 0 <= j < |Told(s, e)| :: Fits(s, e, Told(s, e)[j].outcome)
  {
    match e
    case _ =>
  }

  lemma ToldAt(timed: bool, run: seq<Event>, k: nat, j: nat)
    requires k < |run| && TellsAt(timed, run, k, j)
    ensures Fits(After(timed, run[..k]), run[k], After(timed, run[..k + 1]).settled[j].outcome)
  {
    EveryoneIsTold(timed, run, k);
    DrainConservation(timed, run[..k]);
    ToldFits(After(timed, run[..k]), run[k]);
  }

  lemma {:induction false} ToldBy(timed: bool, run: seq<Event>, n: nat, j: nat) returns (k: nat)
    requires n <= |run| && j < |After(timed, run[..n]).settled|
    ensures k < n && TellsAt(timed, run, k, j)
    ensures After(timed, run[..n]).settled[j] == After(timed, run[..k + 1]).settled[j]
    decreases n
  {
    EveryoneIsTold(timed, run, n - 1);
    if j < |After(timed, run[..n - 1]).settled| {
      k := ToldBy(timed, run, n - 1, j);
    } else {
      k := n - 1;
    }
  }

  /** Over a whole run every settlement was told by one step, and what it says is the cause of it. */
  lemma OutcomeHasCause(timed: bool, run: seq<Event>, j: nat) returns (k: nat)
    requires j < |After(timed, run).settled|
    ensures k < |run| && TellsAt(timed, run, k, j)
    ensures Fits(After(timed, run[..k]), run[k], After(timed, run).settled[j].outcome)
  {
    assert run[..|run|] == run;
    k := ToldBy(timed, run, |run|, j);
    ToldAt(timed, run, k, j);
  }

  // ---------- Callbacks answered at once ----------

  /** The writes of a step: the program's own, or those of the listeners that the emit calls. */
  function CallsOf(s: State, e: Event): (calls: seq<WriteCall>) {
    match e
    case DoWrite(call) => [call]
    case SocketDrains(script) => Flatten(script, |s.directListeners|)
    case FinishRuns(script) => if Finishes(s, e) then Flatten(script, |s.directListeners|) else []
    case _ => []
  }

  function Flatten(script: seq<seq<WriteCall>>, n: nat): (calls: seq<WriteCall>)
    decreases n
  {
    if n == 0 then [] else Head(script) + Flatten(Tail(script), n - 1)
  }

  /** What a write of a connection that is open, or not, tells its callback, if the socket has room. */
  function Verdict(open: bool, call: WriteCall): (r: Settlement) {
    Settlement(call.callback, if open && call.result != Threw then Written else Failed)
  }

  predicate Parks(open: bool, errored: bool, call: WriteCall) {
    open && !errored && call.result == BufferFull
  }

  function Verdicts(open: bool, errored: bool, calls: seq<WriteCall>): (r: seq<Settlement>) {
    if calls == [] then []
    else
      Verdicts(open, errored, calls[..|calls| - 1])
      + if Parks(open, errored, calls[|calls| - 1]) then [] else [Verdict(open, calls[|calls| - 1])]
  }

  function Parked(open: bool, errored: bool, calls: seq<WriteCall>): (r: seq<nat>) {
    if calls == [] then []
    else
      Parked(open, errored, calls[..|calls| - 1])
      + if Parks(open, errored, calls[|calls| - 1]) then [calls[|calls| - 1].callback] else []
  }

  /** What these writes have done: those that found no room wait, the others have their verdict. */
  predicate Wrote(s: State, s': State, calls: seq<WriteCall>) {
    && s'.open == s.open && s'.errored == s.errored && s'.closed == s.closed && s'.finished == s.finished
    && s'.answered == s.answered + Verdicts(s.open, s.errored, calls)
    && s'.parked == s.parked + Parked(s.open, s.errored, calls)
  }

  lemma WroteNothing(s: State, s': State)
    requires s'.open == s.open && s'.errored == s.errored && s'.closed == s.closed && s'.finished == s.finished
    requires s'.answered == s.answered && s'.parked == s.parked
    ensures Wrote(s, s', [])
  {}

  lemma OneWrite(s: State, call: WriteCall)
    ensures
      var s', parks := Write(s, call), Parks(s.open, s.errored, call);
      && s'.open == s.open && s'.errored == s.errored && s'.closed == s.closed && s'.finished == s.finished
      && s'.answered == s.answered + (if parks then [] else [Verdict(s.open, call)])
      && s'.parked == s.parked + if parks then [call.callback] else []
  {}

  lemma VerdictsSnoc(open: bool, errored: bool, calls: seq<WriteCall>, call: WriteCall)
    ensures
      var parks := Parks(open, errored, call);
      && Verdicts(open, errored, calls + [call])
         == Verdicts(open, errored, calls) + (if parks then [] else [Verdict(open, call)])
      && Parked(open, errored, calls + [call])
         == Parked(open, errored, calls) + if parks then [call.callback] else []
  {
    assert (calls + [call])[..|calls|] == calls;
  }

  lemma WroteOne(s: State, s': State, calls: seq<WriteCall>, call: WriteCall)
    requires Wrote(s, s', calls)
    ensures Wrote(s, Write(s', call), calls + [call])
  {
    OneWrite(s', call);
    VerdictsSnoc(s.open, s.errored, calls, call);
  }

  lemma {:induction false} WroteAll(s: State, s': State, before: seq<WriteCall>, calls: seq<WriteCall>)
    requires Wrote(s, s', before)
    ensures Wrote(s, Writes(s', calls), before + calls)
    decreases calls
  {
    if calls == [] {
      assert before + calls == before;
    } else {
      WroteOne(s, s', before, calls[0]);
      WroteAll(s, Write(s', calls[0]), before + [calls[0]], calls[1..]);
      assert before + [calls[0]] + calls[1..] == before + calls;
    }
  }

  lemma FlattenNext(before: seq<WriteCall>, script: seq<seq<WriteCall>>, n: nat)
    requires n > 0
    ensures before + Flatten(script, n) == before + Head(script) + Flatten(Tail(script), n - 1)
  {}

  lemma ListenerWrites(s: State, s': State, before: seq<WriteCall>, calls: seq<WriteCall>)
    requires Wrote(s, s', before) && s'.directListeners != []
    ensures Wrote(s, CallOne(s', calls), before + calls)
    ensures |CallOne(s', calls).directListeners| >= |s'.directListeners| - 1
  {
    var called := CallFirst(s');
    assert Wrote(s, called, before);
    WroteAll(s, called, before, calls);
    WritesSettleNone(called, calls);
  }

  lemma {:induction false} ListenersWrite(s: State, s': State, before: seq<WriteCall>, n: nat,
                                          script: seq<seq<WriteCall>>)
    requires Wrote(s, s', before) && n <= |s'.directListeners|
    ensures Wrote(s, CallListeners(s', n, script), before + Flatten(script, n))
    decreases n
  {
    if n == 0 {
      assert before + [] == before;
    } else {
      ListenerWrites(s, s', before, Head(script));
      FlattenNext(before, script, n);
      ListenersWrite(s, CallOne(s', Head(script)), before + Head(script), n - 1, Tail(script));
    }
  }

  lemma DrainWrites(s: State, script: seq<seq<WriteCall>>)
    ensures Wrote(s, DrainedState(s, script), Flatten(script, |s.directListeners|))
  {
    var s1 := if s.handlerListeners == 0 then s else SettlePending(s.(handlerListeners := 0), Drained);
    WroteNothing(s, s1);
    ListenersWrite(s, s1, [], |s1.directListeners|, script);
    assert [] + Flatten(script, |s.directListeners|) == Flatten(script, |s.directListeners|);
  }

  /** finish shuts the connection before it calls anybody. */
  predicate OpenDuring(s: State, e: Event) {
    s.open && !Finishes(s, e)
  }

  lemma StepAnswers(s: State, e: Event)
    ensures
      var calls := CallsOf(s, e);
      && Step(s, e).answered == s.answered + Verdicts(OpenDuring(s, e), s.errored, calls)
      && Step(s, e).parked == s.parked + Parked(OpenDuring(s, e), s.errored, calls)
  {
    match e
    case DoWrite(call) =>
      WroteNothing(s, s);
      WroteOne(s, s, [], call);
      assert [] + [call] == [call];
    case SocketDrains(script) => DrainWrites(s, script);
    case FinishRuns(script) =>
      if Finishes(s, e) {
        DrainWrites(s.(open := false, finished := true), script);
      }
    case _ =>
  }

  /** In every run and at every step: the writes that find the socket full, on a connection that is open and has had no
      error, park; every other one is answered, with a failure exactly if the connection is not open or the write
      threw. */
  lemma EveryWriteIsAnswered(timed: bool, run: seq<Event>, k: nat)
    requires k < |run|
    ensures
      var s, e, s' := After(timed, run[..k]), run[k], After(timed, run[..k + 1]);
      var calls := CallsOf(s, e);
      && s'.answered == s.answered + Verdicts(OpenDuring(s, e), s.errored, calls)
      && s'.parked == s.parked + Parked(OpenDuring(s, e), s.errored, calls)
  {
    OneStep(timed, run, k);
    StepAnswers(After(timed, run[..k]), run[k]);
  }

  // ---------- The flags that decide ----------

  lemma StepFlags(s: State, e: Event)
    ensures Step(s, e).closed <==> s.closed || e.CloseCalled?
    ensures Step(s, e).errored <==> s.errored || e.SocketErrors?
    ensures Step(s, e).finished <==> s.finished || Finishes(s, e)
    ensures Step(s, e).open <==> e.Opens? || (s.open && !Shuts(s, e))
  {
    match e
    case DoWrite(call) => OneWrite(s, call);
    case SocketDrains(script) => DrainWrites(s, script);
    case FinishRuns(script) =>
      if Finishes(s, e) {
        DrainWrites(s.(open := false, finished := true), script);
      }
    case _ =>
  }

  predicate Shuts(s: State, e: Event) {
    e.Shuts? || Finishes(s, e)
  }

  predicate Happens(kind: (State, Event) -> bool, timed: bool, run: seq<Event>, k: nat)
    requires k < |run|
  {
    kind(After(timed, run[..k]), run[k])
  }

  lemma LatchHistory(flag: State -> bool, sets: (State, Event) -> bool, timed: bool, run: seq<Event>)
    requires !flag(Start(timed)) && forall s, e :: flag(Step(s, e)) <==> flag(s) || sets(s, e)
    ensures flag(After(timed, run)) <==> exists k | 0 <= k < |run| :: Happens(sets, timed, run, k)
  {
    var after := run => After(timed, run);
    assert Histories.Follows(after, (s, e) => Step(s, e));
    Histories.Latch(after, (s, e) => Step(s, e), (_, _) => true, flag, sets, run);
    forall k | 0 <= k < |run| ensures Happens(sets, timed, run, k) == Histories.At(after, sets, run, k) {}
  }

  /** A connection counts as closed, as errored and as finished exactly if that has happened. */
  lemma FlagsIff(timed: bool, run: seq<Event>)
    ensures
      var s := After(timed, run);
      && (s.closed <==> CloseCalled in run)
      && (s.errored <==> SocketErrors in run)
      && (s.finished <==> exists k | 0 <= k < |run| :: Happens(Finishes, timed, run, k))
  {
    var closes, errs := (s: State, e: Event) => e.CloseCalled?, (s: State, e: Event) => e.SocketErrors?;
    forall s, e
      ensures Step(s, e).closed <==> s.closed || closes(s, e)
      ensures Step(s, e).errored <==> s.errored || errs(s, e)
      ensures Step(s, e).finished <==> s.finished || Finishes(s, e)
    {
      StepFlags(s, e);
    }
    LatchHistory((s: State) => s.closed, closes, timed, run);
    LatchHistory((s: State) => s.errored, errs, timed, run);
    LatchHistory((s: State) => s.finished, Finishes, timed, run);
    if CloseCalled in run {
      var k :| 0 <= k < |run| && run[k] == CloseCalled;
      assert Happens(closes, timed, run, k);
    }
    if SocketErrors in run {
      var k :| 0 <= k < |run| && run[k] == SocketErrors;
      assert Happens(errs, timed, run, k);
    }
  }

  /** Step k opens the connection, and nothing after it shuts it. */
  predicate OpensLast(timed: bool, run: seq<Event>, k: nat) {
    k < |run| && run[k].Opens? && forall i | k < i < |run| :: !Happens(Shuts, timed, run, i)
  }

  lemma OpensLastIsOn(timed: bool, run: seq<Event>, k: nat)
    ensures
      OpensLast(timed, run, k)
      <==> Histories.LastOn(run => After(timed, run), (s: State, e: Event) => e.Opens?, Shuts, run, k)
  {
    var after := run => After(timed, run);
    forall i | 0 <= i < |run| ensures Happens(Shuts, timed, run, i) == Histories.At(after, Shuts, run, i) {}
  }

  /** It is open exactly if it was opened and has neither been shut nor finished since. */
  lemma OpenIff(timed: bool, run: seq<Event>)
    ensures After(timed, run).open <==> exists k: nat :: OpensLast(timed, run, k)
  {
    var after, opens := run => After(timed, run), (s: State, e: Event) => e.Opens?;
    assert Histories.Follows(after, (s, e) => Step(s, e));
    forall s, e ensures Step(s, e).open <==> opens(s, e) || (s.open && !Shuts(s, e)) {
      StepFlags(s, e);
    }
    Histories.Switch(after, (s, e) => Step(s, e), (_, _) => true, (s: State) => s.open, opens, Shuts, run);
    forall k: nat ensures OpensLast(timed, run, k) <==> Histories.LastOn(after, opens, Shuts, run, k) {
      OpensLastIsOn(timed, run, k);
    }
  }
}
