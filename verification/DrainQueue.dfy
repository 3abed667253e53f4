/**
 Back-pressure: a write to a full socket parks its callback until the socket drains
 (lib/write.js, and `waitForDrain`, `_handleDrain`, `_handleDrainTimeout` and the
 drain parts of `close` and `finish` in lib/client.js).

 With a positive drain timeout the client keeps one timer and one listener for all
 parked callbacks; without one, every callback is a listener of its own.
 Callbacks are numbered; a run is any sequence of the steps below.
 */
module DrainQueue {

  datatype Outcome = Drained | TimedOut | ClosedBefore | Written | Failed

  datatype Settlement = Settlement(callback: nat, outcome: Outcome)

  /** What the socket does with one write. */
  datatype WriteResult = Taken | BufferFull | Threw

  datatype WriteCall = WriteCall(callback: nat, result: WriteResult)

  datatype State = State(
    timed: bool,               // drainTimeout > 0
    open: bool,                // connecting || connected
    errored: bool,
    closed: bool,
    finished: bool,
    pending: seq<nat>,         // _pendingDrains
    timer: bool,               // _drainTimer
    handlerMade: bool,         // _onDrainBound exists
    handlerListeners: nat,     // how often it listens to 'drain'
    directListeners: seq<nat>, // callbacks that listen to 'drain' themselves
    // What happened so far:
    handed: seq<nat>,          // callbacks given to write
    answered: seq<Settlement>, // those write answered at once
    parked: seq<nat>,          // those given to waitForDrain
    settled: seq<Settlement>   // those completed after waiting
  )

  function Start(timed: bool): (s: State) {
    State(timed, false, false, false, false, [], false, false, 0, [], [], [], [], [])
  }

  function Park(s: State, callback: nat): (r: State) {
    var s := s.(parked := s.parked + [callback]);
    if !s.timed then
      s.(directListeners := s.directListeners + [callback])
    else if s.timer then
      s.(pending := s.pending + [callback])
    else
      s.(pending := s.pending + [callback], timer := true, handlerMade := true,
         handlerListeners := s.handlerListeners + 1)
  }

  function Write(s: State, call: WriteCall): (r: State) {
    var s := s.(handed := s.handed + [call.callback]);
    if s.open && call.result == BufferFull && !s.errored then
      Park(s, call.callback)
    else
      var failed := !s.open || call.result == Threw;
      s.(answered := s.answered + [Settlement(call.callback, if failed then Failed else Written)])
  }

  function Writes(s: State, calls: seq<WriteCall>): (r: State)
    decreases calls
  {
    if calls == [] then s else Writes(Write(s, calls[0]), calls[1..])
  }

  function Settle(callbacks: seq<nat>, outcome: Outcome): (r: seq<Settlement>)
    ensures |r| == |callbacks|
  {
    seq(|callbacks|, i requires 0 <= i < |callbacks| => Settlement(callbacks[i], outcome))
  }

  function SettlePending(s: State, outcome: Outcome): (r: State) {
    s.(pending := [], timer := false, settled := s.settled + Settle(s.pending, outcome))
  }

  /** The socket emits 'drain'. A callback that listens itself runs inside the emit and may
      write again: script gives the writes of each such callback, in turn. */
  function DrainedState(s: State, script: seq<seq<WriteCall>>): (r: State) {
    var s := if s.handlerListeners == 0 then s else SettlePending(s.(handlerListeners := 0), Drained);
    CallListeners(s, |s.directListeners|, script)
  }

  /** The oldest direct listener, taken off the socket and called. */
  function CallFirst(s: State): (r: State)
    requires s.directListeners != []
  {
    s.(directListeners := s.directListeners[1..],
       settled := s.settled + [Settlement(s.directListeners[0], Drained)])
  }

  function Head(script: seq<seq<WriteCall>>): (r: seq<WriteCall>) { if script == [] then [] else script[0] }

  function Tail(script: seq<seq<WriteCall>>): (r: seq<seq<WriteCall>>) { if script == [] then [] else script[1..] }

  /** The oldest direct listener is called and writes in turn. */
  function CallOne(s: State, calls: seq<WriteCall>): (r: State)
    requires s.directListeners != []
  {
    Writes(CallFirst(s), calls)
  }

  function CallListeners(s: State, n: nat, script: seq<seq<WriteCall>>): (r: State)
    decreases n
  {
    if n == 0 || s.directListeners == [] then s
    else CallListeners(CallOne(s, Head(script)), n - 1, Tail(script))
  }

  function RemoveHandler(s: State): (r: State) {
    if s.handlerMade && s.handlerListeners > 0 then s.(handlerListeners := s.handlerListeners - 1) else s
  }

  function Close(s: State): (r: State) {
    if s.closed then s else SettlePending(RemoveHandler(s.(closed := true)), ClosedBefore)
  }

  function FinishedState(s: State, script: seq<seq<WriteCall>>): (r: State) {
    DrainedState(s.(open := false, finished := true), script).(handlerListeners := 0, directListeners := [])
  }

  datatype Event =
    | DoWrite(call: WriteCall)
    | SocketDrains(script: seq<seq<WriteCall>>)
    | TimerFires
    | SocketErrors
    | CloseCalled
    | FinishRuns(script: seq<seq<WriteCall>>)
    | Opens   // connecting or connected becomes true
    | Shuts   // connecting becomes false after a refused CONNECT

  /** One step of the event loop. A timer that is not armed does not fire, and finish runs once, after close. */
  function Step(s: State, e: Event): (r: State) {
    match e
    case DoWrite(call) => Write(s, call)
    case SocketDrains(script) => DrainedState(s, script)
    case TimerFires => if s.timer then SettlePending(RemoveHandler(s), TimedOut) else s
    case SocketErrors => s.(errored := true)
    case CloseCalled => Close(s)
    case FinishRuns(script) => if s.closed && !s.finished then FinishedState(s, script) else s
    case Opens => s.(open := true)
    case Shuts => s.(open := false)
  }

  function After(timed: bool, run: seq<Event>): (s: State) {
    if run == [] then Start(timed) else Step(After(timed, run[..|run| - 1]), run[|run| - 1])
  }

  // ---------- What every state satisfies ----------

  function Callbacks(settlements: seq<Settlement>): (r: seq<nat>)
    ensures |r| == |settlements|
  {
    seq(|settlements|, i requires 0 <= i < |settlements| => settlements[i].callback)
  }

  /** Timer, listener and parked callbacks stand and fall together. */
  predicate Coherent(s: State) {
    && (s.timer <==> s.pending != [])
    && s.handlerListeners == (if s.timer then 1 else 0)
    && (s.timer ==> s.timed && s.handlerMade)
    && (s.timed ==> s.directListeners == [])
  }

  function Waiting(s: State): (r: seq<nat>) {
    s.pending + s.directListeners
  }

  /** Every parked callback is settled once, in the order of parking, or still waits. */
  predicate Ordered(s: State) {
    s.parked == Callbacks(s.settled) + Waiting(s)
  }

  /** Every callback given to write was answered at once or parked. */
  predicate Accounted(s: State) {
    multiset(s.handed) == multiset(Callbacks(s.answered)) + multiset(s.parked)
  }

  predicate Conserved(s: State) {
    Coherent(s) && Ordered(s) && Accounted(s)
  }

  lemma CallbacksSettle(settled: seq<Settlement>, callbacks: seq<nat>, outcome: Outcome)
    ensures Callbacks(settled + Settle(callbacks, outcome)) == Callbacks(settled) + callbacks
  {}

  lemma CallbacksAppend(settled: seq<Settlement>, last: Settlement)
    ensures Callbacks(settled + [last]) == Callbacks(settled) + [last.callback]
  {}

  lemma ParkOrders(s: State, callback: nat)
    requires Coherent(s) && Ordered(s)
    ensures Coherent(Park(s, callback)) && Ordered(Park(s, callback))
  {
    var done := Callbacks(s.settled);
    assert done + Waiting(s) + [callback] == done + (Waiting(s) + [callback]);
    if s.timed {
      assert s.pending + [callback] + [] == Waiting(s) + [callback];
    } else {
      assert s.pending + (s.directListeners + [callback]) == Waiting(s) + [callback];
    }
  }

  lemma AnswerAccounts(s: State, answer: Settlement)
    requires Accounted(s)
    ensures Accounted(s.(handed := s.handed + [answer.callback], answered := s.answered + [answer]))
  {
    CallbacksAppend(s.answered, answer);
    assert multiset(s.handed + [answer.callback]) == multiset(s.handed) + multiset{answer.callback};
    assert multiset(Callbacks(s.answered) + [answer.callback])
        == multiset(Callbacks(s.answered)) + multiset{answer.callback};
  }

  lemma ParkAccounts(s: State, callback: nat)
    requires Accounted(s)
    ensures Accounted(Park(s.(handed := s.handed + [callback]), callback))
  {
    assert multiset(s.handed + [callback]) == multiset(s.handed) + multiset{callback};
    assert multiset(s.parked + [callback]) == multiset(s.parked) + multiset{callback};
  }

  lemma WriteParksConserves(s: State, callback: nat)
    requires Conserved(s)
    ensures Conserved(Park(s.(handed := s.handed + [callback]), callback))
  {
    var handed := s.(handed := s.handed + [callback]);
    assert Waiting(handed) == Waiting(s);
    ParkOrders(handed, callback);
    ParkAccounts(s, callback);
  }

  lemma WriteAnswersConserves(s: State, answer: Settlement)
    requires Conserved(s)
    ensures Conserved(s.(handed := s.handed + [answer.callback], answered := s.answered + [answer]))
  {
    AnswerAccounts(s, answer);
    assert Waiting(s.(handed := s.handed + [answer.callback], answered := s.answered + [answer])) == Waiting(s);
  }

  lemma WriteConserves(s: State, call: WriteCall)
    requires Conserved(s)
    ensures Conserved(Write(s, call)) && Write(s, call).timed == s.timed
    ensures |s.directListeners| <= |Write(s, call).directListeners|
  {
    if s.open && call.result == BufferFull && !s.errored {
      WriteParksConserves(s, call.callback);
    } else if !s.open || call.result == Threw {
      WriteAnswersConserves(s, Settlement(call.callback, Failed));
    } else {
      WriteAnswersConserves(s, Settlement(call.callback, Written));
    }
  }

  lemma {:induction false} WritesConserve(s: State, calls: seq<WriteCall>)
    requires Conserved(s)
    ensures Conserved(Writes(s, calls)) && Writes(s, calls).timed == s.timed
    ensures |s.directListeners| <= |Writes(s, calls).directListeners|
    decreases calls
  {
    if calls == [] {
    } else {
      WriteConserves(s, calls[0]);
      WritesConserve(Write(s, calls[0]), calls[1..]);
    }
  }

  lemma SettlePendingConserves(s: State, listeners: nat, outcome: Outcome)
    requires Conserved(s.(handlerListeners := listeners)) && s.handlerListeners == 0
    ensures Conserved(SettlePending(s, outcome))
  {
    CallbacksSettle(s.settled, s.pending, outcome);
    assert Callbacks(s.settled) + (s.pending + s.directListeners)
        == Callbacks(s.settled) + s.pending + ([] + s.directListeners);
    assert Waiting(s.(handlerListeners := listeners)) == Waiting(s);
  }

  lemma FirstMovesOver(done: seq<nat>, waiting: seq<nat>)
    requires waiting != []
    ensures done + waiting == done + [waiting[0]] + waiting[1..]
  {}

  lemma CallFirstOrders(s: State)
    requires Coherent(s) && Ordered(s) && s.directListeners != []
    ensures Ordered(CallFirst(s))
  {
    CallbacksAppend(s.settled, Settlement(s.directListeners[0], Drained));
    assert Waiting(s) == s.directListeners;
    assert Waiting(CallFirst(s)) == s.directListeners[1..];
    FirstMovesOver(Callbacks(s.settled), s.directListeners);
  }

  lemma CallFirstConserves(s: State)
    requires Conserved(s) && s.directListeners != []
    ensures Conserved(CallFirst(s))
  {
    CallFirstOrders(s);
  }

  lemma CallOneConserves(s: State, calls: seq<WriteCall>)
    requires Conserved(s) && s.directListeners != []
    ensures
      var r := CallOne(s, calls);
      Conserved(r) && r.timed == s.timed && |r.directListeners| >= |s.directListeners| - 1
  {
    CallFirstConserves(s);
    WritesConserve(CallFirst(s), calls);
  }

  /** What every single call of a listener keeps, the calls of n listeners keep. */
  lemma {:induction false} CallListenersKeep(p: State -> bool, s: State, n: nat, script: seq<seq<WriteCall>>)
    requires p(s) && n <= |s.directListeners|
    requires forall x, calls | p(x) && x.directListeners != [] ::
               p(CallOne(x, calls)) && |CallOne(x, calls).directListeners| >= |x.directListeners| - 1
    ensures p(CallListeners(s, n, script))
    decreases n
  {
    if n == 0 {
    } else {
      CallListenersKeep(p, CallOne(s, Head(script)), n - 1, Tail(script));
    }
  }

  lemma CallListenersConserves(s: State, n: nat, script: seq<seq<WriteCall>>)
    requires Conserved(s) && n <= |s.directListeners|
    ensures Conserved(CallListeners(s, n, script)) && CallListeners(s, n, script).timed == s.timed
  {
    var p := (x: State) => Conserved(x) && x.timed == s.timed;
    forall x, calls | p(x) && x.directListeners != []
      ensures p(CallOne(x, calls)) && |CallOne(x, calls).directListeners| >= |x.directListeners| - 1
    {
      CallOneConserves(x, calls);
    }
    CallListenersKeep(p, s, n, script);
  }

  lemma DrainConserves(s: State, script: seq<seq<WriteCall>>)
    requires Conserved(s)
    ensures Conserved(DrainedState(s, script)) && DrainedState(s, script).timed == s.timed
  {
    var s1 := s;
    if s.handlerListeners != 0 {
      s1 := SettlePending(s.(handlerListeners := 0), Drained);
      SettlePendingConserves(s.(handlerListeners := 0), 1, Drained);
    }
    CallListenersConserves(s1, |s1.directListeners|, script);
  }

  predicate NothingWaits(s: State) {
    s.pending == [] && s.directListeners == []
  }

  lemma {:induction false} ShutWritesParkNothing(s: State, calls: seq<WriteCall>)
    requires !s.open
    ensures Writes(s, calls).pending == s.pending && Writes(s, calls).directListeners == s.directListeners
    ensures !Writes(s, calls).open
    decreases calls
  {
    if calls == [] {
    } else {
      ShutWritesParkNothing(Write(s, calls[0]), calls[1..]);
    }
  }

  /** On a shut connection the writes of the listeners called park nothing. */
  lemma {:induction false} ShutListenersParkNothing(s: State, n: nat, script: seq<seq<WriteCall>>)
    requires !s.open && n == |s.directListeners|
    ensures CallListeners(s, n, script).pending == s.pending
    ensures CallListeners(s, n, script).directListeners == []
    ensures !CallListeners(s, n, script).open
    decreases n
  {
    if n == 0 {
    } else {
      ShutWritesParkNothing(CallFirst(s), Head(script));
      ShutListenersParkNothing(CallOne(s, Head(script)), n - 1, Tail(script));
    }
  }

  lemma ShutDrainParksNothing(s: State, script: seq<seq<WriteCall>>)
    requires !s.open && Coherent(s)
    ensures NothingWaits(DrainedState(s, script)) && !DrainedState(s, script).open
  {
    var s1 := if s.handlerListeners == 0 then s else SettlePending(s.(handlerListeners := 0), Drained);
    ShutListenersParkNothing(s1, |s1.directListeners|, script);
  }

  lemma FinishConserves(s: State, script: seq<seq<WriteCall>>)
    requires Conserved(s)
    ensures Conserved(FinishedState(s, script)) && FinishedState(s, script).timed == s.timed
    ensures NothingWaits(FinishedState(s, script)) && !FinishedState(s, script).open
  {
    var shut := s.(open := false, finished := true);
    assert Waiting(shut) == Waiting(s);
    DrainConserves(shut, script);
    ShutDrainParksNothing(shut, script);
  }

  lemma CloseConserves(s: State)
    requires Conserved(s)
    ensures Conserved(Close(s))
  {
    if !s.closed {
      var c := RemoveHandler(s.(closed := true));
      assert Waiting(c.(handlerListeners := s.handlerListeners)) == Waiting(s);
      SettlePendingConserves(c, s.handlerListeners, ClosedBefore);
    }
  }

  lemma TimerConserves(s: State)
    requires Conserved(s) && s.timer
    ensures Conserved(SettlePending(RemoveHandler(s), TimedOut))
  {
    assert RemoveHandler(s).(handlerListeners := 1) == s;
    SettlePendingConserves(RemoveHandler(s), 1, TimedOut);
  }

  lemma StepConserves(s: State, e: Event)
    requires Conserved(s)
    ensures Conserved(Step(s, e)) && Step(s, e).timed == s.timed
  {
    match e
    case DoWrite(call) => WriteConserves(s, call);
    case SocketDrains(script) => DrainConserves(s, script);
    case TimerFires => if s.timer { TimerConserves(s); }
    case CloseCalled => CloseConserves(s);
    case FinishRuns(script) => FinishConserves(s, script);
    case _ => assert Waiting(Step(s, e)) == Waiting(s);
  }

  /** In every run, with or without a drain timeout: no callback is lost, duplicated or reordered. */
  lemma {:induction false} DrainConservation(timed: bool, run: seq<Event>)
    ensures Conserved(After(timed, run)) && After(timed, run).timed == timed
  {
    if run == [] {
    } else {
      DrainConservation(timed, run[..|run| - 1]);
      StepConserves(After(timed, run[..|run| - 1]), run[|run| - 1]);
    }
  }

  /** Whether finish runs at step n. */
  predicate FinishesAt(timed: bool, run: seq<Event>, n: nat)
    requires n < |run|
  {
    run[n].FinishRuns? && After(timed, run[..n]).closed && !After(timed, run[..n]).finished
  }

  lemma FinishLeavesNothing(timed: bool, run: seq<Event>, script: seq<seq<WriteCall>>)
    ensures
      var s := FinishedState(After(timed, run), script);
      NothingWaits(s) && !s.open
  {
    DrainConservation(timed, run);
    FinishConserves(After(timed, run), script);
  }

  lemma ShutStepParksNothing(s: State, e: Event)
    requires NothingWaits(s) && !s.open && e != Opens && Conserved(s)
    ensures NothingWaits(Step(s, e)) && !Step(s, e).open
  {
    match e
    case SocketDrains(script) => ShutDrainParksNothing(s, script);
    case FinishRuns(script) => FinishConserves(s, script);
    case _ =>
  }

  lemma ShutRunParksNothing(timed: bool, run: seq<Event>, e: Event)
    requires NothingWaits(After(timed, run)) && !After(timed, run).open && e != Opens
    ensures
      var s := Step(After(timed, run), e);
      NothingWaits(s) && !s.open
  {
    DrainConservation(timed, run);
    ShutStepParksNothing(After(timed, run), e);
  }

  /** Once finish has run nothing waits, and nothing will, as long as the connection is not opened again. */
  lemma {:induction false} NothingWaitsAfterFinish(timed: bool, run: seq<Event>, n: nat)
    requires n < |run| && FinishesAt(timed, run, n)
    requires Opens !in run[n..]
    ensures NothingWaits(After(timed, run)) && !After(timed, run).open
    decreases |run|
  {
    var prefix, e := run[..|run| - 1], run[|run| - 1];
    if n == |run| - 1 {
      FinishLeavesNothing(timed, prefix, e.script);
    } else {
      assert prefix[..n] == run[..n];
      assert run[n..] == prefix[n..] + [e];
      NothingWaitsAfterFinish(timed, prefix, n);
      ShutRunParksNothing(timed, prefix, e);
    }
  }

  /** So after finish every callback ever handed to write has been answered exactly once. */
  lemma EveryCallbackAnswered(timed: bool, run: seq<Event>, n: nat)
    requires n < |run| && FinishesAt(timed, run, n)
    requires Opens !in run[n..]
    ensures
      var s := After(timed, run);
      && multiset(s.handed) == multiset(Callbacks(s.answered)) + multiset(Callbacks(s.settled))
      && !s.timer && s.handlerListeners == 0
  {
    DrainConservation(timed, run);
    NothingWaitsAfterFinish(timed, run, n);
    var s := After(timed, run);
    assert Callbacks(s.settled) + Waiting(s) == Callbacks(s.settled);
  }

  /** Exactly which writes park their callback, finished or not. */
  lemma WriteParksIff(s: State, call: WriteCall)
    requires Coherent(s)
    ensures s.open && call.result == BufferFull && !s.errored
        <==> Waiting(Write(s, call)) == Waiting(s) + [call.callback]
    ensures !(s.open && call.result == BufferFull && !s.errored) <==> Waiting(Write(s, call)) == Waiting(s)
  {
    var parks := s.open && call.result == BufferFull && !s.errored;
    assert |Waiting(Write(s, call))| == |Waiting(s)| + if parks then 1 else 0;
    if parks && s.timed {
      assert s.directListeners == [];
    } else if parks {
      assert s.pending + (s.directListeners + [call.callback]) == Waiting(s) + [call.callback];
    }
  }

  /** The condition matters. The connect pipeline sets connected without looking at closed: when it
      completes after finish, a write to the dead socket parks its callback again. */
  lemma LateConnectParksAfterFinish()
    ensures
      var run := [CloseCalled, FinishRuns([]), Opens, DoWrite(WriteCall(7, BufferFull))];
      && FinishesAt(false, run, 1)
      && After(false, run).directListeners == [7]
  {
    var run := [CloseCalled, FinishRuns([]), Opens, DoWrite(WriteCall(7, BufferFull))];
    assert run[..3] == [CloseCalled, FinishRuns([]), Opens];
    assert run[..3][..2] == [CloseCalled, FinishRuns([])];
    assert run[..3][..2][..1] == run[..1] == [CloseCalled];
    assert run[..1][..0] == [];
    assert After(false, run[..1]) == Close(Start(false));
    assert After(false, run[..3][..2]) == FinishedState(Close(Start(false)), []);
  }

  // ---------- The program's state ----------

  class Client {
    const timed: bool
    var open: bool
    var errored: bool
    var closed: bool
    var finished: bool
    var pendingDrains: seq<nat>
    var drainTimer: bool
    var onDrainBound: bool
    var handlerListeners: nat
    var directListeners: seq<nat>
    var scheduled: seq<Settlement>  // callbacks completed after waiting, in order
    var answered: seq<Settlement>   // callbacks that write completed itself
    ghost var handed: seq<nat>
    ghost var parked: seq<nat>

    ghost function Abs(): (s: State) reads this {
      State(timed, open, errored, closed, finished, pendingDrains, drainTimer, onDrainBound,
            handlerListeners, directListeners, handed, answered, parked, scheduled)
    }

    constructor (timed: bool)
      ensures Abs() == Start(timed)
    {
      this.timed := timed;
      open, errored, closed, finished, drainTimer, onDrainBound := false, false, false, false, false, false;
      handlerListeners, pendingDrains, directListeners, scheduled, answered := 0, [], [], [], [];
      handed, parked := [], [];
    }

    method WaitForDrain(callback: nat)
      modifies this
      ensures Abs() == Park(old(Abs()), callback)
    {
      parked := parked + [callback];
      if timed {
        pendingDrains := pendingDrains + [callback];
        if !drainTimer {
          if !onDrainBound {
            onDrainBound := true;
          }
          handlerListeners := handlerListeners + 1;
          drainTimer := true;
        }
      } else {
        directListeners := directListeners + [callback];
      }
    }

    method Write(callback: nat, result: WriteResult)
      modifies this
      ensures Abs() == Step(old(Abs()), DoWrite(WriteCall(callback, result)))
    {
      handed := handed + [callback];
      var failed := false;
      if open {
        if result == Threw {
          failed := true;
        } else if result == BufferFull && !errored {
          WaitForDrain(callback);
          return;
        }
      } else {
        failed := true;
      }
      answered := answered + [Settlement(callback, if failed then Failed else Written)];
    }

    /** The writes that a listener makes when it is called. */
    method WriteAll(calls: seq<WriteCall>)
      modifies this
      ensures Abs() == Writes(old(Abs()), calls)
    {
      var left := calls;
      while left != []
        invariant Writes(Abs(), left) == Writes(old(Abs()), calls)
        decreases |left|
      {
        Write(left[0].callback, left[0].result);
        left := left[1..];
      }
    }

    /** The loop that `_handleDrain`, `_handleDrainTimeout` and `close` share: empty the array, then schedule
        each callback. */
    method FlushPending(outcome: Outcome)
      modifies this
      ensures Abs() == SettlePending(old(Abs()), outcome)
    {
      drainTimer := false;
      var pending := pendingDrains;
      pendingDrains := [];
      var i := 0;
      while i < |pending|
        invariant 0 <= i <= |pending|
        invariant scheduled == old(scheduled) + Settle(pending[..i], outcome)
        invariant Abs() == old(Abs()).(timer := false, pending := [], settled := scheduled)
      {
        assert Settle(pending[..i + 1], outcome) == Settle(pending[..i], outcome) + [Settlement(pending[i], outcome)];
        scheduled := scheduled + [Settlement(pending[i], outcome)];
        i := i + 1;
      }
      assert pending[..i] == pending;
    }

    method HandleDrainTimeout()
      requires drainTimer
      modifies this
      ensures Abs() == Step(old(Abs()), TimerFires)
    {
      if onDrainBound && handlerListeners > 0 {
        handlerListeners := handlerListeners - 1;
      }
      FlushPending(TimedOut);
    }

    method Close()
      modifies this
      ensures Abs() == Step(old(Abs()), CloseCalled)
    {
      if closed {
        return;
      }
      closed := true;
      if onDrainBound && handlerListeners > 0 {
        handlerListeners := handlerListeners - 1;
      }
      FlushPending(ClosedBefore);
    }

    method CallOldest(calls: seq<WriteCall>)
      requires directListeners != []
      modifies this
      ensures Abs() == CallOne(old(Abs()), calls)
    {
      var callback := directListeners[0];
      directListeners := directListeners[1..];
      scheduled := scheduled + [Settlement(callback, Drained)];
      WriteAll(calls);
    }

    /** The socket emits 'drain': listeners removed before they are called; those added meanwhile wait for the next
        emit. */
    method EmitDrain(script: seq<seq<WriteCall>>)
      modifies this
      ensures Abs() == DrainedState(old(Abs()), script)
    {
      if handlerListeners > 0 {
        handlerListeners := 0;
        FlushPending(Drained);
      }
      ghost var start := Abs();
      var left, rest := |directListeners|, script;
      while left > 0 && directListeners != []
        invariant left >= 0
        invariant CallListeners(Abs(), left, rest) == CallListeners(start, |start.directListeners|, script)
        decreases left
      {
        CallOldest(Head(rest));
        rest := Tail(rest);
        left := left - 1;
      }
    }

    method Finish(script: seq<seq<WriteCall>>)
      requires closed && !finished
      modifies this
      ensures Abs() == FinishedState(old(Abs()), script)
    {
      finished := true;
      open := false;
      ghost var shut := Abs();
      assert shut == old(Abs()).(open := false, finished := true);
      EmitDrain(script);
      ghost var drained := Abs();
      assert drained == DrainedState(shut, script);
      handlerListeners, directListeners := 0, [];
      assert Abs() == drained.(handlerListeners := 0, directListeners := []);
    }
  }
}
