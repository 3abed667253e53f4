/**
 The life of one connection: the CONNECT pipeline (lib/handlers/connect.js), the queue of
 packets that arrive before CONNACK (`enqueue`, `dequeue` in lib/client.js), dispatch
 (lib/handlers/index.js), timers, the will, and the two-phase close (`close` and `finish`).

 Each step is one callback. Hooks, storage and the network answer arbitrarily; storage calls
 on the will are answered in the order they were issued.
 */
module Lifecycle {

  datatype Packet = ConnectPacket | DisconnectPacket | OtherPacket(fails: bool) // fails: its handler errors at once

  datatype PacketQueue = NoQueue | Queue(packets: seq<Packet>)

  datatype Phase =
    | NoConnect
    | PreConnecting        // preConnect was called
    | InitScheduled
    | RejectingVersion     // a CONNACK with an error code is being written
    | Authenticating       // authenticate was called
    | RejectingAuth        // likewise, for a refused client
    | FetchingSubs
    | RestoringSubs
    | DeletingWill         // storeWill: delWill was called
    | PuttingWill          // storeWill: putWill was called
    | WritingConnack(writable: bool)
    | EmptyingQueue
    | Ended

  datatype Closing = NotClosing | Unsubscribing(callback: multiset<nat>) | Finished

  /** finishes, given and called record what happened: how often finish ran, the callbacks
      passed to close, and those that were called. */
  datatype CloseState = CloseState(closed: bool, closing: Closing, finishes: nat, given: multiset<nat>,
      called: multiset<nat>)

  /** interval is 0 for a client without keepalive. */
  datatype Timers = Timers(connect: bool, keepalive: bool, interval: nat)

  /** queued and dequeued record every packet ever queued and those dispatched from the queue. */
  datatype Inbox = Inbox(queue: PacketQueue, parsingBatch: nat, paused: bool,
                         queued: seq<Packet>, dequeued: seq<Packet>)

  /** What became of the will once finish had looked at it. */
  datatype Fate = Undecided | NoWill | Discarded | Authorising | Refused | Publishing | Published

  datatype StorageOp = StoreDel | StorePut | FinishDel

  /** pending and current are the fields _will and will; ops are the storage calls under way, oldest
      first; stored says whether persistence holds a will of this connection, rejected whether a storage
      call was rejected; unhandled counts the rejections that no handler caught. */
  datatype WillState = WillState(pending: bool, current: bool, fate: Fate, ops: seq<StorageOp>, stored: bool,
                                 publishes: nat, atFinish: bool, disconnectedAtFinish: bool,
                                 rejected: bool, unhandled: nat)

  datatype State = State(
    close: CloseState,
    timers: Timers,
    inbox: Inbox,
    will: WillState,
    phase: Phase,
    connecting: bool,
    connected: bool,
    connackSent: bool,
    authorized: bool,
    disconnected: bool,
    listening: bool,     // the client has subscriptions
    crashed: bool,       // a null queue or a null timer was used
    lateConnect: bool    // a CONNECT was accepted after close
  )

  function Start(): (s: State) {
    State(CloseState(false, NotClosing, 0, multiset{}, multiset{}), Timers(true, false, 0),
          Inbox(Queue([]), 1, false, [], []), WillState(false, false, Undecided, [], false, 0, false, false, false, 0),
          NoConnect, false, false, false, false, false, false, false, false)
  }

  // ---------- Close ----------

  /** What finish does about the will. */
  function FinishWill(w: WillState, disconnected: bool): (r: WillState) {
    w.(fate := if !w.current then NoWill else if disconnected then Discarded else Authorising,
       ops := if w.current && disconnected then w.ops + [FinishDel] else w.ops,
       current := false, pending := false, atFinish := w.current, disconnectedAtFinish := disconnected)
  }

  function FinishClose(c: CloseState): (r: CloseState)
    requires c.closing.Unsubscribing?
  {
    c.(closing := Finished, called := c.called + c.closing.callback, finishes := c.finishes + 1)
  }

  function FinishStep(s: State): (r: State)
    requires s.close.closing.Unsubscribing?
  {
    s.(close := FinishClose(s.close), will := FinishWill(s.will, s.disconnected), connected := false,
        connecting := false)
  }

  function StopTimers(t: Timers): (r: Timers) {
    Timers(false, false, if t.keepalive then 0 else t.interval)
  }

  function FlagClosed(s: State, callback: multiset<nat>): (r: State) {
    s.(close := s.close.(closed := true, closing := Unsubscribing(callback), given := s.close.given + callback),
       inbox := s.inbox.(queue := NoQueue), timers := StopTimers(s.timers))
  }

  /** callback holds the callback passed, if any. With no subscription left to remove, finish runs at once. */
  function CloseStep(s: State, callback: multiset<nat>): (r: State) {
    if s.close.closed then
      s.(close := s.close.(given := s.close.given + callback, called := s.close.called + callback))
    else if s.listening then FlagClosed(s, callback)
    else FinishStep(FlagClosed(s, callback))
  }

  // ---------- Packets ----------

  /** The continuation of every packet handler. */
  function NextBatch(s: State, error: bool): (r: State) {
    if error then CloseStep(s, multiset{})
    else if s.inbox.paused || s.inbox.parsingBatch == 0 then s
    else s.(inbox := s.inbox.(parsingBatch := s.inbox.parsingBatch - 1))
  }

  function RefreshKeepalive(s: State): (r: State) {
    if s.timers.interval > 0 && !s.timers.keepalive then s.(crashed := true) else s
  }

  function Handle(s: State, p: Packet): (r: State) {
    if p.ConnectPacket? then
      if s.connecting || s.connected then NextBatch(s, true)
      else
        s.(timers := s.timers.(connect := false), connecting := true, phase := PreConnecting,
           lateConnect := s.lateConnect || s.close.closed)
    else if !s.connecting && !s.connected then NextBatch(s, true)
    else if p.DisconnectPacket? then NextBatch(s.(disconnected := true), false)
    else RefreshKeepalive(if p.fails then NextBatch(s, true) else s)
  }

  function CountPacket(s: State): (r: State) {
    s.(inbox := s.inbox.(parsingBatch := s.inbox.parsingBatch + 1))
  }

  function Enqueue(limit: nat, s: State, p: Packet): (r: State) {
    if s.inbox.queue.NoQueue? then s.(crashed := true)
    else if |s.inbox.queue.packets| < limit then
      s.(inbox := s.inbox.(queue := Queue(s.inbox.queue.packets + [p]), queued := s.inbox.queued + [p]))
    else CloseStep(s, multiset{})
  }

  /** The parser delivers a packet; its listener is gone once the client is closed. */
  function ArrivalStep(limit: nat, s: State, p: Packet): (r: State) {
    if s.close.closed then s
    else if s.connackSent || s.inbox.parsingBatch == 0 then Handle(CountPacket(s), p)
    else Enqueue(limit, CountPacket(s), p)
  }

  function Take(s: State, p: Packet): (r: State) {
    s.(inbox := s.inbox.(dequeued := s.inbox.dequeued + [p]))
  }

  function DispatchAll(s: State, packets: seq<Packet>): (r: State)
    decreases packets
  {
    if packets == [] then s else DispatchAll(Handle(Take(s, packets[0]), packets[0]), packets[1..])
  }

  lemma DispatchNext(s: State, packets: seq<Packet>, i: nat)
    requires i < |packets|
    ensures DispatchAll(s, packets[i..]) == DispatchAll(Handle(Take(s, packets[i]), packets[i]), packets[i + 1..])
  {
    assert packets[i..][0] == packets[i] && packets[i..][1..] == packets[i + 1..];
  }

  function DropQueue(s: State): (r: State) {
    s.(inbox := s.inbox.(queue := NoQueue))
  }

  function Dequeue(s: State): (r: State) {
    if s.inbox.queue.NoQueue? then s else DropQueue(DispatchAll(s, s.inbox.queue.packets))
  }

  // ---------- The connect pipeline ----------

  /** The series is over: the client is no longer connecting, and connected if there was no error. */
  function EndSeries(s: State, error: bool): (r: State) {
    if error then NextBatch(s.(connecting := false, phase := Ended), true)
    else NextBatch(Dequeue(s.(connecting := false, phase := Ended, connected := true)), false)
  }

  function PreConnectStep(s: State, ok: bool, error: bool): (r: State) {
    if !s.phase.PreConnecting? then s
    else if ok && !error then s.(phase := InitScheduled)
    else NextBatch(s.(connecting := false, phase := NoConnect), error)
  }

  function InitStep(s: State, refused: bool, hasWill: bool): (r: State) {
    if !s.phase.InitScheduled? then s
    else if refused then s.(phase := RejectingVersion)
    else s.(will := s.will.(pending := hasWill), phase := Authenticating, inbox := s.inbox.(paused := true))
  }

  /** One and a half intervals of keepalive seconds, in milliseconds, and one more. */
  function KeepaliveTimers(t: Timers, keepalive: nat): (r: Timers) {
    if keepalive > 0 then Timers(t.connect, true, keepalive * 1500 + 1) else t
  }

  function AuthStep(s: State, ok: bool, keepalive: nat): (r: State) {
    if !s.phase.Authenticating? then s
    else if s.close.closed then s.(phase := Ended)
    else if !ok then s.(phase := RejectingAuth)
    else
      s.(authorized := true, phase := FetchingSubs, timers := KeepaliveTimers(s.timers, keepalive))
  }

  function Rejected(s: State, ok: bool): (r: State) {
    s.(connackSent := s.connackSent || ok, phase := Ended)
  }

  /** A CONNACK with an error code has been written, or not. */
  function RejectionStep(s: State, ok: bool): (r: State) {
    match s.phase
    case RejectingVersion => NextBatch(Rejected(s, ok), true)
    case RejectingAuth =>
      if s.close.closed then Rejected(s, ok).(connecting := false) else CloseStep(Rejected(s, ok), multiset{})
    case _ => s
  }

  function StoreWill(s: State): (r: State) {
    s.(will := s.will.(current := s.will.pending, ops := s.will.ops + [StoreDel]), phase := DeletingWill)
  }

  function RegisterAndConnack(s: State): (r: State) {
    s.(phase := WritingConnack(s.connecting || s.connected))
  }

  /** The oldest storage call answers. storeWill hangs its continuation on delWill with finally, which catches
      nothing. */
  function Applied(w: WillState, ok: bool): (r: WillState)
    requires w.ops != []
  {
    if ok then w.(ops := w.ops[1..], stored := w.ops[0] == StorePut)
    else w.(ops := w.ops[1..], rejected := true, unhandled := w.unhandled + if w.ops[0] == StoreDel then 1 else 0)
  }

  /** The will is put after the old one was deleted. */
  function PutNext(w: WillState, ok: bool): (r: WillState)
    requires w.ops != []
  {
    Applied(w, ok).(ops := w.ops[1..] + [StorePut])
  }

  /** storeWill goes on: delWill has been answered, one way or the other. */
  function AfterDelete(s: State, ok: bool): (r: State)
    requires s.will.ops != []
  {
    if s.will.current then s.(will := PutNext(s.will, ok), phase := PuttingWill)
    else RegisterAndConnack(s.(will := Applied(s.will, ok)))
  }

  /** A rejected putWill ends the connect series with an error. */
  function AfterPut(s: State, ok: bool): (r: State)
    requires s.will.ops != []
  {
    var applied := s.(will := Applied(s.will, ok));
    if ok then RegisterAndConnack(applied) else EndSeries(applied, true)
  }

  function StorageStep(s: State, ok: bool): (r: State) {
    if s.will.ops == [] then s
    else if s.will.ops[0] == StoreDel && s.phase.DeletingWill? then AfterDelete(s, ok)
    else if s.will.ops[0] == StorePut && s.phase.PuttingWill? then AfterPut(s, ok)
    else s.(will := Applied(s.will, ok))
  }

  function ConnackStep(s: State, ok: bool): (r: State) {
    if !s.phase.WritingConnack? then s
    else if ok && s.phase.writable then
      NextBatch(s.(connackSent := true, inbox := s.inbox.(paused := false), phase := EmptyingQueue), false)
    else EndSeries(s, true)
  }

  function WillAnswer(w: WillState, ok: bool): (r: WillState) {
    if !w.fate.Authorising? then w
    else if ok then w.(fate := Publishing, publishes := w.publishes + 1)
    else w.(fate := Refused, ops := w.ops + [FinishDel])
  }

  function WillDone(w: WillState): (r: WillState) {
    if w.fate.Publishing? then w.(fate := Published, ops := w.ops + [FinishDel]) else w
  }

  // ---------- Runs ----------

  datatype Event =
    | PacketArrives(packet: Packet)
    | BatchDone(error: bool)         // a handler calls back later
    | CloseCalled(callback: nat)     // takeover, broker shutdown, or user code
    | SocketEnds
    | ErrorEmitted                   // socket, parser, timers, writes
    | SubscriptionsChange(listening: bool)
    | Unsubscribed                   // the emitter answered every removal
    | PreConnectAnswers(ok: bool, error: bool)
    | InitRuns(refused: bool, hasWill: bool)
    | AuthAnswers(ok: bool, keepalive: nat)
    | RejectionWritten(ok: bool)
    | SubsFetched(ok: bool)
    | SubsRestored(ok: bool)
    | StorageAnswers(ok: bool)
    | ConnackWritten(ok: bool)
    | QueueEmptied(ok: bool)
    | WillAuthorised(ok: bool)
    | WillPublished

  function Step(limit: nat, s: State, e: Event): (r: State) {
    match e
    case PacketArrives(p) => ArrivalStep(limit, s, p)
    case BatchDone(error) => NextBatch(s, error)
    case CloseCalled(callback) => CloseStep(s, multiset{callback})
    case SocketEnds => CloseStep(s, multiset{})
    case ErrorEmitted => CloseStep(s, multiset{})
    case SubscriptionsChange(listening) => if s.close.closed then s else s.(listening := listening)
    case Unsubscribed => if s.close.closing.Unsubscribing? then FinishStep(s) else s
    case PreConnectAnswers(ok, error) => PreConnectStep(s, ok, error)
    case InitRuns(refused, hasWill) => InitStep(s, refused, hasWill)
    case AuthAnswers(ok, keepalive) => AuthStep(s, ok, keepalive)
    case RejectionWritten(ok) => RejectionStep(s, ok)
    case SubsFetched(ok) =>
      if !s.phase.FetchingSubs? then s
      else if ok then s.(phase := RestoringSubs) else EndSeries(s, true)
    case SubsRestored(ok) =>
      if !s.phase.RestoringSubs? then s
      else if ok then StoreWill(s) else EndSeries(s, true)
    case StorageAnswers(ok) => StorageStep(s, ok)
    case ConnackWritten(ok) => ConnackStep(s, ok)
    case QueueEmptied(ok) => if s.phase.EmptyingQueue? then EndSeries(s, !ok) else s
    case WillAuthorised(ok) => s.(will := WillAnswer(s.will, ok))
    case WillPublished => s.(will := WillDone(s.will))
  }

  function After(limit: nat, run: seq<Event>): (s: State) {
    if run == [] then Start() else Step(limit, After(limit, run[..|run| - 1]), run[|run| - 1])
  }

  // ---------- The invariant ----------

  /** The callback of the close that is under way. */
  function Waiting(c: CloseState): (r: multiset<nat>) {
    if c.closing.Unsubscribing? then c.closing.callback else multiset{}
  }

  predicate FinishOnce(c: CloseState) {
    && (c.closed <==> !c.closing.NotClosing?)
    && c.finishes == (if c.closing.Finished? then 1 else 0)
  }

  predicate CloseOnce(c: CloseState) {
    FinishOnce(c) && c.given == c.called + Waiting(c)
  }

  predicate TimersSafe(t: Timers, closed: bool) {
    && (closed ==> !t.connect && !t.keepalive)
    && (t.interval > 0 ==> t.keepalive)
  }

  /** Packets wait in arrival order, never more than the limit, and leave the queue in that order, all of them or
      none. */
  predicate QueueOrdered(limit: nat, b: Inbox) {
    && (b.queue.Queue? ==> |b.queue.packets| <= limit && b.queue.packets == b.queued && b.dequeued == [])
    && (b.dequeued == [] || b.dequeued == b.queued)
  }

  /** Whether persistence will hold a will when the calls under way have been answered. */
  predicate EventuallyStored(w: WillState) {
    if w.ops == [] then w.stored else w.ops[|w.ops| - 1] == StorePut
  }

  predicate PastAuthentication(p: Phase) {
    p.FetchingSubs? || p.RestoringSubs? || p.DeletingWill? || p.PuttingWill? || p.WritingConnack? || p.EmptyingQueue?
  }

  /** A will in persistence is still owned by the live client or about to be published. */
  predicate WillOwned(w: WillState) {
    && (!w.rejected && EventuallyStored(w) ==> w.current || w.fate.Authorising? || w.fate.Publishing?)
    && w.publishes == (if w.fate.Publishing? || w.fate.Published? then 1 else 0)
    && (w.fate.NoWill? ==> !w.atFinish)
    && (!w.fate.NoWill? && !w.fate.Undecided? ==>
        w.atFinish && !w.current && (w.fate.Discarded? <==> w.disconnectedAtFinish))
  }

  predicate WillSafe(s: State) {
    && WillOwned(s.will)
    && (s.will.fate.Undecided? <==> !s.close.closing.Finished?)
    && (s.close.closing.Finished? ==> !s.will.current)
    && (s.close.closing.Finished? && PastAuthentication(s.phase) ==> !s.will.pending)
    && (s.will.current || s.will.atFinish || PastAuthentication(s.phase) ==> s.authorized)
    && (s.close.closing.Finished? && s.disconnected && !s.will.disconnectedAtFinish ==> s.lateConnect)
    && (s.will.disconnectedAtFinish ==> s.disconnected)
  }

  /** What holds between any two steps and also while packets are being dispatched. */
  predicate Core(s: State) {
    && CloseOnce(s.close) && TimersSafe(s.timers, s.close.closed) && WillSafe(s)
    && !s.crashed
    && (s.close.closed ==> s.inbox.queue.NoQueue?)
  }

  predicate Inv(limit: nat, s: State) {
    && Core(s) && QueueOrdered(limit, s.inbox)
    && (s.inbox.queue.NoQueue? ==> s.close.closed || s.connackSent)
    && (s.phase.EmptyingQueue? ==> s.connackSent)
  }

  /** closed is never reset. */
  predicate StaysClosed(s: State, s': State) {
    s.close.closed ==> s'.close.closed
  }

  /** After finish, only a CONNECT accepted after close makes the connection look alive again. */
  predicate DeadAfterFinish(s: State) {
    s.close.closing.Finished? && (s.connecting || s.connected) ==> s.lateConnect
  }

  // ---------- Close keeps it ----------

  lemma FinishKeepsCore(s: State)
    requires Core(s) && s.close.closing.Unsubscribing?
    ensures Core(FinishStep(s)) && DeadAfterFinish(FinishStep(s))
  {}

  lemma FlagKeepsCore(s: State, callback: multiset<nat>)
    requires Core(s) && !s.close.closed
    ensures Core(FlagClosed(s, callback))
  {}

  /** What a close leaves alone. */
  predicate Untouched(s: State, s': State) {
    && s'.inbox == (if s'.close.closed then s'.inbox.(queue := NoQueue) else s.inbox)
    && s'.inbox.queued == s.inbox.queued && s'.inbox.dequeued == s.inbox.dequeued
    && s'.connackSent == s.connackSent && s'.phase == s.phase
  }

  lemma CloseKeepsCore(s: State, callback: multiset<nat>)
    requires Core(s)
    ensures Core(CloseStep(s, callback)) && CloseStep(s, callback).close.closed
    ensures Untouched(s, CloseStep(s, callback))
    ensures DeadAfterFinish(s) ==> DeadAfterFinish(CloseStep(s, callback))
  {
    if !s.close.closed {
      FlagKeepsCore(s, callback);
      if !s.listening {
        FinishKeepsCore(FlagClosed(s, callback));
      }
    }
  }

  lemma CloseKeepsInv(limit: nat, s: State, callback: multiset<nat>)
    requires Inv(limit, s)
    ensures Inv(limit, CloseStep(s, callback))
    ensures StaysClosed(s, CloseStep(s, callback))
  {
    CloseKeepsCore(s, callback);
  }

  lemma NextBatchKeepsCore(s: State, error: bool)
    requires Core(s)
    ensures Core(NextBatch(s, error)) && (DeadAfterFinish(s) ==> DeadAfterFinish(NextBatch(s, error)))
    ensures error ==> NextBatch(s, error).close.closed && Untouched(s, NextBatch(s, error))
    ensures
      var s' := NextBatch(s, error);
      !error ==> s' == s.(inbox := s.inbox.(parsingBatch := s'.inbox.parsingBatch))
  {
    if error {
      CloseKeepsCore(s, multiset{});
    }
  }

  lemma NextBatchKeepsInv(limit: nat, s: State, error: bool)
    requires Inv(limit, s)
    ensures Inv(limit, NextBatch(s, error))
    ensures StaysClosed(s, NextBatch(s, error))
  {
    NextBatchKeepsCore(s, error);
  }

  // ---------- Dispatch keeps it ----------

  /** What the handling of a packet leaves alone. */
  predicate HandlesOnly(s: State, s': State) {
    && s'.inbox.queued == s.inbox.queued && s'.inbox.dequeued == s.inbox.dequeued
    && s'.connackSent == s.connackSent
    && (s'.inbox.queue == s.inbox.queue || (s'.close.closed && s'.inbox.queue.NoQueue?))
    && (s'.phase == s.phase || s'.phase == PreConnecting)
    && (s.close.closed ==> s'.close.closed)
  }

  lemma DisconnectKeepsCore(s: State)
    requires Core(s) && DeadAfterFinish(s) && (s.connecting || s.connected)
    ensures
      var s' := NextBatch(s.(disconnected := true), false);
      Core(s') && DeadAfterFinish(s') && HandlesOnly(s, s')
  {
    NextBatchKeepsCore(s.(disconnected := true), false);
  }

  lemma HandleKeepsCore(s: State, p: Packet)
    requires Core(s) && DeadAfterFinish(s)
    ensures Core(Handle(s, p)) && DeadAfterFinish(Handle(s, p)) && HandlesOnly(s, Handle(s, p))
  {
    NextBatchKeepsCore(s, true);
    if p.DisconnectPacket? && (s.connecting || s.connected) {
      DisconnectKeepsCore(s);
    } else if p.OtherPacket? && (s.connecting || s.connected) {
      assert Handle(s, p) == if p.fails then NextBatch(s, true) else s;
    }
  }

  lemma {:induction false} DispatchKeepsCore(s: State, packets: seq<Packet>)
    requires Core(s) && DeadAfterFinish(s)
    ensures
      var s' := DispatchAll(s, packets);
      && Core(s') && s'.inbox.dequeued == s.inbox.dequeued + packets && s'.inbox.queued == s.inbox.queued
      && s'.connackSent == s.connackSent && (s'.phase == s.phase || s'.phase == PreConnecting)
      && StaysClosed(s, s')
    decreases packets
  {
    if packets == [] {
      assert s.inbox.dequeued + [] == s.inbox.dequeued;
    } else {
      var taken := Take(s, packets[0]);
      HandleKeepsCore(taken, packets[0]);
      DispatchKeepsCore(Handle(taken, packets[0]), packets[1..]);
      assert s.inbox.dequeued + [packets[0]] + packets[1..] == s.inbox.dequeued + packets;
    }
  }

  lemma DequeueKeepsInv(limit: nat, s: State)
    requires Inv(limit, s) && s.connackSent
    ensures Inv(limit, Dequeue(s))
    ensures StaysClosed(s, Dequeue(s))
    ensures s.inbox.queue.Queue? ==>
              Dequeue(s).inbox.dequeued == s.inbox.queued == Dequeue(s).inbox.queued && Dequeue(s).inbox.queue.NoQueue?
  {
    if s.inbox.queue.Queue? {
      DispatchKeepsCore(s, s.inbox.queue.packets);
      assert [] + s.inbox.queue.packets == s.inbox.queued;
    }
  }

  lemma EnqueueKeepsInv(limit: nat, s: State, p: Packet)
    requires Inv(limit, s) && !s.close.closed && !s.connackSent
    ensures Inv(limit, Enqueue(limit, s, p))
    ensures StaysClosed(s, Enqueue(limit, s, p))
  {
    CloseKeepsInv(limit, s, multiset{});
  }

  lemma ArrivalKeepsInv(limit: nat, s: State, p: Packet)
    requires Inv(limit, s)
    ensures Inv(limit, ArrivalStep(limit, s, p))
    ensures StaysClosed(s, ArrivalStep(limit, s, p))
  {
    if !s.close.closed {
      assert Inv(limit, CountPacket(s));
      if s.connackSent || s.inbox.parsingBatch == 0 {
        HandleKeepsCore(CountPacket(s), p);
      } else {
        EnqueueKeepsInv(limit, CountPacket(s), p);
      }
    }
  }

  // ---------- Every step keeps it ----------

  lemma EndSeriesKeepsInv(limit: nat, s: State, error: bool)
    requires Inv(limit, s) && (!error ==> s.phase.EmptyingQueue?)
    ensures Inv(limit, EndSeries(s, error))
    ensures StaysClosed(s, EndSeries(s, error))
  {
    if error {
      NextBatchKeepsInv(limit, s.(connecting := false, phase := Ended), true);
    } else {
      var ended := s.(connecting := false, phase := Ended, connected := true);
      DequeueKeepsInv(limit, ended);
      NextBatchKeepsInv(limit, Dequeue(ended), false);
    }
  }

  lemma AppliedKeepsOwned(w: WillState, ok: bool)
    requires WillOwned(w) && w.ops != []
    ensures WillOwned(Applied(w, ok))
    ensures w.current ==> WillOwned(PutNext(w, ok))
  {
    var rest := w.ops[1..];
    assert rest != [] ==> rest[|rest| - 1] == w.ops[|w.ops| - 1];
    if ok {
    } else {
    }
  }

  lemma WillStepKeepsInv(limit: nat, s: State, w: WillState)
    requires Inv(limit, s) && WillOwned(w)
    requires w.pending == s.will.pending && w.current == s.will.current
    requires w.atFinish == s.will.atFinish && w.disconnectedAtFinish == s.will.disconnectedAtFinish
    requires w.fate.Undecided? <==> s.will.fate.Undecided?
    ensures Inv(limit, s.(will := w))
    ensures StaysClosed(s, s.(will := w))
  {}

  /** Moving on in the pipeline after authentication. */
  lemma PhaseKeepsInv(limit: nat, s: State, next: Phase)
    requires Inv(limit, s) && PastAuthentication(s.phase) && PastAuthentication(next) && !next.EmptyingQueue?
    ensures Inv(limit, s.(phase := next))
  {}

  lemma RegisterKeepsInv(limit: nat, s: State)
    requires Inv(limit, s) && PastAuthentication(s.phase)
    ensures Inv(limit, RegisterAndConnack(s))
  {
    PhaseKeepsInv(limit, s, WritingConnack(s.connecting || s.connected));
  }

  lemma AppliedKeepsInv(limit: nat, s: State, ok: bool)
    requires Inv(limit, s) && s.will.ops != []
    ensures Inv(limit, s.(will := Applied(s.will, ok)))
  {
    AppliedKeepsOwned(s.will, ok);
    WillStepKeepsInv(limit, s, Applied(s.will, ok));
  }

  lemma PutNextFits(w: WillState, ok: bool)
    requires w.ops != []
    ensures
      var r := PutNext(w, ok);
      && r.pending == w.pending && r.current == w.current && r.fate == w.fate
      && r.atFinish == w.atFinish && r.disconnectedAtFinish == w.disconnectedAtFinish
  {
    if ok {
    } else {
    }
  }

  lemma DeletedKeepsInv(limit: nat, s: State, ok: bool)
    requires Inv(limit, s) && s.will.ops != [] && s.phase.DeletingWill?
    ensures Inv(limit, AfterDelete(s, ok))
    ensures StaysClosed(s, AfterDelete(s, ok))
  {
    if s.will.current {
      AppliedKeepsOwned(s.will, ok);
      PutNextFits(s.will, ok);
      WillStepKeepsInv(limit, s, PutNext(s.will, ok));
      PhaseKeepsInv(limit, s.(will := PutNext(s.will, ok)), PuttingWill);
    } else {
      AppliedKeepsInv(limit, s, ok);
      RegisterKeepsInv(limit, s.(will := Applied(s.will, ok)));
    }
  }

  lemma PutKeepsInv(limit: nat, s: State, ok: bool)
    requires Inv(limit, s) && s.will.ops != [] && s.phase.PuttingWill?
    ensures Inv(limit, AfterPut(s, ok))
    ensures StaysClosed(s, AfterPut(s, ok))
  {
    AppliedKeepsInv(limit, s, ok);
    if ok {
      RegisterKeepsInv(limit, s.(will := Applied(s.will, ok)));
    } else {
      EndSeriesKeepsInv(limit, s.(will := Applied(s.will, ok)), true);
    }
  }

  lemma StorageKeepsInv(limit: nat, s: State, ok: bool)
    requires Inv(limit, s)
    ensures Inv(limit, StorageStep(s, ok))
    ensures StaysClosed(s, StorageStep(s, ok))
  {
    if s.will.ops == [] {
    } else if s.will.ops[0] == StoreDel && s.phase.DeletingWill? {
      DeletedKeepsInv(limit, s, ok);
    } else if s.will.ops[0] == StorePut && s.phase.PuttingWill? {
      PutKeepsInv(limit, s, ok);
    } else {
      AppliedKeepsInv(limit, s, ok);
    }
  }

  lemma RejectionKeepsInv(limit: nat, s: State, ok: bool)
    requires Inv(limit, s)
    ensures Inv(limit, RejectionStep(s, ok))
    ensures StaysClosed(s, RejectionStep(s, ok))
  {
    var sent := Rejected(s, ok);
    if s.phase.RejectingVersion? {
      NextBatchKeepsInv(limit, sent, true);
    } else if s.phase.RejectingAuth? && !s.close.closed {
      CloseKeepsInv(limit, sent, multiset{});
    }
  }

  lemma ConnackKeepsInv(limit: nat, s: State, ok: bool)
    requires Inv(limit, s)
    ensures Inv(limit, ConnackStep(s, ok))
    ensures StaysClosed(s, ConnackStep(s, ok))
  {
    if s.phase.WritingConnack? {
      if ok && s.phase.writable {
        var sent := s.(connackSent := true, inbox := s.inbox.(paused := false), phase := EmptyingQueue);
        NextBatchKeepsInv(limit, sent, false);
      } else {
        EndSeriesKeepsInv(limit, s, true);
      }
    }
  }

  lemma FetchedKeepsInv(limit: nat, s: State, ok: bool)
    requires Inv(limit, s)
    ensures Inv(limit, Step(limit, s, SubsFetched(ok)))
    ensures StaysClosed(s, Step(limit, s, SubsFetched(ok)))
  {
    if !ok { EndSeriesKeepsInv(limit, s, true); }
  }

  lemma RestoredKeepsInv(limit: nat, s: State, ok: bool)
    requires Inv(limit, s)
    ensures Inv(limit, Step(limit, s, SubsRestored(ok)))
    ensures StaysClosed(s, Step(limit, s, SubsRestored(ok)))
  {
    if !ok { EndSeriesKeepsInv(limit, s, true); }
  }

  lemma EmptiedKeepsInv(limit: nat, s: State, ok: bool)
    requires Inv(limit, s)
    ensures Inv(limit, Step(limit, s, QueueEmptied(ok)))
    ensures StaysClosed(s, Step(limit, s, QueueEmptied(ok)))
  {
    if s.phase.EmptyingQueue? { EndSeriesKeepsInv(limit, s, !ok); }
  }

  lemma AnswersKeepOwned(w: WillState, ok: bool)
    requires WillOwned(w)
    ensures WillOwned(WillAnswer(w, ok)) && WillOwned(WillDone(w))
  {}

  lemma WillAuthorisedKeepsInv(limit: nat, s: State, ok: bool)
    requires Inv(limit, s)
    ensures Inv(limit, Step(limit, s, WillAuthorised(ok)))
    ensures StaysClosed(s, Step(limit, s, WillAuthorised(ok)))
  {
    AnswersKeepOwned(s.will, ok);
    WillStepKeepsInv(limit, s, WillAnswer(s.will, ok));
    assert Step(limit, s, WillAuthorised(ok)) == s.(will := WillAnswer(s.will, ok));
  }

  lemma WillPublishedKeepsInv(limit: nat, s: State)
    requires Inv(limit, s)
    ensures Inv(limit, Step(limit, s, WillPublished))
    ensures StaysClosed(s, Step(limit, s, WillPublished))
  {
    AnswersKeepOwned(s.will, true);
    WillStepKeepsInv(limit, s, WillDone(s.will));
  }

  lemma SubscriptionsKeepInv(limit: nat, s: State, listening: bool)
    requires Inv(limit, s)
    ensures Inv(limit, Step(limit, s, SubscriptionsChange(listening)))
    ensures StaysClosed(s, Step(limit, s, SubscriptionsChange(listening)))
  {}

  lemma InitKeepsInv(limit: nat, s: State, refused: bool, hasWill: bool)
    requires Inv(limit, s)
    ensures Inv(limit, InitStep(s, refused, hasWill))
    ensures StaysClosed(s, InitStep(s, refused, hasWill))
  {}

  lemma AuthKeepsInv(limit: nat, s: State, ok: bool, keepalive: nat)
    requires Inv(limit, s)
    ensures Inv(limit, AuthStep(s, ok, keepalive))
    ensures StaysClosed(s, AuthStep(s, ok, keepalive))
  {}

  lemma EarlyPhaseKeepsInv(limit: nat, s: State, connecting: bool, next: Phase)
    requires Inv(limit, s) && !PastAuthentication(next)
    ensures Inv(limit, s.(connecting := connecting, phase := next))
  {}

  lemma RefusalKeepsInv(limit: nat, s: State, error: bool)
    requires Inv(limit, s)
    ensures
      var s' := NextBatch(s.(connecting := false, phase := NoConnect), error);
      Inv(limit, s') && StaysClosed(s, s')
  {
    EarlyPhaseKeepsInv(limit, s, false, NoConnect);
    NextBatchKeepsInv(limit, s.(connecting := false, phase := NoConnect), error);
  }

  lemma PreConnectKeepsInv(limit: nat, s: State, ok: bool, error: bool)
    requires Inv(limit, s)
    ensures Inv(limit, PreConnectStep(s, ok, error))
    ensures StaysClosed(s, PreConnectStep(s, ok, error))
  {
    if !s.phase.PreConnecting? {
    } else if ok && !error {
      EarlyPhaseKeepsInv(limit, s, s.connecting, InitScheduled);
    } else {
      RefusalKeepsInv(limit, s, error);
    }
  }

  lemma UnsubscribedKeepsInv(limit: nat, s: State)
    requires Inv(limit, s)
    ensures Inv(limit, Step(limit, s, Unsubscribed))
    ensures StaysClosed(s, Step(limit, s, Unsubscribed))
  {
    if s.close.closing.Unsubscribing? {
      FinishKeepsCore(s);
    }
  }

  /** The answers that the connect series waits for. */
  predicate OfSeries(e: Event) {
    || e.PreConnectAnswers? || e.InitRuns? || e.AuthAnswers? || e.RejectionWritten? || e.SubsFetched?
    || e.SubsRestored? || e.StorageAnswers? || e.ConnackWritten? || e.QueueEmptied?
  }

  lemma SeriesStepKeepsInv(limit: nat, s: State, e: Event)
    requires Inv(limit, s) && OfSeries(e)
    ensures Inv(limit, Step(limit, s, e))
    ensures StaysClosed(s, Step(limit, s, e))
  {
    match e
    case PreConnectAnswers(ok, error) => PreConnectKeepsInv(limit, s, ok, error);
    case InitRuns(refused, hasWill) => InitKeepsInv(limit, s, refused, hasWill);
    case AuthAnswers(ok, keepalive) => AuthKeepsInv(limit, s, ok, keepalive);
    case RejectionWritten(ok) => RejectionKeepsInv(limit, s, ok);
    case SubsFetched(ok) => FetchedKeepsInv(limit, s, ok);
    case SubsRestored(ok) => RestoredKeepsInv(limit, s, ok);
    case StorageAnswers(ok) => StorageKeepsInv(limit, s, ok);
    case ConnackWritten(ok) => ConnackKeepsInv(limit, s, ok);
    case QueueEmptied(ok) => EmptiedKeepsInv(limit, s, ok);
  }

  lemma StepKeepsInv(limit: nat, s: State, e: Event)
    requires Inv(limit, s)
    ensures Inv(limit, Step(limit, s, e))
    ensures StaysClosed(s, Step(limit, s, e))
  {
    if OfSeries(e) {
      SeriesStepKeepsInv(limit, s, e);
    } else {
      match e
      case PacketArrives(p) => ArrivalKeepsInv(limit, s, p);
      case BatchDone(error) => NextBatchKeepsInv(limit, s, error);
      case CloseCalled(callback) => CloseKeepsInv(limit, s, multiset{callback});
      case SocketEnds => CloseKeepsInv(limit, s, multiset{});
      case ErrorEmitted => CloseKeepsInv(limit, s, multiset{});
      case Unsubscribed => UnsubscribedKeepsInv(limit, s);
      case WillAuthorised(ok) => WillAuthorisedKeepsInv(limit, s, ok);
      case WillPublished => WillPublishedKeepsInv(limit, s);
      case SubscriptionsChange(listening) => SubscriptionsKeepInv(limit, s, listening);
    }
  }

  lemma {:induction false} RunsKeepInv(limit: nat, run: seq<Event>)
    ensures Inv(limit, After(limit, run))
  {
    if run == [] {
    } else {
      RunsKeepInv(limit, run[..|run| - 1]);
      StepKeepsInv(limit, After(limit, run[..|run| - 1]), run[|run| - 1]);
    }
  }

  // ---------- What this means ----------

  /** However often and from wherever close is called: finish has run at most once, and once it has run
      every callback has been called exactly as often as it was passed. */
  lemma CloseIsOneShot(limit: nat, run: seq<Event>)
    ensures
      var c := After(limit, run).close;
      && c.finishes <= 1
      && c.called <= c.given
      && (c.finishes == 1 ==> c.called == c.given)
      && (c.closed && c.finishes == 0 <==> c.closing.Unsubscribing?)
  {
    RunsKeepInv(limit, run);
  }

  lemma CloseLeadsToFinish(s: State, callback: multiset<nat>)
    requires FinishOnce(s.close)
    ensures
      var s' := CloseStep(s, callback);
      && s'.close.closed
      && (!s.close.closed && !s.listening ==> s'.close.finishes == 1)
      && (s'.close.finishes == 0 <==> s'.close.closing.Unsubscribing?)
      && (s'.close.closing.Unsubscribing? ==> FinishStep(s').close.finishes == 1)
      && (s.close.finishes == 0 && (s.close.closed || s.listening) ==> s'.close.finishes == 0)
      && s'.close.finishes <= 1
  {
    if s.close.closed {
    } else if s.listening {
    } else {
    }
  }

  predicate Closes(e: Event) {
    e.CloseCalled? || e.SocketEnds? || e.ErrorEmitted?
  }

  lemma CloseEventLeadsToFinish(limit: nat, s: State, e: Event)
    requires FinishOnce(s.close) && Closes(e)
    ensures
      var s' := Step(limit, s, e);
      && s'.close.closed
      && (!s.close.closed && !s.listening ==> s'.close.finishes == 1)
      && (s.close.finishes == 0 && (s.close.closed || s.listening) ==>
          Step(limit, s', Unsubscribed).close.finishes == 1)
  {
    match e
    case CloseCalled(callback) => CloseLeadsToFinish(s, multiset{callback});
    case _ => CloseLeadsToFinish(s, multiset{});
  }

  /** With nothing to unsubscribe finish runs inside close; otherwise it runs when the emitter has answered. */
  lemma FinishFollowsClose(limit: nat, run: seq<Event>, e: Event)
    requires Closes(e)
    ensures
      var s := After(limit, run);
      var s' := Step(limit, s, e);
      && s'.close.closed
      && (!s.close.closed && !s.listening ==> s'.close.finishes == 1)
      && (s.close.finishes == 0 && (s.close.closed || s.listening) ==>
          Step(limit, s', Unsubscribed).close.finishes == 1)
  {
    RunsKeepInv(limit, run);
    CloseEventLeadsToFinish(limit, After(limit, run), e);
  }

  /** closed is never reset, and a closed client has no timer armed: not even when authentication answers late. */
  lemma {:induction false} ClosedForGood(limit: nat, run: seq<Event>, n: nat)
    requires n <= |run| && After(limit, run[..n]).close.closed
    ensures After(limit, run).close.closed
    ensures !After(limit, run).timers.connect && !After(limit, run).timers.keepalive
        && After(limit, run).timers.interval == 0
    decreases |run|
  {
    RunsKeepInv(limit, run);
    if n == |run| {
      assert run[..n] == run;
    } else {
      var prefix := run[..|run| - 1];
      assert prefix[..n] == run[..n];
      ClosedForGood(limit, prefix, n);
      RunsKeepInv(limit, prefix);
      StepKeepsInv(limit, After(limit, prefix), run[|run| - 1]);
    }
  }

  /** No null queue is ever pushed to and no null timer refreshed; before CONNACK at most queueLimit packets wait; those
      dispatched from the queue are all of those queued, in arrival order and once each, or none. */
  lemma NothingCrashes(limit: nat, run: seq<Event>)
    ensures
      var s := After(limit, run);
      && !s.crashed
      && (s.timers.interval > 0 ==> s.timers.keepalive)
      && (s.inbox.queue.Queue? ==> |s.inbox.queue.packets| <= limit)
      && (s.inbox.dequeued == [] || s.inbox.dequeued == s.inbox.queued)
  {
    RunsKeepInv(limit, run);
  }

  /** When the connect series succeeds every waiting packet is dispatched. */
  lemma QueueDispatchedOnConnect(limit: nat, run: seq<Event>)
    requires After(limit, run).phase.EmptyingQueue? && After(limit, run).inbox.queue.Queue?
    ensures
      var s' := Step(limit, After(limit, run), QueueEmptied(true));
      s'.inbox.dequeued == s'.inbox.queued == After(limit, run).inbox.queue.packets && s'.inbox.queue.NoQueue?
  {
    RunsKeepInv(limit, run);
    var s := After(limit, run);
    var ended := s.(connecting := false, phase := Ended, connected := true);
    DequeueKeepsInv(limit, ended);
    NextBatchKeepsCore(Dequeue(ended), false);
  }

  /** The will goes to broker.publish at most once, only if it had been stored when finish ran, which takes a successful
      authentication, only if no DISCONNECT had been processed by then, and only if authorizePublish agreed. */
  lemma WillPublishedAtMostOnce(limit: nat, run: seq<Event>)
    ensures
      var s := After(limit, run);
      && s.will.publishes <= 1
      && (s.will.publishes == 1 ==>
            s.close.finishes == 1 && s.authorized && s.will.atFinish && !s.will.disconnectedAtFinish
                && !s.will.fate.Refused?)
      && (s.will.publishes == 1 && s.disconnected ==> s.lateConnect)
  {
    RunsKeepInv(limit, run);
  }

  /** Nothing of this connection is under way any more. */
  predicate Quiescent(s: State) {
    && s.close.closing.Finished? && s.will.ops == []
    && !s.will.fate.Authorising? && !s.will.fate.Publishing?
  }

  /** At quiescence the will was published exactly once precisely when finish found one, no DISCONNECT had been
      processed, and the publish was authorised; and unless a storage call was rejected, persistence holds no will
      of this connection any more. */
  lemma WillSettled(limit: nat, run: seq<Event>)
    requires Quiescent(After(limit, run))
    ensures
      var w := After(limit, run).will;
      && (w.publishes == 1 <==> w.atFinish && !w.disconnectedAtFinish && !w.fate.Refused?)
      && (!w.rejected ==> !w.stored)
  {
    RunsKeepInv(limit, run);
  }

  lemma DispatchThree(s: State, p: Packet, q: Packet, r: Packet)
    ensures DispatchAll(s, [p, q, r]) == Handle(Take(Handle(Take(Handle(Take(s, p), p), q), q), r), r)
  {
    var packets, s1 := [p, q, r], Handle(Take(s, p), p);
    var s2 := Handle(Take(s1, q), q);
    DispatchNext(s, packets, 0);
    DispatchNext(s1, packets, 1);
    DispatchNext(s2, packets, 2);
    assert packets[0..] == packets && packets[3..] == [];
  }

  /** A DISCONNECT can be processed after finish, and the will still be published: a closed client goes on
      dispatching the packets it had queued, and a CONNECT among them is accepted once finish has run. */
  lemma DisconnectAfterFinish(limit: nat, s: State)
    requires Inv(limit, s) && s.phase.EmptyingQueue? && !s.close.closed && !s.listening && s.will.current
        && !s.disconnected
    requires s.inbox.queue == Queue([OtherPacket(true), ConnectPacket, DisconnectPacket])
    ensures
      var s' := Step(limit, Step(limit, s, QueueEmptied(true)), WillAuthorised(true));
      s'.disconnected && s'.will.publishes == 1 && s'.lateConnect
  {
    var packets := [OtherPacket(true), ConnectPacket, DisconnectPacket];
    var ended := s.(connecting := false, phase := Ended, connected := true);
    DispatchThree(ended, packets[0], packets[1], packets[2]);
    FailConnectDisconnect(ended);
  }

  /** What the three packets do to an open client with a will and without subscriptions. */
  lemma FailConnectDisconnect(s: State)
    requires Core(s) && s.connected && !s.close.closed && !s.listening && s.will.current && !s.disconnected
    ensures
      var failed := Handle(Take(s, OtherPacket(true)), OtherPacket(true));
      var again := Handle(Take(failed, ConnectPacket), ConnectPacket);
      var last := Handle(Take(again, DisconnectPacket), DisconnectPacket);
      && last.disconnected && last.lateConnect && last.will.fate.Authorising? && last.will.publishes == 0
  {
    var failed := Handle(Take(s, OtherPacket(true)), OtherPacket(true));
    assert failed.close.closing.Finished? && failed.will == FinishWill(s.will, false)
        && !failed.connecting && !failed.connected;
    var again := Handle(Take(failed, ConnectPacket), ConnectPacket);
    assert again.connecting && again.lateConnect && again.will == failed.will;
  }

  lemma AfterSnoc(limit: nat, run: seq<Event>, e: Event)
    ensures After(limit, run + [e]) == Step(limit, After(limit, run), e)
  {
    assert (run + [e])[..|run|] == run;
  }

  /** A CONNECT, and behind it in the same buffer a packet that fails, another CONNECT and a DISCONNECT. */
  function FourPackets(): (run: seq<Event>) {
    [BatchDone(false)] + [PacketArrives(ConnectPacket)] + [PacketArrives(OtherPacket(true))]
    + [PacketArrives(ConnectPacket)] + [PacketArrives(DisconnectPacket)]
  }

  lemma FourPacketsWait(limit: nat)
    requires limit >= 3
    ensures
      var waiting := [OtherPacket(true), ConnectPacket, DisconnectPacket];
      After(limit, FourPackets())
      == Start().(timers := Timers(false, false, 0), inbox := Inbox(Queue(waiting), 4, false, waiting, []),
                  phase := PreConnecting, connecting := true)
  {
    var r0 := [BatchDone(false)];
    var r1 := r0 + [PacketArrives(ConnectPacket)];
    var r2 := r1 + [PacketArrives(OtherPacket(true))];
    var r3 := r2 + [PacketArrives(ConnectPacket)];
    assert r0[..0] == [];
    assert After(limit, r0) == Start().(inbox := Inbox(Queue([]), 0, false, [], []));
    AfterSnoc(limit, r0, PacketArrives(ConnectPacket));
    var s1 := Start().(timers := Timers(false, false, 0), phase := PreConnecting, connecting := true);
    assert After(limit, r1) == s1.(inbox := Inbox(Queue([]), 1, false, [], []));
    AfterSnoc(limit, r1, PacketArrives(OtherPacket(true)));
    var q2 := [OtherPacket(true)];
    assert [] + q2 == q2;
    assert After(limit, r2) == s1.(inbox := Inbox(Queue(q2), 2, false, q2, []));
    AfterSnoc(limit, r2, PacketArrives(ConnectPacket));
    var q3 := [OtherPacket(true), ConnectPacket];
    assert q2 + [ConnectPacket] == q3;
    assert q3 + [DisconnectPacket] == [OtherPacket(true), ConnectPacket, DisconnectPacket];
    assert After(limit, r3) == s1.(inbox := Inbox(Queue(q3), 3, false, q3, []));
    AfterSnoc(limit, r3, PacketArrives(DisconnectPacket));
  }

  /** The connect series of a client with a will, up to storeWill. */
  function ReachesStoreWill(): (run: seq<Event>) {
    FourPackets() + [PreConnectAnswers(true, false)] + [InitRuns(false, true)] + [AuthAnswers(true, 0)]
    + [SubsFetched(true)] + [SubsRestored(true)]
  }

  lemma SeriesStarts(limit: nat, s: State, hasWill: bool)
    requires s.phase.PreConnecting?
    ensures
      Step(limit, Step(limit, s, PreConnectAnswers(true, false)), InitRuns(false, hasWill))
      == s.(will := s.will.(pending := hasWill), phase := Authenticating, inbox := s.inbox.(paused := true))
  {}

  lemma SeriesAdmits(limit: nat, s: State, keepalive: nat)
    requires s.phase.Authenticating? && !s.close.closed
    ensures
      Step(limit, Step(limit, s, AuthAnswers(true, keepalive)), SubsFetched(true))
      == s.(authorized := true, phase := RestoringSubs, timers := KeepaliveTimers(s.timers, keepalive))
  {}

  lemma SeriesStoresNext(limit: nat, s: State)
    requires s.phase.RestoringSubs?
    ensures
      Step(limit, s, SubsRestored(true))
      == s.(will := s.will.(current := s.will.pending, ops := s.will.ops + [StoreDel]), phase := DeletingWill)
  {}

  /** The connect series from preConnect to storeWill, if every answer is good. */
  lemma SeriesReachesStoreWill(limit: nat, s: State, hasWill: bool, keepalive: nat)
    requires s.phase.PreConnecting? && !s.close.closed
    ensures
      var asked := Step(limit, Step(limit, s, PreConnectAnswers(true, false)), InitRuns(false, hasWill));
      Step(limit, Step(limit, Step(limit, asked, AuthAnswers(true, keepalive)), SubsFetched(true)), SubsRestored(true))
      == s.(will := s.will.(pending := hasWill, current := hasWill, ops := s.will.ops + [StoreDel]),
            phase := DeletingWill, timers := KeepaliveTimers(s.timers, keepalive),
            inbox := s.inbox.(paused := true), authorized := true)
  {
    SeriesStarts(limit, s, hasWill);
    var asked := s.(will := s.will.(pending := hasWill), phase := Authenticating, inbox := s.inbox.(paused := true));
    SeriesAdmits(limit, asked, keepalive);
    SeriesStoresNext(limit, asked.(authorized := true, phase := RestoringSubs,
                                   timers := KeepaliveTimers(s.timers, keepalive)));
  }

  lemma StoreWillReached(limit: nat)
    requires limit >= 3
    ensures
      var waiting := [OtherPacket(true), ConnectPacket, DisconnectPacket];
      After(limit, ReachesStoreWill())
      == Start().(timers := Timers(false, false, 0), inbox := Inbox(Queue(waiting), 4, true, waiting, []),
                  will := Start().will.(pending := true, current := true, ops := [StoreDel]),
                  phase := DeletingWill, connecting := true, authorized := true)
  {
    var r0 := FourPackets();
    FourPacketsWait(limit);
    var r1 := r0 + [PreConnectAnswers(true, false)];
    var r2 := r1 + [InitRuns(false, true)];
    var r3 := r2 + [AuthAnswers(true, 0)];
    var r4 := r3 + [SubsFetched(true)];
    AfterSnoc(limit, r0, PreConnectAnswers(true, false));
    AfterSnoc(limit, r1, InitRuns(false, true));
    AfterSnoc(limit, r2, AuthAnswers(true, 0));
    AfterSnoc(limit, r3, SubsFetched(true));
    AfterSnoc(limit, r4, SubsRestored(true));
    SeriesReachesStoreWill(limit, After(limit, r0), true, 0);
    assert [] + [StoreDel] == [StoreDel];
  }

  /** And on to the replay of the queue. */
  function ConnectsWithWill(): (run: seq<Event>) {
    ReachesStoreWill() + [StorageAnswers(true)] + [StorageAnswers(true)] + [ConnackWritten(true)]
  }

  lemma WillIsStored(limit: nat)
    requires limit >= 3
    ensures
      var s := After(limit, ConnectsWithWill());
      && s.phase.EmptyingQueue? && !s.close.closed && !s.listening && s.will.current && !s.disconnected
      && s.inbox.queue == Queue([OtherPacket(true), ConnectPacket, DisconnectPacket])
  {
    var r0, s0 := ReachesStoreWill(), After(limit, ReachesStoreWill());
    StoreWillReached(limit);
    var r1 := r0 + [StorageAnswers(true)];
    var r2 := r1 + [StorageAnswers(true)];
    AfterSnoc(limit, r0, StorageAnswers(true));
    assert s0.will.ops[1..] + [StorePut] == [StorePut];
    assert After(limit, r1).will.ops == [StorePut] && After(limit, r1).phase == PuttingWill;
    AfterSnoc(limit, r1, StorageAnswers(true));
    assert After(limit, r2).phase == WritingConnack(true);
    AfterSnoc(limit, r2, ConnackWritten(true));
  }

  /** It happens, from the start of a connection: the queued packets close the client and are processed all the same. */
  lemma DisconnectAfterFinishHappens(limit: nat)
    requires limit >= 3
    ensures
      var s := After(limit, ConnectsWithWill() + [QueueEmptied(true)] + [WillAuthorised(true)]);
      s.disconnected && s.will.publishes == 1 && s.lateConnect
  {
    var run := ConnectsWithWill();
    RunsKeepInv(limit, run);
    WillIsStored(limit);
    DisconnectAfterFinish(limit, After(limit, run));
    AfterSnoc(limit, run, QueueEmptied(true));
    AfterSnoc(limit, run + [QueueEmptied(true)], WillAuthorised(true));
  }

  // ---------- The program's state ----------

  /** The fields of the client, with those that belong together grouped in the records above. */
  class Client {
    const queueLimit: nat
    var close: CloseState
    var timers: Timers
    var inbox: Inbox
    var will: WillState
    var phase: Phase
    var connecting: bool
    var connected: bool
    var connackSent: bool
    var authorized: bool
    var disconnected: bool
    var listening: bool
    var crashed: bool
    ghost var lateConnect: bool

    ghost function Abs(): (s: State) reads this {
      State(close, timers, inbox, will, phase, connecting, connected, connackSent, authorized, disconnected,
            listening, crashed, lateConnect)
    }

    constructor (queueLimit: nat)
      ensures Abs() == Start() && this.queueLimit == queueLimit
    {
      this.queueLimit := queueLimit;
      close := CloseState(false, NotClosing, 0, multiset{}, multiset{});
      timers := Timers(true, false, 0);
      inbox := Inbox(Queue([]), 1, false, [], []);
      will := WillState(false, false, Undecided, [], false, 0, false, false, false, 0);
      phase, connecting, connected, connackSent := NoConnect, false, false, false;
      authorized, disconnected, listening, crashed, lateConnect := false, false, false, false, false;
    }

    /** What finish does about the will. */
    method DecideWill()
      modifies `will
      ensures will == FinishWill(old(will), disconnected)
    {
      will := will.(atFinish := will.current, disconnectedAtFinish := disconnected);
      if !disconnected && will.current {
        will := will.(fate := Authorising);
      } else if will.current {
        will := will.(fate := Discarded, ops := will.ops + [FinishDel]);
      } else {
        will := will.(fate := NoWill);
      }
      will := will.(current := false, pending := false);
    }

    method Finish()
      requires close.closing.Unsubscribing?
      modifies this
      ensures Abs() == FinishStep(old(Abs()))
    {
      close := close.(finishes := close.finishes + 1);
      DecideWill();
      connected := false;
      connecting := false;
      close := close.(closing := Finished, called := close.called + close.closing.callback);
    }

    /** done holds the callback passed, if any. */
    method Close(done: multiset<nat>)
      modifies this
      ensures Abs() == CloseStep(old(Abs()), done)
    {
      close := close.(given := close.given + done);
      if close.closed {
        close := close.(called := close.called + done);
        return;
      }
      close := close.(closed := true, closing := Unsubscribing(done));
      inbox := inbox.(queue := NoQueue);
      if timers.keepalive {
        timers := timers.(interval := 0, keepalive := false);
      }
      timers := timers.(connect := false);
      assert Abs() == FlagClosed(old(Abs()), done);
      if !listening {
        Finish();
      }
    }

    method BatchDone(error: bool)
      modifies this
      ensures Abs() == NextBatch(old(Abs()), error)
    {
      if error {
        Close(multiset{});
      } else if !inbox.paused && inbox.parsingBatch > 0 {
        inbox := inbox.(parsingBatch := inbox.parsingBatch - 1);
      }
    }

    method HandleConnect()
      requires !connecting && !connected
      modifies this
      ensures Abs() == Handle(old(Abs()), ConnectPacket)
    {
      lateConnect := lateConnect || close.closed;
      timers := timers.(connect := false);
      connecting := true;
      phase := PreConnecting;
    }

    method HandleDisconnect()
      requires connecting || connected
      modifies this
      ensures Abs() == Handle(old(Abs()), DisconnectPacket)
    {
      disconnected := true;
      assert Abs() == old(Abs()).(disconnected := true);
      BatchDone(false);
    }

    method RefreshTimer()
      modifies this`crashed
      ensures Abs() == RefreshKeepalive(old(Abs()))
    {
      if timers.interval > 0 && !timers.keepalive {
        crashed := true;
      }
    }

    method Dispatch(p: Packet)
      modifies this
      ensures Abs() == Handle(old(Abs()), p)
    {
      if p == ConnectPacket {
        if connecting || connected {
          BatchDone(true);
        } else {
          HandleConnect();
        }
      } else if !connecting && !connected {
        BatchDone(true);
      } else if p == DisconnectPacket {
        HandleDisconnect();
      } else {
        if p.fails {
          BatchDone(true);
        }
        RefreshTimer();
      }
    }

    method PacketArrives(p: Packet)
      requires !close.closed
      modifies this
      ensures Abs() == ArrivalStep(queueLimit, old(Abs()), p)
    {
      inbox := inbox.(parsingBatch := inbox.parsingBatch + 1);
      assert Abs() == CountPacket(old(Abs()));
      if connackSent || inbox.parsingBatch == 1 {
        Dispatch(p);
      } else if inbox.queue == NoQueue {
        crashed := true;
      } else if |inbox.queue.packets| < queueLimit {
        inbox := inbox.(queue := Queue(inbox.queue.packets + [p]), queued := inbox.queued + [p]);
      } else {
        Close(multiset{});
      }
    }

    method TakeAndDispatch(p: Packet)
      modifies this
      ensures Abs() == Handle(Take(old(Abs()), p), p)
    {
      inbox := inbox.(dequeued := inbox.dequeued + [p]);
      assert Abs() == Take(old(Abs()), p);
      Dispatch(p);
    }

    /** Runs when the client emits 'connected'. */
    method DispatchQueue()
      modifies this
      ensures Abs() == Dequeue(old(Abs()))
    {
      if inbox.queue == NoQueue {
        return;
      }
      var q := inbox.queue.packets;
      ghost var start := Abs();
      var i := 0;
      while i < |q|
        invariant 0 <= i <= |q|
        invariant DispatchAll(Abs(), q[i..]) == DispatchAll(start, q)
      {
        DispatchNext(Abs(), q, i);
        TakeAndDispatch(q[i]);
        i := i + 1;
      }
      assert q[i..] == [];
      inbox := inbox.(queue := NoQueue);
    }

    /** What authenticate answers; on success setKeepAlive runs in the same turn. */
    method Authenticated(ok: bool, keepalive: nat)
      requires phase == Authenticating
      modifies this
      ensures Abs() == AuthStep(old(Abs()), ok, keepalive)
    {
      if close.closed {
        phase := Ended;
        return;
      }
      if !ok {
        phase := RejectingAuth;
        return;
      }
      authorized := true;
      if keepalive > 0 {
        timers := timers.(interval := keepalive * 1500 + 1, keepalive := true);
      }
      phase := FetchingSubs;
    }

    method SeriesDone(error: bool)
      modifies this
      ensures Abs() == EndSeries(old(Abs()), error)
    {
      connecting := false;
      phase := Ended;
      if !error {
        connected := true;
        DispatchQueue();
      }
      BatchDone(error);
    }

    /** A storage call on the will answers. */
    method TakeAnswer(ok: bool)
      requires will.ops != []
      modifies `will
      ensures will == Applied(old(will), ok)
    {
      var op := will.ops[0];
      will := will.(ops := will.ops[1..]);
      if ok {
        will := will.(stored := op == StorePut);
      } else {
        will := will.(rejected := true);
        if op == StoreDel {
          will := will.(unhandled := will.unhandled + 1);
        }
      }
    }

    /** The delWill that storeWill waits for answers. */
    method WillDeleted(ok: bool)
      requires phase == DeletingWill && will.ops != [] && will.ops[0] == StoreDel
      modifies this
      ensures Abs() == StorageStep(old(Abs()), ok)
    {
      TakeAnswer(ok);
      if will.current {
        will := will.(ops := will.ops + [StorePut]);
        phase := PuttingWill;
      } else {
        phase := WritingConnack(connecting || connected);
      }
    }

    /** Its putWill answers. */
    method WillPut(ok: bool)
      requires phase == PuttingWill && will.ops != [] && will.ops[0] == StorePut
      modifies this
      ensures Abs() == StorageStep(old(Abs()), ok)
    {
      TakeAnswer(ok);
      if ok {
        phase := WritingConnack(connecting || connected);
      } else {
        SeriesDone(true);
      }
    }
  }
}
