/**
 What the flags of a connection mean in terms of what happened to it. `Lifecycle` says how one
 callback changes them; here each is tied to the events of the run: a client is authorised
 because authentication said so, disconnected because a DISCONNECT was processed, closed because
 something closed it, and its will is published, or not, for these reasons
 (lib/handlers/connect.js, lib/handlers/index.js, `close` and `finish` in lib/client.js).
 */
module ConnectionHistory {
  import Histories
  import opened Lifecycle

  // ---------- From steps to runs ----------

  /** Step k of the run is of this kind. */
  predicate Happens(kind: (State, Event) -> bool, limit: nat, run: seq<Event>, k: nat)
    requires k < |run|
  {
    kind(After(limit, run[..k]), run[k])
  }

  /** A property that only certain steps bring about, and that no step takes away, holds after a run exactly if the run
      contains such a step. */
  lemma LatchHistory(flag: State -> bool, sets: (State, Event) -> bool, limit: nat, run: seq<Event>)
    requires !flag(Start())
    requires forall s, e | Inv(limit, s) :: flag(Step(limit, s, e)) <==> flag(s) || sets(s, e)
    ensures flag(After(limit, run)) <==> exists k | 0 <= k < |run| :: Happens(sets, limit, run, k)
  {
    var after, sound := run => After(limit, run), (s: State, e: Event) => Inv(limit, s);
    assert Histories.Follows(after, (s, e) => Step(limit, s, e));
    forall k | 0 <= k < |run| ensures Histories.At(after, sound, run, k) {
      RunsKeepInv(limit, run[..k]);
    }
    Histories.Latch(after, (s, e) => Step(limit, s, e), sound, flag, sets, run);
    forall k | 0 <= k < |run| ensures Happens(sets, limit, run, k) == Histories.At(after, sets, run, k) {}
  }

  /** What holds after i steps, and is kept by the steps up to j, which are of a kind, holds after j steps. */
  lemma StepsKeep(p: State -> bool, kind: (State, Event) -> bool, limit: nat, run: seq<Event>, i: nat, j: nat)
    requires i <= j <= |run| && p(After(limit, run[..i]))
    requires forall k | i <= k < j :: Happens(kind, limit, run, k)
    requires forall s, e | Inv(limit, s) && p(s) && kind(s, e) :: p(Step(limit, s, e))
    ensures p(After(limit, run[..j]))
  {
    var after, sound := run => After(limit, run), (s: State, e: Event) => Inv(limit, s) && kind(s, e);
    assert Histories.Follows(after, (s, e) => Step(limit, s, e));
    forall k | i <= k < j ensures Histories.At(after, sound, run, k) {
      assert Happens(kind, limit, run, k);
      RunsKeepInv(limit, run[..k]);
    }
    Histories.Keep(after, (s, e) => Step(limit, s, e), sound, p, run, i, j);
  }

  // ---------- DISCONNECT ----------

  /** A packet that arrives now is handled at once. */
  predicate Direct(s: State) {
    !s.close.closed && (s.connackSent || s.inbox.parsingBatch == 0)
  }

  /** A packet that a connected client must not send, or whose handler errors. */
  predicate Fails(p: Packet) {
    p.ConnectPacket? || p == OtherPacket(true)
  }

  function FirstFailing(packets: seq<Packet>): (f: nat)
    ensures f <= |packets| && (f < |packets| ==> Fails(packets[f]))
    ensures forall i | 0 <= i < f :: !Fails(packets[i])
  {
    if packets == [] || Fails(packets[0]) then 0 else 1 + FirstFailing(packets[1..])
  }

  function FirstConnect(packets: seq<Packet>): (c: nat)
    ensures c <= |packets| && (c < |packets| ==> packets[c].ConnectPacket?)
    ensures forall i | 0 <= i < c :: !packets[i].ConnectPacket?
  {
    if packets == [] || packets[0].ConnectPacket? then 0 else 1 + FirstConnect(packets[1..])
  }

  /** Of packets that waited for the end of the connect series, a DISCONNECT is processed in time if no packet before it
      fails and closes the client, or if finish has to wait for subscriptions to be removed. */
  predicate HeardInTime(packets: seq<Packet>, listening: bool) {
    DisconnectPacket in packets[..FirstFailing(packets)] || (listening && DisconnectPacket in packets)
  }

  /** On a client that has finished, only what follows a CONNECT is processed. */
  predicate HeardAgain(packets: seq<Packet>) {
    FirstConnect(packets) < |packets| && DisconnectPacket in packets[FirstConnect(packets) + 1..]
  }

  predicate HeardLate(packets: seq<Packet>, listening: bool) {
    var f := FirstFailing(packets);
    !listening && f < |packets| && HeardAgain(packets[f + 1..])
  }

  /** The event processes a DISCONNECT of a client whose finish has not run: one that arrives, or one that waited. */
  predicate DisconnectsInTime(s: State, e: Event) {
    match e
    case PacketArrives(p) => p.DisconnectPacket? && Direct(s) && (s.connecting || s.connected)
    case QueueEmptied(ok) =>
      && ok && s.phase.EmptyingQueue? && s.inbox.queue.Queue?
      && HeardInTime(s.inbox.queue.packets, s.listening)
    case _ => false
  }

  /** Or one that follows a CONNECT which the client has accepted after finish. */
  predicate DisconnectsLate(s: State, e: Event) {
    && e.QueueEmptied? && e.ok && s.phase.EmptyingQueue? && s.inbox.queue.Queue?
    && HeardLate(s.inbox.queue.packets, s.listening)
  }

  /** DISCONNECT came before finish could look at the will. */
  predicate Disarmed(s: State) {
    s.disconnected && (s.close.closing.Finished? ==> s.will.disconnectedAtFinish)
  }

  lemma ClosedCloseOnlyCalls(s: State)
    requires s.close.closed
    ensures NextBatch(s, true) == s.(close := s.close.(given := s.close.given, called := s.close.called))
  {
    assert s.close.given + multiset{} == s.close.given && s.close.called + multiset{} == s.close.called;
  }

  /** The client is closed and still looks connected, or so again. */
  predicate ClosedAlive(s: State) {
    s.close.closed && (s.connecting || s.connected)
  }

  lemma ClosedOtherPacket(s: State, fails: bool)
    requires ClosedAlive(s)
    ensures
      var r := Handle(s, OtherPacket(fails));
      ClosedAlive(r) && r.close.closing == s.close.closing && r.will == s.will && r.disconnected == s.disconnected
  {
    ClosedCloseOnlyCalls(s);
  }

  lemma ClosedPacket(s: State, p: Packet)
    requires ClosedAlive(s)
    ensures
      var r := Handle(Take(s, p), p);
      && ClosedAlive(r) && r.close.closing == s.close.closing && r.will == s.will
      && (r.disconnected <==> s.disconnected || p.DisconnectPacket?)
  {
    match p
    case ConnectPacket => ClosedCloseOnlyCalls(Take(s, p));
    case DisconnectPacket =>
    case OtherPacket(fails) => ClosedOtherPacket(Take(s, p), fails);
  }

  /** Dispatch on a closed client that still looks connected: every DISCONNECT is processed. */
  lemma {:induction false} ClosedDispatch(s: State, packets: seq<Packet>)
    requires ClosedAlive(s)
    ensures
      var r := DispatchAll(s, packets);
      && r.close.closing == s.close.closing && r.will == s.will
      && (r.disconnected <==> s.disconnected || DisconnectPacket in packets)
    decreases packets
  {
    if packets == [] {
    } else {
      ClosedPacket(s, packets[0]);
      ClosedDispatch(Handle(Take(s, packets[0]), packets[0]), packets[1..]);
      assert packets == [packets[0]] + packets[1..];
    }
  }

  /** Dispatch on a client that has finished: nothing is processed before a CONNECT. */
  lemma {:induction false} DeadDispatch(s: State, packets: seq<Packet>)
    requires s.close.closed && !s.connecting && !s.connected
    ensures
      var r := DispatchAll(s, packets);
      && r.close.closing == s.close.closing && r.will == s.will
      && (r.disconnected <==> s.disconnected || HeardAgain(packets))
    decreases packets
  {
    if packets == [] {
    } else {
      var rest, next := packets[1..], Handle(Take(s, packets[0]), packets[0]);
      if packets[0].ConnectPacket? {
        ClosedDispatch(next, rest);
      } else {
        DeadDispatch(next, rest);
        assert FirstConnect(packets) == 1 + FirstConnect(rest);
        assert FirstConnect(rest) < |rest| ==>
            packets[FirstConnect(packets) + 1..] == rest[FirstConnect(rest) + 1..];
      }
    }
  }

  /** A failing packet closes an open client. */
  lemma FailingPacketCloses(s: State, p: Packet)
    requires Core(s) && !s.close.closed && s.connected && Fails(p)
    ensures
      var r := Handle(Take(s, p), p);
      && r.close.closed && r.disconnected == s.disconnected
      && (s.listening ==> r.close.closing.Unsubscribing? && r.connected && r.will == s.will)
      && (!s.listening ==>
            r.close.closing.Finished? && !r.connected && !r.connecting && r.will == FinishWill(s.will, s.disconnected))
  {
    var taken := Take(s, p);
    CloseKeepsCore(taken, multiset{});
    if p.ConnectPacket? {
    } else {
      assert Handle(taken, p) == RefreshKeepalive(NextBatch(taken, true));
    }
  }

  lemma HarmlessPacketKeepsOpen(s: State, p: Packet)
    requires Core(s) && !s.close.closed && s.connected && !Fails(p)
    ensures
      var r := Handle(Take(s, p), p);
      && Core(r) && !r.close.closed && r.connected && r.listening == s.listening && r.will == s.will
      && (r.disconnected <==> s.disconnected || p.DisconnectPacket?)
  {
    HandleKeepsCore(Take(s, p), p);
  }

  lemma HarmlessFirst(p: Packet, rest: seq<Packet>, listening: bool)
    requires !Fails(p)
    ensures HeardInTime([p] + rest, listening) <==> p.DisconnectPacket? || HeardInTime(rest, listening)
    ensures HeardLate([p] + rest, listening) <==> HeardLate(rest, listening)
  {
    var all, f := [p] + rest, FirstFailing(rest);
    assert all[1..] == rest && FirstFailing(all) == 1 + f;
    assert all[..f + 1] == [p] + rest[..f];
    assert f < |rest| ==> all[f + 2..] == rest[f + 1..];
  }

  lemma FailingFirst(p: Packet, rest: seq<Packet>, listening: bool)
    requires Fails(p)
    ensures HeardInTime([p] + rest, listening) <==> listening && DisconnectPacket in rest
    ensures HeardLate([p] + rest, listening) <==> !listening && HeardAgain(rest)
  {
    assert FirstFailing([p] + rest) == 0 && ([p] + rest)[1..] == rest;
  }

  /** Dispatch on an open, connected client. */
  lemma {:induction false} OpenDispatch(s: State, packets: seq<Packet>)
    requires Core(s) && !s.close.closed && s.connected
    ensures
      var r, inTime := DispatchAll(s, packets), HeardInTime(packets, s.listening);
      && (Disarmed(r) <==> s.disconnected || inTime)
      && (r.disconnected <==> s.disconnected || inTime || HeardLate(packets, s.listening))
    decreases packets
  {
    if packets == [] {
    } else {
      var p, rest, next := packets[0], packets[1..], Handle(Take(s, packets[0]), packets[0]);
      assert packets == [p] + rest;
      if Fails(p) {
        FailingFirst(p, rest, s.listening);
        FailingPacketCloses(s, p);
        if s.listening {
          ClosedDispatch(next, rest);
        } else {
          DeadDispatch(next, rest);
        }
      } else {
        HarmlessFirst(p, rest, s.listening);
        HarmlessPacketKeepsOpen(s, p);
        OpenDispatch(next, rest);
      }
    }
  }

  lemma EmptiedDisconnects(limit: nat, s: State)
    requires Inv(limit, s) && s.phase.EmptyingQueue?
    ensures
      var s', e := Step(limit, s, QueueEmptied(true)), QueueEmptied(true);
      && (Disarmed(s') <==> Disarmed(s) || DisconnectsInTime(s, e))
      && (s'.disconnected <==> s.disconnected || DisconnectsInTime(s, e) || DisconnectsLate(s, e))
  {
    var ended := s.(connecting := false, phase := Ended, connected := true);
    if s.inbox.queue.Queue? {
      OpenDispatch(ended, s.inbox.queue.packets);
    }
  }

  // ---------- What leaves all this alone ----------

  /** The client has no will, and had none when finish ran. */
  predicate Willless(w: WillState) {
    !w.pending && !w.current && !w.atFinish
  }

  /** Nobody is let in, no will is published, and none comes up. */
  predicate SameStanding(s: State, s': State) {
    && s'.authorized == s.authorized && s'.will.publishes == s.will.publishes
    && (Willless(s.will) ==> Willless(s'.will))
  }

  /** Nor is any DISCONNECT processed, and what finish has made of one stays. */
  predicate Same(s: State, s': State) {
    && SameStanding(s, s')
    && s'.disconnected == s.disconnected && (Disarmed(s') <==> Disarmed(s))
  }

  lemma FinishIsSame(s: State)
    requires s.close.closing.Unsubscribing?
    ensures Same(s, FinishStep(s))
  {}

  lemma CloseIsSame(s: State, callback: multiset<nat>)
    requires FinishOnce(s.close)
    ensures Same(s, CloseStep(s, callback)) && CloseStep(s, callback).close.closed
  {
    if s.close.closed {
    } else if s.listening {
    } else {
      FinishIsSame(FlagClosed(s, callback));
    }
  }

  lemma NextBatchIsSame(s: State, error: bool)
    requires FinishOnce(s.close)
    ensures Same(s, NextBatch(s, error)) && (error ==> NextBatch(s, error).close.closed)
  {
    if error {
      CloseIsSame(s, multiset{});
    }
  }

  lemma FailedSeriesIsSame(s: State)
    requires FinishOnce(s.close)
    ensures Same(s, EndSeries(s, true)) && EndSeries(s, true).close.closed
  {
    NextBatchIsSame(s.(connecting := false, phase := Ended), true);
  }

  /** An answer of storage touches none of these. */
  predicate SameWill(w: WillState, w': WillState) {
    && w'.pending == w.pending && w'.current == w.current && w'.publishes == w.publishes
    && w'.atFinish == w.atFinish && w'.disconnectedAtFinish == w.disconnectedAtFinish
  }

  lemma AppliedIsSameWill(w: WillState, ok: bool)
    requires w.ops != []
    ensures SameWill(w, Applied(w, ok)) && SameWill(w, PutNext(w, ok))
  {
    if ok {
    } else {
    }
  }

  lemma SameWillIsSame(s: State, s': State)
    requires SameWill(s.will, s'.will) && s'.close.closing == s.close.closing
    requires s'.disconnected == s.disconnected && s'.authorized == s.authorized
    ensures Same(s, s')
  {}

  lemma DeletedIsSame(s: State, ok: bool)
    requires s.will.ops != []
    ensures Same(s, AfterDelete(s, ok))
  {
    AppliedIsSameWill(s.will, ok);
    SameWillIsSame(s, s.(will := PutNext(s.will, ok), phase := PuttingWill));
    SameWillIsSame(s, RegisterAndConnack(s.(will := Applied(s.will, ok))));
  }

  lemma PutIsSame(s: State, ok: bool)
    requires FinishOnce(s.close) && s.will.ops != []
    ensures Same(s, AfterPut(s, ok))
  {
    var applied := s.(will := Applied(s.will, ok));
    AppliedIsSameWill(s.will, ok);
    SameWillIsSame(s, applied);
    if ok {
      SameWillIsSame(s, RegisterAndConnack(applied));
    } else {
      FailedSeriesIsSame(applied);
    }
  }

  lemma StorageIsSame(s: State, ok: bool)
    requires FinishOnce(s.close)
    ensures Same(s, StorageStep(s, ok))
  {
    if s.will.ops == [] {
    } else if s.will.ops[0] == StoreDel && s.phase.DeletingWill? {
      DeletedIsSame(s, ok);
    } else if s.will.ops[0] == StorePut && s.phase.PuttingWill? {
      PutIsSame(s, ok);
    } else {
      AppliedIsSameWill(s.will, ok);
      SameWillIsSame(s, s.(will := Applied(s.will, ok)));
    }
  }

  lemma RejectionIsSame(s: State, ok: bool)
    requires FinishOnce(s.close)
    ensures Same(s, RejectionStep(s, ok))
  {
    var sent := Rejected(s, ok);
    SameWillIsSame(s, sent);
    SameWillIsSame(s, sent.(connecting := false));
    CloseIsSame(sent, multiset{});
  }

  lemma ConnackIsSame(s: State, ok: bool)
    requires FinishOnce(s.close)
    ensures Same(s, ConnackStep(s, ok))
  {
    FailedSeriesIsSame(s);
    NextBatchIsSame(s.(connackSent := true, inbox := s.inbox.(paused := false), phase := EmptyingQueue), false);
  }

  lemma PreConnectIsSame(s: State, ok: bool, error: bool)
    requires FinishOnce(s.close)
    ensures Same(s, PreConnectStep(s, ok, error))
  {
    var refused := s.(connecting := false, phase := NoConnect);
    SameWillIsSame(s, s.(phase := InitScheduled));
    SameWillIsSame(s, refused);
    NextBatchIsSame(refused, error);
  }

  predicate MayMatter(e: Event) {
    e.PacketArrives? || e.InitRuns? || e.AuthAnswers? || e.WillAuthorised? || (e.QueueEmptied? && e.ok)
  }

  lemma FetchedIsSame(limit: nat, s: State, ok: bool)
    requires FinishOnce(s.close)
    ensures Same(s, Step(limit, s, SubsFetched(ok)))
  {
    if !s.phase.FetchingSubs? {
    } else if ok {
    } else {
      FailedSeriesIsSame(s);
    }
  }

  lemma RestoredIsSame(limit: nat, s: State, ok: bool)
    requires FinishOnce(s.close)
    ensures Same(s, Step(limit, s, SubsRestored(ok)))
  {
    if !s.phase.RestoringSubs? {
    } else if ok {
    } else {
      FailedSeriesIsSame(s);
    }
  }

  lemma EmptyingFailedIsSame(limit: nat, s: State)
    requires FinishOnce(s.close)
    ensures Same(s, Step(limit, s, QueueEmptied(false)))
  {
    FailedSeriesIsSame(s);
  }

  lemma SeriesStepIsSame(limit: nat, s: State, e: Event)
    requires FinishOnce(s.close) && OfSeries(e) && !MayMatter(e)
    ensures Same(s, Step(limit, s, e))
  {
    match e
    case PreConnectAnswers(ok, error) => PreConnectIsSame(s, ok, error);
    case RejectionWritten(ok) => RejectionIsSame(s, ok);
    case SubsFetched(ok) => FetchedIsSame(limit, s, ok);
    case SubsRestored(ok) => RestoredIsSame(limit, s, ok);
    case StorageAnswers(ok) => StorageIsSame(s, ok);
    case ConnackWritten(ok) => ConnackIsSame(s, ok);
    case QueueEmptied(_) => EmptyingFailedIsSame(limit, s);
  }

  lemma OtherStepIsSame(limit: nat, s: State, e: Event)
    requires FinishOnce(s.close) && !MayMatter(e)
    ensures Same(s, Step(limit, s, e))
  {
    if OfSeries(e) {
      SeriesStepIsSame(limit, s, e);
    } else {
      match e
      case BatchDone(error) => NextBatchIsSame(s, error);
      case CloseCalled(callback) => CloseIsSame(s, multiset{callback});
      case SocketEnds => CloseIsSame(s, multiset{});
      case ErrorEmitted => CloseIsSame(s, multiset{});
      case Unsubscribed => if s.close.closing.Unsubscribing? { FinishIsSame(s); }
      case SubscriptionsChange(_) =>
      case WillPublished =>
    }
  }

  lemma RefreshIsSame(s: State)
    ensures Same(s, RefreshKeepalive(s))
  {}

  /** A packet that is no DISCONNECT. */
  lemma HandleIsSame(s: State, p: Packet)
    requires FinishOnce(s.close) && !p.DisconnectPacket?
    ensures Same(s, Handle(s, p))
  {
    NextBatchIsSame(s, true);
    RefreshIsSame(s);
    RefreshIsSame(NextBatch(s, true));
  }

  lemma RoomIsSame(limit: nat, s: State, p: Packet)
    requires s.inbox.queue.Queue? && |s.inbox.queue.packets| < limit
    ensures Same(s, Enqueue(limit, s, p))
  {
    SameWillIsSame(s, Enqueue(limit, s, p));
  }

  lemma QueueingIsSame(limit: nat, s: State, p: Packet)
    requires FinishOnce(s.close)
    ensures Same(s, Enqueue(limit, s, p))
  {
    if s.inbox.queue.NoQueue? {
      SameWillIsSame(s, s.(crashed := true));
    } else if |s.inbox.queue.packets| < limit {
      RoomIsSame(limit, s, p);
    } else {
      CloseIsSame(s, multiset{});
    }
  }

  lemma DisconnectHandled(s: State)
    requires FinishOnce(s.close) && !s.close.closed
    ensures
      var s', heard := Handle(s, DisconnectPacket), s.connecting || s.connected;
      && SameStanding(s, s')
      && (Disarmed(s') <==> Disarmed(s) || heard)
      && (s'.disconnected <==> s.disconnected || heard)
  {
    if s.connecting || s.connected {
    } else {
      NextBatchIsSame(s, true);
    }
  }

  lemma ArrivalDisconnects(limit: nat, s: State, p: Packet)
    requires FinishOnce(s.close)
    ensures
      var s', e := Step(limit, s, PacketArrives(p)), PacketArrives(p);
      && (Disarmed(s') <==> Disarmed(s) || DisconnectsInTime(s, e))
      && (s'.disconnected <==> s.disconnected || DisconnectsInTime(s, e))
      && SameStanding(s, s')
  {
    var counted := CountPacket(s);
    if s.close.closed {
    } else if !Direct(s) {
      QueueingIsSame(limit, counted, p);
    } else if !p.DisconnectPacket? {
      HandleIsSame(counted, p);
    } else {
      DisconnectHandled(counted);
    }
  }

  lemma AuthDisconnectsNobody(s: State, ok: bool, keepalive: nat)
    ensures AuthStep(s, ok, keepalive).disconnected == s.disconnected
    ensures Disarmed(AuthStep(s, ok, keepalive)) == Disarmed(s)
  {}

  lemma InitDisconnectsNobody(s: State, refused: bool, hasWill: bool)
    ensures InitStep(s, refused, hasWill).disconnected == s.disconnected
    ensures Disarmed(InitStep(s, refused, hasWill)) == Disarmed(s)
  {}

  lemma WillAnswerDisconnectsNobody(s: State, ok: bool)
    ensures Disarmed(s.(will := WillAnswer(s.will, ok))) == Disarmed(s)
  {}

  lemma StepDisconnects(limit: nat, s: State, e: Event)
    requires Inv(limit, s)
    ensures
      var s' := Step(limit, s, e);
      && (Disarmed(s') <==> Disarmed(s) || DisconnectsInTime(s, e))
      && (s'.disconnected <==> s.disconnected || DisconnectsInTime(s, e) || DisconnectsLate(s, e))
  {
    match e
    case PacketArrives(p) => ArrivalDisconnects(limit, s, p);
    case QueueEmptied(ok) =>
      if !ok {
        OtherStepIsSame(limit, s, e);
      } else if s.phase.EmptyingQueue? {
        EmptiedDisconnects(limit, s);
      }
    case InitRuns(refused, hasWill) => InitDisconnectsNobody(s, refused, hasWill);
    case AuthAnswers(ok, keepalive) => AuthDisconnectsNobody(s, ok, keepalive);
    case WillAuthorised(ok) => WillAnswerDisconnectsNobody(s, ok);
    case _ => OtherStepIsSame(limit, s, e);
  }

  // ---------- The will after a DISCONNECT ----------

  /** A client counts as disconnected exactly if a DISCONNECT was processed; finish, once it has run, has seen that
      exactly if one was processed in time. */
  lemma DisconnectedIff(limit: nat, run: seq<Event>)
    ensures
      var s := After(limit, run);
      var inTime := exists k | 0 <= k < |run| :: Happens(DisconnectsInTime, limit, run, k);
      && (s.disconnected <==> inTime || exists k | 0 <= k < |run| :: Happens(DisconnectsLate, limit, run, k))
      && (s.close.closing.Finished? ==> (s.will.disconnectedAtFinish <==> inTime))
  {
    forall s, e | Inv(limit, s)
      ensures Disarmed(Step(limit, s, e)) <==> Disarmed(s) || DisconnectsInTime(s, e)
      ensures Step(limit, s, e).disconnected <==> s.disconnected || Disconnects(s, e)
    {
      StepDisconnects(limit, s, e);
    }
    LatchHistory(Disarmed, DisconnectsInTime, limit, run);
    LatchHistory((s: State) => s.disconnected, Disconnects, limit, run);
    forall k | 0 <= k < |run|
      ensures Happens(Disconnects, limit, run, k)
        <==> Happens(DisconnectsInTime, limit, run, k) || Happens(DisconnectsLate, limit, run, k)
    {}
    RunsKeepInv(limit, run);
  }

  predicate Disconnects(s: State, e: Event) {
    DisconnectsInTime(s, e) || DisconnectsLate(s, e)
  }

  /** A DISCONNECT that is processed before finish has run, one that arrives as well as one that waited for the end of
      the connect series: whatever happens afterwards, the will is never published. */
  lemma DisconnectSilencesWill(limit: nat, run: seq<Event>, k: nat)
    requires k < |run| && Happens(DisconnectsInTime, limit, run, k)
    ensures After(limit, run).will.publishes == 0
  {
    DisconnectedIff(limit, run);
    RunsKeepInv(limit, run);
  }
}
