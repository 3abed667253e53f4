/**
 The connect series told by its events: who is let in and who is turned away, what an open client
 owes to the answers it got, and what ends a connection (lib/handlers/connect.js, `handle` in
 lib/handlers/index.js, `enqueue` and `close` in lib/client.js).
 */
module Admission {
  import opened ConnectionHistory
  import opened Lifecycle

  // ---------- Authentication ----------

  /** authenticate lets an open client in. */
  predicate Admits(s: State, e: Event) {
    e.AuthAnswers? && e.ok && s.phase.Authenticating? && !s.close.closed
  }

  /** Or refuses it. */
  predicate TurnsAway(s: State, e: Event) {
    e.AuthAnswers? && !e.ok && s.phase.Authenticating? && !s.close.closed
  }

  lemma {:induction false} DispatchKeepsStanding(s: State, packets: seq<Packet>)
    requires Core(s) && DeadAfterFinish(s)
    ensures SameStanding(s, DispatchAll(s, packets))
    decreases packets
  {
    if packets == [] {
    } else {
      var taken := Take(s, packets[0]);
      HandleKeepsStanding(taken, packets[0]);
      HandleKeepsCore(taken, packets[0]);
      DispatchKeepsStanding(Handle(taken, packets[0]), packets[1..]);
    }
  }

  lemma HandleKeepsStanding(s: State, p: Packet)
    requires FinishOnce(s.close)
    ensures SameStanding(s, Handle(s, p))
  {
    if p.DisconnectPacket? && (s.connecting || s.connected) {
      NextBatchIsSame(s.(disconnected := true), false);
    } else if p.DisconnectPacket? {
      NextBatchIsSame(s, true);
    } else {
      HandleIsSame(s, p);
    }
  }

  lemma EmptiedKeepsStanding(limit: nat, s: State)
    requires Inv(limit, s)
    ensures SameStanding(s, Step(limit, s, QueueEmptied(true)))
  {
    if s.phase.EmptyingQueue? {
      var ended := s.(connecting := false, phase := Ended, connected := true);
      if s.inbox.queue.Queue? {
        DispatchKeepsStanding(ended, s.inbox.queue.packets);
      }
    }
  }

  /** CONNECT declares a will. */
  predicate DeclaresWill(s: State, e: Event) {
    e == InitRuns(false, true) && s.phase.InitScheduled?
  }

  /** authorizePublish agrees to the will of a client that finish has asked it about. */
  predicate AgreesToWill(s: State, e: Event) {
    e == WillAuthorised(true) && s.will.fate.Authorising?
  }

  lemma InitChangesStanding(s: State, refused: bool, hasWill: bool)
    ensures
      var s' := InitStep(s, refused, hasWill);
      && s'.authorized == s.authorized && s'.will.publishes == s.will.publishes
      && (Willless(s.will) && !DeclaresWill(s, InitRuns(refused, hasWill)) ==> Willless(s'.will))
  {}

  lemma AuthChangesStanding(s: State, ok: bool, keepalive: nat)
    ensures
      var s' := AuthStep(s, ok, keepalive);
      s'.will == s.will && (s'.authorized <==> s.authorized || Admits(s, AuthAnswers(ok, keepalive)))
  {}

  lemma AnswersChangeStanding(limit: nat, s: State, e: Event)
    requires e.InitRuns? || e.AuthAnswers? || e.WillAuthorised?
    ensures Step(limit, s, e).authorized <==> s.authorized || Admits(s, e)
    ensures Step(limit, s, e).will.publishes == s.will.publishes + if AgreesToWill(s, e) then 1 else 0
    ensures Willless(s.will) && !DeclaresWill(s, e) ==> Willless(Step(limit, s, e).will)
  {
    match e
    case InitRuns(refused, hasWill) => InitChangesStanding(s, refused, hasWill);
    case AuthAnswers(ok, keepalive) => AuthChangesStanding(s, ok, keepalive);
    case WillAuthorised(ok) =>
  }

  lemma StepChangesStanding(limit: nat, s: State, e: Event)
    requires Inv(limit, s)
    ensures Step(limit, s, e).authorized <==> s.authorized || Admits(s, e)
    ensures Step(limit, s, e).will.publishes == s.will.publishes + if AgreesToWill(s, e) then 1 else 0
    ensures Willless(s.will) && !DeclaresWill(s, e) ==> Willless(Step(limit, s, e).will)
  {
    if e.PacketArrives? {
      ArrivalDisconnects(limit, s, e.packet);
    } else if e.QueueEmptied? && e.ok {
      EmptiedKeepsStanding(limit, s);
    } else if e.InitRuns? || e.AuthAnswers? || e.WillAuthorised? {
      AnswersChangeStanding(limit, s, e);
    } else {
      OtherStepIsSame(limit, s, e);
    }
  }

  /** A client is authorised exactly if authenticate has let it in while it was open. */
  lemma AuthorizedIff(limit: nat, run: seq<Event>)
    ensures After(limit, run).authorized <==> exists k | 0 <= k < |run| :: Happens(Admits, limit, run, k)
  {
    forall s, e | Inv(limit, s) ensures Step(limit, s, e).authorized <==> s.authorized || Admits(s, e) {
      StepChangesStanding(limit, s, e);
    }
    LatchHistory((s: State) => s.authorized, Admits, limit, run);
  }

  /** The will is published, once, exactly if authorizePublish was asked about it and agreed; then finish had found a
      will, and no DISCONNECT was ever processed in time. */
  lemma WillPublishedIff(limit: nat, run: seq<Event>)
    ensures
      var w := After(limit, run).will;
      var agreed := exists k | 0 <= k < |run| :: Happens(AgreesToWill, limit, run, k);
      && w.publishes == (if agreed then 1 else 0)
      && (agreed ==> w.atFinish && forall k | 0 <= k < |run| :: !Happens(DisconnectsInTime, limit, run, k))
  {
    var published := (s: State) => s.will.publishes > 0;
    forall s, e | Inv(limit, s) ensures published(Step(limit, s, e)) <==> published(s) || AgreesToWill(s, e) {
      StepChangesStanding(limit, s, e);
    }
    LatchHistory(published, AgreesToWill, limit, run);
    RunsKeepInv(limit, run);
    DisconnectedIff(limit, run);
  }

  /** Without a CONNECT that declares one there is no will, and none is published. */
  lemma NoWillUnlessDeclared(limit: nat, run: seq<Event>)
    requires forall k | 0 <= k < |run| :: !Happens(DeclaresWill, limit, run, k)
    ensures Willless(After(limit, run).will) && After(limit, run).will.publishes == 0
  {
    var kind := (s: State, e: Event) => !DeclaresWill(s, e);
    forall k | 0 <= k < |run| ensures Happens(kind, limit, run, k) {
      assert !Happens(DeclaresWill, limit, run, k);
    }
    forall s, e | Inv(limit, s) && Willless(s.will) && kind(s, e) ensures Willless(Step(limit, s, e).will) {
      StepChangesStanding(limit, s, e);
    }
    assert run[..0] == [] && run[..|run|] == run;
    StepsKeep((s: State) => Willless(s.will), kind, limit, run, 0, |run|);
    RunsKeepInv(limit, run);
  }

  lemma CloseMovesNoSeries(s: State, callback: multiset<nat>)
    ensures CloseStep(s, callback).phase == s.phase
  {
    if s.close.closed {
    } else if s.listening {
    } else {
    }
  }

  lemma QueueingMovesNoSeries(limit: nat, s: State, p: Packet)
    ensures Enqueue(limit, s, p).phase == s.phase
  {
    if s.inbox.queue.NoQueue? {
    } else if |s.inbox.queue.packets| < limit {
    } else {
      CloseMovesNoSeries(s, multiset{});
    }
  }

  lemma ArrivalMovesNoSeries(limit: nat, s: State, p: Packet)
    requires Inv(limit, s)
    ensures
      var s' := Step(limit, s, PacketArrives(p));
      s'.phase == s.phase || s'.phase.PreConnecting?
  {
    var counted := CountPacket(s);
    if s.close.closed {
    } else if Direct(s) {
      HandleKeepsCore(counted, p);
    } else {
      QueueingMovesNoSeries(limit, counted, p);
    }
  }

  lemma DispatchEndsSeries(limit: nat, s: State)
    requires Inv(limit, s) && s.phase.Ended? && s.connected
    ensures
      var s' := Dequeue(s);
      s'.phase.Ended? || s'.phase.PreConnecting?
  {
    if s.inbox.queue.Queue? {
      DispatchKeepsCore(s, s.inbox.queue.packets);
    }
  }

  lemma EmptiedEndsSeries(limit: nat, s: State, ok: bool)
    requires Inv(limit, s) && s.phase.EmptyingQueue?
    ensures
      var s' := Step(limit, s, QueueEmptied(ok));
      s'.phase.Ended? || s'.phase.PreConnecting?
  {
    if ok {
      var ended := s.(connecting := false, phase := Ended, connected := true);
      DispatchEndsSeries(limit, ended);
      NextBatchMovesNoSeries(Dequeue(ended), false);
    } else {
      NextBatchMovesNoSeries(s.(connecting := false, phase := Ended), true);
    }
  }

  lemma NextBatchMovesNoSeries(s: State, error: bool)
    ensures NextBatch(s, error).phase == s.phase
  {
    if error {
      CloseMovesNoSeries(s, multiset{});
    }
  }

  lemma RefusalMovesNoSeries(s: State, ok: bool, error: bool)
    requires !PastAuthentication(s.phase)
    ensures !PastAuthentication(PreConnectStep(s, ok, error).phase)
  {
    NextBatchMovesNoSeries(s.(connecting := false, phase := NoConnect), error);
  }

  /** What the series answers after authentication finds nobody waiting before it. */
  lemma LaterAnswersAreIgnored(limit: nat, s: State, e: Event)
    requires !PastAuthentication(s.phase)
    requires e.SubsFetched? || e.SubsRestored? || e.StorageAnswers? || e.ConnackWritten? || e.QueueEmptied?
    ensures Step(limit, s, e).phase == s.phase
  {}

  lemma AuthPassesNobody(s: State, ok: bool, keepalive: nat)
    requires !PastAuthentication(s.phase) && !Admits(s, AuthAnswers(ok, keepalive))
    ensures !PastAuthentication(AuthStep(s, ok, keepalive).phase)
  {}

  lemma InitPassesNobody(s: State, refused: bool, hasWill: bool)
    requires !PastAuthentication(s.phase)
    ensures !PastAuthentication(InitStep(s, refused, hasWill).phase)
  {}

  lemma RejectionPassesNobody(limit: nat, s: State, ok: bool)
    requires !PastAuthentication(s.phase)
    ensures !PastAuthentication(Step(limit, s, RejectionWritten(ok)).phase)
  {
    RejectionEndsSeries(limit, s, ok);
  }

  lemma AnswerPassesNobody(limit: nat, s: State, e: Event)
    requires !PastAuthentication(s.phase) && OfSeries(e) && !Admits(s, e)
    ensures !PastAuthentication(Step(limit, s, e).phase)
  {
    match e
    case PreConnectAnswers(ok, error) => RefusalMovesNoSeries(s, ok, error);
    case RejectionWritten(ok) => RejectionPassesNobody(limit, s, ok);
    case InitRuns(refused, hasWill) => InitPassesNobody(s, refused, hasWill);
    case AuthAnswers(ok, keepalive) => AuthPassesNobody(s, ok, keepalive);
    case _ => LaterAnswersAreIgnored(limit, s, e);
  }

  /** Nothing but such an answer takes a client past authentication. */
  lemma OnlyAdmissionPasses(limit: nat, s: State, e: Event)
    requires Inv(limit, s) && !PastAuthentication(s.phase) && !Admits(s, e)
    ensures !PastAuthentication(Step(limit, s, e).phase)
  {
    if OfSeries(e) {
      AnswerPassesNobody(limit, s, e);
    } else {
      match e
      case PacketArrives(p) => ArrivalMovesNoSeries(limit, s, p);
      case BatchDone(error) => NextBatchMovesNoSeries(s, error);
      case CloseCalled(callback) => CloseMovesNoSeries(s, multiset{callback});
      case SocketEnds => CloseMovesNoSeries(s, multiset{});
      case ErrorEmitted => CloseMovesNoSeries(s, multiset{});
      case Unsubscribed =>
      case SubscriptionsChange(_) =>
      case WillAuthorised(_) =>
      case WillPublished =>
    }
  }

  /** The CONNACK with the error code, written or not, closes the client and ends the series. */
  lemma RejectionEndsSeries(limit: nat, s: State, ok: bool)
    ensures
      var s' := Step(limit, s, RejectionWritten(ok));
      if s.phase.RejectingVersion? || s.phase.RejectingAuth? then
        s'.close.closed && s'.phase.Ended? && s'.connackSent == (s.connackSent || ok)
      else s' == s
  {
    var sent := Rejected(s, ok);
    CloseMovesNoSeries(sent, multiset{});
    ClosesAndKeepsConnack(sent);
  }

  lemma ClosesAndKeepsConnack(s: State)
    ensures CloseStep(s, multiset{}).close.closed && CloseStep(s, multiset{}).connackSent == s.connackSent
  {
    if s.close.closed {
    } else if s.listening {
    } else {
    }
  }

  /** A CONNECT that is not acceptable is answered with an error code, and the client is closed by that answer. */
  lemma UnacceptableIsRejected(limit: nat, s: State, hasWill: bool, ok: bool)
    requires s.phase.InitScheduled?
    ensures
      var rejecting := Step(limit, s, InitRuns(true, hasWill));
      var s' := Step(limit, rejecting, RejectionWritten(ok));
      && rejecting == s.(phase := RejectingVersion)
      && s'.close.closed && s'.phase.Ended? && s'.connackSent == (s.connackSent || ok)
  {
    RejectionEndsSeries(limit, s.(phase := RejectingVersion), ok);
  }

  /** One packet less is being handled. */
  function Less(n: nat): (r: nat) {
    if n == 0 then 0 else n - 1
  }

  /** One that preConnect declines leaves the client free to send another; an error of preConnect closes it. */
  lemma DeclinedIsForgotten(limit: nat, s: State, ok: bool)
    requires s.phase.PreConnecting?
    ensures
      Step(limit, s, PreConnectAnswers(false, false))
      == s.(connecting := false, phase := NoConnect,
            inbox := s.inbox.(parsingBatch := if s.inbox.paused then s.inbox.parsingBatch
                                              else Less(s.inbox.parsingBatch)))
    ensures Step(limit, s, PreConnectAnswers(ok, true)).close.closed
    ensures Step(limit, s, PreConnectAnswers(ok, true)).phase.NoConnect?
  {
    var refused := s.(connecting := false, phase := NoConnect);
    ClosesAndKeepsConnack(refused);
    CloseMovesNoSeries(refused, multiset{});
  }

  /** authenticate that answers after close finds nothing to do; and so does the CONNACK of a refusal, except that the
      client is no longer connecting. */
  lemma LateAnswersChangeNothing(limit: nat, s: State, ok: bool, keepalive: nat)
    requires s.close.closed
    ensures s.phase.Authenticating? ==> Step(limit, s, AuthAnswers(ok, keepalive)) == s.(phase := Ended)
    ensures s.phase.RejectingAuth? ==>
              Step(limit, s, RejectionWritten(ok))
              == s.(connackSent := s.connackSent || ok, phase := Ended, connecting := false)
  {}

  /** A client that is turned away while open gets its CONNACK and is closed by it, and gets no further in the series
      before authenticate lets it in after all. */
  lemma TurnedAwayGetsNoFurther(limit: nat, run: seq<Event>, k: nat, j: nat)
    requires k < j <= |run| && Happens(TurnsAway, limit, run, k)
    requires forall i | k < i < j :: !Happens(Admits, limit, run, i)
    ensures After(limit, run[..k + 1]).phase.RejectingAuth?
    ensures !PastAuthentication(After(limit, run[..j]).phase)
    ensures
      var s := After(limit, run[..j]);
      s.phase.RejectingAuth? ==> forall ok :: Step(limit, s, RejectionWritten(ok)).close.closed
  {
    assert run[..k + 1][..k] == run[..k];
    var notAdmitted := (s: State, e: Event) => !Admits(s, e);
    forall i | k < i < j ensures Happens(notAdmitted, limit, run, i) {
      assert !Happens(Admits, limit, run, i);
    }
    forall s, e | Inv(limit, s) && !PastAuthentication(s.phase) && !Admits(s, e)
      ensures !PastAuthentication(Step(limit, s, e).phase)
    {
      OnlyAdmissionPasses(limit, s, e);
    }
    StepsKeep((s: State) => !PastAuthentication(s.phase), notAdmitted, limit, run, k + 1, j);
    forall ok ensures After(limit, run[..j]).phase.RejectingAuth?
                ==> Step(limit, After(limit, run[..j]), RejectionWritten(ok)).close.closed
    {
      RejectionEndsSeries(limit, After(limit, run[..j]), ok);
    }
  }

  // ---------- What closes a client ----------

  /** The event closes an open client. */
  predicate ClosesClient(limit: nat, s: State, e: Event) {
    match e
    case PacketArrives(p) =>
      if Direct(s) then (if s.connecting || s.connected then Fails(p) else !p.ConnectPacket?)
      else !s.close.closed && s.inbox.queue.Queue? && |s.inbox.queue.packets| >= limit
    case BatchDone(error) => error
    case CloseCalled(_) => true
    case SocketEnds => true
    case ErrorEmitted => true
    case PreConnectAnswers(_, error) => error && s.phase.PreConnecting?
    case RejectionWritten(_) => s.phase.RejectingVersion? || s.phase.RejectingAuth?
    case SubsFetched(ok) => !ok && s.phase.FetchingSubs?
    case SubsRestored(ok) => !ok && s.phase.RestoringSubs?
    case StorageAnswers(ok) => !ok && s.phase.PuttingWill? && s.will.ops != [] && s.will.ops[0] == StorePut
    case ConnackWritten(ok) => s.phase.WritingConnack? && !(ok && s.phase.writable)
    case QueueEmptied(ok) =>
      && s.phase.EmptyingQueue?
      && (!ok || (s.inbox.queue.Queue? && exists p | p in s.inbox.queue.packets :: Fails(p)))
    case _ => false
  }

  lemma CloseCloses(s: State, callback: multiset<nat>)
    ensures CloseStep(s, callback).close.closed
  {
    if s.close.closed {
    } else if s.listening {
    } else {
    }
  }

  lemma NextBatchCloses(s: State, error: bool)
    ensures NextBatch(s, error).close.closed <==> s.close.closed || error
  {
    if error {
      CloseCloses(s, multiset{});
    } else if s.inbox.paused || s.inbox.parsingBatch == 0 {
    } else {
    }
  }

  /** The handler of another packet, which may refresh the keepalive timer afterwards. */
  lemma OtherPacketHandled(s: State, fails: bool)
    requires s.connecting || s.connected
    ensures
      var r, done := Handle(s, OtherPacket(fails)), if fails then NextBatch(s, true) else s;
      r == done || r == done.(crashed := true)
  {}

  lemma ConnectCloses(s: State)
    ensures Handle(s, ConnectPacket).close.closed <==> s.close.closed || s.connecting || s.connected
  {
    NextBatchCloses(s, true);
  }

  lemma DisconnectClosesNobody(s: State)
    requires s.connecting || s.connected
    ensures Handle(s, DisconnectPacket).close == s.close
  {}

  lemma HandlingCloses(s: State, p: Packet)
    ensures
      Handle(s, p).close.closed
      <==> s.close.closed || if s.connecting || s.connected then Fails(p) else !p.ConnectPacket?
  {
    if p.ConnectPacket? {
      ConnectCloses(s);
    } else if !s.connecting && !s.connected {
      NextBatchCloses(s, true);
    } else if p.DisconnectPacket? {
      DisconnectClosesNobody(s);
    } else {
      NextBatchCloses(s, true);
      OtherPacketHandled(s, p.fails);
    }
  }

  lemma EnqueueCloses(limit: nat, s: State, p: Packet)
    ensures
      Enqueue(limit, s, p).close.closed
      <==> s.close.closed || (s.inbox.queue.Queue? && |s.inbox.queue.packets| >= limit)
  {
    if s.inbox.queue.NoQueue? {
    } else if |s.inbox.queue.packets| < limit {
    } else {
      CloseCloses(s, multiset{});
    }
  }

  lemma ArrivalCloses(limit: nat, s: State, p: Packet)
    ensures
      Step(limit, s, PacketArrives(p)).close.closed
      <==> s.close.closed || ClosesClient(limit, s, PacketArrives(p))
  {
    var counted := CountPacket(s);
    if s.close.closed {
    } else if Direct(s) {
      HandlingCloses(counted, p);
    } else {
      EnqueueCloses(limit, counted, p);
    }
  }

  lemma {:induction false} OpenDispatchCloses(s: State, packets: seq<Packet>)
    requires Core(s) && !s.close.closed && s.connected
    ensures DispatchAll(s, packets).close.closed <==> exists p | p in packets :: Fails(p)
    decreases packets
  {
    if packets == [] {
    } else {
      var p, rest, next := packets[0], packets[1..], Handle(Take(s, packets[0]), packets[0]);
      assert packets == [p] + rest;
      HandlingCloses(Take(s, p), p);
      if Fails(p) {
        HandleKeepsCore(Take(s, p), p);
        DispatchKeepsCore(next, rest);
        assert p in packets;
      } else {
        HarmlessPacketKeepsOpen(s, p);
        OpenDispatchCloses(next, rest);
      }
    }
  }

  lemma EmptiedCloses(limit: nat, s: State, ok: bool)
    requires Inv(limit, s) && s.phase.EmptyingQueue?
    ensures
      Step(limit, s, QueueEmptied(ok)).close.closed
      <==> s.close.closed || ClosesClient(limit, s, QueueEmptied(ok))
  {
    if ok {
      var ended := s.(connecting := false, phase := Ended, connected := true);
      if s.inbox.queue.Queue? {
        OpenDispatchCloses(ended, s.inbox.queue.packets);
      }
      NextBatchCloses(Dequeue(ended), false);
    } else {
      NextBatchCloses(s.(connecting := false, phase := Ended), true);
    }
  }

  lemma PutCloses(s: State, ok: bool)
    requires s.will.ops != []
    ensures AfterPut(s, ok).close.closed <==> s.close.closed || !ok
  {
    NextBatchCloses(s.(will := Applied(s.will, ok)).(connecting := false, phase := Ended), true);
  }

  lemma DeletedClosesNobody(s: State, ok: bool)
    requires s.will.ops != []
    ensures AfterDelete(s, ok).close == s.close
  {}

  lemma OtherStorageAnswer(s: State, ok: bool)
    requires s.will.ops != []
    requires !(s.will.ops[0] == StoreDel && s.phase.DeletingWill?)
    requires !(s.will.ops[0] == StorePut && s.phase.PuttingWill?)
    ensures StorageStep(s, ok) == s.(will := Applied(s.will, ok))
  {}

  lemma StorageCloses(s: State, ok: bool)
    ensures
      StorageStep(s, ok).close.closed
      <==> s.close.closed || (!ok && s.phase.PuttingWill? && s.will.ops != [] && s.will.ops[0] == StorePut)
  {
    if s.will.ops == [] {
    } else if s.will.ops[0] == StoreDel && s.phase.DeletingWill? {
      DeletedClosesNobody(s, ok);
    } else if s.will.ops[0] == StorePut && s.phase.PuttingWill? {
      PutCloses(s, ok);
    } else {
      OtherStorageAnswer(s, ok);
    }
  }

  lemma ConnackCloses(s: State, ok: bool)
    ensures
      ConnackStep(s, ok).close.closed <==> s.close.closed || (s.phase.WritingConnack? && !(ok && s.phase.writable))
  {
    NextBatchCloses(s.(connecting := false, phase := Ended), true);
    NextBatchCloses(s.(connackSent := true, inbox := s.inbox.(paused := false), phase := EmptyingQueue), false);
  }

  lemma FetchedCloses(limit: nat, s: State, ok: bool)
    ensures Step(limit, s, SubsFetched(ok)).close.closed <==> s.close.closed || (!ok && s.phase.FetchingSubs?)
  {
    NextBatchCloses(s.(connecting := false, phase := Ended), true);
  }

  lemma RestoredCloses(limit: nat, s: State, ok: bool)
    ensures Step(limit, s, SubsRestored(ok)).close.closed <==> s.close.closed || (!ok && s.phase.RestoringSubs?)
  {
    if !s.phase.RestoringSubs? {
    } else if ok {
    } else {
      NextBatchCloses(s.(connecting := false, phase := Ended), true);
    }
  }

  lemma InitClosesNobody(s: State, refused: bool, hasWill: bool)
    ensures InitStep(s, refused, hasWill).close == s.close
  {}

  lemma AuthClosesNobody(s: State, ok: bool, keepalive: nat)
    ensures AuthStep(s, ok, keepalive).close == s.close
  {}

  lemma PreConnectCloses(s: State, ok: bool, error: bool)
    ensures PreConnectStep(s, ok, error).close.closed <==> s.close.closed || (error && s.phase.PreConnecting?)
  {
    NextBatchCloses(s.(connecting := false, phase := NoConnect), error);
  }

  lemma AnswerCloses(limit: nat, s: State, e: Event)
    requires Inv(limit, s) && OfSeries(e)
    ensures Step(limit, s, e).close.closed <==> s.close.closed || ClosesClient(limit, s, e)
  {
    match e
    case PreConnectAnswers(ok, error) => PreConnectCloses(s, ok, error);
    case InitRuns(refused, hasWill) => InitClosesNobody(s, refused, hasWill);
    case AuthAnswers(ok, keepalive) => AuthClosesNobody(s, ok, keepalive);
    case RejectionWritten(ok) => RejectionEndsSeries(limit, s, ok);
    case SubsFetched(ok) => FetchedCloses(limit, s, ok);
    case SubsRestored(ok) => RestoredCloses(limit, s, ok);
    case StorageAnswers(ok) => StorageCloses(s, ok);
    case ConnackWritten(ok) => ConnackCloses(s, ok);
    case QueueEmptied(ok) => if s.phase.EmptyingQueue? { EmptiedCloses(limit, s, ok); }
  }

  lemma StepCloses(limit: nat, s: State, e: Event)
    requires Inv(limit, s)
    ensures Step(limit, s, e).close.closed <==> s.close.closed || ClosesClient(limit, s, e)
  {
    if OfSeries(e) {
      AnswerCloses(limit, s, e);
    } else {
      match e
      case PacketArrives(p) => ArrivalCloses(limit, s, p);
      case BatchDone(error) => NextBatchCloses(s, error);
      case CloseCalled(callback) => CloseCloses(s, multiset{callback});
      case SocketEnds => CloseCloses(s, multiset{});
      case ErrorEmitted => CloseCloses(s, multiset{});
      case _ =>
    }
  }

  /** A client is closed exactly if one of these events has closed it. */
  lemma ClosedIff(limit: nat, run: seq<Event>)
    ensures
      var closes := (s: State, e: Event) => ClosesClient(limit, s, e);
      After(limit, run).close.closed <==> exists k | 0 <= k < |run| :: Happens(closes, limit, run, k)
  {
    var closes := (s: State, e: Event) => ClosesClient(limit, s, e);
    forall s, e | Inv(limit, s) ensures Step(limit, s, e).close.closed <==> s.close.closed || closes(s, e) {
      StepCloses(limit, s, e);
    }
    LatchHistory((s: State) => s.close.closed, closes, limit, run);
  }

  /** A handler that has finished makes room for the next packet, unless authentication has paused the client; one that
      failed closes it either way. */
  lemma FinishedHandlerMakesRoom(limit: nat, s: State)
    ensures s.inbox.paused ==> Step(limit, s, BatchDone(false)) == s
    ensures !s.inbox.paused ==>
              Step(limit, s, BatchDone(false)).inbox == s.inbox.(parsingBatch := Less(s.inbox.parsingBatch))
    ensures Step(limit, s, BatchDone(true)).close.closed
  {
    CloseCloses(s, multiset{});
    if s.inbox.paused {
    } else if s.inbox.parsingBatch == 0 {
      assert s.inbox.(parsingBatch := 0) == s.inbox;
    } else {
    }
  }

  lemma AfterTwo(limit: nat, run: seq<Event>, e: Event, f: Event)
    ensures After(limit, run + [e]) == Step(limit, After(limit, run), e)
    ensures After(limit, run + [e] + [f]) == Step(limit, Step(limit, After(limit, run), e), f)
  {
    AfterSnoc(limit, run, e);
    AfterSnoc(limit, run + [e], f);
  }

  lemma CloseWaits(s: State, callback: multiset<nat>)
    requires !s.close.closed && s.close.finishes == 0
    ensures CloseStep(s, callback).close.finishes == if s.listening then 0 else 1
    ensures s.listening ==> CloseStep(s, callback).close.closing.Unsubscribing?
  {
    if s.listening {
    } else {
    }
  }

  lemma ClosedThenAnswered(limit: nat, s: State, subscribed: bool, callback: nat)
    requires !s.close.closed && s.close.finishes == 0
    ensures
      var closed := Step(limit, Step(limit, s, SubscriptionsChange(subscribed)), CloseCalled(callback));
      && closed.close.closed && closed.close.finishes == (if subscribed then 0 else 1)
      && (subscribed ==> Step(limit, closed, Unsubscribed).close.finishes == 1)
  {
    var changed := s.(listening := subscribed);
    CloseWaits(changed, multiset{callback});
    CloseCloses(changed, multiset{callback});
  }

  /** An open client that has subscriptions when it is closed finishes with the emitter's answer and not before; one
      that has none finishes at once. */
  lemma FinishWaitsForSubscriptions(limit: nat, run: seq<Event>, subscribed: bool, callback: nat)
    requires !After(limit, run).close.closed
    ensures
      var closed := run + [SubscriptionsChange(subscribed)] + [CloseCalled(callback)];
      && After(limit, closed).close.closed
      && After(limit, closed).close.finishes == (if subscribed then 0 else 1)
      && (subscribed ==> After(limit, closed + [Unsubscribed]).close.finishes == 1)
  {
    RunsKeepInv(limit, run);
    ClosedThenAnswered(limit, After(limit, run), subscribed, callback);
    AfterTwo(limit, run, SubscriptionsChange(subscribed), CloseCalled(callback));
    AfterSnoc(limit, run + [SubscriptionsChange(subscribed)] + [CloseCalled(callback)], Unsubscribed);
  }

  // ---------- Keepalive ----------

  predicate ArmsKeepalive(s: State, e: Event) {
    Admits(s, e) && e.keepalive > 0
  }

  /** Nothing else touches the keepalive timer of a client that is still open afterwards. */
  predicate KeepsKeepalive(s: State, s': State) {
    !s'.close.closed ==> s'.timers.keepalive == s.timers.keepalive && s'.timers.interval == s.timers.interval
  }

  lemma NextBatchKeepsKeepalive(s: State, error: bool)
    ensures KeepsKeepalive(s, NextBatch(s, error))
  {
    NextBatchCloses(s, error);
  }

  lemma HandleKeepsKeepalive(s: State, p: Packet)
    ensures KeepsKeepalive(s, Handle(s, p))
  {
    NextBatchKeepsKeepalive(s, true);
    NextBatchKeepsKeepalive(s.(disconnected := true), false);
    if p.OtherPacket? && (s.connecting || s.connected) {
      OtherPacketHandled(s, p.fails);
    }
  }

  lemma {:induction false} DispatchKeepsKeepalive(s: State, packets: seq<Packet>)
    requires Core(s) && DeadAfterFinish(s)
    ensures KeepsKeepalive(s, DispatchAll(s, packets))
    decreases packets
  {
    if packets == [] {
    } else {
      var taken := Take(s, packets[0]);
      HandleKeepsKeepalive(taken, packets[0]);
      HandleKeepsCore(taken, packets[0]);
      DispatchKeepsKeepalive(Handle(taken, packets[0]), packets[1..]);
      DispatchKeepsCore(Handle(taken, packets[0]), packets[1..]);
    }
  }

  lemma EnqueueKeepsKeepalive(limit: nat, s: State, p: Packet)
    ensures KeepsKeepalive(s, Enqueue(limit, s, p))
  {
    if s.inbox.queue.NoQueue? {
    } else if |s.inbox.queue.packets| < limit {
    } else {
      CloseCloses(s, multiset{});
    }
  }

  lemma ArrivalKeepsKeepalive(limit: nat, s: State, p: Packet)
    ensures KeepsKeepalive(s, Step(limit, s, PacketArrives(p)))
  {
    var counted := CountPacket(s);
    if s.close.closed {
    } else if Direct(s) {
      HandleKeepsKeepalive(counted, p);
    } else {
      EnqueueKeepsKeepalive(limit, counted, p);
    }
  }

  lemma EmptiedKeepsKeepalive(limit: nat, s: State, ok: bool)
    requires Inv(limit, s)
    ensures KeepsKeepalive(s, Step(limit, s, QueueEmptied(ok)))
  {
    if !s.phase.EmptyingQueue? {
    } else if ok {
      var ended := s.(connecting := false, phase := Ended, connected := true);
      if s.inbox.queue.Queue? {
        DispatchKeepsKeepalive(ended, s.inbox.queue.packets);
      }
      NextBatchKeepsKeepalive(Dequeue(ended), false);
    } else {
      NextBatchCloses(s.(connecting := false, phase := Ended), true);
    }
  }

  lemma ConnackKeepsKeepalive(s: State, ok: bool)
    ensures KeepsKeepalive(s, ConnackStep(s, ok))
  {
    ConnackCloses(s, ok);
    if s.phase.WritingConnack? && ok && s.phase.writable {
      NextBatchKeepsKeepalive(
        s.(connackSent := true, inbox := s.inbox.(paused := false), phase := EmptyingQueue), false);
    }
  }

  lemma PreConnectKeepsKeepalive(s: State, ok: bool, error: bool)
    ensures KeepsKeepalive(s, PreConnectStep(s, ok, error))
  {
    NextBatchKeepsKeepalive(s.(connecting := false, phase := NoConnect), error);
  }

  lemma InitKeepsTimers(s: State, refused: bool, hasWill: bool)
    ensures InitStep(s, refused, hasWill).timers == s.timers
  {}

  lemma AuthKeepsTimers(s: State, ok: bool, keepalive: nat)
    requires !ArmsKeepalive(s, AuthAnswers(ok, keepalive))
    ensures AuthStep(s, ok, keepalive).timers == s.timers
  {}

  lemma DeletedKeepsTimers(s: State, ok: bool)
    requires s.will.ops != []
    ensures AfterDelete(s, ok).timers == s.timers
  {}

  lemma PutKeepsKeepalive(s: State, ok: bool)
    requires s.will.ops != []
    ensures KeepsKeepalive(s, AfterPut(s, ok))
  {
    if ok {
    } else {
      PutCloses(s, ok);
    }
  }

  lemma StorageKeepsKeepalive(s: State, ok: bool)
    ensures KeepsKeepalive(s, StorageStep(s, ok))
  {
    if s.will.ops == [] {
    } else if s.will.ops[0] == StoreDel && s.phase.DeletingWill? {
      DeletedKeepsTimers(s, ok);
      DeletedClosesNobody(s, ok);
    } else if s.will.ops[0] == StorePut && s.phase.PuttingWill? {
      PutKeepsKeepalive(s, ok);
    } else {
      OtherStorageAnswer(s, ok);
    }
  }

  lemma SubsAnswersKeepKeepalive(limit: nat, s: State, ok: bool)
    ensures KeepsKeepalive(s, Step(limit, s, SubsFetched(ok))) && KeepsKeepalive(s, Step(limit, s, SubsRestored(ok)))
  {
    FetchedCloses(limit, s, ok);
    RestoredCloses(limit, s, ok);
  }

  lemma AnswerKeepsKeepalive(limit: nat, s: State, e: Event)
    requires Inv(limit, s) && OfSeries(e) && !ArmsKeepalive(s, e)
    ensures KeepsKeepalive(s, Step(limit, s, e))
  {
    match e
    case PreConnectAnswers(ok, error) => PreConnectKeepsKeepalive(s, ok, error);
    case InitRuns(refused, hasWill) => InitKeepsTimers(s, refused, hasWill);
    case AuthAnswers(ok, keepalive) => AuthKeepsTimers(s, ok, keepalive);
    case RejectionWritten(ok) => RejectionEndsSeries(limit, s, ok);
    case SubsFetched(ok) => SubsAnswersKeepKeepalive(limit, s, ok);
    case SubsRestored(ok) => SubsAnswersKeepKeepalive(limit, s, ok);
    case StorageAnswers(ok) => StorageKeepsKeepalive(s, ok);
    case ConnackWritten(ok) => ConnackKeepsKeepalive(s, ok);
    case QueueEmptied(ok) => EmptiedKeepsKeepalive(limit, s, ok);
  }

  lemma StepKeepsKeepalive(limit: nat, s: State, e: Event)
    requires Inv(limit, s) && !ArmsKeepalive(s, e)
    ensures KeepsKeepalive(s, Step(limit, s, e))
  {
    if OfSeries(e) {
      AnswerKeepsKeepalive(limit, s, e);
    } else {
      match e
      case PacketArrives(p) => ArrivalKeepsKeepalive(limit, s, p);
      case BatchDone(error) => NextBatchKeepsKeepalive(s, error);
      case CloseCalled(callback) => CloseCloses(s, multiset{callback});
      case SocketEnds => CloseCloses(s, multiset{});
      case ErrorEmitted => CloseCloses(s, multiset{});
      case _ =>
    }
  }

  /** What the timer is at step i it still is at the end, if nothing arms it and the client is open. */
  lemma KeepaliveStays(limit: nat, run: seq<Event>, i: nat, timers: Timers)
    requires i <= |run| && After(limit, run[..i]).timers == timers && !After(limit, run).close.closed
    requires forall k | i <= k < |run| :: !Happens(ArmsKeepalive, limit, run, k)
    ensures
      var t := After(limit, run).timers;
      t.keepalive == timers.keepalive && t.interval == timers.interval
  {
    var p := (s: State) =>
      s.close.closed || (s.timers.keepalive == timers.keepalive && s.timers.interval == timers.interval);
    var kind := (s: State, e: Event) => !ArmsKeepalive(s, e);
    forall k | i <= k < |run| ensures Happens(kind, limit, run, k) {
      assert !Happens(ArmsKeepalive, limit, run, k);
    }
    forall s, e | Inv(limit, s) && p(s) && kind(s, e) ensures p(Step(limit, s, e)) {
      StepKeepsKeepalive(limit, s, e);
      StepKeepsInv(limit, s, e);
    }
    StepsKeep(p, kind, limit, run, i, |run|);
    assert run[..|run|] == run;
  }

  lemma ArmedBy(limit: nat, s: State, e: Event)
    requires ArmsKeepalive(s, e)
    ensures Step(limit, s, e).timers == Timers(s.timers.connect, true, e.keepalive * 1500 + 1)
  {}

  lemma ArmedAt(limit: nat, run: seq<Event>, k: nat)
    requires k < |run| && Happens(ArmsKeepalive, limit, run, k)
    ensures
      var t := After(limit, run[..k + 1]).timers;
      t.keepalive && t.interval == run[k].keepalive * 1500 + 1
  {
    ArmedBy(limit, After(limit, run[..k]), run[k]);
    assert run[..k + 1][..k] == run[..k];
  }

  /** A client that was let in with a keepalive of k seconds and is still open has its timer armed with one and a half
      times k, in milliseconds, plus one. */
  lemma KeepaliveArmed(limit: nat, run: seq<Event>, k: nat)
    requires k < |run| && Happens(ArmsKeepalive, limit, run, k) && !After(limit, run).close.closed
    requires forall i | k < i < |run| :: !Happens(ArmsKeepalive, limit, run, i)
    ensures After(limit, run).timers.keepalive && After(limit, run).timers.interval == run[k].keepalive * 1500 + 1
  {
    ArmedAt(limit, run, k);
    KeepaliveStays(limit, run, k + 1, After(limit, run[..k + 1]).timers);
  }

  /** And without such an answer there is no keepalive. */
  lemma NoKeepaliveUnlessArmed(limit: nat, run: seq<Event>)
    requires forall i | 0 <= i < |run| :: !Happens(ArmsKeepalive, limit, run, i)
    ensures !After(limit, run).timers.keepalive && After(limit, run).timers.interval == 0
  {
    RunsKeepInv(limit, run);
    if !After(limit, run).close.closed {
      assert run[..0] == [];
      KeepaliveStays(limit, run, 0, Start().timers);
    }
  }

  // ---------- A connect series that succeeds ----------

  /** The answers up to and including the restored subscriptions. */
  function SeriesToWill(limit: nat, s: State, hasWill: bool, keepalive: nat): (r: State) {
    var started := Step(limit, Step(limit, s, PreConnectAnswers(true, false)), InitRuns(false, hasWill));
    Step(limit, Step(limit, Step(limit, started, AuthAnswers(true, keepalive)), SubsFetched(true)), SubsRestored(true))
  }

  /** The answers of storage about the old will and, if there is one, the new. */
  function SeriesStoresWill(limit: nat, s: State, hasWill: bool): (r: State) {
    var deleted := Step(limit, s, StorageAnswers(true));
    if hasWill then Step(limit, deleted, StorageAnswers(true)) else deleted
  }

  function SeriesToEnd(limit: nat, s: State): (r: State) {
    Step(limit, Step(limit, s, ConnackWritten(true)), QueueEmptied(true))
  }

  lemma SeriesReachesWill(limit: nat, s: State, hasWill: bool, keepalive: nat)
    requires s.phase.PreConnecting? && !s.close.closed && s.will.ops == []
    ensures
      SeriesToWill(limit, s, hasWill, keepalive)
      == s.(will := s.will.(pending := hasWill, current := hasWill, ops := [StoreDel]), phase := DeletingWill,
            timers := KeepaliveTimers(s.timers, keepalive), inbox := s.inbox.(paused := true), authorized := true)
  {
    SeriesReachesStoreWill(limit, s, hasWill, keepalive);
    assert [] + [StoreDel] == [StoreDel];
  }

  lemma OldWillDeleted(s: State)
    requires s.phase.DeletingWill? && s.will.ops == [StoreDel] && s.connecting
    ensures
      StorageStep(s, true)
      == if s.will.current then s.(will := s.will.(ops := [StorePut], stored := false), phase := PuttingWill)
         else s.(will := s.will.(ops := [], stored := false), phase := WritingConnack(true))
  {
    assert [StoreDel][1..] == [] && [] + [StorePut] == [StorePut];
  }

  lemma NewWillPut(s: State)
    requires s.phase.PuttingWill? && s.will.ops == [StorePut] && s.connecting
    ensures StorageStep(s, true) == s.(will := s.will.(ops := [], stored := true), phase := WritingConnack(true))
  {
    assert [StorePut][1..] == [];
  }

  lemma SeriesHasStoredWill(limit: nat, s: State)
    requires s.phase.DeletingWill? && s.will.ops == [StoreDel] && s.connecting
    ensures
      SeriesStoresWill(limit, s, s.will.current)
      == s.(will := s.will.(ops := [], stored := s.will.current), phase := WritingConnack(true))
  {
    OldWillDeleted(s);
    if s.will.current {
      NewWillPut(StorageStep(s, true));
    }
  }

  /** An undisturbed connect series: every hook and every storage call answers well. */
  function ConnectSeries(limit: nat, s: State, hasWill: bool, keepalive: nat): (r: State) {
    SeriesToEnd(limit, SeriesStoresWill(limit, SeriesToWill(limit, s, hasWill, keepalive), hasWill))
  }

  lemma SeriesEnds(limit: nat, s: State)
    requires s.phase == WritingConnack(true) && s.inbox.queue == Queue([])
    ensures
      SeriesToEnd(limit, s)
      == s.(connackSent := true, connecting := false, connected := true, phase := Ended,
            inbox := s.inbox.(queue := NoQueue, paused := false, parsingBatch := Less(Less(s.inbox.parsingBatch))))
  {
    var sent := Step(limit, s, ConnackWritten(true));
    assert sent == s.(connackSent := true, phase := EmptyingQueue,
                      inbox := s.inbox.(paused := false, parsingBatch := Less(s.inbox.parsingBatch)));
    var ended := sent.(connecting := false, phase := Ended, connected := true);
    assert Dequeue(ended) == ended.(inbox := ended.inbox.(queue := NoQueue));
  }

  /** It leaves the client connected, authorised and unpaused, with its keepalive timer armed and its will, if it has
      one, in persistence and in its keeping; nothing else has changed. */
  lemma ConnectSucceeds(limit: nat, s: State, hasWill: bool, keepalive: nat)
    requires s.phase.PreConnecting? && s.connecting && !s.close.closed && s.will.ops == []
    requires s.inbox.queue == Queue([])
    ensures
      ConnectSeries(limit, s, hasWill, keepalive)
      == s.(will := s.will.(pending := hasWill, current := hasWill, ops := [], stored := hasWill), phase := Ended,
            timers := if keepalive > 0 then Timers(s.timers.connect, true, keepalive * 1500 + 1) else s.timers,
            connecting := false, connected := true,
            connackSent := true, authorized := true,
            inbox := s.inbox.(queue := NoQueue, paused := false, parsingBatch := Less(Less(s.inbox.parsingBatch))))
  {
    SeriesReachesWill(limit, s, hasWill, keepalive);
    var reached := SeriesToWill(limit, s, hasWill, keepalive);
    SeriesHasStoredWill(limit, reached);
    assert reached.will.current == hasWill;
    SeriesEnds(limit, SeriesStoresWill(limit, reached, hasWill));
  }
}
