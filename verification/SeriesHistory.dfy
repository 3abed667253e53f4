/**
 More of a connection told by its events: the answers that CONNACK has behind it, in order, what
 was passed to close, what waited in the queue, what storage was told about the will, and when the
 client counts as connected (lib/handlers/connect.js, `enqueue`, `close` and `finish` in
 lib/client.js).
 */
module SeriesHistory {
  import Histories
  import opened Admission
  import opened ConnectionHistory
  import opened Lifecycle

  // ---------- What closing and dispatch leave alone ----------

  predicate SameRecords(s: State, s': State) {
    && s'.connackSent == s.connackSent && s'.inbox.queued == s.inbox.queued
    && s'.will.stored == s.will.stored && s'.will.rejected == s.will.rejected && s'.will.unhandled == s.will.unhandled
    && (s'.timers.connect ==> s.timers.connect)
  }

  /** No callback was passed to close. */
  predicate Quiet(s: State, s': State) {
    SameRecords(s, s') && s'.close.given == s.close.given
  }

  lemma FinishLeaves(s: State)
    requires s.close.closing.Unsubscribing?
    ensures Quiet(s, FinishStep(s))
  {}

  lemma FlagLeaves(s: State, callback: multiset<nat>)
    ensures SameRecords(s, FlagClosed(s, callback)) && FlagClosed(s, callback).close.given == s.close.given + callback
  {}

  lemma CloseLeaves(s: State, callback: multiset<nat>)
    ensures SameRecords(s, CloseStep(s, callback)) && CloseStep(s, callback).close.given == s.close.given + callback
  {
    if s.close.closed {
    } else if s.listening {
      FlagLeaves(s, callback);
    } else {
      FlagLeaves(s, callback);
      FinishLeaves(FlagClosed(s, callback));
    }
  }

  lemma CloseIsQuiet(s: State)
    ensures Quiet(s, CloseStep(s, multiset{}))
  {
    CloseLeaves(s, multiset{});
    assert s.close.given + multiset{} == s.close.given;
  }

  lemma NextBatchLeaves(s: State, error: bool)
    ensures Quiet(s, NextBatch(s, error))
  {
    if error {
      CloseIsQuiet(s);
    } else if s.inbox.paused || s.inbox.parsingBatch == 0 {
    } else {
    }
  }

  lemma DisconnectLeaves(s: State)
    ensures Quiet(s, Handle(s, DisconnectPacket))
  {
    NextBatchLeaves(s, true);
    NextBatchLeaves(s.(disconnected := true), false);
  }

  lemma HandleLeaves(s: State, p: Packet)
    ensures Quiet(s, Handle(s, p))
  {
    NextBatchLeaves(s, true);
    match p
    case ConnectPacket =>
    case DisconnectPacket => DisconnectLeaves(s);
    case OtherPacket(fails) => if s.connecting || s.connected { OtherPacketHandled(s, fails); }
  }

  lemma {:induction false} DispatchLeaves(s: State, packets: seq<Packet>)
    ensures Quiet(s, DispatchAll(s, packets))
    decreases packets
  {
    if packets == [] {
    } else {
      var taken := Take(s, packets[0]);
      HandleLeaves(taken, packets[0]);
      DispatchLeaves(Handle(taken, packets[0]), packets[1..]);
    }
  }

  lemma EndSeriesLeaves(s: State, error: bool)
    ensures Quiet(s, EndSeries(s, error))
  {
    if error {
      NextBatchLeaves(s.(connecting := false, phase := Ended), true);
    } else {
      var ended := s.(connecting := false, phase := Ended, connected := true);
      if ended.inbox.queue.Queue? {
        DispatchLeaves(ended, ended.inbox.queue.packets);
      }
      NextBatchLeaves(Dequeue(ended), false);
    }
  }

  // ---------- What is on record ----------

  /** A CONNACK goes out, with or without an error code. */
  predicate SendsConnack(s: State, e: Event) {
    || (e == ConnackWritten(true) && s.phase == WritingConnack(true))
    || (e == RejectionWritten(true) && (s.phase.RejectingVersion? || s.phase.RejectingAuth?))
  }

  /** The packet that arrives has to wait for CONNACK, and there is room. */
  predicate Waits(limit: nat, s: State, e: Event) {
    && e.PacketArrives? && !s.close.closed && !Direct(s)
    && s.inbox.queue.Queue? && |s.inbox.queue.packets| < limit
  }

  function PassedBy(e: Event): (callbacks: multiset<nat>) {
    if e.CloseCalled? then multiset{e.callback} else multiset{}
  }

  /** Storage answers the oldest call about the will. */
  predicate StorageTells(s: State, e: Event, ok: bool) {
    e == StorageAnswers(ok) && s.will.ops != []
  }

  /** The step changes the records exactly like that. */
  predicate Recorded(limit: nat, s: State, e: Event, s': State) {
    && (s'.connackSent <==> s.connackSent || SendsConnack(s, e))
    && s'.inbox.queued == s.inbox.queued + (if Waits(limit, s, e) then [e.packet] else [])
    && s'.close.given == s.close.given + PassedBy(e)
    && s'.will.stored == (if StorageTells(s, e, true) then s.will.ops[0].StorePut? else s.will.stored)
    && (s'.will.rejected <==> s.will.rejected || StorageTells(s, e, false))
    && s'.will.unhandled
       == s.will.unhandled + (if StorageTells(s, e, false) && s.will.ops[0].StoreDel? then 1 else 0)
    && (s'.timers.connect ==> s.timers.connect)
  }

  lemma QuietIsRecorded(limit: nat, s: State, e: Event, s': State)
    requires Quiet(s, s') && !e.CloseCalled? && !e.StorageAnswers?
    requires !SendsConnack(s, e) && !Waits(limit, s, e)
    ensures Recorded(limit, s, e, s')
  {}

  lemma RoomIsRecorded(limit: nat, s: State, p: Packet)
    requires Waits(limit, s, PacketArrives(p))
    ensures Recorded(limit, s, PacketArrives(p), Enqueue(limit, CountPacket(s), p))
  {}

  lemma OverflowIsRecorded(limit: nat, s: State, p: Packet)
    requires !s.close.closed && !Direct(s) && !Waits(limit, s, PacketArrives(p))
    ensures Recorded(limit, s, PacketArrives(p), CloseStep(CountPacket(s), multiset{}))
  {
    CloseIsQuiet(CountPacket(s));
    QuietIsRecorded(limit, s, PacketArrives(p), CloseStep(CountPacket(s), multiset{}));
  }

  lemma QueueingRecorded(limit: nat, s: State, p: Packet)
    requires !s.close.closed && !Direct(s)
    ensures Recorded(limit, s, PacketArrives(p), Enqueue(limit, CountPacket(s), p))
  {
    var counted := CountPacket(s);
    if s.inbox.queue.NoQueue? {
      QuietIsRecorded(limit, s, PacketArrives(p), counted.(crashed := true));
    } else if |s.inbox.queue.packets| < limit {
      RoomIsRecorded(limit, s, p);
    } else {
      OverflowIsRecorded(limit, s, p);
    }
  }

  lemma ArrivalRecorded(limit: nat, s: State, p: Packet)
    ensures Recorded(limit, s, PacketArrives(p), Step(limit, s, PacketArrives(p)))
  {
    var counted := CountPacket(s);
    if s.close.closed {
      QuietIsRecorded(limit, s, PacketArrives(p), s);
    } else if Direct(s) {
      HandleLeaves(counted, p);
      QuietIsRecorded(limit, s, PacketArrives(p), Handle(counted, p));
    } else {
      QueueingRecorded(limit, s, p);
    }
  }

  /** The oldest call has been answered. */
  predicate TookAnswer(w: WillState, ok: bool, w': WillState)
    requires w.ops != []
  {
    && w'.stored == (if ok then w.ops[0].StorePut? else w.stored)
    && (w'.rejected <==> w.rejected || !ok)
    && w'.unhandled == w.unhandled + if !ok && w.ops[0].StoreDel? then 1 else 0
  }

  lemma AppliedTookAnswer(w: WillState, ok: bool)
    requires w.ops != []
    ensures TookAnswer(w, ok, Applied(w, ok)) && TookAnswer(w, ok, PutNext(w, ok))
  {
    if ok {
    } else {
    }
  }

  lemma TookAnswerIsRecorded(limit: nat, s: State, ok: bool, s': State)
    requires s.will.ops != [] && TookAnswer(s.will, ok, s'.will)
    requires s'.connackSent == s.connackSent && s'.inbox.queued == s.inbox.queued && s'.close.given == s.close.given
    requires s'.timers.connect ==> s.timers.connect
    ensures Recorded(limit, s, StorageAnswers(ok), s')
  {}

  lemma DeletedThenPut(limit: nat, s: State, ok: bool)
    requires s.will.ops != [] && s.will.current
    ensures Recorded(limit, s, StorageAnswers(ok), AfterDelete(s, ok))
  {
    AppliedTookAnswer(s.will, ok);
    TookAnswerIsRecorded(limit, s, ok, s.(will := PutNext(s.will, ok), phase := PuttingWill));
  }

  lemma DeletedRecorded(limit: nat, s: State, ok: bool)
    requires s.will.ops != []
    ensures Recorded(limit, s, StorageAnswers(ok), AfterDelete(s, ok))
  {
    if s.will.current {
      DeletedThenPut(limit, s, ok);
    } else {
      AppliedTookAnswer(s.will, ok);
      TookAnswerIsRecorded(limit, s, ok, RegisterAndConnack(s.(will := Applied(s.will, ok))));
    }
  }

  lemma PutRecorded(limit: nat, s: State, ok: bool)
    requires s.will.ops != []
    ensures Recorded(limit, s, StorageAnswers(ok), AfterPut(s, ok))
  {
    var applied := s.(will := Applied(s.will, ok));
    AppliedTookAnswer(s.will, ok);
    if ok {
      TookAnswerIsRecorded(limit, s, ok, RegisterAndConnack(applied));
    } else {
      EndSeriesLeaves(applied, true);
      TookAnswerIsRecorded(limit, s, ok, EndSeries(applied, true));
    }
  }

  lemma NothingToAnswer(limit: nat, s: State, ok: bool)
    requires s.will.ops == []
    ensures Recorded(limit, s, StorageAnswers(ok), s)
  {}

  lemma StorageRecorded(limit: nat, s: State, ok: bool)
    ensures Recorded(limit, s, StorageAnswers(ok), StorageStep(s, ok))
  {
    if s.will.ops == [] {
      NothingToAnswer(limit, s, ok);
    } else if s.will.ops[0] == StoreDel && s.phase.DeletingWill? {
      DeletedRecorded(limit, s, ok);
    } else if s.will.ops[0] == StorePut && s.phase.PuttingWill? {
      PutRecorded(limit, s, ok);
    } else {
      AppliedTookAnswer(s.will, ok);
      TookAnswerIsRecorded(limit, s, ok, s.(will := Applied(s.will, ok)));
    }
  }

  lemma ConnackRecorded(limit: nat, s: State, ok: bool)
    ensures Recorded(limit, s, ConnackWritten(ok), ConnackStep(s, ok))
  {
    if s.phase.WritingConnack? {
      if ok && s.phase.writable {
        NextBatchLeaves(s.(connackSent := true, inbox := s.inbox.(paused := false), phase := EmptyingQueue), false);
      } else {
        EndSeriesLeaves(s, true);
      }
    }
  }

  lemma RejectedRecorded(limit: nat, s: State, ok: bool, s': State)
    requires (s.phase.RejectingVersion? || s.phase.RejectingAuth?) && Quiet(Rejected(s, ok), s')
    ensures Recorded(limit, s, RejectionWritten(ok), s')
  {}

  lemma VersionRejectionRecorded(limit: nat, s: State, ok: bool)
    requires s.phase.RejectingVersion?
    ensures Recorded(limit, s, RejectionWritten(ok), RejectionStep(s, ok))
  {
    NextBatchLeaves(Rejected(s, ok), true);
    RejectedRecorded(limit, s, ok, NextBatch(Rejected(s, ok), true));
  }

  lemma AuthRejectionRecorded(limit: nat, s: State, ok: bool)
    requires s.phase.RejectingAuth?
    ensures Recorded(limit, s, RejectionWritten(ok), RejectionStep(s, ok))
  {
    var sent := Rejected(s, ok);
    if s.close.closed {
      RejectedRecorded(limit, s, ok, sent.(connecting := false));
    } else {
      CloseIsQuiet(sent);
      RejectedRecorded(limit, s, ok, CloseStep(sent, multiset{}));
    }
  }

  lemma RejectionRecorded(limit: nat, s: State, ok: bool)
    ensures Recorded(limit, s, RejectionWritten(ok), RejectionStep(s, ok))
  {
    if s.phase.RejectingVersion? {
      VersionRejectionRecorded(limit, s, ok);
    } else if s.phase.RejectingAuth? {
      AuthRejectionRecorded(limit, s, ok);
    } else {
      QuietIsRecorded(limit, s, RejectionWritten(ok), s);
    }
  }

  lemma PreConnectLeaves(s: State, ok: bool, error: bool)
    ensures Quiet(s, PreConnectStep(s, ok, error))
  {
    NextBatchLeaves(s.(connecting := false, phase := NoConnect), error);
  }

  lemma InitLeaves(s: State, refused: bool, hasWill: bool)
    ensures Quiet(s, InitStep(s, refused, hasWill))
  {}

  lemma AuthKeepsInbox(s: State, ok: bool, keepalive: nat)
    ensures AuthStep(s, ok, keepalive).inbox == s.inbox && AuthStep(s, ok, keepalive).connackSent == s.connackSent
  {}

  lemma AuthKeepsConnectTimer(s: State, ok: bool, keepalive: nat)
    ensures AuthStep(s, ok, keepalive).timers.connect == s.timers.connect
  {}

  lemma AuthLeaves(s: State, ok: bool, keepalive: nat)
    ensures Quiet(s, AuthStep(s, ok, keepalive))
  {
    AuthChangesStanding(s, ok, keepalive);
    AuthClosesNobody(s, ok, keepalive);
    AuthKeepsInbox(s, ok, keepalive);
    AuthKeepsConnectTimer(s, ok, keepalive);
  }

  lemma FetchedLeaves(limit: nat, s: State, ok: bool)
    ensures Quiet(s, Step(limit, s, SubsFetched(ok)))
  {
    if s.phase.FetchingSubs? && !ok {
      EndSeriesLeaves(s, true);
    }
  }

  lemma RestoredLeaves(limit: nat, s: State, ok: bool)
    ensures Quiet(s, Step(limit, s, SubsRestored(ok)))
  {
    if s.phase.RestoringSubs? && !ok {
      EndSeriesLeaves(s, true);
    }
  }

  lemma AnswerLeaves(limit: nat, s: State, e: Event)
    requires OfSeries(e) && !e.StorageAnswers? && !e.ConnackWritten? && !e.RejectionWritten?
    ensures Quiet(s, Step(limit, s, e))
  {
    match e
    case PreConnectAnswers(ok, error) => PreConnectLeaves(s, ok, error);
    case InitRuns(refused, hasWill) => InitLeaves(s, refused, hasWill);
    case AuthAnswers(ok, keepalive) => AuthLeaves(s, ok, keepalive);
    case SubsFetched(ok) => FetchedLeaves(limit, s, ok);
    case SubsRestored(ok) => RestoredLeaves(limit, s, ok);
    case QueueEmptied(ok) => EndSeriesLeaves(s, !ok);
  }

  lemma GivenIsRecorded(limit: nat, s: State, callback: nat, s': State)
    requires SameRecords(s, s') && s'.close.given == s.close.given + multiset{callback}
    ensures Recorded(limit, s, CloseCalled(callback), s')
  {}

  lemma CloseRecorded(limit: nat, s: State, callback: nat)
    ensures Recorded(limit, s, CloseCalled(callback), CloseStep(s, multiset{callback}))
  {
    CloseLeaves(s, multiset{callback});
    GivenIsRecorded(limit, s, callback, CloseStep(s, multiset{callback}));
  }

  lemma OtherLeaves(limit: nat, s: State, e: Event)
    requires !OfSeries(e) && !e.PacketArrives? && !e.CloseCalled?
    ensures Quiet(s, Step(limit, s, e))
  {
    match e
    case BatchDone(error) => NextBatchLeaves(s, error);
    case SocketEnds => CloseIsQuiet(s);
    case ErrorEmitted => CloseIsQuiet(s);
    case Unsubscribed => if s.close.closing.Unsubscribing? { FinishLeaves(s); }
    case SubscriptionsChange(_) =>
    case WillAuthorised(_) =>
    case WillPublished =>
  }

  lemma AnswerRecorded(limit: nat, s: State, e: Event)
    requires OfSeries(e)
    ensures Recorded(limit, s, e, Step(limit, s, e))
  {
    match e
    case StorageAnswers(ok) => StorageRecorded(limit, s, ok);
    case ConnackWritten(ok) => ConnackRecorded(limit, s, ok);
    case RejectionWritten(ok) => RejectionRecorded(limit, s, ok);
    case _ =>
      AnswerLeaves(limit, s, e);
      QuietIsRecorded(limit, s, e, Step(limit, s, e));
  }

  lemma StepRecorded(limit: nat, s: State, e: Event)
    ensures Recorded(limit, s, e, Step(limit, s, e))
  {
    if OfSeries(e) {
      AnswerRecorded(limit, s, e);
    } else if e.PacketArrives? {
      ArrivalRecorded(limit, s, e.packet);
    } else if e.CloseCalled? {
      CloseRecorded(limit, s, e.callback);
    } else {
      OtherLeaves(limit, s, e);
      QuietIsRecorded(limit, s, e, Step(limit, s, e));
    }
  }

  /** At every step of every run the records change like that: CONNACK counts as sent when one was written, the queue's
      record grows by the packets that have to wait, the callbacks given are those passed to close, and the answers of
      storage about the will are taken in the order of the calls, a rejected delWill as a rejection that nobody
      catches. The connect timer is never armed again. */
  lemma EveryStepIsRecorded(limit: nat, run: seq<Event>, k: nat)
    requires k < |run|
    ensures Recorded(limit, After(limit, run[..k]), run[k], After(limit, run[..k + 1]))
  {
    assert run[..k + 1][..k] == run[..k];
    StepRecorded(limit, After(limit, run[..k]), run[k]);
  }

  lemma ConnectStopsTimer(limit: nat, s: State)
    requires Direct(s) && !s.connecting && !s.connected
    ensures !Step(limit, s, PacketArrives(ConnectPacket)).timers.connect
  {}

  /** A CONNECT that is accepted stops the connect timer for good. */
  lemma ConnectTimerStops(limit: nat, run: seq<Event>, k: nat)
    requires k < |run| && run[k] == PacketArrives(ConnectPacket) && Direct(After(limit, run[..k]))
    requires !After(limit, run[..k]).connecting && !After(limit, run[..k]).connected
    ensures !After(limit, run).timers.connect
  {
    var stopped, any := (s: State) => !s.timers.connect, (s: State, e: Event) => true;
    ConnectStopsTimer(limit, After(limit, run[..k]));
    assert run[..k + 1][..k] == run[..k] && run[..|run|] == run;
    forall i | k + 1 <= i < |run| ensures Happens(any, limit, run, i) {}
    forall s, e | Inv(limit, s) && stopped(s) && any(s, e) ensures stopped(Step(limit, s, e)) {
      StepRecorded(limit, s, e);
    }
    StepsKeep(stopped, any, limit, run, k + 1, |run|);
  }

  function Passed(run: seq<Event>): (callbacks: multiset<nat>) {
    if run == [] then multiset{} else Passed(run[..|run| - 1]) + PassedBy(run[|run| - 1])
  }

  /** No callback is forgotten: those given are, over the whole run, the ones passed to close, and once finish has run
      all of them have been called. */
  lemma {:induction false} NoCallbackIsForgotten(limit: nat, run: seq<Event>)
    ensures After(limit, run).close.given == Passed(run)
    ensures After(limit, run).close.finishes == 1 ==> After(limit, run).close.called == Passed(run)
  {
    CloseIsOneShot(limit, run);
    if run == [] {
    } else {
      var n := |run| - 1;
      NoCallbackIsForgotten(limit, run[..n]);
      EveryStepIsRecorded(limit, run, n);
      assert run[..n + 1] == run;
    }
  }

  // ---------- The answers behind CONNACK ----------

  /** The event takes the series to this phase. */
  predicate Brings(s: State, e: Event, phase: Phase) {
    match phase
    case NoConnect => e.PreConnectAnswers? && s.phase.PreConnecting? && !(e.ok && !e.error)
    case PreConnecting => TakesConnect(s, e)
    case InitScheduled => e == PreConnectAnswers(true, false) && s.phase.PreConnecting?
    case RejectingVersion => e.InitRuns? && e.refused && s.phase.InitScheduled?
    case Authenticating => e.InitRuns? && !e.refused && s.phase.InitScheduled?
    case RejectingAuth => TurnsAway(s, e)
    case FetchingSubs => Admits(s, e)
    case RestoringSubs => e == SubsFetched(true) && s.phase.FetchingSubs?
    case DeletingWill => e == SubsRestored(true) && s.phase.RestoringSubs?
    case PuttingWill => e.StorageAnswers? && s.phase.DeletingWill? && s.will.current
    case WritingConnack(_) =>
      (e.StorageAnswers? && s.phase.DeletingWill? && !s.will.current)
      || (e == StorageAnswers(true) && s.phase.PuttingWill?)
    case EmptyingQueue => e == ConnackWritten(true) && s.phase == WritingConnack(true)
    case Ended => EndsSeries(s, e)
  }

  /** The series is over, or given up because the client was closed while authenticate was asked. */
  predicate EndsSeries(s: State, e: Event) {
    match e
    case AuthAnswers(_, _) => s.phase.Authenticating? && s.close.closed
    case RejectionWritten(_) => s.phase.RejectingVersion? || s.phase.RejectingAuth?
    case SubsFetched(ok) => !ok && s.phase.FetchingSubs?
    case SubsRestored(ok) => !ok && s.phase.RestoringSubs?
    case StorageAnswers(ok) => !ok && s.phase.PuttingWill?
    case ConnackWritten(ok) => s.phase.WritingConnack? && !(ok && s.phase.writable)
    case QueueEmptied(_) => s.phase.EmptyingQueue?
    case _ => false
  }

  /** A CONNECT may be taken: as a packet that arrives, or as one that waited. */
  predicate TakesConnect(s: State, e: Event) {
    || (e == PacketArrives(ConnectPacket) && Direct(s) && !s.connecting && !s.connected)
    || (e == QueueEmptied(true) && s.phase.EmptyingQueue?)
  }

  lemma ArrivalBrings(limit: nat, s: State, p: Packet)
    requires Inv(limit, s)
    ensures
      var s', e := Step(limit, s, PacketArrives(p)), PacketArrives(p);
      s'.phase == s.phase || Brings(s, e, s'.phase)
  {
    var counted := CountPacket(s);
    if s.close.closed {
    } else if !Direct(s) {
      QueueingMovesNoSeries(limit, counted, p);
    } else if p.ConnectPacket? {
      NextBatchMovesNoSeries(counted, true);
    } else {
      OtherPacketsMoveNoSeries(counted, p);
    }
  }

  lemma DisconnectMovesNoSeries(s: State)
    requires s.connecting || s.connected
    ensures Handle(s, DisconnectPacket).phase == s.phase
  {}

  lemma OtherPacketsMoveNoSeries(s: State, p: Packet)
    requires !p.ConnectPacket?
    ensures Handle(s, p).phase == s.phase
  {
    NextBatchMovesNoSeries(s, true);
    if !s.connecting && !s.connected {
    } else if p.DisconnectPacket? {
      DisconnectMovesNoSeries(s);
    } else {
      OtherPacketHandled(s, p.fails);
    }
  }

  lemma FailedSeriesEnds(s: State)
    ensures EndSeries(s, true).phase.Ended?
  {
    NextBatchMovesNoSeries(s.(connecting := false, phase := Ended), true);
  }

  lemma DeletedBrings(s: State, ok: bool)
    requires s.will.ops != []
    ensures if s.will.current then AfterDelete(s, ok).phase.PuttingWill? else AfterDelete(s, ok).phase.WritingConnack?
  {}

  lemma PutBrings(s: State, ok: bool)
    requires s.will.ops != []
    ensures if ok then AfterPut(s, ok).phase.WritingConnack? else AfterPut(s, ok).phase.Ended?
  {
    FailedSeriesEnds(s.(will := Applied(s.will, ok)));
  }

  lemma StorageBrings(s: State, ok: bool)
    ensures
      var s' := StorageStep(s, ok);
      s'.phase == s.phase || Brings(s, StorageAnswers(ok), s'.phase)
  {
    if s.will.ops == [] {
    } else if s.will.ops[0] == StoreDel && s.phase.DeletingWill? {
      DeletedBrings(s, ok);
    } else if s.will.ops[0] == StorePut && s.phase.PuttingWill? {
      PutBrings(s, ok);
    } else {
      assert StorageStep(s, ok) == s.(will := Applied(s.will, ok));
    }
  }

  lemma ConnackBrings(s: State, ok: bool)
    ensures
      var s' := ConnackStep(s, ok);
      s'.phase == s.phase || Brings(s, ConnackWritten(ok), s'.phase)
  {
    FailedSeriesEnds(s);
    NextBatchMovesNoSeries(s.(connackSent := true, inbox := s.inbox.(paused := false), phase := EmptyingQueue), false);
  }

  lemma SubsAnswerBrings(limit: nat, s: State, e: Event)
    requires e.SubsFetched? || e.SubsRestored?
    ensures
      var s' := Step(limit, s, e);
      s'.phase == s.phase || Brings(s, e, s'.phase)
  {
    FailedSeriesEnds(s);
  }

  lemma PreConnectBrings(s: State, ok: bool, error: bool)
    ensures
      var s' := PreConnectStep(s, ok, error);
      s'.phase == s.phase || Brings(s, PreConnectAnswers(ok, error), s'.phase)
  {
    NextBatchMovesNoSeries(s.(connecting := false, phase := NoConnect), error);
  }

  lemma InitBrings(s: State, refused: bool, hasWill: bool)
    ensures
      var s' := InitStep(s, refused, hasWill);
      s'.phase == s.phase || Brings(s, InitRuns(refused, hasWill), s'.phase)
  {}

  lemma AuthBrings(s: State, ok: bool, keepalive: nat)
    ensures
      var s' := AuthStep(s, ok, keepalive);
      s'.phase == s.phase || Brings(s, AuthAnswers(ok, keepalive), s'.phase)
  {}

  lemma AnswerBrings(limit: nat, s: State, e: Event)
    requires Inv(limit, s) && OfSeries(e)
    ensures
      var s' := Step(limit, s, e);
      s'.phase == s.phase || Brings(s, e, s'.phase)
  {
    match e
    case PreConnectAnswers(ok, error) => PreConnectBrings(s, ok, error);
    case InitRuns(refused, hasWill) => InitBrings(s, refused, hasWill);
    case AuthAnswers(ok, keepalive) => AuthBrings(s, ok, keepalive);
    case RejectionWritten(ok) => RejectionEndsSeries(limit, s, ok);
    case SubsFetched(_) => SubsAnswerBrings(limit, s, e);
    case SubsRestored(_) => SubsAnswerBrings(limit, s, e);
    case StorageAnswers(ok) => StorageBrings(s, ok);
    case ConnackWritten(ok) => ConnackBrings(s, ok);
    case QueueEmptied(ok) => if s.phase.EmptyingQueue? { EmptiedEndsSeries(limit, s, ok); }
  }

  lemma StepBrings(limit: nat, s: State, e: Event)
    requires Inv(limit, s)
    ensures
      var s' := Step(limit, s, e);
      s'.phase == s.phase || Brings(s, e, s'.phase)
  {
    if OfSeries(e) {
      AnswerBrings(limit, s, e);
    } else {
      match e
      case PacketArrives(p) => ArrivalBrings(limit, s, p);
      case BatchDone(error) => NextBatchMovesNoSeries(s, error);
      case CloseCalled(callback) => CloseMovesNoSeries(s, multiset{callback});
      case SocketEnds => CloseMovesNoSeries(s, multiset{});
      case ErrorEmitted => CloseMovesNoSeries(s, multiset{});
      case _ =>
    }
  }

  /** The step that brought the series where it is. */
  lemma BroughtBy(limit: nat, run: seq<Event>, phase: Phase) returns (k: nat)
    requires After(limit, run).phase == phase && phase != NoConnect
    ensures k < |run| && Brings(After(limit, run[..k]), run[k], phase)
  {
    var after, sound := r => After(limit, r), (s: State, e: Event) => Inv(limit, s);
    var there := (s: State) => s.phase == phase;
    assert Histories.Follows(after, (s, e) => Step(limit, s, e));
    forall i | 0 <= i < |run| ensures Histories.At(after, sound, run, i) {
      RunsKeepInv(limit, run[..i]);
    }
    forall s, e | sound(s, e) && there(Step(limit, s, e)) ensures there(s) || Brings(s, e, phase) {
      StepBrings(limit, s, e);
    }
    k := Histories.Cause(after, (s, e) => Step(limit, s, e), sound, there, (s, e) => Brings(s, e, phase), run);
  }

  /** The same for a prefix of a run. */
  lemma BroughtBefore(limit: nat, run: seq<Event>, n: nat, phase: Phase) returns (k: nat)
    requires n <= |run| && After(limit, run[..n]).phase == phase && phase != NoConnect
    ensures k < n && Brings(After(limit, run[..k]), run[k], phase)
  {
    k := BroughtBy(limit, run[..n], phase);
    assert run[..n][..k] == run[..k];
  }

  /** While the will is being stored, subscriptions have been restored. */
  lemma RestoredBefore(limit: nat, run: seq<Event>, n: nat) returns (restored: nat)
    requires n <= |run|
    requires
      var phase := After(limit, run[..n]).phase;
      phase.DeletingWill? || phase.PuttingWill? || phase.WritingConnack?
    ensures restored < n && Brings(After(limit, run[..restored]), run[restored], DeletingWill)
  {
    var phase := After(limit, run[..n]).phase;
    if phase.DeletingWill? {
      restored := BroughtBefore(limit, run, n, DeletingWill);
    } else {
      var k := BroughtBefore(limit, run, n, phase);
      restored := RestoredBefore(limit, run, k);
    }
  }

  /** A CONNACK that accepts the client has all the answers of the series behind it, in order: preConnect agreed, the
      CONNECT was acceptable, authenticate let the client in while it was open, and its subscriptions were fetched and
      restored. */
  lemma ConnackHasItsAnswers(limit: nat, run: seq<Event>, k: nat)
    returns (agreed: nat, started: nat, admitted: nat, fetched: nat, restored: nat)
    requires k < |run| && run[k] == ConnackWritten(true) && After(limit, run[..k]).phase.WritingConnack?
    ensures agreed < started < admitted < fetched < restored < k
    ensures Brings(After(limit, run[..agreed]), run[agreed], InitScheduled)
    ensures Brings(After(limit, run[..started]), run[started], Authenticating)
    ensures Happens(Admits, limit, run, admitted)
    ensures run[fetched] == SubsFetched(true) && run[restored] == SubsRestored(true)
  {
    restored := RestoredBefore(limit, run, k);
    fetched := BroughtBefore(limit, run, restored, RestoringSubs);
    admitted := BroughtBefore(limit, run, fetched, FetchingSubs);
    started := BroughtBefore(limit, run, admitted, Authenticating);
    agreed := BroughtBefore(limit, run, started, InitScheduled);
  }

  // ---------- Connected ----------

  /** finish runs in this step: the emitter has answered, or the client is closed with nothing to unsubscribe. */
  predicate FinishesNow(limit: nat, s: State, e: Event) {
    || (e.Unsubscribed? && s.close.closing.Unsubscribing?)
    || (!s.close.closed && !s.listening && ClosesClient(limit, s, e))
  }

  /** The series ends well, and no packet that waited closes the client for good at once. */
  predicate Connects(limit: nat, s: State, e: Event) {
    e == QueueEmptied(true) && s.phase.EmptyingQueue? && !FinishesNow(limit, s, e)
  }

  lemma CloseConnects(s: State, callback: multiset<nat>)
    ensures CloseStep(s, callback).connected <==> s.connected && (s.close.closed || s.listening)
    ensures CloseStep(s, callback).listening == s.listening
  {
    if s.close.closed {
    } else if s.listening {
    } else {
    }
  }

  lemma NextBatchConnects(s: State, error: bool)
    ensures NextBatch(s, error).connected <==> s.connected && (!error || s.close.closed || s.listening)
    ensures NextBatch(s, error).listening == s.listening
  {
    if error {
      CloseConnects(s, multiset{});
    }
  }

  lemma DisconnectStaysConnected(s: State)
    requires s.connected
    ensures Handle(s, DisconnectPacket).connected && Handle(s, DisconnectPacket).listening == s.listening
  {}

  /** A packet that is handled leaves an open client connected, unless it closes it for good. */
  lemma HandleConnects(s: State, p: Packet)
    requires s.connected
    ensures Handle(s, p).connected <==> !Fails(p) || s.close.closed || s.listening
    ensures Handle(s, p).listening == s.listening
  {
    NextBatchConnects(s, true);
    match p
    case ConnectPacket =>
    case DisconnectPacket => DisconnectStaysConnected(s);
    case OtherPacket(fails) => OtherPacketHandled(s, fails);
  }

  lemma HandleDisconnected(s: State, p: Packet)
    requires !s.connected
    ensures !Handle(s, p).connected
  {
    NextBatchConnects(s, true);
    match p
    case ConnectPacket =>
    case DisconnectPacket => NextBatchConnects(s.(disconnected := true), false);
    case OtherPacket(fails) => if s.connecting { OtherPacketHandled(s, fails); }
  }

  lemma {:induction false} DispatchDisconnected(s: State, packets: seq<Packet>)
    requires !s.connected
    ensures !DispatchAll(s, packets).connected
    decreases packets
  {
    if packets == [] {
    } else {
      HandleDisconnected(Take(s, packets[0]), packets[0]);
      DispatchDisconnected(Handle(Take(s, packets[0]), packets[0]), packets[1..]);
    }
  }

  lemma {:induction false} DispatchConnects(s: State, packets: seq<Packet>)
    requires s.connected
    ensures DispatchAll(s, packets).connected
       <==> s.close.closed || s.listening || forall p | p in packets :: !Fails(p)
    decreases packets
  {
    if packets == [] {
    } else {
      var p, taken := packets[0], Take(s, packets[0]);
      assert packets == [p] + packets[1..];
      HandleConnects(taken, p);
      HandlingCloses(taken, p);
      if Handle(taken, p).connected {
        DispatchConnects(Handle(taken, p), packets[1..]);
      } else {
        DispatchDisconnected(Handle(taken, p), packets[1..]);
        assert p in packets;
      }
    }
  }

  lemma EndConnects(s: State, error: bool)
    ensures
      var fails := error || (s.inbox.queue.Queue? && exists p | p in s.inbox.queue.packets :: Fails(p));
      EndSeries(s, error).connected <==> (s.connected || !error) && (!fails || s.close.closed || s.listening)
  {
    if error {
      NextBatchConnects(s.(connecting := false, phase := Ended), true);
    } else {
      var ended := s.(connecting := false, phase := Ended, connected := true);
      if ended.inbox.queue.Queue? {
        DispatchConnects(ended, ended.inbox.queue.packets);
      }
      NextBatchConnects(Dequeue(ended), false);
    }
  }

  lemma ArrivalConnects(limit: nat, s: State, p: Packet)
    ensures Step(limit, s, PacketArrives(p)).connected <==> s.connected && !FinishesNow(limit, s, PacketArrives(p))
  {
    var counted := CountPacket(s);
    if s.close.closed {
    } else if Direct(s) {
      if s.connected {
        HandleConnects(counted, p);
      } else {
        HandleDisconnected(counted, p);
      }
    } else {
      QueueingConnects(limit, counted, p);
    }
  }

  lemma QueueingConnects(limit: nat, s: State, p: Packet)
    requires !s.close.closed
    ensures
      var full := s.inbox.queue.Queue? && |s.inbox.queue.packets| >= limit;
      Enqueue(limit, s, p).connected <==> s.connected && (!full || s.listening)
  {
    if s.inbox.queue.NoQueue? {
    } else if |s.inbox.queue.packets| < limit {
    } else {
      CloseConnects(s, multiset{});
    }
  }

  lemma StorageConnects(s: State, ok: bool)
    ensures
      var fails := !ok && s.phase.PuttingWill? && s.will.ops != [] && s.will.ops[0] == StorePut;
      StorageStep(s, ok).connected <==> s.connected && (!fails || s.close.closed || s.listening)
  {
    if s.will.ops == [] {
    } else if s.will.ops[0] == StoreDel && s.phase.DeletingWill? {
      assert AfterDelete(s, ok).connected == s.connected;
    } else if s.will.ops[0] == StorePut && s.phase.PuttingWill? {
      PutConnects(s, ok);
    } else {
      assert StorageStep(s, ok) == s.(will := Applied(s.will, ok));
    }
  }

  lemma PutConnects(s: State, ok: bool)
    requires s.will.ops != []
    ensures AfterPut(s, ok).connected <==> s.connected && (ok || s.close.closed || s.listening)
  {
    if !ok {
      EndConnects(s.(will := Applied(s.will, ok)), true);
    }
  }

  lemma ConnackConnects(s: State, ok: bool)
    ensures
      var fails := s.phase.WritingConnack? && !(ok && s.phase.writable);
      ConnackStep(s, ok).connected <==> s.connected && (!fails || s.close.closed || s.listening)
  {
    EndConnects(s, true);
    NextBatchConnects(s.(connackSent := true, inbox := s.inbox.(paused := false), phase := EmptyingQueue), false);
  }

  lemma RejectionConnects(s: State, ok: bool)
    ensures
      var fails := s.phase.RejectingVersion? || s.phase.RejectingAuth?;
      RejectionStep(s, ok).connected <==> s.connected && (!fails || s.close.closed || s.listening)
  {
    var sent := Rejected(s, ok);
    if s.phase.RejectingVersion? {
      NextBatchConnects(sent, true);
    } else if s.phase.RejectingAuth? && !s.close.closed {
      CloseConnects(sent, multiset{});
    } else {
    }
  }

  lemma PreConnectConnects(s: State, ok: bool, error: bool)
    ensures
      var fails := s.phase.PreConnecting? && error;
      PreConnectStep(s, ok, error).connected <==> s.connected && (!fails || s.close.closed || s.listening)
  {
    NextBatchConnects(s.(connecting := false, phase := NoConnect), error);
  }

  lemma SubsAnswerConnects(limit: nat, s: State, e: Event)
    requires e.SubsFetched? || e.SubsRestored?
    ensures Step(limit, s, e).connected <==> s.connected && !FinishesNow(limit, s, e)
  {
    EndConnects(s, true);
  }

  lemma InitConnects(s: State, refused: bool, hasWill: bool)
    ensures InitStep(s, refused, hasWill).connected == s.connected
  {}

  lemma AuthConnects(s: State, ok: bool, keepalive: nat)
    ensures AuthStep(s, ok, keepalive).connected == s.connected
  {}

  lemma AnswerConnects(limit: nat, s: State, e: Event)
    requires OfSeries(e) && !e.QueueEmptied?
    ensures Step(limit, s, e).connected <==> s.connected && !FinishesNow(limit, s, e)
  {
    match e
    case PreConnectAnswers(ok, error) => PreConnectConnects(s, ok, error);
    case InitRuns(refused, hasWill) => InitConnects(s, refused, hasWill);
    case AuthAnswers(ok, keepalive) => AuthConnects(s, ok, keepalive);
    case RejectionWritten(ok) => RejectionConnects(s, ok);
    case SubsFetched(_) => SubsAnswerConnects(limit, s, e);
    case SubsRestored(_) => SubsAnswerConnects(limit, s, e);
    case StorageAnswers(ok) => StorageConnects(s, ok);
    case ConnackWritten(ok) => ConnackConnects(s, ok);
  }

  lemma EmptiedConnects(limit: nat, s: State, ok: bool)
    ensures
      var e := QueueEmptied(ok);
      Step(limit, s, e).connected <==> Connects(limit, s, e) || (s.connected && !FinishesNow(limit, s, e))
  {
    if s.phase.EmptyingQueue? {
      EndConnects(s, !ok);
    }
  }

  lemma EventConnects(limit: nat, s: State, e: Event)
    requires !OfSeries(e)
    ensures Step(limit, s, e).connected <==> s.connected && !FinishesNow(limit, s, e)
  {
    match e
    case PacketArrives(p) => ArrivalConnects(limit, s, p);
    case BatchDone(error) => NextBatchConnects(s, error);
    case CloseCalled(callback) => CloseConnects(s, multiset{callback});
    case SocketEnds => CloseConnects(s, multiset{});
    case ErrorEmitted => CloseConnects(s, multiset{});
    case Unsubscribed =>
    case SubscriptionsChange(_) =>
    case WillAuthorised(_) =>
    case WillPublished =>
  }

  lemma StepConnects(limit: nat, s: State, e: Event)
    ensures Step(limit, s, e).connected <==> Connects(limit, s, e) || (s.connected && !FinishesNow(limit, s, e))
  {
    if e.QueueEmptied? {
      EmptiedConnects(limit, s, e.ok);
    } else if OfSeries(e) {
      AnswerConnects(limit, s, e);
    } else {
      EventConnects(limit, s, e);
    }
  }

  /** Step k completes the series, and finish has not run since. */
  predicate ConnectedSince(limit: nat, run: seq<Event>, k: nat) {
    && k < |run| && Connects(limit, After(limit, run[..k]), run[k])
    && forall i | k < i < |run| :: !FinishesNow(limit, After(limit, run[..i]), run[i])
  }

  lemma ConnectedSinceIsOn(limit: nat, run: seq<Event>, k: nat)
    ensures
      var connects := (s: State, e: Event) => Connects(limit, s, e);
      var finishes := (s: State, e: Event) => FinishesNow(limit, s, e);
      ConnectedSince(limit, run, k) <==> Histories.LastOn(r => After(limit, r), connects, finishes, run, k)
  {
    var after, finishes := (r: seq<Event>) => After(limit, r), (s: State, e: Event) => FinishesNow(limit, s, e);
    forall i | 0 <= i < |run|
      ensures Histories.At(after, finishes, run, i) <==> FinishesNow(limit, After(limit, run[..i]), run[i])
    {}
  }

  /** A client counts as connected exactly if its connect series has ended well and finish has not run since. */
  lemma ConnectedIff(limit: nat, run: seq<Event>)
    ensures After(limit, run).connected <==> exists k: nat :: ConnectedSince(limit, run, k)
  {
    var after, step := (r: seq<Event>) => After(limit, r), (s: State, e: Event) => Step(limit, s, e);
    var connects := (s: State, e: Event) => Connects(limit, s, e);
    var finishes := (s: State, e: Event) => FinishesNow(limit, s, e);
    var connected := (s: State) => s.connected;
    assert Histories.Follows(after, step);
    forall s, e ensures connected(step(s, e)) <==> connects(s, e) || (connected(s) && !finishes(s, e)) {
      StepConnects(limit, s, e);
    }
    Histories.Switch(after, step, (_, _) => true, connected, connects, finishes, run);
    forall k: nat ensures ConnectedSince(limit, run, k) <==> Histories.LastOn(after, connects, finishes, run, k) {
      ConnectedSinceIsOn(limit, run, k);
    }
  }
}
