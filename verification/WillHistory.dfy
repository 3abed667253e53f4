/**
 When a closed client has its will deleted from persistence: after it was discarded, refused or
 published, and never before; and that every will can be settled (`finish` in lib/client.js).
 */
module WillHistory {
  import opened Admission
  import opened ConnectionHistory
  import opened Lifecycle

  /** The will is not going to be published any more. */
  predicate Decided(w: WillState) {
    w.fate.Discarded? || w.fate.Refused? || w.fate.Published?
  }

  /** The delWill of finish is under way only then. */
  predicate DeletesInTurn(s: State) {
    FinishDel in s.will.ops ==> s.close.closed && s.close.closing.Finished? && Decided(s.will)
  }

  lemma FinishInTurn(s: State)
    requires DeletesInTurn(s) && s.close.closed && s.close.closing.Unsubscribing?
    ensures DeletesInTurn(FinishStep(s))
  {}

  lemma CloseInTurn(s: State, callback: multiset<nat>)
    requires DeletesInTurn(s)
    ensures DeletesInTurn(CloseStep(s, callback))
  {
    if s.close.closed {
    } else if s.listening {
    } else {
      FinishInTurn(FlagClosed(s, callback));
    }
  }

  lemma NextBatchInTurn(s: State, error: bool)
    requires DeletesInTurn(s)
    ensures DeletesInTurn(NextBatch(s, error))
  {
    if error {
      CloseInTurn(s, multiset{});
    }
  }

  lemma HandleInTurn(s: State, p: Packet)
    requires DeletesInTurn(s)
    ensures DeletesInTurn(Handle(s, p))
  {
    NextBatchInTurn(s, true);
    match p
    case ConnectPacket =>
    case DisconnectPacket => NextBatchInTurn(s.(disconnected := true), false);
    case OtherPacket(fails) => if s.connecting || s.connected { OtherPacketHandled(s, fails); }
  }

  lemma {:induction false} DispatchInTurn(s: State, packets: seq<Packet>)
    requires DeletesInTurn(s)
    ensures DeletesInTurn(DispatchAll(s, packets))
    decreases packets
  {
    if packets == [] {
    } else {
      var taken := Take(s, packets[0]);
      HandleInTurn(taken, packets[0]);
      DispatchInTurn(Handle(taken, packets[0]), packets[1..]);
    }
  }

  lemma EndSeriesInTurn(s: State, error: bool)
    requires DeletesInTurn(s)
    ensures DeletesInTurn(EndSeries(s, error))
  {
    if error {
      NextBatchInTurn(s.(connecting := false, phase := Ended), true);
    } else {
      var ended := s.(connecting := false, phase := Ended, connected := true);
      if ended.inbox.queue.Queue? {
        DispatchInTurn(ended, ended.inbox.queue.packets);
      }
      NextBatchInTurn(Dequeue(ended), false);
    }
  }

  lemma ArrivalInTurn(limit: nat, s: State, p: Packet)
    requires DeletesInTurn(s)
    ensures DeletesInTurn(ArrivalStep(limit, s, p))
  {
    var counted := CountPacket(s);
    if s.close.closed {
    } else if Direct(s) {
      HandleInTurn(counted, p);
    } else if s.inbox.queue.NoQueue? {
    } else if |s.inbox.queue.packets| < limit {
    } else {
      CloseInTurn(counted, multiset{});
    }
  }

  /** An answer of storage issues no such call. */
  predicate NoNewDelete(w: WillState, w': WillState) {
    w'.fate == w.fate && (FinishDel in w'.ops ==> FinishDel in w.ops)
  }

  lemma AppliedDeletesNothing(w: WillState, ok: bool)
    requires w.ops != []
    ensures NoNewDelete(w, Applied(w, ok)) && NoNewDelete(w, PutNext(w, ok))
  {
    assert FinishDel in w.ops[1..] ==> FinishDel in w.ops;
    if ok {
    } else {
    }
  }

  lemma NoNewDeleteInTurn(s: State, s': State)
    requires DeletesInTurn(s) && NoNewDelete(s.will, s'.will)
    requires s'.close.closed == s.close.closed && s'.close.closing == s.close.closing
    ensures DeletesInTurn(s')
  {}

  lemma DeletedInTurn(s: State, ok: bool)
    requires DeletesInTurn(s) && s.will.ops != []
    ensures DeletesInTurn(AfterDelete(s, ok))
  {
    AppliedDeletesNothing(s.will, ok);
    NoNewDeleteInTurn(s, s.(will := PutNext(s.will, ok), phase := PuttingWill));
    NoNewDeleteInTurn(s, RegisterAndConnack(s.(will := Applied(s.will, ok))));
  }

  lemma PutInTurn(s: State, ok: bool)
    requires DeletesInTurn(s) && s.will.ops != []
    ensures DeletesInTurn(AfterPut(s, ok))
  {
    var applied := s.(will := Applied(s.will, ok));
    AppliedDeletesNothing(s.will, ok);
    NoNewDeleteInTurn(s, applied);
    if ok {
      NoNewDeleteInTurn(s, RegisterAndConnack(applied));
    } else {
      EndSeriesInTurn(applied, true);
    }
  }

  lemma StorageInTurn(s: State, ok: bool)
    requires DeletesInTurn(s)
    ensures DeletesInTurn(StorageStep(s, ok))
  {
    if s.will.ops == [] {
    } else if s.will.ops[0] == StoreDel && s.phase.DeletingWill? {
      DeletedInTurn(s, ok);
    } else if s.will.ops[0] == StorePut && s.phase.PuttingWill? {
      PutInTurn(s, ok);
    } else {
      OtherStorageAnswer(s, ok);
      AppliedDeletesNothing(s.will, ok);
      NoNewDeleteInTurn(s, s.(will := Applied(s.will, ok)));
    }
  }

  lemma RejectionInTurn(s: State, ok: bool)
    requires DeletesInTurn(s)
    ensures DeletesInTurn(RejectionStep(s, ok))
  {
    var sent := Rejected(s, ok);
    if s.phase.RejectingVersion? {
      NextBatchInTurn(sent, true);
    } else if s.phase.RejectingAuth? && !s.close.closed {
      CloseInTurn(sent, multiset{});
    } else {
    }
  }

  lemma ConnackInTurn(s: State, ok: bool)
    requires DeletesInTurn(s)
    ensures DeletesInTurn(ConnackStep(s, ok))
  {
    if s.phase.WritingConnack? {
      if ok && s.phase.writable {
        NextBatchInTurn(s.(connackSent := true, inbox := s.inbox.(paused := false), phase := EmptyingQueue), false);
      } else {
        EndSeriesInTurn(s, true);
      }
    }
  }

  lemma PreConnectInTurn(s: State, ok: bool, error: bool)
    requires DeletesInTurn(s)
    ensures DeletesInTurn(PreConnectStep(s, ok, error))
  {
    NextBatchInTurn(s.(connecting := false, phase := NoConnect), error);
  }

  lemma InitInTurn(s: State, refused: bool, hasWill: bool)
    requires DeletesInTurn(s)
    ensures DeletesInTurn(InitStep(s, refused, hasWill))
  {}

  lemma AuthInTurn(s: State, ok: bool, keepalive: nat)
    requires DeletesInTurn(s)
    ensures DeletesInTurn(AuthStep(s, ok, keepalive))
  {}

  lemma FetchedInTurn(limit: nat, s: State, ok: bool)
    requires DeletesInTurn(s)
    ensures DeletesInTurn(Step(limit, s, SubsFetched(ok)))
  {
    if s.phase.FetchingSubs? && !ok {
      EndSeriesInTurn(s, true);
    }
  }

  lemma RestoredInTurn(limit: nat, s: State, ok: bool)
    requires DeletesInTurn(s)
    ensures DeletesInTurn(Step(limit, s, SubsRestored(ok)))
  {
    if s.phase.RestoringSubs? && !ok {
      EndSeriesInTurn(s, true);
    } else if s.phase.RestoringSubs? {
      NoNewDeleteInTurn(s, StoreWill(s));
    }
  }

  lemma AnswerInTurn(limit: nat, s: State, e: Event)
    requires DeletesInTurn(s) && OfSeries(e)
    ensures DeletesInTurn(Step(limit, s, e))
  {
    match e
    case PreConnectAnswers(ok, error) => PreConnectInTurn(s, ok, error);
    case InitRuns(refused, hasWill) => InitInTurn(s, refused, hasWill);
    case AuthAnswers(ok, keepalive) => AuthInTurn(s, ok, keepalive);
    case RejectionWritten(ok) => RejectionInTurn(s, ok);
    case SubsFetched(ok) => FetchedInTurn(limit, s, ok);
    case SubsRestored(ok) => RestoredInTurn(limit, s, ok);
    case StorageAnswers(ok) => StorageInTurn(s, ok);
    case ConnackWritten(ok) => ConnackInTurn(s, ok);
    case QueueEmptied(ok) => EndSeriesInTurn(s, !ok);
  }

  lemma WillAnswersInTurn(s: State, ok: bool)
    requires WillSafe(s) && FinishOnce(s.close) && DeletesInTurn(s)
    ensures DeletesInTurn(s.(will := WillAnswer(s.will, ok))) && DeletesInTurn(s.(will := WillDone(s.will)))
  {}

  lemma EventInTurn(limit: nat, s: State, e: Event)
    requires Inv(limit, s) && DeletesInTurn(s) && !OfSeries(e)
    ensures DeletesInTurn(Step(limit, s, e))
  {
    match e
    case PacketArrives(p) => ArrivalInTurn(limit, s, p);
    case BatchDone(error) => NextBatchInTurn(s, error);
    case CloseCalled(callback) => CloseInTurn(s, multiset{callback});
    case SocketEnds => CloseInTurn(s, multiset{});
    case ErrorEmitted => CloseInTurn(s, multiset{});
    case Unsubscribed => if s.close.closing.Unsubscribing? { FinishInTurn(s); }
    case SubscriptionsChange(_) =>
    case WillAuthorised(ok) => WillAnswersInTurn(s, ok);
    case WillPublished => WillAnswersInTurn(s, true);
  }

  lemma StepInTurn(limit: nat, s: State, e: Event)
    requires Inv(limit, s) && DeletesInTurn(s)
    ensures DeletesInTurn(Step(limit, s, e))
  {
    if OfSeries(e) {
      AnswerInTurn(limit, s, e);
    } else {
      EventInTurn(limit, s, e);
    }
  }

  /** In every run finish asks persistence to delete the will only after it was discarded for a DISCONNECT, refused by
      authorizePublish, or published. */
  lemma {:induction false} WillDeletedInTurn(limit: nat, run: seq<Event>)
    ensures DeletesInTurn(After(limit, run))
  {
    if run == [] {
    } else {
      var n := |run| - 1;
      WillDeletedInTurn(limit, run[..n]);
      RunsKeepInv(limit, run[..n]);
      StepInTurn(limit, After(limit, run[..n]), run[n]);
    }
  }

  // ---------- Every will is settled ----------

  /** What authorizePublish says about the will: it is published and then deleted, or deleted. */
  lemma AskedWillGoes(limit: nat, s: State)
    requires s.will.fate.Authorising?
    ensures
      var agreed := Step(limit, s, WillAuthorised(true));
      var published := Step(limit, agreed, WillPublished);
      && agreed.will == s.will.(fate := Publishing, publishes := s.will.publishes + 1)
      && published.will == agreed.will.(fate := Published, ops := s.will.ops + [FinishDel])
    ensures
      Step(limit, s, WillAuthorised(false)).will == s.will.(fate := Refused, ops := s.will.ops + [FinishDel])
  {}

  /** A good answer of storage to a client that has finished takes the oldest call away and brings none. */
  lemma FinishedAnswer(s: State)
    requires s.close.closed && s.will.ops != [] && !s.will.current
    ensures
      var s' := StorageStep(s, true);
      && s'.will == s.will.(ops := s.will.ops[1..], stored := s.will.ops[0] == StorePut)
      && s'.close == s.close
  {
    if s.will.ops[0] == StoreDel && s.phase.DeletingWill? {
      FinishedDelete(s);
    } else if s.will.ops[0] == StorePut && s.phase.PuttingWill? {
      FinishedPut(s);
    } else {
      OtherStorageAnswer(s, true);
    }
  }

  lemma FinishedDelete(s: State)
    requires s.will.ops != [] && !s.will.current
    ensures AfterDelete(s, true).will == Applied(s.will, true) && AfterDelete(s, true).close == s.close
  {}

  lemma FinishedPut(s: State)
    requires s.will.ops != []
    ensures AfterPut(s, true).will == Applied(s.will, true) && AfterPut(s, true).close == s.close
  {}

  function AfterMore(limit: nat, s: State, more: seq<Event>): (r: State)
    decreases more
  {
    if more == [] then s else AfterMore(limit, Step(limit, s, more[0]), more[1..])
  }

  lemma AfterMoreFirst(limit: nat, s: State, e: Event, rest: seq<Event>)
    ensures AfterMore(limit, s, [e] + rest) == AfterMore(limit, Step(limit, s, e), rest)
  {
    assert ([e] + rest)[0] == e && ([e] + rest)[1..] == rest;
  }

  /** Good answers of storage settle a will about which nothing is asked any more. */
  lemma {:induction false} StorageSettles(limit: nat, s: State) returns (more: seq<Event>)
    requires s.close.closed && s.close.closing.Finished? && !s.will.current
    requires !s.will.fate.Authorising? && !s.will.fate.Publishing?
    ensures
      var s' := AfterMore(limit, s, more);
      Quiescent(s') && s'.will.publishes == s.will.publishes
    decreases |s.will.ops|
  {
    if s.will.ops == [] {
      more := [];
    } else {
      FinishedAnswer(s);
      var rest := StorageSettles(limit, Step(limit, s, StorageAnswers(true)));
      AfterMoreFirst(limit, s, StorageAnswers(true), rest);
      more := [StorageAnswers(true)] + rest;
    }
  }

  lemma PublishingSettles(limit: nat, s: State) returns (more: seq<Event>)
    requires s.close.closed && s.close.closing.Finished? && !s.will.current && s.will.fate.Publishing?
    ensures
      var s' := AfterMore(limit, s, more);
      Quiescent(s') && s'.will.publishes == s.will.publishes
  {
    var rest := StorageSettles(limit, Step(limit, s, WillPublished));
    AfterMoreFirst(limit, s, WillPublished, rest);
    more := [WillPublished] + rest;
  }

  /** Once finish has run, in every run, good answers alone lead to quiescence; and a will that authorizePublish is
      being asked about is published on the way. */
  lemma EveryWillCanSettle(limit: nat, run: seq<Event>) returns (more: seq<Event>)
    requires After(limit, run).close.closing.Finished?
    ensures
      var s, s' := After(limit, run), AfterMore(limit, After(limit, run), more);
      && Quiescent(s')
      && (s.will.fate.Authorising? || s.will.fate.Publishing? ==> s'.will.publishes == 1)
  {
    var s := After(limit, run);
    RunsKeepInv(limit, run);
    if s.will.fate.Authorising? {
      var rest := PublishingSettles(limit, Step(limit, s, WillAuthorised(true)));
      AfterMoreFirst(limit, s, WillAuthorised(true), rest);
      more := [WillAuthorised(true)] + rest;
    } else if s.will.fate.Publishing? {
      more := PublishingSettles(limit, s);
    } else {
      more := StorageSettles(limit, s);
    }
  }
}
