/**
 The send side told by its events: what each step writes and why, which messages leave the queue,
 which storage calls are under way, when the connection can be written to, and the QoS 2 handshake
 of a clean session, which stores nothing (`deliverQoS` in lib/client.js, lib/handlers/pubrec.js,
 lib/handlers/puback.js, `emptyQueue` in lib/handlers/connect.js).
 */
module OutboundHistory {
  import Histories
  import opened OutboundSession
  import PacketIds

  // ---------- A clean session ----------

  predicate Carried(queue: seq<Entry>, id: nat) {
    exists e | e in queue :: HasId(e.stage, id)
  }

  lemma CarriedIff(queue: seq<Entry>, id: nat)
    ensures Carried(queue, id) <==> IndexOfId(queue, id) < |queue|
  {
    var i := IndexOfId(queue, id);
    if i < |queue| {
      assert queue[i] in queue;
    }
  }

  /** The whole QoS 2 handshake of a clean session, whatever storage would say: PUBLISH and PUBREL go out under one
      identifier, the counter has moved on, and a queue that does not carry the identifier is left alone. On a
      connection that cannot be written to, nothing goes out. */
  lemma CleanRoundTrip(s: State, key: Key, cleared: bool, ok: bool)
    requires s.clean && !Carried(s.queue, s.nextId)
    ensures
      var id := s.nextId;
      var sent := Step(s, Deliver(key, true, cleared));
      var received := Step(sent, Pubrec(s.conn, id, ok));
      var completed := Step(received, Ack(id, true));
      && sent.writes == s.writes + (if s.up then [Publish(s.conn, key, id)] else [])
      && received.writes == sent.writes + (if s.up then [Pubrel(s.conn, id)] else [])
      && completed == s.(nextId := PacketIds.Advance(id), writes := received.writes)
  {
    CarriedIff(s.queue, s.nextId);
  }

  /** The acknowledgement that ends the handshake of a queue that does carry the identifier, left over from an earlier
      persistent session, removes that entry. */
  lemma CleanAckTakesLeftover(s: State, key: Key, ok: bool, e: Entry)
    requires s.clean && DistinctKeys(s.queue) && e in s.queue && HasId(e.stage, s.nextId)
    requires forall x | x in s.queue && HasId(x.stage, s.nextId) :: x == e
    ensures
      var id := s.nextId;
      var received := Step(Step(s, Deliver(key, true, true)), Pubrec(s.conn, id, ok));
      received.queue == s.queue && LosesExactly(s.queue, Step(received, Ack(id, true)).queue, e)
  {
    var i := IndexOfId(s.queue, s.nextId);
    var j :| 0 <= j < |s.queue| && s.queue[j] == e;
    assert i <= j && s.queue[i] in s.queue;
    RemoveKeepsOthers(s.queue, i);
    RemoveDistinct(s.queue, i);
  }

  // ---------- What is written ----------

  /** What a step writes. */
  function Due(s: State, e: Event): (writes: seq<Write>) {
    if !s.up then []
    else
      match e
      case Deliver(key, authorised, _) => if authorised && s.clean then [Publish(s.conn, key, s.nextId)] else []
      case UpdateAnswers(u, ok) =>
        if u in s.pending && ok && u.conn == s.conn && Queued(s.queue, u.key) then [Publish(s.conn, u.key, u.id)]
        else []
      case StreamAnswers(ok, authorised) => DueFromReplay(s, ok, authorised)
      case Pubrec(conn, id, ok) =>
        if conn == s.conn && (s.clean || (ok && Carried(s.queue, id))) then [Pubrel(s.conn, id)] else []
      case _ => []
  }

  /** A replay writes an entry that storage has updated, unless the session is clean or authorizeForward refuses it. */
  function DueFromReplay(s: State, ok: bool, authorised: bool): (writes: seq<Write>) {
    if !s.replay.Streaming? || !s.replay.work.Updating? || !ok || s.clean then []
    else
      match s.replay.work.item
      case Entry(_, Unsent) => []
      case Entry(key, Sent(id)) => if authorised && Queued(s.queue, key) then [Publish(s.conn, key, id)] else []
      case Entry(_, Released(id)) => if Carried(s.queue, id) then [Pubrel(s.conn, id)] else []
  }

  lemma QueuedIff(queue: seq<Entry>, key: Key)
    ensures Queued(queue, key) <==> IndexOfKey(queue, key) < |queue|
  {
    var i := IndexOfKey(queue, key);
    if i < |queue| {
      assert queue[i] in queue;
    }
  }

  lemma ReplayWrites(s: State, ok: bool, authorised: bool)
    ensures
      Step(s, StreamAnswers(ok, authorised)).writes
      == s.writes + Due(s, StreamAnswers(ok, authorised))
  {
    if s.replay.Streaming? && s.replay.work.Updating? {
      match s.replay.work.item.stage
      case Unsent =>
      case Sent(id) => QueuedIff(s.queue, s.replay.work.item.key);
      case Released(id) => CarriedIff(s.queue, id);
    }
  }

  lemma StepWrites(s: State, e: Event)
    ensures Step(s, e).writes == s.writes + Due(s, e)
  {
    match e
    case UpdateAnswers(u, _) => QueuedIff(s.queue, u.key);
    case StreamAnswers(ok, authorised) => ReplayWrites(s, ok, authorised);
    case Pubrec(_, id, _) => CarriedIff(s.queue, id);
    case _ =>
  }

  lemma OneStep(run: seq<Event>, k: nat)
    requires k < |run|
    ensures After(run[..k + 1]) == Step(After(run[..k]), run[k])
  {
    assert run[..k + 1][..k] == run[..k];
  }

  /** In every run and at every step: what is written is what was due, and nothing else. */
  lemma EveryWriteIsDue(run: seq<Event>, k: nat)
    requires k < |run|
    ensures After(run[..k + 1]).writes == After(run[..k]).writes + Due(After(run[..k]), run[k])
  {
    OneStep(run, k);
    StepWrites(After(run[..k]), run[k]);
  }

  // ---------- What leaves the queue ----------

  /** A message leaves the queue exactly by a step that removes it: an acknowledgement of its identifier, a refusal, the
      replay of a clean session, a clear that was left behind, or emptyOutgoingQueue. */
  lemma LeavesIff(run: seq<Event>, k: nat, key: Key)
    requires DisciplinedRun(run) && k < |run| && Queued(After(run[..k]).queue, key)
    ensures !Queued(After(run[..k + 1]).queue, key) <==> Removes(After(run[..k]), run[k], key)
  {
    var s := After(run[..k]);
    DisciplinedPrefix(run, k);
    RunsKeepInv(run[..k]);
    RunsClearWithReason(run[..k]);
    OneStep(run, k);
    if Removes(s, run[k], key) {
      RemovalTakesOut(s, run[k], key);
    } else if !Queued(After(run[..k + 1]).queue, key) {
      LostOnlyByRemoval(s, run[k], key);
    }
  }

  lemma RemovalTakesOut(s: State, e: Event, key: Key)
    requires DistinctKeys(s.queue) && Queued(s.queue, key) && Removes(s, e, key)
    ensures !Queued(Step(s, e).queue, key)
  {
    QueuedIff(s.queue, key);
    match e
    case Ack(id, _) => RemoveDistinct(s.queue, IndexOfId(s.queue, id));
    case Deliver(k, _, _) => RemoveDistinct(s.queue, IndexOfKey(s.queue, k));
    case StreamCleared(_) => RemoveDistinct(s.queue, IndexOfId(s.queue, s.replay.work.item.stage.id));
    case LateAnswers(l, _) => RemoveDistinct(s.queue, IndexOfId(s.queue, l.id));
    case EmptyItem(k) => RemoveDistinct(s.queue, IndexOfKey(s.queue, k));
  }

  // ---------- What is under way ----------

  predicate Happens(kind: (State, Event) -> bool, run: seq<Event>, k: nat)
    requires k < |run|
  {
    kind(After(run[..k]), run[k])
  }

  /** Step k is of one kind, and no later one of the other. */
  predicate Lasts(on: (State, Event) -> bool, off: (State, Event) -> bool, run: seq<Event>, k: nat) {
    k < |run| && Happens(on, run, k) && forall i | k < i < |run| :: !Happens(off, run, i)
  }

  lemma SwitchHistory(flag: State -> bool, on: (State, Event) -> bool, off: (State, Event) -> bool, run: seq<Event>)
    requires !flag(INITIAL)
    requires forall s, e :: flag(Step(s, e)) <==> on(s, e) || (flag(s) && !off(s, e))
    ensures flag(After(run)) <==> exists k: nat :: Lasts(on, off, run, k)
  {
    assert Histories.Follows(After, Step);
    Histories.Switch(After, Step, (_, _) => true, flag, on, off, run);
    forall k: nat ensures Lasts(on, off, run, k) <==> Histories.LastOn(After, on, off, run, k) {
      forall i | 0 <= i < |run| ensures Happens(off, run, i) == Histories.At(After, off, run, i) {}
    }
  }

  /** The step asks storage for this update: a live delivery does, or a replay did whose connection is replaced now. */
  predicate Asks(s: State, e: Event, u: Update) {
    match e
    case Deliver(key, authorised, _) => authorised && !s.clean && u == Update(s.conn, key, s.nextId)
    case Connect(_, _) =>
      && s.replay.Streaming? && s.replay.work.Updating?
      && u.conn == s.conn && s.replay.work.item == Entry(u.key, Sent(u.id))
    case _ => false
  }

  predicate Answers(e: Event, u: Update) {
    e.UpdateAnswers? && e.u == u
  }

  lemma StepAsks(s: State, e: Event, u: Update)
    ensures u in Step(s, e).pending <==> Asks(s, e, u) || (u in s.pending && !Answers(e, u))
  {}

  /** An update is under way exactly if it was asked for and has not been answered since. */
  lemma PendingIff(run: seq<Event>, u: Update)
    ensures
      var on, off := (s: State, e: Event) => Asks(s, e, u), (s: State, e: Event) => Answers(e, u);
      u in After(run).pending <==> exists k: nat :: Lasts(on, off, run, k)
  {
    var on, off := (s: State, e: Event) => Asks(s, e, u), (s: State, e: Event) => Answers(e, u);
    forall s, e ensures u in Step(s, e).pending <==> on(s, e) || (u in s.pending && !off(s, e)) {
      StepAsks(s, e, u);
    }
    SwitchHistory((s: State) => u in s.pending, on, off, run);
  }

  /** The connection is replaced while its replay waits for this call. */
  predicate LeavesBehind(s: State, e: Event, l: Late) {
    && e.Connect? && s.replay.Streaming?
    && match l
       case LateClear(key, id) =>
         s.replay.work.Clearing? && s.replay.work.item.key == key && HasId(s.replay.work.item.stage, id)
       case LateRelease(key, id) => s.replay.work.Updating? && s.replay.work.item == Entry(key, Released(id))
  }

  lemma StepLeavesBehind(s: State, e: Event, l: Late)
    ensures l in Step(s, e).late <==> LeavesBehind(s, e, l) || (l in s.late && !(e.LateAnswers? && e.l == l))
  {}

  /** A call of a replaced connection is under way exactly if it was left behind and has not been answered since. */
  lemma LateIff(run: seq<Event>, l: Late)
    ensures
      var on := (s: State, e: Event) => LeavesBehind(s, e, l);
      var off := (s: State, e: Event) => e.LateAnswers? && e.l == l;
      l in After(run).late <==> exists k: nat :: Lasts(on, off, run, k)
  {
    var on := (s: State, e: Event) => LeavesBehind(s, e, l);
    var off := (s: State, e: Event) => e.LateAnswers? && e.l == l;
    forall s, e ensures l in Step(s, e).late <==> on(s, e) || (l in s.late && !off(s, e)) {
      StepLeavesBehind(s, e, l);
    }
    SwitchHistory((s: State) => l in s.late, on, off, run);
  }

  // ---------- The connection ----------

  /** The step ends the connection: the network, or a storage call for it that is rejected or finds nothing. */
  predicate Breaks(s: State, e: Event) {
    match e
    case Disconnect => true
    case UpdateAnswers(u, ok) => u in s.pending && u.conn == s.conn && !(ok && Queued(s.queue, u.key))
    case StreamAnswers(ok, _) => s.replay.Streaming? && s.replay.work.Updating? && UpdateFails(s, ok)
    case StreamCleared(ok) =>
      !ok && s.replay.Streaming? && s.replay.work.Clearing? && !s.replay.work.item.stage.Unsent?
    case Pubrec(conn, id, ok) => conn == s.conn && !s.clean && !(ok && Carried(s.queue, id))
    case Ack(_, ok) => !ok
    case _ => false
  }

  predicate UpdateFails(s: State, ok: bool)
    requires s.replay.Streaming? && s.replay.work.Updating?
  {
    match s.replay.work.item
    case Entry(_, Unsent) => false
    case Entry(key, Sent(_)) => !(ok && Queued(s.queue, key))
    case Entry(_, Released(id)) => !(ok && Carried(s.queue, id))
  }

  lemma StepBreaks(s: State, e: Event)
    ensures Step(s, e).up <==> e.Connect? || (s.up && !Breaks(s, e))
  {
    match e
    case UpdateAnswers(u, _) => QueuedIff(s.queue, u.key);
    case StreamAnswers(ok, authorised) => ReplayBreaks(s, ok, authorised);
    case Pubrec(_, id, _) => CarriedIff(s.queue, id);
    case _ =>
  }

  lemma ReplayBreaks(s: State, ok: bool, authorised: bool)
    ensures Step(s, StreamAnswers(ok, authorised)).up <==> s.up && !Breaks(s, StreamAnswers(ok, authorised))
  {
    if s.replay.Streaming? && s.replay.work.Updating? {
      match s.replay.work.item.stage
      case Unsent =>
      case Sent(_) => QueuedIff(s.queue, s.replay.work.item.key);
      case Released(id) => CarriedIff(s.queue, id);
    }
  }

  /** The connection can be written to exactly if nothing has ended it since the last CONNECT. */
  lemma UpIff(run: seq<Event>)
    ensures
      var connects := (s: State, e: Event) => e.Connect?;
      After(run).up <==> exists k: nat :: Lasts(connects, Breaks, run, k)
  {
    var connects := (s: State, e: Event) => e.Connect?;
    forall s, e ensures Step(s, e).up <==> connects(s, e) || (s.up && !Breaks(s, e)) {
      StepBreaks(s, e);
    }
    SwitchHistory((s: State) => s.up, connects, Breaks, run);
  }
}
