/**
 The send side of QoS 1 and 2 for one persistent session: the stored queue of one client
 identifier, live deliveries, acknowledgements, and the replay after a reconnection
 (`deliverQoS` and `emptyOutgoingQueue` in lib/client.js, lib/qos-packet.js,
 lib/handlers/pubrec.js, lib/handlers/puback.js, `emptyQueue` in lib/handlers/connect.js).

 The persistence library is not part of this model; it is given by four functions on the
 queue. A PUBLISH entry is found by its broker and counter, an acknowledgement and a PUBREL
 by packet identifier, the oldest entry first; a message refused before it has an identifier
 is removed by broker and counter.

 Every step is one callback; steps of a live delivery, of a replay and of acknowledgements
 interleave freely, and a storage call of a dead connection may still take effect.
 */
module OutboundSession {
  import PacketIds

  datatype Key = Key(broker: string, counter: nat)

  datatype Stage = Unsent | Sent(id: nat) | Released(id: nat)

  datatype Entry = Entry(key: Key, stage: Stage)

  predicate HasId(stage: Stage, id: nat) {
    stage == Sent(id) || stage == Released(id)
  }

  /** A stage only ever moves forward, and an identifier once given is kept. */
  predicate NotBefore(a: Stage, b: Stage) {
    match a
    case Unsent => true
    case Sent(id) => b == Sent(id) || b == Released(id)
    case Released(id) => b == Released(id)
  }

  // ---------- The stored queue ----------

  function IndexOfKey(queue: seq<Entry>, key: Key): (i: nat)
    ensures i <= |queue|
    ensures i < |queue| ==> queue[i].key == key
    ensures forall j | 0 <= j < i :: queue[j].key != key
  {
    if queue == [] || queue[0].key == key then 0 else 1 + IndexOfKey(queue[1..], key)
  }

  function IndexOfId(queue: seq<Entry>, id: nat): (i: nat)
    ensures i <= |queue|
    ensures i < |queue| ==> HasId(queue[i].stage, id)
    ensures forall j | 0 <= j < i :: !HasId(queue[j].stage, id)
  {
    if queue == [] || HasId(queue[0].stage, id) then 0 else 1 + IndexOfId(queue[1..], id)
  }

  function SetStage(queue: seq<Entry>, i: nat, stage: Stage): (r: seq<Entry>) {
    if i < |queue| then queue[i := queue[i].(stage := stage)] else queue
  }

  function Remove(queue: seq<Entry>, i: nat): (r: seq<Entry>) {
    if i < |queue| then queue[..i] + queue[i + 1..] else queue
  }

  predicate Queued(queue: seq<Entry>, key: Key) {
    exists e | e in queue :: e.key == key
  }

  predicate DistinctKeys(queue: seq<Entry>) {
    forall i, j | 0 <= i < j < |queue| :: queue[i].key != queue[j].key
  }

  // ---------- State ----------

  datatype Write = Publish(conn: nat, key: Key, id: nat) | Pubrel(conn: nat, id: nat)

  /** An outgoingUpdate call that a live delivery waits for. */
  datatype Update = Update(conn: nat, key: Key, id: nat)

  /** A storage call that a replay was waiting for when its connection was replaced: it takes effect all the same. */
  datatype Late = LateClear(key: Key, id: nat) | LateRelease(key: Key, id: nat)

  datatype Outcome = Wrote | Refused | Discarded | Failed

  datatype Work = Idle | Updating(item: Entry) | Clearing(item: Entry, refused: bool)

  /** The replay works through a snapshot of the queue; done holds the outcome of each finished item. */
  datatype Replay =
    | NoReplay
    | Stopped
    | Streaming(snapshot: seq<Entry>, done: seq<Outcome>, work: Work)

  datatype State = State(
    queue: seq<Entry>,
    enqueued: set<Key>,   // every key that was ever put into the queue
    conn: nat,            // number of the current connection
    up: bool,             // it can be written to
    clean: bool,          // its CONNECT asked for a clean session
    nextId: nat,
    pending: set<Update>,
    late: set<Late>,
    replay: Replay,
    writes: seq<Write>    // everything written, on any connection
  )

  const INITIAL := State([], {}, 0, false, false, 1, {}, {}, NoReplay, [])

  datatype Event =
    | Enqueue(key: Key)
    | Connect(clean: bool, start: nat)
    | Disconnect
    | Deliver(key: Key, authorised: bool, cleared: bool)  // cleared: whether the clear after a refusal succeeds
    | UpdateAnswers(u: Update, ok: bool)
    | LateAnswers(l: Late, ok: bool)
    | StreamOpens
    | StreamNext
    | StreamAnswers(ok: bool, authorised: bool)
    | StreamCleared(ok: bool)
    | Pubrec(conn: nat, id: nat, ok: bool)
    | Ack(id: nat, ok: bool)
    | EmptyItem(key: Key)

  /** The storage call that a replay of a dead connection was waiting for. */
  function LeftOver(s: State): (r: set<Update>) {
    if s.replay.Streaming? && s.replay.work.Updating? && s.replay.work.item.stage.Sent? then
      {Update(s.conn, s.replay.work.item.key, s.replay.work.item.stage.id)}
    else {}
  }

  /** The other calls it may have been waiting for. */
  function LeftBehind(s: State): (r: set<Late>) {
    if !s.replay.Streaming? || s.replay.work.Idle? || s.replay.work.item.stage.Unsent? then {}
    else
      var item := s.replay.work.item;
      if s.replay.work.Clearing? then {LateClear(item.key, item.stage.id)}
      else if item.stage.Released? then {LateRelease(item.key, item.stage.id)}
      else {}
  }

  function WriteIf(s: State, can: bool, w: Write): (r: State) {
    if can then s.(writes := s.writes + [w]) else s
  }

  function DeliverStep(s: State, key: Key, authorised: bool, cleared: bool): (r: State) {
    if !authorised then
      if s.clean || !cleared then s else s.(queue := Remove(s.queue, IndexOfKey(s.queue, key)))
    else
      var id := s.nextId;
      var allotted := s.(nextId := PacketIds.Advance(id));
      if s.clean then WriteIf(allotted, s.up, Publish(s.conn, key, id))
      else allotted.(pending := s.pending + {Update(s.conn, key, id)})
  }

  function UpdateStep(s: State, u: Update, ok: bool): (r: State) {
    if u !in s.pending then s
    else
      var answered := s.(pending := s.pending - {u});
      var i := IndexOfKey(s.queue, u.key);
      if ok && i < |s.queue| then
        var sent := answered.(queue := SetStage(s.queue, i, Sent(u.id)));
        WriteIf(sent, u.conn == s.conn && s.up, Publish(u.conn, u.key, u.id))
      else answered.(up := s.up && u.conn != s.conn)
  }

  function LateStep(s: State, l: Late, ok: bool): (r: State) {
    if l !in s.late then s
    else if !ok then s.(late := s.late - {l})
    else
      var i := IndexOfId(s.queue, l.id);
      s.(late := s.late - {l},
         queue := if l.LateClear? then Remove(s.queue, i) else SetStage(s.queue, i, Released(l.id)))
  }

  function StreamNextStep(s: State): (r: State) {
    if s.replay.Streaming? && s.replay.work.Idle? && |s.replay.done| < |s.replay.snapshot| then
      var item := s.replay.snapshot[|s.replay.done|];
      if item.stage.Unsent? then
        s.(nextId := PacketIds.Advance(s.nextId),
           replay := s.replay.(work := Updating(Entry(item.key, Sent(s.nextId)))))
      else s.(replay := s.replay.(work := Updating(item)))
    else s
  }

  /** The entry that the update of a replayed packet replaces. */
  function Target(queue: seq<Entry>, item: Entry): (i: nat)
    ensures i <= |queue|
  {
    match item.stage
    case Released(id) => IndexOfId(queue, id)
    case _ => IndexOfKey(queue, item.key)
  }

  function ItemWrite(conn: nat, item: Entry): (w: Write)
    requires !item.stage.Unsent?
  {
    if item.stage.Sent? then Publish(conn, item.key, item.stage.id) else Pubrel(conn, item.stage.id)
  }

  function StreamAnswersStep(s: State, ok: bool, authorised: bool): (r: State) {
    if s.replay.Streaming? && s.replay.work.Updating? && !s.replay.work.item.stage.Unsent? then
      var item := s.replay.work.item;
      var i := Target(s.queue, item);
      if !ok || i == |s.queue| then
        s.(up := false, replay := s.replay.(work := Idle, done := s.replay.done + [Failed]))
      else
        var updated := s.(queue := SetStage(s.queue, i, item.stage));
        var refused := item.stage.Sent? && !authorised;
        if s.clean || refused then updated.(replay := s.replay.(work := Clearing(item, refused)))
        else if s.up then
          updated.(writes := s.writes + [ItemWrite(s.conn, item)],
                   replay := s.replay.(work := Idle, done := s.replay.done + [Wrote]))
        else updated.(replay := Stopped)
    else s
  }

  function StreamClearedStep(s: State, ok: bool): (r: State) {
    if s.replay.Streaming? && s.replay.work.Clearing? && !s.replay.work.item.stage.Unsent? then
      if ok then
        s.(queue := Remove(s.queue, IndexOfId(s.queue, s.replay.work.item.stage.id)),
           replay := s.replay.(
             work := Idle, done := s.replay.done + [if s.replay.work.refused then Refused else Discarded]))
      else s.(up := false, replay := Stopped)
    else s
  }

  function PubrecStep(s: State, conn: nat, id: nat, ok: bool): (r: State) {
    if conn == s.conn && s.clean then WriteIf(s, s.up, Pubrel(conn, id))
    else
      var i := IndexOfId(s.queue, id);
      if ok && i < |s.queue| then
        WriteIf(s.(queue := SetStage(s.queue, i, Released(id))), conn == s.conn && s.up, Pubrel(conn, id))
      else s.(up := s.up && conn != s.conn)
  }

  /** One step; an event that nothing waits for changes nothing. */
  function Step(s: State, e: Event): (r: State) {
    match e
    case Enqueue(key) => s.(queue := s.queue + [Entry(key, Unsent)], enqueued := s.enqueued + {key})
    case Connect(clean, start) =>
      s.(conn := s.conn + 1, up := true, clean := clean, nextId := start,
         pending := s.pending + LeftOver(s), late := s.late + LeftBehind(s), replay := NoReplay)
    case Disconnect => s.(up := false)
    case Deliver(key, authorised, cleared) => DeliverStep(s, key, authorised, cleared)
    case UpdateAnswers(u, ok) => UpdateStep(s, u, ok)
    case LateAnswers(l, ok) => LateStep(s, l, ok)
    case StreamOpens => if s.replay.NoReplay? then s.(replay := Streaming(s.queue, [], Idle)) else s
    case StreamNext => StreamNextStep(s)
    case StreamAnswers(ok, authorised) => StreamAnswersStep(s, ok, authorised)
    case StreamCleared(ok) => StreamClearedStep(s, ok)
    case Pubrec(conn, id, ok) => PubrecStep(s, conn, id, ok)
    case Ack(id, ok) => if ok then s.(queue := Remove(s.queue, IndexOfId(s.queue, id))) else s.(up := false)
    case EmptyItem(key) => s.(queue := Remove(s.queue, IndexOfKey(s.queue, key)))
  }

  function After(run: seq<Event>): (s: State) {
    if run == [] then INITIAL else Step(After(run[..|run| - 1]), run[|run| - 1])
  }

  // ---------- Facts about the queue operations ----------

  lemma RemoveKeepsOthers(queue: seq<Entry>, i: nat)
    requires i < |queue|
    ensures forall e | e in Remove(queue, i) :: e in queue
    ensures forall e | e in queue :: e == queue[i] || e in Remove(queue, i)
  {
    var r := Remove(queue, i);
    forall j | 0 <= j < |r| ensures r[j] in queue {
      assert r[j] == if j < i then queue[j] else queue[j + 1];
    }
    forall j | 0 <= j < |queue| && j != i ensures queue[j] in r {
      assert queue[j] == if j < i then r[j] else r[j - 1];
    }
  }

  lemma RemoveDistinct(queue: seq<Entry>, i: nat)
    requires i < |queue| && DistinctKeys(queue)
    ensures DistinctKeys(Remove(queue, i)) && !Queued(Remove(queue, i), queue[i].key)
  {
    var r := Remove(queue, i);
    assert forall j | 0 <= j < |r| :: r[j] == if j < i then queue[j] else queue[j + 1];
  }

  lemma SetStageMembers(queue: seq<Entry>, i: nat, stage: Stage)
    requires i < |queue|
    ensures forall e | e in SetStage(queue, i, stage) :: e == Entry(queue[i].key, stage) || e in queue
    ensures DistinctKeys(queue) ==> forall e | e in SetStage(queue, i, stage) ::
              e == Entry(queue[i].key, stage) || (e in queue && e.key != queue[i].key)
    ensures DistinctKeys(queue) ==> DistinctKeys(SetStage(queue, i, stage))
    ensures Entry(queue[i].key, stage) in SetStage(queue, i, stage)
    ensures forall e | e in queue && e.key != queue[i].key :: e in SetStage(queue, i, stage)
  {
    var r := SetStage(queue, i, stage);
    assert r[i] == Entry(queue[i].key, stage);
    forall e | e in queue && e.key != queue[i].key ensures e in r {
      var j :| 0 <= j < |queue| && queue[j] == e;
      assert r[j] == e;
    }
  }

  lemma FindKey(queue: seq<Entry>, e: Entry)
    requires DistinctKeys(queue) && e in queue
    ensures IndexOfKey(queue, e.key) < |queue| && queue[IndexOfKey(queue, e.key)] == e
  {
    var j :| 0 <= j < |queue| && queue[j] == e;
    var i := IndexOfKey(queue, e.key);
    assert i <= j;
  }

  // ---------- No loss ----------

  /** The steps that take the entry of a key out of the queue. */
  predicate Removes(s: State, e: Event, key: Key) {
    match e
    case Ack(id, ok) =>
      var i := IndexOfId(s.queue, id);
      ok && i < |s.queue| && s.queue[i].key == key
    case Deliver(k, authorised, cleared) => k == key && !s.clean && !authorised && cleared
    case StreamCleared(ok) =>
      && ok && s.replay.Streaming? && s.replay.work.Clearing? && !s.replay.work.item.stage.Unsent?
      && (s.clean || s.replay.work.refused)
      && var i := IndexOfId(s.queue, s.replay.work.item.stage.id);
         i < |s.queue| && s.queue[i].key == key
    case LateAnswers(l, ok) =>
      && ok && l.LateClear? && l in s.late
      && var i := IndexOfId(s.queue, l.id);
         i < |s.queue| && s.queue[i].key == key
    case EmptyItem(k) => k == key
    case _ => false
  }

  predicate ClearingJustified(s: State) {
    s.replay.Streaming? && s.replay.work.Clearing? ==> s.clean || s.replay.work.refused
  }

  lemma {:induction false} RunsClearWithReason(run: seq<Event>)
    ensures ClearingJustified(After(run))
  {
    if run == [] {
    } else {
      RunsClearWithReason(run[..|run| - 1]);
      StepClearsWithReason(After(run[..|run| - 1]), run[|run| - 1]);
    }
  }

  lemma StepClearsWithReason(s: State, e: Event)
    requires ClearingJustified(s)
    ensures ClearingJustified(Step(s, e))
  {}

  lemma RemoveLosesOne(queue: seq<Entry>, i: nat, key: Key)
    requires Queued(queue, key) && !Queued(Remove(queue, i), key)
    ensures i < |queue| && queue[i].key == key
  {
    if i < |queue| {
      RemoveKeepsOthers(queue, i);
    }
  }

  lemma SetStageKeepsKeys(queue: seq<Entry>, i: nat, stage: Stage, key: Key)
    requires Queued(queue, key)
    ensures Queued(SetStage(queue, i, stage), key)
  {
    var j :| 0 <= j < |queue| && queue[j].key == key;
    assert SetStage(queue, i, stage)[j].key == key;
  }

  lemma AppendKeepsKeys(queue: seq<Entry>, e: Entry, key: Key)
    requires Queued(queue, key)
    ensures Queued(queue + [e], key)
  {
    var x :| x in queue && x.key == key;
    assert x in queue + [e];
  }

  /** A queued message leaves the queue only by an acknowledgement of its identifier, a refusal,
      the replay of a clean session, or emptyOutgoingQueue. */
  lemma LostOnlyByRemoval(s: State, e: Event, key: Key)
    requires ClearingJustified(s)
    requires Queued(s.queue, key) && !Queued(Step(s, e).queue, key)
    ensures Removes(s, e, key)
  {
    match e
    case Enqueue(k) => AppendKeepsKeys(s.queue, Entry(k, Unsent), key);
    case UpdateAnswers(u, ok) => SetStageKeepsKeys(s.queue, IndexOfKey(s.queue, u.key), Sent(u.id), key);
    case StreamAnswers(_, _) =>
      if s.replay.Streaming? && s.replay.work.Updating? {
        SetStageKeepsKeys(s.queue, Target(s.queue, s.replay.work.item), s.replay.work.item.stage, key);
      }
    case Pubrec(_, id, _) => SetStageKeepsKeys(s.queue, IndexOfId(s.queue, id), Released(id), key);
    case Deliver(k, _, _) => RemoveLosesOne(s.queue, IndexOfKey(s.queue, k), key);
    case StreamCleared(_) => RemoveLosesOne(s.queue, IndexOfId(s.queue, s.replay.work.item.stage.id), key);
    case LateAnswers(l, _) =>
      if l.LateClear? {
        RemoveLosesOne(s.queue, IndexOfId(s.queue, l.id), key);
      } else {
        SetStageKeepsKeys(s.queue, IndexOfId(s.queue, l.id), Released(l.id), key);
      }
    case Ack(id, _) => RemoveLosesOne(s.queue, IndexOfId(s.queue, id), key);
    case EmptyItem(k) => RemoveLosesOne(s.queue, IndexOfKey(s.queue, k), key);
    case _ =>
  }

  /** In every run, whatever fails and however steps interleave: a message once enqueued is in the
      queue at the end, or some step of the run removed it. */
  lemma {:induction false} NoLoss(run: seq<Event>, i: nat, key: Key)
    requires i < |run| && run[i] == Enqueue(key)
    ensures Queued(After(run).queue, key) || exists j | i < j < |run| :: Removes(After(run[..j]), run[j], key)
    decreases |run|
  {
    var prefix := run[..|run| - 1];
    if i == |run| - 1 {
      assert Entry(key, Unsent) in After(run).queue;
    } else {
      assert prefix[i] == run[i];
      NoLoss(prefix, i, key);
      if Queued(After(prefix).queue, key) {
        RunsClearWithReason(prefix);
        if !Queued(After(run).queue, key) {
          LostOnlyByRemoval(After(prefix), run[|run| - 1], key);
        }
      } else {
        var j :| i < j < |prefix| && Removes(After(prefix[..j]), prefix[j], key);
        assert prefix[..j] == run[..j] && prefix[j] == run[j];
      }
    }
  }

  // ---------- The identifier hypotheses, and what they give ----------

  /** The item is in the part of the snapshot that the replay has not finished. */
  predicate Ahead(s: State, item: Entry) {
    s.replay.Streaming? && |s.replay.done| <= |s.replay.snapshot| && item in s.replay.snapshot[|s.replay.done|..]
  }

  predicate Working(s: State, item: Entry) {
    s.replay.Streaming? && !s.replay.work.Idle? && s.replay.work.item == item
  }

  predicate Updates(s: State, item: Entry) {
    Working(s, item) && s.replay.work.Updating?
  }

  predicate Clears(s: State, item: Entry) {
    Working(s, item) && s.replay.work.Clearing?
  }

  predicate InQueue(queue: seq<Entry>, key: Key, id: nat) {
    Entry(key, Sent(id)) in queue || Entry(key, Released(id)) in queue
  }

  /** An identifier is spoken for by the queue, by a storage call under way, by a part of the
      snapshot not yet replayed, or by the item being replayed. */
  ghost predicate Claim(s: State, key: Key, id: nat) {
    || InQueue(s.queue, key, id)
    || (exists conn :: Update(conn, key, id) in s.pending)
    || Ahead(s, Entry(key, Sent(id))) || Ahead(s, Entry(key, Released(id)))
    || Working(s, Entry(key, Sent(id))) || Working(s, Entry(key, Released(id)))
    || LateClear(key, id) in s.late || LateRelease(key, id) in s.late
  }

  ghost predicate Free(s: State, id: nat) {
    forall key :: !Claim(s, key, id)
  }

  ghost predicate Unassigned(s: State, key: Key) {
    forall id :: !Claim(s, key, id)
  }

  /** A PUBLISH of this message with this identifier is still to be written. */
  ghost predicate PublishWaits(s: State, key: Key, id: nat) {
    || (exists conn :: Update(conn, key, id) in s.pending)
    || (Ahead(s, Entry(key, Sent(id))) && !Clears(s, Entry(key, Sent(id))))
    || Updates(s, Entry(key, Sent(id)))
  }

  /** A PUBREL of this message with this identifier is still to be stored or written. */
  predicate PubrelWaits(s: State, key: Key, id: nat) {
    Ahead(s, Entry(key, Released(id))) || Working(s, Entry(key, Released(id))) || LateRelease(key, id) in s.late
  }

  predicate AtUnsentItem(s: State, key: Key) {
    && s.replay.Streaming? && s.replay.work.Idle? && |s.replay.done| < |s.replay.snapshot|
    && s.replay.snapshot[|s.replay.done|] == Entry(key, Unsent)
  }

  /** What is assumed of one step. A caller can see all of it beforehand:
      a message is enqueued once (counters are unique and one filter of the client matches);
      a fresh identifier is given out only when it is free, to a message that has none;
      no entry is released by a PUBREC while its PUBLISH waits in a replay or an update. */
  ghost predicate Disciplined(s: State, e: Event) {
    match e
    case Enqueue(key) => key !in s.enqueued
    case Deliver(key, authorised, _) =>
      authorised ==>
        if s.clean then key !in s.enqueued else Free(s, s.nextId) && Unassigned(s, key)
    case StreamNext => forall key :: AtUnsentItem(s, key) ==> Free(s, s.nextId) && Unassigned(s, key)
    case Pubrec(conn, id, ok) => Releases(s, conn, id, ok) ==> forall key :: !PublishWaits(s, key, id)
    case _ => true
  }

  /** The PUBREC replaces an entry of the queue. */
  predicate Releases(s: State, conn: nat, id: nat, ok: bool) {
    ok && !(conn == s.conn && s.clean) && IndexOfId(s.queue, id) < |s.queue|
  }

  ghost predicate DisciplinedRun(run: seq<Event>) {
    forall i | 0 <= i < |run| :: Disciplined(After(run[..i]), run[i])
  }

  // ---------- The invariant ----------

  ghost predicate OneIdPerKey(s: State) {
    forall key, id, key', id' :: Claim(s, key, id) && Claim(s, key', id') ==> (key == key' <==> id == id')
  }

  ghost predicate NotReleased(queue: seq<Entry>, key: Key) {
    forall id :: Entry(key, Released(id)) !in queue
  }

  ghost predicate OnlyReleased(queue: seq<Entry>, key: Key, id: nat) {
    forall e | e in queue && e.key == key :: e.stage == Released(id)
  }

  predicate KeysKnown(s: State) {
    && DistinctKeys(s.queue)
    && (forall e | e in s.queue :: e.key in s.enqueued)
    && (forall l | l in s.late :: l.key in s.enqueued)
    && (s.replay.Streaming? ==>
          DistinctKeys(s.replay.snapshot) && forall e | e in s.replay.snapshot :: e.key in s.enqueued)
  }

  /** A PUBLISH still to be written belongs to an entry that is not released, a PUBREL to one that is. */
  ghost predicate NothingStale(s: State) {
    && (forall key, id :: PublishWaits(s, key, id) ==> NotReleased(s.queue, key))
    && (forall key, id :: PubrelWaits(s, key, id) ==> OnlyReleased(s.queue, key, id))
  }

  predicate ReplayWellFormed(s: State) {
    s.replay.Streaming? ==>
      && |s.replay.done| <= |s.replay.snapshot|
      && (!s.replay.work.Idle? ==>
            && |s.replay.done| < |s.replay.snapshot|
            && s.replay.work.item.key == s.replay.snapshot[|s.replay.done|].key
            && !s.replay.work.item.stage.Unsent?)
  }

  ghost predicate Inv(s: State) {
    KeysKnown(s) && OneIdPerKey(s) && NothingStale(s) && ReplayWellFormed(s)
  }

  lemma ClaimsShrink(s: State, s': State)
    requires OneIdPerKey(s) && forall key, id :: Claim(s', key, id) ==> Claim(s, key, id)
    ensures OneIdPerKey(s')
  {}

  lemma ClaimsGrow(s: State, s': State, key: Key, id: nat)
    requires OneIdPerKey(s) && Free(s, id) && Unassigned(s, key)
    requires forall k, i :: Claim(s', k, i) ==> Claim(s, k, i) || (k == key && i == id)
    ensures OneIdPerKey(s')
  {}

  lemma UnassignedNotReleased(s: State, key: Key)
    requires Unassigned(s, key)
    ensures NotReleased(s.queue, key)
  {
    forall id ensures Entry(key, Released(id)) !in s.queue {
      assert !Claim(s, key, id);
    }
  }

  lemma RemoveKeepsInv(s: State, i: nat)
    requires Inv(s)
    ensures Inv(s.(queue := Remove(s.queue, i)))
  {
    if i < |s.queue| {
      var s' := s.(queue := Remove(s.queue, i));
      RemoveKeepsOthers(s.queue, i);
      RemoveDistinct(s.queue, i);
      ClaimsShrink(s, s');
      assert forall key, id :: PublishWaits(s', key, id) ==> PublishWaits(s, key, id);
      assert forall key, id :: PubrelWaits(s', key, id) ==> PubrelWaits(s, key, id);
    }
  }

  /** The entry of a message that is not released gets the identifier already set aside for it. */
  lemma AssignKeepsInv(s: State, key: Key, id: nat)
    requires Inv(s) && Claim(s, key, id) && NotReleased(s.queue, key)
    ensures Inv(s.(queue := SetStage(s.queue, IndexOfKey(s.queue, key), Sent(id))))
  {
    var i := IndexOfKey(s.queue, key);
    if i < |s.queue| {
      var s' := s.(queue := SetStage(s.queue, i, Sent(id)));
      SetStageMembers(s.queue, i, Sent(id));
      ClaimsShrink(s, s');
      assert forall k, j :: PublishWaits(s', k, j) ==> PublishWaits(s, k, j);
      assert forall k, j :: PubrelWaits(s', k, j) ==> PubrelWaits(s, k, j);
      assert s.queue[i] in s.queue;
    }
  }

  lemma ReleaseKeepsInv(s: State, id: nat)
    requires Inv(s) && forall key :: !PublishWaits(s, key, id)
    ensures Inv(s.(queue := SetStage(s.queue, IndexOfId(s.queue, id), Released(id))))
  {
    var i := IndexOfId(s.queue, id);
    if i < |s.queue| {
      var key := s.queue[i].key;
      var s' := s.(queue := SetStage(s.queue, i, Released(id)));
      SetStageMembers(s.queue, i, Released(id));
      assert s.queue[i] in s.queue && Claim(s, key, id);
      ClaimsShrink(s, s');
      forall k, j | PublishWaits(s', k, j) ensures NotReleased(s'.queue, k) {
        assert PublishWaits(s, k, j) && Claim(s, k, j);
      }
      forall k, j | PubrelWaits(s', k, j)
        ensures OnlyReleased(s'.queue, k, j)
      {
        assert Claim(s, k, j) && OnlyReleased(s.queue, k, j);
      }
    }
  }

  lemma StillAhead(s: State, s': State, item: Entry)
    requires s.replay.Streaming? && s'.replay.Streaming? && s'.replay.snapshot == s.replay.snapshot
    requires |s'.replay.done| == |s.replay.done| + 1
    ensures Ahead(s', item) ==> Ahead(s, item)
  {
    if Ahead(s', item) {
      var rest := s.replay.snapshot[|s.replay.done|..];
      var k :| 0 <= k < |s'.replay.snapshot[|s'.replay.done|..]| && s'.replay.snapshot[|s'.replay.done|..][k] == item;
      assert rest[k + 1] == item;
    }
  }

  lemma FinishKeepsInv(s: State, outcome: Outcome)
    requires Inv(s) && s.replay.Streaming? && !s.replay.work.Idle?
    ensures Inv(s.(replay := Streaming(s.replay.snapshot, s.replay.done + [outcome], Idle)))
  {
    var s' := s.(replay := Streaming(s.replay.snapshot, s.replay.done + [outcome], Idle));
    forall item ensures Ahead(s', item) ==> Ahead(s, item) {
      StillAhead(s, s', item);
    }
    ClaimsShrink(s, s');
    assert forall k, j :: PublishWaits(s', k, j) ==> PublishWaits(s, k, j);
  }

  lemma StopKeepsInv(s: State, replay: Replay)
    requires Inv(s) && !replay.Streaming?
    ensures Inv(s.(replay := replay))
  {
    var s' := s.(replay := replay);
    ClaimsShrink(s, s');
    assert forall k, j :: PublishWaits(s', k, j) ==> PublishWaits(s, k, j);
  }

  /** Fields that no part of the invariant looks at. */
  lemma FrameKeepsInv(s: State, s': State)
    requires Inv(s) && s'.queue == s.queue && s'.enqueued == s.enqueued
    requires s'.pending == s.pending && s'.late == s.late && s'.replay == s.replay
    ensures Inv(s')
  {
    ClaimsShrink(s, s');
    assert forall k, j :: PublishWaits(s', k, j) ==> PublishWaits(s, k, j);
  }

  lemma EnqueueKeepsInv(s: State, key: Key)
    requires Inv(s) && key !in s.enqueued
    ensures Inv(Step(s, Enqueue(key)))
  {
    var s' := Step(s, Enqueue(key));
    assert forall e :: e in s'.queue <==> e in s.queue || e == Entry(key, Unsent);
    ClaimsShrink(s, s');
    assert forall k, j :: PublishWaits(s', k, j) ==> PublishWaits(s, k, j);
    forall k, j | PubrelWaits(s', k, j)
      ensures OnlyReleased(s'.queue, k, j)
    {
      assert PubrelWaits(s, k, j) && OnlyReleased(s.queue, k, j);
      if Ahead(s, Entry(k, Released(j))) {
        assert Entry(k, Released(j)) in s.replay.snapshot;
      } else if Working(s, Entry(k, Released(j))) {
        assert s.replay.snapshot[|s.replay.done|] in s.replay.snapshot;
      }
    }
  }

  lemma ConnectKeepsInv(s: State, clean: bool, start: nat)
    requires Inv(s)
    ensures Inv(Step(s, Connect(clean, start)))
  {
    var s' := Step(s, Connect(clean, start));
    assert forall u | u in LeftOver(s) :: Updates(s, Entry(u.key, Sent(u.id)));
    if s.replay.Streaming? && !s.replay.work.Idle? {
      assert Working(s, s.replay.work.item);
      assert s.replay.snapshot[|s.replay.done|] in s.replay.snapshot;
    }
    assert forall k, j :: PubrelWaits(s', k, j) ==> PubrelWaits(s, k, j);
    ClaimsShrink(s, s');
    assert forall k, j :: PublishWaits(s', k, j) ==> PublishWaits(s, k, j);
  }

  lemma DeliverKeepsInv(s: State, key: Key, authorised: bool, cleared: bool)
    requires Inv(s) && Disciplined(s, Deliver(key, authorised, cleared))
    ensures Inv(Step(s, Deliver(key, authorised, cleared)))
  {
    var s' := Step(s, Deliver(key, authorised, cleared));
    if !authorised && !s.clean && cleared {
      RemoveKeepsInv(s, IndexOfKey(s.queue, key));
    } else if authorised && !s.clean {
      ClaimsGrow(s, s', key, s.nextId);
      forall k, j | PublishWaits(s', k, j) ensures NotReleased(s'.queue, k) {
        if k == key {
          UnassignedNotReleased(s, key);
        } else {
          assert PublishWaits(s, k, j);
        }
      }
    } else {
      FrameKeepsInv(s, s');
    }
  }

  lemma LessPendingKeepsInv(s: State, pending: set<Update>)
    requires Inv(s) && pending <= s.pending
    ensures Inv(s.(pending := pending))
  {
    var s' := s.(pending := pending);
    ClaimsShrink(s, s');
    assert forall k, j :: PublishWaits(s', k, j) ==> PublishWaits(s, k, j);
  }

  lemma UpdateAnswersKeepsInv(s: State, u: Update, ok: bool)
    requires Inv(s)
    ensures Inv(Step(s, UpdateAnswers(u, ok)))
  {
    var s' := Step(s, UpdateAnswers(u, ok));
    if u in s.pending {
      assert PublishWaits(s, u.key, u.id) && Claim(s, u.key, u.id);
      AssignKeepsInv(s, u.key, u.id);
      var queued :=
        if s'.queue == s.queue then s
        else s.(queue := SetStage(s.queue, IndexOfKey(s.queue, u.key), Sent(u.id)));
      assert queued.queue == s'.queue;
      LessPendingKeepsInv(queued, s.pending - {u});
      FrameKeepsInv(queued.(pending := s.pending - {u}), s');
    }
  }

  lemma LessLateKeepsInv(s: State, late: set<Late>)
    requires Inv(s) && late <= s.late
    ensures Inv(s.(late := late))
  {
    var s' := s.(late := late);
    ClaimsShrink(s, s');
    assert forall k, j :: PublishWaits(s', k, j) ==> PublishWaits(s, k, j);
    assert forall k, j :: PubrelWaits(s', k, j) ==> PubrelWaits(s, k, j);
  }

  /** A PUBREL stored late finds its entry released already. */
  lemma LateReleaseChangesNothing(s: State, l: Late)
    requires Inv(s) && l in s.late && l.LateRelease?
    ensures SetStage(s.queue, IndexOfId(s.queue, l.id), Released(l.id)) == s.queue
  {
    var i := IndexOfId(s.queue, l.id);
    if i < |s.queue| {
      assert l == LateRelease(l.key, l.id);
      assert s.queue[i] in s.queue;
      assert Claim(s, s.queue[i].key, l.id) && Claim(s, l.key, l.id);
      assert PubrelWaits(s, l.key, l.id) && OnlyReleased(s.queue, l.key, l.id);
    }
  }

  lemma LateKeepsInv(s: State, l: Late, ok: bool)
    requires Inv(s)
    ensures Inv(LateStep(s, l, ok))
  {
    if l !in s.late {
    } else if !ok {
      LessLateKeepsInv(s, s.late - {l});
    } else if l.LateClear? {
      RemoveKeepsInv(s, IndexOfId(s.queue, l.id));
      LessLateKeepsInv(s.(queue := Remove(s.queue, IndexOfId(s.queue, l.id))), s.late - {l});
    } else {
      LateReleaseChangesNothing(s, l);
      LessLateKeepsInv(s, s.late - {l});
    }
  }

  lemma StreamOpensKeepsInv(s: State)
    requires Inv(s)
    ensures Inv(Step(s, StreamOpens))
  {
    var s' := Step(s, StreamOpens);
    if s.replay.NoReplay? {
      assert s'.replay.snapshot[|s'.replay.done|..] == s.queue;
      ClaimsShrink(s, s');
      forall k, j | PublishWaits(s', k, j) ensures NotReleased(s'.queue, k) {
        if Ahead(s', Entry(k, Sent(j))) {
          assert Entry(k, Sent(j)) in s.queue;
        } else {
          assert PublishWaits(s, k, j);
        }
      }
    }
  }

  lemma StreamNextKeepsInv(s: State)
    requires Inv(s) && Disciplined(s, StreamNext)
    ensures Inv(Step(s, StreamNext))
  {
    var s' := Step(s, StreamNext);
    if s' != s {
      var item := s.replay.snapshot[|s.replay.done|];
      assert item == s.replay.snapshot[|s.replay.done|..][0];
      assert Ahead(s, item);
      if item.stage.Unsent? {
        assert AtUnsentItem(s, item.key);
        ClaimsGrow(s, s', item.key, s.nextId);
        forall k, j | PublishWaits(s', k, j) ensures NotReleased(s'.queue, k) {
          if k == item.key {
            UnassignedNotReleased(s, item.key);
          } else {
            assert PublishWaits(s, k, j);
          }
        }
      } else {
        ClaimsShrink(s, s');
        assert forall k, j :: PublishWaits(s', k, j) ==> PublishWaits(s, k, j);
      }
    }
  }

  /** A PUBREL being replayed finds its entry released already. */
  lemma ReplayedPubrelChangesNothing(s: State, item: Entry)
    requires Inv(s) && Working(s, item) && item.stage.Released?
    ensures SetStage(s.queue, IndexOfId(s.queue, item.stage.id), item.stage) == s.queue
  {
    var i := IndexOfId(s.queue, item.stage.id);
    if i < |s.queue| {
      assert s.queue[i] in s.queue;
      assert Claim(s, s.queue[i].key, item.stage.id) && Claim(s, item.key, item.stage.id);
      assert OnlyReleased(s.queue, item.key, item.stage.id);
    }
  }

  lemma StreamUpdateKeepsInv(s: State)
    requires Inv(s) && s.replay.Streaming? && s.replay.work.Updating?
    ensures Inv(s.(queue := SetStage(s.queue, Target(s.queue, s.replay.work.item), s.replay.work.item.stage)))
  {
    var item := s.replay.work.item;
    assert Working(s, item);
    if item.stage.Released? {
      ReplayedPubrelChangesNothing(s, item);
    } else {
      assert PublishWaits(s, item.key, item.stage.id) && Claim(s, item.key, item.stage.id);
      AssignKeepsInv(s, item.key, item.stage.id);
    }
  }

  lemma StreamAnswersKeepsInv(s: State, ok: bool, authorised: bool)
    requires Inv(s)
    ensures Inv(Step(s, StreamAnswers(ok, authorised)))
  {
    var s' := Step(s, StreamAnswers(ok, authorised));
    if s.replay.Streaming? && s.replay.work.Updating? {
      var item := s.replay.work.item;
      var i := Target(s.queue, item);
      if !ok || i == |s.queue| {
        FinishKeepsInv(s, Failed);
        FrameKeepsInv(s.(replay := s'.replay), s');
      } else {
        var updated := s.(queue := SetStage(s.queue, i, item.stage));
        StreamUpdateKeepsInv(s);
        if s'.replay.Stopped? {
          StopKeepsInv(updated, Stopped);
        } else if s'.replay.work.Clearing? {
          ClaimsShrink(updated, s');
          assert forall k, j :: PublishWaits(s', k, j) ==> PublishWaits(updated, k, j);
        } else {
          FinishKeepsInv(updated, Wrote);
          FrameKeepsInv(updated.(replay := s'.replay), s');
        }
      }
    }
  }

  lemma StreamClearedKeepsInv(s: State, ok: bool)
    requires Inv(s)
    ensures Inv(Step(s, StreamCleared(ok)))
  {
    var s' := Step(s, StreamCleared(ok));
    if s.replay.Streaming? && s.replay.work.Clearing? {
      if ok {
        RemoveKeepsInv(s, IndexOfId(s.queue, s.replay.work.item.stage.id));
        FinishKeepsInv(s.(queue := s'.queue), if s.replay.work.refused then Refused else Discarded);
      } else {
        StopKeepsInv(s, Stopped);
        FrameKeepsInv(s.(replay := Stopped), s');
      }
    }
  }

  lemma PubrecKeepsInv(s: State, conn: nat, id: nat, ok: bool)
    requires Inv(s) && Disciplined(s, Pubrec(conn, id, ok))
    ensures Inv(Step(s, Pubrec(conn, id, ok)))
  {
    var s' := Step(s, Pubrec(conn, id, ok));
    if s'.queue == s.queue {
      FrameKeepsInv(s, s');
    } else {
      ReleaseKeepsInv(s, id);
      FrameKeepsInv(s.(queue := s'.queue), s');
    }
  }

  lemma StepKeepsInv(s: State, e: Event)
    requires Inv(s) && Disciplined(s, e)
    ensures Inv(Step(s, e))
  {
    match e
    case Enqueue(key) => EnqueueKeepsInv(s, key);
    case Connect(clean, start) => ConnectKeepsInv(s, clean, start);
    case Disconnect => FrameKeepsInv(s, Step(s, e));
    case Deliver(key, authorised, cleared) => DeliverKeepsInv(s, key, authorised, cleared);
    case UpdateAnswers(u, ok) => UpdateAnswersKeepsInv(s, u, ok);
    case LateAnswers(l, ok) => LateKeepsInv(s, l, ok);
    case StreamOpens => StreamOpensKeepsInv(s);
    case StreamNext => StreamNextKeepsInv(s);
    case StreamAnswers(ok, authorised) => StreamAnswersKeepsInv(s, ok, authorised);
    case StreamCleared(ok) => StreamClearedKeepsInv(s, ok);
    case Pubrec(conn, id, ok) => PubrecKeepsInv(s, conn, id, ok);
    case Ack(id, ok) =>
      if ok { RemoveKeepsInv(s, IndexOfId(s.queue, id)); } else { FrameKeepsInv(s, Step(s, e)); }
    case EmptyItem(key) => RemoveKeepsInv(s, IndexOfKey(s.queue, key));
  }

  lemma DisciplinedPrefix(run: seq<Event>, n: nat)
    requires DisciplinedRun(run) && n <= |run|
    ensures DisciplinedRun(run[..n])
  {
    forall i | 0 <= i < n ensures Disciplined(After(run[..n][..i]), run[..n][i]) {
      assert run[..n][..i] == run[..i];
      assert Disciplined(After(run[..i]), run[i]);
    }
  }

  /** What holds after i steps, and is kept by steps i to j of a kind, holds after j steps. */
  lemma {:induction false} StepsKeep(p: State -> bool, kind: (State, Event) -> bool, run: seq<Event>, i: nat, j: nat)
    requires i <= j <= |run| && p(After(run[..i]))
    requires forall k | i <= k < j :: kind(After(run[..k]), run[k])
    requires forall s, e | p(s) && kind(s, e) :: p(Step(s, e))
    ensures p(After(run[..j]))
    decreases j
  {
    if i == j {
    } else {
      StepsKeep(p, kind, run, i, j - 1);
      assert run[..j][..j - 1] == run[..j - 1];
      assert kind(After(run[..j - 1]), run[j - 1]);
    }
  }

  lemma OneStep(run: seq<Event>, i: nat)
    requires i < |run|
    ensures After(run[..i + 1]) == Step(After(run[..i]), run[i])
  {
    assert run[..i + 1][..i] == run[..i];
  }

  lemma RunsKeep(p: State -> bool, run: seq<Event>, i: nat)
    requires DisciplinedRun(run) && i <= |run| && p(After(run[..i]))
    requires forall s, e | p(s) && Disciplined(s, e) :: p(Step(s, e))
    ensures p(After(run))
  {
    StepsKeep(p, (s, e) => Disciplined(s, e), run, i, |run|);
    assert run[..|run|] == run;
  }

  lemma RunsKeepInv(run: seq<Event>)
    requires DisciplinedRun(run)
    ensures Inv(After(run))
  {
    forall s, e | Inv(s) && Disciplined(s, e) ensures Inv(Step(s, e)) {
      StepKeepsInv(s, e);
    }
    RunsKeep(s => Inv(s), run, 0);
  }

  // ---------- Stages only move forward ----------

  lemma SetStageForward(queue: seq<Entry>, i: nat, stage: Stage, key: Key, a: Stage, b: Stage)
    requires DistinctKeys(queue) && (i < |queue| ==> NotBefore(queue[i].stage, stage))
    requires Entry(key, a) in queue && Entry(key, b) in SetStage(queue, i, stage)
    ensures NotBefore(a, b)
  {
    if i < |queue| {
      SetStageMembers(queue, i, stage);
    }
  }

  lemma UpdateMovesForward(s: State, key: Key, id: nat)
    requires Inv(s) && PublishWaits(s, key, id)
    ensures
      var i := IndexOfKey(s.queue, key);
      i < |s.queue| ==> NotBefore(s.queue[i].stage, Sent(id))
  {
    var i := IndexOfKey(s.queue, key);
    if i < |s.queue| {
      assert s.queue[i] in s.queue && Claim(s, key, id);
      assert s.queue[i].stage.Sent? ==> Claim(s, key, s.queue[i].stage.id);
      assert NotReleased(s.queue, key);
    }
  }

  lemma StreamUpdateMovesForward(s: State)
    requires Inv(s) && s.replay.Streaming? && s.replay.work.Updating?
    ensures
      var i := Target(s.queue, s.replay.work.item);
      i < |s.queue| ==> NotBefore(s.queue[i].stage, s.replay.work.item.stage)
  {
    var item := s.replay.work.item;
    if item.stage.Sent? {
      assert Updates(s, Entry(item.key, Sent(item.stage.id)));
      UpdateMovesForward(s, item.key, item.stage.id);
    }
  }

  lemma SameKeySameStage(queue: seq<Entry>, key: Key, a: Stage, b: Stage)
    requires DistinctKeys(queue) && Entry(key, a) in queue && Entry(key, b) in queue
    ensures a == b
  {
    FindKey(queue, Entry(key, a));
    FindKey(queue, Entry(key, b));
  }

  lemma RemoveForward(queue: seq<Entry>, i: nat, key: Key, a: Stage, b: Stage)
    requires DistinctKeys(queue) && Entry(key, a) in queue
    requires Entry(key, b) in Remove(queue, i)
    ensures NotBefore(a, b)
  {
    if i < |queue| { RemoveKeepsOthers(queue, i); }
    SameKeySameStage(queue, key, a, b);
  }

  /** The steps that give an entry another stage. */
  lemma StageStepMovesForward(s: State, e: Event, key: Key, a: Stage, b: Stage)
    requires Inv(s) && Disciplined(s, e) && (e.UpdateAnswers? || e.StreamAnswers? || e.Pubrec?)
    requires Step(s, e).queue != s.queue && Entry(key, a) in s.queue && Entry(key, b) in Step(s, e).queue
    ensures NotBefore(a, b)
  {
    match e
    case UpdateAnswers(u, ok) =>
      assert PublishWaits(s, u.key, u.id);
      UpdateMovesForward(s, u.key, u.id);
      SetStageForward(s.queue, IndexOfKey(s.queue, u.key), Sent(u.id), key, a, b);
    case StreamAnswers(ok, _) =>
      StreamUpdateMovesForward(s);
      SetStageForward(s.queue, Target(s.queue, s.replay.work.item), s.replay.work.item.stage, key, a, b);
    case Pubrec(_, id, _) => SetStageForward(s.queue, IndexOfId(s.queue, id), Released(id), key, a, b);
  }

  lemma StepMovesForward(s: State, e: Event, key: Key, a: Stage, b: Stage)
    requires Inv(s) && Disciplined(s, e)
    requires Entry(key, a) in s.queue && Entry(key, b) in Step(s, e).queue
    ensures NotBefore(a, b)
  {
    if Step(s, e).queue == s.queue {
      SameKeySameStage(s.queue, key, a, b);
    } else if e.UpdateAnswers? || e.StreamAnswers? || e.Pubrec? {
      StageStepMovesForward(s, e, key, a, b);
    } else {
      match e
      case Deliver(k, _, _) => RemoveForward(s.queue, IndexOfKey(s.queue, k), key, a, b);
      case StreamCleared(_) => RemoveForward(s.queue, IndexOfId(s.queue, s.replay.work.item.stage.id), key, a, b);
      case LateAnswers(l, _) =>
        if l.LateRelease? { LateReleaseChangesNothing(s, l); }
        RemoveForward(s.queue, IndexOfId(s.queue, l.id), key, a, b);
      case Ack(id, _) => RemoveForward(s.queue, IndexOfId(s.queue, id), key, a, b);
      case EmptyItem(k) => RemoveForward(s.queue, IndexOfKey(s.queue, k), key, a, b);
      case Enqueue(k) => SameKeySameStage(s.queue, key, a, b);
    }
  }

  lemma SetStageNoNewKey(queue: seq<Entry>, i: nat, stage: Stage, e: Entry)
    requires e in SetStage(queue, i, stage)
    ensures Queued(queue, e.key)
  {
    if i < |queue| {
      SetStageMembers(queue, i, stage);
      assert queue[i] in queue;
    }
  }

  lemma RemoveNoNewKey(queue: seq<Entry>, i: nat, e: Entry)
    requires e in Remove(queue, i)
    ensures e in queue
  {
    if i < |queue| { RemoveKeepsOthers(queue, i); }
  }

  lemma NeverEnqueuedAgain(s: State, e: Event, key: Key, b: Stage)
    requires Inv(s) && Disciplined(s, e)
    requires key in s.enqueued && Entry(key, b) in Step(s, e).queue
    ensures Queued(s.queue, key)
  {
    var x := Entry(key, b);
    if Step(s, e).queue != s.queue {
      match e
      case UpdateAnswers(u, ok) => SetStageNoNewKey(s.queue, IndexOfKey(s.queue, u.key), Sent(u.id), x);
      case StreamAnswers(_, _) => SetStageNoNewKey(s.queue, Target(s.queue, s.replay.work.item),
          s.replay.work.item.stage, x);
      case Pubrec(_, id, _) => SetStageNoNewKey(s.queue, IndexOfId(s.queue, id), Released(id), x);
      case Deliver(k, _, _) => RemoveNoNewKey(s.queue, IndexOfKey(s.queue, k), x);
      case StreamCleared(_) => RemoveNoNewKey(s.queue, IndexOfId(s.queue, s.replay.work.item.stage.id), x);
      case LateAnswers(l, _) =>
        if l.LateClear? {
          RemoveNoNewKey(s.queue, IndexOfId(s.queue, l.id), x);
        } else {
          SetStageNoNewKey(s.queue, IndexOfId(s.queue, l.id), Released(l.id), x);
        }
      case Ack(id, _) => RemoveNoNewKey(s.queue, IndexOfId(s.queue, id), x);
      case EmptyItem(k) => RemoveNoNewKey(s.queue, IndexOfKey(s.queue, k), x);
      case Enqueue(_) => assert x in s.queue;
    }
  }

  /** Whatever entry of this message there is has come at least as far as stage a. */
  ghost predicate Reached(s: State, key: Key, a: Stage) {
    key in s.enqueued && forall b :: Entry(key, b) in s.queue ==> NotBefore(a, b)
  }

  lemma OneStagePerKey(s: State, key: Key, a: Stage)
    requires Inv(s) && Entry(key, a) in s.queue
    ensures Reached(s, key, a)
  {
    assert Entry(key, a).key == key;
    forall b | Entry(key, b) in s.queue ensures NotBefore(a, b) {
      SameKeySameStage(s.queue, key, a, b);
    }
  }

  lemma StepKeepsReached(s: State, e: Event, key: Key, a: Stage)
    requires Inv(s) && Disciplined(s, e) && Reached(s, key, a)
    ensures Reached(Step(s, e), key, a)
  {
    forall b | Entry(key, b) in Step(s, e).queue ensures NotBefore(a, b) {
      var x := StageBefore(s, e, key, b);
    }
  }

  /** The stage that an entry came from. */
  lemma StageBefore(s: State, e: Event, key: Key, b: Stage) returns (x: Stage)
    requires Inv(s) && Disciplined(s, e) && key in s.enqueued && Entry(key, b) in Step(s, e).queue
    ensures Entry(key, x) in s.queue && NotBefore(x, b)
  {
    NeverEnqueuedAgain(s, e, key, b);
    x := StageOfQueued(s.queue, key);
    StepMovesForward(s, e, key, x, b);
  }

  lemma StageOfQueued(queue: seq<Entry>, key: Key) returns (x: Stage)
    requires Queued(queue, key)
    ensures Entry(key, x) in queue
  {
    var y :| y in queue && y.key == key;
    x := y.stage;
  }

  /** In every disciplined run an entry goes from no identifier, to PUBLISH with one, to PUBREL with the
      same one, to gone, and never back. */
  lemma StagesMoveForward(run: seq<Event>, i: nat, key: Key, a: Stage)
    requires DisciplinedRun(run) && i <= |run|
    requires Entry(key, a) in After(run[..i]).queue
    ensures forall b :: Entry(key, b) in After(run).queue ==> NotBefore(a, b)
  {
    DisciplinedPrefix(run, i);
    RunsKeepInv(run[..i]);
    OneStagePerKey(After(run[..i]), key, a);
    var p := s => Inv(s) && Reached(s, key, a);
    forall s, e | p(s) && Disciplined(s, e) ensures p(Step(s, e)) {
      StepKeepsInv(s, e);
      StepKeepsReached(s, e, key, a);
    }
    RunsKeep(p, run, i);
  }

  /** A PUBLISH of a queued message is written only together with the queue holding it, unreleased, under that
      identifier. */
  lemma PublishMeansSent(s: State, e: Event, w: Write)
    requires Inv(s) && Disciplined(s, e)
    requires w.Publish? && w.key in s.enqueued
    requires Step(s, e).writes == s.writes + [w]
    ensures Entry(w.key, Sent(w.id)) in Step(s, e).queue
  {
    var s' := Step(s, e);
    assert s'.writes[|s.writes|] == w;
    match e
    case UpdateAnswers(u, ok) => SetStageMembers(s.queue, IndexOfKey(s.queue, u.key), Sent(u.id));
    case StreamAnswers(_, _) => SetStageMembers(s.queue, Target(s.queue, s.replay.work.item), s.replay.work.item.stage);
    case _ =>
  }

  lemma StepWritesAtMostOne(s: State, e: Event)
    ensures Step(s, e).writes == s.writes || exists w :: Step(s, e).writes == s.writes + [w]
  {}

  predicate Publishes(w: Write, key: Key) {
    w.Publish? && w.key == key
  }

  /** From its n-th write on, nothing publishes this message. */
  predicate SilentSince(s: State, n: nat, key: Key) {
    n <= |s.writes| && forall w | w in s.writes[n..] :: !Publishes(w, key)
  }

  /** A step that leaves a message past its PUBREC does not write its PUBLISH. */
  lemma ReleasedIsNotPublished(s: State, e: Event, key: Key, id: nat, w: Write)
    requires Inv(s) && Disciplined(s, e) && Reached(s, key, Released(id))
    requires Step(s, e).writes == s.writes + [w]
    ensures !Publishes(w, key)
  {
    if Publishes(w, key) {
      StepKeepsReached(s, e, key, Released(id));
      PublishMeansSent(s, e, w);
    }
  }

  lemma StepKeepsSilent(s: State, e: Event, n: nat, key: Key, id: nat)
    requires Inv(s) && Disciplined(s, e) && Reached(s, key, Released(id)) && SilentSince(s, n, key)
    ensures SilentSince(Step(s, e), n, key)
  {
    StepWritesAtMostOne(s, e);
    if Step(s, e).writes != s.writes {
      var w :| Step(s, e).writes == s.writes + [w];
      ReleasedIsNotPublished(s, e, key, id, w);
      assert Step(s, e).writes[n..] == s.writes[n..] + [w];
    }
  }

  /** Once the PUBREC of a message has been processed, no later step of the run, on this connection
      or any later one, writes its PUBLISH again. */
  lemma NoPublishAfterPubrec(run: seq<Event>, i: nat, key: Key, id: nat)
    requires DisciplinedRun(run) && i <= |run|
    requires Entry(key, Released(id)) in After(run[..i]).queue
    ensures SilentSince(After(run), |After(run[..i]).writes|, key)
  {
    var n := |After(run[..i]).writes|;
    DisciplinedPrefix(run, i);
    RunsKeepInv(run[..i]);
    OneStagePerKey(After(run[..i]), key, Released(id));
    var p := s => Inv(s) && Reached(s, key, Released(id)) && SilentSince(s, n, key);
    forall s, e | p(s) && Disciplined(s, e) ensures p(Step(s, e)) {
      StepKeepsInv(s, e);
      StepKeepsReached(s, e, key, Released(id));
      StepKeepsSilent(s, e, n, key, id);
    }
    RunsKeep(p, run, i);
  }

  lemma FindId(s: State, e: Entry, id: nat)
    requires Inv(s) && e in s.queue && HasId(e.stage, id)
    ensures IndexOfId(s.queue, id) < |s.queue| && s.queue[IndexOfId(s.queue, id)] == e
  {
    var i := IndexOfId(s.queue, id);
    var j :| 0 <= j < |s.queue| && s.queue[j] == e;
    assert i <= j;
    var f := s.queue[i];
    assert f in s.queue && f == Entry(f.key, f.stage) && e == Entry(e.key, e.stage);
    assert Claim(s, f.key, id) && Claim(s, e.key, id);
    SameKeySameStage(s.queue, e.key, e.stage, f.stage);
  }

  lemma PubrecReleases(s: State, key: Key, id: nat)
    requires Inv(s) && s.up && !s.clean && Entry(key, Sent(id)) in s.queue
    ensures
      var r := Step(s, Pubrec(s.conn, id, true));
      && r == s.(queue := r.queue, writes := s.writes + [Pubrel(s.conn, id)])
      && Entry(key, Released(id)) in r.queue && DistinctKeys(r.queue)
  {
    FindId(s, Entry(key, Sent(id)), id);
    SetStageMembers(s.queue, IndexOfId(s.queue, id), Released(id));
  }

  lemma ReplayOverwrites(s: State, key: Key, id: nat)
    requires s.up && !s.clean && s.replay.Streaming? && s.replay.work.Idle? && DistinctKeys(s.queue)
    requires |s.replay.done| < |s.replay.snapshot| && s.replay.snapshot[|s.replay.done|] == Entry(key, Sent(id))
    requires Entry(key, Released(id)) in s.queue
    ensures
      var r := Step(Step(s, StreamNext), StreamAnswers(true, true));
      Entry(key, Sent(id)) in r.queue && r.writes == s.writes + [Publish(s.conn, key, id)]
  {
    FindKey(s.queue, Entry(key, Released(id)));
    SetStageMembers(s.queue, IndexOfKey(s.queue, key), Sent(id));
  }

  /** The assumption about PUBREC is needed. When one is processed while the replay still holds the PUBLISH
      in its snapshot, the replay puts the PUBLISH back into the queue and writes it again. */
  lemma StaleReplayUndoesPubrec(s: State, key: Key, id: nat)
    requires Inv(s) && s.up && !s.clean && s.replay.Streaming? && s.replay.work.Idle?
    requires |s.replay.done| < |s.replay.snapshot| && s.replay.snapshot[|s.replay.done|] == Entry(key, Sent(id))
    requires Entry(key, Sent(id)) in s.queue
    ensures
      var received := Step(s, Pubrec(s.conn, id, true));
      var replayed := Step(Step(received, StreamNext), StreamAnswers(true, true));
      && Entry(key, Released(id)) in received.queue
      && received.writes == s.writes + [Pubrel(s.conn, id)]
      && Entry(key, Sent(id)) in replayed.queue
      && replayed.writes == received.writes + [Publish(s.conn, key, id)]
  {
    PubrecReleases(s, key, id);
    ReplayOverwrites(Step(s, Pubrec(s.conn, id, true)), key, id);
  }

  predicate LosesExactly(queue: seq<Entry>, queue': seq<Entry>, e: Entry) {
    && !Queued(queue', e.key)
    && (forall x | x in queue && x != e :: x in queue')
    && (forall x | x in queue' :: x in queue)
  }

  lemma AckRemovesOne(s: State, e: Entry, id: nat)
    requires Inv(s) && e in s.queue && HasId(e.stage, id)
    ensures LosesExactly(s.queue, Step(s, Ack(id, true)).queue, e)
  {
    FindId(s, e, id);
    var i := IndexOfId(s.queue, id);
    RemoveKeepsOthers(s.queue, i);
    RemoveDistinct(s.queue, i);
  }

  /** In every disciplined run an acknowledgement removes the message that carries its identifier and no other. */
  lemma AckRemovesItsMessage(run: seq<Event>, e: Entry, id: nat)
    requires DisciplinedRun(run)
    requires e in After(run).queue && HasId(e.stage, id)
    ensures LosesExactly(After(run).queue, After(run + [Ack(id, true)]).queue, e)
  {
    RunsKeepInv(run);
    assert (run + [Ack(id, true)])[..|run|] == run;
    AckRemovesOne(After(run), e, id);
  }

  lemma LateClearRemovesOne(s: State, l: Late)
    requires Inv(s) && l in s.late && l.LateClear?
    ensures
      var i, queue' := IndexOfId(s.queue, l.id), Step(s, LateAnswers(l, true)).queue;
      if i < |s.queue| then s.queue[i].key == l.key && LosesExactly(s.queue, queue', s.queue[i]) else queue' == s.queue
  {
    var i := IndexOfId(s.queue, l.id);
    if i < |s.queue| {
      assert s.queue[i] in s.queue && Claim(s, s.queue[i].key, l.id);
      assert l == LateClear(l.key, l.id) && Claim(s, l.key, l.id);
      RemoveKeepsOthers(s.queue, i);
      RemoveDistinct(s.queue, i);
    }
  }

  /** A clear left behind by a replaced connection, too, takes its own message and no other. */
  lemma LateClearRemovesItsMessage(run: seq<Event>, l: Late)
    requires DisciplinedRun(run) && l in After(run).late && l.LateClear?
    ensures
      var s := After(run);
      var i, queue' := IndexOfId(s.queue, l.id), Step(s, LateAnswers(l, true)).queue;
      if i < |s.queue| then s.queue[i].key == l.key && LosesExactly(s.queue, queue', s.queue[i]) else queue' == s.queue
  {
    RunsKeepInv(run);
    LateClearRemovesOne(After(run), l);
  }

  /** Without free identifiers that fails: of two messages with one identifier an acknowledgement always
      removes the older one, whichever it answers. */
  lemma CollidingIdsMisdirectAck(s: State, i: nat, j: nat, id: nat)
    requires i < j < |s.queue| && DistinctKeys(s.queue)
    requires HasId(s.queue[i].stage, id) && HasId(s.queue[j].stage, id)
    ensures Queued(Step(s, Ack(id, true)).queue, s.queue[j].key)
  {
    var k := IndexOfId(s.queue, id);
    RemoveKeepsOthers(s.queue, k);
    assert s.queue[j] in Remove(s.queue, k);
  }

  /** A PUBREL left in the queue is sent again by the next replay. */
  lemma ReplayResendsPubrel(s: State, key: Key, id: nat, authorised: bool)
    requires Inv(s) && s.up && !s.clean && s.replay.Streaming? && s.replay.work.Idle?
    requires |s.replay.done| < |s.replay.snapshot| && s.replay.snapshot[|s.replay.done|] == Entry(key, Released(id))
    requires Entry(key, Released(id)) in s.queue
    ensures
      var s' := Step(Step(s, StreamNext), StreamAnswers(true, authorised));
      s'.writes == s.writes + [Pubrel(s.conn, id)] && s'.queue == s.queue
  {
    FindId(s, Entry(key, Released(id)), id);
  }

  // ---------- One delivery, from the queue and back ----------

  lemma LastIsFound(queue: seq<Entry>, e: Entry)
    requires !Queued(queue, e.key) && (!e.stage.Unsent? ==> forall x | x in queue :: !HasId(x.stage, e.stage.id))
    ensures IndexOfKey(queue + [e], e.key) == |queue|
    ensures !e.stage.Unsent? ==> IndexOfId(queue + [e], e.stage.id) == |queue|
  {
    var all := queue + [e];
    assert all[|queue|] == e;
    assert forall i | 0 <= i < |queue| :: all[i] == queue[i] && queue[i] in queue;
  }

  lemma LastChanges(queue: seq<Entry>, e: Entry, stage: Stage)
    ensures SetStage(queue + [e], |queue|, stage) == queue + [Entry(e.key, stage)]
    ensures Remove(queue + [e], |queue|) == queue
  {}

  /** In any state of a disciplined run, also during a replay: a new message that is enqueued, delivered, received and
      completed keeps the discipline, is written once as PUBLISH and then once as PUBREL under one identifier, and
      leaves the queue as it was. */
  lemma DeliveryRoundTrip(s: State, key: Key)
    requires Inv(s) && s.up && !s.clean && key !in s.enqueued && Free(s, s.nextId) && Unassigned(s, key)
    ensures
      var id := s.nextId;
      var enqueued := Step(s, Enqueue(key));
      var asked := Step(enqueued, Deliver(key, true, true));
      var sent := Step(asked, UpdateAnswers(Update(s.conn, key, id), true));
      var received := Step(sent, Pubrec(s.conn, id, true));
      && Disciplined(s, Enqueue(key)) && Disciplined(enqueued, Deliver(key, true, true))
      && Disciplined(sent, Pubrec(s.conn, id, true))
      && received.queue == s.queue + [Entry(key, Released(id))]
      && Step(received, Ack(id, true))
         == s.(enqueued := s.enqueued + {key}, nextId := PacketIds.Advance(id),
               writes := s.writes + [Publish(s.conn, key, id)] + [Pubrel(s.conn, id)])
  {
    var id, u := s.nextId, Update(s.conn, key, s.nextId);
    var enqueued := Step(s, Enqueue(key));
    var asked := Step(enqueued, Deliver(key, true, true));
    NewMessageIsFree(s, key);
    NewMessageIsSent(s, key);
    var sent := Step(asked, UpdateAnswers(u, true));
    LastIsFound(s.queue, Entry(key, Sent(id)));
    LastChanges(s.queue, Entry(key, Sent(id)), Released(id));
    LastIsFound(s.queue, Entry(key, Released(id)));
    LastChanges(s.queue, Entry(key, Released(id)), Released(id));
    forall k ensures !PublishWaits(sent, k, id) {
      assert PublishWaits(sent, k, id) ==> Claim(s, k, id);
    }
  }

  lemma NewMessageIsFree(s: State, key: Key)
    requires Inv(s) && key !in s.enqueued && Free(s, s.nextId) && Unassigned(s, key)
    ensures
      var enqueued := Step(s, Enqueue(key));
      Free(enqueued, s.nextId) && Unassigned(enqueued, key)
    ensures !Queued(s.queue, key) && forall x | x in s.queue :: !HasId(x.stage, s.nextId)
  {
    var enqueued := Step(s, Enqueue(key));
    assert forall k, i :: Claim(enqueued, k, i) ==> Claim(s, k, i);
    forall x | x in s.queue ensures !HasId(x.stage, s.nextId) {
      assert !Claim(s, x.key, s.nextId) && x == Entry(x.key, x.stage);
    }
  }

  lemma NewMessageIsSent(s: State, key: Key)
    requires s.up && !s.clean && Unassigned(s, key)
    requires !Queued(s.queue, key) && forall x | x in s.queue :: !HasId(x.stage, s.nextId)
    ensures
      var u := Update(s.conn, key, s.nextId);
      Step(Step(Step(s, Enqueue(key)), Deliver(key, true, true)), UpdateAnswers(u, true))
      == s.(queue := s.queue + [Entry(key, Sent(s.nextId))], enqueued := s.enqueued + {key},
            nextId := PacketIds.Advance(s.nextId), writes := s.writes + [Publish(s.conn, key, s.nextId)])
  {
    var u := Update(s.conn, key, s.nextId);
    assert u !in s.pending by { assert !Claim(s, key, s.nextId); }
    assert s.pending + {u} - {u} == s.pending;
    LastIsFound(s.queue, Entry(key, Unsent));
    LastChanges(s.queue, Entry(key, Unsent), Sent(s.nextId));
  }

  // ---------- What a replay achieves ----------

  predicate TakenOut(o: Outcome) { o == Refused || o == Discarded }

  /** What the replay has achieved so far. */
  ghost predicate ReplayAccounted(s: State) {
    s.replay.Streaming? ==>
      && |s.replay.done| <= |s.replay.snapshot|
      && (s.clean ==> Wrote !in s.replay.done)
      && (!s.clean ==> Discarded !in s.replay.done)
      && (!s.clean && s.replay.work.Clearing? ==> s.replay.work.refused)
      && (forall i | 0 <= i < |s.replay.done| && TakenOut(s.replay.done[i]) ::
          !Queued(s.queue, s.replay.snapshot[i].key))
      && (s.replay.work.Clearing? ==> CarriesItemId(s.queue, s.replay.work.item))
  }

  predicate CarriesItemId(queue: seq<Entry>, item: Entry) {
    !item.stage.Unsent? && forall e | e in queue && e.key == item.key :: HasId(e.stage, item.stage.id)
  }

  lemma StillTakenOut(s: State, e: Event, key: Key)
    requires Inv(s) && Disciplined(s, e) && key in s.enqueued && !Queued(s.queue, key)
    ensures !Queued(Step(s, e).queue, key)
  {
    if Queued(Step(s, e).queue, key) {
      var x :| x in Step(s, e).queue && x.key == key;
      NeverEnqueuedAgain(s, e, key, x.stage);
    }
  }

  lemma StillCarriesItemId(s: State, e: Event, item: Entry)
    requires Inv(s) && Disciplined(s, e) && item.key in s.enqueued && CarriesItemId(s.queue, item)
    ensures CarriesItemId(Step(s, e).queue, item)
  {
    forall x | x in Step(s, e).queue && x.key == item.key ensures HasId(x.stage, item.stage.id) {
      NeverEnqueuedAgain(s, e, item.key, x.stage);
      var y :| y in s.queue && y.key == item.key;
      assert y == Entry(item.key, y.stage) && x == Entry(item.key, x.stage);
      StepMovesForward(s, e, item.key, y.stage, x.stage);
    }
  }

  /** The part of the bookkeeping that other steps cannot disturb. */
  lemma OtherStepKeepsAccount(s: State, e: Event)
    requires Inv(s) && Disciplined(s, e) && ReplayAccounted(s)
    requires Step(s, e).replay == s.replay && Step(s, e).clean == s.clean
    ensures ReplayAccounted(Step(s, e))
  {
    if s.replay.Streaming? {
      forall i | 0 <= i < |s.replay.done| && TakenOut(s.replay.done[i])
        ensures !Queued(Step(s, e).queue, s.replay.snapshot[i].key)
      {
        assert s.replay.snapshot[i] in s.replay.snapshot;
        StillTakenOut(s, e, s.replay.snapshot[i].key);
      }
      if s.replay.work.Clearing? {
        assert s.replay.snapshot[|s.replay.done|] in s.replay.snapshot;
        StillCarriesItemId(s, e, s.replay.work.item);
      }
    }
  }

  /** The replay step s -> s' finishes or continues the current item; the earlier ones stay as they are. */
  lemma EarlierItemsStayOut(s: State, e: Event)
    requires Inv(s) && Disciplined(s, e) && ReplayAccounted(s) && s.replay.Streaming?
    ensures forall i | 0 <= i < |s.replay.done| && TakenOut(s.replay.done[i]) ::
              !Queued(Step(s, e).queue, s.replay.snapshot[i].key)
  {
    forall i | 0 <= i < |s.replay.done| && TakenOut(s.replay.done[i])
      ensures !Queued(Step(s, e).queue, s.replay.snapshot[i].key)
    {
      assert s.replay.snapshot[i] in s.replay.snapshot;
      StillTakenOut(s, e, s.replay.snapshot[i].key);
    }
  }

  lemma StreamAnswersKeepsCarrying(s: State, ok: bool, authorised: bool)
    requires Inv(s) && s.replay.Streaming? && s.replay.work.Updating?
    ensures
      var s' := Step(s, StreamAnswers(ok, authorised));
      s'.replay.Streaming? && s'.replay.work.Clearing? ==> CarriesItemId(s'.queue, s'.replay.work.item)
  {
    var item := s.replay.work.item;
    var i := Target(s.queue, item);
    if ok && i < |s.queue| {
      if item.stage.Released? {
        ReplayedPubrelChangesNothing(s, item);
        assert OnlyReleased(s.queue, item.key, item.stage.id) by {
          assert Working(s, Entry(item.key, Released(item.stage.id)));
        }
      } else {
        SetStageMembers(s.queue, i, item.stage);
      }
    }
  }

  /** The current item ends with outcome o; the account of the others is unchanged. */
  lemma ItemEndsKeepsAccount(s: State, s': State, o: Outcome)
    requires ReplayAccounted(s) && s.replay.Streaming? && |s.replay.done| < |s.replay.snapshot|
    requires s'.clean == s.clean && if s.clean then o != Wrote else o != Discarded
    requires
      var key := s.replay.snapshot[|s.replay.done|].key;
      && s'.replay == Streaming(s.replay.snapshot, s.replay.done + [o], Idle)
      && (TakenOut(o) ==> !Queued(s'.queue, key))
    requires forall i | 0 <= i < |s.replay.done| && TakenOut(s.replay.done[i]) ::
        !Queued(s'.queue, s.replay.snapshot[i].key)
    ensures ReplayAccounted(s')
  {}

  lemma StreamAnswersKeepsAccount(s: State, ok: bool, authorised: bool)
    requires Inv(s) && ReplayAccounted(s) && s.replay.Streaming? && s.replay.work.Updating?
    ensures ReplayAccounted(Step(s, StreamAnswers(ok, authorised)))
  {
    var s' := Step(s, StreamAnswers(ok, authorised));
    if s'.replay.Stopped? {
    } else {
      EarlierItemsStayOut(s, StreamAnswers(ok, authorised));
      if s'.replay.work.Clearing? {
        StreamAnswersKeepsCarrying(s, ok, authorised);
      } else {
        ItemEndsKeepsAccount(s, s', s'.replay.done[|s.replay.done|]);
      }
    }
  }

  lemma ClearingTakesOut(s: State)
    requires Inv(s) && ReplayAccounted(s) && s.replay.Streaming? && s.replay.work.Clearing?
    ensures !Queued(Step(s, StreamCleared(true)).queue, s.replay.work.item.key)
  {
    var item := s.replay.work.item;
    if Queued(s.queue, item.key) {
      var x :| x in s.queue && x.key == item.key;
      FindId(s, x, item.stage.id);
      RemoveDistinct(s.queue, IndexOfId(s.queue, item.stage.id));
    } else {
      assert s.replay.snapshot[|s.replay.done|] in s.replay.snapshot;
      StillTakenOut(s, StreamCleared(true), item.key);
    }
  }

  lemma StreamClearedKeepsAccount(s: State, ok: bool)
    requires Inv(s) && ReplayAccounted(s) && s.replay.Streaming? && s.replay.work.Clearing?
    ensures ReplayAccounted(Step(s, StreamCleared(ok)))
  {
    if ok {
      EarlierItemsStayOut(s, StreamCleared(ok));
      ClearingTakesOut(s);
      ItemEndsKeepsAccount(s, Step(s, StreamCleared(ok)), if s.replay.work.refused then Refused else Discarded);
    }
  }

  lemma StepKeepsAccount(s: State, e: Event)
    requires Inv(s) && Disciplined(s, e) && ReplayAccounted(s)
    ensures ReplayAccounted(Step(s, e))
  {
    if Step(s, e).replay == s.replay && Step(s, e).clean == s.clean {
      OtherStepKeepsAccount(s, e);
    } else if s.replay.Streaming? {
      match e
      case StreamAnswers(ok, authorised) => StreamAnswersKeepsAccount(s, ok, authorised);
      case StreamCleared(ok) => StreamClearedKeepsAccount(s, ok);
      case _ =>
    }
  }

  lemma RunsKeepAccount(run: seq<Event>)
    requires DisciplinedRun(run)
    ensures ReplayAccounted(After(run))
  {
    var p := s => Inv(s) && ReplayAccounted(s);
    forall s, e | p(s) && Disciplined(s, e) ensures p(Step(s, e)) {
      StepKeepsInv(s, e);
      StepKeepsAccount(s, e);
    }
    RunsKeep(p, run, 0);
  }

  // ---------- The program's state ----------

  class Session {
    var queue: seq<Entry>
    var conn: nat
    var up: bool
    var clean: bool
    var nextId: nat
    var pending: set<Update>
    var late: set<Late>
    var replay: Replay
    var writes: seq<Write>
    ghost var enqueued: set<Key>

    ghost function Abs(): (s: State) reads this {
      State(queue, enqueued, conn, up, clean, nextId, pending, late, replay, writes)
    }

    constructor ()
      ensures Abs() == INITIAL
    {
      queue, conn, up, clean, nextId, pending, late, replay, writes := [], 0, false, false, 1, {}, {}, NoReplay, [];
      enqueued := {};
    }

    /** The packet identifier of a new QoSPacket. */
    method AllotId() returns (id: nat)
      modifies this`nextId
      ensures id == old(nextId) && nextId == PacketIds.Advance(id)
    {
      id := nextId;
      if nextId >= 65535 {
        nextId := 1;
      } else {
        nextId := nextId + 1;
      }
    }

    method DeliverQoS(key: Key, authorised: bool, cleared: bool)
      modifies this
      ensures Abs() == Step(old(Abs()), Deliver(key, authorised, cleared))
    {
      if authorised {
        Forward(key);
      } else if !clean && cleared {
        queue := Remove(queue, IndexOfKey(queue, key));
      }
    }

    /** The packet gets an identifier and is written, or first stored. */
    method Forward(key: Key)
      modifies `nextId, `writes, `pending
      ensures nextId == PacketIds.Advance(old(nextId))
      ensures writes == old(writes) + if clean && up then [Publish(conn, key, old(nextId))] else []
      ensures pending == old(pending) + if clean then {} else {Update(conn, key, old(nextId))}
    {
      var id := AllotId();
      if clean {
        if up {
          writes := writes + [Publish(conn, key, id)];
        }
      } else {
        pending := pending + {Update(conn, key, id)};
      }
    }

    /** The continuation of a live delivery, when its storage call answers. */
    method DoWriteQoS(u: Update, ok: bool)
      requires u in pending
      modifies this
      ensures Abs() == Step(old(Abs()), UpdateAnswers(u, ok))
    {
      pending := pending - {u};
      var i := IndexOfKey(queue, u.key);
      if !ok || i == |queue| {
        if u.conn == conn {
          up := false;
        }
        return;
      }
      queue := queue[i := queue[i].(stage := Sent(u.id))];
      if u.conn == conn && up {
        writes := writes + [Publish(u.conn, u.key, u.id)];
      }
    }

    method HandlePubrec(id: nat, ok: bool)
      modifies this
      ensures Abs() == Step(old(Abs()), Pubrec(conn, id, ok))
    {
      if clean {
        if up {
          writes := writes + [Pubrel(conn, id)];
        }
        return;
      }
      var i := IndexOfId(queue, id);
      if ok && i < |queue| {
        queue := queue[i := queue[i].(stage := Released(id))];
        if up {
          writes := writes + [Pubrel(conn, id)];
        }
      } else {
        up := false;
      }
    }

    /** PUBACK and PUBCOMP; the answer is the entry that was removed, if any. */
    method HandlePuback(id: nat, ok: bool) returns (removed: seq<Entry>)
      modifies this
      ensures Abs() == Step(old(Abs()), Ack(id, ok))
      ensures removed == [] <==> !ok || forall e | e in old(queue) :: !HasId(e.stage, id)
      ensures removed != [] ==> removed[0] in old(queue) && HasId(removed[0].stage, id)
    {
      removed := [];
      if !ok {
        up := false;
        return;
      }
      var i := IndexOfId(queue, id);
      if i < |queue| {
        removed := [queue[i]];
        queue := queue[..i] + queue[i + 1..];
      }
    }

    /** The transform of `emptyQueue` takes the next item and has its identifier stored. */
    method ClearQueue()
      requires replay.Streaming? && replay.work.Idle? && |replay.done| < |replay.snapshot|
      modifies this
      ensures Abs() == Step(old(Abs()), StreamNext)
    {
      var item := replay.snapshot[|replay.done|];
      if item.stage.Unsent? {
        var id := AllotId();
        item := Entry(item.key, Sent(id));
      }
      replay := replay.(work := Updating(item));
    }

    method EmptyQueueFilter(ok: bool, authorised: bool)
      requires replay.Streaming? && replay.work.Updating? && !replay.work.item.stage.Unsent?
      modifies this
      ensures Abs() == Step(old(Abs()), StreamAnswers(ok, authorised))
    {
      var item := replay.work.item;
      var i := Target(queue, item);
      if !ok || i == |queue| {
        up := false;
        replay := replay.(work := Idle, done := replay.done + [Failed]);
        return;
      }
      queue := queue[i := queue[i].(stage := item.stage)];
      var mayForward := if item.stage.Sent? then authorised else true;
      if clean || !mayForward {
        replay := replay.(work := Clearing(item, !mayForward));
      } else if up {
        writes := writes + [ItemWrite(conn, item)];
        replay := replay.(work := Idle, done := replay.done + [Wrote]);
      } else {
        replay := Stopped;
      }
    }
  }
}
