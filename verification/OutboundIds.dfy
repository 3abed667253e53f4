/**
 Where the identifiers of stored messages come from (lib/qos-packet.js, the counter `_nextId`
 in lib/client.js): the books say, for every identifier, on which connection it was last given
 to a stored message and as how manieth identifier of that connection.

 The result: identifiers are free when they are given out exactly as long as no message in
 flight grows 65535 allocations old, and none of an earlier connection is met.
 */
module OutboundIds {
  import opened OutboundSession
  import PacketIds

  datatype Origin = Origin(conn: nat, index: nat)

  /** For the current connection: where its counter started and how many identifiers it has given out. */
  datatype Books = Books(start: nat, handedOut: nat, origins: map<nat, Origin>)

  predicate AtUnsent(s: State) {
    && s.replay.Streaming? && s.replay.work.Idle? && |s.replay.done| < |s.replay.snapshot|
    && s.replay.snapshot[|s.replay.done|].stage.Unsent?
  }

  /** The step gives out an identifier. */
  predicate Allots(s: State, e: Event) {
    (e.Deliver? && e.authorised) || (e.StreamNext? && AtUnsent(s))
  }

  /** It gives it to a stored message; on a clean session nothing is stored for a live delivery. */
  predicate Assigns(s: State, e: Event) {
    Allots(s, e) && (e.Deliver? ==> !s.clean)
  }

  function Record(b: Books, s: State, e: Event): (r: Books) {
    if e.Connect? then Books(e.start, 0, b.origins)
    else if Assigns(s, e) then
      Books(b.start, b.handedOut + 1, b.origins[s.nextId := Origin(s.conn, b.handedOut)])
    else if Allots(s, e) then b.(handedOut := b.handedOut + 1)
    else b
  }

  function BooksAfter(run: seq<Event>): (b: Books) {
    if run == [] then Books(1, 0, map[])
    else Record(BooksAfter(run[..|run| - 1]), After(run[..|run| - 1]), run[|run| - 1])
  }

  // ---------- The hypotheses, about allocations ----------

  /** The hypotheses of OutboundSession except the one about free identifiers; every counter starts in 1..65535. */
  ghost predicate Modest(s: State, e: Event) {
    match e
    case Enqueue(key) => key !in s.enqueued
    case Connect(_, start) => PacketIds.ValidId(start)
    case Deliver(key, authorised, _) =>
      authorised ==> if s.clean then key !in s.enqueued else Unassigned(s, key)
    case StreamNext => forall key :: AtUnsentItem(s, key) ==> Unassigned(s, key)
    case Pubrec(conn, id, ok) => Releases(s, conn, id, ok) ==> forall key :: !PublishWaits(s, key, id)
    case _ => true
  }

  /** Every identifier in flight that this connection gave out is fewer than 65535 allocations old, and none that an
      earlier connection gave out is next. */
  ghost predicate Spaced(s: State, b: Books) {
    forall key, id :: Claim(s, key, id) ==>
      && id in b.origins
      && if b.origins[id].conn == s.conn then b.handedOut - b.origins[id].index < PacketIds.MAX_ID else id != s.nextId
  }

  ghost predicate SpacedStep(s: State, b: Books, e: Event) {
    Modest(s, e) && (Assigns(s, e) ==> Spaced(s, b))
  }

  ghost predicate SpacedRun(run: seq<Event>) {
    forall i | 0 <= i < |run| :: SpacedStep(After(run[..i]), BooksAfter(run[..i]), run[i])
  }

  predicate StartsValid(run: seq<Event>) {
    forall i | 0 <= i < |run| && run[i].Connect? :: PacketIds.ValidId(run[i].start)
  }

  // ---------- The books are right ----------

  ghost predicate CounterRight(s: State, b: Books) {
    && PacketIds.ValidId(b.start) && s.nextId == PacketIds.FreshId(b.start, b.handedOut)
    && (forall id | id in b.origins :: b.origins[id].conn <= s.conn)
    && (forall id | id in b.origins && b.origins[id].conn == s.conn ::
          b.origins[id].index < b.handedOut && id == PacketIds.FreshId(b.start, b.origins[id].index))
  }

  ghost predicate ClaimsKnown(s: State, b: Books) {
    forall key, id :: Claim(s, key, id) ==> id in b.origins
  }

  /** Every identifier spoken for is in the books. */
  ghost predicate BooksRight(s: State, b: Books) {
    CounterRight(s, b) && ClaimsKnown(s, b) && ReplayWellFormed(s)
  }

  lemma SpacedMeansFree(s: State, b: Books)
    requires BooksRight(s, b) && Spaced(s, b)
    ensures Free(s, s.nextId)
  {
    forall key ensures !Claim(s, key, s.nextId) {
      var id := s.nextId;
      if Claim(s, key, id) && b.origins[id].conn == s.conn {
        PacketIds.FreshIdsCollide(b.start, b.origins[id].index, b.handedOut);
        PacketIds.SmallRemainder(b.handedOut - b.origins[id].index);
      }
    }
  }

  lemma CounterStaysRight(s: State, b: Books, e: Event)
    requires CounterRight(s, b) && (e.Connect? ==> PacketIds.ValidId(e.start))
    ensures CounterRight(Step(s, e), Record(b, s, e))
  {
    if !e.Connect? {
      NextIdAdvances(s, e);
    }
  }

  lemma NextIdAdvances(s: State, e: Event)
    requires !e.Connect?
    ensures Step(s, e).conn == s.conn
    ensures Step(s, e).nextId == if Allots(s, e) then PacketIds.Advance(s.nextId) else s.nextId
  {}

  // ---------- Claims come from assignments ----------

  lemma SetStageClaims(queue: seq<Entry>, i: nat, stage: Stage, key: Key, id: nat)
    requires i < |queue| && InQueue(SetStage(queue, i, stage), key, id)
    ensures InQueue(queue, key, id) || (queue[i].key == key && HasId(stage, id))
  {
    SetStageMembers(queue, i, stage);
  }

  lemma RemoveClaims(queue: seq<Entry>, i: nat, key: Key, id: nat)
    requires InQueue(Remove(queue, i), key, id)
    ensures InQueue(queue, key, id)
  {
    if i < |queue| {
      RemoveKeepsOthers(queue, i);
    }
  }

  lemma HasIdClaims(s: State, i: nat, id: nat)
    requires i < |s.queue| && HasId(s.queue[i].stage, id)
    ensures Claim(s, s.queue[i].key, id)
  {
    assert s.queue[i] in s.queue;
  }

  lemma StreamUpdateClaims(s: State, key: Key, id: nat)
    requires s.replay.Streaming? && s.replay.work.Updating? && !s.replay.work.item.stage.Unsent?
    requires var item := s.replay.work.item; InQueue(SetStage(s.queue, Target(s.queue, item), item.stage), key, id)
    ensures Claim(s, key, id)
  {
    var item := s.replay.work.item;
    var i := Target(s.queue, item);
    assert Working(s, item);
    if i < |s.queue| {
      SetStageClaims(s.queue, i, item.stage, key, id);
      if item.stage.Released? {
        HasIdClaims(s, i, item.stage.id);
      }
    }
  }

  lemma ReleaseClaims(s: State, i: nat, key: Key, id: nat)
    requires InQueue(SetStage(s.queue, IndexOfId(s.queue, i), Released(i)), key, id)
    ensures InQueue(s.queue, key, id)
  {
    if IndexOfId(s.queue, i) < |s.queue| {
      SetStageClaims(s.queue, IndexOfId(s.queue, i), Released(i), key, id);
      HasIdClaims(s, IndexOfId(s.queue, i), i);
    }
  }

  lemma UpdateClaims(s: State, u: Update, key: Key, id: nat)
    requires u in s.pending && InQueue(SetStage(s.queue, IndexOfKey(s.queue, u.key), Sent(u.id)), key, id)
    ensures Claim(s, key, id)
  {
    if IndexOfKey(s.queue, u.key) < |s.queue| {
      SetStageClaims(s.queue, IndexOfKey(s.queue, u.key), Sent(u.id), key, id);
      assert Update(u.conn, u.key, u.id) in s.pending;
    }
  }

  lemma QueueClaims(s: State, e: Event, key: Key, id: nat)
    requires InQueue(Step(s, e).queue, key, id)
    ensures Claim(s, key, id)
  {
    if Step(s, e).queue == s.queue {
    } else {
      match e
      case UpdateAnswers(u, ok) => UpdateClaims(s, u, key, id);
      case StreamAnswers(_, _) => StreamUpdateClaims(s, key, id);
      case Pubrec(_, i, _) => ReleaseClaims(s, i, key, id);
      case Deliver(k, _, _) => RemoveClaims(s.queue, IndexOfKey(s.queue, k), key, id);
      case LateAnswers(l, _) =>
        if l.LateClear? {
          RemoveClaims(s.queue, IndexOfId(s.queue, l.id), key, id);
        } else {
          ReleaseClaims(s, l.id, key, id);
        }
      case StreamCleared(_) => RemoveClaims(s.queue, IndexOfId(s.queue, s.replay.work.item.stage.id), key, id);
      case Ack(i, _) => RemoveClaims(s.queue, IndexOfId(s.queue, i), key, id);
      case EmptyItem(k) => RemoveClaims(s.queue, IndexOfKey(s.queue, k), key, id);
      case Enqueue(k) =>
    }
  }

  lemma PendingClaims(s: State, e: Event, u: Update)
    requires u in Step(s, e).pending
    ensures Claim(s, u.key, u.id) || (Assigns(s, e) && u.id == s.nextId)
  {
    if u in s.pending {
      assert Update(u.conn, u.key, u.id) in s.pending;
    } else if e.Connect? {
      assert Working(s, Entry(u.key, Sent(u.id)));
    } else {
    }
  }

  lemma LateClaims(s: State, e: Event, l: Late)
    requires l in Step(s, e).late
    ensures Claim(s, l.key, l.id)
  {
    if l !in s.late {
      assert Working(s, s.replay.work.item);
    }
  }

  lemma AheadClaims(s: State, e: Event, item: Entry)
    requires Ahead(Step(s, e), item) && ReplayWellFormed(s)
    ensures Ahead(s, item) || item in s.queue
  {
    var r := Step(s, e).replay;
    if s.replay.Streaming? && r.done != s.replay.done {
      StillAhead(s, Step(s, e), item);
    }
  }

  lemma WorkingClaims(s: State, e: Event, item: Entry)
    requires Working(Step(s, e), item) && ReplayWellFormed(s)
    ensures Working(s, item) || Ahead(s, item) || (Assigns(s, e) && item.stage == Sent(s.nextId))
  {
    if !Working(s, item) && s.replay.Streaming? && e.StreamNext? {
      assert s.replay.snapshot[|s.replay.done|..][0] == s.replay.snapshot[|s.replay.done|];
    }
  }

  /** A new claim comes from an assignment. */
  lemma ClaimsAreAssigned(s: State, e: Event, key: Key, id: nat)
    requires ReplayWellFormed(s) && Claim(Step(s, e), key, id)
    ensures Claim(s, key, id) || (Assigns(s, e) && id == s.nextId)
  {
    var s' := Step(s, e);
    if InQueue(s'.queue, key, id) {
      QueueClaims(s, e, key, id);
    } else if exists conn :: Update(conn, key, id) in s'.pending {
      var conn :| Update(conn, key, id) in s'.pending;
      PendingClaims(s, e, Update(conn, key, id));
    } else if LateClear(key, id) in s'.late {
      LateClaims(s, e, LateClear(key, id));
    } else if LateRelease(key, id) in s'.late {
      LateClaims(s, e, LateRelease(key, id));
    } else {
      var item := if Ahead(s', Entry(key, Sent(id))) || Working(s', Entry(key, Sent(id))) then Entry(key, Sent(id))
                  else Entry(key, Released(id));
      if Ahead(s', item) {
        AheadClaims(s, e, item);
      } else {
        WorkingClaims(s, e, item);
      }
    }
  }

  lemma StepKeepsBooksRight(s: State, b: Books, e: Event)
    requires BooksRight(s, b) && (e.Connect? ==> PacketIds.ValidId(e.start))
    ensures BooksRight(Step(s, e), Record(b, s, e))
  {
    CounterStaysRight(s, b, e);
    StepKeepsWellFormed(s, e);
    forall key, id | Claim(Step(s, e), key, id) ensures id in Record(b, s, e).origins {
      ClaimsAreAssigned(s, e, key, id);
    }
  }

  lemma StepKeepsWellFormed(s: State, e: Event)
    requires ReplayWellFormed(s)
    ensures ReplayWellFormed(Step(s, e))
  {}

  /** Whatever happens, the books are right. */
  lemma {:induction false} RunsKeepBooksRight(run: seq<Event>)
    requires StartsValid(run)
    ensures BooksRight(After(run), BooksAfter(run))
  {
    if run == [] {
      assert forall key, id :: !Claim(INITIAL, key, id);
    } else {
      var prefix, e := run[..|run| - 1], run[|run| - 1];
      RunsKeepBooksRight(prefix);
      StepKeepsBooksRight(After(prefix), BooksAfter(prefix), e);
    }
  }

  lemma SpacedStepIsDisciplined(s: State, b: Books, e: Event)
    requires BooksRight(s, b) && SpacedStep(s, b, e)
    ensures Disciplined(s, e)
  {
    if Assigns(s, e) {
      SpacedMeansFree(s, b);
    }
  }

  lemma SpacedStartsValid(run: seq<Event>)
    requires SpacedRun(run)
    ensures StartsValid(run)
  {
    forall i | 0 <= i < |run| && run[i].Connect? ensures PacketIds.ValidId(run[i].start) {
      assert SpacedStep(After(run[..i]), BooksAfter(run[..i]), run[i]);
    }
  }

  /** So in a run whose allocations are spaced, every identifier is free when it is given out. */
  lemma SpacedRunIsDisciplined(run: seq<Event>)
    requires SpacedRun(run)
    ensures DisciplinedRun(run)
  {
    SpacedStartsValid(run);
    forall i | 0 <= i < |run| ensures Disciplined(After(run[..i]), run[i]) {
      assert StartsValid(run[..i]);
      RunsKeepBooksRight(run[..i]);
      assert SpacedStep(After(run[..i]), BooksAfter(run[..i]), run[i]);
      SpacedStepIsDisciplined(After(run[..i]), BooksAfter(run[..i]), run[i]);
    }
  }

  /** And every acknowledgement removes the message that carries its identifier, and no other. */
  lemma SpacedAckRemovesItsMessage(run: seq<Event>, e: Entry, id: nat)
    requires SpacedRun(run) && e in After(run).queue && HasId(e.stage, id)
    ensures LosesExactly(After(run).queue, After(run + [Ack(id, true)]).queue, e)
  {
    SpacedRunIsDisciplined(run);
    AckRemovesItsMessage(run, e, id);
  }

  // ---------- The hypothesis is exact ----------

  /** Nothing of this connection is more than 65535 allocations old. */
  ghost predicate Young(s: State, b: Books) {
    forall key, id :: Claim(s, key, id) && id in b.origins && b.origins[id].conn == s.conn ==>
      b.handedOut - b.origins[id].index <= PacketIds.MAX_ID
  }

  lemma FreeMeansSpaced(s: State, b: Books)
    requires BooksRight(s, b) && Young(s, b) && Free(s, s.nextId)
    ensures Spaced(s, b)
  {
    forall key, id | Claim(s, key, id)
      ensures
        && id in b.origins
        && if b.origins[id].conn == s.conn then b.handedOut - b.origins[id].index < PacketIds.MAX_ID else id != s.nextId
    {
      assert !Claim(s, key, s.nextId);
      if b.origins[id].conn == s.conn && b.handedOut - b.origins[id].index == PacketIds.MAX_ID {
        PacketIds.FreshIdsCollide(b.start, b.origins[id].index, b.handedOut);
      }
    }
  }

  lemma AssignedIsFree(s: State, e: Event)
    requires Disciplined(s, e) && Assigns(s, e)
    ensures Free(s, s.nextId)
  {
    if e.StreamNext? {
      assert AtUnsentItem(s, s.replay.snapshot[|s.replay.done|].key);
    }
  }

  /** No live delivery takes place on a clean session. */
  predicate StoresAll(run: seq<Event>) {
    forall i | 0 <= i < |run| && Allots(After(run[..i]), run[i]) :: Assigns(After(run[..i]), run[i])
  }

  lemma StepKeepsYoung(s: State, b: Books, e: Event)
    requires BooksRight(s, b) && Young(s, b) && (Allots(s, e) ==> Assigns(s, e) && Spaced(s, b))
    ensures Young(Step(s, e), Record(b, s, e))
  {
    var s', b' := Step(s, e), Record(b, s, e);
    forall key, id | Claim(s', key, id) && id in b'.origins && b'.origins[id].conn == s'.conn
      ensures b'.handedOut - b'.origins[id].index <= PacketIds.MAX_ID
    {
      ClaimsAreAssigned(s, e, key, id);
      if !e.Connect? {
        NextIdAdvances(s, e);
      }
    }
  }

  lemma StepKeepsDisciplineYoung(s: State, b: Books, e: Event)
    requires BooksRight(s, b) && Young(s, b) && Disciplined(s, e) && (Allots(s, e) ==> Assigns(s, e))
    ensures Young(Step(s, e), Record(b, s, e))
  {
    if Assigns(s, e) {
      AssignedIsFree(s, e);
      FreeMeansSpaced(s, b);
    }
    StepKeepsYoung(s, b, e);
  }

  ghost predicate Storing(run: seq<Event>) {
    StartsValid(run) && StoresAll(run) && DisciplinedRun(run)
  }

  lemma StoringPrefix(run: seq<Event>, n: nat)
    requires Storing(run) && n <= |run|
    ensures Storing(run[..n])
  {
    assert forall i | 0 <= i < n :: run[..n][..i] == run[..i] && run[..n][i] == run[i];
    DisciplinedPrefix(run, n);
  }

  lemma StoringAt(run: seq<Event>, i: nat)
    requires Storing(run) && i < |run|
    ensures
      var s, e := After(run[..i]), run[i];
      Disciplined(s, e) && (Allots(s, e) ==> Assigns(s, e)) && (e.Connect? ==> PacketIds.ValidId(e.start))
  {}

  lemma {:induction false} RunsKeepYoung(run: seq<Event>)
    requires Storing(run)
    ensures Young(After(run), BooksAfter(run))
  {
    if run == [] {
      assert forall key, id :: !Claim(INITIAL, key, id);
    } else {
      var n := |run| - 1;
      StoringPrefix(run, n);
      StoringAt(run, n);
      RunsKeepYoung(run[..n]);
      RunsKeepBooksRight(run[..n]);
      StepKeepsDisciplineYoung(After(run[..n]), BooksAfter(run[..n]), run[n]);
    }
  }

  lemma DisciplinedStepIsSpaced(s: State, b: Books, e: Event)
    requires BooksRight(s, b) && Young(s, b) && Disciplined(s, e) && (e.Connect? ==> PacketIds.ValidId(e.start))
    ensures SpacedStep(s, b, e)
  {
    if Assigns(s, e) {
      AssignedIsFree(s, e);
      FreeMeansSpaced(s, b);
    }
  }

  lemma StoringIsSpacedAt(run: seq<Event>, i: nat)
    requires Storing(run) && i < |run|
    ensures SpacedStep(After(run[..i]), BooksAfter(run[..i]), run[i])
  {
    StoringPrefix(run, i);
    StoringAt(run, i);
    RunsKeepYoung(run[..i]);
    RunsKeepBooksRight(run[..i]);
    DisciplinedStepIsSpaced(After(run[..i]), BooksAfter(run[..i]), run[i]);
  }

  /** Every identifier given out is free if and only if nothing in flight is 65535 allocations old by then and no
      identifier left over from an earlier connection is met. */
  lemma DisciplinedIffSpaced(run: seq<Event>)
    requires StartsValid(run) && StoresAll(run)
    ensures DisciplinedRun(run) <==> SpacedRun(run)
  {
    if DisciplinedRun(run) {
      forall i | 0 <= i < |run| ensures SpacedStep(After(run[..i]), BooksAfter(run[..i]), run[i]) {
        StoringIsSpacedAt(run, i);
      }
    } else if SpacedRun(run) {
      SpacedRunIsDisciplined(run);
    }
  }
}
