/**
 Two races of the send side that the discipline of OutboundSession excludes, and what they do:
 a PUBREC that is processed while the PUBLISH it answers is still to be stored or replayed
 (lib/handlers/pubrec.js against `emptyQueue` in lib/handlers/connect.js and `deliverQoS` in
 lib/client.js), and a message that replay and live delivery both give an identifier.
 */
module OutboundRaces {
  import opened OutboundSession
  import PacketIds

  lemma AfterSnoc(run: seq<Event>, e: Event)
    ensures After(run + [e]) == Step(After(run), e)
  {
    assert (run + [e])[..|run|] == run;
  }

  // ---------- A PUBREC that comes too early ----------

  /** Steps of the program alone: answers of storage, and the replay going on. No packet, no new message. */
  predicate OwnStep(e: Event) {
    e.UpdateAnswers? || e.StreamNext? || e.StreamAnswers? || e.StreamCleared?
  }

  predicate OwnSteps(more: seq<Event>) {
    forall e | e in more :: OwnStep(e)
  }

  /** Item p of the replay is the PUBLISH of this message, it has not been reached, and the message is queued; what is
      being cleared is no entry of that message. */
  predicate Approaches(s: State, p: nat, key: Key, id: nat) {
    && s.replay.Streaming? && |s.replay.done| <= p < |s.replay.snapshot|
    && s.replay.snapshot[p] == Entry(key, Sent(id)) && Queued(s.queue, key)
    && (!s.replay.work.Idle? ==> |s.replay.done| < p && !s.replay.work.item.stage.Unsent?)
    && (s.replay.work.Clearing? ==> Queued(Remove(s.queue, IndexOfId(s.queue, s.replay.work.item.stage.id)), key))
  }

  lemma QueuedIsFound(queue: seq<Entry>, key: Key)
    requires Queued(queue, key)
    ensures IndexOfKey(queue, key) < |queue|
  {
    var e :| e in queue && e.key == key;
    var j :| 0 <= j < |queue| && queue[j] == e;
  }

  /** The replay reaches the item: its update puts the PUBLISH back. */
  lemma ItemReached(s: State, p: nat, key: Key, id: nat)
    requires Approaches(s, p, key, id) && |s.replay.done| == p
    ensures Entry(key, Sent(id)) in Step(Step(s, StreamNext), StreamAnswers(true, true)).queue
  {
    QueuedIsFound(s.queue, key);
    SetStageMembers(s.queue, IndexOfKey(s.queue, key), Sent(id));
  }

  /** One item nearer. A rejected update does not stop a replay. */
  lemma OneItemNearer(s: State, p: nat, key: Key, id: nat)
    requires Approaches(s, p, key, id)
    ensures
      match s.replay.work
      case Idle =>
        |s.replay.done| < p ==>
          var t := Step(Step(s, StreamNext), StreamAnswers(false, true));
          Approaches(t, p, key, id) && t.replay.work.Idle? && |t.replay.done| == |s.replay.done| + 1
      case Updating(_) =>
        var t := Step(s, StreamAnswers(false, true));
        Approaches(t, p, key, id) && t.replay.work.Idle? && |t.replay.done| == |s.replay.done| + 1
      case Clearing(_, _) =>
        var t := Step(s, StreamCleared(true));
        Approaches(t, p, key, id) && t.replay.work.Idle? && |t.replay.done| == |s.replay.done| + 1
  {}

  /** The state after more steps. */
  function Continue(s: State, more: seq<Event>): (r: State)
    decreases more
  {
    if more == [] then s else Continue(Step(s, more[0]), more[1..])
  }

  lemma {:induction false} AfterMore(run: seq<Event>, more: seq<Event>)
    ensures After(run + more) == Continue(After(run), more)
    decreases more
  {
    if more == [] {
      assert run + more == run;
    } else {
      AfterSnoc(run, more[0]);
      assert run + more == run + [more[0]] + more[1..];
      AfterMore(run + [more[0]], more[1..]);
    }
  }

  lemma ContinueOne(s: State, e: Event, rest: seq<Event>)
    ensures Continue(s, [e] + rest) == Continue(Step(s, e), rest)
  {
    assert ([e] + rest)[0] == e && ([e] + rest)[1..] == rest;
  }

  lemma ContinueTwo(s: State, e: Event, f: Event, rest: seq<Event>)
    ensures Continue(s, [e] + ([f] + rest)) == Continue(Step(Step(s, e), f), rest)
  {
    ContinueOne(s, e, [f] + rest);
    ContinueOne(Step(s, e), f, rest);
  }

  lemma {:induction false} ReplayReachesItem(s: State, p: nat, key: Key, id: nat) returns (more: seq<Event>)
    requires Approaches(s, p, key, id)
    ensures OwnSteps(more) && Entry(key, Sent(id)) in Continue(s, more).queue
    decreases p - |s.replay.done|
  {
    OneItemNearer(s, p, key, id);
    if s.replay.work.Updating? {
      more := ReplayReachesItem(Step(s, StreamAnswers(false, true)), p, key, id);
      ContinueOne(s, StreamAnswers(false, true), more);
      more := [StreamAnswers(false, true)] + more;
    } else if s.replay.work.Clearing? {
      more := ReplayReachesItem(Step(s, StreamCleared(true)), p, key, id);
      ContinueOne(s, StreamCleared(true), more);
      more := [StreamCleared(true)] + more;
    } else if |s.replay.done| < p {
      more := ReplayReachesItem(Step(Step(s, StreamNext), StreamAnswers(false, true)), p, key, id);
      ContinueTwo(s, StreamNext, StreamAnswers(false, true), more);
      more := [StreamNext] + ([StreamAnswers(false, true)] + more);
    } else {
      ItemReached(s, p, key, id);
      ContinueTwo(s, StreamNext, StreamAnswers(true, true), []);
      more := [StreamNext] + ([StreamAnswers(true, true)] + []);
    }
  }

  /** Which entry a PUBREC finds whose PUBLISH waits: that message's own, not yet released. */
  lemma EarlyPubrecFindsIt(s: State, conn: nat, key: Key, id: nat)
    requires Inv(s) && Releases(s, conn, id, true) && PublishWaits(s, key, id)
    ensures s.queue[IndexOfId(s.queue, id)] == Entry(key, Sent(id))
  {
    var e := s.queue[IndexOfId(s.queue, id)];
    assert e in s.queue && Claim(s, e.key, id) && Claim(s, key, id);
    assert e == Entry(e.key, e.stage) && NotReleased(s.queue, key);
  }

  lemma EarlyPubrecReleases(s: State, conn: nat, key: Key, id: nat)
    requires Inv(s) && Releases(s, conn, id, true) && PublishWaits(s, key, id)
    ensures Entry(key, Released(id)) in Step(s, Pubrec(conn, id, true)).queue
    ensures DistinctKeys(Step(s, Pubrec(conn, id, true)).queue)
  {
    EarlyPubrecFindsIt(s, conn, key, id);
    SetStageMembers(s.queue, IndexOfId(s.queue, id), Released(id));
  }

  /** The item being replayed is another one. */
  lemma WorkingElsewhere(s: State, key: Key, id: nat, p: nat)
    requires Inv(s) && s.replay.Streaming? && !s.replay.work.Idle? && |s.replay.done| <= p < |s.replay.snapshot|
    requires s.replay.snapshot[p] == Entry(key, Sent(id)) && Entry(key, Sent(id)) in s.queue
    requires !Clears(s, Entry(key, Sent(id))) && !Updates(s, Entry(key, Sent(id)))
    ensures |s.replay.done| < p && s.replay.work.item.key != key
  {
    var item := s.replay.work.item;
    assert Ahead(s, Entry(key, Sent(id))) && Claim(s, key, id);
    if item.key == key {
      assert Working(s, item);
      if item.stage.Released? {
        assert item == Entry(key, Released(item.stage.id)) && PubrelWaits(s, key, item.stage.id);
      } else {
        assert item == Entry(key, Sent(item.stage.id)) && Claim(s, key, item.stage.id);
      }
    }
  }

  /** After a PUBREC that released the entry although its PUBLISH waits, the replay still has it before it. */
  lemma EarlyPubrecApproaches(s: State, conn: nat, key: Key, id: nat, p: nat)
    requires Inv(s) && Releases(s, conn, id, true)
    requires s.replay.Streaming? && |s.replay.done| <= p < |s.replay.snapshot|
    requires s.replay.snapshot[p] == Entry(key, Sent(id))
    requires !Clears(s, Entry(key, Sent(id))) && !Updates(s, Entry(key, Sent(id)))
    ensures Approaches(Step(s, Pubrec(conn, id, true)), p, key, id)
  {
    var s' := Step(s, Pubrec(conn, id, true));
    assert s.replay.snapshot[|s.replay.done|..][p - |s.replay.done|] == Entry(key, Sent(id));
    assert Ahead(s, Entry(key, Sent(id))) && PublishWaits(s, key, id);
    EarlyPubrecFindsIt(s, conn, key, id);
    EarlyPubrecReleases(s, conn, key, id);
    assert Entry(key, Released(id)).key == key;
    if !s.replay.work.Idle? {
      assert s.queue[IndexOfId(s.queue, id)] in s.queue;
      WorkingElsewhere(s, key, id, p);
      if s.replay.work.Clearing? {
        ClearingSparesIt(s, conn, key, id);
      }
    }
  }

  /** What is being cleared has another identifier. */
  lemma ClearingSparesIt(s: State, conn: nat, key: Key, id: nat)
    requires Inv(s) && Releases(s, conn, id, true) && PublishWaits(s, key, id)
    requires s.replay.Streaming? && s.replay.work.Clearing? && s.replay.work.item.key != key
    ensures
      var s' := Step(s, Pubrec(conn, id, true));
      Queued(Remove(s'.queue, IndexOfId(s'.queue, s.replay.work.item.stage.id)), key)
  {
    var s', item := Step(s, Pubrec(conn, id, true)), s.replay.work.item;
    EarlyPubrecReleases(s, conn, key, id);
    assert Entry(key, Released(id)).key == key && Queued(s'.queue, key);
    assert Working(s, item) && Claim(s, item.key, item.stage.id) && Claim(s, key, id);
    OtherIdIsRemoved(s'.queue, key, id, item.stage.id);
  }

  lemma OtherIdIsRemoved(queue: seq<Entry>, key: Key, id: nat, other: nat)
    requires DistinctKeys(queue) && Entry(key, Released(id)) in queue && other != id
    ensures Queued(Remove(queue, IndexOfId(queue, other)), key)
  {
    var e, i := Entry(key, Released(id)), IndexOfId(queue, other);
    if i < |queue| {
      RemoveKeepsOthers(queue, i);
      assert e in Remove(queue, i);
    } else {
      assert e in Remove(queue, i);
    }
    assert e.key == key;
  }

  /** The assumption about PUBREC is exact. In every disciplined run, a PUBREC that releases an entry while its PUBLISH
      still waits can be undone by answers of storage and steps of the replay alone: the entry is back where it was
      before. */
  lemma EarlyPubrecIsUndone(run: seq<Event>, conn: nat, key: Key, id: nat) returns (more: seq<Event>)
    requires DisciplinedRun(run) && Releases(After(run), conn, id, true) && PublishWaits(After(run), key, id)
    ensures Entry(key, Released(id)) in After(run + [Pubrec(conn, id, true)]).queue
    ensures OwnSteps(more) && Entry(key, Sent(id)) in After(run + [Pubrec(conn, id, true)] + more).queue
  {
    var s, e := After(run), Pubrec(conn, id, true);
    RunsKeepInv(run);
    AfterSnoc(run, e);
    EarlyPubrecReleases(s, conn, key, id);
    more := UndoPubrec(s, conn, key, id);
    AfterMore(run + [e], more);
  }

  /** Any storage call for the PUBLISH puts it back, whatever the entry has come to. */
  lemma UpdatePutsBack(s: State, e: Event, key: Key, id: nat)
    requires DistinctKeys(s.queue) && Queued(s.queue, key)
    requires
      || (e.UpdateAnswers? && e.ok && e.u.key == key && e.u.id == id && e.u in s.pending)
      || (e == StreamAnswers(true, true) && Updates(s, Entry(key, Sent(id))))
    ensures Entry(key, Sent(id)) in Continue(s, [e]).queue
  {
    QueuedIsFound(s.queue, key);
    SetStageMembers(s.queue, IndexOfKey(s.queue, key), Sent(id));
    ContinueOne(s, e, []);
    assert [e] + [] == [e];
  }

  lemma UndoPubrec(s: State, conn: nat, key: Key, id: nat) returns (more: seq<Event>)
    requires Inv(s) && Releases(s, conn, id, true) && PublishWaits(s, key, id)
    ensures OwnSteps(more) && Entry(key, Sent(id)) in Continue(Step(s, Pubrec(conn, id, true)), more).queue
  {
    var s' := Step(s, Pubrec(conn, id, true));
    EarlyPubrecReleases(s, conn, key, id);
    assert Entry(key, Released(id)).key == key;
    if c :| Update(c, key, id) in s.pending {
      more := [UpdateAnswers(Update(c, key, id), true)];
      UpdatePutsBack(s', more[0], key, id);
    } else if Updates(s, Entry(key, Sent(id))) {
      more := [StreamAnswers(true, true)];
      UpdatePutsBack(s', more[0], key, id);
    } else {
      var p := PlaceAhead(s, Entry(key, Sent(id)));
      EarlyPubrecApproaches(s, conn, key, id, p);
      more := ReplayReachesItem(s', p, key, id);
    }
  }

  lemma PlaceAhead(s: State, item: Entry) returns (p: nat)
    requires Ahead(s, item)
    ensures |s.replay.done| <= p < |s.replay.snapshot| && s.replay.snapshot[p] == item
  {
    var rest := s.replay.snapshot[|s.replay.done|..];
    var k :| 0 <= k < |rest| && rest[k] == item;
    p := |s.replay.done| + k;
  }

  // ---------- And is published again ----------

  /** A replay in the middle of a queue that nothing else touches. */
  predicate Rewinding(s: State) {
    && s.replay.Streaming? && s.replay.work.Idle? && s.up && !s.clean && DistinctKeys(s.queue)
    && |s.replay.done| <= |s.replay.snapshot| == |s.queue|
    && (forall k | 0 <= k < |s.queue| ::
          && s.queue[k].key == s.replay.snapshot[k].key
          && (s.replay.snapshot[k].stage.Released? ==> HasId(s.queue[k].stage, s.replay.snapshot[k].stage.id)))
  }

  lemma KeyIsInPlace(queue: seq<Entry>, k: nat)
    requires k < |queue| && DistinctKeys(queue)
    ensures IndexOfKey(queue, queue[k].key) == k
  {
    var i := IndexOfKey(queue, queue[k].key);
    assert i <= k;
  }

  lemma SetStageKeepsDistinct(queue: seq<Entry>, i: nat, stage: Stage)
    requires DistinctKeys(queue)
    ensures DistinctKeys(SetStage(queue, i, stage))
    ensures |SetStage(queue, i, stage)| == |queue|
    ensures forall k | 0 <= k < |queue| :: SetStage(queue, i, stage)[k].key == queue[k].key
  {}

  /** Such a replay writes its next item. */
  lemma NextIsWritten(s: State)
    requires Rewinding(s) && |s.replay.done| < |s.replay.snapshot|
    ensures
      var t := Step(Step(s, StreamNext), StreamAnswers(true, true));
      && Rewinding(t) && t.replay.snapshot == s.replay.snapshot && |t.replay.done| == |s.replay.done| + 1
      && t.conn == s.conn && |t.writes| == |s.writes| + 1
      && var item := s.replay.snapshot[|s.replay.done|];
         item.stage.Sent? ==> t.writes[|s.writes|] == Publish(s.conn, item.key, item.stage.id)
  {
    var n := |s.replay.done|;
    var item, asked := s.replay.snapshot[n], Step(s, StreamNext);
    var i := Target(s.queue, asked.replay.work.item);
    KeyIsInPlace(s.queue, n);
    SetStageKeepsDistinct(s.queue, i, asked.replay.work.item.stage);
    if item.stage.Released? {
      assert i <= n;
    } else {
      assert i == n;
    }
  }

  /** The last of the writes is this one, and it was made after the first n. */
  predicate EndsWith(s: State, n: nat, w: Write) {
    |s.writes| > n && s.writes[|s.writes| - 1] == w
  }

  lemma {:induction false} ReplayWritesItem(s: State, p: nat) returns (more: seq<Event>)
    requires Rewinding(s) && |s.replay.done| <= p < |s.replay.snapshot| && s.replay.snapshot[p].stage.Sent?
    ensures OwnSteps(more)
    ensures
      var item := s.replay.snapshot[p];
      EndsWith(Continue(s, more), |s.writes|, Publish(s.conn, item.key, item.stage.id))
    decreases p - |s.replay.done|
  {
    var t := Step(Step(s, StreamNext), StreamAnswers(true, true));
    NextIsWritten(s);
    if |s.replay.done| == p {
      ContinueTwo(s, StreamNext, StreamAnswers(true, true), []);
      more := [StreamNext] + ([StreamAnswers(true, true)] + []);
    } else {
      more := ReplayWritesItem(t, p);
      ContinueTwo(s, StreamNext, StreamAnswers(true, true), more);
      more := [StreamNext] + ([StreamAnswers(true, true)] + more);
    }
  }

  function Reconnect(more: seq<Event>): (r: seq<Event>) {
    [Connect(false, 1)] + ([StreamOpens] + more)
  }

  /** From any state, a reconnection whose replay is not disturbed publishes a queued PUBLISH. */
  lemma ReconnectPublishes(s: State, key: Key, id: nat) returns (more: seq<Event>)
    requires DistinctKeys(s.queue) && Entry(key, Sent(id)) in s.queue
    ensures OwnSteps(more)
    ensures EndsWith(Continue(s, Reconnect(more)), |s.writes|, Publish(s.conn + 1, key, id))
  {
    var opening := Step(Step(s, Connect(false, 1)), StreamOpens);
    var p :| 0 <= p < |s.queue| && s.queue[p] == Entry(key, Sent(id));
    more := ReplayWritesItem(opening, p);
    ContinueTwo(s, Connect(false, 1), StreamOpens, more);
  }

  lemma {:induction false} OwnStepsKeepDistinct(s: State, more: seq<Event>)
    requires DistinctKeys(s.queue) && OwnSteps(more)
    ensures DistinctKeys(Continue(s, more).queue)
    decreases more
  {
    if more == [] {
    } else {
      assert more[0] in more;
      OwnStepKeepsDistinct(s, more[0]);
      OwnStepsKeepDistinct(Step(s, more[0]), more[1..]);
    }
  }

  lemma OwnStepKeepsDistinct(s: State, e: Event)
    requires DistinctKeys(s.queue) && OwnStep(e)
    ensures DistinctKeys(Step(s, e).queue)
  {
    match e
    case UpdateAnswers(u, ok) => SetStageKeepsDistinct(s.queue, IndexOfKey(s.queue, u.key), Sent(u.id));
    case StreamNext =>
    case StreamAnswers(ok, _) =>
      if s.replay.Streaming? && s.replay.work.Updating? {
        SetStageKeepsDistinct(s.queue, Target(s.queue, s.replay.work.item), s.replay.work.item.stage);
      }
    case StreamCleared(ok) =>
      if s.replay.Streaming? && s.replay.work.Clearing? && !s.replay.work.item.stage.Unsent? {
        RemoveKeepsDistinct(s.queue, IndexOfId(s.queue, s.replay.work.item.stage.id));
      }
  }

  lemma RemoveKeepsDistinct(queue: seq<Entry>, i: nat)
    requires DistinctKeys(queue)
    ensures DistinctKeys(Remove(queue, i))
  {
    if i < |queue| {
      RemoveDistinct(queue, i);
    }
  }

  /** An undone PUBREC leaves each message in the queue once. */
  lemma UndoneIsDistinct(run: seq<Event>, conn: nat, key: Key, id: nat, undo: seq<Event>)
    requires DisciplinedRun(run) && Releases(After(run), conn, id, true) && PublishWaits(After(run), key, id)
    requires OwnSteps(undo)
    ensures DistinctKeys(After(run + [Pubrec(conn, id, true)] + undo).queue)
  {
    var e := Pubrec(conn, id, true);
    RunsKeepInv(run);
    AfterSnoc(run, e);
    EarlyPubrecReleases(After(run), conn, key, id);
    AfterMore(run + [e], undo);
    OwnStepsKeepDistinct(After(run + [e]), undo);
  }

  /** The broker writes this PUBLISH after the run: a reconnection and an undisturbed replay do it. */
  ghost predicate PublishedOnReconnect(run: seq<Event>, key: Key, id: nat, more: seq<Event>) {
    && OwnSteps(more)
    && EndsWith(After(run + Reconnect(more)), |After(run).writes|, Publish(After(run).conn + 1, key, id))
  }

  lemma QueuedIsPublishedOnReconnect(run: seq<Event>, key: Key, id: nat) returns (more: seq<Event>)
    requires DistinctKeys(After(run).queue) && Entry(key, Sent(id)) in After(run).queue
    ensures PublishedOnReconnect(run, key, id, more)
  {
    more := ReconnectPublishes(After(run), key, id);
    AfterMore(run, Reconnect(more));
  }

  /** So the assumption is exact for what is written, too: after every PUBREC that breaks it, answers of storage, steps
      of replays and one reconnection can make the broker write that PUBLISH again. */
  lemma EarlyPubrecIsPublishedAgain(run: seq<Event>, conn: nat, key: Key, id: nat)
    returns (undo: seq<Event>, more: seq<Event>)
    requires DisciplinedRun(run) && Releases(After(run), conn, id, true) && PublishWaits(After(run), key, id)
    ensures OwnSteps(undo) && PublishedOnReconnect(run + [Pubrec(conn, id, true)] + undo, key, id, more)
  {
    undo := EarlyPubrecIsUndone(run, conn, key, id);
    UndoneIsDistinct(run, conn, key, id, undo);
    more := QueuedIsPublishedOnReconnect(run + [Pubrec(conn, id, true)] + undo, key, id);
  }

  // ---------- The run of a conforming client ----------

  lemma DisciplinedSnoc(run: seq<Event>, e: Event)
    requires DisciplinedRun(run) && Disciplined(After(run), e)
    ensures DisciplinedRun(run + [e])
  {
    var longer := run + [e];
    forall i | 0 <= i < |longer| ensures Disciplined(After(longer[..i]), longer[i]) {
      if i < |run| {
        assert longer[..i] == run[..i];
        assert Disciplined(After(run[..i]), run[i]);
      } else {
        assert longer[..i] == run;
      }
    }
  }

  /** The state after a persistent client has connected, and a message was enqueued for it. */
  function WithOneMessage(key: Key, start: nat): (s: State) {
    State([Entry(key, Unsent)], {key}, 1, true, false, start, {}, {}, NoReplay, [])
  }

  function OneMessage(key: Key, start: nat): (run: seq<Event>) {
    [Connect(false, start)] + [Enqueue(key)]
  }

  lemma OneMessageIsQueued(key: Key, start: nat)
    ensures DisciplinedRun(OneMessage(key, start)) && After(OneMessage(key, start)) == WithOneMessage(key, start)
  {
    var r0 := [Connect(false, start)];
    assert r0[..0] == [];
    var connected := State([], {}, 1, true, false, start, {}, {}, NoReplay, []);
    assert Step(INITIAL, Connect(false, start)) == connected;
    assert After(r0) == connected && DisciplinedRun(r0);
    AfterSnoc(r0, Enqueue(key));
    DisciplinedSnoc(r0, Enqueue(key));
    assert [] + [Entry(key, Unsent)] == [Entry(key, Unsent)];
    assert Step(connected, Enqueue(key)) == WithOneMessage(key, start);
  }

  /** Nothing but what the queue says is spoken for. */
  lemma FewClaims(s: State)
    requires s.pending == {} && s.late == {} && !s.replay.Streaming?
    ensures forall key, id :: Claim(s, key, id) <==> InQueue(s.queue, key, id)
  {}

  /** The message is delivered before the replay of the new connection opens, as the listeners are restored first. */
  function SentBeforeReplay(key: Key, id: nat): (run: seq<Event>) {
    OneMessage(key, id) + [Deliver(key, true, true)] + [UpdateAnswers(Update(1, key, id), true)] + [StreamOpens]
  }

  lemma SentBeforeReplayIsDisciplined(key: Key, id: nat)
    ensures DisciplinedRun(SentBeforeReplay(key, id))
    ensures
      var e, next := Entry(key, Sent(id)), PacketIds.Advance(id);
      After(SentBeforeReplay(key, id))
      == State([e], {key}, 1, true, false, next, {}, {}, Streaming([e], [], Idle), [Publish(1, key, id)])
  {
    var u := Update(1, key, id);
    var r0 := OneMessage(key, id);
    var r1 := r0 + [Deliver(key, true, true)];
    var r2 := r1 + [UpdateAnswers(u, true)];
    OneMessageIsQueued(key, id);
    FewClaims(After(r0));
    AfterSnoc(r0, Deliver(key, true, true));
    DisciplinedSnoc(r0, Deliver(key, true, true));
    AfterSnoc(r1, UpdateAnswers(u, true));
    DisciplinedSnoc(r1, UpdateAnswers(u, true));
    assert {u} - {u} == {};
    assert [Entry(key, Unsent)][0 := Entry(key, Sent(id))] == [Entry(key, Sent(id))];
    AfterSnoc(r2, StreamOpens);
    DisciplinedSnoc(r2, StreamOpens);
  }

  /** A conforming client breaks the assumption, on one connection and from the start: it answers the PUBLISH with
      PUBREC, and the replay stores and writes the PUBLISH once more. */
  lemma PublishAfterPubrecHappens(key: Key, id: nat)
    ensures
      var run := SentBeforeReplay(key, id);
      var received := run + [Pubrec(1, id, true)];
      var replayed := received + [StreamNext] + [StreamAnswers(true, true)];
      && DisciplinedRun(run)
      && After(received).queue == [Entry(key, Released(id))]
      && After(replayed).queue == [Entry(key, Sent(id))]
      && After(replayed).writes == [Publish(1, key, id), Pubrel(1, id), Publish(1, key, id)]
  {
    var run := SentBeforeReplay(key, id);
    var received := run + [Pubrec(1, id, true)];
    SentBeforeReplayIsDisciplined(key, id);
    AfterSnoc(run, Pubrec(1, id, true));
    AfterSnoc(received, StreamNext);
    AfterSnoc(received + [StreamNext], StreamAnswers(true, true));
    assert After(run).queue == [Entry(key, Sent(id))];
    assert After(received).queue == [Entry(key, Released(id))];
  }

  // ---------- One message, two identifiers ----------

  /** The next item of an idle replay is this message, without an identifier, and the message is still queued. */
  predicate NextIsUnsent(s: State, key: Key) {
    AtUnsentItem(s, key) && Queued(s.queue, key) && DistinctKeys(s.queue) && s.up && !s.clean
  }

  /** Live delivery and replay overlap on it. */
  function BothDeliver(s: State, key: Key): (r: State) {
    var asked := Step(Step(s, Deliver(key, true, true)), StreamNext);
    Step(Step(asked, UpdateAnswers(Update(s.conn, key, s.nextId), true)), StreamAnswers(true, true))
  }

  /** Without the assumption that an identifier goes to a message that has none, in any such state: the message is
      published twice, under two identifiers, and the queue keeps the second. */
  lemma TwoIdentifiers(s: State, key: Key)
    requires NextIsUnsent(s, key)
    ensures
      var a, b := s.nextId, PacketIds.Advance(s.nextId);
      var r := BothDeliver(s, key);
      && r.writes == s.writes + [Publish(s.conn, key, a)] + [Publish(s.conn, key, b)]
      && r.queue == SetStage(s.queue, IndexOfKey(s.queue, key), Sent(b))
      && r.queue[IndexOfKey(s.queue, key)] == Entry(key, Sent(b))
  {
    var i := IndexOfKey(s.queue, key);
    QueuedIsFound(s.queue, key);
    SetStageKeepsPlace(s.queue, key, Sent(s.nextId));
  }

  lemma SetStageKeepsPlace(queue: seq<Entry>, key: Key, stage: Stage)
    requires DistinctKeys(queue) && Queued(queue, key)
    ensures IndexOfKey(SetStage(queue, IndexOfKey(queue, key), stage), key) == IndexOfKey(queue, key)
  {
    QueuedIsFound(queue, key);
    var i := IndexOfKey(queue, key);
    var r := SetStage(queue, i, stage);
    assert r[i].key == key;
    assert forall j | 0 <= j < i :: r[j].key == queue[j].key;
  }

  lemma NoEntryFound(queue: seq<Entry>, i: nat, stage: Stage, id: nat)
    requires !HasId(stage, id) && forall e | e in queue :: !HasId(e.stage, id)
    ensures IndexOfId(SetStage(queue, i, stage), id) == |queue|
  {
    var r := SetStage(queue, i, stage);
    assert forall j | 0 <= j < |queue| :: queue[j] in queue;
    assert forall j | 0 <= j < |r| :: !HasId(r[j].stage, id);
  }

  lemma UnknownIdentifier(s: State, id: nat)
    requires IndexOfId(s.queue, id) == |s.queue| && !s.clean
    ensures Step(s, Ack(id, true)).queue == s.queue
    ensures Step(s, Pubrec(s.conn, id, true)).queue == s.queue && !Step(s, Pubrec(s.conn, id, true)).up
  {}

  lemma BothDeliverFrame(s: State, key: Key)
    requires NextIsUnsent(s, key)
    ensures BothDeliver(s, key).conn == s.conn && BothDeliver(s, key).clean == s.clean
  {}

  /** Then the acknowledgement of the first identifier removes nothing, and its PUBREC is rejected and ends the
      connection, if no other message has that identifier. */
  lemma FirstIdentifierIsForgotten(s: State, key: Key)
    requires NextIsUnsent(s, key) && forall e | e in s.queue :: !HasId(e.stage, s.nextId)
    ensures
      var a, r := s.nextId, BothDeliver(s, key);
      && Step(r, Ack(a, true)).queue == r.queue
      && Step(r, Pubrec(s.conn, a, true)).queue == r.queue && !Step(r, Pubrec(s.conn, a, true)).up
  {
    TwoIdentifiers(s, key);
    BothDeliverFrame(s, key);
    NoEntryFound(s.queue, IndexOfKey(s.queue, key), Sent(PacketIds.Advance(s.nextId)), s.nextId);
    UnknownIdentifier(BothDeliver(s, key), s.nextId);
  }

  lemma UnsentClaimsNothing(s: State)
    requires s.pending == {} && s.late == {} && forall e | e in s.queue :: e.stage.Unsent?
    requires s.replay.Streaming? && s.replay.work.Idle? && forall e | e in s.replay.snapshot :: e.stage.Unsent?
    ensures forall key, id :: !Claim(s, key, id)
  {
    forall e | Ahead(s, e) ensures e.stage.Unsent? {
      assert e in s.replay.snapshot;
    }
  }

  function UnsentBeforeReplay(key: Key, id: nat): (run: seq<Event>) {
    OneMessage(key, id) + [StreamOpens]
  }

  lemma UnsentIsNext(key: Key, id: nat)
    ensures
      var s := After(UnsentBeforeReplay(key, id));
      && DisciplinedRun(UnsentBeforeReplay(key, id)) && NextIsUnsent(s, key)
      && s == WithOneMessage(key, id).(replay := Streaming([Entry(key, Unsent)], [], Idle))
  {
    var r0 := OneMessage(key, id);
    OneMessageIsQueued(key, id);
    AfterSnoc(r0, StreamOpens);
    DisciplinedSnoc(r0, StreamOpens);
    var s := After(UnsentBeforeReplay(key, id));
    assert s.queue[0].key == key && s.queue[0] in s.queue;
  }

  /** It happens, from the start: a message enqueued before the replay opens and emitted while it runs. Every step but
      the replay's allocation keeps the discipline. */
  lemma TwoIdentifiersHappen(key: Key, id: nat)
    ensures
      var run := UnsentBeforeReplay(key, id);
      && DisciplinedRun(run + [Deliver(key, true, true)])
      && NextIsUnsent(After(run), key)
      && BothDeliver(After(run), key).writes == [Publish(1, key, id)] + [Publish(1, key, PacketIds.Advance(id))]
  {
    var run := UnsentBeforeReplay(key, id);
    UnsentIsNext(key, id);
    UnsentClaimsNothing(After(run));
    DisciplinedSnoc(run, Deliver(key, true, true));
    TwoIdentifiers(After(run), key);
    assert [] + [Publish(1, key, id)] == [Publish(1, key, id)];
  }
}
