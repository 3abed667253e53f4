/**
 What a replay of the stored queue achieves (`emptyQueue` and `emptyQueueFilter` in
 lib/handlers/connect.js): the writes it makes, and what it leaves in the queue.
 */
module OutboundReplay {
  import opened OutboundSession

  // ---------- The opening of a replay ----------

  /** The replay under way at the end of the run was opened at step i. */
  predicate OpensAt(run: seq<Event>, i: nat) {
    && i < |run| && run[i] == StreamOpens && After(run[..i]).replay.NoReplay?
    && forall k | i < k < |run| :: !run[k].Connect?
  }

  lemma StepOpens(s: State, e: Event)
    requires Step(s, e).replay.Streaming? && !s.replay.Streaming?
    ensures e == StreamOpens && s.replay.NoReplay?
  {}

  /** Every replay was opened once, on the connection it runs on. */
  lemma {:induction false} ReplayHasOpening(run: seq<Event>) returns (i: nat)
    requires After(run).replay.Streaming?
    ensures OpensAt(run, i)
  {
    var n := |run| - 1;
    if After(run[..n]).replay.Streaming? {
      i := ReplayHasOpening(run[..n]);
      assert run[..n][..i] == run[..i];
      assert forall k | 0 <= k < n :: run[..n][k] == run[k];
    } else {
      StepOpens(After(run[..n]), run[n]);
      i := n;
    }
  }

  // ---------- The writes of a replay ----------

  /** The stage that a write gives to the entry of its message. */
  function StageOf(w: Write): (stage: Stage) {
    if w.Publish? then Sent(w.id) else Released(w.id)
  }

  /** The write that sends an entry on the current connection: PUBLISH or PUBREL as the entry says, under the entry's
      identifier, or under the one given to it meanwhile; no later entry of the message contradicts it. */
  ghost predicate Sends(s: State, w: Write, item: Entry) {
    && w.conn == s.conn && (w.Publish? ==> w.key == item.key) && (w.Pubrel? <==> item.stage.Released?)
    && NotBefore(item.stage, StageOf(w)) && Reached(s, item.key, StageOf(w))
  }

  /** pos gives, for every entry that counts as written, the place of its write: after the first n writes, and in the
      order of the entries. */
  ghost predicate Places(s: State, items: seq<Entry>, done: seq<Outcome>, n: nat, pos: seq<nat>) {
    && |pos| == |done| <= |items|
    && (forall i | 0 <= i < |done| && done[i] == Wrote ::
        n <= pos[i] < |s.writes| && Sends(s, s.writes[pos[i]], items[i]))
    && (forall i, j | 0 <= i < j < |done| && done[i] == Wrote && done[j] == Wrote :: pos[i] < pos[j])
  }

  /** The item being worked on is the next one of the snapshot, with an identifier. */
  predicate WorkFits(s: State) {
    s.replay.Streaming? && !s.replay.work.Idle? ==>
      && |s.replay.done| < |s.replay.snapshot|
      && (s.replay.work.item == s.replay.snapshot[|s.replay.done|]
          || (s.replay.snapshot[|s.replay.done|].stage.Unsent? && s.replay.work.item.stage.Sent?
              && s.replay.work.item.key == s.replay.snapshot[|s.replay.done|].key))
  }

  /** What holds between the opening of a replay and the end of its connection. */
  ghost predicate Replaying(s: State, items: seq<Entry>, conn: nat, clean: bool, n: nat) {
    && s.conn == conn && s.clean == clean && n <= |s.writes| && !s.replay.NoReplay? && WorkFits(s)
    && (s.replay.Streaming? ==>
          s.replay.snapshot == items && (!clean ==> exists pos :: Places(s, items, s.replay.done, n, pos)))
  }

  lemma StepKeepsWrites(s: State, e: Event)
    ensures |s.writes| <= |Step(s, e).writes| && Step(s, e).writes[..|s.writes|] == s.writes
  {}

  /** Writes already placed stay placed. */
  lemma StepKeepsPlaces(s: State, e: Event, items: seq<Entry>, done: seq<Outcome>, n: nat, pos: seq<nat>)
    requires Inv(s) && Disciplined(s, e) && !e.Connect? && Places(s, items, done, n, pos)
    ensures Places(Step(s, e), items, done, n, pos)
  {
    var s' := Step(s, e);
    StepKeepsWrites(s, e);
    forall i | 0 <= i < |done| && done[i] == Wrote
      ensures pos[i] < |s'.writes| && Sends(s', s'.writes[pos[i]], items[i])
    {
      assert s'.writes[pos[i]] == s'.writes[..|s.writes|][pos[i]];
      StepKeepsReached(s, e, items[i].key, StageOf(s.writes[pos[i]]));
    }
  }

  /** The replay step that counts an item as written writes it. */
  lemma WrittenItemIsSent(s: State, ok: bool, authorised: bool)
    requires Inv(s) && WorkFits(s) && s.replay.Streaming? && s.replay.work.Updating?
    requires
      var s' := Step(s, StreamAnswers(ok, authorised));
      s'.replay.Streaming? && s'.replay.done == s.replay.done + [Wrote]
    ensures
      var s' := Step(s, StreamAnswers(ok, authorised));
      |s'.writes| == |s.writes| + 1 && Sends(s', s'.writes[|s.writes|], s.replay.snapshot[|s.replay.done|])
  {
    var e, item := StreamAnswers(ok, authorised), s.replay.work.item;
    var s' := Step(s, e);
    assert s'.replay.done[|s.replay.done|] == Wrote;
    StepKeepsInv(s, e);
    if item.stage.Sent? {
      SetStageMembers(s.queue, IndexOfKey(s.queue, item.key), item.stage);
      OneStagePerKey(s', item.key, item.stage);
    } else {
      ReplayedPubrelChangesNothing(s, item);
      ReleasedIsReached(s, item);
    }
  }

  lemma ReleasedIsReached(s: State, item: Entry)
    requires Inv(s) && Working(s, item) && item.stage.Released?
    ensures Reached(s, item.key, item.stage)
  {
    assert Working(s, Entry(item.key, Released(item.stage.id)));
    assert OnlyReleased(s.queue, item.key, item.stage.id);
    assert s.replay.snapshot[|s.replay.done|] in s.replay.snapshot;
  }

  /** One more item is done. */
  lemma ItemDoneKeepsPlaces(s: State, s': State, items: seq<Entry>, done: seq<Outcome>, o: Outcome, n: nat,
      pos: seq<nat>)
    requires Places(s', items, done, n, pos) && |done| < |items| && n <= |s.writes|
    requires forall i | 0 <= i < |done| && done[i] == Wrote :: pos[i] < |s.writes|
    requires o == Wrote ==> |s'.writes| == |s.writes| + 1 && Sends(s', s'.writes[|s.writes|], items[|done|])
    ensures Places(s', items, done + [o], n, pos + [|s.writes|])
  {}

  lemma StepFits(s: State, e: Event)
    requires WorkFits(s)
    ensures WorkFits(Step(s, e))
  {}

  /** How a step moves the list of outcomes. */
  lemma DoneGrows(s: State, e: Event)
    requires s.replay.Streaming? && Step(s, e).replay.Streaming? && !e.Connect? && WorkFits(s) && ReplayWellFormed(s)
    ensures
      var r := Step(s, e).replay;
      && r.snapshot == s.replay.snapshot
      && (r.done == s.replay.done
          || (|s.replay.done| < |s.replay.snapshot| && |r.done| == |s.replay.done| + 1
              && r.done == s.replay.done + [r.done[|s.replay.done|]]
              && (r.done[|s.replay.done|] == Wrote ==> e.StreamAnswers? && s.replay.work.Updating?)))
  {}

  lemma StepExtendsPlaces(s: State, e: Event, items: seq<Entry>, n: nat)
    requires Inv(s) && Disciplined(s, e) && !e.Connect? && WorkFits(s) && n <= |s.writes|
    requires s.replay.Streaming? && Step(s, e).replay.Streaming? && s.replay.snapshot == items
    requires exists pos :: Places(s, items, s.replay.done, n, pos)
    ensures exists pos :: Places(Step(s, e), items, Step(s, e).replay.done, n, pos)
  {
    var s', done := Step(s, e), s.replay.done;
    var pos :| Places(s, items, done, n, pos);
    DoneGrows(s, e);
    StepKeepsPlaces(s, e, items, done, n, pos);
    if s'.replay.done != done {
      var o := s'.replay.done[|done|];
      if o == Wrote {
        WrittenItemIsSent(s, e.ok, e.authorised);
      }
      ItemDoneKeepsPlaces(s, s', items, done, o, n, pos);
    }
  }

  lemma StepKeepsReplaying(s: State, e: Event, items: seq<Entry>, conn: nat, clean: bool, n: nat)
    requires Inv(s) && Disciplined(s, e) && !e.Connect? && Replaying(s, items, conn, clean, n)
    ensures Replaying(Step(s, e), items, conn, clean, n)
  {
    var s' := Step(s, e);
    StepFits(s, e);
    StepKeepsWrites(s, e);
    if s'.replay.Streaming? {
      DoneGrows(s, e);
      if !clean {
        StepExtendsPlaces(s, e, items, n);
      }
    }
  }

  predicate IsReplayStep(e: Event) {
    e.StreamOpens? || e.StreamNext? || e.StreamAnswers? || e.StreamCleared?
  }

  lemma CleanReplayIsSilent(s: State, e: Event)
    requires s.clean && IsReplayStep(e)
    ensures Step(s, e).writes == s.writes
  {}

  predicate ReplayFinished(s: State) {
    s.replay.Streaming? && |s.replay.done| == |s.replay.snapshot| && Failed !in s.replay.done
  }

  lemma RunsKeepReplaying(run: seq<Event>, i: nat)
    requires DisciplinedRun(run) && OpensAt(run, i)
    ensures
      var start := After(run[..i]);
      Replaying(After(run), start.queue, start.conn, start.clean, |start.writes|)
  {
    var start := After(run[..i]);
    var p := s => Inv(s) && Replaying(s, start.queue, start.conn, start.clean, |start.writes|);
    var kind := (s, e) => Disciplined(s, e) && !e.Connect?;
    DisciplinedPrefix(run, i + 1);
    RunsKeepInv(run[..i + 1]);
    OpeningReplays(run, i);
    forall s, e | p(s) && kind(s, e) ensures p(Step(s, e)) {
      StepKeepsInv(s, e);
      StepKeepsReplaying(s, e, start.queue, start.conn, start.clean, |start.writes|);
    }
    StepsKeep(p, kind, run, i + 1, |run|);
    assert run[..|run|] == run;
  }

  lemma OpeningReplays(run: seq<Event>, i: nat)
    requires OpensAt(run, i)
    ensures
      var start := After(run[..i]);
      Replaying(After(run[..i + 1]), start.queue, start.conn, start.clean, |start.writes|)
  {
    assert run[..i + 1][..i] == run[..i];
    assert Places(After(run[..i + 1]), After(run[..i]).queue, [], |After(run[..i]).writes|, []);
  }

  lemma StepKeepsClean(s: State, e: Event)
    requires !e.Connect?
    ensures Step(s, e).clean == s.clean
  {}

  /** The kind of session does not change before the next CONNECT. */
  lemma StaysClean(run: seq<Event>, i: nat, k: nat)
    requires OpensAt(run, i) && i <= k <= |run|
    ensures After(run[..k]).clean == After(run[..i]).clean
  {
    var clean := After(run[..i]).clean;
    forall s: State, e: Event | s.clean == clean && !e.Connect? ensures Step(s, e).clean == clean {
      StepKeepsClean(s, e);
    }
    assert run[i] == StreamOpens;
    StepsKeep((s: State) => s.clean == clean, (s: State, e: Event) => !e.Connect?, run, i, k);
  }

  lemma CleanStepIsSilent(run: seq<Event>, i: nat, k: nat)
    requires OpensAt(run, i) && i <= k < |run| && After(run[..i]).clean && IsReplayStep(run[k])
    ensures After(run[..k + 1]).writes == After(run[..k]).writes
  {
    StaysClean(run, i, k);
    CleanReplayIsSilent(After(run[..k]), run[k]);
    OneStep(run, k);
  }

  lemma FinishedItems(s: State, k: nat)
    requires ReplayAccounted(s) && ReplayFinished(s) && k < |s.replay.snapshot|
    ensures s.clean ==> !Queued(s.queue, s.replay.snapshot[k].key)
    ensures !s.clean ==>
              s.replay.done[k] == Wrote || (s.replay.done[k] == Refused && !Queued(s.queue, s.replay.snapshot[k].key))
  {
    assert s.replay.done[k] in s.replay.done;
  }

  /** A replay that finishes without an error, in any disciplined run, whatever happens in between. On a clean session
      no step of it wrote anything, and nothing that was queued when it opened is left. Otherwise every entry queued
      when it opened was refused and is gone, or was sent on this connection: its PUBLISH or PUBREL stands among the
      writes made since, and these writes are in queue order. */
  lemma ReplayCompletes(run: seq<Event>, i: nat)
    requires DisciplinedRun(run) && OpensAt(run, i) && ReplayFinished(After(run))
    ensures
      var start, s := After(run[..i]), After(run);
      && |s.replay.done| == |start.queue|
      && if s.clean then
           && (forall k | 0 <= k < |start.queue| :: !Queued(s.queue, start.queue[k].key))
           && (forall k | i <= k < |run| && IsReplayStep(run[k]) ::
               After(run[..k + 1]).writes == After(run[..k]).writes)
         else
           && (exists pos :: Places(s, start.queue, s.replay.done, |start.writes|, pos))
           && (forall k | 0 <= k < |start.queue| ::
                 s.replay.done[k] == Wrote || (s.replay.done[k] == Refused && !Queued(s.queue, start.queue[k].key)))
  {
    RunsKeepReplaying(run, i);
    RunsKeepAccount(run);
    var start, s := After(run[..i]), After(run);
    forall k | 0 <= k < |start.queue|
      ensures s.clean ==> !Queued(s.queue, start.queue[k].key)
      ensures !s.clean ==>
                s.replay.done[k] == Wrote || (s.replay.done[k] == Refused && !Queued(s.queue, start.queue[k].key))
    {
      FinishedItems(s, k);
    }
    if s.clean {
      forall k | i <= k < |run| && IsReplayStep(run[k]) ensures After(run[..k + 1]).writes == After(run[..k]).writes {
        CleanStepIsSilent(run, i, k);
      }
    }
  }
}
