/**
 How the chains of the receive side end. `InboundQos2` shows what a PUBREC promises; here it is
 shown that it comes: a PUBLISH that is handled to its end has been answered, or its connection
 was destroyed, and a PUBREL has been answered in any case (lib/handlers/publish.js,
 lib/handlers/pubrel.js, lib/write.js).
 */
module InboundHistory {
  import Histories
  import opened InboundQos2

  predicate Happens(kind: (State, Event) -> bool, run: seq<Event>, k: nat)
    requires k < |run|
  {
    kind(After(run[..k]), run[k])
  }

  // ---------- How a chain ends ----------

  /** An error ends chain c. */
  predicate Errs(s: State, e: Event, c: nat) {
    || (e == Authorised(c, false) && At(s, c, Authorizing))
    || (e == StoreAnswers(c, false) && At(s, c, Storing))
    || (e == PublishAnswers(c, false) && c < |s.chains| && s.chains[c].phase.Publishing?
        && s.chains[c].phase.m < |s.messages|)
  }

  /** Its PUBREC is due. */
  predicate Acknowledges(s: State, e: Event, c: nat) {
    e == PubrecWritten(c) && c < |s.chains| && s.chains[c].phase.Acking?
  }

  /** Its PUBCOMP is due. */
  predicate Completes(s: State, e: Event, c: nat) {
    e == PubcompWritten(c) && At(s, c, Completing)
  }

  predicate Ends(s: State, e: Event, c: nat) {
    Errs(s, e, c) || Acknowledges(s, e, c) || Completes(s, e, c)
  }

  lemma StepEnds(s: State, e: Event, c: nat)
    ensures At(Step(s, e), c, Done) <==> At(s, c, Done) || Ends(s, e, c)
  {}

  lemma EndIs(s: State, e: Event, c: nat)
    requires c < |s.chains|
    ensures Errs(s, e, c) ==> s.chains[c].conn !in Step(s, e).open && Step(s, e).pubrecs == s.pubrecs
    ensures Acknowledges(s, e, c) ==>
              var chain := s.chains[c];
              var pubrec := Ack(chain.conn, chain.id, chain.phase.m, |s.messages|);
              Step(s, e).pubrecs == s.pubrecs + if chain.conn in s.open then [pubrec] else []
    ensures Completes(s, e, c) ==>
              Step(s, e).pubcomps == s.pubcomps + if s.chains[c].conn in s.open then [s.chains[c].id] else []
  {}

  predicate OfPubrel(p: Phase) {
    p.RelLookingUp? || p.RelDeleting? || p.Completing?
  }

  /** Chain c handles a packet of this kind, or has done so. */
  predicate Handles(s: State, c: nat, conn: nat, id: nat, pubrel: bool) {
    && c < |s.chains| && s.chains[c].conn == conn && s.chains[c].id == id
    && (s.chains[c].phase != Done ==> (OfPubrel(s.chains[c].phase) <==> pubrel))
  }

  lemma StepHandles(s: State, e: Event, c: nat, conn: nat, id: nat, pubrel: bool)
    requires Handles(s, c, conn, id, pubrel)
    ensures Handles(Step(s, e), c, conn, id, pubrel)
  {}

  lemma StillHandles(run: seq<Event>, i: nat, j: nat, c: nat, conn: nat, id: nat, pubrel: bool)
    requires i <= j <= |run| && Handles(After(run[..i]), c, conn, id, pubrel)
    ensures Handles(After(run[..j]), c, conn, id, pubrel)
  {
    var handles := (s: State) => Handles(s, c, conn, id, pubrel);
    assert Histories.Follows(After, Step);
    forall s, e | handles(s) ensures handles(Step(s, e)) {
      StepHandles(s, e, c, conn, id, pubrel);
    }
    Histories.Keep(After, Step, (_, _) => true, handles, run, i, j);
  }

  lemma OneStep(run: seq<Event>, k: nat)
    requires k < |run|
    ensures After(run[..k + 1]) == Step(After(run[..k]), run[k])
  {
    assert run[..k + 1][..k] == run[..k];
  }

  lemma StepGrows(s: State, e: Event)
    ensures |s.chains| <= |Step(s, e).chains|
  {}

  lemma ChainsGrow(run: seq<Event>, j: nat, k: nat, n: nat)
    requires j <= k <= |run| && n <= |After(run[..j]).chains|
    ensures n <= |After(run[..k]).chains|
  {
    var longer := (s: State) => n <= |s.chains|;
    assert Histories.Follows(After, Step);
    forall s, e | longer(s) ensures longer(Step(s, e)) {
      StepGrows(s, e);
    }
    Histories.Keep(After, Step, (_, _) => true, longer, run, j, k);
  }

  /** The step that ended the chain. */
  lemma EndedBy(run: seq<Event>, c: nat) returns (k: nat)
    requires At(After(run), c, Done)
    ensures k < |run| && Ends(After(run[..k]), run[k], c)
  {
    var done := (s: State) => At(s, c, Done);
    assert Histories.Follows(After, Step);
    forall s, e | done(Step(s, e)) ensures done(s) || Ends(s, e, c) {
      StepEnds(s, e, c);
    }
    k := Histories.Cause(After, Step, (_, _) => true, done, (s, e) => Ends(s, e, c), run);
  }

  /** The chain that a packet starts at step i is ended by a later step, and handled the same packet until then. */
  lemma EndOf(run: seq<Event>, i: nat, pubrel: bool) returns (k: nat)
    requires i < |run| && if pubrel then run[i].PubrelArrives? else run[i].PublishArrives?
    requires At(After(run), |After(run[..i]).chains|, Done)
    ensures i < k < |run| && Ends(After(run[..k]), run[k], |After(run[..i]).chains|)
    ensures Handles(After(run[..k]), |After(run[..i]).chains|, run[i].conn, run[i].id, pubrel)
  {
    var c := |After(run[..i]).chains|;
    k := EndedBy(run, c);
    if k <= i {
      ChainsGrow(run, k, i, c + 1);
    }
    OneStep(run, i);
    StillHandles(run, i + 1, k, c, run[i].conn, run[i].id, pubrel);
  }

  /** Every PUBLISH that has been handled to its end, in every run: an error has destroyed its connection, or its PUBREC
      was due, and was written if the connection was open then. */
  lemma PublishIsAnswered(run: seq<Event>, i: nat) returns (k: nat)
    requires i < |run| && run[i].PublishArrives? && At(After(run), |After(run[..i]).chains|, Done)
    ensures i < k < |run|
    ensures
      var c, conn, s, s' := |After(run[..i]).chains|, run[i].conn, After(run[..k]), After(run[..k + 1]);
      || (Errs(s, run[k], c) && conn !in s'.open && s'.pubrecs == s.pubrecs)
      || (&& Acknowledges(s, run[k], c)
          && var pubrec := Ack(conn, run[i].id, s.chains[c].phase.m, |s.messages|);
             s'.pubrecs == s.pubrecs + if conn in s.open then [pubrec] else [])
  {
    k := EndOf(run, i, false);
    EndIs(After(run[..k]), run[k], |After(run[..i]).chains|);
    OneStep(run, k);
  }

  /** So a client that keeps its connection gets a PUBREC for each PUBLISH that is handled to its end. */
  lemma OpenConnectionGetsPubrec(run: seq<Event>, i: nat) returns (k: nat, m: nat)
    requires i < |run| && run[i].PublishArrives? && At(After(run), |After(run[..i]).chains|, Done)
    requires forall j | i < j <= |run| :: run[i].conn in After(run[..j]).open
    ensures i < k < |run|
    ensures
      var s := After(run[..k]);
      After(run[..k + 1]).pubrecs == s.pubrecs + [Ack(run[i].conn, run[i].id, m, |s.messages|)]
  {
    k := PublishIsAnswered(run, i);
    m := After(run[..k]).chains[|After(run[..i]).chains|].phase.m;
  }

  /** Every PUBREL that has been handled to its end got its PUBCOMP, if its connection was still open. */
  lemma PubrelIsAnswered(run: seq<Event>, i: nat) returns (k: nat)
    requires i < |run| && run[i].PubrelArrives? && At(After(run), |After(run[..i]).chains|, Done)
    ensures i < k < |run|
    ensures
      var s := After(run[..k]);
      After(run[..k + 1]).pubcomps == s.pubcomps + if run[i].conn in s.open then [run[i].id] else []
  {
    k := EndOf(run, i, true);
    EndIs(After(run[..k]), run[k], |After(run[..i]).chains|);
    OneStep(run, k);
  }

  // ---------- A chain whose answers are good ----------

  /** How many answers the chain still waits for, at most. */
  function Left(p: Phase): (n: nat) {
    match p
    case Authorizing => 6
    case LookingUp => 5
    case Storing => 4
    case Stored(_) => 3
    case Publishing(_) => 2
    case Acking(_) => 1
    case RelLookingUp => 3
    case RelDeleting => 2
    case Completing => 1
    case Done => 0
  }

  /** The answer that chain c waits for, if it is a good one. */
  function GoodAnswer(c: nat, p: Phase): (e: Event)
    requires p != Done
  {
    match p
    case Authorizing => Authorised(c, true)
    case LookingUp => LookedUp(c)
    case Storing => StoreAnswers(c, true)
    case Stored(_) => Continues(c)
    case Publishing(_) => PublishAnswers(c, true)
    case Acking(_) => PubrecWritten(c)
    case RelLookingUp => RelLookedUp(c)
    case RelDeleting => DeleteAnswers(c, true)
    case Completing => PubcompWritten(c)
  }

  predicate HasMessage(s: State, c: nat)
    requires c < |s.chains|
  {
    var p := s.chains[c].phase;
    (p.Stored? ==> p.m < |s.messages|) && (p.Publishing? ==> p.m < |s.messages|)
  }

  /** What chain c adds when it ends: its PUBREC or its PUBCOMP, if its connection is open. */
  predicate Answered(s: State, s': State, c: nat)
    requires c < |s.chains|
  {
    var chain := s.chains[c];
    if OfPubrel(chain.phase) then
      s'.pubrecs == s.pubrecs && s'.pubcomps == s.pubcomps + if chain.conn in s.open then [chain.id] else []
    else
      && s'.pubcomps == s.pubcomps
      && if chain.conn !in s.open then s'.pubrecs == s.pubrecs
         else
           && |s'.pubrecs| == |s.pubrecs| + 1 && s'.pubrecs[..|s.pubrecs|] == s.pubrecs
           && s'.pubrecs[|s.pubrecs|].conn == chain.conn && s'.pubrecs[|s.pubrecs|].id == chain.id
  }

  lemma GoodAnswerAdvances(s: State, c: nat)
    requires c < |s.chains| && s.chains[c].phase != Done && HasMessage(s, c)
    ensures
      var s' := Step(s, GoodAnswer(c, s.chains[c].phase));
      && |s'.chains| == |s.chains| && s'.open == s.open
      && s'.chains[c].conn == s.chains[c].conn && s'.chains[c].id == s.chains[c].id
      && Left(s'.chains[c].phase) < Left(s.chains[c].phase) && HasMessage(s', c)
      && (s'.chains[c].phase == Done ==> Answered(s, s', c))
      && (s'.chains[c].phase != Done ==>
            s'.pubrecs == s.pubrecs && s'.pubcomps == s.pubcomps
            && OfPubrel(s'.chains[c].phase) == OfPubrel(s.chains[c].phase))
  {}

  function AfterMore(s: State, more: seq<Event>): (r: State)
    decreases more
  {
    if more == [] then s else AfterMore(Step(s, more[0]), more[1..])
  }

  /** Any chain, in any state in which its message is on record, and whatever else is under way: good answers to it
      alone take it to its end, and it is answered if its connection is open. */
  lemma {:induction false} ChainCanFinish(s: State, c: nat) returns (more: seq<Event>)
    requires c < |s.chains| && s.chains[c].phase != Done && HasMessage(s, c)
    ensures At(AfterMore(s, more), c, Done) && Answered(s, AfterMore(s, more), c)
    decreases Left(s.chains[c].phase)
  {
    var e := GoodAnswer(c, s.chains[c].phase);
    var s' := Step(s, e);
    GoodAnswerAdvances(s, c);
    if s'.chains[c].phase == Done {
      more := [e];
      assert AfterMore(s, [e]) == AfterMore(s', []);
    } else {
      var rest := ChainCanFinish(s', c);
      more := [e] + rest;
      assert more[1..] == rest;
    }
  }

  /** So in every run every packet can still be answered. */
  lemma EveryPacketCanBeAnswered(run: seq<Event>, c: nat) returns (more: seq<Event>)
    requires c < |After(run).chains| && After(run).chains[c].phase != Done
    ensures At(AfterMore(After(run), more), c, Done) && Answered(After(run), AfterMore(After(run), more), c)
  {
    RunsAreSound(run);
    assert Progress(After(run), After(run).chains[c]);
    more := ChainCanFinish(After(run), c);
  }

  // ---------- Connections ----------

  /** The step destroys the connection: the client's doing, or an error in one of its chains. */
  predicate Destroys(s: State, e: Event, conn: nat) {
    e == Shuts(conn) || exists c | 0 <= c < |s.chains| :: s.chains[c].conn == conn && Errs(s, e, c)
  }

  lemma StepOpens(s: State, e: Event, conn: nat)
    ensures conn in Step(s, e).open <==> e == Opens(conn) || (conn in s.open && !Destroys(s, e, conn))
  {
    match e
    case Authorised(c, ok) => assert !ok && At(s, c, Authorizing) ==> Errs(s, e, c);
    case StoreAnswers(c, ok) => assert !ok && At(s, c, Storing) ==> Errs(s, e, c);
    case PublishAnswers(c, ok) =>
      if !ok && c < |s.chains| && s.chains[c].phase.Publishing? && s.chains[c].phase.m < |s.messages| {
        assert Errs(s, e, c);
      }
    case _ =>
  }

  /** Step k opens the connection, and no later one destroys it. */
  predicate OpensLast(run: seq<Event>, conn: nat, k: nat) {
    k < |run| && run[k] == Opens(conn) && forall j | k < j < |run| :: !Destroys(After(run[..j]), run[j], conn)
  }

  lemma OpensLastIsOn(run: seq<Event>, conn: nat, k: nat)
    ensures
      var opens, destroys := (s: State, e: Event) => e == Opens(conn), (s: State, e: Event) => Destroys(s, e, conn);
      OpensLast(run, conn, k) <==> Histories.LastOn(After, opens, destroys, run, k)
  {
    var destroys := (s: State, e: Event) => Destroys(s, e, conn);
    forall j | 0 <= j < |run|
      ensures Histories.At(After, destroys, run, j) <==> Destroys(After(run[..j]), run[j], conn)
    {}
  }

  /** A connection is open exactly if it was opened and neither the client nor an error has destroyed it since. */
  lemma OpenIff(run: seq<Event>, conn: nat)
    ensures conn in After(run).open <==> exists k: nat :: OpensLast(run, conn, k)
  {
    var opens, destroys := (s: State, e: Event) => e == Opens(conn), (s: State, e: Event) => Destroys(s, e, conn);
    assert Histories.Follows(After, Step);
    forall s, e ensures conn in Step(s, e).open <==> opens(s, e) || (conn in s.open && !destroys(s, e)) {
      StepOpens(s, e, conn);
    }
    Histories.Switch(After, Step, (_, _) => true, (s: State) => conn in s.open, opens, destroys, run);
    forall k: nat ensures OpensLast(run, conn, k) <==> Histories.LastOn(After, opens, destroys, run, k) {
      OpensLastIsOn(run, conn, k);
    }
  }
}
