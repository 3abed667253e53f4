/**
 The receive side of QoS 2, method B of section 4.3.3 of MQTT 3.1.1
 (lib/handlers/publish.js and lib/handlers/pubrel.js), for one client identifier.

 A PUBLISH and a PUBREL are handled by a chain of callbacks. Packets are dispatched
 without waiting for earlier ones, and the callbacks of a dead connection still run,
 so chains interleave freely. Each step below is one callback: the persistence call
 or the broker call it waits for takes effect, and the chain moves on.

 A message is what one successful store makes; it is live while the store holds it.
 */
module InboundQos2 {

  datatype Phase =
    | Authorizing
    | LookingUp            // incomingGetPacket was called
    | Storing              // it found nothing, incomingStorePacket was called
    | Stored(m: nat)       // message m is in the store, the continuation has not run yet
    | Publishing(m: nat)   // broker.publish was called for message m
    | Acking(m: nat)       // PUBREC is about to be written for message m
    | RelLookingUp         // PUBREL: incomingGetPacket was called
    | RelDeleting          // it found the packet, incomingDelPacket was called
    | Completing           // PUBCOMP is about to be written
    | Done

  datatype Chain = Chain(conn: nat, id: nat, phase: Phase)

  datatype Message = Message(id: nat, live: bool, published: nat, completed: nat, failed: nat)

  /** A written PUBREC: for which message, and how many messages had been stored by then. */
  datatype Ack = Ack(conn: nat, id: nat, m: nat, storedBefore: nat)

  datatype State = State(
    store: map<nat, nat>,    // what persistence holds: packet identifier to message
    open: set<nat>,          // connections that can be written to
    chains: seq<Chain>,
    messages: seq<Message>,  // every message ever stored
    pubrecs: seq<Ack>,
    pubcomps: seq<nat>,      // identifiers answered with PUBCOMP
    unhandled: nat           // promise rejections that no handler caught
  )

  const INITIAL := State(map[], {}, [], [], [], [], 0)

  datatype Event =
    | Opens(conn: nat)
    | Shuts(conn: nat)
    | PublishArrives(conn: nat, id: nat)
    | PubrelArrives(conn: nat, id: nat)
    | Authorised(c: nat, ok: bool)
    | LookedUp(c: nat)
    | StoreAnswers(c: nat, ok: bool)
    | Continues(c: nat)
    | PublishAnswers(c: nat, ok: bool)
    | PubrecWritten(c: nat)
    | RelLookedUp(c: nat)
    | DeleteAnswers(c: nat, ok: bool)
    | PubcompWritten(c: nat)

  predicate At(s: State, c: nat, p: Phase) {
    c < |s.chains| && s.chains[c].phase == p
  }

  function Move(s: State, c: nat, p: Phase): (r: State)
    requires c < |s.chains|
  {
    s.(chains := s.chains[c := s.chains[c].(phase := p)])
  }

  /** An error ends the chain and destroys the connection it came from. */
  function Fail(s: State, c: nat): (r: State)
    requires c < |s.chains|
  {
    Move(s, c, Done).(open := s.open - {s.chains[c].conn})
  }

  function Update(messages: seq<Message>, m: nat, message: Message): (r: seq<Message>) {
    if m < |messages| then messages[m := message] else messages
  }

  /** The delete takes every message of that identifier out of the store. */
  function Release(messages: seq<Message>, id: nat): (r: seq<Message>)
    ensures |r| == |messages|
  {
    seq(|messages|, i requires 0 <= i < |messages| =>
      if messages[i].id == id then messages[i].(live := false) else messages[i])
  }

  /** One step; an event whose chain is not waiting for it changes nothing. A packet may be handled after its
      connection has gone: what was queued before CONNACK is dispatched all the same (lib/client.js:480-489). */
  function Step(s: State, e: Event): (r: State) {
    match e
    case Opens(conn) => s.(open := s.open + {conn})
    case Shuts(conn) => s.(open := s.open - {conn})
    case PublishArrives(conn, id) =>
      s.(chains := s.chains + [Chain(conn, id, Authorizing)])
    case PubrelArrives(conn, id) =>
      s.(chains := s.chains + [Chain(conn, id, RelLookingUp)])
    case Authorised(c, ok) =>
      if !At(s, c, Authorizing) then s
      else if ok then Move(s, c, LookingUp) else Fail(s, c)
    case LookedUp(c) =>
      if !At(s, c, LookingUp) then s
      else if s.chains[c].id in s.store then Move(s, c, Acking(s.store[s.chains[c].id]))
      else Move(s, c, Storing)
    case StoreAnswers(c, ok) =>
      if !At(s, c, Storing) then s
      else if !ok then Fail(s, c)
      else
        var id, m := s.chains[c].id, |s.messages|;
        Move(s, c, Stored(m)).(store := s.store[id := m], messages := s.messages + [Message(id, true, 0, 0, 0)])
    case Continues(c) =>
      if c < |s.chains| && s.chains[c].phase.Stored? && s.chains[c].phase.m < |s.messages| then
        var m := s.chains[c].phase.m;
        Move(s, c, Publishing(m)).(
          messages := Update(s.messages, m, s.messages[m].(published := s.messages[m].published + 1)))
      else s
    case PublishAnswers(c, ok) =>
      if c < |s.chains| && s.chains[c].phase.Publishing? && s.chains[c].phase.m < |s.messages| then
        var m := s.chains[c].phase.m;
        var message := s.messages[m];
        if ok then
          Move(s, c, Acking(m)).(
            messages := Update(s.messages, m, message.(completed := message.completed + 1)))
        else
          Fail(s, c).(messages := Update(s.messages, m, message.(failed := message.failed + 1)))
      else s
    case PubrecWritten(c) =>
      if c < |s.chains| && s.chains[c].phase.Acking? then
        var chain := s.chains[c];
        if chain.conn in s.open then
          Move(s, c, Done).(pubrecs := s.pubrecs + [Ack(chain.conn, chain.id, chain.phase.m, |s.messages|)])
        else Move(s, c, Done)
      else s
    case RelLookedUp(c) =>
      if !At(s, c, RelLookingUp) then s
      else if s.chains[c].id in s.store then Move(s, c, RelDeleting) else Move(s, c, Completing)
    case DeleteAnswers(c, ok) =>
      if !At(s, c, RelDeleting) then s
      else if ok then
        Move(s, c, Completing).(store := s.store - {s.chains[c].id}, messages := Release(s.messages, s.chains[c].id))
      else Move(s, c, Completing).(unhandled := s.unhandled + 1)
    case PubcompWritten(c) =>
      if !At(s, c, Completing) then s
      else if s.chains[c].conn in s.open then
        Move(s, c, Done).(pubcomps := s.pubcomps + [s.chains[c].id])
      else Move(s, c, Done)
  }

  function After(run: seq<Event>): (s: State) {
    if run == [] then INITIAL else Step(After(run[..|run| - 1]), run[|run| - 1])
  }

  /** What holds after i steps, and is kept by steps i to j of a kind, holds after j steps. */
  lemma {:induction false} StepsKeep(p: State -> bool, kind: (State, Event) -> bool, run: seq<Event>, i: nat, j: nat)
    requires i <= j <= |run| && p(After(run[..i]))
    requires forall k | i <= k < j :: kind(After(run[..k]), run[k])
    requires forall s, e | p(s) && kind(s, e) :: p(Step(s, e))
    ensures p(After(run[..j]))
    decreases j
  {
    if i == j {
    } else {
      StepsKeep(p, kind, run, i, j - 1);
      assert run[..j][..j - 1] == run[..j - 1];
      assert kind(After(run[..j - 1]), run[j - 1]);
    }
  }

  lemma OneStep(run: seq<Event>, i: nat)
    requires i < |run|
    ensures After(run[..i + 1]) == Step(After(run[..i]), run[i])
  {
    assert run[..i + 1][..i] == run[..i];
  }

  // ---------- What every run satisfies ----------

  /** How far a chain has brought the message it is working on. */
  predicate Progress(s: State, chain: Chain) {
    match chain.phase
    case Stored(m) => m < |s.messages| && s.messages[m].id == chain.id && Counts(s.messages[m], 0, 0, 0)
    case Publishing(m) => m < |s.messages| && s.messages[m].id == chain.id && Counts(s.messages[m], 1, 0, 0)
    case Acking(m) => m < |s.messages| && s.messages[m].id == chain.id
    case _ => true
  }

  predicate Counts(message: Message, published: nat, completed: nat, failed: nat) {
    message.published == published && message.completed == completed && message.failed == failed
  }

  /** Published once, and that publish completed or failed. */
  predicate Settled(message: Message) {
    Counts(message, 1, 1, 0) || Counts(message, 1, 0, 1)
  }

  predicate Holds(chain: Chain, m: nat) {
    chain.phase == Stored(m) || chain.phase == Publishing(m)
  }

  predicate SomeoneHolds(s: State, m: nat) {
    exists c | 0 <= c < |s.chains| :: Holds(s.chains[c], m)
  }

  /** Every message is settled or in the hands of exactly one chain. */
  ghost predicate Sound(s: State) {
    && (forall c | 0 <= c < |s.chains| :: Progress(s, s.chains[c]))
    && (forall m | 0 <= m < |s.messages| :: Settled(s.messages[m]) || SomeoneHolds(s, m))
    && (forall c, d, m | 0 <= c < d < |s.chains| && Holds(s.chains[c], m) :: !Holds(s.chains[d], m))
    && (forall id | id in s.store ::
          s.store[id] < |s.messages| && s.messages[s.store[id]].id == id && s.messages[s.store[id]].live)
    && (forall a | a in s.pubrecs :: a.m < a.storedBefore <= |s.messages| && s.messages[a.m].id == a.id)
  }

  lemma MoveKeepsOthers(s: State, s': State, c: nat)
    requires Sound(s) && c < |s.chains| && |s'.chains| == |s.chains|
    requires forall d | 0 <= d < |s.chains| && d != c :: s'.chains[d] == s.chains[d]
    requires s'.messages == s.messages && s'.store == s.store && s'.pubrecs == s.pubrecs
    requires !s.chains[c].phase.Stored? && !s.chains[c].phase.Publishing?
    requires !s'.chains[c].phase.Stored? && !s'.chains[c].phase.Publishing?
    requires Progress(s', s'.chains[c])
    ensures Sound(s')
  {
    forall m | 0 <= m < |s'.messages| ensures Settled(s'.messages[m]) || SomeoneHolds(s', m) {
      if !Settled(s.messages[m]) {
        var d :| 0 <= d < |s.chains| && Holds(s.chains[d], m);
        assert Holds(s'.chains[d], m);
      }
    }
    forall d | 0 <= d < |s'.chains| ensures Progress(s', s'.chains[d]) {
      assert d != c ==> Progress(s, s.chains[d]);
    }
  }

  lemma StoreKeepsSound(s: State, c: nat)
    requires Sound(s) && At(s, c, Storing)
    ensures Sound(Step(s, StoreAnswers(c, true)))
  {
    var s' := Step(s, StoreAnswers(c, true));
    forall m | 0 <= m < |s'.messages| ensures Settled(s'.messages[m]) || SomeoneHolds(s', m) {
      if m == |s.messages| {
        assert Holds(s'.chains[c], m);
      } else if !Settled(s.messages[m]) {
        var d :| 0 <= d < |s.chains| && Holds(s.chains[d], m);
        assert Holds(s'.chains[d], m);
      }
    }
    forall d | 0 <= d < |s'.chains| ensures Progress(s', s'.chains[d]) {
      assert d != c ==> Progress(s, s.chains[d]);
    }
  }

  /** Chain c, which holds message m, brings it one stage further. */
  lemma HolderKeepsSound(s: State, s': State, c: nat, m: nat)
    requires Sound(s) && c < |s.chains| && Holds(s.chains[c], m) && m < |s.messages|
    requires |s'.chains| == |s.chains| && forall d | 0 <= d < |s.chains| && d != c :: s'.chains[d] == s.chains[d]
    requires s'.store == s.store && s'.pubrecs == s.pubrecs
    requires |s'.messages| == |s.messages| && forall k | 0 <= k < |s.messages| && k != m ::
        s'.messages[k] == s.messages[k]
    requires s'.messages[m].id == s.messages[m].id
    requires s'.messages[m].live == s.messages[m].live && s'.chains[c].id == s.chains[c].id
    requires Progress(s', s'.chains[c])
    requires Settled(s'.messages[m]) || Holds(s'.chains[c], m)
    requires s'.chains[c].phase.Stored? || s'.chains[c].phase.Publishing? ==> Holds(s'.chains[c], m)
    ensures Sound(s')
  {
    forall k | 0 <= k < |s'.messages| ensures Settled(s'.messages[k]) || SomeoneHolds(s', k) {
      if k != m && !Settled(s.messages[k]) {
        var d :| 0 <= d < |s.chains| && Holds(s.chains[d], k);
        assert Holds(s'.chains[d], k);
      }
    }
    forall d | 0 <= d < |s'.chains| ensures Progress(s', s'.chains[d]) {
      if d != c {
        assert Progress(s, s.chains[d]);
        assert !Holds(s.chains[d], m);
      }
    }
  }

  lemma DeleteKeepsSound(s: State, c: nat)
    requires Sound(s) && At(s, c, RelDeleting)
    ensures Sound(Step(s, DeleteAnswers(c, true)))
  {
    var s' := Step(s, DeleteAnswers(c, true));
    forall m | 0 <= m < |s'.messages| ensures Settled(s'.messages[m]) || SomeoneHolds(s', m) {
      if !Settled(s.messages[m]) {
        var d :| 0 <= d < |s.chains| && Holds(s.chains[d], m);
        assert Holds(s'.chains[d], m);
      }
    }
    forall d | 0 <= d < |s'.chains| ensures Progress(s', s'.chains[d]) {
      assert d != c ==> Progress(s, s.chains[d]);
    }
  }

  lemma HandlerStepKeepsSound(s: State, e: Event)
    requires Sound(s) && (e.Continues? || e.PublishAnswers?)
    ensures Sound(Step(s, e))
  {
    if Step(s, e) != s {
      assert Progress(s, s.chains[e.c]);
      HolderKeepsSound(s, Step(s, e), e.c, s.chains[e.c].phase.m);
    }
  }

  lemma PubrecKeepsSound(s: State, c: nat)
    requires Sound(s)
    ensures Sound(Step(s, PubrecWritten(c)))
  {
    if c < |s.chains| && s.chains[c].phase.Acking? {
      assert Progress(s, s.chains[c]);
      var moved := Move(s, c, Done);
      MoveKeepsOthers(s, moved, c);
      var s' := Step(s, PubrecWritten(c));
      assert s' == moved.(pubrecs := s'.pubrecs);
      assert forall m :: SomeoneHolds(moved, m) ==> SomeoneHolds(s', m);
      assert forall chain | Progress(moved, chain) :: Progress(s', chain);
    }
  }

  lemma QuietStepKeepsSound(s: State, e: Event)
    requires Sound(s)
    requires e.Authorised? || e.LookedUp? || e.RelLookedUp? || e.PubcompWritten?
          || (e.StoreAnswers? && !e.ok) || (e.DeleteAnswers? && !e.ok)
    ensures Sound(Step(s, e))
  {
    if Step(s, e) != s {
      MoveKeepsOthers(s, Step(s, e), e.c);
    }
  }

  lemma ConnectionStepKeepsSound(s: State, open: set<nat>)
    requires Sound(s)
    ensures Sound(s.(open := open))
  {
    var s' := s.(open := open);
    assert forall m :: SomeoneHolds(s, m) ==> SomeoneHolds(s', m);
    assert forall chain | Progress(s, chain) :: Progress(s', chain);
  }

  lemma StepKeepsSound(s: State, e: Event)
    requires Sound(s)
    ensures Sound(Step(s, e))
  {
    match e
    case Opens(conn) => ConnectionStepKeepsSound(s, s.open + {conn});
    case Shuts(conn) => ConnectionStepKeepsSound(s, s.open - {conn});
    case PublishArrives(conn, id) => ArrivalKeepsSound(s, Chain(conn, id, Authorizing));
    case PubrelArrives(conn, id) => ArrivalKeepsSound(s, Chain(conn, id, RelLookingUp));
    case Continues(_) => HandlerStepKeepsSound(s, e);
    case PublishAnswers(_, _) => HandlerStepKeepsSound(s, e);
    case PubrecWritten(c) => PubrecKeepsSound(s, c);
    case StoreAnswers(c, ok) =>
      if ok && At(s, c, Storing) { StoreKeepsSound(s, c); } else if !ok { QuietStepKeepsSound(s, e); }
    case DeleteAnswers(c, ok) =>
      if ok && At(s, c, RelDeleting) { DeleteKeepsSound(s, c); } else if !ok { QuietStepKeepsSound(s, e); }
    case _ => QuietStepKeepsSound(s, e);
  }

  lemma ArrivalKeepsSound(s: State, chain: Chain)
    requires Sound(s) && (chain.phase == Authorizing || chain.phase == RelLookingUp)
    ensures Sound(s.(chains := s.chains + [chain]))
  {
    var s' := s.(chains := s.chains + [chain]);
    forall m | 0 <= m < |s'.messages| ensures Settled(s'.messages[m]) || SomeoneHolds(s', m) {
      if !Settled(s.messages[m]) {
        var d :| 0 <= d < |s.chains| && Holds(s.chains[d], m);
        assert Holds(s'.chains[d], m);
      }
    }
    forall d | 0 <= d < |s'.chains| ensures Progress(s', s'.chains[d]) {
      assert d < |s.chains| ==> Progress(s, s.chains[d]);
    }
  }

  lemma {:induction false} RunsAreSound(run: seq<Event>)
    ensures Sound(After(run))
  {
    if run == [] {
    } else {
      RunsAreSound(run[..|run| - 1]);
      StepKeepsSound(After(run[..|run| - 1]), run[|run| - 1]);
    }
  }

  /** In every run: a message goes to broker.publish at most once, and every PUBREC
      answers an identifier whose message had been stored before. */
  lemma PublishedAtMostOnce(run: seq<Event>)
    ensures forall m | m in After(run).messages :: m.published <= 1 && m.completed + m.failed <= m.published
    ensures forall a | a in After(run).pubrecs ::
              a.m < a.storedBefore <= |After(run).messages| && After(run).messages[a.m].id == a.id
  {
    RunsAreSound(run);
    var s := After(run);
    forall k | 0 <= k < |s.messages|
      ensures s.messages[k].published <= 1
      ensures s.messages[k].completed + s.messages[k].failed <= s.messages[k].published
    {
      if !Settled(s.messages[k]) {
        var c :| 0 <= c < |s.chains| && Holds(s.chains[c], k);
        assert Progress(s, s.chains[c]);
      }
    }
  }

  predicate Quiescent(s: State) {
    forall c | 0 <= c < |s.chains| :: s.chains[c].phase == Done
  }

  /** When nothing is left to do, every message behind a PUBREC has gone to broker.publish exactly once,
      and its publish completed exactly when it did not fail. */
  lemma ExactlyOnceAtQuiescence(run: seq<Event>)
    requires Quiescent(After(run))
    ensures forall m | m in After(run).messages ::
              m.published == 1 && (m.completed == 1 <==> m.failed == 0) && m.completed <= 1
    ensures forall a | a in After(run).pubrecs ::
              a.m < |After(run).messages| && After(run).messages[a.m].published == 1
  {
    RunsAreSound(run);
    var s := After(run);
    forall k | 0 <= k < |s.messages| ensures Settled(s.messages[k]) {
      assert !SomeoneHolds(s, k);
    }
  }

  // ---------- One message per identifier ----------

  /** The hypothesis the program does not establish: when a lookup finds nothing, no other
      chain of that identifier is between its own lookup and its store. */
  predicate LookupAlone(s: State, e: Event) {
    e.LookedUp? && At(s, e.c, LookingUp) && s.chains[e.c].id !in s.store ==>
      forall d | 0 <= d < |s.chains| && s.chains[d].phase == Storing :: s.chains[d].id != s.chains[e.c].id
  }

  /** Every lookup of the run is alone. */
  predicate LookupsAlone(run: seq<Event>) {
    run == [] || (LookupsAlone(run[..|run| - 1]) && LookupAlone(After(run[..|run| - 1]), run[|run| - 1]))
  }

  lemma {:induction false} EachLookupAlone(run: seq<Event>, k: nat)
    requires LookupsAlone(run) && k <= |run|
    ensures LookupsAlone(run[..k])
    ensures k < |run| ==> LookupAlone(After(run[..k]), run[k])
    decreases |run|
  {
    if k == |run| {
      assert run[..k] == run;
    } else {
      var prefix := run[..|run| - 1];
      assert k < |prefix| ==> prefix[..k] == run[..k] && prefix[k] == run[k];
      assert k == |prefix| ==> prefix[..k] == prefix;
      EachLookupAlone(prefix, k);
    }
  }

  /** Messages of one identifier follow each other: only the store's own is live. */
  ghost predicate OneLive(s: State) {
    && (forall m | 0 <= m < |s.messages| && s.messages[m].live ::
          s.messages[m].id in s.store && s.store[s.messages[m].id] == m)
    && (forall c | 0 <= c < |s.chains| && s.chains[c].phase == Storing :: s.chains[c].id !in s.store)
    && (forall c, d | 0 <= c < d < |s.chains| && s.chains[c].phase == Storing && s.chains[d].phase == Storing ::
          s.chains[c].id != s.chains[d].id)
  }

  lemma StoreKeepsOneLive(s: State, c: nat)
    requires Sound(s) && OneLive(s) && At(s, c, Storing)
    ensures OneLive(Step(s, StoreAnswers(c, true)))
  {
    var s' := Step(s, StoreAnswers(c, true));
    forall m | 0 <= m < |s'.messages| && s'.messages[m].live
      ensures s'.messages[m].id in s'.store && s'.store[s'.messages[m].id] == m
    {
      assert m < |s.messages| ==> s.messages[m].live && s.messages[m].id != s.chains[c].id;
    }
  }

  lemma DeleteKeepsOneLive(s: State, c: nat)
    requires Sound(s) && OneLive(s) && At(s, c, RelDeleting)
    ensures OneLive(Step(s, DeleteAnswers(c, true)))
  {
    var s' := Step(s, DeleteAnswers(c, true));
    forall m | 0 <= m < |s'.messages| && s'.messages[m].live
      ensures s'.messages[m].id in s'.store && s'.store[s'.messages[m].id] == m
    {
      assert s.messages[m].live && s.messages[m].id != s.chains[c].id;
    }
  }

  /** A step that neither stores nor deletes and makes no chain Storing. */
  lemma QuietStepKeepsOneLive(s: State, s': State)
    requires OneLive(s) && s'.store == s.store && |s'.messages| == |s.messages| && |s.chains| <= |s'.chains|
    requires forall m | 0 <= m < |s.messages| ::
               s'.messages[m].id == s.messages[m].id && s'.messages[m].live == s.messages[m].live
    requires forall c | 0 <= c < |s'.chains| && s'.chains[c].phase == Storing ::
        c < |s.chains| && s'.chains[c] == s.chains[c]
    ensures OneLive(s')
  {
    forall m | 0 <= m < |s'.messages| && s'.messages[m].live
      ensures s'.messages[m].id in s'.store && s'.store[s'.messages[m].id] == m
    {
      assert s.messages[m].live;
    }
  }

  lemma LookupKeepsOneLive(s: State, c: nat)
    requires OneLive(s) && LookupAlone(s, LookedUp(c))
    ensures OneLive(Step(s, LookedUp(c)))
  {
    var s' := Step(s, LookedUp(c));
    if s'.chains != s.chains && s'.chains[c].phase == Storing {
      forall m | 0 <= m < |s'.messages| && s'.messages[m].live
        ensures s'.messages[m].id in s'.store && s'.store[s'.messages[m].id] == m
      {
        assert s.messages[m].live;
      }
    } else {
      QuietStepKeepsOneLive(s, s');
    }
  }

  lemma QuietEventKeepsOneLive(s: State, e: Event)
    requires OneLive(s) && !e.LookedUp? && !(e.StoreAnswers? && e.ok) && !(e.DeleteAnswers? && e.ok)
    ensures OneLive(Step(s, e))
  {
    var s' := Step(s, e);
    if e.Continues? || e.PublishAnswers? {
      assert forall m | 0 <= m < |s.messages| ::
               s'.messages[m].id == s.messages[m].id && s'.messages[m].live == s.messages[m].live;
    } else {
      assert s'.messages == s.messages;
    }
    QuietStepKeepsOneLive(s, s');
  }

  lemma StepKeepsOneLive(s: State, e: Event)
    requires Sound(s) && OneLive(s) && LookupAlone(s, e)
    ensures OneLive(Step(s, e))
  {
    if e.StoreAnswers? && e.ok {
      if At(s, e.c, Storing) { StoreKeepsOneLive(s, e.c); }
    } else if e.DeleteAnswers? && e.ok {
      if At(s, e.c, RelDeleting) { DeleteKeepsOneLive(s, e.c); }
    } else if e.LookedUp? {
      LookupKeepsOneLive(s, e.c);
    } else {
      QuietEventKeepsOneLive(s, e);
    }
  }

  lemma {:induction false} RunsKeepOneLive(run: seq<Event>)
    requires LookupsAlone(run)
    ensures OneLive(After(run))
  {
    if run == [] {
    } else {
      var prefix := run[..|run| - 1];
      RunsKeepOneLive(prefix);
      RunsAreSound(prefix);
      StepKeepsOneLive(After(prefix), run[|run| - 1]);
    }
  }

  /** Only a successful delete of its identifier ends the life of a message. */
  lemma OnlyDeleteReleases(s: State, e: Event, m: nat)
    requires Sound(s) && m < |s.messages| && s.messages[m].live
    ensures |Step(s, e).messages| > m && Step(s, e).messages[m].id == s.messages[m].id
    ensures !Step(s, e).messages[m].live
       <==> e.DeleteAnswers? && e.ok && At(s, e.c, RelDeleting) && s.chains[e.c].id == s.messages[m].id
  {}

  /** What a step can do to an identifier: store a new message of it, hand one to broker.publish, or take it
      out of the store. */
  datatype Deed = Stores | Publishes | TakesOut

  predicate Deletes(s: State, e: Event, id: nat) {
    e.DeleteAnswers? && e.ok && At(s, e.c, RelDeleting) && s.chains[e.c].id == id
  }

  predicate Does(s: State, e: Event, deed: Deed, id: nat) {
    match deed
    case Stores => e.StoreAnswers? && e.ok && At(s, e.c, Storing) && s.chains[e.c].id == id
    case Publishes =>
      && e.Continues? && e.c < |s.chains| && s.chains[e.c].phase.Stored? && s.chains[e.c].phase.m < |s.messages|
      && s.chains[e.c].id == id
    case TakesOut => Deletes(s, e, id) && id in s.store
  }

  predicate DoesAt(run: seq<Event>, k: nat, deed: Deed, id: nat)
    requires k < |run|
  {
    Does(After(run[..k]), run[k], deed, id)
  }

  predicate DeletesAt(run: seq<Event>, k: nat, id: nat)
    requires k < |run|
  {
    Deletes(After(run[..k]), run[k], id)
  }

  lemma {:induction false} LiveUntilDeleted(run: seq<Event>, i: nat, m: nat)
    requires i <= |run| && m < |After(run[..i]).messages| && After(run[..i]).messages[m].live
    ensures m < |After(run).messages| && After(run).messages[m].id == After(run[..i]).messages[m].id
    ensures After(run).messages[m].live
         || exists k | i <= k < |run| :: DeletesAt(run, k, After(run[..i]).messages[m].id)
    decreases |run|
  {
    if i == |run| {
      assert run[..i] == run;
    } else {
      var prefix := run[..|run| - 1];
      assert prefix[..i] == run[..i];
      LiveUntilDeleted(prefix, i, m);
      RunsAreSound(prefix);
      var id := After(run[..i]).messages[m].id;
      if After(prefix).messages[m].live {
        OnlyDeleteReleases(After(prefix), run[|run| - 1], m);
        if !After(run).messages[m].live {
          assert DeletesAt(run, |run| - 1, id);
        }
      } else {
        var k :| i <= k < |prefix| && DeletesAt(prefix, k, id);
        assert prefix[..k] == run[..k];
        assert DeletesAt(run, k, id);
        NoMessageDisappears(After(prefix), run[|run| - 1], m);
      }
    }
  }

  lemma NoMessageDisappears(s: State, e: Event, m: nat)
    requires m < |s.messages|
    ensures m < |Step(s, e).messages| && Step(s, e).messages[m].id == s.messages[m].id
  {}

  lemma StoreMakesLive(run: seq<Event>, i: nat, id: nat)
    requires i < |run| && DoesAt(run, i, Stores, id)
    ensures
      var m := |After(run[..i]).messages|;
      m < |After(run[..i + 1]).messages| && After(run[..i + 1]).messages[m] == Message(id, true, 0, 0, 0)
  {
    assert run[..i + 1][..i] == run[..i];
  }

  /** Nothing of an identifier is live where a chain of it is about to store. */
  lemma NothingLiveAtStore(run: seq<Event>, j: nat, id: nat, m: nat)
    requires LookupsAlone(run) && j < |run| && DoesAt(run, j, Stores, id)
    requires m < |After(run[..j]).messages| && After(run[..j]).messages[m].id == id
    ensures !After(run[..j]).messages[m].live
  {
    EachLookupAlone(run, j);
    RunsKeepOneLive(run[..j]);
  }

  /** A message stored at step i is still live at step j, or was deleted in between. */
  lemma LiveOrDeleted(run: seq<Event>, i: nat, j: nat, id: nat)
    requires i < j <= |run| && DoesAt(run, i, Stores, id)
    ensures
      var m, s := |After(run[..i]).messages|, After(run[..j]);
      && m < |s.messages| && s.messages[m].id == id
      && (s.messages[m].live || exists k | i < k < j :: DeletesAt(run, k, id))
  {
    var past, m := run[..j], |After(run[..i]).messages|;
    StoreMakesLive(run, i, id);
    assert past[..i + 1] == run[..i + 1];
    LiveUntilDeleted(past, i + 1, m);
    if !After(past).messages[m].live {
      var k :| i + 1 <= k < |past| && DeletesAt(past, k, id);
      assert past[..k] == run[..k];
      assert DeletesAt(run, k, id);
    }
  }

  /** Between two messages of one identifier lies a successful delete of it. */
  lemma StoresSeparatedByDelete(run: seq<Event>, i: nat, j: nat, id: nat)
    requires LookupsAlone(run)
    requires i < j < |run| && DoesAt(run, i, Stores, id) && DoesAt(run, j, Stores, id)
    ensures exists k | i < k < j :: DeletesAt(run, k, id)
  {
    LiveOrDeleted(run, i, j, id);
    NothingLiveAtStore(run, j, id, |After(run[..i]).messages|);
  }

  // ---------- Publishes and deletes of one identifier ----------

  /** How many steps of the run do this to the identifier. */
  function Times(run: seq<Event>, deed: Deed, id: nat): (n: nat) {
    if run == [] then 0
    else
      var prefix := run[..|run| - 1];
      Times(prefix, deed, id) + if Does(After(prefix), run[|run| - 1], deed, id) then 1 else 0
  }

  predicate IsWaiting(chain: Chain, id: nat) {
    chain.phase.Stored? && chain.id == id
  }

  /** How many chains have stored a message of this identifier and not yet published it. */
  function Waiting(chains: seq<Chain>, id: nat): (n: nat)
    ensures n > 0 <==> exists c | 0 <= c < |chains| :: IsWaiting(chains[c], id)
  {
    if chains == [] then 0
    else
      var n := |chains| - 1;
      assert forall c | 0 <= c < n :: chains[..n][c] == chains[c];
      Waiting(chains[..n], id) + if IsWaiting(chains[n], id) then 1 else 0
  }

  lemma {:induction false} WaitingAfterMove(chains: seq<Chain>, c: nat, chain: Chain, id: nat)
    requires c < |chains|
    ensures Waiting(chains[c := chain], id) + (if IsWaiting(chains[c], id) then 1 else 0)
         == Waiting(chains, id) + if IsWaiting(chain, id) then 1 else 0
    decreases chains
  {
    var n, moved := |chains| - 1, chains[c := chain];
    if c == n {
      assert moved[..n] == chains[..n];
    } else {
      assert moved[..n] == chains[..n][c := chain];
      WaitingAfterMove(chains[..n], c, chain, id);
    }
  }

  lemma WaitingAfterArrival(chains: seq<Chain>, chain: Chain, id: nat)
    requires !IsWaiting(chain, id)
    ensures Waiting(chains + [chain], id) == Waiting(chains, id)
  {
    assert (chains + [chain])[..|chains|] == chains;
  }

  /** What one callback does to its own chain. */
  lemma ChainMoves(s: State, e: Event, id: nat)
    requires !e.Opens? && !e.Shuts? && !e.PublishArrives? && !e.PubrelArrives? && e.c < |s.chains|
    requires Progress(s, s.chains[e.c])
    ensures |Step(s, e).chains| == |s.chains| && Step(s, e).chains == s.chains[e.c := Step(s, e).chains[e.c]]
    ensures (if IsWaiting(Step(s, e).chains[e.c], id) then 1 else 0) + (if Does(s, e, Publishes, id) then 1 else 0)
         == (if IsWaiting(s.chains[e.c], id) then 1 else 0) + if Does(s, e, Stores, id) then 1 else 0
  {
    match e
    case StoreAnswers(c, ok) => if At(s, c, Storing) { if ok {} else {} } else {}
    case Continues(c) => if s.chains[c].phase.Stored? {} else {}
    case PublishAnswers(c, ok) => if s.chains[c].phase.Publishing? { if ok {} else {} } else {}
    case PubrecWritten(c) => if s.chains[c].phase.Acking? {} else {}
    case _ =>
  }

  lemma StepCountsWaiting(s: State, e: Event, id: nat)
    requires Sound(s)
    ensures Waiting(Step(s, e).chains, id) + (if Does(s, e, Publishes, id) then 1 else 0)
         == Waiting(s.chains, id) + if Does(s, e, Stores, id) then 1 else 0
  {
    if e.Opens? || e.Shuts? {
    } else if e.PublishArrives? {
      WaitingAfterArrival(s.chains, Chain(e.conn, e.id, Authorizing), id);
    } else if e.PubrelArrives? {
      WaitingAfterArrival(s.chains, Chain(e.conn, e.id, RelLookingUp), id);
    } else if e.c < |s.chains| {
      ChainMoves(s, e, id);
      WaitingAfterMove(s.chains, e.c, Step(s, e).chains[e.c], id);
    } else {
      assert Step(s, e) == s;
    }
  }

  /** Every message stored is published or still waits to be. */
  lemma {:induction false} PublishesFollowStores(run: seq<Event>, id: nat)
    ensures Times(run, Publishes, id) + Waiting(After(run).chains, id) == Times(run, Stores, id)
  {
    if run == [] {
    } else {
      var prefix := run[..|run| - 1];
      PublishesFollowStores(prefix, id);
      RunsAreSound(prefix);
      StepCountsWaiting(After(prefix), run[|run| - 1], id);
    }
  }

  lemma StepCountsStored(s: State, e: Event, id: nat)
    requires OneLive(s)
    ensures (if id in Step(s, e).store then 1 else 0) + (if Does(s, e, TakesOut, id) then 1 else 0)
         == (if id in s.store then 1 else 0) + if Does(s, e, Stores, id) then 1 else 0
  {
    match e
    case StoreAnswers(c, ok) => assert At(s, c, Storing) ==> s.chains[c].id !in s.store;
    case DeleteAnswers(c, ok) =>
    case _ => assert Step(s, e).store == s.store;
  }

  /** When lookups do not overlap, what is stored is taken out again or is in the store. */
  lemma {:induction false} StoresFollowDeletes(run: seq<Event>, id: nat)
    requires LookupsAlone(run)
    ensures Times(run, Stores, id) == Times(run, TakesOut, id) + if id in After(run).store then 1 else 0
  {
    if run == [] {
    } else {
      var prefix := run[..|run| - 1];
      StoresFollowDeletes(prefix, id);
      RunsKeepOneLive(prefix);
      StepCountsStored(After(prefix), run[|run| - 1], id);
    }
  }

  /** In every run whose lookups do not overlap, broker.publish is called for an identifier exactly as often as
      it was taken out of the store, plus once if it is in the store, minus the messages not yet published. */
  lemma PublishesPerDelete(run: seq<Event>, id: nat)
    requires LookupsAlone(run)
    ensures Times(run, Publishes, id) + Waiting(After(run).chains, id)
         == Times(run, TakesOut, id) + if id in After(run).store then 1 else 0
    ensures Times(run, Publishes, id) <= Times(run, TakesOut, id) + 1
  {
    PublishesFollowStores(run, id);
    StoresFollowDeletes(run, id);
  }

  /** No delete of the identifier takes effect while a message of it is stored and not yet published. */
  predicate NoEarlyDelete(run: seq<Event>, id: nat) {
    forall k | 0 <= k < |run| && DoesAt(run, k, TakesOut, id) :: Waiting(After(run[..k]).chains, id) == 0
  }

  predicate InTurn(s: State, id: nat) {
    Waiting(s.chains, id) <= 1 && (Waiting(s.chains, id) > 0 ==> id in s.store)
  }

  /** What holds of an identifier whose deletes do not come early. */
  ghost predicate Orderly(s: State, id: nat) {
    Sound(s) && OneLive(s) && InTurn(s, id)
  }

  lemma StepKeepsOrderly(s: State, e: Event, id: nat)
    requires Orderly(s, id) && InTime(s, e, id)
    ensures Orderly(Step(s, e), id)
  {
    StepKeepsSound(s, e);
    StepKeepsOneLive(s, e);
    StepCountsWaiting(s, e, id);
    StepCountsStored(s, e, id);
  }

  /** A lookup is alone and a delete not early. */
  predicate InTime(s: State, e: Event, id: nat) {
    LookupAlone(s, e) && (Does(s, e, TakesOut, id) ==> Waiting(s.chains, id) == 0)
  }

  lemma InTimeAt(run: seq<Event>, k: nat, id: nat)
    requires LookupsAlone(run) && NoEarlyDelete(run, id) && k < |run|
    ensures InTime(After(run[..k]), run[k], id)
  {
    EachLookupAlone(run, k);
    assert DoesAt(run, k, TakesOut, id) ==> Waiting(After(run[..k]).chains, id) == 0;
  }

  lemma InitiallyOrderly(run: seq<Event>, id: nat)
    ensures Orderly(After(run[..0]), id)
  {
    assert run[..0] == [];
  }

  lemma RunsKeepOrderly(run: seq<Event>, j: nat, id: nat)
    requires LookupsAlone(run) && NoEarlyDelete(run, id) && j <= |run|
    ensures Orderly(After(run[..j]), id)
  {
    InitiallyOrderly(run, id);
    forall s, e | Orderly(s, id) && InTime(s, e, id) ensures Orderly(Step(s, e), id) {
      StepKeepsOrderly(s, e, id);
    }
    forall k | 0 <= k < j ensures InTime(After(run[..k]), run[k], id) {
      InTimeAt(run, k, id);
    }
    StepsKeep(s => Orderly(s, id), (s, e) => InTime(s, e, id), run, 0, j);
  }

  /** The identifier is in the store and its message has been published. */
  ghost predicate PublishedInStore(s: State, id: nat) {
    Orderly(s, id) && Waiting(s.chains, id) == 0 && id in s.store
  }

  lemma StepKeepsPublished(s: State, e: Event, id: nat)
    requires PublishedInStore(s, id) && LookupAlone(s, e) && !Does(s, e, TakesOut, id)
    ensures PublishedInStore(Step(s, e), id)
  {
    StepKeepsOrderly(s, e, id);
    StepCountsWaiting(s, e, id);
    StepCountsStored(s, e, id);
  }

  lemma PublishEndsWaiting(s: State, e: Event, id: nat)
    requires Sound(s) && InTurn(s, id) && Does(s, e, Publishes, id)
    ensures Waiting(Step(s, e).chains, id) == 0 && id in Step(s, e).store
  {
    assert IsWaiting(s.chains[e.c], id);
    StepCountsWaiting(s, e, id);
  }

  lemma PublisherWaits(s: State, e: Event, id: nat)
    requires Does(s, e, Publishes, id)
    ensures Waiting(s.chains, id) > 0
  {
    assert IsWaiting(s.chains[e.c], id);
  }

  lemma PublishLeavesPublished(run: seq<Event>, i: nat, id: nat)
    requires LookupsAlone(run) && NoEarlyDelete(run, id) && i < |run| && DoesAt(run, i, Publishes, id)
    ensures PublishedInStore(After(run[..i + 1]), id)
  {
    RunsKeepOrderly(run, i, id);
    RunsKeepOrderly(run, i + 1, id);
    PublishEndsWaiting(After(run[..i]), run[i], id);
    OneStep(run, i);
  }

  lemma PublishedUntilDelete(run: seq<Event>, i: nat, j: nat, id: nat)
    requires LookupsAlone(run) && i <= j <= |run| && PublishedInStore(After(run[..i]), id)
    requires forall k | i <= k < j :: !DoesAt(run, k, TakesOut, id)
    ensures PublishedInStore(After(run[..j]), id)
  {
    var kind := (s, e) => LookupAlone(s, e) && !Does(s, e, TakesOut, id);
    forall s, e | PublishedInStore(s, id) && kind(s, e) ensures PublishedInStore(Step(s, e), id) {
      StepKeepsPublished(s, e, id);
    }
    forall k | i <= k < j ensures kind(After(run[..k]), run[k]) {
      EachLookupAlone(run, k);
      assert !DoesAt(run, k, TakesOut, id);
    }
    StepsKeep(s => PublishedInStore(s, id), kind, run, i, j);
  }

  /** When in addition no delete comes early, two publishes of one identifier have a delete of it between them. */
  lemma PublishesSeparatedByDelete(run: seq<Event>, i: nat, j: nat, id: nat)
    requires LookupsAlone(run) && NoEarlyDelete(run, id)
    requires i < j < |run| && DoesAt(run, i, Publishes, id) && DoesAt(run, j, Publishes, id)
    ensures exists k | i < k < j :: DoesAt(run, k, TakesOut, id)
  {
    if forall k | i < k < j :: !DoesAt(run, k, TakesOut, id) {
      PublisherWaits(After(run[..j]), run[j], id);
      PublishLeavesPublished(run, i, id);
      PublishedUntilDelete(run, i + 1, j, id);
    }
  }

  // ---------- Where the hypotheses are needed ----------

  lemma AfterSnoc(run: seq<Event>, e: Event)
    ensures After(run + [e]) == Step(After(run), e)
    ensures LookupsAlone(run + [e]) <==> LookupsAlone(run) && LookupAlone(After(run), e)
  {
    assert (run + [e])[..|run|] == run;
  }

  lemma DoesAtEnd(run: seq<Event>, e: Event, deed: Deed, id: nat)
    requires Does(After(run), e, deed, id)
    ensures DoesAt(run + [e], |run|, deed, id)
  {
    assert (run + [e])[..|run|] == run;
  }

  /** A PUBLISH of a fresh identifier, from its arrival to its store, appended to a run. */
  function WithNewPublish(run: seq<Event>, conn: nat, id: nat): (r: seq<Event>) {
    var d := |After(run).chains|;
    run + [PublishArrives(conn, id)] + [Authorised(d, true)] + [LookedUp(d)] + [StoreAnswers(d, true)]
  }

  predicate NoneStoring(s: State, id: nat) {
    forall c | 0 <= c < |s.chains| && s.chains[c].phase == Storing :: s.chains[c].id != id
  }

  /** The state of a run after a PUBLISH of a fresh identifier was stored. */
  function NewlyStored(s: State, conn: nat, id: nat): (r: State) {
    WithChain(s.(store := s.store[id := |s.messages|], messages := s.messages + [Message(id, true, 0, 0, 0)]),
              conn, id, Stored(|s.messages|))
  }

  lemma NewPublishSteps(s: State, conn: nat, id: nat)
    requires conn in s.open && id !in s.store
    ensures
      var d := |s.chains|;
      && Step(Step(s, PublishArrives(conn, id)), Authorised(d, true)) == WithChain(s, conn, id, LookingUp)
      && Step(WithChain(s, conn, id, LookingUp), LookedUp(d)) == WithChain(s, conn, id, Storing)
      && Step(WithChain(s, conn, id, Storing), StoreAnswers(d, true)) == NewlyStored(s, conn, id)
  {
    LastMoves(s, conn, id, Authorizing, LookingUp);
    LastMoves(s, conn, id, LookingUp, Storing);
    LastMoves(s, conn, id, Storing, Stored(|s.messages|));
  }

  lemma NewLookupIsAlone(s: State, conn: nat, id: nat)
    requires NoneStoring(s, id)
    ensures LookupAlone(WithChain(s, conn, id, LookingUp), LookedUp(|s.chains|))
  {}

  lemma NewPublishIsStored(run: seq<Event>, conn: nat, id: nat)
    requires LookupsAlone(run)
    requires var s := After(run); conn in s.open && id !in s.store && NoneStoring(s, id)
    ensures LookupsAlone(WithNewPublish(run, conn, id)) && |WithNewPublish(run, conn, id)| == |run| + 4
    ensures After(WithNewPublish(run, conn, id)) == NewlyStored(After(run), conn, id)
  {
    var s, d := After(run), |After(run).chains|;
    var arrived := run + [PublishArrives(conn, id)];
    var authorised := arrived + [Authorised(d, true)];
    var looked := authorised + [LookedUp(d)];
    NewPublishSteps(s, conn, id);
    NewLookupIsAlone(s, conn, id);
    AfterSnoc(run, PublishArrives(conn, id));
    AfterSnoc(arrived, Authorised(d, true));
    assert After(authorised) == WithChain(s, conn, id, LookingUp);
    AfterSnoc(authorised, LookedUp(d));
    AfterSnoc(looked, StoreAnswers(d, true));
  }

  lemma BothPublish(s: State, c: nat, conn: nat, id: nat)
    requires c < |s.chains| && IsWaiting(s.chains[c], id) && s.chains[c].phase.m < |s.messages|
    ensures
      var t, d := NewlyStored(s, conn, id), |s.chains|;
      Does(t, Continues(c), Publishes, id) && Does(Step(t, Continues(c)), Continues(d), Publishes, id)
  {}

  lemma TakenOutLeavesNone(s: State, e: Event, id: nat)
    requires OneLive(s) && Does(s, e, TakesOut, id)
    ensures NoneStoring(Step(s, e), id) && id !in Step(s, e).store
  {}

  lemma TwoMorePublishes(run: seq<Event>, c: nat, d: nat, id: nat)
    requires LookupsAlone(run) && Does(After(run), Continues(c), Publishes, id)
    requires Does(Step(After(run), Continues(c)), Continues(d), Publishes, id)
    ensures
      var again := run + [Continues(c)] + [Continues(d)];
      LookupsAlone(again) && DoesAt(again, |run|, Publishes, id) && DoesAt(again, |run| + 1, Publishes, id)
  {
    var first := run + [Continues(c)];
    var again := first + [Continues(d)];
    AfterSnoc(run, Continues(c));
    AfterSnoc(first, Continues(d));
    DoesAtEnd(first, Continues(d), Publishes, id);
    assert again[..|run|] == run && again[|run|] == Continues(c);
  }

  lemma WaitingHasMessage(run: seq<Event>, c: nat, id: nat)
    requires c < |After(run).chains| && IsWaiting(After(run).chains[c], id)
    ensures After(run).chains[c].phase.m < |After(run).messages|
  {
    RunsAreSound(run);
    assert Progress(After(run), After(run).chains[c]);
  }

  lemma DeleteLeavesNone(run: seq<Event>, id: nat)
    requires run != [] && LookupsAlone(run) && DoesAt(run, |run| - 1, TakesOut, id)
    ensures NoneStoring(After(run), id) && id !in After(run).store
  {
    var n := |run| - 1;
    RunsKeepOneLive(run[..n]);
    TakenOutLeavesNone(After(run[..n]), run[n], id);
  }

  /** The condition of PublishesSeparatedByDelete is needed in every run: right after an early delete the client
      need only send the identifier again, and it is published twice in a row. */
  lemma EarlyDeleteAllowsTwoPublishes(run: seq<Event>, c: nat, conn: nat, id: nat)
    requires run != [] && LookupsAlone(run) && DoesAt(run, |run| - 1, TakesOut, id)
    requires c < |After(run).chains| && IsWaiting(After(run).chains[c], id) && conn in After(run).open
    ensures
      var again := WithNewPublish(run, conn, id) + [Continues(c)] + [Continues(|After(run).chains|)];
      && LookupsAlone(again) && |again| == |run| + 6
      && DoesAt(again, |run| + 4, Publishes, id) && DoesAt(again, |run| + 5, Publishes, id)
  {
    DeleteLeavesNone(run, id);
    NewPublishIsStored(run, conn, id);
    WaitingHasMessage(run, c, id);
    BothPublish(After(run), c, conn, id);
    TwoMorePublishes(WithNewPublish(run, conn, id), c, |After(run).chains|, id);
  }

  /** A PUBREL of a stored identifier, from its arrival to its successful delete, appended to a run. */
  function WithPubrel(run: seq<Event>, conn: nat, id: nat): (r: seq<Event>) {
    var d := |After(run).chains|;
    run + [PubrelArrives(conn, id)] + [RelLookedUp(d)] + [DeleteAnswers(d, true)]
  }

  lemma PubrelSteps(s: State, conn: nat, id: nat)
    requires conn in s.open && id in s.store
    ensures
      var d := |s.chains|;
      var deleted := Step(WithChain(s, conn, id, RelDeleting), DeleteAnswers(d, true));
      && Step(Step(s, PubrelArrives(conn, id)), RelLookedUp(d)) == WithChain(s, conn, id, RelDeleting)
      && Does(WithChain(s, conn, id, RelDeleting), DeleteAnswers(d, true), TakesOut, id)
      && deleted.chains == s.chains + [Chain(conn, id, Completing)] && deleted.open == s.open
  {
    LastMoves(s, conn, id, RelLookingUp, RelDeleting);
    LastMoves(s, conn, id, RelDeleting, Completing);
  }

  lemma PubrelDeletes(run: seq<Event>, conn: nat, id: nat)
    requires LookupsAlone(run) && conn in After(run).open && id in After(run).store
    ensures
      var s, r := After(run), WithPubrel(run, conn, id);
      && LookupsAlone(r) && |r| == |run| + 3 && DoesAt(r, |run| + 2, TakesOut, id)
      && After(r).chains == s.chains + [Chain(conn, id, Completing)] && After(r).open == s.open
  {
    var s, d := After(run), |After(run).chains|;
    var received := run + [PubrelArrives(conn, id)];
    var looked := received + [RelLookedUp(d)];
    PubrelSteps(s, conn, id);
    AfterSnoc(run, PubrelArrives(conn, id));
    AfterSnoc(received, RelLookedUp(d));
    AfterSnoc(looked, DeleteAnswers(d, true));
    DoesAtEnd(looked, DeleteAnswers(d, true), TakesOut, id);
  }

  /** A run that an early delete ends: a PUBLISH is stored, its PUBREL deletes it, and only then would it go on to
      broker.publish. */
  lemma EarlyDeleteHappens()
    ensures
      var run := WithPubrel(WithNewPublish([Opens(0)], 0, 1), 0, 1);
      && LookupsAlone(run) && |run| == 8 && DoesAt(run, 7, TakesOut, 1)
      && |After(run).chains| == 2 && IsWaiting(After(run).chains[0], 1) && 0 in After(run).open
  {
    assert [Opens(0)][..0] == [];
    assert After([Opens(0)]) == INITIAL.(open := {0});
    NewPublishIsStored([Opens(0)], 0, 1);
    PubrelDeletes(WithNewPublish([Opens(0)], 0, 1), 0, 1);
  }

  /** Two chains of one identifier store their messages, one after the other. */
  lemma BothStore(s: State, c: nat, d: nat)
    requires c != d && At(s, c, Storing) && At(s, d, Storing) && s.chains[c].id == s.chains[d].id
    ensures
      var stored := Step(Step(s, StoreAnswers(c, true)), StoreAnswers(d, true));
      var m, message := |s.messages|, Message(s.chains[c].id, true, 0, 0, 0);
      && stored.messages == s.messages + [message, message]
      && At(stored, c, Stored(m)) && At(stored, d, Stored(m + 1))
  {
    var message := Message(s.chains[c].id, true, 0, 0, 0);
    var first := Step(s, StoreAnswers(c, true));
    assert first.messages == s.messages + [message] && At(first, d, Storing);
  }

  /** In any state: two chains of one identifier that both look up before either stores publish
      twice, with no delete in between. */
  lemma OverlappingLookupsPublishTwice(s: State, c: nat, d: nat)
    requires c != d && At(s, c, LookingUp) && At(s, d, LookingUp)
    requires s.chains[c].id == s.chains[d].id && s.chains[c].id !in s.store
    ensures
      var looked := Step(Step(s, LookedUp(c)), LookedUp(d));
      var stored := Step(Step(looked, StoreAnswers(c, true)), StoreAnswers(d, true));
      var published := Step(Step(stored, Continues(c)), Continues(d));
      var id := s.chains[c].id;
      published.messages == s.messages + [Message(id, true, 1, 0, 0), Message(id, true, 1, 0, 0)]
  {
    var id, m := s.chains[c].id, |s.messages|;
    var looked := Step(Step(s, LookedUp(c)), LookedUp(d));
    assert looked == s.(chains := looked.chains) && At(looked, c, Storing) && At(looked, d, Storing);
    BothStore(looked, c, d);
    var stored := Step(Step(looked, StoreAnswers(c, true)), StoreAnswers(d, true));
    var message := Message(id, true, 0, 0, 0);
    var half := Step(stored, Continues(c));
    assert half.messages == s.messages + [message.(published := 1), message] && At(half, d, Stored(m + 1));
  }

  /** A PUBLISH whose identifier is in the store is answered with PUBREC and goes no further. */
  lemma DuplicateIsAcknowledged(s: State, conn: nat, id: nat)
    requires conn in s.open && id in s.store
    ensures
      var d := |s.chains|;
      var looked := Step(Step(Step(s, PublishArrives(conn, id)), Authorised(d, true)), LookedUp(d));
      var answered := Step(looked, PubrecWritten(d));
      && answered.pubrecs == s.pubrecs + [Ack(conn, id, s.store[id], |s.messages|)]
      && answered.messages == s.messages && answered.store == s.store
  {
    var d := |s.chains|;
    var arrived := Step(s, PublishArrives(conn, id));
    assert arrived.chains[d] == Chain(conn, id, Authorizing);
    var looked := Step(Step(arrived, Authorised(d, true)), LookedUp(d));
    assert looked.chains[d] == Chain(conn, id, Acking(s.store[id]));
  }

  /** In any sound state: when broker.publish fails for a stored message, the message stays in the store. So every
      retransmission is a duplicate, answered with PUBREC, although the message was never delivered. */
  lemma FailedPublishLooksStored(s: State, c: nat, m: nat)
    requires Sound(s) && At(s, c, Publishing(m)) && s.chains[c].id in s.store && s.store[s.chains[c].id] == m
    ensures
      var s' := Step(s, PublishAnswers(c, false));
      && s.chains[c].id in s'.store && s'.store[s.chains[c].id] == m < |s'.messages|
      && s'.messages[m].completed == 0 && s'.messages[m].failed == 1
  {
    assert Progress(s, s.chains[c]);
  }

  lemma {:induction false} FailuresStay(run: seq<Event>, i: nat, m: nat)
    requires i <= |run| && m < |After(run[..i]).messages|
    ensures m < |After(run).messages| && After(run[..i]).messages[m].failed <= After(run).messages[m].failed
    decreases |run|
  {
    if i == |run| {
      assert run[..i] == run;
    } else {
      var prefix := run[..|run| - 1];
      assert prefix[..i] == run[..i];
      FailuresStay(prefix, i, m);
    }
  }

  /** However the run goes on, a message whose publish failed is never completed, and never tried again. */
  lemma FailedPublishIsFinal(run: seq<Event>, i: nat, m: nat)
    requires i <= |run| && m < |After(run[..i]).messages| && After(run[..i]).messages[m].failed > 0
    ensures m < |After(run).messages| && Counts(After(run).messages[m], 1, 0, 1)
  {
    FailuresStay(run, i, m);
    RunsAreSound(run);
    var s := After(run);
    if SomeoneHolds(s, m) {
      HeldHasNotFailed(s, m);
    }
  }

  lemma HeldHasNotFailed(s: State, m: nat)
    requires Sound(s) && m < |s.messages| && SomeoneHolds(s, m)
    ensures s.messages[m].failed == 0
  {
    var c :| 0 <= c < |s.chains| && Holds(s.chains[c], m);
    assert Progress(s, s.chains[c]);
  }

  // ---------- The handlers, read in one go ----------

  /** A PUBLISH handled without interference, from its arrival to its answer. */
  function HandledPublish(s: State, conn: nat, id: nat, authorised: bool, storeOk: bool, publishOk: bool): (r: State) {
    var c := |s.chains|;
    var looked := Step(Step(Step(s, PublishArrives(conn, id)), Authorised(c, authorised)), LookedUp(c));
    Answered(looked, c, storeOk, publishOk)
  }

  /** The rest of chain c, once its lookup has answered. */
  function Answered(s: State, c: nat, storeOk: bool, publishOk: bool): (r: State) {
    var published := Step(Step(Step(s, StoreAnswers(c, storeOk)), Continues(c)), PublishAnswers(c, publishOk));
    Step(published, PubrecWritten(c))
  }

  function HandledPubrel(s: State, conn: nat, id: nat, deleteOk: bool): (r: State) {
    var c := |s.chains|;
    Step(Step(Step(Step(s, PubrelArrives(conn, id)), RelLookedUp(c)), DeleteAnswers(c, deleteOk)), PubcompWritten(c))
  }

  function WithChain(s: State, conn: nat, id: nat, phase: Phase): (r: State) {
    s.(chains := s.chains + [Chain(conn, id, phase)])
  }

  function Shut(s: State, conn: nat): (r: State) {
    s.(open := s.open - {conn})
  }

  lemma LastMoves(s: State, conn: nat, id: nat, from: Phase, to: Phase)
    ensures Move(WithChain(s, conn, id, from), |s.chains|, to) == WithChain(s, conn, id, to)
  {
    var chain := Chain(conn, id, from);
    assert (s.chains + [chain])[|s.chains| := chain.(phase := to)] == s.chains + [chain.(phase := to)];
  }

  /** Something is written to the connection if it is still open. */
  function Written<T>(s: State, conn: nat, x: T): (r: seq<T>)
    ensures x in r <==> conn in s.open
  {
    if conn in s.open then [x] else []
  }

  /** A chain that is over ignores what is left of its answers. */
  lemma DoneIgnores(s: State, conn: nat, id: nat, storeOk: bool, publishOk: bool)
    ensures Answered(WithChain(s, conn, id, Done), |s.chains|, storeOk, publishOk) == WithChain(s, conn, id, Done)
  {
    assert WithChain(s, conn, id, Done).chains[|s.chains|].phase == Done;
  }

  /** A chain that only has its PUBREC to write ignores the other answers, too. */
  lemma AckingIsWritten(s: State, conn: nat, id: nat, m: nat, storeOk: bool, publishOk: bool)
    ensures
      var pubrec := Ack(conn, id, m, |s.messages|);
      Answered(WithChain(s, conn, id, Acking(m)), |s.chains|, storeOk, publishOk)
      == WithChain(s.(pubrecs := s.pubrecs + Written(s, conn, pubrec)), conn, id, Done)
  {
    LastMoves(s, conn, id, Acking(m), Done);
    assert WithChain(s, conn, id, Acking(m)).chains[|s.chains|] == Chain(conn, id, Acking(m));
  }

  /** Refused by authorizePublish: the connection is destroyed and nothing else happens. */
  lemma RefusedOutcome(s: State, conn: nat, id: nat, storeOk: bool, publishOk: bool)
    ensures HandledPublish(s, conn, id, false, storeOk, publishOk) == WithChain(Shut(s, conn), conn, id, Done)
  {
    LastMoves(s, conn, id, Authorizing, Done);
    DoneIgnores(Shut(s, conn), conn, id, storeOk, publishOk);
  }

  /** An identifier that is in the store: PUBREC, and nothing is stored or published. */
  lemma DuplicateOutcome(s: State, conn: nat, id: nat, storeOk: bool, publishOk: bool)
    requires id in s.store
    ensures
      var pubrec := Ack(conn, id, s.store[id], |s.messages|);
      HandledPublish(s, conn, id, true, storeOk, publishOk)
      == WithChain(s.(pubrecs := s.pubrecs + Written(s, conn, pubrec)), conn, id, Done)
  {
    LastMoves(s, conn, id, Authorizing, LookingUp);
    LastMoves(s, conn, id, LookingUp, Acking(s.store[id]));
    AckingIsWritten(s, conn, id, s.store[id], storeOk, publishOk);
  }

  lemma FreshIsStored(s: State, conn: nat, id: nat)
    requires id !in s.store
    ensures
      Step(Step(Step(s, PublishArrives(conn, id)), Authorised(|s.chains|, true)), LookedUp(|s.chains|))
      == WithChain(s, conn, id, Storing)
  {
    LastMoves(s, conn, id, Authorizing, LookingUp);
    LastMoves(s, conn, id, LookingUp, Storing);
  }

  /** The store refuses a new message: no publish, no PUBREC, and the connection is destroyed. */
  lemma UnstoredOutcome(s: State, conn: nat, id: nat, publishOk: bool)
    requires id !in s.store
    ensures HandledPublish(s, conn, id, true, false, publishOk) == WithChain(Shut(s, conn), conn, id, Done)
  {
    FreshIsStored(s, conn, id);
    LastMoves(s, conn, id, Storing, Done);
    DoneIgnores(Shut(s, conn), conn, id, false, publishOk);
  }

  /** The one message of a new identifier, after its one publish. */
  function NewMessage(id: nat, publishOk: bool): (r: Message) {
    if publishOk then Message(id, true, 1, 1, 0) else Message(id, true, 1, 0, 1)
  }

  /** A stored message, taken up to the call of broker.publish. */
  lemma StoredIsPublished(s: State, conn: nat, id: nat)
    ensures
      var c, m := |s.chains|, |s.messages|;
      Step(Step(WithChain(s, conn, id, Storing), StoreAnswers(c, true)), Continues(c))
      == WithChain(s.(store := s.store[id := m], messages := s.messages + [Message(id, true, 1, 0, 0)]),
                   conn, id, Publishing(m))
  {
    var c, m := |s.chains|, |s.messages|;
    var stored := s.(store := s.store[id := m], messages := s.messages + [Message(id, true, 0, 0, 0)]);
    LastMoves(s, conn, id, Storing, Stored(m));
    assert Step(WithChain(s, conn, id, Storing), StoreAnswers(c, true)) == WithChain(stored, conn, id, Stored(m));
    LastMoves(stored, conn, id, Stored(m), Publishing(m));
    assert Update(stored.messages, m, Message(id, true, 1, 0, 0)) == s.messages + [Message(id, true, 1, 0, 0)];
  }

  /** The answer of broker.publish for the message just published, taken to the end of the chain. */
  lemma PublishAnswered(s: State, conn: nat, id: nat, m: nat, publishOk: bool)
    requires m < |s.messages| && s.messages[m] == Message(id, true, 1, 0, 0)
    ensures
      var c, pubrec := |s.chains|, Ack(conn, id, m, |s.messages|);
      var settled := s.(messages := Update(s.messages, m, NewMessage(id, publishOk)));
      Step(Step(WithChain(s, conn, id, Publishing(m)), PublishAnswers(c, publishOk)), PubrecWritten(c))
      == if publishOk then WithChain(settled.(pubrecs := s.pubrecs + Written(s, conn, pubrec)), conn, id, Done)
         else WithChain(Shut(settled, conn), conn, id, Done)
  {
    var settled := s.(messages := Update(s.messages, m, NewMessage(id, publishOk)));
    if publishOk {
      LastMoves(s, conn, id, Publishing(m), Acking(m));
      assert Step(WithChain(s, conn, id, Publishing(m)), PublishAnswers(|s.chains|, true))
          == WithChain(settled, conn, id, Acking(m));
      LastMoves(settled, conn, id, Acking(m), Done);
    } else {
      LastMoves(s, conn, id, Publishing(m), Done);
    }
  }

  /** Once the store has the message: one publish; PUBREC if that succeeds, otherwise the connection is destroyed. */
  lemma PublishedOutcome(s: State, conn: nat, id: nat, publishOk: bool)
    requires id !in s.store
    ensures
      var r := HandledPublish(s, conn, id, true, true, publishOk);
      && r.chains == s.chains + [Chain(conn, id, Done)] && r.pubcomps == s.pubcomps && r.unhandled == s.unhandled
      && r.store == s.store[id := |s.messages|] && r.messages == s.messages + [NewMessage(id, publishOk)]
      && r.open == (if publishOk then s.open else s.open - {conn})
      && var pubrec := Ack(conn, id, |s.messages|, |s.messages| + 1);
         r.pubrecs == if publishOk then s.pubrecs + Written(s, conn, pubrec) else s.pubrecs
  {
    var m := |s.messages|;
    var called := s.(store := s.store[id := m], messages := s.messages + [Message(id, true, 1, 0, 0)]);
    FreshIsStored(s, conn, id);
    StoredIsPublished(s, conn, id);
    PublishAnswered(called, conn, id, m, publishOk);
    assert Update(called.messages, m, NewMessage(id, publishOk)) == s.messages + [NewMessage(id, publishOk)];
  }

  /** A new identifier, for both answers of the store. */
  lemma NewOutcome(s: State, r: State, conn: nat, id: nat, storeOk: bool, publishOk: bool)
    requires id !in s.store && r.chains == s.chains + [Chain(conn, id, Done)]
    requires r.pubcomps == s.pubcomps && r.unhandled == s.unhandled
    requires r.store == if storeOk then s.store[id := |s.messages|] else s.store
    requires r.messages == if storeOk then s.messages + [NewMessage(id, publishOk)] else s.messages
    requires r.open == if storeOk && publishOk then s.open else s.open - {conn}
    requires
      var pubrec := Ack(conn, id, |s.messages|, |s.messages| + 1);
      r.pubrecs == s.pubrecs + if storeOk && publishOk then Written(s, conn, pubrec) else []
    ensures r == HandledPublish(s, conn, id, true, storeOk, publishOk)
  {
    if storeOk {
      PublishedOutcome(s, conn, id, publishOk);
    } else {
      UnstoredOutcome(s, conn, id, publishOk);
    }
  }

  /** PUBREL: the identifier leaves the store when it was there and the delete succeeds; PUBCOMP in any case. */
  lemma PubrelOutcome(s: State, conn: nat, id: nat, deleteOk: bool)
    ensures
      var r := HandledPubrel(s, conn, id, deleteOk);
      var deleted := id in s.store && deleteOk;
      && r.chains == s.chains + [Chain(conn, id, Done)] && r.pubrecs == s.pubrecs && r.open == s.open
      && r.pubcomps == s.pubcomps + Written(s, conn, id)
      && r.store == (if deleted then s.store - {id} else s.store)
      && r.messages == (if deleted then Release(s.messages, id) else s.messages)
      && r.unhandled == s.unhandled + if id in s.store && !deleteOk then 1 else 0
  {
    if id in s.store {
      LastMoves(s, conn, id, RelLookingUp, RelDeleting);
      LastMoves(s, conn, id, RelDeleting, Completing);
    } else {
      LastMoves(s, conn, id, RelLookingUp, Completing);
    }
    LastMoves(s, conn, id, Completing, Done);
  }

  class Session {
    var store: map<nat, nat>
    var open: set<nat>
    var messages: seq<Message>
    var pubrecs: seq<Ack>
    var pubcomps: seq<nat>
    ghost var chains: seq<Chain>
    ghost var unhandled: nat

    ghost function Abs(): (s: State) reads this {
      State(store, open, chains, messages, pubrecs, pubcomps, unhandled)
    }

    constructor ()
      ensures Abs() == INITIAL
    {
      store, open, chains, messages, pubrecs, pubcomps, unhandled := map[], {}, [], [], [], [], 0;
    }

    /** authorised, storeOk and publishOk are what the hook, the store and the broker will answer. */
    method HandlePublish(conn: nat, id: nat, authorised: bool, storeOk: bool, publishOk: bool)
      modifies this
      ensures Abs() == HandledPublish(old(Abs()), conn, id, authorised, storeOk, publishOk)
      ensures old(id in store) || !authorised || !storeOk ==> messages == old(messages) && store == old(store)
      ensures old(id !in store) && authorised && storeOk ==>
                messages == old(messages) + [NewMessage(id, publishOk)] && id in store && store[id] == |old(messages)|
      ensures conn in open <==> old(conn in open) && authorised && (old(id in store) || (storeOk && publishOk))
      ensures |pubrecs| > |old(pubrecs)| <==> conn in open
    {
      ghost var start := Abs();
      chains := chains + [Chain(conn, id, Done)];
      if !authorised {
        open := open - {conn};
        RefusedOutcome(start, conn, id, storeOk, publishOk);
        return;
      }
      if id in store {
        WritePubrec(conn, id, store[id]);
        DuplicateOutcome(start, conn, id, storeOk, publishOk);
      } else {
        StoreThenPublish(conn, id, storeOk, publishOk);
        NewOutcome(start, Abs(), conn, id, storeOk, publishOk);
      }
    }

    /** A dead connection is written nothing. */
    method WritePubrec(conn: nat, id: nat, m: nat)
      modifies `pubrecs
      ensures pubrecs == old(pubrecs) + if conn in open then [Ack(conn, id, m, |messages|)] else []
    {
      if conn in open {
        pubrecs := pubrecs + [Ack(conn, id, m, |messages|)];
      }
    }

    /** The packet is new: store it first, then publish it, then answer. */
    method StoreThenPublish(conn: nat, id: nat, storeOk: bool, publishOk: bool)
      modifies `store, `open, `messages, `pubrecs
      ensures store == if storeOk then old(store)[id := |old(messages)|] else old(store)
      ensures messages == if storeOk then old(messages) + [NewMessage(id, publishOk)] else old(messages)
      ensures open == if storeOk && publishOk then old(open) else old(open) - {conn}
      ensures pubrecs == old(pubrecs)
                + if storeOk && publishOk && conn in open then [Ack(conn, id, |old(messages)|, |messages|)] else []
    {
      if !storeOk {
        open := open - {conn};
        return;
      }
      var m := |messages|;
      store := store[id := m];
      messages := messages + [Message(id, true, 0, 0, 0)];
      messages := messages[m := messages[m].(published := messages[m].published + 1)];
      if publishOk {
        messages := messages[m := messages[m].(completed := messages[m].completed + 1)];
        WritePubrec(conn, id, m);
      } else {
        messages := messages[m := messages[m].(failed := messages[m].failed + 1)];
        open := open - {conn};
      }
    }

    method HandlePubrel(conn: nat, id: nat, deleteOk: bool)
      modifies this
      ensures Abs() == HandledPubrel(old(Abs()), conn, id, deleteOk)
      ensures pubcomps == old(pubcomps) + if conn in open then [id] else []
      ensures id in store <==> id in old(store) && !deleteOk
      ensures unhandled == old(unhandled) + if id in store then 1 else 0
    {
      ghost var start := Abs();
      chains := chains + [Chain(conn, id, Done)];
      var foundInStore := id in store;
      if foundInStore {
        if deleteOk {
          store := store - {id};
          messages := Release(messages, id);
        } else {
          unhandled := unhandled + 1;
        }
      }
      if conn in open {
        pubcomps := pubcomps + [id];
      }
      PubrelOutcome(start, conn, id, deleteOk);
    }
  }
}
