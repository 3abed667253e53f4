/**
 Enqueue before emit: a QoS 1 or 2 message is put into the queue of every persistent
 subscriber before it is emitted to the live ones (`enqueueOffline`, `DoEnqueues` and
 `emitPacket` in aedes.js). So a live delivery finds the entry whose identifier it is about to
 store, provided that what a client listens to is stored: SUBSCRIBE stores before it listens,
 UNSUBSCRIBE unstores before it stops listening (lib/handlers/subscribe.js,
 lib/handlers/unsubscribe.js), a restored session listens to what it found stored.

 One connection of one persistent client. Each packet is a chain of callbacks, one per filter
 where the program has one per filter; chains interleave freely, and a storage call that is
 rejected leaves its chain where it is for good. Which topics a filter matches is a parameter.
 Filters carry the QoS of the subscription; one of QoS 0 is neither enqueued for nor delivered
 with QoS.
 */
module WriteAhead {

  type Matcher = (string, string) -> bool  // filter, topic

  predicate StartsWithWildcard(filter: string) {
    filter != "" && (filter[0] == '+' || filter[0] == '#')
  }

  /** The offline path drops filters that start with a wildcard for topics below "$SYS/". */
  predicate EnqueuedFor(matches: Matcher, filter: string, topic: string) {
    matches(filter, topic) && !("$SYS/" <= topic && StartsWithWildcard(filter))
  }

  /** The live path drops them for every topic that starts with '$'. */
  predicate DeliveredTo(matches: Matcher, filter: string, topic: string) {
    matches(filter, topic) && !(topic != "" && topic[0] == '$' && StartsWithWildcard(filter))
  }

  /** The live exclusion contains the offline one: what is delivered live was enqueued for. The converse fails exactly
      for filters that start with a wildcard and topics that start with '$' but not with "$SYS/". */
  lemma ExclusionsDiffer(matches: Matcher, filter: string, topic: string)
    ensures DeliveredTo(matches, filter, topic) ==> EnqueuedFor(matches, filter, topic)
    ensures EnqueuedFor(matches, filter, topic) && !DeliveredTo(matches, filter, topic)
       <==>
         && matches(filter, topic) && StartsWithWildcard(filter)
         && topic != "" && topic[0] == '$' && !("$SYS/" <= topic)
  {
    assert "$SYS/"[0] == '$';
    if "$SYS/" <= topic {
      assert topic[0] == "$SYS/"[0];
    }
  }

  // ---------- Subscriptions ----------

  type Subscriptions = map<string, nat>

  /** What is under way for one packet, or for the restored session. */
  datatype Chain =
    | Subscribing(requests: Subscriptions, storing: set<string>, adding: set<string>)
      // storing: granted filters whose addSubscriptions has not taken effect; adding: those it has, addSubs is next
    | Unsubscribing(filters: set<string>, unstored: bool, left: set<string>)
      // left: filters whose listener is still to be removed, once removeSubscriptions has taken effect
    | Restoring(found: Subscriptions, missing: set<string>)

  datatype Message = Message(number: nat, topic: string)

  datatype State = State(
    stored: Subscriptions,     // subscriptions in persistence, with their QoS
    listening: Subscriptions,  // filters with a listener, with the QoS of the listener
    chains: seq<Chain>,
    enqueued: set<Message>,    // messages that were put into the client's queue
    between: set<Message>,     // messages whose subscribers were looked up, and that are not yet emitted
    delivered: set<Message>    // messages that reached deliverQoS of the client
  )

  /** The connection starts with what earlier ones left in persistence. */
  function Start(stored: Subscriptions): (s: State) {
    State(stored, map[], [], {}, {}, {})
  }

  datatype Event =
    | SubscribeArrives(requests: Subscriptions, denied: set<string>)
    | StoreTakesEffect(c: nat, filter: string)
    | Adds(c: nat, filter: string)
    | UnsubscribeArrives(filters: set<string>)
    | RemovalTakesEffect(c: nat)
    | StopsListening(c: nat, filter: string)
    | SessionFetched(denied: set<string>)  // a restored filter that is denied stays stored and is not listened to
    | Restores(c: nat, filter: string)
    | ListenerDropped(filter: string)  // the client closes: its listeners go, persistence keeps its subscriptions
    | EnqueueOffline(message: Message)
    | Emit(message: Message)

  ghost predicate QueuesIt(matches: Matcher, stored: Subscriptions, topic: string) {
    exists f | f in stored :: stored[f] > 0 && EnqueuedFor(matches, f, topic)
  }

  ghost predicate DeliversIt(matches: Matcher, listening: Subscriptions, topic: string) {
    exists f | f in listening :: listening[f] > 0 && DeliveredTo(matches, f, topic)
  }

  function Move(s: State, c: nat, chain: Chain): (r: State)
    requires c < |s.chains|
  {
    s.(chains := s.chains[c := chain])
  }

  /** addSubscriptions is called once per granted filter, each time with all requests of the packet. */
  function StoreStep(s: State, c: nat, f: string): (r: State) {
    if c < |s.chains| && s.chains[c].Subscribing? && f in s.chains[c].storing then
      var chain := s.chains[c];
      var moved := chain.(storing := chain.storing - {f}, adding := chain.adding + {f});
      Move(s, c, moved).(stored := s.stored + chain.requests)
    else s
  }

  function AddStep(s: State, c: nat, f: string): (r: State) {
    if c < |s.chains| && s.chains[c].Subscribing? && f in s.chains[c].adding && f in s.chains[c].requests then
      var chain := s.chains[c];
      Move(s, c, chain.(adding := chain.adding - {f})).(listening := s.listening[f := chain.requests[f]])
    else s
  }

  function RemovalStep(s: State, c: nat): (r: State) {
    if c < |s.chains| && s.chains[c].Unsubscribing? && !s.chains[c].unstored then
      var chain := s.chains[c];
      Move(s, c, chain.(unstored := true, left := chain.filters)).(stored := s.stored - chain.filters)
    else s
  }

  function StopStep(s: State, c: nat, f: string): (r: State) {
    if c < |s.chains| && s.chains[c].Unsubscribing? && f in s.chains[c].left then
      var chain := s.chains[c];
      Move(s, c, chain.(left := chain.left - {f})).(listening := s.listening - {f})
    else s
  }

  function RestoreStep(s: State, c: nat, f: string): (r: State) {
    if c < |s.chains| && s.chains[c].Restoring? && f in s.chains[c].missing && f in s.chains[c].found then
      var chain := s.chains[c];
      Move(s, c, chain.(missing := chain.missing - {f})).(listening := s.listening[f := chain.found[f]])
    else s
  }

  ghost function Step(matches: Matcher, s: State, e: Event): (r: State) {
    match e
    case SubscribeArrives(requests, denied) =>
      s.(chains := s.chains + [Subscribing(requests, requests.Keys - denied, {})])
    case StoreTakesEffect(c, f) => StoreStep(s, c, f)
    case Adds(c, f) => AddStep(s, c, f)
    case UnsubscribeArrives(filters) => s.(chains := s.chains + [Unsubscribing(filters, false, {})])
    case RemovalTakesEffect(c) => RemovalStep(s, c)
    case StopsListening(c, f) => StopStep(s, c, f)
    case SessionFetched(denied) => s.(chains := s.chains + [Restoring(s.stored, s.stored.Keys - denied)])
    case Restores(c, f) => RestoreStep(s, c, f)
    case ListenerDropped(f) => s.(listening := s.listening - {f})
    case EnqueueOffline(m) =>
      s.(between := s.between + {m},
         enqueued := if QueuesIt(matches, s.stored, m.topic) then s.enqueued + {m} else s.enqueued)
    case Emit(m) =>
      if m !in s.between then s
      else
        s.(between := s.between - {m},
           delivered := if DeliversIt(matches, s.listening, m.topic) then s.delivered + {m} else s.delivered)
  }

  ghost function After(matches: Matcher, stored: Subscriptions, run: seq<Event>): (s: State) {
    if run == [] then Start(stored) else Step(matches, After(matches, stored, run[..|run| - 1]), run[|run| - 1])
  }

  // ---------- The hypotheses ----------

  /** The chain may still change what is stored or listened to under this filter. */
  predicate Touches(chain: Chain, f: string) {
    match chain
    case Subscribing(requests, storing, adding) => f in requests && (storing != {} || f in adding)
    case Unsubscribing(filters, unstored, left) => f in filters && (!unstored || f in left)
    case Restoring(found, missing) => f in missing
  }

  predicate Busy(s: State, f: string) {
    exists c | 0 <= c < |s.chains| :: Touches(s.chains[c], f)
  }

  /** No chain may still change a filter through which this topic is delivered. */
  ghost predicate QuietFor(matches: Matcher, s: State, topic: string) {
    forall f | DeliveredTo(matches, f, topic) :: !Busy(s, f)
  }

  /** Packets that concern one filter do not overlap; and a filter that is denied is not listened to with other
      options, because what is denied is stored all the same. */
  ghost predicate Separate(s: State, e: Event) {
    match e
    case SubscribeArrives(requests, denied) =>
      && (forall f | f in requests :: !Busy(s, f))
      && (forall f | f in requests && f in denied && f in s.listening :: s.listening[f] == requests[f])
    case UnsubscribeArrives(filters) => forall f | f in filters :: !Busy(s, f)
    case SessionFetched(denied) => forall f | f in s.stored && f !in denied :: !Busy(s, f)
    case _ => true
  }

  ghost predicate SeparateRun(matches: Matcher, stored: Subscriptions, run: seq<Event>) {
    forall i | 0 <= i < |run| :: Separate(After(matches, stored, run[..i]), run[i])
  }

  /** From the moment its subscribers are looked up until it is emitted, no message has a chain open beside it that
      may change a filter it is delivered through. Chains of other filters may be. */
  ghost predicate Steady(matches: Matcher, s: State) {
    forall m | m in s.between :: QuietFor(matches, s, m.topic)
  }

  ghost predicate SteadyRun(matches: Matcher, stored: Subscriptions, run: seq<Event>) {
    forall i | 0 <= i <= |run| :: Steady(matches, After(matches, stored, run[..i]))
  }

  // ---------- What is listened to is stored ----------

  /** A filter that nothing touches is stored as it is listened to. */
  predicate Kept(s: State, f: string) {
    f in s.listening ==> f in s.stored && s.stored[f] == s.listening[f]
  }

  /** How far a chain has brought a filter it may still touch. */
  predicate Fits(s: State, chain: Chain) {
    match chain
    case Subscribing(requests, storing, adding) =>
      && storing <= requests.Keys && adding <= requests.Keys
      && (forall f | f in adding && Touches(chain, f) :: f in s.stored && s.stored[f] == requests[f])
      && (forall f | f in requests && f !in storing && f !in adding && Touches(chain, f) && f in s.listening ::
            s.listening[f] == requests[f] && f in s.stored && s.stored[f] == requests[f])
    case Unsubscribing(filters, unstored, left) => left <= filters
    case Restoring(found, missing) =>
      missing <= found.Keys && forall f | f in missing :: f in s.stored && s.stored[f] == found[f]
  }

  ghost predicate Inv(s: State) {
    && (forall f :: Busy(s, f) || Kept(s, f))
    && (forall c | 0 <= c < |s.chains| :: Fits(s, s.chains[c]))
    && (forall c, d, f | 0 <= c < d < |s.chains| && Touches(s.chains[c], f) :: !Touches(s.chains[d], f))
  }

  /** The filter is stored and listened to as before. */
  predicate Same(s: State, s': State, f: string) {
    && (f in s'.stored <==> f in s.stored) && (f in s.stored ==> s'.stored[f] == s.stored[f])
    && (f in s'.listening <==> f in s.listening) && (f in s.listening ==> s'.listening[f] == s.listening[f])
  }

  /** A chain that touches no filter differently fits as before. */
  lemma OthersFit(s: State, s': State, chain: Chain)
    requires Fits(s, chain) && forall f | Touches(chain, f) :: Same(s, s', f)
    ensures Fits(s', chain)
  {
    match chain
    case Subscribing(requests, storing, adding) =>
      forall f | f in requests && f !in storing && f !in adding && Touches(chain, f) && f in s'.listening
        ensures s'.listening[f] == requests[f] && f in s'.stored && s'.stored[f] == requests[f]
      {
        assert Same(s, s', f);
      }
    case Unsubscribing(_, _, _) =>
    case Restoring(found, missing) =>
      forall f | f in missing ensures f in s'.stored && s'.stored[f] == found[f] {
        assert Touches(chain, f) && Same(s, s', f);
      }
  }

  /** One callback of chain c: it changes only filters that the chain touches, and leaves those it is done with stored
      as they are listened to. */
  lemma ChainStepKeepsInv(s: State, s': State, c: nat)
    requires Inv(s) && c < |s.chains| && |s'.chains| == |s.chains|
    requires forall d | 0 <= d < |s.chains| && d != c :: s'.chains[d] == s.chains[d]
    requires forall f :: Touches(s.chains[c], f) || Same(s, s', f)
    requires forall f :: Touches(s'.chains[c], f) ==> Touches(s.chains[c], f)
    requires forall f | Touches(s.chains[c], f) :: Touches(s'.chains[c], f) || Kept(s', f)
    requires Fits(s', s'.chains[c])
    ensures Inv(s')
  {
    forall f ensures Busy(s', f) || Kept(s', f) {
      if Touches(s.chains[c], f) {
      } else if Busy(s, f) {
        var d :| 0 <= d < |s.chains| && Touches(s.chains[d], f);
        assert Touches(s'.chains[d], f);
      } else {
        assert Kept(s, f) && Same(s, s', f);
      }
    }
    forall d | 0 <= d < |s'.chains| ensures Fits(s', s'.chains[d]) {
      if d != c {
        forall f | Touches(s.chains[d], f) ensures Same(s, s', f) {
          assert !Touches(s.chains[c], f);
        }
        OthersFit(s, s', s.chains[d]);
      }
    }
  }

  lemma ArrivalKeepsInv(s: State, chain: Chain)
    requires Inv(s) && Fits(s, chain) && forall f | Touches(chain, f) :: !Busy(s, f)
    ensures Inv(s.(chains := s.chains + [chain]))
  {
    var s' := s.(chains := s.chains + [chain]);
    forall f ensures Busy(s', f) || Kept(s', f) {
      if Busy(s, f) {
        var d :| 0 <= d < |s.chains| && Touches(s.chains[d], f);
        assert Touches(s'.chains[d], f);
      } else {
        assert Kept(s, f);
      }
    }
    forall c | 0 <= c < |s'.chains| ensures Fits(s', s'.chains[c]) {
      OthersFit(s, s', s'.chains[c]);
    }
    forall c, d, f | 0 <= c < d < |s'.chains| && Touches(s'.chains[c], f) ensures !Touches(s'.chains[d], f) {
      assert Touches(s.chains[c], f);
    }
  }

  lemma DropKeepsInv(s: State, f: string)
    requires Inv(s)
    ensures Inv(s.(listening := s.listening - {f}))
  {
    var s' := s.(listening := s.listening - {f});
    forall g ensures Busy(s', g) || Kept(s', g) {
      if Busy(s, g) {
        var d :| 0 <= d < |s.chains| && Touches(s.chains[d], g);
        assert Touches(s'.chains[d], g);
      } else {
        assert Kept(s, g);
      }
    }
    forall c | 0 <= c < |s'.chains| ensures Fits(s', s'.chains[c]) {
      assert Fits(s, s.chains[c]);
    }
  }

  lemma StoreKeepsInv(s: State, c: nat, f: string)
    requires Inv(s)
    ensures Inv(StoreStep(s, c, f))
  {
    if c < |s.chains| && s.chains[c].Subscribing? && f in s.chains[c].storing {
      assert Fits(s, s.chains[c]);
      ChainStepKeepsInv(s, StoreStep(s, c, f), c);
    }
  }

  lemma AddKeepsInv(s: State, c: nat, f: string)
    requires Inv(s)
    ensures Inv(AddStep(s, c, f))
  {
    if c < |s.chains| && s.chains[c].Subscribing? && f in s.chains[c].adding {
      assert Fits(s, s.chains[c]);
      ChainStepKeepsInv(s, AddStep(s, c, f), c);
    }
  }

  lemma RemovalKeepsInv(s: State, c: nat)
    requires Inv(s)
    ensures Inv(RemovalStep(s, c))
  {
    if c < |s.chains| && s.chains[c].Unsubscribing? && !s.chains[c].unstored {
      ChainStepKeepsInv(s, RemovalStep(s, c), c);
    }
  }

  lemma StopKeepsInv(s: State, c: nat, f: string)
    requires Inv(s)
    ensures Inv(StopStep(s, c, f))
  {
    if c < |s.chains| && s.chains[c].Unsubscribing? && f in s.chains[c].left {
      assert Fits(s, s.chains[c]);
      ChainStepKeepsInv(s, StopStep(s, c, f), c);
    }
  }

  lemma RestoreKeepsInv(s: State, c: nat, f: string)
    requires Inv(s)
    ensures Inv(RestoreStep(s, c, f))
  {
    if c < |s.chains| && s.chains[c].Restoring? && f in s.chains[c].missing {
      assert Fits(s, s.chains[c]);
      ChainStepKeepsInv(s, RestoreStep(s, c, f), c);
    }
  }

  lemma SubscribeKeepsInv(s: State, requests: Subscriptions, denied: set<string>)
    requires Inv(s) && Separate(s, SubscribeArrives(requests, denied))
    ensures Inv(s.(chains := s.chains + [Subscribing(requests, requests.Keys - denied, {})]))
  {
    var chain := Subscribing(requests, requests.Keys - denied, {});
    forall f | f in requests && f in denied && f in s.listening
      ensures s.listening[f] == requests[f] && f in s.stored && s.stored[f] == requests[f]
    {
      assert Kept(s, f);
    }
    ArrivalKeepsInv(s, chain);
  }

  lemma StepKeepsInv(matches: Matcher, s: State, e: Event)
    requires Inv(s) && Separate(s, e)
    ensures Inv(Step(matches, s, e))
  {
    match e
    case SubscribeArrives(requests, denied) => SubscribeKeepsInv(s, requests, denied);
    case StoreTakesEffect(c, f) => StoreKeepsInv(s, c, f);
    case Adds(c, f) => AddKeepsInv(s, c, f);
    case UnsubscribeArrives(filters) => ArrivalKeepsInv(s, Unsubscribing(filters, false, {}));
    case RemovalTakesEffect(c) => RemovalKeepsInv(s, c);
    case StopsListening(c, f) => StopKeepsInv(s, c, f);
    case SessionFetched(denied) => ArrivalKeepsInv(s, Restoring(s.stored, s.stored.Keys - denied));
    case Restores(c, f) => RestoreKeepsInv(s, c, f);
    case ListenerDropped(f) => DropKeepsInv(s, f);
    case _ => MessagesKeepInv(s, Step(matches, s, e));
  }

  lemma MessagesKeepInv(s: State, s': State)
    requires Inv(s) && s'.stored == s.stored && s'.listening == s.listening && s'.chains == s.chains
    ensures Inv(s')
  {
    forall f ensures Busy(s', f) || Kept(s', f) {
      assert Busy(s, f) || Kept(s, f);
      if Busy(s, f) {
        var d :| 0 <= d < |s.chains| && Touches(s.chains[d], f);
        assert Touches(s'.chains[d], f);
      }
    }
    forall c | 0 <= c < |s'.chains| ensures Fits(s', s'.chains[c]) {
      OthersFit(s, s', s.chains[c]);
    }
  }

  /** What holds at the start, and is kept by every step of a kind, holds at the end of a run of such steps. */
  lemma {:induction false} StepsKeep(p: State -> bool, kind: (State, Event) -> bool, matches: Matcher,
                                     stored: Subscriptions, run: seq<Event>, j: nat)
    requires j <= |run| && p(Start(stored))
    requires forall k | 0 <= k < j :: kind(After(matches, stored, run[..k]), run[k])
    requires forall s, e | p(s) && kind(s, e) :: p(Step(matches, s, e))
    ensures p(After(matches, stored, run[..j]))
    decreases j
  {
    if j == 0 {
    } else {
      StepsKeep(p, kind, matches, stored, run, j - 1);
      assert run[..j][..j - 1] == run[..j - 1];
      assert kind(After(matches, stored, run[..j - 1]), run[j - 1]);
    }
  }

  lemma RunsKeepInv(matches: Matcher, stored: Subscriptions, run: seq<Event>)
    requires SeparateRun(matches, stored, run)
    ensures forall j | 0 <= j <= |run| :: Inv(After(matches, stored, run[..j]))
  {
    StartIsRight(stored);
    forall s, e | Inv(s) && Separate(s, e) ensures Inv(Step(matches, s, e)) {
      StepKeepsInv(matches, s, e);
    }
    forall j | 0 <= j <= |run| ensures Inv(After(matches, stored, run[..j])) {
      StepsKeep(s => Inv(s), (s, e) => Separate(s, e), matches, stored, run, j);
    }
  }

  lemma StartIsRight(stored: Subscriptions)
    ensures Inv(Start(stored))
  {
    assert forall f :: Kept(Start(stored), f);
  }

  /** Storing comes before listening: whatever packets come and however their callbacks interleave, a filter that no
      packet is about to change is stored as it is listened to. */
  lemma ListenedIsStored(matches: Matcher, stored: Subscriptions, run: seq<Event>, f: string)
    requires SeparateRun(matches, stored, run)
    requires f in After(matches, stored, run).listening && !Busy(After(matches, stored, run), f)
    ensures
      var s := After(matches, stored, run);
      f in s.stored && s.stored[f] == s.listening[f]
  {
    RunsKeepInv(matches, stored, run);
    assert run[..|run|] == run;
    assert Kept(After(matches, stored, run), f);
  }

  // ---------- What is delivered was enqueued ----------

  /** Every message delivered, and every one about to be, is in the queue. */
  ghost predicate Ahead(matches: Matcher, s: State) {
    && s.delivered <= s.enqueued
    && (forall m | m in s.between && DeliversIt(matches, s.listening, m.topic) :: m in s.enqueued)
  }

  lemma QuietDeliversWhatItQueues(matches: Matcher, s: State, topic: string)
    requires Inv(s) && QuietFor(matches, s, topic) && DeliversIt(matches, s.listening, topic)
    ensures QueuesIt(matches, s.stored, topic)
  {
    var f :| f in s.listening && s.listening[f] > 0 && DeliveredTo(matches, f, topic);
    assert !Busy(s, f) && Kept(s, f);
    ExclusionsDiffer(matches, f, topic);
  }

  /** With no such chain open, no other listener of the topic comes up. */
  lemma QuietListensToNoMore(matches: Matcher, s: State, e: Event, topic: string)
    requires QuietFor(matches, s, topic) && DeliversIt(matches, Step(matches, s, e).listening, topic)
    ensures DeliversIt(matches, s.listening, topic)
  {
    var s' := Step(matches, s, e);
    var f :| f in s'.listening && s'.listening[f] > 0 && DeliveredTo(matches, f, topic);
    assert !Busy(s, f);
    if e.Adds? && e.filter == f && e.c < |s.chains| && s.chains[e.c].Subscribing? && f in s.chains[e.c].adding
        && f in s.chains[e.c].requests {
      assert Touches(s.chains[e.c], f);
    } else if e.Restores? && e.filter == f && e.c < |s.chains| && s.chains[e.c].Restoring?
        && f in s.chains[e.c].missing {
      assert Touches(s.chains[e.c], f);
    } else {
      assert f in s.listening && s.listening[f] == s'.listening[f];
    }
  }

  lemma StepKeepsAhead(matches: Matcher, s: State, e: Event)
    requires Inv(s) && Ahead(matches, s) && Steady(matches, s) && Steady(matches, Step(matches, s, e))
    ensures Ahead(matches, Step(matches, s, e))
  {
    var s' := Step(matches, s, e);
    forall m | m in s'.between && DeliversIt(matches, s'.listening, m.topic) ensures m in s'.enqueued {
      if m in s.between {
        QuietListensToNoMore(matches, s, e, m.topic);
      } else {
        forall f | DeliveredTo(matches, f, m.topic) ensures !Busy(s, f) {
          assert QuietFor(matches, s', m.topic) && !Busy(s', f);
        }
        QuietDeliversWhatItQueues(matches, s, m.topic);
      }
    }
  }

  lemma {:induction false} AheadAt(matches: Matcher, stored: Subscriptions, run: seq<Event>, j: nat)
    requires SeparateRun(matches, stored, run) && SteadyRun(matches, stored, run) && j <= |run|
    ensures Ahead(matches, After(matches, stored, run[..j]))
    decreases j
  {
    if j == 0 {
    } else {
      AheadAt(matches, stored, run, j - 1);
      RunsKeepInv(matches, stored, run);
      assert run[..j][..j - 1] == run[..j - 1];
      assert Steady(matches, After(matches, stored, run[..j - 1])) && Steady(matches, After(matches, stored, run[..j]));
      StepKeepsAhead(matches, After(matches, stored, run[..j - 1]), run[j - 1]);
    }
  }

  /** Under the two hypotheses every message that reaches deliverQoS had been put into the queue before. */
  lemma EnqueuedBeforeDelivered(matches: Matcher, stored: Subscriptions, run: seq<Event>)
    requires SeparateRun(matches, stored, run) && SteadyRun(matches, stored, run)
    ensures After(matches, stored, run).delivered <= After(matches, stored, run).enqueued
  {
    AheadAt(matches, stored, run, |run|);
    assert run[..|run|] == run;
  }

  // ---------- Where the hypotheses are needed ----------

  /** An UNSUBSCRIBE under way, in any state: a message for its filter alone, published between the answer of
      persistence and the removal of the listener, is delivered and was never enqueued. */
  lemma OpenUnsubscribeDeliversUnqueued(matches: Matcher, s: State, f: string, m: Message)
    requires f in s.listening && s.listening[f] > 0 && DeliveredTo(matches, f, m.topic) && m !in s.enqueued
    requires forall g | g in s.stored && g != f :: !matches(g, m.topic)
    ensures
      var unstored := Step(matches, Step(matches, s, UnsubscribeArrives({f})), RemovalTakesEffect(|s.chains|));
      var s' := Step(matches, Step(matches, unstored, EnqueueOffline(m)), Emit(m));
      m in s'.delivered && m !in s'.enqueued
  {
    var arrived := Step(matches, s, UnsubscribeArrives({f}));
    assert arrived.chains[|s.chains|] == Unsubscribing({f}, false, {});
    var unstored := Step(matches, arrived, RemovalTakesEffect(|s.chains|));
    assert unstored.stored == s.stored - {f} && unstored.listening == s.listening;
    assert DeliversIt(matches, s.listening, m.topic);
    assert !QueuesIt(matches, unstored.stored, m.topic);
  }

  /** A SUBSCRIBE and an UNSUBSCRIBE of one filter that overlap, in any state: when both are over the client listens
      to a filter that is not stored. */
  lemma OverlappingPacketsLeaveItUnstored(matches: Matcher, s: State, f: string, qos: nat)
    ensures
      var c, d := |s.chains|, |s.chains| + 1;
      var arrived := Step(matches, Step(matches, s, SubscribeArrives(map[f := qos], {})), UnsubscribeArrives({f}));
      var unstored := Step(matches, Step(matches, arrived, StoreTakesEffect(c, f)), RemovalTakesEffect(d));
      var s' := Step(matches, Step(matches, unstored, StopsListening(d, f)), Adds(c, f));
      && |s'.chains| == |s.chains| + 2 && !Touches(s'.chains[c], f) && !Touches(s'.chains[d], f)
      && f in s'.listening && f !in s'.stored
  {
    var c, d := |s.chains|, |s.chains| + 1;
    var first := Step(matches, s, SubscribeArrives(map[f := qos], {}));
    var arrived := Step(matches, first, UnsubscribeArrives({f}));
    assert arrived.chains[c] == Subscribing(map[f := qos], {f}, {});
    assert arrived.chains[d] == Unsubscribing({f}, false, {});
    var stored := Step(matches, arrived, StoreTakesEffect(c, f));
    assert stored.chains[c] == Subscribing(map[f := qos], {}, {f}) && stored.chains[d] == arrived.chains[d];
    var unstored := Step(matches, stored, RemovalTakesEffect(d));
    assert unstored.chains[d] == Unsubscribing({f}, true, {f}) && unstored.chains[c] == stored.chains[c];
    var stopped := Step(matches, unstored, StopsListening(d, f));
    assert stopped.chains[c] == stored.chains[c] && stopped.chains[d] == Unsubscribing({f}, true, {});
  }

  /** A denied filter is stored with the rest of its packet, in any state: a client that listens to it already keeps
      its listener with the old QoS, and persistence has the new one. */
  lemma DeniedFilterIsStored(matches: Matcher, s: State, denied: string, qos: nat, granted: string)
    requires denied != granted && denied in s.listening
    ensures
      var requests := map[denied := qos, granted := 1];
      var arrived := Step(matches, s, SubscribeArrives(requests, {denied}));
      var s' := Step(matches, arrived, StoreTakesEffect(|s.chains|, granted));
      denied in s'.stored && s'.stored[denied] == qos && s'.listening == s.listening
  {
    var requests := map[denied := qos, granted := 1];
    assert requests.Keys - {denied} == {granted};
  }
}
