/**
 What the client of `WriteAhead` listens to and what reaches it, told by the callbacks of the run:
 a SUBSCRIBE ends in a stored subscription and a listener, an UNSUBSCRIBE in neither, a restored
 session in a listener per stored filter, and a message is enqueued and delivered for these
 (lib/handlers/subscribe.js, lib/handlers/unsubscribe.js, `enqueueOffline` and `emitPacket` in
 aedes.js).
 */
module ListenHistory {
  import Histories
  import opened WriteAhead

  // ---------- What a packet brings about ----------

  /** A SUBSCRIBE, in any state: once storage has answered for a granted filter, all requests of the packet are stored,
      and the filter is listened to with the QoS it was requested with. */
  lemma SubscribeTakesEffect(matches: Matcher, s: State, requests: Subscriptions, denied: set<string>, f: string)
    requires f in requests && f !in denied
    ensures
      var c := |s.chains|;
      var stored := Step(matches, Step(matches, s, SubscribeArrives(requests, denied)), StoreTakesEffect(c, f));
      var s' := Step(matches, stored, Adds(c, f));
      && stored.stored == s'.stored == s.stored + requests && stored.listening == s.listening
      && s'.listening == s.listening[f := requests[f]]
      && f !in s'.chains[c].storing && f !in s'.chains[c].adding
  {
    var c, arrived := |s.chains|, Step(matches, s, SubscribeArrives(requests, denied));
    assert arrived.chains[c] == Subscribing(requests, requests.Keys - denied, {});
    var stored := Step(matches, arrived, StoreTakesEffect(c, f));
    assert stored.chains[c] == Subscribing(requests, requests.Keys - denied - {f}, {} + {f});
  }

  /** An UNSUBSCRIBE: its filters leave storage at once, and each its listener after that. */
  lemma UnsubscribeTakesEffect(matches: Matcher, s: State, filters: set<string>, f: string)
    requires f in filters
    ensures
      var c := |s.chains|;
      var unstored := Step(matches, Step(matches, s, UnsubscribeArrives(filters)), RemovalTakesEffect(c));
      var s' := Step(matches, unstored, StopsListening(c, f));
      && unstored.stored == s'.stored == s.stored - filters && unstored.listening == s.listening
      && s'.listening == s.listening - {f} && f !in s'.chains[c].left
  {
    var c, arrived := |s.chains|, Step(matches, s, UnsubscribeArrives(filters));
    assert arrived.chains[c] == Unsubscribing(filters, false, {});
    assert Step(matches, arrived, RemovalTakesEffect(c)).chains[c] == Unsubscribing(filters, true, filters);
  }

  /** A restored session: every stored filter that is not denied is listened to with the QoS it was stored with. */
  lemma SessionIsRestored(matches: Matcher, s: State, denied: set<string>, f: string)
    requires f in s.stored && f !in denied
    ensures
      var c := |s.chains|;
      var fetched := Step(matches, s, SessionFetched(denied));
      var s' := Step(matches, fetched, Restores(c, f));
      && fetched.stored == s'.stored == s.stored && fetched.listening == s.listening
      && s'.listening == s.listening[f := s.stored[f]] && f !in s'.chains[c].missing
  {
    var c, fetched := |s.chains|, Step(matches, s, SessionFetched(denied));
    assert fetched.chains[c] == Restoring(s.stored, s.stored.Keys - denied);
  }

  // ---------- Whole runs ----------

  /** The step gives the client a listener for the filter. */
  predicate Listens(s: State, e: Event, f: string) {
    match e
    case Adds(c, g) =>
      g == f && c < |s.chains| && s.chains[c].Subscribing? && f in s.chains[c].adding && f in s.chains[c].requests
    case Restores(c, g) =>
      g == f && c < |s.chains| && s.chains[c].Restoring? && f in s.chains[c].missing && f in s.chains[c].found
    case _ => false
  }

  /** Or takes it away. */
  predicate Unlistens(s: State, e: Event, f: string) {
    match e
    case StopsListening(c, g) => g == f && c < |s.chains| && s.chains[c].Unsubscribing? && f in s.chains[c].left
    case ListenerDropped(g) => g == f
    case _ => false
  }

  ghost predicate Happens(kind: (State, Event) -> bool, matches: Matcher, stored: Subscriptions, run: seq<Event>,
                          k: nat)
    requires k < |run|
  {
    kind(After(matches, stored, run[..k]), run[k])
  }

  /** Step k is of one kind, and no later one of the other. */
  ghost predicate Lasts(on: (State, Event) -> bool, off: (State, Event) -> bool, matches: Matcher,
                        stored: Subscriptions, run: seq<Event>, k: nat)
  {
    && k < |run| && Happens(on, matches, stored, run, k)
    && forall i | k < i < |run| :: !Happens(off, matches, stored, run, i)
  }

  lemma SwitchHistory(flag: State -> bool, on: (State, Event) -> bool, off: (State, Event) -> bool, matches: Matcher,
                      stored: Subscriptions, run: seq<Event>)
    requires !flag(Start(stored))
    requires forall s, e :: flag(Step(matches, s, e)) <==> on(s, e) || (flag(s) && !off(s, e))
    ensures flag(After(matches, stored, run)) <==> exists k: nat :: Lasts(on, off, matches, stored, run, k)
  {
    ghost var after := r => After(matches, stored, r);
    ghost var step := (s, e) => Step(matches, s, e);
    assert Histories.Follows(after, step);
    Histories.Switch(after, step, (_, _) => true, flag, on, off, run);
    forall k: nat ensures Lasts(on, off, matches, stored, run, k) <==> Histories.LastOn(after, on, off, run, k) {
      forall i | 0 <= i < |run| ensures Happens(off, matches, stored, run, i) == Histories.At(after, off, run, i) {}
    }
  }

  lemma StepListens(matches: Matcher, s: State, e: Event, f: string)
    ensures f in Step(matches, s, e).listening <==> Listens(s, e, f) || (f in s.listening && !Unlistens(s, e, f))
  {}

  /** A filter is listened to exactly if some callback added it, and none has taken it away since. */
  lemma ListeningIff(matches: Matcher, stored: Subscriptions, run: seq<Event>, f: string)
    ensures
      var on, off := (s, e) => Listens(s, e, f), (s, e) => Unlistens(s, e, f);
      f in After(matches, stored, run).listening <==> exists k: nat :: Lasts(on, off, matches, stored, run, k)
  {
    forall s, e ensures f in Step(matches, s, e).listening
                   <==> Listens(s, e, f) || (f in s.listening && !Unlistens(s, e, f))
    {
      StepListens(matches, s, e, f);
    }
    SwitchHistory((s: State) => f in s.listening, (s, e) => Listens(s, e, f), (s, e) => Unlistens(s, e, f),
                  matches, stored, run);
  }

  /** Emitting a message whose subscribers were looked up delivers it exactly if the client listens to it with QoS. */
  ghost predicate Delivers(matches: Matcher, s: State, e: Event, m: Message) {
    e == Emit(m) && m in s.between && DeliversIt(matches, s.listening, m.topic)
  }

  ghost predicate Enqueues(matches: Matcher, s: State, e: Event, m: Message) {
    e == EnqueueOffline(m) && QueuesIt(matches, s.stored, m.topic)
  }

  lemma StepPasses(matches: Matcher, s: State, e: Event, m: Message)
    ensures m in Step(matches, s, e).delivered <==> Delivers(matches, s, e, m) || m in s.delivered
    ensures m in Step(matches, s, e).enqueued <==> Enqueues(matches, s, e, m) || m in s.enqueued
    ensures m in Step(matches, s, e).between <==> e == EnqueueOffline(m) || (m in s.between && e != Emit(m))
  {}

  predicate LooksUp(s: State, e: Event, m: Message) {
    e == EnqueueOffline(m)
  }

  predicate Emits(s: State, e: Event, m: Message) {
    e == Emit(m)
  }

  /** A message is about to be emitted exactly if its subscribers were looked up and it was not emitted since. */
  lemma BetweenIff(matches: Matcher, stored: Subscriptions, run: seq<Event>, m: Message)
    ensures
      var on, off := (s, e) => LooksUp(s, e, m), (s, e) => Emits(s, e, m);
      m in After(matches, stored, run).between <==> exists k: nat :: Lasts(on, off, matches, stored, run, k)
  {
    forall s, e ensures m in Step(matches, s, e).between <==> LooksUp(s, e, m) || (m in s.between && !Emits(s, e, m)) {
      StepPasses(matches, s, e, m);
    }
    SwitchHistory((s: State) => m in s.between, (s, e) => LooksUp(s, e, m), (s, e) => Emits(s, e, m),
                  matches, stored, run);
  }

  lemma LatchHistory(flag: State -> bool, sets: (State, Event) -> bool, matches: Matcher, stored: Subscriptions,
                     run: seq<Event>)
    requires !flag(Start(stored))
    requires forall s, e :: flag(Step(matches, s, e)) <==> flag(s) || sets(s, e)
    ensures
      flag(After(matches, stored, run)) <==> exists k | 0 <= k < |run| :: Happens(sets, matches, stored, run, k)
  {
    ghost var after := r => After(matches, stored, r);
    ghost var step := (s, e) => Step(matches, s, e);
    assert Histories.Follows(after, step);
    Histories.Latch(after, step, (_, _) => true, flag, sets, run);
    forall k | 0 <= k < |run| ensures Happens(sets, matches, stored, run, k) == Histories.At(after, sets, run, k) {}
  }

  /** It reached deliverQoS exactly if it was emitted while the client listened to it with QoS, and the queue exactly if
      it was looked up while the client had stored a subscription to it with QoS. */
  lemma PassedIff(matches: Matcher, stored: Subscriptions, run: seq<Event>, m: Message)
    ensures
      var delivers := (s, e) => Delivers(matches, s, e, m);
      m in After(matches, stored, run).delivered
      <==> exists k | 0 <= k < |run| :: Happens(delivers, matches, stored, run, k)
    ensures
      var enqueues := (s, e) => Enqueues(matches, s, e, m);
      m in After(matches, stored, run).enqueued
      <==> exists k | 0 <= k < |run| :: Happens(enqueues, matches, stored, run, k)
  {
    forall s, e
      ensures m in Step(matches, s, e).delivered <==> m in s.delivered || Delivers(matches, s, e, m)
      ensures m in Step(matches, s, e).enqueued <==> m in s.enqueued || Enqueues(matches, s, e, m)
    {
      StepPasses(matches, s, e, m);
    }
    LatchHistory((s: State) => m in s.delivered, (s, e) => Delivers(matches, s, e, m), matches, stored, run);
    LatchHistory((s: State) => m in s.enqueued, (s, e) => Enqueues(matches, s, e, m), matches, stored, run);
  }
}
