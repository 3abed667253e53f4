/**
 The subscription table of a client against the listeners it has on the emitter
 (`addSubs` in lib/handlers/subscribe.js, `doUnsubscribe` in lib/handlers/unsubscribe.js,
 the unsubscription of everything in `close`, lib/client.js).

 The emitter is not part of this model: adding a listener takes effect at once, removing one
 takes effect at once and is answered later, once. Every delivery function is new, so a
 listener is a filter and the number of its function. The removal's answer deletes the table
 entry of the filter, whichever entry that is by then.
 */
module SubscriptionTable {
  import TopicScan

  /** options stands for the four values that are compared: QoS, retain handling, retain as published, no local. */
  datatype Subscription = Subscription(func: nat, options: nat)

  datatype Removal = Removal(topic: string, func: nat, number: nat)

  datatype State = State(
    maxTopicLevels: nat,
    subscriptions: map<string, Subscription>,
    listeners: set<(string, nat)>,
    removals: set<Removal>,  // removals the emitter has not answered yet
    next: nat,               // number of the next function or removal
    closed: bool
  )

  function Start(maxTopicLevels: nat): (s: State) {
    State(maxTopicLevels, map[], {}, {}, 0, false)
  }

  datatype Event =
    | AddSubs(topic: string, options: nat)
    | DoUnsubscribe(topic: string)
    | RemovalAnswers(r: Removal)
    | Close

  /** The validation that a filter passes before it is added and again before it is removed. */
  predicate Accepts(maxTopicLevels: nat, topic: string) {
    && topic != ""
    && (maxTopicLevels == 0 || |TopicScan.Split(topic)| <= maxTopicLevels)
    && TopicScan.ScanPasses(topic)
  }

  function Add(s: State, topic: string, options: nat): (r: State) {
    if s.closed || !Accepts(s.maxTopicLevels, topic) then s
    else if topic in s.subscriptions && s.subscriptions[topic].options == options then s
    else
      var without :=
        if topic in s.subscriptions then s.listeners - {(topic, s.subscriptions[topic].func)} else s.listeners;
      s.(subscriptions := s.subscriptions[topic := Subscription(s.next, options)],
         listeners := without + {(topic, s.next)}, next := s.next + 1)
  }

  function Unsubscribe(s: State, topic: string): (r: State) {
    if topic in s.subscriptions then
      var func := s.subscriptions[topic].func;
      s.(listeners := s.listeners - {(topic, func)},
         removals := s.removals + {Removal(topic, func, s.next)}, next := s.next + 1)
    else s
  }

  function UnsubscribeAll(s: State, topics: seq<string>): (r: State)
    decreases topics
  {
    if topics == [] then s else UnsubscribeAll(Unsubscribe(s, topics[0]), topics[1..])
  }

  /** close unsubscribes every key of the table, unless one fails the validation: then it unsubscribes nothing. */
  function CloseWith(s: State, keys: seq<string>): (r: State) {
    var flagged := s.(closed := true);
    if s.closed then s
    else if forall k | k in keys :: Accepts(s.maxTopicLevels, k) then UnsubscribeAll(flagged, keys)
    else flagged
  }

  function Answer(s: State, r: Removal): (r': State) {
    if r in s.removals then s.(subscriptions := s.subscriptions - {r.topic}, removals := s.removals - {r}) else s
  }

  /** keys is the order in which close finds the keys of the table. */
  function Step(s: State, e: Event, keys: seq<string>): (r: State) {
    match e
    case AddSubs(topic, options) => Add(s, topic, options)
    case DoUnsubscribe(topic) => Unsubscribe(s, topic)
    case RemovalAnswers(r) => Answer(s, r)
    case Close => CloseWith(s, keys)
  }

  // ---------- Agreement ----------

  predicate Leaving(s: State, topic: string) {
    exists r | r in s.removals :: r.topic == topic
  }

  /** Exactly one listener per entry of the table, with the recorded function; an entry on its way out has none. */
  ghost predicate Agree(s: State) {
    && (forall t: string, f: nat :: (t, f) in s.listeners <==>
          t in s.subscriptions && s.subscriptions[t].func == f && !Leaving(s, t))
    && (forall t | t in s.subscriptions :: Accepts(s.maxTopicLevels, t) && s.subscriptions[t].func < s.next)
  }

  /** The hypothesis: no filter is added while its removal is under way. */
  predicate NotLeaving(s: State, e: Event) {
    e.AddSubs? ==> !Leaving(s, e.topic)
  }

  ghost predicate KeysOf(s: State, keys: seq<string>) {
    forall k :: k in keys <==> k in s.subscriptions
  }

  /** Close leaves nothing to listen for: from then on every entry is on its way out. */
  ghost predicate Inv(s: State) {
    && Agree(s)
    && (s.closed ==> forall t | t in s.subscriptions :: Leaving(s, t))
  }

  lemma UnsubscribeKeepsAgree(s: State, topic: string)
    requires Agree(s)
    ensures Agree(Unsubscribe(s, topic))
    ensures Unsubscribe(s, topic).subscriptions == s.subscriptions
    ensures forall t :: Leaving(s, t) ==> Leaving(Unsubscribe(s, topic), t)
    ensures topic in s.subscriptions ==> Leaving(Unsubscribe(s, topic), topic)
  {
    var s' := Unsubscribe(s, topic);
    if topic in s.subscriptions {
      assert Removal(topic, s.subscriptions[topic].func, s.next) in s'.removals;
      forall t ensures Leaving(s', t) <==> Leaving(s, t) || t == topic {
        if Leaving(s, t) {
          var r :| r in s.removals && r.topic == t;
          assert r in s'.removals;
        }
      }
    }
  }

  lemma {:induction false} UnsubscribeAllLeaves(s: State, topics: seq<string>)
    requires Agree(s)
    ensures
      var s' := UnsubscribeAll(s, topics);
      && Agree(s') && s'.subscriptions == s.subscriptions && s'.closed == s.closed
      && (forall t :: Leaving(s, t) ==> Leaving(s', t))
      && (forall t | t in topics && t in s.subscriptions :: Leaving(s', t))
    decreases topics
  {
    if topics == [] {
    } else {
      UnsubscribeKeepsAgree(s, topics[0]);
      UnsubscribeAllLeaves(Unsubscribe(s, topics[0]), topics[1..]);
      assert forall t | t in topics :: t == topics[0] || t in topics[1..];
    }
  }

  lemma AddKeepsAgree(s: State, topic: string, options: nat)
    requires Agree(s) && !Leaving(s, topic)
    ensures Agree(Add(s, topic, options))
  {
    var s' := Add(s, topic, options);
    assert forall t :: Leaving(s', t) <==> Leaving(s, t);
  }

  lemma AnswerKeepsInv(s: State, r: Removal)
    requires Inv(s)
    ensures Inv(Answer(s, r))
  {
    var s' := Answer(s, r);
    if r in s.removals {
      assert Leaving(s, r.topic);
      forall t | t != r.topic ensures Leaving(s', t) <==> Leaving(s, t) {
        if Leaving(s, t) {
          var q :| q in s.removals && q.topic == t;
          assert q in s'.removals;
        }
      }
    }
  }

  lemma StepKeepsInv(s: State, e: Event, keys: seq<string>)
    requires Inv(s) && NotLeaving(s, e) && KeysOf(s, keys)
    ensures Inv(Step(s, e, keys))
  {
    match e
    case AddSubs(topic, options) => AddKeepsAgree(s, topic, options);
    case DoUnsubscribe(topic) => UnsubscribeKeepsAgree(s, topic);
    case RemovalAnswers(r) => AnswerKeepsInv(s, r);
    case Close =>
      var flagged := s.(closed := true);
      assert forall t :: Leaving(flagged, t) <==> Leaving(s, t);
      UnsubscribeAllLeaves(flagged, keys);
  }

  // ---------- Runs ----------

  /** A step together with the order in which close would find the keys. */
  datatype Turn = Turn(event: Event, keys: seq<string>)

  function After(maxTopicLevels: nat, run: seq<Turn>): (s: State) {
    if run == [] then Start(maxTopicLevels)
    else
      var last := run[|run| - 1];
      Step(After(maxTopicLevels, run[..|run| - 1]), last.event, last.keys)
  }

  ghost predicate Disciplined(maxTopicLevels: nat, run: seq<Turn>) {
    forall i | 0 <= i < |run| ::
      var s := After(maxTopicLevels, run[..i]);
      NotLeaving(s, run[i].event) && KeysOf(s, run[i].keys)
  }

  lemma {:induction false} RunsKeepInv(maxTopicLevels: nat, run: seq<Turn>)
    requires Disciplined(maxTopicLevels, run)
    ensures Inv(After(maxTopicLevels, run))
  {
    if run == [] {
    } else {
      var prefix, last := run[..|run| - 1], run[|run| - 1];
      forall i | 0 <= i < |prefix|
        ensures
          var s := After(maxTopicLevels, prefix[..i]);
          NotLeaving(s, prefix[i].event) && KeysOf(s, prefix[i].keys)
      {
        assert prefix[..i] == run[..i];
      }
      RunsKeepInv(maxTopicLevels, prefix);
      assert run[..|run| - 1] == prefix;
      StepKeepsInv(After(maxTopicLevels, prefix), last.event, last.keys);
    }
  }

  /** Through subscribing, resubscribing with other options, unsubscribing and closing: when no removal is
      under way the listeners are exactly the entries of the table, each with its recorded function. */
  lemma TableAgreesWithEmitter(maxTopicLevels: nat, run: seq<Turn>)
    requires Disciplined(maxTopicLevels, run) && After(maxTopicLevels, run).removals == {}
    ensures
      var s := After(maxTopicLevels, run);
      s.listeners == set t | t in s.subscriptions :: (t, s.subscriptions[t].func)
  {
    RunsKeepInv(maxTopicLevels, run);
    var s := After(maxTopicLevels, run);
    assert forall t :: !Leaving(s, t);
    forall l | l in s.listeners ensures l.0 in s.subscriptions && l == (l.0, s.subscriptions[l.0].func) {
      assert (l.0, l.1) in s.listeners;
    }
  }

  /** A closed client has no listener left, and no entry once the emitter has answered. No entry can stop this,
      because what was accepted as a filter is accepted again when close removes it. */
  lemma CloseRemovesEverything(maxTopicLevels: nat, run: seq<Turn>)
    requires Disciplined(maxTopicLevels, run) && After(maxTopicLevels, run).closed
    ensures After(maxTopicLevels, run).listeners == {}
    ensures After(maxTopicLevels, run).removals == {} ==> After(maxTopicLevels, run).subscriptions == map[]
  {
    RunsKeepInv(maxTopicLevels, run);
    var s := After(maxTopicLevels, run);
    forall l: (string, nat) ensures l !in s.listeners {
      assert l == (l.0, l.1);
    }
    if s.removals == {} {
      assert forall t :: t !in s.subscriptions;
    }
  }

  /** Where the hypothesis fails: adding a filter whose removal is under way and then getting that answer.
      With the same options the client is told that it is subscribed and is not; with other options it keeps
      a listener that its table does not know, which close will not remove. */
  lemma AddingALeavingFilterBreaksAgreement(s: State, r: Removal, options: nat)
    requires Agree(s) && !s.closed && r in s.removals && r.topic in s.subscriptions
    ensures
      var s' := Answer(Add(s, r.topic, options), r);
      && r.topic !in s'.subscriptions
      && (options == s.subscriptions[r.topic].options ==> forall f :: (r.topic, f) !in s'.listeners)
      && (options != s.subscriptions[r.topic].options ==> (r.topic, s.next) in s'.listeners && !Agree(s'))
  {
    assert Leaving(s, r.topic);
    assert Accepts(s.maxTopicLevels, r.topic);
  }

  // ---------- The program's state ----------

  class Client {
    const maxTopicLevels: nat
    var subscriptions: map<string, Subscription>
    var listeners: set<(string, nat)>
    var removals: set<Removal>
    var next: nat
    var closed: bool

    ghost function Abs(): (s: State) reads this {
      State(maxTopicLevels, subscriptions, listeners, removals, next, closed)
    }

    constructor (maxTopicLevels: nat)
      ensures Abs() == Start(maxTopicLevels)
    {
      this.maxTopicLevels := maxTopicLevels;
      subscriptions, listeners, removals, next, closed := map[], {}, {}, 0, false;
    }

    method AddSub(topic: string, options: nat)
      modifies this
      ensures Abs() == Add(old(Abs()), topic, options)
    {
      var verdict := TopicScan.ValidateTopic(topic, maxTopicLevels);
      if verdict != TopicScan.Accepted || closed {
        return;
      }
      if topic !in subscriptions {
        subscriptions := subscriptions[topic := Subscription(next, options)];
        listeners := listeners + {(topic, next)};
        next := next + 1;
      } else if subscriptions[topic].options != options {
        listeners := listeners - {(topic, subscriptions[topic].func)};
        subscriptions := subscriptions[topic := Subscription(next, options)];
        listeners := listeners + {(topic, next)};
        next := next + 1;
      }
    }

    method DoUnsubscribe(topic: string)
      modifies this
      ensures Abs() == Unsubscribe(old(Abs()), topic)
    {
      if topic in subscriptions {
        var func := subscriptions[topic].func;
        listeners := listeners - {(topic, func)};
        removals := removals + {Removal(topic, func, next)};
        next := next + 1;
      }
    }

    method RemovalAnswered(r: Removal)
      requires r in removals
      modifies this
      ensures Abs() == Answer(old(Abs()), r)
    {
      subscriptions := subscriptions - {r.topic};
      removals := removals - {r};
    }

    /** keys are the keys of the table, in the order in which they are found. */
    method Close(keys: seq<string>)
      modifies this
      ensures Abs() == CloseWith(old(Abs()), keys)
    {
      if closed {
        return;
      }
      closed := true;
      var i := 0;
      while i < |keys|
        invariant 0 <= i <= |keys|
        invariant Abs() == old(Abs()).(closed := true)
        invariant forall j | 0 <= j < i :: Accepts(maxTopicLevels, keys[j])
      {
        var verdict := TopicScan.ValidateTopic(keys[i], maxTopicLevels);
        if verdict != TopicScan.Accepted {
          assert keys[i] in keys && !Accepts(maxTopicLevels, keys[i]);
          return;
        }
        i := i + 1;
      }
      ghost var flagged := Abs();
      i := 0;
      while i < |keys|
        invariant 0 <= i <= |keys|
        invariant UnsubscribeAll(Abs(), keys[i..]) == UnsubscribeAll(flagged, keys)
      {
        assert keys[i..][0] == keys[i] && keys[i..][1..] == keys[i + 1..];
        DoUnsubscribe(keys[i]);
        i := i + 1;
      }
    }
  }
}
