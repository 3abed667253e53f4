/**
 What a client listens to, told by what it subscribed to. `SubscriptionTable` shows that the
 table and the emitter agree; here both are tied to the SUBSCRIBEs, UNSUBSCRIBEs and the close of
 the run, so that a filter that was asked for is listened to, and with the options of the last
 request (lib/handlers/subscribe.js, lib/handlers/unsubscribe.js, `close` in lib/client.js).
 */
module SubscriptionHistory {
  import Histories
  import opened SubscriptionTable

  /** The client has exactly this listener for the filter. */
  predicate OnlyListener(s: State, topic: string, func: nat) {
    (topic, func) in s.listeners && forall l | l in s.listeners && l.0 == topic :: l.1 == func
  }

  predicate Listened(s: State, topic: string) {
    exists l | l in s.listeners :: l.0 == topic
  }

  predicate HasOptions(s: State, topic: string, options: nat) {
    topic in s.subscriptions && s.subscriptions[topic].options == options
  }

  /** Another filter is subscribed and listened to as before. */
  ghost predicate SameFor(s: State, s': State, topic: string) {
    && (topic in s'.subscriptions <==> topic in s.subscriptions)
    && (topic in s.subscriptions ==> s'.subscriptions[topic] == s.subscriptions[topic])
    && forall f: nat :: (topic, f) in s'.listeners <==> (topic, f) in s.listeners
  }

  // ---------- One SUBSCRIBE ----------

  /** A filter that passes the validation, on an open client that is not just getting rid of it: it is in the table with
      these options and has exactly one listener, the one it had if the options were equal and a new one otherwise. */
  lemma AddTakesEffect(s: State, topic: string, options: nat, keys: seq<string>)
    requires Agree(s) && !s.closed && Accepts(s.maxTopicLevels, topic) && !Leaving(s, topic)
    ensures
      var s' := Step(s, AddSubs(topic, options), keys);
      && HasOptions(s', topic, options) && OnlyListener(s', topic, s'.subscriptions[topic].func)
      && (HasOptions(s, topic, options) ==> s'.listeners == s.listeners)
      && (!HasOptions(s, topic, options) ==> (topic, s'.subscriptions[topic].func) !in s.listeners)
      && s'.removals == s.removals && forall t | t != topic :: SameFor(s, s', t)
  {
    var s' := Step(s, AddSubs(topic, options), keys);
    if !HasOptions(s, topic, options) {
      forall l | l in s'.listeners && l.0 == topic ensures l.1 == s.next {
        assert l == (l.0, l.1);
        assert (topic, l.1) !in s.listeners || topic in s.subscriptions;
      }
    } else {
      forall l | l in s'.listeners && l.0 == topic ensures l.1 == s.subscriptions[topic].func {
        assert l == (l.0, l.1);
      }
    }
  }

  /** What a closed client asks for, and what fails the validation, changes nothing. */
  lemma AddIsRefused(s: State, topic: string, options: nat, keys: seq<string>)
    requires s.closed || !Accepts(s.maxTopicLevels, topic)
    ensures Step(s, AddSubs(topic, options), keys) == s
  {}

  /** Closing a second time unsubscribes nothing. */
  lemma RepeatedCloseIsIdle(s: State, keys: seq<string>, again: seq<string>)
    requires Agree(s)
    ensures Step(Step(s, Close, keys), Close, again) == Step(s, Close, keys)
  {
    if !s.closed {
      CloseFlags(s, keys);
    }
  }

  /** Subscribing to a new filter and unsubscribing from it again, from any state in which the two agree: once the
      emitter has answered, nothing of it is left. */
  lemma SubscribeRoundTrip(s: State, topic: string, options: nat, keys: seq<string>)
    requires Agree(s) && !s.closed && Accepts(s.maxTopicLevels, topic)
    requires topic !in s.subscriptions && forall r | r in s.removals :: r.number < s.next
    ensures
      var asked := Step(Step(s, AddSubs(topic, options), keys), DoUnsubscribe(topic), keys);
      var r := Removal(topic, s.next, s.next + 1);
      && asked.removals == s.removals + {r} && asked.listeners == s.listeners
      && Step(asked, RemovalAnswers(r), keys) == s.(next := s.next + 2)
  {
    var added := Step(s, AddSubs(topic, options), keys);
    var asked := Step(added, DoUnsubscribe(topic), keys);
    var r := Removal(topic, s.next, s.next + 1);
    assert (topic, s.next) !in s.listeners;
    assert s.listeners + {(topic, s.next)} - {(topic, s.next)} == s.listeners;
    assert r !in s.removals && s.removals + {r} - {r} == s.removals;
    assert s.subscriptions[topic := Subscription(s.next, options)] - {topic} == s.subscriptions;
  }

  // ---------- Runs ----------

  /** The step adds the filter with these options, or with any. */
  predicate Adds(s: State, t: Turn, topic: string) {
    t.event.AddSubs? && t.event.topic == topic && !s.closed && Accepts(s.maxTopicLevels, topic)
  }

  /** The step takes the filter away: UNSUBSCRIBE, or the end of the client. */
  predicate Drops(t: Turn, topic: string) {
    t.event == DoUnsubscribe(topic) || t.event == Close
  }

  /** The steps that the theorems speak of. */
  ghost predicate Fine(s: State, t: Turn) {
    Inv(s) && NotLeaving(s, t.event) && KeysOf(s, t.keys)
  }

  function Next(s: State, t: Turn): (r: State) {
    Step(s, t.event, t.keys)
  }

  lemma LeavingIsSilent(s: State, topic: string)
    requires Agree(s) && (Leaving(s, topic) || topic !in s.subscriptions)
    ensures !Listened(s, topic)
  {
    forall l | l in s.listeners ensures l.0 != topic {
      assert l == (l.0, l.1);
    }
  }

  lemma SubscribedIsListened(s: State, topic: string)
    requires Agree(s) && topic in s.subscriptions && !Leaving(s, topic)
    ensures Listened(s, topic)
  {
    assert (topic, s.subscriptions[topic].func) in s.listeners;
  }

  lemma ListenedIff(s: State, topic: string)
    requires Agree(s)
    ensures Listened(s, topic) <==> topic in s.subscriptions && !Leaving(s, topic)
  {
    if topic in s.subscriptions && !Leaving(s, topic) {
      SubscribedIsListened(s, topic);
    } else {
      LeavingIsSilent(s, topic);
    }
  }

  lemma CloseSilences(s: State, keys: seq<string>, topic: string)
    requires Fine(s, Turn(Close, keys))
    ensures !Listened(Step(s, Close, keys), topic) && Step(s, Close, keys).closed
  {
    var s' := Step(s, Close, keys);
    StepKeepsInv(s, Close, keys);
    CloseFlags(s, keys);
    ListenedIff(s', topic);
  }

  lemma CloseFlags(s: State, keys: seq<string>)
    requires Agree(s)
    ensures Step(s, Close, keys).closed
  {
    var flagged := s.(closed := true);
    assert forall t :: Leaving(flagged, t) <==> Leaving(s, t);
    UnsubscribeAllLeaves(flagged, keys);
  }

  lemma UnsubscribeSilences(s: State, asked: string, topic: string)
    requires Inv(s)
    ensures Listened(Unsubscribe(s, asked), topic) <==> Listened(s, topic) && asked != topic
  {
    var s' := Unsubscribe(s, asked);
    UnsubscribeKeepsAgree(s, asked);
    if asked in s.subscriptions && asked == topic {
      LeavingIsSilent(s', topic);
    } else if asked in s.subscriptions {
      forall l: (string, nat) | l.0 == topic ensures l in s'.listeners <==> l in s.listeners {}
    } else {
      ListenedIff(s, asked);
    }
  }

  lemma AddListens(s: State, asked: string, options: nat, keys: seq<string>, topic: string)
    requires Fine(s, Turn(AddSubs(asked, options), keys))
    ensures
      var t := Turn(AddSubs(asked, options), keys);
      Listened(Next(s, t), topic) <==> Listened(s, topic) || Adds(s, t, topic)
  {
    if s.closed || !Accepts(s.maxTopicLevels, asked) {
      AddIsRefused(s, asked, options, keys);
    } else {
      AddTakesEffect(s, asked, options, keys);
      var s' := Step(s, AddSubs(asked, options), keys);
      if asked == topic {
        assert (topic, s'.subscriptions[topic].func) in s'.listeners;
      } else {
        assert SameFor(s, s', topic);
        assert forall l: (string, nat) | l.0 == topic :: l == (topic, l.1);
      }
    }
  }

  lemma StepListens(s: State, t: Turn, topic: string)
    requires Fine(s, t)
    ensures Listened(Next(s, t), topic) <==> Adds(s, t, topic) || (Listened(s, topic) && !Drops(t, topic))
  {
    match t.event
    case AddSubs(asked, options) => AddListens(s, asked, options, t.keys, topic);
    case DoUnsubscribe(asked) => UnsubscribeSilences(s, asked, topic);
    case RemovalAnswers(r) =>
    case Close => CloseSilences(s, t.keys, topic);
  }

  /** Step k asks for the filter, and nothing after it takes it away. */
  predicate AskedFor(maxTopicLevels: nat, run: seq<Turn>, topic: string, k: nat) {
    && k < |run| && Adds(After(maxTopicLevels, run[..k]), run[k], topic)
    && forall i | k < i < |run| :: !Drops(run[i], topic)
  }

  lemma DisciplinedIsFine(maxTopicLevels: nat, run: seq<Turn>)
    requires Disciplined(maxTopicLevels, run)
    ensures Histories.Throughout(r => After(maxTopicLevels, r), Fine, run)
  {
    forall k | 0 <= k < |run| ensures Fine(After(maxTopicLevels, run[..k]), run[k]) {
      forall i | 0 <= i < k
        ensures
          var s := After(maxTopicLevels, run[..k][..i]);
          NotLeaving(s, run[..k][i].event) && KeysOf(s, run[..k][i].keys)
      {
        assert run[..k][..i] == run[..i];
      }
      RunsKeepInv(maxTopicLevels, run[..k]);
    }
  }

  lemma AskedForIsOn(maxTopicLevels: nat, run: seq<Turn>, topic: string, k: nat)
    ensures
      AskedFor(maxTopicLevels, run, topic, k)
      <==>
        Histories.LastOn(r => After(maxTopicLevels, r), (s, t) => Adds(s, t, topic), (s, t) => Drops(t, topic), run, k)
  {
    var after, drops := (r: seq<Turn>) => After(maxTopicLevels, r), (s: State, t: Turn) => Drops(t, topic);
    forall i | 0 <= i < |run| ensures Histories.At(after, drops, run, i) <==> Drops(run[i], topic) {}
  }

  /** A client listens to a filter at the end of a run if and only if it has asked for it, while open and with a filter
      that passes the validation, and has neither unsubscribed from it nor been closed since. */
  lemma ListensToWhatItAskedFor(maxTopicLevels: nat, run: seq<Turn>, topic: string)
    requires Disciplined(maxTopicLevels, run)
    ensures Listened(After(maxTopicLevels, run), topic) <==> exists k: nat :: AskedFor(maxTopicLevels, run, topic, k)
  {
    var after := (r: seq<Turn>) => After(maxTopicLevels, r);
    var adds, drops := (s: State, t: Turn) => Adds(s, t, topic), (s: State, t: Turn) => Drops(t, topic);
    var listened := (s: State) => Listened(s, topic);
    DisciplinedIsFine(maxTopicLevels, run);
    assert Histories.Follows(after, Next);
    forall s, t | Fine(s, t) ensures listened(Next(s, t)) <==> adds(s, t) || (listened(s) && !drops(s, t)) {
      StepListens(s, t, topic);
    }
    Histories.Switch(after, Next, Fine, listened, adds, drops, run);
    forall k: nat ensures AskedFor(maxTopicLevels, run, topic, k) <==> Histories.LastOn(after, adds, drops, run, k) {
      AskedForIsOn(maxTopicLevels, run, topic, k);
    }
  }

  /** The step neither asks for the filter again nor takes it away. */
  predicate LeavesAlone(s: State, t: Turn, topic: string) {
    !Adds(s, t, topic) && !Drops(t, topic)
  }

  lemma OtherStepKeepsOptions(s: State, t: Turn, topic: string, options: nat)
    requires Fine(s, t) && LeavesAlone(s, t, topic) && Listened(s, topic) && HasOptions(s, topic, options)
    ensures Listened(Next(s, t), topic) && HasOptions(Next(s, t), topic, options)
  {
    StepListens(s, t, topic);
    ListenedIff(s, topic);
    match t.event
    case AddSubs(asked, o) =>
      if s.closed || !Accepts(s.maxTopicLevels, asked) {
        AddIsRefused(s, asked, o, t.keys);
      } else {
        AddTakesEffect(s, asked, o, t.keys);
        assert SameFor(s, Next(s, t), topic);
      }
    case DoUnsubscribe(_) =>
    case RemovalAnswers(r) =>
      assert r in s.removals ==> Leaving(s, r.topic);
    case Close =>
  }

  /** And its options are those of the last time it asked. */
  lemma OptionsAreTheLast(maxTopicLevels: nat, run: seq<Turn>, topic: string, k: nat)
    requires Disciplined(maxTopicLevels, run) && AskedFor(maxTopicLevels, run, topic, k)
    requires forall i | k < i < |run| :: !Adds(After(maxTopicLevels, run[..i]), run[i], topic)
    ensures HasOptions(After(maxTopicLevels, run), topic, run[k].event.options)
  {
    var after, options := (r: seq<Turn>) => After(maxTopicLevels, r), run[k].event.options;
    var p := (s: State) => Listened(s, topic) && HasOptions(s, topic, options);
    var kind := (s: State, t: Turn) => Fine(s, t) && LeavesAlone(s, t, topic);
    DisciplinedIsFine(maxTopicLevels, run);
    assert Histories.Follows(after, Next);
    assert run[..k + 1][..k] == run[..k] && run[..|run|] == run;
    assert Histories.At(after, Fine, run, k);
    AskedTakesEffect(after(run[..k]), run[k], topic);
    forall i | k + 1 <= i < |run| ensures Histories.At(after, kind, run, i) {
      assert Histories.At(after, Fine, run, i);
    }
    forall s, t | p(s) && kind(s, t) ensures p(Next(s, t)) {
      OtherStepKeepsOptions(s, t, topic, options);
    }
    Histories.Keep(after, Next, kind, p, run, k + 1, |run|);
  }

  lemma AskedTakesEffect(s: State, t: Turn, topic: string)
    requires Fine(s, t) && Adds(s, t, topic)
    ensures Listened(Next(s, t), topic) && HasOptions(Next(s, t), topic, t.event.options)
  {
    AddTakesEffect(s, topic, t.event.options, t.keys);
    StepListens(s, t, topic);
  }

  /** A client is closed exactly if close was called. */
  lemma ClosedIff(maxTopicLevels: nat, run: seq<Turn>)
    requires Disciplined(maxTopicLevels, run)
    ensures After(maxTopicLevels, run).closed <==> exists k | 0 <= k < |run| :: run[k].event == Close
  {
    var after, closes := (r: seq<Turn>) => After(maxTopicLevels, r), (s: State, t: Turn) => t.event == Close;
    var closed := (s: State) => s.closed;
    DisciplinedIsFine(maxTopicLevels, run);
    assert Histories.Follows(after, Next);
    forall s, t | Fine(s, t) ensures closed(Next(s, t)) <==> closed(s) || closes(s, t) {
      if t.event == Close {
        CloseFlags(s, t.keys);
      }
    }
    Histories.Latch(after, Next, Fine, closed, closes, run);
    forall k | 0 <= k < |run| ensures Histories.At(after, closes, run, k) <==> run[k].event == Close {}
  }
}
