/**
 SUBSCRIBE from the packet to SUBACK (`_dedupe`, `handleSubscribe`, `doSubscribe`,
 `storeSubscriptions` and `completeSubscribe` in lib/handlers/subscribe.js): the filters of
 one packet are authorised, stored and added concurrently. Section 3.9.3 of MQTT 3.1.1 wants
 one return code per filter of the packet, in its order. The code answers the filters that are
 left after the deduplication, so this holds exactly when no filter is requested twice.
 */
module Subscribe {
  import Combinators
  import Histories

  datatype Request = Request(topic: string, qos: nat)

  // ---------- Deduplication ----------

  /** The topics in the order of their first request. */
  function Topics(subs: seq<Request>): (topics: seq<string>) {
    if subs == [] then []
    else
      var init, topic := Topics(subs[..|subs| - 1]), subs[|subs| - 1].topic;
      if topic in init then init else init + [topic]
  }

  /** The last request for each topic. */
  function LastRequests(subs: seq<Request>): (last: map<string, Request>) {
    if subs == [] then map[]
    else
      var sub := subs[|subs| - 1];
      LastRequests(subs[..|subs| - 1])[sub.topic := sub]
  }

  lemma {:induction false} TopicsKnown(subs: seq<Request>)
    ensures forall t :: t in Topics(subs) <==> t in LastRequests(subs)
    ensures forall i, j | 0 <= i < j < |Topics(subs)| :: Topics(subs)[i] != Topics(subs)[j]
  {
    if subs == [] {
    } else {
      TopicsKnown(subs[..|subs| - 1]);
    }
  }

  function Deduped(subs: seq<Request>): (r: seq<Request>)
    ensures |r| == |Topics(subs)|
  {
    TopicsKnown(subs);
    seq(|Topics(subs)|, i requires 0 <= i < |Topics(subs)| => LastRequests(subs)[Topics(subs)[i]])
  }

  lemma {:induction false} LastRequestIsLast(subs: seq<Request>, topic: string)
    requires topic in LastRequests(subs)
    ensures exists i | 0 <= i < |subs| ::
              && subs[i] == LastRequests(subs)[topic] && subs[i].topic == topic
              && forall j | i < j < |subs| :: subs[j].topic != topic
  {
    var n := |subs| - 1;
    if subs[n].topic != topic {
      LastRequestIsLast(subs[..n], topic);
      var i :| 0 <= i < n && subs[..n][i] == LastRequests(subs[..n])[topic] && subs[..n][i].topic == topic
               && forall j | i < j < n :: subs[..n][j].topic != topic;
      assert subs[i] == LastRequests(subs)[topic];
      assert forall j | i < j < n :: subs[j] == subs[..n][j];
    }
  }

  lemma {:induction false} RequestedTopics(subs: seq<Request>, topic: string)
    ensures topic in LastRequests(subs) <==> exists s | s in subs :: s.topic == topic
  {
    if subs == [] {
    } else {
      var init, last := subs[..|subs| - 1], subs[|subs| - 1];
      RequestedTopics(init, topic);
      assert subs == init + [last];
    }
  }

  /** One entry per requested topic, holding the last request for it. */
  lemma DedupeKeepsLastRequest(subs: seq<Request>)
    ensures forall i, j | 0 <= i < j < |Deduped(subs)| :: Deduped(subs)[i].topic != Deduped(subs)[j].topic
    ensures forall s | s in subs :: exists i | 0 <= i < |Deduped(subs)| :: Deduped(subs)[i].topic == s.topic
    ensures forall i | 0 <= i < |Deduped(subs)| ::
              exists k | 0 <= k < |subs| ::
                subs[k] == Deduped(subs)[i] && forall j | k < j < |subs| :: subs[j].topic != subs[k].topic
  {
    var r, topics := Deduped(subs), Topics(subs);
    TopicsKnown(subs);
    forall i | 0 <= i < |r|
      ensures r[i].topic == topics[i]
      ensures exists k | 0 <= k < |subs| ::
                subs[k] == r[i] && forall j | k < j < |subs| :: subs[j].topic != subs[k].topic
    {
      assert topics[i] in topics;
      LastRequestIsLast(subs, topics[i]);
    }
    forall s | s in subs ensures exists i | 0 <= i < |r| :: r[i].topic == s.topic {
      RequestedTopics(subs, s.topic);
      assert s.topic in topics;
      var i :| 0 <= i < |topics| && topics[i] == s.topic;
      assert r[i].topic == s.topic;
    }
  }

  predicate DistinctTopics(subs: seq<Request>) {
    forall i, j | 0 <= i < j < |subs| :: subs[i].topic != subs[j].topic
  }

  lemma {:induction false} TopicsOfDistinct(subs: seq<Request>)
    requires DistinctTopics(subs)
    ensures |Topics(subs)| == |subs| && forall i | 0 <= i < |subs| :: Topics(subs)[i] == subs[i].topic
  {
    if subs == [] {
    } else {
      var init := subs[..|subs| - 1];
      TopicsOfDistinct(init);
      assert forall i | 0 <= i < |init| :: init[i] == subs[i];
    }
  }

  lemma DistinctSnoc(init: seq<Request>, last: Request)
    requires DistinctTopics(init) && forall s | s in init :: s.topic != last.topic
    ensures DistinctTopics(init + [last])
  {
    assert forall k | 0 <= k < |init| :: init[k] in init;
  }

  lemma {:induction false} RepeatedTopicShortens(subs: seq<Request>)
    ensures |Topics(subs)| <= |subs|
    ensures !DistinctTopics(subs) ==> |Topics(subs)| < |subs|
  {
    if subs == [] {
    } else {
      var init, last := subs[..|subs| - 1], subs[|subs| - 1];
      RepeatedTopicShortens(init);
      TopicsKnown(init);
      RequestedTopics(init, last.topic);
      if DistinctTopics(init) && forall s | s in init :: s.topic != last.topic {
        DistinctSnoc(init, last);
        assert subs == init + [last];
      }
    }
  }

  /** The deduplication leaves the packet as it is if and only if no topic occurs twice in it; otherwise it makes it
      shorter. */
  lemma DedupeKeepsIffDistinct(subs: seq<Request>)
    ensures Deduped(subs) == subs <==> DistinctTopics(subs)
    ensures |Deduped(subs)| == |subs| <==> DistinctTopics(subs)
    ensures |Deduped(subs)| <= |subs|
  {
    RepeatedTopicShortens(subs);
    if DistinctTopics(subs) {
      TopicsOfDistinct(subs);
      TopicsKnown(subs);
      forall i | 0 <= i < |subs| ensures Deduped(subs)[i] == subs[i] {
        assert Topics(subs)[i] in Topics(subs);
        LastRequestIsLast(subs, subs[i].topic);
      }
    }
  }

  /** The object of the program, with its keys in insertion order. */
  method Dedupe(subs: seq<Request>) returns (ret: seq<Request>)
    ensures ret == Deduped(subs)
  {
    var keys: seq<string> := [];
    var dedupeSubs: map<string, Request> := map[];
    var i := 0;
    while i < |subs|
      invariant 0 <= i <= |subs|
      invariant keys == Topics(subs[..i]) && dedupeSubs == LastRequests(subs[..i])
    {
      assert subs[..i + 1][..i] == subs[..i];
      TopicsKnown(subs[..i]);
      if subs[i].topic !in dedupeSubs {
        keys := keys + [subs[i].topic];
      }
      dedupeSubs := dedupeSubs[subs[i].topic := subs[i]];
      i := i + 1;
    }
    assert subs[..i] == subs;
    TopicsKnown(subs);
    ret := [];
    var k := 0;
    while k < |keys|
      invariant 0 <= k <= |keys|
      invariant ret == Deduped(subs)[..k]
    {
      ret := ret + [dedupeSubs[keys[k]]];
      k := k + 1;
    }
  }

  // ---------- From the filters to SUBACK ----------

  const FAILURE: nat := 128

  datatype Stage = Authorizing | Storing | Adding | Finished | Failed

  datatype Filter = Filter(request: Request, granted: nat, denied: bool, stage: Stage)

  /** subacks holds the return codes of every SUBACK written. */
  datatype State = State(clean: bool, filters: seq<Filter>, all: Combinators.Parallel, subacks: seq<seq<nat>>)

  datatype Verdict = Granted | Denied | Rejected

  datatype Event =
    | Authorised(i: nat, verdict: Verdict)
    | StoreAnswers(i: nat, ok: bool)
    | EmitterAnswers(i: nat, ok: bool)

  function Granted(filters: seq<Filter>): (codes: seq<nat>)
    ensures |codes| == |filters|
  {
    seq(|filters|, i requires 0 <= i < |filters| => filters[i].granted)
  }

  function Start(clean: bool, subs: seq<Request>): (s: State) {
    var filters := seq(|subs|, i requires 0 <= i < |subs| => Filter(subs[i], subs[i].qos, false, Authorizing));
    State(clean, filters, Combinators.Launch(|subs|), if subs == [] then [[]] else [])
  }

  predicate At(s: State, i: nat, stage: Stage) {
    i < |s.filters| && s.filters[i].stage == stage
  }

  /** Filter i is done; when the last one is, SUBACK goes out. */
  function Answer(s: State, i: nat, f: Filter, answer: Combinators.Answer): (r: State)
    requires i < |s.filters|
  {
    var all := Combinators.Callback(s.all, answer);
    var filters := s.filters[i := f.(stage := if answer.Ok? then Finished else Failed)];
    var complete := all.done != s.all.done && answer.Ok?;
    State(s.clean, filters, all, if complete then s.subacks + [Granted(filters)] else s.subacks)
  }

  /** One callback of one filter. A filter whose subscription is dropped because the client closed gets no further
      event. */
  function Step(s: State, e: Event): (r: State) {
    match e
    case Authorised(i, verdict) =>
      if !At(s, i, Authorizing) then s
      else
        var f := s.filters[i];
        (match verdict
         case Granted => s.(filters := s.filters[i := f.(stage := if s.clean then Adding else Storing)])
         case Denied => Answer(s, i, f.(granted := FAILURE, denied := true), Combinators.Ok)
         case Rejected => Answer(s, i, f, Combinators.Err(0)))
    case StoreAnswers(i, ok) =>
      if !At(s, i, Storing) then s
      else if ok then s.(filters := s.filters[i := s.filters[i].(stage := Adding)])
      else Answer(s, i, s.filters[i], Combinators.Err(1))
    case EmitterAnswers(i, ok) =>
      if !At(s, i, Adding) then s
      else Answer(s, i, s.filters[i], if ok then Combinators.Ok else Combinators.Err(2))
  }

  function After(clean: bool, subs: seq<Request>, run: seq<Event>): (s: State) {
    if run == [] then Start(clean, subs) else Step(After(clean, subs, run[..|run| - 1]), run[|run| - 1])
  }

  // ---------- What every order of answers gives ----------

  function CountAt(filters: seq<Filter>, stage: Stage): (n: nat)
    ensures n <= |filters|
    ensures n == |filters| <==> forall i | 0 <= i < |filters| :: filters[i].stage == stage
    ensures n == 0 <==> forall i | 0 <= i < |filters| :: filters[i].stage != stage
  {
    if filters == [] then 0
    else
      assert forall i | 0 <= i < |filters[1..]| :: filters[1..][i] == filters[i + 1];
      assert forall i | 1 <= i < |filters| :: filters[i] == filters[1..][i - 1];
      (if filters[0].stage == stage then 1 else 0) + CountAt(filters[1..], stage)
  }

  lemma {:induction false} CountAfterUpdate(filters: seq<Filter>, i: nat, f: Filter, stage: Stage)
    requires i < |filters| && filters[i].stage != stage
    ensures CountAt(filters[i := f], stage) == CountAt(filters, stage) + if f.stage == stage then 1 else 0
    decreases filters
  {
    if i == 0 {
      assert filters[i := f][1..] == filters[1..];
    } else {
      assert filters[i := f][1..] == filters[1..][i - 1 := f];
      CountAfterUpdate(filters[1..], i - 1, f, stage);
    }
  }

  predicate CodeRight(f: Filter) {
    f.granted == if f.denied then FAILURE else f.request.qos
  }

  predicate Requests(filters: seq<Filter>, subs: seq<Request>) {
    |filters| == |subs| && forall i | 0 <= i < |subs| :: filters[i].request == subs[i]
  }

  ghost predicate Inv(s: State, subs: seq<Request>) {
    && Requests(s.filters, subs)
    && (forall i | 0 <= i < |s.filters| :: CodeRight(s.filters[i]))
    && (s.all.finished <==> CountAt(s.filters, Failed) > 0 || CountAt(s.filters, Finished) == |subs|)
    && (!s.all.finished ==> s.all.remaining == |subs| - CountAt(s.filters, Finished) && s.all.done == [])
    && s.subacks == (if CountAt(s.filters, Finished) == |subs| then [Granted(s.filters)] else [])
  }

  lemma UpdateKeepsRight(filters: seq<Filter>, subs: seq<Request>, i: nat, f: Filter)
    requires i < |filters| && Requests(filters, subs) && f.request == filters[i].request && CodeRight(f)
    requires forall j | 0 <= j < |filters| :: CodeRight(filters[j])
    ensures Requests(filters[i := f], subs)
    ensures var r := filters[i := f]; forall j | 0 <= j < |r| :: CodeRight(r[j])
  {}

  lemma AnswerKeepsInv(s: State, subs: seq<Request>, i: nat, f: Filter, answer: Combinators.Answer)
    requires Inv(s, subs) && i < |s.filters|
    requires s.filters[i].stage != Finished && s.filters[i].stage != Failed
    requires f.request == s.filters[i].request && CodeRight(f)
    ensures Inv(Answer(s, i, f, answer), subs)
  {
    var g := f.(stage := if answer.Ok? then Finished else Failed);
    UpdateKeepsRight(s.filters, subs, i, g);
    CountAfterUpdate(s.filters, i, g, Finished);
    CountAfterUpdate(s.filters, i, g, Failed);
    assert CountAt(s.filters, Finished) < |subs|;
    if answer.Ok? && CountAt(s.filters[i := g], Finished) == |subs| {
      assert CountAt(s.filters, Failed) == 0 by {
        assert forall j | 0 <= j < |s.filters| && j != i :: s.filters[i := g][j] == s.filters[j];
      }
    }
  }

  lemma MoveKeepsInv(s: State, subs: seq<Request>, i: nat, stage: Stage)
    requires Inv(s, subs) && i < |s.filters|
    requires s.filters[i].stage != Finished && s.filters[i].stage != Failed && stage != Finished && stage != Failed
    ensures Inv(s.(filters := s.filters[i := s.filters[i].(stage := stage)]), subs)
  {
    var g := s.filters[i].(stage := stage);
    UpdateKeepsRight(s.filters, subs, i, g);
    CountAfterUpdate(s.filters, i, g, Finished);
    CountAfterUpdate(s.filters, i, g, Failed);
    assert CountAt(s.filters, Finished) < |subs|;
  }

  lemma StepKeepsInv(s: State, subs: seq<Request>, e: Event)
    requires Inv(s, subs)
    ensures Inv(Step(s, e), subs)
  {
    match e
    case Authorised(i, verdict) =>
      if At(s, i, Authorizing) {
        match verdict
        case Granted => MoveKeepsInv(s, subs, i, if s.clean then Adding else Storing);
        case Denied => AnswerKeepsInv(s, subs, i, s.filters[i].(granted := FAILURE, denied := true), Combinators.Ok);
        case Rejected => AnswerKeepsInv(s, subs, i, s.filters[i], Combinators.Err(0));
      }
    case StoreAnswers(i, ok) =>
      if At(s, i, Storing) {
        if ok {
          MoveKeepsInv(s, subs, i, Adding);
        } else {
          AnswerKeepsInv(s, subs, i, s.filters[i], Combinators.Err(1));
        }
      }
    case EmitterAnswers(i, ok) =>
      if At(s, i, Adding) {
        AnswerKeepsInv(s, subs, i, s.filters[i], if ok then Combinators.Ok else Combinators.Err(2));
      }
  }

  lemma {:induction false} RunsKeepInv(clean: bool, subs: seq<Request>, run: seq<Event>)
    ensures Inv(After(clean, subs, run), subs)
  {
    if run != [] {
      RunsKeepInv(clean, subs, run[..|run| - 1]);
      StepKeepsInv(After(clean, subs, run[..|run| - 1]), subs, run[|run| - 1]);
    } else {
      var s := Start(clean, subs);
      assert CountAt(s.filters, Finished) == 0 && CountAt(s.filters, Failed) == 0;
      assert subs == [] ==> Granted(s.filters) == [];
    }
  }

  predicate AllFinished(s: State) {
    forall i | 0 <= i < |s.filters| :: s.filters[i].stage == Finished
  }

  /** Whatever the order of the answers: SUBACK is written once, and exactly when every filter has finished without an
      error; its i-th code is 128 for a denied filter and the requested QoS of the i-th filter otherwise. */
  lemma SubackAligned(clean: bool, subs: seq<Request>, run: seq<Event>)
    ensures
      var s := After(clean, subs, run);
      && |s.subacks| == (if AllFinished(s) then 1 else 0)
      && |s.filters| == |subs|
      && (AllFinished(s) ==>
            && |s.subacks[0]| == |subs|
            && forall i | 0 <= i < |subs| :: s.subacks[0][i] == if s.filters[i].denied then FAILURE else subs[i].qos)
  {
    RunsKeepInv(clean, subs, run);
    var s := After(clean, subs, run);
    assert AllFinished(s) <==> CountAt(s.filters, Finished) == |subs|;
    if AllFinished(s) {
      forall i | 0 <= i < |subs| ensures s.subacks[0][i] == if s.filters[i].denied then FAILURE else subs[i].qos {
        assert CodeRight(s.filters[i]);
      }
    }
  }

  /** So SUBACK has one code per filter of the packet, as section 3.9.3 wants, if and only if no filter is requested
      twice; then the codes are in the order of the packet. */
  lemma SubackFitsPacketIff(clean: bool, packet: seq<Request>, run: seq<Event>)
    requires AllFinished(After(clean, Deduped(packet), run))
    ensures
      var s := After(clean, Deduped(packet), run);
      && |s.subacks| == 1 && |s.filters| == |s.subacks[0]| <= |packet|
      && (|s.subacks[0]| == |packet| <==> DistinctTopics(packet))
      && (DistinctTopics(packet) ==>
            forall i | 0 <= i < |packet| ::
              s.subacks[0][i] == if s.filters[i].denied then FAILURE else packet[i].qos)
  {
    SubackAligned(clean, Deduped(packet), run);
    DedupeKeepsIffDistinct(packet);
  }

  lemma DeniedStep(s: State, e: Event, i: nat)
    requires i < |s.filters|
    ensures |Step(s, e).filters| == |s.filters|
    ensures Step(s, e).filters[i].denied
        <==> s.filters[i].denied || (e == Authorised(i, Denied) && At(s, i, Authorizing))
  {}

  predicate DeniedAt(clean: bool, subs: seq<Request>, run: seq<Event>, i: nat, k: nat)
    requires k < |run|
  {
    run[k] == Authorised(i, Denied) && At(After(clean, subs, run[..k]), i, Authorizing)
  }

  /** A filter counts as denied exactly when its authorisation said so. */
  lemma {:induction false} DeniedByVerdict(clean: bool, subs: seq<Request>, run: seq<Event>, i: nat)
    requires i < |subs|
    ensures |After(clean, subs, run).filters| == |subs|
    ensures After(clean, subs, run).filters[i].denied <==> exists k | 0 <= k < |run| :: DeniedAt(clean, subs, run, i, k)
  {
    if run == [] {
    } else {
      var prefix := run[..|run| - 1];
      DeniedByVerdict(clean, subs, prefix, i);
      DeniedStep(After(clean, subs, prefix), run[|run| - 1], i);
      assert DeniedAt(clean, subs, run, i, |run| - 1)
        <==> run[|run| - 1] == Authorised(i, Denied) && At(After(clean, subs, prefix), i, Authorizing);
      forall k | 0 <= k < |prefix| ensures DeniedAt(clean, subs, prefix, i, k) == DeniedAt(clean, subs, run, i, k) {
        assert run[..k] == prefix[..k];
      }
    }
  }

  // ---------- What a filter has behind it ----------

  predicate Grants(s: State, e: Event, i: nat) {
    e == Authorised(i, Verdict.Granted) && At(s, i, Authorizing)
  }

  predicate Denies(s: State, e: Event, i: nat) {
    e == Authorised(i, Denied) && At(s, i, Authorizing)
  }

  predicate Stores(s: State, e: Event, i: nat) {
    e == StoreAnswers(i, true) && At(s, i, Storing)
  }

  predicate Adds(s: State, e: Event, i: nat) {
    e == EmitterAnswers(i, true) && At(s, i, Adding)
  }

  /** What puts a granted filter before the emitter: its storage, or nothing more on a clean session. */
  predicate Readies(s: State, e: Event, i: nat) {
    if s.clean then Grants(s, e, i) else Stores(s, e, i)
  }

  predicate Happens(kind: (State, Event, nat) -> bool, clean: bool, subs: seq<Request>, run: seq<Event>, i: nat, k: nat)
    requires k < |run|
  {
    kind(After(clean, subs, run[..k]), run[k], i)
  }

  lemma FinishedStep(s: State, e: Event, i: nat)
    ensures At(Step(s, e), i, Finished) <==> At(s, i, Finished) || Denies(s, e, i) || Adds(s, e, i)
  {}

  /** On a clean session nothing is ever being stored. */
  predicate CleanStoresNothing(s: State) {
    s.clean ==> forall i | 0 <= i < |s.filters| :: s.filters[i].stage != Storing
  }

  lemma StageStep(s: State, e: Event, i: nat)
    requires CleanStoresNothing(s)
    ensures Step(s, e).clean == s.clean && CleanStoresNothing(Step(s, e))
    ensures At(Step(s, e), i, Adding) ==> At(s, i, Adding) || Readies(s, e, i)
    ensures At(Step(s, e), i, Storing) ==> At(s, i, Storing) || (!s.clean && Grants(s, e, i))
  {}

  lemma {:induction false} RunsKeepClean(clean: bool, subs: seq<Request>, run: seq<Event>)
    ensures After(clean, subs, run).clean == clean && CleanStoresNothing(After(clean, subs, run))
  {
    if run != [] {
      RunsKeepClean(clean, subs, run[..|run| - 1]);
      StageStep(After(clean, subs, run[..|run| - 1]), run[|run| - 1], 0);
    } else {
    }
  }

  ghost predicate Tidy(s: State, e: Event) {
    CleanStoresNothing(s)
  }

  lemma RunsFollow(clean: bool, subs: seq<Request>, run: seq<Event>)
    ensures Histories.Follows(r => After(clean, subs, r), Step)
    ensures Histories.Throughout(r => After(clean, subs, r), Tidy, run)
  {
    forall k | 0 <= k < |run| ensures Tidy(After(clean, subs, run[..k]), run[k]) {
      RunsKeepClean(clean, subs, run[..k]);
    }
  }

  /** The filter was denied, or the emitter has taken it. */
  predicate DoneWith(clean: bool, subs: seq<Request>, run: seq<Event>, i: nat) {
    || (exists k | 0 <= k < |run| :: Happens(Denies, clean, subs, run, i, k))
    || (exists k | 0 <= k < |run| :: Happens(Adds, clean, subs, run, i, k))
  }

  lemma FinishedIff(clean: bool, subs: seq<Request>, run: seq<Event>, i: nat)
    ensures At(After(clean, subs, run), i, Finished) <==> DoneWith(clean, subs, run, i)
  {
    var after := (r: seq<Event>) => After(clean, subs, r);
    var sets := (s: State, e: Event) => Denies(s, e, i) || Adds(s, e, i);
    var finished := (s: State) => At(s, i, Finished);
    RunsFollow(clean, subs, run);
    forall s, e ensures finished(Step(s, e)) <==> finished(s) || sets(s, e) {
      FinishedStep(s, e, i);
    }
    Histories.Latch(after, Step, Tidy, finished, sets, run);
    forall k | 0 <= k < |run|
      ensures Histories.At(after, sets, run, k)
        <==> Happens(Denies, clean, subs, run, i, k) || Happens(Adds, clean, subs, run, i, k)
    {}
  }

  lemma ReadiedBefore(clean: bool, subs: seq<Request>, run: seq<Event>, i: nat) returns (ready: nat)
    requires At(After(clean, subs, run), i, Adding)
    ensures ready < |run| && Happens(Readies, clean, subs, run, i, ready)
  {
    var adding := (s: State) => At(s, i, Adding);
    RunsFollow(clean, subs, run);
    forall s, e | Tidy(s, e) && adding(Step(s, e)) ensures adding(s) || Readies(s, e, i) {
      StageStep(s, e, i);
    }
    ready := Histories.Cause(r => After(clean, subs, r), Step, Tidy, adding, (s, e) => Readies(s, e, i), run);
  }

  lemma GrantedBefore(clean: bool, subs: seq<Request>, run: seq<Event>, i: nat) returns (granted: nat)
    requires At(After(clean, subs, run), i, Storing)
    ensures granted < |run| && Happens(Grants, clean, subs, run, i, granted)
  {
    var storing := (s: State) => At(s, i, Storing);
    RunsFollow(clean, subs, run);
    forall s, e | Tidy(s, e) && storing(Step(s, e)) ensures storing(s) || Grants(s, e, i) {
      StageStep(s, e, i);
    }
    granted := Histories.Cause(r => After(clean, subs, r), Step, Tidy, storing, (s, e) => Grants(s, e, i), run);
  }

  /** The emitter takes a filter only after it was granted and, on a persistent session, stored since. */
  lemma AddedAfterStored(clean: bool, subs: seq<Request>, run: seq<Event>, i: nat, k: nat)
    returns (granted: nat, ready: nat)
    requires k < |run| && Happens(Adds, clean, subs, run, i, k)
    ensures granted <= ready < k && Happens(Grants, clean, subs, run, i, granted)
    ensures if clean then ready == granted else granted < ready && Happens(Stores, clean, subs, run, i, ready)
  {
    ready := ReadiedBefore(clean, subs, run[..k], i);
    assert run[..k][..ready] == run[..ready];
    RunsKeepClean(clean, subs, run[..ready]);
    if clean {
      granted := ready;
    } else {
      granted := GrantedBefore(clean, subs, run[..ready], i);
      assert run[..ready][..granted] == run[..granted];
    }
  }

  /** SUBACK goes out exactly when every filter has been denied or taken by the emitter. */
  lemma SubackIff(clean: bool, subs: seq<Request>, run: seq<Event>)
    ensures After(clean, subs, run).subacks != [] <==> forall i | 0 <= i < |subs| :: DoneWith(clean, subs, run, i)
  {
    SubackAligned(clean, subs, run);
    var s := After(clean, subs, run);
    forall i | 0 <= i < |subs| ensures s.filters[i].stage == Finished <==> DoneWith(clean, subs, run, i) {
      FinishedIff(clean, subs, run, i);
      assert At(s, i, Finished) <==> s.filters[i].stage == Finished;
    }
  }

  /** And a filter that is granted gets there when storage and the emitter answer well, whatever the others do. */
  lemma GrantedFilterFinishes(s: State, i: nat)
    requires At(s, i, Authorizing) && CleanStoresNothing(s)
    ensures
      var granted := Step(s, Authorised(i, Verdict.Granted));
      var ready := if s.clean then granted else Step(granted, StoreAnswers(i, true));
      At(ready, i, Adding) && At(Step(ready, EmitterAnswers(i, true)), i, Finished)
  {}

  /** One that is rejected fails. */
  lemma RejectedFilterFails(s: State, i: nat)
    ensures At(s, i, Storing) ==> At(Step(s, StoreAnswers(i, false)), i, Failed)
    ensures At(s, i, Adding) ==> At(Step(s, EmitterAnswers(i, false)), i, Failed)
    ensures At(s, i, Authorizing) ==> At(Step(s, Authorised(i, Rejected)), i, Failed)
  {}
}
