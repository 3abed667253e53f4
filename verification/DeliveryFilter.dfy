/**
 The filter in front of every delivery to a subscriber: no-local, duplicate
 suppression by a per-broker counter watermark, forwarding authorisation
 (`getToForwardPacket` and `dedupe` in lib/client.js, `brokerBorn` in aedes.js).

 The reference is a filter that remembers every message it has seen. The watermark
 remembers one number per broker; the theorems say when the two agree.
 */
module DeliveryFilter {

  /** brokerId "" stands for a missing one, as retained messages have; sender is the publishing client, if any. */
  datatype Packet = Packet(brokerId: string, counter: nat, sender: Sender, noLocal: bool)

  datatype Sender = NoSender | SentBy(clientId: string)

  datatype Decision =
    | Blocked    // by no-local; the watermark is not consulted
    | Duplicate  // by the watermark
    | Refused    // by authorizeForward, after the watermark moved
    | Forwarded

  type Watermarks = map<string, nat>

  function Mark(marks: Watermarks, brokerId: string): nat {
    if brokerId in marks then marks[brokerId] else 0
  }

  predicate IsOwn(me: string, p: Packet) {
    p.sender == SentBy(me) && p.noLocal
  }

  function Decide(marks: Watermarks, me: string, p: Packet, authorised: bool): (r: (Decision, Watermarks)) {
    if IsOwn(me, p) then (Blocked, marks)
    else if p.brokerId != "" && p.counter <= Mark(marks, p.brokerId) then (Duplicate, marks)
    else
      (if authorised then Forwarded else Refused,
       if p.brokerId == "" then marks else marks[p.brokerId := p.counter])
  }

  // ---------- Runs ----------

  datatype Event =
    | Deliver(packet: Packet, authorised: bool)
    | Birth(brokerId: string)  // another broker announces that it started

  function Step(marks: Watermarks, me: string, e: Event): (r: Watermarks) {
    match e
    case Deliver(p, authorised) => Decide(marks, me, p, authorised).1
    case Birth(b) => marks - {b}
  }

  function Marks(me: string, run: seq<Event>): (marks: Watermarks) {
    if run == [] then map[] else Step(Marks(me, run[..|run| - 1]), me, run[|run| - 1])
  }

  /** What the filter decides about the packet delivered at step i. */
  function DecisionAt(me: string, run: seq<Event>, i: nat): (d: Decision)
    requires i < |run| && run[i].Deliver?
  {
    Decide(Marks(me, run[..i]), me, run[i].packet, run[i].authorised).0
  }

  predicate Passed(d: Decision) { d == Refused || d == Forwarded }

  predicate NoBirthBetween(run: seq<Event>, brokerId: string, i: int, j: int)
    requires 0 <= i <= j <= |run|
  {
    forall k | i <= k < j :: run[k] != Birth(brokerId)
  }

  lemma {:induction false} MarkNeverDrops(me: string, run: seq<Event>, i: nat, brokerId: string)
    requires i <= |run| && NoBirthBetween(run, brokerId, i, |run|)
    ensures Mark(Marks(me, run[..i]), brokerId) <= Mark(Marks(me, run), brokerId)
    decreases |run|
  {
    if i < |run| {
      var prefix := run[..|run| - 1];
      assert prefix[..i] == run[..i];
      MarkNeverDrops(me, prefix, i, brokerId);
    } else {
      assert run[..i] == run;
    }
  }

  /** Between two births of a broker the counters that pass the watermark strictly increase,
      so no message of that broker passes twice, however many filters of the client match it. */
  lemma PassedCountersIncrease(me: string, run: seq<Event>, i: nat, j: nat)
    requires i < j < |run| && run[i].Deliver? && run[j].Deliver?
    requires run[i].packet.brokerId == run[j].packet.brokerId != ""
    requires NoBirthBetween(run, run[i].packet.brokerId, i, j)
    requires Passed(DecisionAt(me, run, i)) && Passed(DecisionAt(me, run, j))
    ensures run[i].packet.counter < run[j].packet.counter
  {
    var brokerId := run[i].packet.brokerId;
    var upToI := run[..i + 1];
    assert upToI[..i] == run[..i];
    assert Mark(Marks(me, upToI), brokerId) == run[i].packet.counter;
    assert run[..j][..i + 1] == upToI;
    assert NoBirthBetween(run[..j], brokerId, i + 1, j);
    MarkNeverDrops(me, run[..j], i + 1, brokerId);
  }

  // ---------- The reference: remember every message ----------

  type Seen = set<(string, nat)>

  function DecideSeen(seen: Seen, me: string, p: Packet, authorised: bool): (r: (Decision, Seen)) {
    if IsOwn(me, p) then (Blocked, seen)
    else if p.brokerId != "" && (p.brokerId, p.counter) in seen then (Duplicate, seen)
    else
      (if authorised then Forwarded else Refused,
       if p.brokerId == "" then seen else seen + {(p.brokerId, p.counter)})
  }

  function StepSeen(seen: Seen, me: string, e: Event): (r: Seen) {
    match e
    case Deliver(p, authorised) => DecideSeen(seen, me, p, authorised).1
    case Birth(b) => set m | m in seen && m.0 != b
  }

  function SeenIn(me: string, run: seq<Event>): (seen: Seen) {
    if run == [] then {} else StepSeen(SeenIn(me, run[..|run| - 1]), me, run[|run| - 1])
  }

  function SeenDecisionAt(me: string, run: seq<Event>, i: nat): (d: Decision)
    requires i < |run| && run[i].Deliver?
  {
    DecideSeen(SeenIn(me, run[..i]), me, run[i].packet, run[i].authorised).0
  }

  /** An unseen message that a higher counter of the same broker has overtaken (a counter of 0 is always late). */
  predicate Late(seen: Seen, me: string, p: Packet) {
    && !IsOwn(me, p)
    && p.brokerId != ""
    && (p.brokerId, p.counter) !in seen
    && (p.counter == 0 || exists m | m in seen :: m.0 == p.brokerId && p.counter < m.1)
  }

  predicate LateAt(me: string, run: seq<Event>, i: nat)
    requires i < |run|
  {
    run[i].Deliver? && Late(SeenIn(me, run[..i]), me, run[i].packet)
  }

  /** The watermark is the largest counter seen, as long as nothing came late. */
  ghost predicate Agree(marks: Watermarks, seen: Seen) {
    && (forall m | m in seen :: m.1 <= Mark(marks, m.0))
    && (forall b: string :: Mark(marks, b) == 0 || (b, Mark(marks, b)) in seen)
  }

  /** The watermark is an upper bound of what was seen in every run; it is itself a seen counter. */
  lemma {:induction false} WatermarkIsMaximum(me: string, run: seq<Event>)
    ensures Agree(Marks(me, run), SeenIn(me, run))
  {
    if run == [] {
    } else {
      var prefix, e := run[..|run| - 1], run[|run| - 1];
      WatermarkIsMaximum(me, prefix);
      AgreeStep(Marks(me, prefix), SeenIn(me, prefix), me, e);
    }
  }

  lemma AgreeStep(marks: Watermarks, seen: Seen, me: string, e: Event)
    requires Agree(marks, seen)
    ensures Agree(Step(marks, me, e), StepSeen(seen, me, e))
  {
    var marks', seen' := Step(marks, me, e), StepSeen(seen, me, e);
    forall b: string ensures Mark(marks', b) == 0 || (b, Mark(marks', b)) in seen' {
      assert Mark(marks, b) == 0 || (b, Mark(marks, b)) in seen;
    }
    forall m | m in seen' ensures m.1 <= Mark(marks', m.0) {
      assert m in seen ==> m.1 <= Mark(marks, m.0);
    }
  }

  /** At every step of every run the two filters decide alike exactly when the packet is not late;
      a late packet is the one thing the watermark drops and the reference lets pass. */
  lemma WatermarkRefinesSeen(me: string, run: seq<Event>, i: nat)
    requires i < |run| && run[i].Deliver?
    ensures DecisionAt(me, run, i) == SeenDecisionAt(me, run, i) <==> !LateAt(me, run, i)
    ensures LateAt(me, run, i) ==> DecisionAt(me, run, i) == Duplicate
    ensures DecisionAt(me, run, i) == Forwarded ==> SeenDecisionAt(me, run, i) == Forwarded
  {
    var marks, seen, p := Marks(me, run[..i]), SeenIn(me, run[..i]), run[i].packet;
    WatermarkIsMaximum(me, run[..i]);
    if p.counter <= Mark(marks, p.brokerId) && (p.brokerId, p.counter) !in seen && p.counter != 0 {
      assert (p.brokerId, Mark(marks, p.brokerId)) in seen;
    }
  }

  predicate NothingLate(me: string, run: seq<Event>) {
    forall i | 0 <= i < |run| :: !LateAt(me, run, i)
  }

  predicate SameDecisions(me: string, run: seq<Event>) {
    forall i | 0 <= i < |run| && run[i].Deliver? :: DecisionAt(me, run, i) == SeenDecisionAt(me, run, i)
  }

  /** The watermark is a faithful seen-set over a whole run exactly when no message in it is overtaken. */
  lemma AgreeIffNothingLate(me: string, run: seq<Event>)
    ensures SameDecisions(me, run) <==> NothingLate(me, run)
  {
    forall i | 0 <= i < |run| && run[i].Deliver?
      ensures DecisionAt(me, run, i) == SeenDecisionAt(me, run, i) <==> !LateAt(me, run, i)
    {
      WatermarkRefinesSeen(me, run, i);
    }
  }

  /** Arrival order: from one birth to the next, the counters of a broker do not decrease and are positive. */
  predicate InOrder(run: seq<Event>) {
    && (forall i | 0 <= i < |run| && run[i].Deliver? :: run[i].packet.counter > 0)
    && (forall i, j | 0 <= i < j < |run| && run[i].Deliver? && run[j].Deliver?
                      && run[i].packet.brokerId == run[j].packet.brokerId
                      && NoBirthBetween(run, run[i].packet.brokerId, i, j) ::
          run[i].packet.counter <= run[j].packet.counter)
  }

  /** The step that put m into the seen set. */
  lemma {:induction false} SeenHasSource(me: string, run: seq<Event>, m: (string, nat)) returns (i: nat)
    requires m in SeenIn(me, run)
    ensures i < |run| && run[i].Deliver? && run[i].packet.brokerId == m.0 && run[i].packet.counter == m.1
    ensures NoBirthBetween(run, m.0, i, |run|)
  {
    var prefix := run[..|run| - 1];
    if m in SeenIn(me, prefix) {
      i := SeenHasSource(me, prefix, m);
      forall k | i <= k < |run| ensures run[k] != Birth(m.0) {
        assert k < |prefix| ==> prefix[k] == run[k];
      }
    } else {
      i := |run| - 1;
    }
  }

  lemma InOrderNeverLate(me: string, run: seq<Event>, j: nat)
    requires InOrder(run) && j < |run|
    ensures !LateAt(me, run, j)
  {
    if LateAt(me, run, j) {
      var p, past := run[j].packet, run[..j];
      var m :| m in SeenIn(me, past) && m.0 == p.brokerId && p.counter < m.1;
      var i := SeenHasSource(me, past, m);
      forall k | i <= k < j ensures run[k] != Birth(p.brokerId) {
        assert past[k] == run[k];
      }
    }
  }

  lemma InOrderAgrees(me: string, run: seq<Event>)
    requires InOrder(run)
    ensures SameDecisions(me, run)
  {
    forall j | 0 <= j < |run| ensures !LateAt(me, run, j) {
      InOrderNeverLate(me, run, j);
    }
    AgreeIffNothingLate(me, run);
  }

  /** A QoS 0 message stamped after a QoS 1 one can overtake it; the late one is lost. */
  lemma OvertakenMessageIsDropped()
    ensures
      var first, second := Packet("b", 1, NoSender, false), Packet("b", 2, NoSender, false);
      var run := [Deliver(second, true), Deliver(first, true)];
      DecisionAt("me", run, 1) == Duplicate && SeenDecisionAt("me", run, 1) == Forwarded
  {
    var first, second := Packet("b", 1, NoSender, false), Packet("b", 2, NoSender, false);
    var run := [Deliver(second, true), Deliver(first, true)];
    assert run[..1] == [Deliver(second, true)];
    assert run[..1][..0] == [];
    assert Marks("me", run[..1]) == Step(map[], "me", run[0]);
    assert SeenIn("me", run[..1]) == StepSeen({}, "me", run[0]);
  }

  // ---------- Told by the deliveries alone ----------

  /** The packet comes back to the client that sent it, through a subscription with no-local. */
  predicate ComesBack(me: string, p: Packet) {
    p.noLocal && match p.sender case NoSender => false case SentBy(clientId) => clientId == me
  }

  /** Step j of the run brings a message of this broker, which counts, and the broker has not been born anew since. */
  predicate Counts(me: string, run: seq<Event>, brokerId: string, j: nat) {
    && j < |run| && run[j].Deliver? && run[j].packet.brokerId == brokerId && !ComesBack(me, run[j].packet)
    && NoBirthBetween(run, brokerId, j, |run|)
  }

  lemma CountsBefore(me: string, run: seq<Event>, brokerId: string, j: nat)
    requires run != [] && j < |run| - 1
    ensures
      Counts(me, run, brokerId, j)
      <==> Counts(me, run[..|run| - 1], brokerId, j) && run[|run| - 1] != Birth(brokerId)
  {
    var prefix := run[..|run| - 1];
    assert forall k | 0 <= k < |prefix| :: prefix[k] == run[k];
    if Counts(me, run, brokerId, j) {
      assert NoBirthBetween(prefix, brokerId, j, |prefix|);
    }
  }

  /** The watermark of a broker is the largest counter of its messages that count. */
  lemma {:induction false} MarkIsLargest(me: string, run: seq<Event>, brokerId: string)
    requires brokerId != ""
    ensures forall j | 0 <= j < |run| && Counts(me, run, brokerId, j) ::
              run[j].packet.counter <= Mark(Marks(me, run), brokerId)
    ensures Mark(Marks(me, run), brokerId) == 0
         || exists j | 0 <= j < |run| && Counts(me, run, brokerId, j) ::
              run[j].packet.counter == Mark(Marks(me, run), brokerId)
  {
    if run == [] {
    } else {
      var n, prefix, e := |run| - 1, run[..|run| - 1], run[|run| - 1];
      MarkIsLargest(me, prefix, brokerId);
      var was, mark := Mark(Marks(me, prefix), brokerId), Mark(Marks(me, run), brokerId);
      forall j | 0 <= j < |run| && Counts(me, run, brokerId, j) ensures run[j].packet.counter <= mark {
        if j < n {
          CountsBefore(me, run, brokerId, j);
          assert prefix[j] == run[j];
        }
      }
      if mark == was && mark != 0 {
        var j :| 0 <= j < |prefix| && Counts(me, prefix, brokerId, j) && prefix[j].packet.counter == mark;
        CountsBefore(me, run, brokerId, j);
        assert run[j].packet.counter == mark;
      } else if mark != 0 {
        assert Counts(me, run, brokerId, n) && run[n].packet.counter == mark;
      }
    }
  }

  /** A packet is forwarded if and only if it does not come back to its sender through no-local, authorizeForward
      agrees, and it either has no broker or a counter above 0 and above that of every message of its broker which came
      before it, did not come back, and came after the last birth of that broker. */
  lemma ForwardedIff(me: string, run: seq<Event>, i: nat)
    requires i < |run| && run[i].Deliver?
    ensures
      var p, past := run[i].packet, run[..i];
      DecisionAt(me, run, i) == Forwarded
      <==>
        && !ComesBack(me, p) && run[i].authorised
        && (p.brokerId == ""
            || (p.counter > 0
                && forall j | 0 <= j < i && Counts(me, past, p.brokerId, j) :: run[j].packet.counter < p.counter))
  {
    var p, past := run[i].packet, run[..i];
    if p.brokerId != "" {
      MarkIsLargest(me, past, p.brokerId);
      assert forall j | 0 <= j < i :: past[j] == run[j];
    }
  }

  // ---------- One message, several matching filters ----------

  /** The handlers of one client that match one message: each has its own no-local flag
      and meets its own answer from authorizeForward. */
  datatype Handler = Handler(noLocal: bool, authorised: bool)

  function FanOut(marks: Watermarks, me: string, p: Packet, handlers: seq<Handler>): (r: (seq<Decision>, Watermarks))
    ensures |r.0| == |handlers|
    decreases handlers
  {
    if handlers == [] then ([], marks)
    else
      var (d, marks') := Decide(marks, me, p.(noLocal := handlers[0].noLocal), handlers[0].authorised);
      var (ds, final) := FanOut(marks', me, p, handlers[1..]);
      ([d] + ds, final)
  }

  predicate Blocks(me: string, p: Packet, h: Handler) {
    IsOwn(me, p.(noLocal := h.noLocal))
  }

  /** A blocked handler leaves the message to the next one; the first handler that is not
      blocked decides alone, and every later one finds a duplicate. */
  lemma {:induction false} FirstUnblockedDecides(marks: Watermarks, me: string, p: Packet, handlers: seq<Handler>,
      f: nat)
    requires p.brokerId != "" && f <= |handlers|
    requires forall i | 0 <= i < f :: Blocks(me, p, handlers[i])
    requires f < |handlers| ==> !Blocks(me, p, handlers[f])
    ensures
      var (ds, marks') := FanOut(marks, me, p, handlers);
      var isNew := Mark(marks, p.brokerId) < p.counter;
      && (forall i | 0 <= i < |handlers| ::
            ds[i] ==
              if Blocks(me, p, handlers[i]) then Blocked
              else if i == f && isNew then (if handlers[f].authorised then Forwarded else Refused)
              else Duplicate)
      && marks' == if f < |handlers| && isNew then marks[p.brokerId := p.counter] else marks
    decreases handlers
  {
    if handlers == [] {
    } else {
      if f == 0 {
        var (d, marks') := Decide(marks, me, p.(noLocal := handlers[0].noLocal), handlers[0].authorised);
        AllDuplicates(marks', me, p, handlers[1..]);
      } else {
        assert Blocks(me, p, handlers[0]);
        forall i | 0 <= i < f - 1 ensures Blocks(me, p, handlers[1..][i]) {
          assert Blocks(me, p, handlers[i + 1]);
        }
        FirstUnblockedDecides(marks, me, p, handlers[1..], f - 1);
      }
    }
  }

  lemma {:induction false} AllDuplicates(marks: Watermarks, me: string, p: Packet, handlers: seq<Handler>)
    requires p.brokerId != "" && p.counter <= Mark(marks, p.brokerId)
    ensures
      var (ds, marks') := FanOut(marks, me, p, handlers);
      && (forall i | 0 <= i < |handlers| :: ds[i] == if Blocks(me, p, handlers[i]) then Blocked else Duplicate)
      && marks' == marks
    decreases handlers
  {
    if handlers == [] {
    } else {
      AllDuplicates(marks, me, p, handlers[1..]);
    }
  }

  // ---------- The program's state ----------

  class Subscriber {
    const id: string
    var duplicates: map<string, nat>

    constructor (id: string)
      ensures this.id == id && duplicates == Marks(id, [])
    {
      this.id := id;
      duplicates := map[];
    }

    method Dedupe(p: Packet) returns (isNew: bool)
      modifies this
      ensures isNew <==> p.brokerId == "" || old(Mark(duplicates, p.brokerId)) < p.counter
      ensures duplicates ==
              if isNew && p.brokerId != "" then old(duplicates)[p.brokerId := p.counter] else old(duplicates)
    {
      if p.brokerId == "" {
        return true;
      }
      var last := if p.brokerId in duplicates then duplicates[p.brokerId] else 0;
      isNew := last < p.counter;
      if isNew {
        duplicates := duplicates[p.brokerId := p.counter];
      }
    }

    method GetToForwardPacket(p: Packet, authorised: bool) returns (forward: bool)
      modifies this
      ensures forward <==> Decide(old(duplicates), id, p, authorised).0 == Forwarded
      ensures duplicates == Step(old(duplicates), id, Deliver(p, authorised))
    {
      if p.sender == SentBy(id) && p.noLocal {
        return false;
      }
      var isNew := Dedupe(p);
      forward := isNew && authorised;
    }

    /** ownId is the id of the broker this client is connected to, whose births do not count. */
    method BrokerBorn(brokerId: string, ownId: string)
      modifies this
      ensures duplicates == if brokerId == ownId then old(duplicates) else Step(old(duplicates), id, Birth(brokerId))
    {
      if brokerId != ownId {
        duplicates := duplicates - {brokerId};
      }
    }
  }
}
