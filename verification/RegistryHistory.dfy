/**
 Who is registered, and who has been closed, told by what happened: a client is in the registry
 because it registered, or was let in when the one before it had finished, and has not been
 replaced or unregistered since (`registerClient`, `unregisterClient`, `closeSameClients` in
 aedes.js, the end of `finish` in lib/client.js).
 */
module RegistryHistory {
  import Histories
  import opened Registry
  import opened Takeover

  ghost predicate Sound(s: State, e: Event) {
    WellFormed(s) && Counted(s)
  }

  lemma RunsAreSound(run: seq<Event>)
    ensures Histories.Follows(After, Step) && Histories.Throughout(After, Sound, run)
  {
    forall k | 0 <= k < |run| ensures Histories.At(After, Sound, run, k) {
      RunsKeep(run[..k]);
    }
  }

  predicate Happens(kind: (State, Event) -> bool, run: seq<Event>, k: nat)
    requires k < |run|
  {
    kind(After(run[..k]), run[k])
  }

  /** Step k is of one kind, and no later one of the other. */
  predicate Lasts(on: (State, Event) -> bool, off: (State, Event) -> bool, run: seq<Event>, k: nat) {
    k < |run| && Happens(on, run, k) && forall i | k < i < |run| :: !Happens(off, run, i)
  }

  // ---------- Who is registered ----------

  predicate Holds(s: State, id: string, c: nat) {
    id in s.clients && s.clients[id] == c
  }

  /** finish of client d is due. */
  predicate Departs(s: State, e: Event, d: nat) {
    e == Finishes(d) && d < |s.objects| && s.objects[d].closed && !s.objects[d].finished
  }

  /** Client c takes the place of its identifier: it registers while nobody holds it, or a client that is closed
      already, or the client it waits for has finished. */
  predicate Enters(s: State, e: Event, id: string, c: nat) {
    && c < |s.objects| && s.objects[c].id == id && s.objects[c].authorized
    && match e
       case Register(n) =>
         n == c && (id in s.clients ==> s.clients[id] < |s.objects| && s.objects[s.clients[id]].closed)
       case Finishes(d) => Departs(s, e, d) && s.objects[d].waiting == [c]
       case _ => false
  }

  /** The place of the identifier is given away or vacated. */
  predicate Vacates(s: State, e: Event, id: string) {
    match e
    case Register(n) =>
      && n < |s.objects| && s.objects[n].id == id && s.objects[n].authorized
      && (id in s.clients ==> s.clients[id] < |s.objects| && s.objects[s.clients[id]].closed)
    case Finishes(d) => Departs(s, e, d) && s.objects[d].id == id && s.objects[d].authorized
    case SeenElsewhere(seen) =>
      seen == id && id in s.clients && s.clients[id] < |s.objects| && s.objects[s.clients[id]].closed
    case _ => false
  }

  lemma FinishHolds(s: State, d: nat, id: string, c: nat)
    requires WellFormed(s) && Departs(s, Finishes(d), d)
    ensures
      var e := Finishes(d);
      Holds(Step(s, e), id, c) <==> Enters(s, e, id, c) || (Holds(s, id, c) && !Vacates(s, e, id))
  {
    FinishForm(s, d);
    if s.objects[d].waiting != [] {
      assert s.objects[d].waiting == [s.objects[d].waiting[0]];
    }
  }

  lemma StepHolds(s: State, e: Event, id: string, c: nat)
    requires WellFormed(s)
    ensures Holds(Step(s, e), id, c) <==> Enters(s, e, id, c) || (Holds(s, id, c) && !Vacates(s, e, id))
  {
    match e
    case Finishes(d) => if Departs(s, e, d) { FinishHolds(s, d, id, c); }
    case _ =>
  }

  /** A client holds the place of its identifier exactly if it has entered it and nobody has given it away since. */
  lemma RegisteredIff(run: seq<Event>, id: string, c: nat)
    ensures
      var on, off := (s: State, e: Event) => Enters(s, e, id, c), (s: State, e: Event) => Vacates(s, e, id);
      Holds(After(run), id, c) <==> exists k: nat :: Lasts(on, off, run, k)
  {
    var on, off := (s: State, e: Event) => Enters(s, e, id, c), (s: State, e: Event) => Vacates(s, e, id);
    RunsAreSound(run);
    forall s, e | Sound(s, e) ensures Holds(Step(s, e), id, c) <==> on(s, e) || (Holds(s, id, c) && !off(s, e)) {
      StepHolds(s, e, id, c);
    }
    Histories.Switch(After, Step, Sound, (s: State) => Holds(s, id, c), on, off, run);
    forall k: nat ensures Lasts(on, off, run, k) <==> Histories.LastOn(After, on, off, run, k) {
      forall i | 0 <= i < |run| ensures Happens(off, run, i) == Histories.At(After, off, run, i) {}
    }
  }

  // ---------- Who is closed, who has finished ----------

  predicate IsClosed(s: State, c: nat) {
    c < |s.objects| && s.objects[c].closed
  }

  predicate IsFinished(s: State, c: nat) {
    c < |s.objects| && s.objects[c].finished
  }

  /** Somebody closes client c: its own side, a newcomer of its identifier, or another broker's announcement. */
  predicate Closes(s: State, e: Event, c: nat) {
    && c < |s.objects|
    && match e
       case CloseCalled(d) => d == c
       case Register(n) => n < |s.objects| && s.objects[n].authorized && Holds(s, s.objects[n].id, c)
       case SeenElsewhere(id) => Holds(s, id, c)
       case _ => false
  }

  lemma StepCloses(s: State, e: Event, c: nat)
    requires WellFormed(s)
    ensures IsClosed(Step(s, e), c) <==> IsClosed(s, c) || Closes(s, e, c)
    ensures IsFinished(Step(s, e), c) <==> IsFinished(s, c) || Departs(s, e, c)
  {
    match e
    case Finishes(d) => if Departs(s, e, d) { FinishForm(s, d); }
    case _ =>
  }

  /** A client is closed exactly if somebody has closed it, and has finished exactly if its finish was due once. */
  lemma ClosedIff(run: seq<Event>, c: nat)
    ensures
      var closes := (s: State, e: Event) => Closes(s, e, c);
      IsClosed(After(run), c) <==> exists k | 0 <= k < |run| :: Happens(closes, run, k)
    ensures
      var departs := (s: State, e: Event) => Departs(s, e, c);
      IsFinished(After(run), c) <==> exists k | 0 <= k < |run| :: Happens(departs, run, k)
  {
    var closes, departs := (s: State, e: Event) => Closes(s, e, c), (s: State, e: Event) => Departs(s, e, c);
    RunsAreSound(run);
    forall s, e | Sound(s, e)
      ensures IsClosed(Step(s, e), c) <==> IsClosed(s, c) || closes(s, e)
      ensures IsFinished(Step(s, e), c) <==> IsFinished(s, c) || departs(s, e)
    {
      StepCloses(s, e, c);
    }
    Histories.Latch(After, Step, Sound, (s: State) => IsClosed(s, c), closes, run);
    Histories.Latch(After, Step, Sound, (s: State) => IsFinished(s, c), departs, run);
    forall k | 0 <= k < |run|
      ensures Happens(closes, run, k) == Histories.At(After, closes, run, k)
      ensures Happens(departs, run, k) == Histories.At(After, departs, run, k)
    {}
  }
}
