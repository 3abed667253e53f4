/**
 Takeover and departure over whole runs of the registry: when a newcomer replaces a client of
 the same identifier, whom a departing client takes with it, and which clients stay registered
 after they have finished (`registerClient` in aedes.js, the end of `finish` in lib/client.js).
 */
module Takeover {
  import opened Registry

  /** What holds after i steps, and is kept by steps i to j of a kind, holds after j steps. */
  lemma {:induction false} StepsKeep(p: State -> bool, kind: (State, Event) -> bool, run: seq<Event>, i: nat, j: nat)
    requires i <= j <= |run| && p(After(run[..i]))
    requires forall k | i <= k < j :: kind(After(run[..k]), run[k])
    requires forall s, e | p(s) && kind(s, e) :: p(Step(s, e))
    ensures p(After(run[..j]))
    decreases j
  {
    if i == j {
    } else {
      StepsKeep(p, kind, run, i, j - 1);
      assert run[..j][..j - 1] == run[..j - 1];
      assert kind(After(run[..j - 1]), run[j - 1]);
    }
  }

  lemma OneStep(run: seq<Event>, i: nat)
    requires i < |run|
    ensures After(run[..i + 1]) == Step(After(run[..i]), run[i])
  {
    assert run[..i + 1][..i] == run[..i];
  }

  lemma AfterSnoc(run: seq<Event>, e: Event)
    ensures After(run + [e]) == Step(After(run), e)
  {
    assert (run + [e])[..|run|] == run;
  }

  // ---------- What finish does to the registry ----------

  /** The registry after c has finished: without the entry of its identifier, or with the client that waited for it. */
  function ClientsAfterFinish(s: State, c: nat): (clients: map<string, nat>)
    requires c < |s.objects|
  {
    var client := s.objects[c];
    var left := if client.authorized then s.clients - {client.id} else s.clients;
    if client.waiting == [] then left else left[client.id := client.waiting[0]]
  }

  lemma FinishForm(s: State, c: nat)
    requires WellFormed(s) && c < |s.objects| && s.objects[c].closed && !s.objects[c].finished
    ensures Step(s, Finishes(c)).clients == ClientsAfterFinish(s, c)
    ensures Step(s, Finishes(c)).objects == s.objects[c := s.objects[c].(finished := true, waiting := [])]
    ensures Step(s, Finishes(c)).connectedClients
         == s.connectedClients - (if s.objects[c].authorized && s.objects[c].id in s.clients then 1 else 0)
            + |s.objects[c].waiting|
  {
    var client := s.objects[c];
    var done := s.(objects := s.objects[c := client.(finished := true, waiting := [])]);
    var left := if client.id in s.clients && client.authorized then DeleteClient(done, client.id) else done;
    assert client.id !in s.clients ==> s.clients - {client.id} == s.clients;
    assert Step(s, Finishes(c)) == FinishAll(left, client.waiting);
    if client.waiting != [] {
      assert client.waiting[1..] == [];
      assert FinishAll(left, client.waiting) == FinishAll(FinishRegister(left, client.waiting[0]), []);
    }
  }

  /** The step takes another client than c out of its place in the registry. */
  predicate LosesOther(s: State, s': State, c: nat, id: string) {
    && id in s.clients && s.clients[id] != c
    && !(id in s'.clients && s'.clients[id] == s.clients[id])
  }

  /** finish looks at the identifier only. In any state it takes another client out of the registry if and only if the
      finishing client is authorised and another one, that is not waiting for it, is registered under its identifier. */
  lemma FinishEvictsOther(s: State, c: nat, id: string)
    requires WellFormed(s) && c < |s.objects|
    ensures LosesOther(s, Step(s, Finishes(c)), c, id)
       <==>
         var client := s.objects[c];
         && client.closed && !client.finished && client.authorized && client.id == id
         && id in s.clients && s.clients[id] != c
         && (client.waiting == [] || client.waiting[0] != s.clients[id])
  {
    if s.objects[c].closed && !s.objects[c].finished {
      FinishForm(s, c);
    } else {
      assert Step(s, Finishes(c)) == s;
    }
  }

  /** It happens: of two clients of one identifier the first is registered, the second closes before its turn. */
  lemma EvictionHappens()
    ensures
      var run := [Authenticated("a", true)] + [Authenticated("a", true)] + [Register(0)]
                 + [CloseCalled(1)] + [Finishes(1)];
      var s := After(run);
      && s.objects == [Client("a", true, false, false, []), Client("a", true, true, true, [])]
      && s.clients == map[] && s.connectedClients == 0
  {
    var r0 := [Authenticated("a", true)];
    var r1 := r0 + [Authenticated("a", true)];
    var r2 := r1 + [Register(0)];
    var r3 := r2 + [CloseCalled(1)];
    var a := Client("a", true, false, false, []);
    assert r0[..0] == [];
    assert After(r0) == INITIAL.(objects := [a]);
    AfterSnoc(r0, Authenticated("a", true));
    AfterSnoc(r1, Register(0));
    assert After(r2) == State([a, a], map["a" := 0], 1, 0);
    AfterSnoc(r2, CloseCalled(1));
    assert After(r3) == State([a, a.(closed := true)], map["a" := 0], 1, 0);
    AfterSnoc(r3, Finishes(1));
    FinishForm(After(r3), 1);
    assert map["a" := 0] - {"a"} == map[];
  }

  /** connectedClients does go wrong: a client registers while the one before it is closed and not yet finished. */
  lemma CountGoesWrong()
    ensures
      var run := [Authenticated("a", true)] + [Register(0)] + [CloseCalled(0)]
                 + [Authenticated("a", true)] + [Register(1)];
      After(run).connectedClients == 2 && |After(run).clients| == 1
  {
    var r0 := [Authenticated("a", true)];
    var r1 := r0 + [Register(0)];
    var r2 := r1 + [CloseCalled(0)];
    var r3 := r2 + [Authenticated("a", true)];
    var a := Client("a", true, false, false, []);
    assert r0[..0] == [];
    assert After(r0) == INITIAL.(objects := [a]);
    AfterSnoc(r0, Register(0));
    assert After(r1) == State([a], map["a" := 0], 1, 0);
    AfterSnoc(r1, CloseCalled(0));
    AfterSnoc(r2, Authenticated("a", true));
    assert After(r3) == State([a.(closed := true), a], map["a" := 0], 1, 0);
    AfterSnoc(r3, Register(1));
  }

  // ---------- Who stays registered ----------

  predicate AllUnfinished(s: State) {
    forall id | id in s.clients && s.clients[id] < |s.objects| :: !s.objects[s.clients[id]].finished
  }

  /** The step registers a client that has finished: one that closed before its own registration, or while it waited. */
  predicate RegistersFinished(s: State, e: Event) {
    match e
    case Register(c) =>
      && c < |s.objects| && s.objects[c].authorized && s.objects[c].finished
      && (s.objects[c].id in s.clients ==>
            s.clients[s.objects[c].id] < |s.objects| && s.objects[s.clients[s.objects[c].id]].closed)
    case Finishes(c) =>
      && c < |s.objects| && s.objects[c].closed && !s.objects[c].finished && s.objects[c].waiting != []
      && var w := s.objects[c].waiting[0]; w == c || (w < |s.objects| && s.objects[w].finished)
    case _ => false
  }

  lemma FinishKeepsUnfinished(s: State, c: nat)
    requires WellFormed(s) && AllUnfinished(s) && c < |s.objects| && s.objects[c].closed && !s.objects[c].finished
    ensures AllUnfinished(Step(s, Finishes(c))) <==> !RegistersFinished(s, Finishes(c))
  {
    var s' := Step(s, Finishes(c));
    FinishForm(s, c);
    if s.objects[c].waiting == [] {
    } else if RegistersFinished(s, Finishes(c)) {
      assert s'.objects[s'.clients[s.objects[c].id]].finished;
    } else {
      forall id | id in s'.clients && s'.clients[id] < |s'.objects| ensures !s'.objects[s'.clients[id]].finished {
        assert id != s.objects[c].id ==> id in s.clients && s'.clients[id] == s.clients[id];
      }
    }
  }

  lemma RegisterKeepsUnfinished(s: State, c: nat)
    requires WellFormed(s) && AllUnfinished(s) && c < |s.objects| && s.objects[c].authorized
    ensures AllUnfinished(Step(s, Register(c))) <==> !RegistersFinished(s, Register(c))
  {
    var s', id := Step(s, Register(c)), s.objects[c].id;
    if id in s.clients && !s.objects[s.clients[id]].closed {
      assert s'.clients == s.clients;
    } else {
      assert s'.clients == s.clients[id := c] && s'.objects == s.objects;
    }
  }

  lemma StepKeepsUnfinished(s: State, e: Event)
    requires WellFormed(s) && AllUnfinished(s)
    ensures AllUnfinished(Step(s, e)) <==> !RegistersFinished(s, e)
  {
    match e
    case Finishes(c) =>
      if c < |s.objects| && s.objects[c].closed && !s.objects[c].finished {
        FinishKeepsUnfinished(s, c);
      } else {
        assert Step(s, e) == s;
      }
    case Register(c) =>
      if c < |s.objects| && s.objects[c].authorized {
        RegisterKeepsUnfinished(s, c);
      } else {
        assert Step(s, e) == s;
      }
    case _ =>
  }

  lemma StaysUnfinished(run: seq<Event>, j: nat)
    requires forall i | 0 <= i < |run| :: !RegistersFinished(After(run[..i]), run[i])
    requires j <= |run|
    ensures AllUnfinished(After(run[..j]))
  {
    var p := s => WellFormed(s) && Counted(s) && AllUnfinished(s);
    forall s: State, e: Event | p(s) && !RegistersFinished(s, e) ensures p(Step(s, e)) {
      StepKeeps(s, e);
      StepKeepsUnfinished(s, e);
    }
    assert run[..0] == [];
    StepsKeep(p, (s, e) => !RegistersFinished(s, e), run, 0, j);
  }

  lemma NothingFinishedRegistered(run: seq<Event>, i: nat)
    requires i < |run| && AllUnfinished(After(run[..i])) && AllUnfinished(After(run[..i + 1]))
    ensures !RegistersFinished(After(run[..i]), run[i])
  {
    RunsKeep(run[..i]);
    OneStep(run, i);
    StepKeepsUnfinished(After(run[..i]), run[i]);
  }

  /** At every moment of a run all registered clients are unfinished if and only if no step of it registers a client
      that has finished already. */
  lemma UnfinishedIff(run: seq<Event>)
    ensures (forall i | 0 <= i <= |run| :: AllUnfinished(After(run[..i])))
       <==> (forall i | 0 <= i < |run| :: !RegistersFinished(After(run[..i]), run[i]))
  {
    if forall i | 0 <= i <= |run| :: AllUnfinished(After(run[..i])) {
      forall i | 0 <= i < |run| ensures !RegistersFinished(After(run[..i]), run[i]) {
        NothingFinishedRegistered(run, i);
      }
    }
    if forall i | 0 <= i < |run| :: !RegistersFinished(After(run[..i]), run[i]) {
      forall i | 0 <= i <= |run| ensures AllUnfinished(After(run[..i])) {
        StaysUnfinished(run, i);
      }
    }
  }

  /** Such a client stays for good: it is closed already, so closing it again and finishing it change nothing. */
  lemma FinishedClientStays()
    ensures
      var run := [Authenticated("a", true)] + [CloseCalled(0)] + [Finishes(0)] + [Register(0)];
      var s := After(run);
      && s.objects == [Client("a", true, true, true, [])] && s.clients == map["a" := 0]
      && Step(s, CloseCalled(0)) == s && Step(s, Finishes(0)) == s
  {
    var r0 := [Authenticated("a", true)];
    var r1 := r0 + [CloseCalled(0)];
    var r2 := r1 + [Finishes(0)];
    var a := Client("a", true, false, false, []);
    assert r0[..0] == [];
    assert After(r0) == INITIAL.(objects := [a]);
    AfterSnoc(r0, CloseCalled(0));
    assert After(r1) == INITIAL.(objects := [a.(closed := true)]);
    AfterSnoc(r1, Finishes(0));
    assert After(r2) == INITIAL.(objects := [a.(closed := true, finished := true)]);
    AfterSnoc(r2, Register(0));
  }

  // ---------- Takeover ----------

  /** The client is neither registered nor waiting to be. */
  predicate Outside(s: State, c: nat) {
    && (forall id | id in s.clients :: s.clients[id] != c)
    && (forall d | 0 <= d < |s.objects| :: c !in s.objects[d].waiting)
  }

  /** It waits for one client, which is closed and has not finished. */
  predicate WaitsFor(s: State, c: nat, other: nat) {
    && c < |s.objects| && other < |s.objects| && s.objects[other].id == s.objects[c].id
    && s.objects[other].closed && !s.objects[other].finished && s.objects[other].waiting == [c]
    && (forall id | id in s.clients :: s.clients[id] != c)
    && (forall d | 0 <= d < |s.objects| && d != other :: c !in s.objects[d].waiting)
  }

  /** Whoever has finished is closed. */
  predicate FinishedAreClosed(s: State) {
    forall c | 0 <= c < |s.objects| && s.objects[c].finished :: s.objects[c].closed
  }

  lemma StepKeepsOutside(s: State, e: Event, c: nat)
    requires WellFormed(s) && FinishedAreClosed(s) && Outside(s, c) && e != Register(c)
    ensures Outside(Step(s, e), c)
  {
    match e
    case Finishes(d) =>
      if d < |s.objects| && s.objects[d].closed && !s.objects[d].finished {
        FinishForm(s, d);
        assert c !in s.objects[d].waiting;
        assert s.objects[d].waiting != [] ==> s.objects[d].waiting[0] in s.objects[d].waiting;
      }
    case _ =>
  }

  lemma StepKeepsClosedness(s: State, e: Event)
    requires WellFormed(s) && FinishedAreClosed(s)
    ensures FinishedAreClosed(Step(s, e))
  {
    match e
    case Finishes(d) =>
      if d < |s.objects| && s.objects[d].closed && !s.objects[d].finished {
        FinishForm(s, d);
      }
    case _ =>
  }

  lemma StepKeepsWaiting(s: State, e: Event, c: nat, other: nat)
    requires WellFormed(s) && WaitsFor(s, c, other) && e != Register(c) && e != Finishes(other)
    ensures WaitsFor(Step(s, e), c, other)
  {
    match e
    case Finishes(d) =>
      if d < |s.objects| && s.objects[d].closed && !s.objects[d].finished {
        FinishForm(s, d);
        assert c !in s.objects[d].waiting;
        assert s.objects[d].waiting != [] ==> s.objects[d].waiting[0] in s.objects[d].waiting;
      }
    case _ =>
  }

  /** At step i client c registers, and another client, still open, holds its identifier. */
  predicate AsksAt(run: seq<Event>, i: nat, c: nat, other: nat) {
    && i < |run| && run[i] == Register(c)
    && var s := After(run[..i]);
       && c < |s.objects| && s.objects[c].authorized && s.objects[c].id in s.clients
       && s.clients[s.objects[c].id] == other && other != c && other < |s.objects| && !s.objects[other].closed
  }

  lemma OutsideBefore(run: seq<Event>, i: nat, c: nat)
    requires i <= |run| && forall k | 0 <= k < i :: run[k] != Register(c)
    ensures WellFormed(After(run[..i])) && FinishedAreClosed(After(run[..i])) && Outside(After(run[..i]), c)
  {
    var p := s => WellFormed(s) && Counted(s) && FinishedAreClosed(s) && Outside(s, c);
    forall s: State, e: Event | p(s) && e != Register(c) ensures p(Step(s, e)) {
      StepKeeps(s, e);
      StepKeepsClosedness(s, e);
      StepKeepsOutside(s, e, c);
    }
    assert run[..0] == [];
    StepsKeep(p, (s: State, e: Event) => e != Register(c), run, 0, i);
  }

  lemma AskingWaits(run: seq<Event>, i: nat, c: nat, other: nat)
    requires AsksAt(run, i, c, other) && forall k | 0 <= k < i :: run[k] != Register(c)
    ensures WaitsFor(After(run[..i + 1]), c, other)
  {
    OutsideBefore(run, i, c);
    OneStep(run, i);
  }

  lemma WaitsUntil(run: seq<Event>, i: nat, j: nat, c: nat, other: nat)
    requires AsksAt(run, i, c, other) && i < j <= |run|
    requires forall k | 0 <= k < |run| && k != i :: run[k] != Register(c)
    requires forall k | i < k < j :: run[k] != Finishes(other)
    ensures WellFormed(After(run[..j])) && WaitsFor(After(run[..j]), c, other)
  {
    AskingWaits(run, i, c, other);
    RunsKeep(run[..i + 1]);
    var p := s => WellFormed(s) && Counted(s) && WaitsFor(s, c, other);
    var kind := (s: State, e: Event) => e != Register(c) && e != Finishes(other);
    forall s: State, e: Event | p(s) && kind(s, e) ensures p(Step(s, e)) {
      StepKeeps(s, e);
      StepKeepsWaiting(s, e, c, other);
    }
    StepsKeep(p, kind, run, i + 1, j);
  }

  lemma FinishAdmits(s: State, c: nat, other: nat)
    requires WellFormed(s) && WaitsFor(s, c, other)
    ensures
      var id, s' := s.objects[c].id, Step(s, Finishes(other));
      && s'.clients == s.clients[id := c]
      && s'.connectedClients == s.connectedClients + if id in s.clients then 0 else 1
  {
    FinishForm(s, other);
    assert (s.clients - {s.objects[c].id})[s.objects[c].id := c] == s.clients[s.objects[c].id := c];
  }

  /** Takeover, whatever else happens: a client that registers once, while another one holds its identifier, closes that
      one, stays out of the registry until it has finished, and then takes the place of whoever is registered under the
      identifier by then, without a change of connectedClients. */
  lemma TakeoverWaitsForFinish(run: seq<Event>, i: nat, j: nat, c: nat, other: nat)
    requires AsksAt(run, i, c, other) && i < j <= |run|
    requires forall k | 0 <= k < |run| && k != i :: run[k] != Register(c)
    requires forall k | i < k < j :: run[k] != Finishes(other)
    ensures
      var s := After(run[..j]);
      && WaitsFor(s, c, other)
      && (j < |run| && run[j] == Finishes(other) ==>
            var id, s' := s.objects[c].id, After(run[..j + 1]);
            && s'.clients == s.clients[id := c]
            && s'.connectedClients == s.connectedClients + if id in s.clients then 0 else 1)
  {
    WaitsUntil(run, i, j, c, other);
    FinishAdmits(After(run[..j]), c, other);
    if j < |run| {
      OneStep(run, j);
    }
  }

  // ---------- Announcements of other brokers ----------

  lemma {:induction false} FinishedClosed(run: seq<Event>)
    ensures WellFormed(After(run)) && FinishedAreClosed(After(run))
  {
    RunsKeep(run);
    if run == [] {
    } else {
      var prefix := run[..|run| - 1];
      FinishedClosed(prefix);
      StepKeepsClosedness(After(prefix), run[|run| - 1]);
    }
  }

  lemma AnnouncedIsClosed(s: State, id: string)
    requires WellFormed(s) && id in s.clients && !s.objects[s.clients[id]].closed
    ensures
      var c, s' := s.clients[id], Step(s, SeenElsewhere(id));
      && s'.clients == s.clients && s'.connectedClients == s.connectedClients
      && s'.objects == s.objects[c := s.objects[c].(closed := true)]
  {
    assert s.objects[s.clients[id]].waiting == [];
  }

  lemma AnnouncedThenFinished(s: State, id: string)
    requires WellFormed(s) && Counted(s) && FinishedAreClosed(s)
    requires id in s.clients && !s.objects[s.clients[id]].closed
    ensures
      var gone := Step(Step(s, SeenElsewhere(id)), Finishes(s.clients[id]));
      gone.clients == s.clients - {id} && gone.connectedClients == s.connectedClients - 1
  {
    AnnouncedIsClosed(s, id);
    StepKeeps(s, SeenElsewhere(id));
    assert s.objects[s.clients[id]].waiting == [];
    assert !s.objects[s.clients[id]].finished;
    FinishForm(Step(s, SeenElsewhere(id)), s.clients[id]);
  }

  /** Another broker announces a client of an identifier, in any run: without one here nothing happens. One that is
      closed already leaves the registry. An open one is closed, and its finish takes it out, and nobody else. */
  lemma AnnouncedClientLeaves(run: seq<Event>, id: string)
    ensures
      var s, s' := After(run), After(run + [SeenElsewhere(id)]);
      if id !in s.clients then s' == s
      else
        var c := s.clients[id];
        && c < |s.objects|
        && if s.objects[c].closed then
             s'.clients == s.clients - {id} && s'.objects == s.objects && s'.connectedClients == s.connectedClients - 1
           else
             && s'.clients == s.clients && s'.objects == s.objects[c := s.objects[c].(closed := true)]
             && var gone := After(run + [SeenElsewhere(id)] + [Finishes(c)]);
                gone.clients == s.clients - {id} && gone.connectedClients == s.connectedClients - 1
  {
    var s := After(run);
    FinishedClosed(run);
    AfterSnoc(run, SeenElsewhere(id));
    if id in s.clients && !s.objects[s.clients[id]].closed {
      var c := s.clients[id];
      AnnouncedIsClosed(s, id);
      RunsKeep(run);
      AnnouncedThenFinished(s, id);
      AfterSnoc(run + [SeenElsewhere(id)], Finishes(c));
    }
  }
}
