/**
 The broker's registry of connected clients (`registerClient`, `_finishRegisterClient`,
 `unregisterClient`, `deleteClient` and `closeSameClients` in aedes.js, and the end of
 `finish` in lib/client.js).

 Client objects are numbered; several may carry the same client identifier.
 */
module Registry {

  /** waiting holds the clients whose registration waits for this one's finish. */
  datatype Client = Client(id: string, authorized: bool, closed: bool, finished: bool, waiting: seq<nat>)

  datatype State = State(
    objects: seq<Client>,
    clients: map<string, nat>,  // the registry
    connectedClients: int,
    overwrites: nat             // registrations that replaced an entry
  )

  const INITIAL := State([], map[], 0, 0)

  datatype Event =
    | Authenticated(id: string, ok: bool)  // a client got its identifier and was authenticated, or refused
    | Register(c: nat)                     // the connect pipeline reaches registerClient
    | CloseCalled(c: nat)
    | Finishes(c: nat)                     // the unsubscriptions of a closed client are answered
    | SeenElsewhere(id: string)            // another broker announces a client of that identifier

  function SetClosed(s: State, c: nat, waiting: seq<nat>): (r: State)
    requires c < |s.objects|
  {
    s.(objects := s.objects[c := s.objects[c].(closed := true, waiting := waiting)])
  }

  function FinishRegister(s: State, c: nat): (r: State)
    requires c < |s.objects|
  {
    var id := s.objects[c].id;
    s.(connectedClients := s.connectedClients + 1, clients := s.clients[id := c],
       overwrites := if id in s.clients then s.overwrites + 1 else s.overwrites)
  }

  /** Closing a client that is already closed calls back at once, before it has left the registry. */
  function RegisterStep(s: State, c: nat): (r: State) {
    if c >= |s.objects| || !s.objects[c].authorized then s
    else if s.objects[c].id !in s.clients then FinishRegister(s, c)
    else
      var other := s.clients[s.objects[c].id];
      if other >= |s.objects| then s
      else if s.objects[other].closed then FinishRegister(s, c)
      else SetClosed(s, other, [c])
  }

  function DeleteClient(s: State, id: string): (r: State) {
    s.(connectedClients := s.connectedClients - 1, clients := s.clients - {id})
  }

  function FinishAll(s: State, waiting: seq<nat>): (r: State)
    decreases waiting
  {
    if waiting == [] then s
    else if waiting[0] < |s.objects| then FinishAll(FinishRegister(s, waiting[0]), waiting[1..])
    else FinishAll(s, waiting[1..])
  }

  /** finish: whoever is registered under the client's identifier is unregistered, if the client was authorised. */
  function FinishStep(s: State, c: nat): (r: State) {
    if c >= |s.objects| || !s.objects[c].closed || s.objects[c].finished then s
    else
      var client := s.objects[c];
      var s := s.(objects := s.objects[c := client.(finished := true, waiting := [])]);
      FinishAll(if client.id in s.clients && client.authorized then DeleteClient(s, client.id) else s, client.waiting)
  }

  function Step(s: State, e: Event): (r: State) {
    match e
    case Authenticated(id, ok) => s.(objects := s.objects + [Client(id, ok, false, false, [])])
    case Register(c) => RegisterStep(s, c)
    case CloseCalled(c) => if c < |s.objects| && !s.objects[c].closed then SetClosed(s, c, []) else s
    case Finishes(c) => FinishStep(s, c)
    case SeenElsewhere(id) =>
      if id !in s.clients || s.clients[id] >= |s.objects| then s
      else if s.objects[s.clients[id]].closed then DeleteClient(s, id)
      else SetClosed(s, s.clients[id], [])
  }

  function After(run: seq<Event>): (s: State) {
    if run == [] then INITIAL else Step(After(run[..|run| - 1]), run[|run| - 1])
  }

  // ---------- The count ----------

  /** The hypothesis: registerClient does not find a registered client that is already flagged closed. */
  predicate FindsClosed(s: State, e: Event) {
    && e.Register? && e.c < |s.objects| && s.objects[e.c].authorized
    && s.objects[e.c].id in s.clients
    && s.clients[s.objects[e.c].id] < |s.objects|
    && s.objects[s.clients[s.objects[e.c].id]].closed
  }

  function CountFindsClosed(run: seq<Event>): (n: nat) {
    if run == [] then 0
    else
      var prefix := run[..|run| - 1];
      CountFindsClosed(prefix) + if FindsClosed(After(prefix), run[|run| - 1]) then 1 else 0
  }

  predicate Counted(s: State) {
    s.connectedClients == |s.clients| + s.overwrites
  }

  /** Registered clients are authorised; a client waits only for one with its own identifier, which is then
      registered or was, and is authorised; there is at most one such. */
  ghost predicate WellFormed(s: State) {
    && (forall id | id in s.clients ::
          s.clients[id] < |s.objects| && s.objects[s.clients[id]].id == id && s.objects[s.clients[id]].authorized)
    && (forall c | 0 <= c < |s.objects| :: |s.objects[c].waiting| <= 1)
    && (forall c | 0 <= c < |s.objects| && s.objects[c].waiting != [] ::
          var w := s.objects[c].waiting[0];
          && w < |s.objects| && s.objects[w].id == s.objects[c].id && s.objects[w].authorized
          && s.objects[c].authorized && s.objects[c].closed)
  }

  lemma MapSizes(m: map<string, nat>, id: string, c: nat)
    ensures |m[id := c]| == if id in m then |m| else |m| + 1
    ensures id in m ==> |m - {id}| == |m| - 1
  {
    assert m[id := c].Keys == m.Keys + {id};
    assert (m - {id}).Keys == m.Keys - {id};
    assert |m.Keys| == |m| && |m[id := c].Keys| == |m[id := c]| && |(m - {id}).Keys| == |m - {id}|;
  }

  lemma FinishRegisterKeeps(s: State, c: nat)
    requires WellFormed(s) && Counted(s) && c < |s.objects| && s.objects[c].authorized
    ensures WellFormed(FinishRegister(s, c)) && Counted(FinishRegister(s, c))
  {
    MapSizes(s.clients, s.objects[c].id, c);
  }

  lemma SetClosedKeeps(s: State, c: nat, waiting: seq<nat>)
    requires WellFormed(s) && Counted(s) && c < |s.objects| && |waiting| <= 1
    requires waiting != [] ==>
               && waiting[0] < |s.objects| && s.objects[waiting[0]].id == s.objects[c].id
               && s.objects[waiting[0]].authorized && s.objects[c].authorized
    ensures WellFormed(SetClosed(s, c, waiting)) && Counted(SetClosed(s, c, waiting))
  {}

  lemma DeleteKeeps(s: State, id: string)
    requires WellFormed(s) && Counted(s) && id in s.clients
    ensures WellFormed(DeleteClient(s, id)) && Counted(DeleteClient(s, id))
  {
    MapSizes(s.clients, id, 0);
  }

  lemma MarkFinishedKeeps(s: State, c: nat)
    requires WellFormed(s) && Counted(s) && c < |s.objects|
    ensures
      var done := s.(objects := s.objects[c := s.objects[c].(finished := true, waiting := [])]);
      WellFormed(done) && Counted(done)
  {}

  lemma FinishKeeps(s: State, c: nat)
    requires WellFormed(s) && Counted(s)
    ensures WellFormed(FinishStep(s, c)) && Counted(FinishStep(s, c))
    ensures FinishStep(s, c).overwrites == s.overwrites
  {
    if c < |s.objects| && s.objects[c].closed && !s.objects[c].finished {
      var client := s.objects[c];
      var done := s.(objects := s.objects[c := client.(finished := true, waiting := [])]);
      MarkFinishedKeeps(s, c);
      var left := if client.id in done.clients && client.authorized then DeleteClient(done, client.id) else done;
      if client.id in done.clients && client.authorized {
        DeleteKeeps(done, client.id);
      }
      assert FinishStep(s, c) == FinishAll(left, client.waiting);
      if client.waiting != [] {
        assert client.id !in left.clients;
        FinishRegisterKeeps(left, client.waiting[0]);
        assert client.waiting[1..] == [];
        assert FinishAll(left, client.waiting) == FinishAll(FinishRegister(left, client.waiting[0]), []);
      }
    }
  }

  lemma RegisterKeeps(s: State, c: nat)
    requires WellFormed(s) && Counted(s)
    ensures WellFormed(RegisterStep(s, c)) && Counted(RegisterStep(s, c))
    ensures RegisterStep(s, c).overwrites == s.overwrites + if FindsClosed(s, Register(c)) then 1 else 0
  {
    if c < |s.objects| && s.objects[c].authorized {
      if s.objects[c].id !in s.clients || s.objects[s.clients[s.objects[c].id]].closed {
        FinishRegisterKeeps(s, c);
      } else {
        SetClosedKeeps(s, s.clients[s.objects[c].id], [c]);
      }
    }
  }

  lemma SeenKeeps(s: State, id: string)
    requires WellFormed(s) && Counted(s)
    ensures WellFormed(Step(s, SeenElsewhere(id))) && Counted(Step(s, SeenElsewhere(id)))
  {
    if id in s.clients {
      DeleteKeeps(s, id);
      SetClosedKeeps(s, s.clients[id], []);
    }
  }

  lemma StepKeeps(s: State, e: Event)
    requires WellFormed(s) && Counted(s)
    ensures WellFormed(Step(s, e)) && Counted(Step(s, e))
    ensures Step(s, e).overwrites == s.overwrites + if FindsClosed(s, e) then 1 else 0
  {
    match e
    case Authenticated(id, ok) =>
    case Register(c) => RegisterKeeps(s, c);
    case CloseCalled(c) => if c < |s.objects| { SetClosedKeeps(s, c, []); }
    case Finishes(c) => FinishKeeps(s, c);
    case SeenElsewhere(id) => SeenKeeps(s, id);
  }

  lemma {:induction false} RunsKeep(run: seq<Event>)
    ensures WellFormed(After(run)) && Counted(After(run))
    ensures After(run).overwrites == CountFindsClosed(run)
  {
    if run == [] {
    } else {
      RunsKeep(run[..|run| - 1]);
      StepKeeps(After(run[..|run| - 1]), run[|run| - 1]);
    }
  }

  predicate FoundAt(run: seq<Event>, i: nat)
    requires i < |run|
  {
    FindsClosed(After(run[..i]), run[i])
  }

  /** In every run connectedClients exceeds the size of the registry by the number of registrations that found
      a closed client registered; so the two agree exactly in the runs in which none does. */
  lemma ConnectedClientsCount(run: seq<Event>)
    ensures After(run).connectedClients == |After(run).clients| + CountFindsClosed(run)
    ensures After(run).connectedClients == |After(run).clients| <==> forall i | 0 <= i < |run| :: !FoundAt(run, i)
  {
    RunsKeep(run);
    NoneFound(run);
  }

  lemma {:induction false} NoneFound(run: seq<Event>)
    ensures CountFindsClosed(run) == 0 <==> forall i | 0 <= i < |run| :: !FoundAt(run, i)
  {
    if run == [] {
    } else {
      var prefix := run[..|run| - 1];
      NoneFound(prefix);
      forall i | 0 <= i < |prefix| ensures FoundAt(prefix, i) == FoundAt(run, i) {
        assert prefix[..i] == run[..i];
      }
      assert FoundAt(run, |run| - 1) == FindsClosed(After(prefix), run[|run| - 1]);
    }
  }

  // ---------- The program's state ----------

  class Broker {
    var objects: seq<Client>
    var clients: map<string, nat>
    var connectedClients: int
    ghost var overwrites: nat

    ghost function Abs(): (s: State) reads this {
      State(objects, clients, connectedClients, overwrites)
    }

    constructor ()
      ensures Abs() == INITIAL
    {
      objects, clients, connectedClients, overwrites := [], map[], 0, 0;
    }

    method FinishRegisterClient(c: nat)
      requires c < |objects|
      modifies this
      ensures Abs() == FinishRegister(old(Abs()), c)
    {
      if objects[c].id in clients {
        overwrites := overwrites + 1;
      }
      connectedClients := connectedClients + 1;
      clients := clients[objects[c].id := c];
    }

    method RegisterClient(c: nat)
      requires WellFormed(Abs()) && c < |objects| && objects[c].authorized
      modifies this
      ensures Abs() == Step(old(Abs()), Register(c))
    {
      var id := objects[c].id;
      if id in clients {
        var other := clients[id];
        if objects[other].closed {
          FinishRegisterClient(c);
        } else {
          objects := objects[other := objects[other].(closed := true, waiting := [c])];
        }
      } else {
        FinishRegisterClient(c);
      }
    }

    method UnregisterClient(id: string)
      modifies this
      ensures Abs() == DeleteClient(old(Abs()), id)
    {
      connectedClients := connectedClients - 1;
      clients := clients - {id};
    }

    /** The end of finish, for client c. */
    method Finish(c: nat)
      requires WellFormed(Abs()) && c < |objects| && objects[c].closed && !objects[c].finished
      modifies this
      ensures Abs() == Step(old(Abs()), Finishes(c))
    {
      var client := objects[c];
      objects := objects[c := client.(finished := true, waiting := [])];
      if client.id in clients && client.authorized {
        UnregisterClient(client.id);
      }
      if client.waiting != [] {
        ghost var left := Abs();
        FinishRegisterClient(client.waiting[0]);
        assert client.waiting[1..] == [];
        assert FinishAll(left, client.waiting) == FinishAll(Abs(), []);
      }
    }

    method CloseSameClients(id: string)
      requires WellFormed(Abs())
      modifies this
      ensures Abs() == Step(old(Abs()), SeenElsewhere(id))
    {
      if id in clients {
        var c := clients[id];
        if objects[c].closed {
          UnregisterClient(id);
        } else {
          objects := objects[c := objects[c].(closed := true, waiting := [])];
        }
      }
    }
  }
}
