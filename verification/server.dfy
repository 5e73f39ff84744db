/**
  The hub together with the name counter, driven by what the connection side
  does (room.go, ServeHTTP and the client pumps of client.go): a connection is
  admitted (a name is minted, a client with an empty queue is created and
  joins), a client's read pump forwards what it reads, and a client's session
  ends with a leave. Goroutine scheduling is abstracted to the order in which
  these actions reach the hub.
 */
module Server {
  import opened Optional
  import opened Envelope
  import opened Names
  import opened Room

  /** The hub together with the process-wide name counter. */
  datatype State = State(room: Hub, counter: nat)

  /** Status of the process after an action: still serving, or dead from a panic in the hub. */
  datatype Status = Running(state: State) | Crashed(fault: Fault)

  /**
    `Connect(id)`: an upgraded connection becomes client `id` (a fresh allocation);
    `Receive(id, raw)`: client `id`'s read pump forwards one frame;
    `Disconnect(id)`: client `id`'s session ends and its deferred leave runs.
   */
  datatype Action = Connect(id: ClientId) | Receive(id: ClientId, raw: string) | Disconnect(id: ClientId)

  function Start(): State {
    State(NewRoom(), 0)
  }

  /** What the program guarantees about each action: fresh allocations, and pumps only of joined clients. */
  predicate LegalAction(s: State, a: Action) {
    match a
    case Connect(id) => id !in s.room.clients
    case Receive(id, _) => id in s.room.members
    case Disconnect(id) => id in s.room.members
  }

  /** The client ServeHTTP builds: a freshly minted name and an empty, open queue. */
  function NewClient(s: State, id: ClientId): (r: State)
    requires id !in s.room.clients
    ensures r.room.clients.Keys == s.room.clients.Keys + {id}
    ensures ParseUserName(r.room.clients[id].user) == Some(r.counter) && r.counter == s.counter + 1
    ensures r.room.clients[id].user[|UserPrefix|] != '0'
    ensures r.room.clients[id].queue == [] && !r.room.clients[id].closed && r.room.members == s.room.members
    ensures forall c :: c in s.room.clients ==> r.room.clients[c] == s.room.clients[c]
  {
    var minted := GenerateUniqueUser(s.counter);
    State(s.room.(clients := s.room.clients[id := Client(minted.name, [], false)]), minted.counter)
  }

  function Lift(o: Outcome, counter: nat): (st: Status)
    ensures st.Running? <==> o.Ok?
  {
    match o
    case Ok(next) => Running(State(next, counter))
    case Panic(f) => Crashed(f)
  }

  /** The hub event each action turns into, applied to the hub. */
  function Apply(s: State, a: Action): (st: Status)
    requires WellFormed(s.room)
    requires LegalAction(s, a)
    ensures st.Running? ==> WellFormed(st.state.room)
  {
    match a
    case Connect(id) =>
      var admitted := NewClient(s, id);
      Lift(Step(admitted.room, Join(id)), admitted.counter)
    case Receive(_, raw) => Lift(Step(s.room, Forward(raw)), s.counter)
    case Disconnect(id) => Lift(Step(s.room, Leave(id)), s.counter)
  }

  /** A client's channel is closed exactly when it has left (every record here has joined). */
  predicate ClosedIffLeft(r: Hub) {
    forall id :: id in r.clients ==> (r.clients[id].closed <==> id !in r.members)
  }

  /** Every name is `User` and the decimal form of a counter value handed out so far, with no leading zero. */
  predicate NamesMinted(r: Hub, counter: nat) {
    forall id :: id in r.clients ==>
      && ParseUserName(r.clients[id].user).Some?
      && 1 <= ParseUserName(r.clients[id].user).value <= counter
      && r.clients[id].user[|UserPrefix|] != '0'
  }

  /** No two clients share a name. */
  predicate NamesDistinct(r: Hub) {
    forall i, j :: i in r.clients && j in r.clients && i != j ==> r.clients[i].user != r.clients[j].user
  }

  /**
    The reachable-state invariant: no member's channel is closed, a client's
    channel is closed exactly when it has left, every name was minted by the
    counter so far, and no two clients share a name.
   */
  predicate Inv(s: State) {
    && Valid(s.room)
    && ClosedIffLeft(s.room)
    && NamesMinted(s.room, s.counter)
    && NamesDistinct(s.room)
  }

  /** A hub step keeps every record and every name, so the name facts carry over. */
  lemma NamesCarryOver(before: Hub, after: Hub, counter: nat)
    requires QueuesGrow(before, after)
    requires NamesMinted(before, counter) && NamesDistinct(before)
    ensures NamesMinted(after, counter) && NamesDistinct(after)
  {
    forall i, j | i in after.clients && j in after.clients && i != j
      ensures after.clients[i].user != after.clients[j].user
    {
      assert after.clients[i].user == before.clients[i].user;
      assert after.clients[j].user == before.clients[j].user;
    }
  }

  /** A freshly minted name differs from all earlier ones. */
  lemma NewNameDistinct(s: State, id: ClientId)
    requires NamesMinted(s.room, s.counter) && NamesDistinct(s.room) && id !in s.room.clients
    ensures NamesMinted(NewClient(s, id).room, NewClient(s, id).counter)
    ensures NamesDistinct(NewClient(s, id).room)
  {
    var admitted := NewClient(s, id);
    var minted := admitted.room.clients[id].user;
    forall i | i in admitted.room.clients && i != id
      ensures admitted.room.clients[i].user != minted
    {
      assert admitted.room.clients[i].user == s.room.clients[i].user;
    }
  }

  lemma StartInv()
    ensures Inv(Start()) && Start().room.members == {} && Start().room.clients == map[]
    ensures Start().counter == 0
  {
  }

  /** Clients that joined by an action of `acts`. */
  function Connected(acts: seq<Action>): set<ClientId>
    decreases |acts|
  {
    if |acts| == 0 then {}
    else (if acts[0].Connect? then {acts[0].id} else {}) + Connected(acts[1..])
  }

  /** Clients whose session ended by an action of `acts`. */
  function Departed(acts: seq<Action>): set<ClientId>
    decreases |acts|
  {
    if |acts| == 0 then {}
    else (if acts[0].Disconnect? then {acts[0].id} else {}) + Departed(acts[1..])
  }

  /**
    What one legal action does from a reachable state: nothing panics, the
    invariant holds again, membership moves by exactly the action's client, no
    record disappears, and a client that has left has its record frozen.
   */
  predicate StepEffect(s: State, a: Action, t: State) {
    && Inv(t)
    && t.room.clients.Keys == (if a.Connect? then s.room.clients.Keys + {a.id} else s.room.clients.Keys)
    && t.room.members ==
         (if a.Connect? then s.room.members + {a.id}
          else if a.Disconnect? then s.room.members - {a.id}
          else s.room.members)
    && (forall id :: id in s.room.clients && id !in s.room.members ==> t.room.clients[id] == s.room.clients[id])
  }

  lemma ConnectPreservesInv(s: State, id: ClientId)
    requires Inv(s) && id !in s.room.clients
    ensures Apply(s, Connect(id)).Running?
    ensures StepEffect(s, Connect(id), Apply(s, Connect(id)).state)
  {
    var admitted := NewClient(s, id);
    assert Valid(admitted.room);
    assert Legal(admitted.room, Join(id));
    var t := Apply(s, Connect(id)).state;
    assert t.room == Step(admitted.room, Join(id)).room;
    assert t.counter == admitted.counter;
    NewNameDistinct(s, id);
    NamesCarryOver(admitted.room, t.room, admitted.counter);
    forall c | c in s.room.clients && c !in s.room.members
      ensures t.room.clients[c] == s.room.clients[c]
    {
      assert c != id && c !in t.room.members;
    }
  }

  lemma ReceivePreservesInv(s: State, id: ClientId, raw: string)
    requires Inv(s) && id in s.room.members
    ensures Apply(s, Receive(id, raw)).Running?
    ensures StepEffect(s, Receive(id, raw), Apply(s, Receive(id, raw)).state)
  {
    var o := Step(s.room, Forward(raw));
    assert Legal(s.room, Forward(raw));
    assert o.Ok?;
    var t := State(o.room, s.counter);
    assert Apply(s, Receive(id, raw)) == Running(t);
    NamesCarryOver(s.room, t.room, s.counter);
    forall c | c in s.room.clients
      ensures t.room.clients[c].closed == s.room.clients[c].closed
      ensures c !in s.room.members ==> t.room.clients[c] == s.room.clients[c]
    {
      assert t.room.clients[c].user == s.room.clients[c].user;
    }
    assert ClosedIffLeft(t.room);
  }

  lemma DisconnectPreservesInv(s: State, id: ClientId)
    requires Inv(s) && id in s.room.members
    ensures Apply(s, Disconnect(id)).Running?
    ensures StepEffect(s, Disconnect(id), Apply(s, Disconnect(id)).state)
  {
    assert Legal(s.room, Leave(id));
    var o := Step(s.room, Leave(id));
    assert o.Ok?;
    var t := State(o.room, s.counter);
    assert Apply(s, Disconnect(id)) == Running(t);
    NamesCarryOver(s.room, t.room, s.counter);
    assert ClosedIffLeft(t.room);
  }

  lemma ApplyPreservesInv(s: State, a: Action)
    requires Inv(s) && LegalAction(s, a)
    ensures Apply(s, a).Running?
    ensures StepEffect(s, a, Apply(s, a).state)
  {
    match a
    case Connect(id) => ConnectPreservesInv(s, id);
    case Receive(id, raw) => ReceivePreservesInv(s, id, raw);
    case Disconnect(id) => DisconnectPreservesInv(s, id);
  }

  /** A run in which every action is legal where it happens (a run that crashes ends there). */
  predicate LegalRun(s: State, acts: seq<Action>)
    requires WellFormed(s.room)
    decreases |acts|
  {
    |acts| == 0 ||
    (&& LegalAction(s, acts[0])
     && (Apply(s, acts[0]).Running? ==> LegalRun(Apply(s, acts[0]).state, acts[1..])))
  }

  /** Applies the actions in the order the hub receives them; the first panic ends the run. */
  function Run(s: State, acts: seq<Action>): Status
    requires WellFormed(s.room)
    requires LegalRun(s, acts)
    decreases |acts|
  {
    if |acts| == 0 then Running(s)
    else
      match Apply(s, acts[0])
      case Crashed(f) => Crashed(f)
      case Running(next) => Run(next, acts[1..])
  }

  // The three set-algebra lemmas below model nothing of the program: they are
  // stated separately so that `ComposeEffect` stays cheap to verify.

  /** The set algebra behind one step of the membership equation. */
  lemma MembershipCompose<T>(m: set<T>, added: set<T>, removed: set<T>, laterAdded: set<T>, laterRemoved: set<T>)
    requires removed <= m + added
    requires laterAdded !! (m + added)
    ensures ((m + added) - removed + laterAdded) - laterRemoved == (m + (added + laterAdded)) - (removed + laterRemoved)
  {
  }

  lemma UnionEmpty<T>(k: set<T>)
    ensures k + {} == k && k - {} == k
  {
  }

  lemma UnionCompose<T>(k0: set<T>, k1: set<T>, k2: set<T>, added: set<T>, laterAdded: set<T>)
    requires k1 == k0 + added && k2 == k1 + laterAdded
    ensures k2 == k0 + (added + laterAdded)
  {
  }

  /** What a legal run does, seen from its start `s` and its end `t`. */
  predicate RunEffect(s: State, acts: seq<Action>, t: State) {
    && Inv(t)
    && Connected(acts) !! s.room.clients.Keys
    && t.room.clients.Keys == s.room.clients.Keys + Connected(acts)
    && t.room.members == (s.room.members + Connected(acts)) - Departed(acts)
    && (forall id :: id in s.room.clients && id !in s.room.members ==> t.room.clients[id] == s.room.clients[id])
  }

  /** One step's effect followed by the rest of the run's effect is the whole run's effect. */
  lemma ComposeEffect(s: State, acts: seq<Action>, next: State, t: State)
    requires |acts| > 0 && WellFormed(s.room) && LegalAction(s, acts[0])
    requires StepEffect(s, acts[0], next) && RunEffect(next, acts[1..], t)
    ensures RunEffect(s, acts, t)
  {
    var a, rest := acts[0], acts[1..];
    var added := if a.Connect? then {a.id} else {};
    var removed := if a.Disconnect? then {a.id} else {};
    UnionEmpty(s.room.clients.Keys);
    UnionEmpty(s.room.members);
    assert next.room.members == (s.room.members + added) - removed;
    assert Connected(acts) == added + Connected(rest);
    assert Departed(acts) == removed + Departed(rest);
    assert next.room.clients.Keys == s.room.clients.Keys + added;
    assert added !! s.room.clients.Keys;
    UnionCompose(s.room.clients.Keys, next.room.clients.Keys, t.room.clients.Keys, added, Connected(rest));
    MembershipCompose(s.room.members, added, removed, Connected(rest), Departed(rest));
    forall id | id in s.room.clients && id !in s.room.members
      ensures t.room.clients[id] == s.room.clients[id]
    {
      assert id in next.room.clients && id !in next.room.members;
    }
  }

  /**
    Any legal run from a reachable state never panics and keeps the invariant
    (so names stay unique); its members are the members before it plus the
    clients it connected minus those it disconnected; and a client that had
    already left receives nothing more.
   */
  lemma {:induction false} RunPreservesInv(s: State, acts: seq<Action>)
    requires Inv(s) && LegalRun(s, acts)
    ensures Run(s, acts).Running?
    ensures RunEffect(s, acts, Run(s, acts).state)
    decreases |acts|
  {
    if |acts| == 0 {
      UnionEmpty(s.room.clients.Keys);
      UnionEmpty(s.room.members);
    } else {
      ApplyPreservesInv(s, acts[0]);
      var next := Apply(s, acts[0]).state;
      assert LegalRun(next, acts[1..]);
      RunPreservesInv(next, acts[1..]);
      assert Run(s, acts) == Run(next, acts[1..]);
      ComposeEffect(s, acts, next, Run(next, acts[1..]).state);
    }
  }

  /** Seen from the empty start, a run's effect is the membership equation alone. */
  lemma EffectFromStart(acts: seq<Action>, t: State)
    requires RunEffect(Start(), acts, t)
    ensures t.room.members == Connected(acts) - Departed(acts)
    ensures NamesDistinct(t.room)
  {
    UnionEmpty(Connected(acts));
  }

  /**
    From a fresh start: a legal run never panics, the members are exactly the
    clients that joined and have not left, and no two clients ever got the same name.
   */
  lemma MembershipFollowsJoinAndLeave(acts: seq<Action>)
    requires LegalRun(Start(), acts)
    ensures Run(Start(), acts).Running?
    ensures Run(Start(), acts).state.room.members == Connected(acts) - Departed(acts)
    ensures var clients := Run(Start(), acts).state.room.clients;
      forall i, j :: i in clients && j in clients && i != j ==> clients[i].user != clients[j].user
  {
    StartInv();
    RunPreservesInv(Start(), acts);
    EffectFromStart(acts, Run(Start(), acts).state);
  }
}
