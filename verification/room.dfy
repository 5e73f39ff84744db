/**
  The room hub (room.go): the set of registered clients, each client's outbound
  queue, and the three events the hub's `run` loop applies one at a time.

  Client records live in `clients`, keyed by an identity that stands for the Go
  pointer; `members` is the hub's `clients` set. A record outlives its membership,
  so that a departed client's closed queue can still be observed. Queues are
  unbounded sequences (the program's channels hold 256 payloads and block beyond).
  Go panics when a closed channel is sent on or closed again; the model reports
  those as `Panic` outcomes instead of a state.
 */
module Room {
  import opened Optional
  import opened Envelope

  type ClientId = nat

  /** A client: its display name, its outbound queue (`receive`) and whether that channel is closed. */
  datatype Client = Client(user: string, queue: seq<Payload>, closed: bool)

  /** The hub's state: its registered `members` and every client record ever created. */
  datatype Hub = Hub(members: set<ClientId>, clients: map<ClientId, Client>)

  /** Every member refers to an existing client record. */
  predicate WellFormed(r: Hub) {
    r.members <= r.clients.Keys
  }

  /** Well-formed, and no member's channel is closed (so no broadcast can panic). */
  predicate Valid(r: Hub) {
    && WellFormed(r)
    && forall id :: id in r.members ==> !r.clients[id].closed
  }

  datatype Fault = SendOnClosedChannel | CloseOfClosedChannel

  datatype Outcome = Ok(room: Hub) | Panic(fault: Fault)

  function NewRoom(): (r: Hub)
    ensures Valid(r) && r.members == {}
  {
    Hub({}, map[])
  }

  /** Members a broadcast reaches: everyone registered except the excluded sender (`None` is Go's `nil`). */
  function Recipients(r: Hub, sender: Option<ClientId>): set<ClientId> {
    set id | id in r.members && Some(id) != sender
  }

  function Enqueue(c: Client, p: Payload): Client {
    c.(queue := c.queue + [p])
  }

  /**
    `after` is `before` with `p` appended once to the queue of every client in
    `recipients` and nothing else changed: same members, same records, same names,
    same closed flags, every other queue untouched.
   */
  predicate Delivered(before: Hub, after: Hub, recipients: set<ClientId>, p: Payload) {
    && after.members == before.members
    && after.clients.Keys == before.clients.Keys
    && forall id :: id in before.clients ==>
         && after.clients[id].user == before.clients[id].user
         && after.clients[id].closed == before.clients[id].closed
         && after.clients[id].queue == before.clients[id].queue + (if id in recipients then [p] else [])
  }

  /** The client records once `p` has been sent to the members in `done`, the sender skipped. */
  function SentTo(r: Hub, sender: Option<ClientId>, p: Payload, done: set<ClientId>): map<ClientId, Client> {
    map id | id in r.clients :: if id in done && Some(id) != sender then Enqueue(r.clients[id], p) else r.clients[id]
  }

  /**
    broadcastMessage once the envelope has been serialised: `encoded` is the
    outcome of `json.Marshal` (`None` for an error, which is logged and skips the
    broadcast). The same bytes go to every member but the sender.
   */
  function Broadcast(r: Hub, sender: Option<ClientId>, encoded: Option<Payload>): (o: Outcome)
    requires WellFormed(r)
    ensures encoded.None? ==> o == Ok(r)
    ensures o.Panic? <==> encoded.Some? && exists id :: id in Recipients(r, sender) && r.clients[id].closed
    ensures o.Panic? ==> o.fault == SendOnClosedChannel
    ensures o.Ok? && encoded.Some? ==> Delivered(r, o.room, Recipients(r, sender), encoded.value)
  {
    match encoded
    case None => Ok(r)
    case Some(p) =>
      if exists id :: id in Recipients(r, sender) && r.clients[id].closed then Panic(SendOnClosedChannel)
      else Ok(r.(clients := SentTo(r, sender, p, r.members)))
  }

  /** Sending to one more member updates exactly that member's record. */
  lemma SentToOneMore(r: Hub, sender: Option<ClientId>, p: Payload, done: set<ClientId>, id: ClientId)
    requires id in r.clients && id !in done
    ensures var before := SentTo(r, sender, p, done);
      SentTo(r, sender, p, done + {id}) ==
        if Some(id) != sender then before[id := Enqueue(before[id], p)] else before
  {
  }

  /**
    The loop of broadcastMessage as the program runs it: members are visited in
    an arbitrary order (Go randomises map iteration), and the first closed channel
    met panics. Whatever the order, the outcome is `Broadcast`'s.
   */
  method BroadcastLoop(r: Hub, sender: Option<ClientId>, encoded: Option<Payload>) returns (o: Outcome)
    requires WellFormed(r)
    ensures o == Broadcast(r, sender, encoded)
  {
    if encoded.None? {
      return Ok(r);
    }
    var p := encoded.value;
    var clients := r.clients;
    var pending := r.members;
    while pending != {}
      invariant pending <= r.members
      invariant clients == SentTo(r, sender, p, r.members - pending)
      invariant forall id :: id in r.members - pending && Some(id) != sender ==> !r.clients[id].closed
      decreases pending
    {
      var id :| id in pending;
      if Some(id) != sender {
        if clients[id].closed {
          assert id in Recipients(r, sender) && r.clients[id].closed;
          return Panic(SendOnClosedChannel);
        }
        clients := clients[id := Enqueue(clients[id], p)];
      }
      SentToOneMore(r, sender, p, r.members - pending, id);
      assert (r.members - pending) + {id} == r.members - (pending - {id});
      pending := pending - {id};
    }
    o := Ok(r.(clients := clients));
    assert r.members - pending == r.members;
  }

  /** broadcastMessage: serialise once, then broadcast. Marshalling a ClientMessage cannot fail. */
  function BroadcastMessage(r: Hub, sender: Option<ClientId>, m: ClientMessage): (o: Outcome)
    requires WellFormed(r)
    ensures o.Panic? <==> exists id :: id in Recipients(r, sender) && r.clients[id].closed
    ensures o.Ok? ==> Delivered(r, o.room, Recipients(r, sender), Marshal(m))
  {
    Broadcast(r, sender, Some(Marshal(m)))
  }

  /** The chat processor: every chat envelope is broadcast with a `nil` sender. */
  function ChatProcessor(r: Hub, m: ClientMessage): (o: Outcome)
    requires WellFormed(r)
    ensures o.Panic? <==> exists id :: id in r.members && r.clients[id].closed
    ensures o.Ok? ==> Delivered(r, o.room, r.members, Marshal(m))
  {
    assert Recipients(r, None) == r.members;
    BroadcastMessage(r, None, m)
  }

  /** The three events the hub's `run` loop selects among. */
  datatype Event = Join(id: ClientId) | Leave(id: ClientId) | Forward(raw: string)

  /** A join or leave names an existing client (it carries a pointer to one). */
  predicate Addresses(r: Hub, e: Event) {
    (e.Join? || e.Leave?) ==> e.id in r.clients
  }

  /** The event fits the client lifecycle: nobody joins or leaves with a closed channel. */
  predicate Legal(r: Hub, e: Event)
    requires Addresses(r, e)
  {
    (e.Join? || e.Leave?) ==> !r.clients[e.id].closed
  }

  /** Every queue keeps its contents in order and gains at most one payload; names never change. */
  predicate QueuesGrow(before: Hub, after: Hub) {
    && after.clients.Keys == before.clients.Keys
    && forall id :: id in before.clients ==>
         && after.clients[id].user == before.clients[id].user
         && |before.clients[id].queue| <= |after.clients[id].queue| <= |before.clients[id].queue| + 1
         && after.clients[id].queue[..|before.clients[id].queue|] == before.clients[id].queue
  }

  lemma DeliveredGrows(before: Hub, after: Hub, recipients: set<ClientId>, p: Payload)
    requires Delivered(before, after, recipients, p)
    ensures QueuesGrow(before, after)
  {
    forall id | id in before.clients
      ensures after.clients[id].queue[..|before.clients[id].queue|] == before.clients[id].queue
    {
      assert after.clients[id].queue == before.clients[id].queue + (if id in recipients then [p] else []);
    }
  }

  /** No closed flag changes, except possibly those of `except`. */
  predicate FlagsKept(before: Hub, after: Hub, except: set<ClientId>) {
    && before.clients.Keys <= after.clients.Keys
    && forall c :: c in before.clients && c !in except ==> after.clients[c].closed == before.clients[c].closed
  }

  /** A client that is not a member after the step has received nothing in it. */
  predicate OutsidersUntouched(before: Hub, after: Hub) {
    forall c :: c in before.clients && c in after.clients && c !in after.members ==>
      after.clients[c].queue == before.clients[c].queue
  }

  /** The join case of `run`: register the client, then announce it to everyone else. */
  function ApplyJoin(r: Hub, id: ClientId): (o: Outcome)
    requires WellFormed(r) && id in r.clients
    ensures o.Ok? ==> WellFormed(o.room) && QueuesGrow(r, o.room)
    ensures o.Ok? ==> o.room.members == r.members + {id}
    ensures o.Ok? ==> FlagsKept(r, o.room, {}) && OutsidersUntouched(r, o.room)
    ensures Valid(r) && !r.clients[id].closed ==> o.Ok? && Valid(o.room)
  {
    var joined := r.(members := r.members + {id});
    var notice := JoinedNotice(r.clients[id].user);
    var o := BroadcastMessage(joined, Some(id), notice);
    if o.Ok? then
      DeliveredGrows(joined, o.room, Recipients(joined, Some(id)), Marshal(notice));
      o
    else o
  }

  /** The leave case of `run`: deregister, close the channel, then announce the departure. */
  function ApplyLeave(r: Hub, id: ClientId): (o: Outcome)
    requires WellFormed(r) && id in r.clients
    ensures o.Ok? ==> WellFormed(o.room) && QueuesGrow(r, o.room)
    ensures o.Ok? ==> o.room.members == r.members - {id} && o.room.clients[id].closed
    ensures o.Ok? ==> FlagsKept(r, o.room, {id}) && OutsidersUntouched(r, o.room)
    ensures r.clients[id].closed ==> o == Panic(CloseOfClosedChannel)
    ensures Valid(r) && !r.clients[id].closed ==> o.Ok? && Valid(o.room)
  {
    if r.clients[id].closed then Panic(CloseOfClosedChannel)
    else
      var left := Hub(r.members - {id}, r.clients[id := r.clients[id].(closed := true)]);
      var notice := LeftNotice(r.clients[id].user);
      var o := BroadcastMessage(left, Some(id), notice);
      if o.Ok? then
        DeliveredGrows(left, o.room, Recipients(left, Some(id)), Marshal(notice));
        o
      else o
  }

  /** The forward case of `run`: wrap the raw bytes and hand them to the chat processor. */
  function ApplyForward(r: Hub, raw: string): (o: Outcome)
    requires WellFormed(r)
    ensures o.Ok? ==> WellFormed(o.room) && QueuesGrow(r, o.room)
    ensures o.Ok? ==> o.room.members == r.members
    ensures o.Ok? ==> FlagsKept(r, o.room, {}) && OutsidersUntouched(r, o.room)
    ensures Valid(r) ==> o.Ok? && Valid(o.room)
  {
    var notice := ChatNotice(raw);
    var o := ChatProcessor(r, notice);
    if o.Ok? then
      DeliveredGrows(r, o.room, Recipients(r, None), Marshal(notice));
      o
    else o
  }

  /** One iteration of `run`; a forwarded message goes straight through the chat processor. */
  function Step(r: Hub, e: Event): (o: Outcome)
    requires WellFormed(r)
    requires Addresses(r, e)
    ensures o.Ok? ==> WellFormed(o.room) && QueuesGrow(r, o.room)
    ensures o.Ok? && e.Join? ==> o.room.members == r.members + {e.id}
    ensures o.Ok? && e.Leave? ==> o.room.members == r.members - {e.id} && o.room.clients[e.id].closed
    ensures o.Ok? && e.Forward? ==> o.room.members == r.members
    ensures o.Ok? ==> FlagsKept(r, o.room, if e.Leave? then {e.id} else {}) && OutsidersUntouched(r, o.room)
    ensures e.Leave? && r.clients[e.id].closed ==> o == Panic(CloseOfClosedChannel)
    ensures Valid(r) && Legal(r, e) ==> o.Ok? && Valid(o.room)
  {
    match e
    case Join(id) => ApplyJoin(r, id)
    case Leave(id) => ApplyLeave(r, id)
    case Forward(raw) => ApplyForward(r, raw)
  }

  /** `after` holds exactly one more payload than `before`, and it decodes to `m`. */
  predicate ReceivedOnce(before: Client, after: Client, m: ClientMessage) {
    && |after.queue| == |before.queue| + 1
    && after.queue[..|before.queue|] == before.queue
    && Unmarshal(after.queue[|before.queue|]) == Some(m)
  }

  /**
    A broadcast that does not panic puts exactly one payload on every
    recipient's queue, and that payload decodes to the envelope broadcast.
   */
  lemma BroadcastReceived(r: Hub, sender: Option<ClientId>, m: ClientMessage)
    requires WellFormed(r) && BroadcastMessage(r, sender, m).Ok?
    ensures var after := BroadcastMessage(r, sender, m).room;
      && (forall id :: id in Recipients(r, sender) ==> ReceivedOnce(r.clients[id], after.clients[id], m))
      && (forall id :: id in r.clients && id !in Recipients(r, sender) ==> after.clients[id] == r.clients[id])
  {
    var after := BroadcastMessage(r, sender, m).room;
    assert Delivered(r, after, Recipients(r, sender), Marshal(m));
    UnmarshalMarshal(m);
    forall id | id in Recipients(r, sender)
      ensures ReceivedOnce(r.clients[id], after.clients[id], m)
    {
      assert after.clients[id].queue[|r.clients[id].queue|] == Marshal(m);
    }
    forall id | id in r.clients && id !in Recipients(r, sender)
      ensures after.clients[id] == r.clients[id]
    {
      assert after.clients[id].queue == r.clients[id].queue;
    }
  }

  /**
    Join: the client becomes a member and nobody else joins or leaves; every
    other member receives exactly one `userJoined` envelope naming it; its own
    queue and every non-member's queue are untouched.
   */
  lemma JoinStep(r: Hub, id: ClientId)
    requires Valid(r) && id in r.clients && !r.clients[id].closed
    ensures Step(r, Join(id)).Ok?
    ensures var after := Step(r, Join(id)).room;
      && after.members == r.members + {id}
      && Valid(after)
      && (forall m :: m in r.clients && m in r.members && m != id ==>
            ReceivedOnce(r.clients[m], after.clients[m],
              ClientMessage(UserJoined, r.clients[id].user + " joined the chat.", r.clients[id].user)))
      && (forall m :: m in r.clients && (m !in r.members || m == id) ==> after.clients[m] == r.clients[m])
  {
    var joined := r.(members := r.members + {id});
    assert Step(r, Join(id)) == BroadcastMessage(joined, Some(id), JoinedNotice(r.clients[id].user));
    BroadcastReceived(joined, Some(id), JoinedNotice(r.clients[id].user));
  }

  /**
    Leave: the client stops being a member and its channel is closed; every
    remaining member receives exactly one `userLeft` envelope naming it; the
    departing client's queue gets nothing.
   */
  lemma LeaveStep(r: Hub, id: ClientId)
    requires Valid(r) && id in r.clients && !r.clients[id].closed
    ensures Step(r, Leave(id)).Ok?
    ensures var after := Step(r, Leave(id)).room;
      && after.members == r.members - {id}
      && Valid(after)
      && after.clients[id].closed
      && after.clients[id].queue == r.clients[id].queue
      && (forall m :: m in r.clients && m in r.members && m != id ==>
            ReceivedOnce(r.clients[m], after.clients[m],
              ClientMessage(UserLeft, r.clients[id].user + " left the chat.", r.clients[id].user)))
      && (forall m :: m in r.clients && m !in r.members && m != id ==> after.clients[m] == r.clients[m])
  {
    var left := Hub(r.members - {id}, r.clients[id := r.clients[id].(closed := true)]);
    assert Step(r, Leave(id)) == BroadcastMessage(left, Some(id), LeftNotice(r.clients[id].user));
    BroadcastReceived(left, Some(id), LeftNotice(r.clients[id].user));
  }

  /**
    Forward: membership is unchanged and every member, the originator included,
    receives exactly one `chatMessage` envelope carrying the raw text under the
    placeholder user name.
   */
  lemma ForwardStep(r: Hub, raw: string)
    requires Valid(r)
    ensures Step(r, Forward(raw)).Ok?
    ensures var after := Step(r, Forward(raw)).room;
      && after.members == r.members
      && Valid(after)
      && (forall m :: m in r.members ==>
            ReceivedOnce(r.clients[m], after.clients[m], ClientMessage(ChatMessage, raw, "SenderUsername")))
      && (forall m :: m in r.clients && m !in r.members ==> after.clients[m] == r.clients[m])
  {
    assert Step(r, Forward(raw)) == BroadcastMessage(r, None, ChatNotice(raw));
    BroadcastReceived(r, None, ChatNotice(raw));
  }
}
