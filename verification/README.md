# Room hub of a WebSocket chat server, in Dafny

A model of the single chat room of a small Go WebSocket server: the hub that
keeps the set of registered clients, appends every outgoing envelope to each
client's outbound queue, and announces joins and departures. The model is
sequential. The hub's `run` loop applies one event at a time, and a forwarded
chat message passes through the chat processor within the same step.

- `optional.dfy` (`Optional`): the option type.
- `names.dfy` (`Names`): `strconv.Itoa` and `generateUniqueUser`, which names
  each connection `"User" + n` from a counter. Its partner is a parser for
  names, so minted names are provably distinct.
- `envelope.dfy` (`Envelope`): the `ClientMessage` envelope and its
  `json.Marshal` form, with the default escaping of `encoding/json`. Its
  partner is a decoder, and each envelope provably decodes back to itself.
- `room.dfy` (`Room`):
  - clients keyed by identity, each with a display name, an outbound queue
    and a closed flag;
  - `broadcastMessage` as a function, plus the loop the program runs, proved
    to compute it;
  - the join, leave and forward events;
  - Go's panics on sending to or closing a closed channel, modelled as
    outcomes.
- `server.dfy` (`Server`): the hub plus the name counter, driven by
  connections, by frames from read pumps and by disconnections. Over every
  legal run it proves:
  - no run panics;
  - the members are exactly the clients that connected and have not left;
  - no two clients ever share a name;
  - a client that has left receives nothing more.

Where the code and its documented intent differ, the model follows the code:

- A forwarded chat message is broadcast with a `nil` sender (room.go:146). So
  the client that sent it receives it too (`Room.ForwardStep`).
- A forwarded chat message carries the fixed user `"SenderUsername"`
  (room.go:66), not the sender's name.
- Join and leave notices do exclude the client they announce.

## Model

| member | source | states |
|---|---|---|
| Names.Itoa | room.go:104 | The decimal form has at least one character, only digits, and no leading zero unless it is `0`. |
| Names.DecimalValueOfItoa | room.go:104 | Reading the decimal digits back gives the number that was formatted. |
| Names.ItoaInjective | room.go:104 | Different counter values format to different digit strings. |
| Names.ParseUserNameOfUserName | room.go:104 | The name `"User" + Itoa(n)` parses back to `n`. |
| Names.UserNameInjective | room.go:104 | Different counter values give different names. |
| Names.GenerateUniqueUser | room.go:100-105 | The counter goes up by one before use. The returned name is `User` followed by the new value in decimal, with no leading zero: it parses back to that value, and the first name is `User1`. |
| Names.GeneratedNamesDistinct | room.go:100-105 | Two calls made at different counter values never return the same name. |
| Envelope.ParseEscaped | room.go:126 | `Escape`, the string escaping `json.Marshal` applies to each field, is undone by the decoder: the escaped text followed by a closing quote decodes to the original text. The rest of the input is left intact. |
| Envelope.UnmarshalMarshal | room.go:126 | `Marshal`, the `json.Marshal` of a `ClientMessage`, writes the `{"type","message","user"}` object of room.go:24-28. Those bytes decode to the very same envelope. |
| Envelope.JoinedNoticeOnWire | room.go:108-112 | The bytes of broadcastUserJoined's envelope (`JoinedNotice`) decode to type `userJoined`, message `<name> joined the chat.` and user `<name>`. |
| Envelope.LeftNoticeOnWire | room.go:117-121 | The bytes of broadcastUserLeft's envelope (`LeftNotice`) decode to type `userLeft`, message `<name> left the chat.` and user `<name>`. |
| Envelope.ChatNoticeOnWire | room.go:63-67 | The bytes of the forward path's envelope (`ChatNotice`) decode to type `chatMessage`, the raw frame as message and user `SenderUsername`. |
| Envelope.MarshalInjective | room.go:126 | Two different envelopes never serialise to the same bytes. |
| Envelope.TypeNameNeedsNoEscape | room.go:107-122 | The three type tags are unchanged by JSON string escaping. |
| Room.NewRoom | room.go:39-49 | A new room has no members and is in a state where no broadcast can panic. |
| Room.Broadcast | room.go:125-138 | A serialisation error enqueues nothing. Otherwise the outcome is a panic exactly when some recipient's channel is closed. With no panic, every member except the sender gets the payload appended once, and nothing else changes. |
| Room.BroadcastLoop | room.go:132-137 | Visiting the members in any order and sending to all but the sender has the same outcome as `Broadcast`, panic included. |
| Room.BroadcastMessage | room.go:125-131 | The envelope is serialised once. The broadcast panics exactly when some recipient's channel is closed; otherwise the same bytes `Marshal(m)` are appended once to every member but the sender, and nothing else changes. |
| Room.ChatProcessor | room.go:141-150 | A chat envelope is broadcast with a `nil` sender, so nobody is excluded: it panics exactly when some member's channel is closed, and otherwise every member, the originator included, gets the bytes once. |
| Room.BroadcastReceived | room.go:125-138 | A broadcast that does not panic puts exactly one payload on each recipient's queue, after its earlier contents. That payload decodes to the envelope broadcast. Every other client record is unchanged. |
| Room.ApplyJoin | room.go:55-57 | The client becomes a member. No queue loses or reorders anything. Non-members and closed flags are untouched. From a valid state with an open channel there is no panic, and the result is valid. |
| Room.ApplyLeave | room.go:58-61 | The client stops being a member and its channel is closed. Closing an already closed channel panics. From a valid state there is no panic, and the result is valid. |
| Room.ApplyForward | room.go:62-68 | Membership and closed flags are unchanged. Every queue grows by at most one payload. From a valid state there is no panic. |
| Room.Step | room.go:52-71 | One iteration of `run`. It combines the three cases' membership, frame and no-panic guarantees. |
| Room.JoinStep | room.go:107-114 | On a join, every other member receives exactly one envelope, which decodes to `userJoined` with `"<name> joined the chat."` and the joiner's name. The joiner's own queue and non-members' queues are untouched. |
| Room.LeaveStep | room.go:116-123 | On a leave, every remaining member receives exactly one envelope, which decodes to `userLeft` with `"<name> left the chat."` and the leaver's name. The leaver's channel is closed and its queue is untouched. |
| Room.ForwardStep | room.go:141-150 | A forwarded frame reaches every member exactly once, the originator included, as a `chatMessage` carrying the raw text and the user `SenderUsername`. Non-members receive nothing. |
| Server.NewClient | room.go:88-93 | The admitted client gets a new record holding exactly the freshly minted name `User<n>` (the counter's new value in decimal, no leading zero), an empty queue and an open channel. Membership and all other records are unchanged. |
| Server.NewNameDistinct | room.go:100-105 | A freshly minted name differs from every name handed out before. |
| Server.ConnectPreservesInv | room.go:88-94 | Admitting a connection never panics, adds exactly that client to the members and keeps the reachable-state invariant. |
| Server.ReceivePreservesInv | client.go:28-34 | Forwarding a frame from a member never panics, keeps the members and keeps the invariant. |
| Server.DisconnectPreservesInv | room.go:95 | A session's deferred leave never panics, removes exactly that client and keeps the invariant. |
| Server.ApplyPreservesInv | room.go:82-98 | `Apply` turns an action into the hub event it causes: ServeHTTP's admission and join (room.go:88-95), a read pump's forward, or the deferred leave. Every legal action from a reachable state keeps the invariant: no member's channel is closed, a channel is closed exactly when its client has left, and every name is exactly `User<n>` for a counter value handed out, with no two alike. |
| Server.RunPreservesInv | room.go:52-71 | `Run` applies actions one at a time, as the `run` loop does, until the first panic. A legal run from a reachable state never panics and keeps the invariant. Its members are the earlier members plus the clients it connected, minus those it disconnected. Departed clients' records are frozen. |
| Server.StartInv | room.go:30 | `Start`, the process's initial state, is `newRoom()` with the zero-valued name counter: no members, no clients, and the reachable-state invariant holds. |
| Server.MembershipFollowsJoinAndLeave | room.go:55-61 | From `Start` (a new room and the name counter at zero), the members are exactly the connected clients that have not disconnected, and no two clients share a name. |

## Left out

- Names.GenerateUniqueUser: does not model the wrap-around of the counter, a Go `int` (64 bits on 64-bit platforms). The counter is unbounded here. Overflow takes 2^63 connections on a 64-bit platform, and 2^31 on a 32-bit one, after which the names would turn negative.
- Room.Broadcast: treats sending to a queue as never blocking. The program's channels hold 256 payloads, and a send to a full channel blocks the hub. Queues here are unbounded.
- Backspace and form feed are escaped as `\u0008` and `\u000c`, as `encoding/json` did before Go 1.22. Later releases write `\b` and `\f`, and the Go version is not pinned by the repository. Both forms decode to the same text, and the decoder accepts both.
- Envelope.UnmarshalMarshal: models text as Unicode scalar values. The replacement of invalid UTF-8 by `encoding/json` in raw frames is not modelled.
- The write and read pumps' socket I/O, the WebSocket upgrade, the origin check and `main.go`'s routes are transport. A read pump appears only as the `Receive` action, and the write pump's draining of queues is not modelled. `main.go` never mounts the room's `ServeHTTP`.
- Concurrency is left out: the goroutines, the unbuffered channels and the mutex. In particular, the chat processor goroutine broadcasts while `run` handles the next event, so the program can touch the client map from two goroutines at once. Here a forwarded frame is broadcast atomically within its step.
- An upgrade failure calls `log.Fatal` and ends the process. No client is created, so this is not modelled.
- Logging of a `json.Marshal` error is dropped. The error branch itself is modelled (`Broadcast` with `None`), although marshalling a `ClientMessage` cannot fail.
- `Marshal` writes the type tag without escaping it. This is the same output, because escaping leaves the three tags unchanged (`Envelope.TypeNameNeedsNoEscape`).
- Client identities stand for Go pointers. A connection gets an identity never used before, which is the fresh allocation `&client{…}`.
