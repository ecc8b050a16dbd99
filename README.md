# go_chat room and auth gate, modelled in Dafny

This project models two pieces of the go_chat web chat server.

- `chat/room.go`: the chat room. A room keeps a set of member clients. Each
  client has an outbound `send` channel with room for `messageBufferSize`
  (256) messages. The room's loop `Room.Run` takes one request at a time:
  - a join puts the client into the set;
  - a leave removes the client and closes its channel;
  - a forward sends the message to every member.
- `chat/auth.go`: the access gate `AuthHandler.ServeHTTP` and its
  constructor `MustAuth`. The gate looks up the `auth` cookie:
  - if the cookie is missing, it redirects to `/login` with 307;
  - if the lookup fails in any other way, it answers 500 with the error text;
  - otherwise it hands the request, unchanged, to the wrapped handler.

## Files

- `room.dfy` (module `ChatRoom`) holds the room as a value and as a class.
  - The value is `State`: the members, plus the `send` channel of every client
    that has joined or left. A channel is an `Outbox`: its pending messages and
    whether it is closed.
  - The room's invariant is `Consistent`. A known client is a member exactly
    when its channel is open, and no channel holds more than 256 messages.
  - One iteration of the loop is one of `JoinStep`, `LeaveStep` and
    `ForwardStep`. `Step` picks the one the event selects. `Replay` runs the
    loop over a whole sequence of events.
  - The class `Room` has the source's mutable state: `clients` and the
    clients' channels. Its methods `Join`, `Leave`, `Forward` (the fan-out
    loop over the members), `Handle` and `Run` are each proved to produce
    exactly the state the matching function describes.
- `room_properties.dfy` (module `RoomProperties`) proves properties of the
  loop over event logs. Most are stated for logs the loop handles in full.
  `PrefixHandled` carries them over to the handled part of any log, one that
  stalls included. The properties cover:
  - membership counts;
  - what each channel ends up holding;
  - the order of delivery;
  - late joiners and departed clients;
  - that a room fed by real connections only ever stops on a full channel.
- `auth.dfy` (module `ChatAuth`) models the gate as a pure function from a
  request's cookie-lookup result to an outcome.

Modelling decisions:

- A `*Client` is represented by a `ClientId`. Distinct clients have distinct
  ids.
- The `select` over the `join`, `leave` and `forward` channels only
  serialises requests. It is represented by an explicit sequence of events,
  handled in order.
- A client's channel is made empty and open when the client is created
  (room.go:82). In the model the channel is created at the client's first
  join or leave.
- A send on a full channel blocks (room.go:60). Nothing in the model drains
  channels, so a blocked forward stays blocked. `ForwardStep` therefore
  requires `CanForward`: every member has fewer than 256 pending messages.
  `Replay` and `Room.Run` stop at the first forward that would block and
  report how many events they handled.
- Two kinds of event break the protocol, and the loop also stops at them.
  - A leave of a client whose channel is already closed: the source panics
    on the second `close`.
  - A join of a client that has left: the source would accept it, and its
    next send to the closed channel (room.go:60) or its next leave, a second
    `close` (room.go:54), would panic, whichever comes first.

  A leave of a client that has never joined is not a violation. In the
  source, `delete` of an absent key does nothing, and the client's channel,
  open since the client was made, is closed. In the model the leave records
  that client with a closed, empty channel and leaves the members alone.

  Each connection joins once and leaves once, with a deferred leave
  (room.go:85-86). `ConnectionsOnlyBlockOnFullChannel` proves that every log
  of such connections stops only on a full channel.
- When the loop stalls on a full channel, the stalled member stays a member:
  its leave is a request to that same stalled loop.

## Model

| member | source | states |
|---|---|---|
| ChatRoom.NewRoom | chat/room.go:34-42 | a new room has no members and no client channels, and satisfies the room invariant |
| ChatRoom.Room.constructor | chat/room.go:34-42 | the constructed room satisfies the invariant, is exactly the new-room state, and its `clients` set is empty |
| ChatRoom.JoinStepSpec | chat/room.go:47-50 | a join adds exactly its client to the members; the client's channel is open, and empty if the client is new; joining again leaves the state unchanged, so the size is unchanged; every other client and channel is unchanged |
| ChatRoom.JoinStep | chat/room.go:47-50 | a join keeps the invariant: a member's channel is open and holds at most 256 messages |
| ChatRoom.LeaveStepSpec | chat/room.go:51-53 | a leave (allowed unless the client's channel is already closed) takes the client out of the members; the room shrinks by one if the client was a member, which a client that has joined always is, and is unchanged otherwise |
| ChatRoom.LeaveClosesChannel | chat/room.go:53-54 | a leave closes the client's channel, holding what it held, which is nothing for a client that never joined; every other client's channel is unchanged |
| ChatRoom.LeaveStep | chat/room.go:51-55 | a leave keeps the invariant: the channel is closed exactly when its client is no longer a member |
| ChatRoom.ForwardStepSpec | chat/room.go:56-62 | a forward appends the message exactly once, at the end, to every member's channel, which stays open; the members and the channels of non-members, including departed clients, are unchanged |
| ChatRoom.ForwardStep | chat/room.go:56-69 | a forward that every member's channel has room for keeps every channel within its 256-message capacity |
| ChatRoom.Step | chat/room.go:46-63 | every iteration of the loop preserves the room invariant |
| ChatRoom.Replay | chat/room.go:44-65 | the loop over a log keeps the invariant and handles a prefix of the log; if it stops early, the event it stopped at breaks the protocol or is a forward that some member's full channel would block |
| ChatRoom.Room.Join | chat/room.go:47-50 | the method leaves the room in exactly the join state, with a new client's channel created empty |
| ChatRoom.Room.Leave | chat/room.go:51-55 | the method removes the client from the room and closes its channel (a new one for a client that never joined), giving exactly the leave state |
| ChatRoom.Room.Forward | chat/room.go:56-62 | the loop over the members sends the message to each member once, whatever order it visits them in; the result is exactly the forward state |
| ChatRoom.Room.Handle | chat/room.go:46-63 | one iteration of the `select` gives exactly the state of the matching case |
| ChatRoom.Room.Run | chat/room.go:44-65 | running the loop over a log leaves the room in the state, and with the count of handled events, that the log determines |
| RoomProperties.JoinsReplay | chat/room.go:47-50 | joins of clients that may join are all handled, and afterwards the members are the old members plus exactly the joined clients |
| RoomProperties.JoinsIntoNewRoom | chat/room.go:39-49 | joins into a new room are all handled, and the members are exactly the distinct joined clients, so a client that joins twice counts once |
| RoomProperties.DistinctCount | chat/room.go:39 | a list of clients without repetitions has as many distinct clients as it is long |
| RoomProperties.DistinctJoinsCount | chat/room.go:39-49 | N joins of distinct clients into a new room give N members |
| RoomProperties.StepForClient | chat/room.go:46-63 | per client, one event changes membership as the log says, and appends the message to the client's channel exactly when it is a forward and the client is a member |
| RoomProperties.DeliveredIsInbox | chat/room.go:56-62 | after a log is handled, a client's channel holds what it held before, followed by the message of every forward that happened while it was a member, in log order, and nothing else |
| RoomProperties.MembershipFollowsLog | chat/room.go:47-55 | after a log is handled, a client is a member exactly when the joins and leaves of the log say so |
| RoomProperties.PrefixHandled | chat/room.go:44-65 | wherever the loop stops, it handles the events before that point in full and reaches the same state, so the properties of fully handled logs hold of the handled part of every log |
| RoomProperties.DeliveredUntilStop | chat/room.go:56-62 | wherever the loop stops, stalled or not, a client's channel holds what it held before, followed by the message of every handled forward that happened while it was a member, in log order |
| RoomProperties.ReplaySplit | chat/room.go:44-65 | handling a prefix of a log and then the rest is the same as handling the whole log |
| RoomProperties.Between | chat/room.go:44-65 | from the state before event k, events k to l lead to the state before event l |
| RoomProperties.StepAt | chat/room.go:46-63 | the state before event k+1 is the state before event k with that event handled |
| RoomProperties.QueueGrows | chat/room.go:56-62 | a channel only grows: what it holds before an event is still at its front before any later event |
| RoomProperties.ForwardOrder | chat/room.go:56-62 | if forward i comes before forward j and the client is a member at both, its channel holds message i at an earlier position than message j |
| RoomProperties.DeliveredAt | chat/room.go:59-60 | a forward's message ends up in a member's channel right after what the channel held before that forward |
| RoomProperties.ForwardAt | chat/room.go:59-60 | a forward appends its message to the channel of a client that is a member when it is handled |
| RoomProperties.LateJoinerMissesForward | chat/room.go:56-62 | a client that has not joined when a forward is handled never gets that message: its channel ends up holding only messages forwarded later, while it was a member |
| RoomProperties.DeliveredFrom | chat/room.go:56-62 | from the state before event k on, a client receives exactly the messages forwarded in the rest of the log while it is a member |
| RoomProperties.StillUnknownAfter | chat/room.go:56-62 | a forward creates no channel: a client unknown before it is unknown and not a member after it |
| RoomProperties.DepartedQueueFrozen | chat/room.go:51-55 | a client whose channel is closed never becomes a member again, and its channel never changes |
| RoomProperties.LeaveIsFinal | chat/room.go:51-55 | after a leave its client is never a member again, and its channel stays closed holding exactly what it held when the client left |
| RoomProperties.LeftAt | chat/room.go:53-54 | right after a leave, the client's channel is closed and holds what it held before |
| RoomProperties.FrozenFrom | chat/room.go:51-62 | a channel closed at some point is, at the end, still closed and unchanged, and its client is not a member |
| RoomProperties.ConnectionLogAdmitted | chat/room.go:85-86 | a log where each connection joins once and then leaves at most once never breaks the protocol: where the loop stops, the event is one the protocol allows |
| RoomProperties.ConnectionStep | chat/room.go:85-86 | one event of such a connection log is allowed and keeps the log's record of known and departed clients in line with the room |
| RoomProperties.BlockedOnFullChannel | chat/room.go:60-82 | when the loop stops at an allowed event, that event is a forward and some member's channel holds exactly 256 messages |
| RoomProperties.ConnectionsOnlyBlockOnFullChannel | chat/room.go:56-86 | a room fed by such connections handles the whole log unless it stops on a forward while some member's channel is full |
| ChatAuth.ServeHTTP | chat/auth.go:11-26 | a missing cookie gives 307 with Location `/login`; any other lookup error gives 500 with the error's text; a found cookie, whatever its value, hands the unchanged request to `next`, and the gate writes nothing itself; each holds exactly when its condition does, so every request gets exactly one of the three |
| ChatAuth.MustAuth | chat/auth.go:28-32 | the gate built around a handler has that handler as `next` |
| ChatAuth.MustAuthGuards | chat/auth.go:11-32 | through the gate built by MustAuth, a request with the cookie reaches the wrapped handler, unchanged, and every other request never does |

## Left out

- Concurrency is left out: the `select` multiplexing, goroutines and
  channel blocking in `Room.Run` (room.go:45-46, 60). Events are a sequence
  handled in order, and a blocked send is a forward the loop stops at.
- Partial fan-out is not modelled. In the source, a forward can deliver to
  some members before blocking on a full channel. In the model, a forward
  that would block is detected before anything is sent.
- `Room.ServeHTTP` (room.go:74-89) is left out: the websocket upgrade, the
  `log.Fatal` on failure, and starting the pumps are I/O and concurrency
  glue. Its one join and one deferred leave per connection are the
  `ConnectionLog` predicate.
- The `read` and `write` pumps of chat/client.go are left out. They are
  socket I/O through gorilla/websocket. In the source the write pump
  (client.go:31-38) keeps draining a client's channel. Here nothing drains
  channels, so pending messages only accumulate. A member can be sent at
  most 256 messages over its whole membership, and the forward after that
  stops the loop for good. The properties of fully handled logs therefore
  speak only of logs within that bound. `PrefixHandled` and
  `DeliveredUntilStop` cover the handled part of longer logs.
- `Tracer.Trace` calls and `trace.Off()` are diagnostic side effects with
  no effect on the room's state, and are not modelled.
- `socketBufferSize` and `upgrader` (room.go:68, 72) are transport
  configuration, and are not modelled.
- `ChatRoom.Replay`: a join of a departed client is treated as a protocol
  violation at which the loop stops. The source would accept it and panic
  at its next send to that client (room.go:60) or at that client's next
  leave (room.go:54), whichever comes first. This cannot happen with real
  connections, because each connection makes a fresh client.
- In auth.go, real `http.Request` and `http.ResponseWriter` objects are not
  modelled. A request is its cookie-lookup result, and a response is an
  `Outcome` value.
- `ChatAuth.ServeHTTP`: it does not model what `http.Error` adds itself: the
  `Content-Type` and `X-Content-Type-Options` headers, and the newline after
  the body text. That is net/http library behaviour.
- Cookie parsing inside `r.Cookie` is net/http library code, and is not
  modelled.
