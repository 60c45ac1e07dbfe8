# Connection coordinator of a WebRTC signalling server — Dafny model

This project models the connection coordinator of a Rust WebRTC signalling
server: the single task that owns every live peer connection and every
buffer of locally gathered ICE candidates, and processes one
`ConnectionMessage` at a time off a queue.

- `messages.dfy` (module `Messages`): the `ConnectionMessage` enum and the
  ICE candidate record.
- `id_allocator.dfy` (module `IdAllocator`): `get_id` / `get_id_with_count`.
  Random values are a supplied sequence of draws.
- `connection.dfy` (module `PeerConnection`): `Connection::new`, the two
  engine callbacks it registers (ICE candidate, peer-connection state) and
  the `connect` negotiation chain. The peer-connection engine is opaque:
  its answers are parameters.
- `manager.dfy` (module `MessageManager`): the message loop. A pure `State`
  and one function per `match` arm state each rule. `Next` applies one
  message and `Run` a whole queue. The class `Manager` keeps `connections`
  and `candidates` as fields. Its `Step` and `Serve` update them in place
  and are proved to agree with `Next` and `Run`.
- `manager_properties.dfy` (module `ManagerProperties`): properties that
  span several messages.

Besides the two maps, the state records the engine calls made on
registered connections: `closed` holds the ids whose connection was
closed, and `forwarded` holds the remote candidates handed to a
connection. It also records whether the loop still runs. A panic in
`Connection::new` ends the loop, and a message sent after that is never
answered.

The model follows the code as written, including these behaviours:
- ids are not checked against live sessions, because the static `IDS` is
  empty and never written. A new connection can therefore replace a live
  one with the same id, and the replaced one is never closed
  (`LiveIdReused`);
- there is no lifecycle-state enum. Only `Disconnected` leads to a
  message; `Failed` is only printed;
- `AddRemoteCandidate` for an unknown id is acknowledged like any other.
  There is no "unknown session" reply;
- closing a connection leaves its candidate buffer in place
  (`BufferOutlivesClose`);
- `NewConnection` registers no candidate buffer. Buffers are created by
  the first local candidate, for any id.

## Model

| member | source | states |
|---|---|---|
| IdAllocator.GetIdWithCount | server/src/connections/manager.rs:54-68 | the result is the first draw, within the attempts left before the limit of 100, that is not in the id list; the allocator panics exactly when every one of those draws collides |
| IdAllocator.GetId | server/src/connections/manager.rs:50-67 | with the empty, never-written id list, the first draw is always returned and the allocator never panics |
| PeerConnection.OnIceCandidate | server/src/connections/connection.rs:58-76 | a message is sent only for a gathered candidate that serialises, and it is `AddLocalCandidate` with the connection's id and that candidate; end of gathering and a failed `to_json` send nothing |
| PeerConnection.OnPeerStateChange | server/src/connections/connection.rs:90-104 | exactly the `Disconnected` state sends one `ConnectionClosed` with the connection's id; every other state, `Failed` included, sends nothing |
| PeerConnection.CreateConnection | server/src/connections/connection.rs:39-108 | succeeds exactly when the engine creates a peer connection; the connection keeps that handle, takes the first draw as its id, and both callbacks are registered with that id |
| PeerConnection.NewNeverErrs | server/src/connections/connection.rs:51-55 | `Connection::new` never returns `Err`; it panics exactly when the engine fails to create the peer connection |
| PeerConnection.CallbacksCarryOwnId | server/src/connections/connection.rs:53-107 | every message the callbacks of a new connection send carries the id stored in that connection |
| PeerConnection.Connect | server/src/connections/connection.rs:144-156 | the steps are tried in order: parse offer, set remote description, create answer. A step runs only if every earlier step passed, and the chain stops at the first failure. The result is the engine's answer exactly when all three pass |
| PeerConnection.LocalDescriptionIgnored | server/src/connections/connection.rs:150-156 | a failing `set_local_description` does not change the outcome of `connect` |
| MessageManager.HandleNewConnection | server/src/connections/manager.rs:88-110 | engine failure panics and stops the loop. If negotiation fails, the reply is `None` and the state is unchanged. On success, the reply is the answer with the new id, and the connection is registered under that id, replacing any previous entry; nothing else changes |
| MessageManager.HandleAddRemoteCandidate | server/src/connections/manager.rs:111-125 | always acknowledged; neither map changes; the candidate reaches a connection exactly when one is registered under the id |
| MessageManager.HandleAddLocalCandidate | server/src/connections/manager.rs:126-137 | for any id, the buffer (empty if missing) gets the candidate at its tail; every other buffer and all connections stay; always acknowledged |
| MessageManager.HandleGetIceCandidates | server/src/connections/manager.rs:138-143 | returns the whole buffer for the id, or `None` when there is none, and removes it; other buffers and the connections stay |
| MessageManager.HandleConnectionClosed | server/src/connections/manager.rs:144-154 | an unknown id changes nothing; a registered one is closed once and exactly its entry is removed; the buffers stay |
| MessageManager.HandleCleanup | server/src/connections/manager.rs:155-161 | every registered connection is closed exactly once, no connection remains, the buffers stay |
| MessageManager.Next | server/src/connections/manager.rs:86-168 | a stopped loop answers nothing and changes nothing; `DataChannel` and `DataMessage` change nothing; once stopped the loop stays stopped; every connection stays keyed by its own id with callbacks bound to it |
| MessageManager.Run | server/src/connections/manager.rs:86-169 | one reply per message (the fold processes them in queue order); the loop never restarts; the keyed-by-own-id invariant holds throughout |
| MessageManager.Manager.constructor | server/src/connections/manager.rs:82-84 | the loop starts with no connections, no buffers and no engine calls |
| MessageManager.Manager.Step | server/src/connections/manager.rs:87-168 | the in-place update of the two maps for one message equals `Next` |
| MessageManager.Manager.CloseAll | server/src/connections/manager.rs:156-158 | the `Cleanup` loop closes each registered connection once, in any order |
| MessageManager.Manager.Serve | server/src/connections/manager.rs:86-169 | the loop over a queue of messages equals `Run` |
| ManagerProperties.LocalCandidatesKeepOrder | server/src/connections/manager.rs:126-143 | appending `c1` then `c2` for one id and draining returns the old buffer followed by `[c1, c2]` |
| ManagerProperties.SecondDrainFindsNothing | server/src/connections/manager.rs:138-143 | a second drain with no append in between returns `None` and changes nothing |
| ManagerProperties.ClosedIdIsUnknown | server/src/connections/manager.rs:111-154 | after `ConnectionClosed(id)`, a remote candidate for `id` reaches no connection and only gets an acknowledgement, as for an unknown id |
| ManagerProperties.BufferOutlivesClose | server/src/connections/manager.rs:138-154 | closing a connection keeps its candidate buffer, so a later drain still returns it |
| ManagerProperties.RemoteCandidateVerdictIgnored | server/src/connections/manager.rs:116-124 | the engine's verdict on a remote candidate has no effect on state or reply |
| ManagerProperties.LiveIdReused | server/src/connections/manager.rs:88-110 | a new connection drawing a live id replaces the live connection in the map without closing it |
| ManagerProperties.CleanupClosesEveryConnection | server/src/connections/manager.rs:155-161 | after `Cleanup` no connection is registered, the buffers are unchanged, and the closes made are exactly one per registered id |
| ManagerProperties.QueueAppendsInOrder | server/src/connections/manager.rs:86-143 | the loop processes a queue that never drains `id`. Then `id`'s buffer grows by exactly the local candidates queued for it, in queue order |
| ManagerProperties.StoppedLoopIgnoresQueue | server/src/connections/manager.rs:86-169 | once the loop has stopped, no later message changes anything or gets a reply |
| ManagerProperties.RunFromInitialIsConsistent | server/src/connections/manager.rs:82-109 | from the start state, every registered connection is stored under its own id, with callbacks bound to it |

## Left out

- The peer-connection engine: SDP parsing, ICE gathering, the STUN
  configuration, `MediaEngine`/`APIBuilder` setup and the data-channel
  `on_open`/`on_message` handlers. These are foreign library calls. Each
  result the coordinator sees is a parameter (`Env`, `Negotiation`,
  `GatheredCandidate`).
- The offer text of `NewConnection` is passed only to the engine. The
  engine's verdicts on it are parameters, so the model does not read it.
- Asynchrony and channels: tokio `mpsc`/`oneshot`, `.await`, and the boxed
  callbacks. The loop is a sequential `Step` over a queue. A reply channel
  is the reply value. A send to a dropped receiver is ignored in the
  source, so it is not modelled.
- The wait for a data channel in `connect` (`data_rx.recv()`) is modelled
  as a step that always passes and ends, because its result is discarded.
  As written, the wait lasts until the browser's data channel opens, and
  nothing else closes that channel; until then the loop sends no reply and
  processes no later message. The model assumes the wait ends.
- Printing (`println!`), including the printed error of
  `add_ice_candidate` and the contents of `DataMessage`.
- Random number generation: draws are supplied as a sequence. The
  requirement that the sequence is long enough (`Supplied`) stands for a
  generator that never runs dry.
- Dropping a `Connection` whose negotiation failed releases its engine
  handle without an explicit close. The model records only explicit closes.
- The older revision `server/src/connection_manager.rs`, the HTTP server
  bootstrap `server/src/main.rs` and the browser client are not part of
  this model.
