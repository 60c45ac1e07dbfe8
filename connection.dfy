/**
  One peer connection (server/src/connections/connection.rs): how
  `Connection::new` builds it, which engine events its callbacks turn into
  coordinator messages, and how `connect` turns an offer into an answer.

  The peer-connection engine is opaque. Its answers are parameters:
  whether it could create a peer connection (`Option<nat>`, the handle), and
  for `connect` whether it accepted each negotiation step (`Negotiation`).
  The closures `Connection::new` registers on the engine are represented by
  the id they capture, stored in the `Peer` handle they were registered on.
*/
module PeerConnection {
  import opened Wrappers
  import opened Messages
  import opened IdAllocator

  /** The engine's `RTCPeerConnectionState`. */
  datatype PeerState = Unspecified | New | Connecting | Connected | Disconnected | Failed | Closed

  /**
    An engine peer connection: its opaque handle and, for each callback the
    coordinator registered on it, the session id that callback captured.
  */
  datatype Peer = Peer(handle: nat, iceCandidateHandler: Option<u32>, stateChangeHandler: Option<u32>)

  /** `Connection { pc, tx, id }`; `tx` is the coordinator's one queue. */
  datatype Connection = Connection(pc: Peer, id: u32)

  /** A candidate the engine gathered; `toJson` is the result of its `to_json`. */
  datatype GatheredCandidate = GatheredCandidate(toJson: Option<Candidate>)

  /** Both callbacks of `c`'s peer connection were registered with `c`'s own id. */
  predicate Bound(c: Connection)
  {
    c.pc.iceCandidateHandler == Some(c.id) && c.pc.stateChangeHandler == Some(c.id)
  }

  /**
    The `on_ice_candidate` callback of the connection with id `id`. The
    engine passes no candidate when gathering ends; a candidate that cannot
    be serialised is dropped.
  */
  function OnIceCandidate(id: u32, event: Option<GatheredCandidate>): (m: Option<ConnectionMessage>)
    ensures m.Some? <==> event.Some? && event.value.toJson.Some?
    ensures m.Some? ==> m.value == AddLocalCandidate(id, event.value.toJson.value)
  {
    match event
    case None => None
    case Some(gathered) =>
      match gathered.toJson
      case None => None
      case Some(candidate) => Some(AddLocalCandidate(id, candidate))
  }

  /**
    The `on_peer_connection_state_change` callback of the connection with id
    `id`: only `Disconnected` is reported to the coordinator; `Failed` is
    only printed.
  */
  function OnPeerStateChange(id: u32, state: PeerState): (m: Option<ConnectionMessage>)
    ensures m.Some? <==> state == Disconnected
    ensures m.Some? ==> m.value == ConnectionClosed(id)
  {
    if state == Disconnected then Some(ConnectionClosed(id)) else None
  }

  /** What the engine's ICE-candidate event on `pc` becomes: whatever its registered callback sends. */
  function DispatchIceCandidate(pc: Peer, event: Option<GatheredCandidate>): Option<ConnectionMessage>
  {
    match pc.iceCandidateHandler
    case None => None
    case Some(id) => OnIceCandidate(id, event)
  }

  /** What the engine's state-change event on `pc` becomes. */
  function DispatchStateChange(pc: Peer, state: PeerState): Option<ConnectionMessage>
  {
    match pc.stateChangeHandler
    case None => None
    case Some(id) => OnPeerStateChange(id, state)
  }

  /** `Connection::new` returns `Ok`, returns `Err`, or panics. */
  datatype NewOutcome = NewOk(conn: Connection) | NewErr | NewPanic

  /**
    `Connection::new`. `created` is the engine's `new_peer_connection`
    result; the id comes from `get_id` before that result is unwrapped, so
    an engine failure is a panic and never an `Err`. The callbacks are
    registered on the fresh peer connection with the id that is stored in
    the result.
  */
  function CreateConnection(created: Option<nat>, draws: seq<u32>): (r: NewOutcome)
    requires |draws| >= RetryLimit as int
    ensures r.NewOk? <==> created.Some?
    ensures r.NewOk? ==> r.conn.id == draws[0] && r.conn.pc.handle == created.value && Bound(r.conn)
  {
    match GetId(draws)
    case Exhausted => NewPanic
    case Drawn(id) =>
      match created
      case None => NewPanic
      case Some(handle) =>
        var pc := Peer(handle, None, None);
        var pc := pc.(iceCandidateHandler := Some(id));
        var pc := pc.(stateChangeHandler := Some(id));
        NewOk(Connection(pc, id))
  }

  /** `Connection::new` never returns `Err`: its one failure panics instead. */
  lemma NewNeverErrs(created: Option<nat>, draws: seq<u32>)
    requires |draws| >= RetryLimit as int
    ensures !CreateConnection(created, draws).NewErr?
    ensures CreateConnection(created, draws).NewPanic? <==> created.None?
  {
  }

  /**
    Every message the callbacks of a freshly created connection send is
    tagged with the id stored in that connection.
  */
  lemma CallbacksCarryOwnId(created: Option<nat>, draws: seq<u32>, event: Option<GatheredCandidate>, state: PeerState)
    requires |draws| >= RetryLimit as int
    requires CreateConnection(created, draws).NewOk?
    ensures var c := CreateConnection(created, draws).conn;
      DispatchIceCandidate(c.pc, event) == OnIceCandidate(c.id, event) &&
      DispatchStateChange(c.pc, state) == OnPeerStateChange(c.id, state)
    ensures var c := CreateConnection(created, draws).conn;
      var m := DispatchIceCandidate(c.pc, event);
      m.Some? ==> m.value.AddLocalCandidate? && m.value.id == c.id
    ensures var c := CreateConnection(created, draws).conn;
      var m := DispatchStateChange(c.pc, state);
      m.Some? ==> m.value == ConnectionClosed(c.id)
  {
  }

  /** The engine's verdict on each step of `connect`. `answer` is the SDP of `create_answer`, if it succeeded. */
  datatype Negotiation = Negotiation(offerValid: bool, remoteSet: bool, answer: Option<string>, localSet: bool)

  /** The engine calls `connect` makes, in order. */
  datatype NegotiationCall = ParseOffer | SetRemoteDescription | CreateAnswer | SetLocalDescription | AwaitDataChannel

  const Chain: seq<NegotiationCall> :=
    [ParseOffer, SetRemoteDescription, CreateAnswer, SetLocalDescription, AwaitDataChannel]

  /** Whether `connect` goes on after `call`: the results of the last two are discarded. */
  predicate Passes(n: Negotiation, call: NegotiationCall)
  {
    match call
    case ParseOffer => n.offerValid
    case SetRemoteDescription => n.remoteSet
    case CreateAnswer => n.answer.Some?
    case SetLocalDescription => true
    case AwaitDataChannel => true
  }

  /** The three steps whose failure `connect` propagates all succeed. */
  predicate Accepts(n: Negotiation)
  {
    n.offerValid && n.remoteSet && n.answer.Some?
  }

  /** `connect`'s answer, and the engine calls it attempted. */
  datatype ConnectRun = ConnectRun(answer: Option<string>, attempted: seq<NegotiationCall>)

  /**
    `connect`: a chain of early returns. A step is attempted only when every
    earlier step passed, the chain stops at the first failure, and the answer
    is the engine's only when the offer parses, the remote description is
    set and an answer is created.
  */
  function Connect(n: Negotiation): (r: ConnectRun)
    ensures 0 < |r.attempted| && r.attempted <= Chain
    ensures forall i :: 0 <= i < |r.attempted| - 1 ==> Passes(n, r.attempted[i])
    ensures r.answer.None? <==> !Passes(n, r.attempted[|r.attempted| - 1])
    ensures r.answer.Some? <==> Accepts(n)
    ensures r.answer.Some? ==> r.answer == n.answer && r.attempted == Chain
  {
    if !n.offerValid then ConnectRun(None, Chain[..1])
    else if !n.remoteSet then ConnectRun(None, Chain[..2])
    else if n.answer.None? then ConnectRun(None, Chain[..3])
    else ConnectRun(Some(n.answer.value), Chain)
  }

  /** A failure of `set_local_description` changes nothing. */
  lemma LocalDescriptionIgnored(n: Negotiation, localSet: bool)
    ensures Connect(n.(localSet := localSet)) == Connect(n)
  {
  }
}
