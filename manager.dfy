/**
  The coordinator's message loop, `start_message_manager` in
  server/src/connections/manager.rs.

  The loop owns two maps, `connections` and `candidates`, and applies one
  rule per message kind. The rules are stated once as functions over a
  `State` value (one `Handle...` function per `match` arm, `Next` for one
  message, `Run` for a queue of them); the class `Manager` holds the maps as
  fields and updates them in place, and its methods are proved to follow
  those functions.

  Besides the two maps, a `State` records what the loop asks of the engine
  for registered connections (`closed`: the ids whose connection was closed;
  `forwarded`: the remote candidates handed to a connection) and whether the
  loop is still running: a panic inside `Connection::new` ends it.
*/
module MessageManager {
  import opened Wrappers
  import opened Messages
  import opened IdAllocator
  import opened PeerConnection

  /**
    What the engine and the random generator do while one message is
    processed: `newPeer` is `new_peer_connection`'s result, `draws` the
    random values `get_id` would see, `negotiation` the verdicts `connect`
    gets, `remoteAddOk` the result of `add_ice_candidate`.
  */
  datatype Env = Env(newPeer: Option<nat>, draws: seq<u32>, negotiation: Negotiation, remoteAddOk: bool)

  /** The random generator never runs dry: every attempt `get_id` may make has a draw. */
  predicate Supplied(env: Env)
  {
    |env.draws| >= RetryLimit as int
  }

  datatype State = State(
    connections: map<u32, Connection>,
    candidates: map<u32, seq<Candidate>>,
    closed: multiset<u32>,
    forwarded: seq<(u32, Candidate)>,
    running: bool)

  /**
    What the sender of a message receives on its reply channel.
    `NoResp`: the message has no reply channel. `RespDropped`: the loop
    panicked or had already stopped, so the reply channel is dropped unsent.
  */
  datatype Reply =
    | NewConnectionResp(answer: Option<(string, u32)>)
    | AckResp
    | CandidatesResp(found: Option<seq<Candidate>>)
    | NoResp
    | RespDropped

  datatype Outcome = Outcome(state: State, reply: Reply)

  /** The state the loop starts in. */
  function Initial(): State
  {
    State(map[], map[], multiset{}, [], true)
  }

  /** The local candidates buffered for `id`; an absent buffer reads as empty. */
  function Buffered(s: State, id: u32): seq<Candidate>
  {
    if id in s.candidates then s.candidates[id] else []
  }

  /**
    Every registered connection is stored under its own id, and its callbacks
    report under that id.
  */
  predicate Consistent(s: State)
  {
    forall k :: k in s.connections ==> s.connections[k].id == k && Bound(s.connections[k])
  }

  /**
    `NewConnection`: build a connection, negotiate, and register the
    connection under its id only when both succeed, replacing any connection
    already registered under that id. A panic of `Connection::new` (the
    engine refused to create a peer connection) stops the loop.
  */
  function HandleNewConnection(s: State, env: Env): (o: Outcome)
    requires Supplied(env)
    ensures env.newPeer.None? ==> o == Outcome(s.(running := false), RespDropped)
    ensures env.newPeer.Some? && !Accepts(env.negotiation) ==> o == Outcome(s, NewConnectionResp(None))
    ensures env.newPeer.Some? && Accepts(env.negotiation) ==>
      var id := env.draws[0];
      && o.reply == NewConnectionResp(Some((env.negotiation.answer.value, id)))
      && o.state.connections.Keys == s.connections.Keys + {id}
      && o.state.connections - {id} == s.connections - {id}
      && o.state.connections[id].id == id
      && o.state.connections[id].pc.handle == env.newPeer.value
      && Bound(o.state.connections[id])
      && o.state.(connections := s.connections) == s
  {
    match CreateConnection(env.newPeer, env.draws)
    case NewPanic => Outcome(s.(running := false), RespDropped)
    case NewErr => Outcome(s, NewConnectionResp(None))
    case NewOk(connection) =>
      var run := Connect(env.negotiation);
      match run.answer
      case None => Outcome(s, NewConnectionResp(None))
      case Some(answer) =>
        Outcome(s.(connections := s.connections[connection.id := connection]),
                NewConnectionResp(Some((answer, connection.id))))
  }

  /**
    `AddRemoteCandidate`: a candidate for a registered connection is handed
    to it; the engine's verdict is only printed. Neither map changes and the
    sender is always acknowledged, also for an unknown id.
  */
  function HandleAddRemoteCandidate(s: State, id: u32, candidate: Candidate, engineOk: bool): (o: Outcome)
    ensures o.reply == AckResp
    ensures o.state.connections == s.connections && o.state.candidates == s.candidates
    ensures id in s.connections ==> o.state.forwarded == s.forwarded + [(id, candidate)]
    ensures id !in s.connections ==> o.state == s
    ensures o.state.(forwarded := s.forwarded) == s
  {
    if id in s.connections then
      Outcome(s.(forwarded := s.forwarded + [(id, candidate)]), AckResp)
    else
      Outcome(s, AckResp)
  }

  /**
    `AddLocalCandidate`: the buffer for `id` is created empty when missing and
    the candidate goes at its tail, whether or not a connection is registered
    under `id`. Every other buffer and the connections stay as they are.
  */
  function HandleAddLocalCandidate(s: State, id: u32, candidate: Candidate): (o: Outcome)
    ensures o.reply == AckResp
    ensures id in o.state.candidates
    ensures o.state.candidates[id] == Buffered(s, id) + [candidate]
    ensures o.state.candidates - {id} == s.candidates - {id}
    ensures o.state.(candidates := s.candidates) == s
  {
    var candidates := if id !in s.candidates then s.candidates[id := []] else s.candidates;
    Outcome(s.(candidates := candidates[id := candidates[id] + [candidate]]), AckResp)
  }

  /**
    `GetIceCandidates`: the whole buffer for `id` is removed and returned at
    once (`None` when there is none); nothing else changes.
  */
  function HandleGetIceCandidates(s: State, id: u32): (o: Outcome)
    ensures o.reply.CandidatesResp?
    ensures o.reply.found.Some? <==> id in s.candidates
    ensures o.reply.found.Some? ==> o.reply.found.value == s.candidates[id]
    ensures id !in o.state.candidates
    ensures o.state.candidates - {id} == s.candidates - {id}
    ensures o.state.(candidates := s.candidates) == s
  {
    var found := if id in s.candidates then Some(s.candidates[id]) else None;
    Outcome(s.(candidates := s.candidates - {id}), CandidatesResp(found))
  }

  /**
    `ConnectionClosed`: an unknown id is ignored; a registered connection is
    closed and its entry removed. Its candidate buffer stays.
  */
  function HandleConnectionClosed(s: State, id: u32): (o: Outcome)
    ensures o.reply == NoResp
    ensures id !in s.connections ==> o.state == s
    ensures id in s.connections ==>
      && o.state.connections.Keys == s.connections.Keys - {id}
      && o.state.connections - {id} == s.connections - {id}
      && o.state.closed == s.closed + multiset{id}
      && o.state.(connections := s.connections, closed := s.closed) == s
  {
    if id !in s.connections then
      Outcome(s, NoResp)
    else
      Outcome(s.(closed := s.closed + multiset{id}, connections := s.connections - {id}), NoResp)
  }

  /**
    `Cleanup`: every registered connection is closed once and the map is
    cleared; the candidate buffers stay.
  */
  function HandleCleanup(s: State): (o: Outcome)
    ensures o.reply == NoResp
    ensures o.state.connections == map[]
    ensures forall k :: k in s.connections ==> o.state.closed[k] == s.closed[k] + 1
    ensures forall k :: k !in s.connections ==> o.state.closed[k] == s.closed[k]
    ensures o.state.(connections := s.connections, closed := s.closed) == s
  {
    Outcome(s.(closed := s.closed + multiset(s.connections.Keys), connections := map[]), NoResp)
  }

  /**
    One turn of the loop. A stopped loop processes nothing. `DataChannel` and
    `DataMessage` change nothing (the second is only printed).
  */
  function Next(s: State, msg: ConnectionMessage, env: Env): (o: Outcome)
    requires msg.NewConnection? ==> Supplied(env)
    ensures !s.running ==> o == Outcome(s, RespDropped)
    ensures s.running && (msg.DataChannel? || msg.DataMessage?) ==> o == Outcome(s, NoResp)
    ensures o.state.running ==> s.running
    ensures !o.state.running ==> o.reply == RespDropped
    ensures Consistent(s) ==> Consistent(o.state)
  {
    if !s.running then
      Outcome(s, RespDropped)
    else
      match msg
      case NewConnection(_) => HandleNewConnection(s, env)
      case AddRemoteCandidate(id, candidate) => HandleAddRemoteCandidate(s, id, candidate, env.remoteAddOk)
      case AddLocalCandidate(id, candidate) => HandleAddLocalCandidate(s, id, candidate)
      case GetIceCandidates(id) => HandleGetIceCandidates(s, id)
      case ConnectionClosed(id) => HandleConnectionClosed(s, id)
      case Cleanup => HandleCleanup(s)
      case DataChannel(_, _) => Outcome(s, NoResp)
      case DataMessage(_, _) => Outcome(s, NoResp)
  }

  /** A message taken off the queue, with what the engine does while it is processed. */
  datatype Event = Event(msg: ConnectionMessage, env: Env)

  predicate Deliverable(events: seq<Event>)
  {
    forall i :: 0 <= i < |events| ==> events[i].msg.NewConnection? ==> Supplied(events[i].env)
  }

  datatype RunOutcome = RunOutcome(state: State, replies: seq<Reply>)

  /**
    The loop over a queue: messages are processed one at a time in arrival
    order, and each gets one reply.
  */
  function Run(s: State, events: seq<Event>): (r: RunOutcome)
    requires Deliverable(events)
    ensures |r.replies| == |events|
    ensures r.state.running ==> s.running
    ensures Consistent(s) ==> Consistent(r.state)
    decreases |events|
  {
    if events == [] then
      RunOutcome(s, [])
    else
      var before := Run(s, events[..|events| - 1]);
      var last := events[|events| - 1];
      var o := Next(before.state, last.msg, last.env);
      RunOutcome(o.state, before.replies + [o.reply])
  }

  /** The loop's state, held in fields that its methods update in place. */
  class Manager {
    var connections: map<u32, Connection>
    var candidates: map<u32, seq<Candidate>>
    ghost var closed: multiset<u32>
    ghost var forwarded: seq<(u32, Candidate)>
    var running: bool

    ghost function Model(): State
      reads this
    {
      State(connections, candidates, closed, forwarded, running)
    }

    constructor ()
      ensures Model() == Initial()
    {
      connections := map[];
      candidates := map[];
      closed := multiset{};
      forwarded := [];
      running := true;
    }

    /** One `match` of the loop, applied to the fields in place. */
    method Step(msg: ConnectionMessage, env: Env) returns (reply: Reply)
      requires msg.NewConnection? ==> Supplied(env)
      modifies this
      ensures Outcome(Model(), reply) == Next(old(Model()), msg, env)
    {
      if !running {
        return RespDropped;
      }
      match msg
      case NewConnection(_) =>
        var created := CreateConnection(env.newPeer, env.draws);
        match created {
          case NewPanic =>
            running := false;
            reply := RespDropped;
          case NewErr =>
            reply := NewConnectionResp(None);
          case NewOk(connection) =>
            var answer := Connect(env.negotiation).answer;
            if answer.None? {
              reply := NewConnectionResp(None);
            } else {
              reply := NewConnectionResp(Some((answer.value, connection.id)));
              connections := connections[connection.id := connection];
            }
        }
      case AddRemoteCandidate(id, candidate) =>
        if id in connections {
          // the engine's verdict env.remoteAddOk is only printed
          forwarded := forwarded + [(id, candidate)];
        }
        reply := AckResp;
      case AddLocalCandidate(id, candidate) =>
        if id !in candidates {
          candidates := candidates[id := []];
        }
        candidates := candidates[id := candidates[id] + [candidate]];
        reply := AckResp;
      case GetIceCandidates(id) =>
        var found := if id in candidates then Some(candidates[id]) else None;
        candidates := candidates - {id};
        reply := CandidatesResp(found);
      case ConnectionClosed(id) =>
        reply := NoResp;
        if id !in connections {
          return;
        }
        closed := closed + multiset{id};
        connections := connections - {id};
      case Cleanup =>
        CloseAll();
        connections := map[];
        reply := NoResp;
      case DataChannel(_, _) =>
        reply := NoResp;
      case DataMessage(_, _) =>
        reply := NoResp;
    }

    /** The `for` loop of `Cleanup`: close every registered connection, in no particular order. */
    method CloseAll()
      modifies this`closed
      ensures closed == old(closed) + multiset(connections.Keys)
    {
      var pending := connections.Keys;
      while pending != {}
        invariant pending <= connections.Keys
        invariant closed == old(closed) + multiset(connections.Keys - pending)
        decreases pending
      {
        var id :| id in pending;
        closed := closed + multiset{id};
        ghost var done := connections.Keys - pending;
        assert connections.Keys - (pending - {id}) == done + {id};
        pending := pending - {id};
      }
    }

    /** The `while let` loop over a queue of messages. */
    method Serve(events: seq<Event>) returns (replies: seq<Reply>)
      requires Deliverable(events)
      modifies this
      ensures RunOutcome(Model(), replies) == Run(old(Model()), events)
    {
      replies := [];
      var i := 0;
      while i < |events|
        invariant 0 <= i <= |events|
        invariant RunOutcome(Model(), replies) == Run(old(Model()), events[..i])
      {
        var reply := Step(events[i].msg, events[i].env);
        replies := replies + [reply];
        assert events[..i + 1][..i] == events[..i];
        i := i + 1;
      }
      assert events[..i] == events;
    }
  }
}
