/**
  Properties of the coordinator's message loop that relate several messages:
  buffering order, exhaustive drains, what a closed or reused id means, and
  what a whole queue does to one session's candidate buffer.
*/
module ManagerProperties {
  import opened Wrappers
  import opened Messages
  import opened PeerConnection
  import opened MessageManager

  /** Two local candidates for one id, then a drain: the drain ends with both, in arrival order. */
  lemma LocalCandidatesKeepOrder(s: State, id: u32, c1: Candidate, c2: Candidate, e1: Env, e2: Env, e3: Env)
    requires s.running
    ensures
      var s1 := Next(s, AddLocalCandidate(id, c1), e1).state;
      var s2 := Next(s1, AddLocalCandidate(id, c2), e2).state;
      var r := Next(s2, GetIceCandidates(id), e3).reply;
      && r == CandidatesResp(Some(Buffered(s, id) + [c1, c2]))
      && r.found.value[|r.found.value| - 2..] == [c1, c2]
  {
    var s1 := Next(s, AddLocalCandidate(id, c1), e1).state;
    var s2 := Next(s1, AddLocalCandidate(id, c2), e2).state;
    assert s2.candidates[id] == Buffered(s, id) + [c1] + [c2];
    var drained := Buffered(s, id) + [c1, c2];
    assert Buffered(s, id) + [c1] + [c2] == drained;
    assert Next(s2, GetIceCandidates(id), e3).reply == CandidatesResp(Some(drained));
    assert drained[|drained| - 2..] == [c1, c2];
  }

  /** A drain empties the buffer: a second drain with nothing appended in between finds nothing. */
  lemma SecondDrainFindsNothing(s: State, id: u32, e1: Env, e2: Env)
    requires s.running
    ensures
      var o1 := Next(s, GetIceCandidates(id), e1);
      var o2 := Next(o1.state, GetIceCandidates(id), e2);
      && o1.reply == CandidatesResp(if id in s.candidates then Some(s.candidates[id]) else None)
      && o2.reply == CandidatesResp(None)
      && o2.state == o1.state
  {
  }

  /**
    Once `ConnectionClosed(id)` has removed a connection, a remote candidate
    for `id` is acknowledged and reaches no connection, as for an id never
    registered.
  */
  lemma ClosedIdIsUnknown(s: State, id: u32, candidate: Candidate, e1: Env, e2: Env)
    requires s.running
    ensures
      var s1 := Next(s, ConnectionClosed(id), e1).state;
      && id !in s1.connections
      && Next(s1, AddRemoteCandidate(id, candidate), e2) == Outcome(s1, AckResp)
  {
  }

  /**
    Closing a connection does not discard its candidate buffer: a drain
    after the close still returns what was buffered before it.
  */
  lemma BufferOutlivesClose(s: State, id: u32, e1: Env, e2: Env)
    requires s.running && id in s.connections && id in s.candidates
    ensures
      var s1 := Next(s, ConnectionClosed(id), e1).state;
      && id !in s1.connections
      && Next(s1, GetIceCandidates(id), e2).reply == CandidatesResp(Some(s.candidates[id]))
  {
  }

  /** The engine's verdict on a remote candidate has no effect on the loop. */
  lemma RemoteCandidateVerdictIgnored(s: State, id: u32, candidate: Candidate, env: Env)
    ensures
      Next(s, AddRemoteCandidate(id, candidate), env) ==
      Next(s, AddRemoteCandidate(id, candidate), env.(remoteAddOk := !env.remoteAddOk))
  {
  }

  /**
    Ids are not unique among live sessions: when the first draw equals the
    id of a live session and the negotiation succeeds, the new connection
    replaces the live one in the map, which is never closed.
  */
  lemma LiveIdReused(s: State, offer: string, env: Env)
    requires s.running && Supplied(env) && env.draws[0] in s.connections
    requires env.newPeer.Some? && Accepts(env.negotiation)
    ensures
      var id := env.draws[0];
      var o := Next(s, NewConnection(offer), env);
      && o.reply == NewConnectionResp(Some((env.negotiation.answer.value, id)))
      && o.state.connections.Keys == s.connections.Keys
      && o.state.connections[id].pc.handle == env.newPeer.value
      && o.state.closed == s.closed
  {
  }

  /** `Cleanup` closes each registered connection once and leaves none registered; buffers stay. */
  lemma CleanupClosesEveryConnection(s: State, env: Env)
    requires s.running
    ensures
      var o := Next(s, Cleanup, env);
      && o.state.connections == map[]
      && o.state.candidates == s.candidates
      && o.state.closed == s.closed + multiset(s.connections.Keys)
      && |o.state.closed| == |s.closed| + |s.connections|
  {
  }

  /** The local candidates `msg` adds for `id`. */
  function LocalOf(msg: ConnectionMessage, id: u32): seq<Candidate>
  {
    match msg
    case AddLocalCandidate(target, candidate) => if target == id then [candidate] else []
    case _ => []
  }

  /** The local candidates the queue adds for `id`, in queue order. */
  function LocalFor(events: seq<Event>, id: u32): seq<Candidate>
    decreases |events|
  {
    if events == [] then []
    else LocalFor(events[..|events| - 1], id) + LocalOf(events[|events| - 1].msg, id)
  }

  /** One message that does not drain `id` appends to `id`'s buffer exactly what it carries for `id`. */
  lemma NextBuffer(s: State, msg: ConnectionMessage, env: Env, id: u32)
    requires msg.NewConnection? ==> Supplied(env)
    requires s.running && msg != GetIceCandidates(id)
    ensures
      var s' := Next(s, msg, env).state;
      && Buffered(s', id) == Buffered(s, id) + LocalOf(msg, id)
      && (id in s'.candidates <==> id in s.candidates || LocalOf(msg, id) != [])
  {
  }

  /**
    Over a whole queue that the loop gets through and that never drains `id`,
    `id`'s buffer grows by exactly the local candidates queued for it, in
    queue order.
  */
  lemma {:induction false} QueueAppendsInOrder(s: State, events: seq<Event>, id: u32)
    requires Deliverable(events) && Run(s, events).state.running
    requires forall i :: 0 <= i < |events| ==> events[i].msg != GetIceCandidates(id)
    ensures Buffered(Run(s, events).state, id) == Buffered(s, id) + LocalFor(events, id)
    ensures id in Run(s, events).state.candidates <==> id in s.candidates || LocalFor(events, id) != []
    decreases |events|
  {
    if events != [] {
      var prefix := events[..|events| - 1];
      var last := events[|events| - 1];
      assert Deliverable(prefix) by {
        forall i | 0 <= i < |prefix| ensures prefix[i] == events[i] { }
      }
      QueueAppendsInOrder(s, prefix, id);
      var before := Run(s, prefix).state;
      NextBuffer(before, last.msg, last.env, id);
    }
  }

  /** After the loop has stopped, a queue changes nothing and every reply channel is dropped. */
  lemma {:induction false} StoppedLoopIgnoresQueue(s: State, events: seq<Event>)
    requires Deliverable(events) && !s.running
    ensures Run(s, events).state == s
    ensures forall i :: 0 <= i < |events| ==> Run(s, events).replies[i] == RespDropped
    decreases |events|
  {
    if events != [] {
      var prefix := events[..|events| - 1];
      assert Deliverable(prefix) by {
        forall i | 0 <= i < |prefix| ensures prefix[i] == events[i] { }
      }
      StoppedLoopIgnoresQueue(s, prefix);
    }
  }

  /** From the initial state, every queue keeps each connection keyed by its own id. */
  lemma RunFromInitialIsConsistent(events: seq<Event>)
    requires Deliverable(events)
    ensures Consistent(Run(Initial(), events).state)
  {
  }
}
