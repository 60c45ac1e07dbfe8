/**
  The values that travel on the connection coordinator's queue: the
  `ConnectionMessage` enum of server/src/connections/manager.rs and the ICE
  candidate record (`RTCIceCandidateInit`) it carries.

  The reply channels (`oneshot::Sender`) and the queue handle (`tx`) of the
  Rust messages are not fields here: the coordinator's reply is the result
  of processing a message (see MessageManager.Reply), and there is only one
  queue.
*/
module Messages {
  import opened Wrappers

  newtype u16 = x: int | 0 <= x < 0x1_0000
  newtype u32 = x: int | 0 <= x < 0x1_0000_0000

  /** One discovered network path, as exchanged with the browser. */
  datatype Candidate = Candidate(
    candidate: string,
    sdpMid: Option<string>,
    sdpMLineIndex: Option<u16>,
    usernameFragment: Option<string>)

  /** An opaque handle to a data channel opened by the engine. */
  type DataChannelHandle = nat

  datatype ConnectionMessage =
    | NewConnection(offer: string)
    | AddRemoteCandidate(id: u32, candidate: Candidate)
    | AddLocalCandidate(id: u32, candidate: Candidate)
    | GetIceCandidates(id: u32)
    | ConnectionClosed(id: u32)
    | Cleanup
    | DataChannel(id: u32, dc: DataChannelHandle)
    | DataMessage(id: u32, message: seq<bv8>)
}
