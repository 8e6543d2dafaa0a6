/** The child's channel to the parent process, seen from the child. Its
    encoding, blocking and readiness behaviour are not part of this model: the
    channel is an identity plus the log of requests made on it, in order. */
module Parent {

  /** The requests the child can make on its parent channel. */
  datatype Request = ChildReady | RequestIdentifierMapping | WaitMappingAck

  datatype ParentChannel = ParentChannel(id: nat, requests: seq<Request>)

  /** The channel after one more request has been made on it. */
  function Logged(ch: ParentChannel, request: Request): (r: ParentChannel)
    ensures r.id == ch.id
    ensures |r.requests| == |ch.requests| + 1
    ensures r.requests[..|ch.requests|] == ch.requests
    ensures r.requests[|ch.requests|] == request
  {
    ParentChannel(ch.id, ch.requests + [request])
  }
}
