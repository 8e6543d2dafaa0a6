/** The synchronisation handle a child process holds during container
    bootstrap: the channel back to the parent, and, once set up, the
    receiving end of a pipe from the init process together with the poller
    it is registered with.

    OS handles are opaque numbers; every fallible OS step is an input saying
    whether it failed (and with which error). The parent channel's wire
    format lives elsewhere; here it is an append-only log of the requests
    made on it. */
module Child {
  import opened Wrappers
  import Parent

  type PipeId = nat
  type PollId = nat

  /** Identifies which registered source produced a readiness event. */
  datatype Token = Token(n: nat)

  /** The token under which the init pipe is registered. */
  const ChildToken: Token := Token(1)

  datatype Interest = Readable

  /** The two ends of one pipe carry the id of that pipe. */
  datatype Sender = Sender(pipe: PipeId)
  datatype Receiver = Receiver(pipe: PipeId)

  datatype Registration = Registration(pipe: PipeId, token: Token, interest: Interest)

  datatype Poll = Poll(id: PollId, registrations: seq<Registration>)

  datatype ChildProcess = ChildProcess(
    parentChannel: Parent.ParentChannel,
    receiver: Option<Receiver>,
    poll: Option<Poll>)

  /** The state a transition leaves behind and what it returns to its caller. */
  datatype Step<T, E> = Step(state: ChildProcess, result: Result<T, E>)

  /** Receiver and poller are present together, and when present the poller
      watches exactly the stored receiver for readability under `ChildToken`. */
  predicate Valid(cp: ChildProcess) {
    && (cp.receiver.Some? <==> cp.poll.Some?)
    && (cp.receiver.Some? && cp.poll.Some? ==>
          cp.poll.value.registrations == [Registration(cp.receiver.value.pipe, ChildToken, Readable)])
  }

  /** A fresh handle: no pipe and no poller yet. Construction cannot fail. */
  function New(parentChannel: Parent.ParentChannel): (r: ChildProcess)
    ensures r.parentChannel == parentChannel
    ensures r.receiver.None? && r.poll.None?
    ensures Valid(r)
  {
    ChildProcess(parentChannel, None, None)
  }

  /** Registers a receiver with a poller; `failure` is the OS refusing it. */
  function Register<E>(poll: Poll, receiver: Receiver, token: Token, interest: Interest, failure: Option<E>): (r: Result<Poll, E>)
    ensures r.Ok? <==> failure.None?
    ensures r.Err? ==> r.error == failure.value
    ensures r.Ok? ==> r.value.id == poll.id
    ensures r.Ok? ==> r.value.registrations == poll.registrations + [Registration(receiver.pipe, token, interest)]
  {
    match failure
    case Some(e) => Err(e)
    case None => Ok(Poll(poll.id, poll.registrations + [Registration(receiver.pipe, token, interest)]))
  }

  /** What the OS answers to the three fallible steps of pipe setup. */
  datatype PipeEnv<E> = PipeEnv(pipe: Result<PipeId, E>, poll: Result<PollId, E>, register: Option<E>)

  /** The error of the first step of pipe setup that fails, in execution order. */
  function FirstFailure<E>(env: PipeEnv<E>): Option<E> {
    if env.pipe.Err? then Some(env.pipe.error)
    else if env.poll.Err? then Some(env.poll.error)
    else env.register
  }

  /** Creates the init pipe and a poller watching its receiving end; stores
      both and hands back the sending end. The handle is changed only after
      every fallible step succeeded. */
  function SetupPipe<E>(cp: ChildProcess, env: PipeEnv<E>): (s: Step<Sender, E>)
    ensures s.state.parentChannel == cp.parentChannel
    ensures s.result.Ok? <==> FirstFailure(env).None?
    ensures s.result.Err? ==> s.state == cp && s.result.error == FirstFailure(env).value
    ensures s.result.Ok? ==>
      && s.result.value.pipe == env.pipe.value
      && s.state.receiver == Some(Receiver(s.result.value.pipe))
      && s.state.poll == Some(Poll(env.poll.value, [Registration(s.result.value.pipe, ChildToken, Readable)]))
    ensures s.result.Ok? ==> Valid(s.state)
    ensures Valid(cp) ==> Valid(s.state)
  {
    match env.pipe
    case Err(e) => Step(cp, Err(e))
    case Ok(id) =>
      var sender, receiver := Sender(id), Receiver(id);
      match env.poll
      case Err(e) => Step(cp, Err(e))
      case Ok(pollId) =>
        match Register(Poll(pollId, []), receiver, ChildToken, Readable, env.register)
        case Err(e) => Step(cp, Err(e))
        case Ok(poll) =>
          assert poll.registrations == [Registration(id, ChildToken, Readable)];
          Step(cp.(receiver := Some(receiver), poll := Some(poll)), Ok(sender))
  }

  /** Makes one request on the parent channel and returns the channel's
      answer unchanged. The request is logged whether or not the channel
      reports a failure; `failure` is that report. */
  function Delegate<E>(cp: ChildProcess, request: Parent.Request, failure: Option<E>): (s: Step<(), E>)
    ensures s.state == cp.(parentChannel := Parent.Logged(cp.parentChannel, request))
    ensures s.result.Ok? <==> failure.None?
    ensures s.result.Err? ==> s.result.error == failure.value
  {
    var state := cp.(parentChannel := Parent.Logged(cp.parentChannel, request));
    match failure
    case Some(e) => Step(state, Err(e))
    case None => Step(state, Ok(()))
  }

  /** Tells the parent that the init process has been forked. */
  function NotifyParent<E>(cp: ChildProcess, failure: Option<E>): (s: Step<(), E>)
    ensures s.state.parentChannel.id == cp.parentChannel.id
    ensures s.state.parentChannel.requests == cp.parentChannel.requests + [Parent.ChildReady]
    ensures s.state.receiver == cp.receiver && s.state.poll == cp.poll
    ensures s.result.Ok? <==> failure.None?
    ensures s.result.Err? ==> s.result.error == failure.value
  {
    Delegate(cp, Parent.ChildReady, failure)
  }

  /** Asks the parent to write the identifier mapping. */
  function RequestIdentifierMapping<E>(cp: ChildProcess, failure: Option<E>): (s: Step<(), E>)
    ensures s.state.parentChannel.id == cp.parentChannel.id
    ensures s.state.parentChannel.requests == cp.parentChannel.requests + [Parent.RequestIdentifierMapping]
    ensures s.state.receiver == cp.receiver && s.state.poll == cp.poll
    ensures s.result.Ok? <==> failure.None?
    ensures s.result.Err? ==> s.result.error == failure.value
  {
    Delegate(cp, Parent.RequestIdentifierMapping, failure)
  }

  /** Waits for the parent's acknowledgement that the mapping is written. */
  function WaitForMappingAck<E>(cp: ChildProcess, failure: Option<E>): (s: Step<(), E>)
    ensures s.state.parentChannel.id == cp.parentChannel.id
    ensures s.state.parentChannel.requests == cp.parentChannel.requests + [Parent.WaitMappingAck]
    ensures s.state.receiver == cp.receiver && s.state.poll == cp.poll
    ensures s.result.Ok? <==> failure.None?
    ensures s.result.Err? ==> s.result.error == failure.value
  {
    Delegate(cp, Parent.WaitMappingAck, failure)
  }

  // ---------------------------------------------------------------------------
  // Runs of several operations

  datatype Op<E> =
    | SetupPipeOp(env: PipeEnv<E>)
    | NotifyParentOp(failure: Option<E>)
    | RequestMappingOp(failure: Option<E>)
    | WaitAckOp(failure: Option<E>)

  function Apply<E>(cp: ChildProcess, op: Op<E>): ChildProcess {
    match op
    case SetupPipeOp(env) => SetupPipe(cp, env).state
    case NotifyParentOp(f) => NotifyParent(cp, f).state
    case RequestMappingOp(f) => RequestIdentifierMapping(cp, f).state
    case WaitAckOp(f) => WaitForMappingAck(cp, f).state
  }

  /** The state after performing `ops` in order, starting from `cp`. */
  function Perform<E>(cp: ChildProcess, ops: seq<Op<E>>): ChildProcess
    decreases |ops|
  {
    if |ops| == 0 then cp else Perform(Apply(cp, ops[0]), ops[1..])
  }

  /** The parent-channel request an operation makes, if any. */
  function RequestOf<E>(op: Op<E>): seq<Parent.Request> {
    match op
    case SetupPipeOp(_) => []
    case NotifyParentOp(_) => [Parent.ChildReady]
    case RequestMappingOp(_) => [Parent.RequestIdentifierMapping]
    case WaitAckOp(_) => [Parent.WaitMappingAck]
  }

  /** The parent-channel requests a sequence of operations makes, in order. */
  function RequestsOf<E>(ops: seq<Op<E>>): seq<Parent.Request>
    decreases |ops|
  {
    if |ops| == 0 then [] else RequestOf(ops[0]) + RequestsOf(ops[1..])
  }

  /** One operation keeps the parent channel and logs its own request. */
  lemma ApplyLogsRequest<E>(cp: ChildProcess, op: Op<E>)
    ensures Apply(cp, op).parentChannel.id == cp.parentChannel.id
    ensures Apply(cp, op).parentChannel.requests == cp.parentChannel.requests + RequestOf(op)
  {
    if op.SetupPipeOp? {
      assert cp.parentChannel.requests + [] == cp.parentChannel.requests;
    }
  }

  /** Every sequence of operations keeps receiver and poller paired. */
  lemma {:induction false} PerformPreservesValid<E>(cp: ChildProcess, ops: seq<Op<E>>)
    requires Valid(cp)
    ensures Valid(Perform(cp, ops))
    decreases |ops|
  {
    if |ops| > 0 {
      PerformPreservesValid(Apply(cp, ops[0]), ops[1..]);
    }
  }

  /** The parent channel is the same channel throughout, and its log is the
      old log followed by exactly the requests of the operations, in order. */
  lemma {:induction false} PerformLogsRequests<E>(cp: ChildProcess, ops: seq<Op<E>>)
    ensures Perform(cp, ops).parentChannel.id == cp.parentChannel.id
    ensures Perform(cp, ops).parentChannel.requests == cp.parentChannel.requests + RequestsOf(ops)
    decreases |ops|
  {
    if |ops| == 0 {
      assert cp.parentChannel.requests + [] == cp.parentChannel.requests;
    } else {
      var log := cp.parentChannel.requests;
      var next := Apply(cp, ops[0]);
      var last := Perform(next, ops[1..]);
      assert Perform(cp, ops) == last;
      assert next.parentChannel.id == cp.parentChannel.id
        && next.parentChannel.requests == log + RequestOf(ops[0]) by {
        ApplyLogsRequest(cp, ops[0]);
      }
      assert last.parentChannel.id == next.parentChannel.id
        && last.parentChannel.requests == next.parentChannel.requests + RequestsOf(ops[1..]) by {
        PerformLogsRequests(next, ops[1..]);
      }
      assert RequestsOf(ops) == RequestOf(ops[0]) + RequestsOf(ops[1..]);
      SeqAssoc(log, RequestOf(ops[0]), RequestsOf(ops[1..]));
    }
  }

  lemma SeqAssoc<T>(a: seq<T>, b: seq<T>, c: seq<T>)
    ensures (a + b) + c == a + (b + c)
  {
  }

  /** Without a pipe setup, receiver and poller are never touched. */
  lemma {:induction false} HandshakeKeepsPipe<E>(cp: ChildProcess, ops: seq<Op<E>>)
    requires forall k :: 0 <= k < |ops| ==> !ops[k].SetupPipeOp?
    ensures Perform(cp, ops).receiver == cp.receiver
    ensures Perform(cp, ops).poll == cp.poll
    decreases |ops|
  {
    if |ops| > 0 {
      HandshakeKeepsPipe(Apply(cp, ops[0]), ops[1..]);
    }
  }

  /** A failed pipe setup leaves nothing behind, even after earlier successes. */
  lemma FailedSetupIsInvisible<E>(cp: ChildProcess, env: PipeEnv<E>)
    requires FirstFailure(env).Some?
    ensures Apply(cp, SetupPipeOp(env)) == cp
  {
  }
}
