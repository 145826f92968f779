/** NodeManager: bounded redelivery of a launch, and how transport outcomes become statuses. */
module NodeManagement {
  import opened Common
  import opened Wire

  /** The transport failures that leave open whether the worker processed the call, and all others. */
  datatype Failure = GrpcUnavailable | GrpcDeadlineExceeded | GrpcOther

  /** What one RPC attempt comes to: an answer of the worker, or no answer. */
  datatype Transport = Answered(reply: WireStatus) | Failed(failure: Failure, message: string)

  const MAX_LAUNCH_ATTEMPTS: nat := 2

  predicate Retryable(t: Transport) {
    t.Failed? && (t.failure.GrpcUnavailable? || t.failure.GrpcDeadlineExceeded?)
  }

  /** The descriptor every attempt carries. */
  datatype Descriptor = Descriptor(task: TaskId, execution: ExecutionId, attempt: nat)

  /** What a launch comes to when its attempts, in turn, come to `network`. */
  function LaunchResult(timeout: int, network: seq<Transport>): Status
    requires |network| >= MAX_LAUNCH_ATTEMPTS
  {
    if timeout <= 0 then Status(InvalidArgument, "LaunchTask RPC timeout must be greater than zero")
    else
      var final := if Retryable(network[0]) then network[1] else network[0];
      match final
      case Answered(reply) => StatusFromProto(reply)
      case Failed(_, message) =>
        if Retryable(final) then Status(Unavailable, "LaunchTask RPC failed after transport redelivery: " + message)
        else Status(Unavailable, "LaunchTask RPC failed: " + message)
  }

  /**
   * DispatchTask against a network whose k-th attempt comes to `network[k]`. What was sent are copies of one descriptor;
   * another copy follows only an ambiguous failure; the first answer is final; without an answer the result is Unavailable.
   */
  method DispatchTask(timeout: int, task: Descriptor, network: seq<Transport>) returns (status: Status, sent: seq<Descriptor>)
    requires |network| >= MAX_LAUNCH_ATTEMPTS
    ensures status == LaunchResult(timeout, network)
    ensures timeout <= 0 <==> sent == []
    ensures timeout <= 0 ==> status.code == InvalidArgument
    ensures |sent| <= 2 && forall d :: d in sent ==> d == task
    ensures forall k :: 0 <= k < |sent| - 1 ==> network[k].Failed? && network[k].failure != GrpcOther
    ensures sent != [] && network[|sent|-1].Answered? ==> status == StatusFromProto(network[|sent|-1].reply)
    ensures sent != [] && network[|sent|-1].Failed? ==>
              status.code == Unavailable && (network[|sent|-1].failure != GrpcOther ==> |sent| == 2)
  {
    sent := [];
    if timeout <= 0 {
      return Status(InvalidArgument, "LaunchTask RPC timeout must be greater than zero"), [];
    }
    var lastTransport := "";
    for attempt := 0 to MAX_LAUNCH_ATTEMPTS
      invariant |sent| == attempt && forall d :: d in sent ==> d == task
      invariant forall k :: 0 <= k < attempt ==> Retryable(network[k])
      invariant attempt > 0 ==> lastTransport == network[attempt-1].message
    {
      sent := sent + [task];
      match network[attempt] {
        case Answered(reply) =>
          return StatusFromProto(reply), sent;
        case Failed(failure, message) =>
          lastTransport := message;
          if !(failure == GrpcUnavailable || failure == GrpcDeadlineExceeded) {
            return Status(Unavailable, "LaunchTask RPC failed: " + message), sent;
          }
          if attempt + 1 >= MAX_LAUNCH_ATTEMPTS {
            break;
          }
      }
    }
    status := Status(Unavailable, "LaunchTask RPC failed after transport redelivery: " + lastTransport);
  }

  /** CancelTask: one attempt, and the worker's answer is final. */
  method CancelTask(task: TaskId, execution: ExecutionId, network: Transport) returns (status: Status)
    ensures task == TaskId(0) || execution == ExecutionId(0) ==> status.code == InvalidArgument
    ensures task != TaskId(0) && execution != ExecutionId(0) ==>
              if network.Answered? then status == StatusFromProto(network.reply) else status.code == Unavailable
  {
    if task == TaskId(0) {
      return Status(InvalidArgument, "cancel task id cannot be nil");
    }
    if execution == ExecutionId(0) {
      return Status(InvalidArgument, "cancel execution id cannot be nil");
    }
    match network {
      case Answered(reply) => status := StatusFromProto(reply);
      case Failed(_, message) => status := Status(Unavailable, "CancelTask RPC failed: " + message);
    }
  }
}
