/** The shapes of the AWS EC2 answers the resolver reads, and the control
    plane's start and stop commands. The SDK calls themselves are not
    modelled: their answers are inputs, and the commands are appended to a log. */
module Aws {
  import opened Wrappers
  import opened Protocol

  /** The SDK's instance lifecycle states; `UnknownVariant` is any state name the SDK does not know. */
  datatype InstanceStateName = Pending | Running | ShuttingDown | Terminated | Stopping | Stopped | UnknownVariant(value: string)

  datatype InstanceState = InstanceState(name: Option<InstanceStateName>)
  datatype Instance = Instance(state: Option<InstanceState>, publicIpAddress: Option<string>)
  datatype Reservation = Reservation(instances: seq<Instance>)
  datatype DescribeInstancesOutput = DescribeInstancesOutput(reservations: seq<Reservation>)

  datatype SpotInstanceStatus = SpotInstanceStatus(code: Option<string>)
  datatype SpotInstanceRequest = SpotInstanceRequest(status: Option<SpotInstanceStatus>)
  datatype DescribeSpotInstanceRequestsOutput = DescribeSpotInstanceRequestsOutput(spotInstanceRequests: Option<seq<SpotInstanceRequest>>)

  /** What the control plane answers to `describe_instances` and to
      `describe_spot_instance_requests` for the managed instance; an `Err` is
      the error the SDK reports. */
  datatype Answers = Answers(
    describeInstances: Result<DescribeInstancesOutput, Error>,
    describeSpotInstanceRequests: Result<DescribeSpotInstanceRequestsOutput, Error>)

  datatype Command = Start(instanceId: string) | Stop(instanceId: string)

  /** The EC2 client: the commands sent so far, and whether the control plane
      accepts a start or a stop. */
  class Client {
    var issued: seq<Command>
    var acceptsStart: bool
    var acceptsStop: bool

    constructor (acceptsStart: bool, acceptsStop: bool)
      ensures issued == [] && this.acceptsStart == acceptsStart && this.acceptsStop == acceptsStop
    {
      issued := [];
      this.acceptsStart := acceptsStart;
      this.acceptsStop := acceptsStop;
    }

    method StartInstances(instanceId: string) returns (r: Outcome<Error>)
      modifies this
      ensures issued == old(issued) + [Start(instanceId)]
      ensures r == if acceptsStart then Pass else Fail(SdkError)
      ensures acceptsStart == old(acceptsStart) && acceptsStop == old(acceptsStop)
    {
      issued := issued + [Start(instanceId)];
      r := if acceptsStart then Pass else Fail(SdkError);
    }

    method StopInstances(instanceId: string) returns (r: Outcome<Error>)
      modifies this
      ensures issued == old(issued) + [Stop(instanceId)]
      ensures r == if acceptsStop then Pass else Fail(SdkError)
      ensures acceptsStart == old(acceptsStart) && acceptsStop == old(acceptsStop)
    {
      issued := issued + [Stop(instanceId)];
      r := if acceptsStop then Pass else Fail(SdkError);
    }
  }
}
