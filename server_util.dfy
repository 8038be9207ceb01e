/** Status resolution (src/server_util.rs): from the control plane's answers
    and, when those are not conclusive, a live probe of the game server, the
    resolver produces one snapshot of the managed server. */
module ServerUtil {
  import opened Wrappers
  import opened Types
  import opened Protocol
  import Aws

  /** The game port the probes use; the resolver hardcodes it. */
  const MinecraftPort := 25565
  /** The protocol version the probes announce in their handshake. */
  const ProbeVersion := 5
  /** The spot request status code that means a stop is still in progress. */
  const MarkedForStop: string := "marked-for-stop"

  /** One resolution's result (`EC2MinecraftServerStatus`). */
  datatype EC2MinecraftServerStatus = EC2MinecraftServerStatus(
    ec2InstanceId: string,
    publicIp: Option<string>,
    ec2State: Aws.InstanceStateName,
    serverStatus: ServerStatus,
    playerCount: u32)

  // ---------------------------------------------------------------------------
  // Reading the control plane's answers
  // ---------------------------------------------------------------------------

  /** The lookup of the instance fails: the call errs, or the answer has no
      reservation, or its first reservation no instance. */
  predicate LookupFails(answer: Result<Aws.DescribeInstancesOutput, Error>) {
    || answer.Err?
    || |answer.value.reservations| == 0
    || |answer.value.reservations[0].instances| == 0
  }

  /** The instance description carries no state, or a state without a name. */
  predicate StateMissing(instance: Aws.Instance) {
    instance.state.None? || instance.state.value.name.None?
  }

  /** The spot request query errs, or lists requests but not a first one with a status code. */
  predicate SpotQueryFails(answer: Result<Aws.DescribeSpotInstanceRequestsOutput, Error>) {
    || answer.Err?
    || (var requests := answer.value.spotInstanceRequests;
        && requests.Some?
        && (|requests.value| == 0
            || requests.value[0].status.None?
            || requests.value[0].status.value.code.None?))
  }

  /** The first spot request for the instance is marked for stop. */
  predicate SpotMarkedForStop(answer: Result<Aws.DescribeSpotInstanceRequestsOutput, Error>) {
    && !SpotQueryFails(answer)
    && answer.value.spotInstanceRequests.Some?
    && answer.value.spotInstanceRequests.value[0].status.value.code.value == MarkedForStop
  }

  /** Resolution fails exactly when the instance cannot be looked up, has no
      state name, or is stopped and the spot request query fails. */
  predicate ResolutionFails(aws: Aws.Answers) {
    || LookupFails(aws.describeInstances)
    || (var instance := aws.describeInstances.value.reservations[0].instances[0];
        || StateMissing(instance)
        || (instance.state.value.name.value == Aws.Stopped && SpotQueryFails(aws.describeSpotInstanceRequests)))
  }

  /** `get_ec2_instance`: the first instance of the first reservation. */
  function GetEc2Instance(answer: Result<Aws.DescribeInstancesOutput, Error>): (r: Result<Aws.Instance, Error>)
    ensures r.Err? <==> LookupFails(answer)
    ensures r.Ok? ==> r.value == answer.value.reservations[0].instances[0]
    ensures answer.Err? ==> r == Err(answer.error)
    ensures answer.Ok? && r.Err? ==> r.error == AwsApiError
  {
    match answer
    case Err(e) => Err(e)
    case Ok(output) =>
      if |output.reservations| == 0 || |output.reservations[0].instances| == 0 then Err(AwsApiError)
      else Ok(output.reservations[0].instances[0])
  }

  /** The name of the instance's state, or "AWS API Error" when it has none. */
  function InstanceStateName(instance: Aws.Instance): (r: Result<Aws.InstanceStateName, Error>)
    ensures r.Err? <==> StateMissing(instance)
    ensures r.Err? ==> r.error == AwsApiError
    ensures r.Ok? ==> Some(r.value) == instance.state.value.name
  {
    match instance.state
    case None => Err(AwsApiError)
    case Some(state) =>
      match state.name
      case None => Err(AwsApiError)
      case Some(name) => Ok(name)
  }

  /** The fixed table from the instance's lifecycle state to a server status. */
  function StatusOfState(state: Aws.InstanceStateName): (status: ServerStatus)
    ensures status == Offline <==> state == Aws.Stopped
    ensures status == ShuttingDown <==> state == Aws.Stopping || state == Aws.ShuttingDown
    ensures status == StartingEC2 <==> state == Aws.Pending
    ensures status == Unknown <==> state !in {Aws.Stopped, Aws.Stopping, Aws.Pending, Aws.ShuttingDown}
    ensures status != Online && status != StartingUp
  {
    match state
    case Stopped => Offline
    case Stopping => ShuttingDown
    case Pending => StartingEC2
    case ShuttingDown => ShuttingDown
    case _ => Unknown
  }

  /** The code of the first spot request, if the answer lists spot requests at
      all; the entries the source unwraps must be present. */
  function FirstSpotRequestCode(answer: Result<Aws.DescribeSpotInstanceRequestsOutput, Error>): (r: Result<Option<string>, Error>)
    ensures r.Err? <==> SpotQueryFails(answer)
    ensures answer.Err? ==> r == Err(answer.error)
    ensures answer.Ok? && r.Err? ==> r.error == MalformedSpotResponse
    ensures r == Ok(Some(MarkedForStop)) <==> SpotMarkedForStop(answer)
  {
    match answer
    case Err(e) => Err(e)
    case Ok(output) =>
      match output.spotInstanceRequests
      case None => Ok(None)
      case Some(requests) =>
        if |requests| == 0 || requests[0].status.None? || requests[0].status.value.code.None? then
          Err(MalformedSpotResponse)
        else
          Ok(Some(requests[0].status.value.code.value))
  }

  /** The status the control plane alone determines, with the address and state it was read from. */
  datatype Ec2View = Ec2View(state: Aws.InstanceStateName, publicIp: Option<string>, status: ServerStatus)

  /** The status before any probe: the state table, then the marked-for-stop
      override, which the spot query is consulted for only when the table says Offline. */
  function StatusBeforePing(aws: Aws.Answers): (r: Result<Ec2View, Error>)
    ensures r.Err? <==> ResolutionFails(aws)
    ensures r.Ok? ==> r.value.status in {Offline, ShuttingDown, StartingEC2, Unknown}
    ensures r.Ok? ==>
      var instance := aws.describeInstances.value.reservations[0].instances[0];
      && Some(r.value.state) == instance.state.value.name
      && r.value.publicIp == instance.publicIpAddress
    ensures r.Ok? && StatusOfState(r.value.state) != Offline ==> r.value.status == StatusOfState(r.value.state)
    ensures r.Ok? && StatusOfState(r.value.state) == Offline ==>
      r.value.status == (if SpotMarkedForStop(aws.describeSpotInstanceRequests) then ShuttingDown else Offline)
  {
    var instance :- GetEc2Instance(aws.describeInstances);
    var state :- InstanceStateName(instance);
    var status := StatusOfState(state);
    if status == Offline then
      var code :- FirstSpotRequestCode(aws.describeSpotInstanceRequests);
      Ok(Ec2View(state, instance.publicIpAddress, if code == Some(MarkedForStop) then ShuttingDown else Offline))
    else
      Ok(Ec2View(state, instance.publicIpAddress, status))
  }

  /** The control plane is not conclusive: the server must be probed. */
  predicate NeedsPing(view: Ec2View) {
    view.status == Unknown && view.publicIp.Some?
  }

  // ---------------------------------------------------------------------------
  // Probing the game server
  // ---------------------------------------------------------------------------

  /** What connecting to the server's address does: the TCP connect is
      refused, TCP connects but the protocol connection fails, or both connect. */
  datatype Dial = TcpRefused | ProtocolRefused | Connected

  /** The outcome of one probe: no TCP connection, no protocol connection, or
      the single read after the two writes (a failed write reads as an error). */
  datatype ProbeReply = NoTcp | NoProtocol | Reply(read: Result<Option<Packet>, Error>)

  /** The handshake a probe opens with. */
  function ProbeHandshake(publicIp: string): Packet {
    Handshake(HandshakeSpec(ProbeVersion, publicIp, MinecraftPort, NextStatus))
  }

  /** The packets a probe gets written: the handshake and the request, as far as the transport accepts them. */
  function ProbeSent(publicIp: string, request: Packet, dial: Dial, writesLeft: nat): (out: seq<Packet>)
    ensures |out| <= 2 && |out| <= writesLeft
    ensures dial != Connected ==> out == []
    ensures dial == Connected && writesLeft >= 2 ==> out == [ProbeHandshake(publicIp), request]
  {
    if dial != Connected then []
    else if writesLeft >= 2 then [ProbeHandshake(publicIp), request]
    else if writesLeft == 1 then [ProbeHandshake(publicIp)]
    else []
  }

  /** The reply a probe over a connection with this budget and inbox receives. */
  function ProbeSpec(dial: Dial, writesLeft: nat, inbox: seq<Frame>): (reply: ProbeReply)
    ensures reply == NoTcp <==> dial == TcpRefused
    ensures reply == NoProtocol <==> dial == ProtocolRefused
    ensures dial == Connected && writesLeft < 2 ==> reply == Reply(Err(IoError))
    ensures dial == Connected && writesLeft >= 2 ==> reply == Reply(NextRead(inbox))
  {
    match dial
    case TcpRefused => NoTcp
    case ProtocolRefused => NoProtocol
    case Connected => if writesLeft < 2 then Reply(Err(IoError)) else Reply(NextRead(inbox))
  }

  /** What a probe does to its connection: it writes `ProbeSent`, enters the
      Status state once the handshake is out, and reads once if both writes succeed. */
  twostate predicate ProbedBy(conn: Connection, publicIp: string, request: Packet, dial: Dial)
    reads conn
  {
    var w := old(conn.writesLeft);
    var out := ProbeSent(publicIp, request, dial, w);
    && conn.sent == old(conn.sent) + out
    && conn.writesLeft == w - |out|
    && conn.state == (if dial == Connected && w > 0 then Status else old(conn.state))
    && conn.inbox == (if dial == Connected && w >= 2 then AfterRead(old(conn.inbox)) else old(conn.inbox))
  }

  /** The steps `ping_server` and `get_player_count` share: connect, write the
      handshake, switch to Status, write the request, read one packet. */
  method Probe(publicIp: string, request: Packet, dial: Dial, conn: Connection) returns (reply: ProbeReply)
    modifies conn
    ensures reply == ProbeSpec(dial, old(conn.writesLeft), old(conn.inbox))
    ensures ProbedBy(conn, publicIp, request, dial)
  {
    match dial
    case TcpRefused => return NoTcp;
    case ProtocolRefused => return NoProtocol;
    case Connected =>
    var written := conn.WritePacket(ProbeHandshake(publicIp));
    if written.Fail? {
      return Reply(Err(written.error));
    }
    conn.SetState(Status);
    written := conn.WritePacket(request);
    if written.Fail? {
      return Reply(Err(written.error));
    }
    var read := conn.ReadPacket();
    return Reply(read);
  }

  /** The status a ping reports: refused TCP means the instance is still
      booting, a refused protocol connection that the game server is, a pong
      that it is online, any other packet or end of stream that nothing is known. */
  function StatusFromPing(reply: ProbeReply): (r: Result<ServerStatus, Error>)
    ensures r == Ok(StartingEC2) <==> reply == NoTcp
    ensures r == Ok(StartingUp) <==> reply == NoProtocol
    ensures r == Ok(Online) <==> reply.Reply? && reply.read.Ok? && reply.read.value.Some? && reply.read.value.value.StatusPong?
    ensures r.Err? <==> reply.Reply? && reply.read.Err?
    ensures r.Err? ==> r.error == reply.read.error
    ensures r.Ok? ==> r.value in {StartingEC2, StartingUp, Online, Unknown}
  {
    match reply
    case NoTcp => Ok(StartingEC2)
    case NoProtocol => Ok(StartingUp)
    case Reply(Err(e)) => Err(e)
    case Reply(Ok(Some(StatusPong(_)))) => Ok(Online)
    case Reply(Ok(_)) => Ok(Unknown)
  }

  /** `ping_server`. */
  method PingServer(publicIp: string, dial: Dial, conn: Connection) returns (r: Result<ServerStatus, Error>)
    modifies conn
    ensures r == StatusFromPing(ProbeSpec(dial, old(conn.writesLeft), old(conn.inbox)))
    ensures ProbedBy(conn, publicIp, StatusPing(0), dial)
  {
    var reply := Probe(publicIp, StatusPing(0), dial, conn);
    match reply
    case NoTcp => r := Ok(StartingEC2);
    case NoProtocol => r := Ok(StartingUp);
    case Reply(Err(e)) => r := Err(e);
    case Reply(Ok(Some(StatusPong(_)))) => r := Ok(Online);
    case Reply(Ok(_)) => r := Ok(Unknown);
  }

  /** A reported online count, clamped at zero (`max(0)`) and read as unsigned. */
  function ClampOnline(online: i32): (count: u32)
    ensures count >= online && count >= 0
    ensures count == online || count == 0
  {
    if online < 0 then 0 else online
  }

  /** The player count a status query reports: the response's online count, or
      an error when the server could not be reached or sent anything else. */
  function PlayerCountFrom(reply: ProbeReply): (r: Result<u32, Error>)
    ensures r.Ok? <==> reply.Reply? && reply.read.Ok? && reply.read.value.Some? && reply.read.value.value.StatusResponse?
    ensures r.Ok? ==> r.value == ClampOnline(reply.read.value.value.response.players.online)
    ensures reply == NoTcp || reply == NoProtocol ==> r == Err(ServerNotStarted)
    ensures reply.Reply? && reply.read.Ok? && r.Err? ==> r.error == BadStatusResponse
  {
    match reply
    case NoTcp => Err(ServerNotStarted)
    case NoProtocol => Err(ServerNotStarted)
    case Reply(Err(e)) => Err(e)
    case Reply(Ok(Some(StatusResponse(response)))) => Ok(ClampOnline(response.players.online))
    case Reply(Ok(_)) => Err(BadStatusResponse)
  }

  /** `get_player_count`. */
  method GetPlayerCount(publicIp: string, dial: Dial, conn: Connection) returns (r: Result<u32, Error>)
    modifies conn
    ensures r == PlayerCountFrom(ProbeSpec(dial, old(conn.writesLeft), old(conn.inbox)))
    ensures ProbedBy(conn, publicIp, StatusRequest, dial)
  {
    var reply := Probe(publicIp, StatusRequest, dial, conn);
    match reply
    case NoTcp => r := Err(ServerNotStarted);
    case NoProtocol => r := Err(ServerNotStarted);
    case Reply(Err(e)) => r := Err(e);
    case Reply(Ok(Some(StatusResponse(response)))) => r := Ok(ClampOnline(response.players.online));
    case Reply(Ok(_)) => r := Err(BadStatusResponse);
  }

  // ---------------------------------------------------------------------------
  // Resolution
  // ---------------------------------------------------------------------------

  /** The snapshot resolution produces from the control plane's answers and
      the replies the ping and the player-count query would receive. */
  function Resolve(instanceId: string, aws: Aws.Answers, ping: ProbeReply, count: ProbeReply): (r: Result<EC2MinecraftServerStatus, Error>)
    ensures r.Err? <==> ResolutionFails(aws)
    ensures r.Err? ==> r == Err(StatusBeforePing(aws).error)
    ensures r.Ok? ==> r.value.ec2InstanceId == instanceId
    ensures r.Ok? ==>
      var view := StatusBeforePing(aws).value;
      && r.value.ec2State == view.state
      && r.value.publicIp == view.publicIp
      && (if NeedsPing(view) then
            && r.value.serverStatus == StatusFromPing(ping).GetOr(Unknown)
            && r.value.playerCount == PlayerCountFrom(count).GetOr(0)
          else
            && r.value.serverStatus == view.status
            && r.value.playerCount == 0)
    ensures r.Ok? && r.value.serverStatus in {Online, StartingUp} ==> NeedsPing(StatusBeforePing(aws).value)
  {
    var view :- StatusBeforePing(aws);
    if !NeedsPing(view) then
      Ok(EC2MinecraftServerStatus(instanceId, view.publicIp, view.state, view.status, 0))
    else
      Ok(EC2MinecraftServerStatus(instanceId, view.publicIp, view.state,
                                  StatusFromPing(ping).GetOr(Unknown), PlayerCountFrom(count).GetOr(0)))
  }

  /** Resolution probes the game server. */
  predicate Pings(aws: Aws.Answers) {
    StatusBeforePing(aws).Ok? && NeedsPing(StatusBeforePing(aws).value)
  }

  /** `get_server_status`: `pingConn` and `countConn` are the connections the
      ping and the player-count query would open. */
  method GetServerStatus(instanceId: string, aws: Aws.Answers,
                         pingDial: Dial, pingConn: Connection,
                         countDial: Dial, countConn: Connection)
    returns (r: Result<EC2MinecraftServerStatus, Error>)
    requires pingConn != countConn
    modifies pingConn, countConn
    ensures r == Resolve(instanceId, aws,
                         ProbeSpec(pingDial, old(pingConn.writesLeft), old(pingConn.inbox)),
                         ProbeSpec(countDial, old(countConn.writesLeft), old(countConn.inbox)))
    ensures !Pings(aws) ==> unchanged(pingConn) && unchanged(countConn)
    ensures Pings(aws) ==>
      var publicIp := StatusBeforePing(aws).value.publicIp.value;
      ProbedBy(pingConn, publicIp, StatusPing(0), pingDial) && ProbedBy(countConn, publicIp, StatusRequest, countDial)
  {
    var instance :- GetEc2Instance(aws.describeInstances);
    var instanceState :- InstanceStateName(instance);
    var publicIp := instance.publicIpAddress;

    var serverStatus := StatusOfState(instanceState);
    if serverStatus == Offline {
      var code :- FirstSpotRequestCode(aws.describeSpotInstanceRequests);
      if code == Some(MarkedForStop) {
        serverStatus := ShuttingDown;
      }
    }

    if serverStatus != Unknown || publicIp.None? {
      return Ok(EC2MinecraftServerStatus(instanceId, publicIp, instanceState, serverStatus, 0));
    }
    var ip := publicIp.value;

    var ping := PingServer(ip, pingDial, pingConn);
    serverStatus := ping.GetOr(Unknown);
    var playerCount := GetPlayerCount(ip, countDial, countConn);
    return Ok(EC2MinecraftServerStatus(instanceId, Some(ip), instanceState, serverStatus, playerCount.GetOr(0)));
  }

  /** The replies of the probes matter only when resolution probes: otherwise
      the snapshot is the same whatever the server would have answered. */
  lemma NoPingNoProbeEffect(instanceId: string, aws: Aws.Answers, ping1: ProbeReply, count1: ProbeReply, ping2: ProbeReply, count2: ProbeReply)
    requires !Pings(aws)
    ensures Resolve(instanceId, aws, ping1, count1) == Resolve(instanceId, aws, ping2, count2)
  {
  }

  /** Probing is best-effort: no ping or player-count reply makes resolution
      fail, and none changes anything but the status and the player count. */
  lemma ProbesNeverFailResolution(instanceId: string, aws: Aws.Answers, ping1: ProbeReply, count1: ProbeReply, ping2: ProbeReply, count2: ProbeReply)
    ensures Resolve(instanceId, aws, ping1, count1).Ok? == Resolve(instanceId, aws, ping2, count2).Ok?
    ensures Resolve(instanceId, aws, ping1, count1).Ok? ==>
      Resolve(instanceId, aws, ping1, count1).value.(serverStatus := Unknown, playerCount := 0)
      == Resolve(instanceId, aws, ping2, count2).value.(serverStatus := Unknown, playerCount := 0)
  {
  }

  /** A described instance in one of the four listed states resolves to the
      table's status with no players and no probe; the spot query is consulted
      only for a stopped instance. */
  lemma ConclusiveStatesSkipPing(instanceId: string, aws: Aws.Answers, ping: ProbeReply, count: ProbeReply, instance: Aws.Instance)
    requires aws.describeInstances.Ok? && |aws.describeInstances.value.reservations| > 0
    requires aws.describeInstances.value.reservations[0].instances != []
    requires instance == aws.describeInstances.value.reservations[0].instances[0]
    requires instance.state.Some? && instance.state.value.name.Some?
    requires instance.state.value.name.value in {Aws.Stopping, Aws.Pending, Aws.ShuttingDown}
    ensures !Pings(aws)
    ensures Resolve(instanceId, aws, ping, count) ==
      Ok(EC2MinecraftServerStatus(instanceId, instance.publicIpAddress, instance.state.value.name.value,
                                  StatusOfState(instance.state.value.name.value), 0))
  {
  }

  /** A stopped instance whose spot request is marked for stop resolves to
      ShuttingDown, never Offline. */
  lemma MarkedForStopIsShuttingDown(instanceId: string, aws: Aws.Answers, ping: ProbeReply, count: ProbeReply)
    requires !LookupFails(aws.describeInstances)
    requires aws.describeInstances.value.reservations[0].instances[0].state == Some(Aws.InstanceState(Some(Aws.Stopped)))
    requires SpotMarkedForStop(aws.describeSpotInstanceRequests)
    ensures Resolve(instanceId, aws, ping, count).Ok?
    ensures Resolve(instanceId, aws, ping, count).value.serverStatus == ShuttingDown
    ensures Resolve(instanceId, aws, ping, count).value.playerCount == 0
  {
  }

  /** `start_ec2_instance`: one start command, whose error is passed on. */
  method StartEc2Instance(client: Aws.Client, instanceId: string) returns (r: Outcome<Error>)
    modifies client
    ensures client.issued == old(client.issued) + [Aws.Start(instanceId)]
    ensures r == if client.acceptsStart then Pass else Fail(SdkError)
    ensures client.acceptsStart == old(client.acceptsStart) && client.acceptsStop == old(client.acceptsStop)
  {
    r := client.StartInstances(instanceId);
  }

  /** `stop_ec2_instance`: one stop command, whose error is passed on. */
  method StopEc2Instance(client: Aws.Client, instanceId: string) returns (r: Outcome<Error>)
    modifies client
    ensures client.issued == old(client.issued) + [Aws.Stop(instanceId)]
    ensures r == if client.acceptsStop then Pass else Fail(SdkError)
    ensures client.acceptsStart == old(client.acceptsStart) && client.acceptsStop == old(client.acceptsStop)
  {
    r := client.StopInstances(instanceId);
  }
}
