/** The second copy of the resolver (src/server_watcher.rs). Its state table,
    spot override, early return, ping and player-count query are those of
    src/server_util.rs, so it reuses the ServerUtil definitions and is proved
    to produce the same snapshot from the same inputs. */
module ServerWatcher {
  import opened Wrappers
  import opened Types
  import opened Protocol
  import Aws
  import ServerUtil

  /** `get_server_status` as written in the watcher copy. */
  method GetServerStatus(instanceId: string, aws: Aws.Answers,
                         pingDial: ServerUtil.Dial, pingConn: Connection,
                         countDial: ServerUtil.Dial, countConn: Connection)
    returns (r: Result<ServerUtil.EC2MinecraftServerStatus, Error>)
    requires pingConn != countConn
    modifies pingConn, countConn
    ensures r == ServerUtil.Resolve(instanceId, aws,
                                    ServerUtil.ProbeSpec(pingDial, old(pingConn.writesLeft), old(pingConn.inbox)),
                                    ServerUtil.ProbeSpec(countDial, old(countConn.writesLeft), old(countConn.inbox)))
    ensures !ServerUtil.Pings(aws) ==> unchanged(pingConn) && unchanged(countConn)
    ensures ServerUtil.Pings(aws) ==>
      var publicIp := ServerUtil.StatusBeforePing(aws).value.publicIp.value;
      && ServerUtil.ProbedBy(pingConn, publicIp, StatusPing(0), pingDial)
      && ServerUtil.ProbedBy(countConn, publicIp, StatusRequest, countDial)
  {
    var instance :- ServerUtil.GetEc2Instance(aws.describeInstances);
    var instanceState :- ServerUtil.InstanceStateName(instance);
    var publicIp := instance.publicIpAddress;

    var serverStatus := ServerUtil.StatusOfState(instanceState);
    if serverStatus == Offline {
      var code :- ServerUtil.FirstSpotRequestCode(aws.describeSpotInstanceRequests);
      if code == Some(ServerUtil.MarkedForStop) {
        serverStatus := ShuttingDown;
      }
    }

    if serverStatus != Unknown || publicIp.None? {
      return Ok(ServerUtil.EC2MinecraftServerStatus(instanceId, publicIp, instanceState, serverStatus, 0));
    }
    var ip := publicIp.value;

    var ping := ServerUtil.PingServer(ip, pingDial, pingConn);
    serverStatus := ping.GetOr(Unknown);
    var playerCount := ServerUtil.GetPlayerCount(ip, countDial, countConn);
    return Ok(ServerUtil.EC2MinecraftServerStatus(instanceId, Some(ip), instanceState, serverStatus, playerCount.GetOr(0)));
  }
}
