/** The per-connection protocol handler (src/status_reporter.rs): a client's
    handshake selects the status branch, which advertises the resolved status,
    or the login branch, which may start the instance and always ends with a
    disconnect message. */
module StatusReporter {
  import opened Wrappers
  import opened Types
  import opened Protocol
  import Aws
  import ServerUtil

  /** The command-line settings the handlers read. */
  datatype Config = Config(ec2Instance: string, usernamesAllowedToStartServer: seq<string>)

  /** The allow-list entry that lets anyone start the server. */
  const Anyone: string := "*"

  // ---------------------------------------------------------------------------
  // The status response
  // ---------------------------------------------------------------------------

  const StatusLabel: string := "&lStatus:&r "
  const VersionName: string := "phofidd-server-booter"
  const VersionProtocol: i32 := 5

  /** The synthesized status response: no players, this program's version,
      and the status's MOTD after a "Status:" label. */
  function StatusResponseFor(status: ServerStatus): (spec: StatusSpec)
    ensures spec.players.max == 0 && spec.players.online == 0 && spec.players.sample == []
    ensures spec.version == Some(StatusVersionSpec(VersionName, VersionProtocol))
    ensures spec.favicon.None?
    ensures |spec.description.text| == |StatusLabel| + |GetMotd(status)|
    ensures spec.description.text[..|StatusLabel|] == StatusLabel
    ensures spec.description.text[|StatusLabel|..] == GetMotd(status)
  {
    StatusSpec(
      StatusPlayersSpec(0, 0, []),
      Traditional(StatusLabel + GetMotd(status)),
      None,
      Some(StatusVersionSpec(VersionName, VersionProtocol)))
  }

  /** A client can tell the status from the response: distinct statuses give distinct responses. */
  lemma StatusResponseRevealsStatus(a: ServerStatus, b: ServerStatus)
    ensures StatusResponseFor(a) == StatusResponseFor(b) <==> a == b
  {
  }

  // ---------------------------------------------------------------------------
  // The login messages
  // ---------------------------------------------------------------------------

  const LoginAcknowledged: string := "&lLogin acknowledged: &6Starting server up..."
  const LoginDenied: string := "&lLogin denied: &4Server is offline"
  const StillSpinningUp: string := "&6&lServer is still spinning up &7&o(give it a few minutes)"
  const OnlineAwaitingDns: string := "&2&lServer is online&r, but DNS hasn't updated yet\n&7&o(wait a minute, then try again)"
  const ShuttingDownNotice: string := "&c&lServer is shutting down..."
  const StatusNotKnown: string := "&b&lServer status isn't known\n&r&o(usually it's just starting up the EC2 instance, but it could be an error)"

  /** The player may start the server: the allow-list holds the wildcard or the exact name. */
  predicate IsAllowedToStartServer(allowList: seq<string>, playerName: string) {
    Anyone in allowList || playerName in allowList
  }

  /** The disconnect text for a login, by status; for Offline it depends on
      whether the player is allowed to start the server. */
  function LoginMessage(status: ServerStatus, allowed: bool): (message: string)
    ensures message == LoginAcknowledged <==> status == Offline && allowed
    ensures message == LoginDenied <==> status == Offline && !allowed
    ensures message == StillSpinningUp <==> status == StartingEC2 || status == StartingUp
    ensures message == OnlineAwaitingDns <==> status == Online
    ensures message == ShuttingDownNotice <==> status == ShuttingDown
    ensures message == StatusNotKnown <==> status == Unknown
  {
    match status
    case Offline => if allowed then LoginAcknowledged else LoginDenied
    case StartingEC2 => StillSpinningUp
    case StartingUp => StillSpinningUp
    case Online => OnlineAwaitingDns
    case ShuttingDown => ShuttingDownNotice
    case Unknown => StatusNotKnown
  }

  /** Outside Offline the message depends on the status alone, and two
      statuses share a message only when both are starting. */
  lemma LoginMessageByStatus(a: ServerStatus, b: ServerStatus, allowedA: bool, allowedB: bool)
    requires a != Offline && b != Offline
    ensures LoginMessage(a, allowedA) == LoginMessage(b, allowedB) <==>
      a == b || (a in {StartingEC2, StartingUp} && b in {StartingEC2, StartingUp})
  {
  }

  // ---------------------------------------------------------------------------
  // What one connection does
  // ---------------------------------------------------------------------------

  /** The observable effect of handling (part of) a connection: its result,
      the packets written, the commands sent to EC2, the final connection
      state and what is left unread. */
  datatype Exchange = Exchange(result: Outcome<Error>, sent: seq<Packet>, commands: seq<Aws.Command>, state: State, rest: seq<Frame>)

  /** The next packet to read is present and is a `LoginStart`. */
  predicate OpensWithLoginStart(inbox: seq<Frame>) {
    inbox != [] && inbox[0].Frame? && inbox[0].packet.LoginStart?
  }

  /** The next packet to read is present and is a `Handshake`. */
  predicate OpensWithHandshake(inbox: seq<Frame>) {
    inbox != [] && inbox[0].Frame? && inbox[0].packet.Handshake?
  }

  /** The status branch, given what the resolver returns. */
  function StatusExchange(inbox: seq<Frame>, writesLeft: nat, resolved: Result<ServerUtil.EC2MinecraftServerStatus, Error>): (e: Exchange)
    ensures e.state == Status && e.commands == []
    ensures e.sent != [] <==> resolved.Ok? && writesLeft > 0
    ensures e.sent != [] ==> e.sent == [StatusResponse(StatusResponseFor(resolved.value.serverStatus))]
    ensures e.rest == if e.sent != [] then AfterRead(inbox) else inbox
    ensures resolved.Err? ==> e.result == Fail(resolved.error)
    ensures e.result.Pass? <==> e.sent != [] && (inbox == [] || inbox[0] == Frame(StatusRequest))
  {
    match resolved
    case Err(err) => Exchange(Fail(err), [], [], Status, inbox)
    case Ok(snapshot) =>
      if writesLeft == 0 then Exchange(Fail(IoError), [], [], Status, inbox)
      else
        var result := match NextRead(inbox)
          case Err(err) => Fail(err)
          case Ok(None) => Pass
          case Ok(Some(StatusRequest)) => Pass
          case Ok(Some(other)) => Fail(UnexpectedPacket(Some(other)));
        Exchange(result, [StatusResponse(StatusResponseFor(snapshot.serverStatus))], [], Status, AfterRead(inbox))
  }

  /** The login attempt starts the server: it opens with `LoginStart`, the
      status resolves to Offline and the player is allowed. */
  predicate StartsServer(inbox: seq<Frame>, cfg: Config, resolved: Result<ServerUtil.EC2MinecraftServerStatus, Error>) {
    && OpensWithLoginStart(inbox)
    && resolved.Ok? && resolved.value.serverStatus == Offline
    && IsAllowedToStartServer(cfg.usernamesAllowedToStartServer, inbox[0].packet.name)
  }

  /** The login branch, given what the resolver returns and whether EC2 accepts a start. */
  function LoginExchange(inbox: seq<Frame>, writesLeft: nat, cfg: Config,
                         resolved: Result<ServerUtil.EC2MinecraftServerStatus, Error>, acceptsStart: bool): (e: Exchange)
    ensures e.state == Login && e.rest == AfterRead(inbox)
    ensures e.commands == (if StartsServer(inbox, cfg, resolved) then [Aws.Start(cfg.ec2Instance)] else [])
    ensures e.result.Pass? <==> e.sent != []
    ensures e.sent != [] <==>
      OpensWithLoginStart(inbox) && resolved.Ok? && writesLeft > 0 && (acceptsStart || !StartsServer(inbox, cfg, resolved))
    ensures e.sent != [] ==>
      var allowed := IsAllowedToStartServer(cfg.usernamesAllowedToStartServer, inbox[0].packet.name);
      e.sent == [LoginDisconnect(Traditional(LoginMessage(resolved.value.serverStatus, allowed)))]
    ensures !OpensWithLoginStart(inbox) ==> e.result.Fail? && e.commands == []
    ensures inbox == [] ==> e.result == Fail(UnexpectedPacket(None))
    ensures OpensWithLoginStart(inbox) && resolved.Err? ==> e.result == Fail(resolved.error)
    ensures StartsServer(inbox, cfg, resolved) && !acceptsStart ==> e.result == Fail(SdkError)
  {
    match NextRead(inbox)
    case Err(err) => Exchange(Fail(err), [], [], Login, AfterRead(inbox))
    case Ok(Some(LoginStart(playerName))) =>
      (match resolved
       case Err(err) => Exchange(Fail(err), [], [], Login, AfterRead(inbox))
       case Ok(snapshot) =>
         var status := snapshot.serverStatus;
         var allowed := IsAllowedToStartServer(cfg.usernamesAllowedToStartServer, playerName);
         var commands := if status == Offline && allowed then [Aws.Start(cfg.ec2Instance)] else [];
         if commands != [] && !acceptsStart then Exchange(Fail(SdkError), [], commands, Login, AfterRead(inbox))
         else if writesLeft == 0 then Exchange(Fail(IoError), [], commands, Login, AfterRead(inbox))
         else Exchange(Pass, [LoginDisconnect(Traditional(LoginMessage(status, allowed)))], commands, Login, AfterRead(inbox)))
    case Ok(other) => Exchange(Fail(UnexpectedPacket(other)), [], [], Login, AfterRead(inbox))
  }

  /** A whole connection: the first packet must be a handshake, whose next
      state selects the branch. */
  function ConnectionExchange(inbox: seq<Frame>, writesLeft: nat, cfg: Config,
                              resolved: Result<ServerUtil.EC2MinecraftServerStatus, Error>, acceptsStart: bool): (e: Exchange)
    ensures !OpensWithHandshake(inbox) ==>
      e.result.Fail? && e.sent == [] && e.commands == [] && e.state == Handshaking && e.rest == AfterRead(inbox)
    ensures inbox == [] ==> e.result == Fail(UnexpectedPacket(None))
    ensures OpensWithHandshake(inbox) && inbox[0].packet.handshake.nextState == NextStatus ==>
      e == StatusExchange(inbox[1..], writesLeft, resolved)
    ensures OpensWithHandshake(inbox) && inbox[0].packet.handshake.nextState == NextLogin ==>
      e == LoginExchange(inbox[1..], writesLeft, cfg, resolved, acceptsStart)
    ensures |e.sent| <= 1 && |e.sent| <= writesLeft && |e.commands| <= 1
  {
    match NextRead(inbox)
    case Err(err) => Exchange(Fail(err), [], [], Handshaking, AfterRead(inbox))
    case Ok(Some(Handshake(handshake))) =>
      (match handshake.nextState
       case NextStatus => StatusExchange(AfterRead(inbox), writesLeft, resolved)
       case NextLogin => LoginExchange(AfterRead(inbox), writesLeft, cfg, resolved, acceptsStart))
    case Ok(other) => Exchange(Fail(UnexpectedPacket(other)), [], [], Handshaking, AfterRead(inbox))
  }

  /** A status query that sends a handshake for Status and a status request
      gets exactly the synthesized response, and the exchange ends cleanly. */
  lemma StatusRoundTrip(handshake: HandshakeSpec, writesLeft: nat, cfg: Config,
                        snapshot: ServerUtil.EC2MinecraftServerStatus, acceptsStart: bool)
    requires handshake.nextState == NextStatus && writesLeft > 0
    ensures ConnectionExchange([Frame(Handshake(handshake)), Frame(StatusRequest)], writesLeft, cfg, Ok(snapshot), acceptsStart)
      == Exchange(Pass, [StatusResponse(StatusResponseFor(snapshot.serverStatus))], [], Status, [])
  {
  }

  /** With a wildcard allow-list, any player's login while Offline issues one
      start and is acknowledged. */
  lemma WildcardLoginStarts(playerName: string, handshake: HandshakeSpec, writesLeft: nat, cfg: Config,
                            snapshot: ServerUtil.EC2MinecraftServerStatus)
    requires handshake.nextState == NextLogin && writesLeft > 0
    requires cfg.usernamesAllowedToStartServer == [Anyone] && snapshot.serverStatus == Offline
    ensures ConnectionExchange([Frame(Handshake(handshake)), Frame(LoginStart(playerName))], writesLeft, cfg, Ok(snapshot), true)
      == Exchange(Pass, [LoginDisconnect(Traditional(LoginAcknowledged))], [Aws.Start(cfg.ec2Instance)], Login, [])
  {
  }

  /** A player who is not on the allow-list never starts the server, and is
      told it is offline when it is. */
  lemma UnlistedPlayerNeverStarts(inbox: seq<Frame>, writesLeft: nat, cfg: Config,
                                  resolved: Result<ServerUtil.EC2MinecraftServerStatus, Error>, acceptsStart: bool)
    requires OpensWithHandshake(inbox) && inbox[0].packet.handshake.nextState == NextLogin
    requires OpensWithLoginStart(inbox[1..])
    requires Anyone !in cfg.usernamesAllowedToStartServer
    requires inbox[1].packet.name !in cfg.usernamesAllowedToStartServer
    ensures ConnectionExchange(inbox, writesLeft, cfg, resolved, acceptsStart).commands == []
    ensures resolved.Ok? && resolved.value.serverStatus == Offline && writesLeft > 0 ==>
      ConnectionExchange(inbox, writesLeft, cfg, resolved, acceptsStart).sent == [LoginDisconnect(Traditional(LoginDenied))]
  {
  }

  /** Only an Offline status can lead to a start command; whatever the status,
      at most one start goes out, for the configured instance. */
  lemma StartOnlyWhenOffline(inbox: seq<Frame>, writesLeft: nat, cfg: Config,
                             resolved: Result<ServerUtil.EC2MinecraftServerStatus, Error>, acceptsStart: bool)
    ensures var e := ConnectionExchange(inbox, writesLeft, cfg, resolved, acceptsStart);
      e.commands == [] || (e.commands == [Aws.Start(cfg.ec2Instance)] && resolved.Ok? && resolved.value.serverStatus == Offline)
  {
  }

  /** When resolution fails, or the start command fails, no response of any kind is written. */
  lemma FailuresWriteNothing(inbox: seq<Frame>, writesLeft: nat, cfg: Config,
                             resolved: Result<ServerUtil.EC2MinecraftServerStatus, Error>, acceptsStart: bool)
    ensures resolved.Err? ==> ConnectionExchange(inbox, writesLeft, cfg, resolved, acceptsStart).sent == []
    ensures !acceptsStart && ConnectionExchange(inbox, writesLeft, cfg, resolved, acceptsStart).commands != [] ==>
      ConnectionExchange(inbox, writesLeft, cfg, resolved, acceptsStart).sent == []
  {
  }

  /** The connection went through exchange `e`: its packets were written, its
      reads consumed and its state entered. */
  twostate predicate Performed(conn: Connection, e: Exchange)
    reads conn
  {
    && conn.sent == old(conn.sent) + e.sent
    && conn.writesLeft == old(conn.writesLeft) - |e.sent|
    && conn.state == e.state
    && conn.inbox == e.rest
  }

  /** The EC2 client received the exchange's commands and nothing else. */
  twostate predicate Commanded(client: Aws.Client, e: Exchange)
    reads client
  {
    && client.issued == old(client.issued) + e.commands
    && client.acceptsStart == old(client.acceptsStart)
    && client.acceptsStop == old(client.acceptsStop)
  }

  // ---------------------------------------------------------------------------
  // The handlers
  // ---------------------------------------------------------------------------

  /** `handle_connection`: `resolved` is what the resolver returns for the
      configured instance, `client` the EC2 client a start goes to. */
  method HandleConnection(conn: Connection, cfg: Config,
                          resolved: Result<ServerUtil.EC2MinecraftServerStatus, Error>, client: Aws.Client)
    returns (r: Outcome<Error>)
    requires conn.state == Handshaking
    modifies conn, client
    ensures var e := ConnectionExchange(old(conn.inbox), old(conn.writesLeft), cfg, resolved, old(client.acceptsStart));
      r == e.result && Performed(conn, e) && Commanded(client, e)
  {
    var first := conn.ReadPacket();
    match first
    case Err(err) => r := Fail(err);
    case Ok(Some(Handshake(handshake))) =>
      match handshake.nextState {
        case NextStatus => r := HandleStatus(conn, resolved);
        case NextLogin => r := HandleLogin(conn, cfg, resolved, client);
      }
    case Ok(other) => r := Fail(UnexpectedPacket(other));
  }

  /** `handle_status`. */
  method HandleStatus(conn: Connection, resolved: Result<ServerUtil.EC2MinecraftServerStatus, Error>)
    returns (r: Outcome<Error>)
    modifies conn
    ensures var e := StatusExchange(old(conn.inbox), old(conn.writesLeft), resolved);
      r == e.result && Performed(conn, e)
  {
    conn.SetState(Status);
    if resolved.Err? {
      return Fail(resolved.error);
    }
    var status := resolved.value.serverStatus;
    var written := conn.WritePacket(StatusResponse(StatusResponseFor(status)));
    if written.Fail? {
      return written;
    }
    var next := conn.ReadPacket();
    match next
    case Err(err) => r := Fail(err);
    case Ok(None) => r := Pass;
    case Ok(Some(StatusRequest)) => r := Pass;
    case Ok(Some(other)) => r := Fail(UnexpectedPacket(Some(other)));
  }

  /** `handle_login`. */
  method HandleLogin(conn: Connection, cfg: Config,
                     resolved: Result<ServerUtil.EC2MinecraftServerStatus, Error>, client: Aws.Client)
    returns (r: Outcome<Error>)
    modifies conn, client
    ensures var e := LoginExchange(old(conn.inbox), old(conn.writesLeft), cfg, resolved, old(client.acceptsStart));
      r == e.result && Performed(conn, e) && Commanded(client, e)
  {
    conn.SetState(Login);
    var first := conn.ReadPacket();
    var playerName: string;
    match first {
      case Err(err) => return Fail(err);
      case Ok(Some(LoginStart(name))) => playerName := name;
      case Ok(other) => return Fail(UnexpectedPacket(other));
    }
    if resolved.Err? {
      return Fail(resolved.error);
    }
    var serverStatus := resolved.value.serverStatus;
    var allowed := IsAllowedToStartServer(cfg.usernamesAllowedToStartServer, playerName);
    if serverStatus == Offline && allowed {
      var started := ServerUtil.StartEc2Instance(client, cfg.ec2Instance);
      if started.Fail? {
        return started;
      }
    }
    r := conn.WritePacket(LoginDisconnect(Traditional(LoginMessage(serverStatus, allowed))));
  }
}
