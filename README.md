# minecraft-watcher: a Dafny model of the status resolver and the connection handler

minecraft-watcher answers Minecraft Java Edition clients (protocol 578, 1.15.2)
on behalf of a game server that lives on an EC2 instance which may be stopped.
This project models its decision engine:

- **Status vocabulary** (`Types`): the six `ServerStatus` variants, their labels,
  their messages of the day and their `Display` text.
- **Status resolution** (`ServerUtil`, and `ServerWatcher` for the second copy of
  the resolver): from the EC2 answers (`describe_instances`, and
  `describe_spot_instance_requests` when the instance is stopped) the resolver maps
  the lifecycle state to a status, overrides Offline with ShuttingDown when the spot
  request is marked for stop, returns early when that is conclusive, and otherwise
  probes the game server twice: a ping that decides the status and a status query
  that gives the player count.
- **The per-connection handler** (`StatusReporter`): the first packet must be a
  handshake; its next state selects the status branch, which writes a synthesized
  status response and accepts at most one status request, or the login branch,
  which reads `LoginStart`, may start the instance for an allowed player while it is
  Offline, and always ends with one `LoginDisconnect` when it gets that far.

Inputs from outside are values: the EC2 answers are an `Aws.Answers`, what
connecting to the game server does is a `ServerUtil.Dial`, a connection
(`Protocol.Connection`) holds the frames its peer will send (`inbox`, where the
end of the queue is end of stream and `Garbled` a failing read), the packets
written to it (`sent`) and how many more writes its transport accepts
(`writesLeft`). Start and stop commands are appended to the log of an
`Aws.Client`, whose fields say whether EC2 accepts them. Each imperative
operation is a method whose `ensures` ties its result and new state to a
specification function (`Resolve`, `StatusFromPing`, `PlayerCountFrom`,
`ConnectionExchange`, `StatusExchange`, `LoginExchange`); the properties are
proved about those functions.

Behaviours of the code that the model follows:

- A missing public address is not an error; it only skips the probes.
- The stopped-instance check reads the status code of the first spot request
  returned for the instance, rather than a yes/no answer.
- A failed resolution is not replaced by Unknown in the handlers: the error
  propagates and the connection ends with nothing written.
- A start command that EC2 refuses is passed on as an error: the player gets
  no "Login acknowledged" disconnect, and no disconnect at all.
- The status branch does not answer the packet it reads after its response;
  it only accepts a status request or end of stream.
- No inactivity counter or shutdown timer exists in the code.

The equality of `ServerStatus` values is constructor identity, as for the
derived `PartialEq` of a fieldless enum; Dafny's equality on the datatype is
that relation.

## Model

| member | source | states |
|---|---|---|
| Types.AllStatusesComplete | src/types.rs:4-11 | `AllStatuses` lists all six variants and has six entries |
| Types.AsStr | src/types.rs:14-23 | defines each variant's label: its own variant name |
| Types.GetMotd | src/types.rs:24-34 | defines each variant's message of the day, the six strings of the source |
| Types.AsStrInjective | src/types.rs:14-23 | two variants have the same label exactly when they are the same variant |
| Types.Find | src/types.rs:14-23 | the inverse of `AsStr` (the source has no label lookup; it is defined to state the round trip): a status found in a table is in it and has the looked-up label; nothing is found only when no entry has that label |
| Types.FromLabel | src/types.rs:14-23 | the inverse of `AsStr` over all variants (defined to state the round trip, not present in the source): a label looked up gives a variant with that label, or none when no variant has it |
| Types.LabelRoundTrip | src/types.rs:14-23 | looking up a variant's label gives back that variant, and a lookup gives `s` if and only if the label is that of `s` |
| Types.GetMotdInjective | src/types.rs:24-34 | the six MOTDs are pairwise distinct |
| Types.Fmt | src/types.rs:37-42 | the `Display` text is "ServerStatus::" followed by the variant's label |
| Types.FmtInjective | src/types.rs:38-41 | two variants have the same `Display` text exactly when they are the same variant |
| ServerUtil.GetEc2Instance | src/server_util.rs:82-85 | the lookup fails exactly when the call errs (error passed on) or there is no reservation or no instance ("AWS API Error"); otherwise the first instance of the first reservation |
| ServerUtil.InstanceStateName | src/server_util.rs:25 | fails with "AWS API Error" exactly when the instance has no state or the state no name |
| ServerUtil.StatusOfState | src/server_util.rs:29-35 | Offline iff Stopped, ShuttingDown iff Stopping or ShuttingDown, StartingEC2 iff Pending, Unknown for every other state including Running; never Online or StartingUp |
| ServerUtil.FirstSpotRequestCode | src/server_util.rs:39-52 | the spot answer fails exactly when the query errs or lists requests without a first one carrying a status code; it yields "marked-for-stop" exactly when the first request is marked for stop |
| ServerUtil.StatusBeforePing | src/server_util.rs:24-52 | fails exactly in the three failure cases (lookup, missing state, failing spot query for a stopped instance); otherwise the status is in {Offline, ShuttingDown, StartingEC2, Unknown}, equals the table's unless the table says Offline, and is then ShuttingDown exactly when the spot request is marked for stop |
| ServerUtil.MarkedForStopIsShuttingDown | src/server_util.rs:39-52 | a stopped instance whose spot request is marked for stop resolves to ShuttingDown with no players |
| ServerUtil.ConclusiveStatesSkipPing | src/server_util.rs:29-64 | an instance that is Stopping, Pending or ShuttingDown resolves to the table's status with player count 0, its own address and no probe |
| ServerUtil.NeedsPing | src/server_util.rs:56 | defines when resolution probes: the negation of the early-return test, status Unknown with a public address |
| ServerUtil.ProbeHandshake | src/server_util.rs:100-105 | defines the probes' opening packet: a handshake with version 5, the instance's address, port 25565 and next state Status |
| ServerUtil.Probe | src/server_util.rs:87-108 | no TCP or no protocol connection is reported as such with nothing written; otherwise the handshake and the request are written as far as the transport accepts, the state becomes Status after the handshake, and one packet is read only when both writes succeed |
| ServerUtil.StatusFromPing | src/server_util.rs:87-112 | refused TCP gives StartingEC2, a failed protocol connect StartingUp, a pong Online, a read or write error an error, anything else Unknown; each of these iff; the status is never Offline or ShuttingDown |
| ServerUtil.PingServer | src/server_util.rs:87-112 | returns the ping status of the reply its connection produces, writing a handshake and a ping with payload 0 |
| ServerUtil.ClampOnline | src/server_util.rs:151 | the count is the reported online count when that is not negative, and 0 otherwise |
| ServerUtil.PlayerCountFrom | src/server_util.rs:128-153 | a count exists exactly when a status response was read, and is its clamped online count; no connection gives "Server not started.", any other packet "Server didn't respond correctly" |
| ServerUtil.GetPlayerCount | src/server_util.rs:128-154 | returns the player count of the reply its connection produces, writing a handshake and a status request |
| ServerUtil.Resolve | src/server_util.rs:22-78 | fails exactly in the three failure cases; the snapshot carries the requested id and the instance's state and address; without a probe it keeps the preliminary status and has no players; with one, the status is the ping's (Unknown on error) and the count the query's (0 on error); Online and StartingUp only come from a probe |
| ServerUtil.NoPingNoProbeEffect | src/server_util.rs:56-64 | when the early return is taken, the probe replies have no influence on the snapshot |
| ServerUtil.ProbesNeverFailResolution | src/server_util.rs:68-77 | no probe reply makes resolution fail, and probe replies change only the status and the player count |
| ServerUtil.GetServerStatus | src/server_util.rs:22-78 | returns `Resolve` of its inputs; leaves both probe connections untouched when it returns early, and otherwise probes the instance's address with a ping on one connection and a status query on the other (the order of the two probes is not observable in the model) |
| ServerUtil.StartEc2Instance | src/server_util.rs:115-119 | issues one start command for the instance and passes on EC2's refusal as an error |
| ServerUtil.StopEc2Instance | src/server_util.rs:122-125 | issues one stop command for the instance and passes on EC2's refusal as an error |
| ServerWatcher.GetServerStatus | src/server_watcher.rs:23-79 | the watcher's copy returns the same snapshot as the server_util resolver from the same inputs, with the same probe effects |
| StatusReporter.StatusResponseFor | src/status_reporter.rs:58-70 | players max 0, online 0, no sample; version "phofidd-server-booter" with protocol 5; no favicon; description "&lStatus:&r " followed by the status's MOTD |
| StatusReporter.StatusResponseRevealsStatus | src/status_reporter.rs:64 | distinct statuses give distinct status responses |
| StatusReporter.IsAllowedToStartServer | src/status_reporter.rs:102-104 | defines the allow-list test: the list holds "*" or the exact player name |
| StatusReporter.LoginMessage | src/status_reporter.rs:100-121 | "Login acknowledged" iff Offline and allowed, "Login denied" iff Offline and not allowed, and one message per other status, StartingEC2 and StartingUp sharing one |
| StatusReporter.LoginMessageByStatus | src/status_reporter.rs:116-120 | outside Offline the message ignores the allow-list, and two statuses share it only when both are starting |
| StatusReporter.StatusExchange | src/status_reporter.rs:48-83 | state becomes Status; a failed resolution writes nothing and is the result; otherwise exactly one status response for the resolved status is written when the transport accepts it, then one packet is read, and the result is success iff that was a status request or end of stream |
| StatusReporter.LoginExchange | src/status_reporter.rs:86-124 | state becomes Login and one packet is read; a start is issued exactly when it is `LoginStart`, the status is Offline and the player is on the allow-list or it holds "*"; success iff exactly one disconnect with the status's message is written; a missing `LoginStart`, a failed resolution or a failed start writes nothing |
| StatusReporter.ConnectionExchange | src/status_reporter.rs:28-45 | a first packet that is not a handshake (end of stream included) is an error with nothing written or started; a handshake for Status is the status branch and one for Login the login branch; at most one packet is written and at most one start issued |
| StatusReporter.StatusRoundTrip | src/status_reporter.rs:72-82 | handshake for Status then a status request: exactly the synthesized response is written and the exchange succeeds |
| StatusReporter.WildcardLoginStarts | src/status_reporter.rs:101-111 | with allow-list ["*"] and status Offline, any player's login issues one start and gets "Login acknowledged" |
| StatusReporter.UnlistedPlayerNeverStarts | src/status_reporter.rs:101-114 | a player not on an allow-list without "*" never starts the server, and gets "Login denied" while it is Offline |
| StatusReporter.StartOnlyWhenOffline | src/status_reporter.rs:100-115 | the only command a connection can issue is one start of the configured instance, and only when the status is Offline |
| StatusReporter.FailuresWriteNothing | src/status_reporter.rs:98-110 | a failed resolution, or a start that EC2 refuses, leaves the client with nothing written |
| StatusReporter.HandleConnection | src/status_reporter.rs:28-45 | reads the first packet and dispatches; its result, packets written, reads, final state and commands are those of `ConnectionExchange` |
| StatusReporter.HandleStatus | src/status_reporter.rs:48-83 | its result, packets written, reads and final state are those of `StatusExchange` |
| StatusReporter.HandleLogin | src/status_reporter.rs:86-124 | its result, packets written, reads, final state and commands are those of `LoginExchange` |

## Left out

- src/main.rs: argument parsing, the global settings cell, logging setup and the accept loop are I/O wiring; the handlers take the settings they read as a `Config`. The `server_port` argument is unused by the code, which hardcodes port 25565 (`ServerUtil.MinecraftPort`).
- The inactivity shutdown: main.rs calls a `start_watcher` that src/server_watcher.rs does not define, so there is no counter or scheduler to model.
- The AWS SDK calls and `aws_config::load_defaults`: their answers are inputs (`Aws.Answers`, the accept flags of `Aws.Client`), and the instance id sent with each describe call is not recorded.
- The socket and the codec: packets are typed values, not bytes; decoding does not depend on the connection state (the state is recorded, not used to decode), and what a TCP or protocol connect to `public_ip:25565` does is the `Dial` input rather than being derived from the address.
- `Chat::from_traditional`: messages are the literal `&`-coded strings.
- Logging calls and the `addr` argument used only by them.
- Async scheduling: each handler is a sequential procedure.
- Resolution inside the handlers: the handlers receive the resolver's result as the `resolved` value instead of running the resolver, so the probes a handler's resolution performs are not part of `HandleConnection`'s effects.
- src/server_watcher.rs `ping_server`, `get_player_count`, `get_ec2_instance`, `start_ec2_instance` and `stop_ec2_instance`: their text does the same as the server_util functions, so `ServerWatcher.GetServerStatus` uses the ServerUtil members instead of separate copies.
- ServerUtil.FirstSpotRequestCode: in the code the `unwrap`s on the spot answer (src/server_util.rs:47) panic inside `handle_connection`, which the accept loop awaits directly (src/main.rs:54), so a malformed answer ends the whole watcher; the model returns `MalformedSpotResponse` and only that resolution, and the one connection it serves, fails.
- The `u32::try_from(..).unwrap()` in `get_player_count` cannot fail on a clamped 32-bit signed count, so no panic path is modelled.
