/** The packets of Minecraft Java Edition protocol 578 (1.15.2) that the core
    reads or writes, and the connection they travel over. The wire codec is not
    modelled: a connection holds typed packets, not bytes. */
module Protocol {
  import opened Wrappers

  /** The integer widths of the packet fields and of the player count. */
  type i32 = x: int | -0x8000_0000 <= x < 0x8000_0000
  type u32 = x: int | 0 <= x < 0x1_0000_0000

  /** The connection state that selects how packets are decoded. */
  datatype State = Handshaking | Status | Login

  /** The `next_state` field of a handshake. */
  datatype HandshakeNextState = NextStatus | NextLogin

  datatype HandshakeSpec = HandshakeSpec(version: int, serverAddress: string, serverPort: int, nextState: HandshakeNextState)

  /** A chat component built from `&`-coded text; the styling is not interpreted. */
  datatype Chat = Traditional(text: string)

  datatype StatusPlayerSampleSpec = StatusPlayerSampleSpec(name: string, id: string)
  datatype StatusPlayersSpec = StatusPlayersSpec(max: i32, online: i32, sample: seq<StatusPlayerSampleSpec>)
  datatype StatusVersionSpec = StatusVersionSpec(name: string, protocol: i32)
  datatype StatusSpec = StatusSpec(players: StatusPlayersSpec, description: Chat, favicon: Option<string>, version: Option<StatusVersionSpec>)

  /** The packets the core distinguishes; any other packet of the protocol is `OtherPacket`. */
  datatype Packet =
    | Handshake(handshake: HandshakeSpec)
    | StatusRequest
    | StatusResponse(response: StatusSpec)
    | StatusPing(payload: int)
    | StatusPong(pongPayload: int)
    | LoginStart(name: string)
    | LoginDisconnect(message: Chat)
    | OtherPacket(id: int)

  /** What the peer has sent, one entry per read: a packet, or bytes that fail to read. */
  datatype Frame = Frame(packet: Packet) | Garbled

  /** The error values the core produces (its `anyhow` errors). */
  datatype Error =
    | AwsApiError                           // the describe answer lacks the instance, its state or the state's name
    | SdkError                              // an AWS SDK call answered with an error
    | MalformedSpotResponse                 // the spot request answer has no first entry, status or code
    | IoError                               // a read or a write on a connection failed
    | ServerNotStarted                      // the player-count probe could not connect
    | BadStatusResponse                     // the player-count probe got no status response
    | UnexpectedPacket(got: Option<Packet>) // a handler read a packet it does not accept, or end of stream

  /** What a read returns: a packet, `None` at end of stream, or an error. */
  function NextRead(inbox: seq<Frame>): (r: Result<Option<Packet>, Error>)
    ensures r == Ok(None) <==> inbox == []
    ensures r.Err? <==> inbox != [] && inbox[0].Garbled?
    ensures r.Err? ==> r.error == IoError
  {
    if inbox == [] then Ok(None)
    else match inbox[0]
      case Frame(p) => Ok(Some(p))
      case Garbled => Err(IoError)
  }

  /** What is left to read after one read. */
  function AfterRead(inbox: seq<Frame>): (rest: seq<Frame>)
    ensures inbox == [] ==> rest == []
    ensures inbox != [] ==> inbox == [inbox[0]] + rest
  {
    if inbox == [] then [] else inbox[1..]
  }

  /** One connection: its state, what the peer will send, what has been written
      to it, and how many more writes the transport accepts. */
  class Connection {
    var state: State
    var inbox: seq<Frame>
    var sent: seq<Packet>
    var writesLeft: nat

    constructor (state: State, inbox: seq<Frame>, writesLeft: nat)
      ensures this.state == state && this.inbox == inbox && this.writesLeft == writesLeft
      ensures sent == []
    {
      this.state := state;
      this.inbox := inbox;
      this.writesLeft := writesLeft;
      sent := [];
    }

    /** `set_state`. */
    method SetState(s: State)
      modifies this
      ensures state == s
      ensures inbox == old(inbox) && sent == old(sent) && writesLeft == old(writesLeft)
    {
      state := s;
    }

    /** `write_packet_async`: the packet is sent when the transport still accepts a write. */
    method WritePacket(p: Packet) returns (r: Outcome<Error>)
      modifies this
      ensures r == if old(writesLeft) > 0 then Pass else Fail(IoError)
      ensures sent == if r.Pass? then old(sent) + [p] else old(sent)
      ensures writesLeft == old(writesLeft) - |sent| + |old(sent)|
      ensures state == old(state) && inbox == old(inbox)
    {
      if writesLeft > 0 {
        sent := sent + [p];
        writesLeft := writesLeft - 1;
        r := Pass;
      } else {
        r := Fail(IoError);
      }
    }

    /** `read_packet_async`. */
    method ReadPacket() returns (r: Result<Option<Packet>, Error>)
      modifies this
      ensures r == NextRead(old(inbox))
      ensures inbox == AfterRead(old(inbox))
      ensures state == old(state) && sent == old(sent) && writesLeft == old(writesLeft)
    {
      r := NextRead(inbox);
      inbox := AfterRead(inbox);
    }
  }
}
