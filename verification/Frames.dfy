/** The NET/ROM L3/L4 frame as the rest of the node sees it: a tagged union over
    the six opcodes, each variant with the 20-byte header's fields. */
module Frames {
  import opened Prelude

  const OPCODE_CONNECT_REQ: byte := 1
  const OPCODE_CONNECT_ACK: byte := 2
  const OPCODE_DISCONNECT_REQ: byte := 3
  const OPCODE_DISCONNECT_ACK: byte := 4
  const OPCODE_INFORMATION: byte := 5
  const OPCODE_INFORMATION_ACK: byte := 6

  const FLAG_CHOKE: byte := 0x80
  const FLAG_NAK: byte := 0x40
  const FLAG_MORE_FOLLOWS: byte := 0x20

  const DEFAULT_TTL: byte := 25

  datatype L3Header = L3Header(
    originCall: string,
    destCall: string,
    ttl: byte,
    circuitIdx: byte,
    circuitId: byte,
    txSeq: byte,
    rxSeq: byte,
    opcodeFlags: byte)
  {
    function Opcode(): byte { opcodeFlags % 8 }

    predicate Choke() { (opcodeFlags / 0x80) % 2 == 1 }

    predicate MoreFollows() { (opcodeFlags / 0x20) % 2 == 1 }
  }

  datatype L3Frame =
    | ConnectRequest(header: L3Header, proposedWindow: byte, userCall: string, originNodeCall: string)
    | ConnectAck(header: L3Header, acceptedWindow: byte, refused: bool)
    | Disconnect(header: L3Header)
    | Information(header: L3Header, info: seq<byte>)
    | InformationAck(header: L3Header)
}
