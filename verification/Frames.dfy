/** Frames as the transport sees them: the header's fields and eight payload bytes. */
module Frames {
  import opened J1939

  /** `page` holds the reserved and data page bits; `ps` is a destination or a group extension. */
  datatype Header = Header(priority: nat, page: nat, pf: Byte, ps: Byte, sa: Address)

  const BLANK := Header(0, 0, 0, 0, 0)
  const PF_PDU1_MAX: Byte := 0xEF

  predicate Broadcast(h: Header) {
    h.pf > PF_PDU1_MAX
  }

  /** The parameter group number; a destination address is not part of it. */
  function Pgn(h: Header): nat {
    h.page * 0x10000 + h.pf * 0x100 + (if Broadcast(h) then h.ps else 0)
  }

  /** Stores the low 18 bits of a parameter group number. */
  function SetPgn(h: Header, pgn: nat): Header {
    h.(page := pgn / 0x10000 % 4, pf := pgn / 0x100 % 0x100, ps := pgn % 0x100)
  }

  type Payload = s: seq<Byte> | |s| == 8 witness [0, 0, 0, 0, 0, 0, 0, 0]

  datatype Frame = Frame(header: Header, payload: Payload)
}
