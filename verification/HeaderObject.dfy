/** The frame header as an object: every setter rewrites the packed identifier in place. */
module HeaderObject {
  import opened Words
  import opened Frames
  import opened Codec = HeaderCodec

  class FrameHeader {
    var id: bv32

    /** The constructor from a parameter group number. */
    constructor (priority: bv8, pgn: bv32, sa: bv8)
      ensures id == Make(priority, pgn, sa)
      ensures Unpack(id) == Fields((if priority > 7 then 7 else priority) | ((pgn >> 18) & 0x7) as bv8,
                                   ((pgn >> 16) & 0x3) as bv8, ((pgn >> 8) & 0xFF) as bv8, (pgn & 0xFF) as bv8, sa)
    {
      id := ((Clamp7(priority) as bv32) << 26) | (pgn << 8) | (sa as bv32);
      MakeUnpacks(priority, pgn, sa);
    }

    method AssignPriority(v: bv8)
      modifies this
      ensures id == Apply(old(id), SetPriority(v))
      ensures Assigns(old(id), SetPriority(v))
    {
      ApplyAssigns(id, SetPriority(v));
      id := (id & !0x1C00_0000) | ((Clamp7(v) as bv32) << 26);
    }

    method AssignPgn(pgn: bv32)
      modifies this
      ensures id == Apply(old(id), SetPgnBits(pgn))
      ensures Assigns(old(id), SetPgnBits(pgn))
      ensures Decode(id) == Frames.SetPgn(Decode(old(id)), Unsigned32(pgn))
    {
      ApplyAssigns(id, SetPgnBits(pgn));
      SetPgnOnRecord(id, pgn);
      id := (id & !0x03FF_FF00) | ((pgn & 0x3_FFFF) << 8);
    }

    method AssignDataPage(bit: bool)
      modifies this
      ensures id == Apply(old(id), SetDataPage(bit))
      ensures Assigns(old(id), SetDataPage(bit))
    {
      ApplyAssigns(id, SetDataPage(bit));
      id := (id & !0x0100_0000) | (Bit(bit) << 24);
    }

    method AssignPduFormat(v: bv8)
      modifies this
      ensures id == Apply(old(id), SetPduFormat(v))
      ensures Assigns(old(id), SetPduFormat(v))
    {
      ApplyAssigns(id, SetPduFormat(v));
      id := (id & !0x00FF_0000) | ((v as bv32) << 16);
    }

    method AssignPduSpecific(v: bv8)
      modifies this
      ensures id == Apply(old(id), SetPduSpecific(v))
      ensures Assigns(old(id), SetPduSpecific(v))
    {
      ApplyAssigns(id, SetPduSpecific(v));
      id := (id & !0x0000_FF00) | ((v as bv32) << 8);
    }

    method AssignSourceAddress(v: bv8)
      modifies this
      ensures id == Apply(old(id), SetSourceAddress(v))
      ensures Assigns(old(id), SetSourceAddress(v))
    {
      ApplyAssigns(id, SetSourceAddress(v));
      id := (id & !0x0000_00FF) | (v as bv32);
    }

    /**
     * The getter clears the destination byte in a local copy unless the frame is a broadcast; what
     * it returns is the parameter group number of the header record.
     */
    method GetPgn() returns (r: bv32)
      ensures IsPgnOf(id, r)
    {
      var pgn := id & 0x03FF_FF00;
      if !IsBroadcast(id) {
        pgn := pgn & !0x0000_FF00;
        PeerTrims(id);
      } else {
        BroadcastTrims(id);
      }
      r := pgn >> 8;
      TrimmedIsPgn(id, pgn, r);
    }
  }
}
