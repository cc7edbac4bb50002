/**
 * The 29-bit identifier of a frame: the setters and getters of the header on the packed word,
 * and the record of fields that the rest of the project works with.
 */
module HeaderCodec {
  import opened J1939
  import opened Words
  import opened Frames

  // ---------------------------------------------------------------- getters

  function Priority(id: bv32): bv8 {
    ((id & 0x1C00_0000) >> 26) as bv8
  }

  function DataPage(id: bv32): bv8 {
    ((id & 0x0100_0000) >> 24) as bv8
  }

  function PduFormat(id: bv32): bv8 {
    ((id >> 16) & 0xFF) as bv8
  }

  function PduSpecific(id: bv32): bv8 {
    ((id >> 8) & 0xFF) as bv8
  }

  function SourceAddress(id: bv32): bv8 {
    (id & 0xFF) as bv8
  }

  predicate IsBroadcast(id: bv32) {
    PduFormat(id) > 0xEF
  }

  /** The destination byte is cleared unless the frame is a broadcast. */
  function PgnBits(id: bv32): bv32 {
    (if IsBroadcast(id) then id & 0x03FF_FF00 else (id & 0x03FF_FF00) & !0x0000_FF00) >> 8
  }

  predicate IsRequest(id: bv32) {
    PgnBits(id) & 0x3_FF00 == 0xEA00
  }

  predicate IsClaim(id: bv32) {
    PgnBits(id) & 0x3_FF00 == 0xEE00
  }

  // ---------------------------------------------------------------- setters

  /** std::clamp to 0..7. */
  function Clamp7(v: bv8): bv8 {
    if v > 7 then 7 else v
  }

  function Bit(b: bool): bv32 {
    if b then 1 else 0
  }

  datatype Set =
    | SetPriority(v: bv8) | SetPgnBits(pgn: bv32) | SetDataPage(bit: bool)
    | SetPduFormat(v: bv8) | SetPduSpecific(v: bv8) | SetSourceAddress(v: bv8)

  function Apply(id: bv32, s: Set): bv32 {
    match s
    case SetPriority(v) => (id & !0x1C00_0000) | ((Clamp7(v) as bv32) << 26)
    case SetPgnBits(pgn) => (id & !0x03FF_FF00) | ((pgn & 0x3_FFFF) << 8)
    case SetDataPage(bit) => (id & !0x0100_0000) | (Bit(bit) << 24)
    case SetPduFormat(v) => (id & !0x00FF_0000) | ((v as bv32) << 16)
    case SetPduSpecific(v) => (id & !0x0000_FF00) | ((v as bv32) << 8)
    case SetSourceAddress(v) => (id & !0x0000_00FF) | (v as bv32)
  }

  /** The constructor from a parameter group number. */
  function Make(priority: bv8, pgn: bv32, sa: bv8): bv32 {
    ((Clamp7(priority) as bv32) << 26) | (pgn << 8) | (sa as bv32)
  }

  /** The constructor from all fields. */
  function MakeFields(priority: bv8, page: bool, pf: bv8, ps: bv8, sa: bv8): bv32 {
    Make(priority, (Bit(page) << 16) | ((pf as bv32) << 8) | (ps as bv32), sa)
  }

  // ---------------------------------------------------------------- fields

  /** The five disjoint fields of an identifier; `page` is the reserved bit and the data page bit. */
  datatype Fields = Fields(priority: bv8, page: bv8, pf: bv8, ps: bv8, sa: bv8)

  function Unpack(id: bv32): Fields {
    Fields(Priority(id), ((id & 0x0300_0000) >> 24) as bv8, PduFormat(id), PduSpecific(id), SourceAddress(id))
  }

  function Pack(f: Fields): bv32 {
    ((f.priority as bv32) << 26) | ((f.page as bv32) << 24) | ((f.pf as bv32) << 16) | ((f.ps as bv32) << 8)
        | (f.sa as bv32)
  }

  /** What a setter means. The data page is one of the bits that a parameter group number covers. */
  function Assign(f: Fields, s: Set): Fields {
    match s
    case SetPriority(v) => f.(priority := if v > 7 then 7 else v)
    case SetPgnBits(pgn) => f.(page := ((pgn >> 16) & 0x3) as bv8, pf := ((pgn >> 8) & 0xFF) as bv8,
        ps := (pgn & 0xFF) as bv8)
    case SetDataPage(bit) => f.(page := (f.page & 2) | (if bit then 1 else 0))
    case SetPduFormat(v) => f.(pf := v)
    case SetPduSpecific(v) => f.(ps := v)
    case SetSourceAddress(v) => f.(sa := v)
  }

  /** Setting on the packed word is assigning to the fields. */
  ghost predicate Assigns(id: bv32, s: Set) {
    Unpack(Apply(id, s)) == Assign(Unpack(id), s)
  }

  lemma PriorityAssigns(id: bv32, v: bv8)
    ensures Assigns(id, SetPriority(v))
  {
  }

  lemma PgnAssigns(id: bv32, pgn: bv32)
    ensures Assigns(id, SetPgnBits(pgn))
  {
  }

  lemma DataPageAssigns(id: bv32, bit: bool)
    ensures Assigns(id, SetDataPage(bit))
  {
  }

  lemma PduFormatAssigns(id: bv32, v: bv8)
    ensures Assigns(id, SetPduFormat(v))
  {
  }

  lemma PduSpecificAssigns(id: bv32, v: bv8)
    ensures Assigns(id, SetPduSpecific(v))
  {
  }

  lemma SourceAddressAssigns(id: bv32, v: bv8)
    ensures Assigns(id, SetSourceAddress(v))
  {
  }

  lemma ApplyAssigns(id: bv32, s: Set)
    ensures Assigns(id, s)
  {
    match s
    case SetPriority(v) => PriorityAssigns(id, v);
    case SetPgnBits(pgn) => PgnAssigns(id, pgn);
    case SetDataPage(bit) => DataPageAssigns(id, bit);
    case SetPduFormat(v) => PduFormatAssigns(id, v);
    case SetPduSpecific(v) => PduSpecificAssigns(id, v);
    case SetSourceAddress(v) => SourceAddressAssigns(id, v);
  }

  function ApplyAll(id: bv32, sets: seq<Set>): bv32
    decreases |sets|
  {
    if sets == [] then id else ApplyAll(Apply(id, sets[0]), sets[1..])
  }

  function AssignAll(f: Fields, sets: seq<Set>): Fields
    decreases |sets|
  {
    if sets == [] then f else AssignAll(Assign(f, sets[0]), sets[1..])
  }

  lemma {:induction false} SettersAssignFields(id: bv32, sets: seq<Set>)
    ensures Unpack(ApplyAll(id, sets)) == AssignAll(Unpack(id), sets)
    decreases |sets|
  {
    if sets != [] {
      ApplyAssigns(id, sets[0]);
      SettersAssignFields(Apply(id, sets[0]), sets[1..]);
    }
  }

  lemma UnpackThenPack(id: bv32)
    ensures Pack(Unpack(id)) == id & 0x1FFF_FFFF
  {
  }

  lemma HighBitsStay(id: bv32, s: Set)
    ensures id & 0xE000_0000 == 0 ==> Apply(id, s) & 0xE000_0000 == 0
  {
  }

  lemma {:induction false} SettersStayIn29Bits(id: bv32, sets: seq<Set>)
    requires id & 0xE000_0000 == 0
    ensures ApplyAll(id, sets) & 0xE000_0000 == 0
    decreases |sets|
  {
    if sets != [] {
      HighBitsStay(id, sets[0]);
      SettersStayIn29Bits(Apply(id, sets[0]), sets[1..]);
    }
  }

  lemma LowBits(id: bv32)
    ensures id & 0xE000_0000 == 0 ==> id & 0x1FFF_FFFF == id
  {
  }

  /** Whatever is set in whatever order, a 29-bit identifier is again the packing of its fields. */
  lemma SettersPackFields(id: bv32, sets: seq<Set>)
    requires id & 0xE000_0000 == 0
    ensures ApplyAll(id, sets) == Pack(AssignAll(Unpack(id), sets))
  {
    SettersStayIn29Bits(id, sets);
    SettersAssignFields(id, sets);
    UnpackThenPack(ApplyAll(id, sets));
    LowBits(ApplyAll(id, sets));
  }

  /** A parameter group number that was set comes back whole when its format is a broadcast one. */
  lemma SetThenGetBroadcast(id: bv32, pgn: bv32)
    requires ((pgn >> 8) & 0xFF) as bv8 > 0xEF
    ensures PgnBits(Apply(id, SetPgnBits(pgn))) == pgn & 0x3_FFFF
  {
  }

  /** Otherwise it comes back without its low byte. */
  lemma SetThenGetPeer(id: bv32, pgn: bv32)
    requires ((pgn >> 8) & 0xFF) as bv8 <= 0xEF
    ensures PgnBits(Apply(id, SetPgnBits(pgn))) == pgn & 0x3_FF00
  {
  }

  /** The data page getter reads the low bit of the page field. */
  lemma DataPageOfFields(id: bv32)
    ensures DataPage(id) == Unpack(id).page & 1
  {
  }

  /** Setting the data page, then getting it, gives the bit; the reserved bit stays. */
  lemma SetThenGetDataPage(id: bv32, bit: bool)
    ensures DataPage(Apply(id, SetDataPage(bit))) == if bit then 1 else 0
    ensures Unpack(Apply(id, SetDataPage(bit))).page & 2 == Unpack(id).page & 2
  {
    DataPageOfFields(Apply(id, SetDataPage(bit)));
    DataPageAssigns(id, bit);
  }

  lemma ClaimByFields(id: bv32)
    ensures IsClaim(id) <==> Unpack(id).page == 0 && Unpack(id).pf == 0xEE
  {
  }

  lemma RequestByFields(id: bv32)
    ensures IsRequest(id) <==> Unpack(id).page == 0 && Unpack(id).pf == 0xEA
  {
  }

  /** The constructor does not cut the number to 18 bits: the next three go into the priority. */
  lemma MakeUnpacks(priority: bv8, pgn: bv32, sa: bv8)
    ensures Unpack(Make(priority, pgn, sa))
         == Fields((if priority > 7 then 7 else priority) | ((pgn >> 18) & 0x7) as bv8, ((pgn >> 16) & 0x3) as bv8,
                   ((pgn >> 8) & 0xFF) as bv8, (pgn & 0xFF) as bv8, sa)
  {
  }

  lemma MakeFieldsUnpacks(priority: bv8, page: bool, pf: bv8, ps: bv8, sa: bv8)
    ensures Unpack(MakeFields(priority, page, pf, ps, sa))
         == Fields(if priority > 7 then 7 else priority, if page then 1 else 0, pf, ps, sa)
  {
  }

  // ---------------------------------------------------------------- numbers

  function Octet(x: bv8): Byte {
    Unsigned8(x)
  }

  function HeaderOf(f: Fields): Header {
    Header(Octet(f.priority), Octet(f.page), Octet(f.pf), Octet(f.ps), Octet(f.sa))
  }

  /** The header record of an identifier. */
  function Decode(id: bv32): Header {
    HeaderOf(Unpack(id))
  }

  function PgnWord(f: Fields, low: bv8): bv32 {
    ((f.page as bv32) << 16) | ((f.pf as bv32) << 8) | (low as bv32)
  }

  lemma WholeWord(id: bv32)
    ensures (id & 0x03FF_FF00) >> 8 == PgnWord(Unpack(id), PduSpecific(id))
  {
  }

  lemma BroadcastWord(id: bv32)
    requires IsBroadcast(id)
    ensures PgnBits(id) == PgnWord(Unpack(id), PduSpecific(id))
  {
    WholeWord(id);
  }

  lemma PeerWord(id: bv32)
    requires !IsBroadcast(id)
    ensures PgnBits(id) == PgnWord(Unpack(id), 0)
  {
  }

  ghost predicate Concatenates(x: bv32, d: bv8, c: bv8, b: bv8, a: bv8) {
    x == ((d as bv32) << 24) | ((c as bv32) << 16) | ((b as bv32) << 8) | (a as bv32)
  }

  lemma FourBytes(x: bv32, d: bv8, c: bv8, b: bv8, a: bv8)
    requires Concatenates(x, d, c, b, a)
    ensures Unsigned32(x) == 0x100_0000 * Unsigned8(d) + 0x1_0000 * Unsigned8(c) + 0x100 * Unsigned8(b) + Unsigned8(a)
  {
  }

  lemma WordNumber(f: Fields, low: bv8)
    ensures Unsigned32(PgnWord(f, low)) == 0x1_0000 * Unsigned8(f.page) + 0x100 * Unsigned8(f.pf) + Unsigned8(low)
  {
    FourBytes(PgnWord(f, low), 0, f.page, f.pf, low);
  }

  lemma BroadcastFormat(pf: bv8)
    ensures Octet(pf) > PF_PDU1_MAX <==> pf > 0xEF
  {
    Order8(0xEF, pf);
  }

  /** The getter on the packed word reads the parameter group number of the record. */
  lemma GetPgn(id: bv32)
    ensures Pgn(Decode(id)) == Unsigned32(PgnBits(id))
  {
    BroadcastFormat(PduFormat(id));
    if IsBroadcast(id) {
      BroadcastWord(id);
      WordNumber(Unpack(id), PduSpecific(id));
    } else {
      PeerWord(id);
      WordNumber(Unpack(id), 0);
    }
  }

  /** The digits of a number that the setter of the record stores. */
  ghost predicate Spells(n: nat, page: nat, pf: nat, ps: nat) {
    n / 0x1_0000 % 4 == page && n / 0x100 % 0x100 == pf && n % 0x100 == ps
  }

  lemma BytesSpell(d: nat, c: nat, b: nat, a: nat)
    requires d < 0x100 && c < 0x100 && b < 0x100 && a < 0x100
    ensures Spells(0x100_0000 * d + 0x1_0000 * c + 0x100 * b + a, c % 4, b, a)
  {
    var n := 0x100_0000 * d + 0x1_0000 * c + 0x100 * b + a;
    assert n / 0x1_0000 == 0x100 * d + c;
    assert n / 0x100 == 0x1_0000 * d + 0x100 * c + b;
  }

  /** The number a word spells is the parameter group number of the identifier's record. */
  ghost predicate IsPgnOf(id: bv32, r: bv32) {
    Unsigned32(r) == Pgn(Decode(id))
  }

  /** `pgn` is what the getter shifts down. */
  ghost predicate Trims(id: bv32, pgn: bv32) {
    pgn >> 8 == PgnBits(id)
  }

  lemma BroadcastTrims(id: bv32)
    requires IsBroadcast(id)
    ensures Trims(id, id & 0x03FF_FF00)
  {
  }

  lemma PeerTrims(id: bv32)
    requires !IsBroadcast(id)
    ensures Trims(id, (id & 0x03FF_FF00) & !0x0000_FF00)
  {
  }

  lemma TrimmedIsPgn(id: bv32, pgn: bv32, r: bv32)
    requires Trims(id, pgn) && r == pgn >> 8
    ensures IsPgnOf(id, r)
  {
    GetPgn(id);
  }

  lemma LowTwoBits(x: bv8)
    ensures Unsigned8(x & 0x3) == Unsigned8(x) % 4
  {
  }

  lemma AnyBytes(x: bv32)
    ensures Concatenates(x, ((x >> 24) & 0xFF) as bv8, ((x >> 16) & 0xFF) as bv8, ((x >> 8) & 0xFF) as bv8,
        (x & 0xFF) as bv8)
  {
  }

  lemma LowPageBits(pgn: bv32)
    ensures ((pgn >> 16) & 0x3) as bv8 == (((pgn >> 16) & 0xFF) as bv8) & 0x3
  {
  }

  lemma WordSpells(x: bv32, d: bv8, c: bv8, b: bv8, a: bv8)
    requires Concatenates(x, d, c, b, a)
    ensures Spells(Unsigned32(x), Unsigned8(c) % 4, Unsigned8(b), Unsigned8(a))
  {
    FourBytes(x, d, c, b, a);
    BytesSpell(Unsigned8(d), Unsigned8(c), Unsigned8(b), Unsigned8(a));
  }

  lemma NumberSpells(pgn: bv32)
    ensures Spells(Unsigned32(pgn), Unsigned8(((pgn >> 16) & 0x3) as bv8), Unsigned8(((pgn >> 8) & 0xFF) as bv8),
        Unsigned8((pgn & 0xFF) as bv8))
  {
    var d, c, b, a := ((pgn >> 24) & 0xFF) as bv8, ((pgn >> 16) & 0xFF) as bv8, ((pgn >> 8) & 0xFF) as bv8,
        (pgn & 0xFF) as bv8;
    AnyBytes(pgn);
    WordSpells(pgn, d, c, b, a);
    LowPageBits(pgn);
    LowTwoBits(c);
  }

  /** The setter on the packed word sets the parameter group number of the record. */
  lemma SetPgnOnRecord(id: bv32, pgn: bv32)
    ensures Decode(Apply(id, SetPgnBits(pgn))) == SetPgn(Decode(id), Unsigned32(pgn))
  {
    PgnAssigns(id, pgn);
    NumberSpells(pgn);
  }
}
