/**
 * The address frames on the wire: how claims, cannot-claims and requests are packed into an
 * identifier and eight bytes, and what a receiver takes such a frame for.
 */
module Wire {
  import opened J1939
  import opened AddressMachine
  import opened Bus
  import opened BusReplies
  import opened BusUniqueness
  import opened Words
  import NameCodec
  import HeaderCodec

  datatype Frame = Frame(id: bv32, payload: seq<bv8>)

  const PF_ADDRESS_CLAIM: bv8 := 0xEE
  const PF_REQUEST: bv8 := 0xEA

  // ---------------------------------------------------------------- building

  function MakeRequest(ps: bv8): Frame {
    Frame(HeaderCodec.MakeFields(6, false, PF_REQUEST, ps, 254), [0x00, 0xEE, 0x00, 0, 0, 0, 0, 0])
  }

  function MakeClaim(raw: bv64, address: bv8): Frame {
    Frame(HeaderCodec.MakeFields(6, false, PF_ADDRESS_CLAIM, 255, address), NameCodec.Bytes(raw))
  }

  function MakeCannotClaim(raw: bv64): Frame {
    Frame(HeaderCodec.MakeFields(6, false, PF_ADDRESS_CLAIM, 255, 254), NameCodec.Bytes(raw))
  }

  // ---------------------------------------------------------------- the frames field by field

  /** The parameter group that a request asks for, in its first three bytes. */
  function AskedFor(f: Frame): bv32
    requires |f.payload| == 8
  {
    (f.payload[0] as bv32) | ((f.payload[1] as bv32) << 8) | ((f.payload[2] as bv32) << 16)
  }

  /** A request has priority 6, comes from the idle address and asks for the group of address claims. */
  lemma RequestFields(ps: bv8, id: bv32)
    ensures HeaderCodec.Unpack(MakeRequest(ps).id) == HeaderCodec.Fields(6, 0, 0xEA, ps, 254)
    ensures MakeRequest(255).id == 0x18EA_FFFE
    ensures |MakeRequest(ps).payload| == 8 && AskedFor(MakeRequest(ps)) == 0xEE00
    ensures forall i | 3 <= i < 8 :: MakeRequest(ps).payload[i] == 0
    ensures HeaderCodec.IsClaim(id) <==> HeaderCodec.PgnBits(id) & 0x3_FF00 == AskedFor(MakeRequest(ps))
  {
    HeaderCodec.MakeFieldsUnpacks(6, false, 0xEA, ps, 254);
  }

  /** A claim has priority 6, goes to everyone and comes from the claimed address. */
  lemma ClaimFields(raw: bv64, address: bv8)
    ensures HeaderCodec.Unpack(MakeClaim(raw, address).id) == HeaderCodec.Fields(6, 0, 0xEE, 255, address)
    ensures MakeClaim(raw, address).id == 0x18EE_FF00 | (address as bv32)
    ensures MakeClaim(raw, address).payload == NameCodec.Bytes(raw)
  {
    HeaderCodec.MakeFieldsUnpacks(6, false, 0xEE, 255, address);
  }

  /** A cannot-claim is a claim from the idle address. */
  lemma CannotClaimFields(raw: bv64)
    ensures HeaderCodec.Unpack(MakeCannotClaim(raw).id) == HeaderCodec.Fields(6, 0, 0xEE, 255, 254)
    ensures MakeCannotClaim(raw).id == 0x18EE_FFFE && MakeCannotClaim(raw).payload == NameCodec.Bytes(raw)
  {
    HeaderCodec.MakeFieldsUnpacks(6, false, 0xEE, 255, 254);
  }

  /** The eight bytes of a NAME in the order they are sent, field by field. */
  lemma NameBytes(raw: bv64)
    ensures var b, p := NameCodec.Bytes(raw), NameCodec.Split(raw);
            && b[0] == (p.identity & 0xFF) as bv8 && b[1] == ((p.identity >> 8) & 0xFF) as bv8
            && b[2] == (((p.identity >> 16) & 0x1F) as bv8) | (((p.manufacturer & 0x7) as bv8) << 5)
            && b[3] == ((p.manufacturer >> 3) & 0xFF) as bv8
            && b[4] == p.ecuInstance | (p.functionInstance << 3) && b[5] == p.func
            && b[6] == p.reserved | (p.deviceClass << 1)
            && b[7] == p.deviceClassInstance | (p.industryGroup << 4) | (p.selfConfig << 7)
  {
  }

  // ---------------------------------------------------------------- receiving

  /** The dispatch of a received frame. */
  function Process(n: Node, f: Frame): Node
    requires |f.payload| == 8
  {
    if HeaderCodec.IsClaim(f.id) then
      ProcessClaim(n, NameCodec.FromRaw(NameCodec.FromBytes(f.payload)),
          HeaderCodec.Octet(HeaderCodec.SourceAddress(f.id)))
    else if HeaderCodec.IsRequest(f.id) then
      Post(n, AddressRequest(HeaderCodec.Octet(HeaderCodec.PduSpecific(f.id))))
    else n
  }

  lemma ClaimArrives(n: Node, raw: bv64, address: bv8)
    ensures Process(n, MakeClaim(raw, address)) == ProcessClaim(n, NameCodec.FromRaw(raw), HeaderCodec.Octet(address))
  {
    var id := HeaderCodec.MakeFields(6, false, PF_ADDRESS_CLAIM, 255, address);
    HeaderCodec.MakeFieldsUnpacks(6, false, PF_ADDRESS_CLAIM, 255, address);
    HeaderCodec.ClaimByFields(id);
    NameCodec.BytesRoundTrip(raw);
  }

  lemma RequestArrives(n: Node, ps: bv8)
    ensures Process(n, MakeRequest(ps)) == Post(n, AddressRequest(HeaderCodec.Octet(ps)))
  {
  }

  // ---------------------------------------------------------------- runs over the wire

  /** The frame in which a station whose NAME is `raw` sends a message. */
  function Encode(raw: bv64, m: Msg): Frame {
    match m
    case Claim(_, a) => if a == IDLE_ADDR then MakeCannotClaim(raw) else MakeClaim(raw, Octet8(a))
    case Request(dest) => MakeRequest(Octet8(dest))
  }

  /** The message is one that a station of this NAME could send: it claims for no other. */
  predicate Speaks(raw: bv64, m: Msg) {
    m.Claim? ==> m.name == NameCodec.FromRaw(raw)
  }

  ghost predicate Carries(n: Node, f: Frame, m: Msg) {
    |f.payload| == 8 && Process(n, f) == Step(n, Receive(m)).node
  }

  lemma ClaimCarries(n: Node, raw: bv64, a: Address)
    ensures Carries(n, MakeClaim(raw, Octet8(a)), Claim(NameCodec.FromRaw(raw), a))
  {
    ClaimArrives(n, raw, Octet8(a));
  }

  lemma CannotClaimCarries(n: Node, raw: bv64)
    ensures Carries(n, MakeCannotClaim(raw), Claim(NameCodec.FromRaw(raw), IDLE_ADDR))
  {
    ClaimArrives(n, raw, 254);
    assert MakeCannotClaim(raw) == MakeClaim(raw, 254);
  }

  lemma RequestCarries(n: Node, dest: Address)
    ensures Carries(n, MakeRequest(Octet8(dest)), Request(dest))
  {
    RequestArrives(n, Octet8(dest));
  }

  /** Receiving the frame is receiving the message. */
  lemma FrameCarriesMessage(n: Node, raw: bv64, m: Msg)
    requires Speaks(raw, m)
    ensures Carries(n, Encode(raw, m), m)
  {
    match m
    case Claim(_, a) => if a == IDLE_ADDR { CannotClaimCarries(n, raw); } else { ClaimCarries(n, raw, a); }
    case Request(dest) => RequestCarries(n, dest);
  }

  /** What happens to a claimer whose bus carries frames. */
  datatype WireInput = Arrives(f: Frame) | Local(i: Input)

  predicate Whole(w: WireInput) {
    w.Arrives? ==> |w.f.payload| == 8
  }

  function WireStep(n: Node, w: WireInput): Effect
    requires Whole(w)
  {
    match w
    case Arrives(f) => Effect(Process(n, f), [])
    case Local(i) => Step(n, i)
  }

  function WireRun(n: Node, ws: seq<WireInput>): Effect
    requires forall k | 0 <= k < |ws| :: Whole(ws[k])
    decreases |ws|
  {
    if ws == [] then Effect(n, [])
    else
      var e := WireStep(n, ws[0]);
      var r := WireRun(e.node, ws[1..]);
      Effect(r.node, e.sent + r.sent)
  }

  /** The same input with its message, if it has one, put into a frame by the station `raw`. */
  function Carried(raw: bv64, i: Input): (w: WireInput)
    ensures Whole(w)
  {
    if i.Receive? then Arrives(Encode(raw, i.msg)) else Local(i)
  }

  function CarriedAll(raws: seq<bv64>, ins: seq<Input>): (ws: seq<WireInput>)
    requires |raws| == |ins|
    ensures |ws| == |ins| && forall k | 0 <= k < |ws| :: ws[k] == Carried(raws[k], ins[k])
  {
    seq(|ins|, k requires 0 <= k < |ins| && |raws| == |ins| => Carried(raws[k], ins[k]))
  }

  /** Every run of a claimer is the same run when its messages travel as frames. */
  lemma {:induction false} RunOverFrames(n: Node, raws: seq<bv64>, ins: seq<Input>)
    requires |raws| == |ins| && forall k | 0 <= k < |ins| :: ins[k].Receive? ==> Speaks(raws[k], ins[k].msg)
    ensures WireRun(n, CarriedAll(raws, ins)) == Run(n, ins)
    decreases |ins|
  {
    if ins != [] {
      if ins[0].Receive? { FrameCarriesMessage(n, raws[0], ins[0].msg); }
      assert CarriedAll(raws, ins)[1..] == CarriedAll(raws[1..], ins[1..]);
      RunOverFrames(Step(n, ins[0]).node, raws[1..], ins[1..]);
    }
  }

  // ---------------------------------------------------------------- the bus over the wire

  function Names(raws: seq<bv64>): (names: seq<Name>)
    ensures |names| == |raws| && forall i | 0 <= i < |raws| :: names[i] == NameCodec.FromRaw(raws[i])
  {
    seq(|raws|, i requires 0 <= i < |raws| => NameCodec.FromRaw(raws[i]))
  }

  /** No two of the NAMEs compare equal. */
  ghost predicate AllDiffer(raws: seq<bv64>) {
    forall i, j | 0 <= i < |raws| && 0 <= j < |raws| && NameCodec.Equal(raws[i], raws[j]) :: i == j
  }

  lemma DifferentNames(raws: seq<bv64>)
    requires AllDiffer(raws)
    ensures DistinctNames(Names(raws))
  {
    forall i, j | 0 <= i < |raws| && 0 <= j < |raws| && Names(raws)[i].rank == Names(raws)[j].rank
      ensures i == j
    {
      NameCodec.OperatorsCompareRanks(raws[i], raws[j]);
    }
  }

  /**
   * Stations with raw NAMEs of which no two compare equal, `raws` listing those that were there
   * from the start and those that joined: whatever is put on the bus in any run, the frame its
   * sender builds for it acts on every receiver as the message itself.
   */
  lemma BusTravelsAsFrames(early: seq<bv64>, raws: seq<bv64>, mvs: seq<Move>, b: Bus, k: nat, n: Node)
    requires AllDiffer(early) && Reaches(Off(Names(early)), mvs, b) && k < |b.log|
    requires |raws| == |b.stations|
    requires forall i | 0 <= i < |raws| :: b.stations[i].node.me == NameCodec.FromRaw(raws[i])
    ensures b.log[k].from < |raws|
    ensures Process(n, Encode(raws[b.log[k].from], b.log[k].msg)) == Step(n, Receive(b.log[k].msg)).node
  {
    DifferentNames(early);
    OffInv(Names(early));
    var all := ReachableInv(Names(early), Off(Names(early)), mvs, b);
    FrameCarriesMessage(n, raws[b.log[k].from], b.log[k].msg);
  }
}
