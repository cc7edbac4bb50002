/**
 * The 64-bit NAME: its packed fields, its eight payload bytes and its ordering.
 *
 * The rest of the project sees a NAME as a self-configuration bit and a 63-bit rank. Here that
 * view is tied to the raw bits: comparing raw NAMEs with bit 63 masked is comparing ranks.
 */
module NameCodec {
  import opened J1939
  import opened Words

  /** The fields as the getters return them, and the reserved bit 48 that no setter names. */
  datatype Parts = Parts(
    identity: bv32, manufacturer: bv16, ecuInstance: bv8, functionInstance: bv8, func: bv8,
    reserved: bv8, deviceClass: bv8, deviceClassInstance: bv8, industryGroup: bv8, selfConfig: bv8)

  function Split(raw: bv64): Parts {
    Parts(
      (raw & 0x0000_0000_001F_FFFF) as bv32,
      ((raw & 0x0000_0000_FFE0_0000) >> 21) as bv16,
      ((raw & 0x0000_0007_0000_0000) >> 32) as bv8,
      ((raw & 0x0000_00F8_0000_0000) >> 35) as bv8,
      ((raw & 0x0000_FF00_0000_0000) >> 40) as bv8,
      ((raw & 0x0001_0000_0000_0000) >> 48) as bv8,
      ((raw & 0x00FE_0000_0000_0000) >> 49) as bv8,
      ((raw & 0x0F00_0000_0000_0000) >> 56) as bv8,
      ((raw & 0x7000_0000_0000_0000) >> 60) as bv8,
      ((raw & 0x8000_0000_0000_0000) >> 63) as bv8)
  }

  /** The constructor from all fields; it takes no reserved bit. */
  function Join(p: Parts): bv64 {
    (((p.selfConfig as bv64) << 63) & 0x8000_0000_0000_0000)
    | (((p.industryGroup as bv64) << 60) & 0x7000_0000_0000_0000)
    | (((p.deviceClassInstance as bv64) << 56) & 0x0F00_0000_0000_0000)
    | (((p.deviceClass as bv64) << 49) & 0x00FE_0000_0000_0000)
    | (((p.func as bv64) << 40) & 0x0000_FF00_0000_0000)
    | (((p.functionInstance as bv64) << 35) & 0x0000_00F8_0000_0000)
    | (((p.ecuInstance as bv64) << 32) & 0x0000_0007_0000_0000)
    | (((p.manufacturer as bv64) << 21) & 0x0000_0000_FFE0_0000)
    | ((p.identity as bv64) & 0x0000_0000_001F_FFFF)
  }

  datatype Set =
    | Identity(id: bv32) | Manufacturer(code: bv16) | EcuInstance(v: bv8) | FunctionInstance(v: bv8)
    | Function(v: bv8) | DeviceClass(v: bv8) | DeviceClassInstance(v: bv8) | IndustryGroup(v: bv8)
    | SelfConfig(v: bv8)

  /** Clears the bits of `mask` and puts those of `x` there. */
  function Replace(raw: bv64, mask: bv64, x: bv64): bv64 {
    (raw & !mask) | (x & mask)
  }

  /** The setters. */
  function Apply(raw: bv64, s: Set): bv64 {
    match s
    case Identity(v) => Replace(raw, 0x0000_0000_001F_FFFF, v as bv64)
    case Manufacturer(v) => Replace(raw, 0x0000_0000_FFE0_0000, (v as bv64) << 21)
    case EcuInstance(v) => Replace(raw, 0x0000_0007_0000_0000, (v as bv64) << 32)
    case FunctionInstance(v) => Replace(raw, 0x0000_00F8_0000_0000, (v as bv64) << 35)
    case Function(v) => Replace(raw, 0x0000_FF00_0000_0000, (v as bv64) << 40)
    case DeviceClass(v) => Replace(raw, 0x00FE_0000_0000_0000, (v as bv64) << 49)
    case DeviceClassInstance(v) => Replace(raw, 0x0F00_0000_0000_0000, (v as bv64) << 56)
    case IndustryGroup(v) => Replace(raw, 0x7000_0000_0000_0000, (v as bv64) << 60)
    case SelfConfig(v) => Replace(raw, 0x8000_0000_0000_0000, (v as bv64) << 63)
  }

  /** What a setter means: one field takes the value cut to its width, no other moves. */
  function Assign(p: Parts, s: Set): Parts {
    match s
    case Identity(v) => p.(identity := v & 0x1F_FFFF)
    case Manufacturer(v) => p.(manufacturer := v & 0x7FF)
    case EcuInstance(v) => p.(ecuInstance := v & 0x07)
    case FunctionInstance(v) => p.(functionInstance := v & 0x1F)
    case Function(v) => p.(func := v)
    case DeviceClass(v) => p.(deviceClass := v & 0x7F)
    case DeviceClassInstance(v) => p.(deviceClassInstance := v & 0x0F)
    case IndustryGroup(v) => p.(industryGroup := v & 0x07)
    case SelfConfig(v) => p.(selfConfig := v & 0x01)
  }

  /** Setting on the packed word is assigning to the fields. */
  ghost predicate Assigns(raw: bv64, s: Set) {
    Split(Apply(raw, s)) == Assign(Split(raw), s)
  }

  lemma IdentityAssigns(raw: bv64, v: bv32)
    ensures Assigns(raw, Identity(v))
  {
  }

  lemma ManufacturerAssigns(raw: bv64, v: bv16)
    ensures Assigns(raw, Manufacturer(v))
  {
  }

  lemma EcuInstanceAssigns(raw: bv64, v: bv8)
    ensures Assigns(raw, EcuInstance(v))
  {
  }

  lemma FunctionInstanceAssigns(raw: bv64, v: bv8)
    ensures Assigns(raw, FunctionInstance(v))
  {
  }

  lemma FunctionAssigns(raw: bv64, v: bv8)
    ensures Assigns(raw, Function(v))
  {
  }

  lemma DeviceClassAssigns(raw: bv64, v: bv8)
    ensures Assigns(raw, DeviceClass(v))
  {
  }

  lemma DeviceClassInstanceAssigns(raw: bv64, v: bv8)
    ensures Assigns(raw, DeviceClassInstance(v))
  {
  }

  lemma IndustryGroupAssigns(raw: bv64, v: bv8)
    ensures Assigns(raw, IndustryGroup(v))
  {
  }

  lemma SelfConfigAssigns(raw: bv64, v: bv8)
    ensures Assigns(raw, SelfConfig(v))
  {
  }

  lemma ApplyAssigns(raw: bv64, s: Set)
    ensures Assigns(raw, s)
  {
    match s
    case Identity(v) => IdentityAssigns(raw, v);
    case Manufacturer(v) => ManufacturerAssigns(raw, v);
    case EcuInstance(v) => EcuInstanceAssigns(raw, v);
    case FunctionInstance(v) => FunctionInstanceAssigns(raw, v);
    case Function(v) => FunctionAssigns(raw, v);
    case DeviceClass(v) => DeviceClassAssigns(raw, v);
    case DeviceClassInstance(v) => DeviceClassInstanceAssigns(raw, v);
    case IndustryGroup(v) => IndustryGroupAssigns(raw, v);
    case SelfConfig(v) => SelfConfigAssigns(raw, v);
  }

  function ApplyAll(raw: bv64, sets: seq<Set>): bv64
    decreases |sets|
  {
    if sets == [] then raw else ApplyAll(Apply(raw, sets[0]), sets[1..])
  }

  function AssignAll(p: Parts, sets: seq<Set>): Parts
    decreases |sets|
  {
    if sets == [] then p else AssignAll(Assign(p, sets[0]), sets[1..])
  }

  lemma {:induction false} SettersAssignFields(raw: bv64, sets: seq<Set>)
    ensures Split(ApplyAll(raw, sets)) == AssignAll(Split(raw), sets)
    decreases |sets|
  {
    if sets != [] {
      ApplyAssigns(raw, sets[0]);
      SettersAssignFields(Apply(raw, sets[0]), sets[1..]);
    }
  }

  /** A full set of field values cut to the widths of the fields, with the reserved bit clear. */
  function Fit(p: Parts): Parts {
    Parts(p.identity & 0x1F_FFFF, p.manufacturer & 0x7FF, p.ecuInstance & 0x07, p.functionInstance & 0x1F, p.func, 0,
          p.deviceClass & 0x7F, p.deviceClassInstance & 0x0F, p.industryGroup & 0x07, p.selfConfig & 0x01)
  }

  lemma SplitThenJoin(raw: bv64)
    ensures Join(Split(raw)) == raw & 0xFFFE_FFFF_FFFF_FFFF
  {
  }

  lemma JoinThenSplit(p: Parts)
    ensures Split(Join(p)) == Fit(p)
  {
  }

  // ---------------------------------------------------------------- bytes

  /** The conversion to a payload, least significant byte first. */
  function Bytes(raw: bv64): (r: seq<bv8>)
    ensures |r| == 8
  {
    [(raw & 0xFF) as bv8, ((raw >> 8) & 0xFF) as bv8, ((raw >> 16) & 0xFF) as bv8, ((raw >> 24) & 0xFF) as bv8,
     ((raw >> 32) & 0xFF) as bv8, ((raw >> 40) & 0xFF) as bv8, ((raw >> 48) & 0xFF) as bv8, ((raw >> 56) & 0xFF) as bv8]
  }

  /** The constructor from a payload. */
  function FromBytes(b: seq<bv8>): bv64
    requires |b| == 8
  {
    (b[0] as bv64) | ((b[1] as bv64) << 8) | ((b[2] as bv64) << 16) | ((b[3] as bv64) << 24)
    | ((b[4] as bv64) << 32) | ((b[5] as bv64) << 40) | ((b[6] as bv64) << 48) | ((b[7] as bv64) << 56)
  }

  /** One step of gathering: `r` has the bits of `acc` and of `x`. */
  predicate Adds(acc: bv64, x: bv64, r: bv64) {
    r == acc | x
  }

  /** Gathering the bytes one after the other, from nothing, gives the same NAME. */
  lemma Gathered(b: seq<bv8>, r0: bv64, r1: bv64, r2: bv64, r3: bv64, r4: bv64, r5: bv64, r6: bv64, r7: bv64)
    requires |b| == 8
    requires Adds(0, b[0] as bv64, r0) && Adds(r0, (b[1] as bv64) << 8, r1)
    requires Adds(r1, (b[2] as bv64) << 16, r2) && Adds(r2, (b[3] as bv64) << 24, r3)
    requires Adds(r3, (b[4] as bv64) << 32, r4) && Adds(r4, (b[5] as bv64) << 40, r5)
    requires Adds(r5, (b[6] as bv64) << 48, r6) && Adds(r6, (b[7] as bv64) << 56, r7)
    ensures r7 == FromBytes(b)
  {
  }

  lemma BytesRoundTrip(raw: bv64)
    ensures FromBytes(Bytes(raw)) == raw
  {
  }

  lemma FromBytesRoundTrip(b: seq<bv8>)
    requires |b| == 8
    ensures Bytes(FromBytes(b)) == b
  {
  }

  // ---------------------------------------------------------------- order

  /** The view of a raw NAME that the rest of the project works with. */
  function FromRaw(raw: bv64): Name {
    Name(raw & 0x8000_0000_0000_0000 != 0, Unsigned64(raw & 0x7FFF_FFFF_FFFF_FFFF))
  }

  /** operator<, operator> and operator== on raw NAMEs: bit 63 is masked away. */
  predicate Less(a: bv64, b: bv64) {
    a & 0x7FFF_FFFF_FFFF_FFFF < b & 0x7FFF_FFFF_FFFF_FFFF
  }

  predicate Equal(a: bv64, b: bv64) {
    a & 0x7FFF_FFFF_FFFF_FFFF == b & 0x7FFF_FFFF_FFFF_FFFF
  }

  /** The words compare as the ranks of the names do. */
  ghost predicate Compare(x: bv64, y: bv64, n: Name, m: Name) {
    (x < y <==> Stronger(n, m)) && (y < x <==> Stronger(m, n)) && (x == y <==> n.rank == m.rank)
  }

  lemma ReadingsCompare(x: bv64, y: bv64, n: Name, m: Name)
    requires Reads64(x, y, n.rank, m.rank)
    ensures Compare(x, y, n, m)
  {
  }

  lemma WordOrder(x: bv64, y: bv64, n: Name, m: Name)
    requires n.rank == Unsigned64(x) && m.rank == Unsigned64(y)
    ensures Compare(x, y, n, m)
  {
    Order64(x, y);
    ReadingsCompare(x, y, n, m);
  }

  lemma MaskedOrder(a: bv64, b: bv64)
    ensures Compare(a & 0x7FFF_FFFF_FFFF_FFFF, b & 0x7FFF_FFFF_FFFF_FFFF, FromRaw(a), FromRaw(b))
  {
    WordOrder(a & 0x7FFF_FFFF_FFFF_FFFF, b & 0x7FFF_FFFF_FFFF_FFFF, FromRaw(a), FromRaw(b));
  }

  /** The masked operators compare ranks: exactly one of <, == and > holds of any two NAMEs. */
  lemma OperatorsCompareRanks(a: bv64, b: bv64)
    ensures Less(a, b) <==> Stronger(FromRaw(a), FromRaw(b))
    ensures Less(b, a) <==> Stronger(FromRaw(b), FromRaw(a))
    ensures Equal(a, b) <==> FromRaw(a).rank == FromRaw(b).rank
  {
    MaskedOrder(a, b);
  }

  lemma SameTopBit(a: bv64, b: bv64)
    ensures (a & 0x8000_0000_0000_0000 != 0) == (b & 0x8000_0000_0000_0000 != 0) ==>
              (a <= b <==> !(b & 0x7FFF_FFFF_FFFF_FFFF < a & 0x7FFF_FFFF_FFFF_FFFF))
  {
  }

  lemma OtherTopBit(a: bv64, b: bv64)
    ensures (a & 0x8000_0000_0000_0000 != 0) != (b & 0x8000_0000_0000_0000 != 0) ==>
              (a <= b <==> b & 0x8000_0000_0000_0000 != 0)
  {
  }

  /** The built-in `<=` on the converted values sees bit 63 as the most significant one. */
  lemma RawComparison(a: bv64, b: bv64)
    ensures a <= b <==> RawAtMost(FromRaw(a), FromRaw(b))
  {
    OperatorsCompareRanks(a, b);
    SameTopBit(a, b);
    OtherTopBit(a, b);
  }

  lemma TopBitAndRest(a: bv64, b: bv64)
    ensures (a & 0x8000_0000_0000_0000 != 0) == (b & 0x8000_0000_0000_0000 != 0) ==>
              (a & 0x7FFF_FFFF_FFFF_FFFF == b & 0x7FFF_FFFF_FFFF_FFFF ==> a == b)
  {
  }

  /** The view keeps all 64 bits. */
  lemma ViewIsFaithful(a: bv64, b: bv64)
    ensures FromRaw(a) == FromRaw(b) ==> a == b
  {
    OperatorsCompareRanks(a, b);
    TopBitAndRest(a, b);
  }

  /**
   * The hash function looks at all 64 bits, operator== at 63: two NAMEs that compare equal are
   * hashed apart exactly when one is the other with bit 63 flipped.
   */
  lemma EqualNamesDifferOnlyInBit63(a: bv64, b: bv64)
    ensures Equal(a, b) && a != b <==> FromRaw(b) == FromRaw(a).(selfConfig := !FromRaw(a).selfConfig)
  {
    OperatorsCompareRanks(a, b);
    TopBitAndRest(a, b);
  }
}
