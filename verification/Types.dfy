/** Addresses, NAMEs and the constants shared by every part of the stack. */
module J1939 {

  type Byte = x: int | 0 <= x < 256

  /** 0..253 are usable, 254 is the idle (null) address, 255 is the global address. */
  type Address = Byte

  const MAX_UNICAST: Address := 253
  const IDLE_ADDR: Address := 254
  const NO_ADDR: Address := 255

  predicate Unicast(a: Address) {
    a <= MAX_UNICAST
  }

  /**
   * A 64-bit NAME split at bit 63: `selfConfig` is that bit, `rank` the other 63 bits read as
   * a number. The comparison operators of the original look at `rank` alone; module NameCodec
   * ties this view to the raw bits.
   */
  datatype Name = Name(selfConfig: bool, rank: nat)

  /** operator<: a smaller rank is a higher priority. */
  predicate Stronger(a: Name, b: Name) {
    a.rank < b.rank
  }

  /** `<=` has no overload, so it compares all 64 bits, bit 63 being the most significant. */
  predicate RawAtMost(a: Name, b: Name) {
    if a.selfConfig == b.selfConfig then a.rank <= b.rank else b.selfConfig
  }

  datatype Option<+T> = None | Some(value: T)
}
