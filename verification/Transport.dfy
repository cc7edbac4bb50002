/**
 * The transport protocol: segmentation and reassembly by broadcast announcement (BAM) and by
 * request and clear to send (RTS/CTS). `Tp` is the transport as a value and the functions on it
 * are the specification; class TransportProtocol performs them in place.
 */
module Transport {
  import opened J1939
  import opened Frames

  const PGN_CM := 0xEC00
  const PGN_DT := 0xEB00

  const RTS: Byte := 0x10
  const CTS: Byte := 0x11
  const EOM: Byte := 0x13
  const BAM: Byte := 0x20
  const ABORT: Byte := 0xFF

  const ABORT_RESOURCES_BUSY: Byte := 2
  const ABORT_TIMEOUT: Byte := 3
  const ABORT_UNEXPECTED_PACKET: Byte := 6
  const ABORT_BAD_SEQUENCE: Byte := 7
  const ABORT_DUPLICATE_SEQ: Byte := 8

  /** Milliseconds. */
  const T2 := 1250
  const T3 := 1250
  const SESSION_CLEAN_TIMEOUT := 600000

  const MAX_SIZE := 1785

  datatype Direction = Tx | Rx
  datatype Progress = InProgress | Completed | Aborted

  datatype Session = Session(
    dir: Direction,
    buffer: seq<Byte>,
    total: Byte,
    next: Byte,
    length: nat,
    window: Byte,
    dest: Address,
    src: Address,
    pgn: nat,
    bam: bool,
    last: int,
    state: Progress)

  /** Source and destination address. */
  type Key = (Address, Address)

  datatype Data = Data(header: Header, payload: seq<Byte>)

  datatype Error =
    | PayloadTooLarge | SendBamFailed | SendRtsFailed | SendDtFailed | SendEomFailed
    | TimedOut | CtsWithoutSession | DtWithoutSession | EomWithoutSession
    | DtBadSequence | DtDuplicate | DtUnexpected | RemoteAbort(code: Byte)

  /**
   * `link` foretells the bus: each attempt to send consumes its head, false being a refusal;
   * once it is empty every frame is accepted.
   */
  datatype Tp = Tp(
    local: Address,
    sessions: map<Key, Session>,
    link: seq<bool>,
    sent: seq<Frame>,
    delivered: seq<Data>,
    errors: seq<Error>)

  // ---------------------------------------------------------------- frames

  function BaseFrame(pgn: nat, dst: Address, src: Address, payload: Payload): Frame {
    Frame(SetPgn(BLANK, pgn).(ps := dst, sa := src), payload)
  }

  function CmPayload(ctrl: Byte, b1: Byte, b2: Byte, b3: Byte, b4: Byte, pgn: nat): Payload {
    [ctrl, b1, b2, b3, b4, pgn % 0x100, pgn / 0x100 % 0x100, pgn / 0x10000 % 0x100]
  }

  /** The connection management frame that announces a session. */
  function Announce(ctrl: Byte, s: Session, dst: Address, src: Address): Frame {
    BaseFrame(PGN_CM, dst, src, CmPayload(ctrl, s.length % 0x100, s.length / 0x100 % 0x100, s.total, s.window, s.pgn))
  }

  function CtsFrame(s: Session): Frame {
    BaseFrame(PGN_CM, s.src, s.dest, CmPayload(CTS, s.window, s.next, 0, 0, s.pgn))
  }

  function EomFrame(s: Session): Frame {
    BaseFrame(PGN_CM, s.src, s.dest, CmPayload(EOM, s.length % 0x100, s.length / 0x100 % 0x100, s.total, 0xFF, s.pgn))
  }

  function AbortFrame(s: Session, code: Byte): Frame {
    BaseFrame(PGN_CM, s.src, s.dest, CmPayload(ABORT, code, 0, 0, 0, s.pgn))
  }

  /** The i-th group of seven bytes (from 0), padded with zeros. */
  function Chunk(data: seq<Byte>, i: nat): (c: seq<Byte>)
    ensures |c| == 7
  {
    seq(7, j requires 0 <= j < 7 => if 7 * i + j < |data| then data[7 * i + j] else 0)
  }

  function DtFrame(s: Session, seqNo: Byte): Frame
    requires seqNo >= 1
  {
    BaseFrame(PGN_DT, s.dest, s.src, [seqNo] + Chunk(s.buffer, seqNo - 1))
  }

  function PayloadPgn(fr: Frame): nat {
    fr.payload[5] as int + fr.payload[6] as int * 0x100 + fr.payload[7] as int * 0x10000
  }

  function PayloadLength(fr: Frame): nat {
    fr.payload[1] as int + fr.payload[2] as int * 0x100
  }

  predicate IsCm(fr: Frame) {
    Pgn(fr.header) == PGN_CM
  }

  predicate IsDt(fr: Frame) {
    Pgn(fr.header) == PGN_DT
  }

  // ---------------------------------------------------------------- the bus

  predicate Accepted(t: Tp) {
    t.link == [] || t.link[0]
  }

  /** One attempt to send. */
  function Send(t: Tp, fr: Frame): Tp {
    t.(link := Rest(t.link), sent := if Accepted(t) then t.sent + [fr] else t.sent)
  }

  function Report(t: Tp, e: Error): Tp {
    t.(errors := t.errors + [e])
  }

  function Store(t: Tp, k: Key, s: Session): Tp {
    t.(sessions := t.sessions[k := s])
  }

  // ---------------------------------------------------------------- sending

  function Packets(length: nat): nat {
    (length + 6) / 7
  }

  function TxSession(t: Tp, data: seq<Byte>, dest: Address, pgn: nat, now: int): Session
    requires |data| <= MAX_SIZE
  {
    Session(Tx, data, Packets(|data|), 1, |data|, 0xFF, dest, t.local, pgn, dest == NO_ADDR, now, InProgress)
  }

  /** Nothing is sent for 8 bytes or less, and more than 1785 bytes are refused. */
  function StartTx(t: Tp, data: seq<Byte>, dest: Address, pgn: nat, now: int): (Tp, bool) {
    if |data| <= 8 then (t, false)
    else if |data| > MAX_SIZE then (Report(t, PayloadTooLarge), false)
    else
      var s := TxSession(t, data, dest, pgn, now);
      var k := (s.src, s.dest);
      var t1 := Store(t, k, s);
      if s.bam then
        var t2 := Send(t1, Announce(BAM, s, NO_ADDR, s.src));
        if Accepted(t1) then
          PacedStays(s.next, s.total, |s.buffer|, t2.link, s.window);
          SendDataPackets(t2, k, now)
        else (Send(Report(t2, SendBamFailed), AbortFrame(s, ABORT_RESOURCES_BUSY)), false)
      else
        var t2 := Send(t1, Announce(RTS, s, s.dest, s.src));
        if Accepted(t1) then (t2, true)
        else (Send(Report(t2, SendRtsFailed), AbortFrame(s, ABORT_RESOURCES_BUSY)), false)
  }

  /** Packet `n` of a message of `size` bytes starts inside it; elsewhere the copy would be undefined. */
  predicate Inside(n: nat, size: nat) {
    1 <= n && (n - 1) * 7 <= size
  }

  function Rest(link: seq<bool>): seq<bool> {
    if link == [] then [] else link[1..]
  }

  /** Every packet that a loop of up to `count` packets comes to starts inside the buffer. */
  predicate Stays(next: Byte, total: Byte, size: nat, link: seq<bool>, count: nat)
    decreases count
  {
    next <= total && count > 0 ==>
      && Inside(next, size)
      && (link == [] || link[0] ==> Stays((next + 1) % 0x100, total, size, Rest(link), count - 1))
  }

  /** The packet loop of the session is defined. */
  predicate CanLoop(t: Tp, k: Key, count: nat) {
    k in t.sessions && var s := t.sessions[k]; Stays(s.next, s.total, |s.buffer|, t.link, count)
  }

  /** The last of the packets starts inside the message. */
  predicate Sound(total: nat, size: nat) {
    total >= 1 ==> Inside(total, size)
  }

  /** The 8-bit counter does not run over. */
  predicate Paced(next: Byte, total: Byte, count: nat) {
    count > 0 ==> next >= 1 && (total == 255 ==> next + count <= 256)
  }

  lemma {:induction false} PacedStays(next: Byte, total: Byte, size: nat, link: seq<bool>, count: nat)
    requires Sound(total, size) && Paced(next, total, count)
    ensures Stays(next, total, size, link, count)
    decreases count
  {
    if next <= total && count > 0 {
      PacedStays((next + 1) % 0x100, total, size, Rest(link), count - 1);
    }
  }

  /** On a bus that accepts every frame nothing less will do. */
  lemma {:induction false} StaysExactly(next: Byte, total: Byte, size: nat, count: nat)
    requires Sound(total, size)
    ensures Stays(next, total, size, [], count) <==> Paced(next, total, count)
    decreases count
  {
    if next <= total && count > 0 {
      StaysExactly((next + 1) % 0x100, total, size, count - 1);
    }
  }

  function Stamp(s: Session, now: int): Session {
    s.(last := now, next := (s.next + 1) % 0x100)
  }

  /** Sends up to `count` packets; the counter is 8 bits wide. Ends early on a refused frame. */
  function SendLoop(t: Tp, k: Key, count: nat, now: int): (Tp, bool)
    requires CanLoop(t, k, count)
    ensures k in SendLoop(t, k, count, now).0.sessions
    decreases count
  {
    var s := t.sessions[k];
    if s.next > s.total || count == 0 then (t, true)
    else
      var t1 := Send(t, DtFrame(s, s.next));
      if Accepted(t) then SendLoop(Store(t1, k, Stamp(s, now)), k, count - 1, now)
      else (Send(Report(t1, SendDtFailed), AbortFrame(s, ABORT_RESOURCES_BUSY)), false)
  }

  function SendEomAck(t: Tp, s: Session): Tp {
    if s.bam then t
    else if Accepted(t) then Send(t, EomFrame(s))
    else Report(Send(t, EomFrame(s)), SendEomFailed)
  }

  function SendDataPackets(t: Tp, k: Key, now: int): (Tp, bool)
    requires k in t.sessions && CanLoop(t, k, t.sessions[k].window)
  {
    var (t1, ok) := SendLoop(t, k, t.sessions[k].window, now);
    if !ok then (t1, false)
    else
      var s := t1.sessions[k];
      if s.next > s.total then (Store(SendEomAck(t1, s), k, s.(state := Completed)), true)
      else (t1, false)
  }

  // ---------------------------------------------------------------- receiving

  /** The three sequence checks let a packet through exactly when it is the next one wanted. */
  predicate Passes(s: Session, seqNo: Byte) {
    1 <= seqNo <= s.total && seqNo == s.next
  }

  /** A packet that passes lands inside the buffer, and its window test does not divide by zero. */
  predicate Takes(s: Session, seqNo: Byte) {
    Passes(s, seqNo) ==> Inside(seqNo, |s.buffer|) && (seqNo == s.total || s.window >= 1)
  }

  predicate DtDefined(t: Tp, fr: Frame) {
    var k := (fr.header.sa, fr.header.ps);
    k in t.sessions ==> Takes(t.sessions[k], fr.payload[0])
  }

  /** The session a clear-to-send asks for the next window. */
  function Granted(s: Session, fr: Frame): Session {
    s.(window := fr.payload[1], next := fr.payload[2])
  }

  predicate CtsDefined(t: Tp, fr: Frame) {
    var k := (t.local, fr.header.sa);
    k in t.sessions ==> CanLoop(Store(t, k, Granted(t.sessions[k], fr)), k, fr.payload[1])
  }

  /** The receiving code neither leaves a buffer nor divides by zero on this frame. */
  predicate FrameDefined(t: Tp, fr: Frame) {
    (IsDt(fr) ==> DtDefined(t, fr)) && (IsCm(fr) && fr.payload[0] == CTS ==> CtsDefined(t, fr))
  }

  predicate SessionOk(k: Key, s: Session) {
    s.src == k.0 && s.dest == k.1 && |s.buffer| == s.length
  }

  predicate Valid(t: Tp) {
    forall k | k in t.sessions :: SessionOk(k, t.sessions[k])
  }

  function RxSession(fr: Frame, dest: Address, window: Byte, bam: bool, now: int): Session {
    Session(Rx, seq(PayloadLength(fr), _ => 0), fr.payload[3], 1, PayloadLength(fr), window, dest, fr.header.sa,
            PayloadPgn(fr), bam, now, InProgress)
  }

  function StartRxRts(t: Tp, fr: Frame, now: int): Tp {
    if fr.header.ps != t.local then t
    else
      var s := RxSession(fr, fr.header.ps, fr.payload[4], false, now);
      Send(Store(t, (s.src, s.dest), s), CtsFrame(s))
  }

  function StartRxBam(t: Tp, fr: Frame, now: int): Tp {
    Store(t, (fr.header.sa, NO_ADDR), RxSession(fr, NO_ADDR, 0xFF, true, now))
  }

  /** The stand-in session an abort is built from when there is none. */
  function Dummy(dest: Address, src: Address, pgn: nat): Session {
    Session(Rx, [], 0, 1, 0, 0, dest, src, pgn, false, 0, InProgress)
  }

  /** A frame that belongs to no session is answered with an abort and reported. */
  function Stray(t: Tp, fr: Frame, dest: Address, src: Address, e: Error): Tp {
    Report(Send(t, AbortFrame(Dummy(dest, src, PayloadPgn(fr)), ABORT_UNEXPECTED_PACKET)), e)
  }

  function HandleCts(t: Tp, fr: Frame, now: int): Tp
    requires CtsDefined(t, fr)
  {
    var k := (t.local, fr.header.sa);
    if k in t.sessions then SendDataPackets(Store(t, k, Granted(t.sessions[k], fr)), k, now).0
    else
      Stray(t, fr, fr.header.sa, t.local, CtsWithoutSession)
  }

  function HandleAbort(t: Tp, fr: Frame): Tp {
    var k := (t.local, fr.header.sa);
    if k in t.sessions then
      Report(Store(t, k, t.sessions[k].(state := Aborted)), RemoteAbort(fr.payload[1]))
    else t
  }

  function CompleteRx(t: Tp, fr: Frame): Tp {
    var k := (fr.header.sa, fr.header.ps);
    if k in t.sessions then Store(t, k, t.sessions[k].(state := Completed))
    else Stray(t, fr, t.local, fr.header.sa, EomWithoutSession)
  }

  function HandleCm(t: Tp, fr: Frame, now: int): Tp
    requires fr.payload[0] == CTS ==> CtsDefined(t, fr)
  {
    if fr.payload[0] == RTS then StartRxRts(t, fr, now)
    else if fr.payload[0] == CTS then HandleCts(t, fr, now)
    else if fr.payload[0] == BAM then StartRxBam(t, fr, now)
    else if fr.payload[0] == EOM then CompleteRx(t, fr)
    else if fr.payload[0] == ABORT then HandleAbort(t, fr)
    else t
  }

  /** Overwrites up to seven bytes of a buffer at `offset`. */
  function CopyIn(buffer: seq<Byte>, offset: nat, bytes: seq<Byte>): (r: seq<Byte>)
    requires offset <= |buffer|
    ensures |r| == |buffer|
  {
    var n := if |bytes| <= |buffer| - offset then |bytes| else |buffer| - offset;
    buffer[..offset] + bytes[..n] + buffer[offset + n..]
  }

  /** The header of a delivered message; the destination overwrites the low byte of the PGN. */
  function DeliveredHeader(s: Session): Header {
    var h := SetPgn(BLANK, s.pgn).(sa := s.src);
    if s.bam then h else h.(ps := s.dest)
  }

  function RejectDt(t: Tp, k: Key, code: Byte, e: Error): Tp
    requires k in t.sessions
  {
    var s := t.sessions[k];
    Report(Send(Store(t, k, s.(state := Aborted)), AbortFrame(s, code)), e)
  }

  function AcceptDt(s: Session, seqNo: Byte, bytes: seq<Byte>, now: int): Session
    requires Inside(seqNo, |s.buffer|)
  {
    s.(buffer := CopyIn(s.buffer, (seqNo - 1) * 7, bytes), next := (seqNo + 1) % 0x100, last := now)
  }

  function HandleDt(t: Tp, fr: Frame, now: int): Tp
    requires DtDefined(t, fr)
  {
    var k := (fr.header.sa, fr.header.ps);
    var seqNo := fr.payload[0];
    if k !in t.sessions then
      Stray(t, fr, t.local, fr.header.sa, DtWithoutSession)
    else if seqNo < 1 || seqNo > t.sessions[k].total then RejectDt(t, k, ABORT_BAD_SEQUENCE, DtBadSequence)
    else if seqNo < t.sessions[k].next then RejectDt(t, k, ABORT_DUPLICATE_SEQ, DtDuplicate)
    else if seqNo != t.sessions[k].next then RejectDt(t, k, ABORT_BAD_SEQUENCE, DtUnexpected)
    else
      var s := AcceptDt(t.sessions[k], seqNo, fr.payload[1..], now);
      if seqNo == s.total then
        var t1 := t.(delivered := t.delivered + [Data(DeliveredHeader(s), s.buffer)]);
        if s.bam then Store(t1, k, s.(state := Completed))
        else SendEomAck(Store(t1, k, s), s)
      else if seqNo % s.window == 0 && !s.bam then Send(Store(t, k, s), CtsFrame(s))
      else Store(t, k, s)
  }

  function OnCanFrame(t: Tp, fr: Frame, now: int): Tp
    requires FrameDefined(t, fr)
  {
    if IsCm(fr) then HandleCm(t, fr, now)
    else if IsDt(fr) then HandleDt(t, fr, now)
    else t
  }

  // ---------------------------------------------------------------- the periodic sweep

  function TimeoutOf(s: Session): int {
    if s.dir.Tx? then T3 else T2
  }

  predicate Expired(s: Session, now: int) {
    now - s.last > TimeoutOf(s)
  }

  /** What the sweep does to one session, in the order of the branches. */
  function SweepOne(t: Tp, k: Key, now: int): Tp {
    if k !in t.sessions then t
    else if Expired(t.sessions[k], now) then
      Report(Send(t, AbortFrame(t.sessions[k], ABORT_TIMEOUT)), TimedOut).(sessions := t.sessions - {k})
    else if now - t.sessions[k].last > SESSION_CLEAN_TIMEOUT then t.(sessions := t.sessions - {k})
    else t
  }

  /** Sweeps the sessions in the order in which the hash map happens to list them. */
  function Tick(t: Tp, order: seq<Key>, now: int): Tp
    decreases |order|
  {
    if order == [] then t else Tick(SweepOne(t, order[0], now), order[1..], now)
  }

  /** The sequence lists the set, each element once. */
  ghost predicate Listing<T(!new)>(order: seq<T>, keys: set<T>) {
    && (forall k :: k in order <==> k in keys)
    && (forall i, j | 0 <= i < j < |order| :: order[i] != order[j])
  }

  lemma {:induction false} TickSnoc(t: Tp, order: seq<Key>, k: Key, now: int)
    ensures Tick(t, order + [k], now) == SweepOne(Tick(t, order, now), k, now)
    decreases |order|
  {
    if order == [] {
      assert [k][1..] == [];
    } else {
      assert (order + [k])[1..] == order[1..] + [k];
      TickSnoc(SweepOne(t, order[0], now), order[1..], k, now);
    }
  }
}
