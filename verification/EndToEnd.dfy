/**
 * A request/clear-to-send transfer between two transports over a lossless bus that delivers a
 * frame to the node its destination names. The two directions may be delivered in any order.
 *
 * The request advertises a window `w`. The sender of the original always writes 255; a smaller
 * window is what another stack's request may carry.
 */
module EndToEnd {
  import opened J1939
  import opened Frames
  import opened Transport
  import opened TransportRuns
  import opened Reassembly
  import opened Segmentation

  datatype Transfer = Transfer(data: seq<Byte>, src: Address, dst: Address, pgn: nat, w: nat)

  function Count(x: Transfer): nat {
    Packets(|x.data|)
  }

  /** A size the protocol carries, two nodes and a window. */
  predicate Proper(x: Transfer) {
    Sendable(x.data) && x.src != x.dst && x.dst != NO_ADDR && 1 <= x.w <= 255
  }

  /** For 255 packets a window must end exactly there, or the 8-bit counter runs on. */
  predicate WindowsClose(x: Transfer) {
    x.w >= 1 && (Count(x) <= 254 || 255 % x.w == 0)
  }

  /** The round after `c` windows keeps inside the counter. */
  predicate RoundFits(x: Transfer, c: nat) {
    Count(x) <= 254 || c * x.w + x.w <= 255
  }

  datatype Pair = Pair(a: Tp, b: Tp, toB: nat, toA: nat)

  datatype Turn = DeliverToB(now: int) | DeliverToA(now: int)

  predicate InFlight(p: Pair, m: Turn) {
    match m
    case DeliverToB(_) => p.toB < |p.a.sent|
    case DeliverToA(_) => p.toA < |p.b.sent|
  }

  /** What the destination filter lets through is defined for the receiver. */
  predicate Safe(p: Pair, m: Turn)
    requires InFlight(p, m)
  {
    match m
    case DeliverToB(_) => p.a.sent[p.toB].header.ps == p.b.local ==> Valid(p.b) && FrameDefined(p.b, p.a.sent[p.toB])
    case DeliverToA(_) => p.b.sent[p.toA].header.ps == p.a.local ==> Valid(p.a) && FrameDefined(p.a, p.b.sent[p.toA])
  }

  function Take(p: Pair, m: Turn): Pair
    requires InFlight(p, m) && Safe(p, m)
  {
    match m
    case DeliverToB(now) =>
      var fr := p.a.sent[p.toB];
      p.(toB := p.toB + 1, b := if fr.header.ps == p.b.local then OnCanFrame(p.b, fr, now) else p.b)
    case DeliverToA(now) =>
      var fr := p.b.sent[p.toA];
      p.(toA := p.toA + 1, a := if fr.header.ps == p.a.local then OnCanFrame(p.a, fr, now) else p.a)
  }

  // ---------------------------------------------------------------- the frames of a transfer

  /** The sender's session right after the request. */
  function Template(x: Transfer, now: int): Session
    requires Sendable(x.data)
  {
    Session(Tx, x.data, Count(x), 1, |x.data|, 0xFF, x.dst, x.src, x.pgn, false, now, InProgress)
  }

  function RtsOf(x: Transfer): Frame
    requires Proper(x)
  {
    Announce(RTS, Template(x, 0).(window := x.w), x.dst, x.src)
  }

  function PacketOf(x: Transfer, i: nat): Frame
    requires Proper(x) && i < 255
  {
    DtFrame(Template(x, 0), i + 1)
  }

  function CtsOf(x: Transfer, q: nat): Frame
    requires Proper(x) && q * x.w < 255
  {
    BaseFrame(PGN_CM, x.src, x.dst, CmPayload(CTS, x.w, q * x.w + 1, 0, 0, x.pgn))
  }

  function EomOf(x: Transfer): Frame
    requires Proper(x)
  {
    EomFrame(Template(x, 0))
  }

  /** The sender's answer to the end-of-message frame, for which it has no session. */
  function AbortOf(x: Transfer): Frame
    requires Proper(x)
  {
    BaseFrame(PGN_CM, x.dst, x.src, CmPayload(ABORT, ABORT_UNEXPECTED_PACKET, 0, 0, 0, x.pgn))
  }

  function MessageOf(x: Transfer): Data {
    Data(SetPgn(BLANK, x.pgn % 0x1000000).(ps := x.dst, sa := x.src), x.data)
  }

  function Dts(x: Transfer, m: nat): (r: seq<Frame>)
    requires Proper(x) && m <= 255
    ensures |r| == m && forall i | 0 <= i < m :: r[i] == PacketOf(x, i)
  {
    seq(m, i requires 0 <= i < m => PacketOf(x, i))
  }

  /** Clear-to-send frames the receiver has issued once it has taken `j` packets. */
  function Rounds(x: Transfer, j: nat): (r: nat)
    requires Proper(x) && j <= Count(x)
    ensures r >= 1
  {
    1 + Div(if j < Count(x) then j else Count(x) - 1, x.w)
  }

  function Div(a: nat, w: nat): nat
    requires w >= 1
  {
    a / w
  }

  function Ctss(x: Transfer, q: nat): (r: seq<Frame>)
    requires Proper(x) && (q > 0 ==> (q - 1) * x.w < 255)
    ensures |r| == q
  {
    seq(q, i requires 0 <= i < q => assert i * x.w <= (q - 1) * x.w; CtsOf(x, i))
  }

  /** Packets the sender has put out after `c` clear-to-send frames. */
  function Out(x: Transfer, c: nat): (r: nat)
    requires Proper(x)
    ensures r <= Count(x)
  {
    if c * x.w <= Count(x) then c * x.w else Count(x)
  }

  // ---------------------------------------------------------------- counting windows

  lemma Multiple(d: int, w: nat)
    ensures d >= 1 ==> d * w >= w
    ensures d <= -1 ==> d * w + w <= 0
  {
  }

  lemma Quotient(a: nat, w: nat, q: nat)
    requires w >= 1 && q * w <= a < q * w + w
    ensures a / w == q
  {
    var d, r := a / w - q, a % w;
    assert a == (d + q) * w + r;
    assert (d + q) * w == d * w + q * w;
    Multiple(d, w);
  }

  lemma Successor(j: nat, w: nat)
    requires w >= 1
    ensures if (j + 1) % w == 0 then (j + 1) / w == j / w + 1 && j + 1 == (j / w + 1) * w else (j + 1) / w == j / w
  {
    var q, r := j / w, j % w;
    assert j == q * w + r;
    assert (q + 1) * w == q * w + w;
    if r == w - 1 { Quotient(j + 1, w, q + 1); } else { Quotient(j + 1, w, q); }
  }

  lemma TimesQuotient(c: nat, k: nat, w: nat)
    requires w >= 1 && c <= k / w
    ensures c * w <= k
  {
    assert k == k / w * w + k % w;
    assert (k / w - c) * w == k / w * w - c * w;
  }

  /** A clear-to-send that the sender has not used yet was issued exactly where the sender stopped. */
  lemma UnusedRound(x: Transfer, c: nat, j: nat)
    requires Proper(x) && j <= Out(x, c) && c < Rounds(x, j)
    ensures j == c * x.w == Out(x, c) && j < Count(x)
  {
    TimesQuotient(c, if j < Count(x) then j else Count(x) - 1, x.w);
  }

  /** The round count when one more packet is taken. */
  lemma NextRound(x: Transfer, j: nat)
    requires Proper(x) && j < Count(x)
    ensures Rounds(x, j + 1) == Rounds(x, j) + (if j + 1 < Count(x) && (j + 1) % x.w == 0 then 1 else 0)
    ensures j + 1 < Count(x) && (j + 1) % x.w == 0 ==> j + 1 == Rounds(x, j) * x.w
  {
    Successor(j, x.w);
  }

  // ---------------------------------------------------------------- where the two ends are

  /**
   * `c` clear-to-send frames used by the sender, `j` packets taken by the receiver, whether the
   * receiver has the request, and whether the sender has the end-of-message frame.
   */
  datatype Mark = Mark(c: nat, j: nat, started: bool, ackd: bool)

  /** The sender's log: request, packets, then its own end-of-message frame unless the counter wrapped. */
  function SenderLog(x: Transfer, c: nat, ackd: bool): seq<Frame>
    requires Proper(x)
  {
    Pacing(x.data);
    [RtsOf(x)] + Dts(x, Out(x, c)) + (if Out(x, c) == Count(x) <= 254 then [EomOf(x)] else []) +
        (if ackd then [AbortOf(x)] else [])
  }

  function ReceiverLog(x: Transfer, started: bool, j: nat): seq<Frame>
    requires Proper(x) && j <= Count(x)
  {
    if !started then []
    else
      Pacing(x.data);
      TimesQuotient(Rounds(x, j) - 1, if j < Count(x) then j else Count(x) - 1, x.w);
      Ctss(x, Rounds(x, j)) + (if j == Count(x) then [EomOf(x)] else [])
  }

  ghost predicate SenderAt(x: Transfer, a: Tp, c: nat, ackd: bool)
    requires Proper(x)
  {
    var k := (x.src, x.dst);
    && Valid(a) && a.local == x.src && a.link == [] && (x.dst, x.src) !in a.sessions && k in a.sessions
    && (var s := a.sessions[k];
        && s.buffer == x.data && s.length == |x.data| && s.total as int == Count(x) && s.pgn == x.pgn && !s.bam
        && s.next as int == (Out(x, c) + 1) % 0x100)
    && a.sent == SenderLog(x, c, ackd)
  }

  ghost predicate ReceiverAt(x: Transfer, b: Tp, started: bool, j: nat, base: seq<Data>)
    requires Proper(x) && j <= Count(x)
  {
    var k := (x.src, x.dst);
    && Valid(b) && b.local == x.dst && b.link == [] && (x.dst, x.src) !in b.sessions
    && (started ==>
          && k in b.sessions
          && var s := b.sessions[k];
          && Holds(s, Chunks(x.data, j)) && s.length == |x.data| && s.total as int == Count(x)
          && s.window as int == x.w && s.pgn == x.pgn % 0x1000000 && !s.bam)
    && b.sent == ReceiverLog(x, started, j)
    && b.delivered == base + (if started && j == Count(x) then [MessageOf(x)] else [])
  }

  ghost predicate At(x: Transfer, p: Pair, base: seq<Data>, m: Mark) {
    && Proper(x) && m.j <= Out(x, m.c)
    && m.c <= (if m.started then Rounds(x, m.j) else 0)
    && (m.ackd ==> m.j == Count(x) && m.c == Rounds(x, m.j))
    && SenderAt(x, p.a, m.c, m.ackd) && ReceiverAt(x, p.b, m.started, m.j, base)
    && p.toA == m.c + (if m.ackd then 1 else 0)
    && (if !m.started then p.toB == 0
        else if m.j < Count(x) then p.toB == 1 + m.j
        else 1 + m.j <= p.toB <= |p.a.sent|)
  }

  // ---------------------------------------------------------------- frames read back

  lemma PgnBytes(ctrl: Byte, b1: Byte, b2: Byte, b3: Byte, b4: Byte, pgn: nat)
    ensures CmPayload(ctrl, b1, b2, b3, b4, pgn % 0x1000000) == CmPayload(ctrl, b1, b2, b3, b4, pgn)
  {
    LowBytes(pgn);
  }

  lemma LowByte(q: nat, p: nat)
    ensures (q * 0x100 + p) % 0x100 == p % 0x100
  {
  }

  lemma LowBytes(pgn: nat)
    ensures var p := pgn % 0x1000000;
            && p % 0x100 == pgn % 0x100 && p / 0x100 % 0x100 == pgn / 0x100 % 0x100
            && p / 0x10000 % 0x100 == pgn / 0x10000 % 0x100
  {
    var q, p := pgn / 0x1000000, pgn % 0x1000000;
    LowByte(q * 0x10000, p);
    assert pgn / 0x100 == q * 0x10000 + p / 0x100;
    LowByte(q * 0x100, p / 0x100);
    assert pgn / 0x10000 == q * 0x100 + p / 0x10000;
    LowByte(q, p / 0x10000);
  }

  // ---------------------------------------------------------------- the receiver's steps

  lemma RtsArrives(x: Transfer, b: Tp, base: seq<Data>, now: int)
    requires Proper(x) && ReceiverAt(x, b, false, 0, base)
    ensures FrameDefined(b, RtsOf(x)) && ReceiverAt(x, OnCanFrame(b, RtsOf(x), now), true, 0, base)
  {
    Pacing(x.data);
    var fr := RtsOf(x);
    AnnouncementCarries(RTS, Template(x, 0).(window := x.w), x.dst);
    StartOpens(b, fr, now);
    var s := OpenedSession(fr, now);
    assert Chunks(x.data, 0) == [];
    PgnBytes(CTS, x.w, 1, 0, 0, x.pgn);
    assert CtsFrame(s) == CtsOf(x, 0);
    assert Ctss(x, 1) == [CtsOf(x, 0)];
    assert 0 / x.w == 0;
  }

  /** A data packet that passes, on a lossless bus, in full. */
  lemma PassingDt(b: Tp, k: Key, fr: Frame, now: int)
    requires b.link == [] && k in b.sessions && !b.sessions[k].bam
    requires IsDt(fr) && fr.header.sa == k.0 && fr.header.ps == k.1
    requires Passes(b.sessions[k], fr.payload[0]) && Takes(b.sessions[k], fr.payload[0])
    ensures var s, n := b.sessions[k], fr.payload[0];
            var s1 := AcceptDt(s, n, fr.payload[1..], now);
            OnCanFrame(b, fr, now) == b.(
                 sessions := b.sessions[k := s1],
                 delivered := b.delivered + (if n == s.total then [Data(DeliveredHeader(s1), s1.buffer)] else []),
                 sent := b.sent + (if n == s.total then [EomFrame(s1)]
                                   else if n % s.window == 0 then [CtsFrame(s1)] else []))
  {
    assert b.sent + [] == b.sent && b.delivered + [] == b.delivered;
  }

  /** What a taken packet leaves behind is the receiver's next position. */
  lemma DtLands(x: Transfer, b: Tp, j: nat, base: seq<Data>, s1: Session, r: Tp)
    requires Proper(x) && j < Count(x) && j < 255 && ReceiverAt(x, b, true, j, base) && Valid(r)
    requires Holds(s1, Chunks(x.data, j + 1)) && SameTerms(b.sessions[(x.src, x.dst)], s1)
    requires r.sent == ReceiverLog(x, true, j + 1)
    requires r == b.(
               sessions := b.sessions[(x.src, x.dst) := s1], sent := r.sent,
               delivered := b.delivered + (if j + 1 == Count(x) then [Data(DeliveredHeader(s1), s1.buffer)] else []))
    ensures ReceiverAt(x, r, true, j + 1, base)
  {
    if j + 1 == Count(x) { ChunksFill(x.data); }
    assert base + [] == base;
  }

  lemma NextChunkHolds(x: Transfer, s: Session, j: nat, now: int)
    requires Proper(x) && j < Count(x) <= 255 && Holds(s, Chunks(x.data, j)) && s.total as int == Count(x)
    requires s.length == |x.data|
    ensures Passes(s, j + 1) && Inside(j + 1, |s.buffer|)
    ensures Holds(AcceptDt(s, j + 1, Chunk(x.data, j), now), Chunks(x.data, j + 1))
  {
    Pacing(x.data);
    PassesIffNext(s, Chunks(x.data, j), j + 1);
    AcceptHolds(s, Chunks(x.data, j), j + 1, Chunk(x.data, j), now);
    assert Chunks(x.data, j) + [Chunk(x.data, j)] == Chunks(x.data, j + 1);
  }

  lemma PacketIsTaken(x: Transfer, b: Tp, j: nat, base: seq<Data>)
    requires Proper(x) && j < Count(x) <= 255 && ReceiverAt(x, b, true, j, base)
    ensures var fr, s := PacketOf(x, j), b.sessions[(x.src, x.dst)];
            && IsDt(fr) && !IsCm(fr) && fr.header.sa == x.src && fr.header.ps == x.dst
            && fr.payload[1..] == Chunk(x.data, j) && fr.payload[0] as int == j + 1
            && Passes(s, fr.payload[0]) && Takes(s, fr.payload[0])
  {
    var fr, s := PacketOf(x, j), b.sessions[(x.src, x.dst)];
    assert fr.payload[1..] == Chunk(x.data, j);
    NextChunkHolds(x, s, j, 0);
  }

  lemma DtArrives(x: Transfer, b: Tp, j: nat, base: seq<Data>, now: int)
    requires Proper(x) && j < Count(x) && j < 255 && ReceiverAt(x, b, true, j, base)
    ensures FrameDefined(b, PacketOf(x, j)) && ReceiverAt(x, OnCanFrame(b, PacketOf(x, j), now), true, j + 1, base)
  {
    var k, fr := (x.src, x.dst), PacketOf(x, j);
    var s := b.sessions[k];
    Pacing(x.data);
    PacketIsTaken(x, b, j, base);
    NextChunkHolds(x, s, j, now);
    PassingDt(b, k, fr, now);
    var s1 := AcceptDt(s, j + 1, Chunk(x.data, j), now);
    DtAnswers(x, b.sent, j, s1);
    PerformKept(b, Arrive(fr, now));
    DtLands(x, b, j, base, s1, OnCanFrame(b, fr, now));
  }

  lemma CtsMatches(x: Transfer, j: nat, s1: Session)
    requires Proper(x) && j + 1 < Count(x) <= 255 && (j + 1) % x.w == 0
    requires s1.next as int == (j + 2) % 0x100 && s1.window as int == x.w && s1.src == x.src && s1.dest == x.dst
    requires s1.pgn == x.pgn % 0x1000000
    ensures Rounds(x, j) * x.w == j + 1 && CtsFrame(s1) == CtsOf(x, Rounds(x, j))
  {
    NextRound(x, j);
    PgnBytes(CTS, x.w, j + 2, 0, 0, x.pgn);
  }

  lemma EomMatches(x: Transfer, s1: Session)
    requires Proper(x) && Count(x) <= 255 && s1.src == x.src && s1.dest == x.dst
    requires s1.pgn == x.pgn % 0x1000000 && s1.length == |x.data| && s1.total as int == Count(x)
    ensures EomFrame(s1) == EomOf(x)
  {
    PgnBytes(EOM, |x.data| % 0x100, |x.data| / 0x100 % 0x100, Count(x), 0xFF, x.pgn);
  }

  lemma OneMoreCts(x: Transfer, q: nat)
    requires Proper(x) && q * x.w < 255 && (q > 0 ==> (q - 1) * x.w < 255)
    ensures Ctss(x, q + 1) == Ctss(x, q) + [CtsOf(x, q)]
  {
  }

  /** The answer to packet j + 1 when it is the last, when it ends a window, and otherwise. */
  lemma LastAnswer(x: Transfer, j: nat)
    requires Proper(x) && j + 1 == Count(x)
    ensures ReceiverLog(x, true, j + 1) == ReceiverLog(x, true, j) + [EomOf(x)]
  {
    NextRound(x, j);
    assert ReceiverLog(x, true, j) == Ctss(x, Rounds(x, j));
  }

  lemma LogBeforeEnd(x: Transfer, j: nat, q: nat)
    requires Proper(x) && j < Count(x) && q == Rounds(x, j)
    ensures (q - 1) * x.w < 255 && ReceiverLog(x, true, j) == Ctss(x, q)
  {
    Pacing(x.data);
    TimesQuotient(q - 1, j, x.w);
  }

  lemma WindowAnswer(x: Transfer, j: nat, q: nat)
    requires Proper(x) && j + 1 < Count(x) <= 255 && (j + 1) % x.w == 0 && q == Rounds(x, j)
    ensures q * x.w < 255
    ensures ReceiverLog(x, true, j + 1) == ReceiverLog(x, true, j) + [CtsOf(x, q)]
  {
    NextRound(x, j);
    LogBeforeEnd(x, j, q);
    LogBeforeEnd(x, j + 1, q + 1);
    OneMoreCts(x, q);
  }

  lemma SilentAnswer(x: Transfer, j: nat)
    requires Proper(x) && j + 1 < Count(x) && (j + 1) % x.w != 0
    ensures ReceiverLog(x, true, j + 1) == ReceiverLog(x, true, j)
  {
    NextRound(x, j);
  }

  /** The receiver's answer to packet j + 1 extends its log as the round count says. */
  lemma DtAnswers(x: Transfer, sent: seq<Frame>, j: nat, s1: Session)
    requires Proper(x) && j < Count(x) <= 255 && sent == ReceiverLog(x, true, j)
    requires s1.next as int == (j + 2) % 0x100 && s1.window as int == x.w && s1.src == x.src && s1.dest == x.dst
    requires s1.pgn == x.pgn % 0x1000000 && s1.length == |x.data| && s1.total as int == Count(x)
    ensures ReceiverLog(x, true, j + 1) ==
            sent + (if j + 1 == Count(x) then [EomFrame(s1)] else if (j + 1) % x.w == 0 then [CtsFrame(s1)] else [])
  {
    if j + 1 == Count(x) {
      LastAnswer(x, j);
      EomMatches(x, s1);
    } else if (j + 1) % x.w == 0 {
      WindowAnswer(x, j, Rounds(x, j));
      CtsMatches(x, j, s1);
    } else {
      SilentAnswer(x, j);
      assert sent + [] == sent;
    }
  }

  /** The sender's abort finds no session at the receiver. */
  lemma AbortArrives(x: Transfer, b: Tp, base: seq<Data>, now: int)
    requires Proper(x) && ReceiverAt(x, b, true, Count(x), base)
    ensures FrameDefined(b, AbortOf(x)) && OnCanFrame(b, AbortOf(x), now) == b
  {
  }

  // ---------------------------------------------------------------- the sender's steps

  /** With 255 packets the window stops where the counter wraps. */
  lemma WindowFits(x: Transfer, c: nat)
    requires Proper(x) && WindowsClose(x) && c * x.w < Count(x) <= 255
    ensures RoundFits(x, c)
  {
    var d := 255 / x.w;
    assert 255 == d * x.w + 255 % x.w;
    Multiple(d - c, x.w);
    assert (d - c) * x.w == d * x.w - c * x.w;
    Multiple(c - d, x.w);
  }

  lemma NextOut(x: Transfer, c: nat)
    requires Proper(x) && c * x.w < Count(x)
    ensures Out(x, c) == c * x.w
    ensures Out(x, c + 1) == if x.w <= Count(x) - c * x.w then c * x.w + x.w else Count(x)
  {
    assert (c + 1) * x.w == c * x.w + x.w;
  }

  /** Both clear-to-send fields in place, the session sends the next window of the transfer. */
  lemma WindowExtends(x: Transfer, s: Session, from: nat, m: nat)
    requires Proper(x) && from + m <= Count(x) <= 255
    requires s.buffer == x.data && s.src == x.src && s.dest == x.dst
    ensures Dts(x, from) + DtFrames(s, from + 1, m) == Dts(x, from + m)
  {
    var l, r := Dts(x, from) + DtFrames(s, from + 1, m), Dts(x, from + m);
    forall i | 0 <= i < from + m
      ensures l[i] == r[i]
    {
      if i >= from { assert l[i] == DtFrame(s, from + 1 + (i - from)); }
    }
  }

  lemma CtsReadBack(x: Transfer, c: nat)
    requires Proper(x) && c * x.w < 255
    ensures var fr := CtsOf(x, c);
            && IsCm(fr) && !IsDt(fr) && fr.header.sa == x.dst && fr.header.ps == x.src
            && fr.payload[0] == CTS && fr.payload[1] as int == x.w && fr.payload[2] as int == c * x.w + 1
  {
  }

  /** The sender's log after the window. */
  lemma LogExtends(x: Transfer, c: nat, s: Session, done: Session)
    requires Proper(x) && c * x.w < Count(x) <= 255
    requires s.buffer == x.data && s.src == x.src && s.dest == x.dst
    requires done.length == |x.data| && done.total as int == Count(x) && done.pgn == x.pgn
    requires done.src == x.src && done.dest == x.dst
    ensures Out(x, c) == c * x.w <= Out(x, c + 1)
    ensures SenderLog(x, c + 1, false) ==
            SenderLog(x, c, false) + DtFrames(s, c * x.w + 1, Out(x, c + 1) - c * x.w) +
            (if Out(x, c + 1) == Count(x) <= 254 then [EomFrame(done)] else [])
  {
    NextOut(x, c);
    WindowExtends(x, s, c * x.w, Out(x, c + 1) - c * x.w);
    assert EomFrame(done) == EomOf(x);
    assert SenderLog(x, c, false) == [RtsOf(x)] + Dts(x, c * x.w);
  }

  lemma WindowOfStored(a: Tp, k: Key, s: Session, m: nat, now: int)
    requires 1 <= s.next && s.next as int + m <= 256
    ensures var done := s.(next := (s.next as int + m) % 0x100, last := if m == 0 then s.last else now);
            AfterWindow(Store(a, k, s), k, m, now) ==
            a.(sessions := a.sessions[k := done], sent := a.sent + DtFrames(s, s.next, m))
  {
    var done := s.(next := (s.next as int + m) % 0x100, last := if m == 0 then s.last else now);
    assert a.sessions[k := s][k := done] == a.sessions[k := done];
    assert m == 0 ==> a.sent + DtFrames(s, s.next, m) == a.sent;
  }

  /** The completion test after a window: it succeeds when everything is out and the counter has not wrapped. */
  lemma RoundCompletes(a: Tp, k: Key, s: Session, done: Session, out: nat, sent: seq<Frame>, w: Tp, r: Tp)
    requires out <= s.total && done == s.(next := (out + 1) % 0x100, last := done.last) && !s.bam
    requires w == a.(sessions := a.sessions[k := done], sent := sent)
    requires r == if done.next > s.total then
                    Store(w.(sent := sent + [EomFrame(done)]), k, done.(state := Completed))
                  else w
    ensures var all := out == s.total as int <= 254;
            r == a.(sessions := a.sessions[k := if all then done.(state := Completed) else done],
                    sent := sent + (if all then [EomFrame(done)] else []))
  {
    assert a.sessions[k := done][k := done.(state := Completed)] == a.sessions[k := done.(state := Completed)];
    assert sent + [] == sent;
  }

  /** One lossless round of a session that has not yet sent everything. */
  lemma RoundIsSent(a: Tp, k: Key, s: Session, out: nat, now: int)
    requires a.link == [] && 1 <= s.next <= s.total && !s.bam && CanLoop(Store(a, k, s), k, s.window)
    requires out == s.next as int - 1 + WindowSize(s, s.window)
    ensures out <= s.total && s.next as int <= out + 1
    ensures var done := s.(next := (out + 1) % 0x100, last := if out + 1 == s.next as int then s.last else now);
            var all := out == s.total as int <= 254;
            SendDataPackets(Store(a, k, s), k, now).0 ==
            a.(sessions := a.sessions[k := if all then done.(state := Completed) else done],
               sent := a.sent + DtFrames(s, s.next, out + 1 - s.next as int) + (if all then [EomFrame(done)] else []))
  {
    var t, m := Store(a, k, s), WindowSize(s, s.window);
    DataPacketsAreSent(t, k, now);
    WindowOfStored(a, k, s, m, now);
    var done := s.(next := (out + 1) % 0x100, last := if m == 0 then s.last else now);
    RoundCompletes(a, k, s, done, out, a.sent + DtFrames(s, s.next, m), AfterWindow(t, k, m, now),
        SendDataPackets(t, k, now).0);
  }

  lemma CtsRouted(x: Transfer, a: Tp, c: nat, now: int)
    requires Proper(x) && RoundFits(x, c) && c * x.w < Count(x) <= 255 && a.local == x.src
    requires (x.src, x.dst) in a.sessions && a.sessions[(x.src, x.dst)].total as int == Count(x)
    requires a.sessions[(x.src, x.dst)].buffer == x.data
    ensures var s := a.sessions[(x.src, x.dst)].(window := x.w, next := c * x.w + 1);
            && CanLoop(Store(a, (x.src, x.dst), s), (x.src, x.dst), s.window) && FrameDefined(a, CtsOf(x, c))
            && OnCanFrame(a, CtsOf(x, c), now) == SendDataPackets(Store(a, (x.src, x.dst), s), (x.src, x.dst), now).0
  {
    Pacing(x.data);
    CtsReadBack(x, c);
    PacedStays(c * x.w + 1, Count(x), |x.data|, a.link, x.w);
  }

  /** `r` is `a` after a round that put out packets `from + 1` to `out` of the session `s`. */
  ghost predicate Sent(x: Transfer, a: Tp, from: nat, out: nat, s: Session, done: Session, r: Tp) {
    && Sendable(x.data) && from <= out <= 255
    && done == s.(next := (out + 1) % 0x100, last := done.last)
    && var all := out == Count(x) <= 254;
       r == a.(sessions := a.sessions[(x.src, x.dst) := if all then done.(state := Completed) else done],
               sent := a.sent + DtFrames(s, from + 1, out - from) + (if all then [EomFrame(done)] else []))
  }

  lemma RoundSends(x: Transfer, a: Tp, from: nat, out: nat, s: Session, now: int) returns (done: Session)
    requires Sendable(x.data) && a.link == [] && !s.bam && s.total as int == Count(x) <= 255
    requires CanLoop(Store(a, (x.src, x.dst), s), (x.src, x.dst), s.window)
    requires s.next as int == from + 1 <= Count(x) && out == from + WindowSize(s, s.window)
    ensures Sent(x, a, from, out, s, done, SendDataPackets(Store(a, (x.src, x.dst), s), (x.src, x.dst), now).0)
  {
    RoundIsSent(a, (x.src, x.dst), s, out, now);
    done := s.(next := (out + 1) % 0x100, last := if out == from then s.last else now);
  }

  /** What a round leaves behind is the sender's next position. */
  lemma RoundLands(x: Transfer, a: Tp, c: nat, s: Session, done: Session, r: Tp)
    requires Proper(x) && c * x.w < Count(x) <= 255 && SenderAt(x, a, c, false) && Valid(r)
    requires s == a.sessions[(x.src, x.dst)].(window := x.w, next := c * x.w + 1)
    requires Sent(x, a, c * x.w, Out(x, c + 1), s, done, r)
    ensures SenderAt(x, r, c + 1, false)
  {
    LogExtends(x, c, s, done);
  }

  lemma CtsArrives(x: Transfer, a: Tp, c: nat, now: int)
    requires Proper(x) && RoundFits(x, c) && c * x.w < Count(x) && SenderAt(x, a, c, false)
    ensures c * x.w < 255 && FrameDefined(a, CtsOf(x, c)) && SenderAt(x, OnCanFrame(a, CtsOf(x, c), now), c + 1, false)
  {
    Pacing(x.data);
    var s := a.sessions[(x.src, x.dst)].(window := x.w, next := c * x.w + 1);
    CtsRouted(x, a, c, now);
    NextOut(x, c);
    var done := RoundSends(x, a, c * x.w, Out(x, c + 1), s, now);
    PerformKept(a, Arrive(CtsOf(x, c), now));
    RoundLands(x, a, c, s, done, OnCanFrame(a, CtsOf(x, c), now));
  }

  lemma EomArrives(x: Transfer, a: Tp, c: nat, now: int)
    requires Proper(x) && SenderAt(x, a, c, false)
    ensures FrameDefined(a, EomOf(x)) && SenderAt(x, OnCanFrame(a, EomOf(x), now), c, true)
    ensures OnCanFrame(a, EomOf(x), now).errors == a.errors + [EomWithoutSession]
  {
    var fr := EomOf(x);
    EomCarries(x);
    PgnBytes(ABORT, ABORT_UNEXPECTED_PACKET, 0, 0, 0, x.pgn);
    assert AbortFrame(Dummy(x.src, x.dst, PayloadPgn(fr)), ABORT_UNEXPECTED_PACKET) == AbortOf(x);
    assert SenderLog(x, c, true) == SenderLog(x, c, false) + [AbortOf(x)];
    PerformKept(a, Arrive(fr, now));
  }

  lemma EomCarries(x: Transfer)
    requires Proper(x)
    ensures var fr := EomOf(x);
            && IsCm(fr) && fr.header.sa == x.dst && fr.header.ps == x.src
            && fr.payload[0] == EOM && PayloadPgn(fr) == x.pgn % 0x1000000
  {
    ThreeBytes(x.pgn);
  }

  // ---------------------------------------------------------------- one delivery

  /** A delivery to the receiver leaves the sender where it was. */
  lemma MovedB(x: Transfer, p: Pair, base: seq<Data>, m: Mark, m': Mark, q: Pair)
    requires At(x, p, base, m) && q == p.(toB := p.toB + 1, b := q.b)
    requires m' == m.(started := true, j := m'.j) && m.j <= m'.j <= Out(x, m.c) && Rounds(x, m.j) <= Rounds(x, m'.j)
    requires ReceiverAt(x, q.b, true, m'.j, base)
    requires if m.j < Count(x) && m.started then m'.j == m.j + 1 else m'.j == m.j && p.toB < |p.a.sent|
    ensures At(x, q, base, m')
  {
  }

  lemma RequestLands(x: Transfer, p: Pair, base: seq<Data>, m: Mark, now: int)
    requires At(x, p, base, m) && !m.started
    ensures InFlight(p, DeliverToB(now)) && Safe(p, DeliverToB(now))
    ensures At(x, Take(p, DeliverToB(now)), base, m.(started := true))
  {
    Pacing(x.data);
    assert p.a.sent[0] == RtsOf(x);
    RtsArrives(x, p.b, base, now);
    MovedB(x, p, base, m, m.(started := true), Take(p, DeliverToB(now)));
  }

  lemma PacketLands(x: Transfer, p: Pair, base: seq<Data>, m: Mark, now: int)
    requires At(x, p, base, m) && m.started && m.j < Count(x) && InFlight(p, DeliverToB(now))
    ensures Safe(p, DeliverToB(now))
    ensures At(x, Take(p, DeliverToB(now)), base, m.(j := m.j + 1))
  {
    Pacing(x.data);
    assert m.j < Out(x, m.c) && p.a.sent[p.toB] == PacketOf(x, m.j);
    DtArrives(x, p.b, m.j, base, now);
    NextRound(x, m.j);
  }

  /** The sender's own end-of-message frame is addressed to itself; its abort is ignored. */
  lemma TailLands(x: Transfer, p: Pair, base: seq<Data>, m: Mark, now: int)
    requires At(x, p, base, m) && m.started && m.j == Count(x) && InFlight(p, DeliverToB(now))
    ensures Safe(p, DeliverToB(now))
    ensures At(x, Take(p, DeliverToB(now)), base, m)
  {
    Pacing(x.data);
    var fr := p.a.sent[p.toB];
    if p.toB == 1 + m.j && Count(x) <= 254 {
      assert fr == EomOf(x);
    } else {
      assert fr == AbortOf(x);
      AbortArrives(x, p.b, base, now);
    }
  }

  /** A delivery to the sender in mid-transfer leaves the receiver where it was. */
  lemma ClearanceMoves(x: Transfer, p: Pair, base: seq<Data>, m: Mark, q: Pair)
    requires At(x, p, base, m) && m.started && m.c < Rounds(x, m.j) && m.j < Count(x) && m.j <= Out(x, m.c + 1)
    requires q == p.(toA := p.toA + 1, a := q.a) && SenderAt(x, q.a, m.c + 1, false)
    ensures At(x, q, base, m.(c := m.c + 1))
  {
  }

  /** The clear-to-send on its way is the first the sender has not used. */
  lemma ClearanceInFlight(x: Transfer, p: Pair, base: seq<Data>, m: Mark)
    requires At(x, p, base, m) && p.toA < |p.b.sent| && m.c < Rounds(x, m.j)
    ensures m.started && !m.ackd && m.j == m.c * x.w == Out(x, m.c) && m.j < Count(x) <= 255 && p.toA == m.c
    ensures p.b.sent[p.toA] == CtsOf(x, m.c) && CtsOf(x, m.c).header.ps == p.a.local
  {
    Pacing(x.data);
    UnusedRound(x, m.c, m.j);
    CtsReadBack(x, m.c);
  }

  /** Taking the frame off the bus hands it to the sender. */
  lemma TakenByA(p: Pair, fr: Frame, now: int)
    requires p.toA < |p.b.sent| && p.b.sent[p.toA] == fr && fr.header.ps == p.a.local
    requires Valid(p.a) && FrameDefined(p.a, fr)
    ensures Safe(p, DeliverToA(now))
    ensures Take(p, DeliverToA(now)) == p.(toA := p.toA + 1, a := OnCanFrame(p.a, fr, now))
  {
  }

  lemma ClearanceLands(x: Transfer, p: Pair, base: seq<Data>, m: Mark, now: int)
    requires At(x, p, base, m) && InFlight(p, DeliverToA(now)) && m.c < Rounds(x, m.j) && RoundFits(x, m.c)
    ensures Safe(p, DeliverToA(now)) && At(x, Take(p, DeliverToA(now)), base, m.(c := m.c + 1))
  {
    ClearanceInFlight(x, p, base, m);
    CtsArrives(x, p.a, m.c, now);
    TakenByA(p, CtsOf(x, m.c), now);
    NextOut(x, m.c);
    ClearanceMoves(x, p, base, m, Take(p, DeliverToA(now)));
  }

  lemma AckLands(x: Transfer, p: Pair, base: seq<Data>, m: Mark, now: int)
    requires At(x, p, base, m) && InFlight(p, DeliverToA(now)) && m.c >= Rounds(x, m.j)
    ensures Safe(p, DeliverToA(now)) && At(x, Take(p, DeliverToA(now)), base, m.(ackd := true))
  {
    Pacing(x.data);
    assert p.b.sent[p.toA] == EomOf(x);
    EomArrives(x, p.a, m.c, now);
  }

  lemma TakeKeepsAt(x: Transfer, p: Pair, base: seq<Data>, m: Mark, turn: Turn) returns (m': Mark)
    requires At(x, p, base, m) && InFlight(p, turn)
    requires turn.DeliverToA? && m.c < Rounds(x, m.j) ==> RoundFits(x, m.c)
    ensures Safe(p, turn) && At(x, Take(p, turn), base, m')
    ensures m'.c == if turn.DeliverToA? && m.c < Rounds(x, m.j) then m.c + 1 else m.c
  {
    match turn
    case DeliverToA(now) =>
      if m.c < Rounds(x, m.j) {
        m' := m.(c := m.c + 1);
        ClearanceLands(x, p, base, m, now);
      } else {
        m' := m.(ackd := true);
        AckLands(x, p, base, m, now);
      }
    case DeliverToB(now) =>
      if !m.started {
        m' := m.(started := true);
        RequestLands(x, p, base, m, now);
      } else if m.j < Count(x) {
        m' := m.(j := m.j + 1);
        PacketLands(x, p, base, m, now);
      } else {
        m' := m;
        TailLands(x, p, base, m, now);
      }
  }

  // ---------------------------------------------------------------- whole transfers

  /** The pair right after the request was sent: nothing delivered, only the request in flight. */
  function Opening(x: Transfer, t: Tp, u: Tp, now: int): Pair
    requires Proper(x)
  {
    Pair(t.(sessions := t.sessions[(x.src, x.dst) := Template(x, now)], sent := [RtsOf(x)]), u, 0, 0)
  }

  /** Transports at the two addresses with no transfer in the opposite direction. */
  predicate Facing(x: Transfer, t: Tp, u: Tp) {
    && Valid(t) && t.local == x.src && t.link == [] && t.sent == [] && (x.dst, x.src) !in t.sessions
    && Valid(u) && u.local == x.dst && u.link == [] && u.sent == [] && (x.dst, x.src) !in u.sessions
  }

  /** With the window the original advertises, this is what sending the message does. */
  lemma OpeningIsStartTx(x: Transfer, t: Tp, u: Tp, now: int)
    requires Proper(x) && x.w == 255 && Facing(x, t, u)
    ensures StartTx(t, x.data, x.dst, x.pgn, now) == (Opening(x, t, u, now).a, true)
  {
    var s := TxSession(t, x.data, x.dst, x.pgn, now);
    assert s == Template(x, now);
    assert Announce(RTS, s, x.dst, x.src) == RtsOf(x);
    assert t.sent + [RtsOf(x)] == [RtsOf(x)];
  }

  ghost predicate Runs(p: Pair, turns: seq<Turn>, q: Pair)
    decreases |turns|
  {
    if turns == [] then p == q
    else InFlight(p, turns[0]) && Safe(p, turns[0]) && Runs(Take(p, turns[0]), turns[1..], q)
  }

  predicate Quiet(p: Pair) {
    p.toB == |p.a.sent| && p.toA == |p.b.sent|
  }

  /** Deliveries in a complete transfer: request, packets, end-of-message frames, clear-to-sends, abort. */
  function Deliveries(x: Transfer): nat
    requires Proper(x)
  {
    (2 + Count(x) + if Count(x) <= 254 then 1 else 0) + (Rounds(x, Count(x)) + 1)
  }

  lemma OpeningAt(x: Transfer, t: Tp, u: Tp, now: int)
    requires Proper(x) && Facing(x, t, u)
    ensures At(x, Opening(x, t, u, now), u.delivered, Mark(0, 0, false, false))
  {
    Pacing(x.data);
  }

  lemma NextRoundFits(x: Transfer, p: Pair, base: seq<Data>, m: Mark)
    requires At(x, p, base, m) && WindowsClose(x)
    ensures m.c < Rounds(x, m.j) ==> RoundFits(x, m.c)
  {
    Pacing(x.data);
    if m.c < Rounds(x, m.j) {
      UnusedRound(x, m.c, m.j);
      WindowFits(x, m.c);
    }
  }

  lemma {:induction false} RunsKeepAt(x: Transfer, p: Pair, base: seq<Data>, m: Mark, turns: seq<Turn>, q: Pair)
    returns (m': Mark)
    requires At(x, p, base, m) && WindowsClose(x) && Runs(p, turns, q)
    ensures At(x, q, base, m') && q.toA + q.toB == p.toA + p.toB + |turns|
    decreases |turns|
  {
    m' := m;
    if turns != [] {
      NextRoundFits(x, p, base, m);
      m' := TakeKeepsAt(x, p, base, m, turns[0]);
      m' := RunsKeepAt(x, Take(p, turns[0]), base, m', turns[1..], q);
    }
  }

  lemma LogSizes(x: Transfer, m: Mark)
    requires Proper(x) && m.j <= Out(x, m.c) && m.c <= (if m.started then Rounds(x, m.j) else 0)
    requires m.ackd ==> m.j == Count(x) && m.c == Rounds(x, m.j)
    ensures |SenderLog(x, m.c, m.ackd)| ==
            1 + Out(x, m.c) + (if Out(x, m.c) == Count(x) <= 254 then 1 else 0) + (if m.ackd then 1 else 0)
    ensures |ReceiverLog(x, m.started, m.j)| ==
            if m.started then Rounds(x, m.j) + (if m.j == Count(x) then 1 else 0) else 0
    ensures Rounds(x, m.j) <= Rounds(x, Count(x))
  {
    RoundsGrow(x, m.j);
  }

  lemma {:induction false} RoundsGrow(x: Transfer, j: nat)
    requires Proper(x) && j <= Count(x)
    ensures Rounds(x, j) <= Rounds(x, Count(x))
    decreases Count(x) - j
  {
    if j < Count(x) {
      NextRound(x, j);
      RoundsGrow(x, j + 1);
    }
  }

  /** The counting behind quiescence: `r` rounds so far of `all`, `n` packets of which `out` are out. */
  lemma QuietCount(n: nat, out: nat, r: nat, all: nat, m: Mark, toA: nat, toB: nat, la: nat, lb: nat)
    requires 1 <= n && m.j <= out <= n && m.c <= (if m.started then r else 0) && 1 <= r <= all
    requires m.ackd ==> m.j == n && m.c == r
    requires m.started && m.c < r ==> m.j == out && m.j < n
    requires m.j == n ==> r == all
    requires m.j < n ==> !m.ackd
    requires m.started && m.j < n && m.j == out ==> m.c < r
    requires !m.started ==> out == 0
    requires la == 1 + out + (if out == n && n <= 254 then 1 else 0) + (if m.ackd then 1 else 0)
    requires lb == if m.started then r + (if m.j == n then 1 else 0) else 0
    requires toA == m.c + (if m.ackd then 1 else 0)
    requires if !m.started then toB == 0 else if m.j < n then toB == 1 + m.j else 1 + m.j <= toB <= la
    ensures var total := (2 + n + if n <= 254 then 1 else 0) + (all + 1);
            && toA + toB <= total
            && (toB == la && toA == lb <==> toA + toB == total)
            && (toB == la && toA == lb ==> m.c == all && m.j == n && m.started && m.ackd)
  {
  }

  /** A receiver level with the sender has asked for more. */
  lemma LevelAsks(x: Transfer, c: nat, j: nat)
    requires Proper(x) && j == Out(x, c) && j < Count(x)
    ensures c < Rounds(x, j)
  {
    Quotient(c * x.w, x.w, c);
  }

  /** The pair is quiet exactly when all deliveries of the transfer have been made. */
  lemma QuietWhenDone(x: Transfer, p: Pair, base: seq<Data>, m: Mark)
    requires At(x, p, base, m)
    ensures p.toA + p.toB <= Deliveries(x)
    ensures Quiet(p) <==> p.toA + p.toB == Deliveries(x)
    ensures Quiet(p) ==> m == Mark(Rounds(x, Count(x)), Count(x), true, true)
  {
    Pacing(x.data);
    LogSizes(x, m);
    if m.started && m.c < Rounds(x, m.j) { UnusedRound(x, m.c, m.j); }
    if m.j < Count(x) && m.j == Out(x, m.c) { LevelAsks(x, m.c, m.j); }
    QuietCount(Count(x), Out(x, m.c), Rounds(x, m.j), Rounds(x, Count(x)), m, p.toA, p.toB, |p.a.sent|, |p.b.sent|);
  }

  lemma LevelCounters(x: Transfer, p: Pair, base: seq<Data>, m: Mark)
    requires At(x, p, base, m) && p.toB == |p.a.sent|
    ensures m.started && m.j == Out(x, m.c)
    ensures p.a.sessions[(x.src, x.dst)].next == p.b.sessions[(x.src, x.dst)].next
  {
    Pacing(x.data);
    LogSizes(x, m);
  }

  /** The delivered header names the sender; the PGN survives unless the destination overwrites a group extension. */
  lemma DeliveredPgn(x: Transfer)
    ensures MessageOf(x).header.sa == x.src
    ensures Pgn(MessageOf(x).header) == NormalPgn(x.pgn) <==>
              x.pgn / 0x100 % 0x100 <= PF_PDU1_MAX as int || x.pgn % 0x100 == x.dst as int
  {
    var h := BroadcastHeader(x.src, x.pgn);
    BroadcastHeaderNames(x.src, x.pgn);
    LowBytes(x.pgn);
    assert MessageOf(x).header == h.(ps := x.dst);
  }

  lemma AtIsSafe(x: Transfer, q: Pair, base: seq<Data>, m: Mark)
    requires At(x, q, base, m) && WindowsClose(x)
    ensures forall turn | InFlight(q, turn) :: Safe(q, turn)
  {
    NextRoundFits(x, q, base, m);
    forall turn | InFlight(q, turn)
      ensures Safe(q, turn)
    {
      var m' := TakeKeepsAt(x, q, base, m, turn);
    }
  }

  /** What the sender has put on the bus at the end: the request and every packet once, in order. */
  function CompleteLog(x: Transfer, ackd: bool): seq<Frame>
    requires Proper(x)
  {
    Pacing(x.data);
    [RtsOf(x)] + Dts(x, Count(x)) + (if Count(x) <= 254 then [EomOf(x)] else []) + (if ackd then [AbortOf(x)] else [])
  }

  /** The number of windows: packets over window size, rounded up. */
  function Windows(x: Transfer): nat
    requires Proper(x)
  {
    (Count(x) + x.w - 1) / x.w
  }

  lemma WindowStarts(x: Transfer, i: nat)
    requires Proper(x) && i < Windows(x)
    ensures i * x.w < Count(x) <= 255
  {
    Pacing(x.data);
    Ceiling(Count(x), x.w);
    TimesQuotient(i, Count(x) - 1, x.w);
  }

  /** And the receiver: the clear-to-send of every window in order, then the end-of-message frame. */
  function CompleteAnswers(x: Transfer): seq<Frame>
    requires Proper(x)
  {
    seq(Windows(x), i requires 0 <= i < Windows(x) => WindowStarts(x, i); CtsOf(x, i)) + [EomOf(x)]
  }

  lemma AnswersComplete(x: Transfer)
    requires Proper(x)
    ensures ReceiverLog(x, true, Count(x)) == CompleteAnswers(x)
  {
    Pacing(x.data);
    Ceiling(Count(x), x.w);
    assert Rounds(x, Count(x)) == Windows(x);
  }

  lemma AtDelivers(x: Transfer, q: Pair, base: seq<Data>, m: Mark)
    requires At(x, q, base, m)
    ensures q.b.delivered == base || q.b.delivered == base + [MessageOf(x)]
    ensures m.started && m.j == Count(x) ==>
              q.b.delivered == base + [MessageOf(x)] && q.b.sent == CompleteAnswers(x)
    ensures m.j == Count(x) ==> q.a.sent == CompleteLog(x, m.ackd)
  {
    Pacing(x.data);
    AnswersComplete(x);
    assert base + [] == base;
  }

  /**
   * Every schedule of every proper transfer whose windows close: all deliveries are defined, nothing but the original
   * message is ever delivered and that at most once, there are at most `Deliveries(x)` of them,
   * and the pair falls quiet exactly after that many, with the message delivered once and one
   * clear-to-send per window sent.
   */
  lemma TransferDeliversOnce(x: Transfer, t: Tp, u: Tp, now: int, turns: seq<Turn>, q: Pair)
    requires Proper(x) && WindowsClose(x) && Facing(x, t, u) && Runs(Opening(x, t, u, now), turns, q)
    ensures forall turn | InFlight(q, turn) :: Safe(q, turn)
    ensures q.b.delivered == u.delivered || q.b.delivered == u.delivered + [MessageOf(x)]
    ensures |turns| <= Deliveries(x) && (Quiet(q) <==> |turns| == Deliveries(x))
    ensures Quiet(q) ==> q.b.delivered == u.delivered + [MessageOf(x)] && q.b.sent == CompleteAnswers(x)
    ensures Quiet(q) ==> q.a.sent == CompleteLog(x, true)
  {
    OpeningAt(x, t, u, now);
    var m := RunsKeepAt(x, Opening(x, t, u, now), u.delivered, Mark(0, 0, false, false), turns, q);
    AtIsSafe(x, q, u.delivered, m);
    AtDelivers(x, q, u.delivered, m);
    QuietWhenDone(x, q, u.delivered, m);
  }

  lemma Ceiling(n: nat, w: nat)
    requires n >= 1 && w >= 1
    ensures (n + w - 1) / w == 1 + (n - 1) / w
  {
    var q := (n - 1) / w;
    assert n - 1 == q * w + (n - 1) % w;
    assert (q + 1) * w == q * w + w;
    Quotient(n + w - 1, w, q + 1);
  }

  /** Whenever everything the sender has sent is delivered, both 8-bit counters agree. */
  lemma CountersMeet(x: Transfer, t: Tp, u: Tp, now: int, turns: seq<Turn>, q: Pair)
    requires Proper(x) && WindowsClose(x) && Facing(x, t, u) && Runs(Opening(x, t, u, now), turns, q)
    requires q.toB == |q.a.sent|
    ensures (x.src, x.dst) in q.a.sessions && (x.src, x.dst) in q.b.sessions
    ensures q.a.sessions[(x.src, x.dst)].next == q.b.sessions[(x.src, x.dst)].next
  {
    OpeningAt(x, t, u, now);
    var m := RunsKeepAt(x, Opening(x, t, u, now), u.delivered, Mark(0, 0, false, false), turns, q);
    LevelCounters(x, q, u.delivered, m);
  }

  // ---------------------------------------------------------------- windows that do not close

  /** A clear-to-send whose window runs past the counter is not defined for the sender. */
  lemma OverrunIsUnsafe(x: Transfer, p: Pair, base: seq<Data>, m: Mark, now: int)
    requires At(x, p, base, m) && InFlight(p, DeliverToA(now)) && m.c < Rounds(x, m.j) && !RoundFits(x, m.c)
    ensures !Safe(p, DeliverToA(now))
  {
    Pacing(x.data);
    ClearanceInFlight(x, p, base, m);
    CtsReadBack(x, m.c);
    StaysExactly(m.c * x.w + 1, Count(x), |x.data|, x.w);
  }

  /** Full windows never end at packet 255. */
  lemma NeverCloses(c: nat, w: nat)
    requires w >= 1 && 255 % w != 0
    ensures c * w != 255
  {
    if c * w == 255 { Quotient(255, w, c); }
  }

  lemma StaysBelow(c: nat, c': nat, w: nat)
    requires w >= 1 && 255 % w != 0 && c * w < 255 && (c' == c || (c' == c + 1 && c * w + w <= 255))
    ensures c' * w < 255
  {
    NeverCloses(c', w);
    assert c' == c + 1 ==> c' * w == c * w + w;
  }

  /** The sender has not reached the end, so a frame is on its way. */
  lemma StillGoing(x: Transfer, p: Pair, base: seq<Data>, m: Mark)
    requires At(x, p, base, m) && Count(x) == 255 && m.c * x.w < 255
    ensures m.j < Count(x)
    ensures m.started && m.c < Rounds(x, m.j) ==> InFlight(p, DeliverToA(0))
    ensures !(m.started && m.c < Rounds(x, m.j)) ==> InFlight(p, DeliverToB(0))
  {
    LogSizes(x, m);
    if m.started && m.j == Out(x, m.c) { LevelAsks(x, m.c, m.j); }
  }

  lemma {:induction false} Overruns(x: Transfer, p: Pair, base: seq<Data>, m: Mark) returns (turns: seq<Turn>, q: Pair)
    requires At(x, p, base, m) && Count(x) == 255 && 255 % x.w != 0 && m.c * x.w < 255
    ensures Runs(p, turns, q) && InFlight(q, DeliverToA(0)) && !Safe(q, DeliverToA(0))
    decreases Deliveries(x) - (p.toA + p.toB)
  {
    StillGoing(x, p, base, m);
    if m.started && m.c < Rounds(x, m.j) && !RoundFits(x, m.c) {
      turns, q := [], p;
      OverrunIsUnsafe(x, p, base, m, 0);
    } else {
      var turn := if m.started && m.c < Rounds(x, m.j) then DeliverToA(0) else DeliverToB(0);
      var m' := TakeKeepsAt(x, p, base, m, turn);
      var p' := Take(p, turn);
      QuietWhenDone(x, p', base, m');
      StaysBelow(m.c, m'.c, x.w);
      turns, q := Overruns(x, p', base, m');
      assert ([turn] + turns)[1..] == turns;
      turns := [turn] + turns;
    }
  }

  /** Every delivery that any schedule from `p` can come to is defined. */
  ghost predicate AlwaysDefined(p: Pair) {
    forall turns, q, turn | Runs(p, turns, q) && InFlight(q, turn) :: Safe(q, turn)
  }

  lemma ClosingIsDefined(x: Transfer, t: Tp, u: Tp, now: int)
    requires Proper(x) && WindowsClose(x) && Facing(x, t, u)
    ensures AlwaysDefined(Opening(x, t, u, now))
  {
    forall turns, q, turn | Runs(Opening(x, t, u, now), turns, q) && InFlight(q, turn)
      ensures Safe(q, turn)
    {
      TransferDeliversOnce(x, t, u, now, turns, q);
    }
  }

  lemma OverrunIsUndefined(p: Pair, turns: seq<Turn>, q: Pair, turn: Turn)
    requires Runs(p, turns, q) && InFlight(q, turn) && !Safe(q, turn)
    ensures !AlwaysDefined(p)
  {
  }

  /**
   * The condition on the window is exact: every delivery of every schedule of a transfer is defined
   * if and only if its windows close.
   */
  lemma DefinedIffWindowsClose(x: Transfer, t: Tp, u: Tp, now: int)
    requires Proper(x) && Facing(x, t, u)
    ensures WindowsClose(x) <==> AlwaysDefined(Opening(x, t, u, now))
  {
    var p := Opening(x, t, u, now);
    Pacing(x.data);
    if WindowsClose(x) {
      ClosingIsDefined(x, t, u, now);
    } else {
      OpeningAt(x, t, u, now);
      var turns, q := Overruns(x, p, u.delivered, Mark(0, 0, false, false));
      OverrunIsUndefined(p, turns, q, DeliverToA(0));
    }
  }
}
