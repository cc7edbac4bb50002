/** What a lossless sender puts on the bus, and the broadcast round trip. */
module Segmentation {
  import opened J1939
  import opened Frames
  import opened Transport
  import opened TransportRuns
  import opened Reassembly

  // ---------------------------------------------------------------- packets

  /** Packets `from` .. `from + m - 1` of a session. */
  function DtFrames(s: Session, from: nat, m: nat): (r: seq<Frame>)
    requires m > 0 ==> from >= 1 && from + m <= 256
    ensures |r| == m && forall i | 0 <= i < m :: r[i] == DtFrame(s, from + i)
  {
    seq(m, i requires 0 <= i < m => DtFrame(s, from + i))
  }

  /** How many packets one window sends. */
  function WindowSize(s: Session, count: nat): nat {
    if s.next > s.total then 0
    else if count <= s.total as int - s.next as int + 1 then count
    else s.total as int - s.next as int + 1
  }

  lemma DtFramesSplit(s: Session, r: Session, from: nat, m: nat)
    requires m > 0 && from >= 1 && from + m <= 256
    requires r.buffer == s.buffer && r.dest == s.dest && r.src == s.src
    ensures DtFrames(s, from, m) == [DtFrame(s, from)] + DtFrames(r, from + 1, m - 1)
  {
    var whole, tail := DtFrames(s, from, m), DtFrames(r, from + 1, m - 1);
    forall i | 1 <= i < m
      ensures whole[i] == tail[i - 1]
    {
      assert tail[i - 1] == DtFrame(r, (from + 1) + (i - 1));
    }
  }

  /** The state a lossless window leaves behind. */
  function AfterWindow(t: Tp, k: Key, m: nat, now: int): Tp
    requires k in t.sessions && (m > 0 ==> t.sessions[k].next >= 1 && t.sessions[k].next as int + m <= 256)
  {
    var s := t.sessions[k];
    if m == 0 then t
    else Store(t, k, s.(next := (s.next as int + m) % 0x100, last := now)).(sent := t.sent + DtFrames(s, s.next, m))
  }

  lemma StampThenRest(s: Session, m: nat, now: int)
    requires m > 1 && s.next as int + m <= 256
    ensures var s1 := Stamp(s, now);
            && s1.next as int == s.next as int + 1
            && s1.(next := (s1.next as int + (m - 1)) % 0x100, last := now) ==
                s.(next := (s.next as int + m) % 0x100, last := now)
  {
  }

  lemma OneMore(t: Tp, k: Key, m: nat, now: int)
    requires k in t.sessions && t.link == [] && m > 1 && t.sessions[k].next >= 1 && t.sessions[k].next as int + m <= 256
    ensures var s := t.sessions[k];
            var t1 := Store(Send(t, DtFrame(s, s.next)), k, Stamp(s, now));
            AfterWindow(t1, k, m - 1, now) == AfterWindow(t, k, m, now)
  {
    var s := t.sessions[k];
    var s1 := Stamp(s, now);
    StampThenRest(s, m, now);
    DtFramesSplit(s, s1, s.next, m);
    assert t.sent + DtFrames(s, s.next, m) == (t.sent + [DtFrame(s, s.next)]) + DtFrames(s1, s.next + 1, m - 1);
    var done := s.(next := (s.next as int + m) % 0x100, last := now);
    assert t.sessions[k := s1][k := done] == t.sessions[k := done];
  }

  lemma OneOnly(t: Tp, k: Key, now: int)
    requires k in t.sessions && t.link == [] && t.sessions[k].next >= 1
    ensures var s := t.sessions[k];
            AfterWindow(t, k, 1, now) == Store(Send(t, DtFrame(s, s.next)), k, Stamp(s, now))
  {
    var s := t.sessions[k];
    assert DtFrames(s, s.next, 1) == [DtFrame(s, s.next)];
  }

  /** One packet less to send, if the loop is defined. */
  lemma WindowShrinks(s: Session, count: nat, now: int)
    requires Stays(s.next, s.total, |s.buffer|, [], count) && WindowSize(s, count) > 0
    ensures s.next >= 1 && s.next as int + WindowSize(s, count) <= 256
    ensures var s1 := Stamp(s, now);
            && Stays(s1.next, s1.total, |s1.buffer|, [], count - 1)
            && WindowSize(s1, count - 1) == WindowSize(s, count) - 1
  {
  }

  lemma {:induction false} WindowIsSent(t: Tp, k: Key, count: nat, now: int)
    requires CanLoop(t, k, count) && t.link == []
    ensures var m := WindowSize(t.sessions[k], count);
            && (m > 0 ==> t.sessions[k].next >= 1 && t.sessions[k].next as int + m <= 256)
            && SendLoop(t, k, count, now) == (AfterWindow(t, k, m, now), true)
    decreases count
  {
    var s := t.sessions[k];
    var m := WindowSize(s, count);
    if m > 0 {
      WindowShrinks(s, count, now);
      var t1 := Store(Send(t, DtFrame(s, s.next)), k, Stamp(s, now));
      WindowIsSent(t1, k, count - 1, now);
      if m == 1 {
        OneOnly(t, k, now);
      } else {
        OneMore(t, k, m, now);
      }
    }
  }

  // ---------------------------------------------------------------- segmentation and reassembly are inverse

  function Chunks(data: seq<Byte>, n: nat): (r: seq<seq<Byte>>)
    ensures |r| == n && Sevens(r) && forall i | 0 <= i < n :: r[i] == Chunk(data, i)
  {
    seq(n, i requires 0 <= i < n => Chunk(data, i))
  }

  lemma ChunksFill(data: seq<Byte>)
    ensures Fill(|data|, Chunks(data, Packets(|data|))) == data
  {
  }

  /** The i-th operation delivers the packet with number i + 1. */
  ghost predicate InOrder(k: Key, data: seq<Byte>, ops: seq<Op>) {
    && |ops| <= 255
    && forall i | 0 <= i < |ops| :: PacketFor(k, ops[i]) && ops[i].fr.payload == [i + 1] + Chunk(data, i)
  }

  lemma {:induction false} PickInOrder(k: Key, total: nat, data: seq<Byte>, ops: seq<Op>)
    requires InOrder(k, data, ops) && |ops| <= total
    ensures Pick(k, total, ops) == Chunks(data, |ops|)
    decreases |ops|
  {
    if ops != [] {
      PickInOrder(k, total, data, Front(ops));
      assert Last(ops).fr.payload[1..] == Chunk(data, |ops| - 1);
    }
  }

  // ---------------------------------------------------------------- broadcast

  predicate Sendable(data: seq<Byte>) {
    8 < |data| <= MAX_SIZE
  }

  lemma Pacing(data: seq<Byte>)
    requires Sendable(data)
    ensures 2 <= Packets(|data|) <= 255 && (Packets(|data|) <= 254 <==> |data| <= 1778)
    ensures Sound(Packets(|data|), |data|)
  {
  }

  /** A whole lossless window and what follows it: the end-of-message frame once all packets are out. */
  lemma DataPacketsAreSent(t: Tp, k: Key, now: int)
    requires k in t.sessions && CanLoop(t, k, t.sessions[k].window) && t.link == []
    ensures var s := t.sessions[k];
            var m := WindowSize(s, s.window);
            && (m > 0 ==> s.next >= 1 && s.next as int + m <= 256)
            && var w := AfterWindow(t, k, m, now);
            && k in w.sessions
            && SendDataPackets(t, k, now) ==
               if w.sessions[k].next > s.total then
                 (Store(w.(sent := w.sent + (if s.bam then [] else [EomFrame(w.sessions[k])])), k,
                     w.sessions[k].(state := Completed)), true)
               else (w, false)
  {
    WindowIsSent(t, k, t.sessions[k].window, now);
    var w := AfterWindow(t, k, WindowSize(t.sessions[k], t.sessions[k].window), now);
    assert w.sent + [] == w.sent;
  }

  lemma AllInOneWindow(t: Tp, k: Key, now: int)
    requires k in t.sessions && t.link == []
    requires var s := t.sessions[k]; s.next == 1 && s.window >= s.total >= 1 && s.bam && Sound(s.total, |s.buffer|)
    ensures CanLoop(t, k, t.sessions[k].window)
    ensures var (r, ok) := SendDataPackets(t, k, now);
            var s := t.sessions[k];
            && r.sent == t.sent + DtFrames(s, 1, s.total) && r.errors == t.errors && r.link == []
            && (ok <==> s.total <= 254)
            && k in r.sessions && r.sessions[k].state == (if ok then Completed else s.state)
  {
    PacedStays(t.sessions[k].next, t.sessions[k].total, |t.sessions[k].buffer|, t.link, t.sessions[k].window);
    DataPacketsAreSent(t, k, now);
    assert WindowSize(t.sessions[k], t.sessions[k].window) == t.sessions[k].total;
    var sent := t.sent + DtFrames(t.sessions[k], 1, t.sessions[k].total);
    assert sent + [] == sent;
  }

  /**
   * A broadcast puts the announcement and all packets on the bus, in order. It reports success
   * and marks the session completed exactly up to 1778 bytes: with 255 packets the 8-bit counter
   * has wrapped to 0 and the completion test fails although everything was sent.
   */
  lemma BroadcastIsSent(t: Tp, data: seq<Byte>, pgn: nat, now: int)
    requires Sendable(data) && t.link == []
    ensures var (r, ok) := StartTx(t, data, NO_ADDR, pgn, now);
            var s, k := TxSession(t, data, NO_ADDR, pgn, now), (t.local, NO_ADDR);
            && r.sent == t.sent + [Announce(BAM, s, NO_ADDR, t.local)] + DtFrames(s, 1, s.total)
            && (ok <==> |data| <= 1778)
            && k in r.sessions && (r.sessions[k].state == Completed <==> |data| <= 1778)
            && r.errors == t.errors && r.link == []
  {
    Pacing(data);
    var s, k := TxSession(t, data, NO_ADDR, pgn, now), (t.local, NO_ADDR);
    AllInOneWindow(Send(Store(t, k, s), Announce(BAM, s, NO_ADDR, t.local)), k, now);
  }

  /** A PGN as a header reports it: 18 bits, the low byte cleared for destination-specific groups. */
  function NormalPgn(pgn: nat): nat {
    Cleared(pgn % 0x40000)
  }

  function Cleared(p: nat): nat {
    if p / 0x100 % 0x100 > PF_PDU1_MAX then p else p - p % 0x100
  }

  lemma EighteenBits(p: nat)
    ensures p % 0x40000 == p / 0x10000 % 4 * 0x10000 + p / 0x100 % 0x100 * 0x100 + p % 0x100
  {
    var q := p / 0x100;
    var r := q / 0x100;
    DivideTwice(p);
    assert p == 0x100 * q + p % 0x100 && q == 0x100 * r + q % 0x100 && r == 4 * (r / 4) + r % 4;
    Remainder(r / 4, r % 4 * 0x10000 + q % 0x100 * 0x100 + p % 0x100);
  }

  lemma Remainder(a: nat, rest: nat)
    requires rest < 0x40000
    ensures (a * 0x40000 + rest) % 0x40000 == rest
  {
  }

  /** The header of a broadcast message as delivered. */
  function BroadcastHeader(src: Address, pgn: nat): Header {
    SetPgn(BLANK, pgn % 0x1000000).(sa := src)
  }

  /** Source and parameter group survive the announcement's 24 bits and the header's 18. */
  lemma BroadcastHeaderNames(src: Address, pgn: nat)
    ensures BroadcastHeader(src, pgn).sa == src && Pgn(BroadcastHeader(src, pgn)) == NormalPgn(pgn)
  {
    var p := pgn % 0x1000000;
    NestedMod(pgn);
    EighteenBits(p);
    ClearedParts(p % 0x40000, p / 0x10000 % 4, p / 0x100 % 0x100, p % 0x100);
  }

  lemma NestedMod(pgn: nat)
    ensures pgn % 0x1000000 % 0x40000 == pgn % 0x40000
  {
    var q, p := pgn / 0x1000000, pgn % 0x1000000;
    assert pgn == (q * 64 + p / 0x40000) * 0x40000 + p % 0x40000;
  }

  lemma ClearedParts(p: nat, page: nat, pf: Byte, ps: Byte)
    requires p == page * 0x10000 + pf as int * 0x100 + ps && page < 4
    ensures Cleared(p) == page * 0x10000 + pf as int * 0x100 + (if pf > PF_PDU1_MAX then ps else 0)
  {
    assert p / 0x100 == page * 0x100 + pf as int;
    assert p % 0x100 == ps && p / 0x100 % 0x100 == pf;
  }

  /** What a receiver reads back from the announcement of a session. */
  lemma AnnouncementCarries(ctrl: Byte, s: Session, dst: Address)
    requires s.length < 0x10000
    ensures var fr := Announce(ctrl, s, dst, s.src);
            && IsCm(fr) && fr.header.sa == s.src && fr.header.ps == dst && fr.payload[0] == ctrl
            && PayloadLength(fr) == s.length && fr.payload[3] == s.total && fr.payload[4] == s.window
            && PayloadPgn(fr) == s.pgn % 0x1000000
  {
    ThreeBytes(s.pgn);
  }

  lemma ThreeDigits(a: nat, b: nat, c: nat, rest: nat)
    requires a < 0x100 && b < 0x100 && c < 0x100
    ensures (a + 0x100 * b + 0x10000 * c + 0x1000000 * rest) % 0x1000000 == a + 0x100 * b + 0x10000 * c
  {
  }

  lemma DivideTwice(p: nat)
    ensures p / 0x10000 == p / 0x100 / 0x100
  {
    var a, q := p % 0x100, p / 0x100;
    var b, r := q % 0x100, q / 0x100;
    assert p == (a + 0x100 * b) + 0x10000 * r;
  }

  lemma ThreeBytes(p: nat)
    ensures p % 0x1000000 == p % 0x100 + p / 0x100 % 0x100 * 0x100 + p / 0x10000 % 0x100 * 0x10000
  {
    var q := p / 0x100;
    var r := q / 0x100;
    DivideTwice(p);
    ThreeDigits(p % 0x100, q % 0x100, r % 0x100, r / 0x100);
    assert p == p % 0x100 + 0x100 * q && q == q % 0x100 + 0x100 * r && r == r % 0x100 + 0x100 * (r / 0x100);
  }

  /** The frames the operations bring, in order, are those of the list. */
  ghost predicate Delivers(ops: seq<Op>, frames: seq<Frame>) {
    |ops| == |frames| && forall i | 0 <= i < |ops| :: ops[i].Arrive? && ops[i].fr == frames[i]
  }

  /** Broadcasting and receiving are inverse for every size the protocol carries. */
  lemma BroadcastRoundTrip(t: Tp, data: seq<Byte>, pgn: nat, now: int, u: Tp, ops: seq<Op>)
    requires Sendable(data) && t.link == [] && Valid(u)
    requires var r := StartTx(t, data, NO_ADDR, pgn, now).0;
             t.sent <= r.sent && Delivers(ops, r.sent[|t.sent|..])
    ensures AllDefined(u, ops)
    ensures Run(u, ops).delivered == u.delivered + [Data(BroadcastHeader(t.local, pgn), data)]
  {
    BroadcastFrames(t, data, pgn, now);
    BroadcastIsReceived(data, TxSession(t, data, NO_ADDR, pgn, now), u, ops[0].now, ops[1..]);
    assert [ops[0]] + ops[1..] == ops;
  }

  lemma BroadcastFrames(t: Tp, data: seq<Byte>, pgn: nat, now: int)
    requires Sendable(data) && t.link == []
    ensures var r, s := StartTx(t, data, NO_ADDR, pgn, now).0, TxSession(t, data, NO_ADDR, pgn, now);
            && t.sent <= r.sent && s.total as int == Packets(|data|)
            && r.sent[|t.sent|..] == [Announce(BAM, s, NO_ADDR, t.local)] + DtFrames(s, 1, s.total)
  {
    BroadcastIsSent(t, data, pgn, now);
    var s := TxSession(t, data, NO_ADDR, pgn, now);
    AfterPrefix(t.sent, [Announce(BAM, s, NO_ADDR, t.local)], DtFrames(s, 1, s.total),
        StartTx(t, data, NO_ADDR, pgn, now).0.sent);
  }

  lemma AfterPrefix<T>(a: seq<T>, b: seq<T>, c: seq<T>, all: seq<T>)
    requires all == a + b + c
    ensures a <= all && all[|a|..] == b + c
  {
  }

  lemma BroadcastIsReceived(data: seq<Byte>, s: Session, u: Tp, now: int, ops: seq<Op>)
    requires Sendable(data) && s.buffer == data && s.length == |data| && s.total == Packets(|data|) && s.dest == NO_ADDR
    requires Valid(u) && Delivers(ops, DtFrames(s, 1, s.total))
    ensures var all := [Arrive(Announce(BAM, s, NO_ADDR, s.src), now)] + ops;
            && AllDefined(u, all)
            && Run(u, all).delivered == u.delivered + [Data(BroadcastHeader(s.src, s.pgn), data)]
  {
    var fr := Announce(BAM, s, NO_ADDR, s.src);
    Pacing(data);
    AnnouncementCarries(BAM, s, NO_ADDR);
    forall i | 0 <= i < |ops|
      ensures PacketFor(OpenedKey(fr), ops[i]) && ops[i].fr.payload == [i + 1] + Chunk(data, i)
    {
      assert ops[i].fr == DtFrame(s, 1 + i);
    }
    OneMessagePerStart(u, fr, now, ops);
    PickInOrder(OpenedKey(fr), s.total, data, ops);
    ChunksFill(data);
  }
}
