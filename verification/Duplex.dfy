/**
 * Two opposite transfers at once. Each node sends to the other while it receives from it; the
 * frames of the two transfers share the sessions map, the bus and the end-of-message and abort
 * frames, which each side takes for something else than the other meant. Both messages arrive.
 */
module Duplex {
  import opened J1939
  import opened Frames
  import opened Transport
  import opened TransportRuns
  import opened TransportLaws
  import opened Reassembly
  import opened Interleaving
  import opened Segmentation
  import opened Reception
  import opened EndToEnd

  // ---------------------------------------------------------------- frames between the two nodes

  predicate Ctrl(fr: Frame, ctrl: Byte) {
    IsCm(fr) && fr.payload[0] == ctrl
  }

  predicate Known(fr: Frame) {
    IsDt(fr) || Ctrl(fr, RTS) || Ctrl(fr, CTS) || Ctrl(fr, EOM) || Ctrl(fr, ABORT)
  }

  /** Frames that carry a transfer from `src` to `dst`: forth the request and the packets, back the clearance. */
  predicate Carries(src: Address, dst: Address, back: bool, fr: Frame) {
    if back then fr.header.ps == src && fr.header.sa == dst && Ctrl(fr, CTS)
    else fr.header.ps == dst && fr.header.sa == src && (IsDt(fr) || Ctrl(fr, RTS))
  }

  function Sift(src: Address, dst: Address, back: bool, log: seq<Frame>): seq<Frame>
    decreases |log|
  {
    if log == [] then []
    else (if Carries(src, dst, back, log[0]) then [log[0]] else []) + Sift(src, dst, back, log[1..])
  }

  lemma {:induction false} SiftMore(src: Address, dst: Address, back: bool, log: seq<Frame>, more: seq<Frame>)
    ensures Sift(src, dst, back, log + more) == Sift(src, dst, back, log) + Sift(src, dst, back, more)
    decreases |log|
  {
    if log == [] {
      assert log + more == more;
    } else {
      assert (log + more)[1..] == log[1..] + more && (log + more)[0] == log[0];
      SiftMore(src, dst, back, log[1..], more);
      Associates(if Carries(src, dst, back, log[0]) then [log[0]] else [], Sift(src, dst, back, log[1..]),
          Sift(src, dst, back, more));
    }
  }

  lemma {:induction false} SiftNone(src: Address, dst: Address, back: bool, log: seq<Frame>)
    requires forall i | 0 <= i < |log| :: !Carries(src, dst, back, log[i])
    ensures Sift(src, dst, back, log) == []
    decreases |log|
  {
    if log != [] { SiftNone(src, dst, back, log[1..]); }
  }

  lemma {:induction false} SiftAll(src: Address, dst: Address, back: bool, log: seq<Frame>)
    requires forall i | 0 <= i < |log| :: Carries(src, dst, back, log[i])
    ensures Sift(src, dst, back, log) == log
    decreases |log|
  {
    if log != [] {
      SiftAll(src, dst, back, log[1..]);
      assert [log[0]] + log[1..] == log;
    }
  }

  /** What goes to `dest` comes from `from` and is of a known kind. */
  ghost predicate Mutual(from: Address, dest: Address, log: seq<Frame>) {
    forall i | 0 <= i < |log| && log[i].header.ps == dest :: log[i].header.sa == from && Known(log[i])
  }

  /** How many deliveries a frame can lead to at most, its own included. */
  function Price(fr: Frame): nat {
    if IsDt(fr) then 3 else if Ctrl(fr, RTS) then 769 else if Ctrl(fr, CTS) then 768 else if Ctrl(fr, EOM) then 2 else 1
  }

  function Total(log: seq<Frame>): nat
    decreases |log|
  {
    if log == [] then 0 else Price(log[0]) + Total(log[1..])
  }

  lemma {:induction false} TotalMore(log: seq<Frame>, more: seq<Frame>)
    ensures Total(log + more) == Total(log) + Total(more)
    decreases |log|
  {
    if log == [] {
      assert log + more == more;
    } else {
      assert (log + more)[1..] == log[1..] + more;
      TotalMore(log[1..], more);
    }
  }

  lemma {:induction false} TotalOfPackets(log: seq<Frame>)
    requires forall i | 0 <= i < |log| :: IsDt(log[i])
    ensures Total(log) == 3 * |log|
    decreases |log|
  {
    if log != [] { TotalOfPackets(log[1..]); }
  }

  lemma TotalOfOne(log: seq<Frame>)
    requires |log| <= 1
    ensures Total(log) == if log == [] then 0 else Price(log[0])
  {
  }

  // ---------------------------------------------------------------- what a node sends when it hears the other

  /** `r` has sent `more` on top of `t`, on a bus that refuses nothing. */
  ghost predicate Adds(t: Tp, more: seq<Frame>, r: Tp) {
    r.local == t.local && t.link == r.link == [] && r.sent == t.sent + more
  }

  lemma AddsOnce(t: Tp, more: seq<Frame>, same: seq<Frame>, r: Tp)
    requires Adds(t, more, r) && r.sent == t.sent + same
    ensures more == same
  {
    assert more == r.sent[|t.sent|..] == same;
  }

  lemma {:induction false} OpenBus(frs: seq<Frame>)
    ensures Through([], frs) == frs
    decreases |frs|
  {
    if frs != [] {
      OpenBus(frs[1..]);
      assert [frs[0]] + frs[1..] == frs;
    }
  }

  lemma TriedOnOpenBus(t: Tp, frs: seq<Frame>, errors: seq<Error>, sessions: map<Key, Session>, r: Tp)
    requires t.link == [] && Tried(t, frs, errors, sessions, r)
    ensures Adds(t, frs, r)
  {
    OpenBus(frs);
  }

  /** None of the frames is a request or a packet; none of them is a clear-to-send. */
  ghost predicate NoForth(more: seq<Frame>) {
    forall i | 0 <= i < |more| :: !IsDt(more[i]) && !Ctrl(more[i], RTS)
  }

  ghost predicate NoBack(more: seq<Frame>) {
    forall i | 0 <= i < |more| :: !Ctrl(more[i], CTS)
  }

  /** A frame of the other node that this one has to deal with. */
  ghost predicate Heard(t: Tp, peer: Address, fr: Frame) {
    && Valid(t) && t.link == [] && peer != t.local && fr.header.sa == peer && fr.header.ps == t.local
    && Known(fr) && FrameDefined(t, fr)
  }

  /** What it sends in turn: requests and packets only when cleared, clearances only for requests and packets. */
  ghost predicate Reacts(t: Tp, peer: Address, fr: Frame, more: seq<Frame>, r: Tp) {
    && Adds(t, more, r) && Valid(r) && Mutual(t.local, peer, more)
    && (!Ctrl(fr, CTS) ==> NoForth(more))
    && (!IsDt(fr) && !Ctrl(fr, RTS) ==> NoBack(more) && r.delivered == t.delivered)
    && if IsDt(fr) then |more| <= 1 else Total(more) < Price(fr)
  }

  lemma ControlsDiffer(fr: Frame)
    ensures IsCm(fr) <==> fr.header.page == 0 && fr.header.pf == 0xEC
    ensures IsDt(fr) <==> Packet(fr)
    ensures forall c: Byte :: Ctrl(fr, c) <==> Control(fr, c)
  {
    PagesSeparate(fr.header);
  }

  lemma RequestReacts(t: Tp, peer: Address, fr: Frame, now: int) returns (more: seq<Frame>)
    requires Heard(t, peer, fr) && Ctrl(fr, RTS)
    ensures Reacts(t, peer, fr, more, OnCanFrame(t, fr, now))
  {
    ControlsDiffer(fr);
    RequestToSendLaw(t, fr, now);
    more := [CmFrame(peer, t.local, 0x11, fr.payload[4], 1, 0, 0, PgnIn(fr))];
    ControlsDiffer(more[0]);
    PerformKept(t, Arrive(fr, now));
    var r := OnCanFrame(t, fr, now);
    TriedOnOpenBus(t, more, [], r.sessions, r);
    TotalOfOne(more);
  }

  lemma AcknowledgementReacts(t: Tp, peer: Address, fr: Frame, now: int) returns (more: seq<Frame>)
    requires Heard(t, peer, fr) && (Ctrl(fr, EOM) || Ctrl(fr, ABORT))
    ensures Reacts(t, peer, fr, more, OnCanFrame(t, fr, now))
  {
    ControlsDiffer(fr);
    PerformKept(t, Arrive(fr, now));
    var r := OnCanFrame(t, fr, now);
    assert t.sent + [] == t.sent;
    if Ctrl(fr, EOM) {
      EndOfMessageLaw(t, fr, now);
      if (peer, t.local) in t.sessions {
        more := [];
      } else {
        more := [CmFrame(peer, t.local, 0xFF, 6, 0, 0, 0, PgnIn(fr))];
        ControlsDiffer(more[0]);
        TriedOnOpenBus(t, more, [EomWithoutSession], r.sessions, r);
      }
    } else {
      AbortLaw(t, fr, now);
      more := [];
    }
    TotalOfOne(more);
  }

  lemma PacketReacts(t: Tp, peer: Address, fr: Frame, now: int) returns (more: seq<Frame>)
    requires Heard(t, peer, fr) && IsDt(fr)
    ensures Reacts(t, peer, fr, more, OnCanFrame(t, fr, now))
  {
    var r, k := OnCanFrame(t, fr, now), (peer, t.local);
    ControlsDiffer(fr);
    PerformKept(t, Arrive(fr, now));
    if k !in t.sessions {
      StrayPacketLaw(t, fr, now);
      more := [CmFrame(peer, t.local, 0xFF, 6, 0, 0, 0, PgnIn(fr))];
      TriedOnOpenBus(t, more, [DtWithoutSession], r.sessions, r);
    } else {
      more := SessionPacketReacts(t, k, fr, now);
    }
    if more != [] { ControlsDiffer(more[0]); }
  }

  /** A packet of a known session is answered with at most one control frame to its sender. */
  lemma SessionPacketReacts(t: Tp, k: Key, fr: Frame, now: int) returns (more: seq<Frame>)
    requires Valid(t) && t.link == [] && k in t.sessions && FrameDefined(t, fr) && Packet(fr)
    requires fr.header.sa == k.0 && fr.header.ps == k.1
    ensures Adds(t, more, OnCanFrame(t, fr, now)) && |more| <= 1
    ensures more != [] ==> more[0].header == Header(0, 0, 0xEC, k.0, k.1) && more[0].payload[0] in {0x11, 0x13, 0xFF}
  {
    var r, s, n := OnCanFrame(t, fr, now), t.sessions[k], fr.payload[0];
    if !Passes(s, n) {
      UnwantedPacketLaw(t, k, fr, now);
      more := [CmFrame(s.src, s.dest, 0xFF, Verdict(s, n).0, 0, 0, 0, s.pgn)];
      TriedOnOpenBus(t, more, [Verdict(s, n).1], r.sessions, r);
    } else if n < s.total {
      NextPacketLaw(t, k, fr, now);
      more := if !s.bam && n % s.window == 0 then [CmFrame(s.src, s.dest, 0x11, s.window, n + 1, 0, 0, s.pgn)] else [];
      TriedOnOpenBus(t, more, [], r.sessions, r);
    } else {
      LastPacketLaw(t, k, fr, now);
      more := if s.bam then []
             else [CmFrame(s.src, s.dest, 0x13, s.length % 256, s.length / 256 % 256, s.total, 0xFF, s.pgn)];
      TriedOnOpenBus(t.(delivered := r.delivered), more, [], r.sessions, r);
    }
  }

  /** The frames of a round on an open bus. */
  lemma RoundOnOpenBus(t: Tp, k: Key, m: nat, now: int, r: Tp, ok: bool) returns (more: seq<Frame>)
    requires k in t.sessions && (m > 0 ==> t.sessions[k].next >= 1 && t.sessions[k].next as int + m <= 256)
    requires t.link == [] && RoundTried(t, k, m, now, r, ok)
    ensures var s := t.sessions[k];
            && Adds(t, more, r) && r.delivered == t.delivered && m <= |more| <= m + 1
            && more[..m] == DtFrames(s, s.next, m)
            && (|more| > m ==> more[m].header == Header(0, 0, 0xEC, s.src, s.dest) && more[m].payload[0] == 0x13)
  {
    var s := t.sessions[k];
    var eom := CmFrame(s.src, s.dest, 0x13, s.length % 256, s.length / 256 % 256, s.total, 0xFF, s.pgn);
    more := DtFrames(s, s.next, m) + if ok && !s.bam then [eom] else [];
    assert Passed([], m) == m;
    assert DtFrames(s, s.next, m) + [] == DtFrames(s, s.next, m);
    TriedOnOpenBus(t, more, [], r.sessions, r);
  }

  /** Packets to the destination, and an end-of-message frame to the source itself. */
  lemma RoundKinds(s: Session, m: nat, more: seq<Frame>)
    requires m > 0 ==> s.next >= 1 && s.next as int + m <= 256
    requires m <= |more| <= m + 1 && more[..m] == DtFrames(s, s.next, m) && s.src != s.dest
    requires |more| > m ==> more[m].header == Header(0, 0, 0xEC, s.src, s.dest) && more[m].payload[0] == 0x13
    ensures NoBack(more) && Mutual(s.src, s.dest, more)
  {
    forall i | 0 <= i < |more|
      ensures !Ctrl(more[i], CTS) && (more[i].header.ps == s.dest ==> more[i].header.sa == s.src && Known(more[i]))
    {
      ControlsDiffer(more[i]);
      if i < m {
        assert more[i] == more[..m][i] == DtFrame(s, s.next + i);
        PacketBytes(s, s.next + i);
      }
    }
  }

  lemma RoundTotal(s: Session, m: nat, more: seq<Frame>)
    requires m > 0 ==> s.next >= 1 && s.next as int + m <= 256
    requires m <= |more| <= m + 1 && more[..m] == DtFrames(s, s.next, m)
    requires |more| > m ==> more[m].header == Header(0, 0, 0xEC, s.src, s.dest) && more[m].payload[0] == 0x13
    ensures Total(more) <= 3 * m + 2
  {
    forall i | 0 <= i < m
      ensures IsDt(more[..m][i])
    {
      PacketBytes(s, s.next + i);
      ControlsDiffer(more[..m][i]);
    }
    TotalOfPackets(more[..m]);
    if |more| > m { ControlsDiffer(more[m]); }
    TotalOfOne(more[m..]);
    TotalMore(more[..m], more[m..]);
    assert more == more[..m] + more[m..];
  }

  lemma ClearanceReacts(t: Tp, peer: Address, fr: Frame, now: int) returns (more: seq<Frame>)
    requires Heard(t, peer, fr) && Ctrl(fr, CTS)
    ensures Reacts(t, peer, fr, more, OnCanFrame(t, fr, now))
  {
    var r, k := OnCanFrame(t, fr, now), (t.local, peer);
    ControlsDiffer(fr);
    PerformKept(t, Arrive(fr, now));
    if k in t.sessions {
      var s := t.sessions[k].(window := fr.payload[1], next := fr.payload[2]);
      var t1, m := t.(sessions := t.sessions[k := s]), WindowSize(s, fr.payload[1]);
      GrantedRound(t, fr, now, k, s, m);
      more := RoundOnOpenBus(t1, k, m, now, r, RoundTried(t1, k, m, now, r, true));
      RoundKinds(s, m, more);
      RoundTotal(s, m, more);
    } else {
      ClearToSendLaw(t, fr, now);
      more := [CmFrame(t.local, peer, 0xFF, 6, 0, 0, 0, PgnIn(fr))];
      ControlsDiffer(more[0]);
      TotalOfOne(more);
      TriedOnOpenBus(t, more, [CtsWithoutSession], r.sessions, r);
    }
  }

  lemma Reaction(t: Tp, peer: Address, fr: Frame, now: int) returns (more: seq<Frame>)
    requires Heard(t, peer, fr)
    ensures Reacts(t, peer, fr, more, OnCanFrame(t, fr, now))
  {
    if IsDt(fr) {
      more := PacketReacts(t, peer, fr, now);
    } else if Ctrl(fr, RTS) {
      more := RequestReacts(t, peer, fr, now);
    } else if Ctrl(fr, CTS) {
      more := ClearanceReacts(t, peer, fr, now);
    } else {
      more := AcknowledgementReacts(t, peer, fr, now);
    }
  }

  // ---------------------------------------------------------------- one transfer among other frames

  /** Not begun, requested, cleared, or `taken` packets received. */
  datatype Phase = NotYet | Asked | Cleared | Sending(taken: nat)

  predicate Ordinary(x: Transfer) {
    Proper(x) && x.w == 255
  }

  ghost predicate SendsIt(x: Transfer, t: Tp) {
    && (x.src, x.dst) in t.sessions
    && var s := t.sessions[(x.src, x.dst)];
       s.buffer == x.data && s.length == |x.data| && s.total as int == Count(x) && s.pgn == x.pgn && !s.bam
  }

  ghost predicate ReceivesIt(x: Transfer, t: Tp, taken: nat) {
    && (x.src, x.dst) in t.sessions
    && var s := t.sessions[(x.src, x.dst)];
       && Holds(s, Chunks(x.data, taken)) && s.length == |x.data| && s.total as int == Count(x)
       && s.window == 255 && s.pgn == x.pgn % 0x1000000 && !s.bam
  }

  /** How far the transfer is, by the sessions of its ends and the frames of its own on the way. */
  ghost predicate InPhase(x: Transfer, a: Tp, b: Tp, forth: seq<Frame>, back: seq<Frame>, ph: Phase)
    requires Ordinary(x)
  {
    var out, home := Sift(x.src, x.dst, false, forth), Sift(x.src, x.dst, true, back);
    match ph
    case NotYet => out == [] && home == []
    case Asked => SendsIt(x, a) && out == [RtsOf(x)] && home == []
    case Cleared => SendsIt(x, a) && ReceivesIt(x, b, 0) && out == [] && home == [CtsOf(x, 0)]
    case Sending(j) =>
      Pacing(x.data);
      j <= Count(x) && ReceivesIt(x, b, j) && out == Dts(x, Count(x))[j..] && home == []
  }

  /** The transfer from `a` to `b`, with `forth` and `back` on the way. */
  ghost predicate Way(x: Transfer, a: Tp, b: Tp, forth: seq<Frame>, back: seq<Frame>, ph: Phase, base: seq<Data>) {
    && Ordinary(x) && Valid(a) && Valid(b) && a.local == x.src && b.local == x.dst && a.link == b.link == []
    && InPhase(x, a, b, forth, back, ph)
    && b.delivered == base + (if ph == Sending(Count(x)) then [MessageOf(x)] else [])
  }

  lemma SiftHead(src: Address, dst: Address, back: bool, fr: Frame, rest: seq<Frame>)
    ensures Sift(src, dst, back, [fr] + rest) ==
            (if Carries(src, dst, back, fr) then [fr] else []) + Sift(src, dst, back, rest)
  {
    assert ([fr] + rest)[1..] == rest;
  }

  /** Frames that are not the transfer's own may leave the bus or enter it. */
  lemma OthersLeave(x: Transfer, a: Tp, b: Tp, fr: Frame, rest: seq<Frame>, other: seq<Frame>, ph: Phase,
                    base: seq<Data>)
    ensures !Carries(x.src, x.dst, false, fr) && Way(x, a, b, [fr] + rest, other, ph, base) ==>
              Way(x, a, b, rest, other, ph, base)
    ensures !Carries(x.src, x.dst, true, fr) && Way(x, a, b, other, [fr] + rest, ph, base) ==>
              Way(x, a, b, other, rest, ph, base)
  {
    SiftHead(x.src, x.dst, false, fr, rest);
    SiftHead(x.src, x.dst, true, fr, rest);
  }

  lemma NoneForth(src: Address, dst: Address, log: seq<Frame>, more: seq<Frame>)
    requires NoForth(more)
    ensures Sift(src, dst, false, log + more) == Sift(src, dst, false, log)
  {
    SiftMore(src, dst, false, log, more);
    SiftNone(src, dst, false, more);
  }

  lemma NoneBack(src: Address, dst: Address, log: seq<Frame>, more: seq<Frame>)
    requires NoBack(more)
    ensures Sift(src, dst, true, log + more) == Sift(src, dst, true, log)
  {
    SiftMore(src, dst, true, log, more);
    SiftNone(src, dst, true, more);
  }

  // ---------------------------------------------------------------- the receiving end

  lemma FirstOut(x: Transfer, a: Tp, b: Tp, fr: Frame, rest: seq<Frame>, back: seq<Frame>, ph: Phase, base: seq<Data>)
    requires Way(x, a, b, [fr] + rest, back, ph, base) && Carries(x.src, x.dst, false, fr)
    ensures Count(x) <= 255
    ensures (ph.Asked? && fr == RtsOf(x) && Sift(x.src, x.dst, false, rest) == []) ||
            (ph.Sending? && ph.taken < Count(x) && fr == PacketOf(x, ph.taken) &&
             Sift(x.src, x.dst, false, rest) == Dts(x, Count(x))[ph.taken + 1..])
  {
    Pacing(x.data);
    SiftHead(x.src, x.dst, false, fr, rest);
    var out := Sift(x.src, x.dst, false, [fr] + rest);
    assert out[0] == fr && out[1..] == Sift(x.src, x.dst, false, rest);
  }

  lemma RequestComes(x: Transfer, b: Tp, now: int)
    requires Ordinary(x) && Valid(b) && b.local == x.dst && b.link == []
    ensures var r := OnCanFrame(b, RtsOf(x), now);
            FrameDefined(b, RtsOf(x)) && Adds(b, [CtsOf(x, 0)], r) && Valid(r) && r.delivered == b.delivered &&
            ReceivesIt(x, r, 0)
  {
    Pacing(x.data);
    var fr := RtsOf(x);
    AnnouncementCarries(RTS, Template(x, 0).(window := x.w), x.dst);
    StartOpens(b, fr, now);
    ControlsDiffer(fr);
    RequestToSendLaw(b, fr, now);
    var r := OnCanFrame(b, fr, now);
    PgnBytes(CTS, x.w, 1, 0, 0, x.pgn);
    assert CmFrame(x.src, x.dst, 0x11, 255, 1, 0, 0, PgnIn(fr)) == CtsOf(x, 0);
    TriedOnOpenBus(b, [CtsOf(x, 0)], [], r.sessions, r);
    assert Chunks(x.data, 0) == [];
  }

  lemma PacketComes(x: Transfer, b: Tp, j: nat, now: int)
    requires Ordinary(x) && Valid(b) && b.local == x.dst && j < Count(x) <= 255 && ReceivesIt(x, b, j)
    ensures var fr := PacketOf(x, j);
            && FrameDefined(b, fr) && IsDt(fr)
            && var r := OnCanFrame(b, fr, now);
               && ReceivesIt(x, r, j + 1)
               && r.delivered == b.delivered + (if j + 1 == Count(x) then [MessageOf(x)] else [])
  {
    var k, fr := (x.src, x.dst), PacketOf(x, j);
    var s, op := b.sessions[k], Arrive(fr, now);
    Pacing(x.data);
    PacketBytes(Template(x, 0), j + 1);
    ControlsDiffer(fr);
    NextChunkHolds(x, s, j, now);
    assert fr.payload[1..] == Chunk(x.data, j);
    PacketGoesOn(b, k, Chunks(x.data, j), op);
    assert Chunks(x.data, j) + [Chunk(x.data, j)] == Chunks(x.data, j + 1);
    var r := OnCanFrame(b, fr, now);
    assert r.delivered == b.delivered + r.delivered[|b.delivered|..];
    if j + 1 == Count(x) { ChunksFill(x.data); }
  }

  /** A frame of the sender that is neither request nor packet leaves the reception alone. */
  lemma ReceiverSpares(x: Transfer, b: Tp, fr: Frame, j: nat, now: int)
    requires Ordinary(x) && Heard(b, x.src, fr) && b.local == x.dst && !IsDt(fr) && !Ctrl(fr, RTS)
    ensures ReceivesIt(x, b, j) ==> ReceivesIt(x, OnCanFrame(b, fr, now), j)
  {
    if ReceivesIt(x, b, j) { AsideSpares(b, (x.src, x.dst), Arrive(fr, now)); }
  }

  /** The phase once the receiver has dealt with `fr`. */
  function Received(x: Transfer, fr: Frame, ph: Phase): Phase {
    if !Carries(x.src, x.dst, false, fr) then ph else if ph.Sending? then Sending(ph.taken + 1) else Cleared
  }

  lemma OwnFrameIsDefined(x: Transfer, a: Tp, b: Tp, fr: Frame, rest: seq<Frame>, back: seq<Frame>, ph: Phase,
                          base: seq<Data>)
    requires Way(x, a, b, [fr] + rest, back, ph, base) && Carries(x.src, x.dst, false, fr)
    ensures FrameDefined(b, fr)
  {
    FirstOut(x, a, b, fr, rest, back, ph, base);
    if ph.Asked? { RequestComes(x, b, 0); } else { PacketComes(x, b, ph.taken, 0); }
  }

  lemma ReceiverHears(x: Transfer, a: Tp, b: Tp, fr: Frame, rest: seq<Frame>, back: seq<Frame>, ph: Phase,
                      base: seq<Data>, now: int, more: seq<Frame>)
    requires Way(x, a, b, [fr] + rest, back, ph, base) && Heard(b, x.src, fr)
    requires Reacts(b, x.src, fr, more, OnCanFrame(b, fr, now))
    ensures Way(x, a, OnCanFrame(b, fr, now), rest, back + more, Received(x, fr, ph), base)
  {
    var r := OnCanFrame(b, fr, now);
    if Carries(x.src, x.dst, false, fr) {
      FirstOut(x, a, b, fr, rest, back, ph, base);
      if ph.Asked? {
        RequestComes(x, b, now);
        AddsOnce(b, more, [CtsOf(x, 0)], r);
        CtsReadBack(x, 0);
        SiftMore(x.src, x.dst, true, back, more);
        SiftAll(x.src, x.dst, true, more);
      } else {
        PacketReceived(x, a, b, fr, rest, back, ph.taken, base, now, more);
      }
    } else {
      SiftHead(x.src, x.dst, false, fr, rest);
      NoneBack(x.src, x.dst, back, more);
      ReceiverSpares(x, b, fr, if ph.Sending? then ph.taken else 0, now);
    }
  }

  lemma PacketReceived(x: Transfer, a: Tp, b: Tp, fr: Frame, rest: seq<Frame>, back: seq<Frame>, j: nat,
                       base: seq<Data>, now: int, more: seq<Frame>)
    requires Way(x, a, b, [fr] + rest, back, Sending(j), base) && j < Count(x) <= 255 && fr == PacketOf(x, j)
    requires Sift(x.src, x.dst, false, rest) == Dts(x, Count(x))[j + 1..]
    requires FrameDefined(b, fr) && Reacts(b, x.src, fr, more, OnCanFrame(b, fr, now))
    ensures Way(x, a, OnCanFrame(b, fr, now), rest, back + more, Sending(j + 1), base)
  {
    PacketComes(x, b, j, now);
    PacketAnswers(x, b, j, now, more);
    NoneBack(x.src, x.dst, back, more);
    assert base + [] == base;
  }

  /** With a window of 255 no packet is answered with a clear-to-send. */
  lemma PacketAnswers(x: Transfer, b: Tp, j: nat, now: int, more: seq<Frame>)
    requires Ordinary(x) && Valid(b) && b.link == [] && b.local == x.dst && j < Count(x) <= 255 && ReceivesIt(x, b, j)
    requires FrameDefined(b, PacketOf(x, j)) && Adds(b, more, OnCanFrame(b, PacketOf(x, j), now))
    ensures NoBack(more)
  {
    var k, fr := (x.src, x.dst), PacketOf(x, j);
    var s, r := b.sessions[k], OnCanFrame(b, fr, now);
    PacketBytes(Template(x, 0), j + 1);
    NextChunkHolds(x, s, j, now);
    if j + 1 < Count(x) {
      NextPacketLaw(b, k, fr, now);
      TriedOnOpenBus(b, [], [], r.sessions, r);
      AddsOnce(b, more, [], r);
    } else {
      LastPacketLaw(b, k, fr, now);
      var eom := CmFrame(s.src, s.dest, 0x13, s.length % 256, s.length / 256 % 256, s.total, 0xFF, s.pgn);
      TriedOnOpenBus(b.(delivered := r.delivered), [eom], [], r.sessions, r);
      ControlsDiffer(eom);
      AddsOnce(b, more, [eom], r);
    }
  }

  // ---------------------------------------------------------------- the sending end

  lemma FirstHome(x: Transfer, a: Tp, b: Tp, forth: seq<Frame>, fr: Frame, rest: seq<Frame>, ph: Phase, base: seq<Data>)
    requires Way(x, a, b, forth, [fr] + rest, ph, base) && Carries(x.src, x.dst, true, fr)
    ensures ph.Cleared? && fr == CtsOf(x, 0) && Sift(x.src, x.dst, true, rest) == []
  {
    SiftHead(x.src, x.dst, true, fr, rest);
    var home := Sift(x.src, x.dst, true, [fr] + rest);
    assert home[0] == fr && home[1..] == Sift(x.src, x.dst, true, rest);
  }

  lemma ClearanceIsDefined(x: Transfer, a: Tp)
    requires Ordinary(x) && Valid(a) && a.local == x.src && a.link == [] && SendsIt(x, a)
    ensures FrameDefined(a, CtsOf(x, 0)) && Ctrl(CtsOf(x, 0), CTS)
  {
    Pacing(x.data);
    CtsReadBack(x, 0);
    PacedStays(1, Count(x), |x.data|, [], 255);
  }

  lemma ClearanceRound(x: Transfer, a: Tp, now: int) returns (ok: bool)
    requires Ordinary(x) && Valid(a) && a.local == x.src && SendsIt(x, a) && Count(x) <= 255
    requires FrameDefined(a, CtsOf(x, 0))
    ensures var k := (x.src, x.dst);
            var s := a.sessions[k].(window := 255, next := 1);
            RoundTried(a.(sessions := a.sessions[k := s]), k, Count(x), now, OnCanFrame(a, CtsOf(x, 0), now), ok)
  {
    var k, fr := (x.src, x.dst), CtsOf(x, 0);
    var s := a.sessions[k].(window := 255, next := 1);
    Pacing(x.data);
    CtsReadBack(x, 0);
    ControlsDiffer(fr);
    WholeWindow(s);
    GrantedRound(a, fr, now, k, s, Count(x));
    ok := RoundTried(a.(sessions := a.sessions[k := s]), k, Count(x), now, OnCanFrame(a, fr, now), true);
  }

  /** The clearance makes the sender put out every packet. */
  lemma ClearanceComes(x: Transfer, a: Tp, now: int, more: seq<Frame>)
    requires Ordinary(x) && Valid(a) && a.local == x.src && a.link == [] && SendsIt(x, a) && Count(x) <= 255
    requires FrameDefined(a, CtsOf(x, 0)) && Adds(a, more, OnCanFrame(a, CtsOf(x, 0), now))
    ensures var s := a.sessions[(x.src, x.dst)].(window := 255, next := 1);
            && Count(x) <= |more| <= Count(x) + 1 && more[..Count(x)] == DtFrames(s, 1, Count(x))
            && (|more| > Count(x) ==> more[Count(x)].header == Header(0, 0, 0xEC, x.src, x.dst))
  {
    var k, fr := (x.src, x.dst), CtsOf(x, 0);
    var s := a.sessions[k].(window := 255, next := 1);
    var r, t1, m := OnCanFrame(a, fr, now), a.(sessions := a.sessions[k := s]), Count(x);
    Pacing(x.data);
    var ok := ClearanceRound(x, a, now);
    var all := RoundOnOpenBus(t1, k, m, now, r, ok);
    AddsOnce(a, more, all, r);
  }

  lemma DtsCarry(x: Transfer, m: nat)
    requires Ordinary(x) && m <= 255
    ensures forall i | 0 <= i < m :: Carries(x.src, x.dst, false, Dts(x, m)[i])
  {
    forall i | 0 <= i < m
      ensures Carries(x.src, x.dst, false, Dts(x, m)[i])
    {
      PacketBytes(Template(x, 0), i + 1);
      ControlsDiffer(PacketOf(x, i));
    }
  }

  lemma DtsAre(x: Transfer, s: Session)
    requires Ordinary(x) && Count(x) <= 255 && s.buffer == x.data && s.src == x.src && s.dest == x.dst
    ensures DtFrames(s, 1, Count(x)) == Dts(x, Count(x))
    ensures Sift(x.src, x.dst, false, Dts(x, Count(x))) == Dts(x, Count(x))
  {
    WindowExtends(x, s, 0, Count(x));
    assert Dts(x, 0) + DtFrames(s, 1, Count(x)) == DtFrames(s, 1, Count(x));
    DtsCarry(x, Count(x));
    SiftAll(x.src, x.dst, false, Dts(x, Count(x)));
  }

  /** Packets and perhaps a frame the sender addresses to itself. */
  lemma PacketsCarry(x: Transfer, dts: seq<Frame>, more: seq<Frame>)
    requires Ordinary(x) && |dts| <= |more| <= |dts| + 1 && more[..|dts|] == dts
    requires Sift(x.src, x.dst, false, dts) == dts
    requires |more| > |dts| ==> more[|dts|].header.ps == x.src
    ensures Sift(x.src, x.dst, false, more) == dts
  {
    assert more == dts + more[|dts|..];
    SiftMore(x.src, x.dst, false, dts, more[|dts|..]);
    SiftNone(x.src, x.dst, false, more[|dts|..]);
    assert dts + [] == dts;
  }

  /** Whatever else the other node sends, the sending session keeps its message. */
  lemma SenderSpares(x: Transfer, a: Tp, fr: Frame, now: int)
    requires Ordinary(x) && Heard(a, x.dst, fr) && a.local == x.src && !Ctrl(fr, CTS)
    ensures SendsIt(x, a) ==> SendsIt(x, OnCanFrame(a, fr, now))
  {
    ControlsDiffer(fr);
    if Ctrl(fr, ABORT) {
      AbortLaw(a, fr, now);
    } else if IsCm(fr) {
      HandleCmTouches(a, fr, now);
    } else {
      var j := (fr.header.sa, fr.header.ps);
      if j in a.sessions { HandleDtSteps(a, j, fr, now); } else { StrayDt(a, fr, now); }
    }
  }

  function Answered(x: Transfer, fr: Frame, ph: Phase): Phase {
    if Carries(x.src, x.dst, true, fr) then Sending(0) else ph
  }

  lemma SenderHears(x: Transfer, a: Tp, b: Tp, forth: seq<Frame>, fr: Frame, rest: seq<Frame>, ph: Phase,
                    base: seq<Data>, now: int, more: seq<Frame>)
    requires Way(x, a, b, forth, [fr] + rest, ph, base) && Heard(a, x.dst, fr)
    requires Reacts(a, x.dst, fr, more, OnCanFrame(a, fr, now))
    ensures Way(x, OnCanFrame(a, fr, now), b, forth + more, rest, Answered(x, fr, ph), base)
  {
    Pacing(x.data);
    if Carries(x.src, x.dst, true, fr) {
      FirstHome(x, a, b, forth, fr, rest, ph, base);
      ClearanceComes(x, a, now, more);
      DtsAre(x, a.sessions[(x.src, x.dst)].(window := 255, next := 1));
      PacketsCarry(x, Dts(x, Count(x)), more);
      SiftMore(x.src, x.dst, false, forth, more);
      assert Dts(x, Count(x))[0..] == Dts(x, Count(x));
    } else {
      SiftHead(x.src, x.dst, true, fr, rest);
      NoneForth(x.src, x.dst, forth, more);
      SenderSpares(x, a, fr, now);
    }
  }

  // ---------------------------------------------------------------- both directions

  /** The two nodes, the frames each has sent and the other has not seen, and who has begun to send. */
  datatype Line = Line(a: Tp, b: Tp, forth: seq<Frame>, back: seq<Frame>, asked: bool, replied: bool)

  datatype Move = ToB(now: int) | ToA(now: int) | SubmitA(now: int) | SubmitB(now: int)

  /** The line as the other node sees it. */
  function Turned(l: Line): Line {
    Line(l.b, l.a, l.back, l.forth, l.replied, l.asked)
  }

  function Newly(t: Tp, r: Tp): seq<Frame> {
    if |t.sent| <= |r.sent| then r.sent[|t.sent|..] else []
  }

  predicate SafeToB(l: Line) {
    l.forth != [] && (l.forth[0].header.ps == l.b.local ==> FrameDefined(l.b, l.forth[0]))
  }

  /** The oldest frame reaches the other node, which drops what is not for it. */
  function DeliverB(l: Line, now: int): Line
    requires SafeToB(l)
  {
    var fr := l.forth[0];
    if fr.header.ps != l.b.local then l.(forth := l.forth[1..])
    else
      var r := OnCanFrame(l.b, fr, now);
      l.(b := r, forth := l.forth[1..], back := l.back + Newly(l.b, r))
  }

  function BeginA(x: Transfer, l: Line, now: int): Line {
    var r := StartTx(l.a, x.data, x.dst, x.pgn, now).0;
    l.(a := r, forth := l.forth + Newly(l.a, r), asked := true)
  }

  predicate Possible(l: Line, mv: Move) {
    match mv
    case ToB(_) => l.forth != []
    case ToA(_) => l.back != []
    case SubmitA(_) => !l.asked
    case SubmitB(_) => !l.replied
  }

  predicate Safe(l: Line, mv: Move) {
    match mv
    case ToB(_) => SafeToB(l)
    case ToA(_) => SafeToB(Turned(l))
    case _ => true
  }

  function Do(x: Transfer, y: Transfer, l: Line, mv: Move): Line
    requires Possible(l, mv) && Safe(l, mv)
  {
    match mv
    case ToB(now) => DeliverB(l, now)
    case ToA(now) => Turned(DeliverB(Turned(l), now))
    case SubmitA(now) => BeginA(x, l, now)
    case SubmitB(now) => Turned(BeginA(y, Turned(l), now))
  }

  ghost predicate Talks(x: Transfer, y: Transfer, l: Line, mvs: seq<Move>, m: Line)
    decreases |mvs|
  {
    if mvs == [] then l == m
    else Possible(l, mvs[0]) && Safe(l, mvs[0]) && Talks(x, y, Do(x, y, l, mvs[0]), mvs[1..], m)
  }

  /** A bound on the moves to come. */
  function Cost(l: Line): nat {
    Total(l.forth) + Total(l.back) + (if l.asked then 0 else 770) + (if l.replied then 0 else 770)
  }

  predicate Opposite(x: Transfer, y: Transfer) {
    Ordinary(x) && Ordinary(y) && y.src == x.dst && y.dst == x.src
  }

  /** Where the two transfers are; `atB` and `atA` are what the nodes had been delivered before. */
  ghost predicate Both(x: Transfer, y: Transfer, l: Line, px: Phase, py: Phase, atB: seq<Data>, atA: seq<Data>) {
    && Opposite(x, y)
    && Way(x, l.a, l.b, l.forth, l.back, px, atB) && Way(y, l.b, l.a, l.back, l.forth, py, atA)
    && Mutual(x.src, x.dst, l.forth) && Mutual(x.dst, x.src, l.back)
    && (l.asked <==> !px.NotYet?) && (l.replied <==> !py.NotYet?)
  }

  /** The frame may be delivered: it belongs to one of the transfers or is harmless. */
  lemma HeardSafely(x: Transfer, y: Transfer, l: Line, px: Phase, py: Phase, atB: seq<Data>, atA: seq<Data>)
    requires Both(x, y, l, px, py, atB, atA) && l.forth != [] && l.forth[0].header.ps == x.dst
    ensures Heard(l.b, x.src, l.forth[0])
  {
    var fr, rest := l.forth[0], l.forth[1..];
    assert l.forth == [fr] + rest;
    if IsDt(fr) || Ctrl(fr, RTS) {
      OwnFrameIsDefined(x, l.a, l.b, fr, rest, l.back, px, atB);
    } else if Ctrl(fr, CTS) {
      FirstHome(y, l.b, l.a, l.back, fr, rest, py, atA);
      ClearanceIsDefined(y, l.b);
    }
  }

  lemma MutualMore(from: Address, dest: Address, log: seq<Frame>, more: seq<Frame>)
    requires Mutual(from, dest, log) && Mutual(from, dest, more)
    ensures Mutual(from, dest, log + more)
  {
  }

  lemma MutualRest(from: Address, dest: Address, log: seq<Frame>)
    requires Mutual(from, dest, log) && log != []
    ensures Mutual(from, dest, log[1..])
  {
    assert forall i | 0 <= i < |log| - 1 :: log[1..][i] == log[i + 1];
  }

  /** The phases only move when the transfer has begun. */
  lemma PhasesStand(x: Transfer, a: Tp, b: Tp, fr: Frame, rest: seq<Frame>, other: seq<Frame>, ph: Phase,
                    base: seq<Data>)
    ensures Way(x, a, b, [fr] + rest, other, ph, base) ==> (Received(x, fr, ph).NotYet? <==> ph.NotYet?)
    ensures Way(x, a, b, other, [fr] + rest, ph, base) ==> (Answered(x, fr, ph).NotYet? <==> ph.NotYet?)
  {
    SiftHead(x.src, x.dst, false, fr, rest);
    SiftHead(x.src, x.dst, true, fr, rest);
  }

  lemma DeliveryDrops(x: Transfer, y: Transfer, l: Line, px: Phase, py: Phase, atB: seq<Data>, atA: seq<Data>, now: int)
    requires Both(x, y, l, px, py, atB, atA) && l.forth != [] && l.forth[0].header.ps != x.dst
    ensures SafeToB(l) && Both(x, y, DeliverB(l, now), px, py, atB, atA)
    ensures Cost(DeliverB(l, now)) < Cost(l)
  {
    var fr, rest := l.forth[0], l.forth[1..];
    assert l.forth == [fr] + rest;
    OthersLeave(x, l.a, l.b, fr, rest, l.back, px, atB);
    OthersLeave(y, l.b, l.a, fr, rest, l.back, py, atA);
    MutualRest(x.src, x.dst, l.forth);
  }

  lemma DeliveryKeeps(x: Transfer, y: Transfer, l: Line, px: Phase, py: Phase, atB: seq<Data>, atA: seq<Data>, now: int)
    returns (px': Phase, py': Phase)
    requires Both(x, y, l, px, py, atB, atA) && l.forth != [] && l.forth[0].header.ps == x.dst
    ensures SafeToB(l) && Both(x, y, DeliverB(l, now), px', py', atB, atA)
    ensures Cost(DeliverB(l, now)) < Cost(l)
  {
    var fr, rest := l.forth[0], l.forth[1..];
    assert l.forth == [fr] + rest;
    HeardSafely(x, y, l, px, py, atB, atA);
    var more := Reaction(l.b, x.src, fr, now);
    AddsOnce(l.b, more, Newly(l.b, OnCanFrame(l.b, fr, now)), OnCanFrame(l.b, fr, now));
    px', py' := Received(x, fr, px), Answered(y, fr, py);
    ReceiverHears(x, l.a, l.b, fr, rest, l.back, px, atB, now, more);
    SenderHears(y, l.b, l.a, l.back, fr, rest, py, atA, now, more);
    PhasesStand(x, l.a, l.b, fr, rest, l.back, px, atB);
    PhasesStand(y, l.b, l.a, fr, rest, l.back, py, atA);
    MutualRest(x.src, x.dst, l.forth);
    MutualMore(x.dst, x.src, l.back, more);
    AnswerCosts(x, l.a, l.b, fr, rest, l.back, px, atB, now, more);
    TotalMore(l.back, more);
  }

  lemma AnswerCosts(x: Transfer, a: Tp, b: Tp, fr: Frame, rest: seq<Frame>, back: seq<Frame>, ph: Phase,
                    base: seq<Data>, now: int, more: seq<Frame>)
    requires Way(x, a, b, [fr] + rest, back, ph, base) && Heard(b, x.src, fr)
    requires Reacts(b, x.src, fr, more, OnCanFrame(b, fr, now))
    ensures Total(more) < Price(fr)
  {
    if IsDt(fr) {
      FirstOut(x, a, b, fr, rest, back, ph, base);
      PacketAnswers(x, b, ph.taken, now, more);
      TotalOfOne(more);
    }
  }

  // ---------------------------------------------------------------- beginning to send

  /** Sending the message stores its session and puts its request on the bus. */
  lemma SubmitAsks(x: Transfer, a: Tp, now: int)
    requires Ordinary(x) && Valid(a) && a.local == x.src && a.link == []
    ensures var r := StartTx(a, x.data, x.dst, x.pgn, now).0;
            && Adds(a, [RtsOf(x)], r) && Valid(r) && r.delivered == a.delivered && SendsIt(x, r)
            && forall k | k in a.sessions && k.0 != a.local :: k in r.sessions && r.sessions[k] == a.sessions[k]
  {
    var r, s := StartTx(a, x.data, x.dst, x.pgn, now).0, Outgoing(a, x.data, x.dst, x.pgn, now);
    SubmitToOneLaw(a, x.data, x.dst, x.pgn, now);
    TriedOnOpenBus(a, [StartFrame(s, 0x10)], [], r.sessions, r);
    Pacing(x.data);
    ControlBytes(Template(x, 0).(window := x.w), x.dst, x.src, 0);
    StartTxKept(a, x.data, x.dst, x.pgn, now);
  }

  lemma RequestCarries(x: Transfer)
    requires Ordinary(x)
    ensures Carries(x.src, x.dst, false, RtsOf(x)) && NoBack([RtsOf(x)]) && Mutual(x.src, x.dst, [RtsOf(x)])
    ensures Total([RtsOf(x)]) == 769
  {
    Pacing(x.data);
    AnnouncementCarries(RTS, Template(x, 0).(window := x.w), x.dst);
    ControlsDiffer(RtsOf(x));
    TotalOfOne([RtsOf(x)]);
  }

  lemma BeginKeeps(x: Transfer, y: Transfer, l: Line, px: Phase, py: Phase, atB: seq<Data>, atA: seq<Data>, now: int)
    requires Both(x, y, l, px, py, atB, atA) && !l.asked
    ensures Both(x, y, BeginA(x, l, now), Asked, py, atB, atA) && Cost(BeginA(x, l, now)) < Cost(l)
  {
    var r, more := StartTx(l.a, x.data, x.dst, x.pgn, now).0, [RtsOf(x)];
    SubmitAsks(x, l.a, now);
    AddsOnce(l.a, more, Newly(l.a, r), r);
    RequestCarries(x);
    SiftMore(x.src, x.dst, false, l.forth, more);
    SiftAll(x.src, x.dst, false, more);
    NoneBack(y.src, y.dst, l.forth, more);
    MutualMore(x.src, x.dst, l.forth, more);
    TotalMore(l.forth, more);
    assert InPhase(y, l.b, r, l.back, l.forth + more, py);
  }

  // ---------------------------------------------------------------- every run

  lemma MoveKeeps(x: Transfer, y: Transfer, l: Line, px: Phase, py: Phase, atB: seq<Data>, atA: seq<Data>, mv: Move)
    returns (px': Phase, py': Phase)
    requires Both(x, y, l, px, py, atB, atA) && Possible(l, mv)
    ensures Safe(l, mv) && Both(x, y, Do(x, y, l, mv), px', py', atB, atA) && Cost(Do(x, y, l, mv)) < Cost(l)
  {
    px', py' := px, py;
    match mv
    case ToB(now) =>
      if l.forth[0].header.ps == x.dst { px', py' := DeliveryKeeps(x, y, l, px, py, atB, atA, now); }
      else { DeliveryDrops(x, y, l, px, py, atB, atA, now); }
    case ToA(now) =>
      if l.back[0].header.ps == y.dst { py', px' := DeliveryKeeps(y, x, Turned(l), py, px, atA, atB, now); }
      else { DeliveryDrops(y, x, Turned(l), py, px, atA, atB, now); }
    case SubmitA(now) =>
      px' := Asked;
      BeginKeeps(x, y, l, px, py, atB, atA, now);
    case SubmitB(now) =>
      py' := Asked;
      BeginKeeps(y, x, Turned(l), py, px, atA, atB, now);
  }

  lemma {:induction false} TalkKeeps(x: Transfer, y: Transfer, l: Line, px: Phase, py: Phase,
                                     atB: seq<Data>, atA: seq<Data>, mvs: seq<Move>, m: Line)
    returns (px': Phase, py': Phase)
    requires Both(x, y, l, px, py, atB, atA) && Talks(x, y, l, mvs, m)
    ensures Both(x, y, m, px', py', atB, atA) && Cost(m) + |mvs| <= Cost(l)
    decreases |mvs|
  {
    px', py' := px, py;
    if mvs != [] {
      px', py' := MoveKeeps(x, y, l, px, py, atB, atA, mvs[0]);
      px', py' := TalkKeeps(x, y, Do(x, y, l, mvs[0]), px', py', atB, atA, mvs[1..], m);
    }
  }

  lemma QuietIsDone(x: Transfer, a: Tp, b: Tp, ph: Phase, base: seq<Data>)
    requires Way(x, a, b, [], [], ph, base)
    ensures b.delivered == base + (if ph.NotYet? then [] else [MessageOf(x)])
  {
    Pacing(x.data);
  }

  /**
   * Two nodes send to each other, each once and whenever it likes. In every schedule every delivery
   * is defined, each node is delivered nothing but the other's message and that at most once, the
   * schedule ends after at most 1540 moves, and when nothing is on the way any more each message
   * that was sent has arrived.
   */
  lemma BothDeliver(x: Transfer, y: Transfer, t: Tp, u: Tp, mvs: seq<Move>, m: Line)
    requires Opposite(x, y) && Valid(t) && Valid(u) && t.local == x.src && u.local == x.dst && t.link == u.link == []
    requires Talks(x, y, Line(t, u, [], [], false, false), mvs, m)
    ensures forall mv | Possible(m, mv) :: Safe(m, mv)
    ensures m.b.delivered == u.delivered || m.b.delivered == u.delivered + [MessageOf(x)]
    ensures m.a.delivered == t.delivered || m.a.delivered == t.delivered + [MessageOf(y)]
    ensures |mvs| <= 1540
    ensures m.forth == m.back == [] ==>
              && m.b.delivered == u.delivered + (if m.asked then [MessageOf(x)] else [])
              && m.a.delivered == t.delivered + (if m.replied then [MessageOf(y)] else [])
  {
    var l := Line(t, u, [], [], false, false);
    assert u.delivered + [] == u.delivered && t.delivered + [] == t.delivered;
    var px, py := TalkKeeps(x, y, l, NotYet, NotYet, u.delivered, t.delivered, mvs, m);
    forall mv | Possible(m, mv)
      ensures Safe(m, mv)
    {
      var _, _ := MoveKeeps(x, y, m, px, py, u.delivered, t.delivered, mv);
    }
    if m.forth == m.back == [] {
      QuietIsDone(x, m.a, m.b, px, u.delivered);
      QuietIsDone(y, m.b, m.a, py, t.delivered);
    }
  }
}
