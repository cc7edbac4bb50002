/**
 * What every operation of the transport must do, in numbers: the bytes of each frame, what each
 * frame does to sessions, errors and the bus, and what a bus that refuses frames leaves of it.
 */
module TransportLaws {
  import opened J1939
  import opened Frames
  import opened Transport
  import opened TransportRuns
  import opened Reassembly
  import opened Segmentation

  // ---------------------------------------------------------------- the bus

  /** The answers left after `n` attempts. */
  function Left(link: seq<bool>, n: nat): seq<bool> {
    if n <= |link| then link[n..] else []
  }

  /** The frames that a bus with these answers lets through, one attempt each. */
  function Through(link: seq<bool>, frs: seq<Frame>): seq<Frame>
    decreases |frs|
  {
    if frs == [] then []
    else (if link == [] || link[0] then [frs[0]] else []) + Through(Left(link, 1), frs[1..])
  }

  /** The frames were tried in this order and the errors reported; nothing else has changed but the sessions. */
  ghost predicate Tried(t: Tp, frs: seq<Frame>, errors: seq<Error>, sessions: map<Key, Session>, r: Tp) {
    r == t.(sessions := sessions, link := Left(t.link, |frs|), sent := t.sent + Through(t.link, frs),
            errors := t.errors + errors)
  }

  predicate Refused(link: seq<bool>, n: nat) {
    n < |link| && !link[n]
  }

  // ---------------------------------------------------------------- frames in bytes

  function CmFrame(dst: Address, src: Address, b0: Byte, b1: Byte, b2: Byte, b3: Byte, b4: Byte, pgn: nat): Frame {
    Frame(Header(0, 0, 0xEC, dst, src),
          [b0, b1, b2, b3, b4, pgn % 256, pgn / 256 % 256, pgn / 65536 % 256])
  }

  /** The connection management frames of a session. */
  lemma ControlBytes(s: Session, dst: Address, src: Address, code: Byte)
    requires s.length < 0x10000
    ensures var low, high := s.length % 256, s.length / 256;
            && Announce(RTS, s, dst, src) == CmFrame(dst, src, 0x10, low, high, s.total, s.window, s.pgn)
            && Announce(BAM, s, dst, src) == CmFrame(dst, src, 0x20, low, high, s.total, s.window, s.pgn)
            && EomFrame(s) == CmFrame(s.src, s.dest, 0x13, low, high, s.total, 0xFF, s.pgn)
    ensures CtsFrame(s) == CmFrame(s.src, s.dest, 0x11, s.window, s.next, 0, 0, s.pgn)
    ensures AbortFrame(s, code) == CmFrame(s.src, s.dest, 0xFF, code, 0, 0, 0, s.pgn)
  {
  }

  /** Packet `n` carries its number and seven bytes of the message, zeros after its end. */
  lemma PacketBytes(s: Session, n: Byte)
    requires n >= 1
    ensures var fr := DtFrame(s, n);
            && fr.header == Header(0, 0, 0xEB, s.dest, s.src) && fr.payload[0] == n
            && forall j | 1 <= j < 8 ::
                 fr.payload[j] == var i := 7 * (n - 1) + j - 1; if i < |s.buffer| then s.buffer[i] else 0
  {
  }

  // ---------------------------------------------------------------- attempts

  lemma OneTry(t: Tp, fr: Frame)
    ensures Tried(t, [fr], [], t.sessions, Send(t, fr))
    ensures Accepted(t) <==> !Refused(t.link, 0)
  {
    assert Through(t.link, [fr]) == if Refused(t.link, 0) then [] else [fr] by { assert [fr][1..] == []; }
    assert t.errors + [] == t.errors && t.sent + [] == t.sent;
  }

  lemma LeftLeft(link: seq<bool>, m: nat, n: nat)
    ensures Left(Left(link, m), n) == Left(link, m + n)
  {
  }

  lemma {:induction false} ThroughMore(link: seq<bool>, a: seq<Frame>, b: seq<Frame>)
    ensures Through(link, a + b) == Through(link, a) + Through(Left(link, |a|), b)
    decreases |a|
  {
    if a == [] {
      assert a + b == b && Left(link, 0) == link;
    } else {
      assert (a + b)[1..] == a[1..] + b && (a + b)[0] == a[0];
      LeftLeft(link, 1, |a| - 1);
      ThroughMore(Left(link, 1), a[1..], b);
      Associates(if link == [] || link[0] then [a[0]] else [], Through(Left(link, 1), a[1..]),
          Through(Left(link, |a|), b));
    }
  }

  /** Attempts follow one another. */
  lemma ThenTried(t: Tp, a: seq<Frame>, e: seq<Error>, m: map<Key, Session>, u: Tp,
                  b: seq<Frame>, f: seq<Error>, n: map<Key, Session>, r: Tp)
    requires Tried(t, a, e, m, u) && Tried(u, b, f, n, r)
    ensures Tried(t, a + b, e + f, n, r)
  {
    ThroughMore(t.link, a, b);
    LeftLeft(t.link, |a|, |b|);
    Associates(t.sent, Through(t.link, a), Through(u.link, b));
    Associates(t.errors, e, f);
  }

  /** An attempt, a report and another attempt. */
  lemma TwoTries(t: Tp, a: Frame, e: Error, b: Frame)
    ensures Tried(t, [a, b], [e], t.sessions, Send(Report(Send(t, a), e), b))
  {
    var u := Report(Send(t, a), e);
    OneTry(t, a);
    assert Tried(t, [a], [e], t.sessions, u);
    OneTry(u, b);
    ThenTried(t, [a], [e], t.sessions, u, [b], [], t.sessions, Send(u, b));
    assert [a] + [b] == [a, b] && [e] + [] == [e];
  }

  // ---------------------------------------------------------------- received frames

  predicate Control(fr: Frame, ctrl: Byte) {
    fr.header.page == 0 && fr.header.pf == 0xEC && fr.payload[0] == ctrl
  }

  predicate Packet(fr: Frame) {
    fr.header.page == 0 && fr.header.pf == 0xEB
  }

  function LengthIn(fr: Frame): nat {
    fr.payload[1] as int + 256 * fr.payload[2] as int
  }

  function PgnIn(fr: Frame): nat {
    fr.payload[5] as int + 256 * fr.payload[6] as int + 65536 * fr.payload[7] as int
  }

  lemma PagesSeparate(h: Header)
    ensures Pgn(h) == 0xEC00 <==> h.page == 0 && h.pf == 0xEC
    ensures Pgn(h) == 0xEB00 <==> h.page == 0 && h.pf == 0xEB
  {
    assert 0 <= h.pf * 0x100 + (if Broadcast(h) then h.ps else 0) < 0x10000;
  }

  /** Frames of other groups and with other control bytes are ignored. */
  lemma OtherFramesLaw(t: Tp, fr: Frame, now: int)
    requires !Packet(fr) && !Control(fr, 0x10) && !Control(fr, 0x11) && !Control(fr, 0x13) && !Control(fr, 0x20)
    requires !Control(fr, 0xFF)
    ensures FrameDefined(t, fr) && OnCanFrame(t, fr, now) == t
  {
    PagesSeparate(fr.header);
  }

  /** A request to this node opens a session and is answered with a clear-to-send for packet 1. */
  lemma RequestToSendLaw(t: Tp, fr: Frame, now: int)
    requires Control(fr, 0x10)
    ensures FrameDefined(t, fr)
    ensures var r := OnCanFrame(t, fr, now);
            if fr.header.ps != t.local then r == t
            else
              var s := Session(Rx, seq(LengthIn(fr), _ => 0), fr.payload[3], 1, LengthIn(fr), fr.payload[4], t.local,
                  fr.header.sa, PgnIn(fr), false, now, InProgress);
              Tried(t, [CmFrame(fr.header.sa, t.local, 0x11, fr.payload[4], 1, 0, 0, PgnIn(fr))], [],
                  t.sessions[(fr.header.sa, t.local) := s], r)
  {
    PagesSeparate(fr.header);
    if fr.header.ps == t.local {
      var s := RxSession(fr, fr.header.ps, fr.payload[4], false, now);
      OneTry(Store(t, (s.src, s.dest), s), CtsFrame(s));
    }
  }

  /** An announcement opens a session and is not answered. */
  lemma AnnouncementLaw(t: Tp, fr: Frame, now: int)
    requires Control(fr, 0x20)
    ensures FrameDefined(t, fr)
    ensures var s := Session(Rx, seq(LengthIn(fr), _ => 0), fr.payload[3], 1, LengthIn(fr), 0xFF, 0xFF,
                fr.header.sa, PgnIn(fr), true, now, InProgress);
            OnCanFrame(t, fr, now) == t.(sessions := t.sessions[(fr.header.sa, 0xFF) := s])
  {
    PagesSeparate(fr.header);
  }

  /** An end-of-message frame marks the session of its sender and changes nothing else about it. */
  lemma EndOfMessageLaw(t: Tp, fr: Frame, now: int)
    requires Control(fr, 0x13)
    ensures FrameDefined(t, fr)
    ensures var r, k := OnCanFrame(t, fr, now), (fr.header.sa, fr.header.ps);
            if k in t.sessions then r == t.(sessions := t.sessions[k := t.sessions[k].(state := Completed)])
            else
              var abort := CmFrame(fr.header.sa, t.local, 0xFF, 6, 0, 0, 0, PgnIn(fr));
              Tried(t, [abort], [EomWithoutSession], t.sessions, r)
  {
    PagesSeparate(fr.header);
    OneTry(t, AbortFrame(Dummy(t.local, fr.header.sa, PayloadPgn(fr)), 6));
  }

  /** An abort marks the session this node sends to its sender, if there is one, and is reported. */
  lemma AbortLaw(t: Tp, fr: Frame, now: int)
    requires Control(fr, 0xFF)
    ensures FrameDefined(t, fr)
    ensures var r, k := OnCanFrame(t, fr, now), (t.local, fr.header.sa);
            if k in t.sessions then
              r == t.(sessions := t.sessions[k := t.sessions[k].(state := Aborted)],
                      errors := t.errors + [RemoteAbort(fr.payload[1])])
            else r == t
  {
    PagesSeparate(fr.header);
  }

  // ---------------------------------------------------------------- data packets

  /** A packet without a session is answered with an abort to its sender and reported. */
  lemma StrayPacketLaw(t: Tp, fr: Frame, now: int)
    requires Packet(fr) && (fr.header.sa, fr.header.ps) !in t.sessions
    ensures FrameDefined(t, fr)
    ensures Tried(t, [CmFrame(fr.header.sa, t.local, 0xFF, 6, 0, 0, 0, PgnIn(fr))], [DtWithoutSession], t.sessions,
                OnCanFrame(t, fr, now))
  {
    PagesSeparate(fr.header);
    OneTry(t, AbortFrame(Dummy(t.local, fr.header.sa, PayloadPgn(fr)), 6));
  }

  /** The abort code and the error of a packet that is not the one wanted. */
  function Verdict(s: Session, n: Byte): (Byte, Error) {
    if n == 0 || n > s.total then (7, DtBadSequence)
    else if n < s.next then (8, DtDuplicate)
    else (7, DtUnexpected)
  }

  /** Any packet but the one wanted: the session is marked and an abort with the fitting code is tried. */
  lemma UnwantedPacketLaw(t: Tp, k: Key, fr: Frame, now: int)
    requires Packet(fr) && k == (fr.header.sa, fr.header.ps) && k in t.sessions
    requires fr.payload[0] == 0 || fr.payload[0] > t.sessions[k].total || fr.payload[0] != t.sessions[k].next
    ensures FrameDefined(t, fr)
    ensures var s, (code, error) := t.sessions[k], Verdict(t.sessions[k], fr.payload[0]);
            Tried(t, [CmFrame(s.src, s.dest, 0xFF, code, 0, 0, 0, s.pgn)], [error],
                t.sessions[k := s.(state := Aborted)], OnCanFrame(t, fr, now))
  {
    PagesSeparate(fr.header);
    var s := t.sessions[k];
    OneTry(Store(t, k, s.(state := Aborted)), AbortFrame(s, Verdict(s, fr.payload[0]).0));
  }

  /** Seven bytes of the packet are in place, cut at the end of the buffer, and no other byte has changed. */
  ghost predicate Patched(was: seq<Byte>, n: Byte, fr: Frame, buffer: seq<Byte>) {
    && |buffer| == |was|
    && forall i | 0 <= i < |was| ::
         buffer[i] == if 7 * (n - 1) <= i < 7 * n then fr.payload[1 + i - 7 * (n - 1)] else was[i]
  }

  lemma CopyPatches(was: seq<Byte>, n: Byte, fr: Frame)
    requires Inside(n, |was|)
    ensures Patched(was, n, fr, CopyIn(was, (n - 1) * 7, fr.payload[1..]))
  {
  }

  /** The header of a message: its group, its source and, unless it was broadcast, its destination. */
  function HeaderFor(s: Session): Header {
    Header(0, s.pgn / 65536 % 4, s.pgn / 256 % 256, if s.bam then s.pgn % 256 else s.dest, s.src)
  }

  /** The session after packet `n` was taken at `now`. */
  ghost predicate Took(s: Session, n: Byte, fr: Frame, now: int, r: Session) {
    && Patched(s.buffer, n, fr, r.buffer)
    && r == s.(buffer := r.buffer, next := (n + 1) % 256, last := now, state := r.state)
  }

  lemma AcceptTakes(s: Session, n: Byte, fr: Frame, now: int)
    requires Inside(n, |s.buffer|)
    ensures var s1 := AcceptDt(s, n, fr.payload[1..], now);
            Took(s, n, fr, now, s1) && s1.state == s.state
  {
    CopyPatches(s.buffer, n, fr);
  }

  lemma NextPacketComes(t: Tp, k: Key, fr: Frame, now: int)
    requires Packet(fr) && k == (fr.header.sa, fr.header.ps) && k in t.sessions && FrameDefined(t, fr)
    requires 1 <= fr.payload[0] == t.sessions[k].next && fr.payload[0] < t.sessions[k].total
    ensures var s, n := t.sessions[k], fr.payload[0];
            && Inside(n, |s.buffer|) && s.window >= 1
            && var s1 := AcceptDt(s, n, fr.payload[1..], now);
               OnCanFrame(t, fr, now) ==
               if !s.bam && n % s.window == 0 then Send(Store(t, k, s1), CtsFrame(s1)) else Store(t, k, s1)
  {
    PagesSeparate(fr.header);
  }

  lemma StoredAndTried(t: Tp, k: Key, s: Session, fr: Frame)
    ensures Tried(t, [], [], t.sessions[k := s], Store(t, k, s))
    ensures Tried(t, [fr], [], t.sessions[k := s], Send(Store(t, k, s), fr))
  {
    assert t.sent + [] == t.sent && t.errors + [] == t.errors;
    OneTry(Store(t, k, s), fr);
  }

  /**
   * The packet wanted, before the last: it is put in place and, at the end of a window of a
   * transfer to this node, the next window is cleared.
   */
  lemma NextPacketLaw(t: Tp, k: Key, fr: Frame, now: int)
    requires Packet(fr) && k == (fr.header.sa, fr.header.ps) && k in t.sessions && FrameDefined(t, fr)
    requires 1 <= fr.payload[0] == t.sessions[k].next && fr.payload[0] < t.sessions[k].total
    ensures var s, r := t.sessions[k], OnCanFrame(t, fr, now);
            && s.window >= 1 && k in r.sessions
            && Took(s, fr.payload[0], fr, now, r.sessions[k]) && r.sessions[k].state == s.state
            && Tried(t, if !s.bam && fr.payload[0] % s.window == 0
                        then [CmFrame(s.src, s.dest, 0x11, s.window, fr.payload[0] + 1, 0, 0, s.pgn)] else [],
                   [], t.sessions[k := r.sessions[k]], r)
  {
    var s, n := t.sessions[k], fr.payload[0];
    NextPacketComes(t, k, fr, now);
    AcceptTakes(s, n, fr, now);
    var s1 := AcceptDt(s, n, fr.payload[1..], now);
    assert CtsFrame(s1) == CmFrame(s.src, s.dest, 0x11, s.window, n + 1, 0, 0, s.pgn);
    StoredAndTried(t, k, s1, CtsFrame(s1));
  }

  /**
   * The last packet: the message is delivered. A transfer to this node is acknowledged, and a
   * refused acknowledgement reported; a broadcast is marked completed instead.
   */
  lemma LastPacketLaw(t: Tp, k: Key, fr: Frame, now: int)
    requires Packet(fr) && k == (fr.header.sa, fr.header.ps) && k in t.sessions && FrameDefined(t, fr)
    requires 1 <= fr.payload[0] == t.sessions[k].next && fr.payload[0] == t.sessions[k].total
    ensures var s, r := t.sessions[k], OnCanFrame(t, fr, now);
            && k in r.sessions && Took(s, s.total, fr, now, r.sessions[k])
            && r.sessions[k].state == (if s.bam then Completed else s.state)
            && Tried(t.(delivered := t.delivered + [Data(HeaderFor(s), r.sessions[k].buffer)]),
                   if s.bam then [] else [CmFrame(s.src, s.dest, 0x13, s.length % 256, s.length / 256 % 256, s.total,
                       0xFF, s.pgn)],
                   if !s.bam && Refused(t.link, 0) then [SendEomFailed] else [], t.sessions[k := r.sessions[k]], r)
  {
    PagesSeparate(fr.header);
    var s, n := t.sessions[k], fr.payload[0];
    AcceptTakes(s, n, fr, now);
    var s1 := AcceptDt(s, n, fr.payload[1..], now);
    var t1 := t.(delivered := t.delivered + [Data(DeliveredHeader(s1), s1.buffer)]);
    OneTry(Store(t1, k, s1), EomFrame(s1));
    assert t.sent + [] == t.sent && t.errors + [] == t.errors;
  }

  // ---------------------------------------------------------------- windows

  /** How many of up to `m` attempts succeed before the first refusal. */
  function Passed(link: seq<bool>, m: nat): (f: nat)
    ensures f <= m
    ensures forall i | 0 <= i < f :: !Refused(link, i)
    ensures f < m ==> Refused(link, f)
    decreases m
  {
    if m == 0 || Refused(link, 0) then 0
    else
      assert forall i | 1 <= i :: Refused(link, i) <==> Refused(Left(link, 1), i - 1);
      1 + Passed(Left(link, 1), m - 1)
  }

  /** The frames a window of `m` packets tries: all of them, or those up to a refused one and an abort. */
  function WindowTries(s: Session, link: seq<bool>, m: nat): seq<Frame>
    requires m > 0 ==> s.next >= 1 && s.next as int + m <= 256
  {
    var f := Passed(link, m);
    if f == m then DtFrames(s, s.next, m)
    else DtFrames(s, s.next, f + 1) + [CmFrame(s.src, s.dest, 0xFF, 2, 0, 0, 0, s.pgn)]
  }

  /** The session after `f` packets were accepted at `now`. */
  function Advanced(s: Session, f: nat, now: int): Session {
    if f == 0 then s else s.(next := (s.next as int + f) % 256, last := now)
  }

  ghost predicate WindowTried(t: Tp, k: Key, m: nat, now: int, r: Tp, ok: bool)
    requires k in t.sessions && (m > 0 ==> t.sessions[k].next >= 1 && t.sessions[k].next as int + m <= 256)
  {
    var s, f := t.sessions[k], Passed(t.link, m);
    && ok == (f == m)
    && Tried(t, WindowTries(s, t.link, m), if ok then [] else [SendDtFailed], t.sessions[k := Advanced(s, f, now)], r)
  }

  lemma NothingTried(t: Tp, k: Key, now: int)
    requires k in t.sessions
    ensures WindowTried(t, k, 0, now, t, true)
  {
    assert t.sessions[k := t.sessions[k]] == t.sessions;
    assert t.sent + [] == t.sent && t.errors + [] == t.errors;
  }

  /** The first packet is refused: an abort follows. */
  lemma FirstRefused(t: Tp, k: Key, m: nat, now: int)
    requires k in t.sessions && m > 0 && t.sessions[k].next >= 1 && t.sessions[k].next as int + m <= 256
    requires Refused(t.link, 0)
    ensures var s := t.sessions[k];
            WindowTried(t, k, m, now,
                Send(Report(Send(t, DtFrame(s, s.next)), SendDtFailed), AbortFrame(s, ABORT_RESOURCES_BUSY)), false)
  {
    var s := t.sessions[k];
    var dt, abort := DtFrame(s, s.next), CmFrame(s.src, s.dest, 0xFF, 2, 0, 0, 0, s.pgn);
    TwoTries(t, dt, SendDtFailed, abort);
    assert DtFrames(s, s.next, 1) + [abort] == [dt, abort];
    assert t.sessions[k := s] == t.sessions;
  }

  lemma PassedMore(link: seq<bool>, m: nat)
    requires m > 0 && !Refused(link, 0)
    ensures Passed(link, m) == 1 + Passed(Left(link, 1), m - 1)
  {
  }

  lemma TriesSplit(s: Session, s1: Session, link: seq<bool>, m: nat)
    requires m > 0 && s.next >= 1 && s.next as int + m <= 256 && !Refused(link, 0)
    requires s1 == s.(next := (s.next + 1) % 256, last := s1.last)
    requires m > 1 ==> s1.next >= 1
    ensures WindowTries(s, link, m) == [DtFrame(s, s.next)] + WindowTries(s1, Left(link, 1), m - 1)
  {
    PassedMore(link, m);
    var f := Passed(link, m);
    var head, n := [DtFrame(s, s.next)], if f == m then m else f + 1;
    DtFramesSplit(s, s1, s.next, n);
    if n == 1 {
      assert DtFrames(s1, s1.next, 0) == DtFrames(s1, s.next + 1, 0);
    }
    if f < m { Associates(head, DtFrames(s1, s1.next, n - 1), [CmFrame(s.src, s.dest, 0xFF, 2, 0, 0, 0, s.pgn)]); }
  }

  lemma AdvancedMore(s: Session, f: nat, now: int)
    requires s.next >= 1 && s.next as int + 1 + f <= 256
    ensures Advanced(Stamp(s, now), f, now) == Advanced(s, f + 1, now)
  {
    if f > 0 { assert (s.next + 1) % 0x100 == s.next + 1; }
  }

  /** What was tried after an accepted frame was tried after that frame. */
  lemma AcceptedThenTried(t: Tp, k: Key, dt: Frame, s1: Session, u: Tp, tries: seq<Frame>, errors: seq<Error>,
                          done: Session, r: Tp)
    requires u == Store(Send(t, dt), k, s1) && Tried(u, tries, errors, u.sessions[k := done], r)
    ensures u.link == Left(t.link, 1) && Tried(t, [dt] + tries, errors, t.sessions[k := done], r)
  {
    OneTry(t, dt);
    assert u.sessions[k := done] == t.sessions[k := done];
    ThenTried(t, [dt], [], u.sessions, u, tries, errors, t.sessions[k := done], r);
    assert [] + errors == errors;
  }

  /** The first packet is accepted: the rest of the window follows. */
  lemma FirstAccepted(t: Tp, k: Key, m: nat, now: int, u: Tp, r: Tp, ok: bool)
    requires k in t.sessions && m > 0 && t.sessions[k].next >= 1 && t.sessions[k].next as int + m <= 256
    requires !Refused(t.link, 0)
    requires u == Store(Send(t, DtFrame(t.sessions[k], t.sessions[k].next)), k, Stamp(t.sessions[k], now))
    requires WindowTried(u, k, m - 1, now, r, ok)
    ensures WindowTried(t, k, m, now, r, ok)
  {
    var s, s1, f := t.sessions[k], Stamp(t.sessions[k], now), Passed(u.link, m - 1);
    AcceptedThenTried(t, k, DtFrame(s, s.next), s1, u, WindowTries(s1, u.link, m - 1),
        if ok then [] else [SendDtFailed], Advanced(s1, f, now), r);
    PassedMore(t.link, m);
    AdvancedMore(s, f, now);
    TriesSplit(s, s1, t.link, m);
  }

  lemma WindowShrinksBy(s: Session, link: seq<bool>, count: nat, now: int)
    requires Stays(s.next, s.total, |s.buffer|, link, count) && WindowSize(s, count) > 0
    ensures s.next >= 1 && s.next as int + WindowSize(s, count) <= 256
    ensures !Refused(link, 0) ==>
              var s1 := Stamp(s, now);
              && Stays(s1.next, s1.total, |s1.buffer|, Rest(link), count - 1)
              && WindowSize(s1, count - 1) == WindowSize(s, count) - 1
  {
    assert Rest(link) == Left(link, 1);
  }

  /** One turn of the packet loop. */
  lemma LoopTurns(t: Tp, k: Key, count: nat, now: int)
    requires CanLoop(t, k, count) && WindowSize(t.sessions[k], count) > 0
    ensures var s := t.sessions[k];
            && s.next >= 1 && s.next as int + WindowSize(s, count) <= 256
            && if Refused(t.link, 0) then
                 SendLoop(t, k, count, now) ==
                 (Send(Report(Send(t, DtFrame(s, s.next)), SendDtFailed), AbortFrame(s, ABORT_RESOURCES_BUSY)), false)
               else
                 var u := Store(Send(t, DtFrame(s, s.next)), k, Stamp(s, now));
                 && CanLoop(u, k, count - 1) && WindowSize(u.sessions[k], count - 1) == WindowSize(s, count) - 1
                 && SendLoop(t, k, count, now) == SendLoop(u, k, count - 1, now)
  {
    WindowShrinksBy(t.sessions[k], t.link, count, now);
    OneTry(t, DtFrame(t.sessions[k], t.sessions[k].next));
  }

  /** A window on any bus: the next packets, one by one, up to the first that is refused. */
  lemma {:induction false} WindowLaw(t: Tp, k: Key, count: nat, now: int)
    requires CanLoop(t, k, count)
    ensures var m := WindowSize(t.sessions[k], count);
            && (m > 0 ==> t.sessions[k].next >= 1 && t.sessions[k].next as int + m <= 256)
            && WindowTried(t, k, m, now, SendLoop(t, k, count, now).0, SendLoop(t, k, count, now).1)
    decreases count
  {
    var s, m := t.sessions[k], WindowSize(t.sessions[k], count);
    if m == 0 {
      NothingTried(t, k, now);
    } else {
      LoopTurns(t, k, count, now);
      if Refused(t.link, 0) {
        FirstRefused(t, k, m, now);
      } else {
        var u := Store(Send(t, DtFrame(s, s.next)), k, Stamp(s, now));
        WindowLaw(u, k, count - 1, now);
        FirstAccepted(t, k, m, now, u, SendLoop(u, k, count - 1, now).0, SendLoop(u, k, count - 1, now).1);
      }
    }
  }

  // ---------------------------------------------------------------- whole rounds

  /**
   * A window and, once the counter has passed the last packet, the end of the transfer: the session
   * is completed and, unless it was a broadcast, an end-of-message frame is tried.
   */
  ghost predicate RoundTried(t: Tp, k: Key, m: nat, now: int, r: Tp, ok: bool)
    requires k in t.sessions && (m > 0 ==> t.sessions[k].next >= 1 && t.sessions[k].next as int + m <= 256)
  {
    var s, f := t.sessions[k], Passed(t.link, m);
    var s1 := Advanced(s, f, now);
    var eom := [CmFrame(s.src, s.dest, 0x13, s.length % 256, s.length / 256 % 256, s.total, 0xFF, s.pgn)];
    && ok == (f == m && s1.next > s.total)
    && if f < m then
         Tried(t, WindowTries(s, t.link, m), [SendDtFailed], t.sessions[k := s1], r)
       else if !ok then
         Tried(t, WindowTries(s, t.link, m), [], t.sessions[k := s1], r)
       else
         Tried(t, WindowTries(s, t.link, m) + (if s.bam then [] else eom),
             if !s.bam && Refused(t.link, m) then [SendEomFailed] else [], t.sessions[k := s1.(state := Completed)], r)
  }

  lemma EomTried(u: Tp, k: Key, s: Session)
    requires k in u.sessions
    ensures var eom := [CmFrame(s.src, s.dest, 0x13, s.length % 256, s.length / 256 % 256, s.total, 0xFF, s.pgn)];
            Tried(u, if s.bam then [] else eom, if !s.bam && Refused(u.link, 0) then [SendEomFailed] else [],
                u.sessions[k := s.(state := Completed)], Store(SendEomAck(u, s), k, s.(state := Completed)))
  {
    OneTry(u, EomFrame(s));
    assert u.sent + [] == u.sent && u.errors + [] == u.errors;
  }

  lemma RoundLaw(t: Tp, k: Key, now: int)
    requires k in t.sessions && CanLoop(t, k, t.sessions[k].window)
    ensures var m := WindowSize(t.sessions[k], t.sessions[k].window);
            && (m > 0 ==> t.sessions[k].next >= 1 && t.sessions[k].next as int + m <= 256)
            && RoundTried(t, k, m, now, SendDataPackets(t, k, now).0, SendDataPackets(t, k, now).1)
  {
    var s, m := t.sessions[k], WindowSize(t.sessions[k], t.sessions[k].window);
    WindowLaw(t, k, s.window, now);
    var (u, passed) := SendLoop(t, k, s.window, now);
    var s1 := Advanced(s, m, now);
    if passed && s1.next > s.total { RoundEnds(t, k, m, now, u); }
  }

  lemma RoundEnds(t: Tp, k: Key, m: nat, now: int, u: Tp)
    requires k in t.sessions && (m > 0 ==> t.sessions[k].next >= 1 && t.sessions[k].next as int + m <= 256)
    requires WindowTried(t, k, m, now, u, true) && Advanced(t.sessions[k], m, now).next > t.sessions[k].total
    ensures k in u.sessions
    ensures RoundTried(t, k, m, now, Store(SendEomAck(u, u.sessions[k]), k, u.sessions[k].(state := Completed)), true)
  {
    var s, s1 := t.sessions[k], Advanced(t.sessions[k], m, now);
    var tries := WindowTries(s, t.link, m);
    EomTried(u, k, s1);
    var eom := [CmFrame(s.src, s.dest, 0x13, s.length % 256, s.length / 256 % 256, s.total, 0xFF, s.pgn)];
    var errors := if !s.bam && Refused(u.link, 0) then [SendEomFailed] else [];
    ThenTried(t, tries, [], u.sessions, u, if s.bam then [] else eom, errors, u.sessions[k := s1.(state := Completed)],
        Store(SendEomAck(u, s1), k, s1.(state := Completed)));
    assert Refused(Left(t.link, m), 0) <==> Refused(t.link, m);
    assert t.sessions[k := s1][k := s1.(state := Completed)] == t.sessions[k := s1.(state := Completed)];
    assert [] + errors == errors;
  }

  /**
   * A clear-to-send for a transfer under way sends the window it grants, from the packet it names;
   * any other is answered with an abort and reported.
   */
  lemma ClearToSendLaw(t: Tp, fr: Frame, now: int)
    requires Control(fr, 0x11) && FrameDefined(t, fr)
    ensures var r, k := OnCanFrame(t, fr, now), (t.local, fr.header.sa);
            if k in t.sessions then
              var s := t.sessions[k].(window := fr.payload[1], next := fr.payload[2]);
              var m := WindowSize(s, fr.payload[1]);
              && (m > 0 ==> s.next >= 1 && s.next as int + m <= 256)
              && var t1 := t.(sessions := t.sessions[k := s]);
                 RoundTried(t1, k, m, now, r, true) || RoundTried(t1, k, m, now, r, false)
            else
              var abort := CmFrame(t.local, fr.header.sa, 0xFF, 6, 0, 0, 0, PgnIn(fr));
              Tried(t, [abort], [CtsWithoutSession], t.sessions, r)
  {
    PagesSeparate(fr.header);
    var k := (t.local, fr.header.sa);
    if k in t.sessions {
      RoundLaw(Store(t, k, Granted(t.sessions[k], fr)), k, now);
    } else {
      OneTry(t, AbortFrame(Dummy(fr.header.sa, t.local, PayloadPgn(fr)), 6));
    }
  }

  /** The same for the session and the window that the frame grants. */
  lemma GrantedRound(t: Tp, fr: Frame, now: int, k: Key, s: Session, m: nat)
    requires Control(fr, 0x11) && FrameDefined(t, fr) && k == (t.local, fr.header.sa) && k in t.sessions
    requires s == t.sessions[k].(window := fr.payload[1], next := fr.payload[2]) && m == WindowSize(s, s.window)
    ensures m > 0 ==> s.next >= 1 && s.next as int + m <= 256
    ensures var t1, r := t.(sessions := t.sessions[k := s]), OnCanFrame(t, fr, now);
            RoundTried(t1, k, m, now, r, true) || RoundTried(t1, k, m, now, r, false)
  {
    ClearToSendLaw(t, fr, now);
  }

  // ---------------------------------------------------------------- sending

  /** The session of a message that is sent. */
  function Outgoing(t: Tp, data: seq<Byte>, dest: Address, pgn: nat, now: int): Session
    requires |data| <= 1785
  {
    Session(Tx, data, (|data| + 6) / 7, 1, |data|, 255, dest, t.local, pgn, dest == 255, now, InProgress)
  }

  /** Short messages are left alone, long ones refused; neither reaches the bus. */
  lemma SubmitSizeLaw(t: Tp, data: seq<Byte>, dest: Address, pgn: nat, now: int)
    ensures |data| <= 8 ==> StartTx(t, data, dest, pgn, now) == (t, false)
    ensures |data| > 1785 ==>
              StartTx(t, data, dest, pgn, now) == (t.(errors := t.errors + [PayloadTooLarge]), false)
  {
  }

  function StartFrame(s: Session, ctrl: Byte): Frame
    requires s.length < 0x10000
  {
    CmFrame(s.dest, s.src, ctrl, s.length % 256, s.length / 256, s.total, s.window, s.pgn)
  }

  /** A start frame that the bus refuses is reported and followed by an abort; the session stays. */
  lemma RefusedStart(t: Tp, k: Key, s: Session, start: Frame, e: Error)
    requires Refused(t.link, 0) && k in t.sessions && t.sessions[k] == s
    ensures Tried(t, [start, CmFrame(s.src, s.dest, 0xFF, 2, 0, 0, 0, s.pgn)], [e], t.sessions,
                Send(Report(Send(t, start), e), AbortFrame(s, ABORT_RESOURCES_BUSY)))
  {
    TwoTries(t, start, e, AbortFrame(s, ABORT_RESOURCES_BUSY));
  }

  /** A message for one destination: its session is stored and a request tried. */
  lemma SubmitToOneLaw(t: Tp, data: seq<Byte>, dest: Address, pgn: nat, now: int)
    requires 8 < |data| <= 1785 && dest != 255
    ensures var (r, ok), s := StartTx(t, data, dest, pgn, now), Outgoing(t, data, dest, pgn, now);
            && ok == !Refused(t.link, 0)
            && Tried(t, if ok then [StartFrame(s, 0x10)]
                        else [StartFrame(s, 0x10), CmFrame(s.src, s.dest, 0xFF, 2, 0, 0, 0, s.pgn)],
                   if ok then [] else [SendRtsFailed], t.sessions[(t.local, dest) := s], r)
  {
    var s, k := TxSession(t, data, dest, pgn, now), (t.local, dest);
    var t1 := Store(t, k, s);
    OneTry(t1, Announce(RTS, s, s.dest, s.src));
    if Refused(t.link, 0) { RefusedStart(t1, k, s, Announce(RTS, s, s.dest, s.src), SendRtsFailed); }
  }

  /** A broadcast whose announcement is refused. */
  lemma RefusedBroadcastLaw(t: Tp, data: seq<Byte>, pgn: nat, now: int)
    requires 8 < |data| <= 1785 && Refused(t.link, 0)
    ensures var (r, ok), s := StartTx(t, data, 255, pgn, now), Outgoing(t, data, 255, pgn, now);
            && !ok
            && Tried(t, [StartFrame(s, 0x20), CmFrame(s.src, s.dest, 0xFF, 2, 0, 0, 0, s.pgn)], [SendBamFailed],
                   t.sessions[(t.local, 255) := s], r)
  {
    var s, k := TxSession(t, data, 255, pgn, now), (t.local, 255);
    RefusedStart(Store(t, k, s), k, s, Announce(BAM, s, 255, s.src), SendBamFailed);
  }

  /** The transport once the announcement is out. */
  function Announced(t: Tp, data: seq<Byte>, pgn: nat, now: int): Tp
    requires |data| <= 1785
  {
    var s := Outgoing(t, data, 255, pgn, now);
    t.(sessions := t.sessions[(t.local, 255) := s], link := Left(t.link, 1), sent := t.sent + [StartFrame(s, 0x20)])
  }

  lemma BroadcastGoesOn(t: Tp, data: seq<Byte>, pgn: nat, now: int)
    requires 8 < |data| <= 1785 && !Refused(t.link, 0)
    ensures CanLoop(Announced(t, data, pgn, now), (t.local, 255), 255)
    ensures StartTx(t, data, 255, pgn, now) == SendDataPackets(Announced(t, data, pgn, now), (t.local, 255), now)
  {
    var s, k := TxSession(t, data, 255, pgn, now), (t.local, 255);
    Pacing(data);
    OneTry(Store(t, k, s), Announce(BAM, s, 255, t.local));
    assert Through(t.link, [StartFrame(s, 0x20)]) == [StartFrame(s, 0x20)] by {
      assert [StartFrame(s, 0x20)][1..] == [];
    }
    var u := Announced(t, data, pgn, now);
    assert Send(Store(t, k, s), Announce(BAM, s, 255, t.local)) == u;
    PacedStays(1, s.total, |data|, u.link, 255);
  }

  lemma WholeWindow(s: Session)
    requires s.next == 1 && s.total >= 1
    ensures WindowSize(s, 255) == s.total
  {
  }

  /** A broadcast: its session is stored, it is announced, and all its packets follow as one round. */
  lemma SubmitToAllLaw(t: Tp, data: seq<Byte>, pgn: nat, now: int)
    requires 8 < |data| <= 1785 && !Refused(t.link, 0)
    ensures var (r, ok) := StartTx(t, data, 255, pgn, now);
            RoundTried(Announced(t, data, pgn, now), (t.local, 255), (|data| + 6) / 7, now, r, ok)
  {
    var u, k := Announced(t, data, pgn, now), (t.local, 255);
    BroadcastGoesOn(t, data, pgn, now);
    WholeWindow(u.sessions[k]);
    RoundLaw(u, k, now);
  }

  // ---------------------------------------------------------------- the sweep

  /** Sessions of either direction time out after 1250 ms without activity. */
  lemma TimeoutInNumbers(s: Session, now: int)
    ensures Expired(s, now) <==> now - s.last > 1250
  {
  }
}
