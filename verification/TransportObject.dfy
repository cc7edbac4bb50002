/** The transport object; every method is proved to compute the function of module Transport. */
module TransportObject {
  import opened J1939
  import opened Frames
  import opened Spec = Transport

  class TransportProtocol {
    var local: Address
    var sessions: map<Key, Session>
    var link: seq<bool>
    var sent: seq<Frame>
    var delivered: seq<Data>
    var errors: seq<Error>

    function Value(): Tp
      reads this
    {
      Tp(local, sessions, link, sent, delivered, errors)
    }

    constructor (address: Address, bus: seq<bool>)
      ensures Value() == Tp(address, map[], bus, [], [], [])
    {
      local, sessions, link := address, map[], bus;
      sent, delivered, errors := [], [], [];
    }

    method TrySend(fr: Frame) returns (ok: bool)
      modifies this`link, this`sent
      ensures Value() == Send(old(Value()), fr) && ok == Accepted(old(Value()))
    {
      ok := link == [] || link[0];
      if link != [] { link := link[1..]; }
      if ok { sent := sent + [fr]; }
    }

    method ReportError(e: Error)
      modifies this`errors
      ensures Value() == Report(old(Value()), e)
    {
      errors := errors + [e];
    }

    // ---------------------------------------------------------------- sending

    method Submit(data: seq<Byte>, dest: Address, pgn: nat, now: int) returns (ok: bool)
      modifies this`sessions, this`link, this`sent, this`errors
      ensures (Value(), ok) == StartTx(old(Value()), data, dest, pgn, now)
    {
      if |data| <= 8 { return false; }
      if |data| > MAX_SIZE {
        ReportError(PayloadTooLarge);
        return false;
      }
      var s := Session(Tx, data, Packets(|data|), 1, |data|, 0xFF, dest, local, pgn, dest == NO_ADDR, now, InProgress);
      var k := (s.src, s.dest);
      sessions := sessions[k := s];
      if s.bam {
        ok := TrySend(Announce(BAM, s, NO_ADDR, s.src));
        if ok {
          PacedStays(s.next, s.total, |s.buffer|, link, s.window);
          ok := SendPackets(k, now);
          return;
        }
        ReportError(SendBamFailed);
      } else {
        ok := TrySend(Announce(RTS, s, s.dest, s.src));
        if ok { return; }
        ReportError(SendRtsFailed);
      }
      var _ := TrySend(AbortFrame(s, ABORT_RESOURCES_BUSY));
    }

    /** The next packet; the sequence counter lives in the stored session and wraps at 256. */
    method SendPacket(k: Key, now: int) returns (ok: bool)
      requires k in sessions && sessions[k].next >= 1
      modifies this`sessions, this`link, this`sent, this`errors
      ensures var t, s := old(Value()), old(sessions[k]);
              && ok == Accepted(t)
              && Value() == if ok then Store(Send(t, DtFrame(s, s.next)), k, Stamp(s, now))
                            else Send(Report(Send(t, DtFrame(s, s.next)), SendDtFailed),
                                AbortFrame(s, ABORT_RESOURCES_BUSY))
    {
      var s := sessions[k];
      ok := TrySend(DtFrame(s, s.next));
      if ok {
        sessions := sessions[k := s.(last := now, next := (s.next + 1) % 0x100)];
      } else {
        ReportError(SendDtFailed);
        var _ := TrySend(AbortFrame(s, ABORT_RESOURCES_BUSY));
      }
    }

    /** Up to `window` packets; false when the bus refused one. */
    method SendWindow(k: Key, window: nat, now: int) returns (ok: bool)
      requires CanLoop(Value(), k, window)
      modifies this`sessions, this`link, this`sent, this`errors
      ensures (Value(), ok) == SendLoop(old(Value()), k, window, now)
    {
      var count := window;
      while sessions[k].next <= sessions[k].total && count > 0
        invariant CanLoop(Value(), k, count)
        invariant SendLoop(old(Value()), k, window, now) == SendLoop(Value(), k, count, now)
        decreases count
      {
        ok := SendPacket(k, now);
        if !ok { return; }
        count := count - 1;
      }
      return true;
    }

    method SendPackets(k: Key, now: int) returns (ok: bool)
      requires k in sessions && CanLoop(Value(), k, sessions[k].window)
      modifies this`sessions, this`link, this`sent, this`errors
      ensures (Value(), ok) == SendDataPackets(old(Value()), k, now)
    {
      ok := SendWindow(k, sessions[k].window, now);
      if !ok { return; }
      var s := sessions[k];
      if s.next <= s.total { return false; }
      EomAck(s);
      sessions := sessions[k := s.(state := Completed)];
    }

    method EomAck(s: Session)
      modifies this`link, this`sent, this`errors
      ensures Value() == SendEomAck(old(Value()), s)
    {
      if s.bam { return; }
      var ok := TrySend(EomFrame(s));
      if !ok { ReportError(SendEomFailed); }
    }

    // ---------------------------------------------------------------- receiving

    method OnFrame(fr: Frame, now: int)
      requires FrameDefined(Value(), fr)
      modifies this`sessions, this`link, this`sent, this`delivered, this`errors
      ensures Value() == OnCanFrame(old(Value()), fr, now)
    {
      if IsCm(fr) {
        ReceiveCm(fr, now);
      } else if IsDt(fr) {
        ReceiveDt(fr, now);
      }
    }

    method ReceiveCm(fr: Frame, now: int)
      requires fr.payload[0] == CTS ==> CtsDefined(Value(), fr)
      modifies this`sessions, this`link, this`sent, this`errors
      ensures Value() == HandleCm(old(Value()), fr, now)
    {
      var ctrl := fr.payload[0];
      if ctrl == RTS {
        if fr.header.ps != local { return; }
        var s := RxSession(fr, fr.header.ps, fr.payload[4], false, now);
        sessions := sessions[(s.src, s.dest) := s];
        var _ := TrySend(CtsFrame(s));
      } else if ctrl == CTS {
        ReceiveCts(fr, now);
      } else if ctrl == BAM {
        sessions := sessions[(fr.header.sa, NO_ADDR) := RxSession(fr, NO_ADDR, 0xFF, true, now)];
      } else if ctrl == EOM {
        var k := (fr.header.sa, fr.header.ps);
        if k in sessions {
          sessions := sessions[k := sessions[k].(state := Completed)];
        } else {
          var _ := TrySend(AbortFrame(Dummy(local, fr.header.sa, PayloadPgn(fr)), ABORT_UNEXPECTED_PACKET));
          ReportError(EomWithoutSession);
        }
      } else if ctrl == ABORT {
        var k := (local, fr.header.sa);
        if k in sessions {
          sessions := sessions[k := sessions[k].(state := Aborted)];
          ReportError(RemoteAbort(fr.payload[1]));
        }
      }
    }

    method ReceiveCts(fr: Frame, now: int)
      requires CtsDefined(Value(), fr)
      modifies this`sessions, this`link, this`sent, this`errors
      ensures Value() == HandleCts(old(Value()), fr, now)
    {
      var k := (local, fr.header.sa);
      if k in sessions {
        sessions := sessions[k := sessions[k].(window := fr.payload[1], next := fr.payload[2])];
        var _ := SendPackets(k, now);
      } else {
        var _ := TrySend(AbortFrame(Dummy(fr.header.sa, local, PayloadPgn(fr)), ABORT_UNEXPECTED_PACKET));
        ReportError(CtsWithoutSession);
      }
    }

    method ReceiveDt(fr: Frame, now: int)
      requires DtDefined(Value(), fr)
      modifies this`sessions, this`link, this`sent, this`delivered, this`errors
      ensures Value() == HandleDt(old(Value()), fr, now)
    {
      var k := (fr.header.sa, fr.header.ps);
      var seqNo := fr.payload[0];
      if k !in sessions {
        var _ := TrySend(AbortFrame(Dummy(local, fr.header.sa, PayloadPgn(fr)), ABORT_UNEXPECTED_PACKET));
        ReportError(DtWithoutSession);
        return;
      }
      if seqNo < 1 || seqNo > sessions[k].total {
        Refuse(k, ABORT_BAD_SEQUENCE, DtBadSequence);
        return;
      }
      if seqNo < sessions[k].next {
        Refuse(k, ABORT_DUPLICATE_SEQ, DtDuplicate);
        return;
      }
      if seqNo != sessions[k].next {
        Refuse(k, ABORT_BAD_SEQUENCE, DtUnexpected);
        return;
      }
      var s := AcceptDt(sessions[k], seqNo, fr.payload[1..], now);
      sessions := sessions[k := s];
      if seqNo == s.total {
        delivered := delivered + [Data(DeliveredHeader(s), s.buffer)];
        if s.bam {
          sessions := sessions[k := s.(state := Completed)];
          assert sessions == old(sessions)[k := s.(state := Completed)];
        } else {
          EomAck(s);
        }
      } else if seqNo % s.window == 0 && !s.bam {
        var _ := TrySend(CtsFrame(s));
      }
    }

    method Refuse(k: Key, code: Byte, e: Error)
      requires k in sessions
      modifies this`sessions, this`link, this`sent, this`errors
      ensures Value() == RejectDt(old(Value()), k, code, e)
    {
      var s := sessions[k];
      sessions := sessions[k := s.(state := Aborted)];
      var _ := TrySend(AbortFrame(s, code));
      ReportError(e);
    }

    // ---------------------------------------------------------------- the periodic sweep

    /** Visits every session once, in an order the hash map chooses; `order` records it. */
    method Sweep(now: int) returns (ghost order: seq<Key>)
      modifies this`sessions, this`link, this`sent, this`errors
      ensures Listing(order, old(sessions).Keys)
      ensures Value() == Tick(old(Value()), order, now)
    {
      order := [];
      var left := sessions.Keys;
      ghost var start := Value();
      while left != {}
        invariant left <= sessions.Keys
        invariant Listing(order, start.sessions.Keys - left)
        invariant left <= start.sessions.Keys
        invariant Value() == Tick(start, order, now)
        decreases left
      {
        var k :| k in left;
        ghost var before := Value();
        var s := sessions[k];
        var timeout := if s.dir.Tx? then T3 else T2;
        if now - s.last > timeout {
          var _ := TrySend(AbortFrame(s, ABORT_TIMEOUT));
          ReportError(TimedOut);
          sessions := sessions - {k};
        } else if now - s.last > SESSION_CLEAN_TIMEOUT {
          // The long clean-up is dead code: such a session has timed out above.
          assert false;
        }
        assert Value() == SweepOne(before, k, now);
        TickSnoc(start, order, k, now);
        order := order + [k];
        left := left - {k};
        assert start.sessions.Keys - left == (start.sessions.Keys - (left + {k})) + {k};
      }
      assert start.sessions.Keys - left == start.sessions.Keys;
    }
  }
}
