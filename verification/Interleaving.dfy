/**
 * Concurrent transfers cannot mix: what a transport holds and delivers for one peer depends on
 * that peer's frames and on the sweeps alone, whatever other peers send and whatever is sent
 * locally in between.
 */
module Interleaving {
  import opened J1939
  import opened Frames
  import opened Transport
  import opened TransportRuns

  function DeliveredFrom(p: Address, ds: seq<Data>): seq<Data>
    decreases |ds|
  {
    if ds == [] then []
    else DeliveredFrom(p, Front(ds)) + (if Last(ds).header.sa == p then [Last(ds)] else [])
  }

  /** The operations that may concern peer `p`. */
  predicate Concerns(p: Address, op: Op) {
    match op
    case Arrive(fr, _) => fr.header.sa == p
    case Submit(_, _, _, _) => false
    case Sweep(_, _) => true
  }

  function Only(p: Address, ops: seq<Op>): seq<Op>
    decreases |ops|
  {
    if ops == [] then []
    else Only(p, Front(ops)) + (if Concerns(p, Last(ops)) then [Last(ops)] else [])
  }

  /** The two transports hold the same sessions of peer `p`. */
  ghost predicate SameSessions(p: Address, t: Tp, u: Tp) {
    && t.local == u.local
    && forall k: Key | k.0 == p ::
         (k in t.sessions <==> k in u.sessions) && (k in t.sessions ==> t.sessions[k] == u.sessions[k])
  }

  ghost predicate SameFor(p: Address, t: Tp, u: Tp) {
    SameSessions(p, t, u) && DeliveredFrom(p, t.delivered) == DeliveredFrom(p, u.delivered)
  }

  // ---------------------------------------------------------------- operations that do not concern p

  /** Only the session with key `k` may differ, and nothing was delivered. */
  ghost predicate TouchesOnly(t: Tp, k: Key, r: Tp) {
    && r.local == t.local && r.delivered == t.delivered
    && forall j: Key | j != k ::
         (j in r.sessions <==> j in t.sessions) && (j in t.sessions ==> r.sessions[j] == t.sessions[j])
  }

  lemma {:induction false} SendLoopTouches(t: Tp, k: Key, count: nat, now: int)
    requires CanLoop(t, k, count)
    ensures TouchesOnly(t, k, SendLoop(t, k, count, now).0)
    decreases count
  {
    var s := t.sessions[k];
    if s.next <= s.total && count > 0 && Accepted(t) {
      SendLoopTouches(Store(Send(t, DtFrame(s, s.next)), k, Stamp(s, now)), k, count - 1, now);
    }
  }

  lemma SendDataPacketsTouches(t: Tp, k: Key, now: int)
    requires k in t.sessions && CanLoop(t, k, t.sessions[k].window)
    ensures TouchesOnly(t, k, SendDataPackets(t, k, now).0)
  {
    SendLoopTouches(t, k, t.sessions[k].window, now);
  }

  lemma StartTxTouches(t: Tp, data: seq<Byte>, dest: Address, pgn: nat, now: int)
    ensures TouchesOnly(t, (t.local, dest), StartTx(t, data, dest, pgn, now).0)
  {
    if 8 < |data| <= MAX_SIZE && dest == NO_ADDR {
      var s := TxSession(t, data, dest, pgn, now);
      var t1 := Store(t, (s.src, s.dest), s);
      var t2 := Send(t1, Announce(BAM, s, NO_ADDR, s.src));
      PacedStays(s.next, s.total, |s.buffer|, t2.link, s.window);
      SendDataPacketsTouches(t2, (s.src, s.dest), now);
    }
  }

  lemma HandleCtsTouches(t: Tp, fr: Frame, now: int)
    requires CtsDefined(t, fr)
    ensures TouchesOnly(t, (t.local, fr.header.sa), HandleCts(t, fr, now))
  {
    var k := (t.local, fr.header.sa);
    if k in t.sessions {
      SendDataPacketsTouches(Store(t, k, Granted(t.sessions[k], fr)), k, now);
    }
  }

  /** The key a connection management frame may touch. */
  function CmKey(local: Address, fr: Frame): Key {
    if fr.payload[0] == CTS || fr.payload[0] == ABORT then (local, fr.header.sa)
    else if fr.payload[0] == BAM then (fr.header.sa, NO_ADDR)
    else (fr.header.sa, fr.header.ps)
  }

  lemma HandleCmTouches(t: Tp, fr: Frame, now: int)
    requires fr.payload[0] == CTS ==> CtsDefined(t, fr)
    ensures TouchesOnly(t, CmKey(t.local, fr), HandleCm(t, fr, now))
  {
    if fr.payload[0] == CTS { HandleCtsTouches(t, fr, now); }
  }

  /** A packet without a session is answered and forgotten. */
  lemma StrayDt(t: Tp, fr: Frame, now: int)
    requires (fr.header.sa, fr.header.ps) !in t.sessions
    ensures var r := HandleDt(t, fr, now);
            r.local == t.local && r.sessions == t.sessions && r.delivered == t.delivered
  {
  }

  lemma DtStepKeeps(p: Address, t: Tp, k: Key, fr: Frame, now: int, r: Tp)
    requires Valid(t) && k in t.sessions && Takes(t.sessions[k], fr.payload[0])
    requires p != k.0 && DtStep(t, k, fr, now, r)
    ensures SameFor(p, t, r)
  {
    if r.delivered != t.delivered {
      assert Front(r.delivered) == t.delivered;
    }
  }

  lemma HandleDtKeeps(p: Address, t: Tp, fr: Frame, now: int)
    requires Valid(t) && DtDefined(t, fr) && p != fr.header.sa
    ensures SameFor(p, t, HandleDt(t, fr, now))
  {
    var k := (fr.header.sa, fr.header.ps);
    if k in t.sessions {
      HandleDtSteps(t, k, fr, now);
      DtStepKeeps(p, t, k, fr, now, HandleDt(t, fr, now));
    } else {
      StrayDt(t, fr, now);
    }
  }

  lemma UnconcernedKeeps(p: Address, t: Tp, op: Op)
    requires Valid(t) && Defined(t, op) && p != t.local && !Concerns(p, op)
    ensures SameFor(p, t, Perform(t, op))
  {
    match op
    case Arrive(fr, now) =>
      if IsCm(fr) { HandleCmTouches(t, fr, now); }
      else if IsDt(fr) { HandleDtKeeps(p, t, fr, now); }
    case Submit(data, dest, pgn, now) => StartTxTouches(t, data, dest, pgn, now);
  }

  // ---------------------------------------------------------------- operations that concern p

  lemma StoredSame(p: Address, t: Tp, u: Tp, k: Key, s: Session, r: Tp, v: Tp)
    requires SameSessions(p, t, u) && r.local == t.local && v.local == u.local
    requires r.sessions == t.sessions[k := s] && v.sessions == u.sessions[k := s]
    ensures SameSessions(p, r, v)
  {
  }

  lemma DeliveredSnoc(p: Address, ds: seq<Data>, d: Data)
    ensures DeliveredFrom(p, ds + [d]) == DeliveredFrom(p, ds) + (if d.header.sa == p then [d] else [])
  {
    assert Front(ds + [d]) == ds && Last(ds + [d]) == d;
  }

  lemma DtStepSame(p: Address, t: Tp, u: Tp, k: Key, fr: Frame, now: int, r: Tp, v: Tp)
    requires SameFor(p, t, u) && k.0 == p && k in t.sessions && k in u.sessions
    requires Takes(t.sessions[k], fr.payload[0]) && DtStep(t, k, fr, now, r) && DtStep(u, k, fr, now, v)
    ensures SameFor(p, r, v)
  {
    var s, n := t.sessions[k], fr.payload[0];
    assert u.sessions[k] == s;
    StoredSame(p, t, u, k, r.sessions[k], r, v);
    if Passes(s, n) && n == s.total {
      var s1 := AcceptDt(s, n, fr.payload[1..], now);
      DeliveredSnoc(p, t.delivered, Data(DeliveredHeader(s1), s1.buffer));
      DeliveredSnoc(p, u.delivered, Data(DeliveredHeader(s1), s1.buffer));
    } else {
      assert t.delivered + [] == t.delivered && u.delivered + [] == u.delivered;
    }
  }

  lemma HandleDtSame(p: Address, t: Tp, u: Tp, fr: Frame, now: int)
    requires SameFor(p, t, u) && fr.header.sa == p && DtDefined(t, fr) && DtDefined(u, fr)
    ensures SameFor(p, HandleDt(t, fr, now), HandleDt(u, fr, now))
  {
    var k := (p, fr.header.ps);
    if k in t.sessions {
      HandleDtSteps(t, k, fr, now);
      HandleDtSteps(u, k, fr, now);
      DtStepSame(p, t, u, k, fr, now, HandleDt(t, fr, now), HandleDt(u, fr, now));
    } else {
      StrayDt(t, fr, now);
      StrayDt(u, fr, now);
    }
  }

  lemma HandleCmSame(p: Address, t: Tp, u: Tp, fr: Frame, now: int)
    requires SameFor(p, t, u) && p != t.local && fr.header.sa == p
    requires fr.payload[0] == CTS ==> CtsDefined(t, fr) && CtsDefined(u, fr)
    ensures SameFor(p, HandleCm(t, fr, now), HandleCm(u, fr, now))
  {
    HandleCmTouches(t, fr, now);
    HandleCmTouches(u, fr, now);
  }

  lemma SweepOneSame(p: Address, t: Tp, u: Tp, k: Key, now: int)
    requires SameFor(p, t, u)
    ensures SameFor(p, SweepOne(t, k, now), SweepOne(u, k, now))
  {
  }

  lemma {:induction false} TickSame(p: Address, t: Tp, u: Tp, order: seq<Key>, now: int)
    requires SameFor(p, t, u)
    ensures SameFor(p, Tick(t, order, now), Tick(u, order, now))
    decreases |order|
  {
    if order != [] {
      SweepOneSame(p, t, u, order[0], now);
      TickSame(p, SweepOne(t, order[0], now), SweepOne(u, order[0], now), order[1..], now);
    }
  }

  lemma ConcernedSame(p: Address, t: Tp, u: Tp, op: Op)
    requires Defined(t, op) && Defined(u, op)
    requires SameFor(p, t, u) && p != t.local && Concerns(p, op)
    ensures SameFor(p, Perform(t, op), Perform(u, op))
  {
    match op
    case Arrive(fr, now) =>
      if IsCm(fr) { HandleCmSame(p, t, u, fr, now); }
      else if IsDt(fr) { HandleDtSame(p, t, u, fr, now); }
    case Sweep(order, now) => TickSame(p, t, u, order, now);
  }

  // ---------------------------------------------------------------- the peer alone

  /** Nothing is being sent to the peer. */
  predicate NothingFor(p: Address, t: Tp) {
    (t.local, p) !in t.sessions
  }

  lemma {:induction false} TickForgets(t: Tp, order: seq<Key>, now: int)
    ensures Tick(t, order, now).local == t.local && Tick(t, order, now).sessions.Keys <= t.sessions.Keys
    decreases |order|
  {
    if order != [] { TickForgets(SweepOne(t, order[0], now), order[1..], now); }
  }

  lemma HandleCmOpensNothing(p: Address, t: Tp, fr: Frame, now: int)
    requires fr.header.sa == p && p != t.local && NothingFor(p, t)
    ensures HandleCm(t, fr, now).local == t.local && NothingFor(p, HandleCm(t, fr, now))
  {
  }

  /** What is defined for the peer in one run is defined in the other. */
  lemma ConcernedIsDefined(p: Address, t: Tp, u: Tp, op: Op)
    requires SameSessions(p, t, u) && p != t.local && Concerns(p, op) && Defined(t, op) && NothingFor(p, u)
    ensures Defined(u, op) && NothingFor(p, Perform(u, op))
  {
    if op.Sweep? {
      TickForgets(u, op.order, op.now);
    } else if IsCm(op.fr) {
      HandleCmOpensNothing(p, u, op.fr, op.now);
    } else if IsDt(op.fr) {
      var k := (p, op.fr.header.ps);
      if k in u.sessions { HandleDtSteps(u, k, op.fr, op.now); } else { StrayDt(u, op.fr, op.now); }
    }
  }

  // ---------------------------------------------------------------- main result

  lemma {:induction false} DefinedPeersAreIndependent(p: Address, t: Tp, ops: seq<Op>)
    requires Valid(t) && p != t.local && AllDefined(t, ops) && AllDefined(t, Only(p, ops))
    ensures SameFor(p, Run(t, ops), Run(t, Only(p, ops)))
    decreases |ops|
  {
    if ops != [] {
      var alone := Only(p, ops);
      var r := Run(t, Front(ops));
      if Concerns(p, Last(ops)) {
        assert Front(alone) == Only(p, Front(ops)) && Last(alone) == Last(ops);
        DefinedPeersAreIndependent(p, t, Front(ops));
        ConcernedSame(p, r, Run(t, Front(alone)), Last(ops));
      } else {
        assert alone == Only(p, Front(ops));
        DefinedPeersAreIndependent(p, t, Front(ops));
        UnconcernedKeeps(p, r, Last(ops));
      }
    }
  }

  /** With nothing being sent to the peer at the start, its run alone is defined whenever the mixed one is. */
  lemma {:induction false} AloneIsDefined(p: Address, t: Tp, ops: seq<Op>)
    requires Valid(t) && p != t.local && AllDefined(t, ops) && NothingFor(p, t)
    ensures AllDefined(t, Only(p, ops)) && NothingFor(p, Run(t, Only(p, ops)))
    decreases |ops|
  {
    if ops != [] {
      AloneIsDefined(p, t, Front(ops));
      DefinedPeersAreIndependent(p, t, Front(ops));
      var alone := Only(p, ops);
      if Concerns(p, Last(ops)) {
        assert Front(alone) == Only(p, Front(ops)) && Last(alone) == Last(ops);
        ConcernedIsDefined(p, Run(t, Front(ops)), Run(t, Front(alone)), Last(ops));
      } else {
        assert alone == Only(p, Front(ops));
      }
    }
  }

  /**
   * For any interleaving of frames, local sends and sweeps, the receive sessions of peer `p` and
   * the messages delivered from it equal those of the run with the peer's frames and the sweeps
   * alone. That run is defined unless a transfer to the peer was under way at the start.
   */
  lemma PeersAreIndependent(p: Address, t: Tp, ops: seq<Op>)
    requires Valid(t) && p != t.local && AllDefined(t, ops)
    requires NothingFor(p, t) || AllDefined(t, Only(p, ops))
    ensures AllDefined(t, Only(p, ops))
    ensures SameFor(p, Run(t, ops), Run(t, Only(p, ops)))
  {
    if NothingFor(p, t) { AloneIsDefined(p, t, ops); }
    DefinedPeersAreIndependent(p, t, ops);
  }
}
