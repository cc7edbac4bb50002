/** Runs of a transport: frames received, messages sent and sweeps, in any order. */
module TransportRuns {
  import opened J1939
  import opened Frames
  import opened Transport

  datatype Op =
    | Arrive(fr: Frame, now: int)
    | Submit(data: seq<Byte>, dest: Address, pgn: nat, now: int)
    | Sweep(order: seq<Key>, now: int)

  predicate Defined(t: Tp, op: Op) {
    op.Arrive? ==> FrameDefined(t, op.fr)
  }

  function Perform(t: Tp, op: Op): Tp
    requires Defined(t, op)
  {
    match op
    case Arrive(fr, now) => OnCanFrame(t, fr, now)
    case Submit(data, dest, pgn, now) => StartTx(t, data, dest, pgn, now).0
    case Sweep(order, now) => Tick(t, order, now)
  }

  // ---------------------------------------------------------------- validity is kept

  ghost predicate Kept(t: Tp, r: Tp) {
    Valid(r) && r.local == t.local
  }

  lemma {:induction false} SendLoopKept(t: Tp, k: Key, count: nat, now: int)
    requires Valid(t) && CanLoop(t, k, count)
    ensures Kept(t, SendLoop(t, k, count, now).0)
    decreases count
  {
    var s := t.sessions[k];
    if s.next <= s.total && count > 0 && Accepted(t) {
      SendLoopKept(Store(Send(t, DtFrame(s, s.next)), k, Stamp(s, now)), k, count - 1, now);
    }
  }

  lemma SendDataPacketsKept(t: Tp, k: Key, now: int)
    requires Valid(t) && k in t.sessions && CanLoop(t, k, t.sessions[k].window)
    ensures Kept(t, SendDataPackets(t, k, now).0)
  {
    SendLoopKept(t, k, t.sessions[k].window, now);
  }

  lemma StartTxKept(t: Tp, data: seq<Byte>, dest: Address, pgn: nat, now: int)
    requires Valid(t)
    ensures Kept(t, StartTx(t, data, dest, pgn, now).0)
  {
    if 8 < |data| <= MAX_SIZE && dest == NO_ADDR {
      var s := TxSession(t, data, dest, pgn, now);
      var t1 := Store(t, (s.src, s.dest), s);
      var t2 := Send(t1, Announce(BAM, s, NO_ADDR, s.src));
      PacedStays(s.next, s.total, |s.buffer|, t2.link, s.window);
      SendDataPacketsKept(t2, (s.src, s.dest), now);
    }
  }

  lemma HandleCtsKept(t: Tp, fr: Frame, now: int)
    requires Valid(t) && CtsDefined(t, fr)
    ensures Kept(t, HandleCts(t, fr, now))
  {
    var k := (t.local, fr.header.sa);
    if k in t.sessions {
      SendDataPacketsKept(Store(t, k, Granted(t.sessions[k], fr)), k, now);
    }
  }

  lemma HandleDtKept(t: Tp, fr: Frame, now: int)
    requires Valid(t) && DtDefined(t, fr)
    ensures Kept(t, HandleDt(t, fr, now))
  {
  }

  lemma HandleCmKept(t: Tp, fr: Frame, now: int)
    requires Valid(t) && (fr.payload[0] == CTS ==> CtsDefined(t, fr))
    ensures Kept(t, HandleCm(t, fr, now))
  {
    if fr.payload[0] == CTS { HandleCtsKept(t, fr, now); }
  }

  lemma {:induction false} TickKept(t: Tp, order: seq<Key>, now: int)
    requires Valid(t)
    ensures Kept(t, Tick(t, order, now))
    decreases |order|
  {
    if order != [] { TickKept(SweepOne(t, order[0], now), order[1..], now); }
  }

  lemma PerformKept(t: Tp, op: Op)
    requires Valid(t) && Defined(t, op)
    ensures Kept(t, Perform(t, op))
  {
    match op
    case Arrive(fr, now) =>
      if IsCm(fr) { HandleCmKept(t, fr, now); }
      else if IsDt(fr) { HandleDtKept(t, fr, now); }
    case Submit(data, dest, pgn, now) => StartTxKept(t, data, dest, pgn, now);
    case Sweep(order, now) => TickKept(t, order, now);
  }

  // ---------------------------------------------------------------- data packets

  /** What a data packet does to sessions and deliveries, its answers on the bus aside. */
  ghost predicate DtStep(t: Tp, k: Key, fr: Frame, now: int, r: Tp)
    requires k in t.sessions && Takes(t.sessions[k], fr.payload[0])
  {
    var s, seqNo := t.sessions[k], fr.payload[0];
    && r.local == t.local
    && if Passes(s, seqNo) then
         var s1 := AcceptDt(s, seqNo, fr.payload[1..], now);
         && r.sessions == t.sessions[k := if s.bam && seqNo == s.total then s1.(state := Completed) else s1]
         && r.delivered == t.delivered + (if seqNo == s.total then [Data(DeliveredHeader(s1), s1.buffer)] else [])
       else
         r.sessions == t.sessions[k := s.(state := Aborted)] && r.delivered == t.delivered
  }

  lemma HandleDtSteps(t: Tp, k: Key, fr: Frame, now: int)
    requires DtDefined(t, fr) && k in t.sessions && fr.header.sa == k.0 && fr.header.ps == k.1
    ensures DtStep(t, k, fr, now, HandleDt(t, fr, now))
  {
  }

  // ---------------------------------------------------------------- runs

  /** Every operation is defined when its turn comes. */
  ghost predicate AllDefined(t: Tp, ops: seq<Op>)
    requires Valid(t)
    decreases |ops|, 0
  {
    ops == [] || (AllDefined(t, Front(ops)) && Defined(Run(t, Front(ops)), Last(ops)))
  }

  ghost function Run(t: Tp, ops: seq<Op>): (r: Tp)
    requires Valid(t) && AllDefined(t, ops)
    ensures Kept(t, r)
    decreases |ops|, 1
  {
    if ops == [] then t
    else
      var r := Run(t, Front(ops));
      PerformKept(r, Last(ops));
      Perform(r, Last(ops))
  }

  lemma RunSnoc(t: Tp, ops: seq<Op>, op: Op)
    requires Valid(t) && AllDefined(t, ops) && Defined(Run(t, ops), op)
    ensures AllDefined(t, ops + [op]) && Run(t, ops + [op]) == Perform(Run(t, ops), op)
  {
    assert Front(ops + [op]) == ops && Last(ops + [op]) == op;
  }

  lemma {:induction false} RunCons(t: Tp, op: Op, ops: seq<Op>)
    requires Valid(t) && Defined(t, op) && Kept(t, Perform(t, op)) && AllDefined(Perform(t, op), ops)
    ensures AllDefined(t, [op] + ops) && Run(t, [op] + ops) == Run(Perform(t, op), ops)
    decreases |ops|
  {
    if ops == [] {
      RunSnoc(t, [], op);
      assert [] + [op] == [op] + ops;
    } else {
      RunCons(t, op, Front(ops));
      RunSnoc(t, [op] + Front(ops), Last(ops));
      assert [op] + Front(ops) + [Last(ops)] == [op] + ops;
    }
  }

  lemma {:induction false} RestIsDefined(t: Tp, op: Op, ops: seq<Op>)
    requires Valid(t) && AllDefined(t, [op] + ops)
    ensures Defined(t, op) && Kept(t, Perform(t, op)) && AllDefined(Perform(t, op), ops)
    decreases |ops|
  {
    if ops == [] {
      assert Front([op] + ops) == [] && Last([op] + ops) == op;
      PerformKept(t, op);
    } else {
      assert Front([op] + ops) == [op] + Front(ops) && Last([op] + ops) == Last(ops);
      RestIsDefined(t, op, Front(ops));
      RunCons(t, op, Front(ops));
    }
  }

  lemma Associates<T>(a: seq<T>, b: seq<T>, c: seq<T>)
    ensures a + (b + c) == (a + b) + c
  {
  }

  function Front<T>(s: seq<T>): seq<T>
    requires s != []
  {
    s[..|s| - 1]
  }

  function Last<T>(s: seq<T>): T
    requires s != []
  {
    s[|s| - 1]
  }
}
