/**
 * Reception amid everything else. Once a start frame has opened a session, only three things can
 * touch what it has received: its own packets, a new start frame for it, and a sweep that comes
 * more than 1250 ms after its last packet. Whatever else happens in between, of this peer or of
 * others, locally or on the bus, the session goes on as if nothing had.
 */
module Reception {
  import opened J1939
  import opened Frames
  import opened Transport
  import opened TransportRuns
  import opened TransportLaws
  import opened Reassembly
  import opened Interleaving
  import opened Sweeping

  // ---------------------------------------------------------------- operations that are none of its packets

  /** A start frame for the session with key `k`. */
  predicate StartsAnew(local: Address, k: Key, op: Op) {
    op.Arrive? && IsStart(local, op.fr) && OpenedKey(op.fr) == k
  }

  /** A sweep that finds the session idle for too long. */
  predicate SweepsAway(k: Key, last: int, op: Op) {
    op.Sweep? && k in op.order && op.now - last > 1250
  }

  /** The session is there and nothing about it has changed but perhaps its mark. */
  ghost predicate Unharmed(t: Tp, k: Key, r: Tp)
    requires k in t.sessions
  {
    r.local == t.local && k in r.sessions && r.sessions[k] == t.sessions[k].(state := r.sessions[k].state)
  }

  lemma {:induction false} TickSpares(t: Tp, k: Key, order: seq<Key>, now: int)
    ensures var r := Tick(t, order, now);
            && r.local == t.local && r.delivered == t.delivered
            && (k in r.sessions <==> k in t.sessions && !(k in order && now - t.sessions[k].last > 1250))
            && (k in r.sessions ==> r.sessions[k] == t.sessions[k])
    decreases |order|
  {
    if order != [] {
      if order[0] in t.sessions { TimeoutInNumbers(t.sessions[order[0]], now); }
      TickSpares(SweepOne(t, order[0], now), k, order[1..], now);
    }
  }

  /** A connection management frame that does not start the session anew at most marks it. */
  lemma ControlSpares(t: Tp, k: Key, fr: Frame, now: int)
    requires k.0 != t.local && k in t.sessions && IsCm(fr) && !StartsAnew(t.local, k, Arrive(fr, now))
    requires fr.payload[0] == CTS ==> CtsDefined(t, fr)
    ensures Unharmed(t, k, HandleCm(t, fr, now)) && HandleCm(t, fr, now).delivered == t.delivered
  {
    HandleCmTouches(t, fr, now);
    if CmKey(t.local, fr) == k && fr.payload[0] == EOM {
      PagesSeparate(fr.header);
      EndOfMessageLaw(t, fr, now);
    }
  }

  lemma OtherPacketSpares(t: Tp, k: Key, fr: Frame, now: int)
    requires k in t.sessions && (fr.header.sa, fr.header.ps) != k && DtDefined(t, fr)
    ensures Unharmed(t, k, HandleDt(t, fr, now)) && t.delivered <= HandleDt(t, fr, now).delivered
  {
    var j := (fr.header.sa, fr.header.ps);
    if j in t.sessions { HandleDtSteps(t, j, fr, now); } else { StrayDt(t, fr, now); }
  }

  /** Frames of every other kind and origin, local sends and sweeps in time leave the session alone. */
  lemma AsideSpares(t: Tp, k: Key, op: Op)
    requires Defined(t, op) && k.0 != t.local && k in t.sessions
    requires !PacketFor(k, op) && !StartsAnew(t.local, k, op) && !SweepsAway(k, t.sessions[k].last, op)
    ensures Unharmed(t, k, Perform(t, op)) && t.delivered <= Perform(t, op).delivered
  {
    match op
    case Arrive(fr, now) =>
      if IsCm(fr) { ControlSpares(t, k, fr, now); }
      else if IsDt(fr) { OtherPacketSpares(t, k, fr, now); }
    case Submit(data, dest, pgn, now) => StartTxTouches(t, data, dest, pgn, now);
    case Sweep(order, now) => TickSpares(t, k, order, now);
  }

  // ---------------------------------------------------------------- activity

  /** When the last packet was taken, or else when the session was opened. */
  function LastActive(k: Key, total: nat, ops: seq<Op>, since: int): int
    decreases |ops|
  {
    if ops == [] then since
    else if Brings(k, total, |Pick(k, total, Front(ops))|, Last(ops)) then Last(ops).now
    else LastActive(k, total, Front(ops), since)
  }

  /** No new start frame for the session, and no sweep more than 1250 ms after its last activity. */
  ghost predicate Untroubled(local: Address, k: Key, total: nat, ops: seq<Op>, since: int)
    decreases |ops|
  {
    || ops == []
    || (&& Untroubled(local, k, total, Front(ops), since) && !StartsAnew(local, k, Last(ops))
        && !SweepsAway(k, LastActive(k, total, Front(ops), since), Last(ops)))
  }

  /** What the packets of the session have delivered, in order. */
  ghost function DeliveredOn(t: Tp, k: Key, ops: seq<Op>): seq<Data>
    requires Valid(t) && AllDefined(t, ops)
    decreases |ops|
  {
    if ops == [] then []
    else
      var before, after := Run(t, Front(ops)).delivered, Run(t, ops).delivered;
      DeliveredOn(t, k, Front(ops)) +
      (if PacketFor(k, Last(ops)) && |before| <= |after| then after[|before|..] else [])
  }

  // ---------------------------------------------------------------- main result

  /** Where the session is after the operations: the picked packets in place, the last of them at `last`. */
  ghost predicate Receiving(s: Session, chunks: seq<seq<Byte>>, last: int, r: Session) {
    SameTerms(s, r) && Holds(r, chunks) && r.last == last
  }

  lemma PacketGoesOn(t: Tp, k: Key, chunks: seq<seq<Byte>>, op: Op)
    requires Valid(t) && Defined(t, op) && k in t.sessions && PacketFor(k, op) && Holds(t.sessions[k], chunks)
    ensures var s, r := t.sessions[k], Perform(t, op);
            && k in r.sessions && SameTerms(s, r.sessions[k]) && t.delivered <= r.delivered
            && if Brings(k, s.total, |chunks|, op) then
                 var more := chunks + [op.fr.payload[1..]];
                 && Holds(r.sessions[k], more) && r.sessions[k].last == op.now
                 && r.delivered[|t.delivered|..] == (if |more| == s.total as int then [Message(s, more)] else [])
               else
                 Holds(r.sessions[k], chunks) && r.sessions[k].last == s.last && r.delivered[|t.delivered|..] == []
  {
    var s, r := t.sessions[k], Perform(t, op);
    HandleDtSteps(t, k, op.fr, op.now);
    OneDt(t, k, chunks, op, r);
    PassesIffNext(s, chunks, op.fr.payload[0]);
    if Passes(s, op.fr.payload[0]) { AcceptTakes(s, op.fr.payload[0], op.fr, op.now); }
  }

  lemma AsideGoesOn(t: Tp, k: Key, s: Session, chunks: seq<seq<Byte>>, last: int, op: Op)
    requires Defined(t, op) && k.0 != t.local && k in t.sessions && Receiving(s, chunks, last, t.sessions[k])
    requires !PacketFor(k, op) && !StartsAnew(t.local, k, op) && !SweepsAway(k, last, op)
    ensures var r := Perform(t, op);
            k in r.sessions && Receiving(s, chunks, last, r.sessions[k]) && t.delivered <= r.delivered
  {
    AsideSpares(t, k, op);
  }

  /**
   * In every defined run of any operations that opens the session no second time and sweeps in
   * time, the session holds exactly its own packets taken in order, was last active when the last
   * of them came, and has delivered the message exactly if they are complete, once.
   */
  lemma {:induction false} ReceptionGoesOn(t: Tp, k: Key, ops: seq<Op>)
    requires Valid(t) && AllDefined(t, ops) && k.0 != t.local && k in t.sessions && Holds(t.sessions[k], [])
    requires Untroubled(t.local, k, t.sessions[k].total, ops, t.sessions[k].last)
    ensures var s, r := t.sessions[k], Run(t, ops);
            var chunks := Pick(k, s.total, ops);
            && k in r.sessions && Receiving(s, chunks, LastActive(k, s.total, ops, s.last), r.sessions[k])
            && DeliveredOn(t, k, ops) == Due(s, chunks) && t.delivered <= r.delivered
            && forall d | d in Due(s, chunks) :: d in r.delivered
    decreases |ops|
  {
    if ops != [] {
      var s, first, op := t.sessions[k], Front(ops), Last(ops);
      var chunks := Pick(k, s.total, first);
      ReceptionGoesOn(t, k, first);
      var u := Run(t, first);
      if PacketFor(k, op) {
        PacketGoesOn(u, k, chunks, op);
      } else {
        AsideGoesOn(u, k, s, chunks, LastActive(k, s.total, first, s.last), op);
      }
    }
  }

  /**
   * The same from the start frame on, read off the operations alone: what the buffer holds, what
   * was delivered, and that a sweep keeps the session if and only if it comes at most 1250 ms
   * after the last packet taken, or after the start frame if none was.
   */
  lemma ReceptionFromStart(t: Tp, fr: Frame, at: int, ops: seq<Op>, order: seq<Key>, now: int)
    requires Valid(t) && IsStart(t.local, fr) && fr.header.sa != t.local && AllDefined(t, [Arrive(fr, at)] + ops)
    requires Untroubled(t.local, OpenedKey(fr), fr.payload[3], ops, at) && OpenedKey(fr) in order
    ensures AllDefined(Perform(t, Arrive(fr, at)), ops)
    ensures var k, s, r := OpenedKey(fr), OpenedSession(fr, at), Run(t, [Arrive(fr, at)] + ops);
            var chunks := Pick(k, fr.payload[3], ops);
            && k in r.sessions && r.sessions[k].buffer == Fill(LengthIn(fr), chunks)
            && DeliveredOn(Perform(t, Arrive(fr, at)), k, ops) == Due(s, chunks)
            && (forall d | d in Due(s, chunks) :: d in r.delivered)
            && (k in Tick(r, order, now).sessions <==> now - LastActive(k, fr.payload[3], ops, at) <= 1250)
  {
    StartOpens(t, fr, at);
    var u, k := Perform(t, Arrive(fr, at)), OpenedKey(fr);
    RestIsDefined(t, Arrive(fr, at), ops);
    RunCons(t, Arrive(fr, at), ops);
    ReceptionGoesOn(u, k, ops);
    TickSpares(Run(u, ops), k, order, now);
  }
}
