/**
 * Deliveries are paid for by start frames. Whatever a peer mixes (start frames, packets, aborts,
 * end-of-message frames) and whatever else happens in between, every message delivered from it has
 * the header and the length of a start frame it sent, and no start frame pays twice.
 */
module Announcements {
  import opened J1939
  import opened Frames
  import opened Transport
  import opened TransportRuns
  import opened Reassembly
  import opened Interleaving
  import opened Segmentation

  /** What a message is announced and delivered as. */
  datatype Notice = Notice(header: Header, length: nat)

  function NoticeOf(s: Session): Notice {
    Notice(DeliveredHeader(s), s.length)
  }

  function Notices(ds: seq<Data>): (r: multiset<Notice>)
    ensures |r| == |ds|
    decreases |ds|
  {
    if ds == [] then multiset{} else Notices(Front(ds)) + multiset{Notice(Last(ds).header, |Last(ds).payload|)}
  }

  /** The start frame of peer `p` that the operation brings, as a notice. */
  function Notified(p: Address, local: Address, op: Op): (r: multiset<Notice>) {
    if op.Arrive? && IsStart(local, op.fr) && op.fr.header.sa == p then multiset{NoticeOf(OpenedSession(op.fr, op.now))}
    else multiset{}
  }

  function Announced(p: Address, local: Address, ops: seq<Op>): multiset<Notice>
    decreases |ops|
  {
    if ops == [] then multiset{} else Announced(p, local, Front(ops)) + Notified(p, local, Last(ops))
  }

  /** A session that may still deliver. */
  predicate Live(s: Session) {
    1 <= s.next <= s.total
  }

  function OpenAt(t: Tp, k: Key): multiset<Notice> {
    if k in t.sessions && Live(t.sessions[k]) then multiset{NoticeOf(t.sessions[k])} else multiset{}
  }

  /** What peer `p` has announced and not yet delivered: its broadcast and its transfer to this node. */
  function Open(p: Address, t: Tp): multiset<Notice> {
    OpenAt(t, (p, NO_ADDR)) + if t.local == NO_ADDR then multiset{} else OpenAt(t, (p, t.local))
  }

  /** The peer has no other sessions. */
  ghost predicate Tidy(p: Address, t: Tp) {
    forall k | k in t.sessions && k.0 == p :: k.1 == NO_ADDR || k.1 == t.local
  }

  /** Deliveries from `p` and what is still open are at most what they were and what was announced. */
  ghost predicate PaidFor(p: Address, t: Tp, paid: multiset<Notice>, r: Tp) {
    && Tidy(p, r) && r.local == t.local
    && Notices(DeliveredFrom(p, r.delivered)) + Open(p, r) <= Notices(DeliveredFrom(p, t.delivered)) + Open(p, t) + paid
  }

  lemma SameForPays(p: Address, t: Tp, r: Tp)
    requires Tidy(p, t) && SameFor(p, t, r)
    ensures PaidFor(p, t, multiset{}, r)
  {
  }

  /** One session may have changed and `got` was delivered from its source. */
  ghost predicate Changes(t: Tp, k: Key, got: seq<Data>, r: Tp) {
    && r.local == t.local && r.delivered == t.delivered + got
    && |got| <= 1 && (forall i | 0 <= i < |got| :: got[i].header.sa == k.0)
    && forall j: Key | j != k ::
         (j in r.sessions <==> j in t.sessions) && (j in t.sessions ==> r.sessions[j] == t.sessions[j])
  }

  lemma DeliveredMore(p: Address, ds: seq<Data>, got: seq<Data>)
    requires |got| <= 1 && forall i | 0 <= i < |got| :: got[i].header.sa == p
    ensures Notices(DeliveredFrom(p, ds + got)) == Notices(DeliveredFrom(p, ds)) + Notices(got)
  {
    if got == [] {
      assert ds + got == ds;
    } else {
      assert got == [got[0]] && Front(got) == [];
      DeliveredSnoc(p, ds, got[0]);
      NoticesSnoc(DeliveredFrom(p, ds), got[0]);
    }
  }

  lemma NoticesSnoc(ds: seq<Data>, d: Data)
    ensures Notices(ds + [d]) == Notices(ds) + multiset{Notice(d.header, |d.payload|)}
  {
    assert Front(ds + [d]) == ds && Last(ds + [d]) == d;
  }

  lemma ChangePays(p: Address, t: Tp, k: Key, got: seq<Data>, paid: multiset<Notice>, r: Tp)
    requires Tidy(p, t) && k.0 == p && (k.1 == NO_ADDR || k.1 == t.local) && Changes(t, k, got, r)
    requires OpenAt(r, k) + Notices(got) <= OpenAt(t, k) + paid
    ensures PaidFor(p, t, paid, r)
  {
    DeliveredMore(p, t.delivered, got);
    var other := (p, if k.1 == NO_ADDR then t.local else NO_ADDR);
    assert other != k ==> OpenAt(r, other) == OpenAt(t, other);
    OpenSplits(p, t, k);
    OpenSplits(p, r, k);
    Balance(Notices(DeliveredFrom(p, t.delivered)), Notices(got), OpenAt(r, k), OpenAt(t, k), paid,
        if other == k then multiset{} else OpenAt(t, other));
  }

  lemma Balance(n: multiset<Notice>, got: multiset<Notice>, now: multiset<Notice>, was: multiset<Notice>,
                paid: multiset<Notice>, rest: multiset<Notice>)
    requires now + got <= was + paid
    ensures (n + got) + (now + rest) <= n + (was + rest) + paid
  {
    forall x: Notice ensures ((n + got) + (now + rest))[x] <= (n + (was + rest) + paid)[x] {
      assert (now + got)[x] <= (was + paid)[x];
    }
  }

  /** What is open at `k` and what is open at the peer's other key. */
  lemma OpenSplits(p: Address, t: Tp, k: Key)
    requires k.0 == p && (k.1 == NO_ADDR || k.1 == t.local)
    ensures var other := (p, if k.1 == NO_ADDR then t.local else NO_ADDR);
            Open(p, t) == OpenAt(t, k) + (if other == k then multiset{} else OpenAt(t, other))
  {
  }

  lemma StartPays(p: Address, t: Tp, fr: Frame, now: int)
    requires Valid(t) && IsStart(t.local, fr) && fr.header.sa == p && Tidy(p, t)
    ensures PaidFor(p, t, multiset{NoticeOf(OpenedSession(fr, now))}, HandleCm(t, fr, now))
  {
    StartOpens(t, fr, now);
    ChangePays(p, t, OpenedKey(fr), [], multiset{NoticeOf(OpenedSession(fr, now))}, HandleCm(t, fr, now));
  }

  lemma EomPays(p: Address, t: Tp, fr: Frame)
    requires fr.header.sa == p && Tidy(p, t)
    ensures PaidFor(p, t, multiset{}, CompleteRx(t, fr))
  {
    var r, k := CompleteRx(t, fr), (fr.header.sa, fr.header.ps);
    if k in t.sessions {
      assert NoticeOf(r.sessions[k]) == NoticeOf(t.sessions[k]);
      ChangePays(p, t, k, [], multiset{}, r);
    } else {
      SameForPays(p, t, r);
    }
  }

  /** Every other connection management frame is about what this node sends. */
  lemma OtherCmPays(p: Address, t: Tp, fr: Frame, now: int)
    requires fr.payload[0] == CTS ==> CtsDefined(t, fr)
    requires !IsStart(t.local, fr) && fr.payload[0] != EOM && IsCm(fr)
    requires fr.header.sa == p && p != t.local && Tidy(p, t)
    ensures PaidFor(p, t, multiset{}, HandleCm(t, fr, now))
  {
    HandleCmTouches(t, fr, now);
    SameForPays(p, t, HandleCm(t, fr, now));
  }

  lemma CmPays(p: Address, t: Tp, fr: Frame, now: int)
    requires Valid(t) && IsCm(fr) && fr.header.sa == p && p != t.local && Tidy(p, t)
    requires fr.payload[0] == CTS ==> CtsDefined(t, fr)
    ensures PaidFor(p, t, Notified(p, t.local, Arrive(fr, now)), HandleCm(t, fr, now))
  {
    if IsStart(t.local, fr) {
      StartPays(p, t, fr, now);
    } else if fr.payload[0] == EOM {
      EomPays(p, t, fr);
    } else {
      OtherCmPays(p, t, fr, now);
    }
  }

  /** A packet that passes leaves the session live unless it is the last, which ends it for good. */
  lemma AcceptPays(s: Session, seqNo: Byte, bytes: seq<Byte>, now: int)
    requires Passes(s, seqNo) && Inside(seqNo, |s.buffer|)
    ensures var s1 := AcceptDt(s, seqNo, bytes, now);
            Live(s) && NoticeOf(s1) == NoticeOf(s) && |s1.buffer| == |s.buffer| && (Live(s1) <==> seqNo != s.total)
  {
  }

  lemma DtPays(p: Address, t: Tp, k: Key, fr: Frame, now: int, r: Tp)
    requires Valid(t) && k in t.sessions && k.0 == p && Tidy(p, t)
    requires Takes(t.sessions[k], fr.payload[0]) && DtStep(t, k, fr, now, r)
    ensures PaidFor(p, t, multiset{}, r)
  {
    var s, got := t.sessions[k], [];
    if Passes(s, fr.payload[0]) {
      var s1 := AcceptDt(s, fr.payload[0], fr.payload[1..], now);
      AcceptPays(s, fr.payload[0], fr.payload[1..], now);
      got := if fr.payload[0] == s.total then [Data(DeliveredHeader(s1), s1.buffer)] else [];
      assert got != [] ==> Front(got) == [];
    }
    ChangePays(p, t, k, got, multiset{}, r);
  }

  lemma {:induction false} TickPays(p: Address, t: Tp, order: seq<Key>, now: int)
    requires Tidy(p, t)
    ensures PaidFor(p, t, multiset{}, Tick(t, order, now))
    decreases |order|
  {
    if order != [] { TickPays(p, SweepOne(t, order[0], now), order[1..], now); }
  }

  lemma StepPays(p: Address, t: Tp, op: Op)
    requires Valid(t) && Defined(t, op) && p != t.local && Tidy(p, t)
    ensures PaidFor(p, t, Notified(p, t.local, op), Perform(t, op))
  {
    if !Concerns(p, op) {
      UnconcernedKeeps(p, t, op);
      SameForPays(p, t, Perform(t, op));
    } else if op.Sweep? {
      TickPays(p, t, op.order, op.now);
    } else if IsCm(op.fr) {
      CmPays(p, t, op.fr, op.now);
    } else if IsDt(op.fr) {
      var k := (p, op.fr.header.ps);
      if k in t.sessions {
        HandleDtSteps(t, k, op.fr, op.now);
        DtPays(p, t, k, op.fr, op.now, HandleDt(t, op.fr, op.now));
      } else {
        StrayDt(t, op.fr, op.now);
      }
    }
  }

  lemma {:induction false} RunPays(p: Address, t: Tp, ops: seq<Op>)
    requires Valid(t) && AllDefined(t, ops) && p != t.local && Tidy(p, t)
    ensures PaidFor(p, t, Announced(p, t.local, ops), Run(t, ops))
    decreases |ops|
  {
    if ops != [] {
      RunPays(p, t, Front(ops));
      StepPays(p, Run(t, Front(ops)), Last(ops));
    }
  }

  // ---------------------------------------------------------------- start frames and definedness

  /** Packets `1` .. `n` of the session with key `k`, filled with zeros. */
  function Zeros(k: Key, n: nat): (r: seq<Op>)
    requires n <= 255
    ensures |r| == n && forall i | 0 <= i < n :: PacketFor(k, r[i]) && r[i].fr.payload == [i + 1] + Chunk([], i)
  {
    seq(n, i requires 0 <= i < n => Arrive(BaseFrame(PGN_DT, k.1, k.0, [i + 1] + Chunk([], i)), 0))
  }

  /** On unfair terms some packet in order is not defined. */
  lemma UnfairBreaks(t: Tp, k: Key)
    requires Valid(t) && k in t.sessions && Holds(t.sessions[k], []) && !Fair(t.sessions[k])
    ensures var n := if t.sessions[k].window == 0 then 1 else t.sessions[k].total;
            !AllDefined(t, Zeros(k, n))
  {
    var s := t.sessions[k];
    var ops := Zeros(k, if s.window == 0 then 1 else s.total);
    var first := Front(ops);
    assert PacketFor(k, Last(ops)) && Last(ops).fr.payload[0] == |ops|;
    if AllDefined(t, first) {
      PacketsAreReassembled(t, k, first);
      PickInOrder(k, s.total, [], first);
      PassesIffNext(Run(t, first).sessions[k], Pick(k, s.total, first), |ops|);
      assert !Takes(Run(t, first).sessions[k], |ops|);
    }
  }

  lemma DefinedOn(t: Tp, op: Op, ops: seq<Op>)
    requires Valid(t) && Defined(t, op) && Kept(t, Perform(t, op))
    ensures AllDefined(t, [op] + ops) ==> AllDefined(Perform(t, op), ops)
  {
    if AllDefined(t, [op] + ops) { RestIsDefined(t, op, ops); }
  }

  /**
   * The terms of a start frame are fair if and only if every sequence of packets that may follow
   * is defined: an announced count that runs past the announced length, or a window of 0, leads
   * some sequence of packets out of the buffer or to a division by zero.
   */
  lemma FairExactly(t: Tp, fr: Frame, now: int)
    requires Valid(t) && IsStart(t.local, fr)
    ensures Fair(OpenedSession(fr, now)) <==>
            forall ops | (forall i | 0 <= i < |ops| :: PacketFor(OpenedKey(fr), ops[i])) ::
              AllDefined(t, [Arrive(fr, now)] + ops)
  {
    StartOpens(t, fr, now);
    var r, k := Perform(t, Arrive(fr, now)), OpenedKey(fr);
    if Fair(OpenedSession(fr, now)) {
      forall ops | forall i | 0 <= i < |ops| :: PacketFor(k, ops[i])
        ensures AllDefined(t, [Arrive(fr, now)] + ops)
      {
        OneMessagePerStart(t, fr, now, ops);
      }
    } else {
      UnfairBreaks(r, k);
      var ops := Zeros(k, if r.sessions[k].window == 0 then 1 else r.sessions[k].total);
      DefinedOn(t, Arrive(fr, now), ops);
    }
  }

  // ---------------------------------------------------------------- main result

  /**
   * Over every defined run from a state without sessions of peer `p`: its deliveries are, by
   * header and length, among the start frames it sent, each start frame counted once.
   */
  lemma DeliveriesAreAnnounced(p: Address, t: Tp, ops: seq<Op>)
    requires Valid(t) && AllDefined(t, ops) && p != t.local && forall k | k in t.sessions :: k.0 != p
    ensures var before, after := DeliveredFrom(p, t.delivered), DeliveredFrom(p, Run(t, ops).delivered);
            && Notices(after) <= Notices(before) + Announced(p, t.local, ops)
            && |after| <= |before| + |Announced(p, t.local, ops)|
  {
    RunPays(p, t, ops);
    var r := Run(t, ops);
    NothingOpen(p, t);
    AtMost(Notices(DeliveredFrom(p, r.delivered)), Open(p, r), Notices(DeliveredFrom(p, t.delivered)),
        Announced(p, t.local, ops));
  }

  lemma NothingOpen(p: Address, t: Tp)
    requires forall k | k in t.sessions :: k.0 != p
    ensures Open(p, t) == multiset{}
  {
  }

  lemma AtMost(a: multiset<Notice>, open: multiset<Notice>, b: multiset<Notice>, c: multiset<Notice>)
    requires a + open <= b + multiset{} + c
    ensures a <= b + c && |a| <= |b| + |c|
  {
    forall x: Notice ensures a[x] <= (b + c)[x] {
      assert (a + open)[x] <= (b + multiset{} + c)[x];
    }
    var d := (b + c) - a;
    assert a + d == b + c;
    assert |a + d| == |a| + |d| && |b + c| == |b| + |c|;
  }
}
