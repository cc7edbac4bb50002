/**
 * Receiver safety: whatever data packets arrive after a start frame, in whatever order and with
 * whatever repetitions, the buffer holds exactly the packets of the longest in-order pick, the
 * message is delivered when the last of them arrives, and never again.
 */
module Reassembly {
  import opened J1939
  import opened Frames
  import opened Transport
  import opened TransportRuns

  // ---------------------------------------------------------------- reference

  /** A data packet of the session with key `k`. */
  predicate PacketFor(k: Key, op: Op) {
    op.Arrive? && IsDt(op.fr) && op.fr.header.sa == k.0 && op.fr.header.ps == k.1
  }

  /** The operation brings the packet that follows the first `taken` of `total`. */
  predicate Brings(k: Key, total: nat, taken: nat, op: Op) {
    PacketFor(k, op) && taken < total && op.fr.payload[0] as int == taken + 1
  }

  /**
   * The payloads a receiver should take: going through the operations once, packet n+1 is taken
   * when n have been taken before it, up to the announced total.
   */
  function Pick(k: Key, total: nat, ops: seq<Op>): (r: seq<seq<Byte>>)
    ensures |r| <= total && forall i | 0 <= i < |r| :: |r[i]| == 7
    decreases |ops|
  {
    if ops == [] then []
    else
      var p := Pick(k, total, Front(ops));
      if Brings(k, total, |p|, Last(ops)) then p + [Last(ops).fr.payload[1..]] else p
  }

  predicate Sevens(chunks: seq<seq<Byte>>) {
    forall i | 0 <= i < |chunks| :: |chunks[i]| == 7
  }

  /** A buffer of the given length filled with the chunks: byte i is byte i % 7 of chunk i / 7. */
  function Fill(length: nat, chunks: seq<seq<Byte>>): (r: seq<Byte>)
    requires Sevens(chunks)
    ensures |r| == length
  {
    seq(length, i requires 0 <= i < length => if i / 7 < |chunks| then chunks[i / 7][i % 7] else 0)
  }

  // ---------------------------------------------------------------- one session

  /** The session has taken exactly these chunks. */
  ghost predicate Holds(s: Session, chunks: seq<seq<Byte>>) {
    && Sevens(chunks)
    && |chunks| <= s.total && s.next == (|chunks| + 1) % 0x100
    && s.buffer == Fill(s.length, chunks)
  }

  lemma CopyInFills(length: nat, chunks: seq<seq<Byte>>, c: seq<Byte>)
    requires Sevens(chunks) && |c| == 7 && 7 * |chunks| <= length
    ensures CopyIn(Fill(length, chunks), 7 * |chunks|, c) == Fill(length, chunks + [c])
  {
    var k := |chunks|;
    var l, r := CopyIn(Fill(length, chunks), 7 * k, c), Fill(length, chunks + [c]);
    forall i | 0 <= i < length
      ensures l[i] == r[i]
    {
      if i < 7 * k {
        assert i / 7 < k;
      } else if i < 7 * k + 7 {
        assert i / 7 == k && i % 7 == i - 7 * k;
      } else {
        assert i / 7 > k;
      }
    }
  }

  /** Nothing but the next packet wanted passes, even once the 8-bit counter has wrapped. */
  lemma PassesIffNext(s: Session, chunks: seq<seq<Byte>>, seqNo: Byte)
    requires Holds(s, chunks)
    ensures Passes(s, seqNo) <==> |chunks| < s.total && seqNo == |chunks| + 1
  {
  }

  lemma AcceptHolds(s: Session, chunks: seq<seq<Byte>>, seqNo: Byte, c: seq<Byte>, now: int)
    requires Holds(s, chunks) && Passes(s, seqNo) && |c| == 7 && Inside(seqNo, |s.buffer|)
    ensures Holds(AcceptDt(s, seqNo, c, now), chunks + [c])
  {
    PassesIffNext(s, chunks, seqNo);
    CopyInFills(s.length, chunks, c);
  }

  // ---------------------------------------------------------------- one data packet

  /** The message a complete session stands for. */
  function Message(s: Session, chunks: seq<seq<Byte>>): Data
    requires Sevens(chunks)
  {
    Data(DeliveredHeader(s), Fill(s.length, chunks))
  }

  /** The fields a data packet never changes. */
  predicate SameTerms(s: Session, r: Session) {
    && r.total == s.total && r.length == s.length && r.window == s.window && r.dest == s.dest && r.src == s.src
    && r.pgn == s.pgn && r.bam == s.bam && r.dir == s.dir
  }

  ghost predicate Untouched(t: Tp, k: Key, r: Tp) {
    && r.local == t.local && r.sessions.Keys == t.sessions.Keys
    && forall j | j in t.sessions && j != k :: r.sessions[j] == t.sessions[j]
  }

  lemma OneDt(t: Tp, k: Key, chunks: seq<seq<Byte>>, a: Op, r: Tp)
    requires Valid(t) && k in t.sessions && Holds(t.sessions[k], chunks)
    requires a.Arrive? && Takes(t.sessions[k], a.fr.payload[0]) && DtStep(t, k, a.fr, a.now, r)
    ensures Valid(r) && Untouched(t, k, r) && SameTerms(t.sessions[k], r.sessions[k])
    ensures var s := t.sessions[k];
            if |chunks| < s.total && a.fr.payload[0] == |chunks| + 1 then
              && Holds(r.sessions[k], chunks + [a.fr.payload[1..]])
              && r.delivered == t.delivered +
                   (if |chunks| + 1 == s.total then [Message(s, chunks + [a.fr.payload[1..]])] else [])
            else
              Holds(r.sessions[k], chunks) && r.delivered == t.delivered
  {
    PassesIffNext(t.sessions[k], chunks, a.fr.payload[0]);
    if Passes(t.sessions[k], a.fr.payload[0]) {
      AcceptHolds(t.sessions[k], chunks, a.fr.payload[0], a.fr.payload[1..], a.now);
    }
  }

  // ---------------------------------------------------------------- any number of data packets

  /** The delivery due once the taken packets complete the session. */
  function Due(s: Session, chunks: seq<seq<Byte>>): seq<Data>
    requires Sevens(chunks)
  {
    if |chunks| == s.total && s.total > 0 then [Message(s, chunks)] else []
  }

  /** `r` is `t` after the session with key `k` has taken these chunks, from the first on. */
  ghost predicate Absorbed(t: Tp, k: Key, chunks: seq<seq<Byte>>, r: Tp)
    requires k in t.sessions
  {
    && Untouched(t, k, r) && SameTerms(t.sessions[k], r.sessions[k])
    && Holds(r.sessions[k], chunks)
    && r.delivered == t.delivered + Due(t.sessions[k], chunks)
  }

  lemma OneMoreAbsorbed(t: Tp, k: Key, chunks: seq<seq<Byte>>, r: Tp, a: Op, r': Tp)
    requires k in t.sessions && Absorbed(t, k, chunks, r)
    requires Valid(r) && a.Arrive? && Takes(r.sessions[k], a.fr.payload[0]) && DtStep(r, k, a.fr, a.now, r')
    ensures var next := |chunks| < t.sessions[k].total && a.fr.payload[0] == |chunks| + 1;
            Absorbed(t, k, if next then chunks + [a.fr.payload[1..]] else chunks, r')
  {
    OneDt(r, k, chunks, a, r');
  }

  /**
   * After a start frame has opened a session, any sequence of its data packets that is defined
   * leaves the buffer filled with exactly the picked packets and has delivered the message exactly
   * when they are all there, once; the terms of the session and all other sessions are as before.
   */
  lemma {:induction false} PacketsAreReassembled(t: Tp, k: Key, ops: seq<Op>)
    requires Valid(t) && k in t.sessions && Holds(t.sessions[k], [])
    requires AllDefined(t, ops) && forall i | 0 <= i < |ops| :: PacketFor(k, ops[i])
    ensures Absorbed(t, k, Pick(k, t.sessions[k].total, ops), Run(t, ops))
    decreases |ops|
  {
    if ops != [] {
      PacketsAreReassembled(t, k, Front(ops));
      var r := Run(t, Front(ops));
      assert PacketFor(k, Last(ops));
      HandleDtSteps(r, k, Last(ops).fr, Last(ops).now);
      OneMoreAbsorbed(t, k, Pick(k, t.sessions[k].total, Front(ops)), r, Last(ops), Perform(r, Last(ops)));
    }
  }

  /** Terms on which every packet is defined: they all start inside the message and the window is not 0. */
  predicate Fair(s: Session) {
    Sound(s.total, s.length) && (s.window >= 1 || s.total <= 1)
  }

  lemma FairTakes(s: Session, chunks: seq<seq<Byte>>, seqNo: Byte)
    requires Holds(s, chunks) && Fair(s)
    ensures Takes(s, seqNo)
  {
    PassesIffNext(s, chunks, seqNo);
  }

  lemma {:induction false} FairPacketsAreDefined(t: Tp, k: Key, ops: seq<Op>)
    requires Valid(t) && k in t.sessions && Holds(t.sessions[k], []) && Fair(t.sessions[k])
    requires forall i | 0 <= i < |ops| :: PacketFor(k, ops[i])
    ensures AllDefined(t, ops)
    decreases |ops|
  {
    if ops != [] {
      FairPacketsAreDefined(t, k, Front(ops));
      PacketsAreReassembled(t, k, Front(ops));
      assert PacketFor(k, Last(ops));
      FairTakes(Run(t, Front(ops)).sessions[k], Pick(k, t.sessions[k].total, Front(ops)), Last(ops).fr.payload[0]);
    }
  }

  // ---------------------------------------------------------------- start frames

  /** A request to this node or an announcement. */
  predicate IsStart(local: Address, fr: Frame) {
    IsCm(fr) && (fr.payload[0] == BAM || (fr.payload[0] == RTS && fr.header.ps == local))
  }

  function OpenedKey(fr: Frame): Key {
    (fr.header.sa, if fr.payload[0] == BAM then NO_ADDR else fr.header.ps)
  }

  /** The session a start frame asks for; it replaces any earlier one with the same key. */
  function OpenedSession(fr: Frame, now: int): Session {
    if fr.payload[0] == BAM then RxSession(fr, NO_ADDR, 0xFF, true, now)
    else RxSession(fr, fr.header.ps, fr.payload[4], false, now)
  }

  lemma StartOpens(t: Tp, fr: Frame, now: int)
    requires Valid(t) && IsStart(t.local, fr)
    ensures Defined(t, Arrive(fr, now))
    ensures var r := Perform(t, Arrive(fr, now));
            && Kept(t, r) && r.sessions == t.sessions[OpenedKey(fr) := OpenedSession(fr, now)]
            && r.delivered == t.delivered && Holds(OpenedSession(fr, now), [])
  {
    PerformKept(t, Arrive(fr, now));
  }

  /**
   * Receiver safety, from the start frame on: in every run of a start frame and then any data
   * packets of its session, at most one message is delivered, only when every packet has been
   * taken in order, and it is the picked packets cut to the announced length. On fair terms all
   * such runs are defined.
   */
  lemma OneMessagePerStart(t: Tp, fr: Frame, now: int, ops: seq<Op>)
    requires Valid(t) && IsStart(t.local, fr)
    requires forall i | 0 <= i < |ops| :: PacketFor(OpenedKey(fr), ops[i])
    requires Fair(OpenedSession(fr, now)) || AllDefined(t, [Arrive(fr, now)] + ops)
    ensures AllDefined(t, [Arrive(fr, now)] + ops)
    ensures var s := OpenedSession(fr, now);
            var r, chunks := Run(t, [Arrive(fr, now)] + ops), Pick(OpenedKey(fr), s.total, ops);
            && OpenedKey(fr) in r.sessions && r.sessions[OpenedKey(fr)].buffer == Fill(s.length, chunks)
            && r.delivered == t.delivered + Due(s, chunks)
  {
    StartOpens(t, fr, now);
    var r := Perform(t, Arrive(fr, now));
    if Fair(OpenedSession(fr, now)) {
      FairPacketsAreDefined(r, OpenedKey(fr), ops);
    } else {
      RestIsDefined(t, Arrive(fr, now), ops);
    }
    PacketsAreReassembled(r, OpenedKey(fr), ops);
    RunCons(t, Arrive(fr, now), ops);
  }
}
