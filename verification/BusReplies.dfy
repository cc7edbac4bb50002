/**
 * Requests get answers: a station on an address that has dealt with a global request has claimed
 * its address since. A late station that has read these answers knows as much about stronger
 * names as one that was there from the start.
 */
module BusReplies {
  import opened J1939
  import opened NetworkIndex
  import opened AddressMachine
  import opened ClaimerRuns
  import opened Bus
  import opened BusStations

  /** Entry `r` is a global request of another station, or came before this one joined. */
  predicate Owed(log: seq<Entry>, who: nat, s: Station, r: nat)
    requires r < |log|
  {
    r < s.born || (log[r].msg == Request(NO_ADDR) && log[r].from != who)
  }

  /** The request at entry `r` waits in the queue. */
  ghost predicate Waiting(s: Station, r: nat)
    requires |s.tags| == |s.node.posted|
  {
    exists p :: 0 <= p < |s.tags| && s.tags[p] == r && s.node.posted[p] == AddressRequest(NO_ADDR)
  }

  /** The address the station is on, if any, has been claimed after entry `r`. */
  ghost predicate ClaimedSince(log: seq<Entry>, who: nat, s: Station, r: nat) {
    OnAddress(s.node.st) ==> Repeated(log, r, |log|, who, s.node.st.addr)
  }

  /** Every request that was read waits in the queue or has been answered. */
  ghost predicate Replies(log: seq<Entry>, who: nat, s: Station)
    requires Queued(log, s)
  {
    forall r | 0 <= r < s.pos && Owed(log, who, s, r) :: Waiting(s, r) || ClaimedSince(log, who, s, r)
  }

  /** A settled request is not waiting any more. */
  lemma SettledIsAnswered(log: seq<Entry>, who: nat, s: Station, r: nat)
    requires Queued(log, s) && Replies(log, who, s) && r < Settled(s) && r < |log| && Owed(log, who, s, r)
    ensures ClaimedSince(log, who, s, r)
  {
    assert !Waiting(s, r);
  }

  lemma RepeatedExtends(log: seq<Entry>, es: seq<Entry>, from: nat, end: nat, end': nat, who: nat, a: Address)
    requires end <= end' && Repeated(log, from, end, who, a)
    ensures Repeated(log + es, from, end', who, a)
  {
    var k :| from < k < end && k < |log| && ClaimBy(log[k], who, a);
    assert (log + es)[k] == log[k];
  }

  lemma RepliesExtend(log: seq<Entry>, es: seq<Entry>, who: nat, s: Station)
    requires Queued(log, s) && Replies(log, who, s) && Queued(log + es, s)
    ensures Replies(log + es, who, s)
  {
    forall r | 0 <= r < s.pos && Owed(log + es, who, s, r)
      ensures Waiting(s, r) || ClaimedSince(log + es, who, s, r)
    {
      assert Owed(log, who, s, r);
      if !Waiting(s, r) && OnAddress(s.node.st) {
        RepeatedExtends(log, es, r, |log|, |log + es|, who, s.node.st.addr);
      }
    }
  }

  // ---------------------------------------------------------------- reading and posting

  lemma GrownWaiting(s: Station, r: Station, q: nat)
    requires |s.tags| == |s.node.posted| && |r.tags| == |r.node.posted|
    requires s.tags <= r.tags && s.node.posted <= r.node.posted && Waiting(s, q)
    ensures Waiting(r, q)
  {
    var p :| 0 <= p < |s.tags| && s.tags[p] == q && s.node.posted[p] == AddressRequest(NO_ADDR);
    assert r.tags[p] == q && r.node.posted[p] == AddressRequest(NO_ADDR);
  }

  lemma GrownReplies(log: seq<Entry>, who: nat, s: Station, r: Station)
    requires Queued(log, s) && Queued(log, r) && Replies(log, who, s) && Grown(log, s, r)
    requires r.pos == s.pos + 1 && Owed(log, who, s, s.pos) ==> Waiting(r, s.pos)
    ensures Replies(log, who, r)
  {
    forall q | 0 <= q < r.pos && Owed(log, who, r, q)
      ensures Waiting(r, q) || ClaimedSince(log, who, r, q)
    {
      assert Owed(log, who, s, q);
      if q < s.pos && Waiting(s, q) { GrownWaiting(s, r, q); }
    }
  }

  lemma ReadReplies(log: seq<Entry>, who: nat, s: Station)
    requires Queued(log, s) && s.pos < |log| && Replies(log, who, s)
    ensures var r := ReadNext(who, s, log[s.pos]);
            Queued(log, r) && Replies(log, who, r)
  {
    var r := ReadNext(who, s, log[s.pos]);
    ReadGrows(log, who, s);
    GrownQueued(log, s, r);
    if Owed(log, who, s, s.pos) {
      var q := |s.node.posted|;
      assert r.node.posted == s.node.posted + [AddressRequest(NO_ADDR)];
      assert r.tags[q] == s.pos && r.node.posted[q] == AddressRequest(NO_ADDR);
    }
    GrownReplies(log, who, s, r);
  }

  // ---------------------------------------------------------------- running an event

  /** `e` claims the address it comes to be on, unless the node was on it before. */
  predicate ClaimsItsAddress(n: Node, e: Effect) {
    OnAddress(e.node.st) && !(OnAddress(n.st) && n.st.addr == e.node.st.addr) ==>
      e.sent == [Claim(n.me, e.node.st.addr)]
  }

  lemma FiringClaims(n: Node, ev: Event, r: Row)
    requires Enabled(r, n, ev)
    ensures ClaimsItsAddress(n, Fire(r, n, ev))
  {
  }

  /** A station that comes to be on another address has just claimed it. */
  lemma MovingClaims(n: Node, ev: Event)
    ensures ClaimsItsAddress(n, ProcessEvent(n, ev))
  {
    if Select(n, ev).Some? {
      RowsAreExclusive(n, ev, Select(n, ev).value);
      FiringClaims(n, ev, Select(n, ev).value);
    }
  }

  /** A station on an address answers a global request with its claim. */
  lemma RequestIsAnswered(n: Node)
    requires OnAddress(n.st)
    ensures ProcessEvent(n, AddressRequest(NO_ADDR)) == Effect(n, [Claim(n.me, n.st.addr)])
  {
  }

  /** A waiting request survives the fetch unless it is the event fetched. */
  lemma FetchedWaiting(s: Station, i: Input, q: nat)
    requires |s.tags| == |s.node.posted| && Fed(s.node, i).Some? && Waiting(s, q)
    ensures var m := Fetched(s, i);
            |m.tags| == |m.node.posted| && (Waiting(m, q) || Fed(s.node, i).value.1 == AddressRequest(NO_ADDR))
  {
    var m := Fetched(s, i);
    var p :| 0 <= p < |s.tags| && s.tags[p] == q && s.node.posted[p] == AddressRequest(NO_ADDR);
    if i.RunNext? {
      if p > 0 { assert m.tags[p - 1] == q && m.node.posted[p - 1] == AddressRequest(NO_ADDR); }
    } else {
      assert m.tags[p] == q && m.node.posted[p] == AddressRequest(NO_ADDR);
    }
  }

  lemma JustClaimed(log: seq<Entry>, who: nat, s: Station, r: nat)
    requires OnAddress(s.node.st) && r < |log|
    ensures ClaimedSince(log + [Entry(who, Claim(s.node.me, s.node.st.addr))], who, s, r)
  {
    var l := log + [Entry(who, Claim(s.node.me, s.node.st.addr))];
    assert ClaimBy(l[|log|], who, s.node.st.addr);
  }

  lemma FedReplies(log: seq<Entry>, who: nat, s: Station, i: Input, ev: Event, e: Effect)
    requires Queued(log, s) && Replies(log, who, s) && Fed(s.node, i).Some?
    requires ev == Fed(s.node, i).value.1 && e == ProcessEvent(Fed(s.node, i).value.0, ev)
    requires Queued(log, Fetched(s, i).(node := e.node)) && e.node.posted == Fetched(s, i).node.posted
    requires e.node.me == s.node.me
    ensures var l, r := log + Signed(who, e.sent), Fetched(s, i).(node := e.node);
            Queued(l, r) && Replies(l, who, r)
  {
    var n := Fed(s.node, i).value.0;
    var l, r := log + Signed(who, e.sent), Fetched(s, i).(node := e.node);
    assert forall k | 0 <= k < |log| :: l[k] == log[k];
    MovingClaims(n, ev);
    if OnAddress(n.st) { RequestIsAnswered(n); }
    forall q | 0 <= q < r.pos && Owed(l, who, r, q)
      ensures Waiting(r, q) || ClaimedSince(l, who, r, q)
    {
      assert Owed(log, who, s, q);
      if Waiting(s, q) { FetchedWaiting(s, i, q); }
      if !Waiting(r, q) && OnAddress(r.node.st) {
        if e.sent == [Claim(r.node.me, r.node.st.addr)] {
          assert Signed(who, e.sent) == [Entry(who, Claim(r.node.me, r.node.st.addr))];
          JustClaimed(log, who, r, q);
        } else {
          assert !Waiting(s, q);
          RepeatedExtends(log, Signed(who, e.sent), q, |log|, |l|, who, r.node.st.addr);
        }
      }
    }
  }

  lemma FedActReplies(log: seq<Entry>, who: nat, s: Station, i: Input)
    requires Queued(log, s) && Replies(log, who, s) && Fed(s.node, i).Some?
    ensures var l, r := log + Signed(who, Step(s.node, i).sent), Advance(s, i);
            Queued(l, r) && Replies(l, who, r)
  {
    var (n, ev) := Fed(s.node, i).value;
    var e := ProcessEvent(n, ev);
    assert Step(s.node, i) == e;
    EventOutcome(n, ev);
    FetchedQueued(log, s, i);
    assert Advance(s, i) == Fetched(s, i).(node := e.node);
    FedReplies(log, who, s, i, ev, e);
  }

  lemma UnfedActReplies(log: seq<Entry>, who: nat, s: Station, i: Input)
    requires Queued(log, s) && Replies(log, who, s) && Fed(s.node, i).None? && !i.Receive?
    ensures var l, r := log + Signed(who, Step(s.node, i).sent), Advance(s, i);
            Queued(l, r) && Replies(l, who, r)
  {
    var es, r := Signed(who, Step(s.node, i).sent), Advance(s, i);
    UnfedGrows(log, s, i);
    GrownQueued(log, s, r);
    GrownReplies(log, who, s, r);
    assert forall k | 0 <= k < |log| :: (log + es)[k] == log[k];
    RepliesExtend(log, es, who, r);
  }

  lemma ActReplies(log: seq<Entry>, who: nat, s: Station, i: Input)
    requires Queued(log, s) && Replies(log, who, s) && !i.Receive?
    ensures var l, r := log + Signed(who, Step(s.node, i).sent), Advance(s, i);
            Queued(l, r) && Replies(l, who, r)
  {
    if Fed(s.node, i).Some? {
      FedActReplies(log, who, s, i);
    } else {
      UnfedActReplies(log, who, s, i);
    }
  }

  // ---------------------------------------------------------------- waking up

  ghost predicate StationsInv(names: seq<Name>, b: Bus) {
    && DistinctNames(names) && |b.stations| == |names|
    && SignedBy(names, b.log) && AllJustified(b.log)
    && forall i | 0 <= i < |names| ::
         var s := b.stations[i];
         s.node.me == names[i] && StationInv(b.log, i, s) && Replies(b.log, i, s)
  }

  /** Among the claims of an address there is one that no stronger name contests. */
  lemma {:induction false} StrongestClaim(log: seq<Entry>, k: nat) returns (w: nat)
    requires k < |log| && log[k].msg.Claim?
    ensures w < |log| && log[w].msg.Claim? && log[w].msg.addr == log[k].msg.addr
    ensures log[w].msg.name.rank <= log[k].msg.name.rank
    ensures !Outranked(log, 0, |log|, log[w].msg.name, log[k].msg.addr)
    decreases log[k].msg.name.rank
  {
    w := k;
    if Outranked(log, 0, |log|, log[k].msg.name, log[k].msg.addr) {
      var q :| 0 <= q < |log| && Rival(log[q], log[k].msg.name) && log[q].msg.addr == log[k].msg.addr;
      w := StrongestClaim(log, q);
    }
  }

  /** The strongest claimant of a unicast address never leaves it. */
  lemma StrongestStays(names: seq<Name>, b: Bus, w: nat)
    requires StationsInv(names, b) && w < |b.log| && b.log[w].msg.Claim? && Unicast(b.log[w].msg.addr)
    requires !Outranked(b.log, 0, |b.log|, b.log[w].msg.name, b.log[w].msg.addr)
    ensures b.log[w].from < |b.stations| && IsOn(b.stations[b.log[w].from], b.log[w].msg.addr)
  {
  }

  /** Whoever is on an address when the joiner has its answers has been read on it since the request. */
  lemma AnswerWasRead(names: seq<Name>, b: Bus, j: nat, r: nat, i: nat)
    requires StationsInv(names, b) && j < |b.stations| && i < |b.stations| && i != j
    requires Asked(b, j, r) && DealtWith(b, j, r) && AnswersRead(b, j, r) && OnAddress(b.stations[i].node.st)
    ensures Repeated(b.log, r, b.stations[j].pos, i, b.stations[i].node.st.addr)
  {
    SettledIsAnswered(b.log, i, b.stations[i], r);
  }

  /** A claim made before the joiner came is guarded once the answers are read. */
  lemma OldClaimIsGuarded(names: seq<Name>, b: Bus, j: nat, r: nat, k: nat)
    requires StationsInv(names, b) && j < |b.stations| && !b.stations[j].awake
    requires Asked(b, j, r) && DealtWith(b, j, r) && AnswersRead(b, j, r)
    requires k < |b.log| && Rival(b.log[k], b.stations[j].node.me) && Unicast(b.log[k].msg.addr)
    ensures Guarded(b.stations[j].node.net, b.log[k])
  {
    var s, a := b.stations[j], b.log[k].msg.addr;
    var w := StrongestClaim(b.log, k);
    StrongestStays(names, b, w);
    var i := b.log[w].from;
    AnswerWasRead(names, b, j, r, i);
    var q :| r < q < s.pos && q < |b.log| && ClaimBy(b.log[q], i, a);
    assert b.log[q].msg.name == names[i] == b.log[w].msg.name;
    assert Guarded(s.node.net, b.log[q]);
  }

  /** With its answers read, a late station has the knowledge of one that was there from the start. */
  lemma WakingRecords(names: seq<Name>, b: Bus, j: nat)
    requires StationsInv(names, b) && j < |b.stations| && !b.stations[j].awake && Answered(b, j)
    ensures var s := b.stations[j];
            Recorded(b.log, 0, s.pos, s.node.me, s.node.net)
  {
    var s := b.stations[j];
    var r :| Asked(b, j, r) && DealtWith(b, j, r) && AnswersRead(b, j, r);
    forall k | 0 <= k < s.pos && Rival(b.log[k], s.node.me) && Unicast(b.log[k].msg.addr)
      ensures Guarded(s.node.net, b.log[k])
    {
      OldClaimIsGuarded(names, b, j, r, k);
    }
    forall a | a in s.node.net.rev && s.node.net.rev[a] != s.node.me
      ensures SeenClaim(b.log, 0, s.pos, s.node.net.rev[a], a)
    {
      var k :| s.born <= k < s.pos && k < |b.log| && b.log[k].msg == Claim(s.node.net.rev[a], a);
    }
  }

  lemma WakingKeepsStation(names: seq<Name>, b: Bus, j: nat)
    requires StationsInv(names, b) && j < |b.stations| && !b.stations[j].awake && Answered(b, j)
    ensures StationInv(b.log, j, b.stations[j].(awake := true))
  {
    WakingRecords(names, b, j);
  }
}
