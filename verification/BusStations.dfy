/** What every station keeps about the log, whatever it reads, posts and runs. */
module BusStations {
  import opened J1939
  import opened NetworkIndex
  import opened AddressMachine
  import opened ClaimerRuns
  import opened Bus

  // ---------------------------------------------------------------- the invariant of one station

  /** Posted claims come from the log, in reading order. */
  ghost predicate Queued(log: seq<Entry>, s: Station) {
    && s.born <= s.pos <= |log| && |s.tags| == |s.node.posted|
    && (forall p, q | 0 <= p < q < |s.tags| :: s.tags[p] <= s.tags[q])
    && (forall p | 0 <= p < |s.tags| :: s.tags[p] <= s.pos)
    && (forall p | 0 <= p < |s.tags| && s.node.posted[p].AddressClaim? ::
          s.tags[p] < s.pos && log[s.tags[p]].msg == Claim(s.node.posted[p].name, s.node.posted[p].addr))
  }

  /** A stronger claim on the station's address, posted by entry `k` or before, is still to be run. */
  ghost predicate Pending(s: Station, k: nat)
    requires OnAddress(s.node.st) && |s.tags| == |s.node.posted|
  {
    exists p :: 0 <= p < |s.tags| && StrongerClaim(s.node.posted[p], s.node, s.node.st.addr) && s.tags[p] <= k
  }

  /** A stronger name claims, at entry `k`, the address the station is on. */
  predicate Contests(log: seq<Entry>, s: Station, k: nat)
    requires k < |log|
  {
    OnAddress(s.node.st) && Rival(log[k], s.node.me) && log[k].msg.addr == s.node.st.addr
  }

  /** A holder that has read a stronger claim on its address has yet to run it. */
  ghost predicate Answerable(log: seq<Entry>, s: Station)
    requires Queued(log, s)
  {
    s.node.st.HasAddress? ==> forall k | 0 <= k < s.pos && Contests(log, s, k) :: Pending(s, k)
  }

  predicate IsOn(s: Station, a: Address) {
    OnAddress(s.node.st) && s.node.st.addr == a
  }

  /** Every unicast address the station claimed is the one it is on, or was lost to a stronger name. */
  ghost predicate Accounted(log: seq<Entry>, who: nat, s: Station) {
    forall k | 0 <= k < |log| && log[k].from == who && log[k].msg.Claim? && Unicast(log[k].msg.addr) ::
      IsOn(s, log[k].msg.addr) || Outranked(log, 0, s.pos, s.node.me, log[k].msg.addr)
  }

  /** Where the knowledge of the network begins: a station that has woken up has caught up. */
  function Since(s: Station): nat {
    if s.awake then 0 else s.born
  }

  ghost predicate StationInv(log: seq<Entry>, who: nat, s: Station) {
    && Inv(s.node)
    && Queued(log, s)
    && Recorded(log, Since(s), s.pos, s.node.me, s.node.net)
    && AllRenewed(log, Since(s), s.pos)
    && Answerable(log, s)
    && Accounted(log, who, s)
    && (!s.awake ==> s.node.st.NoAddress?)
  }

  // ---------------------------------------------------------------- longer logs

  lemma OutrankedExtends(log: seq<Entry>, es: seq<Entry>, from: nat, end: nat, end': nat, me: Name, a: Address)
    requires end <= end' && Outranked(log, from, end, me, a)
    ensures Outranked(log + es, from, end', me, a)
  {
    var k :| from <= k < end && k < |log| && Rival(log[k], me) && log[k].msg.addr == a;
    assert (log + es)[k] == log[k];
  }

  lemma OutrankedRestricts(log: seq<Entry>, es: seq<Entry>, from: nat, end: nat, me: Name, a: Address)
    requires end <= |log| && Outranked(log + es, from, end, me, a)
    ensures Outranked(log, from, end, me, a)
  {
    var k :| from <= k < end && k < |log + es| && Rival((log + es)[k], me) && (log + es)[k].msg.addr == a;
    assert (log + es)[k] == log[k];
  }

  lemma RenewedExtends(log: seq<Entry>, es: seq<Entry>, from: nat, end: nat)
    requires from <= end <= |log| && AllRenewed(log, from, end)
    ensures AllRenewed(log + es, from, end)
  {
    forall m | from <= m < end && (log + es)[m].msg.Claim?
      ensures Renewed(log + es, from, m)
    {
      assert (log + es)[m] == log[m] && Renewed(log, from, m);
      var Claim(x, a) := log[m].msg;
      if Unicast(a) && Outranked(log + es, 0, from, x, a) {
        OutrankedRestricts(log, es, 0, from, x, a);
        OutrankedExtends(log, es, from, m, m, x, a);
      }
    }
  }

  lemma RecordedExtends(log: seq<Entry>, es: seq<Entry>, from: nat, pos: nat, me: Name, t: Net)
    requires pos <= |log| && Recorded(log, from, pos, me, t)
    ensures Recorded(log + es, from, pos, me, t)
  {
    assert forall k | 0 <= k < pos :: (log + es)[k] == log[k];
    forall a | a in t.rev && t.rev[a] != me
      ensures SeenClaim(log + es, from, pos, t.rev[a], a)
    {
      var k :| from <= k < pos && k < |log| && log[k].msg == Claim(t.rev[a], a);
      assert (log + es)[k] == log[k];
    }
  }

  /** Own new claims are of the address the station is on; other frames are free. */
  ghost predicate OwnClaims(es: seq<Entry>, who: nat, s: Station) {
    forall k | 0 <= k < |es| && es[k].from == who && es[k].msg.Claim? && Unicast(es[k].msg.addr) ::
      IsOn(s, es[k].msg.addr)
  }

  lemma AccountedExtends(log: seq<Entry>, es: seq<Entry>, who: nat, s: Station)
    requires Accounted(log, who, s) && OwnClaims(es, who, s)
    ensures Accounted(log + es, who, s)
  {
    var l := log + es;
    forall k | 0 <= k < |l| && l[k].from == who && l[k].msg.Claim? && Unicast(l[k].msg.addr)
      ensures IsOn(s, l[k].msg.addr) || Outranked(l, 0, s.pos, s.node.me, l[k].msg.addr)
    {
      if k < |log| {
        if !IsOn(s, l[k].msg.addr) {
          assert l[k] == log[k];
          OutrankedExtends(log, es, 0, s.pos, s.pos, s.node.me, log[k].msg.addr);
        }
      } else {
        assert l[k] == es[k - |log|];
      }
    }
  }

  lemma StationExtends(log: seq<Entry>, es: seq<Entry>, who: nat, s: Station)
    requires StationInv(log, who, s) && OwnClaims(es, who, s)
    ensures StationInv(log + es, who, s)
  {
    RecordedExtends(log, es, Since(s), s.pos, s.node.me, s.node.net);
    RenewedExtends(log, es, Since(s), s.pos);
    AccountedExtends(log, es, who, s);
    assert forall k | 0 <= k < |log| :: (log + es)[k] == log[k];
  }

  // ---------------------------------------------------------------- a station runs an event

  lemma OutcomeRecords(log: seq<Entry>, from: nat, pos: nat, n: Node, ev: Event, e: Effect)
    requires pos <= |log| && Ready(n, ev) && Outcome(n, ev, e) && Recorded(log, from, pos, n.me, n.net)
    ensures Recorded(log, from, pos, n.me, e.node.net)
  {
    if Gains(n, ev, e.node) {
      InsertInserts(n.net, n.me, n.st.addr);
      GainingRecords(log, from, pos, n.me, n.net, n.st.addr, e.node.net);
    } else if !StaysPut(n, ev, e.node) {
      GivingRecords(log, from, pos, n);
    }
  }

  /** A claim the network grants is not on an address that a stronger name was seen to claim. */
  lemma GrantedIsUnrivalled(log: seq<Entry>, pos: nat, n: Node)
    requires pos <= |log| && Core(n) && Recorded(log, 0, pos, n.me, n.net) && n.st.Claiming? && ValidAddress(n)
    ensures forall k | 0 <= k < pos && Rival(log[k], n.me) :: log[k].msg.addr != n.st.addr
  {
    assert Claimable(n.net, n.st.addr, n.me);
    forall k | 0 <= k < pos && Rival(log[k], n.me) && Unicast(log[k].msg.addr)
      ensures log[k].msg.addr != n.st.addr
    {
      assert Guarded(n.net, log[k]);
    }
  }

  /** An address is left only after a stronger claim on it was read. */
  lemma LeftWhenOutranked(log: seq<Entry>, pos: nat, n: Node, ev: Event, e: Effect)
    requires pos <= |log| && Ready(n, ev) && Outcome(n, ev, e) && Recorded(log, 0, pos, n.me, n.net)
    requires ev.AddressClaim? ==> SeenClaim(log, 0, pos, ev.name, ev.addr)
    requires OnAddress(n.st) && Unicast(n.st.addr) && !(OnAddress(e.node.st) && e.node.st.addr == n.st.addr)
    ensures Outranked(log, 0, pos, n.me, n.st.addr)
  {
    var x := if IsLoss(n, ev) then ev.name else n.net.rev[n.st.addr];
    assert SeenClaim(log, 0, pos, x, n.st.addr);
    var k :| 0 <= k < pos && k < |log| && log[k].msg == Claim(x, n.st.addr);
    assert Rival(log[k], n.me);
  }

  /** The station with the event taken off the queue or off the timer. */
  ghost function Fetched(s: Station, i: Input): Station
    requires Fed(s.node, i).Some?
  {
    s.(node := Fed(s.node, i).value.0, tags := if i.RunNext? && s.tags != [] then s.tags[1..] else s.tags)
  }

  lemma FetchedQueued(log: seq<Entry>, s: Station, i: Input)
    requires Queued(log, s) && Fed(s.node, i).Some?
    ensures var ev := Fed(s.node, i).value.1;
            && Queued(log, Fetched(s, i))
            && (ev.AddressClaim? ==> SeenClaim(log, 0, s.pos, ev.name, ev.addr))
  {
    var m := Fetched(s, i);
    if i.RunNext? {
      assert forall p | 0 <= p < |m.tags| :: m.tags[p] == s.tags[p + 1] && m.node.posted[p] == s.node.posted[p + 1];
      var ev := s.node.posted[0];
      assert ev.AddressClaim? ==> log[s.tags[0]].msg == Claim(ev.name, ev.addr);
    }
  }

  /** A pending challenge survives the fetch unless it is the event fetched. */
  lemma FetchedPending(s: Station, i: Input, k: nat)
    requires |s.tags| == |s.node.posted| && Fed(s.node, i).Some? && OnAddress(s.node.st) && Pending(s, k)
    ensures var m := Fetched(s, i);
            && |m.tags| == |m.node.posted|
            && (Pending(m, k) || StrongerClaim(Fed(s.node, i).value.1, m.node, m.node.st.addr))
  {
    var m := Fetched(s, i);
    var p :| 0 <= p < |s.tags| && StrongerClaim(s.node.posted[p], s.node, s.node.st.addr) && s.tags[p] <= k;
    if i.RunNext? {
      if p > 0 { assert StrongerClaim(m.node.posted[p - 1], m.node, m.node.st.addr) && m.tags[p - 1] <= k; }
    } else {
      assert StrongerClaim(m.node.posted[p], m.node, m.node.st.addr);
    }
  }

  /** The same challenge is pending for a station with the same queue, name and state. */
  lemma PendingMoves(m: Station, r: Station, k: nat)
    requires |m.tags| == |m.node.posted| && OnAddress(m.node.st) && Pending(m, k)
    requires r.tags == m.tags && r.node.posted == m.node.posted && r.node.me == m.node.me && r.node.st == m.node.st
    ensures Pending(r, k)
  {
    var p :| 0 <= p < |m.tags| && StrongerClaim(m.node.posted[p], m.node, m.node.st.addr) && m.tags[p] <= k;
    assert StrongerClaim(r.node.posted[p], r.node, r.node.st.addr);
  }

  lemma StayingAnswers(log: seq<Entry>, s: Station, i: Input, m: Station, ev: Event, r: Station)
    requires Queued(log, s) && Answerable(log, s) && Fed(s.node, i) == Some((m.node, ev)) && m == Fetched(s, i)
    requires r.pos == s.pos && r.tags == m.tags && r.node.posted == m.node.posted && r.node.me == s.node.me
    requires Queued(log, r) && StaysPut(m.node, ev, r.node)
    ensures Answerable(log, r)
  {
    if r.node.st.HasAddress? {
      forall k | 0 <= k < r.pos && Contests(log, r, k)
        ensures Pending(r, k)
      {
        assert Contests(log, s, k);
        FetchedPending(s, i, k);
        PendingMoves(m, r, k);
      }
    }
  }

  lemma GainingAnswers(log: seq<Entry>, n: Node, ev: Event, r: Station)
    requires Queued(log, r) && Core(n) && Recorded(log, 0, r.pos, n.me, n.net)
    requires Gains(n, ev, r.node) && r.node.me == n.me
    ensures Answerable(log, r)
  {
    GrantedIsUnrivalled(log, r.pos, n);
  }

  lemma FedAnswers(log: seq<Entry>, s: Station, i: Input, m: Station, ev: Event, r: Station)
    requires Queued(log, s) && Answerable(log, s) && Recorded(log, Since(s), s.pos, s.node.me, s.node.net)
    requires Fed(s.node, i) == Some((m.node, ev)) && m == Fetched(s, i) && Core(m.node)
    requires r.pos == s.pos && r.tags == m.tags && r.node.posted == m.node.posted && r.node.me == s.node.me
    requires Queued(log, r) && (s.awake || r.node.st.NoAddress?)
    requires StaysPut(m.node, ev, r.node) || Gains(m.node, ev, r.node) || !r.node.st.HasAddress?
    ensures Answerable(log, r)
  {
    if StaysPut(m.node, ev, r.node) {
      StayingAnswers(log, s, i, m, ev, r);
    } else if Gains(m.node, ev, r.node) {
      GainingAnswers(log, m.node, ev, r);
    }
  }

  lemma FedAccounts(log: seq<Entry>, who: nat, s: Station, n: Node, ev: Event, e: Effect, r: Station)
    requires s.pos <= |log| && Accounted(log, who, s) && (OnAddress(n.st) ==> Recorded(log, 0, s.pos, n.me, n.net))
    requires n.st == s.node.st && n.me == s.node.me && Ready(n, ev) && Outcome(n, ev, e)
    requires ev.AddressClaim? ==> SeenClaim(log, 0, s.pos, ev.name, ev.addr)
    requires r.pos == s.pos && r.node == e.node
    ensures Accounted(log, who, r)
  {
    if OnAddress(n.st) && Unicast(n.st.addr) && !(OnAddress(r.node.st) && r.node.st.addr == n.st.addr) {
      LeftWhenOutranked(log, s.pos, n, ev, e);
    }
  }

  lemma OutcomeKeepsStation(log: seq<Entry>, who: nat, s: Station, i: Input, m: Station, ev: Event, e: Effect)
    requires StationInv(log, who, s) && Fed(s.node, i) == Some((m.node, ev)) && m == Fetched(s, i)
    requires Ready(m.node, ev) && Outcome(m.node, ev, e) && (s.awake || e.node.st.NoAddress?)
    ensures StationInv(log, who, m.(node := e.node))
  {
    var r := m.(node := e.node);
    FetchedQueued(log, s, i);
    OutcomeKeepsInv(m.node, ev, e);
    OutcomeRecords(log, Since(s), s.pos, m.node, ev, e);
    FedAnswers(log, s, i, m, ev, r);
    FedAccounts(log, who, s, m.node, ev, e, r);
  }

  /** A station that is not awake stays without an address until its start delay expires. */
  lemma AsleepStays(n: Node, ev: Event)
    requires n.st.NoAddress? && !ev.StartClaim?
    ensures ProcessEvent(n, ev).node.st.NoAddress?
  {
  }

  lemma FedKeepsStation(log: seq<Entry>, who: nat, s: Station, i: Input)
    requires StationInv(log, who, s) && Inv(s.node) && Fed(s.node, i).Some? && (s.awake || !StartsClaiming(s, i))
    ensures StationInv(log, who, Advance(s, i)) && Advance(s, i).node.me == s.node.me
  {
    var (n, ev) := Fed(s.node, i).value;
    FedIsReady(s.node, i);
    StepOutcome(s.node, i);
    if !s.awake { AsleepStays(n, ev); }
    OutcomeKeepsStation(log, who, s, i, Fetched(s, i), ev, Step(s.node, i));
    assert Advance(s, i) == Fetched(s, i).(node := Step(s.node, i).node);
  }

  // ---------------------------------------------------------------- a station reads or posts

  /** `r` is `s` with at most one more entry read and at most one more event posted. */
  ghost predicate Grown(log: seq<Entry>, s: Station, r: Station) {
    && r.node.me == s.node.me && r.node.st == s.node.st && r.born == s.born && r.awake == s.awake
    && (r.pos == s.pos || r.pos == s.pos + 1) && r.pos <= |log|
    && (|| (r.node.posted == s.node.posted && r.tags == s.tags)
        || exists ev :: r.node.posted == s.node.posted + [ev] && r.tags == s.tags + [s.pos]
                        && (ev.AddressClaim? ==> r.pos == s.pos + 1 && log[s.pos].msg == Claim(ev.name, ev.addr)))
  }

  lemma GrownPending(log: seq<Entry>, s: Station, r: Station, k: nat)
    requires Queued(log, s) && Grown(log, s, r) && OnAddress(s.node.st) && Pending(s, k)
    ensures |r.tags| == |r.node.posted| && Pending(r, k)
  {
    var p :| 0 <= p < |s.tags| && StrongerClaim(s.node.posted[p], s.node, s.node.st.addr) && s.tags[p] <= k;
    assert StrongerClaim(r.node.posted[p], r.node, r.node.st.addr) && r.tags[p] <= k;
  }

  lemma GrownQueued(log: seq<Entry>, s: Station, r: Station)
    requires Queued(log, s) && Grown(log, s, r)
    ensures Queued(log, r)
  {
  }

  lemma GrownAccounted(log: seq<Entry>, who: nat, s: Station, r: Station)
    requires Accounted(log, who, s) && Grown(log, s, r)
    ensures Accounted(log, who, r)
  {
    forall k | 0 <= k < |log| && log[k].from == who && log[k].msg.Claim? && Unicast(log[k].msg.addr)
      ensures IsOn(r, log[k].msg.addr) || Outranked(log, 0, r.pos, r.node.me, log[k].msg.addr)
    {
      if !IsOn(r, log[k].msg.addr) {
        OutrankedExtends(log, [], 0, s.pos, r.pos, s.node.me, log[k].msg.addr);
        assert log + [] == log;
      }
    }
  }

  lemma GrownAnswers(log: seq<Entry>, s: Station, r: Station)
    requires Queued(log, s) && Queued(log, r) && Answerable(log, s) && Grown(log, s, r)
    requires r.pos == s.pos + 1 && s.node.st.HasAddress? && Contests(log, s, s.pos) ==> Pending(r, s.pos)
    ensures Answerable(log, r)
  {
    if r.node.st.HasAddress? {
      forall k | 0 <= k < r.pos && Contests(log, r, k)
        ensures Pending(r, k)
      {
        assert Contests(log, s, k);
        if k < s.pos { GrownPending(log, s, r, k); }
      }
    }
  }

  lemma GrownKeepsStation(log: seq<Entry>, who: nat, s: Station, r: Station)
    requires StationInv(log, who, s) && Grown(log, s, r) && Inv(r.node)
    requires Recorded(log, Since(r), r.pos, r.node.me, r.node.net) && AllRenewed(log, Since(r), r.pos)
    requires r.pos == s.pos + 1 && s.node.st.HasAddress? && Contests(log, s, s.pos) ==>
               |r.tags| == |r.node.posted| && Pending(r, s.pos)
    ensures StationInv(log, who, r)
  {
    GrownQueued(log, s, r);
    GrownAccounted(log, who, s, r);
    GrownAnswers(log, s, r);
  }

  /** A stronger claim on the held address is posted when read, or one already is. */
  lemma ReadPending(log: seq<Entry>, s: Station, r: Station)
    requires Inv(s.node) && Queued(log, s) && s.pos < |log| && s.node.st.HasAddress? && Contests(log, s, s.pos)
    requires r.node == ProcessClaim(s.node, log[s.pos].msg.name, log[s.pos].msg.addr) && Grown(log, s, r)
    ensures |r.tags| == |r.node.posted| && Pending(r, s.pos)
  {
    var q := |s.node.posted|;
    if |r.node.posted| > q {
      assert StrongerClaim(r.node.posted[q], r.node, r.node.st.addr) && r.tags[q] <= s.pos;
    } else {
      assert Displaced(s.node) && Challenged(s.node);
      var p :| 0 <= p < q && StrongerClaim(s.node.posted[p], s.node, s.node.st.addr);
      assert StrongerClaim(r.node.posted[p], r.node, r.node.st.addr) && r.tags[p] <= s.pos;
    }
  }

  lemma ReadGrows(log: seq<Entry>, who: nat, s: Station)
    requires Queued(log, s) && s.pos < |log|
    ensures Grown(log, s, ReadNext(who, s, log[s.pos]))
  {
    var r := ReadNext(who, s, log[s.pos]);
    if log[s.pos].from != who {
      if |r.node.posted| > |s.node.posted| {
        var ev := r.node.posted[|s.node.posted|];
        assert r.node.posted == s.node.posted + [ev] && r.tags == s.tags + [s.pos];
      } else {
        assert r.tags == s.tags;
      }
    }
  }

  lemma ReadRecords(names: seq<Name>, log: seq<Entry>, who: nat, s: Station)
    requires DistinctNames(names) && SignedBy(names, log) && AllJustified(log)
    requires who < |names| && s.node.me == names[who] && StationInv(log, who, s) && s.pos < |log|
    ensures var r := ReadNext(who, s, log[s.pos]);
            Inv(r.node) && r.node.me == s.node.me && Recorded(log, Since(s), s.pos + 1, r.node.me, r.node.net)
  {
    var e := log[s.pos];
    if e.from == who || e.msg.Request? {
      SkippingRecords(log, Since(s), s.pos, s.node.me, s.node.net);
      if e.from != who { StepKeepsInv(s.node, Receive(e.msg)); }
    } else {
      StepKeepsInv(s.node, Receive(e.msg));
      InsertInserts(s.node.net, e.msg.name, e.msg.addr);
      ReadingRecords(names, log, Since(s), s.pos, s.node.me, s.node.net, ReadNext(who, s, e).node.net);
    }
  }

  lemma OneMoreRenewed(log: seq<Entry>, s: Station)
    requires Queued(log, s) && s.pos < |log| && AllRenewed(log, Since(s), s.pos)
    requires !s.awake && log[s.pos].msg.Claim? ==> Renewed(log, s.born, s.pos)
    ensures AllRenewed(log, Since(s), s.pos + 1)
  {
  }

  lemma ReadKeepsStation(names: seq<Name>, log: seq<Entry>, who: nat, s: Station)
    requires DistinctNames(names) && SignedBy(names, log) && AllJustified(log)
    requires who < |names| && s.node.me == names[who] && StationInv(log, who, s) && s.pos < |log|
    requires !s.awake && log[s.pos].msg.Claim? ==> Renewed(log, s.born, s.pos)
    ensures StationInv(log, who, ReadNext(who, s, log[s.pos]))
    ensures ReadNext(who, s, log[s.pos]).node.me == s.node.me
  {
    var e := log[s.pos];
    var r := ReadNext(who, s, e);
    ReadGrows(log, who, s);
    ReadRecords(names, log, who, s);
    OneMoreRenewed(log, s);
    if s.node.st.HasAddress? && Contests(log, s, s.pos) { ReadPending(log, s, r); }
    GrownKeepsStation(log, who, s, r);
  }

  lemma UnfedGrows(log: seq<Entry>, s: Station, i: Input)
    requires Queued(log, s) && Fed(s.node, i).None? && !i.Receive?
    ensures var r := Advance(s, i);
            Grown(log, s, r) && r.pos == s.pos && r.node.net == s.node.net
  {
    var r := Advance(s, i);
    if |r.node.posted| > |s.node.posted| {
      var ev := r.node.posted[|s.node.posted|];
      assert r.node.posted == s.node.posted + [ev] && r.tags == s.tags + [s.pos];
    } else {
      assert r.tags == s.tags;
    }
  }

  lemma ActKeepsStation(log: seq<Entry>, who: nat, s: Station, i: Input)
    requires StationInv(log, who, s) && !i.Receive? && (s.awake || !StartsClaiming(s, i))
    ensures StationInv(log, who, Advance(s, i)) && Advance(s, i).node.me == s.node.me
  {
    if Fed(s.node, i).Some? {
      FedKeepsStation(log, who, s, i);
    } else {
      StepKeepsInv(s.node, i);
      UnfedGrows(log, s, i);
      GrownKeepsStation(log, who, s, Advance(s, i));
    }
  }
}
