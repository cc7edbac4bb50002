/** In every reachable state of the bus no two stations hold the same address. */
module BusUniqueness {
  import opened J1939
  import opened NetworkIndex
  import opened AddressMachine
  import opened ClaimerRuns
  import opened Bus
  import opened BusStations
  import opened BusReplies

  // ---------------------------------------------------------------- what a step sends

  lemma ActSends(n: Node, i: Input)
    requires Inv(n) && !i.Receive?
    ensures var e := Step(n, i);
            || e.sent == []
            || e.sent == [Request(NO_ADDR)]
            || (OnAddress(e.node.st) && e.sent == [Claim(n.me, e.node.st.addr)])
            || (!OnAddress(e.node.st) && e.sent == [Claim(n.me, IDLE_ADDR)])
  {
    if Fed(n, i).Some? { StepOutcome(n, i); }
  }

  /** The log with one more entry, which is justified if it is a claim. */
  lemma LogExtends(names: seq<Name>, log: seq<Entry>, e: Entry)
    requires SignedBy(names, log) && AllJustified(log) && e.from < |names|
    requires e.msg.Claim? ==> e.msg.name == names[e.from] && Justified(log + [e], |log|)
    ensures SignedBy(names, log + [e]) && AllJustified(log + [e])
  {
    var l := log + [e];
    forall m | 0 <= m < |log| && l[m].msg.Claim?
      ensures Justified(l, m)
    {
      assert l[m] == log[m] && Justified(log, m);
      forall k | 0 <= k < m && Abandons(l, k, m)
        ensures Outranked(l, 0, m, l[m].msg.name, l[k].msg.addr)
      {
        assert l[k] == log[k] && Abandons(log, k, m);
        OutrankedExtends(log, [e], 0, m, m, log[m].msg.name, log[k].msg.addr);
      }
    }
  }

  /** A new claim of the address the sender is on, or a cannot-claim when it is on none, is justified. */
  lemma NewEntryJustified(log: seq<Entry>, who: nat, s: Station, a: Address)
    requires s.pos <= |log| && Accounted(log, who, s)
    requires if OnAddress(s.node.st) then a == s.node.st.addr else a == IDLE_ADDR
    ensures Justified(log + [Entry(who, Claim(s.node.me, a))], |log|)
  {
    var e := Entry(who, Claim(s.node.me, a));
    var l := log + [e];
    forall k | 0 <= k < |log| && Abandons(l, k, |log|)
      ensures Outranked(l, 0, |log|, s.node.me, l[k].msg.addr)
    {
      assert l[k] == log[k];
      OutrankedExtends(log, [e], 0, s.pos, |log|, s.node.me, log[k].msg.addr);
    }
  }

  lemma LogAfterAct(names: seq<Name>, log: seq<Entry>, who: nat, s: Station, i: Input)
    requires SignedBy(names, log) && AllJustified(log) && who < |names| && s.node.me == names[who]
    requires StationInv(log, who, s) && !i.Receive? && (s.awake || !StartsClaiming(s, i))
    ensures var l := log + Signed(who, Step(s.node, i).sent);
            SignedBy(names, l) && AllJustified(l) && StationInv(l, who, Advance(s, i))
  {
    var sent := Step(s.node, i).sent;
    var r := Advance(s, i);
    ActKeepsStation(log, who, s, i);
    ActSends(s.node, i);
    if sent == [] {
      assert log + Signed(who, sent) == log;
    } else {
      assert Signed(who, sent) == [Entry(who, sent[0])];
      if sent[0].Claim? { NewEntryJustified(log, who, r, sent[0].addr); }
      LogExtends(names, log, Entry(who, sent[0]));
    }
    StationExtends(log, Signed(who, sent), who, r);
  }

  // ---------------------------------------------------------------- moves keep the stations

  lemma ReadKeepsStations(names: seq<Name>, b: Bus, i: nat)
    requires StationsInv(names, b) && Allowed(b, Read(i))
    ensures StationsInv(names, Do(b, Read(i)))
  {
    ReadKeepsStation(names, b.log, i, b.stations[i]);
    ReadReplies(b.log, i, b.stations[i]);
  }

  lemma ActKeepsStations(names: seq<Name>, b: Bus, i: nat, input: Input)
    requires StationsInv(names, b) && i < |b.stations| && !input.Receive?
    requires b.stations[i].awake || !StartsClaiming(b.stations[i], input)
    ensures StationsInv(names, Do(b, Act(i, input)))
  {
    var s := b.stations[i];
    var c := Do(b, Act(i, input));
    var es := Signed(i, Step(s.node, input).sent);
    assert Wake(s, input) == s;
    LogAfterAct(names, b.log, i, s, input);
    ActKeepsStation(b.log, i, s, input);
    ActReplies(b.log, i, s, input);
    forall j | 0 <= j < |names|
      ensures var t := c.stations[j];
              t.node.me == names[j] && StationInv(c.log, j, t) && Replies(c.log, j, t)
    {
      if j != i {
        StationExtends(b.log, es, j, b.stations[j]);
        RepliesExtend(b.log, es, j, b.stations[j]);
      }
    }
  }

  function Woken(b: Bus, i: nat): Bus
    requires i < |b.stations|
  {
    b.(stations := b.stations[i := b.stations[i].(awake := true)])
  }

  lemma WakingKeepsStations(names: seq<Name>, b: Bus, i: nat)
    requires StationsInv(names, b) && i < |b.stations| && !b.stations[i].awake && Answered(b, i)
    ensures StationsInv(names, Woken(b, i))
  {
    WakingKeepsStation(names, b, i);
  }

  lemma JoinKeepsStations(names: seq<Name>, b: Bus, x: Name)
    requires StationsInv(names, b) && Allowed(b, Join(x))
    ensures StationsInv(names + [x], Do(b, Join(x)))
  {
    var c := Do(b, Join(x));
    assert forall i | 0 <= i < |names| :: (names + [x])[i] == names[i] && c.stations[i] == b.stations[i];
  }

  // ---------------------------------------------------------------- the bus

  /** Among the first `pos` entries `who` claims `a`. */
  ghost predicate Known(log: seq<Entry>, pos: nat, who: nat, a: Address) {
    exists k :: 0 <= k < pos && k < |log| && ClaimBy(log[k], who, a)
  }

  /** Station `j`, if awake, has read of the address `i` holds, and holds another if it is the weaker. */
  ghost predicate Separate(b: Bus, i: nat, j: nat)
    requires i < |b.stations| && j < |b.stations|
  {
    var s, t := b.stations[i], b.stations[j];
    s.node.st.HasAddress? && t.awake ==>
      && Known(b.log, t.pos, i, s.node.st.addr)
      && (Stronger(s.node.me, t.node.me) ==> t.node.st != HasAddress(s.node.st.addr))
  }

  ghost predicate BusInv(names: seq<Name>, b: Bus) {
    && StationsInv(names, b)
    && forall i, j | 0 <= i < |b.stations| && 0 <= j < |b.stations| && i != j :: Separate(b, i, j)
  }

  lemma KnownExtends(log: seq<Entry>, log': seq<Entry>, pos: nat, pos': nat, who: nat, a: Address)
    requires log <= log' && pos <= pos' && Known(log, pos, who, a)
    ensures Known(log', pos', who, a)
  {
    var k :| 0 <= k < pos && k < |log| && ClaimBy(log[k], who, a);
    assert log'[k] == log[k];
  }

  /** `t'` is `t` further on, in the same state. */
  predicate Lingers(t: Station, t': Station) {
    t'.node.st == t.node.st && t'.node.me == t.node.me && t'.awake == t.awake && t.pos <= t'.pos
  }

  lemma SeparateKept(b: Bus, c: Bus, i: nat, j: nat)
    requires i < |b.stations| <= |c.stations| && j < |b.stations| && b.log <= c.log && Separate(b, i, j)
    requires Lingers(b.stations[i], c.stations[i]) && Lingers(b.stations[j], c.stations[j])
    ensures Separate(c, i, j)
  {
    var s, t := b.stations[i], b.stations[j];
    if s.node.st.HasAddress? && t.awake {
      KnownExtends(b.log, c.log, t.pos, c.stations[j].pos, i, s.node.st.addr);
    }
  }

  lemma ReadKeepsBus(names: seq<Name>, b: Bus, w: nat)
    requires BusInv(names, b) && Allowed(b, Read(w))
    ensures BusInv(names, Do(b, Read(w)))
  {
    var c := Do(b, Read(w));
    ReadKeepsStations(names, b, w);
    assert Lingers(b.stations[w], c.stations[w]) by { ReadGrows(b.log, w, b.stations[w]); }
    forall i, j | 0 <= i < |c.stations| && 0 <= j < |c.stations| && i != j
      ensures Separate(c, i, j)
    {
      SeparateKept(b, c, i, j);
    }
  }

  lemma JoinKeepsBus(names: seq<Name>, b: Bus, x: Name)
    requires BusInv(names, b) && Allowed(b, Join(x))
    ensures BusInv(names + [x], Do(b, Join(x)))
  {
    var c := Do(b, Join(x));
    JoinKeepsStations(names, b, x);
    forall i, j | 0 <= i < |c.stations| && 0 <= j < |c.stations| && i != j
      ensures Separate(c, i, j)
    {
      if i < |b.stations| && j < |b.stations| { assert Separate(b, i, j); }
    }
  }

  lemma WakingKeepsBus(names: seq<Name>, b: Bus, w: nat)
    requires BusInv(names, b) && w < |b.stations| && !b.stations[w].awake && Answered(b, w)
    ensures BusInv(names, Woken(b, w))
  {
    var c := Woken(b, w);
    WakingKeepsStations(names, b, w);
    var r: nat :| Asked(b, w, r) && DealtWith(b, w, r) && AnswersRead(b, w, r);
    forall i, j | 0 <= i < |c.stations| && 0 <= j < |c.stations| && i != j
      ensures Separate(c, i, j)
    {
      assert Separate(b, i, j);
      if j == w && c.stations[i].node.st.HasAddress? {
        AnswerWasRead(names, b, w, r, i);
        var k :| r < k < b.stations[w].pos && k < |b.log| && ClaimBy(b.log[k], i, c.stations[i].node.st.addr);
      }
    }
  }

  /** Only an expired claim timer makes a station a holder, and it keeps the claimed address. */
  lemma BecomesHolder(n: Node, i: Input)
    requires Inv(n) && !i.Receive?
    ensures var st := Step(n, i).node.st;
            st.HasAddress? && st != n.st ==>
              n.st == Claiming(st.addr) && i.Expire? && n.timer.ClaimDelay? && ValidAddress(n)
  {
    if Fed(n, i).Some? {
      FedIsReady(n, i);
      StepOutcome(n, i);
    }
  }

  /** A station that has settled a stronger claim of an address does not hold it. */
  lemma SettledDoesNotHold(log: seq<Entry>, who: nat, s: Station, i: nat, x: Name, a: Address)
    requires StationInv(log, who, s) && HasSettledClaim(log, s, i, x, a) && Stronger(x, s.node.me)
    ensures s.node.st != HasAddress(a)
  {
    var k :| 0 <= k < Settled(s) && k < |log| && log[k] == Entry(i, Claim(x, a));
    assert s.node.st == HasAddress(a) ==> Contests(log, s, k) && Pending(s, k);
  }

  /** A station that comes to hold `a` once it is heard, against any other station. */
  lemma NewHolderIsSeparate(log: seq<Entry>, w: nat, me: Name, j: nat, t: Station, a: Address)
    requires StationInv(log, j, t) && HasSettledClaim(log, t, w, me, a)
    ensures Known(log, t.pos, w, a) && (Stronger(me, t.node.me) ==> t.node.st != HasAddress(a))
  {
    var k :| 0 <= k < Settled(t) && k < |log| && log[k] == Entry(w, Claim(me, a));
    assert ClaimBy(log[k], w, a) && k < t.pos;
    if Stronger(me, t.node.me) { SettledDoesNotHold(log, j, t, w, me, a); }
  }

  /** A station that knows a stronger name on an address is not granted it. */
  lemma KnownIsNotGranted(names: seq<Name>, log: seq<Entry>, n: Node, pos: nat, i: nat, a: Address)
    requires pos <= |log| && SignedBy(names, log) && Recorded(log, 0, pos, n.me, n.net) && Core(n)
    requires i < |names| && Stronger(names[i], n.me) && Known(log, pos, i, a) && n.st == Claiming(a)
    ensures !ValidAddress(n)
  {
    var k :| 0 <= k < pos && k < |log| && ClaimBy(log[k], i, a);
    assert Unicast(a) ==> Rival(log[k], n.me) && Guarded(n.net, log[k]);
  }

  lemma HolderIsSeparate(names: seq<Name>, b: Bus, w: nat, input: Input, j: nat)
    requires BusInv(names, b) && Allowed(b, Act(w, input)) && j < |b.stations| && j != w
    requires b.stations[w].awake || !StartsClaiming(b.stations[w], input)
    ensures Separate(Do(b, Act(w, input)), w, j)
  {
    var c := Do(b, Act(w, input));
    var s, t, st := b.stations[w], b.stations[j], c.stations[w].node.st;
    BecomesHolder(s.node, input);
    ActKeepsStation(b.log, w, s, input);
    if st == s.node.st {
      SeparateKept(b, c, w, j);
    } else if st.HasAddress? && t.awake {
      NewHolderIsSeparate(b.log, w, s.node.me, j, t, st.addr);
      KnownExtends(b.log, c.log, t.pos, t.pos, w, st.addr);
    }
  }

  lemma MoverIsSeparate(names: seq<Name>, b: Bus, w: nat, input: Input, i: nat)
    requires BusInv(names, b) && Allowed(b, Act(w, input)) && i < |b.stations| && i != w
    requires b.stations[w].awake || !StartsClaiming(b.stations[w], input)
    ensures Separate(Do(b, Act(w, input)), i, w)
  {
    var c := Do(b, Act(w, input));
    var s, t, st := b.stations[i], b.stations[w], c.stations[w].node.st;
    BecomesHolder(t.node, input);
    ActKeepsStation(b.log, w, t, input);
    if st == t.node.st {
      SeparateKept(b, c, i, w);
    } else if s.node.st.HasAddress? && t.awake {
      assert Separate(b, i, w);
      KnownExtends(b.log, c.log, t.pos, t.pos, i, s.node.st.addr);
      if Stronger(s.node.me, t.node.me) && t.node.st == Claiming(s.node.st.addr) {
        KnownIsNotGranted(names, b.log, t.node, t.pos, i, s.node.st.addr);
      }
    }
  }

  lemma AwakeActKeepsBus(names: seq<Name>, b: Bus, w: nat, input: Input)
    requires BusInv(names, b) && Allowed(b, Act(w, input))
    requires b.stations[w].awake || !StartsClaiming(b.stations[w], input)
    ensures BusInv(names, Do(b, Act(w, input)))
  {
    var c := Do(b, Act(w, input));
    ActKeepsStations(names, b, w, input);
    forall i, j | 0 <= i < |c.stations| && 0 <= j < |c.stations| && i != j
      ensures Separate(c, i, j)
    {
      if i == w {
        HolderIsSeparate(names, b, w, input, j);
      } else if j == w {
        MoverIsSeparate(names, b, w, input, i);
      } else {
        SeparateKept(b, c, i, j);
      }
    }
  }

  // ---------------------------------------------------------------- main result

  lemma OffInv(names: seq<Name>)
    requires DistinctNames(names)
    ensures BusInv(names, Off(names))
  {
  }

  lemma ActKeepsBus(names: seq<Name>, b: Bus, w: nat, input: Input)
    requires BusInv(names, b) && Allowed(b, Act(w, input))
    ensures BusInv(names, Do(b, Act(w, input)))
  {
    if b.stations[w].awake || !StartsClaiming(b.stations[w], input) {
      AwakeActKeepsBus(names, b, w, input);
    } else {
      var c := Woken(b, w);
      WakingKeepsBus(names, b, w);
      AwakeActKeepsBus(names, c, w, input);
      assert Do(b, Act(w, input)) == Do(c, Act(w, input));
    }
  }

  lemma {:induction false} ReachableInv(names: seq<Name>, b: Bus, mvs: seq<Move>, c: Bus) returns (all: seq<Name>)
    requires BusInv(names, b) && Reaches(b, mvs, c)
    ensures BusInv(all, c) && names <= all
    decreases |mvs|
  {
    all := names;
    if mvs != [] {
      match mvs[0] {
        case Read(i) => ReadKeepsBus(names, b, i);
        case Act(i, input) => ActKeepsBus(names, b, i, input);
        case Join(x) =>
          JoinKeepsBus(names, b, x);
          all := names + [x];
      }
      all := ReachableInv(all, Do(b, mvs[0]), mvs[1..], c);
    }
  }

  /**
   * However many stations, early or late, whatever their preferred addresses and
   * self-configuration bits, and however the moves interleave: two stations that hold addresses
   * hold different ones.
   */
  lemma NoTwoHoldersShareAnAddress(names: seq<Name>, mvs: seq<Move>, b: Bus, i: nat, j: nat)
    requires DistinctNames(names) && Reaches(Off(names), mvs, b)
    requires i < j < |b.stations|
    requires b.stations[i].node.st.HasAddress? && b.stations[j].node.st.HasAddress?
    ensures b.stations[i].node.st.addr != b.stations[j].node.st.addr
  {
    OffInv(names);
    var all := ReachableInv(names, Off(names), mvs, b);
    assert Separate(b, i, j) && Separate(b, j, i);
    assert Stronger(all[i], all[j]) || Stronger(all[j], all[i]);
  }
}
