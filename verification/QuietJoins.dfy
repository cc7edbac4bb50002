/**
 * A condition on joining alone. If stations join only while the bus is settled, and all NAMEs
 * agree in bit 63, then no station ever claims an address that a stronger name had claimed before
 * a late one joined: late stations read no forestalled claims and need only their answers.
 *
 * The condition on bit 63 is sufficient. It rules out that the address search, which compares all
 * 64 bits, lets a fixed name claim an address on which a stronger but self-configurable name is
 * on record (`StuckClaims.StuckIsReached` has such a claim).
 */
module QuietJoins {
  import opened J1939
  import opened NetworkIndex
  import opened AddressMachine
  import opened ClaimerRuns
  import opened Bus
  import opened BusStations
  import opened BusReplies
  import opened BusUniqueness

  /** Everything on the bus has been read and everything posted has been run. */
  ghost predicate SettledBus(b: Bus) {
    forall i | 0 <= i < |b.stations| :: Settled(b.stations[i]) >= |b.log|
  }

  ghost predicate Uniform(selfConfig: bool, b: Bus) {
    forall i | 0 <= i < |b.stations| :: b.stations[i].node.me.selfConfig == selfConfig
  }

  /** The timing of the two waits is kept and stations join at settled moments. */
  ghost predicate QuietlyAllowed(selfConfig: bool, b: Bus, mv: Move) {
    match mv
    case Read(_) => Possible(b, mv)
    case Act(_, _) => Allowed(b, mv)
    case Join(x) => Possible(b, mv) && SettledBus(b) && x.selfConfig == selfConfig
  }

  ghost predicate QuietlyReaches(selfConfig: bool, b: Bus, mvs: seq<Move>, c: Bus)
    decreases |mvs|
  {
    if mvs == [] then b == c
    else
      && QuietlyAllowed(selfConfig, b, mvs[0]) && Possible(b, mvs[0])
      && QuietlyReaches(selfConfig, Do(b, mvs[0]), mvs[1..], c)
  }

  // ---------------------------------------------------------------- no claim against a known rival

  /** A claimant that has read a stronger claim on its address has yet to run it. */
  ghost predicate Firm(log: seq<Entry>, s: Station)
    requires Queued(log, s)
  {
    s.node.st.Claiming? && Unicast(s.node.st.addr) ==>
      forall k | 0 <= k < s.pos && Contests(log, s, k) :: Pending(s, k)
  }

  ghost predicate SameBit(me: Name, t: Net) {
    forall a | a in t.rev :: t.rev[a].selfConfig == me.selfConfig
  }

  /** Among names that agree in bit 63 the search avoids every address of a stronger name. */
  lemma SearchAvoidsStronger(t: Net, me: Name, preferred: Address)
    requires SameBit(me, t)
    ensures var a := FindAddress(t, me, preferred);
            Unicast(a) && a in t.rev ==> !Stronger(t.rev[a], me)
  {
    if me.selfConfig { FindAddressIsFirstInCyclicOrder(t, me, preferred); }
  }

  lemma BegunIsUnrivalled(log: seq<Entry>, pos: nat, n: Node, ev: Event, r: Node)
    requires pos <= |log| && Core(n) && Recorded(log, 0, pos, n.me, n.net) && SameBit(n.me, n.net)
    requires Begins(n, ev, r) && Unicast(r.st.addr)
    ensures forall k | 0 <= k < pos && Rival(log[k], n.me) :: log[k].msg.addr != r.st.addr
  {
    GivenKeepsNetInv(n);
    SearchAvoidsStronger(Given(n), n.me, From(n, ev));
    forall k | 0 <= k < pos && Rival(log[k], n.me) && Unicast(log[k].msg.addr)
      ensures log[k].msg.addr != r.st.addr
    {
      assert Guarded(n.net, log[k]);
    }
  }

  /** What a station has settled does not contest the address it stays on. */
  lemma SettledIsUncontested(log: seq<Entry>, s: Station, k: nat)
    requires Queued(log, s) && Answerable(log, s) && Firm(log, s) && k < Settled(s) && k < |log|
    requires OnAddress(s.node.st) && Unicast(s.node.st.addr)
    ensures !Contests(log, s, k)
  {
    assert Contests(log, s, k) ==> Pending(s, k);
  }

  /** The machine claims only where it was uncontested or where its search leads. */
  lemma EventClaimsUnrivalled(log: seq<Entry>, s: Station, n: Node, ev: Event, e: Effect)
    requires Queued(log, s) && Answerable(log, s) && Firm(log, s) && Recorded(log, 0, s.pos, s.node.me, s.node.net)
    requires n.me == s.node.me && n.st == s.node.st && n.net == s.node.net && SameBit(n.me, n.net)
    requires Core(n) && Outcome(n, ev, e) && OnAddress(e.node.st) && Unicast(e.node.st.addr)
    ensures !Outranked(log, 0, Settled(s), s.node.me, e.node.st.addr)
  {
    if Begins(n, ev, e.node) {
      BegunIsUnrivalled(log, s.pos, n, ev, e.node);
    } else {
      forall k | 0 <= k < Settled(s) && k < |log| && Rival(log[k], s.node.me)
        ensures log[k].msg.addr != e.node.st.addr
      {
        SettledIsUncontested(log, s, k);
      }
    }
  }

  lemma ActClaimsUnrivalled(log: seq<Entry>, who: nat, s: Station, i: Input, k: nat)
    requires StationInv(log, who, s) && Firm(log, s) && !i.Receive? && SameBit(s.node.me, s.node.net)
    requires s.awake || !StartsClaiming(s, i)
    requires k < |Step(s.node, i).sent| && Step(s.node, i).sent[k].Claim? && Unicast(Step(s.node, i).sent[k].addr)
    ensures !Outranked(log, 0, Settled(s), s.node.me, Step(s.node, i).sent[k].addr)
  {
    ActSends(s.node, i);
    if Fed(s.node, i).Some? {
      var (n, ev) := Fed(s.node, i).value;
      FedIsReady(s.node, i);
      StepOutcome(s.node, i);
      if !s.awake { AsleepStays(n, ev); }
      EventClaimsUnrivalled(log, s, n, ev, Step(s.node, i));
    }
  }

  // ---------------------------------------------------------------- claimants stay firm

  lemma StayingFirm(log: seq<Entry>, s: Station, i: Input, m: Station, ev: Event, r: Station)
    requires Queued(log, s) && Firm(log, s) && Fed(s.node, i) == Some((m.node, ev)) && m == Fetched(s, i)
    requires r.pos == s.pos && r.tags == m.tags && r.node.posted == m.node.posted && r.node.me == s.node.me
    requires Queued(log, r) && StaysPut(m.node, ev, r.node)
    ensures Firm(log, r)
  {
    if r.node.st.Claiming? && Unicast(r.node.st.addr) {
      forall k | 0 <= k < r.pos && Contests(log, r, k)
        ensures Pending(r, k)
      {
        assert Contests(log, s, k);
        FetchedPending(s, i, k);
        PendingMoves(m, r, k);
      }
    }
  }

  lemma FedKeepsFirm(log: seq<Entry>, who: nat, s: Station, i: Input)
    requires StationInv(log, who, s) && s.awake && Firm(log, s) && SameBit(s.node.me, s.node.net)
    requires Fed(s.node, i).Some?
    ensures Queued(log, Advance(s, i)) && Firm(log, Advance(s, i))
  {
    var (n, ev) := Fed(s.node, i).value;
    var r := Advance(s, i);
    FedKeepsStation(log, who, s, i);
    FedIsReady(s.node, i);
    StepOutcome(s.node, i);
    assert r == Fetched(s, i).(node := Step(s.node, i).node);
    if StaysPut(n, ev, r.node) {
      StayingFirm(log, s, i, Fetched(s, i), ev, r);
    } else if Begins(n, ev, r.node) && Unicast(r.node.st.addr) {
      BegunIsUnrivalled(log, s.pos, n, ev, r.node);
    }
  }

  lemma GrownFirm(log: seq<Entry>, s: Station, r: Station)
    requires Queued(log, s) && Queued(log, r) && Firm(log, s) && Grown(log, s, r)
    requires r.pos == s.pos + 1 && s.node.st.Claiming? && Unicast(s.node.st.addr) && Contests(log, s, s.pos) ==>
               Pending(r, s.pos)
    ensures Firm(log, r)
  {
    if r.node.st.Claiming? && Unicast(r.node.st.addr) {
      forall k | 0 <= k < r.pos && Contests(log, r, k)
        ensures Pending(r, k)
      {
        assert Contests(log, s, k);
        if k < s.pos { GrownPending(log, s, r, k); }
      }
    }
  }

  lemma ActKeepsFirm(log: seq<Entry>, who: nat, s: Station, i: Input)
    requires StationInv(log, who, s) && Firm(log, s) && SameBit(s.node.me, s.node.net) && !i.Receive?
    requires s.awake || !StartsClaiming(s, i)
    ensures Queued(log, Advance(s, i)) && Firm(log, Advance(s, i))
  {
    ActKeepsStation(log, who, s, i);
    if Fed(s.node, i).None? {
      UnfedGrows(log, s, i);
      GrownFirm(log, s, Advance(s, i));
    } else if s.awake {
      FedKeepsFirm(log, who, s, i);
    }
  }

  /** A stronger claim on the claimed address is posted when read, or one already is. */
  lemma ReadFirm(log: seq<Entry>, who: nat, s: Station, r: Station)
    requires StationInv(log, who, s) && s.awake && Firm(log, s) && s.pos < |log|
    requires s.node.st.Claiming? && Unicast(s.node.st.addr) && Contests(log, s, s.pos)
    requires r.node == ProcessClaim(s.node, log[s.pos].msg.name, log[s.pos].msg.addr) && Grown(log, s, r)
    ensures |r.tags| == |r.node.posted| && Pending(r, s.pos)
  {
    var q, a := |s.node.posted|, s.node.st.addr;
    if |r.node.posted| > q {
      assert StrongerClaim(r.node.posted[q], r.node, a) && r.tags[q] <= s.pos;
    } else {
      assert SeenClaim(log, 0, s.pos, s.node.net.rev[a], a);
      var k :| 0 <= k < s.pos && log[k].msg == Claim(s.node.net.rev[a], a);
      assert Contests(log, s, k);
      GrownPending(log, s, r, k);
    }
  }

  lemma ReadKeepsFirm(log: seq<Entry>, who: nat, s: Station)
    requires StationInv(log, who, s) && Firm(log, s) && s.pos < |log|
    requires log[s.pos].from == who && log[s.pos].msg.Claim? ==> log[s.pos].msg.name == s.node.me
    ensures var r := ReadNext(who, s, log[s.pos]);
            Queued(log, r) && Firm(log, r)
  {
    var r := ReadNext(who, s, log[s.pos]);
    ReadGrows(log, who, s);
    GrownQueued(log, s, r);
    if s.node.st.Claiming? && Unicast(s.node.st.addr) && Contests(log, s, s.pos) { ReadFirm(log, who, s, r); }
    GrownFirm(log, s, r);
  }

  // ---------------------------------------------------------------- the bus

  /** No station is behind a late one's joining, and nothing was claimed since against an older claim. */
  ghost predicate Undisturbed(b: Bus, j: nat)
    requires j < |b.stations| && b.stations[j].born <= |b.log|
  {
    && AllRenewed(b.log, b.stations[j].born, |b.log|)
    && forall i | 0 <= i < |b.stations| :: b.stations[j].born <= Settled(b.stations[i])
  }

  ghost predicate AllQueued(b: Bus) {
    forall i | 0 <= i < |b.stations| :: Queued(b.log, b.stations[i])
  }

  ghost predicate Steady(b: Bus)
    requires AllQueued(b)
  {
    && (forall i | 0 <= i < |b.stations| :: Firm(b.log, b.stations[i]))
    && (forall j | 0 <= j < |b.stations| && !b.stations[j].awake :: Undisturbed(b, j))
  }

  ghost predicate QuietInv(selfConfig: bool, names: seq<Name>, b: Bus) {
    BusInv(names, b) && Uniform(selfConfig, b) && AllQueued(b) && Steady(b)
  }

  lemma NetsAgree(selfConfig: bool, names: seq<Name>, b: Bus, i: nat)
    requires StationsInv(names, b) && Uniform(selfConfig, b) && i < |b.stations|
    ensures SameBit(b.stations[i].node.me, b.stations[i].node.net)
  {
    var s := b.stations[i];
    forall a | a in s.node.net.rev && s.node.net.rev[a] != s.node.me
      ensures s.node.net.rev[a].selfConfig == selfConfig
    {
      var k :| Since(s) <= k < s.pos && k < |b.log| && b.log[k].msg == Claim(s.node.net.rev[a], a);
      assert names[b.log[k].from] == b.stations[b.log[k].from].node.me;
    }
  }

  lemma SettledAdvances(log: seq<Entry>, s: Station, i: Input)
    requires Queued(log, s) && !i.Receive?
    ensures Settled(s) <= Settled(Advance(s, i))
  {
    if Fed(s.node, i).Some? {
      StepOutcome(s.node, i);
    } else {
      UnfedGrows(log, s, i);
    }
  }

  lemma FirmExtends(log: seq<Entry>, es: seq<Entry>, s: Station)
    requires Queued(log, s) && Firm(log, s) && Queued(log + es, s)
    ensures Firm(log + es, s)
  {
    assert forall k | 0 <= k < s.pos :: (log + es)[k] == log[k];
    if s.node.st.Claiming? && Unicast(s.node.st.addr) {
      forall k | 0 <= k < s.pos && Contests(log + es, s, k)
        ensures Pending(s, k)
      {
        assert Contests(log, s, k);
      }
    }
  }

  ghost predicate NotBehind(b: Bus, c: Bus) {
    |b.stations| == |c.stations| &&
      forall i | 0 <= i < |b.stations| :: Settled(b.stations[i]) <= Settled(c.stations[i])
  }

  lemma UndisturbedKept(b: Bus, c: Bus, j: nat)
    requires j < |b.stations| && b.stations[j].born <= |b.log| && Undisturbed(b, j) && NotBehind(b, c)
    requires c.stations[j].born == b.stations[j].born <= |c.log| && AllRenewed(c.log, c.stations[j].born, |c.log|)
    ensures Undisturbed(c, j)
  {
  }

  /** The other stations are as they were and `w` lingers or moves, but joined when it did. */
  ghost predicate OthersKept(b: Bus, c: Bus, w: nat) {
    && w < |b.stations| == |c.stations| && b.log <= c.log && NotBehind(b, c) && AllQueued(b) && AllQueued(c)
    && (forall i | 0 <= i < |b.stations| && i != w :: c.stations[i] == b.stations[i])
    && c.stations[w].born == b.stations[w].born && (b.stations[w].awake ==> c.stations[w].awake)
  }

  lemma SteadyKept(b: Bus, c: Bus, w: nat)
    requires OthersKept(b, c, w) && Steady(b) && Firm(c.log, c.stations[w])
    requires forall j | 0 <= j < |b.stations| && !b.stations[j].awake ::
               b.stations[j].born <= |c.log| && AllRenewed(c.log, b.stations[j].born, |c.log|)
    ensures Steady(c)
  {
    forall i | 0 <= i < |c.stations| && i != w
      ensures Firm(c.log, c.stations[i])
    {
      assert b.log + c.log[|b.log|..] == c.log;
      FirmExtends(b.log, c.log[|b.log|..], b.stations[i]);
    }
    forall j | 0 <= j < |c.stations| && !c.stations[j].awake
      ensures Undisturbed(c, j)
    {
      UndisturbedKept(b, c, j);
    }
  }

  lemma InvQueues(names: seq<Name>, b: Bus)
    requires StationsInv(names, b)
    ensures AllQueued(b)
  {
  }

  lemma ReadIsQuiet(names: seq<Name>, b: Bus, w: nat)
    requires StationsInv(names, b) && AllQueued(b) && Steady(b) && Possible(b, Read(w))
    ensures Allowed(b, Read(w)) && AllQueued(Do(b, Read(w))) && Steady(Do(b, Read(w)))
  {
    var s, c := b.stations[w], Do(b, Read(w));
    assert !s.awake ==> Undisturbed(b, w);
    ReadKeepsFirm(b.log, w, s);
    ReadGrows(b.log, w, s);
    assert OthersKept(b, c, w);
    forall j | 0 <= j < |b.stations| && !b.stations[j].awake
      ensures AllRenewed(c.log, b.stations[j].born, |c.log|)
    {
      assert Undisturbed(b, j);
    }
    SteadyKept(b, c, w);
  }

  lemma QuietRead(selfConfig: bool, names: seq<Name>, b: Bus, w: nat)
    requires QuietInv(selfConfig, names, b) && Possible(b, Read(w))
    ensures Allowed(b, Read(w)) && QuietInv(selfConfig, names, Do(b, Read(w)))
  {
    ReadIsQuiet(names, b, w);
    ReadKeepsBus(names, b, w);
    UniformKept(selfConfig, names, b, Do(b, Read(w)));
  }

  lemma UniformKept(selfConfig: bool, names: seq<Name>, b: Bus, c: Bus)
    requires StationsInv(names, b) && StationsInv(names, c) && Uniform(selfConfig, b)
    ensures Uniform(selfConfig, c)
  {
    forall i | 0 <= i < |c.stations|
      ensures c.stations[i].node.me.selfConfig == selfConfig
    {
      assert c.stations[i].node.me == names[i] == b.stations[i].node.me;
    }
  }

  lemma JoinIsQuiet(b: Bus, x: Name)
    requires AllQueued(b) && Steady(b) && Possible(b, Join(x)) && SettledBus(b)
    ensures AllQueued(Do(b, Join(x))) && Steady(Do(b, Join(x)))
  {
    var c := Do(b, Join(x));
    forall j | 0 <= j < |c.stations| && !c.stations[j].awake
      ensures Undisturbed(c, j)
    {
      if j < |b.stations| { assert Undisturbed(b, j); }
    }
  }

  lemma QuietJoin(selfConfig: bool, names: seq<Name>, b: Bus, x: Name)
    requires QuietInv(selfConfig, names, b) && QuietlyAllowed(selfConfig, b, Join(x))
    ensures QuietInv(selfConfig, names + [x], Do(b, Join(x)))
  {
    JoinIsQuiet(b, x);
    JoinKeepsBus(names, b, x);
  }

  lemma StillUnrivalled(log: seq<Entry>, es: seq<Entry>, end: nat, end': nat, me: Name, a: Address)
    requires end <= |log| && end <= end' && !Outranked(log, 0, end', me, a)
    ensures !Outranked(log + es, 0, end, me, a)
  {
    assert forall k | 0 <= k < end :: (log + es)[k] == log[k];
  }

  /** The entries a step adds are not claims against what a late station missed. */
  lemma NewEntriesRenewed(log: seq<Entry>, who: nat, s: Station, i: Input, born: nat)
    requires StationInv(log, who, s) && Firm(log, s) && !i.Receive? && SameBit(s.node.me, s.node.net)
    requires s.awake || !StartsClaiming(s, i)
    requires born <= Settled(s) && born <= |log| && AllRenewed(log, born, |log|)
    ensures var l := log + Signed(who, Step(s.node, i).sent);
            AllRenewed(l, born, |l|)
  {
    var sent := Step(s.node, i).sent;
    var l := log + Signed(who, sent);
    RenewedExtends(log, Signed(who, sent), born, |log|);
    ActSends(s.node, i);
    forall m | |log| <= m < |l| && l[m].msg.Claim?
      ensures Renewed(l, born, m)
    {
      var k := m - |log|;
      assert l[m] == Entry(who, sent[k]) && sent[k].name == s.node.me;
      if Unicast(sent[k].addr) {
        ActClaimsUnrivalled(log, who, s, i, k);
        StillUnrivalled(log, Signed(who, sent), born, Settled(s), s.node.me, sent[k].addr);
      }
    }
  }

  lemma ActIsQuiet(selfConfig: bool, names: seq<Name>, b: Bus, w: nat, input: Input)
    requires StationsInv(names, b) && Uniform(selfConfig, b) && AllQueued(b) && Steady(b)
    requires w < |b.stations| && !input.Receive? && AllQueued(Do(b, Act(w, input)))
    requires b.stations[w].awake || !StartsClaiming(b.stations[w], input)
    ensures Steady(Do(b, Act(w, input)))
  {
    var s, c := b.stations[w], Do(b, Act(w, input));
    NetsAgree(selfConfig, names, b, w);
    ActKeepsFirm(b.log, w, s, input);
    SettledAdvances(b.log, s, input);
    FirmExtends(b.log, Signed(w, Step(s.node, input).sent), c.stations[w]);
    assert OthersKept(b, c, w);
    forall j | 0 <= j < |b.stations| && !b.stations[j].awake
      ensures b.stations[j].born <= |c.log| && AllRenewed(c.log, b.stations[j].born, |c.log|)
    {
      assert Undisturbed(b, j);
      NewEntriesRenewed(b.log, w, s, input, b.stations[j].born);
    }
    SteadyKept(b, c, w);
  }

  lemma AwakeQuietAct(selfConfig: bool, names: seq<Name>, b: Bus, w: nat, input: Input)
    requires QuietInv(selfConfig, names, b) && Allowed(b, Act(w, input))
    requires b.stations[w].awake || !StartsClaiming(b.stations[w], input)
    ensures QuietInv(selfConfig, names, Do(b, Act(w, input)))
  {
    var c := Do(b, Act(w, input));
    AwakeActKeepsBus(names, b, w, input);
    UniformKept(selfConfig, names, b, c);
    InvQueues(names, c);
    ActIsQuiet(selfConfig, names, b, w, input);
  }

  lemma QuietWaking(selfConfig: bool, names: seq<Name>, b: Bus, w: nat)
    requires QuietInv(selfConfig, names, b) && w < |b.stations| && !b.stations[w].awake && Answered(b, w)
    ensures QuietInv(selfConfig, names, Woken(b, w))
  {
    var c := Woken(b, w);
    WakingKeepsBus(names, b, w);
    InvQueues(names, c);
    assert OthersKept(b, c, w);
    forall j | 0 <= j < |b.stations| && !b.stations[j].awake
      ensures AllRenewed(c.log, b.stations[j].born, |c.log|)
    {
      assert Undisturbed(b, j);
    }
    SteadyKept(b, c, w);
  }

  lemma QuietAct(selfConfig: bool, names: seq<Name>, b: Bus, w: nat, input: Input)
    requires QuietInv(selfConfig, names, b) && Allowed(b, Act(w, input))
    ensures QuietInv(selfConfig, names, Do(b, Act(w, input)))
  {
    if b.stations[w].awake || !StartsClaiming(b.stations[w], input) {
      AwakeQuietAct(selfConfig, names, b, w, input);
    } else {
      QuietWaking(selfConfig, names, b, w);
      AwakeQuietAct(selfConfig, names, Woken(b, w), w, input);
      assert Do(b, Act(w, input)) == Do(Woken(b, w), Act(w, input));
    }
  }

  /** Runs with quiet joins are runs of the general theorem: no forestalled claim is ever read. */
  lemma {:induction false} QuietRunsAreAllowed(selfConfig: bool, names: seq<Name>, b: Bus, mvs: seq<Move>, c: Bus)
    requires QuietInv(selfConfig, names, b) && QuietlyReaches(selfConfig, b, mvs, c)
    ensures Reaches(b, mvs, c)
    decreases |mvs|
  {
    if mvs != [] {
      var d := Do(b, mvs[0]);
      match mvs[0]
      case Read(w) =>
        QuietRead(selfConfig, names, b, w);
        QuietRunsAreAllowed(selfConfig, names, d, mvs[1..], c);
      case Act(w, input) =>
        QuietAct(selfConfig, names, b, w, input);
        QuietRunsAreAllowed(selfConfig, names, d, mvs[1..], c);
      case Join(x) =>
        QuietJoin(selfConfig, names, b, x);
        QuietRunsAreAllowed(selfConfig, names + [x], d, mvs[1..], c);
    }
  }

  /** With quiet joins and NAMEs that agree in bit 63, the two waits alone keep holders apart. */
  lemma QuietJoinsKeepHoldersApart(selfConfig: bool, names: seq<Name>, mvs: seq<Move>, b: Bus, i: nat, j: nat)
    requires DistinctNames(names) && forall k | 0 <= k < |names| :: names[k].selfConfig == selfConfig
    requires QuietlyReaches(selfConfig, Off(names), mvs, b)
    requires i < j < |b.stations|
    requires b.stations[i].node.st.HasAddress? && b.stations[j].node.st.HasAddress?
    ensures b.stations[i].node.st.addr != b.stations[j].node.st.addr
  {
    OffInv(names);
    QuietRunsAreAllowed(selfConfig, names, Off(names), mvs, b);
    NoTwoHoldersShareAnAddress(names, mvs, b, i, j);
  }
}
