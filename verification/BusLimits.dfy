/**
 * Runs of the bus, move by move, and what they show about the claim timer: its wait can be met,
 * and without it any two stations can come to hold one address. Modules LateStations and
 * ForestalledClaims do the same for stations that join late.
 */
module BusLimits {
  import opened J1939
  import opened NetworkIndex
  import opened AddressMachine
  import opened Bus

  // ---------------------------------------------------------------- putting runs together

  /** Some sequence of allowed moves leads from `b` to `c`. */
  ghost predicate Leads(b: Bus, c: Bus) {
    exists mvs :: Reaches(b, mvs, c)
  }

  lemma {:induction false} ReachesOn(b: Bus, mvs: seq<Move>, c: Bus, more: seq<Move>, d: Bus)
    requires Reaches(b, mvs, c) && Reaches(c, more, d)
    ensures Reaches(b, mvs + more, d)
    decreases |mvs|
  {
    if mvs == [] {
      assert [] + more == more;
    } else {
      assert (mvs + more)[1..] == mvs[1..] + more;
      ReachesOn(Do(b, mvs[0]), mvs[1..], c, more, d);
    }
  }

  lemma LeadsOn(b: Bus, c: Bus, d: Bus)
    requires Leads(b, c) && Leads(c, d)
    ensures Leads(b, d)
  {
    var mvs, more :| Reaches(b, mvs, c) && Reaches(c, more, d);
    ReachesOn(b, mvs, c, more, d);
  }

  lemma OneMove(b: Bus, mv: Move)
    requires Allowed(b, mv)
    ensures Leads(b, Do(b, mv))
  {
    assert [mv][1..] == [];
    assert Reaches(Do(b, mv), [], Do(b, mv));
    assert Reaches(b, [mv], Do(b, mv));
  }

  // ---------------------------------------------------------------- moves with their results

  function SignedBus(b: Bus, who: nat, s: Station, sent: seq<Msg>): Bus
    requires who < |b.stations|
  {
    Bus(b.stations[who := s], b.log + Signed(who, sent))
  }

  /** The application starts the claimer. */
  lemma Starts(b: Bus, who: nat, p: Address)
    requires who < |b.stations| && b.stations[who].node.st.NoAddress?
    requires b.stations[who].node.posted == [] && b.stations[who].tags == []
    ensures var s := b.stations[who];
            var n := s.node.(posted := [Restart], timer := StartDelay(p));
            Leads(b, SignedBus(b, who, s.(node := n, tags := [s.pos]), []))
  {
    var s := b.stations[who];
    var n := s.node.(posted := [Restart], timer := StartDelay(p));
    OneMove(b, Act(who, Start(p)));
    assert Advance(s, Start(p)) == s.(node := n, tags := [s.pos]);
  }

  /** The only posted event runs. */
  lemma RunsOne(b: Bus, who: nat, n: Node, sent: seq<Msg>)
    requires who < |b.stations| && |b.stations[who].node.posted| == |b.stations[who].tags| == 1
    requires Step(b.stations[who].node, RunNext) == Effect(n, sent) && n.posted == []
    ensures Leads(b, SignedBus(b, who, b.stations[who].(node := n, tags := []), sent))
  {
    OneMove(b, Act(who, RunNext));
    assert Advance(b.stations[who], RunNext) == b.stations[who].(node := n, tags := []);
  }

  /** A timer expires. */
  lemma Expired(b: Bus, who: nat, n: Node, sent: seq<Msg>)
    requires who < |b.stations| && |b.stations[who].node.posted| == |b.stations[who].tags|
    requires Step(b.stations[who].node, Expire) == Effect(n, sent) && n.posted == b.stations[who].node.posted
    ensures Do(b, Act(who, Expire)) == SignedBus(b, who, Wake(b.stations[who], Expire).(node := n), sent)
    ensures Allowed(b, Act(who, Expire)) ==> Leads(b, Do(b, Act(who, Expire)))
  {
    assert Advance(Wake(b.stations[who], Expire), Expire) == Wake(b.stations[who], Expire).(node := n);
    if Allowed(b, Act(who, Expire)) { OneMove(b, Act(who, Expire)); }
  }

  /** The next entry is read and posts nothing. */
  lemma ReadsQuietly(b: Bus, who: nat, n: Node)
    requires who < |b.stations| && Allowed(b, Read(who))
    requires var s := b.stations[who];
             && |s.tags| == |s.node.posted| == |n.posted|
             && n == if b.log[s.pos].from == who then s.node else Step(s.node, Receive(b.log[s.pos].msg)).node
    ensures Leads(b, SignedBus(b, who, b.stations[who].(node := n, pos := b.stations[who].pos + 1), []))
  {
    var s := b.stations[who];
    OneMove(b, Read(who));
    assert ReadNext(who, s, b.log[s.pos]) == s.(node := n, pos := s.pos + 1);
    assert b.log + Signed(who, []) == b.log;
  }

  /** The next entry is read and posts one event. */
  lemma ReadsAndPosts(b: Bus, who: nat, n: Node)
    requires who < |b.stations| && Allowed(b, Read(who))
    requires var s := b.stations[who];
             && |s.tags| == |s.node.posted| && |n.posted| == |s.node.posted| + 1
             && b.log[s.pos].from != who && n == Step(s.node, Receive(b.log[s.pos].msg)).node
    ensures var s := b.stations[who];
            Leads(b, SignedBus(b, who, s.(node := n, pos := s.pos + 1, tags := s.tags + [s.pos]), []))
  {
    var s := b.stations[who];
    OneMove(b, Read(who));
    assert ReadNext(who, s, b.log[s.pos]) == s.(node := n, pos := s.pos + 1, tags := s.tags + [s.pos]);
    assert b.log + Signed(who, []) == b.log;
  }

  /** The next entry is read and the event it posts runs at once. */
  lemma Hears(b: Bus, who: nat, n: Node, m: Node, sent: seq<Msg>)
    requires who < |b.stations| && Allowed(b, Read(who)) && b.stations[who].node.posted == []
    requires b.stations[who].tags == []
    requires b.log[b.stations[who].pos].from != who && |n.posted| == 1 && m.posted == []
    requires n == Step(b.stations[who].node, Receive(b.log[b.stations[who].pos].msg)).node
    requires Step(n, RunNext) == Effect(m, sent)
    ensures var s := b.stations[who];
            Leads(b, SignedBus(b, who, s.(node := m, pos := s.pos + 1), sent))
  {
    var s := b.stations[who];
    ReadsAndPosts(b, who, n);
    var c := SignedBus(b, who, s.(node := n, pos := s.pos + 1, tags := s.tags + [s.pos]), []);
    RunsOne(c, who, m, sent);
    assert b.log + Signed(who, []) == b.log;
    assert SignedBus(c, who, s.(node := m, pos := s.pos + 1), sent)
        == SignedBus(b, who, s.(node := m, pos := s.pos + 1), sent);
    LeadsOn(b, c, SignedBus(b, who, s.(node := m, pos := s.pos + 1), sent));
  }

  // ---------------------------------------------------------------- claimers and holders

  /** A booted claimer that has sent its request and waits to claim `p`. */
  function Waiter(me: Name, p: Address): Node {
    Boot(me).(timer := StartDelay(p))
  }

  function Claimant(me: Name, p: Address): Node {
    Node(me, EMPTY, Claiming(p), ClaimDelay, [])
  }

  function Holder(me: Name, p: Address): Node {
    Node(me, Net(map[me := p], map[p := me]), HasAddress(p), Disarmed, [])
  }

  /** A booted station is started and sends its request. */
  lemma Asks(b: Bus, who: nat, me: Name, p: Address)
    requires who < |b.stations| && b.stations[who].node == Boot(me) && b.stations[who].tags == []
    ensures var s := b.stations[who];
            Leads(b, SignedBus(b, who, s.(node := Waiter(me, p)), [Request(NO_ADDR)]))
  {
    var s := b.stations[who];
    Starts(b, who, p);
    var c := SignedBus(b, who, s.(node := Waiter(me, p).(posted := [Restart]), tags := [s.pos]), []);
    RunsOne(c, who, Waiter(me, p), [Request(NO_ADDR)]);
    var d := SignedBus(b, who, s.(node := Waiter(me, p)), [Request(NO_ADDR)]);
    assert b.log + Signed(who, []) == b.log;
    assert SignedBus(c, who, s.(node := Waiter(me, p)), [Request(NO_ADDR)]) == d;
    LeadsOn(b, c, d);
  }

  /** Its start delay expires and it claims `p`. */
  lemma ThenClaims(b: Bus, who: nat, me: Name, p: Address)
    requires who < |b.stations| && b.stations[who].node == Waiter(me, p) && b.stations[who].tags == [] && Unicast(p)
    ensures var c := SignedBus(b, who, b.stations[who].(node := Claimant(me, p), awake := true), [Claim(me, p)]);
            Do(b, Act(who, Expire)) == c && (Allowed(b, Act(who, Expire)) ==> Leads(b, c))
  {
    assert Step(Waiter(me, p), Expire) == Effect(Claimant(me, p), [Claim(me, p)]);
    Expired(b, who, Claimant(me, p), [Claim(me, p)]);
  }

  lemma Claims(b: Bus, who: nat, me: Name, p: Address)
    requires who < |b.stations| && b.stations[who].node == Boot(me) && b.stations[who].tags == []
    requires b.stations[who].awake && Unicast(p)
    ensures var s := b.stations[who].(node := Claimant(me, p));
            Leads(b, SignedBus(b, who, s, [Request(NO_ADDR), Claim(me, p)]))
  {
    var s := b.stations[who];
    Asks(b, who, me, p);
    var c := SignedBus(b, who, s.(node := Waiter(me, p)), [Request(NO_ADDR)]);
    ThenClaims(c, who, me, p);
    var d := SignedBus(b, who, s.(node := Claimant(me, p)), [Request(NO_ADDR), Claim(me, p)]);
    assert Signed(who, [Request(NO_ADDR)]) + Signed(who, [Claim(me, p)])
        == Signed(who, [Request(NO_ADDR), Claim(me, p)]);
    assert SignedBus(c, who, s.(node := Claimant(me, p)), [Claim(me, p)]) == d;
    LeadsOn(b, c, d);
  }

  /** The claim delay of an uncontested claim expires. */
  lemma ThenHolds(b: Bus, who: nat, me: Name, p: Address)
    requires who < |b.stations| && b.stations[who].node == Claimant(me, p) && b.stations[who].tags == [] && Unicast(p)
    ensures var c := b.(stations := b.stations[who := b.stations[who].(node := Holder(me, p))]);
            Do(b, Act(who, Expire)) == c && (Allowed(b, Act(who, Expire)) ==> Leads(b, c))
  {
    assert Step(Claimant(me, p), Expire) == Effect(Holder(me, p), []);
    Expired(b, who, Holder(me, p), []);
    assert b.log + Signed(who, []) == b.log;
  }

  // ---------------------------------------------------------------- the claim timer

  /** Without the wait for the others, any two claimers can come to hold any address together. */
  lemma EarlyTimersShareAnAddress(x: Name, y: Name, p: Address) returns (b: Bus)
    requires Unicast(p)
    ensures Leads(Off([x, y]), b) && |b.stations| == 2
    ensures var c := Do(Do(b, Act(0, Expire)), Act(1, Expire));
            c.stations[0].node.st == c.stations[1].node.st == HasAddress(p)
  {
    var b0 := Off([x, y]);
    Claims(b0, 0, x, p);
    var s := b0.stations[0].(node := Claimant(x, p));
    var b1 := SignedBus(b0, 0, s, [Request(NO_ADDR), Claim(x, p)]);
    Claims(b1, 1, y, p);
    var t := b1.stations[1].(node := Claimant(y, p));
    b := SignedBus(b1, 1, t, [Request(NO_ADDR), Claim(y, p)]);
    LeadsOn(b0, b1, b);
    ThenHolds(b, 0, x, p);
    ThenHolds(Do(b, Act(0, Expire)), 1, y, p);
  }

  /** A booted station hears a request: without an address it prepares to say so. */
  lemma BootedHearsRequest(y: Name)
    ensures var n := Step(Boot(y), Receive(Request(NO_ADDR))).node;
            && n == Boot(y).(posted := [AddressRequest(NO_ADDR)])
            && Step(n, RunNext) == Effect(Boot(y).(timer := CannotClaimDelay), [])
  {
  }

  lemma IdleHearsClaim(y: Name, timer: Timer, x: Name, p: Address)
    requires x != y && Unicast(p)
    ensures var idle := Boot(y).(timer := timer);
            var told := idle.(net := Net(map[x := p], map[p := x]));
            && Step(idle, Receive(Claim(x, p))).node == told.(posted := [AddressClaim(x, p)])
            && Step(told.(posted := [AddressClaim(x, p)]), RunNext) == Effect(told, [])
  {
  }

  /** The other station reads both frames of a lone claimant. */
  lemma OtherSettles(x: Name, y: Name, p: Address)
    requires x != y && Unicast(p)
    ensures var log := [Entry(0, Request(NO_ADDR)), Entry(0, Claim(x, p))];
            var s := Station(Claimant(x, p), 0, [], 0, true);
            var told := Boot(y).(net := Net(map[x := p], map[p := x]), timer := CannotClaimDelay);
            Leads(Bus([s, Station(Boot(y), 0, [], 0, true)], log), Bus([s, Station(told, 2, [], 0, true)], log))
  {
    var log := [Entry(0, Request(NO_ADDR)), Entry(0, Claim(x, p))];
    var s := Station(Claimant(x, p), 0, [], 0, true);
    var idle := Boot(y).(timer := CannotClaimDelay);
    var told := idle.(net := Net(map[x := p], map[p := x]));
    var b := Bus([s, Station(Boot(y), 0, [], 0, true)], log);
    var c := Bus([s, Station(idle, 1, [], 0, true)], log);
    var d := Bus([s, Station(told, 2, [], 0, true)], log);
    BootedHearsRequest(y);
    Hears(b, 1, Boot(y).(posted := [AddressRequest(NO_ADDR)]), idle, []);
    assert SignedBus(b, 1, Station(idle, 1, [], 0, true), []) == c;
    IdleHearsClaim(y, CannotClaimDelay, x, p);
    Hears(c, 1, told.(posted := [AddressClaim(x, p)]), told, []);
    assert SignedBus(c, 1, Station(told, 2, [], 0, true), []) == d;
    LeadsOn(b, c, d);
  }

  /** The wait can be met: once the other station has settled it, a lone claim succeeds. */
  lemma HeardClaimSucceeds(x: Name, y: Name, p: Address) returns (c: Bus)
    requires x != y && Unicast(p)
    ensures Leads(Off([x, y]), c) && |c.stations| == 2 && c.stations[0].node == Holder(x, p)
  {
    var b := Off([x, y]);
    var log := [Entry(0, Request(NO_ADDR)), Entry(0, Claim(x, p))];
    var s := Station(Claimant(x, p), 0, [], 0, true);
    Claims(b, 0, x, p);
    var b1 := Bus([s, Station(Boot(y), 0, [], 0, true)], log);
    assert SignedBus(b, 0, s, [Request(NO_ADDR), Claim(x, p)]) == b1;
    OtherSettles(x, y, p);
    var told := Boot(y).(net := Net(map[x := p], map[p := x]), timer := CannotClaimDelay);
    var b2 := Bus([s, Station(told, 2, [], 0, true)], log);
    LeadsOn(b, b1, b2);
    assert HasSettledClaim(log, b2.stations[1], 0, x, p) by { assert log[1] == Entry(0, Claim(x, p)); }
    ThenHolds(b2, 0, x, p);
    c := Do(b2, Act(0, Expire));
    LeadsOn(b, b2, c);
  }
}
