/**
 * Why a late station must have read its answers. Its request makes the stations on an address
 * repeat their claims, so it is safe once it has read them (module BusUniqueness), but not while
 * it lags behind.
 */
module LateStations {
  import opened J1939
  import opened NetworkIndex
  import opened AddressMachine
  import opened Bus
  import opened BusLimits

  /** `x` alone on the bus comes to hold `p`. */
  function LoneHolder(x: Name, p: Address): Bus {
    Bus([Station(Holder(x, p), 0, [], 0, true)], [Entry(0, Request(NO_ADDR)), Entry(0, Claim(x, p))])
  }

  lemma LoneStationHolds(x: Name, p: Address)
    requires Unicast(p)
    ensures Leads(Off([x]), LoneHolder(x, p))
  {
    var b := Off([x]);
    var s := Station(Claimant(x, p), 0, [], 0, true);
    Claims(b, 0, x, p);
    var c := Bus([s], LoneHolder(x, p).log);
    assert SignedBus(b, 0, s, [Request(NO_ADDR), Claim(x, p)]) == c;
    ThenHolds(c, 0, x, p);
    assert c.(stations := c.stations[0 := s.(node := Holder(x, p))]) == LoneHolder(x, p);
    LeadsOn(b, c, LoneHolder(x, p));
  }

  /** `y` joins and asks; `holder` has read `pos` entries, the log goes on with `more`. */
  function Asking(x: Name, y: Name, p: Address, pos: nat, more: seq<Entry>): Bus {
    Bus([Station(Holder(x, p), pos, [], 0, true), Station(Waiter(y, p), 2, [], 2, false)],
        LoneHolder(x, p).log + [Entry(1, Request(NO_ADDR))] + more)
  }

  lemma JoinsAndAsks(x: Name, y: Name, p: Address)
    requires x.rank != y.rank
    ensures Leads(LoneHolder(x, p), Asking(x, y, p, 0, []))
  {
    var b := LoneHolder(x, p);
    OneMove(b, Join(y));
    var c := Bus(b.stations + [Station(Boot(y), 2, [], 2, false)], b.log);
    Asks(c, 1, y, p);
    assert SignedBus(c, 1, Station(Waiter(y, p), 2, [], 2, false), [Request(NO_ADDR)]) == Asking(x, y, p, 0, []);
    LeadsOn(b, c, Asking(x, y, p, 0, []));
  }

  lemma HolderAnswers(x: Name, p: Address)
    ensures var n := Step(Holder(x, p), Receive(Request(NO_ADDR))).node;
            && n == Holder(x, p).(posted := [AddressRequest(NO_ADDR)])
            && Step(n, RunNext) == Effect(Holder(x, p), [Claim(x, p)])
  {
  }

  lemma HolderSkipsOwn(x: Name, y: Name, p: Address)
    ensures Leads(Asking(x, y, p, 0, []), Asking(x, y, p, 2, []))
  {
    var b, b1, b2 := Asking(x, y, p, 0, []), Asking(x, y, p, 1, []), Asking(x, y, p, 2, []);
    ReadsQuietly(b, 0, Holder(x, p));
    assert SignedBus(b, 0, b1.stations[0], []) == b1;
    ReadsQuietly(b1, 0, Holder(x, p));
    assert SignedBus(b1, 0, b2.stations[0], []) == b2;
    LeadsOn(b, b1, b2);
  }

  /** The holder reads on and answers the request. */
  lemma RequestAnswered(x: Name, y: Name, p: Address)
    ensures Leads(Asking(x, y, p, 0, []), Asking(x, y, p, 3, [Entry(0, Claim(x, p))]))
  {
    var b, b2, b3 := Asking(x, y, p, 0, []), Asking(x, y, p, 2, []), Asking(x, y, p, 3, [Entry(0, Claim(x, p))]);
    HolderSkipsOwn(x, y, p);
    HolderAnswers(x, p);
    Hears(b2, 0, Holder(x, p).(posted := [AddressRequest(NO_ADDR)]), Holder(x, p), [Claim(x, p)]);
    assert SignedBus(b2, 0, b3.stations[0], [Claim(x, p)]) == b3;
    LeadsOn(b, b2, b3);
  }

  lemma HolderAnswered(x: Name, y: Name, p: Address)
    requires Unicast(p) && x.rank != y.rank
    ensures Leads(Off([x]), Asking(x, y, p, 3, [Entry(0, Claim(x, p))]))
  {
    var b, c, d := LoneHolder(x, p), Asking(x, y, p, 0, []), Asking(x, y, p, 3, [Entry(0, Claim(x, p))]);
    LoneStationHolds(x, p);
    JoinsAndAsks(x, y, p);
    LeadsOn(Off([x]), b, c);
    RequestAnswered(x, y, p);
    LeadsOn(Off([x]), c, d);
  }

  /** The holder refuses the weaker claim of its address and does not answer it. */
  lemma HolderIsSilent(x: Name, y: Name, p: Address)
    requires Stronger(x, y) && Unicast(p)
    ensures Step(Holder(x, p), Receive(Claim(y, p)))
         == Effect(Holder(x, p).(net := Net(map[x := p, y := IDLE_ADDR], map[p := x])), [])
  {
  }

  /** The pair once `y` has claimed without having read the answer; the holder has read `pos` entries. */
  function Contending(x: Name, y: Name, p: Address, n: Node, pos: nat): Bus {
    Bus([Station(n, pos, [], 0, true), Station(Claimant(y, p), 2, [], 2, true)],
        Asking(x, y, p, 3, [Entry(0, Claim(x, p))]).log + [Entry(1, Claim(y, p))])
  }

  function Deaf(x: Name, y: Name, p: Address): Node {
    Holder(x, p).(net := Net(map[x := p, y := IDLE_ADDR], map[p := x]))
  }

  lemma HolderReadsOn(x: Name, y: Name, p: Address)
    requires Stronger(x, y) && Unicast(p)
    ensures Leads(Contending(x, y, p, Holder(x, p), 3), Contending(x, y, p, Deaf(x, y, p), 5))
  {
    var c, c1 := Contending(x, y, p, Holder(x, p), 3), Contending(x, y, p, Holder(x, p), 4);
    var c2 := Contending(x, y, p, Deaf(x, y, p), 5);
    ReadsQuietly(c, 0, Holder(x, p));
    assert SignedBus(c, 0, c1.stations[0], []) == c1;
    HolderIsSilent(x, y, p);
    ReadsQuietly(c1, 0, Deaf(x, y, p));
    assert SignedBus(c1, 0, c2.stations[0], []) == c2;
    LeadsOn(c, c1, c2);
  }

  /** The holder says nothing more and `y` gains the address. */
  lemma UnopposedGains(x: Name, y: Name, p: Address) returns (d: Bus)
    requires Stronger(x, y) && Unicast(p)
    ensures var b := Asking(x, y, p, 3, [Entry(0, Claim(x, p))]);
            Leads(Do(b, Act(1, Expire)), d)
    ensures |d.stations| == 2 && d.stations[0].node.st == d.stations[1].node.st == HasAddress(p)
  {
    var b := Asking(x, y, p, 3, [Entry(0, Claim(x, p))]);
    var c, c2 := Contending(x, y, p, Holder(x, p), 3), Contending(x, y, p, Deaf(x, y, p), 5);
    ThenClaims(b, 1, y, p);
    assert Do(b, Act(1, Expire)) == c;
    HolderReadsOn(x, y, p);
    assert c2.log[4] == Entry(1, Claim(y, p));
    assert HasSettledClaim(c2.log, c2.stations[0], 1, y, p);
    ThenHolds(c2, 1, y, p);
    d := Do(c2, Act(1, Expire));
    LeadsOn(c, c2, d);
  }

  /**
   * A station joins, asks, and the stronger holder of its preferred address answers. If its start
   * delay expires before it has read that answer, both come to hold the address; all other waits
   * are kept.
   */
  lemma LaggingStationSharesAnAddress(x: Name, y: Name, p: Address) returns (b: Bus, d: Bus)
    requires Stronger(x, y) && Unicast(p)
    ensures Leads(Off([x]), b) && |b.stations| == 2
    ensures Asked(b, 1, 2) && DealtWith(b, 1, 2) && b.log[3..] == [Entry(0, Claim(x, p))] && b.stations[1].pos == 2
    ensures Leads(Do(b, Act(1, Expire)), d)
    ensures |d.stations| == 2 && d.stations[0].node.st == d.stations[1].node.st == HasAddress(p)
  {
    b := Asking(x, y, p, 3, [Entry(0, Claim(x, p))]);
    HolderAnswered(x, y, p);
    d := UnopposedGains(x, y, p);
  }

  /** Had it read on, its wait would have been met. */
  lemma AnswerCanBeRead(x: Name, y: Name, p: Address) returns (b: Bus)
    requires Stronger(x, y) && Unicast(p)
    ensures Leads(Off([x]), b) && |b.stations| == 2 && Answered(b, 1) && Allowed(b, Act(1, Expire))
    ensures b.stations[1].node.timer == StartDelay(p) && !b.stations[1].awake
  {
    b := AnswerRead(x, y, p);
    HolderAnswered(x, y, p);
    LeadsToAnswer(x, y, p);
    LeadsOn(Off([x]), Asking(x, y, p, 3, [Entry(0, Claim(x, p))]), b);
    assert b.log[3] == Entry(0, Claim(x, p)) && ClaimBy(b.log[3], 0, p);
    assert Repeated(b.log, 2, 4, 0, p);
    assert Asked(b, 1, 2) && DealtWith(b, 1, 2) && AnswersRead(b, 1, 2);
  }

  function AnswerRead(x: Name, y: Name, p: Address): Bus {
    var b := Asking(x, y, p, 3, [Entry(0, Claim(x, p))]);
    var told := Waiter(y, p).(net := Net(map[x := p], map[p := x]), posted := [AddressClaim(x, p)]);
    b.(stations := [b.stations[0], Station(told, 4, [3], 2, false)])
  }

  lemma LeadsToAnswer(x: Name, y: Name, p: Address)
    requires Stronger(x, y) && Unicast(p)
    ensures Leads(Asking(x, y, p, 3, [Entry(0, Claim(x, p))]), AnswerRead(x, y, p))
  {
    var b, d := Asking(x, y, p, 3, [Entry(0, Claim(x, p))]), AnswerRead(x, y, p);
    var c := b.(stations := [b.stations[0], b.stations[1].(pos := 3)]);
    ReadsQuietly(b, 1, Waiter(y, p));
    assert SignedBus(b, 1, c.stations[1], []) == c;
    assert Step(Waiter(y, p), Receive(Claim(x, p))).node == d.stations[1].node;
    assert Renewed(c.log, 2, 3);
    ReadsAndPosts(c, 1, d.stations[1].node);
    assert [] + [3] == d.stations[1].tags;
    assert SignedBus(c, 1, d.stations[1], []) == d;
    LeadsOn(b, c, d);
  }
}
