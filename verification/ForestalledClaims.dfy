/**
 * Why a late station must not read a forestalled claim while it waits. `z` claims an address, `y`
 * joins, and `x`, which is behind and has not read that claim, claims the same address and moves
 * on when it has. `y` then has `x` on both addresses. The answer of `z` displaces `x` from the
 * first and, with it, from the second, which `x` still uses; `y` finds that one free.
 *
 * The run is told as a film: the frames on the bus are fixed in advance and every shot says how
 * many of them have been sent and where the three stations are.
 */
module ForestalledClaims {
  import opened J1939
  import opened NetworkIndex
  import opened AddressMachine
  import opened Bus
  import opened BusLimits

  /** Three names and an address. */
  datatype Names = Names(z: Name, x: Name, y: Name, a: Address)

  /** The strongest name comes first, the second is self-configurable, and there is a next address. */
  type Cast = c: Names | Stronger(c.z, c.x) && Stronger(c.x, c.y) && c.x.selfConfig && c.a < MAX_UNICAST
    witness Names(Name(true, 0), Name(true, 1), Name(true, 2), 0)

  function Next(c: Cast): Address {
    c.a + 1
  }

  const REQUEST := Request(NO_ADDR)

  /** The whole log of the run. */
  function Story(c: Cast): seq<Entry> {
    [Entry(0, REQUEST), Entry(1, REQUEST), Entry(0, Claim(c.z, c.a)),
     Entry(1, Claim(c.x, c.a)), Entry(1, Claim(c.x, Next(c))), Entry(2, REQUEST), Entry(1, Claim(c.x, Next(c))),
     Entry(0, Claim(c.z, c.a)), Entry(0, Claim(c.z, c.a)), Entry(0, Claim(c.z, c.a)), Entry(2, Claim(c.y, Next(c)))]
  }

  // ---------------------------------------------------------------- shots and films

  /** So many entries of the story are on the bus, and the stations are like this. */
  datatype Shot = Shot(sent: nat, stations: seq<Station>)

  function Scene(c: Cast, s: Shot): Bus
    requires s.sent <= 11
  {
    Bus(s.stations, Story(c)[..s.sent])
  }

  ghost predicate Cut(c: Cast, s: Shot, t: Shot) {
    s.sent <= 11 && t.sent <= 11 && Leads(Scene(c, s), Scene(c, t))
  }

  ghost predicate Film(c: Cast, shots: seq<Shot>) {
    forall i | 0 <= i < |shots| - 1 :: Cut(c, shots[i], shots[i + 1])
  }

  lemma {:induction false} Shown(c: Cast, shots: seq<Shot>)
    requires |shots| >= 2 && Film(c, shots)
    ensures Cut(c, shots[0], shots[|shots| - 1])
    decreases |shots|
  {
    var last := |shots| - 1;
    assert Cut(c, shots[last - 1], shots[last]);
    if last >= 2 {
      Shown(c, shots[..last]);
      CutOn(c, shots[0], shots[last - 1], shots[last]);
    }
  }

  lemma CutOn(c: Cast, s: Shot, t: Shot, u: Shot)
    requires Cut(c, s, t) && Cut(c, t, u)
    ensures Cut(c, s, u)
  {
    LeadsOn(Scene(c, s), Scene(c, t), Scene(c, u));
  }

  /** Station `who` has nothing to say, or its line is the next of the story. */
  predicate Tells(c: Cast, n: nat, who: nat, sent: seq<Msg>) {
    sent == [] || (n < 11 && Story(c)[n].from == who && sent == [Story(c)[n].msg])
  }

  lemma Acts(c: Cast, s: Shot, who: nat, station: Station, sent: seq<Msg>, t: Shot)
    requires s.sent <= 11 && who < |s.stations| && Tells(c, s.sent, who, sent)
    requires t == Shot(s.sent + |sent|, s.stations[who := station])
    requires Leads(Scene(c, s), SignedBus(Scene(c, s), who, station, sent))
    ensures Cut(c, s, t)
  {
    if sent == [] {
      assert Story(c)[..s.sent] + Signed(who, sent) == Story(c)[..s.sent];
    } else {
      assert Signed(who, sent) == [Story(c)[s.sent]];
      assert Story(c)[..s.sent] + [Story(c)[s.sent]] == Story(c)[..s.sent + 1];
    }
  }

  /** A claimer with an empty queue reads an entry and runs the event it may post. */
  predicate Digests(who: nat, n: Node, e: Entry, m: Node, sent: seq<Msg>) {
    && n.posted == m.posted == []
    && if e.from == who then m == n && sent == []
       else
         var told := Step(n, Receive(e.msg)).node;
         if told.posted == [] then m == told && sent == []
         else |told.posted| == 1 && Step(told, RunNext) == Effect(m, sent)
  }

  /** An early station reads the next entry and runs what it posts. */
  lemma Reads(c: Cast, s: Shot, who: nat, m: Node, sent: seq<Msg>, t: Shot)
    requires s.sent <= 11 && who < |s.stations| && Tells(c, s.sent, who, sent)
    requires var st := s.stations[who];
             && st.awake && st.tags == [] && st.pos < s.sent && Digests(who, st.node, Story(c)[st.pos], m, sent)
             && t == Shot(s.sent + |sent|, s.stations[who := st.(node := m, pos := st.pos + 1)])
    ensures Cut(c, s, t)
  {
    var b, st := Scene(c, s), s.stations[who];
    var e := Story(c)[st.pos];
    assert b.log[st.pos] == e;
    var told := Step(st.node, Receive(e.msg)).node;
    if e.from == who || told.posted == [] {
      ReadsQuietly(b, who, m);
    } else {
      Hears(b, who, told, m, sent);
    }
    Acts(c, s, who, st.(node := m, pos := st.pos + 1), sent, t);
  }

  // ---------------------------------------------------------------- the stations

  function Early(n: Node, pos: nat): Station {
    Station(n, pos, [], 0, true)
  }

  /** `y`, having read nothing since it joined. */
  function Late(n: Node): Station {
    Station(n, 3, [], 3, false)
  }

  function Duo(sent: nat, z: Node, zpos: nat, x: Node, xpos: nat): Shot {
    Shot(sent, [Early(z, zpos), Early(x, xpos)])
  }

  function Trio(sent: nat, z: Node, zpos: nat, x: Node, xpos: nat, y: Station): Shot {
    Shot(sent, [Early(z, zpos), Early(x, xpos), y])
  }

  /** The entries `from` .. `end - 1` change nothing, as is the case of its own. */
  ghost predicate Unmoved(c: Cast, who: nat, n: Node, from: nat, end: nat) {
    end <= 11 && forall k | from <= k < end :: Digests(who, n, Story(c)[k], n, [])
  }

  lemma IdlesOnce(c: Cast, s: Shot, who: nat, end: nat, t: Shot)
    requires who < |s.stations| && s.sent <= 11
    requires var st := s.stations[who];
             && st.awake && st.tags == [] && st.pos < end <= s.sent && Unmoved(c, who, st.node, st.pos, end)
             && t == s.(stations := s.stations[who := st.(pos := st.pos + 1)])
    ensures Cut(c, s, t) && Unmoved(c, who, s.stations[who].node, s.stations[who].pos + 1, end)
  {
    assert Digests(who, s.stations[who].node, Story(c)[s.stations[who].pos], s.stations[who].node, []);
    Reads(c, s, who, s.stations[who].node, [], t);
  }

  /** An early station reads them in one go. */
  lemma {:induction false} Idles(c: Cast, s: Shot, who: nat, end: nat, t: Shot)
    requires who < |s.stations| && s.sent <= 11
    requires var st := s.stations[who];
             && st.awake && st.tags == [] && st.pos < end <= s.sent && Unmoved(c, who, st.node, st.pos, end)
             && t == s.(stations := s.stations[who := st.(pos := end)])
    ensures Cut(c, s, t)
    decreases end - s.stations[who].pos
  {
    var st := s.stations[who];
    var mid := s.(stations := s.stations[who := st.(pos := st.pos + 1)]);
    IdlesOnce(c, s, who, end, mid);
    if st.pos + 1 < end {
      assert mid.stations[who := st.(pos := end)] == t.stations;
      Idles(c, mid, who, end, t);
      CutOn(c, s, mid, t);
    }
  }

  /** While they claim they answer a global request. */
  lemma ClaimantAnswers(who: nat, n: Node, e: Entry)
    requires n.st.Claiming? && n.posted == [] && e.msg == REQUEST && e.from != who
    ensures Digests(who, n, e, n, [Claim(n.me, n.st.addr)])
  {
  }

  lemma Answers(c: Cast, s: Shot, who: nat, t: Shot)
    requires who < |s.stations| && s.sent < 11
    requires var st := s.stations[who];
             && st.awake && st.tags == [] && st.pos < s.sent && st.node.posted == [] && st.node.st.Claiming?
             && Story(c)[st.pos].msg == REQUEST && Story(c)[st.pos].from != who
             && Story(c)[s.sent] == Entry(who, Claim(st.node.me, st.node.st.addr))
             && t == Shot(s.sent + 1, s.stations[who := st.(pos := st.pos + 1)])
    ensures Cut(c, s, t)
  {
    var st := s.stations[who];
    ClaimantAnswers(who, st.node, Story(c)[st.pos]);
    Reads(c, s, who, st.node, [Claim(st.node.me, st.node.st.addr)], t);
  }

  /** `x` on its second address, claiming and holding. */
  function Moved(c: Cast): Node {
    Node(c.x, Net(map[c.z := c.a], map[c.a := c.z]), Claiming(Next(c)), ClaimDelay, [])
  }

  function Settler(c: Cast): Node {
    var net := Net(map[c.z := c.a, c.x := Next(c)], map[c.a := c.z, Next(c) := c.x]);
    Node(c.x, net, HasAddress(Next(c)), Disarmed, [])
  }

  /** `z` once it has read the first claim of `x`, and the second; `rev` still has `x` on `a`. */
  function Contested(c: Cast): Node {
    Claimant(c.z, c.a).(net := Net(map[c.x := c.a], map[c.a := c.x]))
  }

  function Strongest(c: Cast): Node {
    Claimant(c.z, c.a).(net := Net(map[c.x := Next(c)], map[c.a := c.x, Next(c) := c.x]))
  }

  /** `x` and `z` once they have refused the claim of `y` and know its name. */
  function Aware(c: Cast, n: Node): Node {
    n.(net := n.net.(fwd := n.net.fwd[c.y := IDLE_ADDR]))
  }

  // ---------------------------------------------------------------- what the early stations make of the frames

  /** Having read the stronger claim, `x` moves to the next address. */
  lemma MovesOn(c: Cast)
    ensures Digests(1, Claimant(c.x, c.a), Entry(0, Claim(c.z, c.a)), Moved(c), [Claim(c.x, Next(c))])
  {
    var told := Claimant(c.x, c.a).(net := Moved(c).net, posted := [AddressClaim(c.z, c.a)]);
    assert Step(Claimant(c.x, c.a), Receive(Claim(c.z, c.a))).node == told;
    var net := Moved(c).net;
    assert Search(net, c.x, c.a + 1, IDLE_ADDR) == c.a + 1;
    assert !Usable(net, c.x, c.a);
    assert Search(net, c.x, c.a, IDLE_ADDR) == c.a + 1;
    assert FindAddress(net, c.x, c.a) == Next(c);
  }

  lemma StrongestHearsMove(c: Cast)
    ensures Digests(0, Contested(c), Entry(1, Claim(c.x, Next(c))), Strongest(c), [])
  {
  }

  lemma HeardBefore(who: nat, n: Node, e: Entry)
    requires n.posted == [] && OnAddress(n.st) && e.from != who && e.msg.Claim?
    requires var Claim(x, a) := e.msg;
             && n.st.addr != a && Unicast(a)
             && x in n.net.fwd && n.net.fwd[x] == a && a in n.net.rev && n.net.rev[a] == x
    ensures Digests(who, n, e, n, [])
  {
    var Claim(x, a) := e.msg;
    assert n.net.fwd[x := a] == n.net.fwd && n.net.rev[a := x] == n.net.rev;
  }

  // ---------------------------------------------------------------- power-up to the request of `y`

  /** A station whose timer was taken over by a request is started. */
  lemma StartsAgain(b: Bus, who: nat, me: Name, p: Address)
    requires who < |b.stations| && b.stations[who].node == Boot(me).(timer := CannotClaimDelay)
    requires b.stations[who].tags == []
    ensures Leads(b, SignedBus(b, who, b.stations[who].(node := Waiter(me, p)), [Request(NO_ADDR)]))
  {
    var s := b.stations[who];
    Starts(b, who, p);
    var c := SignedBus(b, who, s.(node := Waiter(me, p).(posted := [Restart]), tags := [s.pos]), []);
    RunsOne(c, who, Waiter(me, p), [Request(NO_ADDR)]);
    var d := SignedBus(b, who, s.(node := Waiter(me, p)), [Request(NO_ADDR)]);
    assert b.log + Signed(who, []) == b.log;
    assert SignedBus(c, who, s.(node := Waiter(me, p)), [Request(NO_ADDR)]) == d;
    LeadsOn(b, c, d);
  }

  /** `z` asks and `x` hears it. */
  lemma StrongestAsks(c: Cast)
    ensures Cut(c, Duo(0, Boot(c.z), 0, Boot(c.x), 0), Duo(1, Waiter(c.z, c.a), 0, Boot(c.x), 0))
    ensures Cut(c, Duo(1, Waiter(c.z, c.a), 0, Boot(c.x), 0),
                Duo(1, Waiter(c.z, c.a), 0, Boot(c.x).(timer := CannotClaimDelay), 1))
  {
    var idle := Boot(c.x).(timer := CannotClaimDelay);
    var s0, s1 := Duo(0, Boot(c.z), 0, Boot(c.x), 0), Duo(1, Waiter(c.z, c.a), 0, Boot(c.x), 0);
    Asks(Scene(c, s0), 0, c.z, c.a);
    Acts(c, s0, 0, s1.stations[0], [REQUEST], s1);
    assert Digests(1, Boot(c.x), Entry(0, REQUEST), idle, []);
    Reads(c, s1, 1, idle, [], Duo(1, Waiter(c.z, c.a), 0, idle, 1));
  }

  /** `x` asks as well and `z` claims. */
  lemma StrongestClaims(c: Cast)
    ensures Cut(c, Duo(1, Waiter(c.z, c.a), 0, Boot(c.x).(timer := CannotClaimDelay), 1),
                Duo(2, Waiter(c.z, c.a), 0, Waiter(c.x, c.a), 1))
    ensures Cut(c, Duo(2, Waiter(c.z, c.a), 0, Waiter(c.x, c.a), 1),
                Duo(3, Claimant(c.z, c.a), 0, Waiter(c.x, c.a), 1))
  {
    var s0 := Duo(1, Waiter(c.z, c.a), 0, Boot(c.x).(timer := CannotClaimDelay), 1);
    var s1 := Duo(2, Waiter(c.z, c.a), 0, Waiter(c.x, c.a), 1);
    var s2 := Duo(3, Claimant(c.z, c.a), 0, Waiter(c.x, c.a), 1);
    StartsAgain(Scene(c, s0), 1, c.x, c.a);
    Acts(c, s0, 1, s1.stations[1], [REQUEST], s1);
    ThenClaims(Scene(c, s1), 0, c.z, c.a);
    Acts(c, s1, 0, s2.stations[0], [Claim(c.z, c.a)], s2);
  }

  lemma WeakestJoins(c: Cast)
    ensures Cut(c, Duo(3, Claimant(c.z, c.a), 0, Waiter(c.x, c.a), 1),
                Trio(3, Claimant(c.z, c.a), 0, Waiter(c.x, c.a), 1, Late(Boot(c.y))))
  {
    var s, t := Duo(3, Claimant(c.z, c.a), 0, Waiter(c.x, c.a), 1),
                Trio(3, Claimant(c.z, c.a), 0, Waiter(c.x, c.a), 1, Late(Boot(c.y)));
    OneMove(Scene(c, s), Join(c.y));
    assert s.stations + [Late(Boot(c.y))] == t.stations;
  }

  /** `x` claims the address as well. */
  lemma LaggardClaims(c: Cast)
    ensures Cut(c, Trio(3, Claimant(c.z, c.a), 0, Waiter(c.x, c.a), 1, Late(Boot(c.y))),
                Trio(4, Claimant(c.z, c.a), 0, Claimant(c.x, c.a), 1, Late(Boot(c.y))))
  {
    var s := Trio(3, Claimant(c.z, c.a), 0, Waiter(c.x, c.a), 1, Late(Boot(c.y)));
    var t := Trio(4, Claimant(c.z, c.a), 0, Claimant(c.x, c.a), 1, Late(Boot(c.y)));
    ThenClaims(Scene(c, s), 1, c.x, c.a);
    Acts(c, s, 1, t.stations[1], [Claim(c.x, c.a)], t);
  }

  lemma LaggardMoves(c: Cast)
    ensures Cut(c, Trio(4, Claimant(c.z, c.a), 0, Claimant(c.x, c.a), 2, Late(Boot(c.y))),
                Trio(5, Claimant(c.z, c.a), 0, Moved(c), 3, Late(Boot(c.y))))
  {
    MovesOn(c);
    Reads(c, Trio(4, Claimant(c.z, c.a), 0, Claimant(c.x, c.a), 2, Late(Boot(c.y))), 1,
        Moved(c), [Claim(c.x, Next(c))], Trio(5, Claimant(c.z, c.a), 0, Moved(c), 3, Late(Boot(c.y))));
  }

  lemma WeakestAsks(c: Cast)
    ensures Cut(c, Trio(5, Claimant(c.z, c.a), 0, Moved(c), 3, Late(Boot(c.y))),
                Trio(6, Claimant(c.z, c.a), 0, Moved(c), 3, Late(Waiter(c.y, Next(c)))))
  {
    var s := Trio(5, Claimant(c.z, c.a), 0, Moved(c), 3, Late(Boot(c.y)));
    Asks(Scene(c, s), 2, c.y, Next(c));
    Acts(c, s, 2, Late(Waiter(c.y, Next(c))), [REQUEST],
        Trio(6, Claimant(c.z, c.a), 0, Moved(c), 3, Late(Waiter(c.y, Next(c)))));
  }

  /** From power-up to the point where `y` joins. */
  lemma ActOne(c: Cast)
    ensures Cut(c, Duo(0, Boot(c.z), 0, Boot(c.x), 0),
                Trio(3, Claimant(c.z, c.a), 0, Waiter(c.x, c.a), 1, Late(Boot(c.y))))
  {
    StrongestAsks(c);
    StrongestClaims(c);
    WeakestJoins(c);
    Shown(c, [Duo(0, Boot(c.z), 0, Boot(c.x), 0), Duo(1, Waiter(c.z, c.a), 0, Boot(c.x), 0),
              Duo(1, Waiter(c.z, c.a), 0, Boot(c.x).(timer := CannotClaimDelay), 1),
              Duo(2, Waiter(c.z, c.a), 0, Waiter(c.x, c.a), 1), Duo(3, Claimant(c.z, c.a), 0, Waiter(c.x, c.a), 1),
              Trio(3, Claimant(c.z, c.a), 0, Waiter(c.x, c.a), 1, Late(Boot(c.y)))]);
  }

  /** From there to its request. */
  lemma ActTwo(c: Cast)
    ensures Cut(c, Trio(3, Claimant(c.z, c.a), 0, Waiter(c.x, c.a), 1, Late(Boot(c.y))),
                Trio(6, Claimant(c.z, c.a), 0, Moved(c), 3, Late(Waiter(c.y, Next(c)))))
  {
    var z, x, y := Claimant(c.z, c.a), Claimant(c.x, c.a), Late(Boot(c.y));
    LaggardClaims(c);
    Idles(c, Trio(4, z, 0, x, 1, y), 1, 2, Trio(4, z, 0, x, 2, y));
    LaggardMoves(c);
    WeakestAsks(c);
    Shown(c, [Trio(3, z, 0, Waiter(c.x, c.a), 1, y), Trio(4, z, 0, x, 1, y), Trio(4, z, 0, x, 2, y),
              Trio(5, z, 0, Moved(c), 3, y), Trio(6, z, 0, Moved(c), 3, Late(Waiter(c.y, Next(c))))]);
  }

  // ---------------------------------------------------------------- both answer

  lemma LaggardAnswers(c: Cast, y: Station)
    ensures var z := Claimant(c.z, c.a);
            Cut(c, Trio(6, z, 0, Moved(c), 3, y), Trio(7, z, 0, Moved(c), 6, y))
  {
    var z, x := Claimant(c.z, c.a), Moved(c);
    Idles(c, Trio(6, z, 0, x, 3, y), 1, 5, Trio(6, z, 0, x, 5, y));
    Answers(c, Trio(6, z, 0, x, 5, y), 1, Trio(7, z, 0, x, 6, y));
    CutOn(c, Trio(6, z, 0, x, 3, y), Trio(6, z, 0, x, 5, y), Trio(7, z, 0, x, 6, y));
  }

  lemma StrongestAnswers(c: Cast, x: Node, y: Station)
    ensures var z := Claimant(c.z, c.a);
            Cut(c, Trio(7, z, 0, x, 6, y), Trio(8, z, 3, x, 6, y))
  {
    var z := Claimant(c.z, c.a);
    Idles(c, Trio(7, z, 0, x, 6, y), 0, 1, Trio(7, z, 1, x, 6, y));
    Answers(c, Trio(7, z, 1, x, 6, y), 0, Trio(8, z, 2, x, 6, y));
    Idles(c, Trio(8, z, 2, x, 6, y), 0, 3, Trio(8, z, 3, x, 6, y));
    Shown(c, [Trio(7, z, 0, x, 6, y), Trio(7, z, 1, x, 6, y), Trio(8, z, 2, x, 6, y), Trio(8, z, 3, x, 6, y)]);
  }

  lemma StrongestStays(c: Cast, y: Station)
    ensures Cut(c, Trio(8, Claimant(c.z, c.a), 3, Moved(c), 6, y), Trio(9, Contested(c), 4, Moved(c), 6, y))
  {
    assert Digests(0, Claimant(c.z, c.a), Entry(1, Claim(c.x, c.a)), Contested(c), [Claim(c.z, c.a)]);
    Reads(c, Trio(8, Claimant(c.z, c.a), 3, Moved(c), 6, y), 0,
        Contested(c), [Claim(c.z, c.a)], Trio(9, Contested(c), 4, Moved(c), 6, y));
  }

  lemma StrongestReads(c: Cast, y: Station)
    ensures Cut(c, Trio(9, Contested(c), 4, Moved(c), 6, y), Trio(9, Strongest(c), 5, Moved(c), 6, y))
  {
    StrongestHearsMove(c);
    Reads(c, Trio(9, Contested(c), 4, Moved(c), 6, y), 0, Strongest(c), [], Trio(9, Strongest(c), 5, Moved(c), 6, y));
  }

  /** `y` at work while the others stand still. */
  function Solo(c: Cast, y: Station): Shot {
    Trio(10, Strongest(c), 6, Moved(c), 6, y)
  }

  lemma ActThree(c: Cast, y: Station)
    ensures Cut(c, Trio(6, Claimant(c.z, c.a), 0, Moved(c), 3, y), Solo(c, y))
  {
    var z, x := Claimant(c.z, c.a), Moved(c);
    LaggardAnswers(c, y);
    StrongestAnswers(c, x, y);
    StrongestStays(c, y);
    StrongestReads(c, y);
    Answers(c, Trio(9, Strongest(c), 5, x, 6, y), 0, Solo(c, y));
    Shown(c, [Trio(6, z, 0, x, 3, y), Trio(7, z, 0, x, 6, y), Trio(8, z, 3, x, 6, y),
              Trio(9, Contested(c), 4, x, 6, y), Trio(9, Strongest(c), 5, x, 6, y), Solo(c, y)]);
  }

  lemma FirstHalf(c: Cast)
    ensures Leads(Off([c.z, c.x]), Scene(c, Solo(c, Late(Waiter(c.y, Next(c))))))
  {
    var z, y := Claimant(c.z, c.a), Late(Waiter(c.y, Next(c)));
    var first := Duo(0, Boot(c.z), 0, Boot(c.x), 0);
    assert Off([c.z, c.x]) == Scene(c, first);
    ActOne(c);
    ActTwo(c);
    ActThree(c, y);
    Shown(c, [first, Trio(3, z, 0, Waiter(c.x, c.a), 1, Late(Boot(c.y))), Trio(6, z, 0, Moved(c), 3, y), Solo(c, y)]);
  }

  // ---------------------------------------------------------------- the late station reads on

  /** The events the claims of `x` on its two addresses and the answer of `z` post. */
  function Events(c: Cast): seq<Event> {
    var second := AddressClaim(c.x, Next(c));
    [AddressClaim(c.x, c.a), second, second, AddressClaim(c.z, c.a)]
  }

  const READ_AT := [3, 4, 6, 7]

  /** `y` once it has read up to `pos`, with `got` of the events posted and `run` of them run. */
  function Reader(c: Cast, net: Net, pos: nat, run: nat, got: nat): Station
    requires run <= got <= 4
  {
    Station(Waiter(c.y, Next(c)).(net := net, posted := Events(c)[run..got]), pos, READ_AT[run..got], 3, false)
  }

  /** What `y` knows after the first and the second claim of `x`; the answer of `z` takes both away. */
  function One(c: Cast): Net {
    Net(map[c.x := c.a], map[c.a := c.x])
  }

  function Both(c: Cast): Net {
    Net(map[c.x := Next(c)], map[c.a := c.x, Next(c) := c.x])
  }

  function Wiped(c: Cast): Net {
    Net(map[c.x := IDLE_ADDR, c.z := c.a], map[c.a := c.z])
  }

  lemma ReadsForestalled(c: Cast)
    ensures var b := Scene(c, Solo(c, Late(Waiter(c.y, Next(c)))));
            !Renewed(b.log, 3, 3) && Do(b, Read(2)) == Scene(c, Solo(c, Reader(c, One(c), 4, 0, 1)))
  {
    var b := Scene(c, Solo(c, Late(Waiter(c.y, Next(c)))));
    var s, r := b.stations[2], Reader(c, One(c), 4, 0, 1);
    assert b.log[3] == Story(c)[3] && b.log[2] == Story(c)[2] == Entry(0, Claim(c.z, c.a));
    assert Rival(b.log[2], c.x);
    assert r.node.posted == [AddressClaim(c.x, c.a)] && r.tags == [3];
    assert Step(s.node, Receive(Claim(c.x, c.a))).node == r.node;
    assert ReadNext(2, s, b.log[3]) == r;
  }

  /** Before the join only `z` had claimed, so no other claim is forestalled. */
  lemma OthersAreRenewed(c: Cast, m: nat)
    requires m in {4, 6, 7}
    ensures Renewed(Story(c)[..10], 3, m)
  {
    var log := Story(c)[..10];
    assert log[0] == Story(c)[0] && log[1] == Story(c)[1] && log[2] == Story(c)[2] && log[m] == Story(c)[m];
  }

  /** `y` reads its next claim, which posts the next event. */
  lemma LateReads(c: Cast, was: Net, net: Net, got: nat)
    requires 1 <= got < 4
    requires var pos := READ_AT[got];
             var Claim(x, a) := Story(c)[pos].msg;
             Events(c)[got] == AddressClaim(x, a) && Accepts(was, x, a) && Insert(was, x, a) == net
    ensures Cut(c, Solo(c, Reader(c, was, READ_AT[got], 0, got)),
                Solo(c, Reader(c, net, READ_AT[got] + 1, 0, got + 1)))
  {
    var pos := READ_AT[got];
    var y, y' := Reader(c, was, pos, 0, got), Reader(c, net, pos + 1, 0, got + 1);
    var s := Solo(c, y);
    OthersAreRenewed(c, pos);
    assert Scene(c, s).log[pos] == Story(c)[pos];
    assert Events(c)[0..got] + [Events(c)[got]] == Events(c)[0..got + 1];
    assert READ_AT[0..got] + [pos] == READ_AT[0..got + 1];
    ReadsAndPosts(Scene(c, s), 2, y'.node);
    Acts(c, s, 2, y', [], Solo(c, y'));
  }

  lemma LateSkipsOwn(c: Cast)
    ensures Cut(c, Solo(c, Reader(c, Both(c), 5, 0, 2)), Solo(c, Reader(c, Both(c), 6, 0, 2)))
  {
    var y := Reader(c, Both(c), 5, 0, 2);
    assert Scene(c, Solo(c, y)).log[5] == Story(c)[5];
    ReadsQuietly(Scene(c, Solo(c, y)), 2, y.node);
    Acts(c, Solo(c, y), 2, y.(pos := 6), [], Solo(c, Reader(c, Both(c), 6, 0, 2)));
  }

  /** The answer of `z` displaces `x` from its first address and takes the second out with it. */
  lemma AnswerWipes(c: Cast)
    ensures Insert(One(c), c.x, Next(c)) == Both(c) == Insert(Both(c), c.x, Next(c))
    ensures Insert(Both(c), c.z, c.a) == Wiped(c)
  {
    assert Both(c).rev[c.a] == c.x && Both(c).fwd[c.x] == Next(c);
  }

  /** Without an address `y` ignores the claims it has read. */
  lemma LateRunsOne(c: Cast, run: nat)
    requires run < 4
    ensures Cut(c, Solo(c, Reader(c, Wiped(c), 8, run, 4)), Solo(c, Reader(c, Wiped(c), 8, run + 1, 4)))
  {
    var y, y' := Reader(c, Wiped(c), 8, run, 4), Reader(c, Wiped(c), 8, run + 1, 4);
    assert y.node.posted[1..] == y'.node.posted && y.tags[1..] == y'.tags && y.node.posted[0].AddressClaim?;
    assert Step(y.node, RunNext) == Effect(y'.node, []);
    assert Advance(y, RunNext) == y';
    OneMove(Scene(c, Solo(c, y)), Act(2, RunNext));
    Acts(c, Solo(c, y), 2, y', [], Solo(c, y'));
  }

  /** `y` has read and run everything that was sent before its answers. */
  function Ready(c: Cast): Station {
    Reader(c, Wiped(c), 8, 4, 4)
  }

  lemma LateReadsMoves(c: Cast)
    ensures Cut(c, Solo(c, Reader(c, One(c), 4, 0, 1)), Solo(c, Reader(c, Both(c), 6, 0, 2)))
  {
    AnswerWipes(c);
    LateReads(c, One(c), Both(c), 1);
    LateSkipsOwn(c);
    CutOn(c, Solo(c, Reader(c, One(c), 4, 0, 1)), Solo(c, Reader(c, Both(c), 5, 0, 2)),
        Solo(c, Reader(c, Both(c), 6, 0, 2)));
  }

  lemma LateReadsAnswers(c: Cast)
    ensures Cut(c, Solo(c, Reader(c, Both(c), 6, 0, 2)), Solo(c, Reader(c, Wiped(c), 8, 0, 4)))
  {
    AnswerWipes(c);
    LateReads(c, Both(c), Both(c), 2);
    LateReads(c, Both(c), Wiped(c), 3);
    CutOn(c, Solo(c, Reader(c, Both(c), 6, 0, 2)), Solo(c, Reader(c, Both(c), 7, 0, 3)),
        Solo(c, Reader(c, Wiped(c), 8, 0, 4)));
  }

  lemma {:induction false} LateRuns(c: Cast, run: nat)
    requires 1 <= run <= 4
    ensures Cut(c, Solo(c, Reader(c, Wiped(c), 8, 0, 4)), Solo(c, Reader(c, Wiped(c), 8, run, 4)))
  {
    LateRunsOne(c, run - 1);
    if run > 1 {
      LateRuns(c, run - 1);
      CutOn(c, Solo(c, Reader(c, Wiped(c), 8, 0, 4)), Solo(c, Reader(c, Wiped(c), 8, run - 1, 4)),
          Solo(c, Reader(c, Wiped(c), 8, run, 4)));
    }
  }

  lemma LateReadsOn(c: Cast)
    ensures Cut(c, Solo(c, Reader(c, One(c), 4, 0, 1)), Solo(c, Ready(c)))
  {
    LateReadsMoves(c);
    LateReadsAnswers(c);
    LateRuns(c, 4);
    Shown(c, [Solo(c, Reader(c, One(c), 4, 0, 1)), Solo(c, Reader(c, Both(c), 6, 0, 2)),
              Solo(c, Reader(c, Wiped(c), 8, 0, 4)), Solo(c, Ready(c))]);
  }

  // ---------------------------------------------------------------- two holders

  /** `x` has gained its second address. */
  function Gained(c: Cast): Shot {
    Trio(10, Strongest(c), 6, Settler(c), 6, Ready(c))
  }

  lemma BothHaveHeard(c: Cast)
    ensures var b := Scene(c, Solo(c, Ready(c)));
            && HasSettledClaim(b.log, b.stations[0], 1, c.x, Next(c))
            && HasSettledClaim(b.log, b.stations[2], 1, c.x, Next(c))
            && Allowed(b, Act(1, Expire)) && Do(b, Act(1, Expire)) == Scene(c, Gained(c))
  {
    var b := Scene(c, Solo(c, Ready(c)));
    assert b.log[4] == Story(c)[4] == Entry(1, Claim(c.x, Next(c)));
    LaggardIsGranted(c);
    Expired(b, 1, Settler(c), []);
    assert b.log + Signed(1, []) == b.log;
  }

  lemma LaggardIsGranted(c: Cast)
    ensures Step(Moved(c), Expire) == Effect(Settler(c), [])
  {
  }

  /** `y` finds the second address free and claims it. */
  function Riser(c: Cast): Station {
    Ready(c).(node := Ready(c).node.(st := Claiming(Next(c)), timer := ClaimDelay), awake := true)
  }

  lemma LateIsAnswered(c: Cast)
    ensures Answered(Scene(c, Gained(c)), 2)
  {
    var b := Scene(c, Gained(c));
    assert b.log[5] == Story(c)[5] && b.log[6] == Story(c)[6] && b.log[7] == Story(c)[7];
    assert ClaimBy(b.log[7], 0, c.a) && ClaimBy(b.log[6], 1, Next(c));
    assert Repeated(b.log, 5, 8, 0, c.a) && Repeated(b.log, 5, 8, 1, Next(c));
    assert Asked(b, 2, 5) && DealtWith(b, 2, 5) && AnswersRead(b, 2, 5);
  }

  lemma LateClaims(c: Cast)
    ensures Cut(c, Gained(c), Trio(11, Strongest(c), 6, Settler(c), 6, Riser(c)))
  {
    LateIsAnswered(c);
    assert FindAddress(Wiped(c), c.y, Next(c)) == Next(c);
    assert Step(Ready(c).node, Expire) == Effect(Riser(c).node, [Claim(c.y, Next(c))]);
    Expired(Scene(c, Gained(c)), 2, Riser(c).node, [Claim(c.y, Next(c))]);
    Acts(c, Gained(c), 2, Riser(c), [Claim(c.y, Next(c))], Trio(11, Strongest(c), 6, Settler(c), 6, Riser(c)));
  }

  /** What was sent up to the claim of `y` changes neither of the others. */
  lemma NothingNew(c: Cast)
    ensures Unmoved(c, 0, Strongest(c), 6, 10) && Unmoved(c, 1, Settler(c), 6, 10)
  {
    HeardBefore(0, Strongest(c), Story(c)[6]);
    HeardBefore(1, Settler(c), Story(c)[7]);
  }

  /** Both refuse the claim of `y` in silence. */
  lemma Refusals(c: Cast)
    ensures var z, x, y := Strongest(c), Settler(c), Riser(c);
            && Cut(c, Trio(11, z, 6, x, 10, y), Trio(11, z, 6, Aware(c, x), 11, y))
            && Cut(c, Trio(11, z, 10, Aware(c, x), 11, y), Trio(11, Aware(c, z), 11, Aware(c, x), 11, y))
  {
    var z, x, y := Strongest(c), Settler(c), Riser(c);
    assert Digests(1, x, Entry(2, Claim(c.y, Next(c))), Aware(c, x), []);
    assert Digests(0, z, Entry(2, Claim(c.y, Next(c))), Aware(c, z), []);
    Reads(c, Trio(11, z, 6, x, 10, y), 1, Aware(c, x), [], Trio(11, z, 6, Aware(c, x), 11, y));
    Reads(c, Trio(11, z, 10, Aware(c, x), 11, y), 0,
        Aware(c, z), [], Trio(11, Aware(c, z), 11, Aware(c, x), 11, y));
  }

  lemma BothReadOn(c: Cast)
    ensures var z, x, y := Strongest(c), Settler(c), Riser(c);
            Cut(c, Trio(11, z, 6, x, 6, y), Trio(11, Aware(c, z), 11, Aware(c, x), 11, y))
  {
    var z, x, w, y := Strongest(c), Settler(c), Aware(c, Settler(c)), Riser(c);
    NothingNew(c);
    Idles(c, Trio(11, z, 6, x, 6, y), 1, 10, Trio(11, z, 6, x, 10, y));
    Idles(c, Trio(11, z, 6, w, 11, y), 0, 10, Trio(11, z, 10, w, 11, y));
    Refusals(c);
    Shown(c, [Trio(11, z, 6, x, 6, y), Trio(11, z, 6, x, 10, y), Trio(11, z, 6, w, 11, y), Trio(11, z, 10, w, 11, y),
              Trio(11, Aware(c, z), 11, w, 11, y)]);
  }

  lemma LateIsGranted(c: Cast) returns (n: Node)
    ensures Step(Riser(c).node, Expire) == Effect(n, []) && n.posted == Riser(c).node.posted
    ensures n.st == HasAddress(Next(c))
  {
    assert Claimable(Riser(c).node.net, Next(c), c.y);
    n := Step(Riser(c).node, Expire).node;
  }

  lemma LateHolds(c: Cast) returns (d: Bus)
    ensures Leads(Scene(c, Trio(11, Aware(c, Strongest(c)), 11, Aware(c, Settler(c)), 11, Riser(c))), d)
    ensures |d.stations| == 3 && d.stations[1].node.st == d.stations[2].node.st == HasAddress(Next(c))
  {
    var b := Scene(c, Trio(11, Aware(c, Strongest(c)), 11, Aware(c, Settler(c)), 11, Riser(c)));
    assert b.log[10] == Story(c)[10];
    assert HasSettledClaim(b.log, b.stations[0], 2, c.y, Next(c));
    assert HasSettledClaim(b.log, b.stations[1], 2, c.y, Next(c));
    var n := LateIsGranted(c);
    Expired(b, 2, n, []);
    d := Do(b, Act(2, Expire));
  }

  lemma SecondHalf(c: Cast) returns (d: Bus)
    ensures Leads(Scene(c, Gained(c)), d)
    ensures |d.stations| == 3 && d.stations[1].node.st == d.stations[2].node.st == HasAddress(Next(c))
  {
    var s := Trio(11, Aware(c, Strongest(c)), 11, Aware(c, Settler(c)), 11, Riser(c));
    LateClaims(c);
    BothReadOn(c);
    Shown(c, [Gained(c), Trio(11, Strongest(c), 6, Settler(c), 6, Riser(c)), s]);
    d := LateHolds(c);
    LeadsOn(Scene(c, Gained(c)), Scene(c, s), d);
  }

  /**
   * All waits are kept: `x` gains its address once both others, the waiting one included, have
   * settled its claim, and `y` claims once its request is dealt with and its answers are read and
   * run. But the first claim that `y` reads, in state `b`, is forestalled, and `x` and `y` come to
   * hold the same address.
   */
  lemma ForestalledClaimSharesAnAddress(c: Cast) returns (b: Bus, e: Bus, d: Bus)
    ensures Leads(Off([c.z, c.x]), b) && |b.stations| == 3 && Possible(b, Read(2))
    ensures b.stations[2].born == b.stations[2].pos == 3 && b.log[3].msg.Claim? && !Renewed(b.log, 3, 3)
    ensures Leads(Do(b, Read(2)), e) && |e.stations| == 3 && Allowed(e, Act(1, Expire))
    ensures HasSettledClaim(e.log, e.stations[0], 1, c.x, Next(c))
    ensures HasSettledClaim(e.log, e.stations[2], 1, c.x, Next(c))
    ensures Leads(Do(e, Act(1, Expire)), d)
    ensures |d.stations| == 3 && d.stations[1].node.st == d.stations[2].node.st == HasAddress(Next(c))
  {
    b := Scene(c, Solo(c, Late(Waiter(c.y, Next(c)))));
    FirstHalf(c);
    ReadsForestalled(c);
    assert b.log[3] == Story(c)[3];
    e := Scene(c, Solo(c, Ready(c)));
    LateReadsOn(c);
    BothHaveHeard(c);
    d := SecondHalf(c);
  }
}
