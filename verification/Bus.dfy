/**
 * Any number of claimers on one bus, some there from the start and some joining later. The
 * frames form one totally ordered log; every station holds a position in it up to which it has
 * read, so stations may lag arbitrarily.
 *
 * Main result (module BusUniqueness): in no reachable state do two stations hold the same
 * address. The timing assumptions are the meaning of the two waits of a claimer:
 *
 * - 250 ms: a claim timer expires only after every other station that may claim has read the
 *   claim and run the events posted up to it;
 * - 200 ms: the start delay of a station that joined late expires only after the stations on an
 *   address have dealt with its request and it has read an answer of each.
 *
 * A late station is further assumed not to read, while it waits, a claim that a stronger name
 * had forestalled before it joined. Modules BusLimits, LateStations and ForestalledClaims show
 * what happens without each of these; module QuietJoins derives the last from how stations join.
 */
module Bus {
  import opened J1939
  import opened NetworkIndex
  import opened AddressMachine
  import opened ClaimerRuns

  datatype Entry = Entry(from: nat, msg: Msg)

  /**
   * A claimer, the number of log entries it has read or missed and, for each posted event, how
   * many there were before the one that posted it. It joined at `born`. A station that was there
   * from the start is awake; one that joins later is awake once its start delay has expired.
   */
  datatype Station = Station(node: Node, pos: nat, tags: seq<nat>, born: nat, awake: bool)

  datatype Bus = Bus(stations: seq<Station>, log: seq<Entry>)

  /** Entries below this index have been read and everything they posted has been run. */
  function Settled(s: Station): nat {
    if s.tags == [] then s.pos else s.tags[0]
  }

  // ---------------------------------------------------------------- moves

  datatype Move = Read(who: nat) | Act(who: nat, input: Input) | Join(name: Name)

  function Fresh(n: nat, tag: nat): seq<nat> {
    seq(n, _ => tag)
  }

  /** The station after a step of its claimer; new posts are tagged with the current position. */
  function Advance(s: Station, i: Input): (r: Station) {
    var node := Step(s.node, i).node;
    var kept := if i.RunNext? && s.node.posted != [] && s.tags != [] then s.tags[1..] else s.tags;
    var count := |node.posted| - |kept|;
    s.(node := node, tags := kept + Fresh(if count >= 0 then count else 0, s.pos))
  }

  /** A station does not receive its own frames. */
  function ReadNext(who: nat, s: Station, e: Entry): Station {
    if e.from == who then s.(pos := s.pos + 1)
    else Advance(s, Receive(e.msg)).(pos := s.pos + 1)
  }

  predicate StartsClaiming(s: Station, i: Input) {
    i.Expire? && s.node.timer.StartDelay?
  }

  function Wake(s: Station, i: Input): Station {
    s.(awake := s.awake || StartsClaiming(s, i))
  }

  function Signed(who: nat, msgs: seq<Msg>): seq<Entry> {
    seq(|msgs|, k requires 0 <= k < |msgs| => Entry(who, msgs[k]))
  }

  predicate Possible(b: Bus, mv: Move) {
    match mv
    case Read(i) => i < |b.stations| && b.stations[i].pos < |b.log|
    case Act(i, input) => i < |b.stations| && !input.Receive?
    case Join(x) => forall i | 0 <= i < |b.stations| :: b.stations[i].node.me.rank != x.rank
  }

  function Do(b: Bus, mv: Move): Bus
    requires Possible(b, mv)
  {
    match mv
    case Read(i) =>
      b.(stations := b.stations[i := ReadNext(i, b.stations[i], b.log[b.stations[i].pos])])
    case Act(i, input) =>
      var s := b.stations[i];
      Bus(b.stations[i := Advance(Wake(s, input), input)], b.log + Signed(i, Step(s.node, input).sent))
    case Join(x) =>
      b.(stations := b.stations + [Station(Boot(x), |b.log|, [], |b.log|, false)])
  }

  function Off(names: seq<Name>): Bus {
    Bus(seq(|names|, i requires 0 <= i < |names| => Station(Boot(names[i]), 0, [], 0, true)), [])
  }

  // ---------------------------------------------------------------- claims in the log

  predicate ClaimBy(e: Entry, who: nat, a: Address) {
    e.from == who && e.msg.Claim? && e.msg.addr == a
  }

  /** Between entries `from` and `end`, station `who` claims `a`. */
  ghost predicate Repeated(log: seq<Entry>, from: nat, end: nat, who: nat, a: Address) {
    exists k :: from < k < end && k < |log| && ClaimBy(log[k], who, a)
  }

  /** A claim another station made with a stronger name. */
  predicate Rival(e: Entry, me: Name) {
    e.msg.Claim? && Stronger(e.msg.name, me)
  }

  /** From entry `from` up to entry `end` a stronger name claims `a`. */
  ghost predicate Outranked(log: seq<Entry>, from: nat, end: nat, me: Name, a: Address) {
    exists k :: from <= k < end && k < |log| && Rival(log[k], me) && log[k].msg.addr == a
  }

  /**
   * Seen by a station that joined at `born`, the claim at `m` is not forestalled: if a stronger
   * name had claimed the address before, a stronger name has also claimed it since.
   */
  ghost predicate Renewed(log: seq<Entry>, born: nat, m: nat)
    requires m < |log| && log[m].msg.Claim?
  {
    var Claim(x, a) := log[m].msg;
    Unicast(a) && Outranked(log, 0, born, x, a) ==> Outranked(log, born, m, x, a)
  }

  // ---------------------------------------------------------------- timing

  /** The station has read a claim of `a` by `who` and settled everything up to it. */
  ghost predicate HasSettledClaim(log: seq<Entry>, s: Station, who: nat, me: Name, a: Address) {
    exists k :: 0 <= k < Settled(s) && k < |log| && log[k] == Entry(who, Claim(me, a))
  }

  /** Every other station that may claim has settled a claim of `a` by `who`. */
  ghost predicate Heard(b: Bus, who: nat, a: Address)
    requires who < |b.stations|
  {
    forall j | 0 <= j < |b.stations| && j != who && b.stations[j].awake ::
      HasSettledClaim(b.log, b.stations[j], who, b.stations[who].node.me, a)
  }

  /** Entry `r` is a global request the station has sent since it joined. */
  predicate Asked(b: Bus, who: nat, r: nat)
    requires who < |b.stations|
  {
    b.stations[who].born <= r < |b.log| && b.log[r] == Entry(who, Request(NO_ADDR))
  }

  /** The other stations on an address have dealt with entry `r`. */
  ghost predicate DealtWith(b: Bus, who: nat, r: nat) {
    forall i | 0 <= i < |b.stations| && i != who && OnAddress(b.stations[i].node.st) :: r < Settled(b.stations[i])
  }

  /** Of each other station that has claimed the address it is on since `r`, such a claim was read. */
  ghost predicate AnswersRead(b: Bus, who: nat, r: nat)
    requires who < |b.stations|
  {
    forall i | 0 <= i < |b.stations| && i != who && OnAddress(b.stations[i].node.st) ::
      var a := b.stations[i].node.st.addr;
      Repeated(b.log, r, |b.log|, i, a) ==> Repeated(b.log, r, b.stations[who].pos, i, a)
  }

  ghost predicate Answered(b: Bus, who: nat)
    requires who < |b.stations|
  {
    exists r :: Asked(b, who, r) && DealtWith(b, who, r) && AnswersRead(b, who, r)
  }

  ghost predicate Allowed(b: Bus, mv: Move) {
    && Possible(b, mv)
    && match mv
       case Read(i) =>
         var s := b.stations[i];
         !s.awake && b.log[s.pos].msg.Claim? ==> Renewed(b.log, s.born, s.pos)
       case Act(i, input) =>
         var s := b.stations[i];
         && (input.Expire? && s.node.timer.ClaimDelay? && s.node.st.Claiming? ==> Heard(b, i, s.node.st.addr))
         && (!s.awake && StartsClaiming(s, input) ==> Answered(b, i))
       case Join(_) => true
  }

  /** The states reachable by any sequence of allowed moves. */
  ghost predicate Reaches(b: Bus, mvs: seq<Move>, c: Bus)
    decreases |mvs|
  {
    if mvs == [] then b == c
    else Allowed(b, mvs[0]) && Reaches(Do(b, mvs[0]), mvs[1..], c)
  }

  // ---------------------------------------------------------------- what the log keeps

  ghost predicate DistinctNames(names: seq<Name>) {
    forall i, j | 0 <= i < |names| && 0 <= j < |names| && names[i].rank == names[j].rank :: i == j
  }

  ghost predicate SignedBy(names: seq<Name>, log: seq<Entry>) {
    forall k | 0 <= k < |log| ::
      log[k].from < |names| && (log[k].msg.Claim? ==> log[k].msg.name == names[log[k].from])
  }

  /** The sender of `log[m]` claimed `log[k]` before and has changed the address since. */
  predicate Abandons(log: seq<Entry>, k: nat, m: nat)
    requires k < m < |log| && log[m].msg.Claim?
  {
    && log[k].from == log[m].from && log[k].msg.Claim?
    && Unicast(log[k].msg.addr) && log[k].msg.addr != log[m].msg.addr
  }

  /** The entry at `m` gives nothing up: addresses its sender claimed before and not here were lost. */
  ghost predicate Justified(log: seq<Entry>, m: nat)
    requires m < |log| && log[m].msg.Claim?
  {
    forall k | 0 <= k < m && Abandons(log, k, m) :: Outranked(log, 0, m, log[m].msg.name, log[k].msg.addr)
  }

  ghost predicate AllJustified(log: seq<Entry>) {
    forall m | 0 <= m < |log| && log[m].msg.Claim? :: Justified(log, m)
  }

  ghost predicate AllRenewed(log: seq<Entry>, from: nat, end: nat)
    requires end <= |log|
  {
    forall m | from <= m < end && log[m].msg.Claim? :: Renewed(log, from, m)
  }

  // ---------------------------------------------------------------- the network against the log

  ghost predicate SeenClaim(log: seq<Entry>, from: nat, end: nat, x: Name, a: Address) {
    exists k :: from <= k < end && k < |log| && log[k].msg == Claim(x, a)
  }

  /** A stronger claimant of `a` leaves a name at least as strong there. */
  ghost predicate Guarded(t: Net, e: Entry)
    requires e.msg.Claim?
  {
    e.msg.addr in t.rev && t.rev[e.msg.addr].rank <= e.msg.name.rank
  }

  /**
   * What the entries from `from` to `pos` have made of a network: other names' entries come from
   * claims, entries of stronger names are current, and every address a stronger name claimed
   * stays guarded against this station.
   */
  ghost predicate Recorded(log: seq<Entry>, from: nat, pos: nat, me: Name, t: Net)
    requires pos <= |log|
  {
    && NetInv(me, t)
    && (forall a | a in t.rev && t.rev[a] != me :: SeenClaim(log, from, pos, t.rev[a], a))
    && (forall a | a in t.rev && Stronger(t.rev[a], me) :: t.fwd[t.rev[a]] == a)
    && (forall k | from <= k < pos && Rival(log[k], me) && Unicast(log[k].msg.addr) :: Guarded(t, log[k]))
  }

  lemma RivalIsGuarded(log: seq<Entry>, from: nat, pos: nat, me: Name, t: Net, x: Name, a: Address)
    requires pos <= |log| && Recorded(log, from, pos, me, t) && x.rank <= me.rank && Unicast(a)
    ensures Outranked(log, from, pos, x, a) ==> a in t.rev && Stronger(t.rev[a], x)
  {
    if Outranked(log, from, pos, x, a) {
      var k :| from <= k < pos && k < |log| && Rival(log[k], x) && log[k].msg.addr == a;
      assert Rival(log[k], me) && Guarded(t, log[k]);
    }
  }

  /** An address that a justified claim abandons was outranked since the knowledge of the reader begins. */
  lemma AbandonedIsOutranked(log: seq<Entry>, from: nat, pos: nat, k: nat)
    requires from <= k < pos < |log| && log[pos].msg.Claim? && Justified(log, pos) && AllRenewed(log, from, pos)
    requires log[k].msg.Claim? && log[k].msg.name == log[pos].msg.name
    ensures Abandons(log, k, pos) ==> Outranked(log, from, pos, log[k].msg.name, log[k].msg.addr)
  {
    if Abandons(log, k, pos) {
      var Claim(x, a) := log[k].msg;
      var q :| 0 <= q < pos && Rival(log[q], x) && log[q].msg.addr == a;
      if q < from {
        assert Outranked(log, 0, from, x, a) && Renewed(log, from, k);
        var r :| from <= r < k && Rival(log[r], x) && log[r].msg.addr == a;
      }
    }
  }

  /** A stronger name has no other unicast address when its next justified claim is read. */
  lemma StrongerNameHasNotMoved(names: seq<Name>, log: seq<Entry>, from: nat, pos: nat, me: Name, t: Net)
    requires pos < |log| && DistinctNames(names) && SignedBy(names, log) && Recorded(log, from, pos, me, t)
    requires Rival(log[pos], me) && Justified(log, pos) && AllRenewed(log, from, pos)
    ensures var x := log[pos].msg.name;
            x in t.fwd && Unicast(t.fwd[x]) ==> t.fwd[x] == log[pos].msg.addr
  {
    var x := log[pos].msg.name;
    if x in t.fwd && Unicast(t.fwd[x]) {
      var k :| from <= k < pos && log[k].msg == Claim(x, t.fwd[x]);
      AbandonedIsOutranked(log, from, pos, k);
      RivalIsGuarded(log, from, pos, me, t, x, t.fwd[x]);
    }
  }

  lemma SeenClaimKept(log: seq<Entry>, from: nat, pos: nat, pos': nat, x: Name, a: Address)
    requires pos <= pos' && SeenClaim(log, from, pos, x, a)
    ensures SeenClaim(log, from, pos', x, a)
  {
    var k :| from <= k < pos && k < |log| && log[k].msg == Claim(x, a);
  }

  lemma ReadingSeesClaims(log: seq<Entry>, from: nat, pos: nat, me: Name, t: Net, r: Net)
    requires from <= pos < |log| && Recorded(log, from, pos, me, t) && log[pos].msg.Claim?
    requires forall b | b in r.rev :: (b in t.rev && r.rev[b] == t.rev[b]) || log[pos].msg == Claim(r.rev[b], b)
    ensures forall b | b in r.rev && r.rev[b] != me :: SeenClaim(log, from, pos + 1, r.rev[b], b)
  {
    forall b | b in r.rev && r.rev[b] != me
      ensures SeenClaim(log, from, pos + 1, r.rev[b], b)
    {
      if b in t.rev && r.rev[b] == t.rev[b] { SeenClaimKept(log, from, pos, pos + 1, t.rev[b], b); }
    }
  }

  /** Reading a justified claim leaves every stronger name's entry where it is, or stronger. */
  lemma ReadingGuards(me: Name, t: Net, x: Name, a: Address, r: Net)
    requires NetInv(me, t) && NetInv(me, r) && x.rank != me.rank && Inserted(t, x, a, r)
    requires forall b | b in t.rev && Stronger(t.rev[b], me) :: t.fwd[t.rev[b]] == b
    requires Stronger(x, me) && x in t.fwd && Unicast(t.fwd[x]) ==> t.fwd[x] == a
    ensures forall b | b in r.rev && Stronger(r.rev[b], me) :: r.fwd[r.rev[b]] == b
    ensures forall b | b in t.rev && Stronger(t.rev[b], me) :: b in r.rev && r.rev[b].rank <= t.rev[b].rank
    ensures Unicast(a) && Stronger(x, me) ==> a in r.rev && r.rev[a].rank <= x.rank
  {
  }

  /** Every address a stronger name claimed stays guarded, the one just claimed included. */
  lemma ReadingKeepsGuards(log: seq<Entry>, from: nat, pos: nat, me: Name, t: Net, r: Net)
    requires from <= pos < |log| && log[pos].msg.Claim?
    requires forall k | from <= k < pos && Rival(log[k], me) && Unicast(log[k].msg.addr) :: Guarded(t, log[k])
    requires forall b | b in t.rev && Stronger(t.rev[b], me) :: b in r.rev && r.rev[b].rank <= t.rev[b].rank
    requires Unicast(log[pos].msg.addr) && Rival(log[pos], me) ==> Guarded(r, log[pos])
    ensures forall k | from <= k < pos + 1 && Rival(log[k], me) && Unicast(log[k].msg.addr) :: Guarded(r, log[k])
  {
  }

  lemma ReadingRecords(names: seq<Name>, log: seq<Entry>, from: nat, pos: nat, me: Name, t: Net, r: Net)
    requires from <= pos < |log| && DistinctNames(names) && SignedBy(names, log) && Recorded(log, from, pos, me, t)
    requires log[pos].msg.Claim? && log[pos].msg.name.rank != me.rank
    requires Justified(log, pos) && AllRenewed(log, from, pos)
    requires Inserted(t, log[pos].msg.name, log[pos].msg.addr, r)
    ensures Recorded(log, from, pos + 1, me, r)
  {
    var Claim(x, a) := log[pos].msg;
    if Stronger(x, me) { StrongerNameHasNotMoved(names, log, from, pos, me, t); }
    InsertedForeign(me, t, x, a, r);
    ReadingGuards(me, t, x, a, r);
    ReadingKeepsGuards(log, from, pos, me, t, r);
    InsertedSees(t, x, a, r);
    ReadingSeesClaims(log, from, pos, me, t, r);
  }

  lemma InsertedSees(t: Net, x: Name, a: Address, r: Net)
    requires Indexed(t) && Inserted(t, x, a, r)
    ensures forall b | b in r.rev :: (b in t.rev && r.rev[b] == t.rev[b]) || (b == a && r.rev[b] == x)
  {
  }

  /** Claims read from weaker stations, requests and own frames change nothing that is recorded. */
  lemma SkippingRecords(log: seq<Entry>, from: nat, pos: nat, me: Name, t: Net)
    requires from <= pos < |log| && Recorded(log, from, pos, me, t) && !Rival(log[pos], me)
    ensures Recorded(log, from, pos + 1, me, t)
  {
    forall b | b in t.rev && t.rev[b] != me
      ensures SeenClaim(log, from, pos + 1, t.rev[b], b)
    {
      SeenClaimKept(log, from, pos, pos + 1, t.rev[b], b);
    }
  }

  lemma GainingRecords(log: seq<Entry>, from: nat, pos: nat, me: Name, t: Net, a: Address, r: Net)
    requires pos <= |log| && Recorded(log, from, pos, me, t)
    requires Claimable(t, a, me) && (me in t.fwd ==> !Unicast(t.fwd[me]))
    requires Inserted(t, me, a, r)
    ensures Recorded(log, from, pos, me, r)
  {
    InsertedKeepsIndex(t, me, a, r);
  }

  lemma GivingRecords(log: seq<Entry>, from: nat, pos: nat, n: Node)
    requires pos <= |log| && Core(n) && Recorded(log, from, pos, n.me, n.net)
    ensures Recorded(log, from, pos, n.me, Given(n))
  {
    GivenKeepsNetInv(n);
  }
}
