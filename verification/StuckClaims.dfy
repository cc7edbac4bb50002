/**
 * What becomes of a claim timeout that no row of the table takes. The claimer stays in the claiming
 * state without a timer, deaf to new starts, until it hears a stronger claim on its address
 * (`StalledExactly`). A fixed name that has lost its preferred address to a stronger fixed name
 * claims the global address 255, where no such claim can come, and stays there for good
 * (`StuckForever`, `StuckExactly`). A name the network has on record never gets there
 * (`RegisteredNeverStalls`).
 */
module StuckClaims {
  import opened J1939
  import opened NetworkIndex
  import opened AddressMachine
  import opened ClaimerRuns

  // ---------------------------------------------------------------- stalled on any address

  /** A claim without a timer to end it. */
  predicate Stalled(n: Node) {
    n.st.Claiming? && n.timer == Disarmed
  }

  /** The claim timer expires on an address that cannot be taken, and the name is unregistered. */
  predicate GapStep(n: Node, i: Input) {
    && i.Expire? && n.timer == ClaimDelay && n.st.Claiming?
    && !Claimable(n.net, n.st.addr, n.me) && n.me !in n.net.fwd
  }

  /** The next posted event is a claim that wins the address from this claimer. */
  predicate LossStep(n: Node, i: Input) {
    i.RunNext? && n.posted != [] && IsLoss(n, n.posted[0])
  }

  lemma StepStalls(n: Node, i: Input)
    requires Inv(n)
    ensures Stalled(Step(n, i).node) <==> GapStep(n, i) || (Stalled(n) && !LossStep(n, i))
  {
    if Fed(n, i).Some? {
      StepOutcome(n, i);
      if n.st.Claiming? { TimeoutGap(n.(timer := Disarmed)); }
    }
  }

  lemma BeforeNext(n: Node, ins: seq<Input>, k: nat)
    requires Inv(n) && AllForeign(n.me, ins) && k < |ins|
    ensures var m := Before(n, ins, k);
            Before(n, ins, k + 1) == Step(m, ins[k]).node && Inv(m) && m.me == n.me && Foreign(m.me, ins[k])
  {
    BeforeStep(n, ins, k);
    RunKeepsInv(n, ins[..k]);
  }

  /** Step `k` is the last timeout in the gap and no later step before `end` is a loss. */
  ghost predicate GapSince(n: Node, ins: seq<Input>, k: nat, end: nat) {
    && k < end <= |ins| && GapStep(Before(n, ins, k), ins[k])
    && forall j | k < j < end :: !LossStep(Before(n, ins, j), ins[j])
  }

  lemma GapGoesOn(n: Node, ins: seq<Input>, k: nat, end: nat)
    requires end < |ins|
    ensures var m := Before(n, ins, end);
            GapSince(n, ins, k, end + 1) <==>
            if k == end then GapStep(m, ins[end]) else GapSince(n, ins, k, end) && !LossStep(m, ins[end])
  {
  }

  lemma {:induction false} StalledUpTo(n: Node, ins: seq<Input>, end: nat)
    requires Inv(n) && !Stalled(n) && AllForeign(n.me, ins) && end <= |ins|
    ensures Stalled(Before(n, ins, end)) <==> exists k :: GapSince(n, ins, k, end)
  {
    if end > 0 {
      var last := end - 1;
      BeforeNext(n, ins, last);
      StepStalls(Before(n, ins, last), ins[last]);
      StalledUpTo(n, ins, last);
      GapGoesOn(n, ins, last, last);
      if k :| GapSince(n, ins, k, last) { GapGoesOn(n, ins, k, last); }
      if k :| GapSince(n, ins, k, end) { GapGoesOn(n, ins, k, last); }
    }
  }

  /** Over every run, a claimer is stalled if and only if a timeout fell into the gap and no loss came since. */
  lemma StalledExactly(n: Node, ins: seq<Input>)
    requires Inv(n) && !Stalled(n) && AllForeign(n.me, ins)
    ensures Stalled(Run(n, ins).node) <==> exists k :: GapSince(n, ins, k, |ins|)
  {
    StalledUpTo(n, ins, |ins|);
    assert ins[..|ins|] == ins;
  }

  /** Some step before `end` is one of those that `cause` describes. */
  ghost predicate Happened(n: Node, ins: seq<Input>, end: nat, cause: (Node, Input) -> bool) {
    exists k :: 0 <= k < end && k < |ins| && cause(Before(n, ins, k), ins[k])
  }

  lemma HappenedNext(n: Node, ins: seq<Input>, end: nat, cause: (Node, Input) -> bool)
    requires end < |ins|
    ensures Happened(n, ins, end + 1, cause) <==> Happened(n, ins, end, cause) || cause(Before(n, ins, end), ins[end])
  {
  }

  // ---------------------------------------------------------------- registered names

  lemma StepRegisters(n: Node, i: Input)
    requires Inv(n) && Foreign(n.me, i)
    ensures var r := Step(n, i).node;
            n.me in r.net.fwd <==> n.me in n.net.fwd || r.st.HasAddress?
  {
    StepKeepsInv(n, i);
    if Fed(n, i).Some? {
      StepOutcome(n, i);
      FedIsReady(n, i);
      GivenKeepsNetInv(Fed(n, i).value.0);
    } else if i.Receive? && i.msg.Claim? {
      InsertInserts(n.net, i.msg.name, i.msg.addr);
      InsertedForeign(n.me, n.net, i.msg.name, i.msg.addr, Step(n, i).node.net);
    }
  }

  predicate GainsAddress(n: Node, i: Input) {
    Step(n, i).node.st.HasAddress?
  }

  lemma {:induction false} RegisteredUpTo(me: Name, ins: seq<Input>, end: nat)
    requires AllForeign(me, ins) && end <= |ins|
    ensures me in Before(Boot(me), ins, end).net.fwd <==> Happened(Boot(me), ins, end, GainsAddress)
  {
    if end == 0 {
      assert ins[..0] == [];
    } else {
      BeforeNext(Boot(me), ins, end - 1);
      StepRegisters(Before(Boot(me), ins, end - 1), ins[end - 1]);
      RegisteredUpTo(me, ins, end - 1);
      HappenedNext(Boot(me), ins, end - 1, GainsAddress);
    }
  }

  /** From power-up on, a claimer is on record in its own network if and only if it has held an address. */
  lemma RegisteredExactly(me: Name, ins: seq<Input>)
    requires AllForeign(me, ins)
    ensures me in Run(Boot(me), ins).node.net.fwd <==> Happened(Boot(me), ins, |ins|, GainsAddress)
  {
    RegisteredUpTo(me, ins, |ins|);
    assert ins[..|ins|] == ins;
  }

  /** A name that the network has on record, for an address it held before, never stalls. */
  lemma {:induction false} RegisteredNeverStalls(n: Node, ins: seq<Input>)
    requires Inv(n) && !Stalled(n) && AllForeign(n.me, ins) && n.me in n.net.fwd
    ensures !Stalled(Run(n, ins).node)
    decreases |ins|
  {
    if ins != [] {
      StepStalls(n, ins[0]);
      StepKeepsInv(n, ins[0]);
      StepRegisters(n, ins[0]);
      RegisteredNeverStalls(Step(n, ins[0]).node, ins[1..]);
    }
  }

  // ---------------------------------------------------------------- stuck on address 255

  /** An event that does not move a claimer of address 255 whose timer is not running. */
  predicate Harmless(ev: Event) {
    !ev.Timeout? && (ev.AddressClaim? ==> ev.addr != NO_ADDR)
  }

  ghost predicate AllHarmless(posted: seq<Event>) {
    forall k | 0 <= k < |posted| :: Harmless(posted[k])
  }

  ghost predicate Stuck(n: Node) {
    n.st == Claiming(NO_ADDR) && n.timer == Disarmed && AllHarmless(n.posted)
  }

  /** No frame claims from the global address. */
  predicate Ordinary(i: Input) {
    i.Receive? && i.msg.Claim? ==> i.msg.addr != NO_ADDR
  }

  lemma HarmlessStays(n: Node, ev: Event)
    requires n.st == Claiming(NO_ADDR) && Harmless(ev)
    ensures var e := ProcessEvent(n, ev);
            e.node == n && (e.sent == [] || e.sent == [Claim(n.me, NO_ADDR)])
  {
  }

  lemma StepStaysStuck(n: Node, i: Input)
    requires Stuck(n) && Ordinary(i)
    ensures var e := Step(n, i);
            Stuck(e.node) && e.node.me == n.me && (e.sent == [] || e.sent == [Claim(n.me, NO_ADDR)])
  {
    if i.RunNext? && n.posted != [] {
      HarmlessStays(n.(posted := n.posted[1..]), n.posted[0]);
      assert forall k | 0 <= k < |n.posted| - 1 :: n.posted[1..][k] == n.posted[k + 1];
    }
  }

  /** Whatever frames, events, expiries and starts follow, the claimer stays on address 255. */
  lemma {:induction false} StuckForever(n: Node, ins: seq<Input>)
    requires Stuck(n) && forall k | 0 <= k < |ins| :: Ordinary(ins[k])
    ensures var e := Run(n, ins);
            && Stuck(e.node) && e.node.me == n.me
            && forall k | 0 <= k < |e.sent| :: e.sent[k] == Claim(n.me, NO_ADDR)
    decreases |ins|
  {
    if ins != [] {
      StepStaysStuck(n, ins[0]);
      StuckForever(Step(n, ins[0]).node, ins[1..]);
    }
  }

  /** The preferred address is on record for a stronger name that is fixed as well. */
  predicate Blocked(t: Net, me: Name, p: Address) {
    !me.selfConfig && p in t.rev && !t.rev[p].selfConfig && Stronger(t.rev[p], me)
  }

  lemma SearchFailsIfBlocked(t: Net, me: Name, p: Address)
    requires Indexed(t) && !Full(t)
    ensures FindAddress(t, me, p) == NO_ADDR <==> Blocked(t, me, Clamp(p))
  {
    if me.selfConfig {
      SearchSucceedsUnlessFull(t, me, p);
    } else {
      FindAddressOfFixedName(t, me, p);
    }
  }

  /** A claimer of address 255 that its network does not know. */
  predicate OnGlobal(n: Node) {
    n.st == Claiming(NO_ADDR) && n.me !in n.net.fwd
  }

  /** The step starts a search, at start or after a loss, that is blocked; the name is unregistered. */
  predicate BlockedBegin(n: Node, i: Input) {
    && Fed(n, i).Some?
    && var (m, ev) := Fed(n, i).value;
       && ((ev.StartClaim? && m.st.NoAddress?) || IsLoss(m, ev)) && !Full(m.net)
       && m.me !in m.net.fwd && Blocked(m.net, m.me, Clamp(From(m, ev)))
  }

  lemma StepPostsHarmless(n: Node, i: Input)
    requires AllHarmless(n.posted) && Ordinary(i)
    ensures AllHarmless(Step(n, i).node.posted)
  {
    if Fed(n, i).Some? {
      StepOutcome(n, i);
      assert forall k | 0 <= k < |n.posted| - 1 :: n.posted[1..][k] == n.posted[k + 1];
    }
  }

  lemma EventGoesGlobal(m: Node, ev: Event)
    requires Core(m) && !(ev.AddressClaim? && ev.addr == NO_ADDR) && ProcessEvent(m, ev).node.me !in m.net.fwd
    ensures ProcessEvent(m, ev).node.st == Claiming(NO_ADDR) <==>
            || m.st == Claiming(NO_ADDR)
            || (&& ((ev.StartClaim? && m.st.NoAddress?) || IsLoss(m, ev)) && !Full(m.net)
                && Blocked(m.net, m.me, Clamp(From(m, ev))))
  {
    EventOutcome(m, ev);
    if !Full(m.net) { SearchFailsIfBlocked(m.net, m.me, From(m, ev)); }
  }

  lemma StepGoesGlobal(n: Node, i: Input)
    requires Inv(n) && Foreign(n.me, i) && AllHarmless(n.posted) && Ordinary(i)
    ensures OnGlobal(Step(n, i).node) <==> OnGlobal(n) || BlockedBegin(n, i)
  {
    StepRegisters(n, i);
    StepKeepsInv(n, i);
    if Fed(n, i).Some? && n.me !in n.net.fwd {
      FedIsReady(n, i);
      EventOutcome(Fed(n, i).value.0, Fed(n, i).value.1);
      EventGoesGlobal(Fed(n, i).value.0, Fed(n, i).value.1);
    }
  }

  lemma StepSticks(n: Node, i: Input)
    requires Inv(n) && Foreign(n.me, i) && AllHarmless(n.posted) && Ordinary(i) && (Stuck(n) ==> OnGlobal(n))
    ensures var r := Step(n, i).node;
            && (Stuck(r) ==> OnGlobal(r))
            && (Stuck(r) <==> Stuck(n) || (GapStep(n, i) && n.st == Claiming(NO_ADDR)))
            && (Stuck(r) <==> Stuck(n) || (OnGlobal(n) && i.Expire?))
  {
    StepStalls(n, i);
    StepGoesGlobal(n, i);
    StepPostsHarmless(n, i);
    StepRegisters(n, i);
  }

  ghost predicate AllOrdinary(ins: seq<Input>) {
    forall k | 0 <= k < |ins| :: Ordinary(ins[k])
  }

  /** The claim timer expires on address 255 and the name is unregistered. */
  predicate GlobalGap(n: Node, i: Input) {
    GapStep(n, i) && n.st == Claiming(NO_ADDR)
  }

  predicate ExpiresOnGlobal(n: Node, i: Input) {
    OnGlobal(n) && i.Expire?
  }

  lemma {:induction false} StuckUpTo(n: Node, ins: seq<Input>, end: nat)
    requires Inv(n) && AllForeign(n.me, ins) && AllOrdinary(ins) && end <= |ins|
    requires AllHarmless(n.posted) && n.st != Claiming(NO_ADDR)
    ensures var r := Before(n, ins, end);
            && AllHarmless(r.posted) && (Stuck(r) ==> OnGlobal(r))
            && (OnGlobal(r) <==> Happened(n, ins, end, BlockedBegin))
            && (Stuck(r) <==> Happened(n, ins, end, ExpiresOnGlobal))
            && (Stuck(r) <==> Happened(n, ins, end, GlobalGap))
  {
    if end == 0 {
      assert ins[..0] == [];
    } else {
      var m := Before(n, ins, end - 1);
      StuckUpTo(n, ins, end - 1);
      BeforeNext(n, ins, end - 1);
      StepPostsHarmless(m, ins[end - 1]);
      StepGoesGlobal(m, ins[end - 1]);
      StepSticks(m, ins[end - 1]);
      HappenedNext(n, ins, end - 1, BlockedBegin);
      HappenedNext(n, ins, end - 1, ExpiresOnGlobal);
      HappenedNext(n, ins, end - 1, GlobalGap);
    }
  }

  /** A timer expires at step `j`, after a blocked search. */
  ghost predicate ExpiresAfterBlock(n: Node, ins: seq<Input>, j: nat) {
    j < |ins| && ins[j].Expire? && Happened(n, ins, j, BlockedBegin)
  }

  /**
   * Over every schedule of foreign and ordinary inputs a claimer ends stuck if and only if, while
   * its name was unregistered, a search at its start or after a loss was blocked by a stronger
   * fixed name, and a timer expired later; equivalently, if and only if a claim timeout found it
   * unregistered on address 255.
   */
  lemma StuckExactly(n: Node, ins: seq<Input>)
    requires Inv(n) && AllForeign(n.me, ins) && AllOrdinary(ins)
    requires AllHarmless(n.posted) && n.st != Claiming(NO_ADDR)
    ensures Stuck(Run(n, ins).node) <==> exists j :: ExpiresAfterBlock(n, ins, j)
    ensures Stuck(Run(n, ins).node) <==> Happened(n, ins, |ins|, GlobalGap)
  {
    StuckUpTo(n, ins, |ins|);
    assert ins[..|ins|] == ins;
    forall j | 0 <= j < |ins| ensures ExpiresOnGlobal(Before(n, ins, j), ins[j]) <==> ExpiresAfterBlock(n, ins, j) {
      StuckUpTo(n, ins, j);
    }
  }

  lemma TimeoutSticksExactly(n: Node)
    requires n.st.Claiming? && n.timer == ClaimDelay && (n.me in n.net.fwd ==> n.net.fwd[n.me] == IDLE_ADDR)
    ensures var r := Step(n, Expire).node;
            && (r.st == Claiming(NO_ADDR) <==> n.st.addr == NO_ADDR && n.me !in n.net.fwd)
            && (r.st == Claiming(NO_ADDR) && AllHarmless(n.posted) ==> Stuck(r))
  {
  }

  /** The loss of an address, followed by the timer, leaves the claimer on 255 exactly if it is blocked. */
  lemma LostClaimSticksExactly(n: Node, ev: Event)
    requires Core(n) && IsLoss(n, ev) && !Full(n.net)
    ensures var r := Step(ProcessEvent(n, ev).node, Expire).node;
            && (r.st == Claiming(NO_ADDR) <==> Blocked(n.net, n.me, Clamp(n.st.addr)) && n.me !in n.net.fwd)
            && (r.st == Claiming(NO_ADDR) && AllHarmless(n.posted) ==> Stuck(r))
  {
    EventOutcome(n, ev);
    GivenKeepsNetInv(n);
    SearchFailsIfBlocked(n.net, n.me, n.st.addr);
    TimeoutSticksExactly(ProcessEvent(n, ev).node);
  }

  /** The same for a start whose two delays expire with nothing in between. */
  lemma UndisturbedStartSticksExactly(n: Node, p: Address)
    requires Core(n) && n.st.NoAddress? && n.timer == StartDelay(p) && !Full(n.net)
    ensures var r := Step(Step(n, Expire).node, Expire).node;
            && (r.st == Claiming(NO_ADDR) <==> Blocked(n.net, n.me, Clamp(p)) && n.me !in n.net.fwd)
            && (r.st == Claiming(NO_ADDR) && AllHarmless(n.posted) ==> Stuck(r))
  {
    SearchFailsIfBlocked(n.net, n.me, p);
    TimeoutSticksExactly(Step(n, Expire).node);
  }

  // ---------------------------------------------------------------- runs that get there

  /** A run that begins with the step `i` from `n` to `m`. */
  lemma Then(n: Node, i: Input, m: Node, out: seq<Msg>, rest: seq<Input>, r: Node, sent: seq<Msg>)
    requires Step(n, i) == Effect(m, out) && Run(m, rest) == Effect(r, sent)
    ensures Run(n, [i] + rest) == Effect(r, out + sent)
  {
    assert ([i] + rest)[1..] == rest;
  }

  /** The claimer once its network knows of `p` as the address of `x`. */
  function Told(y: Name, x: Name, p: Address): Node {
    Boot(y).(net := Net(map[x := p], map[p := x]))
  }

  lemma HearsOfHolder(x: Name, y: Name, p: Address)
    requires Stronger(x, y) && Unicast(p)
    ensures var told := Told(y, x, p).(posted := [AddressClaim(x, p)]);
            && Step(Boot(y), Receive(Claim(x, p))) == Effect(told, [])
            && Step(told, RunNext) == Effect(Told(y, x, p), [])
  {
  }

  lemma StartAsks(t: Node, p: Address)
    requires t.st.NoAddress? && t.posted == [] && !Full(t.net)
    ensures var n := t.(posted := [Restart], timer := StartDelay(p));
            && Step(t, Start(p)) == Effect(n, [])
            && Step(n, RunNext) == Effect(t.(timer := StartDelay(p)), [Request(NO_ADDR)])
  {
  }

  /** A claimer that is started and left alone until its start delay has expired. */
  lemma StartedRun(t: Node, p: Address, rest: seq<Input>, r: Node, sent: seq<Msg>)
    requires t.st.NoAddress? && t.posted == [] && t.timer == Disarmed && !Full(t.net)
    requires var a := FindAddress(t.net, t.me, p);
             Run(t.(st := Claiming(a), timer := ClaimDelay), rest) == Effect(r, sent)
    ensures var a := FindAddress(t.net, t.me, p);
            Run(t, [Start(p)] + ([RunNext] + ([Expire] + rest))) ==
            Effect(r, [] + ([Request(NO_ADDR)] + ([Claim(t.me, a)] + sent)))
  {
    var a := FindAddress(t.net, t.me, p);
    var asking, waiting := t.(posted := [Restart], timer := StartDelay(p)), t.(timer := StartDelay(p));
    StartAsks(t, p);
    Then(waiting, Expire, t.(st := Claiming(a), timer := ClaimDelay), [Claim(t.me, a)], rest, r, sent);
    Then(asking, RunNext, waiting, [Request(NO_ADDR)], [Expire] + rest, r, [Claim(t.me, a)] + sent);
    Then(t, Start(p), asking, [], [RunNext] + ([Expire] + rest), r, [Request(NO_ADDR)] + ([Claim(t.me, a)] + sent));
  }

  lemma TimeoutIsIgnored(n: Node)
    requires GapStep(n, Expire)
    ensures Run(n, [Expire]) == Effect(n.(timer := Disarmed), [])
  {
    assert [Expire][1..] == [];
  }

  /**
   * From power-up, one claim before the start is enough: a fixed name ends stuck on 255 if the
   * stronger claimant is fixed too, and stalls on the preferred address if it is not.
   */
  lemma StuckIsReached(x: Name, y: Name, p: Address)
    requires Stronger(x, y) && !y.selfConfig && Unicast(p)
    ensures var a := if x.selfConfig then p else NO_ADDR;
            var e := Run(Boot(y), [Receive(Claim(x, p)), RunNext, Start(p), RunNext, Expire, Expire]);
            && e.sent == [Request(NO_ADDR), Claim(y, a)] && Stalled(e.node) && e.node.st.addr == a
            && e.node.posted == [] && (!x.selfConfig ==> Stuck(e.node))
  {
    var t, r := Told(y, x, p), [Start(p)] + ([RunNext] + ([Expire] + [Expire]));
    var a := FindAddress(t.net, y, p);
    var n := t.(st := Claiming(a), timer := ClaimDelay);
    var sent := [] + ([Request(NO_ADDR)] + ([Claim(y, a)] + []));
    TimeoutIsIgnored(n);
    StartedRun(t, p, [Expire], n.(timer := Disarmed), []);
    HearsOfHolder(x, y, p);
    var told := t.(posted := [AddressClaim(x, p)]);
    Then(told, RunNext, t, [], r, n.(timer := Disarmed), sent);
    Then(Boot(y), Receive(Claim(x, p)), told, [], [RunNext] + r, n.(timer := Disarmed), [] + sent);
    assert [Receive(Claim(x, p))] + ([RunNext] + r)
        == [Receive(Claim(x, p)), RunNext, Start(p), RunNext, Expire, Expire];
  }

  lemma LosesToFixed(x: Name, y: Name, p: Address)
    requires Stronger(x, y) && !x.selfConfig && !y.selfConfig && Unicast(p)
    ensures var n := Boot(y).(st := Claiming(p), timer := ClaimDelay);
            var t := n.(net := Told(y, x, p).net);
            var told := t.(posted := [AddressClaim(x, p)]);
            && Step(n, Receive(Claim(x, p))) == Effect(told, [])
            && Step(told, RunNext) == Effect(t.(st := Claiming(NO_ADDR)), [Claim(y, NO_ADDR)])
  {
    assert FindAddress(Told(y, x, p).net, y, p) == NO_ADDR;
  }

  /** Ordinary contention does the same: two fixed names, an empty network, and the weaker one claims first. */
  lemma ContentionGetsStuck(x: Name, y: Name, p: Address)
    requires Stronger(x, y) && !x.selfConfig && !y.selfConfig && Unicast(p)
    ensures var e := Run(Boot(y), [Start(p), RunNext, Expire, Receive(Claim(x, p)), RunNext, Expire]);
            && e.sent == [Request(NO_ADDR), Claim(y, p), Claim(y, NO_ADDR)]
            && Stuck(e.node) && e.node.posted == []
  {
    var n := Boot(y).(st := Claiming(p), timer := ClaimDelay);
    var t := n.(net := Told(y, x, p).net);
    var told, g := t.(posted := [AddressClaim(x, p)]), t.(st := Claiming(NO_ADDR));
    var r := g.(timer := Disarmed);
    TimeoutIsIgnored(g);
    LosesToFixed(x, y, p);
    Then(told, RunNext, g, [Claim(y, NO_ADDR)], [Expire], r, []);
    var rest := [Receive(Claim(x, p))] + ([RunNext] + [Expire]);
    Then(n, Receive(Claim(x, p)), told, [], [RunNext] + [Expire], r, [Claim(y, NO_ADDR)] + []);
    StartedRun(Boot(y), p, rest, r, [] + ([Claim(y, NO_ADDR)] + []));
    assert [Start(p)] + ([RunNext] + ([Expire] + rest))
        == [Start(p), RunNext, Expire, Receive(Claim(x, p)), RunNext, Expire];
  }
}
