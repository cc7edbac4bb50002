/**
 * What one claimer keeps over every run: its machine and its network agree on the address it
 * holds, and a self-configurable name never claims outside the unicast range.
 *
 * Runs interleave received frames, posted events, timer expiries and application calls freely;
 * in particular other inputs may come between a claim's insert and its posted event. The one
 * hypothesis is that no received frame carries the claimer's own NAME.
 */
module ClaimerRuns {
  import opened J1939
  import opened NetworkIndex
  import opened AddressMachine

  ghost predicate Foreign(me: Name, i: Input) {
    i.Receive? && i.msg.Claim? ==> i.msg.name.rank != me.rank
  }

  ghost predicate AllForeign(me: Name, ins: seq<Input>) {
    forall k | 0 <= k < |ins| :: Foreign(me, ins[k])
  }

  /** The network pairs the name and the address in both directions. */
  predicate Paired(t: Net, n: Name, a: Address) {
    n in t.fwd && t.fwd[n] == a && a in t.rev && t.rev[a] == n
  }

  predicate StrongerClaim(ev: Event, n: Node, a: Address) {
    ev.AddressClaim? && ev.addr == a && Stronger(ev.name, n.me)
  }

  /** A stronger claim on the held address has been inserted but not yet shown to the machine. */
  ghost predicate Challenged(n: Node) {
    n.st.HasAddress? && exists i :: 0 <= i < |n.posted| && StrongerClaim(n.posted[i], n, n.st.addr)
  }

  ghost predicate NetInv(me: Name, t: Net) {
    && Indexed(t)
    && (forall x | x in t.fwd :: x.rank == me.rank ==> x == me)
    && (forall a | a in t.rev && t.rev[a] == me :: t.fwd[me] == a)
  }

  ghost predicate TimerInv(n: Node) {
    match n.timer
    case Disarmed => true
    case ClaimDelay => n.st.Claiming?
    case _ => n.st.NoAddress? || n.st.AddressLost?
  }

  /** The invariant apart from what a lost pairing must leave in the queue. */
  ghost predicate Core(n: Node) {
    && NetInv(n.me, n.net)
    && TimerInv(n)
    && (n.me in n.net.fwd && Unicast(n.net.fwd[n.me]) ==> n.st == HasAddress(n.net.fwd[n.me]))
    && (n.st.HasAddress? ==> Unicast(n.st.addr) && n.me in n.net.fwd)
    && (forall i | 0 <= i < |n.posted| :: PostedOk(n.me, n.posted[i]))
  }

  /** Starts and timeouts come from the timer and are never posted. */
  ghost predicate PostedOk(me: Name, ev: Event) {
    && !ev.StartClaim? && !ev.Timeout?
    && (ev.AddressClaim? ==> ev.name.rank != me.rank)
  }

  ghost predicate Displaced(n: Node) {
    n.st.HasAddress? && !(n.me in n.net.fwd && n.net.fwd[n.me] == n.st.addr)
  }

  ghost predicate Inv(n: Node) {
    Core(n) && (Displaced(n) ==> Challenged(n))
  }

  // ---------------------------------------------------------------- preservation

  lemma InsertedForeign(me: Name, t: Net, x: Name, a: Address, r: Net)
    requires NetInv(me, t) && x.rank != me.rank && Inserted(t, x, a, r)
    ensures NetInv(me, r)
    ensures me in r.fwd <==> me in t.fwd
    ensures me in t.fwd && r.fwd[me] != t.fwd[me] ==>
              r.fwd[me] == IDLE_ADDR && t.fwd[me] == a && Stronger(x, me) && Accepts(t, x, a)
  {
    InsertedKeepsIndex(t, x, a, r);
  }

  lemma ReceiveKeepsInv(n: Node, x: Name, a: Address)
    requires Inv(n) && x.rank != n.me.rank
    ensures Inv(ProcessClaim(n, x, a))
  {
    var r := ProcessClaim(n, x, a);
    InsertInserts(n.net, x, a);
    InsertedForeign(n.me, n.net, x, a, r.net);
    PostedKept(n, r);
    if n.st.HasAddress? && r.net.fwd[n.me] != n.st.addr && n.net.fwd[n.me] == n.st.addr {
      assert StrongerClaim(r.posted[|n.posted|], r, r.st.addr);
    }
  }

  /** Appending to the queue keeps a challenge pending. */
  lemma PostedKept(n: Node, r: Node)
    requires n.me == r.me && n.st == r.st && n.posted <= r.posted
    ensures Challenged(n) ==> Challenged(r)
  {
    if Challenged(n) {
      var i :| 0 <= i < |n.posted| && StrongerClaim(n.posted[i], n, n.st.addr);
      assert StrongerClaim(r.posted[i], r, r.st.addr);
    }
  }

  /** Claiming an address the network grants pairs it with the name and keeps everyone else apart. */
  lemma ClaimOwnKeepsNetInv(me: Name, t: Net, a: Address)
    requires NetInv(me, t) && Claimable(t, a, me)
    requires me in t.fwd ==> !Unicast(t.fwd[me])
    ensures NetInv(me, Insert(t, me, a)) && Paired(Insert(t, me, a), me, a)
  {
    InsertInserts(t, me, a);
    InsertedKeepsIndex(t, me, a, Insert(t, me, a));
  }

  /** Leaving the has-address state releases the name and touches no other entry. */
  lemma GivenKeepsNetInv(n: Node)
    requires Core(n)
    ensures var t := Given(n);
            && NetInv(n.me, t)
            && (n.me in t.fwd ==> t.fwd[n.me] == IDLE_ADDR)
            && (n.me in t.fwd <==> n.me in n.net.fwd)
            && (forall x | x != n.me :: GetAddress(t, x) == GetAddress(n.net, x))
            && (forall a: Address :: a in t.rev <==> a in n.net.rev && n.net.rev[a] != n.me)
            && (forall a | a in t.rev :: t.rev[a] == n.net.rev[a])
  {
  }

  /** What holds when an event reaches the machine: the queue may owe its challenge to this event. */
  ghost predicate Ready(n: Node, ev: Event) {
    && Core(n)
    && (Displaced(n) ==> Challenged(n) || StrongerClaim(ev, n, n.st.addr))
    && (ev.AddressClaim? ==> ev.name.rank != n.me.rank)
    && (ev.StartClaim? || ev.Timeout? ==> n.timer == Disarmed)
  }

  lemma OutcomeKeepsInv(n: Node, ev: Event, e: Effect)
    requires Ready(n, ev) && Outcome(n, ev, e)
    ensures Inv(e.node)
  {
    if Gains(n, ev, e.node) {
      ClaimOwnKeepsNetInv(n.me, n.net, n.st.addr);
    } else if !StaysPut(n, ev, e.node) {
      GivenKeepsNetInv(n);
    }
  }

  /** Taking the head off the queue loses no challenge but the head itself. */
  lemma PopIsReady(n: Node)
    requires Inv(n) && n.posted != []
    ensures Ready(n.(posted := n.posted[1..]), n.posted[0])
  {
    var m := n.(posted := n.posted[1..]);
    assert forall i | 0 <= i < |m.posted| :: m.posted[i] == n.posted[i + 1];
    if Displaced(n) {
      var i :| 0 <= i < |n.posted| && StrongerClaim(n.posted[i], n, n.st.addr);
      if i > 0 { assert StrongerClaim(m.posted[i - 1], m, m.st.addr); }
    }
  }

  lemma FedIsReady(n: Node, i: Input)
    requires Inv(n) && Fed(n, i).Some?
    ensures Ready(Fed(n, i).value.0, Fed(n, i).value.1)
  {
    if i.RunNext? { PopIsReady(n); }
  }

  lemma StepKeepsInv(n: Node, i: Input)
    requires Inv(n) && Foreign(n.me, i)
    ensures Inv(Step(n, i).node) && Step(n, i).node.me == n.me
  {
    if Fed(n, i).Some? {
      var (m, ev) := Fed(n, i).value;
      FedIsReady(n, i);
      StepOutcome(n, i);
      OutcomeKeepsInv(m, ev, Step(n, i));
    } else {
      match i
      case Receive(Claim(x, a)) => ReceiveKeepsInv(n, x, a);
      case Receive(Request(d)) => PostedKept(n, Post(n, AddressRequest(d)));
      case Start(p) => PostedKept(n, StartAddressClaim(n, p));
      case _ =>
    }
  }

  lemma {:induction false} RunKeepsInv(n: Node, ins: seq<Input>)
    requires Inv(n) && AllForeign(n.me, ins)
    ensures Inv(Run(n, ins).node) && Run(n, ins).node.me == n.me
    decreases |ins|
  {
    if ins != [] {
      StepKeepsInv(n, ins[0]);
      RunKeepsInv(Step(n, ins[0]).node, ins[1..]);
    }
  }

  // ---------------------------------------------------------------- main results

  /**
   * In every reachable state a pairing in the network means that the machine holds the address;
   * the machine holds an address that is paired unless a stronger claim on it waits in the queue;
   * so with an empty queue the two agree exactly.
   */
  lemma MachineAgreesWithNetwork(me: Name, ins: seq<Input>)
    requires AllForeign(me, ins)
    ensures var n := Run(Boot(me), ins).node;
            && (forall a | Unicast(a) && Paired(n.net, me, a) :: n.st == HasAddress(a))
            && (n.st.HasAddress? && !Challenged(n) ==> Unicast(n.st.addr) && Paired(n.net, me, n.st.addr))
            && (n.posted == [] ==> forall a :: n.st == HasAddress(a) <==> Unicast(a) && Paired(n.net, me, a))
  {
    RunKeepsInv(Boot(me), ins);
  }

  /** Running a posted event, a lost address included, leaves every other name's entries alone. */
  lemma LosingKeepsOthers(n: Node, x: Name)
    requires Inv(n) && x != n.me
    ensures var r := RunPosted(n).node;
            && GetAddress(r.net, x) == GetAddress(n.net, x)
            && forall a: Address :: (a in r.net.rev && r.net.rev[a] == x) <==> (a in n.net.rev && n.net.rev[a] == x)
  {
    if n.posted != [] {
      PopIsReady(n);
      StepOutcome(n, RunNext);
      GivenKeepsNetInv(n.(posted := n.posted[1..]));
    }
  }

  /** The networks agree but for a foreign name that only the second one has registered, as idle. */
  ghost predicate AlikeNets(me: Name, x: Name, t: Net, u: Net) {
    u.rev == t.rev && x != me && (u == t || (x !in t.fwd && u.fwd == t.fwd[x := IDLE_ADDR]))
  }

  ghost predicate Alike(x: Name, n: Node, m: Node) {
    m == n.(net := m.net) && Indexed(n.net) && AlikeNets(n.me, x, n.net, m.net)
  }

  lemma {:induction false} SearchAlike(t: Net, u: Net, n: Name, start: Address, end: Address)
    requires u.rev == t.rev
    ensures Search(u, n, start, end) == Search(t, n, start, end)
    decreases end - start
  {
    if start < end && !Usable(t, n, start) { SearchAlike(t, u, n, start + 1, end); }
  }

  lemma FindAlike(t: Net, u: Net, n: Name, preferred: Address)
    requires u.rev == t.rev
    ensures FindAddress(u, n, preferred) == FindAddress(t, n, preferred)
  {
    SearchAlike(t, u, n, Clamp(preferred), IDLE_ADDR);
    SearchAlike(t, u, n, 0, Clamp(preferred));
  }

  lemma SetIdleAlike(me: Name, x: Name, t: Net, u: Net, y: Name)
    requires AlikeNets(me, x, t, u) && y in t.fwd
    ensures AlikeNets(me, x, SetIdle(t, y), SetIdle(u, y))
  {
    if u != t {
      assert u.fwd[y] == t.fwd[y];
      assert t.fwd[x := IDLE_ADDR][y := IDLE_ADDR] == t.fwd[y := IDLE_ADDR][x := IDLE_ADDR];
    }
  }

  lemma EnsureAlike(me: Name, x: Name, t: Net, u: Net)
    requires AlikeNets(me, x, t, u)
    ensures AlikeNets(me, x, Ensure(t, me), Ensure(u, me))
  {
    assert t.fwd[x := IDLE_ADDR][me := IDLE_ADDR] == t.fwd[me := IDLE_ADDR][x := IDLE_ADDR];
  }

  lemma PairAlike(me: Name, x: Name, t: Net, u: Net, a: Address)
    requires AlikeNets(me, x, t, u)
    ensures AlikeNets(me, x, Net(t.fwd[me := a], t.rev[a := me]), Net(u.fwd[me := a], u.rev[a := me]))
  {
    assert t.fwd[x := IDLE_ADDR][me := a] == t.fwd[me := a][x := IDLE_ADDR];
  }

  lemma InsertAlike(me: Name, x: Name, t: Net, u: Net, a: Address)
    requires Indexed(t) && AlikeNets(me, x, t, u)
    ensures AlikeNets(me, x, Insert(t, me, a), Insert(u, me, a))
  {
    EnsureAlike(me, x, t, u);
    if !Unicast(a) {
      if me in t.fwd { SetIdleAlike(me, x, t, u, me); }
    } else if Accepts(t, me, a) {
      var t1, u1 := Ensure(t, me), Ensure(u, me);
      if a in t.rev && t.rev[a] != me {
        SetIdleAlike(me, x, t1, u1, t.rev[a]);
        PairAlike(me, x, SetIdle(t1, t.rev[a]), SetIdle(u1, t.rev[a]), a);
      } else {
        PairAlike(me, x, t1, u1, a);
      }
    }
  }

  lemma ReleaseAlike(me: Name, x: Name, t: Net, u: Net)
    requires AlikeNets(me, x, t, u)
    ensures AlikeNets(me, x, Release(t, me), Release(u, me))
  {
    assert u != t ==> Release(u, me).fwd == Release(t, me).fwd[x := IDLE_ADDR] || me !in t.fwd;
  }

  lemma EnabledAlike(x: Name, n: Node, m: Node, ev: Event, r: Row)
    requires Alike(x, n, m)
    ensures Enabled(r, m, ev) <==> Enabled(r, n, ev)
  {
  }

  lemma SelectAlike(x: Name, n: Node, m: Node, ev: Event)
    requires Alike(x, n, m)
    ensures Select(m, ev) == Select(n, ev)
  {
    if Select(n, ev).Some? {
      EnabledAlike(x, n, m, ev, Select(n, ev).value);
      RowsAreExclusive(n, ev, Select(n, ev).value);
      RowsAreExclusive(m, ev, Select(n, ev).value);
    } else if Select(m, ev).Some? {
      EnabledAlike(x, n, m, ev, Select(m, ev).value);
      RowsAreExclusive(n, ev, Select(m, ev).value);
      RowsAreExclusive(m, ev, Select(m, ev).value);
    }
  }

  lemma FireAlike(x: Name, n: Node, m: Node, ev: Event, r: Row)
    requires Alike(x, n, m) && Enabled(r, n, ev) && Enabled(r, m, ev)
    ensures Fire(r, m, ev).sent == Fire(r, n, ev).sent
    ensures var p, q := Fire(r, n, ev).node, Fire(r, m, ev).node;
            q == p.(net := q.net) && AlikeNets(n.me, x, p.net, q.net)
  {
    ReleaseAlike(n.me, x, n.net, m.net);
    if n.st.Claiming? {
      InsertAlike(n.me, x, n.net, m.net, n.st.addr);
      FindAlike(n.net, m.net, n.me, n.st.addr);
    } else if n.st.HasAddress? {
      FindAlike(Release(n.net, n.me), Release(m.net, n.me), n.me, n.st.addr);
    } else {
      FindAlike(n.net, m.net, n.me, if ev.StartClaim? then ev.pref else 0);
    }
  }

  lemma FireIndexed(n: Node, ev: Event, r: Row)
    requires Indexed(n.net) && Enabled(r, n, ev)
    ensures Indexed(Fire(r, n, ev).node.net)
  {
    if n.st.Claiming? { InsertKeepsIndex(n.net, n.me, n.st.addr); }
  }

  lemma EventAlike(x: Name, n: Node, m: Node, ev: Event)
    requires Alike(x, n, m)
    ensures ProcessEvent(m, ev).sent == ProcessEvent(n, ev).sent
    ensures Alike(x, ProcessEvent(n, ev).node, ProcessEvent(m, ev).node)
  {
    SelectAlike(x, n, m, ev);
    if Select(n, ev).Some? {
      var r := Select(n, ev).value;
      RowsAreExclusive(n, ev, r);
      RowsAreExclusive(m, ev, r);
      FireAlike(x, n, m, ev, r);
      FireIndexed(n, ev, r);
    }
  }

  lemma StepAlike(x: Name, n: Node, m: Node, i: Input)
    requires Alike(x, n, m) && !i.Receive?
    ensures Step(m, i).sent == Step(n, i).sent && Alike(x, Step(n, i).node, Step(m, i).node)
  {
    if Fed(n, i).Some? {
      var (p, ev) := Fed(n, i).value;
      EventAlike(x, p, Fed(m, i).value.0, ev);
    }
  }

  lemma {:induction false} RunAlike(x: Name, n: Node, m: Node, ins: seq<Input>)
    requires Alike(x, n, m) && forall k | 0 <= k < |ins| :: !ins[k].Receive?
    ensures Run(m, ins).sent == Run(n, ins).sent
    decreases |ins|
  {
    if ins != [] {
      StepAlike(x, n, m, ins[0]);
      RunAlike(x, Step(n, ins[0]).node, Step(m, ins[0]).node, ins[1..]);
    }
  }

  /**
   * A holder whose pairing stands hears of a contested claim exactly when the claimant is
   * stronger. A weaker one is refused by the network and gets no answer: until the next frame
   * arrives the holder sends exactly what it would have sent without that claim.
   */
  lemma HolderHearsOnlyStrongerClaims(n: Node, x: Name, ins: seq<Input>)
    requires Inv(n) && n.st.HasAddress? && !Challenged(n) && x.rank != n.me.rank
    requires forall k | 0 <= k < |ins| :: !ins[k].Receive?
    ensures var r := Step(n, Receive(Claim(x, n.st.addr))).node;
            && (Challenged(r) <==> Stronger(x, n.me))
            && (!Stronger(x, n.me) ==> r.posted == n.posted && Run(r, ins).sent == Run(n, ins).sent)
  {
    var r := Step(n, Receive(Claim(x, n.st.addr))).node;
    if Stronger(x, n.me) {
      assert StrongerClaim(r.posted[|n.posted|], r, r.st.addr);
    } else {
      RunAlike(x, n, r, ins);
    }
  }

  // ---------------------------------------------------------------- self-configurable names

  ghost predicate SelfInv(n: Node) {
    Inv(n) && n.me.selfConfig && (n.st.Claiming? ==> Unicast(n.st.addr))
  }

  ghost predicate NoGlobalClaim(sent: seq<Msg>) {
    forall k | 0 <= k < |sent| && sent[k].Claim? :: sent[k].addr != NO_ADDR
  }

  lemma GivenIsNotFuller(n: Node)
    requires Core(n) && !Full(n.net)
    ensures !Full(Given(n))
  {
    GivenKeepsNetInv(n);
    SubsetSize(Given(n).rev.Keys, n.net.rev.Keys);
  }

  lemma OutcomeClaimsUnicast(n: Node, ev: Event, e: Effect)
    requires Core(n) && Outcome(n, ev, e) && n.me.selfConfig && (n.st.Claiming? ==> Unicast(n.st.addr))
    ensures OnAddress(e.node.st) ==> Unicast(e.node.st.addr)
  {
    if Begins(n, ev, e.node) {
      GivenKeepsNetInv(n);
      GivenIsNotFuller(n);
      SearchSucceedsUnlessFull(e.node.net, n.me, From(n, ev));
    }
  }

  lemma StepClaimsUnicast(n: Node, i: Input)
    requires SelfInv(n) && Foreign(n.me, i)
    ensures SelfInv(Step(n, i).node) && Step(n, i).node.me == n.me && NoGlobalClaim(Step(n, i).sent)
  {
    StepKeepsInv(n, i);
    if Fed(n, i).Some? {
      var (m, ev) := Fed(n, i).value;
      FedIsReady(n, i);
      StepOutcome(n, i);
      OutcomeClaimsUnicast(m, ev, Step(n, i));
    }
  }

  lemma {:induction false} RunKeepsSelfInv(n: Node, ins: seq<Input>)
    requires SelfInv(n) && AllForeign(n.me, ins)
    ensures SelfInv(Run(n, ins).node) && NoGlobalClaim(Run(n, ins).sent)
    decreases |ins|
  {
    if ins != [] {
      StepClaimsUnicast(n, ins[0]);
      RunKeepsSelfInv(Step(n, ins[0]).node, ins[1..]);
    }
  }

  /**
   * A self-configurable claimer only ever claims and holds unicast addresses; the one other
   * claim frame it sends is the cannot-claim message from the idle address.
   */
  lemma SelfConfigurableClaimsAreUnicast(me: Name, ins: seq<Input>)
    requires me.selfConfig && AllForeign(me, ins)
    ensures var e := Run(Boot(me), ins);
            && (forall k | 0 <= k < |e.sent| && e.sent[k].Claim? ::
                Unicast(e.sent[k].addr) || e.sent[k].addr == IDLE_ADDR)
            && (e.node.st.Claiming? || e.node.st.HasAddress? ==> Unicast(e.node.st.addr))
  {
    RunKeepsSelfInv(Boot(me), ins);
  }
}
