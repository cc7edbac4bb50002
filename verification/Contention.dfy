/**
 * How often a self-configurable claimer can lose: on a bus whose other names stick to one
 * address each and never withdraw, every loss is paid for by an address that stays taken, so
 * there are at most 254 losses over a whole run, however long.
 */
module Contention {
  import opened J1939
  import opened NetworkIndex
  import opened AddressMachine
  import opened ClaimerRuns

  /** Each other name claims one unicast address, as often as it likes. */
  ghost predicate Steadfast(home: map<Name, Address>, me: Name, i: Input) {
    i.Receive? && i.msg.Claim? ==>
      && i.msg.name.rank != me.rank
      && i.msg.name in home && home[i.msg.name] == i.msg.addr && Unicast(i.msg.addr)
  }

  ghost predicate LosesAt(n: Node, i: Input) {
    Fed(n, i).Some? && IsLoss(Fed(n, i).value.0, Fed(n, i).value.1)
  }

  /** The number of times the run takes an address away from the claimer. */
  ghost function Losses(n: Node, ins: seq<Input>): nat
    decreases |ins|
  {
    if ins == [] then 0
    else (if LosesAt(n, ins[0]) then 1 else 0) + Losses(Step(n, ins[0]).node, ins[1..])
  }

  /** The addresses other names hold, apart from the one the claimer is on. */
  ghost function Held(n: Node): set<Address> {
    set a | a in n.net.rev && n.net.rev[a] != n.me && !(OnAddress(n.st) && n.st.addr == a)
  }

  ghost predicate HomeNet(home: map<Name, Address>, me: Name, t: Net) {
    && NetInv(me, t)
    && forall a | a in t.rev && t.rev[a] != me :: t.rev[a] in home && home[t.rev[a]] == a && t.fwd[t.rev[a]] == a
  }

  /** A stronger claim on `a` has left a stronger name there. */
  ghost predicate Occupied(n: Node, a: Address) {
    a in n.net.rev && Stronger(n.net.rev[a], n.me)
  }

  ghost predicate QueueNoted(n: Node) {
    forall i | 0 <= i < |n.posted| && n.posted[i].AddressClaim? && Stronger(n.posted[i].name, n.me) ::
      Occupied(n, n.posted[i].addr)
  }

  ghost predicate HomeInv(home: map<Name, Address>, n: Node) {
    Inv(n) && n.me.selfConfig && HomeNet(home, n.me, n.net) && QueueNoted(n)
  }

  /** A steadfast claim frees nothing: what others held, and what stronger names held, stays so. */
  lemma InsertedHome(home: map<Name, Address>, me: Name, t: Net, x: Name, a: Address, r: Net)
    requires HomeNet(home, me, t) && x.rank != me.rank && x in home && home[x] == a && Unicast(a)
    requires Inserted(t, x, a, r)
    ensures HomeNet(home, me, r)
    ensures forall b | b in t.rev && t.rev[b] != me :: b in r.rev && r.rev[b] != me
    ensures forall b | b in t.rev && Stronger(t.rev[b], me) :: b in r.rev && Stronger(r.rev[b], me)
    ensures Stronger(x, me) ==> a in r.rev && Stronger(r.rev[a], me)
  {
    InsertedForeign(me, t, x, a, r);
  }

  lemma ReceiveTakes(home: map<Name, Address>, n: Node, x: Name, a: Address)
    requires HomeInv(home, n) && x.rank != n.me.rank && x in home && home[x] == a && Unicast(a)
    ensures var r := ProcessClaim(n, x, a);
            HomeInv(home, r) && Held(n) <= Held(r)
  {
    ReceiveKeepsInv(n, x, a);
    InsertInserts(n.net, x, a);
    InsertedHome(home, n.me, n.net, x, a, ProcessClaim(n, x, a).net);
  }

  /** A begun claim picks an address nobody holds. */
  lemma BeginsOnFreeAddress(n: Node, ev: Event, r: Node)
    requires Core(n) && n.me.selfConfig && Begins(n, ev, r)
    ensures r.st.addr !in r.net.rev
  {
    GivenKeepsNetInv(n);
    GivenIsNotFuller(n);
    SearchSucceedsUnlessFull(r.net, n.me, From(n, ev));
  }

  lemma GainTakes(home: map<Name, Address>, me: Name, t: Net, a: Address, r: Net)
    requires HomeNet(home, me, t) && Claimable(t, a, me) && (me in t.fwd ==> !Unicast(t.fwd[me]))
    requires Inserted(t, me, a, r)
    ensures HomeNet(home, me, r) && r.rev == t.rev[a := me]
  {
    InsertedKeepsIndex(t, me, a, r);
  }

  lemma GiveTakes(home: map<Name, Address>, n: Node, r: Node)
    requires Core(n) && HomeNet(home, n.me, n.net) && r.net == Given(n) && r.me == n.me
    requires OnAddress(r.st) ==> r.st.addr !in r.net.rev
    ensures HomeNet(home, r.me, r.net)
    ensures Held(n) <= Held(r)
    ensures OnAddress(n.st) && Occupied(n, n.st.addr) ==> |Held(n)| + 1 <= |Held(r)|
  {
    GivenKeepsNetInv(n);
    if OnAddress(n.st) && Occupied(n, n.st.addr) {
      SubsetSize(Held(n) + {n.st.addr}, Held(r));
    }
  }

  lemma OutcomeTakes(home: map<Name, Address>, n: Node, ev: Event, e: Effect)
    requires Ready(n, ev) && Outcome(n, ev, e) && n.me.selfConfig && HomeNet(home, n.me, n.net)
    requires IsLoss(n, ev) ==> Occupied(n, ev.addr)
    ensures HomeNet(home, e.node.me, e.node.net)
    ensures Held(n) <= Held(e.node)
    ensures IsLoss(n, ev) ==> |Held(n)| + 1 <= |Held(e.node)|
  {
    var r := e.node;
    if Gains(n, ev, r) {
      InsertInserts(n.net, n.me, n.st.addr);
      GainTakes(home, n.me, n.net, n.st.addr, e.node.net);
    } else if Begins(n, ev, r) {
      BeginsOnFreeAddress(n, ev, r);
      GiveTakes(home, n, r);
    } else if Withdraws(n, ev, r) {
      GiveTakes(home, n, r);
    }
  }

  lemma OutcomeNotes(home: map<Name, Address>, n: Node, ev: Event, e: Effect)
    requires Ready(n, ev) && Outcome(n, ev, e) && HomeNet(home, n.me, n.net) && QueueNoted(n)
    ensures QueueNoted(e.node)
  {
    if Gains(n, ev, e.node) {
      InsertInserts(n.net, n.me, n.st.addr);
      GainTakes(home, n.me, n.net, n.st.addr, e.node.net);
    } else if !StaysPut(n, ev, e.node) {
      GivenKeepsNetInv(n);
    }
  }

  lemma FedTakes(home: map<Name, Address>, n: Node, i: Input)
    requires HomeInv(home, n) && Fed(n, i).Some?
    ensures var r := Step(n, i).node;
            && HomeNet(home, r.me, r.net) && QueueNoted(r)
            && Held(n) <= Held(r) && (LosesAt(n, i) ==> |Held(n)| + 1 <= |Held(r)|)
  {
    var (m, ev) := Fed(n, i).value;
    FedIsReady(n, i);
    StepOutcome(n, i);
    assert QueueNoted(m) by {
      assert forall k | 0 <= k < |m.posted| :: m.posted[k] in n.posted;
    }
    OutcomeTakes(home, m, ev, Step(n, i));
    OutcomeNotes(home, m, ev, Step(n, i));
    assert Held(m) == Held(n);
  }

  lemma StepTakes(home: map<Name, Address>, n: Node, i: Input)
    requires HomeInv(home, n) && Steadfast(home, n.me, i)
    ensures var r := Step(n, i).node;
            HomeInv(home, r) && r.me == n.me && |Held(n)| + (if LosesAt(n, i) then 1 else 0) <= |Held(r)|
  {
    StepKeepsInv(n, i);
    var r := Step(n, i).node;
    if Fed(n, i).Some? {
      FedTakes(home, n, i);
    } else if i.Receive? && i.msg.Claim? {
      ReceiveTakes(home, n, i.msg.name, i.msg.addr);
    } else {
      assert Held(r) == Held(n);
    }
    SubsetSize(Held(n), Held(r));
  }

  lemma {:induction false} RunTakes(home: map<Name, Address>, n: Node, ins: seq<Input>)
    requires HomeInv(home, n) && forall k | 0 <= k < |ins| :: Steadfast(home, n.me, ins[k])
    ensures HomeInv(home, Run(n, ins).node) && |Held(n)| + Losses(n, ins) <= |Held(Run(n, ins).node)|
    decreases |ins|
  {
    if ins != [] {
      StepTakes(home, n, ins[0]);
      RunTakes(home, Step(n, ins[0]).node, ins[1..]);
    }
  }

  lemma LossesAreBounded(home: map<Name, Address>, me: Name, ins: seq<Input>)
    requires me.selfConfig && forall k | 0 <= k < |ins| :: Steadfast(home, me, ins[k])
    ensures Losses(Boot(me), ins) <= 254
  {
    RunTakes(home, Boot(me), ins);
    SubsetSize(Held(Run(Boot(me), ins).node), Below(254));
  }
}
