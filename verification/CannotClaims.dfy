/**
 * When a claimer says that it cannot claim. The message goes out at the expiry of a delay of its
 * own; `DelayExactly` says for every run when that delay is running, and `CannotClaimExactly` that
 * the message is sent then and at no other time.
 */
module CannotClaims {
  import opened J1939
  import opened NetworkIndex
  import opened AddressMachine
  import opened EventLaws
  import opened ClaimerRuns

  /**
   * The step starts the delay: a global request runs while there is no address, a claim is lost on
   * a full network, a retry is not allowed, or a start finds the network full.
   */
  predicate Arms(n: Node, i: Input) {
    || (&& i.RunNext? && n.posted != []
        && match n.posted[0]
           case AddressRequest(dest) => dest == NO_ADDR && (n.st.NoAddress? || n.st.AddressLost?)
           case AddressClaim(x, a) =>
             (n.st == Claiming(a) || n.st == HasAddress(a)) && n.me.rank >= x.rank && Full(n.net)
           case RandomRetry => n.st.AddressLost? && (!n.me.selfConfig || Full(n.net))
           case _ => false)
    || (i.Expire? && n.timer.StartDelay? && n.st.NoAddress? && Full(n.net))
  }

  /** The step ends the delay: it expires, a new start takes the timer over, or a retry claims. */
  predicate Disarms(n: Node, i: Input) {
    || i.Expire?
    || (i.Start? && n.st.NoAddress?)
    || (i.RunNext? && n.posted != [] && n.posted[0].RandomRetry? && n.st.AddressLost? && !Arms(n, i))
  }

  lemma EventArms(n: Node, ev: Event)
    requires !ev.StartClaim? && (n.timer == CannotClaimDelay ==> !OnAddress(n.st))
    ensures var m := n.(posted := [ev] + n.posted);
            ProcessEvent(n, ev).node.timer == CannotClaimDelay <==>
            Arms(m, RunNext) || (n.timer == CannotClaimDelay && !Disarms(m, RunNext))
  {
    match ev
    case AddressRequest(dest) => RequestLaw(n, dest);
    case AddressClaim(x, a) => ClaimLaw(n, x, a);
    case RandomRetry => RetryLaw(n);
    case Restart => RestartLaw(n);
    case Timeout => TimeoutLaw(n);
  }

  lemma StepArms(n: Node, i: Input)
    requires Inv(n)
    ensures Step(n, i).node.timer == CannotClaimDelay <==>
            Arms(n, i) || (n.timer == CannotClaimDelay && !Disarms(n, i))
  {
    if i.RunNext? && n.posted != [] {
      EventArms(n.(posted := n.posted[1..]), n.posted[0]);
      assert [n.posted[0]] + n.posted[1..] == n.posted;
    } else if i.Expire? {
      var m := n.(timer := Disarmed);
      if n.timer.StartDelay? { StartLaw(m, n.timer.pref); }
      if n.timer.ClaimDelay? { TimeoutLaw(m); }
    }
  }

  /** Step `k` starts the delay and no later step before `end` ends it. */
  ghost predicate RunningSince(n: Node, ins: seq<Input>, k: nat, end: nat) {
    && k < end <= |ins| && Arms(Before(n, ins, k), ins[k])
    && forall j | k < j < end :: !Disarms(Before(n, ins, j), ins[j]) || Arms(Before(n, ins, j), ins[j])
  }

  lemma RunningOn(n: Node, ins: seq<Input>, k: nat, end: nat)
    requires end < |ins|
    ensures var m := Before(n, ins, end);
            RunningSince(n, ins, k, end + 1) <==>
            if k == end then Arms(m, ins[end])
            else RunningSince(n, ins, k, end) && (!Disarms(m, ins[end]) || Arms(m, ins[end]))
  {
  }

  lemma {:induction false} DelayUpTo(n: Node, ins: seq<Input>, end: nat)
    requires Inv(n) && n.timer != CannotClaimDelay && AllForeign(n.me, ins) && end <= |ins|
    ensures Before(n, ins, end).timer == CannotClaimDelay <==> exists k :: RunningSince(n, ins, k, end)
  {
    if end == 0 {
      assert ins[..0] == [];
    } else {
      var last := end - 1;
      BeforeStep(n, ins, last);
      RunKeepsInv(n, ins[..last]);
      StepArms(Before(n, ins, last), ins[last]);
      DelayUpTo(n, ins, last);
      RunningOn(n, ins, last, last);
      if k :| RunningSince(n, ins, k, last) { RunningOn(n, ins, k, last); }
      if k :| RunningSince(n, ins, k, end) { RunningOn(n, ins, k, last); }
    }
  }

  /** Over every run the delay is running if and only if a step has started it and none has ended it since. */
  lemma DelayExactly(n: Node, ins: seq<Input>)
    requires Inv(n) && n.timer != CannotClaimDelay && AllForeign(n.me, ins)
    ensures Run(n, ins).node.timer == CannotClaimDelay <==> exists k :: RunningSince(n, ins, k, |ins|)
  {
    DelayUpTo(n, ins, |ins|);
    assert ins[..|ins|] == ins;
  }

  /** The search never finds the idle address, so a claim of it is always a cannot-claim. */
  lemma SearchAvoidsIdle(t: Net, n: Name, preferred: Address)
    ensures FindAddress(t, n, preferred) != IDLE_ADDR
  {
    var p := Clamp(preferred);
    SearchIsFirst(t, n, p, IDLE_ADDR);
    SearchIsFirst(t, n, 0, p);
  }

  ghost predicate OffIdle(n: Node) {
    Inv(n) && n.st != Claiming(IDLE_ADDR)
  }

  /** At the end of the delay the message is sent, and a retry is posted exactly for self-configurable names. */
  lemma ExpiryLaw(n: Node)
    requires n.timer == CannotClaimDelay
    ensures var e := Step(n, Expire);
            && e.sent == [Claim(n.me, IDLE_ADDR)]
            && e.node == n.(timer := Disarmed, posted := n.posted + if n.me.selfConfig then [RandomRetry] else [])
  {
    assert n.posted + [] == n.posted;
  }

  /** No other step sends it. */
  lemma OtherStepsAreSilent(n: Node, i: Input)
    requires OffIdle(n) && Foreign(n.me, i) && !(i.Expire? && n.timer == CannotClaimDelay)
    ensures Claim(n.me, IDLE_ADDR) !in Step(n, i).sent
    ensures OffIdle(Step(n, i).node)
  {
    StepKeepsInv(n, i);
    if Fed(n, i).Some? {
      var (m, ev) := Fed(n, i).value;
      FedIsReady(n, i);
      StepOutcome(n, i);
      if Begins(m, ev, Step(n, i).node) { SearchAvoidsIdle(Given(m), n.me, From(m, ev)); }
    }
  }

  lemma {:induction false} RunStaysOffIdle(n: Node, ins: seq<Input>)
    requires OffIdle(n) && AllForeign(n.me, ins)
    ensures OffIdle(Run(n, ins).node) && Run(n, ins).node.me == n.me
    decreases |ins|
  {
    if ins != [] {
      StepKeepsInv(n, ins[0]);
      if ins[0].Expire? && n.timer == CannotClaimDelay { ExpiryLaw(n); } else { OtherStepsAreSilent(n, ins[0]); }
      RunStaysOffIdle(Step(n, ins[0]).node, ins[1..]);
    }
  }

  /**
   * After every run, the next step says that the claimer cannot claim if and only if it is an
   * expiry and some step of the run has started the delay that none has ended since. That expiry
   * sends nothing else, and it posts a retry if and only if the name is self-configurable.
   */
  lemma CannotClaimExactly(n: Node, ins: seq<Input>, i: Input)
    requires OffIdle(n) && n.timer != CannotClaimDelay && AllForeign(n.me, ins) && Foreign(n.me, i)
    ensures var m, e := Run(n, ins).node, Step(Run(n, ins).node, i);
            && (Claim(n.me, IDLE_ADDR) in e.sent <==> i.Expire? && exists k :: RunningSince(n, ins, k, |ins|))
            && var retry := if n.me.selfConfig then [RandomRetry] else [];
               Claim(n.me, IDLE_ADDR) in e.sent ==>
                 e.sent == [Claim(n.me, IDLE_ADDR)] && e.node == m.(timer := Disarmed, posted := m.posted + retry)
  {
    var m := Run(n, ins).node;
    RunStaysOffIdle(n, ins);
    DelayExactly(n, ins);
    if i.Expire? && m.timer == CannotClaimDelay { ExpiryLaw(m); } else { OtherStepsAreSilent(m, i); }
  }
}
