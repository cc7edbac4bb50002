/**
 * What a global request does to a start. The start delay and the delay before a cannot-claim share
 * one timer, so a global request that runs during the start delay replaces it: the claimer says
 * that it has no address and the start is forgotten.
 */
module CancelledStarts {
  import opened J1939
  import opened NetworkIndex
  import opened AddressMachine

  /** Waiting for the start delay of `p` to expire. Starts come from the timer and are never posted. */
  ghost predicate Waiting(n: Node, p: Address) {
    n.st.NoAddress? && n.timer == StartDelay(p) && NoStartsPosted(n.posted)
  }

  /** Without an address and without a start delay. */
  ghost predicate Idle(n: Node) {
    n.st.NoAddress? && !n.timer.StartDelay? && NoStartsPosted(n.posted)
  }

  ghost predicate NoStartsPosted(posted: seq<Event>) {
    forall k | 0 <= k < |posted| :: !posted[k].StartClaim?
  }

  predicate RunsGlobalRequest(n: Node, i: Input) {
    i.RunNext? && n.posted != [] && n.posted[0] == AddressRequest(NO_ADDR)
  }

  /** A frame of a claimer without an address: a global request or the cannot-claim message. */
  predicate Addressless(me: Name, m: Msg) {
    m == Request(NO_ADDR) || m == Claim(me, IDLE_ADDR)
  }

  lemma PostedWithoutHead(posted: seq<Event>)
    requires posted != [] && NoStartsPosted(posted)
    ensures NoStartsPosted(posted[1..])
  {
    assert forall k | 0 <= k < |posted| - 1 :: posted[1..][k] == posted[k + 1];
  }

  lemma StepStaysIdle(n: Node, i: Input)
    requires Idle(n) && !i.Start?
    ensures var e := Step(n, i);
            Idle(e.node) && e.node.me == n.me && forall k | 0 <= k < |e.sent| :: Addressless(n.me, e.sent[k])
  {
    if n.posted != [] { PostedWithoutHead(n.posted); }
  }

  /** An idle claimer that is not started again never claims, whatever it hears and however long it runs. */
  lemma {:induction false} IdleNeverClaims(n: Node, ins: seq<Input>)
    requires Idle(n) && forall k | 0 <= k < |ins| :: !ins[k].Start?
    ensures var e := Run(n, ins);
            Idle(e.node) && forall k | 0 <= k < |e.sent| :: Addressless(n.me, e.sent[k])
    decreases |ins|
  {
    if ins != [] {
      StepStaysIdle(n, ins[0]);
      IdleNeverClaims(Step(n, ins[0]).node, ins[1..]);
    }
  }

  lemma StepOfWaiting(n: Node, p: Address, i: Input)
    requires Waiting(n, p) && !i.Start?
    ensures var r := Step(n, i).node;
            if i.Expire? then (if Full(n.net) then Idle(r) else r.st.Claiming?)
            else if RunsGlobalRequest(n, i) then Idle(r)
            else Waiting(r, p)
  {
    if n.posted != [] { PostedWithoutHead(n.posted); }
  }

  /** Up to step `end` no timer expires and no global request runs. */
  ghost predicate Undisturbed(n: Node, ins: seq<Input>, end: nat) {
    end <= |ins| && forall k | 0 <= k < end :: !ins[k].Expire? && !RunsGlobalRequest(Before(n, ins, k), ins[k])
  }

  /** Step `k` is the first expiry, no global request ran before it, and the network is not full. */
  ghost predicate StartsAt(n: Node, ins: seq<Input>, k: nat) {
    k < |ins| && ins[k].Expire? && Undisturbed(n, ins, k) && !Full(Before(n, ins, k).net)
  }

  lemma {:induction false} WaitingOrIdle(n: Node, p: Address, ins: seq<Input>, end: nat)
    requires Waiting(n, p) && end <= |ins| && forall k | 0 <= k < |ins| :: !ins[k].Start?
    requires forall k | 0 <= k < end :: !StartsAt(n, ins, k)
    ensures if Undisturbed(n, ins, end) then Waiting(Before(n, ins, end), p) else Idle(Before(n, ins, end))
  {
    if end == 0 {
      assert ins[..0] == [];
    } else {
      var last := end - 1;
      WaitingOrIdle(n, p, ins, last);
      BeforeStep(n, ins, last);
      if Undisturbed(n, ins, last) {
        StepOfWaiting(Before(n, ins, last), p, ins[last]);
        assert !StartsAt(n, ins, last);
      } else {
        StepStaysIdle(Before(n, ins, last), ins[last]);
      }
    }
  }

  /**
   * A started claimer that is not started again ever leaves the no-address state if and only if
   * its start delay expires before any global request has run, on a network that is not full.
   */
  lemma StartSucceedsExactly(n: Node, p: Address, ins: seq<Input>)
    requires Waiting(n, p) && forall k | 0 <= k < |ins| :: !ins[k].Start?
    ensures (exists k :: 0 <= k <= |ins| && !Before(n, ins, k).st.NoAddress?) <==> exists k :: StartsAt(n, ins, k)
  {
    if k: nat :| StartsAt(n, ins, k) {
      WaitingOrIdle(n, p, ins, k);
      StepOfWaiting(Before(n, ins, k), p, ins[k]);
      BeforeStep(n, ins, k);
      assert !Before(n, ins, k + 1).st.NoAddress?;
    } else {
      forall k | 0 <= k <= |ins| ensures Before(n, ins, k).st.NoAddress? {
        WaitingOrIdle(n, p, ins, k);
      }
    }
  }

  /** Two stations that start together: the request of one cancels the start of the other. */
  lemma RequestCancelsStart(n: Node, p: Address, ins: seq<Input>)
    requires Waiting(n, p) && n.posted == [] && forall k | 0 <= k < |ins| :: !ins[k].Start?
    ensures var e := Run(n, [Receive(Request(NO_ADDR)), RunNext] + ins);
            e.node.st.NoAddress? && forall k | 0 <= k < |e.sent| :: Addressless(n.me, e.sent[k])
  {
    var run := [Receive(Request(NO_ADDR)), RunNext] + ins;
    var m := Step(n, run[0]).node;
    assert run[1..][0] == RunNext && run[1..][1..] == ins;
    StepOfWaiting(m, p, RunNext);
    assert Step(n, run[0]).sent == [] && Step(m, RunNext).sent == [] && Step(m, RunNext).node.me == n.me;
    IdleNeverClaims(Step(m, RunNext).node, ins);
    assert Run(m, run[1..]).sent == Run(Step(m, RunNext).node, ins).sent;
  }
}
