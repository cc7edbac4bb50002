/**
 * What every event must do, by state and event: where it leads, what it changes and which frame it
 * sends. Nothing here mentions guards, rows or the order of the table.
 */
module EventLaws {
  import opened J1939
  import opened NetworkIndex
  import opened AddressMachine

  /** A search from `from` and the claim of what it finds, with the claim delay running. */
  ghost predicate Claims(n: Node, net: Net, from: Address, e: Effect) {
    var a := FindAddress(net, n.me, from);
    e.node == n.(net := net, st := Claiming(a), timer := ClaimDelay) && e.sent == [Claim(n.me, a)]
  }

  /** No address from now on; while there is room the bus is asked for its addresses. */
  ghost predicate Retires(n: Node, timer: Timer, e: Effect) {
    && e.node == n.(st := NoAddress, timer := timer)
    && e.sent == if Full(n.net) then [] else [Request(NO_ADDR)]
  }

  ghost predicate Ignores(n: Node, e: Effect) {
    e == Effect(n, [])
  }

  /**
   * On an address, a request is answered with the claim of it if and only if it is meant for that
   * address or for everyone; without one, a request to everyone prepares a cannot-claim.
   */
  lemma RequestLaw(n: Node, dest: Address)
    ensures var e := ProcessEvent(n, AddressRequest(dest));
            if n.st.Claiming? || n.st.HasAddress? then
              e == Effect(n, if dest == n.st.addr || dest == NO_ADDR then [Claim(n.me, n.st.addr)] else [])
            else
              e == Effect(if dest == NO_ADDR then n.(timer := CannotClaimDelay) else n, [])
  {
  }

  /**
   * A claim on another address is ignored, and so is every claim without an address. On the own
   * address the stronger name repeats its claim; the other one gives up what it holds and searches
   * on, or is lost if the network was full.
   */
  lemma ClaimLaw(n: Node, x: Name, a: Address)
    ensures var e := ProcessEvent(n, AddressClaim(x, a));
            if n.st != Claiming(a) && n.st != HasAddress(a) then Ignores(n, e)
            else if n.me.rank < x.rank then e == Effect(n, [Claim(n.me, a)])
            else
              var net := if n.st.HasAddress? then Release(n.net, n.me) else n.net;
              if Full(n.net) then e == Effect(n.(net := net, st := AddressLost, timer := CannotClaimDelay), [])
              else Claims(n, net, a, e)
  {
    if n.st == Claiming(a) || n.st == HasAddress(a) {
      ContestedClaimHasOneRow(n, AddressClaim(x, a));
    } else {
      ClaimElsewhere(n, x, a);
    }
  }

  lemma ClaimElsewhere(n: Node, x: Name, a: Address)
    requires n.st != Claiming(a) && n.st != HasAddress(a)
    ensures ProcessEvent(n, AddressClaim(x, a)) == Effect(n, [])
  {
  }

  lemma TimeoutElsewhere(n: Node)
    requires !n.st.Claiming?
    ensures ProcessEvent(n, Timeout) == Effect(n, [])
  {
  }

  lemma TimeoutOfClaim(n: Node)
    requires n.st.Claiming?
    ensures ProcessEvent(n, Timeout) ==
            if ValidAddress(n) then EnterHasAddress(n, n.st.addr)
            else if NoValidAddress(n) then EnterNoAddress(n)
            else Effect(n, [])
  {
    RowsAreExclusive(n, Timeout, ClaimingValid);
    RowsAreExclusive(n, Timeout, ClaimingInvalid);
  }

  /** The end of the claim delay: the address is gained, given up, or nothing happens at all. */
  lemma TimeoutLaw(n: Node)
    ensures var e := ProcessEvent(n, Timeout);
            if !n.st.Claiming? then Ignores(n, e)
            else if (n.st.addr <= 253 && (n.st.addr in n.net.rev ==> n.me.rank < n.net.rev[n.st.addr].rank)) ||
                    (n.me in n.net.fwd && n.net.fwd[n.me] <= 253) then
              e == Effect(n.(st := HasAddress(n.st.addr), net := Insert(n.net, n.me, n.st.addr)), [])
            else if n.me in n.net.fwd && n.net.fwd[n.me] == 254 then Retires(n, n.timer, e)
            else Ignores(n, e)
  {
    if n.st.Claiming? { TimeoutOfClaim(n); } else { TimeoutElsewhere(n); }
  }

  /** A start counts only without an address: it claims, or finds the network full and prepares to say so. */
  lemma StartLaw(n: Node, pref: Address)
    ensures var e := ProcessEvent(n, StartClaim(pref));
            if !n.st.NoAddress? then Ignores(n, e)
            else if Full(n.net) then e == Effect(n.(timer := CannotClaimDelay), [])
            else Claims(n, n.net, pref, e)
  {
  }

  lemma RestartLaw(n: Node)
    ensures var e := ProcessEvent(n, Restart);
            if n.st.NoAddress? then Retires(n, n.timer, e) else Ignores(n, e)
  {
  }

  /** A retry counts only once an address was lost: it claims from address 0 on or gives up for good. */
  lemma RetryLaw(n: Node)
    ensures var e := ProcessEvent(n, RandomRetry);
            if !n.st.AddressLost? then Ignores(n, e)
            else if n.me.selfConfig && !Full(n.net) then Claims(n, n.net, 0, e)
            else Retires(n, CannotClaimDelay, e)
  {
  }

  // ---------------------------------------------------------------- inputs

  /**
   * A received claim is recorded at once. The machine hears of it unless a stronger name is on
   * record for the address; a claim from 254 it always hears, one from 255 only of an unknown name.
   */
  lemma ClaimHeardLaw(n: Node, x: Name, a: Address)
    ensures var heard := if a <= 253 then a in n.net.rev ==> x.rank <= n.net.rev[a].rank
                         else a == 254 || x !in n.net.fwd;
            Step(n, Receive(Claim(x, a))) ==
            Effect(n.(net := Insert(n.net, x, a), posted := n.posted + if heard then [AddressClaim(x, a)] else []), [])
  {
    assert n.posted + [] == n.posted;
  }

  /** Requests and starts are queued, and events run in the order in which they were queued. */
  lemma QueueLaw(n: Node, dest: Address, pref: Address)
    ensures Step(n, Receive(Request(dest))) == Effect(n.(posted := n.posted + [AddressRequest(dest)]), [])
    ensures Step(n, Start(pref)) ==
            Effect(if n.st.NoAddress? then n.(posted := n.posted + [Restart], timer := StartDelay(pref)) else n, [])
    ensures Step(n, RunNext) ==
            if n.posted == [] then Effect(n, []) else ProcessEvent(n.(posted := n.posted[1..]), n.posted[0])
  {
  }

  /** An expired wait is over; what it was for decides which event runs. */
  lemma WaitLaw(n: Node)
    ensures n.timer.Disarmed? ==> Step(n, Expire) == Effect(n, [])
    ensures n.timer.StartDelay? ==> Step(n, Expire) == ProcessEvent(n.(timer := Disarmed), StartClaim(n.timer.pref))
    ensures n.timer.ClaimDelay? ==> Step(n, Expire) == ProcessEvent(n.(timer := Disarmed), Timeout)
  {
  }
}
