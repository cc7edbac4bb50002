/**
 * The address claiming state machine together with its wrapper: guards and transition rows,
 * the callbacks that write the network, the single timer and the queue of posted events.
 * Everything here is a function on the value `Node`; class AddressClaimer performs it in place.
 */
module AddressMachine {
  import opened J1939
  import opened NetworkIndex

  datatype State = NoAddress | Claiming(addr: Address) | HasAddress(addr: Address) | AddressLost

  datatype Event =
    | StartClaim(pref: Address)
    | AddressClaim(name: Name, addr: Address)
    | AddressRequest(dest: Address)
    | Timeout
    | RandomRetry
    | Restart

  /** What the one deadline timer is waiting for; arming it cancels the previous wait. */
  datatype Timer = Disarmed | StartDelay(pref: Address) | ClaimDelay | CannotClaimDelay

  /** A frame on the bus. A claim from address 254 is the cannot-claim message. */
  datatype Msg = Claim(name: Name, addr: Address) | Request(dest: Address)

  datatype Node = Node(me: Name, net: Net, st: State, timer: Timer, posted: seq<Event>)

  /** The result of a step: the new node and the frames it put on the bus. */
  datatype Effect = Effect(node: Node, sent: seq<Msg>)

  function Boot(me: Name): Node {
    Node(me, EMPTY, NoAddress, Disarmed, [])
  }

  // ---------------------------------------------------------------- guards

  predicate Conflict(n: Node, ev: Event)
    requires ev.AddressClaim?
  {
    (n.st.Claiming? || n.st.HasAddress?) && n.st.addr == ev.addr
  }

  predicate Wins(n: Node, ev: Event)
    requires ev.AddressClaim?
  {
    Conflict(n, ev) && Stronger(n.me, ev.name)
  }

  predicate Loses(n: Node, ev: Event)
    requires ev.AddressClaim?
  {
    Conflict(n, ev) && !Stronger(n.me, ev.name)
  }

  predicate ValidAddress(n: Node)
    requires n.st.Claiming?
  {
    Claimable(n.net, n.st.addr, n.me) || GetAddress(n.net, n.me) < IDLE_ADDR
  }

  predicate NoValidAddress(n: Node)
    requires n.st.Claiming?
  {
    !Claimable(n.net, n.st.addr, n.me) && GetAddress(n.net, n.me) == IDLE_ADDR
  }

  predicate RetryAllowed(n: Node) {
    n.me.selfConfig && !Full(n.net)
  }

  // ---------------------------------------------------------------- transition rows

  datatype Row =
    | NoAddressRequest | NoAddressStart | NoAddressStartFull | NoAddressRestart
    | ClaimingPriority | ClaimingLoss | ClaimingFailure
    | ClaimingValid | ClaimingInvalid | ClaimingRequest
    | HasRequest | HasPriority | HasLoss | HasFailure
    | LostRequest | LostRetry | LostGiveUp

  /** Source state, event and guard of each row of the transition table. */
  predicate Enabled(r: Row, n: Node, ev: Event) {
    match r
    case NoAddressRequest => n.st.NoAddress? && ev.AddressRequest? && ev.dest == NO_ADDR
    case NoAddressStart => n.st.NoAddress? && ev.StartClaim? && !Full(n.net)
    case NoAddressStartFull => n.st.NoAddress? && ev.StartClaim? && Full(n.net)
    case NoAddressRestart => n.st.NoAddress? && ev.Restart?
    case ClaimingPriority => n.st.Claiming? && ev.AddressClaim? && Wins(n, ev)
    case ClaimingLoss => n.st.Claiming? && ev.AddressClaim? && Loses(n, ev) && !Full(n.net)
    case ClaimingFailure => n.st.Claiming? && ev.AddressClaim? && Loses(n, ev) && Full(n.net)
    case ClaimingValid => n.st.Claiming? && ev.Timeout? && ValidAddress(n)
    case ClaimingInvalid => n.st.Claiming? && ev.Timeout? && NoValidAddress(n)
    case ClaimingRequest => n.st.Claiming? && ev.AddressRequest? && (ev.dest == n.st.addr || ev.dest == NO_ADDR)
    case HasRequest => n.st.HasAddress? && ev.AddressRequest? && (ev.dest == n.st.addr || ev.dest == NO_ADDR)
    case HasPriority => n.st.HasAddress? && ev.AddressClaim? && Wins(n, ev)
    case HasLoss => n.st.HasAddress? && ev.AddressClaim? && Loses(n, ev) && !Full(n.net)
    case HasFailure => n.st.HasAddress? && ev.AddressClaim? && Loses(n, ev) && Full(n.net)
    case LostRequest => n.st.AddressLost? && ev.AddressRequest? && ev.dest == NO_ADDR
    case LostRetry => n.st.AddressLost? && ev.RandomRetry? && RetryAllowed(n)
    case LostGiveUp => n.st.AddressLost? && ev.RandomRetry? && !RetryAllowed(n)
  }

  /** The row the machine takes, trying the rows of the current state in table order. */
  function Select(n: Node, ev: Event): Option<Row> {
    match n.st
    case NoAddress =>
      if Enabled(NoAddressRequest, n, ev) then Some(NoAddressRequest)
      else if Enabled(NoAddressStart, n, ev) then Some(NoAddressStart)
      else if Enabled(NoAddressStartFull, n, ev) then Some(NoAddressStartFull)
      else if Enabled(NoAddressRestart, n, ev) then Some(NoAddressRestart)
      else None
    case Claiming(_) =>
      if Enabled(ClaimingPriority, n, ev) then Some(ClaimingPriority)
      else if Enabled(ClaimingLoss, n, ev) then Some(ClaimingLoss)
      else if Enabled(ClaimingFailure, n, ev) then Some(ClaimingFailure)
      else if Enabled(ClaimingValid, n, ev) then Some(ClaimingValid)
      else if Enabled(ClaimingInvalid, n, ev) then Some(ClaimingInvalid)
      else if Enabled(ClaimingRequest, n, ev) then Some(ClaimingRequest)
      else None
    case HasAddress(_) =>
      if Enabled(HasRequest, n, ev) then Some(HasRequest)
      else if Enabled(HasPriority, n, ev) then Some(HasPriority)
      else if Enabled(HasLoss, n, ev) then Some(HasLoss)
      else if Enabled(HasFailure, n, ev) then Some(HasFailure)
      else None
    case AddressLost =>
      if Enabled(LostRequest, n, ev) then Some(LostRequest)
      else if Enabled(LostRetry, n, ev) then Some(LostRetry)
      else if Enabled(LostGiveUp, n, ev) then Some(LostGiveUp)
      else None
  }

  /** At most one row is enabled per event, so the order of the table never matters. */
  lemma RowsAreExclusive(n: Node, ev: Event, r: Row)
    ensures Enabled(r, n, ev) <==> Select(n, ev) == Some(r)
  {
  }

  /** A contested claim always has its row, and it is the one of priority, loss or failure. */
  lemma ContestedClaimHasOneRow(n: Node, ev: Event)
    requires ev.AddressClaim? && Conflict(n, ev)
    ensures Select(n, ev) ==
            Some(if Stronger(n.me, ev.name) then (if n.st.Claiming? then ClaimingPriority else HasPriority)
                 else if Full(n.net) then (if n.st.Claiming? then ClaimingFailure else HasFailure)
                 else (if n.st.Claiming? then ClaimingLoss else HasLoss))
  {
  }

  /** A claim timeout is ignored exactly when the address cannot be taken and the name is unknown. */
  lemma TimeoutGap(n: Node)
    requires Indexed(n.net) && n.st.Claiming?
    ensures Select(n, Timeout) == None <==> !Claimable(n.net, n.st.addr, n.me) && n.me !in n.net.fwd
  {
  }

  // ---------------------------------------------------------------- actions and callbacks

  /** Arms the claim timer, looks for an address from `from` on and claims it. */
  function BeginClaiming(n: Node, from: Address): Effect {
    var a := FindAddress(n.net, n.me, from);
    Effect(n.(st := Claiming(a), timer := ClaimDelay), [Claim(n.me, a)])
  }

  function SendCannotClaim(n: Node): Node {
    n.(timer := CannotClaimDelay)
  }

  /** Entering the no-address state asks the bus for its addresses unless the network is full. */
  function EnterNoAddress(n: Node): Effect {
    Effect(n.(st := NoAddress), if Full(n.net) then [] else [Request(NO_ADDR)])
  }

  /** The address callback records the name in the network. */
  function EnterHasAddress(n: Node, a: Address): Effect {
    Effect(n.(st := HasAddress(a), net := Insert(n.net, n.me, a)), [])
  }

  /** The loss callback releases the name. */
  function ExitHasAddress(n: Node): Node {
    n.(net := Release(n.net, n.me))
  }

  function EnterAddressLost(n: Node): Effect {
    Effect(SendCannotClaim(n.(st := AddressLost)), [])
  }

  function Fire(r: Row, n: Node, ev: Event): Effect
    requires Enabled(r, n, ev)
  {
    match r
    case NoAddressRequest => Effect(SendCannotClaim(n), [])
    case NoAddressStart => BeginClaiming(n, ev.pref)
    case NoAddressStartFull => Effect(SendCannotClaim(n), [])
    case NoAddressRestart => EnterNoAddress(n)
    case ClaimingPriority => Effect(n, [Claim(n.me, n.st.addr)])
    case ClaimingLoss => BeginClaiming(n, n.st.addr)
    case ClaimingFailure => EnterAddressLost(n)
    case ClaimingValid => EnterHasAddress(n, n.st.addr)
    case ClaimingInvalid => EnterNoAddress(n)
    case ClaimingRequest => Effect(n, [Claim(n.me, n.st.addr)])
    case HasRequest => Effect(n, [Claim(n.me, n.st.addr)])
    case HasPriority => Effect(n, [Claim(n.me, n.st.addr)])
    case HasLoss => BeginClaiming(ExitHasAddress(n), n.st.addr)
    case HasFailure => EnterAddressLost(ExitHasAddress(n))
    case LostRequest => Effect(SendCannotClaim(n), [])
    case LostRetry => BeginClaiming(n, 0)
    case LostGiveUp => EnterNoAddress(SendCannotClaim(n))
  }

  function ProcessEvent(n: Node, ev: Event): Effect {
    match Select(n, ev)
    case None => Effect(n, [])
    case Some(r) => assert Enabled(r, n, ev) by { RowsAreExclusive(n, ev, r); } Fire(r, n, ev)
  }

  // ---------------------------------------------------------------- what an event can do

  predicate OnAddress(st: State) {
    st.Claiming? || st.HasAddress?
  }

  predicate IsLoss(n: Node, ev: Event) {
    ev.AddressClaim? && Loses(n, ev)
  }

  /** The network once a held address has been given up. */
  function Given(n: Node): Net {
    if n.st.HasAddress? then Release(n.net, n.me) else n.net
  }

  /** Where the address search starts. */
  function From(n: Node, ev: Event): Address {
    if OnAddress(n.st) then n.st.addr else if ev.StartClaim? then ev.pref else 0
  }

  ghost predicate StaysPut(n: Node, ev: Event, r: Node) {
    && r.st == n.st && r.net == n.net && !IsLoss(n, ev)
    && (r.timer == n.timer || (!OnAddress(n.st) && r.timer == CannotClaimDelay))
  }

  ghost predicate Gains(n: Node, ev: Event, r: Node) {
    && n.st.Claiming? && ev.Timeout? && ValidAddress(n)
    && r.st == HasAddress(n.st.addr) && r.net == Insert(n.net, n.me, n.st.addr) && r.timer == n.timer
  }

  ghost predicate Begins(n: Node, ev: Event, r: Node) {
    && !Full(n.net)
    && (if OnAddress(n.st) then IsLoss(n, ev) else ev.StartClaim? || (ev.RandomRetry? && n.me.selfConfig))
    && r.net == Given(n) && r.st == Claiming(FindAddress(r.net, n.me, From(n, ev))) && r.timer == ClaimDelay
  }

  ghost predicate Withdraws(n: Node, ev: Event, r: Node) {
    && (OnAddress(n.st) ==> (IsLoss(n, ev) && Full(n.net)) || (n.st.Claiming? && ev.Timeout? && NoValidAddress(n)))
    && r.net == Given(n) && !OnAddress(r.st)
    && (r.timer == CannotClaimDelay || (r.timer == n.timer && !IsLoss(n, ev)))
  }

  /**
   * The transition table seen from outside: an event leaves the machine where it is, gains the
   * claimed address, begins a new claim or withdraws, and sends at most one frame, which is a
   * global request or a claim of the address it is then on.
   */
  ghost predicate Outcome(n: Node, ev: Event, e: Effect) {
    && e.node.me == n.me && e.node.posted == n.posted
    && (StaysPut(n, ev, e.node) || Gains(n, ev, e.node) || Begins(n, ev, e.node) || Withdraws(n, ev, e.node))
    && (|| e.sent == []
        || e.sent == [Request(NO_ADDR)]
        || (OnAddress(e.node.st) && e.sent == [Claim(n.me, e.node.st.addr)]))
  }

  lemma OutcomeIdle(n: Node, ev: Event)
    requires !OnAddress(n.st)
    ensures Outcome(n, ev, ProcessEvent(n, ev))
  {
  }

  lemma OutcomeClaiming(n: Node, ev: Event)
    requires n.st.Claiming?
    ensures Outcome(n, ev, ProcessEvent(n, ev))
  {
  }

  lemma OutcomeHolding(n: Node, ev: Event)
    requires n.st.HasAddress?
    ensures Outcome(n, ev, ProcessEvent(n, ev))
  {
  }

  lemma EventOutcome(n: Node, ev: Event)
    ensures Outcome(n, ev, ProcessEvent(n, ev))
  {
    match n.st
    case Claiming(_) => OutcomeClaiming(n, ev);
    case HasAddress(_) => OutcomeHolding(n, ev);
    case _ => OutcomeIdle(n, ev);
  }

  // ---------------------------------------------------------------- the claimer's entry points

  function Post(n: Node, ev: Event): Node {
    n.(posted := n.posted + [ev])
  }

  /** A claim the network refuses is reported as an error and never reaches the machine. */
  function ProcessClaim(n: Node, name: Name, addr: Address): Node {
    var n' := n.(net := Insert(n.net, name, addr));
    if Accepts(n.net, name, addr) then Post(n', AddressClaim(name, addr)) else n'
  }

  function StartAddressClaim(n: Node, pref: Address): Node {
    if n.st.NoAddress? then Post(n, Restart).(timer := StartDelay(pref)) else n
  }

  function RunPosted(n: Node): Effect {
    if n.posted == [] then Effect(n, [])
    else ProcessEvent(n.(posted := n.posted[1..]), n.posted[0])
  }

  function TimerFires(n: Node): Effect {
    var n' := n.(timer := Disarmed);
    match n.timer
    case Disarmed => Effect(n, [])
    case StartDelay(pref) => ProcessEvent(n', StartClaim(pref))
    case ClaimDelay => ProcessEvent(n', Timeout)
    case CannotClaimDelay =>
      Effect(if n.me.selfConfig then Post(n', RandomRetry) else n', [Claim(n.me, IDLE_ADDR)])
  }

  /** Everything that can happen to a claimer, each taken as one atomic step. */
  datatype Input = Receive(msg: Msg) | RunNext | Expire | Start(pref: Address)

  function Step(n: Node, i: Input): Effect {
    match i
    case Receive(Claim(name, addr)) => Effect(ProcessClaim(n, name, addr), [])
    case Receive(Request(dest)) => Effect(Post(n, AddressRequest(dest)), [])
    case RunNext => RunPosted(n)
    case Expire => TimerFires(n)
    case Start(pref) => Effect(StartAddressClaim(n, pref), [])
  }

  /** The event a step shows to the machine, with the node it finds, if it shows one. */
  function Fed(n: Node, i: Input): Option<(Node, Event)> {
    if i.RunNext? && n.posted != [] then Some((n.(posted := n.posted[1..]), n.posted[0]))
    else if i.Expire? && n.timer.StartDelay? then Some((n.(timer := Disarmed), StartClaim(n.timer.pref)))
    else if i.Expire? && n.timer.ClaimDelay? then Some((n.(timer := Disarmed), Timeout))
    else None
  }

  lemma StepOutcome(n: Node, i: Input)
    requires Fed(n, i).Some?
    ensures var (m, ev) := Fed(n, i).value; Outcome(m, ev, Step(n, i))
  {
    var (m, ev) := Fed(n, i).value;
    EventOutcome(m, ev);
  }

  function Run(n: Node, ins: seq<Input>): Effect
    decreases |ins|
  {
    if ins == [] then Effect(n, [])
    else
      var e := Step(n, ins[0]);
      var r := Run(e.node, ins[1..]);
      Effect(r.node, e.sent + r.sent)
  }

  /** The state in which a run finds its step `k`. */
  function Before(n: Node, ins: seq<Input>, k: nat): Node
    requires k <= |ins|
  {
    Run(n, ins[..k]).node
  }

  lemma {:induction false} RunLast(n: Node, ins: seq<Input>)
    requires ins != []
    ensures Run(n, ins).node == Step(Before(n, ins, |ins| - 1), ins[|ins| - 1]).node
    decreases |ins|
  {
    if |ins| == 1 {
      assert ins[..0] == [] && ins[1..] == [];
    } else {
      assert ins[..|ins| - 1][1..] == ins[1..][..|ins| - 2];
      RunLast(Step(n, ins[0]).node, ins[1..]);
    }
  }

  lemma BeforeStep(n: Node, ins: seq<Input>, k: nat)
    requires k < |ins|
    ensures Before(n, ins, k + 1) == Step(Before(n, ins, k), ins[k]).node
  {
    assert ins[..k + 1][..k] == ins[..k];
    RunLast(n, ins[..k + 1]);
  }
}
