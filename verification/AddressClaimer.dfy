/** The claimer object: a machine state, a timer and a queue driving a shared network object. */
module AddressClaimerObject {
  import opened J1939
  import opened NetworkIndex
  import opened NetworkObject
  import opened Machine = AddressMachine

  class AddressClaimer {
    const me: Name
    const network: Network
    var state: State
    var timer: Timer
    var posted: seq<Event>
    var sent: seq<Msg>

    function Value(): Node
      reads this, network
    {
      Node(me, network.Value(), state, timer, posted)
    }

    constructor (name: Name, net: Network)
      ensures me == name && network == net
      ensures Value() == Node(name, net.Value(), NoAddress, Disarmed, []) && sent == []
    {
      me, network := name, net;
      state, timer, posted, sent := NoAddress, Disarmed, [], [];
    }

    /** Claims are inserted at once; the event is posted only when the insert succeeds. */
    method ProcessClaim(name: Name, addr: Address)
      modifies this`posted, network
      ensures Value() == Machine.ProcessClaim(old(Value()), name, addr)
    {
      var ok, _ := network.Insert(name, addr);
      if ok { posted := posted + [AddressClaim(name, addr)]; }
    }

    method ProcessRequest(dest: Address)
      modifies this`posted
      ensures Value() == Post(old(Value()), AddressRequest(dest))
    {
      posted := posted + [AddressRequest(dest)];
    }

    method StartAddressClaim(pref: Address)
      modifies this`posted, this`timer
      ensures Value() == Machine.StartAddressClaim(old(Value()), pref)
    {
      if !state.NoAddress? { return; }
      posted := posted + [Restart];
      timer := StartDelay(pref);
    }

    method RunPosted()
      modifies this, network
      ensures Value() == Machine.RunPosted(old(Value())).node
      ensures sent == old(sent) + Machine.RunPosted(old(Value())).sent
    {
      if posted == [] { return; }
      var ev := posted[0];
      posted := posted[1..];
      ProcessEvent(ev);
    }

    method TimerFires()
      modifies this, network
      ensures Value() == Machine.TimerFires(old(Value())).node
      ensures sent == old(sent) + Machine.TimerFires(old(Value())).sent
    {
      var waiting := timer;
      timer := Disarmed;
      match waiting
      case Disarmed =>
      case StartDelay(pref) => ProcessEvent(StartClaim(pref));
      case ClaimDelay => ProcessEvent(Timeout);
      case CannotClaimDelay =>
        sent := sent + [Claim(me, IDLE_ADDR)];
        if me.selfConfig { posted := posted + [RandomRetry]; }
    }

    /** The transition table, one callback at a time. */
    method ProcessEvent(ev: Event)
      modifies this`state, this`timer, this`sent, network
      ensures Value() == Machine.ProcessEvent(old(Value()), ev).node
      ensures sent == old(sent) + Machine.ProcessEvent(old(Value()), ev).sent
    {
      var row := Select(Value(), ev);
      if row == None { return; }
      RowsAreExclusive(Value(), ev, row.value);
      match row.value
      case NoAddressRequest => timer := CannotClaimDelay;
      case NoAddressStart => BeginClaiming(ev.pref);
      case NoAddressStartFull => timer := CannotClaimDelay;
      case NoAddressRestart => EnterNoAddress();
      case ClaimingPriority => sent := sent + [Claim(me, state.addr)];
      case ClaimingLoss => BeginClaiming(state.addr);
      case ClaimingFailure => state := AddressLost; timer := CannotClaimDelay;
      case ClaimingValid =>
        state := HasAddress(state.addr);
        var _, _ := network.Insert(me, state.addr);
      case ClaimingInvalid => EnterNoAddress();
      case ClaimingRequest => sent := sent + [Claim(me, state.addr)];
      case HasRequest => sent := sent + [Claim(me, state.addr)];
      case HasPriority => sent := sent + [Claim(me, state.addr)];
      case HasLoss =>
        network.Release(me);
        BeginClaiming(state.addr);
      case HasFailure =>
        network.Release(me);
        state := AddressLost;
        timer := CannotClaimDelay;
      case LostRequest => timer := CannotClaimDelay;
      case LostRetry => BeginClaiming(0);
      case LostGiveUp =>
        timer := CannotClaimDelay;
        EnterNoAddress();
    }

    method BeginClaiming(from: Address)
      modifies this`state, this`timer, this`sent
      ensures Value() == Machine.BeginClaiming(old(Value()), from).node
      ensures sent == old(sent) + Machine.BeginClaiming(old(Value()), from).sent
    {
      timer := ClaimDelay;
      var a := network.Find(me, from);
      state := Claiming(a);
      sent := sent + [Claim(me, a)];
    }

    method EnterNoAddress()
      modifies this`state, this`sent
      ensures Value() == Machine.EnterNoAddress(old(Value())).node
      ensures sent == old(sent) + Machine.EnterNoAddress(old(Value())).sent
    {
      state := NoAddress;
      if |network.rev| <= MAX_UNICAST { sent := sent + [Request(NO_ADDR)]; }
    }
  }
}
