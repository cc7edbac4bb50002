/** The mutable network object; every method is proved to compute the function of module NetworkIndex. */
module NetworkObject {
  import opened J1939
  import opened Index = NetworkIndex

  class Network {
    var fwd: map<Name, Address>
    var rev: map<Address, Name>

    function Value(): Net
      reads this
    {
      Net(fwd, rev)
    }

    constructor ()
      ensures Value() == EMPTY
    {
      fwd, rev := map[], map[];
    }

    /** `notified` tells whether the new-name callback is invoked. */
    method Insert(name: Name, address: Address) returns (ok: bool, notified: bool)
      modifies this
      ensures Value() == Index.Insert(old(Value()), name, address)
      ensures ok == Accepts(old(Value()), name, address)
      ensures notified <==> ok && Unicast(address) && (name !in old(fwd) || old(fwd[name]) != address)
    {
      var firstTime := name !in fwd;
      var previous := if firstTime then IDLE_ADDR else fwd[name];
      if address > MAX_UNICAST {
        if firstTime {
          fwd := fwd[name := IDLE_ADDR];
          return true, false;
        } else if address == IDLE_ADDR {
          Idle(name);
          return true, false;
        }
        return false, false;
      }
      var occupied := address in rev;
      if occupied && Stronger(rev[address], name) {
        if name !in fwd { fwd := fwd[name := IDLE_ADDR]; }
        return false, false;
      }
      if name !in fwd { fwd := fwd[name := IDLE_ADDR]; }
      if occupied && rev[address] != name { Idle(rev[address]); }
      fwd := fwd[name := address];
      rev := rev[address := name];
      return true, firstTime || previous != address;
    }

    method Idle(n: Name)
      modifies this
      ensures Value() == SetIdle(old(Value()), n)
    {
      if n !in fwd { fwd := fwd[n := 0]; }
      rev := rev - {fwd[n]};
      fwd := fwd[n := IDLE_ADDR];
    }

    method Release(name: Name)
      modifies this
      ensures Value() == Index.Release(old(Value()), name)
    {
      if name !in fwd { return; }
      var address := fwd[name];
      fwd := fwd[name := IDLE_ADDR];
      if address !in rev {
        assert rev - {address} == rev;
        return;
      }
      rev := rev - {address};
    }

    method Remove(name: Name)
      modifies this
      ensures Value() == Index.Remove(old(Value()), name)
    {
      if name !in fwd { return; }
      var address := fwd[name];
      fwd := fwd - {name};
      if address !in rev {
        assert rev - {address} == rev;
        return;
      }
      rev := rev - {address};
    }

    method Clear()
      modifies this
      ensures Value() == EMPTY
    {
      fwd, rev := map[], map[];
    }

    /** Counts upward from `start`, as the original does on an 8-bit counter. */
    method SearchFrom(name: Name, start: Address, end: Address) returns (r: Address)
      requires end <= IDLE_ADDR
      ensures r == Search(Value(), name, start, end)
    {
      var address := start;
      while address < end
        invariant start <= address <= NO_ADDR
        invariant Search(Value(), name, start, end) == Search(Value(), name, address, end)
        decreases end - address
      {
        if Usable(Value(), name, address) { return address; }
        address := address + 1;
      }
      return NO_ADDR;
    }

    method Find(name: Name, preferred: Address) returns (r: Address)
      ensures r == FindAddress(Value(), name, preferred)
    {
      var p := Clamp(preferred);
      if !name.selfConfig {
        if p !in rev || RawAtMost(name, rev[p]) { return p; }
        return NO_ADDR;
      }
      r := SearchFrom(name, p, IDLE_ADDR);
      if r == NO_ADDR {
        r := SearchFrom(name, 0, p);
      }
    }
  }
}
