/**
 * The network index: a map from NAME to address and a map from address to NAME, kept side by
 * side so that both directions are one lookup.
 *
 * `Net` is the pair of maps as a value and the functions on it are the specification; class
 * `Network` is the mutable object, whose methods are proved to compute those functions.
 */
module NetworkIndex {
  import opened J1939

  datatype Net = Net(fwd: map<Name, Address>, rev: map<Address, Name>)

  const EMPTY := Net(map[], map[])

  // ---------------------------------------------------------------- lookups

  predicate Claimable(t: Net, a: Address, n: Name) {
    Unicast(a) && (a in t.rev ==> Stronger(n, t.rev[a]))
  }

  function GetAddress(t: Net, n: Name): Address {
    if n in t.fwd then t.fwd[n] else NO_ADDR
  }

  predicate Full(t: Net) {
    |t.rev| > MAX_UNICAST
  }

  // ---------------------------------------------------------------- updates

  /** The lookup by `operator[]` creates address 0 for a name that has no entry. */
  function SetIdle(t: Net, n: Name): Net {
    Net(t.fwd[n := IDLE_ADDR], t.rev - {if n in t.fwd then t.fwd[n] else 0})
  }

  /** Registers a name without touching the entry it may already have. */
  function Ensure(t: Net, n: Name): Net {
    if n in t.fwd then t else t.(fwd := t.fwd[n := IDLE_ADDR])
  }

  predicate Accepts(t: Net, n: Name, a: Address) {
    if Unicast(a) then a in t.rev ==> !Stronger(t.rev[a], n)
    else n !in t.fwd || a == IDLE_ADDR
  }

  function Insert(t: Net, n: Name, a: Address): Net {
    if !Unicast(a) then
      if n !in t.fwd then Ensure(t, n)
      else if a == IDLE_ADDR then SetIdle(t, n)
      else t
    else if !Accepts(t, n, a) then Ensure(t, n)
    else
      var t1 := Ensure(t, n);
      var t2 := if a in t.rev && t.rev[a] != n then SetIdle(t1, t.rev[a]) else t1;
      Net(t2.fwd[n := a], t2.rev[a := n])
  }

  function Release(t: Net, n: Name): Net {
    if n !in t.fwd then t
    else Net(t.fwd[n := IDLE_ADDR], t.rev - {t.fwd[n]})
  }

  function Remove(t: Net, n: Name): Net {
    if n !in t.fwd then t
    else Net(t.fwd - {n}, t.rev - {t.fwd[n]})
  }

  // ---------------------------------------------------------------- the index invariant

  /**
   * What the two maps keep in common. It is one-sided: a name that moves leaves its old
   * address behind in `rev`, so `rev[a] == n` does not give `fwd[n] == a`.
   */
  ghost predicate Indexed(t: Net) {
    && (forall a | a in t.rev :: Unicast(a) && t.rev[a] in t.fwd)
    && (forall n | n in t.fwd :: t.fwd[n] <= IDLE_ADDR)
    && (forall n | n in t.fwd && Unicast(t.fwd[n]) :: t.fwd[n] in t.rev && t.rev[t.fwd[n]] == n)
  }

  /** Full agreement: no reverse entry is left behind. */
  ghost predicate TwoWay(t: Net) {
    Indexed(t) && forall a | a in t.rev :: t.fwd[t.rev[a]] == a
  }

  datatype Op = OpInsert(n: Name, a: Address) | OpRelease(n: Name) | OpClear

  function Apply(t: Net, op: Op): Net {
    match op
    case OpInsert(n, a) => Insert(t, n, a)
    case OpRelease(n) => Release(t, n)
    case OpClear => EMPTY
  }

  function ApplyAll(t: Net, ops: seq<Op>): Net
    decreases |ops|
  {
    if ops == [] then t else ApplyAll(Apply(t, ops[0]), ops[1..])
  }

  /**
   * An accepted unicast insert, entry by entry: the name and the address are paired, the
   * displaced name goes idle and loses the entry it holds, and nothing else changes.
   */
  ghost predicate Taken(t: Net, n: Name, a: Address, r: Net)
    requires Indexed(t)
  {
    && r.fwd.Keys == t.fwd.Keys + {n} && r.fwd[n] == a && a in r.rev && r.rev[a] == n
    && (forall m | m in t.fwd && m != n :: r.fwd[m] == if a in t.rev && t.rev[a] == m then IDLE_ADDR else t.fwd[m])
    && (forall b | b in r.rev && b != a :: b in t.rev && r.rev[b] == t.rev[b])
    && (forall b | b in t.rev && b !in r.rev ::
        a in t.rev && t.rev[a] != n && t.rev[b] == t.rev[a] && t.fwd[t.rev[a]] == b)
    && (a in t.rev && t.rev[a] != n ==> t.fwd[t.rev[a]] == a || t.fwd[t.rev[a]] !in r.rev)
  }

  /** The three things an insert can do. */
  ghost predicate Inserted(t: Net, n: Name, a: Address, r: Net)
    requires Indexed(t)
  {
    if Unicast(a) && Accepts(t, n, a) then Taken(t, n, a, r)
    else if a == IDLE_ADDR && n in t.fwd then r.fwd == t.fwd[n := IDLE_ADDR] && r.rev == t.rev - {t.fwd[n]}
    else r.rev == t.rev && r.fwd == if n in t.fwd then t.fwd else t.fwd[n := IDLE_ADDR]
  }

  lemma InsertInserts(t: Net, n: Name, a: Address)
    requires Indexed(t)
    ensures Inserted(t, n, a, Insert(t, n, a))
  {
  }

  lemma InsertedKeepsIndex(t: Net, n: Name, a: Address, r: Net)
    requires Indexed(t) && Inserted(t, n, a, r)
    ensures Indexed(r)
  {
  }

  lemma InsertKeepsIndex(t: Net, n: Name, a: Address)
    requires Indexed(t)
    ensures Indexed(Insert(t, n, a))
  {
    InsertInserts(t, n, a);
    InsertedKeepsIndex(t, n, a, Insert(t, n, a));
  }

  /** Every run of insert, release and clear keeps the index, and no two names share an address. */
  lemma {:induction false} RunKeepsIndex(t: Net, ops: seq<Op>)
    requires Indexed(t)
    ensures Indexed(ApplyAll(t, ops))
    ensures var r := ApplyAll(t, ops);
            forall m, n | m in r.fwd && n in r.fwd && Unicast(r.fwd[m]) && r.fwd[m] == r.fwd[n] :: m == n
    decreases |ops|
  {
    if ops != [] {
      if ops[0].OpInsert? { InsertKeepsIndex(t, ops[0].n, ops[0].a); }
      RunKeepsIndex(Apply(t, ops[0]), ops[1..]);
    }
  }

  /**
   * `insert` on a unicast address agrees with `claimable`; success pairs the name with the
   * address both ways, idles the displaced name alone, and a refusal only registers the name.
   */
  lemma InsertAgreesWithClaimable(t: Net, n: Name, a: Address)
    requires Indexed(t) && Unicast(a)
    requires a in t.rev && t.rev[a].rank == n.rank ==> t.rev[a] == n
    ensures Accepts(t, n, a) <==> Claimable(t, a, n) || (a in t.rev && t.rev[a] == n)
    ensures var r := Insert(t, n, a);
            if Accepts(t, n, a) then
              && GetAddress(r, n) == a && a in r.rev && r.rev[a] == n
              && (forall m | m != n && !(a in t.rev && t.rev[a] == m) :: GetAddress(r, m) == GetAddress(t, m))
              && (a in t.rev && t.rev[a] != n ==> GetAddress(r, t.rev[a]) == IDLE_ADDR)
            else
              r.rev == t.rev && r.fwd == (if n in t.fwd then t.fwd else t.fwd[n := IDLE_ADDR])
  {
  }

  /**
   * Full agreement survives an accepted unicast insert exactly when the name was not holding
   * another unicast address.
   */
  lemma InsertKeepsTwoWayExactly(t: Net, n: Name, a: Address)
    requires TwoWay(t) && Unicast(a) && Accepts(t, n, a)
    ensures TwoWay(Insert(t, n, a)) <==> !(n in t.fwd && Unicast(t.fwd[n]) && t.fwd[n] != a)
  {
    var r := Insert(t, n, a);
    InsertKeepsIndex(t, n, a);
    if n in t.fwd && Unicast(t.fwd[n]) && t.fwd[n] != a {
      var b := t.fwd[n];
      assert b in r.rev && r.rev[b] == n;
    }
  }

  /** `remove` keeps the index exactly when the name has left no reverse entry behind. */
  lemma RemoveKeepsIndexExactly(t: Net, n: Name)
    requires Indexed(t)
    ensures Indexed(Remove(t, n)) <==> !(n in t.fwd && exists a :: a in t.rev && t.rev[a] == n && a != t.fwd[n])
  {
  }

  /**
   * A left-behind entry costs its owner the address it really holds: 5 moves from 10 to 20,
   * 3 takes 10, and 20 reads as available although nobody contested it.
   */
  lemma LeftBehindEntryLosesHeldAddress()
    ensures var t := ApplyAll(EMPTY, [OpInsert(Name(false, 5), 10), OpInsert(Name(false, 5), 20)]);
            var r := Insert(t, Name(false, 3), 10);
            GetAddress(t, Name(false, 5)) == 20 && GetAddress(r, Name(false, 5)) == IDLE_ADDR && 20 !in r.rev
  {
  }

  /**
   * An accepted claim takes another address out of the network exactly when the name it displaces
   * has moved on to that address; the owner of the address has no part in it.
   */
  lemma InsertFreesAnotherExactly(t: Net, n: Name, a: Address)
    requires Indexed(t) && Unicast(a) && Accepts(t, n, a)
    ensures var r := Insert(t, n, a);
            (exists b :: b in t.rev && b !in r.rev) <==>
              a in t.rev && t.rev[a] != n && Unicast(t.fwd[t.rev[a]]) && t.fwd[t.rev[a]] != a
  {
    var r := Insert(t, n, a);
    if a in t.rev && t.rev[a] != n && Unicast(t.fwd[t.rev[a]]) && t.fwd[t.rev[a]] != a {
      assert t.fwd[t.rev[a]] in t.rev && t.fwd[t.rev[a]] !in r.rev;
    }
  }

  /**
   * Displacing a name that is not registered any more frees address 0, whoever is on it: the lookup
   * creates that address for the name before it is erased.
   */
  lemma DisplacingUnknownFreesZero(t: Net, n: Name, a: Address)
    requires Unicast(a) && a != 0 && Accepts(t, n, a) && a in t.rev && t.rev[a] != n && t.rev[a] !in t.fwd
    ensures var r := Insert(t, n, a);
            && r.rev == (t.rev - {0})[a := n]
            && r.fwd == t.fwd[t.rev[a] := IDLE_ADDR][n := a]
  {
    assert (t.fwd[n := IDLE_ADDR])[t.rev[a] := IDLE_ADDR][n := a] == t.fwd[t.rev[a] := IDLE_ADDR][n := a];
  }

  /** A run that gets there: 5 moves from 10 to 20 and is removed, 3 takes 10, and 7 loses address 0. */
  lemma RemovedNameFreesZero()
    ensures var t := ApplyAll(EMPTY, [OpInsert(Name(false, 7), 0), OpInsert(Name(false, 5), 10),
                                      OpInsert(Name(false, 5), 20)]);
            var r := Insert(Remove(t, Name(false, 5)), Name(false, 3), 10);
            GetAddress(r, Name(false, 7)) == 0 && 0 !in r.rev
  {
    var n5, n7 := Name(false, 5), Name(false, 7);
    var ops := [OpInsert(n7, 0), OpInsert(n5, 10), OpInsert(n5, 20)];
    var t1, t2 := Insert(EMPTY, n7, 0), Insert(Insert(EMPTY, n7, 0), n5, 10);
    assert ops[1..] == [OpInsert(n5, 10), OpInsert(n5, 20)] && ops[1..][1..] == [OpInsert(n5, 20)];
    assert ApplyAll(t2, ops[1..][1..]) == Insert(t2, n5, 20);
    assert ApplyAll(EMPTY, ops) == Insert(t2, n5, 20);
  }

  // ---------------------------------------------------------------- address search

  /** An address the search may return for `n`: free, or already recorded for `n`. */
  predicate Usable(t: Net, n: Name, a: Address) {
    a !in t.rev || t.rev[a].rank == n.rank
  }

  function Search(t: Net, n: Name, start: Address, end: Address): (r: Address)
    decreases end - start
  {
    if start >= end then NO_ADDR
    else if Usable(t, n, start) then start
    else Search(t, n, start + 1, end)
  }

  function Clamp(a: Address): (r: Address) {
    if a > MAX_UNICAST then MAX_UNICAST else a
  }

  function FindAddress(t: Net, n: Name, preferred: Address): Address {
    var p := Clamp(preferred);
    if !n.selfConfig then
      if p !in t.rev || RawAtMost(n, t.rev[p]) then p else NO_ADDR
    else
      var a := Search(t, n, p, IDLE_ADDR);
      if a == NO_ADDR then Search(t, n, 0, p) else a
  }

  lemma {:induction false} SearchIsFirst(t: Net, n: Name, start: Address, end: Address)
    requires end <= IDLE_ADDR
    ensures var r := Search(t, n, start, end);
            if r == NO_ADDR then forall b: Address | start <= b < end :: b in t.rev && t.rev[b].rank != n.rank
            else
              && start <= r < end && (r in t.rev ==> t.rev[r].rank == n.rank)
              && forall b: Address | start <= b < r :: b in t.rev && t.rev[b].rank != n.rank
    decreases end - start
  {
    if start < end && !Usable(t, n, start) {
      SearchIsFirst(t, n, start + 1, end);
    }
  }

  /** The i-th address in the order p, p+1, .., 253, 0, .., p-1. */
  function Cyclic(p: Address, i: nat): (a: Address)
    requires Unicast(p) && i < 254
    ensures Unicast(a)
  {
    if p + i < 254 then p + i else p + i - 254
  }

  /** How far `a` lies from `p` in that order. */
  function Distance(p: Address, a: Address): (i: nat)
    requires Unicast(p) && Unicast(a)
    ensures i < 254 && Cyclic(p, i) == a
  {
    if a >= p then a - p else a + 254 - p
  }

  /** The address is on record for a name of another rank. */
  predicate Occupied(t: Net, n: Name, a: Address) {
    a in t.rev && t.rev[a].rank != n.rank
  }

  /** For a self-configurable name the search returns the first address in cyclic order that nobody else is on. */
  lemma FindAddressIsFirstInCyclicOrder(t: Net, n: Name, preferred: Address)
    requires n.selfConfig
    ensures var p, r := if preferred <= 253 then preferred else 253, FindAddress(t, n, preferred);
            if r == 255 then forall i: nat | i < 254 :: Occupied(t, n, Cyclic(p, i))
            else
              && r <= 253 && !Occupied(t, n, r)
              && forall i: nat | i < Distance(p, r) :: Occupied(t, n, Cyclic(p, i))
  {
    var p := Clamp(preferred);
    SearchIsFirst(t, n, p, IDLE_ADDR);
    SearchIsFirst(t, n, 0, p);
  }

  /** A fixed-address name gets its preferred address unless a numerically smaller NAME is on it. */
  lemma FindAddressOfFixedName(t: Net, n: Name, preferred: Address)
    requires !n.selfConfig
    ensures var p := if preferred <= 253 then preferred else 253;
            && (FindAddress(t, n, preferred) == 255 <==>
                  p in t.rev && !t.rev[p].selfConfig && t.rev[p].rank < n.rank)
            && (FindAddress(t, n, preferred) in {p, NO_ADDR})
  {
  }

  // ---------------------------------------------------------------- full

  /** The addresses below n, and how many they are. */
  ghost function Below(n: nat): (s: set<Address>)
    requires n <= 256
    ensures forall a: Address :: a in s <==> a < n
    ensures |s| == n
  {
    if n == 0 then {} else Below(n - 1) + {n - 1}
  }

  lemma SubsetOfEqualSize<T>(s: set<T>, u: set<T>)
    requires s <= u && |s| >= |u|
    ensures s == u
  {
    assert |u - s| == |u| - |s|;
  }

  lemma SubsetSize<T>(s: set<T>, u: set<T>)
    requires s <= u
    ensures |s| <= |u|
  {
    assert |u - s| == |u| - |s|;
  }

  lemma CountReaches(keys: set<Address>, n: nat)
    requires n <= 256 && forall a | a in keys :: a < n
    ensures |keys| >= n <==> forall a: Address | a < n :: a in keys
  {
    var all := Below(n);
    if |keys| >= n {
      SubsetOfEqualSize(keys, all);
    } else {
      assert keys != all;
      var a :| a in all && a !in keys;
    }
  }

  /** `full` compares a count with 253; it means that every unicast address is a reverse key. */
  lemma FullIffNoAddressFree(t: Net)
    requires Indexed(t)
    ensures Full(t) <==> forall a: Address | Unicast(a) :: a in t.rev
  {
    assert |t.rev| == |t.rev.Keys|;
    CountReaches(t.rev.Keys, MAX_UNICAST + 1);
  }

  /** Consequently the search of a self-configurable name fails only on a full network. */
  lemma SearchSucceedsUnlessFull(t: Net, n: Name, preferred: Address)
    requires Indexed(t) && n.selfConfig && !Full(t)
    ensures Unicast(FindAddress(t, n, preferred)) && Usable(t, n, FindAddress(t, n, preferred))
  {
    FullIffNoAddressFree(t);
    FindAddressIsFirstInCyclicOrder(t, n, preferred);
    var a: Address :| Unicast(a) && a !in t.rev;
    assert !Occupied(t, n, Cyclic(Clamp(preferred), Distance(Clamp(preferred), a)));
  }
}
