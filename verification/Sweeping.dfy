/** The periodic sweep removes exactly the sessions idle for longer than their timeout. */
module Sweeping {
  import opened J1939
  import opened Frames
  import opened Transport
  import opened TransportRuns
  import opened TransportLaws

  /** The sessions of `order` that have timed out. */
  ghost function Stale(t: Tp, order: seq<Key>, now: int): (r: seq<Key>)
    ensures forall k :: k in r <==> k in order && k in t.sessions && Expired(t.sessions[k], now)
    decreases |order|
  {
    if order == [] then []
    else
      assert order == Front(order) + [Last(order)];
      var k := Last(order);
      Stale(t, Front(order), now) + (if k in t.sessions && Expired(t.sessions[k], now) then [k] else [])
  }

  /** The abort of a session that has timed out. */
  ghost function Aborts(t: Tp, ks: seq<Key>): (r: seq<Frame>)
    requires forall k | k in ks :: k in t.sessions
    ensures |r| == |ks|
  {
    seq(|ks|, i requires 0 <= i < |ks| =>
      var s := t.sessions[ks[i]]; CmFrame(s.src, s.dest, 0xFF, 3, 0, 0, 0, s.pgn))
  }

  ghost predicate Distinct(order: seq<Key>) {
    forall i, j | 0 <= i < j < |order| :: order[i] != order[j]
  }

  /** The ten-minute clean-up asks for more than either timeout and so never applies first. */
  lemma CleanUpIsDead(s: Session, now: int)
    ensures SESSION_CLEAN_TIMEOUT == 10 * 60 * 1000
    ensures now - s.last > SESSION_CLEAN_TIMEOUT ==> Expired(s, now)
  {
  }

  /** `r` is `t` without the sessions `stale`: an abort was tried and a timeout reported for each, in this order. */
  ghost predicate Swept(t: Tp, stale: seq<Key>, r: Tp) {
    && (forall k | k in stale :: k in t.sessions)
    && Tried(t, Aborts(t, stale), seq(|stale|, _ => TimedOut), t.sessions - (set k | k in stale), r)
  }

  lemma OneSwept(r: Tp, k: Key, now: int)
    requires k in r.sessions && Expired(r.sessions[k], now)
    ensures var s := r.sessions[k];
            var abort := CmFrame(s.src, s.dest, 0xFF, 3, 0, 0, 0, s.pgn);
            Tried(r, [abort], [TimedOut], r.sessions - {k}, SweepOne(r, k, now))
  {
    OneTry(r, AbortFrame(r.sessions[k], ABORT_TIMEOUT));
  }

  lemma SweepStale(t: Tp, stale: seq<Key>, r: Tp, k: Key, now: int)
    requires Swept(t, stale, r) && k !in stale && k in t.sessions && Expired(t.sessions[k], now)
    ensures Swept(t, stale + [k], SweepOne(r, k, now))
  {
    var s, gone := t.sessions[k], t.sessions - (set j | j in stale);
    var abort := CmFrame(s.src, s.dest, 0xFF, 3, 0, 0, 0, s.pgn);
    OneSwept(r, k, now);
    ThenTried(t, Aborts(t, stale), seq(|stale|, _ => TimedOut), gone, r, [abort], [TimedOut], gone - {k},
        SweepOne(r, k, now));
    assert Aborts(t, stale + [k]) == Aborts(t, stale) + [abort];
    assert seq(|stale| + 1, _ => TimedOut) == seq(|stale|, _ => TimedOut) + [TimedOut];
    assert gone - {k} == t.sessions - (set j | j in stale + [k]);
  }

  lemma SweepOther(t: Tp, stale: seq<Key>, r: Tp, k: Key, now: int)
    requires Swept(t, stale, r) && k !in stale && (k in t.sessions ==> !Expired(t.sessions[k], now))
    ensures SweepOne(r, k, now) == r
  {
    if k in t.sessions { CleanUpIsDead(t.sessions[k], now); }
  }

  lemma {:induction false} TickSweeps(t: Tp, order: seq<Key>, now: int)
    requires Distinct(order)
    ensures Swept(t, Stale(t, order, now), Tick(t, order, now))
    decreases |order|
  {
    if order == [] {
      assert t.sent + [] == t.sent && t.errors + [] == t.errors && t.sessions - {} == t.sessions;
    } else {
      var k, first := Last(order), Front(order);
      assert order == first + [k] && k !in first;
      TickSnoc(t, first, k, now);
      TickSweeps(t, first, now);
      var stale, r := Stale(t, first, now), Tick(t, first, now);
      if k in t.sessions && Expired(t.sessions[k], now) {
        SweepStale(t, stale, r, k, now);
      } else {
        SweepOther(t, stale, r, k, now);
        assert stale + [] == stale;
      }
    }
  }

  lemma {:induction false} StaleIsDistinct(t: Tp, order: seq<Key>, now: int)
    requires Distinct(order)
    ensures Distinct(Stale(t, order, now))
    decreases |order|
  {
    if order != [] {
      StaleIsDistinct(t, Front(order), now);
      assert forall k | k in Front(order) :: k != Last(order);
    }
  }

  /**
   * In whatever order the sessions are listed: exactly the expired ones are gone, the others are
   * as they were, and for each expired one an abort was tried and one timeout reported.
   */
  lemma SweepRemovesExactlyExpired(t: Tp, order: seq<Key>, now: int) returns (stale: seq<Key>)
    requires Listing(order, t.sessions.Keys)
    ensures Listing(stale, set k | k in t.sessions && now - t.sessions[k].last > 1250)
    ensures Swept(t, stale, Tick(t, order, now))
  {
    stale := Stale(t, order, now);
    TickSweeps(t, order, now);
    StaleIsDistinct(t, order, now);
  }
}
