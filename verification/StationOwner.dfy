/** The station-control lease (src/station_owner.c), and millisecond clocks. */
module StationOwner {
  const TWO_64: nat := 0x1_0000_0000_0000_0000
  const STATION_LEASE_MS: nat := 15_000

  /** `now - since` as 64-bit unsigned arithmetic gives it. */
  function Elapsed(now: nat, since: nat): nat {
    if since <= now then now - since else (now - since) % TWO_64
  }

  /** It is the time passed, across the wrap of the clock too. */
  lemma ElapsedIs(now: nat, since: nat)
    requires now < TWO_64 && since < TWO_64
    ensures Elapsed(now, since) < TWO_64 && (since + Elapsed(now, since)) % TWO_64 == now
    ensures since <= now ==> since + Elapsed(now, since) == now
  {
  }

  datatype OwnerResult = Ok | Busy | Stale | Invalid | Expired

  class Station {
    var held: bool
    var modeAware: bool
    var lease: nat
    var renewedMs: nat

    constructor ()
      ensures !held && !modeAware && lease == 0 && renewedMs == 0
    {
      held, modeAware, lease, renewedMs := false, false, 0, 0;
    }

    predicate Matches(lease: nat)
      reads this
    {
      held && lease != 0 && this.lease == lease
    }

    method Clear()
      modifies this
      ensures !held && !modeAware && lease == 0 && renewedMs == 0
    {
      held, modeAware, lease, renewedMs := false, false, 0, 0;
    }

    method Acquire(newLease: nat, nowMs: nat, aware: bool) returns (r: OwnerResult)
      modifies this
      ensures r == if newLease == 0 then Invalid else if old(held) then Busy else Ok
      ensures if r == Ok then held && modeAware == aware && lease == newLease && renewedMs == nowMs
              else
                && held == old(held) && modeAware == old(modeAware)
                && lease == old(lease) && renewedMs == old(renewedMs)
    {
      if newLease == 0 {
        return Invalid;
      }
      if held {
        return Busy;
      }
      held, modeAware, lease, renewedMs := true, aware, newLease, nowMs;
      return Ok;
    }

    /** Renews without looking at the age of the lease: only `Tick` expires it. */
    method Keepalive(presented: nat, nowMs: nat) returns (r: OwnerResult)
      modifies this`renewedMs
      ensures r == if Matches(presented) then Ok else Stale
      ensures renewedMs == if r == Ok then nowMs else old(renewedMs)
    {
      if !Matches(presented) {
        return Stale;
      }
      renewedMs := nowMs;
      return Ok;
    }

    method Release(presented: nat) returns (r: OwnerResult)
      modifies this
      ensures r == if old(Matches(presented)) then Ok else Stale
      ensures if r == Ok then !held && !modeAware && lease == 0 && renewedMs == 0
              else
                && held == old(held) && modeAware == old(modeAware)
                && lease == old(lease) && renewedMs == old(renewedMs)
    {
      if !Matches(presented) {
        return Stale;
      }
      Clear();
      return Ok;
    }

    method Tick(nowMs: nat) returns (r: OwnerResult)
      modifies this
      ensures r == if old(held) && Elapsed(nowMs, old(renewedMs)) >= STATION_LEASE_MS then Expired else Ok
      ensures if r == Expired then !held && !modeAware && lease == 0 && renewedMs == 0
              else
                && held == old(held) && modeAware == old(modeAware)
                && lease == old(lease) && renewedMs == old(renewedMs)
    {
      if !held || Elapsed(nowMs, renewedMs) < STATION_LEASE_MS {
        return Ok;
      }
      Clear();
      return Expired;
    }
  }
}
